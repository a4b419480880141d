/** What an applied indication changes: the map and the parameters in force are those of the log. */
module InForce {
  import opened Octets
  import opened Wrappers
  import opened ControlPdus
  import opened ChannelSelection
  import opened ConnectInd
  import opened Connection
  import opened Runs
  import opened Instants

  /** The map of the last applied indication, or the first map. */
  function MapInForce(log: seq<Record<ChannelMapInd>>, first: ChannelMap): ChannelMap {
    if log == [] then first
    else
      var last := log[|log| - 1];
      if last.Applied? then last.item.bitmap else MapInForce(log[..|log| - 1], first)
  }

  datatype Parameters = Parameters(
    windowSize: u8, windowOffset: u16, interval: u16, latency: u16, supervisionTimeout: u16)

  /** The parameters of the last applied update, or the first ones. */
  function ParametersInForce(log: seq<Record<ConnectionUpdateInd>>, first: Parameters): Parameters {
    if log == [] then first
    else
      var last := log[|log| - 1];
      if last.Applied? then
        Parameters(last.item.windowSize, last.item.windowOffset, last.item.interval, last.item.latency,
                   last.item.supervisionTimeout)
      else ParametersInForce(log[..|log| - 1], first)
  }

  function RequestParameters(r: Request): Parameters {
    Parameters(r.windowSize, r.windowOffset, r.interval, r.latency, r.supervisionTimeout)
  }

  function FirstParameters(c: ConnectRequest): Parameters {
    Parameters(c.windowSize, c.windowOffset, c.interval, c.latency, c.supervisionTimeout)
  }

  /** The schedule uses the map and the parameters that its logs put in force. */
  ghost predicate UsesLogs(s: Schedule, c: ConnectRequest) {
    && s.channels.bitmap == MapInForce(s.maps, c.channelMap) && s.request.channelMap == s.channels.bitmap
    && RequestParameters(s.request) == ParametersInForce(s.updates, FirstParameters(c))
    && s.channels.hop == c.hopIncrement && s.request.sleepClockAccuracy == c.sleepClockAccuracy
  }

  lemma ApplyUsesLogs(s: Schedule, c: ConnectRequest)
    requires UsesLogs(s, c)
    ensures UsesLogs(ApplyDue(s), c)
  {
    var mapped := if MapDue(s) then ApplyMap(s) else s;
    assert UsesLogs(mapped, c);
  }

  lemma AcceptedUsesLogs(s: Schedule, c: ConnectRequest, u: ConnectionUpdateInd, m: ChannelMapInd)
    requires UsesLogs(s, c)
    ensures UsesLogs(AcceptUpdate(s, u), c) && UsesLogs(AcceptMap(s, m), c)
  {
    assert AcceptUpdate(s, u).updates[..|s.updates|] == s.updates;
    assert AcceptMap(s, m).maps[..|s.maps|] == s.maps;
  }

  /** Scheduling, hopping and synchronizing touch neither. */
  lemma MovingUsesLogs(s: Schedule, c: ConnectRequest, anchor: nat, windowUs: nat)
    requires UsesLogs(s, c)
    ensures UsesLogs(ScheduleFollowing(s), c) && UsesLogs(Synchronize(s, anchor), c)
    ensures UsesLogs(s.(channels := Hop(s.channels), windowUs := windowUs), c)
  {
  }

  lemma UpdateUsesLogs(link: Link, c: ConnectRequest, payload: seq<u8>)
    requires UsesLogs(link.sched, c)
    ensures UsesLogs(HandleConnectionUpdate(link, payload).0.sched, c)
  {
    var parsed := ParseConnectionUpdate(payload, link.sched.counter);
    if parsed.Ok? {
      assert OwnUpdate(link, parsed.value).0.sched == link.sched;
      AcceptedUsesLogs(link.sched, c, parsed.value, ChannelMapInd([0, 0, 0, 0, 0], 0));
    }
  }

  lemma MapUsesLogs(link: Link, c: ConnectRequest, payload: seq<u8>)
    requires UsesLogs(link.sched, c)
    ensures UsesLogs(HandleChannelMap(link, payload).0.sched, c)
  {
    var parsed := ParseChannelMap(payload, link.sched.counter);
    if parsed.Ok? {
      AcceptedUsesLogs(link.sched, c, ConnectionUpdateInd(0, 0, 0, 0, 0, 0), parsed.value);
    }
  }

  lemma ControlUsesLogs(link: Link, c: ConnectRequest, payload: seq<u8>)
    requires UsesLogs(link.sched, c)
    ensures UsesLogs(HandleLlControl(link, payload).0.sched, c)
  {
    if payload != [] && payload[0] == 0x00 {
      UpdateUsesLogs(link, c, payload);
    } else if payload != [] && payload[0] == 0x01 {
      MapUsesLogs(link, c, payload);
    } else {
      OtherPdusKeepSchedule(link, payload);
    }
  }

  lemma ConcludeUsesLogs(link: Link, c: ConnectRequest, terminated: Option<u8>, sentTerminate: bool, anchor: nat)
    requires UsesLogs(link.sched, c)
    ensures UsesLogs(Conclude(link, terminated, sentTerminate, anchor).0.sched, c)
  {
    ApplyUsesLogs(link.sched, c);
    MovingUsesLogs(ApplyDue(link.sched), c, anchor, 0);
  }

  lemma AcceptUsesLogs(link: Link, c: ConnectRequest, header: u8, payload: seq<u8>)
    requires UsesLogs(link.sched, c)
    ensures UsesLogs(Accept(link, header, payload).0.sched, c)
  {
    ControlUsesLogs(link.(tx := TakeReceived(link.tx, header, payload)), c, payload);
  }

  lemma ExchangeUsesLogs(link: Link, c: ConnectRequest, e: Exchange, now: u64)
    requires StagedOk(link.tx) && link.tx.staged.Some? && UsesLogs(link.sched, c)
    ensures UsesLogs(ExchangeEvent(link, e, now).0.sched, c)
  {
    ReportCarries(link, e.transmitted);
    var reported := Report(link, e.transmitted).0;
    assert reported.sched == link.sched;
    if Report(link, e.transmitted).1 && e.crcOk && ParsePacket(e.packet).Some? {
      var header, payload := ParsePacket(e.packet).value.0, ParsePacket(e.packet).value.1;
      var outstanding := !link.tx.staged.value.unsent;
      var acked := Acknowledge(reported, Nesn(header), outstanding, now).0;
      assert acked.sched == link.sched;
      AcceptUsesLogs(acked, c, header, payload);
      var (taken, terminated) := Accept(acked, header, payload);
      ConcludeUsesLogs(taken, c, terminated, SendsTerminate(reported, e.transmitted),
                       AnchorOf(e.timestampUs, |payload|));
      assert ExchangeEvent(link, e, now)
          == FinishEvent(reported, header, payload, outstanding, SendsTerminate(reported, e.transmitted),
                         e.timestampUs, now);
    }
  }

  lemma EventUsesLogs(link: Link, c: ConnectRequest, exchange: Option<Exchange>, now: u64)
    requires StagedOk(link.tx) && UsesLogs(link.sched, c)
    ensures UsesLogs(ConnectionEvent(link, exchange, now).0.sched, c)
  {
    ApplyUsesLogs(link.sched, c);
    MovingUsesLogs(ApplyDue(link.sched), c, 0, 0);
    StageKeeps(link.tx);
    var (prepared, failed) := Prepared(link);
    assert UsesLogs(prepared.sched, c);
    if failed == None && exchange.Some? {
      ExchangeUsesLogs(prepared, c, exchange.value, now);
      assert ConnectionEvent(link, exchange, now) == ExchangeEvent(prepared, exchange.value, now);
    }
  }

  lemma {:induction false} SkipsUseLogs(link: Link, c: ConnectRequest, n: nat)
    requires UsesLogs(link.sched, c)
    ensures UsesLogs(SkipEvents(link, n).sched, c)
  {
    if n > 0 {
      SkipsUseLogs(link, c, n - 1);
      var s := SkipEvents(link, n - 1).sched;
      ApplyUsesLogs(s, c);
      MovingUsesLogs(ApplyDue(s), c, 0, ApplyDue(s).windowUs);
      SkipIsUnheard(SkipEvents(link, n - 1));
      MovingUsesLogs(ApplyDue(s).(channels := Hop(ApplyDue(s).channels)), c, 0, 0);
    }
  }

  lemma ActUsesLogs(r: Running, c: ConnectRequest, a: Action)
    requires StagedOk(r.link.tx) && UsesLogs(r.link.sched, c)
    ensures UsesLogs(Act(r, a).link.sched, c)
  {
    if r.open {
      match a
      case Skip(events) => SkipsUseLogs(r.link, c, events);
      case Event(exchange, now) =>
        EventUsesLogs(r.link, c, exchange, now);
        MovingUsesLogs(ConnectionEvent(r.link, exchange, now).0.sched, c, 0, 0);
      case Command(opcode, params) => CommandKeepsSchedule(r.link, opcode, params);
      case SendAcl(_) =>
      case CheckResponses(_) =>
    }
  }

  lemma {:induction false} RunUsesLogs(r: Running, c: ConnectRequest, actions: seq<Action>)
    requires StagedOk(r.link.tx) && UsesLogs(r.link.sched, c)
    ensures UsesLogs(Run(r, actions).link.sched, c)
  {
    if actions != [] {
      var n := |actions| - 1;
      RunUsesLogs(r, c, actions[..n]);
      ActUsesLogs(Run(r, actions[..n]), c, actions[n]);
    }
  }

  /**
   * In every run, the map that selects channels and the connection parameters are those of the last indication
   * that was applied, or those of the CONNECT_IND while there was none.
   */
  lemma {:induction false} AppliedIndicationsAreInForce(c: ConnectRequest, endUs: nat, actions: seq<Action>)
    requires Open(c, endUs).Some?
    ensures UsesLogs(Run(Running(Open(c, endUs).value, true), actions).link.sched, c)
  {
    RunUsesLogs(Running(Open(c, endUs).value, true), c, actions);
  }
}
