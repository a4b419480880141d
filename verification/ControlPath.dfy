/** When a control PDU and its procedure fall out of step, and that only giving a procedure up does it. */
module ControlPath {
  import opened Octets
  import opened Wrappers
  import opened Timing
  import opened ControlPdus
  import opened ChannelSelection
  import opened ConnectInd
  import opened Sequence
  import opened Llcp
  import opened Connection
  import opened Runs
  import opened Instants

  // Which control steps an event refuses.

  function HeadOwner(c: Link): Option<Context> {
    if c.tx.control == [] then None
    else match OwnerOf(c.procedures, c.tx.control[0].ownerToken)
      case None => None
      case Some((who, _)) => Of(c.procedures, who)
  }

  /** The next control PDU belongs to a procedure that does not wait to transmit. */
  predicate TransmitRefused(c: Link) {
    HeadOwner(c).Some? && HeadOwner(c).value.phase != Queued && HeadOwner(c).value.phase != ResponseQueued
  }

  /** The next control PDU belongs to a procedure that does not wait for its acknowledgement. */
  predicate AckRefused(c: Link) {
    HeadOwner(c).Some? && HeadOwner(c).value.phase != AwaitingTxAck
  }

  lemma StagingFailsExactly(c: Link)
    ensures StageFails(c) <==> c.tx.staged == None && TransmitRefused(c)
  {
  }

  predicate ReportRefused(c: Link, transmitted: bool)
    requires c.tx.staged.Some?
  {
    c.tx.staged.value.unsent && transmitted && c.tx.staged.value.kind == Control && TransmitRefused(c)
  }

  lemma ReportFailsExactly(c: Link, transmitted: bool)
    requires StagedOk(c.tx) && c.tx.staged.Some?
    ensures !Report(c, transmitted).1 <==> ReportRefused(c, transmitted)
  {
  }

  lemma AcknowledgeFailsExactly(c: Link, nesn: bool, outstanding: bool, now: u64)
    requires StagedOk(c.tx) && c.tx.staged.Some?
    ensures !Acknowledge(c, nesn, outstanding, now).1 <==>
      outstanding && nesn != c.tx.bits.transmit && c.tx.staged.value.kind == Control && AckRefused(c)
  {
  }

  /** The packet acknowledges the frame that was on air before this event. */
  predicate AcksOutstanding(c: Link, e: Exchange)
    requires c.tx.staged.Some?
  {
    && !c.tx.staged.value.unsent && e.crcOk && ParsePacket(e.packet).Some?
    && Nesn(ParsePacket(e.packet).value.0) != c.tx.bits.transmit
  }

  /** A prepared event refuses the report or the acknowledgement of its control PDU. */
  predicate ExchangeRefused(c: Link, e: Exchange)
    requires c.tx.staged.Some?
  {
    || ReportRefused(c, e.transmitted)
    || (AcksOutstanding(c, e) && c.tx.staged.value.kind == Control && AckRefused(c))
  }

  /** The event refuses to plan, report or acknowledge its control PDU. */
  predicate ControlRefused(c: Link, exchange: Option<Exchange>)
    requires StagedOk(c.tx)
  {
    StageKeeps(c.tx);
    var begun := BeginEvent(c);
    || (begun.tx.staged == None && TransmitRefused(begun))
    || (exchange.Some? && ExchangeRefused(begun.(tx := Stage(begun.tx)), exchange.value))
  }

  /** The Central's new packet is LL_TERMINATE_IND with this reason. */
  predicate Terminates(c: Link, e: Exchange, reason: u8) {
    && e.crcOk && ParsePacket(e.packet).Some?
    && var (header, payload) := ParsePacket(e.packet).value;
       Llid(header) == LLID_CONTROL && Sn(header) == c.tx.bits.expected && payload == [0x02, reason]
  }

  lemma ControlPduReason(c: Link, payload: seq<u8>)
    ensures HandleLlControl(c, payload).1 == Some(0x1f) ==> payload == [0x02, 0x1f]
  {
    if |payload| == 2 && payload[0] == 0x02 {
      assert payload == [0x02, payload[1]];
    }
  }

  lemma AcceptReason(c: Link, header: u8, payload: seq<u8>)
    ensures Accept(c, header, payload).1 == Some(0x1f) ==>
      Llid(header) == LLID_CONTROL && Sn(header) == c.tx.bits.expected && payload == [0x02, 0x1f]
  {
    ControlPduReason(c.(tx := TakeReceived(c.tx, header, payload)), payload);
  }

  lemma FinishReason(c: Link, header: u8, payload: seq<u8>, outstanding: bool, sentTerminate: bool,
                     timestampUs: nat, now: u64)
    requires StagedOk(c.tx) && c.tx.staged.Some?
    ensures var closed := FinishEvent(c, header, payload, outstanding, sentTerminate, timestampUs, now).1;
      var refused := !Acknowledge(c, Nesn(header), outstanding, now).1;
      && (refused ==> closed == Some(0x1f))
      && (closed == Some(0x1f) && !refused ==>
            Llid(header) == LLID_CONTROL && Sn(header) == c.tx.bits.expected && payload == [0x02, 0x1f])
  {
    var (acked, ok) := Acknowledge(c, Nesn(header), outstanding, now);
    assert acked.tx.bits.expected == c.tx.bits.expected;
    AcceptReason(acked, header, payload);
  }

  lemma ReportKeepsOutstanding(c: Link, transmitted: bool)
    requires StagedOk(c.tx) && c.tx.staged.Some? && Report(c, transmitted).1
    ensures var reported := Report(c, transmitted).0;
      && StagedOk(reported.tx) && reported.tx.staged.Some?
      && reported.tx.bits == c.tx.bits && reported.tx.staged.value.kind == c.tx.staged.value.kind
      && (!c.tx.staged.value.unsent ==> reported == c)
  {
  }

  lemma ExchangeReason(c: Link, e: Exchange, now: u64)
    requires StagedOk(c.tx) && c.tx.staged.Some?
    ensures var closed := ExchangeEvent(c, e, now).1;
      && (ExchangeRefused(c, e) ==> closed == Some(0x1f))
      && (closed == Some(0x1f) ==> ExchangeRefused(c, e) || Terminates(c, e, 0x1f))
  {
    ReportFailsExactly(c, e.transmitted);
    if Report(c, e.transmitted).1 && e.crcOk && ParsePacket(e.packet).Some? {
      ReportKeepsOutstanding(c, e.transmitted);
      var reported := Report(c, e.transmitted).0;
      var header, payload := ParsePacket(e.packet).value.0, ParsePacket(e.packet).value.1;
      var outstanding := !c.tx.staged.value.unsent;
      AcknowledgeFailsExactly(reported, Nesn(header), outstanding, now);
      FinishReason(reported, header, payload, outstanding, SendsTerminate(reported, e.transmitted), e.timestampUs, now);
      assert ExchangeEvent(c, e, now) == FinishEvent(reported, header, payload, outstanding,
                                                     SendsTerminate(reported, e.transmitted), e.timestampUs, now);
    }
  }

  /**
   * An event refuses its control step exactly under the three guards. It then closes the connection with 0x1f,
   * and nothing else does but a Central that terminates with that reason.
   */
  lemma EventRefusesExactly(c: Link, exchange: Option<Exchange>, now: u64)
    requires StagedOk(c.tx) && ScheduleOk(c.sched)
    ensures var closed := ConnectionEvent(c, exchange, now).1;
      && (ControlRefused(c, exchange) ==> closed == Some(0x1f))
      && (closed == Some(0x1f) ==>
            ControlRefused(c, exchange) || (exchange.Some? && Terminates(c, exchange.value, 0x1f)))
  {
    ApplyKeepsSchedule(c.sched);
    StageKeeps(c.tx);
    var begun := BeginEvent(c);
    StagingFailsExactly(begun);
    var staged := begun.(tx := Stage(begun.tx));
    if StageFails(begun) {
      assert Prepared(c).1 == Some(0x1f);
    } else {
      assert Prepared(c) == (staged, None);
      if exchange.Some? {
        ExchangeReason(staged, exchange.value, now);
        assert ConnectionEvent(c, exchange, now) == ExchangeEvent(staged, exchange.value, now);
      } else {
        assert ConnectionEvent(c, exchange, now) == (staged, None);
      }
    }
  }

  /** The next control PDU is the request of the local procedure. */
  predicate LocalPduIsNext(c: Link) {
    c.procedures.local.Some? && c.tx.control != []
    && c.tx.control[0].ownerToken == c.procedures.local.value.token.ownerToken
  }

  /**
   * Giving up a local request leaves its PDU queued. While it is next, an event refuses it exactly when it would
   * stage it, when its first transmission is reported, or when it is acknowledged.
   */
  lemma AbandonedRequestIsRefusedExactly(c: Link, error: u8, exchange: Option<Exchange>)
    requires StagedOk(c.tx) && LocalPduIsNext(c)
    ensures ControlRefused(FailLocalRequest(c, error), exchange) <==>
      if c.tx.staged == None then true
      else exchange.Some? && c.tx.staged.value.kind == Control
           && if c.tx.staged.value.unsent then exchange.value.transmitted else AcksOutstanding(c, exchange.value)
  {
    var failed := FailLocalRequest(c, error);
    var begun := BeginEvent(failed);
    assert HeadOwner(begun) == failed.procedures.local;
  }

  // A run that gets there: a channel map makes the Host's parameter request yield.

  /** The first event transmitted an empty PDU and heard nothing valid. */
  predicate EmptyOutstanding(c: Link) {
    && c.tx.staged == Some(Frame(Empty, LLID_CONTINUATION, [], false)) && c.tx.control == []
    && c.procedures == Manager(None, None) && c.paramRequest == None
    && c.sched.update == None && c.sched.newMap == None
  }

  /** Nothing is queued, staged, pending or under way. */
  predicate Fresh(c: Link) {
    && c.tx.staged == None && c.tx.control == [] && c.tx.acl == [] && c.tx.bits == SequenceBits(false, false)
    && c.procedures == Manager(None, None) && c.paramRequest == None
    && c.sched.update == None && c.sched.newMap == None && c.sched.counter == 0
  }

  lemma OpenIsFresh(c: ConnectRequest, endUs: nat)
    requires Connectable(c)
    ensures Open(c, endUs).Some? && Fresh(Open(c, endUs).value) && ScheduleOk(Open(c, endUs).value.sched)
  {
    OpenIsScheduled(c, endUs);
  }

  /** The radio transmits and hears nothing valid. */
  function Silence(): Exchange {
    Exchange(true, false, [], 0)
  }

  lemma FirstEventTransmitsEmpty(r: Running, now: u64)
    requires r.open && Fresh(r.link) && ScheduleOk(r.link.sched)
    ensures var after := Act(r, Event(Some(Silence()), now));
      && after.open && EmptyOutstanding(after.link) && StagedOk(after.link.tx) && ScheduleOk(after.link.sched)
      && after.link.tx.bits == SequenceBits(false, false) && after.link.sched.counter == 1
  {
    ApplyKeepsSchedule(r.link.sched);
    UnsynchronizedEventIsMissed(r, Some(Silence()), now);
    UnheardKeepsSchedule(r.link.sched, true);
    var begun := BeginEvent(r.link);
    var staged := begun.(tx := Stage(begun.tx));
    assert Prepared(r.link) == (staged, None);
  }

  /** A well-formed LE Connection Update command for this connection. */
  predicate LegalRequest(params: seq<u8>) {
    && |params| == 14 && FromLe16(params[0], params[1]) == CONNECTION_HANDLE
    && ConnectionParameterRangeIsValid(FromLe16(params[2], params[3]), FromLe16(params[4], params[5]),
                                       FromLe16(params[6], params[7]), FromLe16(params[8], params[9]))
  }

  lemma SomeRequestIsLegal(params: seq<u8>)
    requires params == [1, 0, 6, 0, 6, 0, 0, 0, 10, 0, 0, 0, 0, 0]
    ensures LegalRequest(params)
  {
  }

  predicate RequestQueued(c: Link) {
    && c.tx.staged == Some(Frame(Empty, LLID_CONTINUATION, [], false)) && LocalPduIsNext(c)
    && c.paramRequest.Some? && c.procedures.remote == None
    && c.sched.update == None && c.sched.newMap == None
  }

  lemma HostRequestIsQueued(c: Link, params: seq<u8>)
    requires EmptyOutstanding(c) && LegalRequest(params)
    ensures var after := HandleCommand(c, 0x2013, params).0;
      RequestQueued(after) && after.sched == c.sched && after.tx.bits == c.tx.bits
  {
  }

  lemma MapIndicationIsTaken(c: Link, payload: seq<u8>)
    requires c.paramRequest.Some? && c.procedures.local.Some? && c.procedures.remote == None && c.sched.newMap == None
    requires ParseChannelMap(payload, c.sched.counter).Ok?
    ensures var (after, error) := HandleChannelMap(c, payload);
      && error == None && after.tx.control == c.tx.control && after.tx.staged == c.tx.staged
      && after.procedures.local.Some? && after.procedures.local.value.phase == Failed
      && after.procedures.local.value.token == c.procedures.local.value.token
  {
  }

  /** The next control PDU is the request of a local procedure that was given up. */
  predicate Abandoned(c: Link) {
    c.tx.staged == None && LocalPduIsNext(c) && c.procedures.local.value.phase == Failed
  }

  lemma FinishAbandons(c: Link, header: u8, payload: seq<u8>, timestampUs: nat, now: u64)
    requires StagedOk(c.tx) && ScheduleOk(c.sched) && RequestQueued(c)
    requires ParseChannelMap(payload, c.sched.counter).Ok?
    requires Llid(header) == LLID_CONTROL && Sn(header) == c.tx.bits.expected && Nesn(header) != c.tx.bits.transmit
    ensures var (next, closed) := FinishEvent(c, header, payload, true, false, timestampUs, now);
      closed == None && Abandoned(next)
  {
    var acked := Acknowledge(c, Nesn(header), true, now).0;
    assert acked == c.(tx := Release(c.tx));
    var taken := acked.(tx := TakeReceived(acked.tx, header, payload));
    MapIndicationIsTaken(taken, payload);
    assert Accept(acked, header, payload) == HandleChannelMap(taken, payload);
    AcceptKeepsSchedule(acked, header, payload);
    ApplyKeepsSchedule(Accept(acked, header, payload).0.sched);
  }

  /** The Central acknowledges the frame on air and sends a valid channel map in a new control PDU. */
  predicate CarriesMap(e: Exchange, bits: SequenceBits, counter: u16) {
    && e.crcOk && ParsePacket(e.packet).Some?
    && var (header, payload) := ParsePacket(e.packet).value;
       Llid(header) == LLID_CONTROL && Sn(header) == bits.expected && Nesn(header) != bits.transmit
       && ParseChannelMap(payload, counter).Ok?
  }

  lemma MapEventAbandons(c: Link, e: Exchange, now: u64)
    requires StagedOk(c.tx) && ScheduleOk(c.sched) && RequestQueued(c) && CarriesMap(e, c.tx.bits, c.sched.counter)
    ensures ConnectionEvent(c, Some(e), now).1 == None && Abandoned(ConnectionEvent(c, Some(e), now).0)
  {
    BeginKeepsSchedule(c);
    var begun := BeginEvent(c);
    assert RequestQueued(begun) && begun.tx == c.tx;
    assert Prepared(c) == (begun, None);
    var header, payload := ParsePacket(e.packet).value.0, ParsePacket(e.packet).value.1;
    FinishAbandons(begun, header, payload, e.timestampUs, now);
    assert ExchangeEvent(begun, e, now) == FinishEvent(begun, header, payload, true, false, e.timestampUs, now);
  }

  /** The connection is open, and its next control PDU was given up. */
  ghost predicate Doomed(r: Running) {
    r.open && StagedOk(r.link.tx) && ScheduleOk(r.link.sched) && Abandoned(r.link)
  }

  lemma DoomedConnectionCloses(r: Running, exchange: Option<Exchange>, now: u64)
    requires Doomed(r)
    ensures ConnectionEvent(r.link, exchange, now).1 == Some(0x1f)
  {
    EventRefusesExactly(r.link, exchange, now);
  }

  lemma YieldDooms(r: Running, e: Exchange, now: u64)
    requires r.open && StagedOk(r.link.tx) && ScheduleOk(r.link.sched) && RequestQueued(r.link)
    requires CarriesMap(e, r.link.tx.bits, r.link.sched.counter)
    ensures Doomed(Act(r, Event(Some(e), now)))
  {
    MapEventAbandons(r.link, e, now);
    EventKeepsSchedule(r.link, Some(e), now);
    EventCarries(r.link, Some(e), now);
    FollowingKeepsSchedule(ConnectionEvent(r.link, Some(e), now).0.sched);
  }

  lemma RequestIsQueued(r: Running, params: seq<u8>)
    requires r.open && StagedOk(r.link.tx) && EmptyOutstanding(r.link) && LegalRequest(params)
    ensures var after := Act(r, Command(0x2013, params));
      && after.open && StagedOk(after.link.tx) && RequestQueued(after.link)
      && after.link.sched == r.link.sched && after.link.tx.bits == r.link.tx.bits
  {
    HostRequestIsQueued(r.link, params);
    CommandGrowsControl(r.link, 0x2013, params);
  }

  /** A run ends with its last action. */
  lemma RunEnds(r: Running, actions: seq<Action>, last: Action)
    requires StagedOk(r.link.tx)
    ensures Run(r, actions + [last]) == Act(Run(r, actions), last)
  {
    assert (actions + [last])[..|actions|] == actions;
  }

  lemma {:induction false} RunSplits(r: Running, a: Action, rest: seq<Action>)
    requires StagedOk(r.link.tx)
    ensures StagedOk(Act(r, a).link.tx) && Run(r, [a] + rest) == Run(Act(r, a), rest)
  {
    ActKeepsStaged(r, a);
    if rest == [] {
      RunEnds(r, [], a);
      assert [] + [a] == [a] + rest;
    } else {
      var n := |rest| - 1;
      RunSplits(r, a, rest[..n]);
      RunEnds(r, [a] + rest[..n], rest[n]);
      RunEnds(Act(r, a), rest[..n], rest[n]);
      assert [a] + rest == ([a] + rest[..n]) + [rest[n]];
      assert rest == rest[..n] + [rest[n]];
    }
  }

  lemma RequestThenMap(r: Running, params: seq<u8>, e: Exchange, now: u64)
    requires r.open && StagedOk(r.link.tx) && ScheduleOk(r.link.sched) && EmptyOutstanding(r.link)
    requires LegalRequest(params) && CarriesMap(e, r.link.tx.bits, r.link.sched.counter)
    ensures Doomed(Run(r, [Command(0x2013, params), Event(Some(e), now)]))
  {
    RequestIsQueued(r, params);
    var requested := Act(r, Command(0x2013, params));
    YieldDooms(requested, e, now);
    RunSplits(requested, Event(Some(e), now), []);
    assert [Event(Some(e), now)] + [] == [Event(Some(e), now)];
    RunSplits(r, Command(0x2013, params), [Event(Some(e), now)]);
    assert [Command(0x2013, params)] + [Event(Some(e), now)] == [Command(0x2013, params), Event(Some(e), now)];
  }

  /** An empty PDU goes out, the Host requests parameters, and the Central answers with this packet. */
  function YieldingRun(params: seq<u8>, e: Exchange, now: u64): seq<Action> {
    [Event(Some(Silence()), now), Command(0x2013, params), Event(Some(e), now)]
  }

  lemma YieldingRunSplits(r: Running, params: seq<u8>, e: Exchange, now: u64)
    requires StagedOk(r.link.tx)
    ensures var silent := Act(r, Event(Some(Silence()), now));
      StagedOk(silent.link.tx)
      && Run(r, YieldingRun(params, e, now)) == Run(silent, [Command(0x2013, params), Event(Some(e), now)])
  {
    var first, rest := Event(Some(Silence()), now), [Command(0x2013, params), Event(Some(e), now)];
    RunSplits(r, first, rest);
    assert YieldingRun(params, e, now) == [first] + rest;
  }

  /**
   * In every connection this happens: when that packet acknowledges the empty PDU and carries a channel map,
   * the connection stays open and every next event closes it with 0x1f.
   */
  lemma YieldedRequestDoomsConnection(c: ConnectRequest, endUs: nat, start: Running, params: seq<u8>, e: Exchange,
                                      now: u64)
    requires Connectable(c) && Open(c, endUs) == Some(start.link) && start.open
    requires LegalRequest(params) && CarriesMap(e, SequenceBits(false, false), 1)
    ensures StagedOk(start.link.tx) && Doomed(Run(start, YieldingRun(params, e, now)))
  {
    OpenIsFresh(c, endUs);
    FirstEventTransmitsEmpty(start, now);
    YieldingRunSplits(start, params, e, now);
    RequestThenMap(Act(start, Event(Some(Silence()), now)), params, e, now);
  }

  /** Such packets exist: the encoding of any valid map for a future instant, behind such a header. */
  lemma MapPacketIsCarried(payload: seq<u8>, e: Exchange)
    requires |payload| == 8 && ParseChannelMap(payload, 1).Ok?
    requires e.crcOk && e.packet == [7, |payload|] + payload
    ensures CarriesMap(e, SequenceBits(false, false), 1)
  {
    PacketParses(e.packet, 7, payload);
  }

  /** In every connection, this literal command and the connection's own map lead there. */
  lemma LiteralRequestDoomsConnection(c: ConnectRequest, endUs: nat, start: Running, params: seq<u8>,
                                      m: ChannelMapInd, payload: seq<u8>, e: Exchange, now: u64)
    requires Connectable(c) && Open(c, endUs) == Some(start.link) && start.open && StagedOk(start.link.tx)
    requires params == [1, 0, 6, 0, 6, 0, 0, 0, 10, 0, 0, 0, 0, 0]
    requires m == ChannelMapInd(c.channelMap, 10) && payload == [CHANNEL_MAP_IND] + m.bitmap + Le16(m.instant)
    requires e.crcOk && e.packet == [7, |payload|] + payload
    ensures Doomed(Run(start, YieldingRun(params, e, now)))
  {
    SomeRequestIsLegal(params);
    ChannelMapRoundTrip(m, 1);
    MapPacketIsCarried(payload, e);
    YieldedRequestDoomsConnection(c, endUs, start, params, e, now);
  }
}
