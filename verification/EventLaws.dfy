/** What single PDUs, commands and events must do, by the literals of the protocol. */
module EventLaws {
  import opened Octets
  import opened Wrappers
  import opened Timing
  import opened ControlPdus
  import opened ChannelSelection
  import opened ConnectInd
  import opened Sequence
  import opened Llcp
  import opened Connection
  import opened Runs
  import opened Instants
  import opened ControlPath

  // Why a control PDU closes the connection.

  /** The two ways of changing parameters collide as 0x23, either of them with a channel map as 0x2a. */
  function ClashCode(running: ProcedureKind, incoming: ProcedureKind): u8 {
    if incoming == ChannelMapUpdate && (running == ConnectionUpdate || running == ConnectionParameters) then 0x2a
    else if running == ChannelMapUpdate && (incoming == ConnectionUpdate || incoming == ConnectionParameters) then 0x2a
    else 0x23
  }

  predicate ChangesAtInstant(kind: ProcedureKind) {
    kind in {ConnectionParameters, ConnectionUpdate, ChannelMapUpdate}
  }

  /** Why a new remote procedure that changes something at an instant cannot start. */
  function StartRefusal(c: Link, incoming: ProcedureKind, localYields: bool): Option<u8> {
    if ActiveIn(c.procedures.remote) then Some(ClashCode(c.procedures.remote.value.kind, incoming))
    else if !localYields && ActiveIn(c.procedures.local) && ChangesAtInstant(c.procedures.local.value.kind) then
      Some(ClashCode(c.procedures.local.value.kind, incoming))
    else None
  }

  /** The procedure waits for LL_CONNECTION_UPDATE_IND. */
  predicate AwaitsUpdate(slot: Option<Context>) {
    slot.Some? && slot.value.phase == AwaitingResponse && slot.value.expectedOpcode == Some(0x00)
  }

  function UpdateReason(c: Link, payload: seq<u8>): Option<u8> {
    if |payload| != 12 || payload[0] != 0x00 then Some(0x1e)
    else
      var interval: u16 := payload[4] + 0x100 * (payload[5] as int);
      var latency: u16 := payload[6] + 0x100 * (payload[7] as int);
      var timeout: u16 := payload[8] + 0x100 * (payload[9] as int);
      var instant: u16 := payload[10] + 0x100 * (payload[11] as int);
      if !ConnectionTimingIsValid(payload[1], payload[2] + 0x100 * (payload[3] as int), interval, latency, timeout) then
        Some(0x1e)
      else if Until(c.sched.counter, instant) > 32_766 then Some(0x28)
      else if c.sched.update.Some? then Some(0x1e)
      else match c.paramRequest
        case Some(r) =>
          if interval < r.intervalMin || interval > r.intervalMax || latency != r.latency
            || timeout != r.supervisionTimeout then Some(0x20)
          else if AwaitsUpdate(c.procedures.local) then None else Some(0x3d)
        case None =>
          if ActiveKind(c.procedures.remote, ConnectionParameters) then
            if AwaitsUpdate(c.procedures.remote) then None else Some(0x3d)
          else StartRefusal(c, ConnectionUpdate, false)
  }

  function MapReason(c: Link, payload: seq<u8>): Option<u8> {
    if |payload| != 8 || payload[0] != 0x01 || !MapIsValid(payload[1..6]) then Some(0x1e)
    else if Until(c.sched.counter, payload[6] + 0x100 * (payload[7] as int)) > 32_766 then Some(0x28)
    else if c.sched.newMap.Some? then Some(0x1e)
    else StartRefusal(c, ChannelMapUpdate, c.paramRequest.Some?)
  }

  /** Why a new control PDU closes the connection; LL_TERMINATE_IND closes with its own reason. */
  function ControlReason(c: Link, payload: seq<u8>): Option<u8> {
    if payload == [] then None
    else if payload[0] == 0x02 then Some(if |payload| == 2 then payload[1] else 0x1e)
    else if payload[0] == 0x00 then UpdateReason(c, payload)
    else if payload[0] == 0x01 then MapReason(c, payload)
    else None
  }

  lemma StartRefusedExactly(c: Link, kind: ProcedureKind, opcode: u8, at: u16)
    requires kind == ConnectionUpdate || kind == ChannelMapUpdate
    ensures StartRemoteInstant(c, kind, opcode, at).1 == StartRefusal(c, kind, false)
  {
  }

  lemma UpdateClosesExactly(c: Link, payload: seq<u8>)
    requires payload != [] && payload[0] == 0x00
    ensures HandleConnectionUpdate(c, payload).1 == UpdateReason(c, payload)
  {
    var parsed := ParseConnectionUpdate(payload, c.sched.counter);
    if parsed.Ok? {
      StartRefusedExactly(c, ConnectionUpdate, 0x00, parsed.value.instant);
    }
  }

  lemma MapClosesExactly(c: Link, payload: seq<u8>)
    requires payload != [] && payload[0] == 0x01
    ensures HandleChannelMap(c, payload).1 == MapReason(c, payload)
  {
    var parsed := ParseChannelMap(payload, c.sched.counter);
    if parsed.Ok? {
      var yielded := Yield(c, CollisionError(ConnectionParameters, ChannelMapUpdate));
      StartRefusedExactly(yielded, ChannelMapUpdate, 0x01, parsed.value.instant);
    }
  }

  lemma ControlClosesExactly(c: Link, payload: seq<u8>)
    ensures HandleLlControl(c, payload).1 == ControlReason(c, payload)
  {
    if payload != [] && payload[0] == 0x00 {
      UpdateClosesExactly(c, payload);
    } else if payload != [] && payload[0] == 0x01 {
      MapClosesExactly(c, payload);
    }
  }

  // Why an event closes the connection.

  /** The event sent LL_TERMINATE_IND for the Host. */
  predicate TerminateSent(p: Link, transmitted: bool)
    requires p.tx.staged.Some?
  {
    && transmitted && p.tx.staged.value.kind == Control && ActiveKind(p.procedures.local, Termination)
    && p.tx.control != [] && p.tx.control[0].payload != [] && p.tx.control[0].payload[0] == 0x02
  }

  lemma ReportKeepsTermination(p: Link, transmitted: bool)
    requires StagedOk(p.tx) && p.tx.staged.Some? && Report(p, transmitted).1
    ensures SendsTerminate(Report(p, transmitted).0, transmitted) == TerminateSent(p, transmitted)
  {
  }

  /** The link when the Central's new PDU is handled: the transmission is reported and acknowledged. */
  function Acknowledged(p: Link, e: Exchange, now: u64): Link
    requires StagedOk(p.tx) && p.tx.staged.Some? && ParsePacket(e.packet).Some?
  {
    ReportCarries(p, e.transmitted);
    Acknowledge(Report(p, e.transmitted).0, Nesn(ParsePacket(e.packet).value.0), !p.tx.staged.value.unsent, now).0
  }

  /** The reason after an exchange whose control steps succeeded. */
  function ExchangeReason(p: Link, e: Exchange, now: u64): Option<u8>
    requires StagedOk(p.tx) && p.tx.staged.Some?
  {
    if !e.crcOk || ParsePacket(e.packet) == None then None
    else
      var (header, payload) := ParsePacket(e.packet).value;
      if TerminateSent(p, e.transmitted) then Some(0x16)
      else if header % 4 != 3 || Sn(header) != p.tx.bits.expected then None
      else ControlReason(Acknowledged(p, e, now), payload)
  }

  lemma ControlReasonIgnoresTraffic(c: Link, t: Transmit, payload: seq<u8>)
    ensures ControlReason(c.(tx := t), payload) == ControlReason(c, payload)
  {
  }

  lemma AcceptClosesExactly(c: Link, header: u8, payload: seq<u8>)
    ensures Accept(c, header, payload).1
         == if header % 4 != 3 || Sn(header) != c.tx.bits.expected then None else ControlReason(c, payload)
  {
    ControlClosesExactly(c.(tx := TakeReceived(c.tx, header, payload)), payload);
    ControlReasonIgnoresTraffic(c, TakeReceived(c.tx, header, payload), payload);
  }

  lemma FinishClosesExactly(c: Link, header: u8, payload: seq<u8>, outstanding: bool, sentTerminate: bool,
                            timestampUs: nat, now: u64)
    requires StagedOk(c.tx) && c.tx.staged.Some? && ScheduleOk(c.sched)
    requires Acknowledge(c, Nesn(header), outstanding, now).1
    ensures FinishEvent(c, header, payload, outstanding, sentTerminate, timestampUs, now).1
         == if sentTerminate then Some(0x16)
            else if header % 4 != 3 || Sn(header) != c.tx.bits.expected then None
            else ControlReason(Acknowledge(c, Nesn(header), outstanding, now).0, payload)
  {
    var acked := Acknowledge(c, Nesn(header), outstanding, now).0;
    assert acked.sched == c.sched && acked.tx.bits.expected == c.tx.bits.expected;
    AcceptClosesExactly(acked, header, payload);
    AcceptKeepsSchedule(acked, header, payload);
    ApplyKeepsSchedule(Accept(acked, header, payload).0.sched);
  }

  lemma ExchangeClosesExactly(p: Link, e: Exchange, now: u64)
    requires StagedOk(p.tx) && p.tx.staged.Some? && ScheduleOk(p.sched)
    ensures ExchangeEvent(p, e, now).1 == if ExchangeRefused(p, e) then Some(0x1f) else ExchangeReason(p, e, now)
  {
    ExchangeReasonIsControl(p, e, now);
    if !ExchangeRefused(p, e) && e.crcOk && ParsePacket(e.packet).Some? {
      ReportFailsExactly(p, e.transmitted);
      ReportKeepsOutstanding(p, e.transmitted);
      ReportKeepsTermination(p, e.transmitted);
      ReportCarries(p, e.transmitted);
      var reported := Report(p, e.transmitted).0;
      var header, payload := ParsePacket(e.packet).value.0, ParsePacket(e.packet).value.1;
      var outstanding := !p.tx.staged.value.unsent;
      AcknowledgeFailsExactly(reported, Nesn(header), outstanding, now);
      FinishClosesExactly(reported, header, payload, outstanding, TerminateSent(p, e.transmitted), e.timestampUs, now);
      assert ExchangeEvent(p, e, now)
          == FinishEvent(reported, header, payload, outstanding, TerminateSent(p, e.transmitted), e.timestampUs, now);
    }
  }

  /** A refused control step, or a failed report, gives 0x1f; without a valid packet nothing else closes. */
  lemma ExchangeReasonIsControl(p: Link, e: Exchange, now: u64)
    requires StagedOk(p.tx) && p.tx.staged.Some?
    ensures ExchangeRefused(p, e) ==> ExchangeEvent(p, e, now).1 == Some(0x1f)
    ensures !ExchangeRefused(p, e) && (!e.crcOk || ParsePacket(e.packet) == None) ==>
      ExchangeEvent(p, e, now).1 == None
  {
    ControlPath.ExchangeReason(p, e, now);
    ReportFailsExactly(p, e.transmitted);
  }

  /**
   * The exact reason of every event: 0x1f for a refused control step, 0x16 after our own LL_TERMINATE_IND, the
   * reason of a new control PDU, and otherwise none.
   */
  lemma EventClosesExactly(c: Link, exchange: Option<Exchange>, now: u64)
    requires StagedOk(c.tx) && ScheduleOk(c.sched)
    ensures ControlRefused(c, exchange) ==> ConnectionEvent(c, exchange, now).1 == Some(0x1f)
    ensures !ControlRefused(c, exchange) ==>
      && Prepared(c).1 == None && StagedOk(Prepared(c).0.tx) && Prepared(c).0.tx.staged.Some?
      && ConnectionEvent(c, exchange, now).1
         == if exchange == None then None else ExchangeReason(Prepared(c).0, exchange.value, now)
  {
    EventRefusesExactly(c, exchange, now);
    BeginKeepsSchedule(c);
    StageKeeps(c.tx);
    var begun := BeginEvent(c);
    StagingFailsExactly(begun);
    if !ControlRefused(c, exchange) {
      var staged := begun.(tx := Stage(begun.tx));
      assert Prepared(c) == (staged, None);
      if exchange.Some? {
        ExchangeClosesExactly(staged, exchange.value, now);
        assert ConnectionEvent(c, exchange, now) == ExchangeEvent(staged, exchange.value, now);
      } else {
        assert ConnectionEvent(c, exchange, now) == (staged, None);
      }
    }
  }

  /** The Central's LL_TERMINATE_IND closes the connection with exactly its reason. */
  lemma TerminationCloses(c: Link, e: Exchange, now: u64, reason: u8)
    requires StagedOk(c.tx) && ScheduleOk(c.sched) && !ControlRefused(c, Some(e))
    requires Terminates(Prepared(c).0, e, reason)
    ensures StagedOk(Prepared(c).0.tx) && Prepared(c).0.tx.staged.Some?
    ensures ConnectionEvent(c, Some(e), now).1
         == Some(if TerminateSent(Prepared(c).0, e.transmitted) then 0x16 else reason)
  {
    EventClosesExactly(c, Some(e), now);
  }

  // Anchors and windows.

  /** When the packet began on air: preamble, access address, header, CRC and payload take 8 us an octet. */
  function PacketStart(timestampUs: nat, payload: seq<u8>): nat {
    var airtime := 80 + 8 * |payload|;
    if timestampUs < airtime then 0 else timestampUs - airtime
  }

  /** An open event with a valid packet takes its start as the anchor and closes the transmit window. */
  lemma HeardEventSynchronizes(c: Link, e: Exchange, now: u64)
    requires StagedOk(c.tx) && ConnectionEvent(c, Some(e), now).1 == None
    requires e.crcOk && ParsePacket(e.packet).Some?
    ensures var s := ConnectionEvent(c, Some(e), now).0.sched;
      && s.nextAnchor == PacketStart(e.timestampUs, ParsePacket(e.packet).value.1)
      && s.lastSync == s.nextAnchor && s.windowUs == 0
  {
    StageKeeps(c.tx);
    var p := Prepared(c).0;
    ReportCarries(p, e.transmitted);
    var header, payload := ParsePacket(e.packet).value.0, ParsePacket(e.packet).value.1;
    var reported := Report(p, e.transmitted).0;
    assert ConnectionEvent(c, Some(e), now) == ExchangeEvent(p, e, now);
    assert ExchangeEvent(p, e, now)
        == FinishEvent(reported, header, payload, !p.tx.staged.value.unsent, SendsTerminate(reported, e.transmitted),
                       e.timestampUs, now);
  }

  /** The next anchor: one interval later, plus the offset of an update that falls due there. */
  lemma NextAnchor(s: Schedule)
    ensures var after := ScheduleFollowing(s);
      && after.nextAnchor == s.nextAnchor + 1_250 * s.request.interval
         + (if s.update.Some? && s.update.value.instant == (s.counter + 1) % 0x1_0000
            then 1_250 * s.update.value.windowOffset else 0)
      && after.lastSync == s.lastSync && after.windowUs == s.windowUs
  {
  }

  /** A connection starts as its CONNECT_IND says, one unit after the end of that packet at the earliest. */
  lemma OpensAsRequested(c: ConnectRequest, endUs: nat)
    requires 5 <= c.hopIncrement <= 16 && MapIsValid(c.channelMap)
    ensures Open(c, endUs).Some?
    ensures var s := Open(c, endUs).value.sched;
      && s.nextAnchor == endUs + 1_250 * c.windowOffset + 1_250 && s.lastSync == endUs
      && s.windowUs == 1_250 * c.windowSize && s.counter == 0 && s.channels.lastUnmapped == 0
      && s.channels.hop == c.hopIncrement && s.channels.bitmap == c.channelMap
      && s.request.interval == c.interval && s.request.latency == c.latency
      && s.request.supervisionTimeout == c.supervisionTimeout
      && s.request.sleepClockAccuracy == c.sleepClockAccuracy
    ensures var t := Open(c, endUs).value.tx;
      && t.acl == [] && t.control == [] && t.staged == None && !t.bits.transmit && !t.bits.expected
      && t.nextAclToken == 1 && t.nextControlToken == 0x8000_0001
  {
  }

  predicate FailedWith22(slot: Option<Context>) {
    slot.Some? && slot.value.phase == Failed && slot.value.error == Some(0x22)
  }

  /** Expired procedures fail with 0x22 and close the connection. */
  lemma ExpiryCloses(r: Running, now: u64)
    requires r.open && StagedOk(r.link.tx)
    ensures var m, after := r.link.procedures, Act(r, CheckResponses(now));
      && (after.open <==> !TimedOutIn(m.local, now) && !TimedOutIn(m.remote, now))
      && (TimedOutIn(m.local, now) ==> FailedWith22(after.link.procedures.local))
      && (TimedOutIn(m.remote, now) ==> FailedWith22(after.link.procedures.remote))
  {
  }

  /** An indication that does not close the connection is pending from then on, and recorded once. */
  lemma IndicationsArePending(c: Link, payload: seq<u8>)
    requires payload != [] && HandleLlControl(c, payload).1 == None
    ensures var s, after := c.sched, HandleLlControl(c, payload).0.sched;
      if payload[0] == 0x00 then
        && ParseConnectionUpdate(payload, s.counter).Ok?
        && var u := ParseConnectionUpdate(payload, s.counter).value;
           after.update == Some(u) && after.updates == s.updates + [Accepted(u, s.elapsed)]
           && after.newMap == s.newMap && after.maps == s.maps
      else if payload[0] == 0x01 then
        && ParseChannelMap(payload, s.counter).Ok?
        && var m := ParseChannelMap(payload, s.counter).value;
           after.newMap == Some(m) && after.maps == s.maps + [Accepted(m, s.elapsed)]
           && after.update == s.update && after.updates == s.updates
      else after == s
  {
    ControlClosesExactly(c, payload);
    if payload[0] > 0x01 {
      OtherPdusKeepSchedule(c, payload);
    }
  }

  /** The Host is told of an update exactly when it changes parameters or answers a local request. */
  lemma NotifiesExactly(c: Link)
    ensures Notifies(c) <==>
      && c.sched.update.Some? && c.sched.update.value.instant == c.sched.counter
      && (c.sched.update.value.interval != c.sched.request.interval
          || c.sched.update.value.latency != c.sched.request.latency
          || c.sched.update.value.supervisionTimeout != c.sched.request.supervisionTimeout
          || c.paramRequest.Some?)
  {
  }
}
