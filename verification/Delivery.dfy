/** Acknowledged delivery between the connection and a Central over a lossy link. */
module Delivery {
  import opened Octets
  import opened Wrappers
  import opened Sequence
  import opened ConnectInd
  import opened Connection
  import opened Runs

  /** The Central's PDUs in order. */
  type Script = nat -> Received

  ghost predicate WellFormed(script: Script) {
    forall n :: 1 <= script(n).llid <= 3 && |script(n).payload| <= MAX_PAYLOAD
  }

  /**
   * A Central that obeys SN/NESN: its bits, the number of its PDUs that are acknowledged, and every
   * new PDU it heard.
   */
  datatype Central = Central(bits: SequenceBits, index: nat, heard: seq<Received>)

  /** The packet the Central sends; `extra` holds the MD and reserved header bits. */
  function CentralPacket(c: Central, script: Script, extra: nat): seq<u8>
    requires extra < 16 && script(c.index).llid < 4 && |script(c.index).payload| <= MAX_PAYLOAD
  {
    var pdu := script(c.index);
    [pdu.llid + 4 * Bit(c.bits.expected) + 8 * Bit(c.bits.transmit) + 16 * extra, |pdu.payload|] + pdu.payload
  }

  /** The Central receives a response and logs a new PDU as its bytes tell. */
  function CentralHears(c: Central, bytes: seq<u8>): Central
    requires |bytes| >= 2
  {
    var header := bytes[0];
    Central(
      Observed(c.bits, Nesn(header), Sn(header)),
      if Acknowledges(c.bits, Nesn(header)) then c.index + 1 else c.index,
      if Accepts(c.bits, Sn(header)) then c.heard + [Received(Llid(header), bytes[2..])] else c.heard)
  }

  function Contents(pdus: seq<Pdu>): (contents: seq<Received>)
    ensures |contents| == |pdus|
  {
    seq(|pdus|, i requires 0 <= i < |pdus| => Received(pdus[i].llid, pdus[i].payload))
  }

  /** The data fragment in a PDU; control PDUs and empty PDUs carry none. */
  function DataOf(pdu: Received): seq<Fragment> {
    if (pdu.llid == LLID_CONTINUATION || pdu.llid == LLID_START) && pdu.payload != [] then
      [Fragment(pdu.llid == LLID_CONTINUATION, pdu.payload)] else []
  }

  function Fragments(pdus: seq<Received>): seq<Fragment> {
    if pdus == [] then [] else Fragments(pdus[..|pdus| - 1]) + DataOf(pdus[|pdus| - 1])
  }

  lemma FragmentsGrow(pdus: seq<Received>, pdu: Received)
    ensures Fragments(pdus + [pdu]) == Fragments(pdus) + DataOf(pdu)
  {
    assert (pdus + [pdu])[..|pdus|] == pdus;
  }

  lemma {:induction false} FragmentsOfPrefix(pdus: seq<Received>, k: nat)
    requires k <= |pdus|
    ensures Fragments(pdus[..k]) <= Fragments(pdus)
  {
    if k < |pdus| {
      var n := |pdus| - 1;
      assert pdus[..n][..k] == pdus[..k];
      FragmentsOfPrefix(pdus[..n], k);
    } else {
      assert pdus[..k] == pdus;
    }
  }

  /** The Central has accepted the frame that is staged. */
  predicate Ahead(t: Transmit, c: Central) {
    c.bits.expected != t.bits.transmit
  }

  /** The connection has accepted the Central's current PDU. */
  predicate Behind(t: Transmit, c: Central) {
    t.bits.expected != c.bits.transmit
  }

  /** The ACL queue is what the Host queued and the Central has not acknowledged. */
  ghost predicate QueueOk(t: Transmit) {
    t.completed <= |t.accepted| && t.acl == t.accepted[t.completed..]
  }

  ghost predicate DeliveryInv(t: Transmit, c: Central, script: Script) {
    && StagedOk(t) && QueueOk(t)
    && (Ahead(t, c) ==> t.staged.Some?)
    && t.completed + HeardAcl(t, c) <= |t.accepted|
    && Fragments(c.heard) == DataUpTo(t, t.completed + HeardAcl(t, c))
    && |t.received| == c.index + (if Behind(t, c) then 1 else 0)
    && (forall i :: 0 <= i < |t.received| ==> t.received[i] == script(i))
    && t.delivered == Fragments(t.received)
  }

  /** The data in the first `k` fragments that the Host queued. */
  function DataUpTo(t: Transmit, k: nat): seq<Fragment>
    requires k <= |t.accepted|
  {
    Fragments(Contents(t.accepted)[..k])
  }

  function HeardAcl(t: Transmit, c: Central): nat {
    if Ahead(t, c) && t.staged.Some? && t.staged.value.kind == Acl then 1 else 0
  }

  lemma AirHeader(f: Frame, bits: SequenceBits)
    requires f.llid < 4
    ensures var header := AirBytes(f, bits)[0];
      Nesn(header) == bits.expected && Sn(header) == bits.transmit && Llid(header) == f.llid
    ensures AirBytes(f, bits)[2..] == f.payload
  {
    HeaderParts(0, Bit(bits.expected) + 2 * Bit(bits.transmit), f.llid);
  }

  lemma CentralHeader(c: Central, script: Script, extra: nat)
    requires WellFormed(script) && extra < 16
    ensures var packet := CentralPacket(c, script, extra);
      && ParsePacket(packet) == Some((packet[0], script(c.index).payload))
      && Nesn(packet[0]) == c.bits.expected && Sn(packet[0]) == c.bits.transmit
      && Llid(packet[0]) == script(c.index).llid
  {
    var flags := Bit(c.bits.expected) + 2 * Bit(c.bits.transmit) + 4 * (extra % 2);
    HeaderParts(extra / 2, flags, script(c.index).llid);
    var packet := CentralPacket(c, script, extra);
    assert packet[0] == 32 * (extra / 2) + 4 * flags + script(c.index).llid;
    assert packet[2..2 + packet[1]] == script(c.index).payload;
  }

  // Each stage of an event keeps the invariant.

  lemma StageKeepsDelivery(t: Transmit, c: Central, script: Script)
    requires DeliveryInv(t, c, script)
    ensures DeliveryInv(Stage(t), c, script) && Stage(t).staged.Some?
  {
  }

  /** A staged frame carries the data of the next fragment, or none. */
  lemma StagedData(t: Transmit)
    requires StagedOk(t) && QueueOk(t) && t.staged.Some?
    ensures var f := t.staged.value;
      var k := t.completed + if f.kind == Acl then 1 else 0;
      k <= |t.accepted| && DataUpTo(t, k) == DataUpTo(t, t.completed) + DataOf(Received(f.llid, f.payload))
  {
    var f := t.staged.value;
    if f.kind == Acl {
      assert t.acl[0] == t.accepted[t.completed];
      var earlier := Contents(t.accepted)[..t.completed];
      assert Contents(t.accepted)[..t.completed + 1] == earlier + [Received(f.llid, f.payload)];
      FragmentsGrow(earlier, Received(f.llid, f.payload));
    }
  }

  lemma HearKeepsDelivery(t: Transmit, c: Central, script: Script)
    requires DeliveryInv(t, c, script) && t.staged.Some?
    ensures var heard := CentralHears(c, AirBytes(t.staged.value, t.bits));
      && DeliveryInv(t, heard, script)
      && Ahead(t, heard)
      && (c.bits.transmit == t.bits.expected ==> heard.bits.transmit == t.bits.expected && heard.index == c.index)
  {
    var f := t.staged.value;
    AirHeader(f, t.bits);
    if !Ahead(t, c) {
      FragmentsGrow(c.heard, Received(f.llid, f.payload));
      StagedData(t);
    }
  }

  lemma ReleaseKeepsDelivery(t: Transmit, c: Central, script: Script)
    requires DeliveryInv(t, c, script) && t.staged.Some? && Ahead(t, c)
    ensures DeliveryInv(Release(t), c, script)
  {
    var after := Release(t);
    if t.staged.value.kind == Acl {
      assert after.acl == t.accepted[after.completed..];
    }
    assert QueueOk(after) && StagedOk(after) && HeardAcl(after, c) == 0;
  }

  lemma TakeKeepsDelivery(t: Transmit, c: Central, script: Script, header: u8)
    requires DeliveryInv(t, c, script) && WellFormed(script)
    requires c.bits.transmit == t.bits.expected && Llid(header) == script(c.index).llid
    ensures DeliveryInv(TakeReceived(t, header, script(c.index).payload), c, script)
  {
    var after := TakeReceived(t, header, script(c.index).payload);
    assert after.received[..|t.received|] == t.received;
  }

  lemma GrowthKeepsDelivery(before: Transmit, after: Transmit, c: Central, script: Script)
    requires DeliveryInv(before, c, script) && ControlGrew(before, after)
    ensures DeliveryInv(after, c, script)
  {
  }

  lemma AcceptKeepsDelivery(c: Link, hearer: Central, script: Script, header: u8)
    requires WellFormed(script) && DeliveryInv(c.tx, hearer, script)
    requires Llid(header) == script(hearer.index).llid && Sn(header) == hearer.bits.transmit
    ensures DeliveryInv(Accept(c, header, script(hearer.index).payload).0.tx, hearer, script)
  {
    var payload := script(hearer.index).payload;
    if Sn(header) == c.tx.bits.expected {
      TakeKeepsDelivery(c.tx, hearer, script, header);
      var taken := c.(tx := TakeReceived(c.tx, header, payload));
      ControlPduGrowsControl(taken, payload);
      GrowthKeepsDelivery(taken.tx, HandleLlControl(taken, payload).0.tx, hearer, script);
    }
  }

  lemma AcknowledgeKeepsDelivery(c: Link, hearer: Central, script: Script, nesn: bool, outstanding: bool, nowUs: u64)
    requires DeliveryInv(c.tx, hearer, script) && c.tx.staged.Some?
    requires nesn != c.tx.bits.transmit ==> Ahead(c.tx, hearer)
    ensures var acked := Acknowledge(c, nesn, outstanding, nowUs).0;
      DeliveryInv(acked.tx, hearer, script) && acked.tx.bits.expected == c.tx.bits.expected
  {
    if nesn != c.tx.bits.transmit {
      ReleaseKeepsDelivery(c.tx, hearer, script);
    }
  }

  /** The Central may hear the staged frame, then the connection processes the Central's earlier packet. */
  lemma FinishKeepsDelivery(c: Link, sender: Central, hearer: Central, script: Script, header: u8, outstanding: bool,
                            sentTerminate: bool, timestampUs: nat, nowUs: u64)
    requires WellFormed(script) && DeliveryInv(c.tx, hearer, script) && c.tx.staged.Some?
    requires Nesn(header) == sender.bits.expected && Sn(header) == sender.bits.transmit
    requires Llid(header) == script(sender.index).llid
    requires Ahead(c.tx, sender) ==> Ahead(c.tx, hearer)
    requires !Behind(c.tx, sender) ==> hearer.bits.transmit == sender.bits.transmit && hearer.index == sender.index
    ensures var payload := script(sender.index).payload;
      DeliveryInv(FinishEvent(c, header, payload, outstanding, sentTerminate, timestampUs, nowUs).0.tx, hearer, script)
  {
    AcknowledgeKeepsDelivery(c, hearer, script, Nesn(header), outstanding, nowUs);
    var (acked, ok) := Acknowledge(c, Nesn(header), outstanding, nowUs);
    if !Behind(c.tx, sender) {
      AcceptKeepsDelivery(acked, hearer, script, header);
    }
  }

  // The composed system.

  /** What happens to the Central's packet. */
  datatype Arrival = Lost | Corrupt(packet: seq<u8>) | Clean

  /**
   * The run loop acts alone, or a radio event happens: the Central's packet arrives somehow, and a response
   * may go on air, may be reported as transmitted if it did, and may be heard by the Central.
   */
  datatype Label =
    | Alone(action: Action)
    | Radio(arrival: Arrival, aired: bool, reported: bool, heard: bool, extra: nat, timestampUs: nat, nowUs: u64)

  datatype System = System(running: Running, central: Central)

  function ActionOf(s: System, script: Script, l: Label): Action
    requires script(s.central.index).llid < 4 && |script(s.central.index).payload| <= MAX_PAYLOAD
  {
    match l
    case Alone(action) => action
    case Radio(arrival, aired, reported, _, extra, timestampUs, nowUs) =>
      var transmitted := aired && reported;
      Event(match arrival
            case Lost => None
            case Corrupt(packet) => Some(Exchange(transmitted, false, packet, timestampUs))
            case Clean =>
              Some(Exchange(transmitted, true, CentralPacket(s.central, script, extra % 16), timestampUs)),
            nowUs)
  }

  /** The Central hears the frame that was staged before its own packet arrived. */
  function CentralAfter(s: System, l: Label): Central
    requires StagedOk(s.running.link.tx)
  {
    var c := s.running.link;
    if !s.running.open || !l.Radio? || !(l.aired && l.heard) || ApplyError(c.sched).Some? || StageFails(BeginEvent(c))
    then s.central
    else
      StageKeeps(c.tx);
      var t := Stage(c.tx);
      CentralHears(s.central, AirBytes(t.staged.value, t.bits))
  }

  /** Without the Central, the connection takes every action but a radio event. */
  predicate Permitted(l: Label) {
    l.Alone? ==> !l.action.Event?
  }

  function Step(s: System, script: Script, l: Label): System
    requires StagedOk(s.running.link.tx) && WellFormed(script)
  {
    System(Act(s.running, ActionOf(s, script, l)), CentralAfter(s, l))
  }

  ghost predicate SystemInv(s: System, script: Script) {
    DeliveryInv(s.running.link.tx, s.central, script)
  }

  lemma HostKeepsDelivery(t: Transmit, c: Central, script: Script, packet: seq<u8>)
    requires DeliveryInv(t, c, script)
    ensures DeliveryInv(QueueAcl(t, packet).0, c, script)
  {
    var after := QueueAcl(t, packet).0;
    if after != t {
      var k := t.completed + HeardAcl(t, c);
      assert after.accepted[..|t.accepted|] == t.accepted;
      assert Contents(after.accepted)[..k] == Contents(t.accepted)[..k];
    }
  }

  lemma ReportKeepsDelivery(c: Link, hearer: Central, script: Script, transmitted: bool)
    requires DeliveryInv(c.tx, hearer, script) && c.tx.staged.Some?
    ensures var reported := Report(c, transmitted).0;
      DeliveryInv(reported.tx, hearer, script) && reported.tx.staged.Some? && reported.tx.bits == c.tx.bits
  {
  }

  lemma ExchangeKeepsDelivery(c: Link, sender: Central, hearer: Central, script: Script, e: Exchange,
                              nowUs: u64, extra: nat)
    requires WellFormed(script) && DeliveryInv(c.tx, hearer, script) && c.tx.staged.Some?
    requires Ahead(c.tx, sender) ==> Ahead(c.tx, hearer)
    requires !Behind(c.tx, sender) ==> hearer.bits.transmit == sender.bits.transmit && hearer.index == sender.index
    requires extra < 16 && (e.crcOk ==> e.packet == CentralPacket(sender, script, extra))
    ensures DeliveryInv(ExchangeEvent(c, e, nowUs).0.tx, hearer, script)
  {
    ReportKeepsDelivery(c, hearer, script, e.transmitted);
    if e.crcOk && Report(c, e.transmitted).1 {
      var reported := Report(c, e.transmitted).0;
      CentralHeader(sender, script, extra);
      FinishKeepsDelivery(reported, sender, hearer, script, e.packet[0], !c.tx.staged.value.unsent,
                          SendsTerminate(reported, e.transmitted), e.timestampUs, nowUs);
    }
  }

  lemma EventKeepsDelivery(s: System, script: Script, l: Label)
    requires WellFormed(script) && SystemInv(s, script) && s.running.open && l.Radio?
    ensures var a := ActionOf(s, script, l);
      DeliveryInv(ConnectionEvent(s.running.link, a.exchange, a.nowUs).0.tx, CentralAfter(s, l), script)
  {
    var c := s.running.link;
    StageKeepsDelivery(c.tx, s.central, script);
    PreparedTraffic(c);
    var (prepared, failed) := Prepared(c);
    if failed == None {
      HearKeepsDelivery(prepared.tx, s.central, script);
      var exchange := ActionOf(s, script, l).exchange;
      if exchange.Some? {
        ExchangeKeepsDelivery(prepared, s.central, CentralAfter(s, l), script, exchange.value, l.nowUs, l.extra % 16);
        assert ConnectionEvent(c, exchange, l.nowUs) == ExchangeEvent(prepared, exchange.value, l.nowUs);
      } else {
        assert ConnectionEvent(c, exchange, l.nowUs).0 == prepared;
      }
    }
  }

  lemma PreparedTraffic(c: Link)
    ensures Prepared(c).0.tx == if Prepared(c).1.Some? then c.tx else Stage(c.tx)
    ensures Prepared(c).1.Some? <==> ApplyError(c.sched).Some? || StageFails(BeginEvent(c))
  {
  }

  lemma StepKeepsDelivery(s: System, script: Script, l: Label)
    requires WellFormed(script) && SystemInv(s, script) && Permitted(l)
    ensures SystemInv(Step(s, script, l), script)
  {
    var c := s.running.link;
    if s.running.open {
      match l
      case Radio(_, _, _, _, _, _, _) => EventKeepsDelivery(s, script, l);
      case Alone(SendAcl(packet)) => HostKeepsDelivery(c.tx, s.central, script, packet);
      case Alone(Command(opcode, params)) =>
        CommandGrowsControl(c, opcode, params);
        GrowthKeepsDelivery(c.tx, HandleCommand(c, opcode, params).0.tx, s.central, script);
      case Alone(Skip(events)) => SkipKeepsTransmit(c, events);
      case Alone(CheckResponses(_)) =>
    }
  }

  function Compose(s: System, script: Script, labels: seq<Label>): (after: System)
    requires WellFormed(script) && StagedOk(s.running.link.tx)
    ensures StagedOk(after.running.link.tx)
  {
    if labels == [] then s
    else
      var before := Compose(s, script, labels[..|labels| - 1]);
      var last := labels[|labels| - 1];
      ActKeepsStaged(before.running, ActionOf(before, script, last));
      Step(before, script, last)
  }

  ghost predicate AllPermitted(labels: seq<Label>) {
    forall i :: 0 <= i < |labels| ==> Permitted(labels[i])
  }

  /** The connection and the Central start with all sequence bits clear. */
  function Start(c: ConnectRequest, endUs: nat): Option<System> {
    match Open(c, endUs)
    case None => None
    case Some(link) => Some(System(Running(link, true), Central(SequenceBits(false, false), 0, [])))
  }

  lemma {:induction false} ComposeKeepsDelivery(s: System, script: Script, labels: seq<Label>)
    requires WellFormed(script) && SystemInv(s, script) && AllPermitted(labels)
    ensures SystemInv(Compose(s, script, labels), script)
  {
    if labels != [] {
      ComposeKeepsDelivery(s, script, labels[..|labels| - 1]);
      StepKeepsDelivery(Compose(s, script, labels[..|labels| - 1]), script, labels[|labels| - 1]);
    }
  }

  /**
   * The data in what the Central heard is the data of the first `k` queued fragments, of which the Host knows
   * all or all but one to be completed.
   */
  ghost predicate HeardFirst(s: System, k: nat) {
    var t := s.running.link.tx;
    && t.completed <= k <= t.completed + 1 && k <= |t.accepted|
    && Fragments(s.central.heard) == DataUpTo(t, k)
  }

  ghost predicate DownlinkOk(s: System) {
    && Fragments(s.central.heard) <= Fragments(Contents(s.running.link.tx.accepted))
    && exists k :: HeardFirst(s, k)
  }

  lemma InvariantGivesDownlink(s: System, script: Script)
    requires SystemInv(s, script)
    ensures DownlinkOk(s)
  {
    var t := s.running.link.tx;
    var k := t.completed + HeardAcl(t, s.central);
    assert HeardFirst(s, k);
    FragmentsOfPrefix(Contents(t.accepted), k);
  }

  /** The Central's PDUs were received once each and in order, and at most one before the Central knows. */
  ghost predicate UplinkOk(s: System, script: Script) {
    var t := s.running.link.tx;
    && (forall i :: 0 <= i < |t.received| ==> t.received[i] == script(i))
    && s.central.index <= |t.received| <= s.central.index + 1
    && t.delivered == Fragments(t.received)
  }

  predicate HoldsTheRest(t: Transmit) {
    && |t.accepted| == t.completed + |t.acl| && |t.acl| <= ACL_CREDITS
    && t.acl == t.accepted[t.completed..]
  }

  /**
   * Downlink. In every run over the lossy link, the data fragments among the PDUs the Central heard are in
   * order, without gap or duplicate, a prefix of what the Host queued, and the Host is told about all of them
   * but the newest.
   */
  lemma {:induction false} CentralReceivesHostDataInOrder(
    c: ConnectRequest, endUs: nat, script: Script, labels: seq<Label>)
    requires WellFormed(script) && AllPermitted(labels) && Start(c, endUs).Some?
    ensures DownlinkOk(Compose(Start(c, endUs).value, script, labels))
  {
    ComposeKeepsDelivery(Start(c, endUs).value, script, labels);
    InvariantGivesDownlink(Compose(Start(c, endUs).value, script, labels), script);
  }

  /**
   * Uplink. In every run each PDU of the Central is accepted exactly once and in order, the Host gets exactly
   * its data fragments, and the Central moves on only after that acceptance.
   */
  lemma {:induction false} HostReceivesCentralPdusInOrder(
    c: ConnectRequest, endUs: nat, script: Script, labels: seq<Label>)
    requires WellFormed(script) && AllPermitted(labels) && Start(c, endUs).Some?
    ensures UplinkOk(Compose(Start(c, endUs).value, script, labels), script)
  {
    ComposeKeepsDelivery(Start(c, endUs).value, script, labels);
  }

  // Host credits.

  predicate PacketOk(packet: seq<u8>) {
    && |packet| >= 4
    && FromLe16(packet[0], packet[1]) % 0x1000 == CONNECTION_HANDLE
    && FromLe16(packet[2], packet[3]) == |packet| - 4 <= MAX_PAYLOAD
  }

  predicate Sends(l: Label) {
    l.Alone? && l.action.SendAcl?
  }

  /** The fragment in an HCI ACL packet: its boundary flag is in bits 4 and 5 of the second octet. */
  function FragmentOf(packet: seq<u8>): Received
    requires |packet| >= 4
  {
    Received(if (packet[1] / 16) % 4 == 1 then LLID_CONTINUATION else LLID_START, packet[4..])
  }

  /** The well-formed fragments the Host sent. */
  function Sent(labels: seq<Label>): seq<Received> {
    if labels == [] then []
    else
      var last := labels[|labels| - 1];
      Sent(labels[..|labels| - 1])
      + if Sends(last) && PacketOk(last.action.packet) then [FragmentOf(last.action.packet)] else []
  }

  /** The Host sends only well-formed packets and never has more than its credits outstanding. */
  ghost predicate WithinCredits(s: System, script: Script, labels: seq<Label>)
    requires WellFormed(script) && StagedOk(s.running.link.tx)
  {
    forall i :: 0 <= i < |labels| && Sends(labels[i]) ==>
      var before := Compose(s, script, labels[..i]).running;
      PacketOk(labels[i].action.packet) && before.open
      && |Sent(labels[..i])| < before.link.tx.completed + ACL_CREDITS
  }

  /** Every accepted fragment is still held, or was reported complete; at most five are held. */
  lemma {:induction false} AcceptedIsCompletedPlusHeld(
    c: ConnectRequest, endUs: nat, script: Script, labels: seq<Label>)
    requires WellFormed(script) && AllPermitted(labels) && Start(c, endUs).Some?
    ensures HoldsTheRest(Compose(Start(c, endUs).value, script, labels).running.link.tx)
  {
    ComposeKeepsDelivery(Start(c, endUs).value, script, labels);
  }

  lemma BoundaryFlag(lo: u8, hi: u8)
    ensures (FromLe16(lo, hi) / 0x1000) % 4 == (hi / 16) % 4
  {
    assert FromLe16(lo, hi) / 0x1000 == hi / 16;
  }

  /** A Host packet is accepted exactly when it is well formed and a slot is free; nothing else is. */
  lemma OnlySendingAccepts(r: Running, a: Action)
    requires StagedOk(r.link.tx)
    ensures var before, after := r.link.tx, Act(r, a).link.tx;
      if a.SendAcl? && r.open && PacketOk(a.packet) && |before.acl| < ACL_CREDITS then
        Contents(after.accepted) == Contents(before.accepted) + [FragmentOf(a.packet)]
      else after.accepted == before.accepted
  {
    match a
    case SendAcl(packet) =>
      if |packet| >= 4 {
        BoundaryFlag(packet[0], packet[1]);
      }
    case Command(opcode, params) => CommandGrowsControl(r.link, opcode, params);
    case Skip(events) => SkipKeepsTransmit(r.link, events);
    case Event(exchange, nowUs) => EventCarries(r.link, exchange, nowUs);
    case CheckResponses(nowUs) =>
  }

  lemma CreditsOfPrefix(s: System, script: Script, labels: seq<Label>, n: nat)
    requires WellFormed(script) && StagedOk(s.running.link.tx) && n <= |labels|
    requires WithinCredits(s, script, labels)
    ensures WithinCredits(s, script, labels[..n])
  {
    assert forall i :: 0 <= i < n ==> labels[..n][..i] == labels[..i];
  }

  /** A Host that respects its credits has every fragment accepted, unchanged and in order. */
  lemma {:induction false} HostWithinCreditsIsNeverRefused(
    c: ConnectRequest, endUs: nat, script: Script, labels: seq<Label>)
    requires WellFormed(script) && AllPermitted(labels) && Start(c, endUs).Some?
    requires WithinCredits(Start(c, endUs).value, script, labels)
    ensures Contents(Compose(Start(c, endUs).value, script, labels).running.link.tx.accepted) == Sent(labels)
  {
    if labels != [] {
      var start, n := Start(c, endUs).value, |labels| - 1;
      CreditsOfPrefix(start, script, labels, n);
      HostWithinCreditsIsNeverRefused(c, endUs, script, labels[..n]);
      AcceptedIsCompletedPlusHeld(c, endUs, script, labels[..n]);
      var before := Compose(start, script, labels[..n]);
      OnlySendingAccepts(before.running, ActionOf(before, script, labels[n]));
    }
  }

  /** End to end: the Central heard, in order and once each, a prefix of the fragments the Host sent. */
  lemma {:induction false} CentralReceivesWhatHostSent(
    c: ConnectRequest, endUs: nat, script: Script, labels: seq<Label>)
    requires WellFormed(script) && AllPermitted(labels) && Start(c, endUs).Some?
    requires WithinCredits(Start(c, endUs).value, script, labels)
    ensures Fragments(Compose(Start(c, endUs).value, script, labels).central.heard) <= Fragments(Sent(labels))
  {
    HostWithinCreditsIsNeverRefused(c, endUs, script, labels);
    CentralReceivesHostDataInOrder(c, endUs, script, labels);
  }
}
