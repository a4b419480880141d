/** Progress: over a link that loses nothing for a while, everything that is queued gets through. */
module Progress {
  import opened Octets
  import opened Wrappers
  import opened Sequence
  import opened Connection
  import opened Runs
  import opened Instants
  import opened Delivery

  /** An event in which both packets arrive and the transmission is reported. */
  predicate Ideal(l: Label) {
    l.Radio? && l.arrival.Clean? && l.aired && l.reported && l.heard
  }

  /** The Central sends no control PDU. */
  ghost predicate Quiet(script: Script) {
    forall n :: script(n).llid != LLID_CONTROL
  }

  /** What the frame staged next must carry, from the queues alone. */
  function NextContent(t: Transmit): (u8, seq<u8>) {
    if t.control != [] then (t.control[0].llid, t.control[0].payload)
    else if t.acl != [] then (t.acl[0].llid, t.acl[0].payload)
    else (1, [])
  }

  lemma StagingTakesTheNextPdu(t: Transmit)
    requires t.staged == None
    ensures var f := Stage(t).staged.value; (f.llid, f.payload) == NextContent(t) && f.unsent
  {
  }

  /** Released: the queues without the PDU that was staged, and the count of completed fragments. */
  predicate Completes(before: Transmit, after: Transmit) {
    && after.staged == None && after.accepted == before.accepted
    && (if before.control != [] then
          after.control == before.control[1..] && after.acl == before.acl && after.completed == before.completed
        else if before.acl != [] then
          after.control == [] && after.acl == before.acl[1..] && after.completed == before.completed + 1
        else after.control == [] && after.acl == [] && after.completed == before.completed)
  }

  /** The frame is on air, was reported, and the Central has accepted it. */
  predicate InFlight(s: System) {
    var t := s.running.link.tx;
    t.staged.Some? && !t.staged.value.unsent && Ahead(t, s.central)
  }

  /** One ideal event: the frame is heard now, and a frame heard before is released. */
  lemma IdealEvent(s: System, script: Script, l: Label)
    requires WellFormed(script) && Quiet(script) && SystemInv(s, script) && Ideal(l) && s.running.open
    requires Step(s, script, l).running.open
    ensures var t, after := Stage(s.running.link.tx), Step(s, script, l);
      var u := after.running.link.tx;
      && u.accepted == t.accepted
      && (if !t.staged.value.unsent && Ahead(t, s.central) then
            u.staged == None && u.control == Release(t).control && u.acl == Release(t).acl
            && u.completed == Release(t).completed
          else
            u.staged == Some(t.staged.value.(unsent := false)) && u.control == t.control && u.acl == t.acl
            && u.completed == t.completed && InFlight(after))
      && |u.received| == s.central.index + 1
      && after.central.index == s.central.index + (if Behind(t, s.central) then 1 else 0)
  {
    var c := s.running.link;
    StageKeeps(c.tx);
    var (prepared, failed) := Prepared(c);
    PreparedTraffic(c);
    var a := ActionOf(s, script, l);
    assert failed == None;
    AirHeader(prepared.tx.staged.value, prepared.tx.bits);
    CentralHeader(s.central, script, l.extra % 16);
    assert ConnectionEvent(c, a.exchange, a.nowUs) == ExchangeEvent(prepared, a.exchange.value, a.nowUs);
    IdealExchange(prepared, s.central, script, a.exchange.value, l.nowUs, l.extra % 16);
    StepKeepsDelivery(s, script, l);
  }

  /** The connection's side of it. */
  lemma IdealExchange(c: Link, sender: Central, script: Script, e: Exchange, now: u64, extra: nat)
    requires WellFormed(script) && Quiet(script) && StagedOk(c.tx) && c.tx.staged.Some?
    requires extra < 16 && e.transmitted && e.crcOk && e.packet == CentralPacket(sender, script, extra)
    requires ExchangeEvent(c, e, now).1 == None
    ensures var t, u := c.tx, ExchangeEvent(c, e, now).0.tx;
      && u.accepted == t.accepted
      && u.bits.expected == (if t.bits.expected == sender.bits.transmit then !t.bits.expected else t.bits.expected)
      && (if !t.staged.value.unsent && Ahead(t, sender) then
            u.staged == None && u.control == Release(t).control && u.acl == Release(t).acl
            && u.completed == Release(t).completed && u.bits.transmit == !t.bits.transmit
          else
            u.staged == Some(t.staged.value.(unsent := false)) && u.control == t.control && u.acl == t.acl
            && u.completed == t.completed && u.bits.transmit == t.bits.transmit)
  {
    CentralHeader(sender, script, extra);
  }

  /** With nothing staged, the Central has heard exactly the data of the completed fragments. */
  lemma HeardIsCompleted(s: System, script: Script)
    requires SystemInv(s, script) && s.running.link.tx.staged == None
    ensures Fragments(s.central.heard) == DataUpTo(s.running.link.tx, s.running.link.tx.completed)
  {
  }

  lemma NextFragment(t: Transmit)
    requires QueueOk(t) && t.acl != []
    ensures t.completed < |t.accepted|
    ensures DataUpTo(t, t.completed + 1)
         == DataUpTo(t, t.completed) + DataOf(Received(t.acl[0].llid, t.acl[0].payload))
  {
    assert t.acl[0] == t.accepted[t.completed];
    var earlier := Contents(t.accepted)[..t.completed];
    var next := Received(t.acl[0].llid, t.acl[0].payload);
    assert Contents(t.accepted)[..t.completed + 1] == earlier + [next];
    FragmentsGrow(earlier, next);
  }

  /** A closed connection stays closed. */
  lemma ClosedStays(s: System, script: Script, l: Label)
    requires WellFormed(script) && StagedOk(s.running.link.tx) && Step(s, script, l).running.open
    ensures s.running.open
  {
  }

  /**
   * From a moment at which nothing is staged, two ideal events send exactly the next PDU: a control PDU first,
   * else a fragment, whose data is then heard and which is reported completed. Meanwhile the Central gets
   * exactly one of its own PDUs through.
   */
  lemma {:induction false} TwoIdealEventsSendTheNextPdu(s: System, script: Script, first: Label, second: Label)
    requires WellFormed(script) && Quiet(script) && SystemInv(s, script) && s.running.link.tx.staged == None
    requires Ideal(first) && Ideal(second)
    requires StagedOk(Step(s, script, first).running.link.tx)
    requires Step(Step(s, script, first), script, second).running.open
    ensures var t, after := s.running.link.tx, Step(Step(s, script, first), script, second);
      && Completes(t, after.running.link.tx)
      && Fragments(after.central.heard) == Fragments(s.central.heard)
         + (if t.control == [] && t.acl != [] then DataOf(Received(t.acl[0].llid, t.acl[0].payload)) else [])
      && after.central.index == s.central.index + 1
  {
    var middle := Step(s, script, first);
    ClosedStays(middle, script, second);
    ClosedStays(s, script, first);
    StepKeepsDelivery(s, script, first);
    IdealEvent(s, script, first);
    StepKeepsDelivery(middle, script, second);
    IdealEvent(middle, script, second);
    TwoEventsComplete(s, script, middle, Step(middle, script, second));
  }

  /** What the two event laws add up to. */
  lemma TwoEventsComplete(s: System, script: Script, middle: System, after: System)
    requires SystemInv(s, script) && SystemInv(middle, script) && SystemInv(after, script)
    requires s.running.link.tx.staged == None
    requires var t, u, v := Stage(s.running.link.tx), middle.running.link.tx, after.running.link.tx;
      && u.accepted == t.accepted && u.staged == Some(t.staged.value.(unsent := false))
      && u.control == t.control && u.acl == t.acl && u.completed == t.completed
      && v.accepted == u.accepted && v.staged == None && v.control == Release(u).control
      && v.acl == Release(u).acl && v.completed == Release(u).completed
    requires |middle.running.link.tx.received| == s.central.index + 1
    requires middle.central.index == s.central.index + (if Behind(Stage(s.running.link.tx), s.central) then 1 else 0)
    requires after.central.index
          == middle.central.index + (if Behind(middle.running.link.tx, middle.central) then 1 else 0)
    ensures var t := s.running.link.tx;
      && Completes(t, after.running.link.tx)
      && Fragments(after.central.heard) == Fragments(s.central.heard)
         + (if t.control == [] && t.acl != [] then DataOf(Received(t.acl[0].llid, t.acl[0].payload)) else [])
      && after.central.index == s.central.index + 1
  {
    var t := s.running.link.tx;
    HeardIsCompleted(s, script);
    HeardIsCompleted(after, script);
    if t.control == [] && t.acl != [] {
      NextFragment(t);
    }
  }

  // Everything gets through.

  function Left(t: Transmit): nat {
    |t.control| + |t.acl|
  }

  /** The ideal events that are enough to empty the queues. */
  function Work(s: System): nat {
    var t := s.running.link.tx;
    if Left(t) == 0 then 0
    else if t.staged == None then 2 * Left(t)
    else 2 * Left(t) - (if t.staged.value.kind == Empty then 0 else 2) + (if InFlight(s) then 1 else 2)
  }

  lemma WorkShrinks(s: System, script: Script, l: Label)
    requires WellFormed(script) && Quiet(script) && SystemInv(s, script) && Ideal(l)
    requires Step(s, script, l).running.open
    ensures var after := Step(s, script, l);
      && after.running.link.tx.accepted == s.running.link.tx.accepted
      && Left(after.running.link.tx) <= Left(s.running.link.tx)
      && (Left(s.running.link.tx) > 0 ==> Work(after) < Work(s))
  {
    ClosedStays(s, script, l);
    StageKeeps(s.running.link.tx);
    IdealEvent(s, script, l);
  }

  ghost predicate AllIdeal(labels: seq<Label>) {
    forall i :: 0 <= i < |labels| ==> Ideal(labels[i])
  }

  lemma {:induction false} WorkIsDone(s: System, script: Script, labels: seq<Label>)
    requires WellFormed(script) && Quiet(script) && SystemInv(s, script) && AllIdeal(labels)
    requires Compose(s, script, labels).running.open
    ensures var after := Compose(s, script, labels);
      && SystemInv(after, script) && after.running.link.tx.accepted == s.running.link.tx.accepted
      && (Left(after.running.link.tx) == 0 || Work(after) + |labels| <= Work(s))
  {
    if labels != [] {
      var n := |labels| - 1;
      var before := Compose(s, script, labels[..n]);
      ClosedStays(before, script, labels[n]);
      WorkIsDone(s, script, labels[..n]);
      WorkShrinks(before, script, labels[n]);
      StepKeepsDelivery(before, script, labels[n]);
    }
  }

  /** All that was queued was sent, completed and heard. */
  ghost predicate AllThrough(s: System) {
    var t := s.running.link.tx;
    && t.control == [] && t.acl == [] && t.completed == |t.accepted|
    && Fragments(s.central.heard) == Fragments(Contents(t.accepted))
  }

  lemma NothingLeftMeansAllThrough(s: System, script: Script)
    requires SystemInv(s, script) && Left(s.running.link.tx) == 0
    ensures AllThrough(s)
  {
    var t := s.running.link.tx;
    assert t.completed == |t.accepted|;
    assert Contents(t.accepted)[..|t.accepted|] == Contents(t.accepted);
  }

  /**
   * From any consistent state, two ideal events for every queued PDU, and two more, get everything through,
   * unless a control PDU whose procedure was given up closes the connection on the way.
   */
  lemma {:induction false} EverythingGetsThrough(s: System, script: Script, labels: seq<Label>)
    requires WellFormed(script) && Quiet(script) && SystemInv(s, script) && AllIdeal(labels)
    requires |labels| >= 2 * Left(s.running.link.tx) + 2
    ensures var after := Compose(s, script, labels); after.running.open ==> AllThrough(after)
  {
    var after := Compose(s, script, labels);
    if after.running.open {
      WorkIsDone(s, script, labels);
      assert Work(s) <= 2 * Left(s.running.link.tx) + 2;
      assert Left(after.running.link.tx) > 0 ==> Work(after) > 0;
      NothingLeftMeansAllThrough(after, script);
    }
  }

  // Without control PDUs nothing closes the connection.

  lemma QuietEventSucceeds(c: Link, sender: Central, script: Script, e: Exchange, now: u64, extra: nat)
    requires WellFormed(script) && Quiet(script) && StagedOk(c.tx) && c.tx.control == [] && ScheduleOk(c.sched)
    requires extra < 16 && e.crcOk && e.packet == CentralPacket(sender, script, extra)
    ensures ConnectionEvent(c, Some(e), now).1 == None
  {
    BeginKeepsSchedule(c);
    StageKeeps(c.tx);
    var (prepared, failed) := Prepared(c);
    assert failed == None && prepared.tx == Stage(c.tx);
    QuietExchangeStaysOpen(prepared, sender, script, e, now, extra);
    assert ConnectionEvent(c, Some(e), now) == ExchangeEvent(prepared, e, now);
  }

  lemma QuietEventStaysOpen(s: System, script: Script, l: Label)
    requires WellFormed(script) && Quiet(script) && SystemInv(s, script) && Ideal(l) && s.running.open
    requires s.running.link.tx.control == [] && ScheduleOk(s.running.link.sched)
    ensures var after := Step(s, script, l).running;
      after.open && after.link.tx.control == [] && ScheduleOk(after.link.sched)
  {
    var c, a := s.running.link, ActionOf(s, script, l);
    QuietEventSucceeds(c, s.central, script, a.exchange.value, a.nowUs, l.extra % 16);
    EventKeepsSchedule(c, a.exchange, a.nowUs);
    FollowingKeepsSchedule(ConnectionEvent(c, a.exchange, a.nowUs).0.sched);
    IdealEvent(s, script, l);
  }

  lemma QuietExchangeStaysOpen(c: Link, sender: Central, script: Script, e: Exchange, now: u64, extra: nat)
    requires WellFormed(script) && Quiet(script) && StagedOk(c.tx) && c.tx.staged.Some? && c.tx.control == []
    requires ScheduleOk(c.sched)
    requires extra < 16 && e.crcOk && e.packet == CentralPacket(sender, script, extra)
    ensures ExchangeEvent(c, e, now).1 == None
  {
    CentralHeader(sender, script, extra);
    QuietTrafficSucceeds(c, e.transmitted, false, false, now);
    var reported := Report(c, e.transmitted).0;
    ReportCarries(c, e.transmitted);
    var header, payload := e.packet[0], script(sender.index).payload;
    var outstanding := !c.tx.staged.value.unsent;
    QuietTrafficSucceeds(reported, false, Nesn(header), outstanding, now);
    ApplyKeepsSchedule(c.sched);
    assert ExchangeEvent(c, e, now)
        == FinishEvent(reported, header, payload, outstanding, SendsTerminate(reported, e.transmitted),
                       e.timestampUs, now);
  }

  lemma {:induction false} QuietRunStaysOpen(s: System, script: Script, labels: seq<Label>)
    requires WellFormed(script) && Quiet(script) && SystemInv(s, script) && AllIdeal(labels) && s.running.open
    requires s.running.link.tx.control == [] && ScheduleOk(s.running.link.sched)
    ensures var after := Compose(s, script, labels);
      && after.running.open && SystemInv(after, script)
      && after.running.link.tx.control == [] && ScheduleOk(after.running.link.sched)
  {
    if labels != [] {
      var n := |labels| - 1;
      QuietRunStaysOpen(s, script, labels[..n]);
      var before := Compose(s, script, labels[..n]);
      QuietEventStaysOpen(before, script, labels[n]);
      StepKeepsDelivery(before, script, labels[n]);
    }
  }

  /** Host data alone always gets through: two ideal events for every held fragment, and two more, are enough. */
  lemma {:induction false} HostDataGetsThrough(s: System, script: Script, labels: seq<Label>)
    requires WellFormed(script) && Quiet(script) && SystemInv(s, script) && AllIdeal(labels) && s.running.open
    requires s.running.link.tx.control == [] && ScheduleOk(s.running.link.sched)
    requires |labels| >= 2 * |s.running.link.tx.acl| + 2
    ensures AllThrough(Compose(s, script, labels))
  {
    QuietRunStaysOpen(s, script, labels);
    EverythingGetsThrough(s, script, labels);
  }
}
