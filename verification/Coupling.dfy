/** The procedures and the connection agree on which transaction is under way. */
module Coupling {
  import opened Octets
  import opened Wrappers
  import opened Timing
  import opened ControlPdus
  import opened ConnectInd
  import opened Llcp
  import opened Connection
  import opened Runs
  import opened Instants

  predicate InstantActive(slot: Option<Context>) {
    ActiveIn(slot) && InstantBearing(slot.value.kind)
  }

  /** The indication that a procedure of this kind waits for is pending with this instant. */
  predicate Awaits(s: Schedule, kind: ProcedureKind, instant: u16) {
    if kind == ChannelMapUpdate then s.newMap.Some? && s.newMap.value.instant == instant
    else (kind == ConnectionParameters || kind == ConnectionUpdate)
         && s.update.Some? && s.update.value.instant == instant
  }

  /** An active procedure has an instant exactly while it waits for that pending indication. */
  predicate SlotOk(s: Schedule, slot: Option<Context>) {
    ActiveIn(slot) ==>
      && (slot.value.phase == AwaitingInstant <==> slot.value.instant.Some?)
      && (slot.value.instant.Some? ==> Awaits(s, slot.value.kind, slot.value.instant.value))
      && (slot.value.kind == ConnectionUpdate || slot.value.kind == ChannelMapUpdate ==> slot.value.instant.Some?)
  }

  predicate Coupled(c: Link) {
    var m := c.procedures;
    && SlotOk(c.sched, m.local) && SlotOk(c.sched, m.remote)
    && (c.paramRequest.Some? <==> ActiveKind(m.local, ConnectionParameters))
    && (ActiveIn(m.local) ==> m.local.value.kind == ConnectionParameters || m.local.value.kind == Termination)
    && !(InstantActive(m.local) && InstantActive(m.remote))
    && (c.paramRequest.Some? && c.sched.update.Some? ==> m.local.value.phase == AwaitingInstant)
    && (c.paramRequest.Some? ==> m.local.value.expectedOpcode.Some?)
  }

  // Reaching an instant.

  predicate PendingAhead(s: Schedule) {
    && (s.update.Some? ==> Until(s.counter, s.update.value.instant) <= 32_766)
    && (s.newMap.Some? ==> Until(s.counter, s.newMap.value.instant) <= 32_766)
  }

  lemma PendingIsAhead(s: Schedule)
    requires ScheduleOk(s)
    ensures PendingAhead(s)
  {
  }

  /** Whether this slot's instant is the current event. */
  predicate Reached(s: Schedule, slot: Option<Context>) {
    ActiveIn(slot) && slot.value.instant == Some(s.counter)
  }

  /** No procedure fails because its instant passed: it completes when its indication is applied. */
  lemma SlotSettles(s: Schedule, slot: Option<Context>, error: u8)
    requires PendingAhead(s) && SlotOk(s, slot)
    ensures var after := EventIn(slot, s.counter, error);
      && SlotOk(ApplyDue(s), after)
      && (if Reached(s, slot) then after == Some(slot.value.(phase := Complete, deadlineUs := 0)) else after == slot)
  {
    if ActiveIn(slot) && slot.value.instant.Some? && !Reached(s, slot) {
      assert ClassifyInstant(s.counter, slot.value.instant.value).Future?;
      assert Awaits(ApplyDue(s), slot.value.kind, slot.value.instant.value);
    }
  }

  lemma SettleKeepsCoupled(c: Link)
    requires ScheduleOk(c.sched) && Coupled(c)
    ensures Coupled(Settle(c))
  {
    PendingIsAhead(c.sched);
    SlotSettles(c.sched, c.procedures.local, 0x28);
    SlotSettles(c.sched, c.procedures.remote, 0x28);
  }

  // Procedures.

  lemma ReportKeepsCoupled(c: Link, transmitted: bool)
    requires Coupled(c) && c.tx.staged.Some? && (c.tx.staged.value.kind == Control ==> c.tx.control != [])
    ensures Coupled(Report(c, transmitted).0)
  {
  }

  lemma AcknowledgeKeepsCoupled(c: Link, nesn: bool, outstanding: bool, now: u64)
    requires Coupled(c) && StagedOk(c.tx) && c.tx.staged.Some?
    ensures Coupled(Acknowledge(c, nesn, outstanding, now).0)
  {
  }

  lemma QueueControlKeepsCoupled(c: Link, bytes: seq<u8>)
    requires Coupled(c)
    ensures Coupled(QueueControl(c, bytes))
  {
  }

  lemma RemoteResponseKeepsCoupled(c: Link, kind: ProcedureKind, requestOpcode: u8, response: seq<u8>,
                                   expected: Option<u8>, timeoutUs: Option<u32>)
    requires Coupled(c) && kind != ConnectionUpdate && kind != ChannelMapUpdate
    ensures Coupled(QueueRemoteResponse(c, kind, requestOpcode, response, expected, timeoutUs))
  {
    if response != [] {
      RemoteStartKeepsCoupled(c, kind, response[0], expected, timeoutUs);
      var (started, outcome) := StartRemoteOwned(c, kind, response[0], expected, None, timeoutUs);
      AnswerKeepsCoupled(started, outcome, requestOpcode, response, ControlToken(c.tx));
    }
  }

  lemma RemoteStartKeepsCoupled(c: Link, kind: ProcedureKind, txOpcode: u8, expected: Option<u8>,
                                timeoutUs: Option<u32>)
    requires Coupled(c) && kind != ConnectionUpdate && kind != ChannelMapUpdate
    ensures var (started, outcome) := StartRemoteOwned(c, kind, txOpcode, expected, None, timeoutUs);
      Coupled(started) && (outcome.Pass? ==> started.procedures.remote.value.instant == None)
  {
  }

  lemma AnswerKeepsCoupled(c: Link, outcome: Outcome<ProcedureError>, requestOpcode: u8, response: seq<u8>,
                           token: Token)
    requires Coupled(c) && response != []
    requires outcome.Pass? ==> c.procedures.remote.Some? && c.procedures.remote.value.instant == None
    ensures Coupled(Answer(c, outcome, requestOpcode, response, token))
  {
  }

  lemma FailLocalKeepsCoupled(c: Link, error: u8)
    requires Coupled(c) && c.paramRequest.Some?
    ensures Coupled(FailLocalRequest(c, error))
  {
  }

  lemma UpdateKeepsCoupled(c: Link, payload: seq<u8>)
    requires Coupled(c) && HandleConnectionUpdate(c, payload).1 == None
    ensures Coupled(HandleConnectionUpdate(c, payload).0)
  {
  }

  lemma MapKeepsCoupled(c: Link, payload: seq<u8>)
    requires Coupled(c) && HandleChannelMap(c, payload).1 == None
    ensures Coupled(HandleChannelMap(c, payload).0)
  {
    if c.paramRequest.Some? {
      FailLocalKeepsCoupled(c, CollisionError(ConnectionParameters, ChannelMapUpdate));
    }
  }

  lemma ParamRequestKeepsCoupled(c: Link, payload: seq<u8>)
    requires Coupled(c)
    ensures Coupled(HandleParamRequest(c, payload))
  {
    var decoded := DecodeParams(payload, CONNECTION_PARAM_REQ, c.sched.counter);
    if decoded.Ok? {
      var yielded := Yield(c, CollisionError(ConnectionParameters, ConnectionParameters));
      assert Coupled(yielded);
      RemoteResponseKeepsCoupled(yielded, ConnectionParameters, 0x0f,
                                 EncodeParams(decoded.value, CONNECTION_PARAM_RSP), Some(0x00),
                                 Some(RESPONSE_TIMEOUT_US));
    }
  }

  lemma ControlKeepsCoupled(c: Link, payload: seq<u8>)
    requires Coupled(c) && HandleLlControl(c, payload).1 == None
    ensures Coupled(HandleLlControl(c, payload).0)
  {
    if payload != [] {
      var opcode := payload[0];
      if opcode == 0x00 {
        UpdateKeepsCoupled(c, payload);
      } else if opcode == 0x01 {
        MapKeepsCoupled(c, payload);
      } else if opcode == 0x08 && |payload| == 9 {
        RemoteResponseKeepsCoupled(c, FeatureExchange, 0x08,
                                   [0x09, 2 * ((payload[1] / 2) % 4), 0, 0, 0, 0, 0, 0, 0], None, None);
      } else if opcode == 0x0c && |payload| == 6 {
        RemoteResponseKeepsCoupled(c, VersionExchange, 0x0c, [0x0c, 0x09, 0xff, 0xff, 0x00, 0x00], None, None);
      } else if opcode == 0x0f {
        ParamRequestKeepsCoupled(c, payload);
      } else if opcode == 0x10 {
        QueueControlKeepsCoupled(c, [0x11, 0x10, 0x1e]);
      } else if opcode == 0x12 && |payload| == 1 {
        RemoteResponseKeepsCoupled(c, Ping, 0x12, [0x13], None, None);
      } else {
        QueueControlKeepsCoupled(c, [0x07, opcode]);
      }
    }
  }

  lemma CommandKeepsCoupled(c: Link, opcode: u16, params: seq<u8>)
    requires Coupled(c)
    ensures Coupled(HandleCommand(c, opcode, params).0)
  {
  }

  // Whole runs.

  ghost predicate Consistent(c: Link) {
    ScheduleOk(c.sched) && Coupled(c)
  }

  ghost predicate ResultOk(result: (Link, Option<u8>)) {
    ScheduleOk(result.0.sched) && (result.1 == None ==> Coupled(result.0))
  }

  lemma AcceptKeepsCoupled(c: Link, header: u8, payload: seq<u8>)
    requires Consistent(c)
    ensures ResultOk(Accept(c, header, payload))
  {
    AcceptKeepsSchedule(c, header, payload);
    if Sn(header) == c.tx.bits.expected && Llid(header) == LLID_CONTROL {
      var taken := c.(tx := TakeReceived(c.tx, header, payload));
      if HandleLlControl(taken, payload).1 == None {
        ControlKeepsCoupled(taken, payload);
      }
    }
  }

  lemma SettleResultKeepsCoupled(result: (Link, Option<u8>))
    requires ResultOk(result) && result.1 == None
    ensures Coupled(Settle(result.0))
  {
    SettleKeepsCoupled(result.0);
  }

  lemma FinishKeepsCoupled(c: Link, header: u8, payload: seq<u8>, outstanding: bool, sentTerminate: bool,
                           timestampUs: nat, now: u64)
    requires StagedOk(c.tx) && c.tx.staged.Some? && Consistent(c)
    ensures var (next, closed) := FinishEvent(c, header, payload, outstanding, sentTerminate, timestampUs, now);
      closed == None ==> Coupled(next)
  {
    AcknowledgeKeepsCoupled(c, Nesn(header), outstanding, now);
    var acked := Acknowledge(c, Nesn(header), outstanding, now).0;
    assert acked.sched == c.sched;
    AcceptKeepsCoupled(acked, header, payload);
    var accepted := Accept(acked, header, payload);
    if accepted.1 == None {
      SettleResultKeepsCoupled(accepted);
      var settled := Settle(accepted.0);
      assert Coupled(settled.(sched := Synchronize(settled.sched, AnchorOf(timestampUs, |payload|))));
    }
  }

  lemma ExchangeKeepsCoupled(c: Link, e: Exchange, now: u64)
    requires StagedOk(c.tx) && c.tx.staged.Some? && Consistent(c)
    ensures ExchangeEvent(c, e, now).1 == None ==> Coupled(ExchangeEvent(c, e, now).0)
  {
    ReportCarries(c, e.transmitted);
    ReportKeepsCoupled(c, e.transmitted);
    var reported := Report(c, e.transmitted).0;
    assert reported.sched == c.sched;
    if Report(c, e.transmitted).1 && e.crcOk && ParsePacket(e.packet).Some? {
      FinishKeepsCoupled(reported, ParsePacket(e.packet).value.0, ParsePacket(e.packet).value.1,
                         !c.tx.staged.value.unsent, SendsTerminate(reported, e.transmitted), e.timestampUs, now);
    }
  }

  lemma EventKeepsCoupled(c: Link, exchange: Option<Exchange>, now: u64)
    requires StagedOk(c.tx) && Consistent(c)
    ensures ConnectionEvent(c, exchange, now).1 == None ==> Coupled(ConnectionEvent(c, exchange, now).0)
  {
    SettleKeepsCoupled(c);
    BeginKeepsSchedule(c);
    StageKeeps(c.tx);
    var begun := BeginEvent(c);
    if exchange.Some? && !StageFails(begun) {
      ExchangeKeepsCoupled(begun.(tx := Stage(begun.tx)), exchange.value, now);
    }
  }

  lemma {:induction false} SkipsKeepCoupled(c: Link, n: nat)
    requires Consistent(c)
    ensures Consistent(SkipEvents(c, n))
  {
    if n > 0 {
      SkipsKeepCoupled(c, n - 1);
      SkipKeepsCoupled(SkipEvents(c, n - 1));
    }
  }

  lemma SkipKeepsCoupled(c: Link)
    requires Consistent(c)
    ensures Consistent(SkipEvent(c))
  {
    SettleKeepsCoupled(c);
    UnheardKeepsSchedule(c.sched, false);
    SkipIsUnheard(c);
  }

  ghost predicate OpenConsistent(r: Running) {
    ScheduleOk(r.link.sched) && (r.open ==> Coupled(r.link))
  }

  lemma ActKeepsCoupled(r: Running, a: Action)
    requires StagedOk(r.link.tx) && OpenConsistent(r)
    ensures OpenConsistent(Act(r, a))
  {
    if r.open {
      match a
      case Skip(events) => SkipsKeepCoupled(r.link, events);
      case Event(exchange, now) =>
        EventKeepsCoupled(r.link, exchange, now);
        EventKeepsSchedule(r.link, exchange, now);
        NextEventKeepsCoupled(r.link.sched, ConnectionEvent(r.link, exchange, now));
      case SendAcl(_) =>
      case Command(opcode, params) =>
        CommandKeepsSchedule(r.link, opcode, params);
        CommandKeepsCoupled(r.link, opcode, params);
      case CheckResponses(_) =>
    }
  }

  lemma NextEventKeepsCoupled(before: Schedule, result: (Link, Option<u8>))
    requires EventOk(before, result, 1) && (result.1 == None ==> Coupled(result.0))
    ensures OpenConsistent(if result.1.Some? then Running(result.0, false)
                           else Running(result.0.(sched := ScheduleFollowing(result.0.sched)), true))
  {
    if result.1 == None {
      FollowingKeepsSchedule(result.0.sched);
    }
  }

  lemma {:induction false} RunKeepsCoupled(r: Running, actions: seq<Action>)
    requires StagedOk(r.link.tx) && OpenConsistent(r)
    ensures OpenConsistent(Run(r, actions))
  {
    if actions != [] {
      RunKeepsCoupled(r, actions[..|actions| - 1]);
      ActKeepsCoupled(Run(r, actions[..|actions| - 1]), actions[|actions| - 1]);
    }
  }

  /**
   * In every run that leaves the connection open, a local parameter request is recorded exactly while its
   * procedure is active, the two sides never both run an instant-bearing procedure, and every procedure that
   * waits for an instant waits for the pending indication with that instant, which has not passed.
   */
  lemma {:induction false} ProceduresMatchConnection(c: ConnectRequest, endUs: nat, actions: seq<Action>)
    requires Connectable(c) && Open(c, endUs).Some?
    requires Run(Running(Open(c, endUs).value, true), actions).open
    ensures var link := Run(Running(Open(c, endUs).value, true), actions).link;
      var m := link.procedures;
      && Coupled(link)
      && (link.paramRequest.Some? <==> ActiveKind(m.local, ConnectionParameters))
      && !(InstantActive(m.local) && InstantActive(m.remote))
      && NeverPasses(link.sched, m.local) && NeverPasses(link.sched, m.remote)
  {
    var r := Running(Open(c, endUs).value, true);
    OpenIsScheduled(c, endUs);
    RunKeepsCoupled(r, actions);
    PendingIsAhead(Run(r, actions).link.sched);
  }

  predicate NeverPasses(s: Schedule, slot: Option<Context>) {
    slot.Some? && slot.value.phase == AwaitingInstant ==>
      slot.value.instant.Some? && !ClassifyInstant(s.counter, slot.value.instant.value).Passed?
  }
}
