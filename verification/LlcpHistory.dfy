/** What every sequence of procedure operations guarantees about completion and deadlines. */
module LlcpHistory {
  import opened Octets
  import opened Wrappers
  import opened Timing
  import opened Llcp

  datatype Op =
    | StartOp(who: Initiator, kind: ProcedureKind, token: Token, txOpcode: u8, expected: Option<u8>,
              instant: Option<u16>, timeoutUs: Option<u32>)
    | TxPlannedOp(who: Initiator, token: Token)
    | TxDoneOp(who: Initiator, token: Token)
    | NesnAckOp(who: Initiator, token: Token, now: u64)
    | ResponseOp(who: Initiator, opcode: u8)
    | ResponseWithInstantOp(who: Initiator, opcode: u8, at: u16)
    | ResponseQueuedOp(token: Token, txOpcode: u8)
    | FailOp(who: Initiator, error: u8)
    | TimeoutOp(now: u64, error: u8)
    | EventOp(counter: u16, passedError: u8)

  function Born(op: Op): Context
    requires op.StartOp?
  {
    NewContext(op.kind, op.who, op.token, op.txOpcode, op.expected, op.instant, op.timeoutUs)
  }

  function Attempt(m: Manager, op: Op): Step {
    match op
    case StartOp(who, _, _, _, _, _, _) => if who == Local then StartLocal(m, Born(op)) else StartRemote(m, Born(op))
    case TxPlannedOp(who, token) => TxPlanned(m, who, token)
    case TxDoneOp(who, token) => TxDone(m, who, token)
    case NesnAckOp(who, token, now) => NesnAck(m, who, token, now)
    case ResponseOp(who, opcode) => ExpectedResponse(m, who, opcode)
    case ResponseWithInstantOp(who, opcode, at) => ExpectedResponseWithInstant(m, who, opcode, at)
    case ResponseQueuedOp(token, txOpcode) => MarkResponseQueued(m, token, txOpcode)
    case FailOp(who, error) => FailProcedure(m, who, error)
    case TimeoutOp(now, error) => (CheckTimeouts(m, now, error), Pass)
    case EventOp(counter, passedError) => (OnConnectionEvent(m, counter, passedError), Pass)
  }

  function Perform(m: Manager, op: Op): Manager {
    Attempt(m, op).0
  }

  predicate Owns(slot: Option<Context>, token: Token) {
    slot.Some? && slot.value.token == token
  }

  predicate Expects(slot: Option<Context>, opcode: u8) {
    slot.Some? && slot.value.expectedOpcode == Some(opcode)
  }

  /** A refused operation, such as one with a mismatched token or opcode, changes nothing. */
  lemma RefusalChangesNothing(m: Manager, op: Op)
    ensures Attempt(m, op).1.Fail? ==> Perform(m, op) == m
    ensures (op.TxDoneOp? || op.NesnAckOp?) && !Owns(Of(m, op.who), op.token) ==> Attempt(m, op).1.Fail?
    ensures (op.ResponseOp? || op.ResponseWithInstantOp?) && !Expects(Of(m, op.who), op.opcode) ==>
      Attempt(m, op).1.Fail?
  {
  }

  // Completion of a local procedure.

  /** The manager, the operations since the local procedure was started, and the context it began as. */
  datatype Traced = Traced(m: Manager, log: seq<Op>, born: Option<Context>)

  function Trace(t: Traced, op: Op): Traced {
    if op.StartOp? && op.who == Local && Attempt(t.m, op).1.Pass? then
      Traced(Perform(t.m, op), [], Some(Born(op)))
    else
      Traced(Perform(t.m, op), t.log + [op], t.born)
  }

  function TraceAll(ops: seq<Op>): Traced {
    if ops == [] then Traced(Manager(None, None), [], None)
    else Trace(TraceAll(ops[..|ops| - 1]), ops[|ops| - 1])
  }

  ghost predicate TxSeen(log: seq<Op>, token: Token) {
    exists i :: 0 <= i < |log| && log[i] == TxDoneOp(Local, token)
  }

  predicate IsAck(op: Op, token: Token) {
    op.NesnAckOp? && op.who == Local && op.token == token
  }

  ghost predicate AckSeen(log: seq<Op>, token: Token) {
    exists i :: 0 <= i < |log| && IsAck(log[i], token) && TxSeen(log[..i], token)
  }

  predicate IsResponse(op: Op, opcode: u8) {
    (op.ResponseOp? || op.ResponseWithInstantOp?) && op.who == Local && op.opcode == opcode
  }

  ghost predicate ResponseSeen(log: seq<Op>, token: Token, opcode: u8) {
    exists i :: 0 <= i < |log| && IsResponse(log[i], opcode) && AckSeen(log[..i], token)
  }

  /** The exact PDU was sent, then acknowledged, then answered if an answer is expected. */
  ghost predicate Answerable(log: seq<Op>, born: Context) {
    if born.expectedOpcode.Some? then ResponseSeen(log, born.token, born.expectedOpcode.value)
    else AckSeen(log, born.token)
  }

  predicate IsEvent(op: Op, counter: u16) {
    op.EventOp? && op.counter == counter
  }

  ghost predicate InstantSeen(log: seq<Op>, born: Context, instant: u16) {
    exists i :: 0 <= i < |log| && IsEvent(log[i], instant) && Answerable(log[..i], born)
  }

  ghost predicate Earned(log: seq<Op>, born: Context, instant: Option<u16>) {
    if instant.Some? then InstantSeen(log, born, instant.value) else Answerable(log, born)
  }

  predicate IsAnnouncement(op: Op, opcode: Option<u8>, instant: u16) {
    op.ResponseWithInstantOp? && op.who == Local && Some(op.opcode) == opcode && op.at == instant
  }

  /** The expected answer to the acknowledged PDU announced this instant. */
  ghost predicate Announced(log: seq<Op>, born: Context, instant: u16) {
    exists i :: 0 <= i < |log| && IsAnnouncement(log[i], born.expectedOpcode, instant) && AckSeen(log[..i], born.token)
  }

  /** The instant is the one the procedure was started with, or one that its expected answer announced. */
  ghost predicate InstantGiven(log: seq<Op>, born: Context, instant: Option<u16>) {
    instant == born.instant || (instant.Some? && Announced(log, born, instant.value))
  }

  lemma InstantGivenGrows(log: seq<Op>, op: Op, born: Context, instant: Option<u16>)
    ensures InstantGiven(log, born, instant) ==> InstantGiven(log + [op], born, instant)
    ensures instant.Some? && IsAnnouncement(op, born.expectedOpcode, instant.value) && AckSeen(log, born.token)
      ==> InstantGiven(log + [op], born, instant)
  {
    var longer := log + [op];
    assert longer[..|log|] == log && longer[|log|] == op;
    if instant.Some? && Announced(log, born, instant.value) {
      var i :| 0 <= i < |log| && IsAnnouncement(log[i], born.expectedOpcode, instant.value)
        && AckSeen(log[..i], born.token);
      assert longer[i] == log[i] && longer[..i] == log[..i];
    }
  }

  lemma TxSeenGrows(log: seq<Op>, op: Op, token: Token)
    ensures TxSeen(log, token) ==> TxSeen(log + [op], token)
    ensures op == TxDoneOp(Local, token) ==> TxSeen(log + [op], token)
  {
    if TxSeen(log, token) {
      var i :| 0 <= i < |log| && log[i] == TxDoneOp(Local, token);
      assert (log + [op])[i] == log[i];
    } else if op == TxDoneOp(Local, token) {
      assert (log + [op])[|log|] == op;
    }
  }

  lemma AckSeenGrows(log: seq<Op>, op: Op, token: Token)
    ensures AckSeen(log, token) ==> AckSeen(log + [op], token)
    ensures IsAck(op, token) && TxSeen(log, token) ==> AckSeen(log + [op], token)
  {
    var longer := log + [op];
    assert longer[..|log|] == log && longer[|log|] == op;
    if AckSeen(log, token) {
      var i :| 0 <= i < |log| && IsAck(log[i], token) && TxSeen(log[..i], token);
      assert longer[i] == log[i] && longer[..i] == log[..i];
    }
  }

  lemma AnswerableGrows(log: seq<Op>, op: Op, born: Context)
    ensures Answerable(log, born) ==> Answerable(log + [op], born)
    ensures born.expectedOpcode.Some? && IsResponse(op, born.expectedOpcode.value) && AckSeen(log, born.token)
      ==> Answerable(log + [op], born)
    ensures born.expectedOpcode == None && AckSeen(log + [op], born.token) ==> Answerable(log + [op], born)
  {
    AckSeenGrows(log, op, born.token);
    var longer := log + [op];
    assert longer[..|log|] == log && longer[|log|] == op;
    if born.expectedOpcode.Some? && Answerable(log, born) {
      var i :| 0 <= i < |log| && IsResponse(log[i], born.expectedOpcode.value) && AckSeen(log[..i], born.token);
      assert longer[i] == log[i] && longer[..i] == log[..i];
    }
  }

  lemma EarnedGrows(log: seq<Op>, op: Op, born: Context, instant: Option<u16>)
    ensures Earned(log, born, instant) ==> Earned(log + [op], born, instant)
    ensures instant.Some? && IsEvent(op, instant.value) && Answerable(log, born) ==> Earned(log + [op], born, instant)
  {
    AnswerableGrows(log, op, born);
    var longer := log + [op];
    assert longer[..|log|] == log && longer[|log|] == op;
    if instant.Some? && Earned(log, born, instant) {
      var i :| 0 <= i < |log| && IsEvent(log[i], instant.value) && Answerable(log[..i], born);
      assert longer[i] == log[i] && longer[..i] == log[..i];
    }
  }

  /** What the log of a local procedure holds in each phase. */
  ghost predicate PhaseEarned(c: Context, born: Context, log: seq<Op>) {
    && c.initiator == Local && c.token == born.token && c.expectedOpcode == born.expectedOpcode
    && !c.pendingResponse && c.phase != ResponseQueued
    && InstantGiven(log, born, c.instant)
    && (c.phase == AwaitingTxAck ==> TxSeen(log, born.token))
    && (c.phase == AwaitingResponse ==> AckSeen(log, born.token) && born.expectedOpcode.Some?)
    && (c.phase == AwaitingInstant ==> Answerable(log, born) && c.instant.Some?)
    && (c.phase == Complete ==> Earned(log, born, c.instant))
  }

  ghost predicate TracedInv(t: Traced) {
    && (t.m.local.Some? <==> t.born.Some?)
    && (t.m.local.Some? ==> PhaseEarned(t.m.local.value, t.born.value, t.log))
  }

  /** What an operation makes of a local context that it does not replace. */
  function LocalAfter(c: Context, op: Op): Context {
    match op
    case TxDoneOp(Local, token) => if TransmitError(c, token) == None then c.(phase := AwaitingTxAck) else c
    case NesnAckOp(Local, token, now) => if AckError(c, token) == None then Llcp.Acked(c, now) else c
    case ResponseOp(Local, opcode) => if ResponseError(c, opcode) == None then Answered(c) else c
    case ResponseWithInstantOp(Local, opcode, at) =>
      if ResponseError(c, opcode) == None then AnsweredWithInstant(c, at) else c
    case FailOp(Local, error) => FailedWith(c, error)
    case TimeoutOp(now, error) => Timeout(c, now, error)
    case EventOp(counter, passedError) => AtEvent(c, counter, passedError)
    case _ => c
  }

  lemma LocalSurvives(m: Manager, op: Op)
    requires m.local.Some? && (op.StartOp? && op.who == Local ==> Attempt(m, op).1.Fail?)
    ensures Perform(m, op).local == Some(LocalAfter(m.local.value, op))
  {
  }

  lemma LocalStaysAbsent(m: Manager, op: Op)
    requires m.local == None && !(op.StartOp? && op.who == Local && Attempt(m, op).1.Pass?)
    ensures Perform(m, op).local == None
  {
  }

  lemma PhaseStep(c: Context, born: Context, log: seq<Op>, op: Op)
    requires PhaseEarned(c, born, log)
    ensures PhaseEarned(LocalAfter(c, op), born, log + [op])
  {
    TxSeenGrows(log, op, born.token);
    AckSeenGrows(log, op, born.token);
    AnswerableGrows(log, op, born);
    EarnedGrows(log, op, born, c.instant);
    InstantGivenGrows(log, op, born, LocalAfter(c, op).instant);
  }

  lemma TracePreserves(t: Traced, op: Op)
    requires TracedInv(t)
    ensures TracedInv(Trace(t, op))
  {
    if op.StartOp? && op.who == Local && Attempt(t.m, op).1.Pass? {
    } else if t.born.Some? {
      LocalSurvives(t.m, op);
      PhaseStep(t.m.local.value, t.born.value, t.log, op);
    } else {
      LocalStaysAbsent(t.m, op);
    }
  }

  lemma {:induction false} TraceAllInv(ops: seq<Op>)
    ensures TracedInv(TraceAll(ops))
  {
    if ops != [] {
      TraceAllInv(ops[..|ops| - 1]);
      TracePreserves(TraceAll(ops[..|ops| - 1]), ops[|ops| - 1]);
    }
  }

  /**
   * Over every sequence of operations, a local procedure is complete only if, since it was started,
   * its exact PDU was transmitted, then acknowledged, then answered with the expected opcode if one
   * is expected, and then its instant was reached if it has one. That instant is the one it was started
   * with or the one its answer announced.
   */
  lemma LocalCompletionIsEarned(ops: seq<Op>)
    ensures var t := TraceAll(ops);
      t.m.local.Some? && t.m.local.value.phase == Complete ==>
        && t.born.Some? && Earned(t.log, t.born.value, t.m.local.value.instant)
        && InstantGiven(t.log, t.born.value, t.m.local.value.instant)
  {
    TraceAllInv(ops);
  }

  // Response deadlines.

  function PerformAll(ops: seq<Op>): Manager {
    if ops == [] then Manager(None, None) else Perform(PerformAll(ops[..|ops| - 1]), ops[|ops| - 1])
  }

  /** This acknowledgement is accepted, and arms the deadline that `c` has. */
  predicate Arms(m: Manager, op: Op, who: Initiator, c: Context) {
    && op.NesnAckOp? && op.who == who
    && Of(m, who).Some? && AckError(Of(m, who).value, op.token) == None
    && c.timeoutUs != 0 && c.deadlineUs == SaturatingAdd(op.now, c.timeoutUs)
  }

  /** This operation starts a new procedure of this side. */
  predicate Begins(m: Manager, op: Op, who: Initiator) {
    op.StartOp? && op.who == who && Attempt(m, op).1.Pass?
  }

  /** The `i`-th operation armed the deadline of `c`, and the same procedure has been there since. */
  ghost predicate ArmedAt(ops: seq<Op>, i: nat, who: Initiator, c: Context)
    requires i < |ops|
  {
    && Arms(PerformAll(ops[..i]), ops[i], who, c)
    && forall j :: i < j < |ops| ==> !Begins(PerformAll(ops[..j]), ops[j], who)
  }

  ghost predicate Armed(ops: seq<Op>, who: Initiator, c: Context) {
    exists i :: 0 <= i < |ops| && ArmedAt(ops, i, who, c)
  }

  /** Only a procedure that expects an answer and is not finished has a deadline. */
  predicate DeadlinePhase(c: Context) {
    c.deadlineUs != 0 ==>
      && c.expectedOpcode.Some?
      && (c.phase == AwaitingResponse || c.phase == AwaitingInstant || c.phase == ResponseQueued
          || c.phase == AwaitingTxAck)
  }

  /** A procedure that waits for an answer with a timeout has a deadline. */
  predicate TimerRuns(c: Context) {
    c.phase == AwaitingResponse && c.timeoutUs != 0 ==> c.deadlineUs != 0
  }

  ghost predicate DeadlineOk(ops: seq<Op>, who: Initiator, c: Context) {
    DeadlinePhase(c) && TimerRuns(c) && (c.deadlineUs != 0 ==> Armed(ops, who, c))
  }

  ghost predicate DeadlinesOk(ops: seq<Op>, m: Manager) {
    && (m.local.Some? ==> DeadlineOk(ops, Local, m.local.value))
    && (m.remote.Some? ==> DeadlineOk(ops, Remote, m.remote.value))
  }

  lemma ArmedAtGrows(ops: seq<Op>, op: Op, i: nat, who: Initiator, before: Context, after: Context)
    requires i < |ops| && ArmedAt(ops, i, who, before) && !Begins(PerformAll(ops), op, who)
    requires after.timeoutUs == before.timeoutUs && after.deadlineUs == before.deadlineUs
    ensures ArmedAt(ops + [op], i, who, after)
  {
    var longer := ops + [op];
    assert longer[i] == ops[i] && longer[..i] == ops[..i] && longer[..|ops|] == ops;
    forall j | i < j < |longer|
      ensures !Begins(PerformAll(longer[..j]), longer[j], who)
    {
      if j < |ops| {
        assert longer[..j] == ops[..j] && longer[j] == ops[j];
      }
    }
  }

  lemma ArmedGrows(ops: seq<Op>, op: Op, who: Initiator, before: Context, after: Context)
    requires DeadlineOk(ops, who, before) && !Begins(PerformAll(ops), op, who)
    requires after.timeoutUs == before.timeoutUs
    ensures after.deadlineUs == before.deadlineUs != 0 ==> Armed(ops + [op], who, after)
    ensures Arms(PerformAll(ops), op, who, after) ==> Armed(ops + [op], who, after)
  {
    var longer := ops + [op];
    assert longer[|ops|] == op && longer[..|ops|] == ops;
    if after.deadlineUs == before.deadlineUs != 0 {
      var i :| 0 <= i < |ops| && ArmedAt(ops, i, who, before);
      ArmedAtGrows(ops, op, i, who, before, after);
    } else if Arms(PerformAll(ops), op, who, after) {
      assert ArmedAt(longer, |ops|, who, after);
    }
  }

  /** What an operation that starts nothing does to a deadline. */
  lemma KeptContext(m: Manager, op: Op, who: Initiator)
    requires Of(m, who).Some? && !Begins(m, op, who)
    requires DeadlinePhase(Of(m, who).value) && TimerRuns(Of(m, who).value)
    ensures var after := Of(Perform(m, op), who);
      && after.Some? && after.value.timeoutUs == Of(m, who).value.timeoutUs
      && DeadlinePhase(after.value) && TimerRuns(after.value)
      && (after.value.deadlineUs == Of(m, who).value.deadlineUs || after.value.deadlineUs == 0
          || Arms(m, op, who, after.value))
  {
  }

  lemma NewContextHasNoDeadline(m: Manager, op: Op, who: Initiator)
    requires Begins(m, op, who) || Of(m, who) == None
    ensures var after := Of(Perform(m, op), who);
      after.Some? ==> after.value.deadlineUs == 0 && after.value.phase != AwaitingResponse
  {
  }

  /** One side of one step. */
  lemma DeadlineStep(ops: seq<Op>, op: Op, who: Initiator)
    requires Of(PerformAll(ops), who).Some? ==> DeadlineOk(ops, who, Of(PerformAll(ops), who).value)
    ensures var after := Of(Perform(PerformAll(ops), op), who);
      after.Some? ==> DeadlineOk(ops + [op], who, after.value)
  {
    var m := PerformAll(ops);
    if Begins(m, op, who) || Of(m, who) == None {
      NewContextHasNoDeadline(m, op, who);
    } else {
      KeptContext(m, op, who);
      ArmedGrows(ops, op, who, Of(m, who).value, Of(Perform(m, op), who).value);
    }
  }

  lemma DeadlinesStep(ops: seq<Op>, op: Op)
    requires DeadlinesOk(ops, PerformAll(ops))
    ensures DeadlinesOk(ops + [op], Perform(PerformAll(ops), op))
  {
    DeadlineStep(ops, op, Local);
    DeadlineStep(ops, op, Remote);
  }

  lemma {:induction false} DeadlinesHold(ops: seq<Op>)
    ensures DeadlinesOk(ops, PerformAll(ops))
  {
    if ops != [] {
      var n := |ops| - 1;
      DeadlinesHold(ops[..n]);
      DeadlinesStep(ops[..n], ops[n]);
      assert ops == ops[..n] + [ops[n]];
    }
  }

  /**
   * Over every sequence of operations, a deadline in force was armed by an accepted acknowledgement of the
   * exact PDU that this very procedure had on air, as that time plus the timeout, and finished procedures
   * have none.
   */
  lemma DeadlinesComeFromAcks(ops: seq<Op>, who: Initiator)
    ensures var slot := Of(PerformAll(ops), who);
      slot.Some? ==>
        && (slot.value.deadlineUs != 0 ==> Armed(ops, who, slot.value))
        && (!Active(slot.value) ==> slot.value.deadlineUs == 0)
  {
    DeadlinesHold(ops);
  }

  /** Only the acknowledgement of the exact PDU arms; everything else keeps or clears the deadline. */
  lemma DeadlineMoves(m: Manager, op: Op, who: Initiator)
    requires Of(m, who).Some? && Of(Perform(m, op), who).Some?
    requires !(op.StartOp? && op.who == who)
    ensures var before, after := Of(m, who).value, Of(Perform(m, op), who).value;
      || after.deadlineUs == before.deadlineUs
      || after.deadlineUs == 0
      || (op.NesnAckOp? && op.who == who && op.token == before.token && before.phase == AwaitingTxAck
          && before.expectedOpcode.Some? && Arms(m, op, who, after))
  {
  }

  ghost predicate Overdue(ops: seq<Op>, who: Initiator, c: Context, now: u64) {
    exists i :: 0 <= i < |ops| && ArmedAt(ops, i, who, c) && now >= SaturatingAdd(ops[i].now, c.timeoutUs)
  }

  /** No procedure times out before the acknowledgement of its own PDU plus its timeout. */
  lemma NoEarlyTimeout(ops: seq<Op>, who: Initiator, now: u64, error: u8)
    requires Of(PerformAll(ops), who).Some?
    ensures var before := Of(PerformAll(ops), who).value;
      var after := Of(CheckTimeouts(PerformAll(ops), now, error), who).value;
      after != before ==> after.phase == Failed && Overdue(ops, who, before, now)
  {
    DeadlinesHold(ops);
    var before := Of(PerformAll(ops), who).value;
    if TimedOut(before, now) {
      var i :| 0 <= i < |ops| && ArmedAt(ops, i, who, before);
      assert now >= SaturatingAdd(ops[i].now, before.timeoutUs);
    }
  }

  /**
   * The converse: over every sequence of operations, a procedure that waits for an answer with a timeout has
   * been armed by such an acknowledgement, and a check fails it exactly from that time plus the timeout on.
   */
  lemma ResponsesAreTimed(ops: seq<Op>, who: Initiator, now: u64, error: u8)
    requires Of(PerformAll(ops), who).Some?
    ensures var c := Of(PerformAll(ops), who).value;
      var after := Of(CheckTimeouts(PerformAll(ops), now, error), who).value;
      c.phase == AwaitingResponse && c.timeoutUs != 0 ==>
        && Armed(ops, who, c)
        && (forall i :: 0 <= i < |ops| && ArmedAt(ops, i, who, c) ==>
              if now >= SaturatingAdd(ops[i].now, c.timeoutUs) then after.phase == Failed && after.error == Some(error)
              else after == c)
  {
    DeadlinesHold(ops);
  }

  /** An accepted acknowledgement waits for the answer, then for the instant, or completes. */
  lemma AcknowledgementMoves(m: Manager, who: Initiator, token: Token, now: u64)
    requires Of(m, who).Some?
    requires Of(m, who).value.token == token && Of(m, who).value.phase == AwaitingTxAck
    ensures var before := Of(m, who).value;
      var after := Of(NesnAck(m, who, token, now).0, who).value;
      && NesnAck(m, who, token, now).1.Pass?
      && (before.expectedOpcode.Some? && (before.instant == None || !before.pendingResponse) ==>
            after.phase == AwaitingResponse
            && after.deadlineUs == if before.timeoutUs == 0 then 0 else Min(now + before.timeoutUs, U64_MAX))
      && (before.instant.Some? && (before.expectedOpcode == None || before.pendingResponse) ==>
            after.phase == AwaitingInstant)
      && (before.expectedOpcode == None && before.instant == None ==> after.phase == Complete)
  {
  }

  /** The expected answer stops the timer; one that announces an instant leaves it running until then. */
  lemma AnswersAndTheTimer(m: Manager, who: Initiator, opcode: u8, at: u16)
    requires Of(m, who).Some?
    requires Of(m, who).value.phase == AwaitingResponse && Of(m, who).value.expectedOpcode == Some(opcode)
    ensures var before := Of(m, who).value;
      var plain := Of(ExpectedResponse(m, who, opcode).0, who).value;
      var announced := Of(ExpectedResponseWithInstant(m, who, opcode, at).0, who).value;
      && plain.deadlineUs == 0 && plain.phase == (if before.instant.Some? then AwaitingInstant else Complete)
      && announced.deadlineUs == before.deadlineUs && announced.phase == AwaitingInstant
      && announced.instant == Some(at)
  {
  }

  /** The error codes of colliding procedures, pair by pair. */
  lemma CollisionCodes(kind: ProcedureKind, other: ProcedureKind)
    ensures CollisionOf(ConnectionParameters, ConnectionParameters) == Collision(0x23)
    ensures CollisionOf(ConnectionParameters, ConnectionUpdate) == Collision(0x23)
    ensures CollisionOf(ConnectionUpdate, ConnectionParameters) == Collision(0x23)
    ensures CollisionOf(ConnectionUpdate, ConnectionUpdate) == Collision(0x23)
    ensures CollisionOf(ChannelMapUpdate, ChannelMapUpdate) == Collision(0x23)
    ensures CollisionOf(ConnectionParameters, ChannelMapUpdate) == Collision(0x2a)
    ensures CollisionOf(ConnectionUpdate, ChannelMapUpdate) == Collision(0x2a)
    ensures CollisionOf(ChannelMapUpdate, ConnectionParameters) == Collision(0x2a)
    ensures CollisionOf(ChannelMapUpdate, ConnectionUpdate) == Collision(0x2a)
    ensures kind == Termination || kind == FeatureExchange || kind == VersionExchange || kind == Ping ==>
      CollisionOf(kind, other) == Busy && CollisionOf(other, kind) == Busy
  {
  }

  /** A check fails exactly the procedures that wait for an answer or an instant past their deadline. */
  lemma ExpiryIsExact(m: Manager, who: Initiator, now: u64, error: u8)
    requires Of(m, who).Some?
    ensures var before, after := Of(m, who).value, Of(CheckTimeouts(m, now, error), who).value;
      if (before.phase == AwaitingResponse || before.phase == AwaitingInstant) && 0 < before.deadlineUs <= now then
        after == before.(phase := Failed, error := Some(error), deadlineUs := 0)
      else after == before
  {
  }

  /** An event completes the procedures whose instant it is and fails those whose instant is past. */
  lemma InstantsAreClassified(m: Manager, who: Initiator, counter: u16, error: u8)
    requires Of(m, who).Some?
    ensures var before, after := Of(m, who).value, Of(OnConnectionEvent(m, counter, error), who).value;
      if before.phase != AwaitingInstant || before.instant == None then after == before
      else
        var ahead := (before.instant.value - counter) % 0x1_0000;
        if ahead == 0 then after == before.(phase := Complete, deadlineUs := 0)
        else if ahead < 0x7fff then after == before
        else after == before.(phase := Failed, error := Some(error), deadlineUs := 0)
  {
    if Of(m, who).value.instant.Some? {
      UntilWraps(counter, Of(m, who).value.instant.value);
    }
  }
}
