/** Ownership of Link Layer control procedures. */
module Llcp {
  import opened Octets
  import opened Wrappers
  import opened Timing

  datatype ProcedureKind =
    Termination | FeatureExchange | VersionExchange | ConnectionParameters | ConnectionUpdate
    | ChannelMapUpdate | Ping

  datatype Initiator = Local | Remote

  datatype Phase =
    Queued | AwaitingTxAck | AwaitingResponse | ResponseQueued | AwaitingInstant | Complete | Failed

  datatype Token = Token(ownerToken: u32, generation: u8)

  datatype Context = Context(
    kind: ProcedureKind, initiator: Initiator, phase: Phase, token: Token, txOpcode: u8,
    expectedOpcode: Option<u8>, instant: Option<u16>, timeoutUs: u32, deadlineUs: u64,
    pendingResponse: bool, error: Option<u8>)

  datatype ProcedureError =
    Busy | Collision(code: u8) | MissingContext | StaleToken | InvalidPhase | WrongOpcode

  datatype Manager = Manager(local: Option<Context>, remote: Option<Context>)

  /** A zero timeout means that no response deadline is armed. */
  function NewContext(kind: ProcedureKind, initiator: Initiator, token: Token, txOpcode: u8,
                      expectedOpcode: Option<u8>, instant: Option<u16>, timeoutUs: Option<u32>): Context
  {
    Context(kind, initiator, Queued, token, txOpcode, expectedOpcode, instant,
            if timeoutUs.Some? then timeoutUs.value else 0, 0, false, None)
  }

  predicate Active(c: Context) {
    c.phase != Complete && c.phase != Failed
  }

  predicate ActiveIn(c: Option<Context>) {
    c.Some? && Active(c.value)
  }

  predicate InstantBearing(kind: ProcedureKind) {
    kind == ConnectionParameters || kind == ConnectionUpdate || kind == ChannelMapUpdate
  }

  /** Same procedure, or the two ways of changing connection parameters, collide as one transaction. */
  function CollisionError(local: ProcedureKind, remote: ProcedureKind): u8
    requires InstantBearing(local) && InstantBearing(remote)
  {
    if local == remote || (local != ChannelMapUpdate && remote != ChannelMapUpdate) then 0x23 else 0x2a
  }

  function CollisionOf(local: ProcedureKind, remote: ProcedureKind): ProcedureError {
    if InstantBearing(local) && InstantBearing(remote) then Collision(CollisionError(local, remote)) else Busy
  }

  function Of(m: Manager, who: Initiator): Option<Context> {
    if who == Local then m.local else m.remote
  }

  function With(m: Manager, who: Initiator, c: Context): Manager {
    if who == Local then m.(local := Some(c)) else m.(remote := Some(c))
  }

  // One context.

  function TransmitError(c: Context, token: Token): Option<ProcedureError> {
    if c.token != token then Some(StaleToken)
    else if c.phase != Queued && c.phase != ResponseQueued then Some(InvalidPhase)
    else None
  }

  function AckError(c: Context, token: Token): Option<ProcedureError> {
    if c.token != token then Some(StaleToken)
    else if c.phase != AwaitingTxAck then Some(InvalidPhase)
    else None
  }

  function ResponseError(c: Context, opcode: u8): Option<ProcedureError> {
    if c.phase != AwaitingResponse then Some(InvalidPhase)
    else if c.expectedOpcode != Some(opcode) then Some(WrongOpcode)
    else None
  }

  function ArmedDeadline(c: Context, now: u64): u64 {
    if c.timeoutUs == 0 then 0 else SaturatingAdd(now, c.timeoutUs)
  }

  /** After the peer acknowledged the exact PDU: wait for what is still missing. */
  function Acked(c: Context, now: u64): Context {
    var awaitsInstant := c.instant.Some? && (c.pendingResponse || c.expectedOpcode == None);
    var awaitsResponse := c.expectedOpcode.Some? && !awaitsInstant;
    c.(phase := if awaitsInstant then AwaitingInstant else if awaitsResponse then AwaitingResponse else Complete,
       deadlineUs := if awaitsResponse then ArmedDeadline(c, now) else c.deadlineUs,
       pendingResponse := false)
  }

  function Answered(c: Context): Context {
    c.(deadlineUs := 0, phase := if c.instant.Some? then AwaitingInstant else Complete)
  }

  function AnsweredWithInstant(c: Context, instant: u16): Context {
    c.(instant := Some(instant), phase := AwaitingInstant)
  }

  predicate TimedOut(c: Context, now: u64) {
    (c.phase == AwaitingResponse || c.phase == AwaitingInstant) && c.deadlineUs != 0 && now >= c.deadlineUs
  }

  function Timeout(c: Context, now: u64, error: u8): Context {
    if TimedOut(c, now) then c.(phase := Failed, error := Some(error), deadlineUs := 0) else c
  }

  function FailedWith(c: Context, error: u8): Context {
    c.(phase := Failed, error := Some(error), deadlineUs := 0, pendingResponse := false)
  }

  function AtEvent(c: Context, counter: u16, passedError: u8): Context {
    if c.phase != AwaitingInstant || c.instant == None then c
    else match ClassifyInstant(counter, c.instant.value)
      case Current => c.(phase := Complete, deadlineUs := 0)
      case Future(_) => c
      case Passed => c.(phase := Failed, error := Some(passedError), deadlineUs := 0)
  }

  // The manager: each operation yields the next state and an outcome.

  type Step = (Manager, Outcome<ProcedureError>)

  function Guarded(m: Manager, who: Initiator, error: Option<ProcedureError>, next: Context): Step {
    if error.Some? then (m, Fail(error.value)) else (With(m, who, next), Pass)
  }

  function StartLocal(m: Manager, c: Context): Step {
    if c.initiator != Local then (m, Fail(InvalidPhase))
    else if ActiveIn(m.local) then (m, Fail(Busy))
    else (m.(local := Some(c)), Pass)
  }

  function StartRemote(m: Manager, c: Context): Step {
    if c.initiator != Remote then (m, Fail(InvalidPhase))
    else if ActiveIn(m.remote) then (m, Fail(CollisionOf(m.remote.value.kind, c.kind)))
    else if ActiveIn(m.local) && InstantBearing(m.local.value.kind) && InstantBearing(c.kind) then
      (m, Fail(CollisionOf(m.local.value.kind, c.kind)))
    else (m.(remote := Some(if c.instant.Some? then c.(phase := AwaitingInstant) else c)), Pass)
  }

  function TxPlanned(m: Manager, who: Initiator, token: Token): Step {
    match Of(m, who)
    case None => (m, Fail(MissingContext))
    case Some(c) => Guarded(m, who, TransmitError(c, token), c)
  }

  function TxDone(m: Manager, who: Initiator, token: Token): Step {
    match Of(m, who)
    case None => (m, Fail(MissingContext))
    case Some(c) => Guarded(m, who, TransmitError(c, token), c.(phase := AwaitingTxAck))
  }

  function NesnAck(m: Manager, who: Initiator, token: Token, now: u64): Step {
    match Of(m, who)
    case None => (m, Fail(MissingContext))
    case Some(c) => Guarded(m, who, AckError(c, token), Acked(c, now))
  }

  function ExpectedResponse(m: Manager, who: Initiator, opcode: u8): Step {
    match Of(m, who)
    case None => (m, Fail(MissingContext))
    case Some(c) => Guarded(m, who, ResponseError(c, opcode), Answered(c))
  }

  function ExpectedResponseWithInstant(m: Manager, who: Initiator, opcode: u8, instant: u16): Step {
    match Of(m, who)
    case None => (m, Fail(MissingContext))
    case Some(c) => Guarded(m, who, ResponseError(c, opcode), AnsweredWithInstant(c, instant))
  }

  function MarkResponseQueued(m: Manager, token: Token, txOpcode: u8): Step {
    match m.remote
    case None => (m, Fail(MissingContext))
    case Some(c) =>
      Guarded(m, Remote,
        if c.phase != Queued && c.phase != AwaitingResponse then Some(InvalidPhase) else None,
        c.(token := token, txOpcode := txOpcode, pendingResponse := true, phase := ResponseQueued))
  }

  function FailProcedure(m: Manager, who: Initiator, error: u8): Step {
    match Of(m, who)
    case None => (m, Fail(MissingContext))
    case Some(c) => (With(m, who, FailedWith(c, error)), Pass)
  }

  function TimeoutIn(c: Option<Context>, now: u64, error: u8): Option<Context> {
    if c.Some? then Some(Timeout(c.value, now, error)) else None
  }

  predicate TimedOutIn(c: Option<Context>, now: u64) {
    c.Some? && TimedOut(c.value, now)
  }

  function CheckTimeouts(m: Manager, now: u64, error: u8): Manager {
    Manager(TimeoutIn(m.local, now, error), TimeoutIn(m.remote, now, error))
  }

  function EventIn(c: Option<Context>, counter: u16, passedError: u8): Option<Context> {
    if c.Some? then Some(AtEvent(c.value, counter, passedError)) else None
  }

  function OnConnectionEvent(m: Manager, counter: u16, passedError: u8): Manager {
    Manager(EventIn(m.local, counter, passedError), EventIn(m.remote, counter, passedError))
  }

  class ProcedureManager {
    var local: Option<Context>
    var remote: Option<Context>

    ghost function State(): Manager
      reads this
    {
      Manager(local, remote)
    }

    constructor ()
      ensures State() == Manager(None, None)
    {
      local, remote := None, None;
    }

    method Store(who: Initiator, c: Context)
      modifies this
      ensures State() == With(old(State()), who, c)
    {
      if who == Local {
        local := Some(c);
      } else {
        remote := Some(c);
      }
    }

    method StartLocalProcedure(context: Context) returns (r: Outcome<ProcedureError>)
      modifies this
      ensures (State(), r) == StartLocal(old(State()), context)
    {
      if context.initiator != Local {
        return Fail(InvalidPhase);
      }
      if local.Some? && Active(local.value) {
        return Fail(Busy);
      }
      local := Some(context);
      r := Pass;
    }

    method StartRemoteProcedure(context: Context) returns (r: Outcome<ProcedureError>)
      modifies this
      ensures (State(), r) == StartRemote(old(State()), context)
    {
      if context.initiator != Remote {
        return Fail(InvalidPhase);
      }
      if remote.Some? && Active(remote.value) {
        return Fail(CollisionOf(remote.value.kind, context.kind));
      }
      if local.Some? && Active(local.value) && InstantBearing(local.value.kind) && InstantBearing(context.kind) {
        return Fail(CollisionOf(local.value.kind, context.kind));
      }
      var accepted := context;
      if accepted.instant.Some? {
        accepted := accepted.(phase := AwaitingInstant);
      }
      remote := Some(accepted);
      r := Pass;
    }

    method PlanTx(who: Initiator, token: Token) returns (r: Outcome<ProcedureError>)
      ensures (State(), r) == TxPlanned(State(), who, token)
    {
      var context := if who == Local then local else remote;
      if context == None {
        return Fail(MissingContext);
      }
      if context.value.token != token {
        return Fail(StaleToken);
      }
      if context.value.phase != Queued && context.value.phase != ResponseQueued {
        return Fail(InvalidPhase);
      }
      r := Pass;
    }

    method CompleteTx(who: Initiator, token: Token) returns (r: Outcome<ProcedureError>)
      modifies this
      ensures (State(), r) == TxDone(old(State()), who, token)
    {
      r := PlanTx(who, token);
      if r.Pass? {
        var context := if who == Local then local else remote;
        Store(who, context.value.(phase := AwaitingTxAck));
      }
    }

    method AckTx(who: Initiator, token: Token, now: u64) returns (r: Outcome<ProcedureError>)
      modifies this
      ensures (State(), r) == NesnAck(old(State()), who, token, now)
    {
      var slot := if who == Local then local else remote;
      if slot == None {
        return Fail(MissingContext);
      }
      var context := slot.value;
      if context.token != token {
        return Fail(StaleToken);
      }
      if context.phase != AwaitingTxAck {
        return Fail(InvalidPhase);
      }
      if context.pendingResponse {
        if context.instant.Some? {
          context := context.(phase := AwaitingInstant);
        } else if context.expectedOpcode.Some? {
          context := context.(deadlineUs := ArmedDeadline(context, now));
          context := context.(phase := AwaitingResponse);
        } else {
          context := context.(phase := Complete);
        }
        context := context.(pendingResponse := false);
      } else if context.expectedOpcode.Some? {
        context := context.(phase := AwaitingResponse);
        context := context.(deadlineUs := ArmedDeadline(context, now));
      } else if context.instant.Some? {
        context := context.(phase := AwaitingInstant);
      } else {
        context := context.(phase := Complete);
      }
      Store(who, context);
      r := Pass;
    }

    method AcceptResponse(who: Initiator, opcode: u8) returns (r: Outcome<ProcedureError>)
      modifies this
      ensures (State(), r) == ExpectedResponse(old(State()), who, opcode)
    {
      var slot := if who == Local then local else remote;
      if slot == None {
        return Fail(MissingContext);
      }
      var context := slot.value;
      if context.phase != AwaitingResponse {
        return Fail(InvalidPhase);
      }
      if context.expectedOpcode != Some(opcode) {
        return Fail(WrongOpcode);
      }
      context := context.(deadlineUs := 0);
      context := context.(phase := if context.instant.Some? then AwaitingInstant else Complete);
      Store(who, context);
      r := Pass;
    }

    method AcceptResponseWithInstant(who: Initiator, opcode: u8, instant: u16) returns (r: Outcome<ProcedureError>)
      modifies this
      ensures (State(), r) == ExpectedResponseWithInstant(old(State()), who, opcode, instant)
    {
      var slot := if who == Local then local else remote;
      if slot == None {
        return Fail(MissingContext);
      }
      var context := slot.value;
      if context.phase != AwaitingResponse {
        return Fail(InvalidPhase);
      }
      if context.expectedOpcode != Some(opcode) {
        return Fail(WrongOpcode);
      }
      context := context.(instant := Some(instant));
      context := context.(phase := AwaitingInstant);
      Store(who, context);
      r := Pass;
    }

    method QueueResponse(token: Token, txOpcode: u8) returns (r: Outcome<ProcedureError>)
      modifies this
      ensures (State(), r) == MarkResponseQueued(old(State()), token, txOpcode)
    {
      if remote == None {
        return Fail(MissingContext);
      }
      var context := remote.value;
      if context.phase != Queued && context.phase != AwaitingResponse {
        return Fail(InvalidPhase);
      }
      context := context.(token := token, txOpcode := txOpcode);
      context := context.(pendingResponse := true);
      context := context.(phase := ResponseQueued);
      remote := Some(context);
      r := Pass;
    }

    method FailOwned(who: Initiator, error: u8) returns (r: Outcome<ProcedureError>)
      modifies this
      ensures (State(), r) == FailProcedure(old(State()), who, error)
    {
      var slot := if who == Local then local else remote;
      if slot == None {
        return Fail(MissingContext);
      }
      Store(who, slot.value.(phase := Failed, error := Some(error), deadlineUs := 0, pendingResponse := false));
      r := Pass;
    }

    method ExpireResponses(now: u64, error: u8) returns (failed: bool)
      modifies this
      ensures State() == CheckTimeouts(old(State()), now, error)
      ensures failed <==> TimedOutIn(old(local), now) || TimedOutIn(old(remote), now)
    {
      failed := false;
      var owners := [Local, Remote];
      for i := 0 to 2
        invariant local == (if i >= 1 then TimeoutIn(old(local), now, error) else old(local))
        invariant remote == (if i >= 2 then TimeoutIn(old(remote), now, error) else old(remote))
        invariant failed <==> (i >= 1 && TimedOutIn(old(local), now)) || (i >= 2 && TimedOutIn(old(remote), now))
      {
        var slot := if owners[i] == Local then local else remote;
        if slot.Some? {
          var context := slot.value;
          if (context.phase == AwaitingResponse || context.phase == AwaitingInstant)
            && context.deadlineUs != 0 && now >= context.deadlineUs {
            Store(owners[i], context.(phase := Failed, error := Some(error), deadlineUs := 0));
            failed := true;
          }
        }
      }
    }

    method ReachEvent(counter: u16, passedError: u8)
      modifies this
      ensures State() == OnConnectionEvent(old(State()), counter, passedError)
    {
      var owners := [Local, Remote];
      for i := 0 to 2
        invariant local == (if i >= 1 then EventIn(old(local), counter, passedError) else old(local))
        invariant remote == (if i >= 2 then EventIn(old(remote), counter, passedError) else old(remote))
      {
        var slot := if owners[i] == Local then local else remote;
        if slot.Some? && slot.value.phase == AwaitingInstant && slot.value.instant.Some? {
          var context := slot.value;
          match ClassifyInstant(counter, context.instant.value)
          case Current => Store(owners[i], context.(phase := Complete, deadlineUs := 0));
          case Future(_) =>
          case Passed => Store(owners[i], context.(phase := Failed, error := Some(passedError), deadlineUs := 0));
        }
      }
    }
  }
}
