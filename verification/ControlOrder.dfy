/** Queued control PDUs and the phases of their procedures stay in order until a procedure is given up. */
module ControlOrder {
  import opened Octets
  import opened Wrappers
  import opened ControlPdus
  import opened ConnectInd
  import opened Llcp
  import opened Connection
  import opened Runs
  import opened Instants
  import opened ControlPath


  /** The next control PDU was transmitted and waits for its acknowledgement. */
  predicate HeadOnAir(t: Transmit) {
    t.staged.Some? && t.staged.value.kind == Control && !t.staged.value.unsent
  }

  predicate WaitsToTransmit(c: Context) {
    c.phase == Queued || c.phase == ResponseQueued
  }

  /** A procedure with a queued PDU waits to transmit it, or for its acknowledgement, unless it failed. */
  predicate SlotInOrder(t: Transmit, slot: Option<Context>) {
    slot.Some? && slot.value.phase != Failed ==>
      forall i :: 0 <= i < |t.control| && t.control[i].ownerToken == slot.value.token.ownerToken ==>
        if i == 0 && HeadOnAir(t) then slot.value.phase == AwaitingTxAck else WaitsToTransmit(slot.value)
  }

  predicate Below(slot: Option<Context>, next: u32) {
    slot.Some? ==> slot.value.token.ownerToken < next
  }

  /** Tokens are handed out in increasing order, so no two owners share one. */
  predicate TokensInOrder(c: Link) {
    var t, m := c.tx, c.procedures;
    && (forall i :: 0 <= i < |t.control| ==> t.control[i].ownerToken < t.nextControlToken)
    && (forall i, j :: 0 <= i < j < |t.control| ==> t.control[i].ownerToken < t.control[j].ownerToken)
    && Below(m.local, t.nextControlToken) && Below(m.remote, t.nextControlToken)
    && (m.local.Some? && m.remote.Some? ==> m.local.value.token.ownerToken != m.remote.value.token.ownerToken)
  }

  predicate InOrder(c: Link) {
    && StagedOk(c.tx) && TokensInOrder(c)
    && SlotInOrder(c.tx, c.procedures.local) && SlotInOrder(c.tx, c.procedures.remote)
  }

  /** At least `n` tokens remain before they wrap. */
  predicate Room(c: Link, n: nat) {
    0x8000_0000 <= c.tx.nextControlToken <= 0xffff_ffff - n
  }

  /** The order holds after at most `n` tokens. */
  predicate Advanced(before: Link, after: Link, n: nat) {
    InOrder(after)
    && before.tx.nextControlToken <= after.tx.nextControlToken <= before.tx.nextControlToken + n
  }

  // Queueing and starting.

  lemma QueueControlAdvances(c: Link, bytes: seq<u8>)
    requires InOrder(c) && Room(c, 1)
    ensures Advanced(c, QueueControl(c, bytes), 1)
  {
  }

  lemma RemoteStartAdvances(c: Link, kind: ProcedureKind, txOpcode: u8, expected: Option<u8>, at: Option<u16>,
                            timeoutUs: Option<u32>)
    requires InOrder(c) && Room(c, 1)
    ensures var (started, outcome) := StartRemoteOwned(c, kind, txOpcode, expected, at, timeoutUs);
      && Advanced(c, started, 1) && started.tx == TakeToken(c.tx)
      && (outcome.Fail? || (started.procedures.remote.Some?
                            && started.procedures.remote.value.token == ControlToken(c.tx)))
  {
  }

  lemma StartedResponseAdvances(c: Link, response: seq<u8>, token: Token)
    requires InOrder(c) && response != [] && c.procedures.remote.Some? && c.procedures.remote.value.token == token
    requires forall i :: 0 <= i < |c.tx.control| ==> c.tx.control[i].ownerToken < token.ownerToken
    ensures Advanced(c, QueueStarted(c, response, token), 0)
  {
  }

  lemma RemoteResponseAdvances(c: Link, kind: ProcedureKind, requestOpcode: u8, response: seq<u8>,
                               expected: Option<u8>, timeoutUs: Option<u32>)
    requires InOrder(c) && Room(c, 2)
    ensures Advanced(c, QueueRemoteResponse(c, kind, requestOpcode, response, expected, timeoutUs), 2)
  {
    if response != [] {
      RemoteStartAdvances(c, kind, response[0], expected, None, timeoutUs);
      var (started, outcome) := StartRemoteOwned(c, kind, response[0], expected, None, timeoutUs);
      if outcome.Pass? {
        StartedResponseAdvances(started, response, ControlToken(c.tx));
      } else {
        QueueControlAdvances(started, [0x11, requestOpcode, CollisionCode(outcome)]);
      }
    }
  }

  lemma LocalStartAdvances(c: Link, context: Context)
    requires InOrder(c) && Room(c, 1) && context.token == ControlToken(c.tx)
    ensures var started := c.(tx := TakeToken(c.tx), procedures := StartLocal(c.procedures, context).0);
      Advanced(c, started, 1)
  {
  }

  lemma StartedRequestAdvances(c: Link, request: seq<u8>, token: Token)
    requires InOrder(c) && token.ownerToken < c.tx.nextControlToken
    requires c.procedures.local.Some? && c.procedures.local.value.token == token
    requires c.procedures.local.value.phase == Queued
    requires forall i :: 0 <= i < |c.tx.control| ==> c.tx.control[i].ownerToken < token.ownerToken
    ensures Advanced(c, RequestStarted(c, request, token).0, 0)
  {
  }

  lemma LocalRequestAdvances(c: Link, kind: ProcedureKind, request: seq<u8>, expected: Option<u8>,
                             timeoutUs: Option<u32>)
    requires InOrder(c) && Room(c, 1)
    ensures Advanced(c, QueueLocalProcedure(c, kind, request, expected, timeoutUs).0, 1)
  {
    if request != [] {
      var context := NewContext(kind, Local, ControlToken(c.tx), request[0], expected, None, timeoutUs);
      LocalStartAdvances(c, context);
      var (m, outcome) := StartLocal(c.procedures, context);
      if outcome.Pass? {
        StartedRequestAdvances(c.(tx := TakeToken(c.tx), procedures := m), request, ControlToken(c.tx));
      }
    }
  }

  lemma FailAdvances(c: Link, who: Initiator, error: u8)
    requires InOrder(c)
    ensures Advanced(c, c.(procedures := FailProcedure(c.procedures, who, error).0), 0)
    ensures Advanced(c, FailLocalRequest(c, error), 0)
  {
  }

  // Control PDUs and commands.

  lemma OwnUpdateAdvances(c: Link, u: ConnectionUpdateInd)
    requires InOrder(c) && Room(c, 1)
    ensures Advanced(c, OwnUpdate(c, u).0, 1)
  {
    if c.paramRequest.Some? {
      AnswerAdvances(c, Local, u.instant);
    } else if ActiveKind(c.procedures.remote, ConnectionParameters) {
      AnswerAdvances(c, Remote, u.instant);
    } else {
      RemoteStartAdvances(c, ConnectionUpdate, 0x00, None, Some(u.instant), None);
    }
  }

  lemma UpdateAdvances(c: Link, payload: seq<u8>)
    requires InOrder(c) && Room(c, 1)
    ensures Advanced(c, HandleConnectionUpdate(c, payload).0, 1)
  {
    var parsed := ParseConnectionUpdate(payload, c.sched.counter);
    if parsed.Ok? {
      OwnUpdateAdvances(c, parsed.value);
      assert Advanced(c, TakeUpdate(c, parsed.value).0, 1);
    }
  }

  lemma AnswerAdvances(c: Link, who: Initiator, at: u16)
    requires InOrder(c)
    ensures Advanced(c, c.(procedures := ExpectedResponseWithInstant(c.procedures, who, 0x00, at).0), 0)
  {
  }

  lemma MapAdvances(c: Link, payload: seq<u8>)
    requires InOrder(c) && Room(c, 1)
    ensures Advanced(c, HandleChannelMap(c, payload).0, 1)
  {
    var parsed := ParseChannelMap(payload, c.sched.counter);
    if parsed.Ok? {
      var collision := CollisionError(ConnectionParameters, ChannelMapUpdate);
      FailAdvances(c, Local, collision);
      RemoteStartAdvances(Yield(c, collision), ChannelMapUpdate, 0x01, None, Some(parsed.value.instant), None);
    }
  }

  lemma ParamRequestAdvances(c: Link, payload: seq<u8>)
    requires InOrder(c) && Room(c, 2)
    ensures Advanced(c, HandleParamRequest(c, payload), 2)
  {
    var decoded := DecodeParams(payload, CONNECTION_PARAM_REQ, c.sched.counter);
    if decoded.Err? {
      QueueControlAdvances(c, [0x11, 0x0f, 0x1e]);
    } else if c.sched.newMap.Some? {
      QueueControlAdvances(c, [0x11, 0x0f, CollisionError(ChannelMapUpdate, ConnectionParameters)]);
    } else if c.sched.update.Some? {
      QueueControlAdvances(c, [0x11, 0x0f, CollisionError(ConnectionUpdate, ConnectionParameters)]);
    } else {
      var collision := CollisionError(ConnectionParameters, ConnectionParameters);
      FailAdvances(c, Local, collision);
      RemoteResponseAdvances(Yield(c, collision), ConnectionParameters, 0x0f,
                             EncodeParams(decoded.value, CONNECTION_PARAM_RSP), Some(0x00),
                             Some(RESPONSE_TIMEOUT_US));
    }
  }

  lemma ControlPduAdvances(c: Link, payload: seq<u8>)
    requires InOrder(c) && Room(c, 2)
    ensures Advanced(c, HandleLlControl(c, payload).0, 2)
  {
    if payload != [] {
      var opcode := payload[0];
      if opcode == 0x00 {
        UpdateAdvances(c, payload);
      } else if opcode == 0x01 {
        MapAdvances(c, payload);
      } else if opcode == 0x07 && |payload| == 2 {
        FailAdvances(c, Local, 0x1a);
      } else if opcode == 0x11 && |payload| == 3 {
        FailAdvances(c, Local, payload[2]);
        FailAdvances(c, Remote, payload[2]);
      } else if opcode == 0x08 && |payload| == 9 {
        RemoteResponseAdvances(c, FeatureExchange, 0x08,
                               [0x09, 2 * ((payload[1] / 2) % 4), 0, 0, 0, 0, 0, 0, 0], None, None);
      } else if opcode == 0x0c && |payload| == 6 {
        RemoteResponseAdvances(c, VersionExchange, 0x0c, [0x0c, 0x09, 0xff, 0xff, 0x00, 0x00], None, None);
      } else if opcode == 0x0f {
        ParamRequestAdvances(c, payload);
      } else if opcode == 0x10 {
        QueueControlAdvances(c, [0x11, 0x10, 0x1e]);
      } else if opcode == 0x12 && |payload| == 1 {
        RemoteResponseAdvances(c, Ping, 0x12, [0x13], None, None);
      } else if opcode != 0x02 {
        QueueControlAdvances(c, [0x07, opcode]);
      }
    }
  }

  lemma CommandAdvances(c: Link, opcode: u16, params: seq<u8>)
    requires InOrder(c) && Room(c, 1)
    ensures Advanced(c, HandleCommand(c, opcode, params).0, 1)
  {
    if opcode == 0x0406 && |params| == 3 {
      LocalRequestAdvances(c, Termination, [0x02, params[2]], None, None);
    } else if opcode == 0x2013 && |params| == 14 {
      var r := ParamRequest(FromLe16(params[2], params[3]), FromLe16(params[4], params[5]),
                            FromLe16(params[6], params[7]), FromLe16(params[8], params[9]));
      LocalRequestAdvances(c, ConnectionParameters, LocalRequestPdu(r, c.sched.counter), Some(0x00),
                           Some(RESPONSE_TIMEOUT_US));
    }
  }

  // Events.

  lemma SettleAdvances(c: Link)
    requires InOrder(c)
    ensures Advanced(c, Settle(c), 0)
  {
  }

  lemma StageAdvances(c: Link)
    requires InOrder(c)
    ensures Advanced(c, c.(tx := Stage(c.tx)), 0)
  {
  }

  lemma CompleteAdvances(c: Link)
    requires InOrder(c) && c.tx.staged.Some? && c.tx.staged.value.kind == Control && c.tx.staged.value.unsent
    ensures var step := CompleteControl(c.procedures, c.tx.control[0]);
      step.1.Pass? ==>
        Advanced(c, c.(procedures := step.0, tx := c.tx.(staged := Some(c.tx.staged.value.(unsent := false)))), 0)
  {
  }

  lemma ReportAdvances(c: Link, transmitted: bool)
    requires InOrder(c) && c.tx.staged.Some?
    ensures Advanced(c, Report(c, transmitted).0, 0) && Report(c, transmitted).0.tx.staged.Some?
  {
    if c.tx.staged.value.kind == Control && c.tx.staged.value.unsent {
      CompleteAdvances(c);
    }
  }

  lemma AcknowledgeAdvances(c: Link, nesn: bool, outstanding: bool, now: u64)
    requires InOrder(c) && c.tx.staged.Some? && (outstanding ==> !c.tx.staged.value.unsent)
    ensures Advanced(c, Acknowledge(c, nesn, outstanding, now).0, 0)
  {
  }

  lemma AcceptAdvances(c: Link, header: u8, payload: seq<u8>)
    requires InOrder(c) && Room(c, 2)
    ensures Advanced(c, Accept(c, header, payload).0, 2)
  {
    if Sn(header) == c.tx.bits.expected {
      var taken := c.(tx := TakeReceived(c.tx, header, payload));
      assert Advanced(c, taken, 0);
      ControlPduAdvances(taken, payload);
    }
  }

  lemma FinishAdvances(c: Link, header: u8, payload: seq<u8>, outstanding: bool, sentTerminate: bool,
                       timestampUs: nat, now: u64)
    requires InOrder(c) && Room(c, 2) && c.tx.staged.Some? && (outstanding ==> !c.tx.staged.value.unsent)
    ensures Advanced(c, FinishEvent(c, header, payload, outstanding, sentTerminate, timestampUs, now).0, 2)
  {
    AcknowledgeAdvances(c, Nesn(header), outstanding, now);
    var (acked, ok) := Acknowledge(c, Nesn(header), outstanding, now);
    AcceptAdvances(acked, header, payload);
    SettleAdvances(Accept(acked, header, payload).0);
  }

  lemma ExchangeAdvances(c: Link, e: Exchange, now: u64)
    requires InOrder(c) && Room(c, 2) && c.tx.staged.Some?
    ensures Advanced(c, ExchangeEvent(c, e, now).0, 2)
  {
    ReportAdvances(c, e.transmitted);
    if Report(c, e.transmitted).1 && e.crcOk && ParsePacket(e.packet).Some? {
      ReportKeepsOutstanding(c, e.transmitted);
      var reported := Report(c, e.transmitted).0;
      FinishAdvances(reported, ParsePacket(e.packet).value.0, ParsePacket(e.packet).value.1,
                     !c.tx.staged.value.unsent, SendsTerminate(reported, e.transmitted), e.timestampUs, now);
    }
  }

  lemma PreparedAdvances(c: Link)
    requires InOrder(c)
    ensures Advanced(c, Prepared(c).0, 0) && (Prepared(c).1 == None ==> Prepared(c).0.tx.staged.Some?)
  {
    SettleAdvances(c);
    assert Advanced(c, BeginEvent(c), 0);
    StageAdvances(BeginEvent(c));
  }

  lemma EventAdvances(c: Link, exchange: Option<Exchange>, now: u64)
    requires InOrder(c) && Room(c, 2)
    ensures Advanced(c, ConnectionEvent(c, exchange, now).0, 2)
  {
    PreparedAdvances(c);
    var (prepared, failed) := Prepared(c);
    if failed == None && exchange.Some? {
      ExchangeAdvances(prepared, exchange.value, now);
      assert ConnectionEvent(c, exchange, now) == ExchangeEvent(prepared, exchange.value, now);
    }
  }

  lemma {:induction false} SkipsAdvance(c: Link, n: nat)
    requires InOrder(c)
    ensures Advanced(c, SkipEvents(c, n), 0)
  {
    if n > 0 {
      SkipsAdvance(c, n - 1);
      SettleAdvances(SkipEvents(c, n - 1));
    }
  }

  // Whole runs.

  lemma ActAdvances(r: Running, a: Action)
    requires InOrder(r.link) && Room(r.link, 2)
    ensures Advanced(r.link, Act(r, a).link, 2)
  {
    if r.open {
      match a
      case Skip(events) => SkipsAdvance(r.link, events);
      case Event(exchange, now) => EventAdvances(r.link, exchange, now);
      case Command(opcode, params) => CommandAdvances(r.link, opcode, params);
      case SendAcl(_) => ActKeepsStaged(r, a);
      case CheckResponses(_) =>
    }
  }

  /** The control tokens that a step hands out. */
  function TokensTaken(before: Link, after: Link): nat {
    (after.tx.nextControlToken - before.tx.nextControlToken) % 0x8000_0000
  }

  /** The control tokens that a run hands out. */
  function HandedOut(r: Running, actions: seq<Action>): nat
    requires StagedOk(r.link.tx)
  {
    if actions == [] then 0
    else
      var earlier := actions[..|actions| - 1];
      HandedOut(r, earlier) + TokensTaken(Run(r, earlier).link, Run(r, actions).link)
  }

  lemma TakenIsGrowth(before: Link, after: Link)
    requires Advanced(before, after, 2)
    ensures after.tx.nextControlToken == before.tx.nextControlToken + TokensTaken(before, after)
  {
  }

  lemma LastStepAdvances(r: Running, actions: seq<Action>)
    requires StagedOk(r.link.tx) && actions != []
    requires var before := Run(r, actions[..|actions| - 1]).link; InOrder(before) && Room(before, 2)
    ensures Advanced(Run(r, actions[..|actions| - 1]).link, Run(r, actions).link, 2)
  {
    ActAdvances(Run(r, actions[..|actions| - 1]), actions[|actions| - 1]);
  }

  lemma {:induction false} RunAdvances(r: Running, actions: seq<Action>)
    requires InOrder(r.link) && Room(r.link, HandedOut(r, actions) + 2)
    ensures InOrder(Run(r, actions).link)
    ensures Run(r, actions).link.tx.nextControlToken == r.link.tx.nextControlToken + HandedOut(r, actions)
  {
    if actions != [] {
      var earlier := actions[..|actions| - 1];
      RunAdvances(r, earlier);
      LastStepAdvances(r, actions);
      TakenIsGrowth(Run(r, earlier).link, Run(r, actions).link);
    }
  }

  lemma OrderedRefusalMeansFailure(c: Link, exchange: Option<Exchange>)
    requires InOrder(c) && ControlRefused(c, exchange)
    ensures HeadOwner(c).Some? && HeadOwner(c).value.phase == Failed
  {
    SettleAdvances(c);
    StageKeeps(c.tx);
  }

  /**
   * In every run, however long, that hands out fewer than 2^31 - 3 control tokens, an event refuses a control
   * PDU only when its procedure was given up.
   */
  lemma OnlyGivenUpProceduresAreRefused(c: ConnectRequest, endUs: nat, start: Running, actions: seq<Action>,
                                        exchange: Option<Exchange>)
    requires Open(c, endUs) == Some(start.link) && start.open && StagedOk(start.link.tx)
    requires HandedOut(start, actions) < 0x7fff_fffd
    ensures var r := Run(start, actions);
      ControlRefused(r.link, exchange) ==> HeadOwner(r.link).Some? && HeadOwner(r.link).value.phase == Failed
  {
    RunAdvances(start, actions);
    if ControlRefused(Run(start, actions).link, exchange) {
      OrderedRefusalMeansFailure(Run(start, actions).link, exchange);
    }
  }
}
