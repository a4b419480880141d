/** Runs of the connection: what every action leaves true of the staged frame and the queues. */
module Runs {
  import opened Octets
  import opened Wrappers
  import opened ControlPdus
  import opened Llcp
  import opened Connection

  /** Only the control queue may have grown. */
  ghost predicate ControlGrew(before: Transmit, after: Transmit) {
    && after == before.(control := after.control, nextControlToken := after.nextControlToken)
    && before.control <= after.control && |after.control| <= CONTROL_SLOTS
    && (forall i :: |before.control| <= i < |after.control| ==> after.control[i].llid == LLID_CONTROL)
  }

  lemma QueueControlGrows(c: Link, bytes: seq<u8>)
    requires |c.tx.control| <= CONTROL_SLOTS
    ensures ControlGrew(c.tx, QueueControl(c, bytes).tx)
  {
  }

  lemma RemoteResponseGrows(c: Link, kind: ProcedureKind, requestOpcode: u8, response: seq<u8>,
                            expected: Option<u8>, timeoutUs: Option<u32>)
    requires |c.tx.control| <= CONTROL_SLOTS
    ensures ControlGrew(c.tx, QueueRemoteResponse(c, kind, requestOpcode, response, expected, timeoutUs).tx)
  {
  }

  lemma ParamRequestGrows(c: Link, payload: seq<u8>)
    requires |c.tx.control| <= CONTROL_SLOTS
    ensures ControlGrew(c.tx, HandleParamRequest(c, payload).tx)
  {
    var decoded := DecodeParams(payload, CONNECTION_PARAM_REQ, c.sched.counter);
    if decoded.Ok? {
      var yielded := Yield(c, CollisionError(ConnectionParameters, ConnectionParameters));
      RemoteResponseGrows(yielded, ConnectionParameters, 0x0f, EncodeParams(decoded.value, CONNECTION_PARAM_RSP),
                          Some(0x00), Some(RESPONSE_TIMEOUT_US));
    }
  }

  lemma InstantIndicationGrows(c: Link, payload: seq<u8>)
    requires |c.tx.control| <= CONTROL_SLOTS
    ensures ControlGrew(c.tx, HandleConnectionUpdate(c, payload).0.tx)
    ensures ControlGrew(c.tx, HandleChannelMap(c, payload).0.tx)
  {
  }

  lemma ControlPduGrowsControl(c: Link, payload: seq<u8>)
    requires |c.tx.control| <= CONTROL_SLOTS
    ensures ControlGrew(c.tx, HandleLlControl(c, payload).0.tx)
  {
    if payload != [] {
      var opcode := payload[0];
      if opcode == 0x00 || opcode == 0x01 {
        InstantIndicationGrows(c, payload);
      } else if opcode == 0x08 && |payload| == 9 {
        RemoteResponseGrows(c, FeatureExchange, 0x08,
                            [0x09, 2 * ((payload[1] / 2) % 4), 0, 0, 0, 0, 0, 0, 0], None, None);
      } else if opcode == 0x0c && |payload| == 6 {
        RemoteResponseGrows(c, VersionExchange, 0x0c, [0x0c, 0x09, 0xff, 0xff, 0x00, 0x00], None, None);
      } else if opcode == 0x0f {
        ParamRequestGrows(c, payload);
      } else if opcode == 0x10 {
        QueueControlGrows(c, [0x11, 0x10, 0x1e]);
      } else if opcode == 0x12 && |payload| == 1 {
        RemoteResponseGrows(c, Ping, 0x12, [0x13], None, None);
      } else {
        QueueControlGrows(c, [0x07, opcode]);
      }
    }
  }

  lemma CommandGrowsControl(c: Link, opcode: u16, params: seq<u8>)
    requires |c.tx.control| <= CONTROL_SLOTS
    ensures ControlGrew(c.tx, HandleCommand(c, opcode, params).0.tx)
  {
  }

  lemma AcceptGrowsControl(c: Link, header: u8, payload: seq<u8>)
    requires |c.tx.control| <= CONTROL_SLOTS
    ensures var taken := if Sn(header) == c.tx.bits.expected then TakeReceived(c.tx, header, payload) else c.tx;
      ControlGrew(taken, Accept(c, header, payload).0.tx)
  {
    if Sn(header) == c.tx.bits.expected {
      ControlPduGrowsControl(c.(tx := TakeReceived(c.tx, header, payload)), payload);
    }
  }

  /** An event leaves the staged frame at the head of its queue and queues nothing for the Host. */
  ghost predicate Carries(before: Transmit, after: Transmit) {
    StagedOk(after) && after.accepted == before.accepted
  }

  lemma FinishCarries(c: Link, header: u8, payload: seq<u8>, outstanding: bool, sentTerminate: bool,
                      timestampUs: nat, now: u64)
    requires StagedOk(c.tx) && c.tx.staged.Some?
    ensures Carries(c.tx, FinishEvent(c, header, payload, outstanding, sentTerminate, timestampUs, now).0.tx)
  {
    var acked := Acknowledge(c, Nesn(header), outstanding, now).0;
    assert Carries(c.tx, acked.tx);
    AcceptGrowsControl(acked, header, payload);
    assert Carries(c.tx, Accept(acked, header, payload).0.tx);
  }

  lemma ReportCarries(c: Link, transmitted: bool)
    requires StagedOk(c.tx) && c.tx.staged.Some?
    ensures var reported := Report(c, transmitted).0; Carries(c.tx, reported.tx) && reported.tx.staged.Some?
  {
  }

  lemma ExchangeCarries(c: Link, e: Exchange, now: u64)
    requires StagedOk(c.tx) && c.tx.staged.Some?
    ensures Carries(c.tx, ExchangeEvent(c, e, now).0.tx)
  {
    ReportCarries(c, e.transmitted);
    if Report(c, e.transmitted).1 && e.crcOk && ParsePacket(e.packet).Some? {
      var reported := Report(c, e.transmitted).0;
      var header, payload := ParsePacket(e.packet).value.0, ParsePacket(e.packet).value.1;
      FinishCarries(reported, header, payload, !c.tx.staged.value.unsent, SendsTerminate(reported, e.transmitted),
                    e.timestampUs, now);
      assert Carries(reported.tx, ExchangeEvent(c, e, now).0.tx);
    }
  }

  lemma EventCarries(c: Link, exchange: Option<Exchange>, now: u64)
    requires StagedOk(c.tx)
    ensures Carries(c.tx, ConnectionEvent(c, exchange, now).0.tx)
  {
    StageKeeps(c.tx);
    var begun := BeginEvent(c);
    if exchange.Some? {
      ExchangeCarries(begun.(tx := Stage(begun.tx)), exchange.value, now);
    }
  }

  lemma {:induction false} SkipKeepsTransmit(c: Link, n: nat)
    ensures SkipEvents(c, n).tx == c.tx
  {
    if n > 0 {
      SkipKeepsTransmit(c, n - 1);
    }
  }

  lemma ActKeepsStaged(r: Running, a: Action)
    requires StagedOk(r.link.tx)
    ensures StagedOk(Act(r, a).link.tx)
  {
    match a
    case Command(opcode, params) => CommandGrowsControl(r.link, opcode, params);
    case Skip(events) => SkipKeepsTransmit(r.link, events);
    case Event(exchange, nowUs) => EventCarries(r.link, exchange, nowUs);
    case _ =>
  }

  function Run(r: Running, actions: seq<Action>): (after: Running)
    requires StagedOk(r.link.tx)
    ensures StagedOk(after.link.tx)
  {
    if actions == [] then r
    else
      var before := Run(r, actions[..|actions| - 1]);
      ActKeepsStaged(before, actions[|actions| - 1]);
      Act(before, actions[|actions| - 1])
  }
}
