/** What control PDUs, rejections and Host commands queue and change, byte by byte. */
module Answers {
  import opened Octets
  import opened Wrappers
  import opened Timing
  import opened ControlPdus
  import opened ConnectInd
  import opened Sequence
  import opened Llcp
  import opened Connection
  import opened Runs
  import opened Instants
  import opened EventLaws

  // Answers to the Central.

  /** Why a peer's parameter request is rejected: something incompatible is under way. */
  function ParamClash(c: Link): Option<u8> {
    if c.sched.newMap.Some? then Some(0x2a)
    else if c.sched.update.Some? then Some(0x23)
    else if ActiveIn(c.procedures.remote) then Some(ClashCode(c.procedures.remote.value.kind, ConnectionParameters))
    else if c.paramRequest == None && ActiveIn(c.procedures.local) && ChangesAtInstant(c.procedures.local.value.kind)
      then Some(ClashCode(c.procedures.local.value.kind, ConnectionParameters))
    else None
  }

  /** The PDU that answers a new control PDU, if any. */
  function AnswerTo(c: Link, payload: seq<u8>): Option<seq<u8>> {
    if payload == [] then None
    else
      var opcode, n, busy := payload[0], |payload|, ActiveIn(c.procedures.remote);
      if opcode <= 0x02 || (opcode == 0x07 && n == 2) || (opcode == 0x11 && n == 3) then None
      else if opcode == 0x08 && n == 9 then
        Some(if busy then [0x11, 0x08, 0x23]
             else [0x09, 2 * (payload[1] / 2 % 2) + 4 * (payload[1] / 4 % 2), 0, 0, 0, 0, 0, 0, 0])
      else if opcode == 0x0c && n == 6 then
        Some(if busy then [0x11, 0x0c, 0x23] else [0x0c, 0x09, 0xff, 0xff, 0x00, 0x00])
      else if opcode == 0x12 && n == 1 then Some(if busy then [0x11, 0x12, 0x23] else [0x13])
      else if opcode == 0x0f then
        if DecodeParams(payload, 0x0f, c.sched.counter).Err? then Some([0x11, 0x0f, 0x1e])
        else match ParamClash(c)
          case Some(code) => Some([0x11, 0x0f, code])
          case None => Some([0x10] + payload[1..])
      else if opcode == 0x10 then Some([0x11, 0x10, 0x1e])
      else Some([0x07, opcode])
  }

  /** The control queue after an answer: one more PDU if a slot is free. */
  predicate Appends(before: Transmit, after: Transmit, answer: Option<seq<u8>>) {
    match answer
    case None => after.control == before.control
    case Some(bytes) =>
      if |before.control| >= 2 || |bytes| > 27 then after.control == before.control
      else |after.control| == |before.control| + 1 && after.control[..|before.control|] == before.control
           && after.control[|before.control|].payload == bytes && after.control[|before.control|].llid == 3
  }

  lemma RemoteResponseAppends(c: Link, kind: ProcedureKind, requestOpcode: u8, response: seq<u8>,
                              expected: Option<u8>, timeoutUs: Option<u32>)
    requires response != []
    ensures Appends(c.tx, QueueRemoteResponse(c, kind, requestOpcode, response, expected, timeoutUs).tx,
      Some(if ActiveIn(c.procedures.remote) then
             [0x11, requestOpcode,
              if ChangesAtInstant(kind) then ClashCode(c.procedures.remote.value.kind, kind) else 0x23]
           else if ActiveIn(c.procedures.local) && ChangesAtInstant(c.procedures.local.value.kind)
             && ChangesAtInstant(kind) then [0x11, requestOpcode, ClashCode(c.procedures.local.value.kind, kind)]
           else response))
  {
  }

  /** The answer to a parameter request repeats its 23 octets under the response opcode. */
  lemma EchoRepeatsTheRequest(payload: seq<u8>, counter: u16)
    requires DecodeParams(payload, CONNECTION_PARAM_REQ, counter).Ok?
    ensures EncodeParams(DecodeParams(payload, CONNECTION_PARAM_REQ, counter).value, CONNECTION_PARAM_RSP)
         == [0x10] + payload[1..]
  {
    var p := DecodeParams(payload, CONNECTION_PARAM_REQ, counter).value;
    ParamsDecodeIsInjective(payload, CONNECTION_PARAM_REQ, counter);
    assert EncodeParams(p, CONNECTION_PARAM_REQ)[1..] == payload[1..];
    assert EncodeParams(p, CONNECTION_PARAM_RSP) == [0x10] + EncodeParams(p, CONNECTION_PARAM_REQ)[1..];
  }

  lemma RejectionAppends(c: Link, bytes: seq<u8>)
    ensures Appends(c.tx, QueueControl(c, bytes).tx, Some(bytes))
  {
  }

  lemma YieldKeepsTheRest(c: Link, error: u8)
    ensures var yielded := Yield(c, error);
      && yielded.tx == c.tx && yielded.procedures.remote == c.procedures.remote
      && (if c.paramRequest.Some? then !ActiveIn(yielded.procedures.local)
          else yielded.procedures.local == c.procedures.local)
  {
  }

  lemma ParamRequestIsAnswered(c: Link, payload: seq<u8>)
    requires payload != [] && payload[0] == 0x0f
    ensures Appends(c.tx, HandleParamRequest(c, payload).tx, AnswerTo(c, payload))
  {
    var decoded := DecodeParams(payload, CONNECTION_PARAM_REQ, c.sched.counter);
    if decoded.Err? {
      RejectionAppends(c, [0x11, 0x0f, 0x1e]);
    } else if c.sched.newMap.Some? {
      RejectionAppends(c, [0x11, 0x0f, 0x2a]);
    } else if c.sched.update.Some? {
      RejectionAppends(c, [0x11, 0x0f, 0x23]);
    } else {
      EchoRepeatsTheRequest(payload, c.sched.counter);
      var collision := CollisionError(ConnectionParameters, ConnectionParameters);
      YieldKeepsTheRest(c, collision);
      RemoteResponseAppends(Yield(c, collision), ConnectionParameters, 0x0f,
                            EncodeParams(decoded.value, CONNECTION_PARAM_RSP), Some(0x00), Some(RESPONSE_TIMEOUT_US));
    }
  }

  lemma FeatureBits(features: u8)
    ensures 2 * ((features / 2) % 4) == 2 * (features / 2 % 2) + 4 * (features / 4 % 2)
  {
  }

  lemma IndicationsAnswerNothing(c: Link, payload: seq<u8>)
    ensures HandleConnectionUpdate(c, payload).0.tx.control == c.tx.control
    ensures HandleChannelMap(c, payload).0.tx.control == c.tx.control
  {
  }

  lemma OthersAreUnknown(c: Link, payload: seq<u8>)
    requires payload != [] && payload[0] !in {0x00, 0x01, 0x08, 0x0c, 0x0f, 0x12}
    ensures Appends(c.tx, HandleLlControl(c, payload).0.tx, AnswerTo(c, payload))
  {
  }

  /** Every new control PDU queues exactly its answer, behind what is already queued. */
  lemma ControlPdusAreAnswered(c: Link, payload: seq<u8>)
    ensures Appends(c.tx, HandleLlControl(c, payload).0.tx, AnswerTo(c, payload))
  {
    if payload != [] {
      var opcode := payload[0];
      if opcode == 0x00 || opcode == 0x01 {
        IndicationsAnswerNothing(c, payload);
      } else if opcode == 0x08 && |payload| == 9 {
        FeatureBits(payload[1]);
        RemoteResponseAppends(c, FeatureExchange, 0x08,
                              [0x09, 2 * ((payload[1] / 2) % 4), 0, 0, 0, 0, 0, 0, 0], None, None);
      } else if opcode == 0x0c && |payload| == 6 {
        RemoteResponseAppends(c, VersionExchange, 0x0c, [0x0c, 0x09, 0xff, 0xff, 0x00, 0x00], None, None);
      } else if opcode == 0x0f {
        ParamRequestIsAnswered(c, payload);
      } else if opcode == 0x12 && |payload| == 1 {
        RemoteResponseAppends(c, Ping, 0x12, [0x13], None, None);
      } else if opcode == 0x08 || opcode == 0x0c || opcode == 0x12 {
        RejectionAppends(c, [0x07, opcode]);
      } else {
        OthersAreUnknown(c, payload);
      }
    }
  }

  lemma AcceptAnswers(c: Link, header: u8, payload: seq<u8>)
    ensures Appends(c.tx, Accept(c, header, payload).0.tx,
      if header % 4 == 3 && Sn(header) == c.tx.bits.expected then AnswerTo(c, payload) else None)
  {
    var taken := c.(tx := TakeReceived(c.tx, header, payload));
    ControlPdusAreAnswered(taken, payload);
    assert AnswerTo(taken, payload) == AnswerTo(c, payload);
  }

  /** Once the control steps succeed, an event leaves the traffic of the accepted PDU. */
  lemma EventTraffic(p: Link, e: Exchange, now: u64)
    requires StagedOk(p.tx) && p.tx.staged.Some? && ExchangeEvent(p, e, now).1 == None
    requires e.crcOk && ParsePacket(e.packet).Some?
    ensures var (header, payload) := ParsePacket(e.packet).value;
      ExchangeEvent(p, e, now).0.tx == Accept(Acknowledged(p, e, now), header, payload).0.tx
    ensures Acknowledged(p, e, now).tx.bits.expected == p.tx.bits.expected
  {
    ReportCarries(p, e.transmitted);
  }

  /** In a whole event, the control queue after the acknowledgement grows by exactly that answer. */
  lemma EventsAnswer(c: Link, e: Exchange, now: u64)
    requires StagedOk(c.tx) && ScheduleOk(c.sched) && ConnectionEvent(c, Some(e), now).1 == None
    requires e.crcOk && ParsePacket(e.packet).Some?
    ensures StagedOk(Prepared(c).0.tx) && Prepared(c).0.tx.staged.Some?
    ensures var p := Prepared(c).0;
      var (header, payload) := ParsePacket(e.packet).value;
      Appends(Acknowledged(p, e, now).tx, ConnectionEvent(c, Some(e), now).0.tx,
              if header % 4 == 3 && Sn(header) == p.tx.bits.expected
              then AnswerTo(Acknowledged(p, e, now), payload) else None)
  {
    EventClosesExactly(c, Some(e), now);
    var p := Prepared(c).0;
    assert ConnectionEvent(c, Some(e), now) == ExchangeEvent(p, e, now);
    EventTraffic(p, e, now);
    AcceptAnswers(Acknowledged(p, e, now), ParsePacket(e.packet).value.0, ParsePacket(e.packet).value.1);
  }

  // Procedures behind the answers.

  /** The procedure that a request of the Central starts. */
  function RequestedKind(opcode: u8): ProcedureKind {
    if opcode == 0x08 then FeatureExchange else if opcode == 0x0c then VersionExchange
    else if opcode == 0x0f then ConnectionParameters else Ping
  }

  /** A request is answered under a remote procedure that owns the queued PDU, or fails with 0x3a if none fits. */
  predicate OwnsAnswer(before: Link, after: Link, opcode: u8) {
    && after.procedures.remote.Some?
    && var m := after.procedures.remote.value;
       && m.kind == RequestedKind(opcode) && m.initiator == Remote && m.instant == None
       && m.token.ownerToken == before.tx.nextControlToken
       && m.expectedOpcode == (if opcode == 0x0f then Some(0x00) else None)
       && m.timeoutUs == (if opcode == 0x0f then 40_000_000 else 0)
       && if |before.tx.control| < 2 then
            m.phase == ResponseQueued && m.pendingResponse
            && |after.tx.control| == |before.tx.control| + 1
            && after.tx.control[|before.tx.control|].ownerToken == m.token.ownerToken
          else m.phase == Failed && m.error == Some(0x3a)
  }

  lemma ResponseIsOwned(c: Link, opcode: u8, response: seq<u8>)
    requires response != [] && |response| <= 27 && !ActiveIn(c.procedures.remote)
    requires opcode == 0x0f && ActiveIn(c.procedures.local) ==> !ChangesAtInstant(c.procedures.local.value.kind)
    ensures OwnsAnswer(c, QueueRemoteResponse(c, RequestedKind(opcode), opcode, response,
                                              if opcode == 0x0f then Some(0x00) else None,
                                              if opcode == 0x0f then Some(40_000_000) else None), opcode)
  {
  }

  lemma RequestsAreOwned(c: Link, payload: seq<u8>)
    requires !ActiveIn(c.procedures.remote)
    requires || (|payload| == 9 && payload[0] == 0x08) || (|payload| == 6 && payload[0] == 0x0c)
             || payload == [0x12]
    ensures OwnsAnswer(c, HandleLlControl(c, payload).0, payload[0])
  {
    if payload[0] == 0x08 {
      ResponseIsOwned(c, 0x08, [0x09, 2 * ((payload[1] / 2) % 4), 0, 0, 0, 0, 0, 0, 0]);
    } else if payload[0] == 0x0c {
      ResponseIsOwned(c, 0x0c, [0x0c, 0x09, 0xff, 0xff, 0x00, 0x00]);
    } else {
      ResponseIsOwned(c, 0x12, [0x13]);
    }
  }

  /** An accepted parameter request ends a local one with 0x23 and is owned by a remote procedure. */
  lemma ParamRequestsAreOwned(c: Link, payload: seq<u8>)
    requires payload != [] && payload[0] == 0x0f
    requires DecodeParams(payload, 0x0f, c.sched.counter).Ok? && ParamClash(c) == None
    ensures var after := HandleLlControl(c, payload).0;
      && OwnsAnswer(c, after, 0x0f) && after.paramRequest == None
      && (c.paramRequest.Some? && c.procedures.local.Some? ==>
            after.procedures.local == Some(FailedAs(c.procedures.local.value, 0x23)))
  {
    var decoded := DecodeParams(payload, CONNECTION_PARAM_REQ, c.sched.counter);
    var collision := CollisionError(ConnectionParameters, ConnectionParameters);
    YieldKeepsTheRest(c, collision);
    ResponseIsOwned(Yield(c, collision), 0x0f, EncodeParams(decoded.value, CONNECTION_PARAM_RSP));
  }

  // Rejections.

  function FailedAs(c: Context, error: u8): Context {
    c.(phase := Failed, error := Some(error), deadlineUs := 0, pendingResponse := false)
  }

  /** LL_UNKNOWN_RSP and LL_REJECT_EXT_IND end exactly the parameter procedure that they name. */
  lemma RejectionsEndTheirRequest(c: Link, payload: seq<u8>)
    requires (|payload| == 2 && payload[0] == 0x07) || (|payload| == 3 && payload[0] == 0x11)
    ensures var after := HandleLlControl(c, payload).0;
      var error := if payload[0] == 0x07 then 0x1a else payload[2];
      if payload[1] == 0x0f && c.paramRequest.Some? then
        && after.paramRequest == None && after.tx == c.tx && after.sched == c.sched
        && after.procedures.remote == c.procedures.remote
        && after.procedures.local
           == (if c.procedures.local.Some? then Some(FailedAs(c.procedures.local.value, error)) else None)
      else if payload[0] == 0x11 && payload[1] == 0x10 && ActiveKind(c.procedures.remote, ConnectionParameters) then
        after == c.(procedures := c.procedures.(remote := Some(FailedAs(c.procedures.remote.value, error))))
      else after == c
  {
  }

  // Host commands.

  /** The LL_CONNECTION_PARAM_REQ for a Host command: its parameters, the event counter and no offsets. */
  function ParamRequestBytes(params: seq<u8>, counter: u16): seq<u8>
    requires |params| == 14
  {
    [0x0f] + params[2..10] + [0, counter % 0x100, counter / 0x100]
    + [0xff, 0xff, 0xff, 0xff, 0xff, 0xff, 0xff, 0xff, 0xff, 0xff, 0xff, 0xff]
  }

  lemma LocalRequestOnAir(params: seq<u8>, counter: u16)
    requires |params| == 14
    ensures LocalRequestPdu(ParamRequest(FromLe16(params[2], params[3]), FromLe16(params[4], params[5]),
                                         FromLe16(params[6], params[7]), FromLe16(params[8], params[9])), counter)
         == ParamRequestBytes(params, counter)
  {
    Le16OfField(params[2], params[3]);
    Le16OfField(params[4], params[5]);
    Le16OfField(params[6], params[7]);
    Le16OfField(params[8], params[9]);
    NoOffsetBytes(6);
  }

  lemma {:induction false} NoOffsetBytes(n: nat)
    requires n <= 6
    ensures OffsetBytes([NO_OFFSET, NO_OFFSET, NO_OFFSET, NO_OFFSET, NO_OFFSET, NO_OFFSET], n)
         == seq(2 * n, _ => 0xff)
  {
    if n > 0 {
      NoOffsetBytes(n - 1);
    }
  }

  /** A Host request that starts a local procedure: its status, the queued PDU and the procedure. */
  predicate Requests(before: Link, after: Link, status: Option<u8>, kind: ProcedureKind, bytes: seq<u8>) {
    if ActiveIn(before.procedures.local) then
      status == Some(0x3a) && after.procedures == before.procedures && after.tx.control == before.tx.control
    else
      && after.procedures.remote == before.procedures.remote && after.procedures.local.Some?
      && var m := after.procedures.local.value;
         && m.kind == kind && m.initiator == Local && m.token.ownerToken == before.tx.nextControlToken
         && m.expectedOpcode == (if kind == ConnectionParameters then Some(0x00) else None)
         && m.timeoutUs == (if kind == ConnectionParameters then 40_000_000 else 0)
         && if |before.tx.control| < 2 then
              status == Some(0x00) && m.phase == Queued && Appends(before.tx, after.tx, Some(bytes))
              && |after.tx.control| == |before.tx.control| + 1
              && after.tx.control[|before.tx.control|].ownerToken == m.token.ownerToken
            else status == Some(0x3a) && m.phase == Failed && after.tx.control == before.tx.control
  }

  lemma LocalProcedureRequests(c: Link, kind: ProcedureKind, bytes: seq<u8>)
    requires bytes != [] && |bytes| <= 27
    ensures var (after, ok) := QueueLocalProcedure(c, kind, bytes,
        if kind == ConnectionParameters then Some(0x00) else None,
        if kind == ConnectionParameters then Some(40_000_000) else None);
      && Requests(c, after, Some(if ok then 0x00 else 0x3a), kind, bytes)
      && after.sched == c.sched && after.paramRequest == c.paramRequest && after.tx.acl == c.tx.acl
  {
  }

  /** HCI Disconnect: refused for another handle or while terminating, else LL_TERMINATE_IND with its reason. */
  lemma DisconnectRequestsTermination(c: Link, params: seq<u8>)
    requires |params| == 3
    ensures var (after, status) := HandleCommand(c, 0x0406, params);
      if params[0] + 0x100 * (params[1] as int) != 1 || ActiveKind(c.procedures.local, Termination) then
        after == c && status == Some(0x0c)
      else
        Requests(c, after, status, Termination, [0x02, params[2]]) && after.paramRequest == c.paramRequest
  {
    LocalProcedureRequests(c, Termination, [0x02, params[2]]);
  }

  /** HCI LE Connection Update: checked, refused while something like it is under way, else requested. */
  lemma ConnectionUpdateRequestsParameters(c: Link, params: seq<u8>)
    requires |params| == 14
    ensures var (after, status) := HandleCommand(c, 0x2013, params);
      var r := ParamRequest(FromLe16(params[2], params[3]), FromLe16(params[4], params[5]),
                            FromLe16(params[6], params[7]), FromLe16(params[8], params[9]));
      if params[0] + 0x100 * (params[1] as int) != 1
        || !ConnectionParameterRangeIsValid(r.intervalMin, r.intervalMax, r.latency, r.supervisionTimeout) then
        after == c && status == Some(0x12)
      else if c.paramRequest.Some? || ActiveKind(c.procedures.remote, ConnectionParameters)
        || c.sched.update.Some? || c.sched.newMap.Some? then
        after == c && status == Some(0x3a)
      else
        && Requests(c, after, status, ConnectionParameters, ParamRequestBytes(params, c.sched.counter))
        && after.paramRequest == (if status == Some(0x00) then Some(r) else None)
  {
    LocalRequestOnAir(params, c.sched.counter);
    LocalProcedureRequests(c, ConnectionParameters, ParamRequestBytes(params, c.sched.counter));
  }

  /** HCI ACL data: the error codes, and the fragment with its owner token when it is accepted. */
  lemma AclStatus(t: Transmit, packet: seq<u8>)
    ensures var (after, r) := QueueAcl(t, packet);
      if |packet| < 4 then r == Fail(0x0c) && after == t
      else
        var handle, length := packet[0] + 0x100 * (packet[1] % 16 as int), packet[2] + 0x100 * (packet[3] as int);
        if handle != 1 || length + 4 != |packet| || length > 27 then r == Fail(0x12) && after == t
        else if |t.acl| >= 5 then r == Fail(0x0c) && after == t
        else
          && r == Pass && |after.acl| == |t.acl| + 1 && after.acl[..|t.acl|] == t.acl
          && after.acl[|t.acl|].payload == packet[4..] && after.acl[|t.acl|].ownerToken == t.nextAclToken
          && after.acl[|t.acl|].llid == (if (packet[1] / 16) % 4 == 1 then 1 else 2)
          && after.nextAclToken == (if t.nextAclToken == 0xffff_ffff then 1 else t.nextAclToken + 1)
  {
    if |packet| >= 4 {
      HandleBits(packet[0], packet[1]);
    }
  }

  lemma HandleBits(lo: u8, hi: u8)
    ensures FromLe16(lo, hi) % 0x1000 == lo + 0x100 * (hi % 16 as int)
    ensures (FromLe16(lo, hi) / 0x1000) % 4 == (hi / 16) % 4
  {
    assert FromLe16(lo, hi) == 0x1000 * (hi / 16) + (lo + 0x100 * (hi % 16 as int));
  }
}
