/** The connection object that the runner updates in place, proved against the value specification. */
module Backend {
  import opened Octets
  import opened Wrappers
  import opened Timing
  import opened ControlPdus
  import opened ChannelSelection
  import opened ConnectInd
  import opened Sequence
  import opened Llcp
  import opened Connection
  import opened Runs
  import opened Instants

  const ACL_QUEUE_CAPACITY := 4
  const MAX_WIRE_LEN := 29

  function Occupied(slots: seq<Option<Pdu>>): (pdus: seq<Pdu>)
    ensures |pdus| <= |slots|
  {
    if slots == [] || slots[0] == None then [] else [slots[0].value] + Occupied(slots[1..])
  }

  predicate GapFree(slots: seq<Option<Pdu>>) {
    forall i :: 0 < i < |slots| && slots[i].Some? ==> slots[i - 1].Some?
  }

  /** Filling the first empty slot appends. */
  lemma {:induction false} FillingAppends(slots: seq<Option<Pdu>>, i: nat, pdu: Pdu)
    requires i < |slots| && (forall k :: 0 <= k < |slots| ==> (slots[k].Some? <==> k < i))
    ensures |Occupied(slots)| == i && Occupied(slots[i := Some(pdu)]) == Occupied(slots) + [pdu]
    ensures GapFree(slots[i := Some(pdu)])
  {
    if i > 0 {
      assert slots[1..][i - 1 := Some(pdu)] == slots[i := Some(pdu)][1..];
      FillingAppends(slots[1..], i - 1, pdu);
    } else if |slots| > 1 {
      assert slots[i := Some(pdu)][1] == None;
    }
  }

  /** Without an empty slot the queue is full. */
  lemma {:induction false} FullHoldsAll(slots: seq<Option<Pdu>>)
    requires forall k :: 0 <= k < |slots| ==> slots[k].Some?
    ensures |Occupied(slots)| == |slots|
  {
    if slots != [] {
      FullHoldsAll(slots[1..]);
    }
  }

  /** Moving every slot one place forward drops the head. */
  lemma ShiftingDropsHead(slots: seq<Option<Pdu>>)
    requires |slots| > 0 && GapFree(slots)
    ensures var shifted := slots[1..] + [None];
      && GapFree(shifted)
      && Occupied(shifted) == if slots[0] == None then [] else Occupied(slots)[1..]
  {
    TrailingGap(slots[1..]);
    var shifted := slots[1..] + [None];
    forall i | 0 < i < |shifted| && shifted[i].Some?
      ensures shifted[i - 1].Some?
    {
      assert shifted[i] == slots[i + 1] && shifted[i - 1] == slots[i];
    }
    if slots[0] == None {
      assert shifted[0] == if |slots| > 1 then slots[1] else None;
    } else {
      assert Occupied(slots) == [slots[0].value] + Occupied(slots[1..]);
    }
  }

  lemma {:induction false} TrailingGap(slots: seq<Option<Pdu>>)
    ensures Occupied(slots + [None]) == Occupied(slots)
  {
    if slots != [] {
      assert (slots + [None])[1..] == slots[1..] + [None];
      TrailingGap(slots[1..]);
    }
  }

  /** What the run loop is given: Host packets, the clock, and what the radio reports. */
  datatype Input =
    | HostAcl(packet: seq<u8>)
    | HostCommand(opcode: u16, params: seq<u8>)
    | Clock(nowUs: u64)
    | Late(now: nat)
    | Radio(exchange: Option<Exchange>, nowUs: u64)

  class ActiveConnection {
    var request: Request
    const channels: ChannelSelection1
    var nextAnchor: nat
    var lastSyncAnchor: nat
    var receiveWindowUs: nat
    var eventCounter: u16
    var transmitSn: u8
    var expectedSn: u8
    var nextAclOwnerToken: u32
    var nextControlOwnerToken: u32
    var pending: Option<Pdu>
    const queuedAcl: array<Option<Pdu>>
    var pendingControl: Option<Pdu>
    var priorityControl: Option<Pdu>
    var queuedControl: Option<Pdu>
    var transmitted: Option<Kind>
    const txFrame: array<u8>
    var txFrameLen: nat
    var txFrameFresh: bool
    var pendingUpdate: Option<ConnectionUpdateInd>
    var pendingMap: Option<ChannelMapInd>
    var localRequest: Option<ParamRequest>
    const procedures: ProcedureManager

    ghost var accepted: seq<Pdu>
    ghost var completed: nat
    ghost var received: seq<Received>
    ghost var delivered: seq<Fragment>
    ghost var elapsed: nat
    ghost var updates: seq<Record<ConnectionUpdateInd>>
    ghost var maps: seq<Record<ChannelMapInd>>

    ghost predicate Valid()
      reads this`pending, this`pendingControl, this`priorityControl, this`queuedControl, this`transmitSn,
            this`expectedSn, this`transmitted, this`txFrameLen, channels, queuedAcl, txFrame
    {
      channels.Valid() && TrafficOk()
    }

    /** The queues have no gaps and the frame buffer is well formed. */
    ghost predicate TrafficOk()
      reads this`pending, this`pendingControl, this`priorityControl, this`queuedControl, this`transmitSn,
            this`expectedSn, this`transmitted, this`txFrameLen, queuedAcl, txFrame
    {
      && queuedAcl.Length == ACL_QUEUE_CAPACITY && txFrame.Length == MAX_WIRE_LEN
      && GapFree(AclSlots())
      && (queuedControl.Some? ==> pendingControl.Some?) && priorityControl == None
      && transmitSn <= 1 && expectedSn <= 1
      && FrameOk()
    }

    /** The frame buffer is empty, or holds a whole frame for the transmitted owner. */
    ghost predicate FrameOk()
      reads this`transmitted, this`txFrameLen, txFrame
    {
      txFrame.Length == MAX_WIRE_LEN
      && (transmitted == None <==> txFrameLen == 0)
      && (txFrameLen > 0 ==>
            2 <= txFrameLen <= MAX_WIRE_LEN && txFrame[0] < 16 && txFrame[1] == txFrameLen - 2)
    }

    ghost function Staged(): Option<Frame>
      reads this`transmitted, this`txFrameLen, this`txFrameFresh, txFrame
      requires FrameOk()
    {
      if txFrameLen == 0 then None
      else Some(Frame(transmitted.value, txFrame[0] % 4, txFrame[2..txFrameLen], txFrameFresh))
    }

    ghost function ControlQueue(): seq<Pdu>
      reads this`pendingControl, this`queuedControl
    {
      if pendingControl == None then [] else if queuedControl == None then [pendingControl.value]
      else [pendingControl.value, queuedControl.value]
    }

    ghost function AclSlots(): seq<Option<Pdu>>
      reads this`pending, queuedAcl
    {
      [pending] + queuedAcl[..]
    }

    ghost function Tx(): Transmit
      reads this`pending, this`pendingControl, this`queuedControl, this`transmitted, this`txFrameLen, this`txFrameFresh,
            this`transmitSn, this`expectedSn, this`nextAclOwnerToken, this`nextControlOwnerToken,
            this`accepted, this`completed, this`received, this`delivered, queuedAcl, txFrame
      requires FrameOk()
    {
      Transmit(Occupied(AclSlots()), ControlQueue(), Staged(),
               SequenceBits(transmitSn == 1, expectedSn == 1), nextAclOwnerToken, nextControlOwnerToken,
               accepted, completed, received, delivered)
    }

    ghost function Sched(): Schedule
      reads this`request, this`nextAnchor, this`lastSyncAnchor, this`receiveWindowUs, this`eventCounter,
            this`pendingUpdate, this`pendingMap, this`elapsed, this`updates, this`maps, channels
    {
      Schedule(request, channels.State(), nextAnchor, lastSyncAnchor, receiveWindowUs, eventCounter,
               pendingUpdate, pendingMap, elapsed, updates, maps)
    }

    /** The connection as a value. */
    ghost function View(): Link
      reads this, channels, queuedAcl, txFrame, procedures
      requires FrameOk()
    {
      Link(Tx(), Sched(), procedures.State(), localRequest)
    }

    constructor (c: ConnectRequest, endUs: nat, selector: ChannelSelection1)
      requires Open(c, endUs).Some?
      requires selector.Valid() && selector.State() == Selector(c.channelMap, c.hopIncrement, 0)
      ensures Valid() && View() == Open(c, endUs).value
      ensures channels == selector && fresh(procedures) && fresh(queuedAcl) && fresh(txFrame)
    {
      channels := selector;
      request := Request(c.windowSize, c.windowOffset, c.interval, c.latency, c.supervisionTimeout, c.channelMap,
                         c.sleepClockAccuracy);
      nextAnchor, lastSyncAnchor := endUs + (c.windowOffset + 1) * UNIT_US, endUs;
      receiveWindowUs, eventCounter := c.windowSize * UNIT_US, 0;
      transmitSn, expectedSn := 0, 0;
      nextAclOwnerToken, nextControlOwnerToken := 1, 0x8000_0001;
      pending, pendingControl, priorityControl, queuedControl := None, None, None, None;
      queuedAcl := new Option<Pdu>[ACL_QUEUE_CAPACITY](_ => None);
      transmitted, txFrameLen, txFrameFresh := None, 0, false;
      txFrame := new u8[MAX_WIRE_LEN](_ => 0);
      pendingUpdate, pendingMap, localRequest := None, None, None;
      procedures := new ProcedureManager();
      accepted, completed, received, delivered := [], 0, [], [];
      elapsed, updates, maps := 0, [], [];
      new;
      assert AclSlots()[0] == None;
      assert Tx() == Open(c, endUs).value.tx;
      assert Sched() == Open(c, endUs).value.sched;
    }

    static method New(c: ConnectRequest, endUs: nat) returns (r: Option<ActiveConnection>)
      ensures r.Some? <==> Open(c, endUs).Some?
      ensures r.Some? ==> fresh(r.value) && r.value.Valid() && r.value.View() == Open(c, endUs).value
    {
      var selector := ChannelSelection1.New(c.channelMap, c.hopIncrement);
      if selector == None {
        return None;
      }
      var connection := new ActiveConnection(c, endUs, selector.value);
      r := Some(connection);
    }

    // Queues.

    method QueueHostAcl(packet: seq<u8>) returns (r: Outcome<u8>)
      requires Valid()
      modifies this`pending, this`nextAclOwnerToken, this`accepted, queuedAcl
      ensures Valid() && (Tx(), r) == QueueAcl(old(Tx()), packet)
    {
      if |packet| < 4 {
        return Fail(HCI_DISALLOWED);
      }
      var rawHandle := FromLe16(packet[0], packet[1]);
      var length := FromLe16(packet[2], packet[3]);
      if rawHandle % 0x1000 != CONNECTION_HANDLE || length + 4 != |packet| || length > MAX_PAYLOAD {
        return Fail(HCI_INVALID_PARAMETERS);
      }
      var llid := if (rawHandle / 0x1000) % 4 == 1 then LLID_CONTINUATION else LLID_START;
      assert packet[4..4 + length] == packet[4..];
      var queued := QueueFragment(Pdu(packet[4..4 + length], llid, nextAclOwnerToken));
      r := if queued then Pass else Fail(HCI_DISALLOWED);
    }

    method QueueFragment(data: Pdu) returns (queued: bool)
      requires Valid()
      modifies this`pending, this`nextAclOwnerToken, this`accepted, queuedAcl
      ensures Valid() && queued == (|old(Tx()).acl| < ACL_CREDITS)
      ensures Tx() == if !queued then old(Tx()) else old(Tx()).(
        acl := old(Tx()).acl + [data], accepted := old(Tx()).accepted + [data],
        nextAclToken := NextAclToken(old(Tx()).nextAclToken))
    {
      queued := Hold(data);
      if queued {
        accepted := accepted + [data];
        nextAclOwnerToken := if nextAclOwnerToken == 0xffff_ffff then 1 else nextAclOwnerToken + 1;
      }
    }

    /** Put a fragment in the first empty slot. */
    method Hold(data: Pdu) returns (queued: bool)
      requires queuedAcl.Length == ACL_QUEUE_CAPACITY && GapFree(AclSlots())
      modifies this`pending, queuedAcl
      ensures GapFree(AclSlots())
      ensures queued <==> |Occupied(old(AclSlots()))| < ACL_CREDITS
      ensures Occupied(AclSlots()) == if queued then Occupied(old(AclSlots())) + [data] else Occupied(old(AclSlots()))
    {
      ghost var slots := AclSlots();
      if pending == None {
        SlotsBelow(slots, 0);
        FillingAppends(slots, 0, data);
        pending := Some(data);
        assert AclSlots() == slots[0 := Some(data)];
        return true;
      }
      var i := 0;
      while i < queuedAcl.Length && queuedAcl[i].Some?
        invariant 0 <= i <= queuedAcl.Length
        invariant forall k :: 0 <= k <= i ==> slots[k].Some?
      {
        i := i + 1;
      }
      if i == queuedAcl.Length {
        FullHoldsAll(slots);
        return false;
      }
      SlotsBelow(slots, i + 1);
      FillingAppends(slots, i + 1, data);
      queuedAcl[i] := Some(data);
      assert AclSlots() == slots[i + 1 := Some(data)];
      queued := true;
    }

    method AllocateControlToken() returns (token: Token)
      requires Valid()
      modifies this`nextControlOwnerToken
      ensures Valid() && token == ControlToken(old(Tx())) && View() == old(View()).(tx := TakeToken(old(Tx())))
    {
      var owner := nextControlOwnerToken;
      nextControlOwnerToken := NextControlToken(owner);
      token := Token(owner, owner % 0x100);
    }

    method QueueControlWithToken(bytes: seq<u8>, token: Token) returns (queued: bool)
      requires Valid()
      modifies this`pendingControl, this`queuedControl
      ensures Valid() && queued == ControlFits(old(Tx()), bytes)
      ensures View() == old(View()).(tx := PushControl(old(Tx()), bytes, token))
    {
      if |bytes| > MAX_PAYLOAD {
        return false;
      }
      var data := Pdu(bytes, LLID_CONTROL, token.ownerToken);
      if pendingControl == None {
        pendingControl := Some(data);
        queued := true;
      } else if queuedControl == None {
        queuedControl := Some(data);
        queued := true;
      } else {
        queued := false;
      }
    }

    method QueueControlPdu(bytes: seq<u8>)
      requires Valid()
      modifies this`pendingControl, this`queuedControl, this`nextControlOwnerToken
      ensures Valid() && View() == QueueControl(old(View()), bytes)
    {
      var token := AllocateControlToken();
      var _ := QueueControlWithToken(bytes, token);
    }

    // Procedures.

    /** Allocate a token and start a remote procedure under it. */
    method StartRemoteOwned(kind: ProcedureKind, txOpcode: u8, expected: Option<u8>, instant: Option<u16>,
                            timeoutUs: Option<u32>) returns (token: Token, outcome: Outcome<ProcedureError>)
      requires Valid()
      modifies this`nextControlOwnerToken, procedures
      ensures Valid() && token == ControlToken(old(Tx()))
      ensures (View(), outcome)
           == Connection.StartRemoteOwned(old(View()), kind, txOpcode, expected, instant, timeoutUs)
    {
      token := AllocateControlToken();
      outcome := procedures.StartRemoteProcedure(
        NewContext(kind, Remote, token, txOpcode, expected, instant, timeoutUs));
    }

    method QueueRemoteProcedureResponse(kind: ProcedureKind, requestOpcode: u8, response: seq<u8>,
                                        expected: Option<u8>, timeoutUs: Option<u32>)
      requires Valid()
      modifies this`pendingControl, this`queuedControl, this`nextControlOwnerToken, procedures
      ensures Valid()
      ensures View() == QueueRemoteResponse(old(View()), kind, requestOpcode, response, expected, timeoutUs)
    {
      if response == [] {
        return;
      }
      var token, outcome := StartRemoteOwned(kind, response[0], expected, None, timeoutUs);
      AnswerStarted(outcome, requestOpcode, response, token);
    }

    method AnswerStarted(outcome: Outcome<ProcedureError>, requestOpcode: u8, response: seq<u8>, token: Token)
      requires Valid() && response != []
      modifies this`pendingControl, this`queuedControl, this`nextControlOwnerToken, procedures
      ensures Valid() && View() == Answer(old(View()), outcome, requestOpcode, response, token)
    {
      match outcome
      case Fail(Collision(code)) => QueueControlPdu([0x11, requestOpcode, code]);
      case Fail(_) => QueueControlPdu([0x11, requestOpcode, 0x23]);
      case Pass => QueueStartedResponse(response, token);
    }

    method QueueStartedResponse(response: seq<u8>, token: Token)
      requires Valid() && response != []
      modifies this`pendingControl, this`queuedControl, procedures
      ensures Valid() && View() == QueueStarted(old(View()), response, token)
    {
      var marked := procedures.QueueResponse(token, response[0]);
      var queued := false;
      if marked.Pass? {
        queued := QueueControlWithToken(response, token);
      }
      if !queued {
        var _ := procedures.FailOwned(Remote, 0x3a);
      }
    }

    method StartRemoteInstantProcedure(kind: ProcedureKind, opcode: u8, instant: u16) returns (error: Option<u8>)
      requires Valid()
      modifies this`nextControlOwnerToken, procedures
      ensures Valid() && (View(), error) == StartRemoteInstant(old(View()), kind, opcode, instant)
    {
      var _, outcome := StartRemoteOwned(kind, opcode, None, Some(instant), None);
      if outcome.Pass? {
        error := None;
      } else {
        error := Some(CollisionCode(outcome));
      }
    }

    method QueueLocalProcedureRequest(kind: ProcedureKind, request: seq<u8>, expected: Option<u8>,
                                      timeoutUs: Option<u32>) returns (queued: bool)
      requires Valid()
      modifies this`pendingControl, this`queuedControl, this`nextControlOwnerToken, procedures
      ensures Valid()
      ensures (View(), queued) == QueueLocalProcedure(old(View()), kind, request, expected, timeoutUs)
    {
      if request == [] {
        return false;
      }
      var token := AllocateControlToken();
      var started := procedures.StartLocalProcedure(
        NewContext(kind, Local, token, request[0], expected, None, timeoutUs));
      if started.Fail? {
        return false;
      }
      queued := QueueStartedRequest(request, token);
    }

    method QueueStartedRequest(request: seq<u8>, token: Token) returns (queued: bool)
      requires Valid()
      modifies this`pendingControl, this`queuedControl, procedures
      ensures Valid() && (View(), queued) == RequestStarted(old(View()), request, token)
    {
      queued := QueueControlWithToken(request, token);
      if !queued {
        var _ := procedures.FailOwned(Local, 0x3a);
      }
    }

    method FailLocalRequestWith(error: u8)
      requires Valid()
      modifies this`localRequest, procedures
      ensures Valid() && View() == FailLocalRequest(old(View()), error)
    {
      localRequest := None;
      var _ := procedures.FailOwned(Local, error);
    }

    method ProcedureForControlOwner(owner: u32) returns (r: Option<(Initiator, Token)>)
      ensures r == OwnerOf(procedures.State(), owner)
    {
      if procedures.local.Some? && procedures.local.value.token.ownerToken == owner {
        return Some((Local, procedures.local.value.token));
      }
      if procedures.remote.Some? && procedures.remote.value.token.ownerToken == owner {
        return Some((Remote, procedures.remote.value.token));
      }
      r := None;
    }

    method PlanPendingControl() returns (ok: bool)
      requires pendingControl.Some?
      ensures ok <==> PlanControl(procedures.State(), pendingControl.value).1.Pass?
    {
      var owner := ProcedureForControlOwner(pendingControl.value.ownerToken);
      if owner == None {
        return true;
      }
      var r := procedures.PlanTx(owner.value.0, owner.value.1);
      ok := r.Pass?;
    }

    method CompletePendingControl() returns (ok: bool)
      requires pendingControl.Some?
      modifies procedures
      ensures var step := CompleteControl(old(procedures.State()), pendingControl.value);
        procedures.State() == step.0 && ok == step.1.Pass?
    {
      var owner := ProcedureForControlOwner(pendingControl.value.ownerToken);
      if owner == None {
        return true;
      }
      var r := procedures.CompleteTx(owner.value.0, owner.value.1);
      ok := r.Pass?;
    }

    method AcknowledgePendingControl(now: u64) returns (ok: bool)
      requires pendingControl.Some?
      modifies procedures
      ensures var step := AckControl(old(procedures.State()), pendingControl.value, now);
        procedures.State() == step.0 && ok == step.1.Pass?
    {
      var owner := ProcedureForControlOwner(pendingControl.value.ownerToken);
      if owner == None {
        return true;
      }
      var r := procedures.AckTx(owner.value.0, owner.value.1, now);
      ok := r.Pass?;
    }

    /** The reserved slot is never filled, so in every valid connection this changes nothing. */
    method PromotePriorityControlIfIdle()
      modifies this`pendingControl, this`priorityControl
      ensures old(priorityControl) == None ==> pendingControl == old(pendingControl) && priorityControl == None
    {
      if transmitted == None && txFrameLen == 0 && priorityControl.Some? {
        pendingControl, priorityControl := priorityControl, pendingControl;
      }
    }

    // Scheduling.

    method ApplyPendingMap() returns (ok: bool)
      requires channels.Valid()
      modifies this`request, this`pendingMap, this`maps, channels
      ensures channels.Valid() && ok == ApplyError(old(Sched())).None?
      ensures Sched() == if ok && MapDue(old(Sched())) then ApplyMap(old(Sched())) else old(Sched())
    {
      ok := true;
      if pendingMap.Some? && pendingMap.value.instant == eventCounter {
        ok := channels.UpdateMap(pendingMap.value.bitmap);
        if ok {
          request := request.(channelMap := pendingMap.value.bitmap);
          maps := maps + [Applied(pendingMap.value, elapsed)];
          pendingMap := None;
        }
      }
    }

    method ApplyPendingUpdate() returns (applied: bool, changed: bool)
      modifies this`request, this`receiveWindowUs, this`pendingUpdate, this`updates
      ensures applied == UpdateDue(old(Sched())) && changed == ChangesParameters(old(Sched()))
      ensures Sched() == if applied then ApplyUpdate(old(Sched())) else old(Sched())
    {
      applied, changed := false, false;
      if pendingUpdate.Some? && pendingUpdate.value.instant == eventCounter {
        var update := pendingUpdate.value;
        applied := true;
        changed := request.interval != update.interval || request.latency != update.latency
          || request.supervisionTimeout != update.supervisionTimeout;
        request := request.(windowSize := update.windowSize, windowOffset := update.windowOffset,
                            interval := update.interval, latency := update.latency,
                            supervisionTimeout := update.supervisionTimeout);
        receiveWindowUs := update.windowSize * UNIT_US;
        updates := updates + [Applied(update, elapsed)];
        pendingUpdate := None;
      }
    }

    /** Apply the indications whose instant is this event; an applied update ends the local request. */
    method ApplyInstants() returns (error: Option<u8>, notify: bool)
      requires channels.Valid()
      modifies this`request, this`receiveWindowUs, this`pendingUpdate, this`pendingMap, this`updates, this`maps,
               this`localRequest, channels, procedures
      ensures channels.Valid() && error == ApplyError(old(Sched()))
      ensures error == None ==> Sched() == ApplyDue(old(Sched()))
      ensures error == None ==> procedures.State() == OnConnectionEvent(old(procedures.State()), eventCounter, 0x28)
      ensures error == None ==> localRequest == if UpdateDue(old(Sched())) then None else old(localRequest)
      ensures error == None ==> notify == (ChangesParameters(old(Sched()))
                                           || (UpdateDue(old(Sched())) && old(localRequest).Some?))
    {
      var ok := ApplyPendingMap();
      if !ok {
        return Some(0x1e), false;
      }
      var applied, changed := ApplyPendingUpdate();
      procedures.ReachEvent(eventCounter, 0x28);
      notify := changed || (applied && localRequest.Some?);
      if applied {
        localRequest := None;
      }
      error := None;
    }

    method SynchronizeTo(anchor: nat)
      modifies this`nextAnchor, this`lastSyncAnchor, this`receiveWindowUs
      ensures Sched() == Synchronize(old(Sched()), anchor)
    {
      nextAnchor, lastSyncAnchor := anchor, anchor;
      receiveWindowUs := 0;
    }

    method ScheduleFollowingEvent()
      modifies this`eventCounter, this`nextAnchor, this`elapsed
      ensures Sched() == ScheduleFollowing(old(Sched()))
    {
      var oldInterval := request.interval * UNIT_US;
      eventCounter := Following(eventCounter);
      elapsed := elapsed + 1;
      nextAnchor := nextAnchor + oldInterval;
      if pendingUpdate.Some? && pendingUpdate.value.instant == eventCounter {
        nextAnchor := nextAnchor + pendingUpdate.value.windowOffset * UNIT_US;
      }
    }

    /** When the receive window of the next event ends. */
    function Close(): (close: nat)
      reads this`request, this`nextAnchor, this`lastSyncAnchor, this`receiveWindowUs, this`eventCounter,
            this`pendingUpdate, this`pendingMap, this`elapsed, this`updates, this`maps, channels
      ensures close == ReceiveClose(Sched())
    {
      var silence := if nextAnchor > lastSyncAnchor then nextAnchor - lastSyncAnchor else 0;
      var ppm: nat := SleepClockAccuracyPpm(request.sleepClockAccuracy) + LOCAL_CLOCK_PPM;
      var windowUs := if pendingUpdate.Some? && pendingUpdate.value.instant == eventCounter
                      then pendingUpdate.value.windowSize * UNIT_US else receiveWindowUs;
      MulMonotone(0, silence, ppm);
      nextAnchor + DivCeil(silence * ppm, PPM) + windowUs + MAX_AIRTIME_US
    }

    /** Everything but the traffic, which scheduling leaves alone. */
    ghost function Side(t: Transmit): Link
      reads this`request, this`nextAnchor, this`lastSyncAnchor, this`receiveWindowUs, this`eventCounter,
            this`pendingUpdate, this`pendingMap, this`elapsed, this`updates, this`maps, this`localRequest,
            channels, procedures
    {
      Link(t, Sched(), procedures.State(), localRequest)
    }

    /**
     * Pass over the events whose whole receive window elapsed; `Err(0x08)` after 65536 of them. The traffic `t`,
     * whatever it is, plays no part.
     */
    method SkipExpiredEvents(now: nat, ghost t: Transmit) returns (r: Result<u16, u8>, notify: bool)
      requires channels.Valid()
      modifies this`request, this`receiveWindowUs, this`pendingUpdate, this`pendingMap, this`updates, this`maps,
               this`localRequest, this`eventCounter, this`nextAnchor, this`elapsed, channels, procedures
      ensures channels.Valid() && SkipResult(old(Side(t)), Side(t), now, r)
      ensures r.Ok? ==> notify == NotifiesWithin(old(Side(t)), r.value)
    {
      ghost var start := Side(t);
      var count: u16 := 0;
      notify := false;
      while now > Close()
        invariant channels.Valid()
        invariant Side(t) == SkipEvents(start, count)
        invariant Expired(start, now, count)
        invariant notify == NotifiesWithin(start, count)
        decreases 0x1_0000 - count
      {
        ghost var here := Side(t);
        ExpiredGrows(start, here, now, count);
        var error, notifies := SkipOne(t);
        if error.Some? {
          return Err(error.value), false;
        }
        notify := notify || notifies;
        if count == 0xffff {
          return Err(0x08), false;
        }
        count := count + 1;
      }
      r := Ok(count);
    }

    method SkipOne(ghost t: Transmit) returns (error: Option<u8>, notify: bool)
      requires channels.Valid()
      modifies this`request, this`receiveWindowUs, this`pendingUpdate, this`pendingMap, this`updates, this`maps,
               this`localRequest, this`eventCounter, this`nextAnchor, this`elapsed, channels, procedures
      ensures channels.Valid() && error == ApplyError(old(Sched()))
      ensures error == None ==> Side(t) == SkipEvent(old(Side(t))) && notify == Notifies(old(Side(t)))
    {
      error, notify := ApplyInstants();
      if error == None {
        ghost var applied := Sched();
        var _ := channels.NextChannel();
        assert Sched() == applied.(channels := Hop(applied.channels));
        ScheduleFollowingEvent();
      }
    }

    // Control PDUs of the Central.

    method RemoteConnectionParametersActive() returns (active: bool)
      ensures active == ActiveKind(procedures.State().remote, ConnectionParameters)
    {
      active := procedures.remote.Some? && procedures.remote.value.kind == ConnectionParameters
        && procedures.remote.value.phase != Complete && procedures.remote.value.phase != Failed;
    }

    method LocalProcedureActive(kind: ProcedureKind) returns (active: bool)
      ensures active == ActiveKind(procedures.State().local, kind)
    {
      active := procedures.local.Some? && procedures.local.value.kind == kind
        && procedures.local.value.phase != Complete && procedures.local.value.phase != Failed;
    }

    method OwnConnectionUpdate(update: ConnectionUpdateInd) returns (error: Option<u8>)
      requires Valid()
      modifies this`nextControlOwnerToken, procedures
      ensures Valid() && (View(), error) == OwnUpdate(old(View()), update)
    {
      var remoteOwns := RemoteConnectionParametersActive();
      if localRequest.Some? {
        var answered := procedures.AcceptResponseWithInstant(Local, 0x00, update.instant);
        error := if answered.Pass? then None else Some(0x3d);
      } else if remoteOwns {
        var answered := procedures.AcceptResponseWithInstant(Remote, 0x00, update.instant);
        error := if answered.Pass? then None else Some(0x3d);
      } else {
        error := StartRemoteInstantProcedure(ConnectionUpdate, 0x00, update.instant);
      }
    }

    method HandleConnectionUpdateInd(payload: seq<u8>) returns (error: Option<u8>)
      requires Valid()
      modifies this`nextControlOwnerToken, this`pendingUpdate, this`updates, procedures
      ensures Valid() && (View(), error) == HandleConnectionUpdate(old(View()), payload)
    {
      match ParseConnectionUpdate(payload, eventCounter)
      case Err(InstantPassed) => error := Some(0x28);
      case Err(_) => error := Some(0x1e);
      case Ok(update) =>
        if pendingUpdate.Some? {
          return Some(0x1e);
        }
        if localRequest.Some? && !RequestAccepts(localRequest.value, update) {
          return Some(0x20);
        }
        error := TakeConnectionUpdate(update);
    }

    method TakeConnectionUpdate(update: ConnectionUpdateInd) returns (error: Option<u8>)
      requires Valid()
      modifies this`nextControlOwnerToken, this`pendingUpdate, this`updates, procedures
      ensures Valid() && (View(), error) == TakeUpdate(old(View()), update)
    {
      error := OwnConnectionUpdate(update);
      if error == None {
        StorePendingUpdate(update);
      }
    }

    method StorePendingUpdate(update: ConnectionUpdateInd)
      modifies this`pendingUpdate, this`updates
      ensures Sched() == AcceptUpdate(old(Sched()), update)
    {
      pendingUpdate := Some(update);
      updates := updates + [Accepted(update, elapsed)];
    }

    /** Give up the local parameter request, if there is one. */
    method YieldLocalRequest(error: u8)
      requires Valid()
      modifies this`localRequest, procedures
      ensures Valid() && View() == Yield(old(View()), error)
    {
      if localRequest.Some? {
        FailLocalRequestWith(error);
      }
    }

    method HandleChannelMapInd(payload: seq<u8>) returns (error: Option<u8>)
      requires Valid()
      modifies this`nextControlOwnerToken, this`localRequest, this`pendingMap, this`maps, procedures
      ensures Valid() && (View(), error) == HandleChannelMap(old(View()), payload)
    {
      match ParseChannelMap(payload, eventCounter)
      case Err(InstantPassed) => error := Some(0x28);
      case Err(_) => error := Some(0x1e);
      case Ok(update) =>
        if pendingMap.Some? {
          return Some(0x1e);
        }
        YieldLocalRequest(CollisionError(ConnectionParameters, ChannelMapUpdate));
        error := TakeChannelMap(update);
    }

    method TakeChannelMap(update: ChannelMapInd) returns (error: Option<u8>)
      requires Valid()
      modifies this`nextControlOwnerToken, this`pendingMap, this`maps, procedures
      ensures Valid() && (View(), error) == TakeMap(old(View()), update)
    {
      error := StartRemoteInstantProcedure(ChannelMapUpdate, 0x01, update.instant);
      if error == None {
        StorePendingMap(update);
      }
    }

    method StorePendingMap(update: ChannelMapInd)
      modifies this`pendingMap, this`maps
      ensures Sched() == AcceptMap(old(Sched()), update)
    {
      pendingMap := Some(update);
      maps := maps + [Accepted(update, elapsed)];
    }

    method HandleConnectionParamReq(payload: seq<u8>)
      requires Valid()
      modifies this`nextControlOwnerToken, this`pendingControl, this`queuedControl, this`localRequest, procedures
      ensures Valid() && View() == HandleParamRequest(old(View()), payload)
    {
      var parsed := ParseParams(payload, CONNECTION_PARAM_REQ, eventCounter);
      if parsed.Err? {
        QueueControlPdu([0x11, 0x0f, 0x1e]);
        return;
      }
      if pendingMap.Some? {
        QueueControlPdu([0x11, 0x0f, CollisionError(ChannelMapUpdate, ConnectionParameters)]);
      } else if pendingUpdate.Some? {
        QueueControlPdu([0x11, 0x0f, CollisionError(ConnectionUpdate, ConnectionParameters)]);
      } else {
        YieldLocalRequest(CollisionError(ConnectionParameters, ConnectionParameters));
        EchoConnectionParams(parsed.value);
      }
    }

    method EchoConnectionParams(parameters: ConnectionParamPdu)
      requires Valid()
      modifies this`nextControlOwnerToken, this`pendingControl, this`queuedControl, procedures
      ensures Valid() && View() == EchoParams(old(View()), parameters)
    {
      var response := new u8[24](_ => 0);
      WriteParams(parameters, CONNECTION_PARAM_RSP, response);
      QueueRemoteProcedureResponse(ConnectionParameters, 0x0f, response[..], Some(0x00), Some(RESPONSE_TIMEOUT_US));
    }

    method HandleRejectInd(rejected: u8, error: u8)
      requires Valid()
      modifies this`localRequest, procedures
      ensures Valid() && View() == HandleReject(old(View()), rejected, error)
    {
      var remoteActive := RemoteConnectionParametersActive();
      if rejected == 0x0f && localRequest.Some? {
        FailLocalRequestWith(error);
      } else if rejected == 0x10 && remoteActive {
        var _ := procedures.FailOwned(Remote, error);
      }
    }

    method HandleControlPdu(payload: seq<u8>) returns (closed: Option<u8>)
      requires Valid()
      modifies this`nextControlOwnerToken, this`pendingControl, this`queuedControl, this`localRequest,
               this`pendingUpdate, this`updates, this`pendingMap, this`maps, procedures
      ensures Valid() && (View(), closed) == HandleLlControl(old(View()), payload)
    {
      closed := None;
      if |payload| == 0 {
        return;
      }
      var opcode := payload[0];
      if opcode == 0x00 {
        closed := HandleConnectionUpdateInd(payload);
      } else if opcode == 0x01 {
        closed := HandleChannelMapInd(payload);
      } else if opcode == 0x02 {
        closed := Some(if |payload| == 2 then payload[1] else 0x1e);
      } else if opcode == 0x07 && |payload| == 2 {
        if payload[1] == 0x0f && localRequest.Some? {
          FailLocalRequestWith(0x1a);
        }
      } else if opcode == 0x11 && |payload| == 3 {
        HandleRejectInd(payload[1], payload[2]);
      } else if opcode == 0x08 && |payload| == 9 {
        QueueRemoteProcedureResponse(FeatureExchange, 0x08,
          [0x09, 2 * ((payload[1] / 2) % 4), 0, 0, 0, 0, 0, 0, 0], None, None);
      } else if opcode == 0x0c && |payload| == 6 {
        QueueRemoteProcedureResponse(VersionExchange, 0x0c, [0x0c, 0x09, 0xff, 0xff, 0x00, 0x00], None, None);
      } else if opcode == 0x0f {
        HandleConnectionParamReq(payload);
      } else if opcode == 0x10 {
        QueueControlPdu([0x11, 0x10, 0x1e]);
      } else if opcode == 0x12 && |payload| == 1 {
        QueueRemoteProcedureResponse(Ping, 0x12, [0x13], None, None);
      } else {
        QueueControlPdu([0x07, opcode]);
      }
    }

    /** HCI Disconnect and LE Connection Update. */
    method HandleConnectedCommand(opcode: u16, params: seq<u8>) returns (status: Option<u8>)
      requires Valid()
      modifies this`nextControlOwnerToken, this`pendingControl, this`queuedControl, this`localRequest, procedures
      ensures Valid() && (View(), status) == HandleCommand(old(View()), opcode, params)
    {
      if opcode == 0x0406 && |params| == 3 {
        status := HandleDisconnect(params);
      } else if opcode == 0x2013 && |params| == 14 {
        status := HandleLeConnectionUpdate(params);
      } else {
        status := None;
      }
    }

    method HandleDisconnect(params: seq<u8>) returns (status: Option<u8>)
      requires Valid() && |params| == 3
      modifies this`nextControlOwnerToken, this`pendingControl, this`queuedControl, procedures
      ensures Valid() && (View(), status) == HandleCommand(old(View()), 0x0406, params)
    {
      var terminating := LocalProcedureActive(Termination);
      if FromLe16(params[0], params[1]) != CONNECTION_HANDLE || terminating {
        return Some(HCI_DISALLOWED);
      }
      var queued := QueueLocalProcedureRequest(Termination, [0x02, params[2]], None, None);
      status := Some(if queued then HCI_SUCCESS else HCI_BUSY);
    }

    method HandleLeConnectionUpdate(params: seq<u8>) returns (status: Option<u8>)
      requires Valid() && |params| == 14
      modifies this`nextControlOwnerToken, this`pendingControl, this`queuedControl, this`localRequest, procedures
      ensures Valid() && (View(), status) == HandleCommand(old(View()), 0x2013, params)
    {
      var requested := ParamRequest(FromLe16(params[2], params[3]), FromLe16(params[4], params[5]),
                                    FromLe16(params[6], params[7]), FromLe16(params[8], params[9]));
      if FromLe16(params[0], params[1]) != CONNECTION_HANDLE
        || !ConnectionParameterRangeIsValid(requested.intervalMin, requested.intervalMax, requested.latency,
                                            requested.supervisionTimeout) {
        return Some(HCI_INVALID_PARAMETERS);
      }
      var remoteActive := RemoteConnectionParametersActive();
      if localRequest.Some? || remoteActive || pendingUpdate.Some? || pendingMap.Some? {
        return Some(HCI_BUSY);
      }
      var bytes := LocalRequestBytes(requested);
      status := RequestConnectionParams(requested, bytes);
    }

    method LocalRequestBytes(requested: ParamRequest) returns (bytes: seq<u8>)
      ensures bytes == LocalRequestPdu(requested, eventCounter)
    {
      var pdu := new u8[24](_ => 0);
      WriteParams(
        ConnectionParamPdu(requested.intervalMin, requested.intervalMax, requested.latency,
                           requested.supervisionTimeout, 0, eventCounter,
                           [NO_OFFSET, NO_OFFSET, NO_OFFSET, NO_OFFSET, NO_OFFSET, NO_OFFSET]),
        CONNECTION_PARAM_REQ, pdu);
      bytes := pdu[..];
    }

    method RequestConnectionParams(requested: ParamRequest, bytes: seq<u8>) returns (status: Option<u8>)
      requires Valid() && bytes == LocalRequestPdu(requested, eventCounter)
      modifies this`nextControlOwnerToken, this`pendingControl, this`queuedControl, this`localRequest, procedures
      ensures Valid() && (View(), status) == RequestParams(old(View()), requested)
    {
      var queued := QueueLocalProcedureRequest(ConnectionParameters, bytes, Some(0x00), Some(RESPONSE_TIMEOUT_US));
      if !queued {
        return Some(HCI_BUSY);
      }
      RecordLocalRequest(requested, View());
      status := Some(HCI_SUCCESS);
    }

    method RecordLocalRequest(requested: ParamRequest, ghost before: Link)
      requires Valid() && before == View()
      modifies this`localRequest
      ensures Valid() && View() == before.(paramRequest := Some(requested))
    {
      localRequest := Some(requested);
    }

    // Transmission.

    /** Copy the selected owner into the frame buffer; a control PDU first consults its procedure. */
    method BuildTransmitFrame() returns (ok: bool)
      requires txFrame.Length == MAX_WIRE_LEN && transmitSn <= 1 && expectedSn <= 1
      requires transmitted == Some(Control) ==> pendingControl.Some? && pendingControl.value.llid < 4
      requires transmitted == Some(Acl) ==> pending.Some? && pending.value.llid < 4
      modifies this`txFrameLen, this`txFrameFresh, txFrame
      ensures ok <==> transmitted == Some(Control) ==>
                        PlanControl(procedures.State(), pendingControl.value).1.Pass?
      ensures ok ==> txFrameFresh && HoldsFrame(Selected())
    {
      ok := true;
      if transmitted == Some(Control) {
        ok := PlanPendingControl();
      }
      if ok {
        var selected := if transmitted == Some(Control) then pendingControl
                        else if transmitted == Some(Acl) then pending else None;
        var llid, payload := if selected.Some? then selected.value.llid else LLID_CONTINUATION,
                             if selected.Some? then selected.value.payload else [];
        txFrame[0] := llid + 4 * expectedSn + 8 * transmitSn;
        txFrame[1] := |payload|;
        for i := 0 to |payload|
          invariant txFrame[0] == llid + 4 * expectedSn + 8 * transmitSn && txFrame[1] == |payload|
          invariant txFrame[2..2 + i] == payload[..i]
        {
          txFrame[2 + i] := payload[i];
        }
        txFrameLen := |payload| + 2;
        txFrameFresh := true;
      }
    }

    /** The owner that the transmitted kind selects; an empty PDU when there is none. */
    ghost function Selected(): (u8, Payload)
      reads this`transmitted, this`pendingControl, this`pending
    {
      if transmitted == Some(Control) && pendingControl.Some? then
        (pendingControl.value.llid, pendingControl.value.payload)
      else if transmitted == Some(Acl) && pending.Some? then (pending.value.llid, pending.value.payload)
      else (LLID_CONTINUATION, [])
    }

    ghost predicate HoldsFrame(content: (u8, Payload))
      reads this`txFrameLen, this`transmitSn, this`expectedSn, txFrame
    {
      && txFrame.Length == MAX_WIRE_LEN && txFrameLen == 2 + |content.1|
      && txFrame[0] == content.0 + 4 * expectedSn + 8 * transmitSn && txFrame[1] == |content.1|
      && txFrame[2..txFrameLen] == content.1
    }

    /** The fields hold the heads of both queues. */
    lemma QueueHeads()
      requires Valid() && StagedOk(Tx())
      ensures pendingControl.Some? <==> Tx().control != []
      ensures pendingControl.Some? ==>
        pendingControl.value == Tx().control[0] && pendingControl.value.llid == LLID_CONTROL
      ensures pending.Some? <==> Tx().acl != []
      ensures pending.Some? ==> pending.value == Tx().acl[0] && 1 <= pending.value.llid <= 2
    {
      assert AclSlots()[0] == pending;
    }

    lemma BuiltFrame(f: Frame)
      requires FrameOk() && transmitSn <= 1 && expectedSn <= 1 && f.llid < 4 && txFrameLen > 0
      requires HoldsFrame((f.llid, f.payload)) && transmitted == Some(f.kind) && txFrameFresh == f.unsent
      ensures Staged() == Some(f)
    {
    }

    /** Choose an owner unless one is outstanding: control before data before an empty PDU. */
    method StageFrame() returns (ok: bool)
      requires Valid() && StagedOk(Tx())
      modifies this`transmitted, this`pendingControl, this`priorityControl, this`txFrameLen, this`txFrameFresh, txFrame
      ensures ok == !StageFails(old(View()))
      ensures ok ==> Valid() && Tx() == Stage(old(Tx())) && txFrameLen > 0
    {
      QueueHeads();
      PromotePriorityControlIfIdle();
      ok := true;
      if transmitted == None {
        ok := StageNewFrame();
      }
    }

    method StageNewFrame() returns (ok: bool)
      requires Valid() && StagedOk(Tx()) && transmitted == None
      modifies this`transmitted, this`txFrameLen, this`txFrameFresh, txFrame
      ensures ok == !StageFails(old(View()))
      ensures ok ==> Valid() && Tx() == old(Tx()).(staged := Some(FrameFor(old(Tx())))) && txFrameLen > 0
    {
      ghost var t := Tx();
      QueueHeads();
      transmitted := Some(if pendingControl.Some? then Control else if pending.Some? then Acl else Empty);
      assert transmitted == Some(NextKind(t)) && Selected() == (FrameFor(t).llid, FrameFor(t).payload);
      ok := BuildTransmitFrame();
      if ok {
        BuiltFrame(FrameFor(t));
      }
    }

    /** Put the current sequence bits in the staged header. */
    method RefreshTransmitHeader() returns (air: seq<u8>)
      requires Valid() && txFrameLen > 0
      modifies txFrame
      ensures Valid() && Tx() == old(Tx())
      ensures air == AirBytes(Staged().value, Tx().bits)
    {
      var header := txFrame[0];
      txFrame[0] := header - 4 * ((header / 4) % 4) + 4 * (expectedSn % 2) + 8 * (transmitSn % 2);
      air := txFrame[..txFrameLen];
    }

    /** Apply instants, hop and close the transmit window. */
    method StartEvent(ghost t: Transmit) returns (closed: Option<u8>, channel: u8)
      requires channels.Valid()
      modifies this`request, this`receiveWindowUs, this`pendingUpdate, this`pendingMap, this`updates, this`maps,
               this`localRequest, channels, procedures
      ensures channels.Valid() && closed == ApplyError(old(Sched()))
      ensures closed == None ==> Side(t) == BeginEvent(old(Side(t)))
      ensures closed == None ==> channel == Mapped(Sched().channels)
    {
      channel := 0;
      var notify;
      closed, notify := ApplyInstants();
      if closed == None {
        ghost var settled := Side(t);
        channel := channels.NextChannel();
        receiveWindowUs := 0;
        assert Side(t) == settled.(sched := settled.sched.(channels := Hop(settled.sched.channels), windowUs := 0));
      }
    }

    method BeginConnectionEvent() returns (closed: Option<u8>, channel: u8)
      requires Valid()
      modifies this`request, this`receiveWindowUs, this`pendingUpdate, this`pendingMap, this`updates, this`maps,
               this`localRequest, channels, procedures
      ensures Valid() && closed == ApplyError(old(Sched()))
      ensures closed == None ==> View() == BeginEvent(old(View())) && channel == Mapped(Sched().channels)
    {
      ghost var t, before := Tx(), View();
      assert before == Side(t);
      closed, channel := StartEvent(t);
      assert Tx() == t && View() == Side(t);
    }

    /** Everything before the radio exchange; `air` is what the radio is given to transmit. */
    method PrepareEvent() returns (closed: Option<u8>, channel: u8, air: seq<u8>)
      requires Valid() && StagedOk(Tx())
      modifies this, channels, procedures, txFrame
      ensures closed == Prepared(old(View())).1
      ensures closed == None ==> Valid() && View() == Prepared(old(View())).0 && txFrameLen > 0
      ensures closed == None ==> air == AirBytes(Staged().value, Tx().bits) && channel == Mapped(Sched().channels)
    {
      air := [];
      closed, channel := BeginConnectionEvent();
      if closed == None {
        ghost var begun := View();
        var ok;
        ok, air := StageWithHeader();
        if ok {
          assert View() == begun.(tx := Stage(begun.tx));
        } else {
          closed := Some(0x1f);
        }
      }
    }

    method StageWithHeader() returns (ok: bool, air: seq<u8>)
      requires Valid() && StagedOk(Tx())
      modifies this`transmitted, this`pendingControl, this`priorityControl, this`txFrameLen, this`txFrameFresh, txFrame
      ensures ok == !StageFails(old(View()))
      ensures ok ==> Valid() && View() == old(View()).(tx := Stage(old(Tx()))) && txFrameLen > 0
      ensures ok ==> air == AirBytes(Staged().value, Tx().bits)
    {
      air := [];
      ok := StageFrame();
      if ok {
        air := RefreshTransmitHeader();
      }
    }

    /** The first reported transmission of the staged frame. */
    method ReportTransmission(reported: bool) returns (ok: bool)
      requires Valid() && StagedOk(Tx()) && txFrameLen > 0
      modifies this`txFrameFresh, procedures
      ensures Valid() && (View(), ok) == Report(old(View()), reported)
    {
      QueueHeads();
      ok := true;
      if txFrameFresh && reported {
        if transmitted == Some(Control) {
          ok := CompletePendingControl();
        }
        if ok {
          txFrameFresh := false;
        }
      }
    }

    /** Whether this event sent our LL_TERMINATE_IND. */
    method SentTerminate(reported: bool) returns (sent: bool)
      requires Valid() && StagedOk(Tx()) && txFrameLen > 0
      ensures sent == SendsTerminate(View(), reported)
    {
      QueueHeads();
      var terminating := LocalProcedureActive(Termination);
      sent := reported && transmitted == Some(Control) && terminating && pendingControl.Some?
        && |pendingControl.value.payload| > 0 && pendingControl.value.payload[0] == 0x02;
    }

    /** Move the queued fragments one place forward, as the source does slot by slot. */
    method ShiftAclQueue()
      requires Valid()
      modifies this`pending, queuedAcl
      ensures AclSlots() == old(AclSlots())[1..] + [None]
    {
      ghost var slots := queuedAcl[..];
      pending := queuedAcl[0];
      queuedAcl[0] := None;
      for index := 0 to queuedAcl.Length - 1
        invariant pending == slots[0] && queuedAcl[index] == None
        invariant forall k :: 0 <= k < index ==> queuedAcl[k] == slots[k + 1]
        invariant forall k :: index < k < queuedAcl.Length ==> queuedAcl[k] == slots[k]
      {
        queuedAcl[index] := queuedAcl[index + 1];
        queuedAcl[index + 1] := None;
      }
      assert queuedAcl[..] == slots[1..] + [None];
      assert AclSlots() == slots + [None];
    }

    /** The staged frame was acknowledged. */
    method ReleaseOwner()
      requires Valid() && StagedOk(Tx()) && txFrameLen > 0
      modifies this`pending, this`pendingControl, this`priorityControl, this`queuedControl, this`transmitted,
               this`txFrameLen, this`txFrameFresh, this`transmitSn, this`completed, queuedAcl
      ensures Valid() && Tx() == Release(old(Tx()))
    {
      QueueHeads();
      match transmitted {
        case Some(Control) => ReleaseControl();
        case Some(Acl) => ReleaseAcl();
        case _ =>
      }
      ClearFrame();
    }

    method ClearFrame()
      requires Valid()
      modifies this`transmitted, this`txFrameLen, this`txFrameFresh, this`transmitSn
      ensures Valid()
      ensures Tx() == old(Tx()).(staged := None, bits := old(Tx()).bits.(transmit := !old(Tx()).bits.transmit))
    {
      transmitted := None;
      txFrameLen := 0;
      txFrameFresh := false;
      transmitSn := 1 - transmitSn;
    }

    method ReleaseControl()
      requires Valid() && pendingControl.Some?
      modifies this`pendingControl, this`priorityControl, this`queuedControl
      ensures Valid() && Tx() == old(Tx()).(control := old(Tx()).control[1..])
    {
      ghost var queue := ControlQueue();
      pendingControl := if priorityControl.Some? then priorityControl else queuedControl;
      queuedControl := None;
      assert ControlQueue() == queue[1..];
    }

    method ReleaseAcl()
      requires Valid() && pending.Some?
      modifies this`pending, this`completed, queuedAcl
      ensures Valid() && Tx() == old(Tx()).(acl := old(Tx()).acl[1..], completed := old(Tx()).completed + 1)
    {
      ShiftingDropsHead(AclSlots());
      ShiftAclQueue();
      completed := completed + 1;
    }

    method AcknowledgeOwner(header: u8, outstanding: bool, now: u64) returns (ok: bool)
      requires Valid() && StagedOk(Tx()) && txFrameLen > 0
      modifies this`pending, this`pendingControl, this`priorityControl, this`queuedControl, this`transmitted,
               this`txFrameLen, this`txFrameFresh, this`transmitSn, this`completed, queuedAcl, procedures
      ensures Valid() && (View(), ok) == Acknowledge(old(View()), Nesn(header), outstanding, now)
    {
      ok := true;
      if AcknowledgesTransmitOwner(header, transmitSn, outstanding, false) {
        ghost var before := View();
        ok := AcknowledgeControl(now);
        ghost var told := View();
        assert told == before.(procedures := told.procedures);
        if ok {
          ReleaseOwner();
          assert View() == told.(tx := Release(before.tx));
        }
      }
    }

    /** Tell the procedure that owns an acknowledged control PDU. */
    method AcknowledgeControl(now: u64) returns (ok: bool)
      requires Valid() && StagedOk(Tx()) && txFrameLen > 0
      modifies procedures
      ensures var before := old(View());
        var step := if before.tx.staged.value.kind == Control
                    then AckControl(before.procedures, before.tx.control[0], now) else (before.procedures, Pass);
        ok == step.1.Pass? && procedures.State() == if ok then step.0 else before.procedures
    {
      QueueHeads();
      ok := true;
      if transmitted == Some(Control) {
        ok := AcknowledgePendingControl(now);
      }
    }

    /** Accept the Central's PDU if its sequence number is the expected one. */
    method AcceptPacket(header: u8, payload: seq<u8>) returns (closed: Option<u8>)
      requires Valid()
      modifies this, procedures
      ensures Valid() && (View(), closed) == Accept(old(View()), header, payload)
    {
      closed := None;
      if (header / 8) % 2 == expectedSn {
        RecordReceived(header, payload);
        if header % 4 == LLID_CONTROL {
          closed := HandleControlPdu(payload);
        }
      }
    }

    method RecordReceived(header: u8, payload: seq<u8>)
      requires Valid()
      modifies this`expectedSn, this`received, this`delivered
      ensures Valid() && Tx() == TakeReceived(old(Tx()), header, payload)
    {
      expectedSn := 1 - expectedSn;
      received := received + [Received(header % 4, payload)];
      if (header % 4 == LLID_CONTINUATION || header % 4 == LLID_START) && payload != [] {
        delivered := delivered + [Fragment(header % 4 == LLID_CONTINUATION, payload)];
      }
    }

    /** Apply what became due and take the Central's anchor. */
    method SettleAndSynchronize(anchor: nat, ghost t: Transmit) returns (error: Option<u8>)
      requires channels.Valid()
      modifies this`request, this`receiveWindowUs, this`pendingUpdate, this`pendingMap, this`updates, this`maps,
               this`localRequest, this`nextAnchor, this`lastSyncAnchor, channels, procedures
      ensures channels.Valid() && error == ApplyError(old(Sched()))
      ensures error == None ==>
        Side(t) == Settle(old(Side(t))).(sched := Synchronize(Settle(old(Side(t))).sched, anchor))
    {
      var notify;
      error, notify := ApplyInstants();
      if error == None {
        ghost var settled := Side(t);
        SynchronizeTo(anchor);
        assert Side(t) == settled.(sched := Synchronize(settled.sched, anchor));
      }
    }

    /** After a valid packet: acknowledge, accept, apply instants and resynchronize. */
    method ProcessPacket(header: u8, payload: seq<u8>, outstanding: bool, sentTerminate: bool, timestampUs: nat,
                         now: u64) returns (closed: Option<u8>)
      requires Valid() && StagedOk(Tx()) && txFrameLen > 0
      modifies this, channels, procedures, queuedAcl
      ensures var spec := FinishEvent(old(View()), header, payload, outstanding, sentTerminate, timestampUs, now);
        closed == spec.1 && (closed == None ==> Valid() && View() == spec.0)
    {
      var ok := AcknowledgeOwner(header, outstanding, now);
      if !ok {
        return Some(0x1f);
      }
      var terminated := AcceptPacket(header, payload);
      closed := ConcludeEvent(terminated, sentTerminate, AnchorOf(timestampUs, |payload|));
    }

    method TakeAnchor(anchor: nat) returns (error: Option<u8>)
      requires Valid()
      modifies this`request, this`receiveWindowUs, this`pendingUpdate, this`pendingMap, this`updates, this`maps,
               this`localRequest, this`nextAnchor, this`lastSyncAnchor, channels, procedures
      ensures Valid() && error == ApplyError(old(Sched()))
      ensures error == None ==>
        View() == Settle(old(View())).(sched := Synchronize(Settle(old(View())).sched, anchor))
    {
      ghost var t, before := Tx(), View();
      assert before == Side(t);
      error := SettleAndSynchronize(anchor, t);
      assert Tx() == t && View() == Side(t);
    }

    method ConcludeEvent(terminated: Option<u8>, sentTerminate: bool, anchor: nat) returns (closed: Option<u8>)
      requires Valid()
      modifies this`request, this`receiveWindowUs, this`pendingUpdate, this`pendingMap, this`updates, this`maps,
               this`localRequest, this`nextAnchor, this`lastSyncAnchor, channels, procedures
      ensures var spec := Conclude(old(View()), terminated, sentTerminate, anchor);
        closed == spec.1 && (closed == None ==> Valid() && View() == spec.0)
    {
      var error := TakeAnchor(anchor);
      if error.Some? {
        return error;
      }
      closed := if sentTerminate then Some(0x16) else terminated;
    }

    /** The radio exchange of a prepared event has ended. */
    method ProcessExchange(e: Exchange, now: u64) returns (closed: Option<u8>)
      requires Valid() && StagedOk(Tx()) && txFrameLen > 0
      modifies this, channels, procedures, queuedAcl
      ensures var spec := ExchangeEvent(old(View()), e, now);
        closed == spec.1 && (closed == None ==> Valid() && View() == spec.0)
    {
      var outstanding := !txFrameFresh;
      ReportCarries(View(), e.transmitted);
      var ok := ReportTransmission(e.transmitted);
      if !ok {
        return Some(0x1f);
      }
      closed := ProcessReception(e, outstanding, now);
    }

    /** What the radio heard, once the transmission is reported. */
    method ProcessReception(e: Exchange, outstanding: bool, now: u64) returns (closed: Option<u8>)
      requires Valid() && StagedOk(Tx()) && txFrameLen > 0
      modifies this, channels, procedures, queuedAcl
      ensures var spec := Receive(old(View()), e, outstanding, now);
        closed == spec.1 && (closed == None ==> Valid() && View() == spec.0)
    {
      var sentTerminate := SentTerminate(e.transmitted);
      if !e.crcOk || |e.packet| < 2 || e.packet[1] > MAX_PAYLOAD || e.packet[0] % 4 == 0
        || |e.packet| < 2 + e.packet[1] {
        return None;
      }
      var payload := e.packet[2..2 + e.packet[1]];
      closed := ProcessPacket(e.packet[0], payload, outstanding, sentTerminate, e.timestampUs, now);
    }

    /**
     * One connection event. `exchange` is what the radio reports for the frame `air` on `channel`. The connection
     * stays in step with its specification as long as it stays open.
     */
    method RunConnectionEvent(exchange: Option<Exchange>, now: u64)
      returns (closed: Option<u8>, channel: u8, air: seq<u8>)
      requires Valid() && StagedOk(Tx())
      modifies this, channels, procedures, queuedAcl, txFrame
      ensures var spec := ConnectionEvent(old(View()), exchange, now);
        closed == spec.1 && (closed == None ==> Valid() && View() == spec.0 && StagedOk(Tx()))
      ensures var prepared := Prepared(old(View())).0;
        closed == None ==>
          && air == AirBytes(prepared.tx.staged.value, prepared.tx.bits)
          && Sound(prepared.sched.channels) && channel == Mapped(prepared.sched.channels)
    {
      EventCarries(View(), exchange, now);
      StageKeeps(Tx());
      closed, channel, air := PrepareEvent();
      if closed == None && exchange.Some? {
        closed := ProcessExchange(exchange.value, now);
      }
    }

    // The run loop.

    /** Catch up with the clock; `skipped` counts the events that were passed over. */
    method CatchUp(now: nat, ghost t: Transmit) returns (ok: bool, skipped: nat)
      requires channels.Valid()
      modifies this`request, this`receiveWindowUs, this`pendingUpdate, this`pendingMap, this`updates, this`maps,
               this`localRequest, this`eventCounter, this`nextAnchor, this`elapsed, channels, procedures
      ensures channels.Valid()
      ensures CatchUpResult(old(Side(t)), Side(t), now, ok, skipped)
    {
      var r, _ := SkipExpiredEvents(now, t);
      ok := r.Ok?;
      skipped := if r.Ok? then r.value else 0;
    }

    method CatchUpTo(now: nat, ghost t: Transmit, ghost before: Link) returns (ok: bool, skipped: nat)
      requires Valid() && t == Tx() && before == Side(t)
      modifies this`request, this`receiveWindowUs, this`pendingUpdate, this`pendingMap, this`updates, this`maps,
               this`localRequest, this`eventCounter, this`nextAnchor, this`elapsed, channels, procedures
      ensures Valid() && Tx() == t && CatchUpResult(before, Side(t), now, ok, skipped)
    {
      ok, skipped := CatchUp(now, t);
    }

    method ServeClock(now: nat) returns (ok: bool, skipped: nat)
      requires Valid() && StagedOk(Tx())
      modifies this`request, this`receiveWindowUs, this`pendingUpdate, this`pendingMap, this`updates, this`maps,
               this`localRequest, this`eventCounter, this`nextAnchor, this`elapsed, channels, procedures
      ensures if ok then Valid() && Follows(old(View()), Skip(skipped)) && CaughtUp(old(View()), now, skipped)
              else CannotCatchUp(old(View()), now)
    {
      ghost var t, before := Tx(), View();
      ok, skipped := CatchUpTo(now, t, before);
      assert View() == Side(t);
    }

    /** The object stands for the value one step later, and the connection is open. */
    ghost predicate Follows(before: Link, a: Action)
      reads this, channels, queuedAcl, txFrame, procedures
      requires FrameOk() && StagedOk(before.tx)
    {
      StagedOk(Tx()) && Running(View(), true) == Act(Running(before, true), a)
    }

    method ServeCheck(now: u64) returns (open: bool)
      requires Valid() && StagedOk(Tx())
      modifies procedures
      ensures open == Act(Running(old(View()), true), CheckResponses(now)).open
      ensures open ==> Valid() && Follows(old(View()), CheckResponses(now))
    {
      var closed := procedures.ExpireResponses(now, 0x22);
      open := !closed;
    }

    method ServeAcl(packet: seq<u8>)
      requires Valid() && StagedOk(Tx())
      modifies this`pending, this`nextAclOwnerToken, this`accepted, queuedAcl
      ensures Valid() && Follows(old(View()), SendAcl(packet))
    {
      ActKeepsStaged(Running(View(), true), SendAcl(packet));
      var _ := QueueHostAcl(packet);
    }

    method ServeCommand(opcode: u16, params: seq<u8>)
      requires Valid() && StagedOk(Tx())
      modifies this`nextControlOwnerToken, this`pendingControl, this`queuedControl, this`localRequest, procedures
      ensures Valid() && Follows(old(View()), Command(opcode, params))
    {
      CommandGrowsControl(View(), opcode, params);
      var _ := HandleConnectedCommand(opcode, params);
    }

    method ServeEvent(exchange: Option<Exchange>, now: u64) returns (open: bool)
      requires Valid() && StagedOk(Tx())
      modifies this, channels, procedures, queuedAcl, txFrame
      ensures open == Act(Running(old(View()), true), Event(exchange, now)).open
      ensures open ==> Valid() && Follows(old(View()), Event(exchange, now))
    {
      EventCarries(View(), exchange, now);
      var closed := RunOneEvent(exchange, now);
      open := !closed;
    }

    method ScheduleNext(ghost before: Link)
      requires Valid() && before == View()
      modifies this`eventCounter, this`nextAnchor, this`elapsed
      ensures Valid() && View() == before.(sched := ScheduleFollowing(before.sched))
    {
      ScheduleFollowingEvent();
    }

    /** One connection event and, if it leaves the connection open, the schedule of the next. */
    method RunOneEvent(exchange: Option<Exchange>, now: u64) returns (closed: bool)
      requires Valid() && StagedOk(Tx())
      modifies this, channels, procedures, queuedAcl, txFrame
      ensures closed == ConnectionEvent(old(View()), exchange, now).1.Some?
      ensures var next := ConnectionEvent(old(View()), exchange, now).0;
        !closed ==> Valid() && View() == next.(sched := ScheduleFollowing(next.sched))
    {
      var reason, _, _ := RunConnectionEvent(exchange, now);
      closed := reason.Some?;
      if !closed {
        ScheduleNext(View());
      }
    }

    /** Serve one input; `taken` is the step that it stands for, unless catching up is hopeless. */
    method Serve(input: Input) returns (open: bool, ghost taken: Option<Action>)
      requires Valid() && StagedOk(Tx())
      modifies this, channels, procedures, queuedAcl, txFrame
      ensures Served(old(View()), input, open, taken)
      ensures open ==> Valid() && Follows(old(View()), taken.value)
    {
      open := true;
      match input
      case HostAcl(packet) =>
        taken := Some(SendAcl(packet));
        ServeAcl(packet);
      case HostCommand(opcode, params) =>
        taken := Some(Command(opcode, params));
        ServeCommand(opcode, params);
      case Clock(now) =>
        taken := Some(CheckResponses(now));
        open := ServeCheck(now);
      case Late(now) =>
        var skipped;
        open, skipped := ServeClock(now);
        taken := if open then Some(Skip(skipped)) else None;
      case Radio(exchange, now) =>
        taken := Some(Event(exchange, now));
        open := ServeEvent(exchange, now);
    }

    /**
     * The object follows the run of its value over exactly these inputs. It stops early only after a step that
     * closes the connection, or at an input for which catching up fails.
     */
    method RunConnection(inputs: seq<Input>) returns (open: bool, ghost taken: seq<Action>)
      requires Valid() && StagedOk(Tx())
      modifies this, channels, procedures, queuedAcl, txFrame
      ensures Faithful(Running(old(View()), true), inputs, taken)
      ensures open ==> |taken| == |inputs| && Valid() && StagedOk(Tx())
      ensures open ==> Running(View(), true) == Run(Running(old(View()), true), taken)
      ensures !open ==> Stopped(Running(old(View()), true), inputs, taken)
    {
      ghost var start := Running(View(), true);
      open, taken := true, [];
      var n := 0;
      while n < |inputs| && open
        invariant 0 <= n <= |inputs| && Faithful(start, inputs, taken)
        invariant open ==> |taken| == n && Valid() && StagedOk(Tx()) && Running(View(), true) == Run(start, taken)
        invariant !open ==> Stopped(start, inputs, taken)
      {
        ghost var step;
        open, step := Serve(inputs[n]);
        if step.Some? {
          FaithfulGrows(start, inputs, taken, step.value);
          taken := taken + [step.value];
        }
        n := n + 1;
      }
    }
  }

  /** `n` events expired before `now`, and the window of the next does not. */
  ghost predicate CaughtUp(before: Link, now: nat, n: nat) {
    Expired(before, now, n) && now <= ReceiveClose(SkipEvents(before, n).sched)
  }

  /** 65536 events expired, or one of them would apply an invalid map. */
  ghost predicate CannotCatchUp(before: Link, now: nat) {
    || Expired(before, now, 0x1_0000)
    || exists k: nat :: k < 0x1_0000 && ApplyError(SkipEvents(before, k).sched).Some?
  }

  ghost predicate CatchUpResult(before: Link, after: Link, now: nat, ok: bool, skipped: nat) {
    if ok then after == SkipEvents(before, skipped) && CaughtUp(before, now, skipped) else CannotCatchUp(before, now)
  }

  /** The step that an input stands for. */
  ghost predicate Stands(before: Link, input: Input, a: Action) {
    match input
    case HostAcl(packet) => a == SendAcl(packet)
    case HostCommand(opcode, params) => a == Command(opcode, params)
    case Clock(now) => a == CheckResponses(now)
    case Late(now) => a.Skip? && CaughtUp(before, now, a.events)
    case Radio(exchange, now) => a == Event(exchange, now)
  }

  ghost predicate Served(before: Link, input: Input, open: bool, taken: Option<Action>)
    requires StagedOk(before.tx)
  {
    if taken.Some? then
      Stands(before, input, taken.value) && open == Act(Running(before, true), taken.value).open
    else !open && input.Late? && CannotCatchUp(before, input.now)
  }

  /** Each step is what its input stands for, and all but the last leave the connection open. */
  ghost predicate Faithful(start: Running, inputs: seq<Input>, taken: seq<Action>)
    requires StagedOk(start.link.tx)
  {
    && |taken| <= |inputs|
    && forall i :: 0 <= i < |taken| ==>
         Run(start, taken[..i]).open && Stands(Run(start, taken[..i]).link, inputs[i], taken[i])
  }

  /** The last step closed the connection, or the next input cannot be caught up with. */
  ghost predicate Stopped(start: Running, inputs: seq<Input>, taken: seq<Action>)
    requires StagedOk(start.link.tx)
  {
    var r := Run(start, taken);
    if r.open then
      |taken| < |inputs| && inputs[|taken|].Late? && CannotCatchUp(r.link, inputs[|taken|].now)
    else taken != []
  }

  lemma FaithfulGrows(start: Running, inputs: seq<Input>, taken: seq<Action>, step: Action)
    requires StagedOk(start.link.tx) && Faithful(start, inputs, taken) && |taken| < |inputs|
    requires Run(start, taken).open && Stands(Run(start, taken).link, inputs[|taken|], step)
    ensures Faithful(start, inputs, taken + [step])
    ensures Run(start, taken + [step]) == Act(Run(start, taken), step)
  {
    var longer := taken + [step];
    assert longer[..|taken|] == taken;
    forall i | 0 <= i < |longer|
      ensures Run(start, longer[..i]).open && Stands(Run(start, longer[..i]).link, inputs[i], longer[i])
    {
      assert longer[..i] == taken[..i];
      assert taken[..|taken|] == taken;
    }
  }

  ghost predicate Expired(c: Link, now: nat, n: nat) {
    forall k: nat :: k < n ==> ReceiveClose(SkipEvents(c, k).sched) < now
  }

  /** Catching up skips exactly the expired events, or gives up after 65536 of them or on an invalid map. */
  ghost predicate SkipResult(before: Link, after: Link, now: nat, r: Result<u16, u8>) {
    match r
    case Ok(count) =>
      after == SkipEvents(before, count) && now <= ReceiveClose(after.sched) && Expired(before, now, count)
    case Err(code) =>
      || (code == 0x08 && Expired(before, now, 0x1_0000))
      || (exists k: nat :: k < 0x1_0000 && ApplyError(SkipEvents(before, k).sched) == Some(code))
  }

  /** In every reachable schedule catching up fails only after 65536 expired events. */
  lemma CatchUpFailsOnlyAfterAllEvents(before: Link, after: Link, now: nat, r: Result<u16, u8>)
    requires ScheduleOk(before.sched) && SkipResult(before, after, now, r) && r.Err?
    ensures r.error == 0x08 && Expired(before, now, 0x1_0000)
  {
    forall k: nat
      ensures ApplyError(SkipEvents(before, k).sched) == None
    {
      SkipsCoast(before, k);
      CoastKeepsSchedule(before.sched, Never, k);
      ApplyKeepsSchedule(SkipEvents(before, k).sched);
    }
  }

  lemma ExpiredGrows(start: Link, here: Link, now: nat, n: nat)
    requires Expired(start, now, n) && here == SkipEvents(start, n) && ReceiveClose(here.sched) < now
    ensures Expired(start, now, n + 1)
    ensures SkipEvent(here) == SkipEvents(start, n + 1)
  {
  }

  lemma SlotsBelow(slots: seq<Option<Pdu>>, i: nat)
    requires i < |slots| && GapFree(slots) && slots[i] == None && (i > 0 ==> slots[i - 1].Some?)
    requires forall k :: 0 <= k < i ==> slots[k].Some?
    ensures forall k :: 0 <= k < |slots| ==> (slots[k].Some? <==> k < i)
  {
    NoneAfter(slots, i, |slots|);
  }

  lemma {:induction false} NoneAfter(slots: seq<Option<Pdu>>, i: nat, end: nat)
    requires i < end <= |slots| && GapFree(slots) && slots[i] == None
    ensures forall k :: i <= k < end ==> slots[k] == None
  {
    if i + 1 < end {
      NoneAfter(slots, i, end - 1);
      assert slots[end - 2] == None;
    }
  }
}
