/** One Peripheral connection as a value: its queues, staged frame, schedule and procedures. */
module Connection {
  import opened Octets
  import opened Wrappers
  import opened Timing
  import opened ControlPdus
  import opened ChannelSelection
  import opened Sequence
  import opened ConnectInd
  import opened Llcp

  const CONNECTION_HANDLE := 1
  const MAX_PAYLOAD := 27
  const ACL_CREDITS := 5
  const CONTROL_SLOTS := 2
  const MAX_AIRTIME_US := 296
  const LOCAL_CLOCK_PPM := 50
  const RESPONSE_TIMEOUT_US := 40_000_000
  const UNIT_US := 1_250

  const LLID_CONTINUATION := 1
  const LLID_START := 2
  const LLID_CONTROL := 3

  const HCI_SUCCESS := 0x00
  const HCI_DISALLOWED := 0x0c
  const HCI_INVALID_PARAMETERS := 0x12
  const HCI_BUSY := 0x3a

  type Payload = p: seq<u8> | |p| <= MAX_PAYLOAD witness []

  datatype Pdu = Pdu(payload: Payload, llid: u8, ownerToken: u32)

  datatype Kind = Control | Acl | Empty

  /** The frame owned by the radio until the peer acknowledges it. */
  datatype Frame = Frame(kind: Kind, llid: u8, payload: Payload, unsent: bool)

  /** A data fragment handed to the Host. */
  datatype Fragment = Fragment(continuing: bool, payload: seq<u8>)

  /** A new PDU received from the Central. */
  datatype Received = Received(llid: u8, payload: seq<u8>)

  /** `accepted`, `completed`, `received` and `delivered` record the traffic so far. */
  datatype Transmit = Transmit(
    acl: seq<Pdu>, control: seq<Pdu>, staged: Option<Frame>, bits: SequenceBits,
    nextAclToken: u32, nextControlToken: u32,
    accepted: seq<Pdu>, completed: nat, received: seq<Received>, delivered: seq<Fragment>)

  datatype Request = Request(
    windowSize: u8, windowOffset: u16, interval: u16, latency: u16, supervisionTimeout: u16,
    channelMap: ChannelMap, sleepClockAccuracy: u8)

  /** An instant-bearing indication was accepted, or applied, during the `at`-th event. */
  datatype Record<T> = Accepted(item: T, at: nat) | Applied(item: T, at: nat)

  /** `elapsed` counts events without wrapping; `updates` and `maps` record the indications so far. */
  datatype Schedule = Schedule(
    request: Request, channels: Selector, nextAnchor: nat, lastSync: nat, windowUs: nat, counter: u16,
    update: Option<ConnectionUpdateInd>, newMap: Option<ChannelMapInd>,
    elapsed: nat, updates: seq<Record<ConnectionUpdateInd>>, maps: seq<Record<ChannelMapInd>>)

  datatype ParamRequest = ParamRequest(intervalMin: u16, intervalMax: u16, latency: u16, supervisionTimeout: u16)

  datatype Link = Link(tx: Transmit, sched: Schedule, procedures: Manager, paramRequest: Option<ParamRequest>)

  /** The result of one radio exchange; a failed exchange is no value. */
  datatype Exchange = Exchange(transmitted: bool, crcOk: bool, packet: seq<u8>, timestampUs: nat)

  /** A connection starts with the CONNECT_IND that ended at `endUs`. */
  function Open(c: ConnectRequest, endUs: nat): Option<Link> {
    if !(5 <= c.hopIncrement <= 16) || !MapIsValid(c.channelMap) then None
    else
      var request := Request(c.windowSize, c.windowOffset, c.interval, c.latency, c.supervisionTimeout,
                             c.channelMap, c.sleepClockAccuracy);
      Some(Link(
        Transmit([], [], None, SequenceBits(false, false), 1, 0x8000_0001, [], 0, [], []),
        Schedule(request, Selector(c.channelMap, c.hopIncrement, 0), endUs + (c.windowOffset + 1) * UNIT_US, endUs,
                 c.windowSize * UNIT_US, 0, None, None, 0, [], []),
        Manager(None, None), None))
  }

  // Schedule.

  function IntervalUs(r: Request): nat {
    r.interval * UNIT_US
  }

  function ClockPpm(r: Request): nat {
    SleepClockAccuracyPpm(r.sleepClockAccuracy) + LOCAL_CLOCK_PPM
  }

  /** Drift since the last synchronization: the exact value of the widening computation. */
  function Widening(s: Schedule): nat {
    var silence := if s.nextAnchor > s.lastSync then s.nextAnchor - s.lastSync else 0;
    MulMonotone(0, silence, ClockPpm(s.request));
    DivCeil(silence * ClockPpm(s.request), PPM)
  }

  predicate UpdateDue(s: Schedule) {
    s.update.Some? && s.update.value.instant == s.counter
  }

  predicate MapDue(s: Schedule) {
    s.newMap.Some? && s.newMap.value.instant == s.counter
  }

  function WindowOf(s: Schedule): nat {
    if UpdateDue(s) then s.update.value.windowSize * UNIT_US else s.windowUs
  }

  function ReceiveClose(s: Schedule): nat {
    s.nextAnchor + Widening(s) + WindowOf(s) + MAX_AIRTIME_US
  }

  function ScheduleFollowing(s: Schedule): Schedule {
    var counter := Following(s.counter);
    s.(counter := counter,
       elapsed := s.elapsed + 1,
       nextAnchor := s.nextAnchor + IntervalUs(s.request)
         + if s.update.Some? && s.update.value.instant == counter then s.update.value.windowOffset * UNIT_US else 0)
  }

  function Synchronize(s: Schedule, anchor: nat): Schedule {
    s.(nextAnchor := anchor, lastSync := anchor, windowUs := 0)
  }

  function ApplyMap(s: Schedule): Schedule
    requires MapDue(s)
  {
    s.(channels := s.channels.(bitmap := s.newMap.value.bitmap),
       request := s.request.(channelMap := s.newMap.value.bitmap),
       newMap := None,
       maps := s.maps + [Applied(s.newMap.value, s.elapsed)])
  }

  function ApplyUpdate(s: Schedule): Schedule
    requires UpdateDue(s)
  {
    var u := s.update.value;
    s.(request := s.request.(windowSize := u.windowSize, windowOffset := u.windowOffset, interval := u.interval,
                             latency := u.latency, supervisionTimeout := u.supervisionTimeout),
       windowUs := u.windowSize * UNIT_US,
       update := None,
       updates := s.updates + [Applied(u, s.elapsed)])
  }

  function ApplyDue(s: Schedule): Schedule {
    var mapped := if MapDue(s) then ApplyMap(s) else s;
    if UpdateDue(mapped) then ApplyUpdate(mapped) else mapped
  }

  function ApplyError(s: Schedule): Option<u8> {
    if MapDue(s) && !MapIsValid(s.newMap.value.bitmap) then Some(0x1e) else None
  }

  /** The update that is due changes what the Host was told. */
  predicate ChangesParameters(s: Schedule) {
    UpdateDue(s) && (s.update.value.interval != s.request.interval || s.update.value.latency != s.request.latency
                     || s.update.value.supervisionTimeout != s.request.supervisionTimeout)
  }

  /** Applying the instants of this event must be reported to the Host. */
  predicate Notifies(c: Link) {
    ChangesParameters(c.sched) || (UpdateDue(c.sched) && c.paramRequest.Some?)
  }

  /** Apply the instants of this event; an applied connection update ends the local request. */
  function Settle(c: Link): Link {
    Link(c.tx, ApplyDue(c.sched), OnConnectionEvent(c.procedures, c.sched.counter, 0x28),
         if UpdateDue(c.sched) then None else c.paramRequest)
  }

  function SkipSchedule(s: Schedule): Schedule {
    var applied := ApplyDue(s);
    ScheduleFollowing(applied.(channels := Hop(applied.channels)))
  }

  function SkipEvent(c: Link): Link {
    Settle(c).(sched := SkipSchedule(c.sched))
  }

  function SkipEvents(c: Link, n: nat): Link {
    if n == 0 then c else SkipEvent(SkipEvents(c, n - 1))
  }

  /** One of the first `n` skipped events must be reported to the Host. */
  function NotifiesWithin(c: Link, n: nat): bool {
    n > 0 && (NotifiesWithin(c, n - 1) || Notifies(SkipEvents(c, n - 1)))
  }

  // Queues.

  function QueueAcl(t: Transmit, packet: seq<u8>): (Transmit, Outcome<u8>) {
    if |packet| < 4 then (t, Fail(HCI_DISALLOWED))
    else
      var raw, length := FromLe16(packet[0], packet[1]), FromLe16(packet[2], packet[3]);
      if raw % 0x1000 != CONNECTION_HANDLE || length + 4 != |packet| || length > MAX_PAYLOAD then
        (t, Fail(HCI_INVALID_PARAMETERS))
      else if |t.acl| >= ACL_CREDITS then (t, Fail(HCI_DISALLOWED))
      else
        var pdu := Pdu(packet[4..], if (raw / 0x1000) % 4 == 1 then LLID_CONTINUATION else LLID_START,
                       t.nextAclToken);
        (t.(acl := t.acl + [pdu], accepted := t.accepted + [pdu], nextAclToken := NextAclToken(t.nextAclToken)),
         Pass)
  }

  function NextAclToken(token: u32): u32 {
    if token == 0xffff_ffff then 1 else token + 1
  }

  function NextControlToken(token: u32): u32 {
    var next := if token == 0xffff_ffff then 0 else token + 1;
    if next < 0x8000_0000 then next + 0x8000_0000 else next
  }

  function ControlToken(t: Transmit): Token {
    Token(t.nextControlToken, t.nextControlToken % 0x100)
  }

  function TakeToken(t: Transmit): Transmit {
    t.(nextControlToken := NextControlToken(t.nextControlToken))
  }

  predicate ControlFits(t: Transmit, bytes: seq<u8>) {
    |bytes| <= MAX_PAYLOAD && |t.control| < CONTROL_SLOTS
  }

  function PushControl(t: Transmit, bytes: seq<u8>, token: Token): Transmit {
    if ControlFits(t, bytes) then t.(control := t.control + [Pdu(bytes, LLID_CONTROL, token.ownerToken)]) else t
  }

  function QueueControl(c: Link, bytes: seq<u8>): Link {
    c.(tx := PushControl(TakeToken(c.tx), bytes, ControlToken(c.tx)))
  }

  // Procedures started by the peer or the Host.

  /** Allocate a token and start a remote procedure under it. */
  function StartRemoteOwned(c: Link, kind: ProcedureKind, txOpcode: u8, expected: Option<u8>, instant: Option<u16>,
                            timeoutUs: Option<u32>): (Link, Outcome<ProcedureError>)
  {
    var (started, outcome) := StartRemote(c.procedures,
      NewContext(kind, Remote, ControlToken(c.tx), txOpcode, expected, instant, timeoutUs));
    (c.(tx := TakeToken(c.tx), procedures := started), outcome)
  }

  /** Queue a response to a peer request under a new remote procedure, or reject the request. */
  function QueueRemoteResponse(c: Link, kind: ProcedureKind, requestOpcode: u8, response: seq<u8>,
                               expected: Option<u8>, timeoutUs: Option<u32>): Link
  {
    if response == [] then c
    else
      var (started, outcome) := StartRemoteOwned(c, kind, response[0], expected, None, timeoutUs);
      Answer(started, outcome, requestOpcode, response, ControlToken(c.tx))
  }

  function Answer(c: Link, outcome: Outcome<ProcedureError>, requestOpcode: u8, response: seq<u8>, token: Token): Link
    requires response != []
  {
    match outcome
    case Fail(Collision(code)) => QueueControl(c, [0x11, requestOpcode, code])
    case Fail(_) => QueueControl(c, [0x11, requestOpcode, 0x23])
    case Pass => QueueStarted(c, response, token)
  }

  /** Queue the response of the remote procedure that just started, or fail the procedure. */
  function QueueStarted(c: Link, response: seq<u8>, token: Token): Link
    requires response != []
  {
    var (queued, marked) := MarkResponseQueued(c.procedures, token, response[0]);
    if marked.Pass? && ControlFits(c.tx, response) then
      c.(procedures := queued, tx := PushControl(c.tx, response, token))
    else
      c.(procedures := FailProcedure(queued, Remote, 0x3a).0)
  }

  predicate ActiveKind(slot: Option<Context>, kind: ProcedureKind) {
    ActiveIn(slot) && slot.value.kind == kind
  }

  function CollisionCode(outcome: Outcome<ProcedureError>): u8
    requires outcome.Fail?
  {
    if outcome.error.Collision? then outcome.error.code else 0x23
  }

  function StartRemoteInstant(c: Link, kind: ProcedureKind, opcode: u8, instant: u16): (Link, Option<u8>) {
    var (started, outcome) := StartRemoteOwned(c, kind, opcode, None, Some(instant), None);
    (started, if outcome.Pass? then None else Some(CollisionCode(outcome)))
  }

  /** Start a local procedure and queue its request; false leaves a failed or no context. */
  function QueueLocalProcedure(c: Link, kind: ProcedureKind, request: seq<u8>, expected: Option<u8>,
                               timeoutUs: Option<u32>): (Link, bool)
  {
    if request == [] then (c, false)
    else
      var token := ControlToken(c.tx);
      var taken := c.(tx := TakeToken(c.tx));
      var (started, outcome) :=
        StartLocal(c.procedures, NewContext(kind, Local, token, request[0], expected, None, timeoutUs));
      if outcome.Fail? then (taken, false) else RequestStarted(taken.(procedures := started), request, token)
  }

  /** Queue the request of the local procedure that just started, or fail the procedure. */
  function RequestStarted(c: Link, request: seq<u8>, token: Token): (Link, bool) {
    if !ControlFits(c.tx, request) then (c.(procedures := FailProcedure(c.procedures, Local, 0x3a).0), false)
    else (c.(tx := PushControl(c.tx, request, token)), true)
  }

  function FailLocalRequest(c: Link, error: u8): Link {
    c.(paramRequest := None, procedures := FailProcedure(c.procedures, Local, error).0)
  }

  function AcceptUpdate(s: Schedule, u: ConnectionUpdateInd): Schedule {
    s.(update := Some(u), updates := s.updates + [Accepted(u, s.elapsed)])
  }

  function AcceptMap(s: Schedule, m: ChannelMapInd): Schedule {
    s.(newMap := Some(m), maps := s.maps + [Accepted(m, s.elapsed)])
  }

  predicate RequestAccepts(r: ParamRequest, u: ConnectionUpdateInd) {
    r.intervalMin <= u.interval <= r.intervalMax && u.latency == r.latency
    && u.supervisionTimeout == r.supervisionTimeout
  }

  function OwnerOutcome(answered: Step): Option<u8> {
    if answered.1.Pass? then None else Some(0x3d)
  }

  /** Find the procedure that the update belongs to, or start one for it. */
  function OwnUpdate(c: Link, u: ConnectionUpdateInd): (Link, Option<u8>) {
    if c.paramRequest.Some? then
      var answered := ExpectedResponseWithInstant(c.procedures, Local, 0x00, u.instant);
      (c.(procedures := answered.0), OwnerOutcome(answered))
    else if ActiveKind(c.procedures.remote, ConnectionParameters) then
      var answered := ExpectedResponseWithInstant(c.procedures, Remote, 0x00, u.instant);
      (c.(procedures := answered.0), OwnerOutcome(answered))
    else StartRemoteInstant(c, ConnectionUpdate, 0x00, u.instant)
  }

  function HandleConnectionUpdate(c: Link, payload: seq<u8>): (Link, Option<u8>) {
    match ParseConnectionUpdate(payload, c.sched.counter)
    case Err(InstantPassed) => (c, Some(0x28))
    case Err(_) => (c, Some(0x1e))
    case Ok(u) =>
      if c.sched.update.Some? then (c, Some(0x1e))
      else if c.paramRequest.Some? && !RequestAccepts(c.paramRequest.value, u) then (c, Some(0x20))
      else TakeUpdate(c, u)
  }

  function TakeUpdate(c: Link, u: ConnectionUpdateInd): (Link, Option<u8>) {
    var (owned, error) := OwnUpdate(c, u);
    if error.Some? then (owned, error) else (owned.(sched := AcceptUpdate(owned.sched, u)), None)
  }

  /** A request of the Central ends the local request for the same transaction. */
  function Yield(c: Link, error: u8): Link {
    if c.paramRequest.Some? then FailLocalRequest(c, error) else c
  }

  function HandleChannelMap(c: Link, payload: seq<u8>): (Link, Option<u8>) {
    match ParseChannelMap(payload, c.sched.counter)
    case Err(InstantPassed) => (c, Some(0x28))
    case Err(_) => (c, Some(0x1e))
    case Ok(m) =>
      if c.sched.newMap.Some? then (c, Some(0x1e))
      else TakeMap(Yield(c, CollisionError(ConnectionParameters, ChannelMapUpdate)), m)
  }

  function TakeMap(c: Link, m: ChannelMapInd): (Link, Option<u8>) {
    var (owned, error) := StartRemoteInstant(c, ChannelMapUpdate, 0x01, m.instant);
    if error.Some? then (owned, error) else (owned.(sched := AcceptMap(owned.sched, m)), None)
  }

  function HandleParamRequest(c: Link, payload: seq<u8>): Link {
    match DecodeParams(payload, CONNECTION_PARAM_REQ, c.sched.counter)
    case Err(_) => QueueControl(c, [0x11, 0x0f, 0x1e])
    case Ok(request) =>
      if c.sched.newMap.Some? then
        QueueControl(c, [0x11, 0x0f, CollisionError(ChannelMapUpdate, ConnectionParameters)])
      else if c.sched.update.Some? then
        QueueControl(c, [0x11, 0x0f, CollisionError(ConnectionUpdate, ConnectionParameters)])
      else EchoParams(Yield(c, CollisionError(ConnectionParameters, ConnectionParameters)), request)
  }

  function EchoParams(c: Link, request: ConnectionParamPdu): Link {
    QueueRemoteResponse(c, ConnectionParameters, 0x0f, EncodeParams(request, CONNECTION_PARAM_RSP),
                        Some(0x00), Some(RESPONSE_TIMEOUT_US))
  }

  function HandleReject(c: Link, rejected: u8, error: u8): Link {
    if rejected == 0x0f && c.paramRequest.Some? then FailLocalRequest(c, error)
    else if rejected == 0x10 && ActiveKind(c.procedures.remote, ConnectionParameters) then
      c.(procedures := FailProcedure(c.procedures, Remote, error).0)
    else c
  }

  /** One new LL control PDU from the Central; the second component closes the connection. */
  function HandleLlControl(c: Link, payload: seq<u8>): (Link, Option<u8>) {
    if payload == [] then (c, None)
    else
      var opcode, n := payload[0], |payload|;
      if opcode == 0x00 then HandleConnectionUpdate(c, payload)
      else if opcode == 0x01 then HandleChannelMap(c, payload)
      else if opcode == 0x02 then (c, Some(if n == 2 then payload[1] else 0x1e))
      else if opcode == 0x07 && n == 2 then
        (if payload[1] == 0x0f && c.paramRequest.Some? then FailLocalRequest(c, 0x1a) else c, None)
      else if opcode == 0x11 && n == 3 then (HandleReject(c, payload[1], payload[2]), None)
      else if opcode == 0x08 && n == 9 then
        (QueueRemoteResponse(c, FeatureExchange, 0x08,
           [0x09, 2 * ((payload[1] / 2) % 4), 0, 0, 0, 0, 0, 0, 0], None, None), None)
      else if opcode == 0x0c && n == 6 then
        (QueueRemoteResponse(c, VersionExchange, 0x0c, [0x0c, 0x09, 0xff, 0xff, 0x00, 0x00], None, None), None)
      else if opcode == 0x0f then (HandleParamRequest(c, payload), None)
      else if opcode == 0x10 then (QueueControl(c, [0x11, 0x10, 0x1e]), None)
      else if opcode == 0x12 && n == 1 then (QueueRemoteResponse(c, Ping, 0x12, [0x13], None, None), None)
      else (QueueControl(c, [0x07, opcode]), None)
  }

  /** HCI Disconnect and LE Connection Update; other opcodes have no status here. */
  function HandleCommand(c: Link, opcode: u16, params: seq<u8>): (Link, Option<u8>) {
    if opcode == 0x0406 && |params| == 3 then
      if FromLe16(params[0], params[1]) != CONNECTION_HANDLE || ActiveKind(c.procedures.local, Termination) then
        (c, Some(HCI_DISALLOWED))
      else
        var (queued, ok) := QueueLocalProcedure(c, Termination, [0x02, params[2]], None, None);
        (queued, Some(if ok then HCI_SUCCESS else HCI_BUSY))
    else if opcode == 0x2013 && |params| == 14 then
      var r := ParamRequest(FromLe16(params[2], params[3]), FromLe16(params[4], params[5]),
                            FromLe16(params[6], params[7]), FromLe16(params[8], params[9]));
      if FromLe16(params[0], params[1]) != CONNECTION_HANDLE
        || !ConnectionParameterRangeIsValid(r.intervalMin, r.intervalMax, r.latency, r.supervisionTimeout) then
        (c, Some(HCI_INVALID_PARAMETERS))
      else if c.paramRequest.Some? || ActiveKind(c.procedures.remote, ConnectionParameters)
        || c.sched.update.Some? || c.sched.newMap.Some? then (c, Some(HCI_BUSY))
      else RequestParams(c, r)
    else (c, None)
  }

  function RequestParams(c: Link, r: ParamRequest): (Link, Option<u8>) {
    var (queued, ok) := QueueLocalProcedure(c, ConnectionParameters, LocalRequestPdu(r, c.sched.counter),
                                            Some(0x00), Some(RESPONSE_TIMEOUT_US));
    if ok then (queued.(paramRequest := Some(r)), Some(HCI_SUCCESS)) else (queued, Some(HCI_BUSY))
  }

  function LocalRequestPdu(r: ParamRequest, counter: u16): seq<u8> {
    EncodeParams(ConnectionParamPdu(r.intervalMin, r.intervalMax, r.latency, r.supervisionTimeout, 0, counter,
                                    [NO_OFFSET, NO_OFFSET, NO_OFFSET, NO_OFFSET, NO_OFFSET, NO_OFFSET]),
                 CONNECTION_PARAM_REQ)
  }

  // One connection event.

  function OwnerOf(m: Manager, ownerToken: u32): Option<(Initiator, Token)> {
    if m.local.Some? && m.local.value.token.ownerToken == ownerToken then Some((Local, m.local.value.token))
    else if m.remote.Some? && m.remote.value.token.ownerToken == ownerToken then Some((Remote, m.remote.value.token))
    else None
  }

  function PlanControl(m: Manager, pdu: Pdu): Step {
    match OwnerOf(m, pdu.ownerToken)
    case None => (m, Pass)
    case Some((who, token)) => TxPlanned(m, who, token)
  }

  function CompleteControl(m: Manager, pdu: Pdu): Step {
    match OwnerOf(m, pdu.ownerToken)
    case None => (m, Pass)
    case Some((who, token)) => TxDone(m, who, token)
  }

  function AckControl(m: Manager, pdu: Pdu, now: u64): Step {
    match OwnerOf(m, pdu.ownerToken)
    case None => (m, Pass)
    case Some((who, token)) => NesnAck(m, who, token, now)
  }

  function NextKind(t: Transmit): Kind {
    if t.control != [] then Control else if t.acl != [] then Acl else Empty
  }

  function FrameFor(t: Transmit): Frame {
    match NextKind(t)
    case Control => Frame(Control, t.control[0].llid, t.control[0].payload, true)
    case Acl => Frame(Acl, t.acl[0].llid, t.acl[0].payload, true)
    case Empty => Frame(Empty, LLID_CONTINUATION, [], true)
  }

  predicate StageFails(c: Link) {
    c.tx.staged == None && c.tx.control != [] && PlanControl(c.procedures, c.tx.control[0]).1.Fail?
  }

  /** Stage a frame unless one is still unacknowledged. */
  function Stage(t: Transmit): Transmit {
    if t.staged.Some? then t else t.(staged := Some(FrameFor(t)))
  }

  /** The bytes on air: the header carries the current sequence bits and never promises more data. */
  function AirBytes(f: Frame, bits: SequenceBits): seq<u8>
    requires f.llid < 4
  {
    [f.llid + 4 * Bit(bits.expected) + 8 * Bit(bits.transmit), |f.payload|] + f.payload
  }

  /** The first reported transmission of a frame; a control PDU tells its procedure. */
  function Report(c: Link, transmitted: bool): (Link, bool)
    requires c.tx.staged.Some? && (c.tx.staged.value.kind == Control ==> c.tx.control != [])
  {
    var f := c.tx.staged.value;
    if !(f.unsent && transmitted) then (c, true)
    else
      var step := if f.kind == Control then CompleteControl(c.procedures, c.tx.control[0]) else (c.procedures, Pass);
      if step.1.Fail? then (c, false)
      else (c.(procedures := step.0, tx := c.tx.(staged := Some(f.(unsent := false)))), true)
  }

  function ParsePacket(packet: seq<u8>): Option<(u8, Payload)> {
    if |packet| < 2 || packet[1] > MAX_PAYLOAD || packet[0] % 4 == 0 || |packet| < 2 + packet[1] then None
    else Some((packet[0], packet[2..2 + packet[1]]))
  }

  /** The staged frame was acknowledged: release its owner and advance the sequence number. */
  function Release(t: Transmit): Transmit
    requires t.staged.Some?
    requires t.staged.value.kind == Control ==> t.control != []
    requires t.staged.value.kind == Acl ==> t.acl != []
  {
    var kind := t.staged.value.kind;
    t.(control := if kind == Control then t.control[1..] else t.control,
       acl := if kind == Acl then t.acl[1..] else t.acl,
       completed := if kind == Acl then t.completed + 1 else t.completed,
       staged := None,
       bits := t.bits.(transmit := !t.bits.transmit))
  }

  /** Process the peer's acknowledgement of a frame that was outstanding when the event began. */
  function Acknowledge(c: Link, nesn: bool, outstanding: bool, now: u64): (Link, bool)
    requires StagedOk(c.tx)
    requires c.tx.staged.Some?
  {
    if !outstanding || nesn == c.tx.bits.transmit then (c, true)
    else
      var step := if c.tx.staged.value.kind == Control then AckControl(c.procedures, c.tx.control[0], now)
                  else (c.procedures, Pass);
      if step.1.Fail? then (c, false) else (c.(procedures := step.0, tx := Release(c.tx)), true)
  }

  function TakeReceived(t: Transmit, header: u8, payload: seq<u8>): Transmit {
    var isData := (Llid(header) == LLID_CONTINUATION || Llid(header) == LLID_START) && payload != [];
    t.(bits := t.bits.(expected := !t.bits.expected),
       received := t.received + [Received(Llid(header), payload)],
       delivered := if isData then t.delivered + [Fragment(Llid(header) == LLID_CONTINUATION, payload)]
                    else t.delivered)
  }

  /** Accept the peer's PDU if it is new. */
  function Accept(c: Link, header: u8, payload: seq<u8>): (Link, Option<u8>) {
    if Sn(header) != c.tx.bits.expected then (c, None)
    else
      var taken := c.(tx := TakeReceived(c.tx, header, payload));
      if Llid(header) == LLID_CONTROL then HandleLlControl(taken, payload) else (taken, None)
  }

  predicate SendsTerminate(c: Link, transmitted: bool)
    requires c.tx.staged.Some?
  {
    transmitted && c.tx.staged.value.kind == Control && ActiveKind(c.procedures.local, Termination)
    && c.tx.control != [] && c.tx.control[0].payload != [] && c.tx.control[0].payload[0] == 0x02
  }

  /** The staged frame is the head of its queue. */
  predicate StagedOk(t: Transmit) {
    && |t.acl| <= ACL_CREDITS && |t.control| <= CONTROL_SLOTS
    && (forall i :: 0 <= i < |t.acl| ==> t.acl[i].llid == LLID_CONTINUATION || t.acl[i].llid == LLID_START)
    && (forall i :: 0 <= i < |t.control| ==> t.control[i].llid == LLID_CONTROL)
    && (t.staged.Some? ==>
          var f := t.staged.value;
          match f.kind
          case Control => t.control != [] && f.llid == t.control[0].llid && f.payload == t.control[0].payload
          case Acl => t.acl != [] && f.llid == t.acl[0].llid && f.payload == t.acl[0].payload
          case Empty => f.llid == LLID_CONTINUATION && f.payload == [])
  }

  function AnchorOf(timestampUs: nat, length: nat): nat {
    var airtime := (10 + length) * 8;
    if timestampUs >= airtime then timestampUs - airtime else 0
  }

  /** Before the radio exchange: apply instants, hop, close the transmit window and stage a frame. */
  function BeginEvent(c: Link): Link {
    var settled := Settle(c);
    settled.(sched := settled.sched.(channels := Hop(settled.sched.channels), windowUs := 0))
  }

  function Conclude(c: Link, terminated: Option<u8>, sentTerminate: bool, anchor: nat): (Link, Option<u8>) {
    if ApplyError(c.sched).Some? then (c, ApplyError(c.sched))
    else
      var settled := Settle(c);
      (settled.(sched := Synchronize(settled.sched, anchor)), if sentTerminate then Some(0x16) else terminated)
  }

  /** After a valid packet: acknowledge, accept, apply instants again and resynchronize. */
  function FinishEvent(c: Link, header: u8, payload: seq<u8>, outstanding: bool, sentTerminate: bool,
                       timestampUs: nat, now: u64): (Link, Option<u8>)
    requires StagedOk(c.tx) && c.tx.staged.Some?
  {
    var (acked, ok) := Acknowledge(c, Nesn(header), outstanding, now);
    if !ok then (acked, Some(0x1f))
    else
      var (taken, terminated) := Accept(acked, header, payload);
      Conclude(taken, terminated, sentTerminate, AnchorOf(timestampUs, |payload|))
  }

  /** What the radio heard; a failed check or a malformed packet is ignored. */
  function Receive(c: Link, e: Exchange, outstanding: bool, now: u64): (Link, Option<u8>)
    requires StagedOk(c.tx) && c.tx.staged.Some?
  {
    if !e.crcOk || ParsePacket(e.packet) == None then (c, None)
    else
      var (header, payload) := ParsePacket(e.packet).value;
      FinishEvent(c, header, payload, outstanding, SendsTerminate(c, e.transmitted), e.timestampUs, now)
  }

  /** The staged frame went through one exchange. */
  function ExchangeEvent(c: Link, e: Exchange, now: u64): (Link, Option<u8>)
    requires StagedOk(c.tx) && c.tx.staged.Some?
  {
    var outstanding := !c.tx.staged.value.unsent;
    var (reported, ok) := Report(c, e.transmitted);
    if !ok then (reported, Some(0x1f)) else Receive(reported, e, outstanding, now)
  }

  lemma StageKeeps(t: Transmit)
    requires StagedOk(t)
    ensures StagedOk(Stage(t)) && Stage(t).staged.Some?
  {
  }

  /** What the radio exchange starts from. */
  function Prepared(c: Link): (Link, Option<u8>) {
    if ApplyError(c.sched).Some? then (c, ApplyError(c.sched))
    else
      var begun := BeginEvent(c);
      if StageFails(begun) then (begun, Some(0x1f)) else (begun.(tx := Stage(begun.tx)), None)
  }

  /** A connection event; the second component closes the connection. */
  function ConnectionEvent(c: Link, exchange: Option<Exchange>, now: u64): (Link, Option<u8>)
    requires StagedOk(c.tx)
  {
    var (prepared, failed) := Prepared(c);
    if failed.Some? || exchange == None then (prepared, failed)
    else
      StageKeeps(c.tx);
      ExchangeEvent(prepared, exchange.value, now)
  }

  // The run loop.

  /** What the run loop does next; `Skip` passes over any number of events. */
  datatype Action =
    | SendAcl(packet: seq<u8>)
    | Command(opcode: u16, params: seq<u8>)
    | CheckResponses(nowUs: u64)
    | Skip(events: nat)
    | Event(exchange: Option<Exchange>, nowUs: u64)

  datatype Running = Running(link: Link, open: bool)

  function Act(r: Running, a: Action): Running
    requires StagedOk(r.link.tx)
  {
    if !r.open then r
    else match a
      case SendAcl(packet) => r.(link := r.link.(tx := QueueAcl(r.link.tx, packet).0))
      case Command(opcode, params) => r.(link := HandleCommand(r.link, opcode, params).0)
      case CheckResponses(nowUs) =>
        var m := r.link.procedures;
        Running(r.link.(procedures := CheckTimeouts(m, nowUs, 0x22)),
                !TimedOutIn(m.local, nowUs) && !TimedOutIn(m.remote, nowUs))
      case Skip(events) => r.(link := SkipEvents(r.link, events))
      case Event(exchange, nowUs) =>
        var (next, closed) := ConnectionEvent(r.link, exchange, nowUs);
        if closed.Some? then Running(next, false)
        else Running(next.(sched := ScheduleFollowing(next.sched)), true)
  }
}
