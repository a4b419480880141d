/** The two-slot rolling owner of one connection event's payloads. */
module TwoSlot {
  import opened Octets
  import opened Wrappers

  datatype Slot = Slot0 | Slot1

  datatype Token = Token(payloadId: u8, ownerToken: u32, generation: u8)

  datatype Refill = Refill(slot: Slot, token: Token)

  datatype Decision = Decision(
    responseSlot: Slot, responseToken: Option<Token>, responseIsRetry: bool,
    acknowledgedResponse: bool, acknowledgedToken: Option<Token>,
    refillAfterTransmit: Option<Refill>, morePayloadsAfterResponse: bool)

  datatype TxError =
    TooManyPayloads | AckWithoutOutstandingResponse | ResponsePlanAlreadyPending
    | CompletionDoesNotMatchDecision

  datatype Outstanding = Outstanding(slot: Slot, token: Option<Token>)

  const MAX_PAYLOADS := 8

  // The plain FIFO that the owner refines.

  /** What is on air and unacknowledged. */
  datatype OnAir = Nothing | EmptyPdu | Head

  datatype Fifo = Fifo(tokens: seq<u32>, acked: nat, onAir: OnAir, planned: bool)

  predicate Sound(f: Fifo) {
    f.acked <= |f.tokens| && (f.onAir == Head ==> f.acked < |f.tokens|)
  }

  predicate Waiting(f: Fifo, id: nat) {
    f.acked <= id < |f.tokens|
  }

  function AirPayload(f: Fifo): Option<nat> {
    if f.onAir == Head then Some(f.acked) else None
  }

  /** The response: what is on air, else the head of the FIFO, else an Empty PDU. */
  function Response(f: Fifo): Option<nat> {
    if f.onAir == Nothing && f.acked < |f.tokens| then Some(f.acked) else AirPayload(f)
  }

  /** Payloads remain after the response. */
  predicate More(f: Fifo) {
    f.acked + (if Response(f).Some? then 1 else 0) < |f.tokens|
  }

  /** MD is promised exactly when another unacknowledged payload exists. */
  lemma MoreIsExact(f: Fifo)
    requires Sound(f)
    ensures More(f) <==> exists id: nat :: Waiting(f, id) && Response(f) != Some(id)
  {
    if More(f) {
      assert Waiting(f, if Response(f).Some? then f.acked + 1 else f.acked);
    }
  }

  function Released(f: Fifo): Fifo {
    f.(acked := if f.onAir == Head then f.acked + 1 else f.acked, onAir := Nothing)
  }

  function SelectError(f: Fifo, ack: bool): Option<TxError> {
    if f.planned then Some(ResponsePlanAlreadyPending)
    else if ack && f.onAir == Nothing then Some(AckWithoutOutstandingResponse)
    else None
  }

  function AfterAck(f: Fifo, ack: bool): Fifo {
    if ack then Released(f) else f
  }

  /** The planned response went on air. */
  function FifoComplete(f: Fifo): Fifo {
    f.(planned := false,
       onAir := if f.onAir != Nothing then f.onAir else if f.acked < |f.tokens| then Head else EmptyPdu)
  }

  function FifoAbort(f: Fifo): Fifo {
    f.(planned := false)
  }

  /** The decision for a peer that does or does not acknowledge, in terms of the FIFO. */
  ghost predicate Decides(d: Decision, f: Fifo, ack: bool) {
    var g := AfterAck(f, ack);
    && d.responseIsRetry == (g.onAir != Nothing)
    && Names(d.responseToken, Response(g), f.tokens)
    && d.acknowledgedResponse == ack
    && Names(d.acknowledgedToken, if ack then AirPayload(f) else None, f.tokens)
    && d.morePayloadsAfterResponse == More(g)
  }

  ghost predicate Names(token: Option<Token>, payload: Option<nat>, ownerTokens: seq<u32>) {
    && (token.Some? <==> payload.Some?)
    && (token.Some? ==> token.value.payloadId == payload.value < |ownerTokens|
                        && token.value.ownerToken == ownerTokens[payload.value])
  }

  /** A decision names the payload that was acknowledged and the one to send. */
  lemma DecisionNamesPayloads(d: Decision, f: Fifo, ack: bool)
    requires Sound(f) && SelectError(f, ack) == None && Decides(d, f, ack)
    ensures ack && f.onAir == Head ==>
      d.acknowledgedToken.Some? && d.acknowledgedToken.value.payloadId == f.acked
      && d.acknowledgedToken.value.ownerToken == f.tokens[f.acked]
    ensures var next := if ack && f.onAir == Head then f.acked + 1 else f.acked;
      if !ack && f.onAir == EmptyPdu then d.responseToken == None
      else if next < |f.tokens| then
        d.responseToken.Some? && d.responseToken.value.payloadId == next
        && d.responseToken.value.ownerToken == f.tokens[next]
      else d.responseToken == None
    ensures d.responseIsRetry <==> !ack && f.onAir != Nothing
  {
  }

  function NextGeneration(g: u8): u8 {
    if g == 255 then 0 else g + 1
  }

  function Index(slot: Slot): nat {
    if slot == Slot0 then 0 else 1
  }

  function Other(slot: Slot): Slot {
    if slot == Slot0 then Slot1 else Slot0
  }

  function StagedSlot(slots: seq<Option<Token>>): Option<Slot>
    requires |slots| == 2
  {
    match (slots[0], slots[1])
    case (Some(left), Some(right)) => if right.payloadId < left.payloadId then Some(Slot1) else Some(Slot0)
    case (Some(_), None) => Some(Slot0)
    case (None, Some(_)) => Some(Slot1)
    case (None, None) => None
  }

  /** The slots hold exactly the payloads `acked` to `next - 1`, and none is unstaged while both are free. */
  ghost predicate Rolling(slots: seq<Option<Token>>, acked: nat, next: nat, count: nat) {
    && |slots| == 2 && acked <= next <= count
    && next - acked == (if slots[0].Some? then 1 else 0) + (if slots[1].Some? then 1 else 0)
    && Between(slots[0], acked, next) && Between(slots[1], acked, next)
    && (slots[0].Some? && slots[1].Some? ==> slots[0].value.payloadId != slots[1].value.payloadId)
    && (acked == next ==> next == count)
  }

  predicate Between(token: Option<Token>, low: nat, high: nat) {
    token.Some? ==> low <= token.value.payloadId < high
  }

  ghost function At(slots: seq<Option<Token>>, s: Slot): Option<Token>
    requires |slots| == 2
  {
    slots[Index(s)]
  }

  ghost predicate Holds(slots: seq<Option<Token>>, s: Slot)
    requires |slots| == 2
  {
    At(slots, s).Some?
  }

  /** Payloads alternate between the slots; `lead` is 1 when an Empty PDU held slot 0 first. */
  function SlotOf(id: nat, lead: nat): Slot {
    if (id + lead) % 2 == 0 then Slot0 else Slot1
  }

  function GenerationOf(id: nat, lead: nat): nat {
    (id + lead) / 2
  }

  /** Over a whole run no two payloads share a slot and generation. */
  lemma PlacementIsInjective(i: nat, j: nat, lead: nat)
    ensures SlotOf(i, lead) == SlotOf(j, lead) && GenerationOf(i, lead) == GenerationOf(j, lead) <==> i == j
  {
    assert i + lead == 2 * GenerationOf(i, lead) + (i + lead) % 2;
    assert j + lead == 2 * GenerationOf(j, lead) + (j + lead) % 2;
  }

  /** A staged token keeps its owner and sits where its payload belongs. */
  ghost predicate Identified(token: Option<Token>, s: Slot, tokens: seq<u32>, lead: nat) {
    token.Some? ==>
      var t := token.value;
      && t.payloadId < |tokens| && t.ownerToken == tokens[t.payloadId]
      && s == SlotOf(t.payloadId, lead) && t.generation == GenerationOf(t.payloadId, lead)
  }

  /** Placed tokens of one slot with equal generations are equal. */
  lemma GenerationsNeverRepeat(earlier: seq<Option<Token>>, later: seq<Option<Token>>, s: Slot, tokens: seq<u32>,
                               lead: nat)
    requires |earlier| == 2 && |later| == 2 && Holds(earlier, s) && Holds(later, s)
    requires Identified(At(earlier, s), s, tokens, lead) && Identified(At(later, s), s, tokens, lead)
    ensures At(earlier, s).value.generation == At(later, s).value.generation <==> At(earlier, s) == At(later, s)
  {
    PlacementIsInjective(At(earlier, s).value.payloadId, At(later, s).value.payloadId, lead);
  }

  /** The next refill of each slot gets the generation of the payload that will land there. */
  ghost predicate InStep(generations: seq<u8>, next: nat, lead: nat) {
    && |generations| == 2
    && generations[Index(SlotOf(next, lead))] == GenerationOf(next, lead) - 1
    && generations[Index(SlotOf(next + 1, lead))] == GenerationOf(next + 1, lead) - 1
  }

  lemma RollingHead(slots: seq<Option<Token>>, acked: nat, next: nat, count: nat)
    requires Rolling(slots, acked, next, count)
    ensures StagedSlot(slots).Some? <==> acked < count
    ensures StagedSlot(slots).Some? ==>
      var s := StagedSlot(slots).value;
      && At(slots, s).Some? && At(slots, s).value.payloadId == acked
      && (Holds(slots, Other(s)) <==> acked + 1 < next)
    ensures StagedSlot(slots) == None ==> slots == [None, None]
  {
  }

  lemma RollingRelease(slots: seq<Option<Token>>, s: Slot, acked: nat, next: nat, count: nat)
    requires Rolling(slots, acked, next, count)
    requires Holds(slots, s) && At(slots, s).value.payloadId == acked
    requires Holds(slots, Other(s)) || next == count
    ensures Rolling(slots[Index(s) := None], acked + 1, next, count)
  {
  }

  lemma RollingRefill(slots: seq<Option<Token>>, s: Slot, token: Token, acked: nat, next: nat, count: nat)
    requires Rolling(slots, acked, next, count) && next < count
    requires At(slots, s) == None && token.payloadId == next
    ensures Rolling(slots[Index(s) := Some(token)], acked, next + 1, count)
  {
  }

  lemma InStepRefill(generations: seq<u8>, next: nat, lead: nat)
    requires InStep(generations, next, lead) && next + lead < 200
    ensures InStep(generations[Index(SlotOf(next, lead)) := GenerationOf(next, lead)], next + 1, lead)
  {
  }

  /** The slot that is free while payloads remain is the one the next payload belongs in. */
  lemma FreeSlotIsNext(local: seq<Option<Token>>, s: Slot, tokens: seq<u32>, head: nat, next: nat, count: nat,
                       lead: nat)
    requires Rolling(local, head, next, count) && next < count
    requires Identified(local[0], Slot0, tokens, lead) && Identified(local[1], Slot1, tokens, lead)
    requires At(local, Other(s)) == None
    ensures SlotOf(next, lead) == Other(s)
  {
  }

  class ConnectionEventTxState {
    var slots: seq<Option<Token>>
    var generations: seq<u8>
    var outstanding: Option<Outstanding>
    var planned: Option<Decision>
    var payloadCount: u8
    var nextPayloadId: u8
    var ownerTokens: seq<u32>
    var lastReleasedSlot: Slot
    /** Payloads acknowledged so far. */
    ghost var acked: nat
    /** Whether the run began with an Empty PDU outstanding in slot 0. */
    ghost var lead: nat

    ghost predicate OutstandingOk(o: Outstanding)
      requires |slots| == 2
      reads this
    {
      && At(slots, o.slot) == o.token
      && (o.token.Some? ==>
            && o.token.value.payloadId == acked
            && (Holds(slots, Other(o.slot)) || nextPayloadId == payloadCount))
    }

    ghost predicate PlanOk(d: Decision)
      requires |slots| == 2 && |generations| == 2
      reads this
    {
      if outstanding.Some? then
        && d.responseSlot == outstanding.value.slot && d.responseToken == outstanding.value.token
        && d.refillAfterTransmit == None
      else
        FreshPlan(d, slots, acked)
    }

    /** A response from `local` whose first payload is `head`. */
    ghost predicate FreshPlan(d: Decision, local: seq<Option<Token>>, head: nat)
      requires |local| == 2 && |generations| == 2
      reads this
    {
      && d.responseToken == At(local, d.responseSlot)
      && (if d.responseToken.Some? then d.responseToken.value.payloadId == head else local == [None, None])
      && (if d.refillAfterTransmit.Some? then
            && d.refillAfterTransmit.value.slot == Other(d.responseSlot)
            && !Holds(local, Other(d.responseSlot))
            && nextPayloadId < payloadCount && nextPayloadId < |ownerTokens|
            && d.refillAfterTransmit.value.token == Token(nextPayloadId, ownerTokens[nextPayloadId],
                 NextGeneration(generations[Index(Other(d.responseSlot))]))
          else
            Holds(local, Other(d.responseSlot)) || nextPayloadId == payloadCount)
    }

    /** The staged payloads, whatever is outstanding or planned. */
    ghost predicate SlotsOk()
      reads this
    {
      && |generations| == 2 && |ownerTokens| == MAX_PAYLOADS && payloadCount <= MAX_PAYLOADS
      && Rolling(slots, acked, nextPayloadId, payloadCount)
      && lead <= 1
      && Identified(slots[0], Slot0, ownerTokens, lead) && Identified(slots[1], Slot1, ownerTokens, lead)
      && (nextPayloadId < payloadCount ==> InStep(generations, nextPayloadId, lead))
    }

    ghost predicate Valid()
      reads this
    {
      && SlotsOk()
      && (outstanding.Some? ==> OutstandingOk(outstanding.value))
      && (planned.Some? ==> PlanOk(planned.value))
    }

    /** Between any two states of a run, a slot repeats a generation only for the same token. */
    twostate lemma TokensNeverRepeat(s: Slot)
      requires old(Valid()) && Valid() && ownerTokens == old(ownerTokens) && lead == old(lead)
      requires old(Holds(slots, s)) && Holds(slots, s)
      ensures At(slots, s).value.generation == old(At(slots, s)).value.generation <==>
        At(slots, s) == old(At(slots, s))
    {
      GenerationsNeverRepeat(old(slots), slots, s, ownerTokens, lead);
    }

    /** The FIFO this state stands for. */
    ghost function View(): Fifo
      requires Valid()
      reads this
    {
      Fifo(ownerTokens[..payloadCount], acked,
           if outstanding == None then Nothing else if outstanding.value.token == None then EmptyPdu else Head,
           planned.Some?)
    }

    constructor FromOwnerTokens(tokens: seq<u32>, count: u8)
      requires |tokens| == MAX_PAYLOADS && count <= MAX_PAYLOADS
      ensures Valid()
      ensures View() == Fifo(tokens[..count], 0, Nothing, false)
      ensures count > 0 ==> slots[0] == Some(Token(0, tokens[0], 0))
      ensures generations == [0, 0]
    {
      slots := [if count >= 1 then Some(Token(0, tokens[0], 0)) else None,
                if count >= 2 then Some(Token(1, tokens[1], 0)) else None];
      generations := [0, 0];
      outstanding, planned := None, None;
      payloadCount := count;
      nextPayloadId := if count > 1 then 2 else count;
      ownerTokens := tokens;
      lastReleasedSlot := Slot0;
      acked, lead := 0, 0;
    }

    /** Payloads that are their own owner tokens, at most eight. */
    static method New(payloadCount: u8) returns (state: ConnectionEventTxState)
      ensures fresh(state) && state.Valid()
      ensures var count := Min(payloadCount, MAX_PAYLOADS);
        state.View() == Fifo(seq(count, i => i), 0, Nothing, false)
    {
      var boundedCount := Min(payloadCount, MAX_PAYLOADS);
      var tokens: seq<u32> := seq(MAX_PAYLOADS, _ => 0);
      for payloadId := 0 to boundedCount
        invariant |tokens| == MAX_PAYLOADS && tokens[..payloadId] == seq(payloadId, i => i)
      {
        tokens := tokens[payloadId := payloadId];
        assert tokens[..payloadId + 1] == tokens[..payloadId] + [payloadId];
      }
      state := new ConnectionEventTxState.FromOwnerTokens(tokens, boundedCount);
    }

    static method NewWithOwnerTokens(tokens: seq<u32>) returns (r: Result<ConnectionEventTxState, TxError>)
      ensures |tokens| > MAX_PAYLOADS ==> r == Err(TooManyPayloads)
      ensures |tokens| <= MAX_PAYLOADS ==>
        r.Ok? && fresh(r.value)
        && r.value.Valid() && r.value.View() == Fifo(tokens, 0, Nothing, false)
        && (tokens != [] ==> r.value.slots[0] == Some(Token(0, tokens[0], 0)))
        && r.value.generations == [0, 0]
    {
      if |tokens| > MAX_PAYLOADS {
        return Err(TooManyPayloads);
      }
      var copied := tokens + seq(MAX_PAYLOADS - |tokens|, _ => 0);
      assert copied[..|tokens|] == tokens;
      var state := new ConnectionEventTxState.FromOwnerTokens(copied, |tokens|);
      r := Ok(state);
    }

    /** Resume an outstanding Empty PDU in slot 0; only payload 0 is staged, in slot 1. */
    static method WithEmptyRetry(tokens: seq<u32>) returns (r: Result<ConnectionEventTxState, TxError>)
      ensures |tokens| > MAX_PAYLOADS ==> r == Err(TooManyPayloads)
      ensures |tokens| <= MAX_PAYLOADS ==>
        r.Ok? && fresh(r.value)
        && r.value.Valid() && r.value.View() == Fifo(tokens, 0, EmptyPdu, false)
    {
      r := NewWithOwnerTokens(tokens);
      if r.Ok? {
        var state := r.value;
        state.slots := [None, state.slots[0]];
        state.nextPayloadId := if tokens == [] then 0 else 1;
        state.outstanding := Some(Outstanding(Slot0, None));
        state.lead := 1;
      }
    }

    /** `d` is the FIFO's decision and, once the acknowledgement is committed, a plan for these slots. */
    ghost predicate Chosen(d: Decision, ack: bool)
      requires Valid() && (ack ==> outstanding.Some?)
      reads this
    {
      Decides(d, View(), ack) && if ack then PlansRelease(d) else PlanOk(d)
    }

    ghost predicate PlansRelease(d: Decision)
      requires Valid() && outstanding.Some?
      reads this
    {
      var local := slots[Index(outstanding.value.slot) := None];
      var head := Released(View()).acked;
      Rolling(local, head, nextPayloadId, payloadCount) && FreshPlan(d, local, head)
    }

    /** Choose the response without granting it: both NESN cases can be prepared before reception. */
    method PreviewSelect(acknowledged: bool) returns (r: Result<Decision, TxError>)
      requires Valid()
      ensures SelectError(View(), acknowledged).Some? ==> r == Err(SelectError(View(), acknowledged).value)
      ensures SelectError(View(), acknowledged) == None ==> r.Ok? && Chosen(r.value, acknowledged)
    {
      if planned.Some? {
        return Err(ResponsePlanAlreadyPending);
      }
      var decision: Decision;
      if outstanding.Some? {
        if acknowledged {
          decision := DecideAcknowledged(outstanding.value);
        } else {
          decision := DecideRetry(outstanding.value);
        }
      } else if acknowledged {
        return Err(AckWithoutOutstandingResponse);
      } else {
        decision := PlanResponse(slots, None, lastReleasedSlot, acked);
      }
      r := Ok(decision);
    }

    method DecideRetry(o: Outstanding) returns (d: Decision)
      requires Valid() && outstanding == Some(o)
      ensures Chosen(d, false)
    {
      RollingHead(slots, acked, nextPayloadId, payloadCount);
      var more := slots[Index(Other(o.slot))].Some? || nextPayloadId < payloadCount;
      d := Decision(o.slot, o.token, true, false, None, None, more);
    }

    method DecideAcknowledged(o: Outstanding) returns (d: Decision)
      requires Valid() && outstanding == Some(o)
      ensures Chosen(d, true)
    {
      var local := slots[Index(o.slot) := None];
      ghost var head := Released(View()).acked;
      ReleaseRolls();
      var plan := PlanResponse(local, Some(o.slot), o.slot, head);
      d := plan.(acknowledgedResponse := true, acknowledgedToken := o.token);
      ReleaseDecides(d, plan);
    }

    lemma ReleaseRolls()
      requires Valid() && outstanding.Some?
      ensures var local := slots[Index(outstanding.value.slot) := None];
        && Rolling(local, Released(View()).acked, nextPayloadId, payloadCount)
        && Owned(local[0]) && Owned(local[1])
    {
      var o := outstanding.value;
      if o.token.Some? {
        RollingRelease(slots, o.slot, acked, nextPayloadId, payloadCount);
      } else {
        assert slots[Index(o.slot) := None] == slots;
      }
    }

    lemma ReleaseDecides(d: Decision, plan: Decision)
      requires Valid() && outstanding.Some?
      requires d == plan.(acknowledgedResponse := true, acknowledgedToken := outstanding.value.token)
      requires !plan.responseIsRetry
      requires var head := Released(View()).acked;
        && Names(plan.responseToken, if head < payloadCount then Some(head) else None, ownerTokens[..payloadCount])
        && (plan.morePayloadsAfterResponse <==> head + 1 < payloadCount)
      ensures Decides(d, View(), true)
    {
    }

    ghost predicate Owned(token: Option<Token>)
      reads this
    {
      token.Some? ==> token.value.payloadId < |ownerTokens|
                      && token.value.ownerToken == ownerTokens[token.value.payloadId]
    }

    /** Respond with the first payload of `local`, refilling the free slot if payloads remain. */
    method PlanResponse(local: seq<Option<Token>>, released: Option<Slot>, lastReleased: Slot, ghost head: nat)
      returns (d: Decision)
      requires SlotsOk() && Rolling(local, head, nextPayloadId, payloadCount)
      requires released.Some? ==> lastReleased == released.value && At(local, released.value) == None
      requires Owned(local[0]) && Owned(local[1])
      ensures FreshPlan(d, local, head) && !d.responseIsRetry && !d.acknowledgedResponse && d.acknowledgedToken == None
      ensures Names(d.responseToken, if head < payloadCount then Some(head) else None, ownerTokens[..payloadCount])
      ensures d.morePayloadsAfterResponse <==> head + 1 < payloadCount
    {
      RollingHead(local, head, nextPayloadId, payloadCount);
      var releasedSlot := released;
      var staged := StagedSlot(local);
      var responseSlot := if staged.Some? then staged.value else lastReleased;
      var responseToken := local[Index(responseSlot)];
      var refill: Option<Refill> := None;
      if releasedSlot == None && local[Index(Other(responseSlot))] == None {
        releasedSlot := Some(Other(responseSlot));
      }
      if releasedSlot.Some? && nextPayloadId < payloadCount {
        var index := Index(releasedSlot.value);
        refill := Some(Refill(releasedSlot.value,
          Token(nextPayloadId, ownerTokens[nextPayloadId], NextGeneration(generations[index]))));
      }
      var more := local[Index(Other(responseSlot))].Some? || refill.Some? || nextPayloadId < payloadCount;
      d := Decision(responseSlot, responseToken, false, false, None, refill, more);
    }

    /** Observe the peer's NESN, release an acknowledged payload and plan the response. */
    method Select(acknowledged: bool) returns (r: Result<Decision, TxError>)
      requires Valid()
      modifies this
      ensures Valid() && ownerTokens == old(ownerTokens) && lead == old(lead)
      ensures SelectError(old(View()), acknowledged).Some? ==>
        r == Err(SelectError(old(View()), acknowledged).value)
        && View() == old(View()) && planned == old(planned)
      ensures SelectError(old(View()), acknowledged) == None ==>
        r.Ok? && Decides(r.value, old(View()), acknowledged)
        && View() == AfterAck(old(View()), acknowledged).(planned := true) && planned == Some(r.value)
      ensures r.Ok? && r.value.refillAfterTransmit.Some? ==>
        r.value.refillAfterTransmit.value.slot != r.value.responseSlot
    {
      r := PreviewSelect(acknowledged);
      if r.Err? {
        return;
      }
      var decision := r.value;
      if decision.acknowledgedResponse {
        var freed := outstanding.value.slot;
        acked := Released(View()).acked;
        outstanding := None;
        slots := slots[Index(freed) := None];
        lastReleasedSlot := freed;
      }
      planned := Some(decision);
    }

    lemma PlanCommits(d: Decision)
      requires Valid() && planned == Some(d)
      ensures outstanding.Some? ==> outstanding == Some(Outstanding(d.responseSlot, d.responseToken))
      ensures At(slots, d.responseSlot) == d.responseToken
      ensures FifoComplete(View()).onAir == if d.responseToken == None then EmptyPdu else Head
      ensures d.responseToken.Some? ==> d.responseToken.value.payloadId == acked
      ensures d.refillAfterTransmit.Some? ==>
        var refill := d.refillAfterTransmit.value;
        && refill.slot == Other(d.responseSlot) && At(slots, refill.slot) == None
        && nextPayloadId < payloadCount
        && refill.token == Token(nextPayloadId, ownerTokens[nextPayloadId],
                                 NextGeneration(generations[Index(refill.slot)]))
      ensures d.refillAfterTransmit == None && d.responseToken.Some? ==>
        Holds(slots, Other(d.responseSlot)) || nextPayloadId == payloadCount
    {
    }

    /** Commit one response after its physical transmission; only the planned decision commits. */
    method CompleteTransmit(decision: Decision) returns (r: Outcome<TxError>)
      requires Valid()
      modifies this
      ensures Valid() && ownerTokens == old(ownerTokens) && lead == old(lead)
      ensures old(planned) == Some(decision) ==> r == Pass && View() == FifoComplete(old(View()))
      ensures old(planned) != Some(decision) ==>
        r == Fail(CompletionDoesNotMatchDecision) && View() == old(View()) && planned == old(planned)
    {
      if planned != Some(decision) {
        return Fail(CompletionDoesNotMatchDecision);
      }
      PlanCommits(decision);
      if outstanding.Some?
        && (outstanding.value.slot != decision.responseSlot || outstanding.value.token != decision.responseToken) {
        return Fail(CompletionDoesNotMatchDecision);
      }
      if decision.refillAfterTransmit.Some? {
        var refill := decision.refillAfterTransmit.value;
        var index := Index(refill.slot);
        if slots[index].Some? || refill.token.payloadId != nextPayloadId
          || refill.token.generation != NextGeneration(generations[index])
          || refill.token.payloadId >= |ownerTokens|
          || ownerTokens[refill.token.payloadId] != refill.token.ownerToken {
          return Fail(CompletionDoesNotMatchDecision);
        }
      }
      planned := None;
      outstanding := Some(Outstanding(decision.responseSlot, decision.responseToken));
      if decision.refillAfterTransmit.Some? {
        StageRefill(decision.refillAfterTransmit.value);
      }
      r := Pass;
    }

    method StageRefill(refill: Refill)
      requires SlotsOk() && nextPayloadId < payloadCount
      requires At(slots, refill.slot) == None
      requires refill.token == Token(nextPayloadId, ownerTokens[nextPayloadId],
                                     NextGeneration(generations[Index(refill.slot)]))
      modifies this`slots, this`generations, this`nextPayloadId
      ensures SlotsOk() && nextPayloadId == old(nextPayloadId) + 1
      ensures slots == old(slots)[Index(refill.slot) := Some(refill.token)]
    {
      RollingRefill(slots, refill.slot, refill.token, acked, nextPayloadId, payloadCount);
      FreeSlotIsNext(slots, Other(refill.slot), ownerTokens, acked, nextPayloadId, payloadCount, lead);
      InStepRefill(generations, nextPayloadId, lead);
      var index := Index(refill.slot);
      generations := generations[index := refill.token.generation];
      slots := slots[index := Some(refill.token)];
      nextPayloadId := nextPayloadId + 1;
    }

    /** Drop a plan whose response did not go on air; only the planned decision is dropped. */
    method AbortTransmit(decision: Decision) returns (r: Outcome<TxError>)
      requires Valid()
      modifies this`planned
      ensures Valid() && lead == old(lead)
      ensures old(planned) == Some(decision) ==> r == Pass && View() == FifoAbort(old(View()))
      ensures old(planned) != Some(decision) ==>
        r == Fail(CompletionDoesNotMatchDecision) && View() == old(View()) && planned == old(planned)
    {
      if planned != Some(decision) {
        return Fail(CompletionDoesNotMatchDecision);
      }
      planned := None;
      r := Pass;
    }
  }
}
