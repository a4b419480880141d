/** The two-slot owner and the sequence bits against a Central over a lossy link. */
module TwoSlotLink {
  import opened Octets
  import opened Wrappers
  import opened Sequence
  import opened TwoSlot

  /** A Central that obeys SN/NESN: its bits, what it accepted, and how many of its PDUs are acknowledged. */
  datatype Central = Central(bits: SequenceBits, accepted: seq<u32>, index: nat)

  /** `received` lists the Central PDUs the Peripheral accepted, by their index. */
  datatype Link = Link(fifo: Fifo, bits: SequenceBits, received: seq<nat>, central: Central, broken: bool)

  datatype Fate = Aborted | AiredUnheard | AiredHeard

  /** One Central packet and the response to it; the staged headers carry arbitrary other bits. */
  datatype Leg = Lost | Heard(centralStaged: u8, responseStaged: u8, centralMore: bool, fate: Fate)

  /** The Central receives a response that carries `token`, or an Empty PDU. */
  function CentralHears(c: Central, nesn: bool, sn: bool, token: Option<u32>): Central {
    Central(
      Observed(c.bits, nesn, sn),
      if Accepts(c.bits, sn) && token.Some? then c.accepted + [token.value] else c.accepted,
      if Acknowledges(c.bits, nesn) then c.index + 1 else c.index)
  }

  function ResponseToken(f: Fifo): Option<u32> {
    if Response(f).Some? && Response(f).value < |f.tokens| then Some(f.tokens[Response(f).value]) else None
  }

  /** The Peripheral observes a Central packet and selects its response. */
  function Serve(s: Link, nesn: bool, sn: bool): Link {
    var ack := Acknowledges(s.bits, nesn);
    Link(
      if SelectError(s.fifo, ack).Some? then s.fifo else AfterAck(s.fifo, ack).(planned := true),
      Observed(s.bits, nesn, sn),
      if Accepts(s.bits, sn) then s.received + [s.central.index] else s.received,
      s.central,
      s.broken || SelectError(s.fifo, ack).Some?)
  }

  /** The planned response is aborted, or goes on air with the given sequence bits. */
  function Respond(s: Link, fate: Fate, nesn: bool, sn: bool): Link {
    if fate == Aborted then s.(fifo := FifoAbort(s.fifo))
    else s.(fifo := FifoComplete(s.fifo),
            central := if fate == AiredHeard then CentralHears(s.central, nesn, sn, ResponseToken(s.fifo))
                       else s.central)
  }

  function Step(s: Link, leg: Leg): Link {
    if leg.Lost? then s
    else
      var header := ResponseHeader(s.central.bits, leg.centralStaged, leg.centralMore);
      var served := Serve(s, Nesn(header), Sn(header));
      if served.broken then served
      else
        var response := ResponseHeader(served.bits, leg.responseStaged, More(served.fifo));
        Respond(served, leg.fate, Nesn(response), Sn(response))
  }

  function Run(s: Link, legs: seq<Leg>): Link {
    if legs == [] then s else Step(Run(s, legs[..|legs| - 1]), legs[|legs| - 1])
  }

  /** The Central has accepted the response that is on air. */
  predicate Ahead(s: Link) {
    s.central.bits.expected != s.bits.transmit
  }

  /** The Peripheral has accepted the Central's current PDU. */
  predicate CentralBehind(s: Link) {
    s.bits.expected != s.central.bits.transmit
  }

  ghost predicate Inv(s: Link, tokens: seq<u32>) {
    && !s.broken && s.fifo.tokens == tokens && Sound(s.fifo) && !s.fifo.planned
    && (Ahead(s) ==> s.fifo.onAir != Nothing)
    && s.central.accepted == tokens[..s.fifo.acked + (if Ahead(s) && s.fifo.onAir == Head then 1 else 0)]
    && |s.received| == s.central.index + (if CentralBehind(s) then 1 else 0)
    && (forall i :: 0 <= i < |s.received| ==> s.received[i] == i)
  }

  /**
   * A run starts with nothing on air, or behind an outstanding Empty PDU that the Central may
   * already have accepted; the Peripheral may already have accepted the Central's current PDU.
   */
  function Start(tokens: seq<u32>, bits: SequenceBits, emptyRetry: bool, emptyHeard: bool, currentHeard: bool): Link {
    Link(Fifo(tokens, 0, if emptyRetry then EmptyPdu else Nothing, false), bits,
         if currentHeard then [0] else [],
         Central(SequenceBits(bits.expected != currentHeard, bits.transmit != (emptyRetry && emptyHeard)), [], 0),
         false)
  }

  /** Between the Central packet and the response: what is on air has been acknowledged or stays. */
  ghost predicate Served(s: Link, tokens: seq<u32>) {
    s.fifo.planned && Inv(s.(fifo := FifoAbort(s.fifo)), tokens)
  }

  lemma ServeEstablishes(s: Link, tokens: seq<u32>)
    requires Inv(s, tokens)
    ensures Served(Serve(s, s.central.bits.expected, s.central.bits.transmit), tokens)
  {
  }

  lemma RespondPreserves(s: Link, fate: Fate, tokens: seq<u32>)
    requires Served(s, tokens)
    ensures Inv(Respond(s, fate, s.bits.expected, s.bits.transmit), tokens)
  {
    var k := s.fifo.acked;
    if k < |tokens| {
      assert tokens[..k + 1] == tokens[..k] + [tokens[k]];
    }
  }

  lemma StepPreserves(s: Link, leg: Leg, tokens: seq<u32>)
    requires Inv(s, tokens)
    ensures Inv(Step(s, leg), tokens)
  {
    if leg.Heard? {
      ResponseHeaderBits(s.central.bits, leg.centralStaged, leg.centralMore);
      ServeEstablishes(s, tokens);
      var served := Serve(s, s.central.bits.expected, s.central.bits.transmit);
      ResponseHeaderBits(served.bits, leg.responseStaged, More(served.fifo));
      RespondPreserves(served, leg.fate, tokens);
    }
  }

  lemma {:induction false} RunPreserves(s: Link, legs: seq<Leg>, tokens: seq<u32>)
    requires Inv(s, tokens)
    ensures Inv(Run(s, legs), tokens)
  {
    if legs != [] {
      RunPreserves(s, legs[..|legs| - 1], tokens);
      StepPreserves(Run(s, legs[..|legs| - 1]), legs[|legs| - 1], tokens);
    }
  }

  /**
   * Over every run: no acknowledgement arrives for nothing, the Central accepts the owner tokens in
   * order and once each, at most one ahead of the acknowledged ones, and each Central PDU is
   * accepted once and in order before the Central moves past it.
   */
  lemma OwnersReachTheCentral(tokens: seq<u32>, bits: SequenceBits, emptyRetry: bool, emptyHeard: bool,
                              currentHeard: bool, legs: seq<Leg>)
    ensures var s := Run(Start(tokens, bits, emptyRetry, emptyHeard, currentHeard), legs);
      && !s.broken
      && s.central.accepted <= tokens
      && s.fifo.acked <= |s.central.accepted| <= s.fifo.acked + 1
      && s.central.index <= |s.received| <= s.central.index + 1
      && (forall i :: 0 <= i < |s.received| ==> s.received[i] == i)
  {
    var start := Start(tokens, bits, emptyRetry, emptyHeard, currentHeard);
    assert Inv(start, tokens) by {
      assert tokens[..0] == [];
    }
    RunPreserves(start, legs, tokens);
  }

  // Progress.

  /** The Central packet arrives and the response is heard. */
  predicate Ideal(leg: Leg) {
    leg.Heard? && leg.fate == AiredHeard
  }

  /** The ideal legs that are enough for the Central to accept every token. */
  function Missing(s: Link, tokens: seq<u32>): int {
    |tokens| - |s.central.accepted| + (if s.fifo.onAir == EmptyPdu && !Ahead(s) then 1 else 0)
  }

  lemma IdealLegProgresses(s: Link, leg: Leg, tokens: seq<u32>)
    requires Inv(s, tokens) && Ideal(leg)
    ensures var after := Step(s, leg);
      && Inv(after, tokens) && Ahead(after)
      && (Missing(s, tokens) > 0 ==> Missing(after, tokens) == Missing(s, tokens) - 1)
      && (Missing(s, tokens) == 0 ==> Missing(after, tokens) == 0)
      && (Missing(s, tokens) == 0 && Ahead(s) ==> after.fifo.acked == |tokens|)
  {
    StepPreserves(s, leg, tokens);
    ResponseHeaderBits(s.central.bits, leg.centralStaged, leg.centralMore);
    ServeEstablishes(s, tokens);
    var served := Serve(s, s.central.bits.expected, s.central.bits.transmit);
    ResponseHeaderBits(served.bits, leg.responseStaged, More(served.fifo));
  }

  lemma {:induction false} IdealLegsDeliver(s: Link, legs: seq<Leg>, tokens: seq<u32>)
    requires Inv(s, tokens) && forall i :: 0 <= i < |legs| ==> Ideal(legs[i])
    ensures var after := Run(s, legs);
      && Inv(after, tokens) && 0 <= Missing(after, tokens) && (legs != [] ==> Ahead(after))
      && (Missing(after, tokens) == 0 || Missing(after, tokens) + |legs| == Missing(s, tokens))
      && (|legs| >= Missing(s, tokens) + 2 ==> after.fifo.acked == |tokens|)
  {
    if legs != [] {
      var n := |legs| - 1;
      IdealLegsDeliver(s, legs[..n], tokens);
      IdealLegProgresses(Run(s, legs[..n]), legs[n], tokens);
    }
  }

  /**
   * From every start, as many ideal legs as there are tokens, and one more for an outstanding Empty PDU, bring
   * every token to the Central; two more acknowledge them all.
   */
  lemma OwnersGetThrough(tokens: seq<u32>, bits: SequenceBits, emptyRetry: bool, emptyHeard: bool,
                         currentHeard: bool, legs: seq<Leg>)
    requires forall i :: 0 <= i < |legs| ==> Ideal(legs[i])
    ensures var s := Run(Start(tokens, bits, emptyRetry, emptyHeard, currentHeard), legs);
      && (|legs| >= |tokens| + 1 ==> s.central.accepted == tokens)
      && (|legs| >= |tokens| + 3 ==> s.fifo.acked == |tokens|)
  {
    var start := Start(tokens, bits, emptyRetry, emptyHeard, currentHeard);
    assert Inv(start, tokens) by {
      assert tokens[..0] == [];
    }
    IdealLegsDeliver(start, legs, tokens);
  }

  // The objects driven through a run.

  /** The planned decision is the FIFO's. */
  ghost predicate Planned(tx: ConnectionEventTxState, d: Decision)
    reads tx
  {
    && tx.Valid() && tx.planned == Some(d)
    && d.morePayloadsAfterResponse == More(tx.View())
    && (if d.responseToken.Some? then Some(d.responseToken.value.ownerToken) else None) == ResponseToken(tx.View())
  }

  /** Observe the Central's header and select the response. */
  method ServePacket(tx: ConnectionEventTxState, sequence: DataSequenceState, header: u8, central: Central,
                     received: seq<nat>) returns (decision: Decision, receivedAfter: seq<nat>)
    requires tx.Valid() && sequence.Valid()
    requires SelectError(tx.View(), Acknowledges(sequence.State(), Nesn(header))) == None
    modifies tx, sequence
    ensures sequence.Valid() && Planned(tx, decision)
    ensures Link(tx.View(), sequence.State(), receivedAfter, central, false)
         == Serve(old(Link(tx.View(), sequence.State(), received, central, false)), Nesn(header), Sn(header))
  {
    var observation := sequence.Observe(header);
    receivedAfter := if observation.acceptedReceive then received + [central.index] else received;
    var selected := tx.Select(observation.acknowledgedTransmit);
    decision := selected.value;
  }

  /** Abort the planned response, or commit it and let the Central hear it. */
  method RespondWith(tx: ConnectionEventTxState, decision: Decision, fate: Fate, response: u8, central: Central,
                     ghost bits: SequenceBits, ghost received: seq<nat>) returns (centralAfter: Central)
    requires Planned(tx, decision)
    modifies tx
    ensures tx.Valid()
    ensures Link(tx.View(), bits, received, centralAfter, false)
         == Respond(old(Link(tx.View(), bits, received, central, false)), fate, Nesn(response), Sn(response))
  {
    centralAfter := central;
    if fate == Aborted {
      var _ := tx.AbortTransmit(decision);
    } else {
      var _ := tx.CompleteTransmit(decision);
      if fate == AiredHeard {
        var token := if decision.responseToken.Some? then Some(decision.responseToken.value.ownerToken) else None;
        centralAfter := CentralHears(central, Nesn(response), Sn(response), token);
      }
    }
  }

  /** One leg: serve the Central's packet, patch the response header, then commit or abort. */
  method ServeLeg(tx: ConnectionEventTxState, sequence: DataSequenceState, leg: Leg, central: Central,
                  received: seq<nat>) returns (centralAfter: Central, receivedAfter: seq<nat>)
    requires tx.Valid() && sequence.Valid()
    requires Inv(Link(tx.View(), sequence.State(), received, central, false), tx.View().tokens)
    modifies tx, sequence
    ensures tx.Valid() && sequence.Valid()
    ensures Link(tx.View(), sequence.State(), receivedAfter, centralAfter, false)
         == Step(old(Link(tx.View(), sequence.State(), received, central, false)), leg)
  {
    centralAfter, receivedAfter := central, received;
    if leg.Heard? {
      ResponseHeaderBits(central.bits, leg.centralStaged, leg.centralMore);
      var header := ResponseHeader(central.bits, leg.centralStaged, leg.centralMore);
      var decision;
      decision, receivedAfter := ServePacket(tx, sequence, header, central, received);
      var response := sequence.PatchHeader(leg.responseStaged, decision.morePayloadsAfterResponse);
      centralAfter := RespondWith(tx, decision, leg.fate, response, central, sequence.State(), receivedAfter);
    }
  }

  /** The objects follow the run of their values, so its guarantees hold of them. */
  method ServeLegs(tx: ConnectionEventTxState, sequence: DataSequenceState, legs: seq<Leg>, central: Central,
                   received: seq<nat>) returns (centralAfter: Central, receivedAfter: seq<nat>)
    requires tx.Valid() && sequence.Valid()
    requires Inv(Link(tx.View(), sequence.State(), received, central, false), tx.View().tokens)
    modifies tx, sequence
    ensures tx.Valid() && sequence.Valid()
    ensures Link(tx.View(), sequence.State(), receivedAfter, centralAfter, false)
         == Run(old(Link(tx.View(), sequence.State(), received, central, false)), legs)
  {
    ghost var start := Link(tx.View(), sequence.State(), received, central, false);
    ghost var tokens := tx.View().tokens;
    centralAfter, receivedAfter := central, received;
    for n := 0 to |legs|
      invariant tx.Valid() && sequence.Valid()
      invariant Link(tx.View(), sequence.State(), receivedAfter, centralAfter, false) == Run(start, legs[..n])
      invariant Inv(Run(start, legs[..n]), tokens)
    {
      assert legs[..n + 1][..n] == legs[..n];
      StepPreserves(Run(start, legs[..n]), legs[n], tokens);
      centralAfter, receivedAfter := ServeLeg(tx, sequence, legs[n], centralAfter, receivedAfter);
    }
    assert legs[..|legs|] == legs;
  }
}
