/** The SN/NESN acknowledgement bits (section 4.5.9 of Bluetooth Core Vol 6 Part B). */
module Sequence {
  import opened Octets

  /** One participant's sequence bits: the SN of its current PDU and the SN it expects next. */
  datatype SequenceBits = SequenceBits(transmit: bool, expected: bool)

  predicate Acknowledges(s: SequenceBits, peerNesn: bool) {
    peerNesn != s.transmit
  }

  predicate Accepts(s: SequenceBits, peerSn: bool) {
    peerSn == s.expected
  }

  /** The bits after one valid peer header. */
  function Observed(s: SequenceBits, peerNesn: bool, peerSn: bool): SequenceBits {
    SequenceBits(
      if Acknowledges(s, peerNesn) then !s.transmit else s.transmit,
      if Accepts(s, peerSn) then !s.expected else s.expected)
  }

  /** Replace the NESN, SN and MD bits of a staged header. */
  function ResponseHeader(s: SequenceBits, staged: u8, more: bool): u8 {
    staged - 4 * ((staged / 4) % 8) + 4 * Bit(s.expected) + 8 * Bit(s.transmit) + 16 * Bit(more)
  }

  lemma ResponseHeaderBits(s: SequenceBits, staged: u8, more: bool)
    ensures var header := ResponseHeader(s, staged, more);
      && Nesn(header) == s.expected && Sn(header) == s.transmit && MoreData(header) == more
      && Llid(header) == Llid(staged) && header / 32 == staged / 32
  {
    var high, flags, low := staged / 32, (staged / 4) % 8, staged % 4;
    assert staged == 32 * high + 4 * flags + low;
    HeaderParts(high, Bit(s.expected) + 2 * Bit(s.transmit) + 4 * Bit(more), low);
  }

  lemma HeaderParts(high: nat, flags: nat, low: nat)
    requires flags < 8 && low < 4
    ensures var header := 32 * high + 4 * flags + low;
      && header % 4 == low && (header / 4) % 2 == flags % 2 && (header / 8) % 2 == (flags / 2) % 2
      && (header / 16) % 2 == flags / 4 && header / 32 == high
  {
    UpperBits(8 * high + flags, low);
    FlagBits(high, flags);
  }

  lemma UpperBits(upper: nat, low: nat)
    requires low < 4
    ensures var header := 4 * upper + low;
      && header % 4 == low && header / 4 == upper && header / 8 == upper / 2 && header / 16 == upper / 4
      && header / 32 == upper / 8
  {
  }

  lemma FlagBits(high: nat, flags: nat)
    requires flags < 8
    ensures var upper := 8 * high + flags;
      && upper % 2 == flags % 2 && (upper / 2) % 2 == (flags / 2) % 2 && (upper / 4) % 2 == flags / 4
      && upper / 8 == high
  {
    assert (8 * high + flags) / 2 == 4 * high + flags / 2;
    assert (8 * high + flags) / 4 == 2 * high + flags / 4;
  }

  /** Whether a peer header may acknowledge the selected owner. */
  function AcknowledgesTransmitOwner(
    peerHeader: u8, transmitSn: u8, outstandingAtEntry: bool, receivedAfterTransmit: bool): bool
  {
    (outstandingAtEntry || receivedAfterTransmit) && (peerHeader / 4) % 2 != transmitSn
  }

  datatype Observation = Observation(acknowledgedTransmit: bool, acceptedReceive: bool, peerMoreData: bool)

  class DataSequenceState {
    var transmitSn: u8
    var expectedSn: u8

    ghost predicate Valid()
      reads this
    {
      transmitSn <= 1 && expectedSn <= 1
    }

    ghost function State(): SequenceBits
      reads this
    {
      SequenceBits(transmitSn == 1, expectedSn == 1)
    }

    constructor (transmitSn: u8, expectedSn: u8)
      ensures Valid() && State() == SequenceBits(transmitSn % 2 == 1, expectedSn % 2 == 1)
    {
      this.transmitSn := transmitSn % 2;
      this.expectedSn := expectedSn % 2;
    }

    method Observe(peerHeader: u8) returns (o: Observation)
      requires Valid()
      modifies this
      ensures Valid() && State() == Observed(old(State()), Nesn(peerHeader), Sn(peerHeader))
      ensures o.acknowledgedTransmit == Acknowledges(old(State()), Nesn(peerHeader))
      ensures o.acceptedReceive == Accepts(old(State()), Sn(peerHeader))
      ensures o.peerMoreData == MoreData(peerHeader)
    {
      var peerNesn := (peerHeader / 4) % 2;
      var peerSn := (peerHeader / 8) % 2;
      var acknowledged := peerNesn != transmitSn;
      var accepted := peerSn == expectedSn;
      if acknowledged {
        transmitSn := 1 - transmitSn;
      }
      if accepted {
        expectedSn := 1 - expectedSn;
      }
      o := Observation(acknowledged, accepted, (peerHeader / 16) % 2 != 0);
    }

    method PatchHeader(stagedHeader: u8, moreData: bool) returns (header: u8)
      requires Valid()
      ensures header == ResponseHeader(State(), stagedHeader, moreData)
      ensures Nesn(header) == State().expected && Sn(header) == State().transmit
      ensures MoreData(header) == moreData && Llid(header) == Llid(stagedHeader)
    {
      ResponseHeaderBits(State(), stagedHeader, moreData);
      header := stagedHeader - 4 * ((stagedHeader / 4) % 8) + 4 * expectedSn + 8 * transmitSn;
      if moreData {
        header := header + 16;
      }
    }
  }
}
