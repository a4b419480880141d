/** Channel Selection Algorithm #1 (section 4.5.8.2 of Bluetooth Core Vol 6 Part B). */
module ChannelSelection {
  import opened Octets
  import opened Wrappers

  type ChannelMap = m: seq<u8> | |m| == 5 witness [0, 0, 0, 0, 0]

  function BitWeight(bit: nat): (w: nat)
    requires bit < 8
    ensures w > 0
  {
    match bit
    case 0 => 1
    case 1 => 2
    case 2 => 4
    case 3 => 8
    case 4 => 16
    case 5 => 32
    case 6 => 64
    case _ => 128
  }

  /** Whether data channel `channel` is enabled. */
  predicate Enabled(bitmap: ChannelMap, channel: nat)
    requires channel < 40
  {
    (bitmap[channel / 8] / BitWeight(channel % 8)) % 2 == 1
  }

  /** Set bits among the lowest `bits` of an octet. */
  function CountOnes(x: u8, bits: nat): nat
    requires bits <= 8
  {
    if bits == 0 then 0 else CountOnes(x, bits - 1) + (x / BitWeight(bits - 1)) % 2
  }

  /** Set bits of the first `octets` octets. */
  function Population(bitmap: ChannelMap, octets: nat): nat
    requires octets <= 5
  {
    if octets == 0 then 0 else Population(bitmap, octets - 1) + CountOnes(bitmap[octets - 1], 8)
  }

  predicate MapIsValid(bitmap: ChannelMap) {
    bitmap[4] < 32 && Population(bitmap, 5) >= 2
  }

  method DataChannelMapIsValid(bitmap: ChannelMap) returns (valid: bool)
    ensures valid == MapIsValid(bitmap)
  {
    if bitmap[4] / 32 != 0 {
      return false;
    }
    var used := 0;
    var index := 0;
    while index < 5
      invariant 0 <= index <= 5 && used == Population(bitmap, index)
    {
      used := used + CountOnes(bitmap[index], 8);
      index := index + 1;
    }
    return used >= 2;
  }

  /** The enabled channels below `limit`, in increasing order. */
  function UsedBelow(bitmap: ChannelMap, limit: nat): (used: seq<u8>)
    requires limit <= 40
    ensures |used| <= limit
    ensures forall i :: 0 <= i < |used| ==> used[i] < limit
  {
    if limit == 0 then []
    else if Enabled(bitmap, limit - 1) then UsedBelow(bitmap, limit - 1) + [limit - 1]
    else UsedBelow(bitmap, limit - 1)
  }

  function Used(bitmap: ChannelMap): seq<u8> {
    UsedBelow(bitmap, 37)
  }

  lemma {:induction false} UsedIsEnumeration(bitmap: ChannelMap, limit: nat)
    requires limit <= 40
    ensures var used := UsedBelow(bitmap, limit);
      && (forall i, j :: 0 <= i < j < |used| ==> used[i] < used[j])
      && (forall c: nat :: c < limit ==> (c in used <==> Enabled(bitmap, c)))
  {
    if limit > 0 {
      UsedIsEnumeration(bitmap, limit - 1);
    }
  }

  lemma {:induction false} UsedCountsBits(bitmap: ChannelMap, octets: nat)
    requires octets <= 5
    ensures |UsedBelow(bitmap, 8 * octets)| == Population(bitmap, octets)
  {
    if octets > 0 {
      UsedCountsBits(bitmap, octets - 1);
      UsedCountsOctet(bitmap, octets - 1, 8);
    }
  }

  lemma {:induction false} UsedCountsOctet(bitmap: ChannelMap, octet: nat, bits: nat)
    requires octet < 5 && bits <= 8
    ensures |UsedBelow(bitmap, 8 * octet + bits)|
         == |UsedBelow(bitmap, 8 * octet)| + CountOnes(bitmap[octet], bits)
  {
    if bits > 0 {
      UsedCountsOctet(bitmap, octet, bits - 1);
      assert (8 * octet + bits - 1) / 8 == octet && (8 * octet + bits - 1) % 8 == bits - 1;
    }
  }

  /** The table holds exactly the enabled channels, increasing, as many as the map has set bits. */
  lemma UsedTable(bitmap: ChannelMap)
    requires MapIsValid(bitmap)
    ensures |Used(bitmap)| == Population(bitmap, 5) >= 2
    ensures forall i, j :: 0 <= i < j < |Used(bitmap)| ==> Used(bitmap)[i] < Used(bitmap)[j]
    ensures forall c: nat :: c < 37 ==> (c in Used(bitmap) <==> Enabled(bitmap, c))
  {
    UsedIsEnumeration(bitmap, 37);
    UsedCountsBits(bitmap, 5);
    assert UsedBelow(bitmap, 38) == UsedBelow(bitmap, 37);
    assert UsedBelow(bitmap, 39) == UsedBelow(bitmap, 38);
    assert UsedBelow(bitmap, 40) == UsedBelow(bitmap, 39);
  }

  // The selector.

  datatype Selector = Selector(bitmap: ChannelMap, hop: nat, lastUnmapped: nat)

  predicate Sound(s: Selector) {
    MapIsValid(s.bitmap) && 5 <= s.hop <= 16 && s.lastUnmapped < 37
  }

  function Hop(s: Selector): Selector {
    s.(lastUnmapped := (s.lastUnmapped + s.hop) % 37)
  }

  /** The channel for the event whose unmapped channel is `s.lastUnmapped`. */
  function Mapped(s: Selector): nat
    requires Sound(s)
  {
    UsedTable(s.bitmap);
    if Enabled(s.bitmap, s.lastUnmapped) then s.lastUnmapped
    else Used(s.bitmap)[s.lastUnmapped % |Used(s.bitmap)|]
  }

  lemma MappedIsEnabled(s: Selector)
    requires Sound(s)
    ensures Mapped(s) < 37 && Enabled(s.bitmap, Mapped(s))
  {
    UsedTable(s.bitmap);
    if !Enabled(s.bitmap, s.lastUnmapped) {
      var used := Used(s.bitmap);
      assert used[s.lastUnmapped % |used|] in used;
    }
  }

  /** The enabled channels below `limit`. */
  function EnabledBelow(bitmap: ChannelMap, limit: nat): nat
    requires limit <= 40
  {
    if limit == 0 then 0 else EnabledBelow(bitmap, limit - 1) + if Enabled(bitmap, limit - 1) then 1 else 0
  }

  lemma {:induction false} UsedCountsBelow(bitmap: ChannelMap, limit: nat, i: nat)
    requires limit <= 40 && i < |UsedBelow(bitmap, limit)|
    ensures |UsedBelow(bitmap, limit)| == EnabledBelow(bitmap, limit)
    ensures UsedBelow(bitmap, limit)[i] < limit && EnabledBelow(bitmap, UsedBelow(bitmap, limit)[i]) == i
    ensures Enabled(bitmap, UsedBelow(bitmap, limit)[i])
  {
    var n := |UsedBelow(bitmap, limit - 1)|;
    LengthIsCount(bitmap, limit - 1);
    if i < n {
      UsedCountsBelow(bitmap, limit - 1, i);
    }
  }

  lemma {:induction false} LengthIsCount(bitmap: ChannelMap, limit: nat)
    requires limit <= 40
    ensures |UsedBelow(bitmap, limit)| == EnabledBelow(bitmap, limit)
  {
    if limit > 0 {
      LengthIsCount(bitmap, limit - 1);
    }
  }

  /**
   * Section 4.5.8.2: an enabled unmapped channel is used itself. Otherwise the remapping index is the unmapped
   * channel modulo the number of enabled channels, and that many enabled channels are lower than the one used.
   */
  lemma RemappingIndex(s: Selector)
    requires Sound(s)
    ensures if Enabled(s.bitmap, s.lastUnmapped) then Mapped(s) == s.lastUnmapped
            else Mapped(s) < 37 && Enabled(s.bitmap, Mapped(s))
                 && EnabledBelow(s.bitmap, Mapped(s)) == s.lastUnmapped % Population(s.bitmap, 5)
  {
    UsedTable(s.bitmap);
    if !Enabled(s.bitmap, s.lastUnmapped) {
      UsedCountsBelow(s.bitmap, 37, s.lastUnmapped % |Used(s.bitmap)|);
    }
  }

  function Hops(s: Selector, n: nat): (r: Selector)
    ensures r.bitmap == s.bitmap && r.hop == s.hop
    ensures Sound(s) ==> Sound(r)
  {
    if n == 0 then s else Hop(Hops(s, n - 1))
  }

  lemma ModPlus(a: nat, b: nat)
    ensures (a % 37 + b) % 37 == (a + b) % 37
  {
  }

  lemma {:induction false} PhaseAfterHops(s: Selector, n: nat)
    requires s.lastUnmapped < 37
    ensures n * s.hop >= 0
    ensures Hops(s, n).lastUnmapped == (s.lastUnmapped + n * s.hop) % 37
  {
    MulMonotone(0, n, s.hop);
    if n > 0 {
      PhaseAfterHops(s, n - 1);
      Distribute(n - 1, 1, s.hop);
      ModPlus(s.lastUnmapped + (n - 1) * s.hop, s.hop);
    }
  }

  /** No hop distance of 1 to 36 is a multiple of the prime 37. */
  lemma HopNeverReturns(hop: nat, distance: nat)
    requires 5 <= hop <= 16 && 0 < distance < 37
    ensures (distance * hop) % 37 != 0
  {
    match hop
    case 5 => case 6 => case 7 => case 8 => case 9 => case 10 =>
    case 11 => case 12 => case 13 => case 14 => case 15 => case 16 =>
  }

  lemma ModDifference(a: nat, b: nat)
    requires a <= b && a % 37 == b % 37
    ensures (b - a) % 37 == 0
  {
  }

  /** Any 37 consecutive events visit 37 distinct unmapped channels. */
  lemma ConsecutiveChannelsDistinct(s: Selector, i: nat, j: nat)
    requires Sound(s) && i < j < i + 37
    ensures Hops(s, i).lastUnmapped != Hops(s, j).lastUnmapped
  {
    PhaseAfterHops(s, i);
    PhaseAfterHops(s, j);
    HopNeverReturns(s.hop, j - i);
    Distribute(i, j - i, s.hop);
    if Hops(s, i).lastUnmapped == Hops(s, j).lastUnmapped {
      ModDifference(s.lastUnmapped + i * s.hop, s.lastUnmapped + j * s.hop);
    }
  }

  /** The inverse of a hop increment modulo 37. */
  function Inverse(hop: nat): nat
    requires 5 <= hop <= 16
  {
    match hop
    case 5 => 15 case 6 => 31 case 7 => 16 case 8 => 14 case 9 => 33 case 10 => 26
    case 11 => 27 case 12 => 34 case 13 => 20 case 14 => 8 case 15 => 5 case _ => 7
  }

  lemma InverseUndoesHop(hop: nat, distance: nat)
    requires 5 <= hop <= 16 && distance < 37
    ensures var steps := (distance * Inverse(hop)) % 37; 0 <= steps < 37 && (steps * hop) % 37 == distance
  {
    var inverse := Inverse(hop);
    var turns := (inverse * hop) / 37;
    assert inverse * hop == 37 * turns + 1 by {
      match hop
      case 5 => case 6 => case 7 => case 8 => case 9 => case 10 =>
      case 11 => case 12 => case 13 => case 14 => case 15 => case 16 =>
    }
    ScaledInverse(hop, inverse, turns, distance);
  }

  lemma ScaledInverse(hop: nat, inverse: nat, turns: nat, distance: nat)
    requires inverse * hop == 37 * turns + 1 && distance < 37
    ensures var steps := (distance * inverse) % 37; (steps * hop) % 37 == distance
  {
    var q := (distance * inverse) / 37;
    var steps := (distance * inverse) % 37;
    assert distance * inverse == 37 * q + steps;
    assert (distance * inverse) * hop == distance * (inverse * hop) == 37 * (distance * turns) + distance;
    assert (37 * q + steps) * hop == 37 * (q * hop) + steps * hop;
    AddMultiple(distance, distance * turns - q * hop);
  }

  lemma AddMultiple(r: nat, k: int)
    requires r < 37
    ensures (37 * k + r) % 37 == r
  {
  }

  lemma StepsTo(hop: nat, from: nat, target: nat) returns (steps: nat)
    requires 5 <= hop <= 16 && from < 37 && target < 37
    ensures 1 <= steps <= 37 && steps * hop >= 0 && (from + steps * hop) % 37 == target
  {
    var distance := (target + 37 - from) % 37;
    InverseUndoesHop(hop, distance);
    steps := (distance * Inverse(hop)) % 37;
    if steps == 0 {
      steps := 37;
      AddMultiple(0, hop);
    }
    SumModulo(steps * hop, distance, from, target);
  }

  lemma SumModulo(product: nat, distance: nat, from: nat, target: nat)
    requires from < 37 && target < 37 && distance == (target + 37 - from) % 37
    requires product % 37 == distance
    ensures (from + product) % 37 == target
  {
    ModPlus(product, from);
  }

  /** With a fixed map, every enabled channel is used within any 37 consecutive events. */
  lemma EveryEnabledChannelIsUsed(s: Selector, channel: nat)
    requires Sound(s) && channel < 37 && Enabled(s.bitmap, channel)
    ensures exists n :: 1 <= n <= 37 && Mapped(Hops(s, n)) == channel
  {
    var n := StepsTo(s.hop, s.lastUnmapped, channel);
    PhaseAfterHops(s, n);
    assert Mapped(Hops(s, n)) == channel;
  }

  // Events interleaved with map updates.

  datatype Change = NextEvent | NewMap(bitmap: ChannelMap)

  function ApplyChange(s: Selector, a: Change): Selector {
    match a
    case NextEvent => Hop(s)
    case NewMap(bitmap) => if MapIsValid(bitmap) then s.(bitmap := bitmap) else s
  }

  function ApplyChanges(s: Selector, changes: seq<Change>): Selector {
    if changes == [] then s else ApplyChange(ApplyChanges(s, changes[..|changes| - 1]), changes[|changes| - 1])
  }

  function Events(changes: seq<Change>): nat {
    if changes == [] then 0
    else Events(changes[..|changes| - 1]) + (if changes[|changes| - 1].NextEvent? then 1 else 0)
  }

  /** The phase counts events only: no sequence of map updates disturbs it. */
  lemma {:induction false} PhaseSurvivesMapUpdates(s: Selector, changes: seq<Change>)
    requires Sound(s)
    ensures Sound(ApplyChanges(s, changes)) && ApplyChanges(s, changes).hop == s.hop
    ensures ApplyChanges(s, changes).lastUnmapped == Hops(s, Events(changes)).lastUnmapped
    ensures Events(changes) * s.hop >= 0
    ensures ApplyChanges(s, changes).lastUnmapped == (s.lastUnmapped + Events(changes) * s.hop) % 37
  {
    if changes != [] {
      PhaseSurvivesMapUpdates(s, changes[..|changes| - 1]);
    }
    PhaseAfterHops(s, Events(changes));
  }

  class ChannelSelection1 {
    var bitmap: ChannelMap
    var used: seq<u8>
    var usedLen: u8
    var hop: u8
    var lastUnmapped: u8

    ghost predicate Valid()
      reads this
    {
      && Sound(State())
      && |used| == 37
      && usedLen == |Used(bitmap)|
      && used[..usedLen] == Used(bitmap)
    }

    ghost function State(): Selector
      reads this
    {
      Selector(bitmap, hop, lastUnmapped)
    }

    static method New(bitmap: ChannelMap, hop: u8) returns (r: Option<ChannelSelection1>)
      ensures r.Some? <==> 5 <= hop <= 16 && MapIsValid(bitmap)
      ensures r.Some? ==> fresh(r.value) && r.value.Valid() && r.value.State() == Selector(bitmap, hop, 0)
    {
      var valid := DataChannelMapIsValid(bitmap);
      if !(5 <= hop <= 16) || !valid {
        return None;
      }
      var selector := new ChannelSelection1(bitmap, hop);
      r := Some(selector);
    }

    constructor (bitmap: ChannelMap, hop: u8)
      requires 5 <= hop <= 16 && MapIsValid(bitmap)
      ensures Valid() && State() == Selector(bitmap, hop, 0)
    {
      UsedTable(bitmap);
      var table, length := BuildUsed(bitmap);
      this.bitmap, this.hop, this.lastUnmapped := bitmap, hop, 0;
      this.used, this.usedLen := table, length;
    }

    method NextChannel() returns (channel: u8)
      requires Valid()
      modifies this`lastUnmapped
      ensures Valid() && State() == Hop(old(State()))
      ensures channel == Mapped(State())
    {
      UsedTable(bitmap);
      var unmapped := (lastUnmapped + hop) % 37;
      lastUnmapped := unmapped;
      if (bitmap[unmapped / 8] / BitWeight(unmapped % 8)) % 2 != 0 {
        channel := unmapped;
      } else {
        channel := used[unmapped % usedLen];
        assert channel == used[..usedLen][unmapped % usedLen];
      }
    }

    method UpdateMap(bitmap: ChannelMap) returns (accepted: bool)
      requires Valid()
      modifies this
      ensures Valid() && accepted == MapIsValid(bitmap)
      ensures State() == (if accepted then old(State()).(bitmap := bitmap) else old(State()))
    {
      accepted := DataChannelMapIsValid(bitmap);
      if !accepted {
        return;
      }
      UsedTable(bitmap);
      var table, length := BuildUsed(bitmap);
      this.bitmap := bitmap;
      this.used := table;
      this.usedLen := length;
    }
  }

  method BuildUsed(bitmap: ChannelMap) returns (used: seq<u8>, usedLen: u8)
    ensures |used| == 37 && usedLen <= 37 && used[..usedLen] == Used(bitmap)
  {
    var table := new u8[37](_ => 0);
    usedLen := 0;
    for channel := 0 to 37
      invariant 0 <= usedLen <= channel
      invariant table[..usedLen] == UsedBelow(bitmap, channel)
    {
      if (bitmap[channel / 8] / BitWeight(channel % 8)) % 2 != 0 {
        table[usedLen] := channel;
        usedLen := usedLen + 1;
      }
    }
    used := table[..];
  }
}
