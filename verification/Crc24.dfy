/** The CRC of the Link Layer (section 3.1.1 of Bluetooth Core Vol 6 Part B). */
module Crc24 {
  import opened Octets

  /** The shift register as 24 positions, position 0 (the lowest bit of the word) first. */
  type Register = r: seq<bool> | |r| == 24 witness seq(24, _ => false)

  /** The positions set in 0x65b. */
  predicate Tap(position: nat) {
    position == 0 || position == 1 || position == 3 || position == 4 || position == 6
    || position == 9 || position == 10
  }

  function Polynomial(): Register {
    seq(24, i requires 0 <= i < 24 => Tap(i))
  }

  function Zero(): Register {
    seq(24, _ => false)
  }

  /** `state << 1` within 24 positions. */
  function ShiftLeft(r: Register): Register {
    seq(24, i requires 0 <= i < 24 => i > 0 && r[i - 1])
  }

  function Xor(a: seq<bool>, b: seq<bool>): (x: seq<bool>)
    requires |a| == |b|
    ensures |x| == |a|
  {
    seq(|a|, i requires 0 <= i < |a| => a[i] != b[i])
  }

  function Shift(r: Register, input: bool): Register {
    if r[23] != input then Xor(ShiftLeft(r), Polynomial()) else ShiftLeft(r)
  }

  function Feed(r: Register, bits: seq<bool>): Register {
    if bits == [] then r else Shift(Feed(r, bits[..|bits| - 1]), bits[|bits| - 1])
  }

  function Pow2(n: nat): nat {
    if n == 0 then 1 else 2 * Pow2(n - 1)
  }

  /** The lowest `n` bits, least significant first. */
  function LowBits(x: nat, n: nat): (bits: seq<bool>)
    ensures |bits| == n
  {
    if n == 0 then [] else [x % 2 == 1] + LowBits(x / 2, n - 1)
  }

  /** The bits of one octet in transmitted order. */
  function OctetBits(octet: u8): (bits: seq<bool>)
    ensures |bits| == 8
  {
    LowBits(octet, 8)
  }

  function AirBits(data: seq<u8>): (bits: seq<bool>)
    ensures |bits| == 8 * |data|
  {
    if data == [] then [] else AirBits(data[..|data| - 1]) + OctetBits(data[|data| - 1])
  }

  lemma {:induction false} InputBit(x: nat, n: nat, bit: nat)
    requires bit < n
    ensures Pow2(bit) > 0
    ensures (x / Pow2(bit)) % 2 == 1 <==> LowBits(x, n)[bit]
  {
    Pow2Positive(bit);
    if bit > 0 {
      InputBit(x / 2, n - 1, bit - 1);
      HalfThenDivide(x, Pow2(bit - 1));
    }
  }

  lemma Pow2Positive(n: nat)
    ensures Pow2(n) > 0
  {
  }

  lemma HalfThenDivide(x: nat, k: nat)
    requires k > 0
    ensures x / (2 * k) == (x / 2) / k
  {
    var q := (x / 2) / k;
    var r := x / 2 - q * k;
    assert 0 <= r < k;
    assert q * (2 * k) == 2 * (q * k);
    Quotient(x, 2 * k, q, x - 2 * (q * k));
  }

  lemma Quotient(a: nat, k: nat, q: nat, r: nat)
    requires k > 0 && r < k && a == q * k + r
    ensures a / k == q
  {
    var p := a / k;
    assert a == p * k + a % k;
    Distribute(p, 1, k);
    Distribute(q, 1, k);
    MulCancel(p, q + 1, k);
    MulCancel(q, p + 1, k);
  }

  lemma {:induction false} FeedConcat(r: Register, a: seq<bool>, b: seq<bool>)
    ensures Feed(r, a + b) == Feed(Feed(r, a), b)
  {
    if b == [] {
      assert a + b == a;
    } else {
      var n := |b| - 1;
      assert (a + b)[..|a| + n] == a + b[..n];
      FeedConcat(r, a, b[..n]);
    }
  }

  /** CRC24 of a PDU, with the byte and bit loops of the source. */
  method Crc(data: seq<u8>, init: Register) returns (state: Register)
    ensures state == Feed(init, AirBits(data))
  {
    state := init;
    for n := 0 to |data|
      invariant state == Feed(init, AirBits(data[..n]))
    {
      var byte := data[n];
      assert data[..n + 1][..n] == data[..n];
      ghost var start := state;
      for bit := 0 to 8
        invariant state == Feed(start, OctetBits(byte)[..bit])
      {
        InputBit(byte, 8, bit);
        assert OctetBits(byte)[..bit + 1][..bit] == OctetBits(byte)[..bit];
        var input := (byte / Pow2(bit)) % 2 == 1;
        var feedback := state[23] != input;
        state := ShiftLeft(state);
        if feedback {
          state := Xor(state, Polynomial());
        }
      }
      assert OctetBits(byte)[..8] == OctetBits(byte);
      FeedConcat(init, AirBits(data[..n]), OctetBits(byte));
    }
    assert data[..|data|] == data;
  }

  // Error detection.

  function Zeros(n: nat): seq<bool> {
    seq(n, _ => false)
  }

  lemma ShiftIsLinear(r: Register, s: Register, a: bool, b: bool)
    ensures Xor(Shift(r, a), Shift(s, b)) == Shift(Xor(r, s), a != b)
  {
  }

  /** The difference of two runs is the run of their difference. */
  lemma {:induction false} FeedIsLinear(r: Register, s: Register, a: seq<bool>, b: seq<bool>)
    requires |a| == |b|
    ensures Xor(Feed(r, a), Feed(s, b)) == Feed(Xor(r, s), Xor(a, b))
  {
    if a != [] {
      var n := |a| - 1;
      FeedIsLinear(r, s, a[..n], b[..n]);
      assert Xor(a, b)[..n] == Xor(a[..n], b[..n]);
      ShiftIsLinear(Feed(r, a[..n]), Feed(s, b[..n]), a[n], b[n]);
    }
  }

  /** A shift can be undone: position 0 reveals the feedback. */
  lemma ShiftIsInjective(r: Register, s: Register, input: bool)
    requires Shift(r, input) == Shift(s, input)
    ensures r == s
  {
    var after := Shift(r, input);
    assert after[0] == (r[23] != input) == (s[23] != input);
    forall i | 0 <= i < 23
      ensures r[i] == s[i]
    {
      assert after[i + 1] == (r[i] != (after[0] && Tap(i + 1)));
      assert after[i + 1] == (s[i] != (after[0] && Tap(i + 1)));
    }
  }

  lemma ZeroShift()
    ensures Shift(Zero(), false) == Zero()
  {
  }

  lemma {:induction false} ZeroInputKeepsDifference(r: Register, n: nat)
    ensures Feed(r, Zeros(n)) == Zero() <==> r == Zero()
  {
    if n > 0 {
      assert Zeros(n)[..n - 1] == Zeros(n - 1);
      ZeroInputKeepsDifference(r, n - 1);
      ZeroShift();
      if Feed(r, Zeros(n)) == Zero() {
        ShiftIsInjective(Feed(r, Zeros(n - 1)), Zero(), false);
      }
    }
  }

  /** No shift of the run fed a bit back. */
  ghost predicate Quiet(r: Register, bits: seq<bool>) {
    bits == [] ||
    var n := |bits| - 1;
    Feed(r, bits[..n])[23] == bits[n] && Quiet(r, bits[..n])
  }

  /** A clear position 0 shows that nothing was fed back, and the rest moved up by one. */
  lemma ClearLowPositions(r: Register, input: bool, clear: nat)
    requires 1 <= clear <= 24
    requires forall i :: 0 <= i < clear ==> !Shift(r, input)[i]
    ensures r[23] == input && forall i :: 0 <= i < clear - 1 ==> !r[i]
  {
    assert !Shift(r, input)[0];
    forall i | 0 <= i < clear - 1
      ensures !r[i]
    {
      assert !Shift(r, input)[i + 1];
    }
  }

  /** A run that ends with its `clear` lowest positions clear fed nothing back over that many shifts. */
  lemma {:induction false} ClearEndIsQuiet(r: Register, bits: seq<bool>, clear: nat)
    requires |bits| <= clear <= 24
    requires forall i :: 0 <= i < clear ==> !Feed(r, bits)[i]
    ensures Quiet(r, bits)
  {
    if bits != [] {
      var n := |bits| - 1;
      assert Feed(r, bits) == Shift(Feed(r, bits[..n]), bits[n]);
      ClearLowPositions(Feed(r, bits[..n]), bits[n], clear);
      ClearEndIsQuiet(r, bits[..n], clear - 1);
    }
  }

  lemma {:induction false} QuietFromZero(bits: seq<bool>)
    requires Quiet(Zero(), bits)
    ensures bits == Zeros(|bits|) && Feed(Zero(), bits) == Zero()
  {
    if bits != [] {
      QuietFromZero(bits[..|bits| - 1]);
      ZeroShift();
    }
  }

  /** A block of at most 24 bits leaves a cleared register clear only if it is all zero. */
  lemma BlockIsInjective(bits: seq<bool>)
    requires |bits| <= 24
    ensures Feed(Zero(), bits) == Zero() ==> bits == Zeros(|bits|)
  {
    if Feed(Zero(), bits) == Zero() {
      ClearEndIsQuiet(Zero(), bits, 24);
      QuietFromZero(bits);
    }
  }

  /** The two bit strings agree outside `width` consecutive positions from `start`. */
  ghost predicate DifferWithin(a: seq<bool>, b: seq<bool>, start: nat, width: nat) {
    && |a| == |b| && start + width <= |a|
    && forall i :: 0 <= i < |a| && !(start <= i < start + width) ==> a[i] == b[i]
  }

  lemma BurstShape(a: seq<bool>, b: seq<bool>, start: nat, width: nat)
    requires DifferWithin(a, b, start, width)
    ensures Xor(a, b) == Zeros(start) + Xor(a, b)[start..start + width] + Zeros(|a| - start - width)
    ensures Xor(a, b)[start..start + width] == Zeros(width) ==> a == b
  {
    var d := Xor(a, b);
    if d[start..start + width] == Zeros(width) {
      forall i | 0 <= i < |a|
        ensures a[i] == b[i]
      {
        if start <= i < start + width {
          assert d[i] == d[start..start + width][i - start];
        }
      }
    }
  }

  /** A burst of at most 24 bits is always detected, whatever surrounds it. */
  lemma BurstChangesRegister(r: Register, a: seq<bool>, b: seq<bool>, start: nat, width: nat)
    requires DifferWithin(a, b, start, width) && width <= 24 && a != b
    ensures Feed(r, a) != Feed(r, b)
  {
    var burst := Xor(a, b)[start..start + width];
    BurstShape(a, b, start, width);
    BlockIsInjective(burst);
    FeedIsLinear(r, r, a, b);
    SelfXor(r);
    SelfXor(Feed(r, a));
    BurstSurvives(burst, start, |a| - start - width);
  }

  lemma SelfXor(r: Register)
    ensures Xor(r, r) == Zero()
  {
  }

  lemma BurstSurvives(burst: seq<bool>, before: nat, after: nat)
    ensures Feed(Zero(), Zeros(before) + burst + Zeros(after)) == Zero() ==> Feed(Zero(), burst) == Zero()
  {
    FeedConcat(Zero(), Zeros(before) + burst, Zeros(after));
    FeedConcat(Zero(), Zeros(before), burst);
    ZeroInputKeepsDifference(Zero(), before);
    ZeroInputKeepsDifference(Feed(Zero(), burst), after);
  }

  /** Equal-length PDUs that differ within 24 consecutive transmitted bits have different CRCs. */
  lemma BurstChangesCrc(init: Register, p: seq<u8>, q: seq<u8>, start: nat, width: nat)
    requires DifferWithin(AirBits(p), AirBits(q), start, width) && width <= 24
    requires p != q
    ensures Feed(init, AirBits(p)) != Feed(init, AirBits(q))
  {
    if AirBits(p) == AirBits(q) {
      AirBitsInjective(p, q);
    }
    BurstChangesRegister(init, AirBits(p), AirBits(q), start, width);
  }

  lemma {:induction false} LowBitsInjective(x: nat, y: nat, n: nat)
    requires x < Pow2(n) && y < Pow2(n) && LowBits(x, n) == LowBits(y, n)
    ensures x == y
  {
    if n > 0 {
      var a, b := LowBits(x, n), LowBits(y, n);
      assert a[0] == b[0] && a[1..] == LowBits(x / 2, n - 1) && b[1..] == LowBits(y / 2, n - 1);
      LowBitsInjective(x / 2, y / 2, n - 1);
    }
  }

  lemma {:induction false} AirBitsInjective(p: seq<u8>, q: seq<u8>)
    requires AirBits(p) == AirBits(q)
    ensures p == q
  {
    if p != [] {
      var n := |p| - 1;
      var a, b := AirBits(p), AirBits(q);
      assert |a| == |b|;
      assert a[..8 * n] == AirBits(p[..n]) && b[..8 * n] == AirBits(q[..n]);
      assert a[8 * n..] == OctetBits(p[n]) && b[8 * n..] == OctetBits(q[n]);
      assert Pow2(8) == 256;
      LowBitsInjective(p[n], q[n], 8);
      AirBitsInjective(p[..n], q[..n]);
    }
  }

  /** The taps are the set bits of the polynomial word 0x65b: x^24 + x^10 + x^9 + x^6 + x^4 + x^3 + x + 1. */
  lemma TapsAreThePolynomial(position: nat)
    requires position < 24
    ensures Tap(position) <==> position in {0, 1, 3, 4, 6, 9, 10}
    ensures Pow2(0) + Pow2(1) + Pow2(3) + Pow2(4) + Pow2(6) + Pow2(9) + Pow2(10) == 0x65b
  {
    PowersOfTwo();
  }

  lemma PowersOfTwo()
    ensures Pow2(0) == 1 && Pow2(1) == 2 && Pow2(3) == 8 && Pow2(4) == 16
    ensures Pow2(6) == 64 && Pow2(9) == 512 && Pow2(10) == 1024
  {
    assert Pow2(2) == 4 && Pow2(5) == 32 && Pow2(7) == 128 && Pow2(8) == 256;
  }

  /** One step moves every bit up and adds the taps when the bit that leaves differs from the input. */
  lemma ShiftBits(r: Register, input: bool, position: nat)
    requires position < 24
    ensures Shift(r, input)[position]
         == ((position > 0 && r[position - 1]) != (r[23] != input && position in {0, 1, 3, 4, 6, 9, 10}))
  {
  }

  /** Octets go on air least significant bit first. */
  lemma OctetOrder(octet: u8, bit: nat)
    requires bit < 8
    ensures Pow2(bit) > 0
    ensures OctetBits(octet)[bit] == ((octet / Pow2(bit)) % 2 == 1)
  {
    InputBit(octet, 8, bit);
  }
}
