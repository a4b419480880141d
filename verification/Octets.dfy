/** Machine integers, little-endian fields and the bits of a Data Channel header. */
module Octets {

  type u8 = x: int | 0 <= x < 0x100
  type u16 = x: int | 0 <= x < 0x1_0000
  type u32 = x: int | 0 <= x < 0x1_0000_0000
  type u64 = x: int | 0 <= x < 0x1_0000_0000_0000_0000

  const U64_MAX: u64 := 0xffff_ffff_ffff_ffff

  function Min(a: int, b: int): int {
    if a <= b then a else b
  }

  function SaturatingAdd(a: u64, b: u64): u64 {
    Min(a + b, U64_MAX)
  }

  function SaturatingMul(a: u64, b: u64): u64 {
    MulMonotone(0, a, b);
    Min(a * b, U64_MAX)
  }

  lemma MulMonotone(x: nat, y: nat, k: nat)
    requires x <= y
    ensures 0 <= x * k <= y * k
  {
  }

  lemma MulCancel(x: nat, y: nat, k: nat)
    requires x * k < y * k
    ensures x < y
  {
    if y <= x {
      MulMonotone(y, x, k);
    }
  }

  /** `n * k` as repeated addition, for products of two variables that need no arithmetic of their own. */
  function Times(n: nat, k: nat): nat {
    if n == 0 then 0 else k + Times(n - 1, k)
  }

  lemma {:induction false} TimesIsProduct(n: nat, k: nat)
    ensures Times(n, k) == n * k
  {
    if n > 0 {
      TimesIsProduct(n - 1, k);
      Distribute(n - 1, 1, k);
    }
  }

  lemma Distribute(x: int, y: int, k: int)
    ensures (x + y) * k == x * k + y * k
  {
  }

  function FromLe16(lo: u8, hi: u8): u16 {
    lo + 0x100 * hi
  }

  function Le16(x: u16): (bytes: seq<u8>)
    ensures |bytes| == 2
    ensures FromLe16(bytes[0], bytes[1]) == x
  {
    [x % 0x100, x / 0x100]
  }

  lemma Le16OfField(lo: u8, hi: u8)
    ensures Le16(FromLe16(lo, hi)) == [lo, hi]
  {
  }

  // Header bits: LLID in bits 0..1, NESN in bit 2, SN in bit 3, MD in bit 4.

  function Llid(header: u8): u8 {
    header % 4
  }

  predicate Nesn(header: u8) {
    (header / 4) % 2 == 1
  }

  predicate Sn(header: u8) {
    (header / 8) % 2 == 1
  }

  predicate MoreData(header: u8) {
    (header / 16) % 2 == 1
  }

  function Bit(b: bool): u8 {
    if b then 1 else 0
  }
}
