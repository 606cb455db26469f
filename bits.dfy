/** 32-bit words and the shifts and masks of src/mcstat/net.py on them.
    Python's integers are unbounded; every value net.py masks is below
    2^32, so it is the 32-bit word whose integer value it is. */
module Bits {

  function Pow2(w: nat): nat {
    if w == 0 then 1 else 2 * Pow2(w - 1)
  }

  lemma Pow2Mono(a: nat, b: nat)
    requires a <= b
    ensures Pow2(a) <= Pow2(b)
  {
  }

  lemma Pow2Of32()
    ensures Pow2(32) == 0x1_0000_0000 && Pow2(31) == 0x8000_0000
  {
    assert Pow2(8) == 256;
    assert Pow2(16) == 0x1_0000;
    assert Pow2(24) == 0x100_0000;
  }

  /** The low `w` bits of `n` as a 32-bit word. */
  function ToBits(n: nat, w: nat): bv32
    requires w <= 32
  {
    if w == 0 then 0
    else PushBit(ToBits(n / 2, w - 1), n % 2 == 1)
  }

  /** `h` shifted left by one with `one` as its new lowest bit. */
  function PushBit(h: bv32, one: bool): bv32 {
    if one then (h << 1) | 1 else h << 1
  }

  /** A number below `2^w` keeps its value as a word of `w` bits. */
  lemma {:induction false} ToBitsValue(n: nat, w: nat)
    requires w <= 32 && n < Pow2(w)
    ensures ToBits(n, w) as int == n
  {
    if w > 0 {
      HalfBound(n, w);
      ToBitsValue(n / 2, w - 1);
      Double(ToBits(n / 2, w - 1), n);
    }
  }

  lemma HalfBound(n: nat, w: nat)
    requires 0 < w <= 32 && n < Pow2(w)
    ensures n / 2 < Pow2(w - 1) <= 0x8000_0000
  {
    Pow2Mono(w - 1, 31);
    Pow2Of32();
  }

  lemma Double(h: bv32, n: nat)
    requires h as int == n / 2 < 0x8000_0000
    ensures PushBit(h, n % 2 == 1) as int == n
  {
    if n % 2 == 1 {
      assert ((h << 1) | 1) as int == 2 * h as int + 1;
    } else {
      assert (h << 1) as int == 2 * h as int;
    }
  }

  /** A Python integer below 2^32 as the 32-bit word it stands for. */
  function Word(n: nat): (x: bv32)
    requires n < 0x1_0000_0000
    ensures n <= 32 ==> x <= 32
  {
    var x := ToBits(n, 32);
    if n <= 32 then SmallWord(n); x else x
  }

  lemma WordValue(n: nat)
    requires n < 0x1_0000_0000
    ensures Word(n) as int == n
  {
    Pow2Of32();
    ToBitsValue(n, 32);
  }

  lemma SmallWord(n: nat)
    requires n <= 32
    ensures ToBits(n, 32) <= 32
  {
    Pow2Of32();
    ToBitsValue(n, 32);
    var x := ToBits(n, 32);
    assert x as int <= 32;
  }

  /** Comparing a bit index with a word of a small count is comparing the
      numbers. */
  lemma WordCompare(i: bv32, n: nat)
    requires n <= 32
    ensures i >= Word(n) <==> i as int >= n
  {
    WordValue(n);
    var x := Word(n);
    assert i >= x <==> i as int >= x as int;
  }

  /** `(ip >> bits) << bits` */
  function ClearLow(ip: bv32, bits: bv32): bv32
    requires bits <= 32
  {
    ShiftLeft(High(ip, bits), bits)
  }

  /** `x >> bits`: the bits of `x` above the low `bits`. */
  function High(x: bv32, bits: bv32): bv32
    requires bits <= 32
  {
    x >> bits
  }

  /** `(ip & mask) == value` */
  predicate Masked(ip: bv32, mask: bv32, value: bv32) {
    ip & mask == value
  }

  function ShiftLeft(h: bv32, bits: bv32): bv32
    requires bits <= 32
  {
    h << bits
  }

  /** Bit `i` of `x`, counting from the least significant. */
  predicate Bit(x: bv32, i: bv32)
    requires i < 32
  {
    (x >> i) & 1 == 1
  }

  lemma ClearLowMasked(ip: bv32, bits: bv32)
    requires bits <= 32
    ensures ClearLow(ip, bits) & ClearLow(0xffff_ffff, bits) == ClearLow(ip, bits)
  {
  }

  lemma SameShift(x: bv32, y: bv32, bits: bv32)
    requires bits <= 32 && High(x, bits) == High(y, bits)
    ensures ClearLow(x, bits) == ClearLow(y, bits)
  {
  }

  lemma ClearLowInjective(x: bv32, y: bv32, bits: bv32)
    requires bits <= 32 && ClearLow(x, bits) == ClearLow(y, bits)
    ensures High(x, bits) == High(y, bits)
  {
    ShiftBack(x, bits);
    ShiftBack(y, bits);
  }

  /** Masking with the mask of `/bits` clears the low `bits` bits. */
  lemma MaskClearsLow(x: bv32, bits: bv32)
    requires bits <= 32
    ensures x & ClearLow(0xffff_ffff, bits) == ClearLow(x, bits)
  {
  }

  lemma ShiftBack(x: bv32, bits: bv32)
    requires bits <= 32
    ensures High(ClearLow(x, bits), bits) == High(x, bits)
  {
  }

  /** The mask of `/bits` has its low `bits` bits clear and the rest set; the
      value keeps exactly the address bits the mask keeps. */
  lemma ClearLowBits(ip: bv32, bits: bv32, i: bv32)
    requires bits <= 32 && i < 32
    ensures Bit(ClearLow(0xffff_ffff, bits), i) <==> i >= bits
    ensures Bit(ClearLow(ip, bits), i) <==> i >= bits && Bit(ip, i)
  {
  }

  lemma SameHighBits(x: bv32, y: bv32, bits: bv32)
    requires bits <= 32
    ensures Masked(x, ClearLow(0xffff_ffff, bits), ClearLow(y, bits)) <==> High(x, bits) == High(y, bits)
  {
    MaskedClearLow(x, y, bits);
    SameClearLow(x, y, bits);
  }

  /** Matching the network of `y` is comparing the cleared words. */
  lemma MaskedClearLow(x: bv32, y: bv32, bits: bv32)
    requires bits <= 32
    ensures Masked(x, ClearLow(0xffff_ffff, bits), ClearLow(y, bits)) <==> ClearLow(x, bits) == ClearLow(y, bits)
  {
    MaskClearsLow(x, bits);
    MaskedIff(x, ClearLow(0xffff_ffff, bits), ClearLow(y, bits), ClearLow(x, bits));
  }

  /** Once `x & mask` is known, matching is comparing it with the value. */
  lemma MaskedIff(x: bv32, mask: bv32, value: bv32, masked: bv32)
    requires x & mask == masked
    ensures Masked(x, mask, value) <==> masked == value
  {
  }

  /** Two words agree once their low `bits` bits are cleared exactly when
      they agree above them. */
  lemma SameClearLow(x: bv32, y: bv32, bits: bv32)
    requires bits <= 32
    ensures ClearLow(x, bits) == ClearLow(y, bits) <==> High(x, bits) == High(y, bits)
  {
    if High(x, bits) == High(y, bits) {
      SameShift(x, y, bits);
    } else if ClearLow(x, bits) == ClearLow(y, bits) {
      ClearLowInjective(x, y, bits);
    }
  }

  /** The shifts of `cidr_to_mask("224.0.0.0/28")`. */
  lemma MulticastShifts()
    ensures ClearLow(Word(0xE000_0000), Word(28)) == 0xE000_0000
    ensures ClearLow(0xffff_ffff, Word(28)) == 0xF000_0000
  {
    WordValue(0xE000_0000);
    WordValue(28);
    IntLiteral(Word(0xE000_0000), Word(28));
    Shifts28(Word(0xE000_0000), Word(28));
  }

  lemma Shifts28(ip: bv32, bits: bv32)
    requires ip == 0xE000_0000 && bits == 28
    ensures ClearLow(ip, bits) == 0xE000_0000 && ClearLow(0xffff_ffff, bits) == 0xF000_0000
  {
  }

  lemma IntLiteral(x: bv32, y: bv32)
    requires x as int == 0xE000_0000 && y as int == 28
    ensures x == 0xE000_0000 && y == 28
  {
  }

  lemma TopNibble(n: nat)
    requires n < 0x1_0000_0000
    ensures Masked(Word(n), 0xF000_0000, 0xE000_0000) <==> 0xE000_0000 <= n < 0xF000_0000
  {
    WordValue(n);
    NibbleRange(Word(n));
    WordRange(Word(n));
  }

  lemma NibbleRange(x: bv32)
    ensures Masked(x, 0xF000_0000, 0xE000_0000) <==> 0xE000_0000 <= x < 0xF000_0000
  {
  }

  lemma WordRange(x: bv32)
    ensures (0xE000_0000 <= x < 0xF000_0000) <==> 0xE000_0000 <= x as int < 0xF000_0000
  {
  }
}
