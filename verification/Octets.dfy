/** Bytes as bits and as numbers. */
module Octets {
  function ByteNat(b: bv8): (v: nat)
    ensures v < 256
  {
    b as nat
  }

  function And(a: bv8, m: bv8): bv8 { a & m }

  // All bits outside the mask set.
  function Fill(b: bv8, m: bv8): bv8 { b | !m }

  lemma ByteNatInjective(a: bv8, b: bv8)
    ensures ByteNat(a) == ByteNat(b) <==> a == b
  {
    OrderBits(a, b);
    OrderBits(b, a);
  }

  lemma BytePlusOne(b: bv8)
    ensures ByteNat(b + 1) == if ByteNat(b) == 255 then 0 else ByteNat(b) + 1
    ensures b + 1 > 0 <==> ByteNat(b) != 255
  {
  }

  function Pow2(n: nat): (r: nat)
    ensures r > 0
  {
    if n == 0 then 1 else 2 * Pow2(n - 1)
  }

  lemma Pow2Plus8(n: nat)
    ensures Pow2(n + 8) == 256 * Pow2(n)
  {
    assert Pow2(n + 4) == 16 * Pow2(n) by { assert Pow2(n + 2) == 4 * Pow2(n); }
    assert Pow2(n + 8) == 16 * Pow2(n + 4) by { assert Pow2(n + 6) == 4 * Pow2(n + 4); }
  }

  // The host bits of a byte under a mask of r ones.
  function Low(r: nat): bv8
    requires r <= 8
  {
    (0xff as bv8) >> r
  }

  // The byte with the first r bits set.
  function Ones(r: nat): bv8
    requires r <= 8
  {
    !Low(r)
  }

  predicate LowMask(low: bv8) {
    low == 0 || low == 1 || low == 3 || low == 7 || low == 15 || low == 31 || low == 63 || low == 127 || low == 255
  }

  lemma LowBits(r: nat)
    requires r <= 8
    ensures LowMask(Low(r)) && ByteNat(Low(r)) + 1 == Pow2(8 - r)
  {
    assert Pow2(0) == 1 && Pow2(1) == 2 && Pow2(2) == 4 && Pow2(3) == 8 && Pow2(4) == 16;
    assert Pow2(5) == 32 && Pow2(6) == 64 && Pow2(7) == 128 && Pow2(8) == 256;
    var h: bv8 := 0xff;
    assert h >> 0 == 255 && h >> 1 == 127 && h >> 2 == 63 && h >> 3 == 31 && h >> 4 == 15;
    assert h >> 5 == 7 && h >> 6 == 3 && h >> 7 == 1 && h >> 8 == 0;
  }

  // Masking off low bits, in bits.
  lemma MaskBits(a: bv8, b: bv8, low: bv8)
    requires LowMask(low) && And(b, !low) == b
    ensures And(a, !low) == And(b, !low) <==> b <= a <= b + low
    ensures Fill(b, !low) == b + low && b + low >= b
  {
  }

  lemma AddBits(b: bv8, low: bv8)
    requires b + low >= b && LowMask(low)
    ensures ByteNat(b + low) == ByteNat(b) + ByteNat(low)
  {
    if low == 0 { } else if low == 1 { } else if low == 3 { } else if low == 7 { } else if low == 15 { }
    else if low == 31 { } else if low == 63 { } else if low == 127 { } else { }
  }

  lemma OrderBits(a: bv8, b: bv8)
    ensures a <= b <==> ByteNat(a) <= ByteNat(b)
  {
  }

  /** Under a mask of r ones the bytes that agree with b, when b has no other bits, are an
      interval from b, and setting all other bits gives its end. */
  lemma ByteInterval(a: bv8, b: bv8, r: nat)
    requires r <= 8 && And(b, Ones(r)) == b
    ensures And(b, Ones(r)) == And(a, Ones(r)) <==> ByteNat(b) <= ByteNat(a) < ByteNat(b) + Pow2(8 - r)
    ensures ByteNat(b) + Pow2(8 - r) <= 256
    ensures ByteNat(Fill(b, Ones(r))) == ByteNat(b) + Pow2(8 - r) - 1
  {
    var low := Low(r);
    LowBits(r);
    hide Low, Pow2, ByteNat, And, Fill, LowMask;
    MaskBits(a, b, low);
    AddBits(b, low);
    OrderBits(b, a);
    OrderBits(a, b + low);
  }

  // The two masks that take a byte whole or not at all.
  lemma WholeByte(a: bv8, b: bv8)
    ensures And(a, 0xff) == And(b, 0xff) <==> ByteNat(a) == ByteNat(b)
    ensures And(a, 0) == And(b, 0)
    ensures And(b, 0) == b ==> ByteNat(b) == 0
    ensures Fill(b, 0xff) == b && ByteNat(Fill(b, 0)) == 255
  {
    ByteNatInjective(a, b);
    assert And(a, 0xff) == a && And(b, 0xff) == b;
    var n: bv8 := 0;
    assert b | !n == 0xff;
    assert ByteNat(0xff) == 255;
  }
}
