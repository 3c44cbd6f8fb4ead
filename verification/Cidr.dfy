/** adapters/network_store_adapter.go: walking the addresses of a CIDR block (RFC 4632, section
    3.1) byte by byte, against arithmetic on the addresses as numbers. */
module Cidr {
  import opened Octets

  type Address = seq<bv8>

  // --- addresses as numbers ---

  function Pow256(n: nat): (r: nat)
    ensures r > 0
  {
    if n == 0 then 1 else 256 * Pow256(n - 1)
  }

  function Value(ip: Address): (v: nat)
    ensures v < Pow256(|ip|)
  {
    if ip == [] then 0 else Value(ip[..|ip| - 1]) * 256 + ByteNat(ip[|ip| - 1])
  }

  lemma ValueThen(ip: Address, b: bv8)
    ensures Value(ip + [b]) == Value(ip) * 256 + ByteNat(b)
  {
    assert (ip + [b])[..|ip|] == ip;
  }

  lemma Parts256(v: nat, b: nat)
    requires b < 256
    ensures (v * 256 + b) / 256 == v && (v * 256 + b) % 256 == b
  {
  }

  lemma {:induction false} ValueInjective(a: Address, b: Address)
    requires |a| == |b| && Value(a) == Value(b)
    ensures a == b
  {
    hide ByteNat;
    if a != [] {
      var a', b' := a[..|a| - 1], b[..|b| - 1];
      Parts256(Value(a'), ByteNat(a[|a| - 1]));
      Parts256(Value(b'), ByteNat(b[|b| - 1]));
      ValueInjective(a', b');
      ByteNatInjective(a[|a| - 1], b[|b| - 1]);
      assert a == a' + [a[|a| - 1]] && b == b' + [b[|b| - 1]];
    }
  }

  // --- nextIP ---

  // Adding one with the carry going left, byte by byte.
  function Next(ip: Address): (r: Address)
    ensures |r| == |ip|
  {
    if ip == [] then []
    else
      var last := ip[|ip| - 1] + 1;
      if last > 0 then ip[..|ip| - 1] + [last] else Next(ip[..|ip| - 1]) + [last]
  }

  /** The byte carry is addition of one modulo the number of addresses. */
  lemma {:induction false} NextIsPlusOne(ip: Address)
    ensures Value(Next(ip)) == (Value(ip) + 1) % Pow256(|ip|)
  {
    hide ByteNat;
    if ip != [] {
      var init, b := ip[..|ip| - 1], ip[|ip| - 1];
      BytePlusOne(b);
      NextIsPlusOne(init);
      if b + 1 > 0 {
        ValueThen(init, b + 1);
        CarryStops(Value(init), ByteNat(b), Pow256(|init|));
      } else {
        ValueThen(Next(init), b + 1);
        CarryGoesOn(Value(init), Pow256(|init|));
      }
    }
  }

  lemma CarryStops(v: nat, b: nat, p: nat)
    requires v < p && b < 255
    ensures v * 256 + b + 1 == (v * 256 + b + 1) % (256 * p)
  {
    SmallMod(v * 256 + b + 1, 256 * p);
  }

  lemma SelfMod(m: nat)
    requires m > 0
    ensures m % m == 0
  {
  }

  lemma SmallMod(x: nat, m: nat)
    requires x < m
    ensures x % m == x
  {
  }

  lemma CarryGoesOn(v: nat, p: nat)
    requires v < p
    ensures ((v + 1) % p) * 256 == (v * 256 + 256) % (256 * p)
  {
    if v + 1 < p {
      SmallMod(v + 1, p);
      SmallMod((v + 1) * 256, 256 * p);
    } else {
      SelfMod(p);
      SelfMod(256 * p);
      assert v * 256 + 256 == 256 * p;
    }
  }

  method NextIP(ip: array<bv8>) returns (next: array<bv8>)
    ensures fresh(next) && next[..] == Next(ip[..])
  {
    next := new bv8[ip.Length](i requires 0 <= i < ip.Length reads ip => ip[i]);
    assert next[..] == ip[..];
    var j := ip.Length - 1;
    assert ip[..j + 1] == ip[..] && next[j + 1..] == [];
    while j >= 0
      invariant -1 <= j < ip.Length && next.Length == ip.Length
      invariant next[..j + 1] == ip[..j + 1]
      invariant Next(ip[..]) == Next(ip[..j + 1]) + next[j + 1..]
    {
      ghost var before, rest := next[..j], next[j + 1..];
      assert ip[..j + 1][..j] == ip[..j] == before;
      next[j] := next[j] + 1;
      assert next[..] == before + ([next[j]] + rest) by { Parts(next[..], before, next[j], rest); }
      if next[j] > 0 {
        break;
      }
      assert next[j..] == [next[j]] + rest;
      Shift(Next(before), next[j], rest);
      j := j - 1;
    }
  }

  lemma Parts(s: Address, a: Address, x: bv8, b: Address)
    requires |s| == |a| + 1 + |b| && s[..|a|] == a && s[|a|] == x && s[|a| + 1..] == b
    ensures s == a + ([x] + b) == a + [x] + b
  {
  }

  lemma Shift(a: Address, x: bv8, b: Address)
    ensures a + [x] + b == a + ([x] + b)
  {
  }

  // --- masks ---

  // net.CIDRMask(p, 32).
  function Mask(p: nat): (m: Address)
    requires p <= 32
    ensures |m| == 4
  {
    if p < 8 then [Ones(p), 0, 0, 0]
    else if p < 16 then [0xff, Ones(p - 8), 0, 0]
    else if p < 24 then [0xff, 0xff, Ones(p - 16), 0]
    else [0xff, 0xff, 0xff, Ones(p - 24)]
  }

  datatype IPNet = IPNet(ip: Address, mask: Address)

  // What net.ParseCIDR gives for an IPv4 block of prefix length p: the host bits are cleared.
  predicate Parsed(n: IPNet, p: nat) {
    p <= 32 && |n.ip| == 4 && n.mask == Mask(p) && forall i :: 0 <= i < 4 ==> And(n.ip[i], n.mask[i]) == n.ip[i]
  }

  // net.IPNet.Contains.
  predicate Contains(n: IPNet, ip: Address) {
    |ip| == |n.ip| == |n.mask| && forall i :: 0 <= i < |ip| ==> And(n.ip[i], n.mask[i]) == And(ip[i], n.mask[i])
  }

  // The number of addresses of a block.
  function Size(p: nat): nat
    requires p <= 32
  {
    Pow2(32 - p)
  }

  // The byte a prefix ends in, and how many of its bits it takes.
  function Cut(p: nat): (k: nat)
    requires p <= 32
    ensures k < 4 && 8 * k <= p <= 8 * k + 8
  {
    if p < 8 then 0 else if p < 16 then 1 else if p < 24 then 2 else 3
  }

  // The size of the interval its bytes form there.
  function Span(p: nat): nat
    requires p <= 32
  {
    Pow2(8 - (p - 8 * Cut(p)))
  }

  function Weight(k: nat): nat
    requires k < 4
  {
    match k case 0 => 0x100_0000 case 1 => 0x1_0000 case 2 => 0x100 case 3 => 1
  }

  lemma SizeAtCut(p: nat)
    requires p <= 32
    ensures Size(p) == Span(p) * Weight(Cut(p))
  {
    hide Pow2;
    var r := 8 - (p - 8 * Cut(p));
    Pow2Plus8(r);
    Pow2Plus8(r + 8);
    Pow2Plus8(r + 16);
  }

  ghost function Sum(a: int, b: int, c: int, d: int): int { a * 0x100_0000 + b * 0x1_0000 + c * 0x100 + d }

  lemma FourBytes(ip: Address)
    requires |ip| == 4
    ensures Value(ip) == Sum(ByteNat(ip[0]), ByteNat(ip[1]), ByteNat(ip[2]), ByteNat(ip[3]))
  {
    hide ByteNat;
    var a3, a2, a1 := ip[..3], ip[..2], ip[..1];
    assert a3[..2] == a2 && a2[..1] == a1 && a1[..0] == [];
    assert Value(a1) == ByteNat(ip[0]);
    assert Value(a2) == Value(a1) * 256 + ByteNat(ip[1]);
    assert Value(a3) == Value(a2) * 256 + ByteNat(ip[2]);
  }

  // What a block of prefix length p asks of byte i, b being that of its first address.
  predicate ByteIn(p: nat, i: nat, a: nat, b: nat)
    requires p <= 32
  {
    if i < Cut(p) then a == b else if i == Cut(p) then b <= a < b + Span(p) else true
  }

  // Byte i of its last address.
  function LastOf(p: nat, i: nat, b: nat): int
    requires p <= 32
  {
    if i < Cut(p) then b else if i == Cut(p) then b + Span(p) - 1 else 255
  }

  lemma MaskByte(p: nat, i: nat)
    requires p <= 32 && i < 4
    ensures Mask(p)[i] == if i < Cut(p) then 0xff else if i == Cut(p) then Ones(p - 8 * Cut(p)) else 0
  {
    hide Ones;
  }

  lemma MaskedByte(p: nat, i: nat, a: bv8, b: bv8, m: bv8)
    requires p <= 32 && i < 4 && And(b, m) == b
    requires m == if i < Cut(p) then 0xff else if i == Cut(p) then Ones(p - 8 * Cut(p)) else 0
    ensures And(b, m) == And(a, m) <==> ByteIn(p, i, ByteNat(a), ByteNat(b))
    ensures ByteNat(Fill(b, m)) == LastOf(p, i, ByteNat(b))
    ensures i == Cut(p) ==> ByteNat(b) + Span(p) <= 256
    ensures i > Cut(p) ==> ByteNat(b) == 0
  {
    hide Ones, Pow2, Cut, And, Fill, ByteNat;
    if i == Cut(p) {
      ByteInterval(a, b, p - 8 * Cut(p));
    } else {
      WholeByte(b, a);
      WholeByte(a, b);
    }
  }

  lemma ByteAgrees(n: IPNet, p: nat, ip: Address, i: nat)
    requires Parsed(n, p) && |ip| == 4 && i < 4
    ensures And(n.ip[i], n.mask[i]) == And(ip[i], n.mask[i]) <==> ByteIn(p, i, ByteNat(ip[i]), ByteNat(n.ip[i]))
    ensures ByteNat(Fill(n.ip[i], n.mask[i])) == LastOf(p, i, ByteNat(n.ip[i]))
    ensures i == Cut(p) ==> ByteNat(n.ip[i]) + Span(p) <= 256
    ensures i > Cut(p) ==> ByteNat(n.ip[i]) == 0
  {
    hide Ones, Span, Mask, ByteIn, LastOf, Cut, And, Fill, ByteNat;
    MaskByte(p, i);
    MaskedByte(p, i, ip[i], n.ip[i], n.mask[i]);
  }

  lemma CutArithmetic(p: nat, a0: nat, a1: nat, a2: nat, a3: nat, b0: nat, b1: nat, b2: nat, b3: nat, z: nat)
    requires p <= 32 && a0 < 256 && a1 < 256 && a2 < 256 && a3 < 256 && b0 < 256 && b1 < 256 && b2 < 256
    requires z == Span(p)
    requires [b0, b1, b2, b3][Cut(p)] + z <= 256
    requires (Cut(p) < 1 ==> b1 == 0) && (Cut(p) < 2 ==> b2 == 0) && (Cut(p) < 3 ==> b3 == 0)
    ensures ByteIn(p, 0, a0, b0) && ByteIn(p, 1, a1, b1) && ByteIn(p, 2, a2, b2) && ByteIn(p, 3, a3, b3)
            <==> Sum(b0, b1, b2, b3) <= Sum(a0, a1, a2, a3) < Sum(b0, b1, b2, b3) + z * Weight(Cut(p))
    ensures Sum(b0, b1, b2, b3) + z * Weight(Cut(p)) <= 0x1_0000_0000
  {
    hide Span;
    match Cut(p) {
      case 0 =>
      case 1 =>
      case 2 =>
      case 3 =>
    }
  }

  /** Containment by masks is membership in an interval of numbers, which does not wrap. */
  lemma ContainsIsInterval(n: IPNet, p: nat, ip: Address)
    requires Parsed(n, p) && |ip| == 4
    ensures Contains(n, ip) <==> Value(n.ip) <= Value(ip) < Value(n.ip) + Size(p)
    ensures Value(n.ip) + Size(p) <= 0x1_0000_0000
  {
    hide Value, Size, ByteIn, LastOf, Cut, Weight, Span, Mask, Sum, And, Fill, ByteNat;
    ByteAgrees(n, p, ip, 0);
    ByteAgrees(n, p, ip, 1);
    ByteAgrees(n, p, ip, 2);
    ByteAgrees(n, p, ip, 3);
    SizeAtCut(p);
    FourBytes(n.ip);
    FourBytes(ip);
    CutArithmetic(p, ByteNat(ip[0]), ByteNat(ip[1]), ByteNat(ip[2]), ByteNat(ip[3]),
                  ByteNat(n.ip[0]), ByteNat(n.ip[1]), ByteNat(n.ip[2]), ByteNat(n.ip[3]), Span(p));
  }

  // --- getBroadcastAddress ---

  function Broadcast(n: IPNet): (b: Address)
    requires |n.ip| == |n.mask|
    ensures |b| == |n.ip|
  {
    seq(|n.ip|, i requires 0 <= i < |n.ip| => Fill(n.ip[i], n.mask[i]))
  }

  method GetBroadcastAddress(n: IPNet) returns (ip: array<bv8>)
    requires |n.ip| == |n.mask|
    ensures fresh(ip) && ip[..] == Broadcast(n)
  {
    ip := new bv8[|n.ip|];
    for i := 0 to |n.ip|
      invariant ip.Length == |n.ip| && ip[..i] == Broadcast(n)[..i]
    {
      ip[i] := n.ip[i] | !n.mask[i];
    }
    assert ip[..ip.Length] == ip[..] && Broadcast(n)[..ip.Length] == Broadcast(n);
  }

  lemma LastArithmetic(p: nat, b0: nat, b1: nat, b2: nat, b3: nat, z: nat)
    requires p <= 32 && z == Span(p)
    requires (Cut(p) < 1 ==> b1 == 0) && (Cut(p) < 2 ==> b2 == 0) && (Cut(p) < 3 ==> b3 == 0)
    ensures Sum(LastOf(p, 0, b0), LastOf(p, 1, b1), LastOf(p, 2, b2), LastOf(p, 3, b3))
            == Sum(b0, b1, b2, b3) + z * Weight(Cut(p)) - 1
  {
    hide Span;
  }

  /** The broadcast address is the last of the block. */
  lemma BroadcastIsLast(n: IPNet, p: nat)
    requires Parsed(n, p)
    ensures Value(Broadcast(n)) == Value(n.ip) + Size(p) - 1
  {
    hide Value, Size, ByteIn, LastOf, Cut, Weight, Span, Mask, Sum, And, Fill, ByteNat;
    ByteAgrees(n, p, n.ip, 0);
    ByteAgrees(n, p, n.ip, 1);
    ByteAgrees(n, p, n.ip, 2);
    ByteAgrees(n, p, n.ip, 3);
    SizeAtCut(p);
    FourBytes(n.ip);
    FourBytes(Broadcast(n));
    LastArithmetic(p, ByteNat(n.ip[0]), ByteNat(n.ip[1]), ByteNat(n.ip[2]), ByteNat(n.ip[3]), Span(p));
  }
}
