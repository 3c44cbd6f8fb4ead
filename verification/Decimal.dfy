/** Decimal numerals, and texts joined by dots. */
module Decimal {
  predicate IsDigit(c: char) { '0' <= c <= '9' }

  predicate AllDigits(s: string) { forall c :: c in s ==> IsDigit(c) }

  function Digit(n: nat): (c: char)
    requires n < 10
    ensures IsDigit(c)
  {
    ('0' as int + n) as char
  }

  // %d of a non-negative number.
  function Itoa(n: nat): (s: string)
    ensures |s| > 0 && forall c :: c in s ==> IsDigit(c)
  {
    if n < 10 then [Digit(n)] else Itoa(n / 10) + [Digit(n % 10)]
  }

  function Number(s: string): nat
    requires AllDigits(s)
  {
    if s == [] then 0
    else
      assert IsDigit(s[|s| - 1]);
      Number(s[..|s| - 1]) * 10 + (s[|s| - 1] as int - '0' as int)
  }

  lemma {:induction false} NumberOfItoa(n: nat)
    ensures Number(Itoa(n)) == n
  {
    var s := Itoa(n);
    if n < 10 {
      assert s[..0] == [];
      assert Number(s[..0]) == 0;
    } else {
      NumberOfItoa(n / 10);
      assert s[..|s| - 1] == Itoa(n / 10);
    }
  }

  lemma ItoaInjective(m: nat, n: nat)
    requires Itoa(m) == Itoa(n)
    ensures m == n
  {
    NumberOfItoa(m);
    NumberOfItoa(n);
  }

  // A text without dots before a dot can be told.
  lemma DotSplits(a: string, b: string, x: string, y: string)
    requires AllDigits(a) && AllDigits(b) && a + "." + x == b + "." + y
    ensures a == b && x == y
  {
    var s, t := a + "." + x, b + "." + y;
    assert forall k :: 0 <= k < |a| ==> IsDigit(s[k]);
    assert forall k :: 0 <= k < |b| ==> IsDigit(t[k]);
    assert !IsDigit(s[|a|]) && !IsDigit(t[|b|]);
    assert s[..|a|] == a && t[..|b|] == b;
    assert s[|a| + 1..] == x && t[|b| + 1..] == y;
  }

  // Reading a numeral and writing it gives the same text exactly when it has no leading zeros.
  lemma {:induction false} ItoaOfNumber(s: string)
    requires s != [] && AllDigits(s)
    ensures Itoa(Number(s)) == s <==> |s| == 1 || s[0] != '0'
  {
    var init, last := s[..|s| - 1], s[|s| - 1];
    assert IsDigit(last);
    if init == [] {
      assert Number(init) == 0 && s == [last];
    } else {
      ItoaOfNumber(init);
      NumberPositive(init);
      assert s == init + [last] && init[0] == s[0];
      if Number(init) > 0 {
        assert Number(s) / 10 == Number(init) && Itoa(Number(s)) == Itoa(Number(init)) + [last];
        assert Itoa(Number(s)) == s <==> Itoa(Number(init)) == init;
      } else {
        assert Itoa(Number(s)) == [last];
      }
    }
  }

  lemma {:induction false} NumberPositive(s: string)
    requires s != [] && AllDigits(s)
    ensures s[0] != '0' ==> Number(s) > 0
    ensures Number(s) > 0 && |s| == 1 ==> s[0] != '0'
  {
    var init := s[..|s| - 1];
    assert IsDigit(s[|s| - 1]);
    if init != [] {
      NumberPositive(init);
    }
  }

  // --- texts joined by dots ---

  function Split(s: string): (parts: seq<string>)
    ensures parts != []
  {
    if s == [] then [[]]
    else
      var rest := Split(s[1..]);
      if s[0] == '.' then [[]] + rest else [[s[0]] + rest[0]] + rest[1..]
  }

  function Join(parts: seq<string>): string
    requires parts != []
  {
    if |parts| == 1 then parts[0] else parts[0] + "." + Join(parts[1..])
  }

  predicate Dotless(s: string) { '.' !in s }

  /** Splitting loses nothing. */
  lemma {:induction false} JoinSplit(s: string)
    ensures Join(Split(s)) == s && forall p :: p in Split(s) ==> Dotless(p)
  {
    if s != [] {
      JoinSplit(s[1..]);
      var rest := Split(s[1..]);
      assert s == [s[0]] + s[1..];
      if s[0] == '.' {
        assert ([[]] + rest)[1..] == rest;
      } else {
        var parts := [[s[0]] + rest[0]] + rest[1..];
        assert parts[1..] == rest[1..];
        assert Dotless(rest[0]);
        if |rest| > 1 {
          assert [s[0]] + (rest[0] + "." + Join(rest[1..])) == [s[0]] + rest[0] + "." + Join(rest[1..]);
        }
      }
    }
  }

  lemma {:induction false} SplitDotless(a: string)
    requires Dotless(a)
    ensures Split(a) == [a]
  {
    if a != [] {
      SplitDotless(a[1..]);
      assert [a[0]] + a[1..] == a;
    }
  }

  lemma {:induction false} SplitAtDot(a: string, s: string)
    requires Dotless(a)
    ensures Split(a + "." + s) == [a] + Split(s)
  {
    var t := a + "." + s;
    if a == [] {
      assert t[1..] == s;
    } else {
      assert t[1..] == a[1..] + "." + s;
      SplitAtDot(a[1..], s);
      assert [a[0]] + a[1..] == a;
    }
  }
}
