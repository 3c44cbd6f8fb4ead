/** pkg/semver/semver.go: release versions, how they are read, written and compared (items 2 and 11
    of Semantic Versioning 2.0.0). */
module Semver {
  import opened Wrappers
  import opened Decimal

  // --- strconv.Atoi on 64 bits ---

  const MAX_INT := 0x7fff_ffff_ffff_ffff

  function Unsigned(s: string): string { if s != [] && (s[0] == '+' || s[0] == '-') then s[1..] else s }

  function Atoi(s: string): Option<int> {
    var digits := Unsigned(s);
    if digits == [] || !AllDigits(digits) then None
    else
      var n: int := if s[0] == '-' then -(Number(digits) as int) else Number(digits);
      if -MAX_INT - 1 <= n <= MAX_INT then Some(n) else None
  }

  // What is read: digits after at most one sign, in the range of the type.
  lemma AtoiReads(digits: string)
    requires digits != [] && AllDigits(digits)
    ensures Atoi(digits) == Atoi("+" + digits) == if Number(digits) <= MAX_INT then Some(Number(digits)) else None
    ensures Atoi("-" + digits) == if Number(digits) <= MAX_INT + 1 then Some(-(Number(digits) as int)) else None
  {
    hide Number;
    assert IsDigit(digits[0]);
    assert ("+" + digits)[1..] == digits && ("-" + digits)[1..] == digits;
  }

  // Nothing else is read.
  lemma AtoiReadsOnly(s: string)
    ensures Atoi(s).Some? ==> exists d :: d != [] && AllDigits(d) && (s == d || s == "+" + d || s == "-" + d)
  {
    hide Number;
    if Atoi(s).Some? {
      var d := Unsigned(s);
      assert s == d || s == [s[0]] + d;
    }
  }

  /** Splitting three dotless texts joined by dots gives them back. */
  lemma SplitThree(a: string, b: string, c: string)
    requires Dotless(a) && Dotless(b) && Dotless(c)
    ensures Split(a + "." + (b + "." + c)) == [a, b, c]
  {
    SplitAtDot(a, b + "." + c);
    SplitAtDot(b, c);
    SplitDotless(c);
  }

  // --- versions ---

  datatype Version = Version(major: int, minor: int, patch: int)

  datatype Error = InvalidFormat | InvalidMajor | InvalidMinor | InvalidPatch | Negative

  function TrimV(s: string): string { if s != [] && s[0] == 'v' then s[1..] else s }

  // One leading v goes, and nothing else.
  lemma TrimsOnce(s: string)
    ensures TrimV("v" + s) == s && (s == [] || s[0] != 'v' ==> TrimV(s) == s)
  {
    assert ("v" + s)[1..] == s;
  }

  function NewVersion(version: string): (r: Result<Version, Error>) {
    var parts := Split(TrimV(version));
    if |parts| != 3 then Err(InvalidFormat)
    else
      var major, minor, patch := Atoi(parts[0]), Atoi(parts[1]), Atoi(parts[2]);
      if major.None? then Err(InvalidMajor)
      else if minor.None? then Err(InvalidMinor)
      else if patch.None? then Err(InvalidPatch)
      else if major.value < 0 || minor.value < 0 || patch.value < 0 then Err(Negative)
      else Ok(Version(major.value, minor.value, patch.value))
  }

  // A version NewVersion can return.
  predicate Valid(v: Version) { 0 <= v.major <= MAX_INT && 0 <= v.minor <= MAX_INT && 0 <= v.patch <= MAX_INT }

  function String(v: Version): string
    requires Valid(v)
  {
    Itoa(v.major) + "." + (Itoa(v.minor) + "." + Itoa(v.patch))
  }

  lemma AtoiOfItoa(n: nat)
    requires n <= MAX_INT
    ensures Atoi(Itoa(n)) == Some(n) && Dotless(Itoa(n))
  {
    NumberOfItoa(n);
    assert IsDigit(Itoa(n)[0]);
  }

  lemma ReadsThree(s: string, a: string, b: string, c: string, v: Version)
    requires Dotless(a) && Dotless(b) && Dotless(c) && TrimV(s) == a + "." + (b + "." + c) && Valid(v)
    requires Atoi(a) == Some(v.major) && Atoi(b) == Some(v.minor) && Atoi(c) == Some(v.patch)
    ensures NewVersion(s) == Ok(v)
  {
    SplitThree(a, b, c);
  }

  /** Writing a version and reading it back gives the version, for all non-negative 64-bit
      components, with or without a leading v. */
  lemma RoundTrip(v: Version)
    requires Valid(v)
    ensures NewVersion(String(v)) == Ok(v) && NewVersion("v" + String(v)) == Ok(v)
  {
    var a, b, c := Itoa(v.major), Itoa(v.minor), Itoa(v.patch);
    AtoiOfItoa(v.major);
    AtoiOfItoa(v.minor);
    AtoiOfItoa(v.patch);
    assert IsDigit(String(v)[0]) by { assert String(v)[0] == a[0]; }
    assert ("v" + String(v))[1..] == String(v);
    ReadsThree(String(v), a, b, c, v);
    ReadsThree("v" + String(v), a, b, c, v);
  }

  // What is written: the three numerals joined by dots.
  lemma StringParts(v: Version)
    requires Valid(v)
    ensures Split(String(v)) == [Itoa(v.major), Itoa(v.minor), Itoa(v.patch)]
  {
    AtoiOfItoa(v.major);
    AtoiOfItoa(v.minor);
    AtoiOfItoa(v.patch);
    SplitThree(Itoa(v.major), Itoa(v.minor), Itoa(v.patch));
  }

  // A component as it may be written: digits after at most one sign, in range, not negative.
  predicate Component(s: string) { Atoi(s).Some? && Atoi(s).value >= 0 }

  /** A text is accepted if and only if, after a leading v if there is one, it is three such
      components joined by dots; the result is their values. */
  lemma AcceptedExactlyWhen(s: string)
    ensures NewVersion(s).Ok? <==>
              exists a, b, c :: Dotless(a) && Dotless(b) && Dotless(c) && TrimV(s) == a + "." + (b + "." + c)
                                && Component(a) && Component(b) && Component(c)
    ensures NewVersion(s).Ok? ==> Valid(NewVersion(s).value)
  {
    hide Split, TrimV, Atoi;
    var t := TrimV(s);
    var parts := Split(t);
    JoinSplit(t);
    if |parts| == 3 {
      JoinThree(parts);
      assert Dotless(parts[0]) && Dotless(parts[1]) && Dotless(parts[2]);
      AtoiRange(parts[0]);
      AtoiRange(parts[1]);
      AtoiRange(parts[2]);
    }
    forall a, b, c | Dotless(a) && Dotless(b) && Dotless(c) && t == a + "." + (b + "." + c) ensures parts == [a, b, c] {
      SplitThree(a, b, c);
    }
  }

  /** What is read, or what it is refused for: the number of parts, else the first part that is no
      number, else a negative one. */
  lemma ReadAs(s: string, a: string, b: string, c: string)
    requires Dotless(a) && Dotless(b) && Dotless(c) && TrimV(s) == a + "." + (b + "." + c)
    ensures NewVersion(s) ==
              if Atoi(a).None? then Err(InvalidMajor)
              else if Atoi(b).None? then Err(InvalidMinor)
              else if Atoi(c).None? then Err(InvalidPatch)
              else if Component(a) && Component(b) && Component(c) then Ok(Version(Atoi(a).value, Atoi(b).value, Atoi(c).value))
              else Err(Negative)
  {
    SplitThree(a, b, c);
  }

  lemma ReadAsNothing(s: string)
    ensures NewVersion(s) == Err(InvalidFormat) <==>
              !exists a, b, c :: Dotless(a) && Dotless(b) && Dotless(c) && TrimV(s) == a + "." + (b + "." + c)
  {
    hide TrimV, Atoi;
    var t := TrimV(s);
    JoinSplit(t);
    if |Split(t)| == 3 {
      JoinThree(Split(t));
      assert Dotless(Split(t)[0]) && Dotless(Split(t)[1]) && Dotless(Split(t)[2]);
    }
    forall a, b, c | Dotless(a) && Dotless(b) && Dotless(c) && t == a + "." + (b + "." + c) ensures |Split(t)| == 3 {
      SplitThree(a, b, c);
    }
  }

  lemma JoinThree(parts: seq<string>)
    requires |parts| == 3
    ensures Join(parts) == parts[0] + "." + (parts[1] + "." + parts[2])
  {
    var rest := parts[1..];
    assert rest[1..] == [parts[2]];
    assert Join(rest) == parts[1] + "." + Join(rest[1..]);
    assert Join(parts) == parts[0] + "." + Join(rest);
  }

  lemma AtoiRange(s: string)
    ensures Atoi(s).Some? ==> -MAX_INT - 1 <= Atoi(s).value <= MAX_INT
  {
  }

  // Signs and leading zeros, which Semantic Versioning 2.0.0 rules out, are accepted.
  lemma AcceptsMoreThanTheStandard()
    ensures NewVersion("01.+2.-0") == Ok(Version(1, 2, 0))
  {
    hide NewVersion, Atoi;
    SmallNumbers();
    assert "01.+2.-0" == "01" + "." + ("+2" + "." + "-0");
    ReadsThree("01.+2.-0", "01", "+2", "-0", Version(1, 2, 0));
  }

  lemma SmallNumbers()
    ensures Atoi("01") == Some(1) && Atoi("+2") == Some(2) && Atoi("-0") == Some(0)
  {
    NumberOfItoa(1);
    NumberOfItoa(2);
    NumberOfItoa(0);
    assert Itoa(1) == "1" && Itoa(2) == "2" && Itoa(0) == "0";
    assert "01"[..1] == "0" && "0"[..0] == [];
    assert Number("0") == 0 && Number("01") == 1;
    assert Unsigned("01") == "01" && Unsigned("+2") == "2" && Unsigned("-0") == "0";
  }

  // --- order ---

  predicate GreaterThan(v: Version, other: Version) {
    if v.major != other.major then v.major > other.major
    else if v.minor != other.minor then v.minor > other.minor
    else v.patch > other.patch
  }

  predicate Equal(v: Version, other: Version) {
    v.major == other.major && v.minor == other.minor && v.patch == other.patch
  }

  predicate LessThan(v: Version, other: Version) { !GreaterThan(v, other) && !Equal(v, other) }

  // Precedence goes by major, then minor, then patch version, each compared as a number (item 11).
  lemma Precedence(a: Version, b: Version)
    ensures a.major > b.major ==> GreaterThan(a, b)
    ensures a.major == b.major && a.minor > b.minor ==> GreaterThan(a, b)
    ensures a.major == b.major && a.minor == b.minor && a.patch > b.patch ==> GreaterThan(a, b)
  {
  }

  /** The order is a strict total order, LessThan the converse of GreaterThan, and Equal equality. */
  lemma StrictTotalOrder(a: Version, b: Version, c: Version)
    ensures !GreaterThan(a, a)
    ensures GreaterThan(a, b) && GreaterThan(b, c) ==> GreaterThan(a, c)
    ensures GreaterThan(a, b) || GreaterThan(b, a) || a == b
    ensures LessThan(a, b) <==> GreaterThan(b, a)
    ensures Equal(a, b) <==> a == b
  {
  }
}
