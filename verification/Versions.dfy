/** Release version comparison. */
module Versions {
  import opened Texts

  // ---- parsing ----

  /** The longest prefix of digits. */
  function LeadingDigits(s: string): (r: string)
    ensures AllDigits(r)
  {
    if s == "" || !IsDigit(s[0]) then "" else [s[0]] + LeadingDigits(s[1..])
  }

  /** `Number.parseInt(s, 10) || 0`: no digits make a zero. */
  function ParseInt(s: string): int {
    var t := TrimStart(s, IsJsSpace);
    if t != "" && t[0] == '-' then -(DigitsValue(LeadingDigits(t[1..])) as int)
    else if t != "" && t[0] == '+' then DigitsValue(LeadingDigits(t[1..]))
    else DigitsValue(LeadingDigits(t))
  }

  function ParseParts(parts: seq<string>): (r: seq<int>)
    ensures |r| == |parts|
  {
    seq(|parts|, i requires 0 <= i < |parts| => ParseInt(parts[i]))
  }

  function Version(s: string): seq<int> {
    ParseParts(Split(Trim(s, IsJsSpace), '.'))
  }

  // ---- comparing ----

  /** `v[i] ?? 0`. */
  function At(v: seq<int>, i: nat): int {
    if i < |v| then v[i] else 0
  }

  function Max(a: nat, b: nat): nat {
    if a < b then b else a
  }

  /** The first position at which the versions differ decides. */
  ghost predicate FirstDifference(a: seq<int>, b: seq<int>, i: nat) {
    At(a, i) != At(b, i) && forall j: nat | j < i :: At(a, j) == At(b, j)
  }

  ghost predicate SameEverywhere(a: seq<int>, b: seq<int>) {
    forall i: nat :: At(a, i) == At(b, i)
  }

  ghost predicate Compares(a: seq<int>, b: seq<int>, r: int) {
    && (r == 0 <==> SameEverywhere(a, b))
    && (r != 0 ==> exists i: nat :: FirstDifference(a, b, i) && r == At(a, i) - At(b, i))
  }

  method Compare(pa: seq<int>, pb: seq<int>) returns (r: int)
    ensures Compares(pa, pb, r)
  {
    var len := Max(|pa|, |pb|);
    for i := 0 to len
      invariant forall j: nat | j < i :: At(pa, j) == At(pb, j)
    {
      var x, y := At(pa, i), At(pb, i);
      if x != y {
        assert FirstDifference(pa, pb, i);
        return x - y;
      }
    }
    return 0;
  }

  method CompareVersions(a: string, b: string) returns (r: int)
    ensures Compares(Version(a), Version(b), r)
  {
    r := Compare(Version(a), Version(b));
  }

  // ---- the order ----

  lemma Unique(a: seq<int>, b: seq<int>, r: int, s: int)
    requires Compares(a, b, r) && Compares(a, b, s)
    ensures r == s
  {
  }

  lemma Antisymmetric(a: seq<int>, b: seq<int>, r: int)
    requires Compares(a, b, r)
    ensures Compares(b, a, -r)
  {
  }

  lemma Transitive(a: seq<int>, b: seq<int>, c: seq<int>, ab: int, bc: int, ac: int)
    requires Compares(a, b, ab) && Compares(b, c, bc) && Compares(a, c, ac)
    requires ab <= 0 && bc <= 0
    ensures ac <= 0 && (ac == 0 <==> ab == 0 && bc == 0)
  {
  }

  function DropTrailingZeros(v: seq<int>): (r: seq<int>)
    ensures r != [] ==> r[|r| - 1] != 0
  {
    if v != [] && v[|v| - 1] == 0 then DropTrailingZeros(v[..|v| - 1]) else v
  }

  lemma {:induction false} DropKeepsValues(v: seq<int>)
    ensures SameEverywhere(v, DropTrailingZeros(v))
  {
    if v != [] && v[|v| - 1] == 0 {
      var front := v[..|v| - 1];
      DropKeepsValues(front);
      assert forall i: nat :: At(v, i) == At(front, i);
    }
  }

  lemma TrimmedSameIsEqual(v: seq<int>, w: seq<int>)
    requires SameEverywhere(v, w) && |v| <= |w|
    requires w != [] ==> w[|w| - 1] != 0
    ensures v == w
  {
    assert w != [] ==> At(v, |w| - 1) == At(w, |w| - 1);
    forall i | 0 <= i < |v| ensures v[i] == w[i] {
      assert At(v, i) == At(w, i);
    }
  }

  /** Two versions are equal exactly when they agree after dropping trailing zeros. */
  lemma ZeroExact(a: seq<int>, b: seq<int>, r: int)
    requires Compares(a, b, r)
    ensures r == 0 <==> DropTrailingZeros(a) == DropTrailingZeros(b)
  {
    var v, w := DropTrailingZeros(a), DropTrailingZeros(b);
    DropKeepsValues(a);
    DropKeepsValues(b);
    if r == 0 {
      assert forall i: nat :: At(v, i) == At(a, i) == At(b, i) == At(w, i);
      if |v| <= |w| {
        TrimmedSameIsEqual(v, w);
      } else {
        TrimmedSameIsEqual(w, v);
      }
    }
    if v == w {
      assert forall i: nat :: At(a, i) == At(v, i) == At(b, i);
    }
  }

  // ---- printed versions parse back ----

  function Decimals(v: seq<nat>): (r: seq<string>)
    ensures |r| == |v|
  {
    seq(|v|, i requires 0 <= i < |v| => Decimal(v[i]))
  }

  function Printed(v: seq<nat>): string {
    Join(Decimals(v), ".")
  }

  lemma {:induction false} AllLeading(s: string)
    requires AllDigits(s)
    ensures LeadingDigits(s) == s
  {
    if s != "" {
      AllLeading(s[1..]);
    }
  }

  lemma ParsePrinted(n: nat)
    ensures ParseInt(Decimal(n)) == n
  {
    DecimalValue(n);
    var s := Decimal(n);
    assert IsDigit(s[0]);
    assert TrimStart(s, IsJsSpace) == s;
    AllLeading(s);
  }

  lemma {:induction false} PrintedEnds(v: seq<nat>)
    requires v != []
    ensures Printed(v) != "" && IsDigit(Printed(v)[0]) && IsDigit(Printed(v)[|Printed(v)| - 1])
  {
    var front, last := v[..|v| - 1], v[|v| - 1];
    DecimalValue(last);
    assert Decimals(front) == Decimals(v)[..|v| - 1];
    if front == [] {
      assert Printed(v) == Decimal(last);
    } else {
      PrintedEnds(front);
      assert Printed(v) == Printed(front) + "." + Decimal(last);
    }
  }

  /** So a comparison of printed versions is the comparison of their numbers. */
  lemma PrintedVersion(v: seq<nat>)
    requires v != []
    ensures Version(Printed(v)) == v
  {
    PrintedEnds(v);
    TrimmedIsFixed(Printed(v), IsJsSpace);
    forall i | 0 <= i < |v| ensures '.' !in Decimals(v)[i] {
      DecimalValue(v[i]);
    }
    SplitJoin(Decimals(v), '.');
    forall i | 0 <= i < |v| ensures ParseInt(Decimals(v)[i]) == v[i] {
      ParsePrinted(v[i]);
    }
  }

  // ---- what a component parses to ----

  lemma {:induction false} LeadingStops(digits: string, rest: string)
    requires AllDigits(digits) && (rest != "" ==> !IsDigit(rest[0]))
    ensures LeadingDigits(digits + rest) == digits
  {
    if digits == "" {
      assert digits + rest == rest;
    } else {
      LeadingStops(digits[1..], rest);
      assert (digits + rest)[1..] == digits[1..] + rest;
    }
  }

  /** A component is its leading number: spaces before it and anything behind its
      digits are ignored, a sign counts, and without digits it is zero. */
  lemma ParseExact(spaces: string, sign: string, digits: string, rest: string)
    requires AllOf(spaces, IsJsSpace) && AllDigits(digits) && (rest != "" ==> !IsDigit(rest[0]))
    requires sign == "" || sign == "-" || sign == "+"
    requires sign == "" && digits == "" ==> rest == "" || (!IsJsSpace(rest[0]) && rest[0] != '-' && rest[0] != '+')
    ensures ParseInt(spaces + (sign + (digits + rest)))
         == if sign == "-" then -(DigitsValue(digits) as int) else DigitsValue(digits)
  {
    var t := sign + (digits + rest);
    TrimStartSpaces(spaces, t, IsJsSpace);
    LeadingStops(digits, rest);
    if sign == "" {
      assert t == digits + rest;
    } else {
      assert t[1..] == digits + rest;
    }
  }
}
