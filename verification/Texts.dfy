/** White space, trimming and substring search, as the two source languages have them. */
module Texts {
  import opened Sequences

  /** The characters `str::trim` removes: Unicode `White_Space`. */
  predicate IsRustSpace(c: char) {
    || '\t' <= c <= '\r' || c == ' ' || c == '\U{85}' || c == '\U{A0}' || c == '\U{1680}'
    || '\U{2000}' <= c <= '\U{200A}' || c == '\U{2028}' || c == '\U{2029}' || c == '\U{202F}'
    || c == '\U{205F}' || c == '\U{3000}'
  }

  /** The characters `String.prototype.trim` removes. */
  predicate IsJsSpace(c: char) {
    (IsRustSpace(c) && c != '\U{85}') || c == '\U{FEFF}'
  }

  predicate AllOf(s: string, space: char -> bool) {
    forall i | 0 <= i < |s| :: space(s[i])
  }

  function TrimStart(s: string, space: char -> bool): string {
    if s != "" && space(s[0]) then TrimStart(s[1..], space) else s
  }

  function TrimEnd(s: string, space: char -> bool): string {
    if s != "" && space(s[|s| - 1]) then TrimEnd(s[..|s| - 1], space) else s
  }

  function Trim(s: string, space: char -> bool): string {
    TrimEnd(TrimStart(s, space), space)
  }

  /** `r` is `s` without its outermost spaces. */
  ghost predicate IsTrimmed(s: string, r: string, space: char -> bool) {
    && (r != "" ==> !space(r[0]) && !space(r[|r| - 1]))
    && exists a, b :: s == a + r + b && AllOf(a, space) && AllOf(b, space)
  }

  lemma {:induction false} TrimStartSpec(s: string, space: char -> bool)
    ensures var r := TrimStart(s, space);
            && |r| <= |s| && r == s[|s| - |r|..] && AllOf(s[..|s| - |r|], space)
            && (r != "" ==> !space(r[0]))
  {
    if s != "" && space(s[0]) {
      TrimStartSpec(s[1..], space);
      var r := TrimStart(s[1..], space);
      assert s[..|s| - |r|] == [s[0]] + s[1..][..|s| - 1 - |r|];
    }
  }

  lemma {:induction false} TrimEndSpec(s: string, space: char -> bool)
    ensures var r := TrimEnd(s, space);
            && |r| <= |s| && r == s[..|r|] && AllOf(s[|r|..], space)
            && (r != "" ==> !space(r[|r| - 1]))
  {
    if s != "" && space(s[|s| - 1]) {
      TrimEndSpec(s[..|s| - 1], space);
      var r := TrimEnd(s[..|s| - 1], space);
      assert s[|r|..] == s[..|s| - 1][|r|..] + [s[|s| - 1]];
    }
  }

  lemma CutInThree(s: string, x: nat, t: string, r: string)
    requires x <= |s| && t == s[x..] && |r| <= |t| && r == t[..|r|]
    ensures s == s[..x] + r + t[|r|..]
  {
    assert t == r + t[|r|..] && s == s[..x] + t;
    Associative(s[..x], r, t[|r|..]);
  }

  lemma TrimCuts(s: string, space: char -> bool)
    ensures var t, r := TrimStart(s, space), Trim(s, space);
            && |r| <= |t| <= |s| && t == s[|s| - |t|..] && r == t[..|r|]
            && AllOf(s[..|s| - |t|], space) && AllOf(t[|r|..], space)
  {
    TrimStartSpec(s, space);
    TrimEndSpec(TrimStart(s, space), space);
  }

  lemma TrimEdges(s: string, space: char -> bool)
    ensures var r := Trim(s, space);
            r != "" ==> !space(r[0]) && !space(r[|r| - 1])
  {
    var t := TrimStart(s, space);
    TrimStartSpec(s, space);
    TrimEndSpec(t, space);
    var r := Trim(s, space);
    if r != "" {
      assert r[0] == t[0];
    }
  }

  lemma TrimSplits(s: string, space: char -> bool)
    ensures var t, r := TrimStart(s, space), Trim(s, space);
            && |r| <= |t| <= |s| && s == s[..|s| - |t|] + r + t[|r|..]
            && AllOf(s[..|s| - |t|], space) && AllOf(t[|r|..], space)
            && (r != "" ==> !space(r[0]) && !space(r[|r| - 1]))
  {
    TrimCuts(s, space);
    TrimEdges(s, space);
    CutInThree(s, |s| - |TrimStart(s, space)|, TrimStart(s, space), Trim(s, space));
  }

  lemma TrimSpec(s: string, space: char -> bool)
    ensures IsTrimmed(s, Trim(s, space), space)
    ensures Trim(s, space) == "" <==> AllOf(s, space)
  {
    TrimSplits(s, space);
    var t, r := TrimStart(s, space), Trim(s, space);
    var a, b := s[..|s| - |t|], t[|r|..];
    if r == "" {
      assert s == a + b;
    } else {
      assert s[|a|] == r[0];
    }
  }

  /** Something that is no space around a part makes the whole longer when trimmed. */
  lemma TrimGrows(a: string, c: char, q: string, z: string, space: char -> bool)
    requires !space(c)
    ensures |Trim(a + [c] + q + z, space)| > |Trim(q, space)|
    ensures |Trim(q + [c] + z, space)| > |Trim(q, space)|
  {
    var s, t := a + [c] + q + z, q + [c] + z;
    TrimSplits(s, space);
    TrimSplits(t, space);
    TrimSplits(q, space);
    assert s[|a|] == c && t[|q|] == c;
    var r := Trim(q, space);
    if r != "" {
      var x := |q| - |TrimStart(q, space)|;
      assert q[x] == r[0] && q[x + |r| - 1] == r[|r| - 1];
      assert s[|a| + 1 + x + |r| - 1] == r[|r| - 1];
      assert t[x] == r[0];
    }
  }

  lemma {:induction false} TrimmedIsFixed(s: string, space: char -> bool)
    requires s != "" ==> !space(s[0]) && !space(s[|s| - 1])
    ensures Trim(s, space) == s
  {
  }

  /** `pattern` stands at position `i` of `s`. */
  predicate OccursAt(s: string, pattern: string, i: nat) {
    i + |pattern| <= |s| && s[i..i + |pattern|] == pattern
  }

  lemma OccursCharacter(s: string, pattern: string, i: nat, k: nat)
    requires k < |pattern|
    ensures OccursAt(s, pattern, i) ==> i + k < |s| && s[i + k] == pattern[k]
  {
  }

  /** The first occurrence at or after `from`. */
  function FindFrom(s: string, pattern: string, from: nat): (r: Option<nat>)
    requires from <= |s|
    ensures r.Some? ==> from <= r.value && OccursAt(s, pattern, r.value)
    ensures r.Some? ==> forall i | from <= i < r.value :: !OccursAt(s, pattern, i)
    ensures r.None? ==> forall i | from <= i :: !OccursAt(s, pattern, i)
    decreases |s| - from
  {
    if OccursAt(s, pattern, from) then Some(from)
    else if from == |s| then None
    else FindFrom(s, pattern, from + 1)
  }

  /** The last occurrence at or before `upTo`. */
  function FindLastUpTo(s: string, pattern: string, upTo: nat): (r: Option<nat>)
    ensures r.Some? ==> r.value <= upTo && OccursAt(s, pattern, r.value)
    ensures r.Some? ==> forall i | r.value < i <= upTo :: !OccursAt(s, pattern, i)
    ensures r.None? ==> forall i | 0 <= i <= upTo :: !OccursAt(s, pattern, i)
  {
    if OccursAt(s, pattern, upTo) then Some(upTo)
    else if upTo == 0 then None
    else FindLastUpTo(s, pattern, upTo - 1)
  }

  // ---- splitting and joining ----

  function Split(s: string, separator: char): (r: seq<string>)
    ensures r != []
  {
    if s == "" then [""]
    else
      var r := Split(s[..|s| - 1], separator);
      if s[|s| - 1] == separator then r + [""]
      else r[..|r| - 1] + [r[|r| - 1] + [s[|s| - 1]]]
  }

  function Join(parts: seq<string>, separator: string): string {
    if parts == [] then ""
    else if |parts| == 1 then parts[0]
    else Join(parts[..|parts| - 1], separator) + separator + parts[|parts| - 1]
  }

  predicate Without(parts: seq<string>, c: char) {
    forall i | 0 <= i < |parts| :: c !in parts[i]
  }

  /** One more character that is no separator goes to the last part. */
  lemma SplitSnoc(s: string, c: char, separator: char)
    requires c != separator
    ensures var r := Split(s, separator);
            Split(s + [c], separator) == r[..|r| - 1] + [r[|r| - 1] + [c]]
  {
  }

  lemma LastPart(r: seq<string>, front: seq<string>, p: string, c: char)
    requires r == front + [p]
    ensures r[..|r| - 1] + [r[|r| - 1] + [c]] == front + [p + [c]]
  {
  }

  lemma {:induction false} SplitExtends(a: string, part: string, separator: char)
    requires separator !in part
    ensures var r := Split(a, separator);
            Split(a + part, separator) == r[..|r| - 1] + [r[|r| - 1] + part]
  {
    var r := Split(a, separator);
    if part == "" {
      assert a + part == a && r[|r| - 1] + part == r[|r| - 1];
      assert r == r[..|r| - 1] + [r[|r| - 1]];
    } else {
      var front, last := part[..|part| - 1], part[|part| - 1];
      SplitExtends(a, front, separator);
      AppendFront(a, part);
      SplitSnoc(a + front, last, separator);
      LastPart(Split(a + front, separator), r[..|r| - 1], r[|r| - 1] + front, last);
      AppendFront(r[|r| - 1], part);
    }
  }

  lemma SplitAfter(a: string, part: string, separator: char)
    requires separator !in part
    ensures Split(a + [separator] + part, separator) == Split(a, separator) + [part]
  {
    var b := a + [separator];
    assert b[..|b| - 1] == a;
    SplitExtends(b, part, separator);
    assert "" + part == part;
  }

  /** Joining then splitting gives the parts back, when none contains the separator. */
  lemma {:induction false} SplitJoin(parts: seq<string>, separator: char)
    requires parts != [] && Without(parts, separator)
    ensures Split(Join(parts, [separator]), separator) == parts
  {
    var front, last := parts[..|parts| - 1], parts[|parts| - 1];
    assert parts == front + [last];
    if front == [] {
      SplitExtends("", last, separator);
      assert "" + last == last && parts == [last];
    } else {
      SplitJoin(front, separator);
      SplitAfter(Join(front, [separator]), last, separator);
    }
  }

  /** Splitting then joining gives the text back, and no part has a separator. */
  lemma {:induction false} JoinSplit(s: string, separator: char)
    ensures Join(Split(s, separator), [separator]) == s
    ensures Without(Split(s, separator), separator)
  {
    if s != "" {
      var front, last := s[..|s| - 1], s[|s| - 1];
      JoinSplit(front, separator);
      assert s == front + [last];
      var r := Split(front, separator);
      if last == separator {
        assert (r + [""])[..|r|] == r;
      } else {
        var q := r[..|r| - 1] + [r[|r| - 1] + [last]];
        assert q[..|q| - 1] == r[..|r| - 1];
        if |r| > 1 {
          var head := Join(r[..|r| - 1], [separator]) + [separator];
          assert head + (r[|r| - 1] + [last]) == (head + r[|r| - 1]) + [last];
        }
      }
    }
  }

  // ---- decimal numbers ----

  function Digit(n: nat): char
    requires n < 10
  {
    '0' + n as char
  }

  /** Decimal printing. */
  function Decimal(n: nat): (s: string)
    ensures s != ""
  {
    if n < 10 then [Digit(n)] else Decimal(n / 10) + [Digit(n % 10)]
  }

  lemma {:induction false} DecimalInjective(a: nat, b: nat)
    requires Decimal(a) == Decimal(b)
    ensures a == b
  {
    var s, t := Decimal(a), Decimal(b);
    assert s[|s| - 1] == Digit(a % 10) && t[|t| - 1] == Digit(b % 10);
    if a >= 10 && b >= 10 {
      assert s[..|s| - 1] == Decimal(a / 10) && t[..|t| - 1] == Decimal(b / 10);
      DecimalInjective(a / 10, b / 10);
    }
  }

  predicate IsDigit(c: char) {
    '0' <= c <= '9'
  }

  predicate AllDigits(s: string) {
    forall i | 0 <= i < |s| :: IsDigit(s[i])
  }

  /** What a string of digits stands for. */
  function DigitsValue(s: string): nat
    requires AllDigits(s)
  {
    if s == "" then 0 else DigitsValue(s[..|s| - 1]) * 10 + (s[|s| - 1] - '0') as nat
  }

  lemma {:induction false} DecimalValue(n: nat)
    ensures AllDigits(Decimal(n)) && DigitsValue(Decimal(n)) == n
  {
    if n >= 10 {
      DecimalValue(n / 10);
      var s := Decimal(n);
      assert s[..|s| - 1] == Decimal(n / 10);
    }
  }

  lemma SplitSeparator(s: string, separator: char)
    ensures Split(s + [separator], separator) == Split(s, separator) + [""]
  {
    assert (s + [separator])[..|s|] == s;
  }

  lemma SplitConcatStep(a: string, front: string, last: char, separator: char)
    requires Split(a + [separator] + front, separator) == Split(a, separator) + Split(front, separator)
    ensures Split(a + [separator] + front + [last], separator) == Split(a, separator) + Split(front + [last], separator)
  {
    var x, f := Split(a, separator), Split(front, separator);
    if last == separator {
      SplitSeparator(a + [separator] + front, separator);
      SplitSeparator(front, separator);
      Associative(x, f, [""]);
    } else {
      SplitSnoc(a + [separator] + front, last, separator);
      SplitSnoc(front, last, separator);
      FrontAndLast(f);
      Associative(x, f[..|f| - 1], [f[|f| - 1]]);
      LastPart(x + f, x + f[..|f| - 1], f[|f| - 1], last);
      Associative(x, f[..|f| - 1], [f[|f| - 1] + [last]]);
    }
  }

  lemma {:induction false} SplitConcat(a: string, b: string, separator: char)
    ensures Split(a + [separator] + b, separator) == Split(a, separator) + Split(b, separator)
  {
    if b == "" {
      SplitAfter(a, "", separator);
    } else {
      SplitConcat(a, b[..|b| - 1], separator);
      SplitConcatStep(a, b[..|b| - 1], b[|b| - 1], separator);
      FrontAndLast(b);
      Associative(a + [separator], b[..|b| - 1], [b[|b| - 1]]);
    }
  }

  lemma {:induction false} TrimStartSpaces(a: string, s: string, space: char -> bool)
    requires AllOf(a, space) && (s != "" ==> !space(s[0]))
    ensures TrimStart(a + s, space) == s
  {
    if a == "" {
      assert a + s == s;
    } else {
      TrimStartSpaces(a[1..], s, space);
      assert (a + s)[1..] == a[1..] + s;
    }
  }

  lemma {:induction false} TrimEndSpaces(s: string, b: string, space: char -> bool)
    requires AllOf(b, space) && (s != "" ==> !space(s[|s| - 1]))
    ensures TrimEnd(s + b, space) == s
  {
    if b == "" {
      assert s + b == s;
    } else {
      TrimEndSpaces(s, b[..|b| - 1], space);
      assert (s + b)[..|s + b| - 1] == s + b[..|b| - 1];
    }
  }

  /** Trimming takes away any spaces put around a trimmed text. */
  lemma TrimSurrounded(a: string, s: string, b: string, space: char -> bool)
    requires AllOf(a, space) && AllOf(b, space) && s != "" && !space(s[0]) && !space(s[|s| - 1])
    ensures Trim(a + s + b, space) == s
  {
    Associative(a, s, b);
    TrimStartSpaces(a, s + b, space);
    TrimEndSpaces(s, b, space);
  }
}
