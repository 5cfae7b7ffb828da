/** Sequence vocabulary shared by the component modules. */
module Sequences {

  datatype Option<+T> = None | Some(value: T)

  predicate NoRepeats<T(==)>(s: seq<T>) {
    forall i, j | 0 <= i < j < |s| :: s[i] != s[j]
  }

  lemma FrontAndLast<T>(s: seq<T>)
    requires s != []
    ensures s == s[..|s| - 1] + [s[|s| - 1]]
  {
  }

  lemma PrefixSnoc<T>(s: seq<T>, i: nat)
    requires i < |s|
    ensures s[..i + 1] == s[..i] + [s[i]]
  {
  }

  lemma Associative<T>(a: seq<T>, b: seq<T>, c: seq<T>)
    ensures a + b + c == a + (b + c)
    ensures a + [] == a
  {
  }

  lemma AppendFront<T>(a: seq<T>, b: seq<T>)
    requires b != []
    ensures (a + b)[..|a + b| - 1] == a + b[..|b| - 1] && (a + b)[|a + b| - 1] == b[|b| - 1]
    ensures a + b == (a + b[..|b| - 1]) + [b[|b| - 1]]
  {
  }

  /** What is left of `s` when every later repeat is dropped, in the original
      order: the insertion order of a JavaScript `Set` filled from `s`. */
  function FirstOccurrences<T(==, !new)>(s: seq<T>): (r: seq<T>)
    ensures NoRepeats(r)
    ensures forall x :: x in r <==> x in s
  {
    if s == [] then []
    else
      var front := FirstOccurrences(s[..|s| - 1]);
      var last := s[|s| - 1];
      assert s == s[..|s| - 1] + [last];
      if last in front then front else front + [last]
  }

  /** The index at which `x` first appears in `s`. */
  ghost function FirstIndex<T>(s: seq<T>, x: T): (i: nat)
    requires x in s
    ensures i < |s| && s[i] == x && x !in s[..i]
  {
    if s[0] == x then 0 else 1 + FirstIndex(s[1..], x)
  }

  lemma FirstIndexUnique<T>(s: seq<T>, x: T, i: nat)
    requires i < |s| && s[i] == x && x !in s[..i]
    ensures FirstIndex(s, x) == i
  {
  }

  /** The survivors stand in the order in which they first appeared. */
  lemma {:induction false} FirstOccurrencesOrder<T(!new)>(s: seq<T>)
    ensures forall i, j | 0 <= i < j < |FirstOccurrences(s)| ::
              FirstIndex(s, FirstOccurrences(s)[i]) < FirstIndex(s, FirstOccurrences(s)[j])
  {
    if s != [] {
      var front, last := s[..|s| - 1], s[|s| - 1];
      assert s == front + [last];
      FirstOccurrencesOrder(front);
      var r, f := FirstOccurrences(s), FirstOccurrences(front);
      forall x | x in front ensures FirstIndex(s, x) == FirstIndex(front, x) {
        var k := FirstIndex(front, x);
        assert s[..k] == front[..k];
        FirstIndexUnique(s, x, k);
      }
      if last !in f {
        assert s[..|front|] == front;
        FirstIndexUnique(s, last, |front|);
      }
      forall i, j | 0 <= i < j < |r| ensures FirstIndex(s, r[i]) < FirstIndex(s, r[j]) {
        assert r[i] == f[i] && f[i] in front;
        if j < |f| { assert r[j] == f[j]; }
      }
    }
  }

  lemma {:induction false} FirstOccurrencesFixed<T(!new)>(s: seq<T>)
    requires NoRepeats(s)
    ensures FirstOccurrences(s) == s
  {
    if s != [] {
      FirstOccurrencesFixed(s[..|s| - 1]);
      assert s == s[..|s| - 1] + [s[|s| - 1]];
    }
  }

  /** Nothing is dropped exactly when nothing repeats. */
  lemma {:induction false} FirstOccurrencesLength<T(!new)>(s: seq<T>)
    ensures |FirstOccurrences(s)| <= |s|
    ensures |FirstOccurrences(s)| == |s| <==> NoRepeats(s)
  {
    if s != [] {
      var front, last := s[..|s| - 1], s[|s| - 1];
      FirstOccurrencesLength(front);
      assert s == front + [last];
      if last in front {
        var i :| 0 <= i < |front| && front[i] == last;
        assert s[i] == s[|s| - 1];
      }
    }
  }

  lemma FirstOccurrencesSnoc<T(!new)>(front: seq<T>, last: T)
    ensures FirstOccurrences(front + [last])
         == if last in front then FirstOccurrences(front) else FirstOccurrences(front) + [last]
  {
  }

  lemma FirstOccurrencesStep<T(!new)>(a: seq<T>, b: seq<T>, last: T)
    requires FirstOccurrences(a) == FirstOccurrences(b)
    ensures FirstOccurrences(a + [last]) == FirstOccurrences(b + [last])
  {
  }

  /** Dropping repeats from a prefix first makes no difference. */
  lemma {:induction false} FirstOccurrencesAppend<T(!new)>(a: seq<T>, b: seq<T>)
    ensures FirstOccurrences(FirstOccurrences(a) + b) == FirstOccurrences(a + b)
  {
    if b == [] {
      assert a + b == a && FirstOccurrences(a) + b == FirstOccurrences(a);
      FirstOccurrencesFixed(FirstOccurrences(a));
    } else {
      var front, last := b[..|b| - 1], b[|b| - 1];
      FirstOccurrencesAppend(a, front);
      AppendFront(a, b);
      AppendFront(FirstOccurrences(a), b);
      FirstOccurrencesStep(FirstOccurrences(a) + front, a + front, last);
    }
  }
}
