/** The user's shell `PATH`: cut out of a probe's output, then merged with the
    inherited one. Unix only. */
module ShellPath {
  import opened Sequences
  import opened Texts

  const BEGIN := "__CORIVO_PATH_BEGIN__"
  const END := "__CORIVO_PATH_END__"

  // ---- the probe ----

  /** `rfind`. */
  function FindLast(s: string, pattern: string): Option<nat> {
    FindLastUpTo(s, pattern, |s|)
  }

  function ExtractPath(stdout: string): Option<string> {
    var b := FindLast(stdout, BEGIN);
    if b.None? then None
    else
      var rest := stdout[b.value + |BEGIN|..];
      var e := FindFrom(rest, END, 0);
      if e.None? then None
      else
        var path := Trim(rest[..e.value], IsRustSpace);
        if path == "" then None else Some(path)
  }

  /** `p` stands between the last BEGIN of the output and the first END after it. */
  ghost predicate Framed(stdout: string, pre: string, p: string, post: string) {
    && stdout == pre + BEGIN + p + END + post
    && (forall i | |pre| < i :: !OccursAt(stdout, BEGIN, i))
    && (forall i | |pre| + |BEGIN| <= i < |pre| + |BEGIN| + |p| :: !OccursAt(stdout, END, i))
  }

  lemma OccursInRest(s: string, pattern: string, start: nat, i: nat)
    requires start <= |s|
    ensures OccursAt(s[start..], pattern, i) <==> OccursAt(s, pattern, start + i)
  {
  }

  /** Whatever the noise around the sentinels, the trimmed path comes back. */
  lemma ProbeRecovers(stdout: string, pre: string, p: string, post: string)
    requires Framed(stdout, pre, p, post)
    ensures ExtractPath(stdout) == if AllOf(p, IsRustSpace) then None else Some(Trim(p, IsRustSpace))
  {
    var start := |pre| + |BEGIN|;
    assert stdout[|pre|..start] == BEGIN;
    assert OccursAt(stdout, BEGIN, |pre|);
    assert FindLast(stdout, BEGIN) == Some(|pre|);
    var rest := stdout[start..];
    assert rest == p + END + post;
    assert rest[|p|..|p| + |END|] == END;
    assert OccursAt(rest, END, |p|);
    forall i: nat | i < |p| ensures !OccursAt(rest, END, i) {
      OccursInRest(stdout, END, start, i);
    }
    assert FindFrom(rest, END, 0) == Some(|p|);
    assert rest[..|p|] == p;
    TrimSpec(p, IsRustSpace);
  }

  lemma CutIsFramed(stdout: string, b: nat, e: nat)
    requires FindLast(stdout, BEGIN) == Some(b)
    requires FindFrom(stdout[b + |BEGIN|..], END, 0) == Some(e)
    ensures var rest := stdout[b + |BEGIN|..];
            Framed(stdout, stdout[..b], rest[..e], rest[e + |END|..])
  {
    var start := b + |BEGIN|;
    var rest := stdout[start..];
    CutAt(stdout, BEGIN, b);
    CutAt(rest, END, e);
    Flatten(stdout[..b], BEGIN, rest[..e], END, rest[e + |END|..]);
    forall i | start <= i < start + e ensures !OccursAt(stdout, END, i) {
      OccursInRest(stdout, END, start, i - start);
    }
  }

  /** And nothing else is ever extracted: a result always has such a frame. */
  lemma ProbeInventsNothing(stdout: string) returns (pre: string, p: string, post: string)
    requires ExtractPath(stdout).Some?
    ensures Framed(stdout, pre, p, post)
    ensures ExtractPath(stdout) == Some(Trim(p, IsRustSpace)) && !AllOf(p, IsRustSpace)
  {
    var b := FindLast(stdout, BEGIN).value;
    var rest := stdout[b + |BEGIN|..];
    var e := FindFrom(rest, END, 0).value;
    pre, p, post := stdout[..b], rest[..e], rest[e + |END|..];
    CutIsFramed(stdout, b, e);
    TrimSpec(p, IsRustSpace);
  }

  lemma Flatten(a: string, b: string, c: string, d: string, e: string)
    ensures a + b + (c + d + e) == a + b + c + d + e
  {
  }

  lemma CutAt(s: string, pattern: string, i: nat)
    requires OccursAt(s, pattern, i)
    ensures s == s[..i] + pattern + s[i + |pattern|..]
  {
  }

  /** The output as the probe writes it, with no further sentinel behind it. */
  ghost predicate Written(stdout: string, pre: string, p: string, post: string) {
    var written := |pre| + |BEGIN| + |p|;
    && stdout == pre + BEGIN + p + END + post
    && (forall i | written <= i :: !OccursAt(stdout, BEGIN, i))
    && (forall i | written < i :: !OccursAt(stdout, END, i))
  }

  lemma Pieces(stdout: string, pre: string, p: string, post: string)
    requires stdout == pre + BEGIN + p + END + post
    ensures OccursAt(stdout, BEGIN, |pre|) && OccursAt(stdout, END, |pre| + |BEGIN| + |p|)
    ensures stdout[|pre| + |BEGIN|..|pre| + |BEGIN| + |p|] == p
  {
    assert stdout[|pre|..|pre| + |BEGIN|] == BEGIN;
    var e := |pre| + |BEGIN| + |p|;
    assert stdout[e..e + |END|] == END;
  }

  /** Where the extracted text stands: between the last BEGIN and the first END after it. */
  lemma ExtractedAt(stdout: string, b: nat, e: nat)
    requires FindLast(stdout, BEGIN) == Some(b)
    requires b + |BEGIN| <= e && OccursAt(stdout, END, e)
    requires forall i | b + |BEGIN| <= i < e :: !OccursAt(stdout, END, i)
    ensures var q := stdout[b + |BEGIN|..e];
            ExtractPath(stdout) == if Trim(q, IsRustSpace) == "" then None else Some(Trim(q, IsRustSpace))
  {
    var start := b + |BEGIN|;
    var rest := stdout[start..];
    OccursInRest(stdout, END, start, e - start);
    forall i: nat | i < e - start ensures !OccursAt(rest, END, i) {
      OccursInRest(stdout, END, start, i);
    }
    assert FindFrom(rest, END, 0) == Some(e - start);
    assert rest[..e - start] == stdout[start..e];
  }

  /** The first END at or after `start`, given that there is one at `e`. */
  lemma FirstEnd(stdout: string, start: nat, e: nat) returns (f: nat)
    requires start <= e && OccursAt(stdout, END, e)
    ensures start <= f <= e && OccursAt(stdout, END, f)
    ensures forall i | start <= i < f :: !OccursAt(stdout, END, i)
  {
    f := start;
    while !OccursAt(stdout, END, f)
      invariant start <= f <= e
      invariant forall i | start <= i < f :: !OccursAt(stdout, END, i)
      decreases e - f
    {
      f := f + 1;
    }
  }

  /** A sentinel inside the path: only a shorter piece of the path comes back, or nothing. */
  lemma PieceIsShorter(stdout: string, pre: string, p: string, post: string, b: nat, e: nat)
    requires stdout == pre + BEGIN + p + END + post
    requires OccursAt(stdout, BEGIN, b) && |pre| <= b && b + |BEGIN| <= e <= |pre| + |BEGIN| + |p|
    requires OccursAt(stdout, END, e)
    requires b > |pre| || e < |pre| + |BEGIN| + |p|
    ensures |Trim(p, IsRustSpace)| > |Trim(stdout[b + |BEGIN|..e], IsRustSpace)|
  {
    Pieces(stdout, pre, p, post);
    var start := |pre| + |BEGIN|;
    var q := stdout[b + |BEGIN|..e];
    if b > |pre| {
      OccursCharacter(stdout, BEGIN, b, |BEGIN| - 1);
      var k := b + |BEGIN| - 1 - start;
      assert p == p[..k] + [p[k]] + q + p[e - start..];
      assert p[k] == stdout[b + |BEGIN| - 1] == '_';
      TrimGrows(p[..k], '_', q, p[e - start..], IsRustSpace);
    } else {
      OccursCharacter(stdout, END, e, 0);
      assert p[e - start] == stdout[e] == '_';
      assert p == q + ['_'] + p[e - start + 1..];
      TrimGrows("", '_', q, p[e - start + 1..], IsRustSpace);
    }
  }

  lemma NoEndLeft(stdout: string, b: nat)
    requires FindLast(stdout, BEGIN) == Some(b)
    requires forall i | b + |BEGIN| <= i :: !OccursAt(stdout, END, i)
    ensures ExtractPath(stdout) == None
  {
    var start := b + |BEGIN|;
    forall i: nat ensures !OccursAt(stdout[start..], END, i) {
      OccursInRest(stdout, END, start, i);
    }
  }

  /** A path is recovered exactly when the written sentinels are the last BEGIN and
      the first END after it, whatever noise comes before. */
  lemma ProbeExact(stdout: string, pre: string, p: string, post: string)
    requires Written(stdout, pre, p, post) && !AllOf(p, IsRustSpace)
    ensures ExtractPath(stdout) == Some(Trim(p, IsRustSpace)) <==> Framed(stdout, pre, p, post)
  {
    Pieces(stdout, pre, p, post);
    var written := |pre| + |BEGIN| + |p|;
    var b := FindLast(stdout, BEGIN).value;
    assert |pre| <= b < written;
    if Framed(stdout, pre, p, post) {
      ProbeRecovers(stdout, pre, p, post);
    } else if written < b + |BEGIN| {
      NoEndLeft(stdout, b);
    } else {
      var e := FirstEnd(stdout, b + |BEGIN|, written);
      ExtractedAt(stdout, b, e);
      PieceIsShorter(stdout, pre, p, post, b, e);
    }
  }

  /** A path that starts with the sentinel's own text is not recovered: the
      written BEGIN lends its last two characters to a later one. */
  lemma OverlappingSentinel()
    ensures ExtractPath(BEGIN + "CORIVO_PATH_BEGIN__/bin" + END) == Some("/bin")
  {
    var stdout := BEGIN + "CORIVO_PATH_BEGIN__/bin" + END;
    assert stdout == "__CORIVO_PATH_BEGIN" + BEGIN + "/bin" + END + "";
    NoLaterBegin(stdout);
    NoEarlierEnd(stdout);
    ProbeRecovers(stdout, "__CORIVO_PATH_BEGIN", "/bin", "");
    TrimmedIsFixed("/bin", IsRustSpace);
  }

  lemma NoLaterBegin(stdout: string)
    requires stdout == "__CORIVO_PATH_BEGIN" + BEGIN + "/bin" + END
    ensures forall i | 19 < i :: !OccursAt(stdout, BEGIN, i)
  {
    forall i | 19 < i ensures !OccursAt(stdout, BEGIN, i) {
      OccursCharacter(stdout, BEGIN, i, 2);
      OccursCharacter(stdout, BEGIN, i, 14);
    }
  }

  lemma NoEarlierEnd(stdout: string)
    requires stdout == "__CORIVO_PATH_BEGIN" + BEGIN + "/bin" + END
    ensures forall i | 40 <= i < 44 :: !OccursAt(stdout, END, i)
  {
    forall i | 40 <= i < 44 ensures !OccursAt(stdout, END, i) {
      OccursCharacter(stdout, END, i, 0);
      assert stdout[i] == "/bin"[i - 40];
    }
  }

  // ---- the merge ----

  /** What `PathBuf` equality compares: rooted or not, a leading ".", and the
      components, without empty ones and later "."s. */
  datatype PathKey = PathKey(rooted: bool, components: seq<string>)

  function Components(segments: seq<string>): seq<string> {
    if segments == [] then []
    else
      var front, last := segments[..|segments| - 1], segments[|segments| - 1];
      Components(front) + (if last == "" || (last == "." && front != []) then [] else [last])
  }

  function Key(path: string): PathKey {
    PathKey(path != "" && path[0] == '/', Components(Split(path, '/')))
  }

  function Keys(paths: seq<string>): (r: seq<PathKey>)
    ensures |r| == |paths| && forall i | 0 <= i < |r| :: r[i] == Key(paths[i])
  {
    seq(|paths|, i requires 0 <= i < |paths| => Key(paths[i]))
  }

  /** Entries are compared as paths, not as strings: a trailing slash or "/." does
      not make a new entry. */
  lemma TrailingNoise(path: string)
    requires path != ""
    ensures Key(path + "/") == Key(path) && Key(path + "/.") == Key(path)
  {
    var s := Split(path, '/');
    SplitAfter(path, "", '/');
    SplitAfter(path, ".", '/');
    assert path + "/" == path + ['/'] + "" && path + "/." == path + ['/'] + ".";
    ComponentsSnoc(s, "");
    ComponentsSnoc(s, ".");
    assert (path + "/")[0] == path[0] == (path + "/.")[0];
  }

  lemma ComponentsSnoc(front: seq<string>, last: string)
    requires front != [] && (last == "" || last == ".")
    ensures Components(front + [last]) == Components(front)
  {
  }

  /** `env::split_paths`: an empty value is one empty path. */
  function SplitPaths(value: Option<string>): seq<string> {
    if value.Some? then Split(value.value, ':') else []
  }

  /** `env::join_paths`: refuses a path that contains a colon. */
  function JoinPaths(paths: seq<string>): Option<string> {
    if Without(paths, ':') then Some(Join(paths, ":")) else None
  }

  /** `r` keeps of `paths` the first one under every key, in order. */
  ghost predicate Deduped(paths: seq<string>, r: seq<string>) {
    && Keys(r) == FirstOccurrences(Keys(paths))
    && forall i | 0 <= i < |r| :: r[i] == FirstWith(paths, Keys(r)[i])
  }

  ghost function FirstWith(paths: seq<string>, k: PathKey): string {
    if k in Keys(paths) then paths[FirstIndex(Keys(paths), k)] else ""
  }

  lemma FirstWithSnoc(paths: seq<string>, last: string, k: PathKey)
    requires k in Keys(paths)
    ensures FirstWith(paths + [last], k) == FirstWith(paths, k)
  {
    var i := FirstIndex(Keys(paths), k);
    var more := Keys(paths + [last]);
    assert more == Keys(paths) + [Key(last)];
    assert more[..i] == Keys(paths)[..i];
    FirstIndexUnique(more, k, i);
  }

  lemma KeysSnoc(paths: seq<string>, last: string)
    ensures Keys(paths + [last]) == Keys(paths) + [Key(last)]
  {
  }

  /** The first path under a key that was not there before is the new one. */
  lemma FirstWithNew(paths: seq<string>, last: string)
    requires Key(last) !in Keys(paths)
    ensures FirstWith(paths + [last], Key(last)) == last
  {
    KeysSnoc(paths, last);
    var ks := Keys(paths + [last]);
    assert ks[..|paths|] == Keys(paths);
    FirstIndexUnique(ks, Key(last), |paths|);
  }

  /** The paths kept so far stay the first under their keys. */
  lemma KeptStayFirst(paths: seq<string>, r: seq<string>, last: string)
    requires Deduped(paths, r)
    ensures forall i | 0 <= i < |r| :: r[i] == FirstWith(paths + [last], Keys(r)[i])
  {
    forall i | 0 <= i < |r| ensures r[i] == FirstWith(paths + [last], Keys(r)[i]) {
      assert Keys(r)[i] in FirstOccurrences(Keys(paths));
      FirstWithSnoc(paths, last, Keys(r)[i]);
    }
  }

  lemma DedupedAgain(paths: seq<string>, r: seq<string>, last: string)
    requires Deduped(paths, r) && Key(last) in Keys(r)
    ensures Deduped(paths + [last], r)
  {
    KeptStayFirst(paths, r, last);
    KeysSnoc(paths, last);
    FirstOccurrencesSnoc(Keys(paths), Key(last));
    assert Key(last) in FirstOccurrences(Keys(paths));
  }

  lemma DedupedMore(paths: seq<string>, r: seq<string>, last: string)
    requires Deduped(paths, r) && Key(last) !in Keys(r)
    ensures Deduped(paths + [last], r + [last])
  {
    KeptStayFirst(paths, r, last);
    KeysSnoc(paths, last);
    KeysSnoc(r, last);
    FirstOccurrencesSnoc(Keys(paths), Key(last));
    assert Key(last) !in FirstOccurrences(Keys(paths));
    FirstWithNew(paths, last);
    MoreFirst(paths + [last], r, last);
  }

  lemma MoreFirst(paths: seq<string>, r: seq<string>, last: string)
    requires forall i | 0 <= i < |r| :: r[i] == FirstWith(paths, Keys(r)[i])
    requires FirstWith(paths, Key(last)) == last
    ensures forall i | 0 <= i < |r + [last]| :: (r + [last])[i] == FirstWith(paths, Keys(r + [last])[i])
  {
  }

  /** An equal path is already there. */
  predicate Seen(deduped: seq<string>, path: string) {
    exists seen | seen in deduped :: Key(seen) == Key(path)
  }

  lemma SeenByKey(deduped: seq<string>, path: string)
    ensures Seen(deduped, path) <==> Key(path) in Keys(deduped)
  {
  }

  lemma DedupStep(paths: seq<string>, i: nat, r: seq<string>)
    requires i < |paths| && Deduped(paths[..i], r)
    ensures Deduped(paths[..i + 1], if Seen(r, paths[i]) then r else r + [paths[i]])
  {
    SeenByKey(r, paths[i]);
    if Seen(r, paths[i]) {
      DedupedAgain(paths[..i], r, paths[i]);
    } else {
      DedupedMore(paths[..i], r, paths[i]);
    }
    PrefixSnoc(paths, i);
  }

  method Dedup(paths: seq<string>) returns (deduped: seq<string>)
    ensures Deduped(paths, deduped)
  {
    deduped := [];
    for i := 0 to |paths|
      invariant Deduped(paths[..i], deduped)
    {
      DedupStep(paths, i, deduped);
      if !Seen(deduped, paths[i]) {
        deduped := deduped + [paths[i]];
      }
    }
    assert paths[..|paths|] == paths;
  }

  lemma DedupedMembers(paths: seq<string>, r: seq<string>)
    requires Deduped(paths, r)
    ensures forall i | 0 <= i < |r| :: r[i] in paths
  {
  }

  /** A list has at most one such dedup. */
  lemma DedupedUnique(paths: seq<string>, r: seq<string>, s: seq<string>)
    requires Deduped(paths, r) && Deduped(paths, s)
    ensures r == s
  {
  }

  /** What the merge promises: nothing only when there was nothing to merge, and
      otherwise a string that splits back to the entries of both values, in order,
      without later repeats. Joining never fails. */
  ghost predicate Merges(primary: Option<string>, fallback: Option<string>, merged: Option<string>) {
    && (merged.None? <==> primary.None? && fallback.None?)
    && (merged.Some? ==> Deduped(SplitPaths(primary) + SplitPaths(fallback), SplitPaths(merged)))
  }

  method MergePaths(primary: Option<string>, fallback: Option<string>) returns (merged: Option<string>)
    ensures Merges(primary, fallback, merged)
  {
    var paths: seq<string> := [];
    var values := [primary, fallback];
    for i := 0 to 2
      invariant Without(paths, ':')
      invariant i == 0 ==> paths == []
      invariant i == 1 ==> paths == SplitPaths(primary)
      invariant i == 2 ==> paths == SplitPaths(primary) + SplitPaths(fallback)
    {
      if values[i].Some? {
        JoinSplit(values[i].value, ':');
        paths := paths + SplitPaths(values[i]);
      }
    }
    var deduped := Dedup(paths);
    if deduped == [] {
      NothingToMerge(paths);
      return None;
    }
    DedupedMembers(paths, deduped);
    merged := JoinPaths(deduped);
    SplitJoin(deduped, ':');
  }

  lemma NothingToMerge(paths: seq<string>)
    requires Deduped(paths, [])
    ensures paths == []
  {
  }

  /** The merge is determined by its specification. */
  lemma MergeUnique(primary: Option<string>, fallback: Option<string>, a: Option<string>, b: Option<string>)
    requires Merges(primary, fallback, a) && Merges(primary, fallback, b)
    ensures a == b
  {
    if a.Some? {
      DedupedUnique(SplitPaths(primary) + SplitPaths(fallback), SplitPaths(a), SplitPaths(b));
      JoinSplit(a.value, ':');
      JoinSplit(b.value, ':');
    }
  }

  /** Merging once more with the same inherited value changes nothing: a process
      started with the merged `PATH` keeps it. */
  lemma MergeStable(primary: Option<string>, fallback: Option<string>, merged: Option<string>)
    requires Merges(primary, fallback, merged)
    ensures Merges(merged, fallback, merged)
  {
    if merged.Some? {
      DedupedStable(SplitPaths(primary), SplitPaths(fallback), SplitPaths(merged));
    }
  }

  lemma DedupedStable(p: seq<string>, f: seq<string>, m: seq<string>)
    requires Deduped(p + f, m)
    ensures Deduped(m + f, m)
  {
    var kp, kf, km := Keys(p), Keys(f), Keys(m);
    KeysAppend(p, f);
    KeysAppend(m, f);
    assert km == FirstOccurrences(kp + kf);
    KeysStable(kp, kf);
    forall i | 0 <= i < |m| ensures m[i] == FirstWith(m + f, km[i]) {
      FirstOfDistinct(m, f, i);
    }
  }

  lemma KeysAppend(a: seq<string>, b: seq<string>)
    ensures Keys(a + b) == Keys(a) + Keys(b)
  {
  }

  lemma FirstOfDistinct(m: seq<string>, f: seq<string>, i: nat)
    requires NoRepeats(Keys(m)) && i < |m|
    ensures FirstWith(m + f, Key(m[i])) == m[i]
  {
    var ks := Keys(m + f);
    assert ks == Keys(m) + Keys(f) && ks[i] == Key(m[i]);
    assert ks[..i] == Keys(m)[..i];
    FirstIndexUnique(ks, Key(m[i]), i);
  }

  lemma {:induction false} AddKnown(a: seq<PathKey>, b: seq<PathKey>)
    requires forall x | x in b :: x in a
    ensures FirstOccurrences(a + b) == FirstOccurrences(a)
  {
    if b == [] {
      assert a + b == a;
    } else {
      assert (a + b)[..|a + b| - 1] == a + b[..|b| - 1];
      AddKnown(a, b[..|b| - 1]);
    }
  }

  lemma KeysStable(a: seq<PathKey>, b: seq<PathKey>)
    ensures FirstOccurrences(FirstOccurrences(a + b) + b) == FirstOccurrences(a + b)
  {
    FirstOccurrencesAppend(a + b, b);
    AddKnown(a + b, b);
  }

  // ---- which paths are the same ----

  /** The components behind the first one: no empty ones and no ".". */
  function Later(segments: seq<string>): seq<string> {
    if segments == [] then []
    else
      var last := segments[|segments| - 1];
      Later(segments[..|segments| - 1]) + (if last == "" || last == "." then [] else [last])
  }

  lemma {:induction false} ComponentsConcat(a: seq<string>, b: seq<string>)
    requires a != []
    ensures Components(a + b) == Components(a) + Later(b)
  {
    if b == [] {
      Associative(a, [], []);
      Associative(Components(a), [], []);
    } else {
      var front, last := b[..|b| - 1], b[|b| - 1];
      ComponentsConcat(a, front);
      AppendFront(a, b);
      Associative(Components(a), Later(front), if last == "" || last == "." then [] else [last]);
    }
  }

  lemma KeyOfJoint(a: string, b: string)
    requires a != ""
    ensures Key(a + "/" + b) == PathKey(a[0] == '/', Components(Split(a, '/')) + Later(Split(b, '/')))
  {
    SplitConcat(a, b, '/');
    ComponentsConcat(Split(a, '/'), Split(b, '/'));
    assert a + "/" == a + ['/'] && (a + "/" + b)[0] == a[0];
  }

  lemma NoisySplit(b: string)
    ensures Split("/" + b, '/') == [""] + Split(b, '/')
    ensures Split("./" + b, '/') == ["."] + Split(b, '/')
  {
    SplitConcat("", b, '/');
    SplitConcat(".", b, '/');
    assert "" + ['/'] + b == "/" + b && "." + ['/'] + b == "./" + b;
    SplitExtends("", ".", '/');
    assert "" + "." == ".";
  }

  /** A doubled slash or a "." inside a path makes no new entry either. */
  lemma InnerNoise(a: string, b: string)
    requires a != ""
    ensures Key(a + "/" + ("/" + b)) == Key(a + "/" + b) == Key(a + "/" + ("./" + b))
  {
    KeyOfJoint(a, b);
    KeyOfJoint(a, "/" + b);
    KeyOfJoint(a, "./" + b);
    NoisySplit(b);
    LaterNoise(Split(b, '/'));
  }

  lemma {:induction false} LaterNoise(y: seq<string>)
    ensures Later([""] + y) == Later(y) == Later(["."] + y)
  {
    if y == [] {
      assert [""] + y == [""] && ["."] + y == ["."];
      assert [""][..0] == [] && ["."][..0] == [];
    } else {
      LaterNoise(y[..|y| - 1]);
      AppendFront([""], y);
      AppendFront(["."], y);
    }
  }

  /** A path without noise: behind its root or its first component there is no empty
      component and no ".". */
  predicate Plain(path: string) {
    path != ""
    && forall i | 1 <= i < |Split(path, '/')| :: Split(path, '/')[i] != "" && Split(path, '/')[i] != "."
  }

  lemma {:induction false} LaterPlain(segments: seq<string>)
    requires forall i | 0 <= i < |segments| :: segments[i] != "" && segments[i] != "."
    ensures Later(segments) == segments
  {
    if segments != [] {
      LaterPlain(segments[..|segments| - 1]);
      FrontAndLast(segments);
    }
  }

  lemma PlainComponents(path: string)
    requires Plain(path)
    ensures var s := Split(path, '/');
            && (s[0] == "" <==> path[0] == '/')
            && Components(s) == if path[0] == '/' then s[1..] else s
  {
    var s := Split(path, '/');
    assert s == [s[0]] + s[1..];
    ComponentsConcat([s[0]], s[1..]);
    LaterPlain(s[1..]);
    assert [s[0]][..0] == [];
    HeadOfSplit(path);
  }

  /** A path starts with a slash exactly when its first component is empty. */
  lemma {:induction false} HeadOfSplit(path: string)
    requires path != ""
    ensures Split(path, '/')[0] == "" <==> path[0] == '/'
  {
    var front, last := path[..|path| - 1], path[|path| - 1];
    if front == "" {
      assert Split(front, '/') == [""];
    } else {
      HeadOfSplit(front);
    }
  }

  /** Paths without noise are the same entry only if they are the same string. */
  lemma KeyInjective(p: string, q: string)
    requires Plain(p) && Plain(q) && Key(p) == Key(q)
    ensures p == q
  {
    PlainComponents(p);
    PlainComponents(q);
    SameSegments(Split(p, '/'), Split(q, '/'), p[0] == '/');
    JoinSplit(p, '/');
    JoinSplit(q, '/');
  }

  lemma SameSegments(s: seq<string>, t: seq<string>, rooted: bool)
    requires s != [] && t != []
    requires if rooted then s[0] == t[0] && s[1..] == t[1..] else s == t
    ensures s == t
  {
    assert s == [s[0]] + s[1..] && t == [t[0]] + t[1..];
  }

  predicate AllPlain(paths: seq<string>) {
    forall i | 0 <= i < |paths| :: Plain(paths[i])
  }

  lemma {:induction false} KeysOfFirst(paths: seq<string>)
    requires AllPlain(paths)
    ensures FirstOccurrences(Keys(paths)) == Keys(FirstOccurrences(paths))
  {
    if paths != [] {
      var front, last := paths[..|paths| - 1], paths[|paths| - 1];
      KeysOfFirst(front);
      FrontAndLast(paths);
      KeysSnoc(front, last);
      FirstOccurrencesSnoc(front, last);
      FirstOccurrencesSnoc(Keys(front), Key(last));
      KeysSnoc(FirstOccurrences(front), last);
      KeyAmong(front, last);
    }
  }

  lemma KeyAmong(paths: seq<string>, path: string)
    requires AllPlain(paths) && Plain(path)
    ensures Key(path) in Keys(paths) <==> path in paths
  {
    if i :| 0 <= i < |paths| && paths[i] == path {
      assert Keys(paths)[i] == Key(path);
    }
    if i :| 0 <= i < |paths| && Keys(paths)[i] == Key(path) {
      KeyInjective(paths[i], path);
    }
  }

  /** The merge without any notion of keys: when the entries of both values have no
      noise, the merged value splits back to their first occurrences, and so to all
      of them when they are distinct. */
  lemma MergeOfPlainEntries(primary: Option<string>, fallback: Option<string>, merged: Option<string>)
    requires Merges(primary, fallback, merged)
    requires AllPlain(SplitPaths(primary) + SplitPaths(fallback))
    ensures var entries := SplitPaths(primary) + SplitPaths(fallback);
            && SplitPaths(merged) == FirstOccurrences(entries)
            && (NoRepeats(entries) ==> SplitPaths(merged) == entries)
  {
    var entries, r := SplitPaths(primary) + SplitPaths(fallback), SplitPaths(merged);
    if merged.Some? {
      KeysOfFirst(entries);
      DedupedMembers(entries, r);
      var f := FirstOccurrences(entries);
      assert |r| == |Keys(r)| == |f|;
      forall i | 0 <= i < |r| ensures r[i] == f[i] {
        assert f[i] in f && f[i] in entries && r[i] in entries;
        assert Keys(r)[i] == Key(r[i]) && Keys(f)[i] == Key(f[i]);
        KeyInjective(r[i], f[i]);
      }
    }
    if NoRepeats(entries) {
      FirstOccurrencesFixed(entries);
    }
  }
}
