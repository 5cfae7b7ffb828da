/** Loading skills: four sources merged by name, then cut down to the names the
    user has enabled. */
module Skills {
  import opened Sequences

  datatype Skill = Skill(name: string, filePath: string)

  datatype Source = Agent | Bundled | Claude | Market

  datatype Diagnostic =
    | Reported(text: string)
    | Collision(name: string, winnerPath: string, loserPath: string, winnerSource: Source, loserSource: Source)

  datatype Loaded = Loaded(skills: seq<Skill>, diagnostics: seq<Diagnostic>)

  function Names(s: seq<Skill>): (r: seq<string>)
    ensures |r| == |s| && forall i | 0 <= i < |s| :: r[i] == s[i].name
  {
    seq(|s|, i requires 0 <= i < |s| => s[i].name)
  }

  /** The first skill of that name. */
  function Lookup(s: seq<Skill>, name: string): (r: Option<Skill>)
    ensures r.Some? ==> r.value.name == name
  {
    if s == [] then None
    else OrElse(Lookup(s[..|s| - 1], name), Named(s[|s| - 1], name))
  }

  function Named(s: Skill, name: string): Option<Skill> {
    if s.name == name then Some(s) else None
  }

  function OrElse(a: Option<Skill>, b: Option<Skill>): Option<Skill> {
    if a.Some? then a else b
  }

  lemma {:induction false} LookupNames(s: seq<Skill>, name: string)
    ensures Lookup(s, name).Some? <==> name in Names(s)
  {
    if s != [] {
      LookupNames(s[..|s| - 1], name);
      assert Names(s) == Names(s[..|s| - 1]) + [s[|s| - 1].name];
    }
  }

  lemma LookupSnoc(front: seq<Skill>, last: Skill, name: string)
    ensures Lookup(front + [last], name) == OrElse(Lookup(front, name), Named(last, name))
  {
  }

  /** The last skill of that name. */
  function LookupLast(s: seq<Skill>, name: string): Option<Skill> {
    if s == [] then None
    else OrElse(Named(s[|s| - 1], name), LookupLast(s[..|s| - 1], name))
  }

  lemma NamesAppend(s: seq<Skill>, t: seq<Skill>)
    ensures Names(s + t) == Names(s) + Names(t)
  {
  }

  // ---- a JavaScript `Map` from names to skills, in insertion order ----

  /** `Map.set`: a known key keeps its place and takes the new value. */
  function Put(m: seq<Skill>, s: Skill): seq<Skill> {
    if Lookup(m, s.name).Some? then
      seq(|m|, i requires 0 <= i < |m| => if m[i].name == s.name then s else m[i])
    else m + [s]
  }

  /** `Put` on a list whose last entry is `last`. */
  lemma ReplaceSnoc(front: seq<Skill>, last: Skill, s: Skill)
    requires Lookup(front + [last], s.name).Some?
    ensures var l := if last.name == s.name then s else last;
            Put(front + [last], s) == (if Lookup(front, s.name).Some? then Put(front, s) else front) + [l]
  {
    LookupSnoc(front, last, s.name);
    if Lookup(front, s.name).None? {
      NotNamed(front, s.name);
    }
  }

  lemma NotNamed(s: seq<Skill>, name: string)
    requires Lookup(s, name).None?
    ensures forall i | 0 <= i < |s| :: s[i].name != name
  {
  }

  lemma {:induction false} LookupPut(m: seq<Skill>, s: Skill, name: string)
    ensures Lookup(Put(m, s), name) == if name == s.name then Some(s) else Lookup(m, name)
  {
    if Lookup(m, s.name).None? {
      LookupSnoc(m, s, name);
    } else {
      var front, last := m[..|m| - 1], m[|m| - 1];
      assert m == front + [last];
      LookupSnoc(front, last, name);
      ReplaceSnoc(front, last, s);
      LookupPut(front, s, name);
      var f := if Lookup(front, s.name).Some? then Put(front, s) else front;
      LookupSnoc(f, if last.name == s.name then s else last, name);
    }
  }

  // ---- the merge as a function of the four lists ----

  function PutAll(skills: seq<Skill>): seq<Skill> {
    if skills == [] then [] else Put(PutAll(skills[..|skills| - 1]), skills[|skills| - 1])
  }

  /** Add the skills of a lower source whose names are still free. */
  function AddFree(m: seq<Skill>, skills: seq<Skill>): seq<Skill> {
    if skills == [] then m
    else
      var r := AddFree(m, skills[..|skills| - 1]);
      var s := skills[|skills| - 1];
      if Lookup(r, s.name).Some? then r else r + [s]
  }

  /** One collision for every skill of a lower source whose name was taken. The
      source reports "agent" as the winner whoever holds the name. */
  function Collisions(m: seq<Skill>, skills: seq<Skill>, source: Source): seq<Diagnostic> {
    if skills == [] then []
    else
      var s := skills[|skills| - 1];
      var r := AddFree(m, skills[..|skills| - 1]);
      Collisions(m, skills[..|skills| - 1], source)
      + (if Lookup(r, s.name).Some? then
           [Collision(s.name, Lookup(r, s.name).value.filePath, s.filePath, Agent, source)]
         else [])
  }

  /** The losers themselves. */
  function Losers(m: seq<Skill>, skills: seq<Skill>): seq<Skill> {
    if skills == [] then []
    else
      var s := skills[|skills| - 1];
      Losers(m, skills[..|skills| - 1])
      + (if Lookup(AddFree(m, skills[..|skills| - 1]), s.name).Some? then [s] else [])
  }

  datatype Sources = Sources(agent: seq<Skill>, bundled: seq<Skill>, claude: seq<Skill>, market: seq<Skill>)

  function WithBundled(s: Sources): seq<Skill> {
    AddFree(PutAll(s.agent), s.bundled)
  }

  function WithClaude(s: Sources): seq<Skill> {
    AddFree(WithBundled(s), s.claude)
  }

  function Merged(s: Sources): seq<Skill> {
    AddFree(WithClaude(s), s.market)
  }

  function AllCollisions(s: Sources): seq<Diagnostic> {
    Collisions(PutAll(s.agent), s.bundled, Bundled)
    + Collisions(WithBundled(s), s.claude, Claude)
    + Collisions(WithClaude(s), s.market, Market)
  }

  function AllLosers(s: Sources): seq<Skill> {
    Losers(PutAll(s.agent), s.bundled) + Losers(WithBundled(s), s.claude) + Losers(WithClaude(s), s.market)
  }

  function AllLoaded(s: Sources): seq<Skill> {
    s.agent + s.bundled + s.claude + s.market
  }

  function Enabled(skills: seq<Skill>, names: seq<string>): seq<Skill> {
    if skills == [] then []
    else
      Enabled(skills[..|skills| - 1], names)
      + (if skills[|skills| - 1].name in names then [skills[|skills| - 1]] else [])
  }

  // ---- the loops ----

  method AddSource(merged: seq<Skill>, diagnostics: seq<Diagnostic>, skills: seq<Skill>, source: Source)
    returns (merged': seq<Skill>, diagnostics': seq<Diagnostic>)
    ensures merged' == AddFree(merged, skills)
    ensures diagnostics' == diagnostics + Collisions(merged, skills, source)
  {
    merged', diagnostics' := merged, diagnostics;
    for i := 0 to |skills|
      invariant merged' == AddFree(merged, skills[..i])
      invariant diagnostics' == diagnostics + Collisions(merged, skills[..i], source)
    {
      assert skills[..i + 1][..i] == skills[..i];
      var existing := Lookup(merged', skills[i].name);
      if existing.Some? {
        diagnostics' := diagnostics'
        + [Collision(skills[i].name, existing.value.filePath, skills[i].filePath, Agent, source)];
      } else {
        merged' := merged' + [skills[i]];
      }
    }
    assert skills[..|skills|] == skills;
  }

  method AddAgent(skills: seq<Skill>) returns (merged: seq<Skill>)
    ensures merged == PutAll(skills)
  {
    merged := [];
    for i := 0 to |skills|
      invariant merged == PutAll(skills[..i])
    {
      assert skills[..i + 1][..i] == skills[..i];
      merged := Put(merged, skills[i]);
    }
    assert skills[..|skills|] == skills;
  }

  method LoadCorivoSkills(agent: Loaded, bundled: Option<Loaded>, claude: Loaded, market: Loaded,
                          enabledSkills: Option<seq<string>>) returns (result: Loaded)
    ensures var shipped := if bundled.Some? then bundled.value else Loaded([], []);
            var s := Sources(agent.skills, shipped.skills, claude.skills, market.skills);
            && result.skills == (if enabledSkills.Some? then Enabled(Merged(s), enabledSkills.value) else Merged(s))
            && result.diagnostics
               == agent.diagnostics + shipped.diagnostics + claude.diagnostics + market.diagnostics
                  + AllCollisions(s)
  {
    var shipped := if bundled.Some? then bundled.value else Loaded([], []);
    var reported := agent.diagnostics + shipped.diagnostics + claude.diagnostics + market.diagnostics;
    var merged0 := AddAgent(agent.skills);
    var merged1, diagnostics1 := AddSource(merged0, reported, shipped.skills, Bundled);
    var merged2, diagnostics2 := AddSource(merged1, diagnostics1, claude.skills, Claude);
    var merged, diagnostics := AddSource(merged2, diagnostics2, market.skills, Market);
    var skills := if enabledSkills.Some? then Enabled(merged, enabledSkills.value) else merged;
    result := Loaded(skills, diagnostics);
    AppendAssociates(reported, Collisions(merged0, shipped.skills, Bundled),
                     Collisions(merged1, claude.skills, Claude), Collisions(merged2, market.skills, Market));
  }

  lemma AppendAssociates<T>(a: seq<T>, b: seq<T>, c: seq<T>, d: seq<T>)
    ensures a + b + c + d == a + (b + c + d)
  {
  }

  // ---- names and winners ----

  lemma {:induction false} NamesPutAll(skills: seq<Skill>)
    ensures Names(PutAll(skills)) == FirstOccurrences(Names(skills))
  {
    if skills != [] {
      var front, last := skills[..|skills| - 1], skills[|skills| - 1];
      NamesPutAll(front);
      assert skills == front + [last];
      NamesSnoc(front, last);
      NamesAddFreeStep(PutAll(front), Names(front), last);
      if Lookup(PutAll(front), last.name).Some? {
        NamesPut(PutAll(front), last);
      }
    }
  }

  /** Replacing a skill does not change the names. */
  lemma NamesPut(m: seq<Skill>, s: Skill)
    requires Lookup(m, s.name).Some?
    ensures Names(Put(m, s)) == Names(m)
  {
  }

  lemma NamesSnoc(s: seq<Skill>, last: Skill)
    ensures Names(s + [last]) == Names(s) + [last.name]
  {
  }

  lemma {:induction false} NamesAddFree(m: seq<Skill>, skills: seq<Skill>)
    requires NoRepeats(Names(m))
    ensures Names(AddFree(m, skills)) == FirstOccurrences(Names(m) + Names(skills))
  {
    if skills == [] {
      assert Names(m) + Names(skills) == Names(m);
      FirstOccurrencesFixed(Names(m));
    } else {
      var front, last := skills[..|skills| - 1], skills[|skills| - 1];
      NamesAddFree(m, front);
      assert skills == front + [last];
      NamesSnoc(front, last);
      NamesAddFreeStep(AddFree(m, front), Names(m) + Names(front), last);
      Associative(Names(m), Names(front), [last.name]);
    }
  }

  lemma NamesAddFreeStep(r: seq<Skill>, names: seq<string>, last: Skill)
    requires Names(r) == FirstOccurrences(names)
    ensures Names(if Lookup(r, last.name).Some? then r else r + [last]) == FirstOccurrences(names + [last.name])
  {
    FirstOccurrencesSnoc(names, last.name);
    LookupNames(r, last.name);
    NamesSnoc(r, last);
    assert last.name in names <==> last.name in FirstOccurrences(names);
  }

  lemma {:induction false} LookupPutAll(skills: seq<Skill>, name: string)
    ensures Lookup(PutAll(skills), name) == LookupLast(skills, name)
  {
    if skills != [] {
      LookupPutAll(skills[..|skills| - 1], name);
      LookupPut(PutAll(skills[..|skills| - 1]), skills[|skills| - 1], name);
    }
  }

  lemma {:induction false} LookupAddFree(m: seq<Skill>, skills: seq<Skill>, name: string)
    ensures Lookup(AddFree(m, skills), name) == OrElse(Lookup(m, name), Lookup(skills, name))
  {
    if skills != [] {
      var front, last := skills[..|skills| - 1], skills[|skills| - 1];
      LookupAddFree(m, front, name);
      LookupSnoc(AddFree(m, front), last, name);
    }
  }

  /** The skill that should win a name: the highest source that holds it decides,
      by its last skill of that name in the agent source, by its first elsewhere. */
  function Winner(s: Sources, name: string): Option<Skill> {
    OrElse(OrElse(OrElse(LookupLast(s.agent, name), Lookup(s.bundled, name)), Lookup(s.claude, name)),
           Lookup(s.market, name))
  }

  /** The merge is determined by its inputs name by name: every loaded name once,
      in the order in which it was first loaded, held by its winner. */
  lemma MergeByPrecedence(s: Sources)
    ensures NoRepeats(Names(Merged(s)))
    ensures Names(Merged(s)) == FirstOccurrences(Names(AllLoaded(s)))
    ensures forall name :: Lookup(Merged(s), name) == Winner(s, name)
  {
    NamesPutAll(s.agent);
    NamesAddFree(PutAll(s.agent), s.bundled);
    NamesAddFree(WithBundled(s), s.claude);
    NamesAddFree(WithClaude(s), s.market);
    var a, b, c, m := Names(s.agent), Names(s.bundled), Names(s.claude), Names(s.market);
    FirstOccurrencesAppend(a, b);
    FirstOccurrencesAppend(a + b, c);
    FirstOccurrencesAppend(a + b + c, m);
    NamesAppend(s.agent, s.bundled);
    NamesAppend(s.agent + s.bundled, s.claude);
    NamesAppend(s.agent + s.bundled + s.claude, s.market);
    forall name ensures Lookup(Merged(s), name) == Winner(s, name) {
      LookupPutAll(s.agent, name);
      LookupAddFree(PutAll(s.agent), s.bundled, name);
      LookupAddFree(WithBundled(s), s.claude, name);
      LookupAddFree(WithClaude(s), s.market, name);
    }
  }

  // ---- filtering afterwards is filtering every source ----

  function EnabledNames(names: seq<string>, allow: seq<string>): seq<string> {
    if names == [] then []
    else
      EnabledNames(names[..|names| - 1], allow)
      + (if names[|names| - 1] in allow then [names[|names| - 1]] else [])
  }

  lemma {:induction false} NamesEnabled(s: seq<Skill>, allow: seq<string>)
    ensures Names(Enabled(s, allow)) == EnabledNames(Names(s), allow)
  {
    if s != [] {
      var front, last := s[..|s| - 1], s[|s| - 1];
      NamesEnabled(front, allow);
      assert Names(s)[..|s| - 1] == Names(front);
    }
  }

  lemma {:induction false} EnabledNamesMember(names: seq<string>, allow: seq<string>, n: string)
    ensures n in EnabledNames(names, allow) <==> n in names && n in allow
  {
    if names != [] {
      EnabledNamesMember(names[..|names| - 1], allow, n);
      assert names == names[..|names| - 1] + [names[|names| - 1]];
    }
  }

  lemma EnabledNamesSnoc(front: seq<string>, last: string, allow: seq<string>)
    ensures EnabledNames(front + [last], allow)
         == EnabledNames(front, allow) + (if last in allow then [last] else [])
  {
  }

  lemma EnabledFirstStep(front: seq<string>, last: string, allow: seq<string>)
    requires FirstOccurrences(EnabledNames(front, allow)) == EnabledNames(FirstOccurrences(front), allow)
    ensures FirstOccurrences(EnabledNames(front + [last], allow))
         == EnabledNames(FirstOccurrences(front + [last]), allow)
  {
    var f, kept := FirstOccurrences(front), EnabledNames(front, allow);
    EnabledNamesMember(front, allow, last);
    EnabledNamesSnoc(front, last, allow);
    FirstOccurrencesSnoc(front, last);
    EnabledNamesSnoc(f, last, allow);
    if last in allow {
      FirstOccurrencesSnoc(kept, last);
    } else {
      assert kept + [] == kept && EnabledNames(f, allow) + [] == EnabledNames(f, allow);
    }
  }

  lemma {:induction false} EnabledFirstOccurrences(names: seq<string>, allow: seq<string>)
    ensures FirstOccurrences(EnabledNames(names, allow)) == EnabledNames(FirstOccurrences(names), allow)
  {
    if names != [] {
      var front, last := names[..|names| - 1], names[|names| - 1];
      EnabledFirstOccurrences(front, allow);
      EnabledFirstStep(front, last, allow);
      assert names == front + [last];
    }
  }

  lemma {:induction false} EnabledAppend(s: seq<Skill>, t: seq<Skill>, allow: seq<string>)
    ensures Enabled(s + t, allow) == Enabled(s, allow) + Enabled(t, allow)
  {
    if t == [] {
      assert s + t == s;
    } else {
      EnabledAppend(s, t[..|t| - 1], allow);
      assert (s + t)[..|s + t| - 1] == s + t[..|t| - 1];
    }
  }

  lemma {:induction false} LookupEnabled(s: seq<Skill>, allow: seq<string>, name: string)
    ensures Lookup(Enabled(s, allow), name) == if name in allow then Lookup(s, name) else None
  {
    if s != [] {
      var front, last := s[..|s| - 1], s[|s| - 1];
      LookupEnabled(front, allow, name);
      LookupSnoc(Enabled(front, allow), last, name);
      assert Enabled(front, allow) + [] == Enabled(front, allow);
    }
  }

  lemma {:induction false} LookupLastEnabled(s: seq<Skill>, allow: seq<string>, name: string)
    ensures LookupLast(Enabled(s, allow), name) == if name in allow then LookupLast(s, name) else None
  {
    if s != [] {
      var front, last := s[..|s| - 1], s[|s| - 1];
      LookupLastEnabled(front, allow, name);
      var kept := Enabled(front, allow);
      assert kept + [] == kept && (kept + [last])[..|kept|] == kept;
    }
  }

  lemma {:induction false} LookupAt(s: seq<Skill>, i: nat)
    requires i < |s| && NoRepeats(Names(s))
    ensures Lookup(s, s[i].name) == Some(s[i])
  {
    var front, last := s[..|s| - 1], s[|s| - 1];
    assert Names(front) == Names(s)[..|s| - 1];
    if i < |s| - 1 {
      LookupAt(front, i);
    } else {
      LookupNames(front, last.name);
    }
  }

  /** A list without repeated names is its names and what each of them leads to. */
  lemma SameNamesSameSkills(s: seq<Skill>, t: seq<Skill>)
    requires Names(s) == Names(t) && NoRepeats(Names(s))
    requires forall name :: Lookup(s, name) == Lookup(t, name)
    ensures s == t
  {
    forall i | 0 <= i < |s| ensures s[i] == t[i] {
      LookupAt(s, i);
      LookupAt(t, i);
      assert Names(s)[i] == Names(t)[i];
    }
  }

  function EnabledSources(s: Sources, allow: seq<string>): Sources {
    Sources(Enabled(s.agent, allow), Enabled(s.bundled, allow), Enabled(s.claude, allow), Enabled(s.market, allow))
  }

  lemma FilterCommutesWithMerge(s: Sources, allow: seq<string>)
    ensures Enabled(Merged(s), allow) == Merged(EnabledSources(s, allow))
  {
    var e := EnabledSources(s, allow);
    MergeByPrecedence(s);
    MergeByPrecedence(e);
    EnabledAppend(s.agent, s.bundled, allow);
    EnabledAppend(s.agent + s.bundled, s.claude, allow);
    EnabledAppend(s.agent + s.bundled + s.claude, s.market, allow);
    NamesEnabled(AllLoaded(s), allow);
    NamesEnabled(Merged(s), allow);
    EnabledFirstOccurrences(Names(AllLoaded(s)), allow);
    forall name ensures Lookup(Enabled(Merged(s), allow), name) == Lookup(Merged(e), name) {
      LookupEnabled(Merged(s), allow, name);
      LookupLastEnabled(s.agent, allow, name);
      LookupEnabled(s.bundled, allow, name);
      LookupEnabled(s.claude, allow, name);
      LookupEnabled(s.market, allow, name);
    }
    SameNamesSameSkills(Enabled(Merged(s), allow), Merged(e));
  }

  // ---- survivors and collisions account for everything ----

  /** Moving one item to either side of an account. */
  lemma AccountsStep(r: multiset<Skill>, l: multiset<Skill>, before: multiset<Skill>, front: multiset<Skill>,
                     x: multiset<Skill>)
    requires r + l == before + front
    ensures r + x + l == before + (front + x) && r + (l + x) == before + (front + x)
  {
    assert r + x + l == r + l + x && r + (l + x) == r + l + x && before + (front + x) == before + front + x;
  }

  lemma MultisetSnoc(s: seq<Skill>, last: Skill)
    ensures multiset(s + [last]) == multiset(s) + multiset{last}
  {
  }

  /** What one more skill of a lower source does to survivors and losers. */
  lemma AddFreeStep(m: seq<Skill>, front: seq<Skill>, last: Skill)
    ensures var r, l := AddFree(m, front), Losers(m, front);
            if Lookup(r, last.name).Some? then
              AddFree(m, front + [last]) == r && Losers(m, front + [last]) == l + [last]
            else AddFree(m, front + [last]) == r + [last] && Losers(m, front + [last]) == l
  {
  }

  lemma {:induction false} AddFreeAccounts(m: seq<Skill>, skills: seq<Skill>)
    ensures multiset(AddFree(m, skills)) + multiset(Losers(m, skills)) == multiset(m) + multiset(skills)
  {
    if skills == [] {
      assert multiset(m) + multiset{} == multiset(m);
    } else {
      var front, last := skills[..|skills| - 1], skills[|skills| - 1];
      assert skills == front + [last];
      AddFreeAccounts(m, front);
      AddFreeStep(m, front, last);
      var r, l := AddFree(m, front), Losers(m, front);
      MultisetSnoc(r, last);
      MultisetSnoc(l, last);
      MultisetSnoc(front, last);
      AccountsStep(multiset(r), multiset(l), multiset(m), multiset(front), multiset{last});
    }
  }

  lemma {:induction false} PutAllDistinct(skills: seq<Skill>)
    requires NoRepeats(Names(skills))
    ensures PutAll(skills) == skills
  {
    if skills != [] {
      var front, last := skills[..|skills| - 1], skills[|skills| - 1];
      assert skills == front + [last];
      NamesSnoc(front, last);
      NoRepeatsSnoc(Names(front), last.name);
      PutAllDistinct(front);
      LookupNames(front, last.name);
    }
  }

  lemma NoRepeatsSnoc(names: seq<string>, last: string)
    requires NoRepeats(names + [last])
    ensures NoRepeats(names) && last !in names
  {
    forall i, j | 0 <= i < j < |names| ensures names[i] != names[j] {
      assert (names + [last])[i] != (names + [last])[j];
    }
    forall i | 0 <= i < |names| ensures names[i] != last {
      assert (names + [last])[i] != (names + [last])[|names|];
    }
  }

  lemma PutAllLength(skills: seq<Skill>)
    ensures |PutAll(skills)| == |skills| <==> NoRepeats(Names(skills))
  {
    NamesPutAll(skills);
    FirstOccurrencesLength(Names(skills));
  }

  /** What a collision says about the loser and about who won. */
  ghost predicate Reports(d: Diagnostic, loser: Skill, winner: Option<Skill>) {
    d.Collision? && d.name == loser.name && d.loserPath == loser.filePath
    && winner.Some? && d.winnerPath == winner.value.filePath
  }

  /** The i-th collision is about the i-th loser and the holder of its name in `m`. */
  ghost predicate AllReport(c: seq<Diagnostic>, l: seq<Skill>, m: seq<Skill>) {
    |c| == |l| && forall i | 0 <= i < |c| :: Reports(c[i], l[i], Lookup(m, l[i].name))
  }

  lemma AllReportSnoc(c: seq<Diagnostic>, l: seq<Skill>, m: seq<Skill>, s: Skill)
    requires AllReport(c, l, m)
    ensures AllReport(c, l, m + [s])
  {
  }

  lemma {:induction false} CollisionsReport(m: seq<Skill>, skills: seq<Skill>, source: Source)
    ensures AllReport(Collisions(m, skills, source), Losers(m, skills), AddFree(m, skills))
  {
    if skills != [] {
      var front, last := skills[..|skills| - 1], skills[|skills| - 1];
      CollisionsReport(m, front, source);
      AllReportSnoc(Collisions(m, front, source), Losers(m, front), AddFree(m, front), last);
    }
  }

  lemma LaterSourcesKeep(m: seq<Skill>, skills: seq<Skill>, d: Diagnostic, loser: Skill)
    requires Reports(d, loser, Lookup(m, loser.name))
    ensures Reports(d, loser, Lookup(AddFree(m, skills), loser.name))
  {
  }

  /** Every collision names one loser, in loading order, and the path of the
      skill that holds the name in the end. */
  lemma CollisionsNameTheWinner(s: Sources)
    ensures var c, l := AllCollisions(s), AllLosers(s);
            |c| == |l| && forall i | 0 <= i < |c| :: Reports(c[i], l[i], Winner(s, l[i].name))
  {
    CollisionsReport(PutAll(s.agent), s.bundled, Bundled);
    CollisionsReport(WithBundled(s), s.claude, Claude);
    CollisionsReport(WithClaude(s), s.market, Market);
    MergeByPrecedence(s);
    var c, l := AllCollisions(s), AllLosers(s);
    var nb, nc := |Losers(PutAll(s.agent), s.bundled)|, |Losers(WithBundled(s), s.claude)|;
    forall i | 0 <= i < |c| ensures Reports(c[i], l[i], Winner(s, l[i].name)) {
      if i < nb {
        LaterSourcesKeep(WithBundled(s), s.claude, c[i], l[i]);
        LaterSourcesKeep(WithClaude(s), s.market, c[i], l[i]);
      } else if i < nb + nc {
        LaterSourcesKeep(WithClaude(s), s.market, c[i], l[i]);
      }
    }
  }

  /** The survivors, the losers and the agent skills that were overwritten. */
  lemma MergeAccounts(s: Sources)
    ensures multiset(Merged(s)) + multiset(AllLosers(s)) + multiset(s.agent)
         == multiset(AllLoaded(s)) + multiset(PutAll(s.agent))
  {
    AddFreeAccounts(PutAll(s.agent), s.bundled);
    AddFreeAccounts(WithBundled(s), s.claude);
    AddFreeAccounts(WithClaude(s), s.market);
    var l1, l2, l3 := Losers(PutAll(s.agent), s.bundled), Losers(WithBundled(s), s.claude),
                      Losers(WithClaude(s), s.market);
    ThreeSteps(multiset(PutAll(s.agent)), multiset(WithBundled(s)), multiset(WithClaude(s)), multiset(Merged(s)),
               multiset(l1), multiset(l2), multiset(l3),
               multiset(s.bundled), multiset(s.claude), multiset(s.market), multiset(s.agent));
    assert multiset(AllLosers(s)) == multiset(l1) + multiset(l2) + multiset(l3);
    assert multiset(AllLoaded(s))
        == multiset(s.agent) + multiset(s.bundled) + multiset(s.claude) + multiset(s.market);
  }

  lemma ThreeSteps(w0: multiset<Skill>, w1: multiset<Skill>, w2: multiset<Skill>, w3: multiset<Skill>,
                   l1: multiset<Skill>, l2: multiset<Skill>, l3: multiset<Skill>,
                   b: multiset<Skill>, c: multiset<Skill>, m: multiset<Skill>, a: multiset<Skill>)
    requires w1 + l1 == w0 + b && w2 + l2 == w1 + c && w3 + l3 == w2 + m
    ensures w3 + (l1 + l2 + l3) + a == (a + b + c + m) + w0
  {
    forall x ensures (w3 + (l1 + l2 + l3) + a)[x] == ((a + b + c + m) + w0)[x] {
      assert (w1 + l1)[x] == (w0 + b)[x] && (w2 + l2)[x] == (w1 + c)[x] && (w3 + l3)[x] == (w2 + m)[x];
    }
  }

  lemma MergeCounts(s: Sources)
    ensures |Merged(s)| + |AllLosers(s)| + |s.agent| == |AllLoaded(s)| + |PutAll(s.agent)|
  {
    MergeAccounts(s);
    var survivors := multiset(Merged(s)) + multiset(AllLosers(s));
    assert |survivors| == |Merged(s)| + |AllLosers(s)|;
    assert |survivors + multiset(s.agent)| == |survivors| + |s.agent|;
    assert |multiset(AllLoaded(s)) + multiset(PutAll(s.agent))| == |AllLoaded(s)| + |PutAll(s.agent)|;
  }

  /** Nothing is lost silently exactly when the agent source has no two skills of
      one name: a second one takes the first one's place without a collision. */
  lemma NothingLostSilently(s: Sources)
    ensures multiset(Merged(s)) + multiset(AllLosers(s)) == multiset(AllLoaded(s)) <==> NoRepeats(Names(s.agent))
    ensures |Merged(s)| + |AllCollisions(s)| == |AllLoaded(s)| <==> NoRepeats(Names(s.agent))
  {
    MergeAccounts(s);
    MergeCounts(s);
    CollisionsNameTheWinner(s);
    PutAllLength(s.agent);
    var survivors, all := multiset(Merged(s)) + multiset(AllLosers(s)), multiset(AllLoaded(s));
    if NoRepeats(Names(s.agent)) {
      PutAllDistinct(s.agent);
      CancelRight(survivors, all, multiset(s.agent));
    }
    assert |survivors| == |Merged(s)| + |AllLosers(s)| && |all| == |AllLoaded(s)|;
  }

  /** Two agent skills of one name: the second survives and nothing is reported. */
  lemma OverwrittenSilently(name: string, first: string, second: string)
    ensures var x, y := Skill(name, first), Skill(name, second);
            var s := Sources([x, y], [], [], []);
            Merged(s) == [y] && AllCollisions(s) == []
  {
    var x, y := Skill(name, first), Skill(name, second);
    assert [x, y][..1] == [x] && [x][..0] == [];
    assert PutAll([x]) == [x];
    LookupSnoc([], x, name);
    assert [] + [x] == [x];
    assert PutAll([x, y]) == [y];
  }

  lemma CancelRight(a: multiset<Skill>, b: multiset<Skill>, c: multiset<Skill>)
    requires a + c == b + c
    ensures a == b
  {
    assert a == (a + c) - c && b == (b + c) - c;
  }

  /** Every collision calls the winner an agent skill. */
  ghost predicate SaysAgent(c: seq<Diagnostic>) {
    forall i | 0 <= i < |c| :: c[i].Collision? && c[i].winnerSource == Agent
  }

  lemma {:induction false} CollisionsSayAgent(m: seq<Skill>, skills: seq<Skill>, source: Source)
    ensures SaysAgent(Collisions(m, skills, source))
  {
    if skills != [] {
      CollisionsSayAgent(m, skills[..|skills| - 1], source);
    }
  }

  function SourceOfWinner(s: Sources, name: string): Source {
    if LookupLast(s.agent, name).Some? then Agent
    else if Lookup(s.bundled, name).Some? then Bundled
    else if Lookup(s.claude, name).Some? then Claude
    else Market
  }

  lemma {:induction false} LookupLastNames(s: seq<Skill>, name: string)
    ensures LookupLast(s, name).Some? <==> name in Names(s)
  {
    if s != [] {
      LookupLastNames(s[..|s| - 1], name);
      assert Names(s) == Names(s[..|s| - 1]) + [s[|s| - 1].name];
    }
  }

  /** The label is right exactly when the agent source does hold the name. */
  lemma WinnerLabelExact(s: Sources, i: nat)
    requires i < |AllCollisions(s)|
    ensures var d := AllCollisions(s)[i];
            && d.Collision?
            && (d.winnerSource == SourceOfWinner(s, d.name) <==> d.name in Names(s.agent))
  {
    CollisionsSayAgent(PutAll(s.agent), s.bundled, Bundled);
    CollisionsSayAgent(WithBundled(s), s.claude, Claude);
    CollisionsSayAgent(WithClaude(s), s.market, Market);
    var d := AllCollisions(s)[i];
    assert SaysAgent(AllCollisions(s));
    LookupLastNames(s.agent, d.name);
  }

  /** A bundled skill shadowed by a bundled skill is reported as shadowed by the agent source. */
  lemma WrongLabel()
    ensures var x, y := Skill("a", "1"), Skill("a", "2");
            && AllCollisions(Sources([], [x, y], [], [])) == [Collision("a", "1", "2", Agent, Bundled)]
            && SourceOfWinner(Sources([], [x, y], [], []), "a") == Bundled
  {
    var x, y := Skill("a", "1"), Skill("a", "2");
    assert [x, y][..1] == [x];
    assert Names([x]) == ["a"];
    assert AddFree([], [x]) == [x];
    assert Collisions([], [x], Bundled) == [];
  }

  // ---- which skill of a list a name leads to ----

  lemma {:induction false} LookupIsFirst(s: seq<Skill>, i: nat)
    requires i < |s| && forall j | 0 <= j < i :: s[j].name != s[i].name
    ensures Lookup(s, s[i].name) == Some(s[i])
  {
    var front := s[..|s| - 1];
    if i < |front| {
      LookupIsFirst(front, i);
    } else {
      LookupNames(front, s[i].name);
    }
  }

  lemma {:induction false} LookupLastIsLast(s: seq<Skill>, i: nat)
    requires i < |s| && forall j | i < j < |s| :: s[j].name != s[i].name
    ensures LookupLast(s, s[i].name) == Some(s[i])
  {
    if i < |s| - 1 {
      LookupLastIsLast(s[..|s| - 1], i);
    }
  }

  lemma LowerSources(s: Sources, name: string)
    requires LookupLast(s.agent, name).None?
    ensures Lookup(Merged(s), name) == Lookup(s.bundled + s.claude + s.market, name)
  {
    MergeByPrecedence(s);
    LookupConcat(s.bundled, s.claude, name);
    LookupConcat(s.bundled + s.claude, s.market, name);
  }

  /** The holder of a name in the end, by position: the last skill of that name in the
      agent source, or, when there is none, the first one in the other sources together. */
  lemma AgentWinner(s: Sources, i: nat)
    requires i < |s.agent| && forall j | i < j < |s.agent| :: s.agent[j].name != s.agent[i].name
    ensures Lookup(Merged(s), s.agent[i].name) == Some(s.agent[i])
  {
    MergeByPrecedence(s);
    LookupLastIsLast(s.agent, i);
  }

  lemma LowerWinner(s: Sources, i: nat)
    requires var lower := s.bundled + s.claude + s.market;
             && i < |lower| && (forall j | 0 <= j < i :: lower[j].name != lower[i].name)
             && forall j | 0 <= j < |s.agent| :: s.agent[j].name != lower[i].name
    ensures var lower := s.bundled + s.claude + s.market;
            Lookup(Merged(s), lower[i].name) == Some(lower[i])
  {
    var lower := s.bundled + s.claude + s.market;
    LookupLastNames(s.agent, lower[i].name);
    LowerSources(s, lower[i].name);
    LookupIsFirst(lower, i);
  }

  lemma {:induction false} LookupConcat(s: seq<Skill>, t: seq<Skill>, name: string)
    ensures Lookup(s + t, name) == OrElse(Lookup(s, name), Lookup(t, name))
  {
    if t == [] {
      assert s + t == s;
    } else {
      LookupConcat(s, t[..|t| - 1], name);
      AppendFront(s, t);
    }
  }

  lemma EnabledSnoc(front: seq<Skill>, last: Skill, names: seq<string>)
    ensures Enabled(front + [last], names)
         == Enabled(front, names) + (if last.name in names then [last] else [])
  {
    assert (front + [last])[..|front|] == front;
  }

  /** The filter keeps exactly the skills with an enabled name, as often as they occur. */
  lemma {:induction false} EnabledExact(skills: seq<Skill>, names: seq<string>, s: Skill)
    ensures multiset(Enabled(skills, names))[s] == if s.name in names then multiset(skills)[s] else 0
  {
    if skills != [] {
      var front, last := skills[..|skills| - 1], skills[|skills| - 1];
      EnabledExact(front, names, s);
      FrontAndLast(skills);
      EnabledSnoc(front, last, names);
      MultisetSnoc(front, last);
      MultisetSnoc(Enabled(front, names), last);
      Associative(Enabled(front, names), [], []);
    }
  }

  /** With every name enabled nothing changes. */
  lemma {:induction false} AllEnabled(skills: seq<Skill>, names: seq<string>)
    requires forall i | 0 <= i < |skills| :: skills[i].name in names
    ensures Enabled(skills, names) == skills
  {
    if skills != [] {
      AllEnabled(skills[..|skills| - 1], names);
      FrontAndLast(skills);
    }
  }
}
