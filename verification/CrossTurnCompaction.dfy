/** Cross-turn compaction: passes over an append-only session log, each of which
    may summarise a head of the messages added since the last one. */
module CrossTurnCompaction {
  import opened Sequences
  import opened AgentMessages

  const MIN_KEEP_TURNS: nat := 4

  datatype Entry =
    | MessageEntry(id: string, message: Message)
    | CompactionEntry(id: string, summary: string, firstKeptEntryId: string, tokensBefore: nat)
    | OtherEntry(id: string)

  /** What a pass meets outside: the estimate of the live transcript, the window
      and its threshold, what the summary model says (`None` for any failure of
      the call) and whether the session accepts the entry under a new id. */
  datatype Circumstances = Circumstances(
    tokensCurrent: nat,
    contextWindow: int,
    threshold: int,
    reply: Option<string>,
    appendOk: bool,
    entryId: string)

  predicate IsUser(log: seq<Entry>, p: nat) {
    p < |log| && log[p].MessageEntry? && log[p].message.role == User
  }

  predicate IsLlmMessage(m: Message) {
    m.role == User || m.role == Assistant || m.role == ToolResult
  }

  /** The positions of the messages since the last compaction entry. */
  function Candidates(log: seq<Entry>): (r: seq<nat>)
    ensures forall i | 0 <= i < |r| :: r[i] < |log| && log[r[i]].MessageEntry?
  {
    if log == [] then []
    else
      match log[|log| - 1]
      case MessageEntry(_, _) => Candidates(log[..|log| - 1]) + [|log| - 1]
      case CompactionEntry(_, _, _, _) => []
      case OtherEntry(_) => Candidates(log[..|log| - 1])
  }

  /** How many of the positions hold user messages. */
  function CountUsers(log: seq<Entry>, positions: seq<nat>): nat {
    if positions == [] then 0
    else (if IsUser(log, positions[0]) then 1 else 0) + CountUsers(log, positions[1..])
  }

  function MessagesAt(log: seq<Entry>, positions: seq<nat>): seq<Message>
    requires forall i | 0 <= i < |positions| :: positions[i] < |log| && log[positions[i]].MessageEntry?
  {
    seq(|positions|, i requires 0 <= i < |positions| => log[positions[i]].message)
  }

  /** `k` starts the kept tail: a user message with exactly `MIN_KEEP_TURNS` user messages from it on. */
  predicate Splits(log: seq<Entry>, candidates: seq<nat>, k: nat) {
    k < |candidates| && IsUser(log, candidates[k]) && CountUsers(log, candidates[k..]) == MIN_KEEP_TURNS
  }

  ghost predicate NoSplit(log: seq<Entry>, candidates: seq<nat>) {
    forall k: nat :: !Splits(log, candidates, k)
  }

  lemma {:induction false} CountUsersSplit(log: seq<Entry>, a: seq<nat>, b: seq<nat>)
    ensures CountUsers(log, a + b) == CountUsers(log, a) + CountUsers(log, b)
  {
    if a == [] {
      assert a + b == b;
    } else {
      assert (a + b)[1..] == a[1..] + b;
      CountUsersSplit(log, a[1..], b);
    }
  }

  /** An earlier tail has at least the users of a later one, and more if it starts at a user. */
  lemma EarlierTail(log: seq<Entry>, candidates: seq<nat>, j: nat, k: nat)
    requires j <= k <= |candidates|
    ensures CountUsers(log, candidates[j..])
         >= CountUsers(log, candidates[k..]) + (if j < k && IsUser(log, candidates[j]) then 1 else 0)
  {
    assert candidates[j..] == candidates[j..k] + candidates[k..];
    CountUsersSplit(log, candidates[j..k], candidates[k..]);
    assert j < k ==> candidates[j..k][0] == candidates[j];
  }

  lemma SplitUnique(log: seq<Entry>, candidates: seq<nat>, j: nat, k: nat)
    requires Splits(log, candidates, j) && Splits(log, candidates, k)
    ensures j == k
  {
    EarlierTail(log, candidates, if j <= k then j else k, if j <= k then k else j);
  }

  ghost predicate HasCut(log: seq<Entry>) {
    exists k: nat :: k > 0 && Splits(log, Candidates(log), k)
  }

  /** The cut a pass makes, if it makes one: a split with something before it. */
  ghost function CutOf(log: seq<Entry>): (k: nat)
    requires HasCut(log)
    ensures k > 0 && Splits(log, Candidates(log), k)
  {
    var k: nat :| k > 0 && Splits(log, Candidates(log), k);
    k
  }

  /** When a pass appends its entry. */
  ghost predicate Compacts(log: seq<Entry>, c: Circumstances) {
    && c.contextWindow > 0 && c.tokensCurrent >= c.threshold
    && HasCut(log)
    && (exists m :: m in MessagesAt(log, Candidates(log)[..CutOf(log)]) && IsLlmMessage(m))
    && c.reply.Some? && c.reply.value != "" && c.appendOk
  }

  ghost function EntryOf(log: seq<Entry>, c: Circumstances): Entry
    requires Compacts(log, c)
  {
    var k := CutOf(log);
    CompactionEntry(c.entryId, c.reply.value, log[Candidates(log)[k]].id,
                    Estimate(MessagesAt(log, Candidates(log)[..k])))
  }

  ghost function Pass(log: seq<Entry>, c: Circumstances): seq<Entry> {
    if Compacts(log, c) then log + [EntryOf(log, c)] else log
  }

  /** The entry walk: collect messages, start over at each compaction entry. */
  method WalkEntries(log: seq<Entry>) returns (positions: seq<nat>)
    ensures positions == Candidates(log)
  {
    positions := [];
    for i := 0 to |log|
      invariant positions == Candidates(log[..i])
    {
      assert log[..i + 1][..i] == log[..i];
      match log[i] {
        case MessageEntry(_, _) => positions := positions + [i];
        case CompactionEntry(_, _, _, _) => positions := [];
        case OtherEntry(_) =>
      }
    }
    assert log[..|log|] == log;
  }

  /** The scan stands before position `i` and has counted `seen` users after it. */
  ghost predicate Scanned(log: seq<Entry>, candidates: seq<nat>, i: int, seen: int) {
    -1 <= i < |candidates| && seen == CountUsers(log, candidates[i + 1..]) && seen < MIN_KEEP_TURNS
  }

  lemma ScanStep(log: seq<Entry>, candidates: seq<nat>, i: nat, seen: int)
    requires Scanned(log, candidates, i, seen)
    ensures !IsUser(log, candidates[i]) ==> Scanned(log, candidates, i - 1, seen)
    ensures IsUser(log, candidates[i]) ==>
              if seen + 1 >= MIN_KEEP_TURNS then Splits(log, candidates, i)
              else Scanned(log, candidates, i - 1, seen + 1)
  {
  }

  lemma ScanEnd(log: seq<Entry>, candidates: seq<nat>, seen: int)
    requires Scanned(log, candidates, -1, seen)
    ensures CountUsers(log, candidates) == seen < MIN_KEEP_TURNS
  {
  }

  /** The backward scan for the user message that starts the kept tail. */
  method FindSplit(log: seq<Entry>, candidates: seq<nat>) returns (splitIdx: int)
    requires forall i | 0 <= i < |candidates| :: candidates[i] < |log| && log[candidates[i]].MessageEntry?
    ensures splitIdx >= 0 ==> Splits(log, candidates, splitIdx)
    ensures splitIdx < 0 ==> CountUsers(log, candidates) < MIN_KEEP_TURNS
  {
    var userTurnsSeen := 0;
    splitIdx := -1;
    var i := |candidates| - 1;
    while i >= 0
      invariant Scanned(log, candidates, i, userTurnsSeen)
      decreases i
    {
      ScanStep(log, candidates, i, userTurnsSeen);
      if log[candidates[i]].message.role == User {
        userTurnsSeen := userTurnsSeen + 1;
        if userTurnsSeen >= MIN_KEEP_TURNS {
          return i;
        }
      }
      i := i - 1;
    }
    ScanEnd(log, candidates, userTurnsSeen);
  }

  lemma TooFewUsers(log: seq<Entry>, candidates: seq<nat>)
    requires CountUsers(log, candidates) < MIN_KEEP_TURNS
    ensures NoSplit(log, candidates)
  {
    assert candidates[0..] == candidates;
    forall k: nat ensures !Splits(log, candidates, k) {
      if k < |candidates| {
        EarlierTail(log, candidates, 0, k);
      }
    }
  }

  method HasLlmMessage(messages: seq<Message>) returns (found: bool)
    ensures found <==> exists m :: m in messages && IsLlmMessage(m)
  {
    found := false;
    for i := 0 to |messages|
      invariant found <==> exists j | 0 <= j < i :: IsLlmMessage(messages[j])
    {
      if IsLlmMessage(messages[i]) {
        found := true;
      }
    }
    if found {
      var j :| 0 <= j < |messages| && IsLlmMessage(messages[j]);
      assert messages[j] in messages;
    }
  }

  method RunCrossTurnCompaction(log: seq<Entry>, c: Circumstances) returns (r: seq<Entry>)
    ensures r == Pass(log, c)
  {
    r := log;
    if c.contextWindow <= 0 || c.tokensCurrent < c.threshold {
      return;
    }
    var messageEntries := WalkEntries(log);
    if |messageEntries| == 0 {
      assert forall k: nat :: !Splits(log, Candidates(log), k);
      return;
    }
    var splitIdx := FindSplit(log, messageEntries);
    if splitIdx >= 0 {
      forall k: nat | Splits(log, messageEntries, k) ensures k == splitIdx {
        SplitUnique(log, messageEntries, k, splitIdx);
      }
    } else {
      TooFewUsers(log, messageEntries);
    }
    if splitIdx <= 0 {
      return;
    }
    assert HasCut(log) && CutOf(log) == splitIdx;
    var headMessages := MessagesAt(log, messageEntries[..splitIdx]);
    var tokensBefore := EstimateTokens(headMessages);
    var eligible := HasLlmMessage(headMessages);
    if !eligible || c.reply.None? || c.reply.value == "" || !c.appendOk {
      return;
    }
    r := log + [CompactionEntry(c.entryId, c.reply.value, log[messageEntries[splitIdx]].id, tokensBefore)];
  }

  // ---- runs of appends and passes ----

  datatype Step = Append(entry: Entry) | TryPass(c: Circumstances)

  /** A successful pass: the positions it summarised, where its kept tail starts
      and where its entry stands. */
  datatype Record = Record(head: seq<nat>, firstKept: nat, at: nat)

  datatype Session = Session(log: seq<Entry>, passes: seq<Record>)

  ghost predicate Allowed(s: Step) {
    s.Append? ==> !s.entry.CompactionEntry?
  }

  ghost function Apply(s: Session, step: Step): Session {
    match step
    case Append(entry) => s.(log := s.log + [entry])
    case TryPass(c) =>
      if Compacts(s.log, c) then
        Session(Pass(s.log, c),
                s.passes + [Record(Candidates(s.log)[..CutOf(s.log)], Candidates(s.log)[CutOf(s.log)], |s.log|)])
      else s.(log := Pass(s.log, c))
  }

  ghost function After(log: seq<Entry>, steps: seq<Step>): Session {
    if steps == [] then Session(log, [])
    else Apply(After(log, steps[..|steps| - 1]), steps[|steps| - 1])
  }

  /** The messages of a kept tail. */
  ghost predicate InTail(log: seq<Entry>, r: Record, p: nat) {
    r.firstKept <= p < r.at && p < |log| && log[p].MessageEntry?
  }

  /** One pass cut where it should. */
  ghost predicate GoodCut(log: seq<Entry>, r: Record) {
    && r.head != [] && r.firstKept < r.at < |log| && log[r.at].CompactionEntry?
    && (forall i | 0 <= i < |r.head| :: r.head[i] < r.firstKept)
    && IsUser(log, r.firstKept)
    && log[r.at].firstKeptEntryId == log[r.firstKept].id
    && UsersBetween(log, r.firstKept, r.at) == MIN_KEEP_TURNS
  }

  /** The number of user messages at positions from `lo` up to `hi`. */
  function UsersBetween(log: seq<Entry>, lo: nat, hi: nat): nat
    decreases hi
  {
    if hi <= lo then 0 else UsersBetween(log, lo, hi - 1) + (if IsUser(log, hi - 1) then 1 else 0)
  }

  predicate AllAfter(at: nat, positions: seq<nat>) {
    forall i | 0 <= i < |positions| :: at < positions[i]
  }

  ghost predicate Inv(s: Session) {
    && (forall k | 0 <= k < |s.passes| :: GoodCut(s.log, s.passes[k]))
    && (forall k | 0 <= k < |s.passes| - 1 ::
          AllAfter(s.passes[k].at, s.passes[k + 1].head))
    && (s.passes != [] ==> AllAfter(s.passes[|s.passes| - 1].at, Candidates(s.log)))
  }

  // ---- what every step keeps ----

  lemma {:induction false} UsersBetweenStable(log: seq<Entry>, e: Entry, lo: nat, hi: nat)
    requires hi <= |log|
    ensures UsersBetween(log + [e], lo, hi) == UsersBetween(log, lo, hi)
    decreases hi
  {
    if lo < hi {
      UsersBetweenStable(log, e, lo, hi - 1);
      assert (log + [e])[hi - 1] == log[hi - 1];
    }
  }

  lemma GoodCutStable(log: seq<Entry>, e: Entry, r: Record)
    requires GoodCut(log, r)
    ensures GoodCut(log + [e], r)
  {
    UsersBetweenStable(log, e, r.firstKept, r.at);
  }

  lemma {:induction false} CountUsersStable(log: seq<Entry>, e: Entry, positions: seq<nat>)
    requires forall i | 0 <= i < |positions| :: positions[i] < |log|
    ensures CountUsers(log + [e], positions) == CountUsers(log, positions)
  {
    if positions != [] {
      CountUsersStable(log, e, positions[1..]);
      assert (log + [e])[positions[0]] == log[positions[0]];
    }
  }

  lemma {:induction false} CandidatesSorted(log: seq<Entry>)
    ensures forall i, j | 0 <= i < j < |Candidates(log)| :: Candidates(log)[i] < Candidates(log)[j]
  {
    if log != [] {
      CandidatesSorted(log[..|log| - 1]);
    }
  }

  lemma CandidatesAppend(log: seq<Entry>, e: Entry)
    ensures Candidates(log + [e]) ==
            match e
            case MessageEntry(_, _) => Candidates(log) + [|log|]
            case CompactionEntry(_, _, _, _) => []
            case OtherEntry(_) => Candidates(log)
  {
  }

  /** One more entry is counted on both sides alike. */
  lemma UsersBehindMore(front: seq<Entry>, e: Entry, k: nat)
    requires k < |Candidates(front)| && !e.CompactionEntry?
    requires UsersBetween(front, Candidates(front)[k], |front|) == CountUsers(front, Candidates(front)[k..])
    ensures k < |Candidates(front + [e])|
    ensures var log := front + [e];
            UsersBetween(log, Candidates(log)[k], |log|) == CountUsers(log, Candidates(log)[k..])
  {
    var log, c, n := front + [e], Candidates(front), |front|;
    CandidatesAppend(front, e);
    UsersBetweenStable(front, e, c[k], n);
    CountUsersStable(front, e, c[k..]);
    if e.MessageEntry? {
      assert (c + [n])[k..] == c[k..] + [n];
      CountUsersSplit(log, c[k..], [n]);
    }
  }

  /** Every user message behind a candidate is a candidate itself. */
  lemma {:induction false} UsersBehindCandidate(log: seq<Entry>, k: nat)
    requires k < |Candidates(log)|
    ensures UsersBetween(log, Candidates(log)[k], |log|) == CountUsers(log, Candidates(log)[k..])
  {
    var front, e, n := log[..|log| - 1], log[|log| - 1], |log| - 1;
    assert log == front + [e];
    CandidatesAppend(front, e);
    if k < |Candidates(front)| {
      UsersBehindCandidate(front, k);
      UsersBehindMore(front, e, k);
    } else {
      assert Candidates(log)[k..] == [n];
    }
  }

  /** A successful pass cuts a non-empty head before a tail that starts at a
      user message and holds exactly the messages to keep. */
  lemma PassCutsWell(log: seq<Entry>, c: Circumstances)
    requires Compacts(log, c)
    ensures GoodCut(Pass(log, c), Record(Candidates(log)[..CutOf(log)], Candidates(log)[CutOf(log)], |log|))
  {
    var k := CutOf(log);
    CandidatesSorted(log);
    UsersBehindCandidate(log, k);
    UsersBetweenStable(log, EntryOf(log, c), Candidates(log)[k], |log|);
  }

  lemma {:induction false} SessionInv(log: seq<Entry>, steps: seq<Step>)
    requires forall s | s in steps :: Allowed(s)
    ensures Inv(After(log, steps))
  {
    if steps != [] {
      var front, last := steps[..|steps| - 1], steps[|steps| - 1];
      assert last in steps && forall s | s in front :: s in steps;
      SessionInv(log, front);
      StepKeepsInv(After(log, front), last);
    }
  }

  lemma CutsStayGood(s: Session, e: Entry)
    requires Inv(s)
    ensures forall i | 0 <= i < |s.passes| :: GoodCut(s.log + [e], s.passes[i])
  {
    forall i | 0 <= i < |s.passes| ensures GoodCut(s.log + [e], s.passes[i]) {
      GoodCutStable(s.log, e, s.passes[i]);
    }
  }

  lemma AppendKeepsInv(s: Session, entry: Entry)
    requires Inv(s) && !entry.CompactionEntry?
    ensures Inv(s.(log := s.log + [entry]))
  {
    CandidatesAppend(s.log, entry);
    CutsStayGood(s, entry);
  }

  lemma HeadsStayBehind(s: Session, r: Record, k: nat)
    requires Inv(s) && k <= |Candidates(s.log)| && r.head == Candidates(s.log)[..k]
    ensures var passes := s.passes + [r];
            forall i | 0 <= i < |passes| - 1 :: AllAfter(passes[i].at, passes[i + 1].head)
  {
    var passes := s.passes + [r];
    forall i | 0 <= i < |passes| - 1 ensures AllAfter(passes[i].at, passes[i + 1].head) {
      if i + 1 < |s.passes| {
        assert AllAfter(s.passes[i].at, s.passes[i + 1].head);
      }
    }
  }

  lemma CompactionKeepsInv(s: Session, c: Circumstances)
    requires Inv(s) && Compacts(s.log, c)
    ensures Inv(Apply(s, TryPass(c)))
  {
    var k := CutOf(s.log);
    var r := Record(Candidates(s.log)[..k], Candidates(s.log)[k], |s.log|);
    CandidatesAppend(s.log, EntryOf(s.log, c));
    PassCutsWell(s.log, c);
    CutsStayGood(s, EntryOf(s.log, c));
    HeadsStayBehind(s, r, k);
  }

  lemma StepKeepsInv(s: Session, step: Step)
    requires Inv(s) && Allowed(step)
    ensures Inv(Apply(s, step))
  {
    match step {
      case Append(entry) => AppendKeepsInv(s, entry);
      case TryPass(c) =>
        if Compacts(s.log, c) {
          CompactionKeepsInv(s, c);
        }
    }
  }

  lemma {:induction false} LaterHeads(s: Session, j: nat, k: nat)
    requires Inv(s) && j < k < |s.passes|
    ensures AllAfter(s.passes[j].at, s.passes[k].head)
    ensures s.passes[j].at < s.passes[k].firstKept
    decreases k - j
  {
    assert GoodCut(s.log, s.passes[k]);
    assert AllAfter(s.passes[k - 1].at, s.passes[k].head);
    if j < k - 1 {
      LaterHeads(s, j, k - 1);
      assert GoodCut(s.log, s.passes[k - 1]);
      assert s.passes[k - 1].head[0] > s.passes[j].at;
    }
    assert s.passes[k].head[0] < s.passes[k].firstKept;
  }

  /** Over any run of appends and passes, from any log: every pass cuts well,
      the kept positions strictly advance, no message is in two heads, and the
      tail a pass keeps is in no head at all, so the messages it holds are
      never summarised by any pass. */
  lemma RunsNeverResummarise(log: seq<Entry>, steps: seq<Step>, j: nat, k: nat)
    requires (forall s | s in steps :: Allowed(s)) && j < k < |After(log, steps).passes|
    ensures var s := After(log, steps);
            && GoodCut(s.log, s.passes[j]) && GoodCut(s.log, s.passes[k])
            && s.passes[j].firstKept < s.passes[k].firstKept
            && (forall p | p in s.passes[j].head :: p !in s.passes[k].head)
            && (forall p | InTail(s.log, s.passes[j], p) ::
                  p !in s.passes[j].head && p !in s.passes[k].head && !InTail(s.log, s.passes[k], p))
  {
    SessionInv(log, steps);
    var s := After(log, steps);
    LaterHeads(s, j, k);
    assert GoodCut(s.log, s.passes[j]) && GoodCut(s.log, s.passes[k]);
  }

  /** A pass that does not compact leaves the log as it was, and no pass touches
      what the log already holds. */
  lemma {:induction false} LogOnlyGrows(log: seq<Entry>, steps: seq<Step>)
    ensures log <= After(log, steps).log
  {
    if steps != [] {
      LogOnlyGrows(log, steps[..|steps| - 1]);
    }
  }

  /** The last pass lies behind no earlier one. */
  lemma LastPassIsLast(s: Session, j: nat)
    requires Inv(s) && j < |s.passes|
    ensures s.passes[j].at <= s.passes[|s.passes| - 1].at
  {
    var last := |s.passes| - 1;
    assert GoodCut(s.log, s.passes[last]);
    if j < last {
      LaterHeads(s, j, last);
    }
  }

  /** Also earlier passes' tails are out of reach of the next pass. */
  lemma TailsAreNotCandidates(log: seq<Entry>, steps: seq<Step>, j: nat)
    requires (forall s | s in steps :: Allowed(s)) && j < |After(log, steps).passes|
    ensures var s := After(log, steps);
            forall p | p in Candidates(s.log) :: p !in s.passes[j].head && !InTail(s.log, s.passes[j], p)
  {
    SessionInv(log, steps);
    var s := After(log, steps);
    LastPassIsLast(s, j);
    assert GoodCut(s.log, s.passes[j]);
    assert AllAfter(s.passes[|s.passes| - 1].at, Candidates(s.log));
  }

  // ---- when a pass appends, read off the log ----

  /** A message with no compaction entry behind it. */
  ghost predicate Since(log: seq<Entry>, p: nat) {
    p < |log| && log[p].MessageEntry? && forall q | p < q < |log| :: !log[q].CompactionEntry?
  }

  /** The positions below `hi` of such messages. */
  ghost function SinceBelow(log: seq<Entry>, hi: nat): (r: seq<nat>)
    ensures forall i | 0 <= i < |r| :: r[i] < hi && Since(log, r[i])
  {
    if hi == 0 then [] else SinceBelow(log, hi - 1) + (if Since(log, hi - 1) then [hi - 1] else [])
  }

  ghost function HeadMessages(log: seq<Entry>, hi: nat): seq<Message> {
    if hi == 0 then [] else HeadMessages(log, hi - 1) + (if Since(log, hi - 1) then [log[hi - 1].message] else [])
  }

  lemma {:induction false} SinceBelowMore(log: seq<Entry>, e: Entry, hi: nat)
    requires hi <= |log|
    ensures SinceBelow(log + [e], hi) == if e.CompactionEntry? then [] else SinceBelow(log, hi)
  {
    if hi > 0 {
      SinceBelowMore(log, e, hi - 1);
      var p: nat := hi - 1;
      assert (log + [e])[p] == log[p] && (log + [e])[|log|] == e;
      assert Since(log + [e], p) <==> Since(log, p) && !e.CompactionEntry? by {
        assert forall q | p < q < |log| :: (log + [e])[q] == log[q];
      }
    }
  }

  /** The candidates are exactly the messages since the last compaction entry, in order. */
  lemma {:induction false} CandidatesExact(log: seq<Entry>)
    ensures Candidates(log) == SinceBelow(log, |log|)
  {
    if log != [] {
      var front, e := log[..|log| - 1], log[|log| - 1];
      CandidatesExact(front);
      FrontAndLast(log);
      SinceBelowMore(front, e, |front|);
    }
  }

  lemma {:induction false} SinceBelowPrefix(log: seq<Entry>, hi: nat, k: nat)
    requires k < |SinceBelow(log, hi)|
    ensures SinceBelow(log, hi)[..k] == SinceBelow(log, SinceBelow(log, hi)[k])
  {
    if k < |SinceBelow(log, hi - 1)| {
      SinceBelowPrefix(log, hi - 1, k);
    }
  }

  lemma {:induction false} SinceBelowMember(log: seq<Entry>, hi: nat, p: nat)
    requires p < hi && Since(log, p)
    ensures p in SinceBelow(log, hi)
  {
    if p < hi - 1 {
      SinceBelowMember(log, hi - 1, p);
    }
  }

  lemma {:induction false} HeadMessagesAt(log: seq<Entry>, hi: nat)
    ensures MessagesAt(log, SinceBelow(log, hi)) == HeadMessages(log, hi)
  {
    if hi > 0 {
      HeadMessagesAt(log, hi - 1);
    }
  }

  /** The position that starts the tail to keep: a user message since the last
      compaction entry with four user messages from it on. */
  ghost predicate StartsTail(log: seq<Entry>, t: nat) {
    Since(log, t) && log[t].message.role == User && UsersBetween(log, t, |log|) == 4
  }

  /** Something before it can be shown to the summary model. */
  ghost predicate HasSomethingToSummarise(log: seq<Entry>, t: nat) {
    exists p: nat :: p < t && Since(log, p)
      && (log[p].message.role == User || log[p].message.role == Assistant || log[p].message.role == ToolResult)
  }

  lemma SplitIsTail(log: seq<Entry>, k: nat)
    requires k < |Candidates(log)|
    ensures Splits(log, Candidates(log), k) <==> StartsTail(log, Candidates(log)[k])
    ensures Candidates(log)[..k] == SinceBelow(log, Candidates(log)[k])
    ensures MessagesAt(log, Candidates(log)[..k]) == HeadMessages(log, Candidates(log)[k])
  {
    CandidatesExact(log);
    UsersBehindCandidate(log, k);
    SinceBelowPrefix(log, |log|, k);
    HeadMessagesAt(log, Candidates(log)[k]);
  }

  lemma TailIsSplit(log: seq<Entry>, t: nat) returns (k: nat)
    requires StartsTail(log, t)
    ensures k < |Candidates(log)| && Candidates(log)[k] == t && Splits(log, Candidates(log), k)
  {
    CandidatesExact(log);
    SinceBelowMember(log, |log|, t);
    k :| 0 <= k < |Candidates(log)| && Candidates(log)[k] == t;
    SplitIsTail(log, k);
  }

  lemma EligibleHead(log: seq<Entry>, k: nat)
    requires k < |Candidates(log)|
    ensures (exists m :: m in MessagesAt(log, Candidates(log)[..k]) && IsLlmMessage(m))
       <==> HasSomethingToSummarise(log, Candidates(log)[k])
  {
    SplitIsTail(log, k);
    var t, head := Candidates(log)[k], Candidates(log)[..k];
    var messages := MessagesAt(log, head);
    if m :| m in messages && IsLlmMessage(m) {
      var i :| 0 <= i < |messages| && messages[i] == m;
      assert Since(log, SinceBelow(log, t)[i]) && log[head[i]].message == m;
    }
    if HasSomethingToSummarise(log, t) {
      var p: nat :| p < t && Since(log, p)
        && (log[p].message.role == User || log[p].message.role == Assistant || log[p].message.role == ToolResult);
      SinceBelowMember(log, t, p);
      var i :| 0 <= i < |head| && head[i] == p;
      assert messages[i] == log[p].message && messages[i] in messages;
    }
  }

  /** What a pass does with a tail that starts at `t`. */
  ghost predicate Due(log: seq<Entry>, c: Circumstances, t: nat) {
    && c.contextWindow > 0 && c.tokensCurrent >= c.threshold
    && StartsTail(log, t) && HasSomethingToSummarise(log, t)
    && c.reply.Some? && c.reply.value != "" && c.appendOk
  }

  lemma DueCompacts(log: seq<Entry>, c: Circumstances, t: nat)
    requires Due(log, c, t)
    ensures Compacts(log, c) && Candidates(log)[CutOf(log)] == t
  {
    var k := TailIsSplit(log, t);
    EligibleHead(log, k);
    assert k > 0;
    assert HasCut(log);
    SplitUnique(log, Candidates(log), k, CutOf(log));
  }

  /** When and what a pass appends: exactly when the window is known and the estimate
      has reached the threshold, a tail of four user messages starts behind something
      to summarise, the model replies and the session accepts; then one entry with
      that reply, the tail's first id and the estimate of what lies before it. */
  lemma PassExact(log: seq<Entry>, c: Circumstances)
    ensures Pass(log, c) != log <==> exists t: nat :: Due(log, c, t)
    ensures forall t: nat :: Due(log, c, t) ==>
              Pass(log, c)
              == log + [CompactionEntry(c.entryId, c.reply.value, log[t].id, Estimate(HeadMessages(log, t)))]
  {
    if Compacts(log, c) {
      var k := CutOf(log);
      SplitIsTail(log, k);
      EligibleHead(log, k);
      assert Due(log, c, Candidates(log)[k]);
    }
    forall t: nat | Due(log, c, t)
      ensures Pass(log, c)
           == log + [CompactionEntry(c.entryId, c.reply.value, log[t].id, Estimate(HeadMessages(log, t)))]
    {
      DueCompacts(log, c, t);
      SplitIsTail(log, CutOf(log));
    }
  }
}
