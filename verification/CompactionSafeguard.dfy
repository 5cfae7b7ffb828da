/** Hard truncation of one model round, and the token estimate it shares with
    the cross-turn compaction. */
module AgentMessages {
  import opened Sequences

  datatype Role = User | Assistant | ToolResult | CompactionSummary | BranchSummary | OtherRole

  datatype Part = TextPart(text: string) | ThinkingPart(thinking: string) | OtherPart

  datatype Content = Plain(text: string) | Parts(parts: seq<Part>) | NoContent

  /** `summary` is the text that summary messages carry instead of content. */
  datatype Message = Message(role: Role, content: Content, summary: Option<string>)

  const PER_MESSAGE_OVERHEAD := 4

  function PartLength(p: Part): nat {
    match p
    case TextPart(text) => |text|
    case ThinkingPart(thinking) => |thinking|
    case OtherPart => 0
  }

  function PartsLength(parts: seq<Part>): nat {
    if parts == [] then 0 else PartsLength(parts[..|parts| - 1]) + PartLength(parts[|parts| - 1])
  }

  function TextLength(m: Message): nat {
    match m.content
    case Plain(text) => |text|
    case Parts(parts) => PartsLength(parts)
    case NoContent => if m.summary.Some? then |m.summary.value| else 0
  }

  /** `overhead + ceil(length / 4)`. */
  function Tokens(m: Message): nat {
    PER_MESSAGE_OVERHEAD + (TextLength(m) + 3) / 4
  }

  function Estimate(messages: seq<Message>): nat {
    if messages == [] then 0 else Estimate(messages[..|messages| - 1]) + Tokens(messages[|messages| - 1])
  }

  method MessageTextLength(m: Message) returns (n: nat)
    ensures n == TextLength(m)
  {
    match m.content {
      case Plain(text) => return |text|;
      case Parts(parts) =>
        n := 0;
        for i := 0 to |parts|
          invariant n == PartsLength(parts[..i])
        {
          assert parts[..i + 1][..i] == parts[..i];
          match parts[i] {
            case TextPart(text) => n := n + |text|;
            case ThinkingPart(thinking) => n := n + |thinking|;
            case OtherPart =>
          }
        }
        assert parts[..|parts|] == parts;
      case NoContent =>
        return if m.summary.Some? then |m.summary.value| else 0;
    }
  }

  method EstimateTokens(messages: seq<Message>) returns (total: nat)
    ensures total == Estimate(messages)
  {
    total := 0;
    for i := 0 to |messages|
      invariant total == Estimate(messages[..i])
    {
      assert messages[..i + 1][..i] == messages[..i];
      var length := MessageTextLength(messages[i]);
      total := total + PER_MESSAGE_OVERHEAD + (length + 3) / 4;
    }
    assert messages[..|messages|] == messages;
  }

  lemma {:induction false} EstimateAppend(a: seq<Message>, b: seq<Message>)
    ensures Estimate(a + b) == Estimate(a) + Estimate(b)
  {
    if b == [] {
      assert a + b == a;
    } else {
      EstimateAppend(a, b[..|b| - 1]);
      assert (a + b)[..|a + b| - 1] == a + b[..|b| - 1];
    }
  }

  /** The characters the estimate counts. */
  function Visible(m: Message): string {
    match m.content
    case Plain(text) => text
    case Parts(parts) => VisibleParts(parts)
    case NoContent => if m.summary.Some? then m.summary.value else ""
  }

  function VisibleParts(parts: seq<Part>): string {
    if parts == [] then ""
    else
      VisibleParts(parts[..|parts| - 1])
      + match parts[|parts| - 1]
        case TextPart(text) => text
        case ThinkingPart(thinking) => thinking
        case OtherPart => ""
  }

  lemma {:induction false} PartsLengthExact(parts: seq<Part>)
    ensures PartsLength(parts) == |VisibleParts(parts)|
  {
    if parts != [] {
      PartsLengthExact(parts[..|parts| - 1]);
    }
  }

  /** A message costs four tokens and the fewest that cover its visible characters at
      four characters each. */
  lemma TokensExact(m: Message)
    ensures Tokens(m) >= 4 && 4 * (Tokens(m) - 4) >= |Visible(m)|
    ensures Tokens(m) > 4 ==> 4 * (Tokens(m) - 5) < |Visible(m)|
  {
    if m.content.Parts? {
      PartsLengthExact(m.content.parts);
    }
  }

  lemma EstimateOne(m: Message)
    ensures Estimate([]) == 0 && Estimate([m]) == Tokens(m)
  {
    assert [m][..0] == [];
  }
}

module CompactionSafeguard {
  import opened Sequences
  import opened AgentMessages

  predicate IsSummary(m: Message) {
    m.role == CompactionSummary || m.role == BranchSummary
  }

  function Summaries(messages: seq<Message>): (r: seq<Message>)
    ensures |r| <= |messages|
  {
    if messages == [] then []
    else
      Summaries(messages[..|messages| - 1])
      + (if IsSummary(messages[|messages| - 1]) then [messages[|messages| - 1]] else [])
  }

  /** The transcript truncated at `p`: of the messages before `p` only the
      summaries are left, and from `p` on everything is. */
  function Cut(messages: seq<Message>, p: nat): seq<Message>
    requires p <= |messages|
  {
    Summaries(messages[..p]) + messages[p..]
  }

  /** The first cut that fits under the ceiling; the last message is never cut. */
  function SafeCut(messages: seq<Message>, ceiling: int, from: nat): (p: nat)
    requires from < |messages| || (from == 0 && messages == [])
    ensures from <= p <= |messages| && (messages != [] ==> p < |messages|)
    ensures Estimate(Cut(messages, p)) <= ceiling || |messages| <= p + 1
    ensures forall q | from <= q < p :: Estimate(Cut(messages, q)) > ceiling
    decreases |messages| - from
  {
    if Estimate(Cut(messages, from)) <= ceiling || from + 1 >= |messages| then from
    else SafeCut(messages, ceiling, from + 1)
  }

  /** What the safeguard returns. An unknown window switches it off. */
  function Safeguard(messages: seq<Message>, contextWindow: int, ceiling: int): seq<Message> {
    if contextWindow <= 0 then messages else Cut(messages, SafeCut(messages, ceiling, 0))
  }

  lemma SummariesAppend(messages: seq<Message>, m: Message)
    ensures Summaries(messages + [m]) == Summaries(messages) + (if IsSummary(m) then [m] else [])
  {
  }

  lemma {:induction false} SummariesConcat(a: seq<Message>, b: seq<Message>)
    ensures Summaries(a + b) == Summaries(a) + Summaries(b)
  {
    if b == [] {
      assert a + b == a;
    } else {
      SummariesConcat(a, b[..|b| - 1]);
      assert (a + b)[..|a + b| - 1] == a + b[..|b| - 1];
    }
  }

  lemma {:induction false} AllSummaries(messages: seq<Message>)
    ensures forall i | 0 <= i < |Summaries(messages)| :: IsSummary(Summaries(messages)[i])
  {
    if messages != [] {
      AllSummaries(messages[..|messages| - 1]);
    }
  }

  lemma {:induction false} SummariesFixed(messages: seq<Message>)
    requires forall i | 0 <= i < |messages| :: IsSummary(messages[i])
    ensures Summaries(messages) == messages
  {
    if messages != [] {
      SummariesFixed(messages[..|messages| - 1]);
      assert messages == messages[..|messages| - 1] + [messages[|messages| - 1]];
    }
  }

  /** Moving the cut past one message: a summary stays, anything else goes. */
  lemma CutStep(messages: seq<Message>, p: nat)
    requires p < |messages|
    ensures var head := Summaries(messages[..p]);
            && Cut(messages, p) == head + [messages[p]] + messages[p + 1..]
            && Cut(messages, p + 1) == (if IsSummary(messages[p]) then head + [messages[p]] else head) + messages[p + 1..]
            && Estimate(Cut(messages, p))
               == Estimate(Cut(messages, p + 1)) + (if IsSummary(messages[p]) then 0 else Tokens(messages[p]))
  {
    var head, m, tail := Summaries(messages[..p]), messages[p], messages[p + 1..];
    assert messages[..p + 1] == messages[..p] + [m];
    SummariesAppend(messages[..p], m);
    assert messages[p..] == [m] + tail;
    assert head + ([m] + tail) == head + [m] + tail;
    EstimateAppend(head + [m], tail);
    EstimateAppend(head, [m]);
    EstimateAppend(head, tail);
    assert [m][..0] == [];
  }

  // ---- the loop ----

  /** The first message before the last that is not a summary, or -1. */
  method OldestDroppableIndex(messages: seq<Message>) returns (idx: int)
    ensures idx >= 0 ==> idx < |messages| - 1 && !IsSummary(messages[idx])
                         && forall i | 0 <= i < idx :: IsSummary(messages[i])
    ensures idx < 0 ==> forall i | 0 <= i < |messages| - 1 :: IsSummary(messages[i])
  {
    var i := 0;
    while i < |messages| - 1
      invariant i == 0 || 0 < i <= |messages| - 1
      invariant forall j | 0 <= j < i :: IsSummary(messages[j])
    {
      if !IsSummary(messages[i]) {
        return i;
      }
      i := i + 1;
    }
    return -1;
  }

  /** Skipping over summaries never ends the search for a cut. */
  lemma {:induction false} SafeCutFrom(messages: seq<Message>, ceiling: int, p: nat, q: nat)
    requires p <= q < |messages|
    requires forall i | p <= i < q :: Estimate(Cut(messages, i)) > ceiling
    ensures SafeCut(messages, ceiling, p) == SafeCut(messages, ceiling, q)
    decreases q - p
  {
  }

  lemma {:induction false} SameCut(messages: seq<Message>, p: nat, q: nat)
    requires p <= q < |messages|
    requires forall i | p <= i < q :: IsSummary(messages[i])
    ensures Cut(messages, q) == Cut(messages, p)
    decreases q - p
  {
    if p < q {
      SameCut(messages, p, q - 1);
      CutStep(messages, q - 1);
    }
  }

  /** A cut transcript, position by position. */
  lemma CutLayout(messages: seq<Message>, p: nat)
    requires p <= |messages|
    ensures var t, k := Cut(messages, p), |Summaries(messages[..p])|;
            && |t| == k + |messages| - p
            && (forall i | 0 <= i < k :: IsSummary(t[i]))
            && t[k..] == messages[p..]
  {
    AllSummaries(messages[..p]);
  }

  /** From any cut, the next message to go is the first non-summary after it,
      and removing it is the cut behind it. */
  lemma NextDrop(messages: seq<Message>, p: nat, idx: nat) returns (q: nat)
    requires p < |messages|
    requires var t := Cut(messages, p);
             idx < |t| - 1 && !IsSummary(t[idx]) && forall i | 0 <= i < idx :: IsSummary(t[i])
    ensures p <= q < |messages| - 1 && !IsSummary(messages[q])
    ensures forall i | p <= i < q :: IsSummary(messages[i])
    ensures Cut(messages, p)[..idx] + Cut(messages, p)[idx + 1..] == Cut(messages, q + 1)
  {
    CutLayout(messages, p);
    var t, k := Cut(messages, p), |Summaries(messages[..p])|;
    assert idx >= k && t[k..][idx - k] == messages[p..][idx - k];
    q := p + (idx - k);
    forall i | p <= i < q ensures IsSummary(messages[i]) {
      assert t[k..][i - p] == messages[p..][i - p];
    }
    SameCut(messages, p, q);
    RemoveAtCut(messages, q);
    CutLayout(messages, q);
  }

  lemma RemoveAtCut(messages: seq<Message>, q: nat)
    requires q < |messages| && !IsSummary(messages[q])
    ensures var t, k := Cut(messages, q), |Summaries(messages[..q])|;
            k < |t| && t[..k] + t[k + 1..] == Cut(messages, q + 1)
  {
    CutStep(messages, q);
    var head, tail := Summaries(messages[..q]), messages[q + 1..];
    assert (head + [messages[q]] + tail)[..|head|] == head;
    assert (head + [messages[q]] + tail)[|head| + 1..] == tail;
  }

  /** A cut that is still too big is passed over together with the summaries after it. */
  lemma SkipSummaries(messages: seq<Message>, ceiling: int, p: nat, q: nat)
    requires p <= q < |messages| - 1 && Estimate(Cut(messages, p)) > ceiling
    requires forall i | p <= i < q :: IsSummary(messages[i])
    ensures SafeCut(messages, ceiling, p) == SafeCut(messages, ceiling, q + 1)
  {
    forall i | p <= i <= q ensures Cut(messages, i) == Cut(messages, p) {
      SameCut(messages, p, i);
    }
    SafeCutFrom(messages, ceiling, p, q + 1);
  }

  /** One round of the loop, seen from the search for the cut. */
  lemma DropStep(messages: seq<Message>, p: nat, idx: nat, ceiling: int) returns (p': nat)
    requires p < |messages| && Estimate(Cut(messages, p)) > ceiling
    requires var t := Cut(messages, p);
             idx < |t| - 1 && !IsSummary(t[idx]) && forall i | 0 <= i < idx :: IsSummary(t[i])
    ensures p' < |messages|
    ensures Cut(messages, p)[..idx] + Cut(messages, p)[idx + 1..] == Cut(messages, p')
    ensures SafeCut(messages, ceiling, p) == SafeCut(messages, ceiling, p')
  {
    var q := NextDrop(messages, p, idx);
    SkipSummaries(messages, ceiling, p, q);
    p' := q + 1;
  }

  method ApplyCompactionSafeguard(messages: seq<Message>, contextWindow: int, ceiling: int)
    returns (trimmed: seq<Message>, dropped: nat)
    ensures trimmed == Safeguard(messages, contextWindow, ceiling)
    ensures |trimmed| + dropped == |messages|
  {
    trimmed, dropped := messages, 0;
    if contextWindow <= 0 {
      return;
    }
    var estimate := EstimateTokens(messages);
    assert Cut(messages, 0) == messages;
    if estimate <= ceiling || messages == [] {
      return;
    }
    ghost var p: nat := 0;
    while |trimmed| > 1 && estimate > ceiling
      invariant p < |messages| && trimmed == Cut(messages, p) && estimate == Estimate(trimmed)
      invariant SafeCut(messages, ceiling, 0) == SafeCut(messages, ceiling, p)
      invariant |trimmed| + dropped == |messages|
      decreases |trimmed|
    {
      var idx := OldestDroppableIndex(trimmed);
      if idx < 0 {
        break;
      }
      p := DropStep(messages, p, idx, ceiling);
      trimmed := trimmed[..idx] + trimmed[idx + 1..];
      dropped := dropped + 1;
      estimate := EstimateTokens(trimmed);
    }
    NothingLeftToCut(messages, p, ceiling);
  }

  /** When the loop stops, the search for a cut stops too. */
  lemma NothingLeftToCut(messages: seq<Message>, p: nat, ceiling: int)
    requires p < |messages|
    requires var t := Cut(messages, p);
             Estimate(t) <= ceiling || |t| <= 1 || forall i | 0 <= i < |t| - 1 :: IsSummary(t[i])
    ensures Cut(messages, SafeCut(messages, ceiling, p)) == Cut(messages, p)
  {
    var t := Cut(messages, p);
    if Estimate(t) > ceiling {
      var last := |messages| - 1;
      assert forall i | p <= i < last :: t[|t| - |messages| + i] == messages[i];
      SameCut(messages, p, SafeCut(messages, ceiling, p));
    }
  }

  // ---- what the safeguard promises ----

  /** The result as a selection: the summaries and the last message always stay,
      the others go oldest first, one fewer drop would not have been enough, and
      either the result fits or nothing droppable is left. */
  lemma SafeguardIsLeastTruncation(messages: seq<Message>, contextWindow: int, ceiling: int) returns (p: nat)
    requires contextWindow > 0 && messages != []
    ensures p < |messages| && Safeguard(messages, contextWindow, ceiling) == Cut(messages, p)
    ensures Summaries(Cut(messages, p)) == Summaries(messages)
    ensures Cut(messages, p)[|Cut(messages, p)| - 1] == messages[|messages| - 1]
    ensures forall q | 0 <= q < p :: Estimate(Cut(messages, q)) > ceiling
    ensures Estimate(Cut(messages, p)) <= ceiling || p == |messages| - 1
  {
    p := SafeCut(messages, ceiling, 0);
    SummariesStay(messages, p);
  }

  lemma SummariesTwice(messages: seq<Message>)
    ensures Summaries(Summaries(messages)) == Summaries(messages)
  {
    AllSummaries(messages);
    SummariesFixed(Summaries(messages));
  }

  lemma SplitAt(messages: seq<Message>, p: nat)
    requires p <= |messages|
    ensures messages == messages[..p] + messages[p..]
  {
  }

  lemma SummariesStay(messages: seq<Message>, p: nat)
    requires p <= |messages|
    ensures Summaries(Cut(messages, p)) == Summaries(messages)
  {
    SplitAt(messages, p);
    SummariesConcat(messages[..p], messages[p..]);
    SummariesTwice(messages[..p]);
    SummariesConcat(Summaries(messages[..p]), messages[p..]);
  }

  /** Truncating a truncated transcript changes nothing. */
  lemma SafeguardIdempotent(messages: seq<Message>, contextWindow: int, ceiling: int)
    ensures var r := Safeguard(messages, contextWindow, ceiling); Safeguard(r, contextWindow, ceiling) == r
  {
    if contextWindow > 0 && messages != [] {
      var p := SafeCut(messages, ceiling, 0);
      var r := Cut(messages, p);
      assert Cut(r, 0) == r;
      if Estimate(r) > ceiling {
        CutLayout(messages, p);
        NothingLeftToCut(r, 0, ceiling);
      }
    }
  }

  /** The transcript changes exactly when the window is known, the estimate exceeds the
      ceiling and something droppable, neither a summary of either kind nor the last
      message, is there to drop. */
  lemma SafeguardActsExact(messages: seq<Message>, contextWindow: int, ceiling: int)
    ensures Safeguard(messages, contextWindow, ceiling) != messages
       <==> contextWindow > 0 && Estimate(messages) > ceiling
            && exists i :: 0 <= i < |messages| - 1
                 && messages[i].role != CompactionSummary && messages[i].role != BranchSummary
  {
    assert Cut(messages, 0) == messages;
    if contextWindow > 0 && messages != [] {
      var p := SafeCut(messages, ceiling, 0);
      if i :| 0 <= i < |messages| - 1 && !IsSummary(messages[i]) {
        if Estimate(messages) > ceiling && Cut(messages, p) == messages {
          assert p == |messages| - 1;
          DroppedBefore(messages, p, i);
        }
      } else {
        SameCut(messages, 0, p);
      }
    }
  }

  /** A droppable message before the cut makes the transcript shorter. */
  lemma DroppedBefore(messages: seq<Message>, p: nat, i: nat)
    requires i < p <= |messages| && !IsSummary(messages[i])
    ensures |Cut(messages, p)| < |messages|
  {
    SplitAt(messages[..p], i);
    SummariesConcat(messages[..p][..i], messages[..p][i..]);
    assert messages[..p][i..] == [messages[i]] + messages[..p][i + 1..];
    SummariesConcat([messages[i]], messages[..p][i + 1..]);
    assert [messages[i]][..0] == [];
  }

  lemma {:induction false} SummariesByRole(messages: seq<Message>, m: Message)
    requires m.role == CompactionSummary || m.role == BranchSummary
    ensures multiset(Summaries(messages))[m] == multiset(messages)[m]
  {
    if messages != [] {
      var front, last := messages[..|messages| - 1], messages[|messages| - 1];
      SummariesByRole(front, m);
      FrontAndLast(messages);
      assert multiset(front + [last])[m] == multiset(front)[m] + (if last == m then 1 else 0);
      SummariesAppend(front, last);
    }
  }

  /** No summary of either kind is ever dropped. */
  lemma SummariesStayByRole(messages: seq<Message>, contextWindow: int, ceiling: int, m: Message)
    requires m.role == CompactionSummary || m.role == BranchSummary
    ensures multiset(Safeguard(messages, contextWindow, ceiling))[m] == multiset(messages)[m]
  {
    if contextWindow > 0 && messages != [] {
      var p := SafeguardIsLeastTruncation(messages, contextWindow, ceiling);
      SummariesByRole(messages[..p], m);
      SplitAt(messages, p);
      assert multiset(messages[..p] + messages[p..])[m] == multiset(messages[..p])[m] + multiset(messages[p..])[m];
    }
  }
}
