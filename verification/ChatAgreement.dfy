/** The two folds of a chat stream agree: reloading the accumulated blocks gives
    back the live timeline, with the one exact exception of blank text runs. */
module ChatAgreement {
  import opened Sequences
  import opened ChatModel
  import opened LiveFold
  import opened BlockAccumulation
  import opened Reload

  /** What persisting does to a tool event: arguments become an object, and a
      delivered result becomes its string form. */
  function Persisted(e: ToolEvent): ToolEvent {
    e.(args := OrEmptyObject(e.args),
       result := if e.result.None? then None else Some(Str(Stringify(e.result.value))))
  }

  function PersistedEvents(es: seq<ToolEvent>): (r: seq<ToolEvent>)
    ensures |r| == |es| && forall i | 0 <= i < |es| :: r[i] == Persisted(es[i])
  {
    seq(|es|, i requires 0 <= i < |es| => Persisted(es[i]))
  }

  function PersistedSegment(s: Segment): Segment {
    if s.Tools? then Tools(PersistedEvents(s.events)) else s
  }

  function PersistedSegments(segments: seq<Segment>): (r: seq<Segment>)
    ensures |r| == |segments| && forall i | 0 <= i < |r| :: r[i] == PersistedSegment(segments[i])
  {
    seq(|segments|, i requires 0 <= i < |segments| => PersistedSegment(segments[i]))
  }

  function AppendCluster(segments: seq<Segment>, events: seq<ToolEvent>): seq<Segment> {
    if segments != [] && segments[|segments| - 1].Tools? then
      segments[..|segments| - 1] + [Tools(segments[|segments| - 1].events + events)]
    else segments + [Tools(events)]
  }

  function SquashOne(segments: seq<Segment>, s: Segment): seq<Segment> {
    match s
    case Text(text) => AppendText(segments, text)
    case Thinking(_) => segments + [s]
    case Tools(events) => AppendCluster(segments, events)
  }

  /** A timeline without its empty texts, neighbouring clusters run together. */
  function Squash(segments: seq<Segment>): seq<Segment> {
    if segments == [] then [] else SquashOne(Squash(segments[..|segments| - 1]), segments[|segments| - 1])
  }

  // ---- one step of the reload, seen from the stream ----

  /** The rebuilt state after one more event: the reload only ever extends its
      last segment, whether or not the accumulator opened a block for it. */
  function RebuiltStep(r: Rebuilt, e: StreamEvent): (seq<Segment>, seq<ToolEvent>) {
    match e
    case TextDelta(text) => (JoinText(r.segments, text), r.toolEvents)
    case ToolCall(id, name, args) =>
      var event := Persisted(ToolEvent(id, name, args, None));
      (AppendToolCall(r.segments, event), r.toolEvents + [event])
    case ToolResult(id, result) =>
      (ApplyToolResult(r.segments, id, Str(Stringify(result))),
       DeliverAll(r.toolEvents, id, Str(Stringify(result))))
    case _ => (r.segments, r.toolEvents)
  }

  lemma JoinTextTwice(segments: seq<Segment>, t: string, u: string)
    ensures JoinText(JoinText(segments, t), u) == JoinText(segments, t + u)
  {
    if segments != [] && segments[|segments| - 1].Text? {
      assert segments[|segments| - 1].text + t + u == segments[|segments| - 1].text + (t + u);
    }
  }

  lemma RebuildAppend(blocks: seq<Block>, b: Block)
    ensures Rebuild(blocks + [b]) == ReloadStep(Rebuild(blocks), b)
  {
  }

  lemma RebuildText(blocks: seq<Block>, text: string)
    ensures var r := Rebuild(GrowText(blocks, text));
            r.segments == JoinText(Rebuild(blocks).segments, text) && r.toolEvents == Rebuild(blocks).toolEvents
  {
    if blocks != [] && blocks[|blocks| - 1].TextBlock? {
      var front, last := blocks[..|blocks| - 1], blocks[|blocks| - 1];
      RebuildAppend(front, TextBlock(last.text + text));
      JoinTextTwice(Rebuild(front).segments, last.text, text);
    } else {
      RebuildAppend(blocks, TextBlock(text));
    }
  }

  /** The event opens a block of its own, so that later text opens another. */
  predicate Separates(e: StreamEvent) {
    e.ToolCall? || e.ToolResult? || e.CitedFrames?
  }

  /** The block an event adds, when it adds one of its own. */
  function BlockOf(e: StreamEvent): Block
    requires Separates(e)
  {
    match e
    case ToolCall(id, name, args) => ToolUseBlock(id, name, args)
    case ToolResult(id, result) => ToolResultBlock(id, Stringify(result))
    case CitedFrames(frameIds) => FrameCitationBlock(frameIds)
  }

  lemma StepsAgree(r: Rebuilt, e: StreamEvent)
    requires Separates(e)
    ensures var t := ReloadStep(r, BlockOf(e));
            (t.segments, t.toolEvents) == RebuiltStep(r, e)
  {
  }

  lemma RebuildBlock(blocks: seq<Block>, e: StreamEvent)
    requires Separates(e)
    ensures var r := Rebuild(blocks + [BlockOf(e)]);
            (r.segments, r.toolEvents) == RebuiltStep(Rebuild(blocks), e)
  {
    RebuildAppend(blocks, BlockOf(e));
    StepsAgree(Rebuild(blocks), e);
  }

  lemma RebuildFollows(a: AccState, e: StreamEvent)
    ensures var r := Rebuild(AccStep(a, e).blocks);
            (r.segments, r.toolEvents) == RebuiltStep(Rebuild(a.blocks), e)
  {
    if e.TextDelta? {
      RebuildText(a.blocks, e.text);
    } else if Separates(e) {
      RebuildBlock(a.blocks, e);
      assert AccStep(a, e).blocks == a.blocks + [BlockOf(e)];
    } else {
      assert AccStep(a, e).blocks == a.blocks;
    }
  }

  // ---- squashing commutes with each way a timeline grows ----

  lemma SquashAppend(segments: seq<Segment>, s: Segment)
    ensures Squash(segments + [s]) == SquashOne(Squash(segments), s)
  {
  }

  lemma AppendTextTwice(segments: seq<Segment>, t: string, u: string)
    ensures AppendText(AppendText(segments, t), u) == AppendText(segments, t + u)
  {
    if segments != [] && segments[|segments| - 1].Text? {
      assert segments[|segments| - 1].text + t + u == segments[|segments| - 1].text + (t + u);
    }
    assert t == "" ==> t + u == u;
    assert u == "" ==> t + u == t;
  }

  lemma SquashJoinText(segments: seq<Segment>, text: string)
    ensures Squash(JoinText(segments, text)) == AppendText(Squash(segments), text)
  {
    if segments != [] && segments[|segments| - 1].Text? {
      var front, last := segments[..|segments| - 1], segments[|segments| - 1];
      SquashAppend(front, Text(last.text + text));
      AppendTextTwice(Squash(front), last.text, text);
    } else {
      SquashAppend(segments, Text(text));
    }
  }

  lemma SquashToolCall(segments: seq<Segment>, event: ToolEvent)
    ensures Squash(AppendToolCall(segments, event)) == AppendToolCall(Squash(segments), event)
  {
    if segments != [] && segments[|segments| - 1].Tools? {
      var front, last := segments[..|segments| - 1], segments[|segments| - 1];
      SquashAppend(front, Tools(last.events + [event]));
      var s := Squash(front);
      if s != [] && s[|s| - 1].Tools? {
        assert s[|s| - 1].events + (last.events + [event]) == s[|s| - 1].events + last.events + [event];
      }
    } else {
      SquashAppend(segments, Tools([event]));
    }
  }

  lemma PatchAppendText(segments: seq<Segment>, text: string, id: string, result: Value)
    ensures ApplyToolResult(AppendText(segments, text), id, result)
         == AppendText(ApplyToolResult(segments, id, result), text)
  {
  }

  lemma PatchAppendCluster(segments: seq<Segment>, events: seq<ToolEvent>, id: string, result: Value)
    ensures ApplyToolResult(AppendCluster(segments, events), id, result)
         == AppendCluster(ApplyToolResult(segments, id, result), DeliverAll(events, id, result))
  {
    if segments != [] && segments[|segments| - 1].Tools? {
      var front, last := segments[..|segments| - 1], segments[|segments| - 1];
      assert segments == front + [last];
      ApplyToolResultAppend(front, last, id, result);
      ApplyToolResultAppend(front, Tools(last.events + events), id, result);
      DeliverAllAppend(last.events, events, id, result);
    } else {
      ApplyToolResultAppend(segments, Tools(events), id, result);
    }
  }

  lemma {:induction false} SquashToolResult(segments: seq<Segment>, id: string, result: Value)
    ensures Squash(ApplyToolResult(segments, id, result)) == ApplyToolResult(Squash(segments), id, result)
  {
    if segments != [] {
      var front, last := segments[..|segments| - 1], segments[|segments| - 1];
      assert segments == front + [last];
      SquashToolResult(front, id, result);
      ApplyToolResultAppend(front, last, id, result);
      SquashAppend(ApplyToolResult(front, id, result), PatchSegment(last, id, result));
      match last {
        case Text(text) => PatchAppendText(Squash(front), text, id, result);
        case Thinking(_) => ApplyToolResultAppend(Squash(front), last, id, result);
        case Tools(events) => PatchAppendCluster(Squash(front), events, id, result);
      }
    }
  }

  // ---- persisting commutes with each way the live timeline grows ----

  lemma PersistedEventsAppend(a: seq<ToolEvent>, e: ToolEvent)
    ensures PersistedEvents(a + [e]) == PersistedEvents(a) + [Persisted(e)]
  {
  }

  lemma PersistedSegmentsAppend(front: seq<Segment>, s: Segment)
    ensures PersistedSegments(front + [s]) == PersistedSegments(front) + [PersistedSegment(s)]
  {
  }

  lemma PersistedAppendText(segments: seq<Segment>, text: string)
    ensures PersistedSegments(AppendText(segments, text)) == AppendText(PersistedSegments(segments), text)
  {
  }

  lemma PersistedToolCall(segments: seq<Segment>, event: ToolEvent)
    ensures PersistedSegments(AppendToolCall(segments, event))
         == AppendToolCall(PersistedSegments(segments), Persisted(event))
  {
    if segments != [] && segments[|segments| - 1].Tools? {
      var front, last := segments[..|segments| - 1], segments[|segments| - 1];
      assert segments == front + [last];
      PersistedSegmentsAppend(front, last);
      PersistedSegmentsAppend(front, Tools(last.events + [event]));
      PersistedEventsAppend(last.events, event);
    } else {
      PersistedSegmentsAppend(segments, Tools([event]));
      assert PersistedEvents([event]) == [Persisted(event)];
    }
  }

  lemma PersistedDelivery(es: seq<ToolEvent>, id: string, result: Value)
    ensures PersistedEvents(DeliverAll(es, id, result))
         == DeliverAll(PersistedEvents(es), id, Str(Stringify(result)))
  {
  }

  lemma PersistedToolResult(segments: seq<Segment>, id: string, result: Value)
    ensures PersistedSegments(ApplyToolResult(segments, id, result))
         == ApplyToolResult(PersistedSegments(segments), id, Str(Stringify(result)))
  {
    forall i | 0 <= i < |segments|
      ensures PersistedSegment(PatchSegment(segments[i], id, result))
           == PatchSegment(PersistedSegment(segments[i]), id, Str(Stringify(result)))
    {
      PersistedDelivery(EventsOf(segments[i]), id, result);
    }
  }

  // ---- agreement up to blank texts, for every stream ----

  ghost predicate Agrees(r: Rebuilt, m: LiveMessage) {
    && Squash(r.segments) == PersistedSegments(m.segments)
    && r.toolEvents == PersistedEvents(m.toolEvents)
  }

  lemma AgreementStep(r: Rebuilt, m: LiveMessage, e: StreamEvent, fallback: string, r': Rebuilt)
    requires Agrees(r, m) && (r'.segments, r'.toolEvents) == RebuiltStep(r, e)
    ensures Agrees(r', ApplyEvent(m, e, fallback))
  {
    match e {
      case TextDelta(text) =>
        SquashJoinText(r.segments, text);
        PersistedAppendText(m.segments, text);
      case ToolCall(id, name, args) =>
        var event := ToolEvent(id, name, args, None);
        SquashToolCall(r.segments, Persisted(event));
        PersistedToolCall(m.segments, event);
        PersistedEventsAppend(m.toolEvents, event);
      case ToolResult(id, result) =>
        SquashToolResult(r.segments, id, Str(Stringify(result)));
        PersistedToolResult(m.segments, id, result);
        PersistedDelivery(m.toolEvents, id, result);
      case _ =>
    }
  }

  lemma {:induction false} ReloadAgrees(id: string, events: seq<StreamEvent>, fallback: string)
    ensures Agrees(Rebuild(Accumulate(events).blocks), Live(FreshAssistant(id), events, fallback))
  {
    if events != [] {
      var front, e := events[..|events| - 1], events[|events| - 1];
      ReloadAgrees(id, front, fallback);
      var a, m := Accumulate(front), Live(FreshAssistant(id), front, fallback);
      RebuildFollows(a, e);
      AgreementStep(Rebuild(a.blocks), m, e, fallback, Rebuild(AccStep(a, e).blocks));
    }
  }

  lemma CitationsStep(a: AccState, m: LiveMessage, e: StreamEvent, fallback: string)
    requires a.citedFrameIds == m.citedFrameIds
    ensures AccStep(a, e).citedFrameIds == ApplyEvent(m, e, fallback).citedFrameIds
  {
  }

  lemma {:induction false} CitationsAgree(id: string, events: seq<StreamEvent>, fallback: string)
    ensures Accumulate(events).citedFrameIds == Live(FreshAssistant(id), events, fallback).citedFrameIds
  {
    if events != [] {
      var front, e := events[..|events| - 1], events[|events| - 1];
      CitationsAgree(id, front, fallback);
      CitationsStep(Accumulate(front), Live(FreshAssistant(id), front, fallback), e, fallback);
    }
  }

  // ---- exact agreement: blank runs ----

  predicate HasBlankText(segments: seq<Segment>) {
    exists i | 0 <= i < |segments| :: segments[i] == Text("")
  }

  /** A timeline the reload can produce from a stream: clusters are not empty and kinds alternate. */
  predicate Alternating(segments: seq<Segment>) {
    && (forall i | 0 <= i < |segments| :: !segments[i].Thinking? && segments[i] != Tools([]))
    && (forall i | 0 <= i < |segments| - 1 :: segments[i].Text? != segments[i + 1].Text?)
  }

  lemma AlternatingStep(r: Rebuilt, e: StreamEvent)
    requires Alternating(r.segments)
    ensures Alternating(RebuiltStep(r, e).0)
  {
    if e.ToolResult? {
      forall i | 0 <= i < |r.segments|
        ensures var s := PatchSegment(r.segments[i], e.id, Str(Stringify(e.result)));
                !s.Thinking? && s != Tools([]) && s.Text? == r.segments[i].Text?
      {
      }
    }
  }

  lemma {:induction false} RebuildAlternates(events: seq<StreamEvent>)
    ensures Alternating(Rebuild(Accumulate(events).blocks).segments)
  {
    if events != [] {
      var front, e := events[..|events| - 1], events[|events| - 1];
      RebuildAlternates(front);
      RebuildFollows(Accumulate(front), e);
      AlternatingStep(Rebuild(Accumulate(front).blocks), e);
    }
  }

  /** Squashing leaves a timeline alone exactly when it has no empty text. */
  lemma {:induction false} SquashFixed(segments: seq<Segment>)
    requires Alternating(segments) && !HasBlankText(segments)
    ensures Squash(segments) == segments
  {
    if segments != [] {
      var front, last := segments[..|segments| - 1], segments[|segments| - 1];
      assert segments == front + [last];
      SquashFixed(front);
    }
  }

  lemma PersistedNormalForm(segments: seq<Segment>)
    requires NormalForm(segments)
    ensures !HasBlankText(PersistedSegments(segments))
  {
  }

  /** `events[lo..hi)` is a maximal stretch without tool calls. */
  predicate IsRun(events: seq<StreamEvent>, lo: nat, hi: nat) {
    && lo <= hi <= |events|
    && (lo == 0 || events[lo - 1].ToolCall?)
    && (hi == |events| || events[hi].ToolCall?)
    && forall i | lo <= i < hi :: !events[i].ToolCall?
  }

  /** A run carries text deltas, and every one of them is empty. */
  predicate IsBlank(events: seq<StreamEvent>, lo: nat, hi: nat)
    requires lo <= hi <= |events|
  {
    && (exists i | lo <= i < hi :: events[i].TextDelta?)
    && forall i | lo <= i < hi :: events[i].TextDelta? ==> events[i].text == ""
  }

  ghost predicate HasBlankRun(events: seq<StreamEvent>) {
    exists lo: nat, hi: nat :: IsRun(events, lo, hi) && IsBlank(events, lo, hi)
  }

  /** Where the run at the end of the stream starts. */
  function OpenRun(events: seq<StreamEvent>): (lo: nat)
    ensures IsRun(events, lo, |events|)
  {
    if events == [] then 0
    else if events[|events| - 1].ToolCall? then |events|
    else
      var front := events[..|events| - 1];
      assert forall i | 0 <= i < |front| :: front[i] == events[i];
      OpenRun(front)
  }

  lemma RunEndingHere(events: seq<StreamEvent>, lo: nat)
    requires IsRun(events, lo, |events|)
    ensures lo == OpenRun(events)
  {
  }

  predicate ClosedBlankText(segments: seq<Segment>) {
    exists i | 0 <= i < |segments| - 1 :: segments[i] == Text("")
  }

  ghost predicate ClosedBlankRun(events: seq<StreamEvent>) {
    exists lo: nat, hi: nat :: hi < |events| && IsRun(events, lo, hi) && IsBlank(events, lo, hi)
  }

  predicate EndsInText(segments: seq<Segment>) {
    segments != [] && segments[|segments| - 1].Text?
  }

  /** The segments tell the runs apart: the last segment is the text of the open
      run, and an earlier empty text is an earlier blank run. */
  ghost predicate TracksRuns(segments: seq<Segment>, events: seq<StreamEvent>) {
    var lo := OpenRun(events);
    && (EndsInText(segments) <==> exists i | lo <= i < |events| :: events[i].TextDelta?)
    && (EndsInText(segments) ==>
          (segments[|segments| - 1].text == "" <==>
           forall i | lo <= i < |events| :: events[i].TextDelta? ==> events[i].text == ""))
    && (ClosedBlankText(segments) <==> ClosedBlankRun(events))
  }

  /** Runs that end before the last event do not depend on it. */
  lemma EarlierRuns(front: seq<StreamEvent>, e: StreamEvent, lo: nat, hi: nat)
    requires hi < |front|
    ensures IsRun(front + [e], lo, hi) && IsBlank(front + [e], lo, hi)
       <==> IsRun(front, lo, hi) && IsBlank(front, lo, hi)
  {
    var events := front + [e];
    assert forall i | 0 <= i < |front| :: events[i] == front[i];
    if IsRun(front, lo, hi) && IsBlank(front, lo, hi) {
      var i :| lo <= i < hi && front[i].TextDelta?;
      assert events[i].TextDelta?;
    }
    if IsRun(events, lo, hi) && IsBlank(events, lo, hi) {
      var i :| lo <= i < hi && events[i].TextDelta?;
      assert front[i].TextDelta?;
    }
  }

  lemma RunClosesHere(front: seq<StreamEvent>, e: StreamEvent, lo: nat)
    requires e.ToolCall? && lo <= |front|
    ensures IsRun(front + [e], lo, |front|) && IsBlank(front + [e], lo, |front|)
       <==> lo == OpenRun(front) && IsBlank(front, lo, |front|)
  {
    var events := front + [e];
    assert forall i | 0 <= i < |front| :: events[i] == front[i];
    if IsRun(events, lo, |front|) && IsBlank(events, lo, |front|) {
      var i :| lo <= i < |front| && events[i].TextDelta?;
      assert front[i].TextDelta?;
      RunEndingHere(front, lo);
    }
    if lo == OpenRun(front) && IsBlank(front, lo, |front|) {
      var i :| lo <= i < |front| && front[i].TextDelta?;
      assert events[i].TextDelta?;
    }
  }

  lemma ClosedRunsStep(front: seq<StreamEvent>, e: StreamEvent)
    ensures ClosedBlankRun(front + [e]) <==>
            ClosedBlankRun(front) || (e.ToolCall? && IsBlank(front, OpenRun(front), |front|))
  {
    var events := front + [e];
    if ClosedBlankRun(front) {
      var lo: nat, hi: nat :| hi < |front| && IsRun(front, lo, hi) && IsBlank(front, lo, hi);
      EarlierRuns(front, e, lo, hi);
    }
    if e.ToolCall? {
      RunClosesHere(front, e, OpenRun(front));
    }
    if ClosedBlankRun(events) {
      var lo: nat, hi: nat :| hi < |events| && IsRun(events, lo, hi) && IsBlank(events, lo, hi);
      if hi < |front| {
        EarlierRuns(front, e, lo, hi);
      } else {
        RunClosesHere(front, e, lo);
      }
    }
  }

  lemma CallKeepsTracking(r: Rebuilt, front: seq<StreamEvent>, e: StreamEvent, events: seq<StreamEvent>)
    requires TracksRuns(r.segments, front) && Alternating(r.segments) && e.ToolCall? && events == front + [e]
    ensures TracksRuns(RebuiltStep(r, e).0, events)
  {
    assert events[..|front|] == front;
    ClosedRunsStep(front, e);
    CallClosesRun(r.segments, Persisted(ToolEvent(e.id, e.name, e.args, None)));
  }

  lemma OtherKeepsTracking(segments: seq<Segment>, segments': seq<Segment>, front: seq<StreamEvent>, e: StreamEvent,
                           events: seq<StreamEvent>)
    requires TracksRuns(segments, front) && !e.TextDelta? && !e.ToolCall? && events == front + [e]
    requires EndsInText(segments') <==> EndsInText(segments)
    requires EndsInText(segments) ==> segments'[|segments'| - 1] == segments[|segments| - 1]
    requires ClosedBlankText(segments') <==> ClosedBlankText(segments)
    ensures TracksRuns(segments', events)
  {
    ClosedRunsStep(front, e);
    SameDeltas(front, e);
  }

  /** What one event does to the segments that track the runs. */
  lemma TracksRunsStep(r: Rebuilt, front: seq<StreamEvent>, e: StreamEvent, events: seq<StreamEvent>,
                       segments': seq<Segment>)
    requires TracksRuns(r.segments, front) && Alternating(r.segments) && events == front + [e]
    requires segments' == RebuiltStep(r, e).0
    ensures TracksRuns(segments', events)
  {
    match e {
      case TextDelta(text) => TextKeepsTracking(r, front, e);
      case ToolCall(id, name, args) => CallKeepsTracking(r, front, e, events);
      case ToolResult(id, result) =>
        PatchKeepsTexts(r.segments, id, Str(Stringify(result)));
        OtherKeepsTracking(r.segments, segments', front, e, events);
      case _ =>
        OtherKeepsTracking(r.segments, r.segments, front, e, events);
    }
  }

  /** An event that is neither text nor call leaves the open run's deltas as they are. */
  lemma SameDeltas(front: seq<StreamEvent>, e: StreamEvent)
    requires !e.TextDelta? && !e.ToolCall?
    ensures var events, lo := front + [e], OpenRun(front);
            && OpenRun(events) == lo
            && ((exists i | lo <= i < |events| :: events[i].TextDelta?)
                <==> (exists i | lo <= i < |front| :: front[i].TextDelta?))
            && ((forall i | lo <= i < |events| :: events[i].TextDelta? ==> events[i].text == "")
                <==> (forall i | lo <= i < |front| :: front[i].TextDelta? ==> front[i].text == ""))
  {
  }

  lemma PatchKeepsTexts(segments: seq<Segment>, id: string, result: Value)
    ensures var r := ApplyToolResult(segments, id, result);
            && (EndsInText(r) <==> EndsInText(segments))
            && (EndsInText(r) ==> r[|r| - 1] == segments[|r| - 1])
            && (ClosedBlankText(r) <==> ClosedBlankText(segments))
  {
  }

  lemma CallClosesRun(segments: seq<Segment>, event: ToolEvent)
    requires Alternating(segments)
    ensures var r := AppendToolCall(segments, event);
            && !EndsInText(r)
            && (ClosedBlankText(r) <==> HasBlankText(segments))
  {
    var r := AppendToolCall(segments, event);
    if i :| 0 <= i < |segments| && segments[i] == Text("") {
      assert r[i] == Text("");
    }
    if i :| 0 <= i < |r| - 1 && r[i] == Text("") {
      assert segments[i] == Text("");
    }
  }

  lemma TextKeepsTracking(r: Rebuilt, front: seq<StreamEvent>, e: StreamEvent)
    requires TracksRuns(r.segments, front) && Alternating(r.segments) && e.TextDelta?
    ensures TracksRuns(JoinText(r.segments, e.text), front + [e])
  {
    var events, lo := front + [e], OpenRun(front);
    assert events[..|front|] == front;
    assert OpenRun(events) == lo;
    assert events[|front|].TextDelta?;
    assert forall i | 0 <= i < |front| :: events[i] == front[i];
    ClosedRunsStep(front, e);
    var s, s' := r.segments, JoinText(r.segments, e.text);
    if i :| 0 <= i < |s| - 1 && s[i] == Text("") {
      assert s'[i] == Text("");
    }
    if i :| 0 <= i < |s'| - 1 && s'[i] == Text("") {
      assert s[i] == Text("");
    }
  }

  lemma ReloadFollows(events: seq<StreamEvent>)
    requires events != []
    ensures var front, e := events[..|events| - 1], events[|events| - 1];
            Rebuild(Accumulate(events).blocks).segments
            == RebuiltStep(Rebuild(Accumulate(front).blocks), e).0
  {
    RebuildFollows(Accumulate(events[..|events| - 1]), events[|events| - 1]);
  }

  lemma {:induction false} RunsTracked(events: seq<StreamEvent>)
    ensures TracksRuns(Rebuild(Accumulate(events).blocks).segments, events)
  {
    if events != [] {
      var front, e := events[..|events| - 1], events[|events| - 1];
      RunsTracked(front);
      RebuildAlternates(front);
      ReloadFollows(events);
      TracksRunsStep(Rebuild(Accumulate(front).blocks), front, e, events,
                     Rebuild(Accumulate(events).blocks).segments);
    }
  }

  lemma BlankTextIsBlankRun(segments: seq<Segment>, events: seq<StreamEvent>)
    requires TracksRuns(segments, events)
    ensures HasBlankText(segments) <==> HasBlankRun(events)
  {
  }

  /** The reloaded timeline is exactly the live one if and only if no stretch
      between tool calls carries text deltas that are all empty. In particular
      a stream of non-empty deltas reloads exactly. */
  lemma ReloadExact(id: string, events: seq<StreamEvent>, fallback: string)
    ensures Rebuild(Accumulate(events).blocks).segments
            == PersistedSegments(Live(FreshAssistant(id), events, fallback).segments)
       <==> !HasBlankRun(events)
    ensures (forall e | e in events :: e.TextDelta? ==> e.text != "") ==> !HasBlankRun(events)
  {
    var m := Live(FreshAssistant(id), events, fallback);
    var reloaded := Rebuild(Accumulate(events).blocks).segments;
    ReloadAgrees(id, events, fallback);
    LiveNormalForm(id, events, fallback);
    PersistedNormalForm(m.segments);
    RebuildAlternates(events);
    RunsTracked(events);
    BlankTextIsBlankRun(reloaded, events);
    if !HasBlankText(reloaded) {
      SquashFixed(reloaded);
    }
  }

  /** The smallest stream on which the two folds part: live shows nothing, the
      reload shows an empty text segment that would split a tool cluster. */
  lemma BlankRunWitness(id: string, fallback: string)
    ensures var events := [ToolCall("a", "t", Other("{}")), TextDelta(""), ToolCall("b", "t", Other("{}"))];
            && |Live(FreshAssistant(id), events, fallback).segments| == 1
            && |Rebuild(Accumulate(events).blocks).segments| == 3
  {
    var call, blank, again := ToolCall("a", "t", Other("{}")), TextDelta(""), ToolCall("b", "t", Other("{}"));
    AccumulateAppend([], call);
    AccumulateAppend([call], blank);
    AccumulateAppend([call, blank], again);
    LiveAppend(FreshAssistant(id), [], call, fallback);
    LiveAppend(FreshAssistant(id), [call], blank, fallback);
    LiveAppend(FreshAssistant(id), [call, blank], again, fallback);
    assert [] + [call] == [call] && [call] + [blank] == [call, blank];
    assert [call, blank] + [again] == [call, blank, again];
    RebuildFollows(EMPTY, call);
    RebuildFollows(AccStep(EMPTY, call), blank);
    RebuildFollows(AccStep(AccStep(EMPTY, call), blank), again);
  }

  lemma AccumulateAppend(front: seq<StreamEvent>, e: StreamEvent)
    ensures Accumulate(front + [e]) == AccStep(Accumulate(front), e)
  {
  }

  // ---- the flat content ----

  function BlockText(blocks: seq<Block>): string {
    if blocks == [] then ""
    else BlockText(blocks[..|blocks| - 1])
         + (if blocks[|blocks| - 1].TextBlock? then blocks[|blocks| - 1].text else "")
  }

  /** No text block follows a non-empty one. */
  predicate OneTextBlock(blocks: seq<Block>) {
    forall i, j | 0 <= i < j < |blocks| ::
      blocks[i].TextBlock? && blocks[j].TextBlock? ==> blocks[i].text == ""
  }

  lemma BlockTextAppend(front: seq<Block>, b: Block)
    ensures BlockText(front + [b]) == BlockText(front) + (if b.TextBlock? then b.text else "")
  {
  }

  lemma BlockTextStep(a: AccState, e: StreamEvent)
    ensures BlockText(AccStep(a, e).blocks) == BlockText(a.blocks) + (if e.TextDelta? then e.text else "")
  {
    match e {
      case TextDelta(text) =>
        var n := |a.blocks| - 1;
        if n >= 0 && a.blocks[n].TextBlock? {
          BlockTextAppend(a.blocks[..n], TextBlock(a.blocks[n].text + text));
          assert BlockText(a.blocks[..n]) + (a.blocks[n].text + text)
              == BlockText(a.blocks[..n]) + a.blocks[n].text + text;
        } else {
          BlockTextAppend(a.blocks, TextBlock(text));
        }
      case CitedFrames(frameIds) => BlockTextAppend(a.blocks, FrameCitationBlock(frameIds));
      case ToolCall(id, name, args) => BlockTextAppend(a.blocks, ToolUseBlock(id, name, args));
      case ToolResult(id, result) => BlockTextAppend(a.blocks, ToolResultBlock(id, Stringify(result)));
      case _ =>
    }
  }

  lemma {:induction false} AccumulatedText(events: seq<StreamEvent>)
    ensures BlockText(Accumulate(events).blocks) == AllText(events)
  {
    if events != [] {
      AccumulatedText(events[..|events| - 1]);
      BlockTextStep(Accumulate(events[..|events| - 1]), events[|events| - 1]);
    }
  }

  predicate SomeInk(blocks: seq<Block>) {
    exists i | 0 <= i < |blocks| :: blocks[i].TextBlock? && blocks[i].text != ""
  }

  lemma InkAppend(front: seq<Block>, b: Block)
    ensures SomeInk(front + [b]) <==> SomeInk(front) || (b.TextBlock? && b.text != "")
    ensures OneTextBlock(front + [b]) <==> OneTextBlock(front) && (b.TextBlock? ==> !SomeInk(front))
  {
    var blocks := front + [b];
    assert blocks[|front|] == b;
    assert forall i | 0 <= i < |front| :: front[i] == blocks[i];
    if i :| 0 <= i < |front| && front[i].TextBlock? && front[i].text != "" {
      assert blocks[i].TextBlock? && blocks[i].text != "";
      assert b.TextBlock? ==> !OneTextBlock(blocks);
    }
    if !OneTextBlock(front) {
      var i, j :| 0 <= i < j < |front| && front[i].TextBlock? && front[j].TextBlock? && front[i].text != "";
      assert blocks[i].TextBlock? && blocks[j].TextBlock?;
    }
  }

  lemma {:induction false} RollUpText(blocks: seq<Block>)
    ensures var r := Rebuild(blocks).textRollup;
            && (r != "" <==> SomeInk(blocks))
            && |r| >= |BlockText(blocks)|
            && (if OneTextBlock(blocks) then r == BlockText(blocks) else |r| > |BlockText(blocks)|)
  {
    if blocks != [] {
      var front, b := blocks[..|blocks| - 1], blocks[|blocks| - 1];
      assert blocks == front + [b];
      RollUpText(front);
      InkAppend(front, b);
      RebuildAppend(front, b);
      BlockTextAppend(front, b);
    }
  }

  // ---- the same, read off the events ----

  predicate InkAt(events: seq<StreamEvent>, i: nat) {
    i < |events| && events[i].TextDelta? && events[i].text != ""
  }

  predicate SeparatorAt(events: seq<StreamEvent>, j: nat) {
    j < |events| && Separates(events[j])
  }

  ghost predicate Inked(events: seq<StreamEvent>) {
    exists i: nat :: InkAt(events, i)
  }

  ghost predicate InkClosed(events: seq<StreamEvent>) {
    exists i: nat, j: nat :: i < j && InkAt(events, i) && SeparatorAt(events, j)
  }

  /** Text, even an empty delta, resumes after a separator that follows some ink. */
  ghost predicate Resumes(events: seq<StreamEvent>) {
    exists i: nat, j: nat, k: nat ::
      i < j < k < |events| && InkAt(events, i) && SeparatorAt(events, j) && events[k].TextDelta?
  }

  lemma InkedStep(front: seq<StreamEvent>, e: StreamEvent)
    ensures Inked(front + [e]) <==> Inked(front) || (e.TextDelta? && e.text != "")
  {
    var events := front + [e];
    if i: nat :| InkAt(front, i) {
      assert InkAt(events, i);
    }
    if e.TextDelta? && e.text != "" {
      assert InkAt(events, |front|);
    }
    if i: nat :| InkAt(events, i) {
      assert i < |front| ==> InkAt(front, i);
    }
  }

  lemma InkClosedStep(front: seq<StreamEvent>, e: StreamEvent)
    ensures InkClosed(front + [e]) <==> InkClosed(front) || (Separates(e) && Inked(front))
  {
    var events, n := front + [e], |front|;
    if i: nat, j: nat :| i < j && InkAt(front, i) && SeparatorAt(front, j) {
      assert InkAt(events, i) && SeparatorAt(events, j);
    }
    if Separates(e) && Inked(front) {
      var i: nat :| InkAt(front, i);
      assert InkAt(events, i) && SeparatorAt(events, n);
    }
    if i: nat, j: nat :| i < j && InkAt(events, i) && SeparatorAt(events, j) {
      assert InkAt(front, i);
      assert j < n ==> SeparatorAt(front, j);
    }
  }

  lemma ResumesStep(front: seq<StreamEvent>, e: StreamEvent)
    ensures Resumes(front + [e]) <==> Resumes(front) || (e.TextDelta? && InkClosed(front))
  {
    var events, n := front + [e], |front|;
    if i: nat, j: nat, k: nat :| i < j < k < n && InkAt(front, i) && SeparatorAt(front, j) && front[k].TextDelta? {
      assert InkAt(events, i) && SeparatorAt(events, j) && events[k].TextDelta?;
    }
    if e.TextDelta? && InkClosed(front) {
      var i: nat, j: nat :| i < j && InkAt(front, i) && SeparatorAt(front, j);
      assert InkAt(events, i) && SeparatorAt(events, j) && events[n].TextDelta?;
    }
    if i: nat, j: nat, k: nat :| i < j < k < |events| && InkAt(events, i) && SeparatorAt(events, j) && events[k].TextDelta? {
      assert InkAt(front, i) && SeparatorAt(front, j);
      assert k < n ==> front[k].TextDelta?;
    }
  }

  /** The blocks before the text block that still grows. */
  function Settled(blocks: seq<Block>): seq<Block> {
    if blocks != [] && blocks[|blocks| - 1].TextBlock? then blocks[..|blocks| - 1] else blocks
  }

  ghost predicate TracksInk(blocks: seq<Block>, events: seq<StreamEvent>) {
    && (SomeInk(blocks) <==> Inked(events))
    && (SomeInk(Settled(blocks)) <==> InkClosed(events))
    && (OneTextBlock(blocks) <==> !Resumes(events))
  }

  lemma GrowTextInk(blocks: seq<Block>, text: string)
    ensures var r := GrowText(blocks, text);
            && Settled(r) == Settled(blocks)
            && (SomeInk(r) <==> SomeInk(blocks) || text != "")
            && (OneTextBlock(r) <==> OneTextBlock(blocks) && !SomeInk(Settled(blocks)))
  {
    var front := Settled(blocks);
    if front != blocks {
      var last := blocks[|blocks| - 1];
      assert blocks == front + [last];
      InkAppend(front, last);
      InkAppend(front, TextBlock(last.text + text));
    } else {
      InkAppend(front, TextBlock(text));
    }
  }

  lemma TracksInkStep(a: AccState, front: seq<StreamEvent>, e: StreamEvent, events: seq<StreamEvent>)
    requires TracksInk(a.blocks, front) && events == front + [e]
    ensures TracksInk(AccStep(a, e).blocks, events)
  {
    InkedStep(front, e);
    InkClosedStep(front, e);
    ResumesStep(front, e);
    match e {
      case TextDelta(text) => GrowTextInk(a.blocks, text);
      case ToolCall(id, name, args) => InkAppend(a.blocks, ToolUseBlock(id, name, args));
      case ToolResult(id, result) => InkAppend(a.blocks, ToolResultBlock(id, Stringify(result)));
      case CitedFrames(frameIds) => InkAppend(a.blocks, FrameCitationBlock(frameIds));
      case _ =>
    }
  }

  lemma {:induction false} InkTracked(events: seq<StreamEvent>)
    ensures TracksInk(Accumulate(events).blocks, events)
  {
    if events != [] {
      var front, e := events[..|events| - 1], events[|events| - 1];
      InkTracked(front);
      TracksInkStep(Accumulate(front), front, e, events);
    }
  }

  /** The plain text the database keeps beside the blocks. */
  function StoredText(blocks: seq<Block>): string {
    if blocks == [] then ""
    else
      var front, b := StoredText(blocks[..|blocks| - 1]), blocks[|blocks| - 1];
      if b.TextBlock? || b.ThinkingBlock? then RollUp(front, b.text) else front
  }

  /** The `content` of a reloaded message: the rollup, or the stored text if that is empty. */
  function ReloadedContent(blocks: seq<Block>): string {
    var rollup := Rebuild(blocks).textRollup;
    if rollup != "" then rollup else StoredText(blocks)
  }

  lemma {:induction false} StoredIsRollup(blocks: seq<Block>)
    requires forall i | 0 <= i < |blocks| :: !blocks[i].ThinkingBlock?
    ensures StoredText(blocks) == Rebuild(blocks).textRollup
  {
    if blocks != [] {
      StoredIsRollup(blocks[..|blocks| - 1]);
    }
  }

  lemma {:induction false} NothingThought(events: seq<StreamEvent>)
    ensures forall i | 0 <= i < |Accumulate(events).blocks| :: !Accumulate(events).blocks[i].ThinkingBlock?
  {
    if events != [] {
      NothingThought(events[..|events| - 1]);
    }
  }

  /** The reloaded content joins the text blocks with line breaks, so it equals the
      live content exactly when no text resumes after text and a call, a result or
      a citation. The stored text makes no difference: it is the same rollup. */
  lemma ContentExact(id: string, events: seq<StreamEvent>, fallback: string)
    ensures ReloadedContent(Accumulate(events).blocks) == Live(FreshAssistant(id), events, fallback).content
       <==> !Resumes(events)
  {
    var blocks := Accumulate(events).blocks;
    NothingThought(events);
    StoredIsRollup(blocks);
    AccumulatedText(events);
    RollUpText(blocks);
    LiveProjections(id, events, fallback);
    InkTracked(events);
  }

  /** Text, a call and more text. */
  function Resumed(x: string, call: string, y: string): seq<StreamEvent> {
    [TextDelta(x), ToolCall(call, "t", Null), TextDelta(y)]
  }

  function ResumedBlocks(x: string, call: string, y: string): seq<Block> {
    [TextBlock(x), ToolUseBlock(call, "t", Null), TextBlock(y)]
  }

  lemma ThreeInARow<T>(a: T, b: T, c: T)
    ensures [] + [a] == [a] && [a] + [b] == [a, b] && [a, b] + [c] == [a, b, c]
  {
  }

  lemma BlocksGrow(front: seq<StreamEvent>, e: StreamEvent, blocks: seq<Block>)
    requires Accumulate(front).blocks == blocks
    ensures Accumulate(front + [e]).blocks == AccStep(EMPTY.(blocks := blocks), e).blocks
  {
    AccumulateAppend(front, e);
  }

  lemma ResumedIsAccumulated(x: string, call: string, y: string)
    ensures Accumulate(Resumed(x, call, y)).blocks == ResumedBlocks(x, call, y)
  {
    var a, c, b := TextDelta(x), ToolCall(call, "t", Null), TextDelta(y);
    var p, q, r := TextBlock(x), ToolUseBlock(call, "t", Null), TextBlock(y);
    ThreeInARow(a, c, b);
    ThreeInARow(p, q, r);
    BlocksGrow([], a, []);
    BlocksGrow([a], c, [p]);
    BlocksGrow([a, c], b, [p, q]);
  }

  lemma RollUpGrows(front: seq<Block>, b: Block, rollup: string)
    requires Rebuild(front).textRollup == rollup
    ensures Rebuild(front + [b]).textRollup == if b.TextBlock? then RollUp(rollup, b.text) else rollup
  {
    RebuildAppend(front, b);
  }

  lemma ResumedIsRolledUp(x: string, call: string, y: string)
    requires x != ""
    ensures Rebuild(ResumedBlocks(x, call, y)).textRollup == x + "\n" + y
  {
    var p, q, r := TextBlock(x), ToolUseBlock(call, "t", Null), TextBlock(y);
    ThreeInARow(p, q, r);
    RollUpGrows([], p, "");
    assert RollUp("", x) == x;
    RollUpGrows([p], q, x);
    RollUpGrows([p, q], r, x);
  }

  lemma ResumedText(x: string, call: string, y: string)
    requires x != ""
    ensures Resumes(Resumed(x, call, y)) && AllText(Resumed(x, call, y)) == x + y
  {
    var events := Resumed(x, call, y);
    assert InkAt(events, 0) && SeparatorAt(events, 1) && events[2].TextDelta?;
    assert events[..2][..1] == events[..1] && events[..1][..0] == [];
    assert AllText(events[..1]) == x && AllText(events[..2]) == x;
  }

  /** The smallest streams on which the contents part, by one line break. */
  lemma ResumedTextWitness(id: string, fallback: string, x: string, call: string, y: string)
    requires x != ""
    ensures Live(FreshAssistant(id), Resumed(x, call, y), fallback).content == x + y
    ensures ReloadedContent(Accumulate(Resumed(x, call, y)).blocks) == x + "\n" + y
  {
    LiveProjections(id, Resumed(x, call, y), fallback);
    ResumedText(x, call, y);
    ResumedIsAccumulated(x, call, y);
    ResumedIsRolledUp(x, call, y);
  }
}
