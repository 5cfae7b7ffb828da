/** The live fold: each stream event replaces the assistant message of its thread. */
module LiveFold {
  import opened Sequences
  import opened ChatModel

  function AppendText(segments: seq<Segment>, text: string): seq<Segment> {
    if text == "" then segments
    else if segments != [] && segments[|segments| - 1].Text? then
      segments[..|segments| - 1] + [Text(segments[|segments| - 1].text + text)]
    else segments + [Text(text)]
  }

  function AppendToolCall(segments: seq<Segment>, event: ToolEvent): seq<Segment> {
    if segments != [] && segments[|segments| - 1].Tools? then
      segments[..|segments| - 1] + [Tools(segments[|segments| - 1].events + [event])]
    else segments + [Tools([event])]
  }

  function PatchSegment(s: Segment, id: string, result: Value): Segment {
    if s.Tools? then Tools(DeliverAll(s.events, id, result)) else s
  }

  function ApplyToolResult(segments: seq<Segment>, id: string, result: Value): (r: seq<Segment>)
    ensures |r| == |segments|
    ensures forall i | 0 <= i < |segments| :: r[i] == PatchSegment(segments[i], id, result)
  {
    seq(|segments|, i requires 0 <= i < |segments| => PatchSegment(segments[i], id, result))
  }

  /** What one event does to the message it addresses. */
  function ApplyEvent(m: LiveMessage, e: StreamEvent, fallback: string): LiveMessage {
    match e
    case TextDelta(text) =>
      m.(content := m.content + text, segments := AppendText(m.segments, text), status := None)
    case ToolCall(id, name, args) =>
      var event := ToolEvent(id, name, args, None);
      m.(toolEvents := m.toolEvents + [event],
         segments := AppendToolCall(m.segments, event),
         status := None)
    case ToolResult(id, result) =>
      m.(toolEvents := DeliverAll(m.toolEvents, id, result),
         segments := ApplyToolResult(m.segments, id, result))
    case CitedFrames(frameIds) =>
      m.(citedFrameIds := FirstOccurrences(m.citedFrameIds + frameIds))
    case Status(detail) => m.(status := detail)
    case Finish(reason) =>
      m.(isStreaming := false, status := None,
         error := if reason == Failed && m.error.None? then Some(fallback) else m.error)
    case StreamError(message) =>
      m.(isStreaming := false, status := None, error := Some(message))
  }

  /** The message after a whole stream. */
  function Live(m: LiveMessage, events: seq<StreamEvent>, fallback: string): LiveMessage {
    if events == [] then m
    else ApplyEvent(Live(m, events[..|events| - 1], fallback), events[|events| - 1], fallback)
  }

  lemma LiveAppend(m: LiveMessage, front: seq<StreamEvent>, e: StreamEvent, fallback: string)
    ensures Live(m, front + [e], fallback) == ApplyEvent(Live(m, front, fallback), e, fallback)
  {
  }

  // ---- what the stream itself says, without any fold state ----

  function AllText(events: seq<StreamEvent>): string {
    if events == [] then ""
    else AllText(events[..|events| - 1])
         + (if events[|events| - 1].TextDelta? then events[|events| - 1].text else "")
  }

  function CitedBy(e: StreamEvent): seq<string> {
    if e.CitedFrames? then e.frameIds else []
  }

  function AllCited(events: seq<StreamEvent>): seq<string> {
    if events == [] then [] else AllCited(events[..|events| - 1]) + CitedBy(events[|events| - 1])
  }

  /** The positions of the tool calls, in order. */
  function CallPositions(events: seq<StreamEvent>): (r: seq<nat>)
    ensures forall k | 0 <= k < |r| :: r[k] < |events| && events[r[k]].ToolCall?
  {
    if events == [] then []
    else CallPositions(events[..|events| - 1])
         + (if events[|events| - 1].ToolCall? then [|events| - 1] else [])
  }

  /** The last result delivered for `id` at or after position `from`. */
  function LastResult(events: seq<StreamEvent>, from: nat, id: string): Option<Value> {
    if |events| <= from then None
    else if events[|events| - 1].ToolResult? && events[|events| - 1].id == id then
      Some(events[|events| - 1].result)
    else LastResult(events[..|events| - 1], from, id)
  }

  /** The call at position `p` with the last result that came after it: an
      earlier result is lost, and equal ids share every later one. */
  function CallWithResult(events: seq<StreamEvent>, p: nat): ToolEvent
    requires p < |events| && events[p].ToolCall?
  {
    ToolEvent(events[p].id, events[p].name, events[p].args, LastResult(events, p, events[p].id))
  }

  // ---- how the segment operations act on the two projections ----

  lemma ProjectionsOfAppend(segments: seq<Segment>, s: Segment)
    ensures ToolsOf(segments + [s]) == ToolsOf(segments) + EventsOf(s)
    ensures TextOf(segments + [s]) == TextOf(segments) + (if s.Text? then s.text else "")
  {
  }

  lemma AppendTextProjections(segments: seq<Segment>, text: string)
    ensures ToolsOf(AppendText(segments, text)) == ToolsOf(segments)
    ensures TextOf(AppendText(segments, text)) == TextOf(segments) + text
  {
    if text == "" {
      assert TextOf(segments) + text == TextOf(segments);
    } else if segments != [] && segments[|segments| - 1].Text? {
      var front, last := segments[..|segments| - 1], segments[|segments| - 1];
      ProjectionsOfAppend(front, Text(last.text + text));
      assert TextOf(front) + (last.text + text) == TextOf(front) + last.text + text;
    } else {
      ProjectionsOfAppend(segments, Text(text));
    }
  }

  lemma AppendToolCallProjections(segments: seq<Segment>, event: ToolEvent)
    ensures ToolsOf(AppendToolCall(segments, event)) == ToolsOf(segments) + [event]
    ensures TextOf(AppendToolCall(segments, event)) == TextOf(segments)
  {
  }

  lemma DeliverAllAppend(a: seq<ToolEvent>, b: seq<ToolEvent>, id: string, result: Value)
    ensures DeliverAll(a + b, id, result) == DeliverAll(a, id, result) + DeliverAll(b, id, result)
  {
  }

  lemma ApplyToolResultAppend(front: seq<Segment>, last: Segment, id: string, result: Value)
    ensures ApplyToolResult(front + [last], id, result)
         == ApplyToolResult(front, id, result) + [PatchSegment(last, id, result)]
  {
  }

  lemma {:induction false} ApplyToolResultProjections(segments: seq<Segment>, id: string, result: Value)
    ensures ToolsOf(ApplyToolResult(segments, id, result)) == DeliverAll(ToolsOf(segments), id, result)
    ensures TextOf(ApplyToolResult(segments, id, result)) == TextOf(segments)
  {
    if segments != [] {
      var front, last := segments[..|segments| - 1], segments[|segments| - 1];
      assert segments == front + [last];
      ApplyToolResultProjections(front, id, result);
      ApplyToolResultAppend(front, last, id, result);
      ProjectionsOfAppend(ApplyToolResult(front, id, result), PatchSegment(last, id, result));
      DeliverAllAppend(ToolsOf(front), EventsOf(last), id, result);
      assert EventsOf(PatchSegment(last, id, result)) == DeliverAll(EventsOf(last), id, result);
    }
  }

  // ---- the reachable live states ----

  lemma AppendTextNormal(segments: seq<Segment>, text: string)
    requires NormalForm(segments)
    ensures NormalForm(AppendText(segments, text))
  {
  }

  lemma AppendToolCallNormal(segments: seq<Segment>, event: ToolEvent)
    requires NormalForm(segments)
    ensures NormalForm(AppendToolCall(segments, event))
  {
  }

  lemma ApplyToolResultNormal(segments: seq<Segment>, id: string, result: Value)
    requires NormalForm(segments)
    ensures NormalForm(ApplyToolResult(segments, id, result))
  {
  }

  lemma {:induction false} LiveNormalForm(id: string, events: seq<StreamEvent>, fallback: string)
    ensures NormalForm(Live(FreshAssistant(id), events, fallback).segments)
  {
    if events != [] {
      var front, e := events[..|events| - 1], events[|events| - 1];
      LiveNormalForm(id, front, fallback);
      var m := Live(FreshAssistant(id), front, fallback);
      match e {
        case TextDelta(text) => AppendTextNormal(m.segments, text);
        case ToolCall(_, name, args) => AppendToolCallNormal(m.segments, ToolEvent(e.id, name, args, None));
        case ToolResult(_, result) => ApplyToolResultNormal(m.segments, e.id, result);
        case _ =>
      }
    }
  }

  lemma {:induction false} LiveProjections(id: string, events: seq<StreamEvent>, fallback: string)
    ensures var m := Live(FreshAssistant(id), events, fallback);
            m.content == TextOf(m.segments) == AllText(events) && m.toolEvents == ToolsOf(m.segments)
  {
    if events != [] {
      var front, e := events[..|events| - 1], events[|events| - 1];
      LiveProjections(id, front, fallback);
      var m := Live(FreshAssistant(id), front, fallback);
      match e {
        case TextDelta(text) => AppendTextProjections(m.segments, text);
        case ToolCall(_, name, args) => AppendToolCallProjections(m.segments, ToolEvent(e.id, name, args, None));
        case ToolResult(_, result) => ApplyToolResultProjections(m.segments, e.id, result);
        case _ =>
      }
    }
  }

  lemma CitationStep(m: LiveMessage, e: StreamEvent, fallback: string, cited: seq<string>)
    requires m.citedFrameIds == FirstOccurrences(cited)
    ensures ApplyEvent(m, e, fallback).citedFrameIds == FirstOccurrences(cited + CitedBy(e))
  {
    if e.CitedFrames? {
      FirstOccurrencesAppend(cited, e.frameIds);
    } else {
      assert cited + CitedBy(e) == cited;
    }
  }

  lemma {:induction false} LiveCitations(id: string, events: seq<StreamEvent>, fallback: string)
    ensures Live(FreshAssistant(id), events, fallback).citedFrameIds == FirstOccurrences(AllCited(events))
  {
    if events != [] {
      var front, e := events[..|events| - 1], events[|events| - 1];
      LiveCitations(id, front, fallback);
      CitationStep(Live(FreshAssistant(id), front, fallback), e, fallback, AllCited(front));
    }
  }

  /** The tool events are the calls of the stream, each with its last later result. */
  ghost predicate AreTheCalls(toolEvents: seq<ToolEvent>, events: seq<StreamEvent>) {
    && |toolEvents| == |CallPositions(events)|
    && forall k | 0 <= k < |toolEvents| :: toolEvents[k] == CallWithResult(events, CallPositions(events)[k])
  }

  /** One more event changes what an existing call holds exactly as `Deliver` does. */
  lemma CallAfterOneMore(front: seq<StreamEvent>, e: StreamEvent, p: nat)
    requires p < |front| && front[p].ToolCall?
    ensures var was := CallWithResult(front, p);
            CallWithResult(front + [e], p) == if e.ToolResult? then Deliver(was, e.id, e.result) else was
  {
  }

  lemma ToolEventsStep(m: LiveMessage, front: seq<StreamEvent>, e: StreamEvent, fallback: string)
    requires AreTheCalls(m.toolEvents, front)
    ensures AreTheCalls(ApplyEvent(m, e, fallback).toolEvents, front + [e])
  {
    var events := front + [e];
    assert events[..|front|] == front;
    forall k | 0 <= k < |m.toolEvents|
      ensures CallPositions(events)[k] == CallPositions(front)[k]
    {
    }
    forall k | 0 <= k < |m.toolEvents|
      ensures CallWithResult(events, CallPositions(events)[k])
           == if e.ToolResult? then Deliver(m.toolEvents[k], e.id, e.result) else m.toolEvents[k]
    {
      CallAfterOneMore(front, e, CallPositions(front)[k]);
    }
    if e.ToolCall? {
      assert CallPositions(events)[|m.toolEvents|] == |front|;
      assert LastResult(events, |front|, e.id) == None;
    }
  }

  lemma {:induction false} LiveToolEvents(id: string, events: seq<StreamEvent>, fallback: string)
    ensures AreTheCalls(Live(FreshAssistant(id), events, fallback).toolEvents, events)
  {
    if events != [] {
      var front, e := events[..|events| - 1], events[|events| - 1];
      LiveToolEvents(id, front, fallback);
      assert events == front + [e];
      ToolEventsStep(Live(FreshAssistant(id), front, fallback), front, e, fallback);
    }
  }

  /** The whole live message is a function of the stream: the timeline is in
      normal form, its text is the content, its clusters are the tool events,
      each tool event carries the last later result for its id, and the cited
      frames are the first occurrences of everything cited. */
  lemma LiveInvariant(id: string, events: seq<StreamEvent>, fallback: string)
    ensures var m := Live(FreshAssistant(id), events, fallback);
            && NormalForm(m.segments)
            && m.content == TextOf(m.segments) == AllText(events)
            && m.toolEvents == ToolsOf(m.segments)
            && m.citedFrameIds == FirstOccurrences(AllCited(events))
            && AreTheCalls(m.toolEvents, events)
  {
    LiveNormalForm(id, events, fallback);
    LiveProjections(id, events, fallback);
    LiveCitations(id, events, fallback);
    LiveToolEvents(id, events, fallback);
  }

  // ---- the remaining fields, read off the stream ----

  /** The hint on display: the last status event's, unless something cleared it since. */
  function StatusSaid(events: seq<StreamEvent>): Option<string> {
    if events == [] then None
    else
      match events[|events| - 1]
      case Status(detail) => detail
      case ToolResult(_, _) => StatusSaid(events[..|events| - 1])
      case CitedFrames(_) => StatusSaid(events[..|events| - 1])
      case _ => None
  }

  lemma LiveStateStep(m: LiveMessage, e: StreamEvent, fallback: string)
    ensures var n := ApplyEvent(m, e, fallback);
            && n.id == m.id && n.role == m.role
            && n.isStreaming == (m.isStreaming && !e.Finish? && !e.StreamError?)
            && n.status == match e
                           case Status(detail) => detail
                           case ToolResult(_, _) => m.status
                           case CitedFrames(_) => m.status
                           case _ => None
  {
  }

  predicate StillOpen(events: seq<StreamEvent>) {
    forall e | e in events :: !e.Finish? && !e.StreamError?
  }

  /** The message keeps its id and role, streams until the first finish or error
      event, and shows the last status hint that nothing cleared. */
  lemma {:induction false} LiveState(id: string, events: seq<StreamEvent>, fallback: string)
    ensures var m := Live(FreshAssistant(id), events, fallback);
            && m.id == id && m.role == Assistant
            && (m.isStreaming <==> StillOpen(events))
            && m.status == StatusSaid(events)
  {
    if events != [] {
      var front, e := events[..|events| - 1], events[|events| - 1];
      LiveState(id, front, fallback);
      LiveStateStep(Live(FreshAssistant(id), front, fallback), e, fallback);
      FrontAndLast(events);
      assert StillOpen(events) <==> StillOpen(front) && !e.Finish? && !e.StreamError?;
    }
  }

  /** What an event puts on the timeline, mark by mark. */
  function EventMarks(e: StreamEvent): seq<Mark> {
    match e
    case TextDelta(text) => InkOf(text)
    case ToolCall(id, name, _) => [Used(id, name)]
    case _ => []
  }

  function StreamMarks(events: seq<StreamEvent>): seq<Mark> {
    if events == [] then [] else StreamMarks(events[..|events| - 1]) + EventMarks(events[|events| - 1])
  }

  lemma MarksOfAppend(segments: seq<Segment>, s: Segment)
    ensures Marks(segments + [s]) == Marks(segments) + SegmentMarks(s)
  {
    assert (segments + [s])[..|segments|] == segments;
  }

  lemma AppendTextMarks(segments: seq<Segment>, text: string)
    ensures Marks(AppendText(segments, text)) == Marks(segments) + InkOf(text)
  {
    if text == "" {
      Associative(Marks(segments), [], []);
    } else if segments != [] && segments[|segments| - 1].Text? {
      var front, last := segments[..|segments| - 1], segments[|segments| - 1];
      MarksOfAppend(front, Text(last.text + text));
      InkOfConcat(last.text, text);
      Associative(Marks(front), InkOf(last.text), InkOf(text));
    } else {
      MarksOfAppend(segments, Text(text));
    }
  }

  lemma AppendToolCallMarks(segments: seq<Segment>, event: ToolEvent)
    ensures Marks(AppendToolCall(segments, event)) == Marks(segments) + [Used(event.id, event.name)]
  {
    if segments != [] && segments[|segments| - 1].Tools? {
      var front, last := segments[..|segments| - 1], segments[|segments| - 1];
      MarksOfAppend(front, Tools(last.events + [event]));
      assert UsesOf(last.events + [event]) == UsesOf(last.events) + [Used(event.id, event.name)];
      Associative(Marks(front), UsesOf(last.events), [Used(event.id, event.name)]);
    } else {
      MarksOfAppend(segments, Tools([event]));
      assert UsesOf([event]) == [Used(event.id, event.name)];
    }
  }

  lemma PatchMarks(s: Segment, id: string, result: Value)
    ensures SegmentMarks(PatchSegment(s, id, result)) == SegmentMarks(s)
  {
    if s.Tools? {
      assert UsesOf(DeliverAll(s.events, id, result)) == UsesOf(s.events);
    }
  }

  lemma PatchMarksStep(front: seq<Segment>, last: Segment, id: string, result: Value)
    requires Marks(ApplyToolResult(front, id, result)) == Marks(front)
    ensures Marks(ApplyToolResult(front + [last], id, result)) == Marks(front + [last])
  {
    PatchMarks(last, id, result);
    ApplyToolResultAppend(front, last, id, result);
    MarksOfAppend(ApplyToolResult(front, id, result), PatchSegment(last, id, result));
    MarksOfAppend(front, last);
  }

  lemma {:induction false} ApplyToolResultMarks(segments: seq<Segment>, id: string, result: Value)
    ensures Marks(ApplyToolResult(segments, id, result)) == Marks(segments)
  {
    if segments != [] {
      ApplyToolResultMarks(segments[..|segments| - 1], id, result);
      PatchMarksStep(segments[..|segments| - 1], segments[|segments| - 1], id, result);
      FrontAndLast(segments);
    }
  }

  lemma LiveOrderStep(m: LiveMessage, e: StreamEvent, fallback: string)
    ensures Marks(ApplyEvent(m, e, fallback).segments) == Marks(m.segments) + EventMarks(e)
  {
    match e {
      case TextDelta(text) => AppendTextMarks(m.segments, text);
      case ToolCall(id, name, args) => AppendToolCallMarks(m.segments, ToolEvent(id, name, args, None));
      case ToolResult(id, result) =>
        ApplyToolResultMarks(m.segments, id, result);
        Associative(Marks(m.segments), [], []);
      case _ => Associative(Marks(m.segments), [], []);
    }
  }

  /** The timeline shows the text and the calls of the stream in their own order. */
  lemma {:induction false} LiveOrder(id: string, events: seq<StreamEvent>, fallback: string)
    ensures Marks(Live(FreshAssistant(id), events, fallback).segments) == StreamMarks(events)
  {
    if events != [] {
      var front, e := events[..|events| - 1], events[|events| - 1];
      LiveOrder(id, front, fallback);
      LiveOrderStep(Live(FreshAssistant(id), front, fallback), e, fallback);
    }
  }
}
