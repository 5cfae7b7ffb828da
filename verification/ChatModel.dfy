/** The chat wire events, the live message shape and the persisted blocks. */
module ChatModel {
  import opened Sequences

  /** A parsed JSON value, as far as the chat fold looks into it. Anything that
      is neither nullish nor a string is represented by its JSON rendering. */
  datatype Value = Null | Undefined | Str(s: string) | Other(json: string)

  /** `stringifyToolResult`. */
  function Stringify(v: Value): string {
    match v
    case Null => ""
    case Undefined => ""
    case Str(s) => s
    case Other(json) => json
  }

  /** `value ?? {}`. */
  function OrEmptyObject(v: Value): Value {
    if v == Null || v == Undefined then Other("{}") else v
  }

  datatype FinishReason = EndTurn | Truncated | Failed | Cancelled

  datatype StreamEvent =
    | TextDelta(text: string)
    | ToolCall(id: string, name: string, args: Value)
    | ToolResult(id: string, result: Value)
    | CitedFrames(frameIds: seq<string>)
    | Status(detail: Option<string>)
    | Finish(reason: FinishReason)
    | StreamError(message: string)

  /** A tool call in the live message. `result` is `None` until a result is
      delivered; the program writes `null` for that state, and also stores a
      delivered `null`, which is `Some(Null)` here. */
  datatype ToolEvent = ToolEvent(id: string, name: string, args: Value, result: Option<Value>)

  datatype Segment =
    | Text(text: string)
    | Thinking(text: string)
    | Tools(events: seq<ToolEvent>)

  datatype Role = User | Assistant | System

  datatype LiveMessage = LiveMessage(
    id: string,
    role: Role,
    content: string,
    toolEvents: seq<ToolEvent>,
    segments: seq<Segment>,
    citedFrameIds: seq<string>,
    isStreaming: bool,
    error: Option<string>,
    status: Option<string>)

  /** The persisted content blocks. */
  datatype Block =
    | TextBlock(text: string)
    | ThinkingBlock(text: string)
    | ToolUseBlock(id: string, name: string, input: Value)
    | ToolResultBlock(toolUseId: string, content: string)
    | FrameCitationBlock(frameIds: seq<string>)
    | FocusContextBlock

  /** The message a stream starts from. */
  function FreshAssistant(id: string): LiveMessage {
    LiveMessage(id, Assistant, "", [], [], [], true, None, None)
  }

  function Deliver(e: ToolEvent, id: string, result: Value): ToolEvent {
    if e.id == id then e.(result := Some(result)) else e
  }

  /** Every event called `id` receives the result. */
  function DeliverAll(es: seq<ToolEvent>, id: string, result: Value): (r: seq<ToolEvent>)
    ensures |r| == |es|
    ensures forall i | 0 <= i < |es| :: r[i] == Deliver(es[i], id, result)
  {
    seq(|es|, i requires 0 <= i < |es| => Deliver(es[i], id, result))
  }

  function EventsOf(s: Segment): seq<ToolEvent> {
    if s.Tools? then s.events else []
  }

  /** The tool clusters of a timeline, laid end to end. */
  function ToolsOf(segments: seq<Segment>): seq<ToolEvent> {
    if segments == [] then []
    else ToolsOf(segments[..|segments| - 1]) + EventsOf(segments[|segments| - 1])
  }

  /** The text segments of a timeline, laid end to end. */
  function TextOf(segments: seq<Segment>): string {
    if segments == [] then ""
    else TextOf(segments[..|segments| - 1])
         + (if segments[|segments| - 1].Text? then segments[|segments| - 1].text else "")
  }

  /** Normal form of a timeline: nothing empty, no reasoning segments, and no
      two neighbours of one kind. */
  predicate NormalForm(segments: seq<Segment>) {
    && (forall i | 0 <= i < |segments| ::
          match segments[i]
          case Text(t) => t != ""
          case Thinking(_) => false
          case Tools(es) => es != [])
    && (forall i | 0 <= i < |segments| - 1 :: segments[i].Text? != segments[i + 1].Text?)
  }

  // ---- a timeline mark by mark ----

  datatype Mark = Ink(c: char) | Thought(c: char) | Used(id: string, name: string)

  function InkOf(text: string): (r: seq<Mark>)
    ensures |r| == |text| && forall i | 0 <= i < |r| :: r[i] == Ink(text[i])
  {
    seq(|text|, i requires 0 <= i < |text| => Ink(text[i]))
  }

  function ThoughtOf(text: string): (r: seq<Mark>)
    ensures |r| == |text| && forall i | 0 <= i < |r| :: r[i] == Thought(text[i])
  {
    seq(|text|, i requires 0 <= i < |text| => Thought(text[i]))
  }

  function UsesOf(es: seq<ToolEvent>): (r: seq<Mark>)
    ensures |r| == |es| && forall i | 0 <= i < |r| :: r[i] == Used(es[i].id, es[i].name)
  {
    seq(|es|, i requires 0 <= i < |es| => Used(es[i].id, es[i].name))
  }

  function SegmentMarks(s: Segment): seq<Mark> {
    match s
    case Text(text) => InkOf(text)
    case Thinking(text) => ThoughtOf(text)
    case Tools(es) => UsesOf(es)
  }

  function Marks(segments: seq<Segment>): seq<Mark> {
    if segments == [] then [] else Marks(segments[..|segments| - 1]) + SegmentMarks(segments[|segments| - 1])
  }

  lemma InkOfConcat(a: string, b: string)
    ensures InkOf(a + b) == InkOf(a) + InkOf(b)
    ensures ThoughtOf(a + b) == ThoughtOf(a) + ThoughtOf(b)
  {
  }
}
