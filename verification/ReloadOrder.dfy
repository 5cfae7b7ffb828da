/** What persisting and reloading keep, said of the events and blocks themselves:
    the order of the timeline, and what every tool event carries. */
module ReloadOrder {
  import opened Sequences
  import opened ChatModel
  import opened LiveFold
  import opened BlockAccumulation
  import opened Reload
  import opened ChatAgreement
  import opened Texts

  // ---- the blocks of a stream ----

  /** A block list item by item: the characters of its text, and its other blocks. */
  datatype Item = Letter(c: char) | Whole(b: Block)

  function Letters(text: string): (r: seq<Item>)
    ensures |r| == |text| && forall i | 0 <= i < |r| :: r[i] == Letter(text[i])
  {
    seq(|text|, i requires 0 <= i < |text| => Letter(text[i]))
  }

  function BlockItems(b: Block): seq<Item> {
    if b.TextBlock? then Letters(b.text) else [Whole(b)]
  }

  function Items(blocks: seq<Block>): seq<Item> {
    if blocks == [] then [] else Items(blocks[..|blocks| - 1]) + BlockItems(blocks[|blocks| - 1])
  }

  /** What an event must leave in the database. A result is stored as text, a
      missing one as the empty text. */
  function EventItems(e: StreamEvent): seq<Item> {
    match e
    case TextDelta(text) => Letters(text)
    case ToolCall(id, name, args) => [Whole(ToolUseBlock(id, name, args))]
    case ToolResult(id, Null) => [Whole(ToolResultBlock(id, ""))]
    case ToolResult(id, Undefined) => [Whole(ToolResultBlock(id, ""))]
    case ToolResult(id, Str(s)) => [Whole(ToolResultBlock(id, s))]
    case ToolResult(id, Other(json)) => [Whole(ToolResultBlock(id, json))]
    case CitedFrames(frameIds) => [Whole(FrameCitationBlock(frameIds))]
    case _ => []
  }

  function StreamItems(events: seq<StreamEvent>): seq<Item> {
    if events == [] then [] else StreamItems(events[..|events| - 1]) + EventItems(events[|events| - 1])
  }

  lemma ItemsSnoc(blocks: seq<Block>, b: Block)
    ensures Items(blocks + [b]) == Items(blocks) + BlockItems(b)
  {
    assert (blocks + [b])[..|blocks|] == blocks;
  }

  lemma LettersConcat(a: string, b: string)
    ensures Letters(a + b) == Letters(a) + Letters(b)
  {
  }

  lemma GrowTextItems(blocks: seq<Block>, text: string)
    ensures Items(GrowText(blocks, text)) == Items(blocks) + Letters(text)
  {
    if blocks != [] && blocks[|blocks| - 1].TextBlock? {
      var front, last := blocks[..|blocks| - 1], blocks[|blocks| - 1];
      ItemsSnoc(front, TextBlock(last.text + text));
      LettersConcat(last.text, text);
      Associative(Items(front), Letters(last.text), Letters(text));
    } else {
      ItemsSnoc(blocks, TextBlock(text));
    }
  }

  lemma SeparateItems(e: StreamEvent)
    requires Separates(e)
    ensures BlockItems(BlockOf(e)) == EventItems(e)
  {
  }

  lemma ItemsStep(a: AccState, e: StreamEvent)
    ensures Items(AccStep(a, e).blocks) == Items(a.blocks) + EventItems(e)
  {
    if e.TextDelta? {
      GrowTextItems(a.blocks, e.text);
    } else if Separates(e) {
      SeparateItems(e);
      ItemsSnoc(a.blocks, BlockOf(e));
      assert AccStep(a, e).blocks == a.blocks + [BlockOf(e)];
    } else {
      Associative(Items(a.blocks), [], []);
    }
  }

  /** The accumulated blocks hold the stream's text, calls, results and citations,
      each with its own data, in the stream's order. */
  lemma {:induction false} BlocksAreTheStream(events: seq<StreamEvent>)
    ensures Items(Accumulate(events).blocks) == StreamItems(events)
  {
    if events != [] {
      BlocksAreTheStream(events[..|events| - 1]);
      ItemsStep(Accumulate(events[..|events| - 1]), events[|events| - 1]);
    }
  }

  // ---- the timeline of any persisted message ----

  function BlockMarks(b: Block): seq<Mark> {
    match b
    case TextBlock(text) => InkOf(text)
    case ThinkingBlock(text) => ThoughtOf(text)
    case ToolUseBlock(id, name, _) => [Used(id, name)]
    case _ => []
  }

  function AllBlockMarks(blocks: seq<Block>): seq<Mark> {
    if blocks == [] then [] else AllBlockMarks(blocks[..|blocks| - 1]) + BlockMarks(blocks[|blocks| - 1])
  }

  lemma JoinTextMarks(segments: seq<Segment>, text: string)
    ensures Marks(JoinText(segments, text)) == Marks(segments) + InkOf(text)
  {
    if segments != [] && segments[|segments| - 1].Text? {
      var front, last := segments[..|segments| - 1], segments[|segments| - 1];
      MarksOfAppend(front, Text(last.text + text));
      InkOfConcat(last.text, text);
      Associative(Marks(front), InkOf(last.text), InkOf(text));
    } else {
      MarksOfAppend(segments, Text(text));
    }
  }

  lemma JoinThinkingMarks(segments: seq<Segment>, text: string)
    ensures Marks(JoinThinking(segments, text)) == Marks(segments) + ThoughtOf(text)
  {
    if segments != [] && segments[|segments| - 1].Thinking? {
      var front, last := segments[..|segments| - 1], segments[|segments| - 1];
      MarksOfAppend(front, Thinking(last.text + text));
      InkOfConcat(last.text, text);
      Associative(Marks(front), ThoughtOf(last.text), ThoughtOf(text));
    } else {
      MarksOfAppend(segments, Thinking(text));
    }
  }

  lemma ReloadMarksStep(r: Rebuilt, b: Block)
    ensures Marks(ReloadStep(r, b).segments) == Marks(r.segments) + BlockMarks(b)
  {
    match b {
      case TextBlock(text) => JoinTextMarks(r.segments, text);
      case ThinkingBlock(text) => JoinThinkingMarks(r.segments, text);
      case ToolUseBlock(id, name, input) =>
        AppendToolCallMarks(r.segments, ToolEvent(id, name, OrEmptyObject(input), None));
      case ToolResultBlock(id, content) =>
        ApplyToolResultMarks(r.segments, id, Str(content));
        Associative(Marks(r.segments), [], []);
      case _ => Associative(Marks(r.segments), [], []);
    }
  }

  /** A reloaded timeline shows the text, the reasoning and the calls of the blocks
      in their order, whatever the blocks. */
  lemma {:induction false} ReloadOrdered(blocks: seq<Block>)
    ensures Marks(Rebuild(blocks).segments) == AllBlockMarks(blocks)
  {
    if blocks != [] {
      ReloadOrdered(blocks[..|blocks| - 1]);
      ReloadMarksStep(Rebuild(blocks[..|blocks| - 1]), blocks[|blocks| - 1]);
    }
  }

  /** Neighbouring segments of one kind are run together. */
  predicate Merged(segments: seq<Segment>) {
    forall i | 0 <= i < |segments| - 1 ::
      && !(segments[i].Text? && segments[i + 1].Text?)
      && !(segments[i].Thinking? && segments[i + 1].Thinking?)
      && !(segments[i].Tools? && segments[i + 1].Tools?)
  }

  lemma ReloadMergedStep(r: Rebuilt, b: Block)
    requires Merged(r.segments)
    ensures Merged(ReloadStep(r, b).segments)
  {
    if b.ToolResultBlock? {
      var s := ApplyToolResult(r.segments, b.toolUseId, Str(b.content));
      assert forall i | 0 <= i < |s| :: s[i] == PatchSegment(r.segments[i], b.toolUseId, Str(b.content));
    }
  }

  lemma {:induction false} ReloadMerged(blocks: seq<Block>)
    ensures Merged(Rebuild(blocks).segments)
  {
    if blocks != [] {
      ReloadMerged(blocks[..|blocks| - 1]);
      ReloadMergedStep(Rebuild(blocks[..|blocks| - 1]), blocks[|blocks| - 1]);
    }
  }

  lemma ClustersStep(r: Rebuilt, b: Block)
    requires ToolsOf(r.segments) == r.toolEvents
    ensures ToolsOf(ReloadStep(r, b).segments) == ReloadStep(r, b).toolEvents
  {
    match b {
      case TextBlock(text) => JoinTextTools(r.segments, text);
      case ThinkingBlock(text) => JoinThinkingTools(r.segments, text);
      case ToolUseBlock(id, name, input) =>
        AppendToolCallProjections(r.segments, ToolEvent(id, name, OrEmptyObject(input), None));
      case ToolResultBlock(id, content) => ApplyToolResultProjections(r.segments, id, Str(content));
      case _ =>
    }
  }

  lemma JoinTextTools(segments: seq<Segment>, text: string)
    ensures ToolsOf(JoinText(segments, text)) == ToolsOf(segments)
  {
    if segments != [] && segments[|segments| - 1].Text? {
      ProjectionsOfAppend(segments[..|segments| - 1], Text(segments[|segments| - 1].text + text));
    } else {
      ProjectionsOfAppend(segments, Text(text));
    }
  }

  lemma JoinThinkingTools(segments: seq<Segment>, text: string)
    ensures ToolsOf(JoinThinking(segments, text)) == ToolsOf(segments)
  {
    if segments != [] && segments[|segments| - 1].Thinking? {
      ProjectionsOfAppend(segments[..|segments| - 1], Thinking(segments[|segments| - 1].text + text));
    } else {
      ProjectionsOfAppend(segments, Thinking(text));
    }
  }

  lemma {:induction false} ReloadedClusters(blocks: seq<Block>)
    ensures ToolsOf(Rebuild(blocks).segments) == Rebuild(blocks).toolEvents
  {
    if blocks != [] {
      ReloadedClusters(blocks[..|blocks| - 1]);
      ClustersStep(Rebuild(blocks[..|blocks| - 1]), blocks[|blocks| - 1]);
    }
  }

  // ---- what every reloaded tool event carries ----

  function UsePositions(blocks: seq<Block>): (r: seq<nat>)
    ensures forall k | 0 <= k < |r| :: r[k] < |blocks| && blocks[r[k]].ToolUseBlock?
  {
    if blocks == [] then []
    else
      UsePositions(blocks[..|blocks| - 1])
      + (if blocks[|blocks| - 1].ToolUseBlock? then [|blocks| - 1] else [])
  }

  /** The last result stored for `id` behind position `start`. */
  function LastContent(blocks: seq<Block>, start: nat, id: string): Option<string> {
    if |blocks| <= start then None
    else if blocks[|blocks| - 1].ToolResultBlock? && blocks[|blocks| - 1].toolUseId == id then
      Some(blocks[|blocks| - 1].content)
    else LastContent(blocks[..|blocks| - 1], start, id)
  }

  /** The tool event of the use at position `p`: its own input, an empty object in
      place of a missing one, and the last result stored for its id behind it. */
  ghost predicate IsUse(e: ToolEvent, blocks: seq<Block>, p: nat)
    requires p < |blocks| && blocks[p].ToolUseBlock?
  {
    var b := blocks[p];
    && e.id == b.id && e.name == b.name
    && (b.input != Null && b.input != Undefined ==> e.args == b.input)
    && (b.input == Null || b.input == Undefined ==> e.args == Other("{}"))
    && (match LastContent(blocks, p, b.id)
        case None => e.result == None
        case Some(content) => e.result == Some(Str(content)))
  }

  ghost predicate AreTheUses(es: seq<ToolEvent>, blocks: seq<Block>) {
    && |es| == |UsePositions(blocks)|
    && forall k | 0 <= k < |es| :: IsUse(es[k], blocks, UsePositions(blocks)[k])
  }

  lemma UseAfterOneMore(e: ToolEvent, front: seq<Block>, b: Block, p: nat)
    requires p < |front| && front[p].ToolUseBlock? && IsUse(e, front, p)
    ensures IsUse(if b.ToolResultBlock? then Deliver(e, b.toolUseId, Str(b.content)) else e, front + [b], p)
  {
    assert (front + [b])[..|front|] == front && (front + [b])[p] == front[p];
  }

  lemma UsesStep(r: Rebuilt, front: seq<Block>, b: Block)
    requires AreTheUses(r.toolEvents, front)
    ensures AreTheUses(ReloadStep(r, b).toolEvents, front + [b])
  {
    var blocks, es := front + [b], ReloadStep(r, b).toolEvents;
    assert blocks[..|front|] == front;
    assert UsePositions(blocks) == UsePositions(front) + (if b.ToolUseBlock? then [|front|] else []);
    forall k | 0 <= k < |r.toolEvents| ensures IsUse(es[k], blocks, UsePositions(blocks)[k]) {
      UseAfterOneMore(r.toolEvents[k], front, b, UsePositions(front)[k]);
    }
    if b.ToolUseBlock? {
      assert LastContent(blocks, |front|, b.id) == None;
    }
  }

  lemma {:induction false} ReloadedUses(blocks: seq<Block>)
    ensures AreTheUses(Rebuild(blocks).toolEvents, blocks)
  {
    if blocks != [] {
      ReloadedUses(blocks[..|blocks| - 1]);
      UsesStep(Rebuild(blocks[..|blocks| - 1]), blocks[..|blocks| - 1], blocks[|blocks| - 1]);
      FrontAndLast(blocks);
    }
  }

  /** What a call of the stream must look like after a reload. */
  ghost predicate IsReloadedCall(e: ToolEvent, events: seq<StreamEvent>, p: nat)
    requires p < |events| && events[p].ToolCall?
  {
    var call := events[p];
    && e.id == call.id && e.name == call.name
    && (call.args != Null && call.args != Undefined ==> e.args == call.args)
    && (call.args == Null || call.args == Undefined ==> e.args == Other("{}"))
    && (match LastResult(events, p, call.id)
        case None => e.result == None
        case Some(Null) => e.result == Some(Str(""))
        case Some(Undefined) => e.result == Some(Str(""))
        case Some(Str(s)) => e.result == Some(Str(s))
        case Some(Other(json)) => e.result == Some(Str(json)))
  }

  /** For every stream, the reloaded tool events are its calls in order, each with
      its own arguments and its last later result in string form. */
  lemma ReloadedCalls(events: seq<StreamEvent>)
    ensures var r, at := Rebuild(Accumulate(events).blocks).toolEvents, CallPositions(events);
            && |r| == |at|
            && forall k | 0 <= k < |r| :: IsReloadedCall(r[k], events, at[k])
  {
    ReloadAgrees("", events, "");
    LiveToolEvents("", events, "");
  }


  // ---- the rolled up text ----

  function TextsOf(blocks: seq<Block>): seq<string> {
    if blocks == [] then []
    else
      TextsOf(blocks[..|blocks| - 1])
      + (if blocks[|blocks| - 1].TextBlock? then [blocks[|blocks| - 1].text] else [])
  }

  function DropLeadingEmpty(texts: seq<string>): (r: seq<string>)
    ensures r != [] ==> r[0] != ""
  {
    if texts != [] && texts[0] == "" then DropLeadingEmpty(texts[1..]) else texts
  }

  lemma {:induction false} DropLeadingEmptySnoc(texts: seq<string>, t: string)
    ensures var d := DropLeadingEmpty(texts);
            DropLeadingEmpty(texts + [t]) == if d == [] && t == "" then [] else d + [t]
  {
    if texts == [] {
      assert texts + [t] == [t];
    } else if texts[0] == "" {
      DropLeadingEmptySnoc(texts[1..], t);
      assert (texts + [t])[1..] == texts[1..] + [t];
    }
  }

  lemma JoinSnoc(parts: seq<string>, t: string)
    ensures Join(parts + [t], "\n") == if parts == [] then t else Join(parts, "\n") + "\n" + t
  {
    assert (parts + [t])[..|parts|] == parts;
  }

  lemma {:induction false} JoinNotEmpty(parts: seq<string>)
    requires parts != [] && parts[0] != ""
    ensures Join(parts, "\n") != ""
  {
  }

  lemma RollupStep(rollup: string, texts: seq<string>, t: string)
    requires rollup == Join(DropLeadingEmpty(texts), "\n")
    ensures RollUp(rollup, t) == Join(DropLeadingEmpty(texts + [t]), "\n")
  {
    var d := DropLeadingEmpty(texts);
    DropLeadingEmptySnoc(texts, t);
    JoinSnoc(d, t);
    if d != [] {
      JoinNotEmpty(d);
    }
  }

  /** The rolled up content of any block list: its texts, the leading empty ones left
      out, joined by line breaks. */
  lemma {:induction false} RollupJoinsTexts(blocks: seq<Block>)
    ensures Rebuild(blocks).textRollup == Join(DropLeadingEmpty(TextsOf(blocks)), "\n")
  {
    if blocks != [] {
      var front, b := blocks[..|blocks| - 1], blocks[|blocks| - 1];
      RollupJoinsTexts(front);
      if b.TextBlock? {
        RollupStep(Rebuild(front).textRollup, TextsOf(front), b.text);
      } else {
        Associative(TextsOf(front), [], []);
      }
    }
  }
}
