/** Rebuilding the live shape from persisted blocks. The program keeps each tool
    event as one mutable object that sits both in the flat list and in a
    cluster; delivering a result to the object must show in both places. */
module Reload {
  import opened Sequences
  import opened ChatModel
  import LiveFold

  /** What a reload has built so far, as values. */
  datatype Rebuilt = Rebuilt(segments: seq<Segment>, toolEvents: seq<ToolEvent>, textRollup: string)

  const NOTHING := Rebuilt([], [], "")

  function JoinText(segments: seq<Segment>, text: string): seq<Segment> {
    if segments != [] && segments[|segments| - 1].Text? then
      segments[..|segments| - 1] + [Text(segments[|segments| - 1].text + text)]
    else segments + [Text(text)]
  }

  function JoinThinking(segments: seq<Segment>, text: string): seq<Segment> {
    if segments != [] && segments[|segments| - 1].Thinking? then
      segments[..|segments| - 1] + [Thinking(segments[|segments| - 1].text + text)]
    else segments + [Thinking(text)]
  }

  function RollUp(rollup: string, text: string): string {
    rollup + (if rollup == "" then "" else "\n") + text
  }

  function ReloadStep(r: Rebuilt, b: Block): Rebuilt {
    match b
    case TextBlock(text) =>
      r.(segments := JoinText(r.segments, text), textRollup := RollUp(r.textRollup, text))
    case ThinkingBlock(text) => r.(segments := JoinThinking(r.segments, text))
    case ToolUseBlock(id, name, input) =>
      var event := ToolEvent(id, name, OrEmptyObject(input), None);
      r.(toolEvents := r.toolEvents + [event],
         segments := LiveFold.AppendToolCall(r.segments, event))
    case ToolResultBlock(id, content) =>
      r.(toolEvents := DeliverAll(r.toolEvents, id, Str(content)),
         segments := LiveFold.ApplyToolResult(r.segments, id, Str(content)))
    case FrameCitationBlock(_) => r
    case FocusContextBlock => r
  }

  function Rebuild(blocks: seq<Block>): Rebuilt {
    if blocks == [] then NOTHING else ReloadStep(Rebuild(blocks[..|blocks| - 1]), blocks[|blocks| - 1])
  }

  // ---- the shared objects ----

  class ToolCell {
    const id: string
    const name: string
    const args: Value
    var result: Option<Value>

    constructor (id: string, name: string, args: Value)
      ensures this.id == id && this.name == name && this.args == args && result == None
    {
      this.id, this.name, this.args, this.result := id, name, args, None;
    }
  }

  /** A segment as the program holds it: clusters hold references. */
  datatype SegmentRef =
    | TextRef(text: string)
    | ThinkingRef(text: string)
    | ToolsRef(events: seq<ToolCell>)

  function CellsOf(s: SegmentRef): seq<ToolCell> {
    if s.ToolsRef? then s.events else []
  }

  /** The references in the clusters, laid end to end. */
  ghost function Cells(segments: seq<SegmentRef>): seq<ToolCell> {
    if segments == [] then [] else Cells(segments[..|segments| - 1]) + CellsOf(segments[|segments| - 1])
  }

  /** The results the objects currently hold. */
  type Store = map<ToolCell, Option<Value>>

  ghost function Snapshot(cells: seq<ToolCell>): Store
    reads cells
  {
    map c | c in cells :: c.result
  }

  lemma SnapshotAppend(cells: seq<ToolCell>, c: ToolCell)
    ensures Snapshot(cells + [c]) == Snapshot(cells)[c := c.result]
  {
  }

  ghost function View(c: ToolCell, store: Store): ToolEvent {
    ToolEvent(c.id, c.name, c.args, if c in store then store[c] else None)
  }

  ghost function Views(cells: seq<ToolCell>, store: Store): (r: seq<ToolEvent>)
    ensures |r| == |cells| && forall i | 0 <= i < |r| :: r[i] == View(cells[i], store)
  {
    seq(|cells|, i requires 0 <= i < |cells| => View(cells[i], store))
  }

  ghost function ViewSegment(s: SegmentRef, store: Store): Segment {
    match s
    case TextRef(text) => Text(text)
    case ThinkingRef(text) => Thinking(text)
    case ToolsRef(events) => Tools(Views(events, store))
  }

  /** A timeline of references read as values. */
  ghost function ViewSegments(segments: seq<SegmentRef>, store: Store): (r: seq<Segment>)
    ensures |r| == |segments| && forall i | 0 <= i < |r| :: r[i] == ViewSegment(segments[i], store)
  {
    if segments == [] then []
    else ViewSegments(segments[..|segments| - 1], store) + [ViewSegment(segments[|segments| - 1], store)]
  }

  lemma SegmentsAppend(front: seq<SegmentRef>, s: SegmentRef, store: Store)
    ensures ViewSegments(front + [s], store) == ViewSegments(front, store) + [ViewSegment(s, store)]
    ensures Cells(front + [s]) == Cells(front) + CellsOf(s)
  {
  }

  lemma ViewsAppend(cells: seq<ToolCell>, c: ToolCell, store: Store)
    ensures Views(cells + [c], store) == Views(cells, store) + [View(c, store)]
  {
  }

  /** A store entry for a new object changes no view of the others. */
  lemma ViewsUnchanged(segments: seq<SegmentRef>, cells: seq<ToolCell>, store: Store,
                       cell: ToolCell, result: Option<Value>)
    requires cell !in cells && cell !in Cells(segments)
    ensures Views(cells, store[cell := result]) == Views(cells, store)
    ensures ViewSegments(segments, store[cell := result]) == ViewSegments(segments, store)
  {
    CellsMembers(segments);
    var store' := store[cell := result];
    forall i | 0 <= i < |segments|
      ensures ViewSegment(segments[i], store') == ViewSegment(segments[i], store)
    {
      assert segments[i].ToolsRef? ==> Views(segments[i].events, store') == Views(segments[i].events, store);
    }
  }

  /** Every reference in a cluster occurs in the flattened list, and conversely. */
  lemma {:induction false} CellsMembers(segments: seq<SegmentRef>)
    ensures forall i, c | 0 <= i < |segments| && c in CellsOf(segments[i]) :: c in Cells(segments)
    ensures forall c | c in Cells(segments) :: exists i :: 0 <= i < |segments| && c in CellsOf(segments[i])
  {
    if segments != [] {
      var front := segments[..|segments| - 1];
      CellsMembers(front);
      forall c | c in Cells(segments)
        ensures exists i :: 0 <= i < |segments| && c in CellsOf(segments[i])
      {
        if c in Cells(front) {
          var i :| 0 <= i < |front| && c in CellsOf(front[i]);
          assert c in CellsOf(segments[i]);
        } else {
          assert c in CellsOf(segments[|segments| - 1]);
        }
      }
    }
  }

  /** Each of `cells` called `id` has received the result; the others are as before. */
  ghost predicate Delivered(cells: seq<ToolCell>, before: Store, after: Store, id: string, result: Value) {
    forall c | c in cells :: View(c, after) == Deliver(View(c, before), id, result)
  }

  lemma DeliveredCells(cells: seq<ToolCell>, all: seq<ToolCell>, before: Store, after: Store, id: string, result: Value)
    requires Delivered(all, before, after, id, result) && forall c | c in cells :: c in all
    ensures Views(cells, after) == DeliverAll(Views(cells, before), id, result)
  {
  }

  lemma DeliveredSegment(s: SegmentRef, all: seq<ToolCell>, before: Store, after: Store, id: string, result: Value)
    requires Delivered(all, before, after, id, result) && forall c | c in CellsOf(s) :: c in all
    ensures ViewSegment(s, after) == LiveFold.PatchSegment(ViewSegment(s, before), id, result)
  {
    DeliveredCells(CellsOf(s), all, before, after, id, result);
  }

  /** Delivering to the shared objects shows in the flat list and in the clusters. */
  lemma DeliveredViews(segments: seq<SegmentRef>, before: Store, after: Store, id: string, result: Value)
    requires Delivered(Cells(segments), before, after, id, result)
    ensures Views(Cells(segments), after) == DeliverAll(Views(Cells(segments), before), id, result)
    ensures ViewSegments(segments, after) == LiveFold.ApplyToolResult(ViewSegments(segments, before), id, result)
  {
    var all := Cells(segments);
    CellsMembers(segments);
    DeliveredCells(all, all, before, after, id, result);
    forall i | 0 <= i < |segments|
      ensures ViewSegment(segments[i], after)
           == LiveFold.PatchSegment(ViewSegment(segments[i], before), id, result)
    {
      DeliveredSegment(segments[i], all, before, after, id, result);
    }
  }

  /** The `tool_result` case: patch the first match in the flat list, then walk
      the clusters. The clusters hold the same objects as the flat list, so
      every match is patched in both. */
  method DeliverResult(segments: seq<SegmentRef>, toolEvents: seq<ToolCell>, id: string, content: string)
    requires Cells(segments) == toolEvents
    modifies toolEvents
    ensures Delivered(toolEvents, old(Snapshot(toolEvents)), Snapshot(toolEvents), id, Str(content))
  {
    var k := 0;
    while k < |toolEvents| && toolEvents[k].id != id
      invariant 0 <= k <= |toolEvents|
    {
      k := k + 1;
    }
    if k < |toolEvents| {
      toolEvents[k].result := Some(Str(content));
    }
    PatchClusters(segments, id, content, toolEvents);
  }

  method PatchClusters(segments: seq<SegmentRef>, id: string, content: string, ghost all: seq<ToolCell>)
    requires Cells(segments) == all
    modifies all
    ensures forall c | c in all :: c.result == if c.id == id then Some(Str(content)) else old(c.result)
  {
    CellsMembers(segments);
    for i := 0 to |segments|
      invariant forall c | c in all :: c.result == old(c.result) || (c.id == id && c.result == Some(Str(content)))
      invariant forall j, c | 0 <= j < i && c in CellsOf(segments[j]) ::
        c.id == id ==> c.result == Some(Str(content))
    {
      PatchCluster(CellsOf(segments[i]), id, content, all);
    }
  }

  method PatchCluster(events: seq<ToolCell>, id: string, content: string, ghost all: seq<ToolCell>)
    requires forall c | c in events :: c in all
    modifies all
    ensures forall c | c in all ::
              c.result == if c in events && c.id == id then Some(Str(content)) else old(c.result)
  {
    for j := 0 to |events|
      invariant forall k | 0 <= k < j :: events[k].id == id ==> events[k].result == Some(Str(content))
      invariant forall c | c in all ::
        c.result == old(c.result) || (c in events && c.id == id && c.result == Some(Str(content)))
    {
      if events[j].id == id {
        events[j].result := Some(Str(content));
      }
    }
  }

  /** The rebuild loop's references: one object per tool use, each standing both
      in the flat list and, at the same place, in the clusters. */
  ghost predicate Shared(segments: seq<SegmentRef>, toolEvents: seq<ToolCell>) {
    Cells(segments) == toolEvents && NoRepeats(toolEvents)
  }

  ghost predicate Shows(segments: seq<SegmentRef>, toolEvents: seq<ToolCell>, store: Store, r: Rebuilt) {
    Views(toolEvents, store) == r.toolEvents && ViewSegments(segments, store) == r.segments
  }

  /** A timeline taken apart at its last segment. */
  lemma AtLast(segments: seq<SegmentRef>, store: Store)
    requires segments != []
    ensures var n := |segments| - 1;
            && Cells(segments) == Cells(segments[..n]) + CellsOf(segments[n])
            && ViewSegments(segments, store) == ViewSegments(segments[..n], store) + [ViewSegment(segments[n], store)]
            && ViewSegments(segments, store)[..n] == ViewSegments(segments[..n], store)
  {
  }

  lemma TextGrows(segments: seq<SegmentRef>, t: string, text: string, store: Store)
    requires segments != [] && segments[|segments| - 1] == TextRef(t)
    ensures var r := segments[..|segments| - 1] + [TextRef(t + text)];
            Cells(r) == Cells(segments) && ViewSegments(r, store) == JoinText(ViewSegments(segments, store), text)
  {
    AtLast(segments, store);
    SegmentsAppend(segments[..|segments| - 1], TextRef(t + text), store);
  }

  method PutText(segments: seq<SegmentRef>, text: string, ghost store: Store) returns (r: seq<SegmentRef>)
    ensures Cells(r) == Cells(segments)
    ensures ViewSegments(r, store) == JoinText(ViewSegments(segments, store), text)
  {
    var last := |segments| - 1;
    if last >= 0 && segments[last].TextRef? {
      r := segments[..last] + [TextRef(segments[last].text + text)];
      TextGrows(segments, segments[last].text, text, store);
    } else {
      r := segments + [TextRef(text)];
      SegmentsAppend(segments, TextRef(text), store);
    }
  }

  lemma ThinkingGrows(segments: seq<SegmentRef>, t: string, text: string, store: Store)
    requires segments != [] && segments[|segments| - 1] == ThinkingRef(t)
    ensures var r := segments[..|segments| - 1] + [ThinkingRef(t + text)];
            Cells(r) == Cells(segments) && ViewSegments(r, store) == JoinThinking(ViewSegments(segments, store), text)
  {
    AtLast(segments, store);
    SegmentsAppend(segments[..|segments| - 1], ThinkingRef(t + text), store);
  }

  method PutThinking(segments: seq<SegmentRef>, text: string, ghost store: Store) returns (r: seq<SegmentRef>)
    ensures Cells(r) == Cells(segments)
    ensures ViewSegments(r, store) == JoinThinking(ViewSegments(segments, store), text)
  {
    var last := |segments| - 1;
    if last >= 0 && segments[last].ThinkingRef? {
      r := segments[..last] + [ThinkingRef(segments[last].text + text)];
      ThinkingGrows(segments, segments[last].text, text, store);
    } else {
      r := segments + [ThinkingRef(text)];
      SegmentsAppend(segments, ThinkingRef(text), store);
    }
  }

  lemma ClusterGrows(segments: seq<SegmentRef>, cluster: seq<ToolCell>, cell: ToolCell, store: Store)
    requires segments != [] && segments[|segments| - 1] == ToolsRef(cluster)
    ensures var r := segments[..|segments| - 1] + [ToolsRef(cluster + [cell])];
            && Cells(r) == Cells(segments) + [cell]
            && ViewSegments(r, store) == LiveFold.AppendToolCall(ViewSegments(segments, store), View(cell, store))
  {
    var front := segments[..|segments| - 1];
    AtLast(segments, store);
    SegmentsAppend(front, ToolsRef(cluster + [cell]), store);
    Associative(Cells(front), cluster, [cell]);
    ViewsAppend(cluster, cell, store);
  }

  method PutTool(segments: seq<SegmentRef>, cell: ToolCell, ghost store: Store) returns (r: seq<SegmentRef>)
    ensures Cells(r) == Cells(segments) + [cell]
    ensures ViewSegments(r, store) == LiveFold.AppendToolCall(ViewSegments(segments, store), View(cell, store))
  {
    var last := |segments| - 1;
    if last >= 0 && segments[last].ToolsRef? {
      var cluster := segments[last].events;
      r := segments[..last] + [ToolsRef(cluster + [cell])];
      ClusterGrows(segments, cluster, cell, store);
    } else {
      r := segments + [ToolsRef([cell])];
      SegmentsAppend(segments, ToolsRef([cell]), store);
      assert Views([cell], store) == [View(cell, store)];
    }
  }

  /** The `tool_use` case: a new object, into the flat list and into a cluster. */
  method PutNewTool(segments: seq<SegmentRef>, toolEvents: seq<ToolCell>, id: string, name: string, input: Value,
                    ghost r: Rebuilt)
    returns (segments': seq<SegmentRef>, toolEvents': seq<ToolCell>)
    requires Shared(segments, toolEvents) && Shows(segments, toolEvents, Snapshot(toolEvents), r)
    ensures Shared(segments', toolEvents')
    ensures Shows(segments', toolEvents', Snapshot(toolEvents'), ReloadStep(r, ToolUseBlock(id, name, input)))
    ensures forall c | c in toolEvents' :: c in toolEvents || fresh(c)
  {
    ghost var store := Snapshot(toolEvents);
    var cell := new ToolCell(id, name, if input == Null || input == Undefined then Other("{}") else input);
    segments' := PutTool(segments, cell, store[cell := None]);
    toolEvents' := toolEvents + [cell];
    SnapshotAppend(toolEvents, cell);
    NewToolShows(segments, toolEvents, store, cell, segments', r);
  }

  /** A new object with no result, put into both lists, shows as a new tool event. */
  lemma NewToolShows(segments: seq<SegmentRef>, toolEvents: seq<ToolCell>, store: Store, cell: ToolCell,
                     segments': seq<SegmentRef>, r: Rebuilt)
    requires Shared(segments, toolEvents) && Shows(segments, toolEvents, store, r) && cell !in toolEvents
    requires Cells(segments') == Cells(segments) + [cell]
    requires var store' := store[cell := None];
             ViewSegments(segments', store')
             == LiveFold.AppendToolCall(ViewSegments(segments, store'), View(cell, store'))
    ensures Shared(segments', toolEvents + [cell])
    ensures var event := ToolEvent(cell.id, cell.name, cell.args, None);
            && Views(toolEvents + [cell], store[cell := None]) == r.toolEvents + [event]
            && ViewSegments(segments', store[cell := None]) == LiveFold.AppendToolCall(r.segments, event)
  {
    ViewsUnchanged(segments, toolEvents, store, cell, None);
    ViewsAppend(toolEvents, cell, store[cell := None]);
  }

  /** The `tool_result` case, read as values. */
  method PutResult(segments: seq<SegmentRef>, toolEvents: seq<ToolCell>, id: string, content: string,
                   ghost r: Rebuilt)
    requires Shared(segments, toolEvents) && Shows(segments, toolEvents, Snapshot(toolEvents), r)
    modifies toolEvents
    ensures Shows(segments, toolEvents, Snapshot(toolEvents), ReloadStep(r, ToolResultBlock(id, content)))
  {
    ghost var store := Snapshot(toolEvents);
    DeliverResult(segments, toolEvents, id, content);
    DeliveredViews(segments, store, Snapshot(toolEvents), id, Str(content));
  }

  /** One block of the rebuild loop. */
  method ReloadBlock(segments: seq<SegmentRef>, toolEvents: seq<ToolCell>, textRollup: string, block: Block,
                     ghost r: Rebuilt)
    returns (segments': seq<SegmentRef>, toolEvents': seq<ToolCell>, textRollup': string)
    requires Shared(segments, toolEvents)
    requires Shows(segments, toolEvents, Snapshot(toolEvents), r) && textRollup == r.textRollup
    modifies toolEvents
    ensures Shared(segments', toolEvents')
    ensures Shows(segments', toolEvents', Snapshot(toolEvents'), ReloadStep(r, block))
    ensures textRollup' == ReloadStep(r, block).textRollup
    ensures forall c | c in toolEvents' :: c in toolEvents || fresh(c)
  {
    segments', toolEvents', textRollup' := segments, toolEvents, textRollup;
    ghost var store := Snapshot(toolEvents);
    match block {
      case TextBlock(text) =>
        segments' := PutText(segments, text, store);
        textRollup' := textRollup + (if textRollup != "" then "\n" else "") + text;
      case ThinkingBlock(text) =>
        segments' := PutThinking(segments, text, store);
      case ToolUseBlock(id, name, input) =>
        segments', toolEvents' := PutNewTool(segments, toolEvents, id, name, input, r);
      case ToolResultBlock(toolUseId, content) =>
        PutResult(segments, toolEvents, toolUseId, content, r);
      case FrameCitationBlock(_) =>
      case FocusContextBlock =>
    }
  }

  /** The rebuild loop. Its two outputs hold the same objects, and read as
      values they are the pure rebuild. */
  method PersistedToLive(blocks: seq<Block>)
    returns (segments: seq<SegmentRef>, toolEvents: seq<ToolCell>, textRollup: string)
    ensures fresh(toolEvents) && Shared(segments, toolEvents)
    ensures Shows(segments, toolEvents, Snapshot(toolEvents), Rebuild(blocks))
    ensures textRollup == Rebuild(blocks).textRollup
  {
    segments, toolEvents, textRollup := [], [], "";
    for i := 0 to |blocks|
      invariant fresh(toolEvents) && Shared(segments, toolEvents)
      invariant Shows(segments, toolEvents, Snapshot(toolEvents), Rebuild(blocks[..i]))
      invariant textRollup == Rebuild(blocks[..i]).textRollup
    {
      assert blocks[..i + 1][..i] == blocks[..i];
      segments, toolEvents, textRollup :=
        ReloadBlock(segments, toolEvents, textRollup, blocks[i], Rebuild(blocks[..i]));
    }
    assert blocks[..|blocks|] == blocks;
  }
}
