/** The second fold of the same stream: the blocks committed to the database. */
module BlockAccumulation {
  import opened Sequences
  import opened ChatModel

  datatype AccState = AccState(
    blocks: seq<Block>,
    citedFrameIds: seq<string>,
    finishReason: Option<FinishReason>,
    errorFromStream: Option<string>,
    cancelled: bool)

  const EMPTY := AccState([], [], None, None, false)

  function GrowText(blocks: seq<Block>, text: string): seq<Block> {
    if blocks != [] && blocks[|blocks| - 1].TextBlock? then
      blocks[..|blocks| - 1] + [TextBlock(blocks[|blocks| - 1].text + text)]
    else blocks + [TextBlock(text)]
  }

  function AccStep(a: AccState, e: StreamEvent): AccState {
    match e
    case TextDelta(text) => a.(blocks := GrowText(a.blocks, text))
    case CitedFrames(frameIds) =>
      a.(citedFrameIds := FirstOccurrences(a.citedFrameIds + frameIds),
         blocks := a.blocks + [FrameCitationBlock(frameIds)])
    case ToolCall(id, name, args) => a.(blocks := a.blocks + [ToolUseBlock(id, name, args)])
    case ToolResult(id, result) => a.(blocks := a.blocks + [ToolResultBlock(id, Stringify(result))])
    case Finish(reason) =>
      a.(finishReason := Some(reason), cancelled := a.cancelled || reason == Cancelled)
    case StreamError(message) => a.(errorFromStream := Some(message))
    case Status(_) => a
  }

  function Accumulate(events: seq<StreamEvent>): AccState {
    if events == [] then EMPTY else AccStep(Accumulate(events[..|events| - 1]), events[|events| - 1])
  }

  class BlockAccumulator {
    var blocks: seq<Block>
    var citedFrameIds: seq<string>
    var finishReason: Option<FinishReason>
    var errorFromStream: Option<string>
    var cancelled: bool

    ghost function State(): AccState
      reads this
    {
      AccState(blocks, citedFrameIds, finishReason, errorFromStream, cancelled)
    }

    constructor ()
      ensures State() == EMPTY
    {
      blocks, citedFrameIds, finishReason, errorFromStream, cancelled := [], [], None, None, false;
    }

    /** The frame ids not cited before, in order. */
    method AddCited(frameIds: seq<string>)
      requires NoRepeats(citedFrameIds)
      modifies this`citedFrameIds
      ensures citedFrameIds == FirstOccurrences(old(citedFrameIds) + frameIds)
    {
      ghost var before := citedFrameIds;
      FirstOccurrencesFixed(before);
      assert before + frameIds[..0] == before;
      for i := 0 to |frameIds|
        invariant citedFrameIds == FirstOccurrences(before + frameIds[..i])
      {
        FirstOccurrencesSnoc(before + frameIds[..i], frameIds[i]);
        PrefixSnoc(frameIds, i);
        Associative(before, frameIds[..i], [frameIds[i]]);
        if frameIds[i] !in citedFrameIds {
          citedFrameIds := citedFrameIds + [frameIds[i]];
        }
      }
      assert frameIds[..|frameIds|] == frameIds;
    }

    method Consume(event: StreamEvent)
      requires NoRepeats(citedFrameIds)
      modifies this
      ensures NoRepeats(citedFrameIds)
      ensures State() == AccStep(old(State()), event)
    {
      match event {
        case TextDelta(text) =>
          var last := |blocks| - 1;
          if last >= 0 && blocks[last].TextBlock? {
            blocks := blocks[..last] + [TextBlock(blocks[last].text + text)];
          } else {
            blocks := blocks + [TextBlock(text)];
          }
        case CitedFrames(frameIds) =>
          AddCited(frameIds);
          blocks := blocks + [FrameCitationBlock(frameIds)];
        case ToolCall(id, name, args) =>
          blocks := blocks + [ToolUseBlock(id, name, args)];
        case ToolResult(id, result) =>
          blocks := blocks + [ToolResultBlock(id, Stringify(result))];
        case Finish(reason) =>
          finishReason := Some(reason);
          if reason == Cancelled {
            cancelled := true;
          }
        case StreamError(message) =>
          errorFromStream := Some(message);
        case Status(_) =>
      }
    }
  }
}
