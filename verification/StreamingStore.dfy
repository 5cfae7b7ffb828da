/** The per-thread buckets of in-flight streams, and the windows that fill them. */
module StreamingStoreModel {
  import opened Sequences
  import opened ChatModel
  import opened LiveFold
  import ChatOutcome

  datatype ThreadStream = ThreadStream(liveMessages: seq<LiveMessage>, isStreaming: bool, error: Option<string>)

  const EMPTY_STREAM := ThreadStream([], false, None)

  type Buckets = map<string, ThreadStream>

  datatype Action =
    | StartStream(threadId: string, initial: LiveMessage)
    | UpdateLiveMessages(threadId: string, updater: seq<LiveMessage> -> seq<LiveMessage>)
    | SetError(threadId: string, error: Option<string>)
    | SetStreaming(threadId: string, isStreaming: bool)
    | ClearStream(threadId: string)

  /** What an action does to the bucket of its own thread. */
  function Touch(b: Option<ThreadStream>, a: Action): Option<ThreadStream> {
    match a
    case StartStream(_, initial) => Some(ThreadStream([initial], true, None))
    case UpdateLiveMessages(_, updater) =>
      if b.None? then None else Some(b.value.(liveMessages := updater(b.value.liveMessages)))
    case SetError(_, error) => Some((if b.None? then EMPTY_STREAM else b.value).(error := error))
    case SetStreaming(_, isStreaming) => if b.None? then None else Some(b.value.(isStreaming := isStreaming))
    case ClearStream(_) => None
  }

  function BucketOf(s: Buckets, threadId: string): Option<ThreadStream> {
    if threadId in s then Some(s[threadId]) else None
  }

  /** The replacement of one message of a thread, as `prev.map` does it. */
  function MapMessages(messages: seq<LiveMessage>, id: string, e: StreamEvent, fallback: string)
    : (r: seq<LiveMessage>)
    ensures |r| == |messages|
    ensures forall i | 0 <= i < |r| ::
              r[i] == if messages[i].id == id then ApplyEvent(messages[i], e, fallback) else messages[i]
  {
    seq(|messages|, i requires 0 <= i < |messages| =>
      if messages[i].id == id then ApplyEvent(messages[i], e, fallback) else messages[i])
  }

  function HandleBucket(b: Option<ThreadStream>, id: string, e: StreamEvent, fallback: string): Option<ThreadStream> {
    if e.StreamError? then
      var t := if b.None? then EMPTY_STREAM
               else b.value.(liveMessages := MapMessages(b.value.liveMessages, id, e, fallback), isStreaming := false);
      Some(t.(error := Some(e.message)))
    else if b.None? then None
    else
      var t := b.value.(liveMessages := MapMessages(b.value.liveMessages, id, e, fallback));
      Some(if e.Finish? then t.(isStreaming := false) else t)
  }

  class StreamingStore {
    var byThreadId: Buckets

    constructor ()
      ensures byThreadId == map[]
    {
      byThreadId := map[];
    }

    /** Only the bucket of `threadId` differs from before, and it holds `b`. */
    twostate predicate Became(threadId: string, b: Option<ThreadStream>)
      reads this
    {
      && BucketOf(byThreadId, threadId) == b
      && forall t | t != threadId :: BucketOf(byThreadId, t) == old(BucketOf(byThreadId, t))
    }

    method StartStream(threadId: string, initial: LiveMessage)
      modifies this
      ensures Became(threadId, Touch(old(BucketOf(byThreadId, threadId)), Action.StartStream(threadId, initial)))
    {
      byThreadId := byThreadId[threadId := ThreadStream([initial], true, None)];
    }

    method UpdateLiveMessages(threadId: string, updater: seq<LiveMessage> -> seq<LiveMessage>)
      modifies this
      ensures Became(threadId, Touch(old(BucketOf(byThreadId, threadId)), Action.UpdateLiveMessages(threadId, updater)))
    {
      if threadId in byThreadId {
        var current := byThreadId[threadId];
        byThreadId := byThreadId[threadId := current.(liveMessages := updater(current.liveMessages))];
      }
    }

    method SetError(threadId: string, error: Option<string>)
      modifies this
      ensures Became(threadId, Touch(old(BucketOf(byThreadId, threadId)), Action.SetError(threadId, error)))
    {
      var current := if threadId in byThreadId then byThreadId[threadId] else EMPTY_STREAM;
      byThreadId := byThreadId[threadId := current.(error := error)];
    }

    method SetStreaming(threadId: string, isStreaming: bool)
      modifies this
      ensures Became(threadId, Touch(old(BucketOf(byThreadId, threadId)), Action.SetStreaming(threadId, isStreaming)))
    {
      if threadId in byThreadId {
        byThreadId := byThreadId[threadId := byThreadId[threadId].(isStreaming := isStreaming)];
      }
    }

    method ClearStream(threadId: string)
      modifies this
      ensures Became(threadId, Touch(old(BucketOf(byThreadId, threadId)), Action.ClearStream(threadId)))
    {
      if threadId in byThreadId {
        byThreadId := byThreadId - {threadId};
      }
    }

    method HandleStreamEvent(threadId: string, assistantId: string, event: StreamEvent, fallback: string)
      modifies this
      ensures Became(threadId, HandleBucket(old(BucketOf(byThreadId, threadId)), assistantId, event, fallback))
    {
      UpdateLiveMessages(threadId, (prev: seq<LiveMessage>) => MapMessages(prev, assistantId, event, fallback));
      if event.Finish? || event.StreamError? {
        SetStreaming(threadId, false);
      }
      if event.StreamError? {
        SetError(threadId, Some(event.message));
      }
    }

    /** The listener of a window that did not open the stream. */
    method OnMirrored(threadId: string, assistantId: string, event: StreamEvent, fallback: string)
      modifies this
      ensures Became(threadId, MirrorBucket(old(BucketOf(byThreadId, threadId)), assistantId, event, fallback))
    {
      var hasAssistant := false;
      if threadId in byThreadId {
        var messages := byThreadId[threadId].liveMessages;
        for i := 0 to |messages|
          invariant hasAssistant <==> exists j | 0 <= j < i :: messages[j].id == assistantId
        {
          if messages[i].id == assistantId {
            hasAssistant := true;
          }
        }
      }
      if !hasAssistant {
        StartStream(threadId, FreshAssistant(assistantId));
      }
      HandleStreamEvent(threadId, assistantId, event, fallback);
    }
  }

  ghost predicate Tracks(b: Option<ThreadStream>, id: string) {
    b.Some? && exists j | 0 <= j < |b.value.liveMessages| :: b.value.liveMessages[j].id == id
  }

  ghost function MirrorBucket(b: Option<ThreadStream>, id: string, e: StreamEvent, fallback: string): Option<ThreadStream> {
    HandleBucket(if Tracks(b, id) then b else Some(ThreadStream([FreshAssistant(id)], true, None)), id, e, fallback)
  }

  // ---- whole runs of one window ----

  /** Everything that writes to a window's store. */
  datatype Item =
    | Do(action: Action)
    | Received(threadId: string, assistantId: string, event: StreamEvent)
    | Mirrored(threadId: string, assistantId: string, event: StreamEvent)

  function ThreadOf(i: Item): string {
    match i
    case Do(action) => action.threadId
    case Received(threadId, _, _) => threadId
    case Mirrored(threadId, _, _) => threadId
  }

  ghost function ItemBucket(b: Option<ThreadStream>, i: Item, fallback: string): Option<ThreadStream> {
    match i
    case Do(action) => Touch(b, action)
    case Received(_, id, event) => HandleBucket(b, id, event, fallback)
    case Mirrored(_, id, event) => MirrorBucket(b, id, event, fallback)
  }

  /** The store after an item: only the bucket of its thread is written. */
  ghost function ItemStep(s: Buckets, i: Item, fallback: string): Buckets {
    var t := ThreadOf(i);
    var b := ItemBucket(BucketOf(s, t), i, fallback);
    if b.None? then s - {t} else s[t := b.value]
  }

  ghost function RunWindow(s: Buckets, items: seq<Item>, fallback: string): Buckets {
    if items == [] then s
    else ItemStep(RunWindow(s, items[..|items| - 1], fallback), items[|items| - 1], fallback)
  }

  ghost function RunThread(b: Option<ThreadStream>, items: seq<Item>, fallback: string): Option<ThreadStream> {
    if items == [] then b
    else ItemBucket(RunThread(b, items[..|items| - 1], fallback), items[|items| - 1], fallback)
  }

  function OnThread(items: seq<Item>, threadId: string): seq<Item> {
    if items == [] then []
    else
      OnThread(items[..|items| - 1], threadId)
      + (if ThreadOf(items[|items| - 1]) == threadId then [items[|items| - 1]] else [])
  }

  lemma RunThreadAppend(b: Option<ThreadStream>, items: seq<Item>, i: Item, fallback: string)
    ensures RunThread(b, items + [i], fallback) == ItemBucket(RunThread(b, items, fallback), i, fallback)
  {
  }

  /** Threads do not interfere: in any interleaving a thread's bucket is the
      result of that thread's own items alone. */
  lemma {:induction false} ThreadLocality(s: Buckets, items: seq<Item>, threadId: string, fallback: string)
    ensures BucketOf(RunWindow(s, items, fallback), threadId)
         == RunThread(BucketOf(s, threadId), OnThread(items, threadId), fallback)
  {
    if items != [] {
      var front, last := items[..|items| - 1], items[|items| - 1];
      ThreadLocality(s, front, threadId, fallback);
      if ThreadOf(last) == threadId {
        RunThreadAppend(BucketOf(s, threadId), OnThread(front, threadId), last, fallback);
      } else {
        assert OnThread(items, threadId) == OnThread(front, threadId) + [] == OnThread(front, threadId);
      }
    }
  }

  // ---- the window that sends and the window that mirrors ----

  function Receipts(threadId: string, id: string, events: seq<StreamEvent>): (r: seq<Item>)
    ensures |r| == |events| && forall i | 0 <= i < |r| :: r[i] == Received(threadId, id, events[i])
  {
    seq(|events|, i requires 0 <= i < |events| => Received(threadId, id, events[i]))
  }

  function Mirrors(threadId: string, id: string, events: seq<StreamEvent>): (r: seq<Item>)
    ensures |r| == |events| && forall i | 0 <= i < |r| :: r[i] == Mirrored(threadId, id, events[i])
  {
    seq(|events|, i requires 0 <= i < |events| => Mirrored(threadId, id, events[i]))
  }

  predicate Terminal(e: StreamEvent) {
    e.Finish? || e.StreamError?
  }

  /** The bucket a stream leads to: one message, the live fold of the events. */
  ghost function StreamBucket(id: string, events: seq<StreamEvent>, fallback: string): ThreadStream {
    ThreadStream([Live(FreshAssistant(id), events, fallback)],
                 forall e | e in events :: !Terminal(e),
                 ChatOutcome.LastError(events))
  }

  lemma {:induction false} LiveKeepsId(m: LiveMessage, events: seq<StreamEvent>, fallback: string)
    ensures Live(m, events, fallback).id == m.id
  {
    if events != [] {
      LiveKeepsId(m, events[..|events| - 1], fallback);
    }
  }

  lemma StreamBucketStep(id: string, front: seq<StreamEvent>, e: StreamEvent, fallback: string)
    ensures HandleBucket(Some(StreamBucket(id, front, fallback)), id, e, fallback)
         == Some(StreamBucket(id, front + [e], fallback))
  {
    var events := front + [e];
    LiveKeepsId(FreshAssistant(id), front, fallback);
    LiveAppend(FreshAssistant(id), front, e, fallback);
    var m := Live(FreshAssistant(id), front, fallback);
    assert MapMessages([m], id, e, fallback) == [ApplyEvent(m, e, fallback)];
    assert events[..|front|] == front;
    assert (forall x | x in events :: !Terminal(x)) <==> (forall x | x in front :: !Terminal(x)) && !Terminal(e);
  }

  /** The sending window: from the opened bucket, every prefix of the stream
      leaves exactly the live fold of that prefix. */
  lemma {:induction false} SenderShowsLive(threadId: string, id: string, events: seq<StreamEvent>,
                                           b: Option<ThreadStream>, fallback: string)
    ensures RunThread(b, [Do(StartStream(threadId, FreshAssistant(id)))] + Receipts(threadId, id, events), fallback)
         == Some(StreamBucket(id, events, fallback))
  {
    var start := Do(StartStream(threadId, FreshAssistant(id)));
    if events == [] {
      RunThreadAppend(b, [], start, fallback);
      assert [] + [start] == [start] == [start] + Receipts(threadId, id, events);
    } else {
      var front, e := events[..|events| - 1], events[|events| - 1];
      SenderShowsLive(threadId, id, front, b, fallback);
      var before := [start] + Receipts(threadId, id, front);
      assert [start] + Receipts(threadId, id, events) == before + [Received(threadId, id, e)];
      RunThreadAppend(b, before, Received(threadId, id, e), fallback);
      assert events == front + [e];
      StreamBucketStep(id, front, e, fallback);
    }
  }

  /** The mirroring window: from any bucket that does not track the message yet
      (none, or a stale one), the same live fold after every non-empty prefix. */
  lemma {:induction false} MirrorShowsLive(threadId: string, id: string, events: seq<StreamEvent>,
                                           b: Option<ThreadStream>, fallback: string)
    requires !Tracks(b, id) && events != []
    ensures RunThread(b, Mirrors(threadId, id, events), fallback) == Some(StreamBucket(id, events, fallback))
  {
    var front, e := events[..|events| - 1], events[|events| - 1];
    assert events == front + [e];
    assert Mirrors(threadId, id, events) == Mirrors(threadId, id, front) + [Mirrored(threadId, id, e)];
    RunThreadAppend(b, Mirrors(threadId, id, front), Mirrored(threadId, id, e), fallback);
    StreamBucketStep(id, front, e, fallback);
    if front == [] {
      assert Mirrors(threadId, id, front) == [];
      assert StreamBucket(id, [], fallback) == ThreadStream([FreshAssistant(id)], true, None);
    } else {
      MirrorShowsLive(threadId, id, front, b, fallback);
      LiveKeepsId(FreshAssistant(id), front, fallback);
      assert StreamBucket(id, front, fallback).liveMessages[0].id == id;
    }
  }

  /** The two windows may be translated differently; that can show only in the error. */
  lemma {:induction false} FallbackOnlyInError(id: string, events: seq<StreamEvent>, f: string, g: string)
    ensures Live(FreshAssistant(id), events, f).(error := None) == Live(FreshAssistant(id), events, g).(error := None)
  {
    if events != [] {
      var front, e := events[..|events| - 1], events[|events| - 1];
      FallbackOnlyInError(id, front, f, g);
      ErrorIsASink(Live(FreshAssistant(id), front, f), Live(FreshAssistant(id), front, g), e, f, g);
    }
  }

  lemma ErrorIsASink(m: LiveMessage, n: LiveMessage, e: StreamEvent, f: string, g: string)
    requires m.(error := None) == n.(error := None)
    ensures ApplyEvent(m, e, f).(error := None) == ApplyEvent(n, e, g).(error := None)
  {
  }

  /** Two windows with arbitrary other traffic around one stream, each with its
      own fallback text: whenever the stream's thread has seen only that stream,
      both show the live fold of the events so far. Their buckets are equal
      unless the fallback is on screen and the two texts differ. */
  lemma WindowsAgree(sender: Buckets, mirror: Buckets, sent: seq<Item>, seen: seq<Item>,
                     threadId: string, id: string, events: seq<StreamEvent>, f: string, g: string)
    requires events != [] && !Tracks(BucketOf(mirror, threadId), id)
    requires OnThread(sent, threadId)
          == [Do(StartStream(threadId, FreshAssistant(id)))] + Receipts(threadId, id, events)
    requires OnThread(seen, threadId) == Mirrors(threadId, id, events)
    ensures BucketOf(RunWindow(sender, sent, f), threadId) == Some(StreamBucket(id, events, f))
    ensures BucketOf(RunWindow(mirror, seen, g), threadId) == Some(StreamBucket(id, events, g))
    ensures BucketOf(RunWindow(sender, sent, f), threadId) == BucketOf(RunWindow(mirror, seen, g), threadId)
       <==> f == g || ChatOutcome.LastError(events).Some? || Finish(Failed) !in events
  {
    ThreadLocality(sender, sent, threadId, f);
    ThreadLocality(mirror, seen, threadId, g);
    SenderShowsLive(threadId, id, events, BucketOf(sender, threadId), f);
    MirrorShowsLive(threadId, id, events, BucketOf(mirror, threadId), g);
    FallbackOnlyInError(id, events, f, g);
    ChatOutcome.LiveErrorFollows(id, events, f);
    ChatOutcome.LiveErrorFollows(id, events, g);
    var m, n := Live(FreshAssistant(id), events, f), Live(FreshAssistant(id), events, g);
    assert m == n <==> m.error == n.error;
    assert StreamBucket(id, events, f).liveMessages[0] == m && StreamBucket(id, events, g).liveMessages[0] == n;
  }

  // ---- a thread's bucket, field by field ----

  /** There is a bucket: something opened one since the last clear. */
  function Opened(actions: seq<Action>): bool {
    actions != []
    && match actions[|actions| - 1]
       case StartStream(_, _) => true
       case SetError(_, _) => true
       case ClearStream(_) => false
       case _ => Opened(actions[..|actions| - 1])
  }

  /** The error: what was set last since the last start or clear. */
  function ErrorSaid(actions: seq<Action>): Option<string> {
    if actions == [] then None
    else
      match actions[|actions| - 1]
      case StartStream(_, _) => None
      case SetError(_, error) => error
      case ClearStream(_) => None
      case _ => ErrorSaid(actions[..|actions| - 1])
  }

  /** The flag: on after a start, then as set, while there is a bucket to set it in. */
  function StreamingSaid(actions: seq<Action>): bool {
    actions != []
    && match actions[|actions| - 1]
       case StartStream(_, _) => true
       case SetStreaming(_, isStreaming) => isStreaming && Opened(actions[..|actions| - 1])
       case ClearStream(_) => false
       case _ => StreamingSaid(actions[..|actions| - 1])
  }

  /** The messages: the initial one and every update since, while there is a bucket. */
  function MessagesSaid(actions: seq<Action>): seq<LiveMessage> {
    if actions == [] then []
    else
      var front := actions[..|actions| - 1];
      match actions[|actions| - 1]
      case StartStream(_, initial) => [initial]
      case UpdateLiveMessages(_, updater) => if Opened(front) then updater(MessagesSaid(front)) else []
      case ClearStream(_) => []
      case _ => MessagesSaid(front)
  }

  function AsItems(actions: seq<Action>): (r: seq<Item>)
    ensures |r| == |actions| && forall i | 0 <= i < |r| :: r[i] == Do(actions[i])
  {
    seq(|actions|, i requires 0 <= i < |actions| => Do(actions[i]))
  }

  lemma {:induction false} UnopenedIsEmpty(actions: seq<Action>)
    ensures !Opened(actions) ==> MessagesSaid(actions) == [] && !StreamingSaid(actions) && ErrorSaid(actions) == None
  {
    if actions != [] {
      UnopenedIsEmpty(actions[..|actions| - 1]);
    }
  }

  /** After any actions on a thread, its bucket is there exactly when it was opened
      since the last clear, and each field is what was last said of it. */
  lemma {:induction false} BucketExact(actions: seq<Action>, fallback: string)
    ensures RunThread(None, AsItems(actions), fallback)
         == if Opened(actions) then Some(ThreadStream(MessagesSaid(actions), StreamingSaid(actions), ErrorSaid(actions)))
            else None
  {
    if actions == [] {
      assert AsItems(actions) == [];
    } else {
      var front, last := actions[..|actions| - 1], actions[|actions| - 1];
      BucketExact(front, fallback);
      UnopenedIsEmpty(front);
      assert AsItems(actions) == AsItems(front) + [Do(last)];
      RunThreadAppend(None, AsItems(front), Do(last), fallback);
    }
  }
}
