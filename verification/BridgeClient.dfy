/** The MCP sidecar's bridge client: numbered requests over one socket, answered
    in any order by a reader task. */
module BridgeClientModel {
  import opened Sequences
  import opened Texts

  function RequestId(n: nat): string {
    "req-" + Decimal(n)
  }

  lemma RequestIdInjective(a: nat, b: nat)
    requires RequestId(a) == RequestId(b)
    ensures a == b
  {
    assert RequestId(a)[4..] == Decimal(a) && RequestId(b)[4..] == Decimal(b);
    DecimalInjective(a, b);
  }

  datatype Response = Response(id: string, result: Option<string>, error: Option<string>)

  /** What the caller of `call` gets. */
  datatype Reply = Ok(value: string) | Err(error: string)

  function ReplyOf(r: Response): Reply {
    if r.error.Some? then Err(r.error.value)
    else Ok(if r.result.Some? then r.result.value else "null")
  }

  /** `pending` maps a request id to the number of the call holding the receiver,
      `writes` says of each finished write whether it succeeded, `answers` holds
      what arrived in a call's channel, and `replies` has an entry for every call
      that has returned. */
  datatype Bridge = Bridge(
    issued: nat,
    pending: map<string, nat>,
    writes: map<nat, bool>,
    answers: map<nat, Reply>,
    replies: map<nat, Reply>,
    reading: bool)

  const CONNECTED := Bridge(0, map[], map[], map[], map[], true)

  const WRITE_ERROR := Err("write")

  datatype Event =
    | Begin
    | WriteDone(call: nat, ok: bool)
    | Receive(response: Response)
    | EndOfStream

  predicate Enabled(b: Bridge, e: Event) {
    match e
    case Begin => true
    case WriteDone(call, _) => 1 <= call <= b.issued && call !in b.writes
    case Receive(_) => b.reading
    case EndOfStream => b.reading
  }

  /** A call waits for its write before it looks at its channel. A failed write
      returns an error whatever has arrived, and leaves the entry in `pending`; the
      end of the stream stops the reader and wakes nobody. */
  function Step(b: Bridge, e: Event): Bridge {
    match e
    case Begin => b.(issued := b.issued + 1, pending := b.pending[RequestId(b.issued + 1) := b.issued + 1])
    case WriteDone(call, ok) =>
      b.(writes := b.writes[call := ok],
         replies := if !ok then b.replies[call := WRITE_ERROR]
                    else if call in b.answers then b.replies[call := b.answers[call]]
                    else b.replies)
    case Receive(r) =>
      if r.id !in b.pending then b
      else
        var call := b.pending[r.id];
        b.(pending := b.pending - {r.id},
           answers := b.answers[call := ReplyOf(r)],
           replies := if call in b.writes && b.writes[call] then b.replies[call := ReplyOf(r)] else b.replies)
    case EndOfStream => b.(reading := false)
  }

  ghost predicate IsRun(events: seq<Event>)
    decreases |events|, 0
  {
    events == []
    || (IsRun(events[..|events| - 1]) && Enabled(After(events[..|events| - 1]), events[|events| - 1]))
  }

  ghost function After(events: seq<Event>): Bridge
    decreases |events|, 1
  {
    if events == [] then CONNECTED else Step(After(events[..|events| - 1]), events[|events| - 1])
  }

  /** Every pending id is the id of the call it leads to, that call was issued, and
      nothing has arrived for it. */
  ghost predicate Inv(b: Bridge) {
    && (forall id | id in b.pending :: 1 <= b.pending[id] <= b.issued && id == RequestId(b.pending[id]))
    && (forall id | id in b.pending :: b.pending[id] !in b.answers)
    && (forall call | call in b.replies || call in b.answers || call in b.writes :: 1 <= call <= b.issued)
  }

  lemma ReceiveKeepsInv(b: Bridge, r: Response)
    requires Inv(b)
    ensures Inv(Step(b, Receive(r)))
  {
    forall id | id in b.pending && id != r.id && r.id in b.pending ensures b.pending[id] != b.pending[r.id] {
      assert id == RequestId(b.pending[id]) && r.id == RequestId(b.pending[r.id]);
    }
  }

  lemma StepKeepsInv(b: Bridge, e: Event)
    requires Inv(b) && Enabled(b, e)
    ensures Inv(Step(b, e))
  {
    if e.Receive? {
      ReceiveKeepsInv(b, e.response);
    }
  }

  lemma {:induction false} RunKeepsInv(events: seq<Event>)
    requires IsRun(events)
    ensures Inv(After(events))
  {
    if events != [] {
      RunKeepsInv(events[..|events| - 1]);
      StepKeepsInv(After(events[..|events| - 1]), events[|events| - 1]);
    }
  }

  /** A new request never takes an id that any earlier request had. */
  lemma IdsNeverReused(events: seq<Event>, earlier: nat)
    requires IsRun(events) && 1 <= earlier <= After(events).issued
    ensures RequestId(After(events).issued + 1) != RequestId(earlier)
    ensures RequestId(After(events).issued + 1) !in After(events).pending
  {
    RunKeepsInv(events);
    var next := After(events).issued + 1;
    if RequestId(next) == RequestId(earlier) {
      RequestIdInjective(next, earlier);
    }
    if RequestId(next) in After(events).pending {
      RequestIdInjective(next, After(events).pending[RequestId(next)]);
    }
  }

  // ---- what the events say of one call ----

  function Begun(events: seq<Event>): nat {
    if events == [] then 0 else Begun(events[..|events| - 1]) + (if events[|events| - 1] == Begin then 1 else 0)
  }

  /** How the call's write ended. */
  function WriteOutcome(events: seq<Event>, call: nat): Option<bool> {
    if events == [] then None
    else
      var last := events[|events| - 1];
      if last.WriteDone? && last.call == call then Some(last.ok) else WriteOutcome(events[..|events| - 1], call)
  }

  /** The first response with the call's id that was read after the call began. */
  function FirstAnswer(events: seq<Event>, call: nat): Option<Reply> {
    if events == [] then None
    else
      var front, last := events[..|events| - 1], events[|events| - 1];
      if FirstAnswer(front, call).Some? then FirstAnswer(front, call)
      else if Begun(front) >= call && last.Receive? && last.response.id == RequestId(call)
      then Some(ReplyOf(last.response))
      else None
  }

  /** What the call should return: a failed write is an error, whatever was read; a
      written call returns its own first answer once that is there. Neither the
      other calls nor the order of the answers matters. */
  function Expected(events: seq<Event>, call: nat): Option<Reply> {
    if WriteOutcome(events, call) == Some(false) then Some(WRITE_ERROR)
    else if WriteOutcome(events, call) == Some(true) then FirstAnswer(events, call)
    else None
  }

  function At<V>(m: map<nat, V>, call: nat): Option<V> {
    if call in m then Some(m[call]) else None
  }

  ghost predicate Tracks(b: Bridge, events: seq<Event>, call: nat) {
    && b.issued == Begun(events)
    && (RequestId(call) in b.pending <==> call <= Begun(events) && FirstAnswer(events, call).None?)
    && (RequestId(call) in b.pending ==> b.pending[RequestId(call)] == call)
    && At(b.writes, call) == WriteOutcome(events, call)
    && At(b.answers, call) == FirstAnswer(events, call)
    && At(b.replies, call) == Expected(events, call)
  }

  lemma {:induction false} NothingBeforeBegin(events: seq<Event>, call: nat)
    requires Begun(events) < call
    ensures FirstAnswer(events, call).None?
  {
    if events != [] {
      NothingBeforeBegin(events[..|events| - 1], call);
    }
  }

  lemma TracksBegin(b: Bridge, front: seq<Event>, call: nat)
    requires Inv(b) && Tracks(b, front, call) && call >= 1
    ensures Tracks(Step(b, Begin), front + [Begin], call)
  {
    assert (front + [Begin])[..|front|] == front;
    if RequestId(b.issued + 1) == RequestId(call) {
      RequestIdInjective(b.issued + 1, call);
    }
    if call == b.issued + 1 {
      NothingBeforeBegin(front, call);
    }
  }

  lemma TracksWrite(b: Bridge, front: seq<Event>, done: nat, ok: bool, call: nat)
    requires Inv(b) && Tracks(b, front, call) && call >= 1 && Enabled(b, WriteDone(done, ok))
    ensures Tracks(Step(b, WriteDone(done, ok)), front + [WriteDone(done, ok)], call)
  {
    assert (front + [WriteDone(done, ok)])[..|front|] == front;
  }

  lemma TracksReceive(b: Bridge, front: seq<Event>, r: Response, call: nat)
    requires Inv(b) && Tracks(b, front, call) && call >= 1
    ensures Tracks(Step(b, Receive(r)), front + [Receive(r)], call)
  {
    assert (front + [Receive(r)])[..|front|] == front;
    if r.id in b.pending {
      assert r.id == RequestId(b.pending[r.id]);
    }
  }

  lemma {:induction false} Tracking(events: seq<Event>, call: nat)
    requires IsRun(events) && call >= 1
    ensures Tracks(After(events), events, call)
  {
    if events != [] {
      var front, last := events[..|events| - 1], events[|events| - 1];
      Tracking(front, call);
      RunKeepsInv(front);
      assert events == front + [last];
      match last {
        case Begin => TracksBegin(After(front), front, call);
        case WriteDone(done, ok) => TracksWrite(After(front), front, done, ok, call);
        case Receive(r) => TracksReceive(After(front), front, r, call);
        case EndOfStream =>
      }
    }
  }

  /** Correlation: in every run a call has returned exactly what its own write and
      its own first answer say, in whatever order those came. */
  lemma EachCallGetsItsOwnReply(events: seq<Event>, call: nat)
    requires IsRun(events) && 1 <= call <= After(events).issued
    ensures At(After(events).replies, call) == Expected(events, call)
  {
    Tracking(events, call);
  }

  /** An entry stays pending until its response is read: a failed write leaks it,
      and after the end of the stream no waiting call ever returns. */
  lemma PendingUntilAnswered(events: seq<Event>, call: nat)
    requires IsRun(events) && 1 <= call <= After(events).issued
    ensures RequestId(call) in After(events).pending <==> FirstAnswer(events, call).None?
  {
    Tracking(events, call);
  }

  lemma SilentStep(b: Bridge, e: Event, call: nat)
    requires Enabled(b, e) && !b.reading && call !in b.answers
    ensures var c := Step(b, e);
            && !c.reading && call !in c.answers
            && (call in c.replies <==> call in b.replies || e == WriteDone(call, false))
  {
  }

  /** Once the reader has stopped, an unanswered call can return in no way but by a
      failed write of its own. */
  lemma {:induction false} NobodyWokenAfterEnd(events: seq<Event>, more: seq<Event>, call: nat)
    requires IsRun(events + more) && IsRun(events) && !After(events).reading
    requires call !in After(events).answers && call !in After(events).replies
    ensures var b := After(events + more);
            && !b.reading && call !in b.answers
            && (call in b.replies <==> WriteDone(call, false) in more)
  {
    if more == [] {
      assert events + more == events;
    } else {
      var front, last := more[..|more| - 1], more[|more| - 1];
      AppendFront(events, more);
      NobodyWokenAfterEnd(events, front, call);
      SilentStep(After(events + front), last, call);
      FrontAndLast(more);
    }
  }

  // ---- the client object ----

  class BridgeClient {
    var nextId: nat
    var pending: map<string, nat>
    var writes: map<nat, bool>
    var answers: map<nat, Reply>
    var replies: map<nat, Reply>
    var reading: bool

    ghost function State(): Bridge
      reads this
    {
      Bridge(nextId, pending, writes, answers, replies, reading)
    }

    constructor ()
      ensures State() == CONNECTED
    {
      nextId, pending, writes, answers, replies, reading := 0, map[], map[], map[], map[], true;
    }

    /** `call` up to the point where it writes. */
    method BeginCall() returns (id: string)
      modifies this
      ensures State() == Step(old(State()), Begin) && id == RequestId(old(nextId) + 1)
    {
      nextId := nextId + 1;
      id := "req-" + Decimal(nextId);
      pending := pending[id := nextId];
    }

    /** `call` from the end of its write to its return or its wait on the channel. */
    method AfterWrite(call: nat, ok: bool) returns (reply: Option<Reply>)
      requires Enabled(State(), WriteDone(call, ok))
      modifies this
      ensures State() == Step(old(State()), WriteDone(call, ok))
      ensures reply == if ok then At(old(answers), call) else Some(WRITE_ERROR)
    {
      writes := writes[call := ok];
      if !ok {
        replies := replies[call := WRITE_ERROR];
        return Some(WRITE_ERROR);
      }
      if call in answers {
        replies := replies[call := answers[call]];
        return Some(answers[call]);
      }
      return None;
    }

    /** One parsed line of the reader task. A call that waits on its channel returns. */
    method OnResponse(resp: Response)
      requires reading
      modifies this
      ensures State() == Step(old(State()), Receive(resp))
    {
      if resp.id in pending {
        var call := pending[resp.id];
        pending := pending - {resp.id};
        answers := answers[call := ReplyOf(resp)];
        if call in writes && writes[call] {
          replies := replies[call := answers[call]];
        }
      }
    }
  }

  // ---- what an answer means to the caller ----

  /** The request ids on the wire: a fixed prefix and the counter in decimal. */
  lemma RequestIdFormat(n: nat)
    ensures |RequestId(n)| > 4 && RequestId(n)[..4] == "req-" && AllDigits(RequestId(n)[4..])
    ensures DigitsValue(RequestId(n)[4..]) == n
  {
    assert RequestId(n)[4..] == Decimal(n);
    DecimalValue(n);
  }

  /** Position `i` reads the first response of the call since it began. */
  ghost predicate AnsweredAt(events: seq<Event>, call: nat, i: nat) {
    && i < |events| && events[i].Receive? && events[i].response.id == RequestId(call)
    && Begun(events[..i]) >= call
    && forall j | 0 <= j < i :: events[j].Receive? && events[j].response.id == RequestId(call) ==> Begun(events[..j]) < call
  }

  lemma {:induction false} FirstAnswerAt(events: seq<Event>, call: nat, i: nat)
    requires AnsweredAt(events, call, i)
    ensures FirstAnswer(events, call) == Some(ReplyOf(events[i].response))
  {
    var front := events[..|events| - 1];
    forall j | 0 <= j < |front| ensures front[..j] == events[..j] && front[j] == events[j] {
    }
    if i < |front| {
      assert front[..i] == events[..i];
      FirstAnswerAt(front, call, i);
    } else {
      NoAnswerBefore(front, call);
    }
  }

  lemma {:induction false} NoAnswerBefore(events: seq<Event>, call: nat)
    requires forall j | 0 <= j < |events| ::
               events[j].Receive? && events[j].response.id == RequestId(call) ==> Begun(events[..j]) < call
    ensures FirstAnswer(events, call) == None
  {
    if events != [] {
      var front := events[..|events| - 1];
      forall j | 0 <= j < |front| ensures front[..j] == events[..j] && front[j] == events[j] {
      }
      NoAnswerBefore(front, call);
    }
  }

  /** A written call whose first response has been read returns that response's
      error, else its result, else a null. */
  lemma AnswerReaches(events: seq<Event>, call: nat, i: nat)
    requires IsRun(events) && 1 <= call <= After(events).issued
    requires AnsweredAt(events, call, i) && WriteOutcome(events, call) == Some(true)
    ensures call in After(events).replies
    ensures var r := events[i].response;
            && (forall error :: r.error == Some(error) ==> After(events).replies[call] == Err(error))
            && (forall result :: r.error == None && r.result == Some(result) ==> After(events).replies[call] == Ok(result))
            && (r.error == None && r.result == None ==> After(events).replies[call] == Ok("null"))
  {
    Tracking(events, call);
    FirstAnswerAt(events, call, i);
  }

  lemma {:induction false} ReadingExact(events: seq<Event>)
    ensures After(events).reading <==> EndOfStream !in events
  {
    if events != [] {
      ReadingExact(events[..|events| - 1]);
      FrontAndLast(events);
    }
  }

  predicate CanFollow(events: seq<Event>, e: Event) {
    match e
    case Begin => true
    case WriteDone(call, _) => 1 <= call <= Begun(events) && WriteOutcome(events, call).None?
    case Receive(_) => EndOfStream !in events
    case EndOfStream => EndOfStream !in events
  }

  /** After any run a call can begin; a write can end exactly once for each call that
      began; and lines come exactly until the end of the stream. */
  lemma WhatCanHappen(events: seq<Event>, e: Event)
    requires IsRun(events)
    ensures IsRun(events + [e]) <==> CanFollow(events, e)
  {
    assert (events + [e])[..|events|] == events;
    ReadingExact(events);
    if e.WriteDone? && e.call >= 1 {
      Tracking(events, e.call);
    }
  }
}
