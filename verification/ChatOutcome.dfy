/** How a finished stream is stored, and what of its error a reload shows. */
module ChatOutcome {
  import opened Sequences
  import opened ChatModel
  import opened LiveFold
  import opened BlockAccumulation

  datatype MessageStatus = Complete | Errored | Stopped | Streaming

  /** A string that JavaScript counts as true. */
  predicate Truthy(s: Option<string>) {
    s.Some? && s.value != ""
  }

  /** The status `sendMessage` finalizes with; `runError` is the rejection of the send itself. */
  function FinalStatus(runError: Option<string>, a: AccState): MessageStatus {
    if Truthy(runError) then Errored
    else if a.cancelled then Stopped
    else if Truthy(a.errorFromStream) then Errored
    else Complete
  }

  function FinalError(runError: Option<string>, a: AccState): Option<string> {
    if runError.Some? then runError else a.errorFromStream
  }

  /** The error `persistedToLive` puts on the rebuilt message. */
  function ReloadedError(status: MessageStatus, message: Option<string>): Option<string> {
    if status != Errored then None
    else if message.Some? then message
    else Some("stream finished with error")
  }

  /** The live message once the send has returned or been rejected. */
  function AfterRun(m: LiveMessage, runError: Option<string>): LiveMessage {
    if runError.Some? then m.(isStreaming := false, error := runError) else m
  }

  // ---- what the stream says about errors ----

  function LastError(events: seq<StreamEvent>): Option<string> {
    if events == [] then None
    else if events[|events| - 1].StreamError? then Some(events[|events| - 1].message)
    else LastError(events[..|events| - 1])
  }

  ghost predicate Finishes(events: seq<StreamEvent>, reason: FinishReason) {
    Finish(reason) in events
  }

  lemma {:induction false} LiveErrorFollows(id: string, events: seq<StreamEvent>, fallback: string)
    ensures Live(FreshAssistant(id), events, fallback).error
         == if LastError(events).Some? then LastError(events)
            else if Finishes(events, Failed) then Some(fallback) else None
  {
    if events != [] {
      var front := events[..|events| - 1];
      assert events == front + [events[|events| - 1]];
      LiveErrorFollows(id, front, fallback);
    }
  }

  function LastFinish(events: seq<StreamEvent>): Option<FinishReason> {
    if events == [] then None
    else if events[|events| - 1].Finish? then Some(events[|events| - 1].reason)
    else LastFinish(events[..|events| - 1])
  }

  lemma {:induction false} AccumulatedOutcome(events: seq<StreamEvent>)
    ensures Accumulate(events).errorFromStream == LastError(events)
    ensures Accumulate(events).finishReason == LastFinish(events)
    ensures Accumulate(events).cancelled <==> Finishes(events, Cancelled)
  {
    if events != [] {
      var front := events[..|events| - 1];
      assert events == front + [events[|events| - 1]];
      AccumulatedOutcome(front);
    }
  }

  /** When a reload shows the error the live message showed. It loses it in
      three ways: a stream cancelled after its error, an error with an empty
      message, and a finish with reason `error` that no error event explains. */
  predicate ErrorKept(events: seq<StreamEvent>, runError: Option<string>) {
    if runError.Some? then
      runError.value != "" || (Finish(Cancelled) !in events && Truthy(LastError(events)))
    else if LastError(events).Some? then
      Finish(Cancelled) !in events && LastError(events).value != ""
    else Finish(Failed) !in events
  }

  lemma ErrorSurvivesReload(id: string, events: seq<StreamEvent>, fallback: string, runError: Option<string>)
    ensures var a := Accumulate(events);
            ReloadedError(FinalStatus(runError, a), FinalError(runError, a))
            == AfterRun(Live(FreshAssistant(id), events, fallback), runError).error
            <==> ErrorKept(events, runError)
  {
    LiveErrorFollows(id, events, fallback);
    AccumulatedOutcome(events);
  }

  /** The stored status and error of every stream and every rejection of the send:
      an error when the send was rejected with a message, cancelled when any finish
      was, an error when the last error event has a message, and complete otherwise. */
  lemma StoredOutcome(events: seq<StreamEvent>, runError: Option<string>)
    ensures var status := FinalStatus(runError, Accumulate(events));
            && (status == Errored <==>
                  (runError.Some? && runError.value != "")
                  || (Finish(Cancelled) !in events && LastError(events).Some? && LastError(events).value != ""))
            && (status == Stopped <==> Finish(Cancelled) in events && (runError.None? || runError.value == ""))
            && (status == Complete <==>
                  Finish(Cancelled) !in events && (runError.None? || runError.value == "")
                  && (LastError(events).None? || LastError(events).value == ""))
    ensures FinalError(runError, Accumulate(events)) == if runError.Some? then runError else LastError(events)
  {
    AccumulatedOutcome(events);
  }

  /** A reloaded message shows an error exactly when its status is one: the stored
      message, or a stock one when there is none. */
  lemma ReloadedErrorExact(status: MessageStatus, message: Option<string>)
    ensures ReloadedError(status, message).Some? <==> status == Errored
    ensures ReloadedError(Errored, None) == Some("stream finished with error")
    ensures status == Errored && message.Some? ==> ReloadedError(status, message) == message
  {
  }

  /** A rejected send ends the live message with the rejection as its error, and
      otherwise leaves it as the stream did. */
  lemma RejectedSend(id: string, events: seq<StreamEvent>, fallback: string, runError: Option<string>)
    ensures var m := Live(FreshAssistant(id), events, fallback);
            var n := AfterRun(m, runError);
            && n.content == AllText(events) && n.segments == m.segments && n.toolEvents == m.toolEvents
            && (runError.Some? ==> !n.isStreaming && n.error == runError)
            && (runError.None? ==> n == m)
  {
    LiveProjections(id, events, fallback);
  }

  /** A stream cancelled after its error: live shows the error, the reload shows none. */
  lemma ErrorDroppedWitness(id: string, message: string, fallback: string)
    ensures var events := [StreamError(message), Finish(Cancelled)];
            var a := Accumulate(events);
            && Live(FreshAssistant(id), events, fallback).error == Some(message)
            && ReloadedError(FinalStatus(None, a), FinalError(None, a)) == None
  {
    var events := [StreamError(message), Finish(Cancelled)];
    LiveErrorFollows(id, events, fallback);
    AccumulatedOutcome(events);
    assert LastError(events[..1]) == Some(message);
    assert events[1] == Finish(Cancelled);
  }

  // ---- the merged message list ----

  ghost predicate HasId(messages: seq<LiveMessage>, id: string) {
    exists m :: m in messages && m.id == id
  }

  ghost predicate UniqueIds(messages: seq<LiveMessage>) {
    forall i, j | 0 <= i < j < |messages| :: messages[i].id != messages[j].id
  }

  /** The live rows whose id is not persisted yet. */
  function Unpersisted(persistedIds: set<string>, live: seq<LiveMessage>): seq<LiveMessage> {
    if live == [] then []
    else
      var last := live[|live| - 1];
      Unpersisted(persistedIds, live[..|live| - 1]) + (if last.id in persistedIds then [] else [last])
  }

  function Merged(persisted: seq<LiveMessage>, live: seq<LiveMessage>): seq<LiveMessage> {
    persisted + Unpersisted(set m | m in persisted :: m.id, live)
  }

  lemma {:induction false} UnpersistedMembers(ids: set<string>, live: seq<LiveMessage>)
    ensures forall m :: m in Unpersisted(ids, live) <==> m in live && m.id !in ids
    ensures UniqueIds(live) ==> UniqueIds(Unpersisted(ids, live))
  {
    if live != [] {
      var front, last := live[..|live| - 1], live[|live| - 1];
      assert live == front + [last];
      UnpersistedMembers(ids, front);
      if UniqueIds(live) {
        assert forall m | m in front :: m.id != last.id;
      }
    }
  }

  /** No id is shown twice, nothing persisted is hidden, and a live row is
      hidden only behind a persisted row with its id. */
  lemma MergedShowsEachOnce(persisted: seq<LiveMessage>, live: seq<LiveMessage>)
    requires UniqueIds(persisted) && UniqueIds(live)
    ensures UniqueIds(Merged(persisted, live))
    ensures persisted <= Merged(persisted, live)
    ensures forall id :: HasId(Merged(persisted, live), id) <==> HasId(persisted, id) || HasId(live, id)
  {
    var ids := set m | m in persisted :: m.id;
    UnpersistedMembers(ids, live);
    var merged, rest := Merged(persisted, live), Unpersisted(ids, live);
    forall i, j | 0 <= i < j < |merged| ensures merged[i].id != merged[j].id {
      if i < |persisted| <= j {
        assert merged[i] in persisted && merged[j] in rest;
      }
    }
    forall id ensures HasId(merged, id) <==> HasId(persisted, id) || HasId(live, id) {
      if HasId(live, id) && !HasId(persisted, id) {
        var m :| m in live && m.id == id;
        assert id !in ids && m in rest && m in merged;
      }
      if HasId(persisted, id) {
        var m :| m in persisted && m.id == id;
        assert m in merged;
      }
      if HasId(merged, id) && !HasId(persisted, id) {
        var m :| m in merged && m.id == id;
        assert m in rest && m in live;
      }
    }
  }
}
