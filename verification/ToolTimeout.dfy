/** Fan-in of abort signals, and the deadline that races every wrapped tool call. */
module ComposedSignals {
  import opened Sequences

  type Reason = string

  /** A source signal: absent, or present with the reason it was aborted for, if it was. */
  datatype Source = Absent | Signal(reason: Option<Reason>)

  datatype Abort = Abort(source: nat, reason: Reason)

  /** The composed signal and the sources it listens to. */
  datatype Composed = Composed(reason: Option<Reason>, listening: set<nat>)

  predicate IsAborted(s: Source) {
    s.Signal? && s.reason.Some?
  }

  /** The first source that is aborted, in list order. */
  function FirstAborted(sources: seq<Source>): (r: Option<nat>)
    ensures r.Some? ==> r.value < |sources| && IsAborted(sources[r.value])
                        && forall i | 0 <= i < r.value :: !IsAborted(sources[i])
    ensures r.None? ==> forall i | 0 <= i < |sources| :: !IsAborted(sources[i])
  {
    if sources == [] then None
    else
      var front := FirstAborted(sources[..|sources| - 1]);
      if front.Some? then front
      else if IsAborted(sources[|sources| - 1]) then Some(|sources| - 1) else None
  }

  /** `composeSignals`, for the two or more sources that take its loop and for
      the shortcuts with none or one, where the signal itself is handed on. */
  method Compose(sources: seq<Source>) returns (c: Composed)
    ensures c.reason == if FirstAborted(sources).Some? then sources[FirstAborted(sources).value].reason else None
    ensures c.reason.None? ==> c.listening == set i | 0 <= i < |sources| && sources[i].Signal?
    ensures forall i | i in c.listening :: i < |sources| && sources[i].Signal?
  {
    var listening := {};
    for i := 0 to |sources|
      invariant listening == set j | 0 <= j < i && sources[j].Signal?
      invariant forall j | 0 <= j < i :: !IsAborted(sources[j])
    {
      if sources[i].Signal? {
        if sources[i].reason.Some? {
          assert FirstAborted(sources) == Some(i) by {
            var f := FirstAborted(sources);
            assert IsAborted(sources[i]);
          }
          return Composed(sources[i].reason, listening);
        }
        listening := listening + {i};
      }
    }
    return Composed(None, listening);
  }

  /** An abort of a source: only the first one of a signal is an event, and a
      composed signal keeps its first reason. */
  function AbortSource(sources: seq<Source>, c: Composed, a: Abort): (seq<Source>, Composed) {
    if a.source < |sources| && sources[a.source] == Signal(None) then
      (sources[a.source := Signal(Some(a.reason))],
       if a.source in c.listening && c.reason.None? then c.(reason := Some(a.reason)) else c)
    else (sources, c)
  }

  function AbortAll(sources: seq<Source>, c: Composed, aborts: seq<Abort>): (seq<Source>, Composed) {
    if aborts == [] then (sources, c)
    else
      var (s, d) := AbortAll(sources, c, aborts[..|aborts| - 1]);
      AbortSource(s, d, aborts[|aborts| - 1])
  }

  /** What `Compose` establishes. */
  ghost predicate Composes(c: Composed, sources: seq<Source>) {
    && c.reason == (if FirstAborted(sources).Some? then sources[FirstAborted(sources).value].reason else None)
    && (c.reason.None? ==> c.listening == set i | 0 <= i < |sources| && sources[i].Signal?)
  }

  /** The earliest abort: of the sources aborted from the start the first in
      list order, otherwise the first in time that hits a present source. */
  function EarliestReason(sources: seq<Source>, aborts: seq<Abort>): Option<Reason> {
    if FirstAborted(sources).Some? then sources[FirstAborted(sources).value].reason
    else if aborts == [] then None
    else
      var front, last := aborts[..|aborts| - 1], aborts[|aborts| - 1];
      if EarliestReason(sources, front).Some? then EarliestReason(sources, front)
      else if last.source < |sources| && sources[last.source].Signal? then Some(last.reason)
      else None
  }

  ghost predicate Reflects(sources: seq<Source>, c: Composed) {
    && (c.reason.Some? <==> exists i | 0 <= i < |sources| :: IsAborted(sources[i]))
    && (c.reason.None? ==> c.listening == set i | 0 <= i < |sources| && sources[i].Signal?)
  }

  lemma AbortKeepsReflecting(sources: seq<Source>, c: Composed, a: Abort)
    requires Reflects(sources, c)
    ensures var (s, d) := AbortSource(sources, c, a);
            && Reflects(s, d) && |s| == |sources|
            && (forall i | 0 <= i < |s| :: s[i].Signal? <==> sources[i].Signal?)
            && (c.reason.Some? ==> d.reason == c.reason)
            && (c.reason.None? ==>
                  d.reason == if a.source < |sources| && sources[a.source].Signal? then Some(a.reason) else None)
  {
    var (s, d) := AbortSource(sources, c, a);
    if a.source < |sources| && sources[a.source] == Signal(None) {
      assert IsAborted(s[a.source]);
      assert (set i | 0 <= i < |s| && s[i].Signal?) == (set i | 0 <= i < |sources| && sources[i].Signal?);
    } else if a.source < |sources| && sources[a.source].Signal? {
      assert IsAborted(sources[a.source]);
    }
  }

  /** The composed signal is aborted iff some source is, for the reason of the
      earliest abort, after any sequence of aborts. */
  lemma {:induction false} ComposedFollowsEarliest(sources: seq<Source>, c: Composed, aborts: seq<Abort>)
    requires Composes(c, sources)
    ensures var (s, d) := AbortAll(sources, c, aborts);
            && Reflects(s, d) && |s| == |sources|
            && (forall i | 0 <= i < |s| :: s[i].Signal? <==> sources[i].Signal?)
            && d.reason == EarliestReason(sources, aborts)
  {
    if aborts != [] {
      var front := aborts[..|aborts| - 1];
      ComposedFollowsEarliest(sources, c, front);
      var (s, d) := AbortAll(sources, c, front);
      AbortKeepsReflecting(s, d, aborts[|aborts| - 1]);
    }
  }
}

module ToolTimeout {
  import opened Sequences
  import opened ComposedSignals

  datatype Outcome = Resolved(value: string) | Rejected(error: string) | TimedOut

  /** How the wrapped tool starts: it hands back a promise, or throws at once. */
  datatype Start = Promises | Throws(error: string)

  const USER: nat := 0
  const DEADLINE: nat := 1
  const TIMEOUT_REASON: Reason := "AbortError"

  /** One wrapped call. `settled` is the flag the callbacks share; `outcome` and
      `settledAt` describe the promise the caller holds; `aborts` lists the
      aborts of the two sources in order. */
  datatype Wrapped = Wrapped(
    now: nat,
    timeout: nat,
    settled: bool,
    timer: bool,
    toolDone: bool,
    outcome: Option<Outcome>,
    settledAt: Option<nat>,
    sources: seq<Source>,
    composed: Composed,
    aborts: seq<Abort>)

  datatype Event =
    | Wait
    | TimerFires
    | ToolResolves(value: string)
    | ToolRejects(error: string)
    | UserAborts(reason: Reason)

  /** The promise executor: arm the timer, start the tool. A tool that throws
      rejects the promise but neither sets the flag nor clears the timer. */
  function Started(timeout: nat, user: Source, start: Start, composed: Composed): Wrapped {
    Wrapped(0, timeout, false, true, start.Throws?,
            if start.Throws? then Some(Rejected(start.error)) else None,
            if start.Throws? then Some(0) else None,
            [user, Signal(None)], composed, [])
  }

  function Abandon(w: Wrapped, a: Abort): Wrapped {
    var (sources, composed) := AbortSource(w.sources, w.composed, a);
    w.(sources := sources, composed := composed, aborts := w.aborts + [a])
  }

  function Promise(w: Wrapped, o: Outcome): Wrapped {
    if w.outcome.Some? then w else w.(outcome := Some(o), settledAt := Some(w.now))
  }

  /** Timers are on time: the clock does not pass an armed deadline. */
  predicate Enabled(w: Wrapped, e: Event) {
    match e
    case Wait => w.timer ==> w.now < w.timeout
    case TimerFires => w.timer && w.now == w.timeout
    case ToolResolves(_) => !w.toolDone
    case ToolRejects(_) => !w.toolDone
    case UserAborts(_) => true
  }

  function Step(w: Wrapped, e: Event): Wrapped {
    match e
    case Wait => w.(now := w.now + 1)
    case TimerFires =>
      if w.settled then w.(timer := false)
      else Promise(Abandon(w.(settled := true, timer := false), Abort(DEADLINE, TIMEOUT_REASON)), TimedOut)
    case ToolResolves(value) =>
      if w.settled then w.(toolDone := true)
      else Promise(w.(settled := true, timer := false, toolDone := true), Resolved(value))
    case ToolRejects(error) =>
      if w.settled then w.(toolDone := true)
      else Promise(w.(settled := true, timer := false, toolDone := true), Rejected(error))
    case UserAborts(reason) => Abandon(w, Abort(USER, reason))
  }

  ghost predicate IsRun(w: Wrapped, events: seq<Event>)
    decreases |events|, 0
  {
    events == []
    || (IsRun(w, events[..|events| - 1]) && Enabled(After(w, events[..|events| - 1]), events[|events| - 1]))
  }

  ghost function After(w: Wrapped, events: seq<Event>): Wrapped
    decreases |events|, 1
  {
    if events == [] then w else Step(After(w, events[..|events| - 1]), events[|events| - 1])
  }

  predicate TimeoutFired(w: Wrapped) {
    |w.sources| == 2 && IsAborted(w.sources[DEADLINE])
  }

  ghost predicate Inv(w: Wrapped, start: Start) {
    && |w.sources| == 2 && w.sources[DEADLINE].Signal?
    && (w.timer <==> !w.settled)
    && (w.timer ==> w.now <= w.timeout)
    && (w.outcome.Some? <==> w.settledAt.Some?)
    && (w.outcome.Some? ==> w.settledAt.value <= w.timeout && w.settledAt.value <= w.now)
    && (w.settled ==> w.outcome.Some?)
    && (start.Promises? ==> (w.settled <==> w.outcome.Some?) && (TimeoutFired(w) <==> w.outcome == Some(TimedOut)))
    && (start.Throws? ==> w.outcome == Some(Rejected(start.error)) && w.toolDone && (TimeoutFired(w) <==> w.settled))
    && (w.outcome == Some(TimedOut) ==> w.settledAt == Some(w.timeout))
  }

  lemma StepKeepsInv(w: Wrapped, e: Event, start: Start)
    requires Inv(w, start) && Enabled(w, e)
    ensures Inv(Step(w, e), start)
    ensures w.outcome.Some? ==> Step(w, e).outcome == w.outcome && Step(w, e).settledAt == w.settledAt
    ensures Step(w, e).timeout == w.timeout && Step(w, e).now >= w.now
  {
  }

  lemma {:induction false} RunKeepsInv(w: Wrapped, events: seq<Event>, start: Start)
    requires Inv(w, start) && IsRun(w, events)
    ensures Inv(After(w, events), start)
    ensures w.outcome.Some? ==> After(w, events).outcome == w.outcome && After(w, events).settledAt == w.settledAt
    ensures After(w, events).timeout == w.timeout
  {
    if events != [] {
      RunKeepsInv(w, events[..|events| - 1], start);
      StepKeepsInv(After(w, events[..|events| - 1]), events[|events| - 1], start);
    }
  }

  /** Whatever the tool does, the promise settles at most once, and once the
      clock is past the deadline it has settled, no later than the deadline. */
  lemma SettlesByDeadline(timeout: nat, user: Source, start: Start, composed: Composed,
                          events: seq<Event>, more: seq<Event>)
    requires var w := Started(timeout, user, start, composed); IsRun(w, events) && IsRun(After(w, events), more)
    ensures var w := After(Started(timeout, user, start, composed), events);
            && (w.now > timeout ==> w.outcome.Some?)
            && (w.outcome.Some? ==>
                  w.settledAt.Some? && w.settledAt.value <= timeout
                  && After(w, more).outcome == w.outcome && After(w, more).settledAt == w.settledAt)
  {
    RunKeepsInv(Started(timeout, user, start, composed), events, start);
    RunKeepsInv(After(Started(timeout, user, start, composed), events), more, start);
  }

  /** The timeout signal fires iff the deadline won, for every tool that hands
      back a promise. For a tool that throws at once the promise is already
      rejected, and the timer still fires the signal at the deadline. */
  lemma TimeoutSignalExact(timeout: nat, user: Source, start: Start, composed: Composed, events: seq<Event>)
    requires IsRun(Started(timeout, user, start, composed), events)
    ensures var w := After(Started(timeout, user, start, composed), events);
            && (start.Promises? ==> (TimeoutFired(w) <==> w.outcome == Some(TimedOut)))
            && (start.Throws? ==> w.outcome == Some(Rejected(start.error)))
            && (start.Throws? && w.now > timeout ==> TimeoutFired(w))
  {
    RunKeepsInv(Started(timeout, user, start, composed), events, start);
  }

  /** A tool that throws at once under a deadline of zero: the timeout signal has
      fired although the deadline did not win. */
  lemma ThrowingToolWitness(user: Source, error: string, composed: Composed)
    ensures var start := Started(0, user, Throws(error), composed);
            && IsRun(start, [TimerFires])
            && TimeoutFired(After(start, [TimerFires])) && After(start, [TimerFires]).outcome == Some(Rejected(error))
  {
    var start, run := Started(0, user, Throws(error), composed), [TimerFires];
    assert run[..0] == [] && After(start, run[..0]) == start;
    assert IsRun(start, run[..0]);
    assert After(start, run) == Step(start, TimerFires);
  }

  lemma AbortAllSnoc(sources: seq<Source>, c: Composed, aborts: seq<Abort>, a: Abort)
    ensures AbortAll(sources, c, aborts + [a])
         == AbortSource(AbortAll(sources, c, aborts).0, AbortAll(sources, c, aborts).1, a)
  {
  }

  /** A step aborts nothing, or it aborts one source and logs it. */
  lemma StepLogs(w: Wrapped, e: Event)
    ensures var v := Step(w, e);
            || (v.aborts == w.aborts && v.sources == w.sources && v.composed == w.composed)
            || exists a :: v.aborts == w.aborts + [a] && (v.sources, v.composed) == AbortSource(w.sources, w.composed, a)
  {
  }

  lemma {:induction false} AbortsAreTheLog(w: Wrapped, events: seq<Event>)
    requires w.aborts == []
    ensures var v := After(w, events); (v.sources, v.composed) == AbortAll(w.sources, w.composed, v.aborts)
  {
    if events != [] {
      AbortsAreTheLog(w, events[..|events| - 1]);
      var v := After(w, events[..|events| - 1]);
      var u := Step(v, events[|events| - 1]);
      StepLogs(v, events[|events| - 1]);
      if u.aborts != v.aborts {
        var a :| u.aborts == v.aborts + [a] && (u.sources, u.composed) == AbortSource(v.sources, v.composed, a);
        AbortAllSnoc(w.sources, w.composed, v.aborts, a);
      }
    }
  }

  /** The signal the tool sees is aborted iff the user aborted or the timeout
      fired, and it carries the reason of whichever came first. */
  lemma ToolSeesEarliestAbort(timeout: nat, user: Source, start: Start, composed: Composed, events: seq<Event>)
    requires Composes(composed, [user, Signal(None)])
    requires IsRun(Started(timeout, user, start, composed), events)
    ensures var w := After(Started(timeout, user, start, composed), events);
            && |w.sources| == 2
            && (w.composed.reason.Some? <==> IsAborted(w.sources[USER]) || TimeoutFired(w))
            && w.composed.reason == EarliestReason([user, Signal(None)], w.aborts)
  {
    var w := Started(timeout, user, start, composed);
    RunKeepsInv(w, events, start);
    AbortsAreTheLog(w, events);
    ComposedFollowsEarliest(w.sources, composed, After(w, events).aborts);
  }

  class WrappedCall {
    const timeout: nat
    var now: nat
    var settled: bool
    var timer: bool
    var toolDone: bool
    var outcome: Option<Outcome>
    var settledAt: Option<nat>
    var sources: seq<Source>
    var composed: Composed
    ghost var aborts: seq<Abort>

    ghost function State(): Wrapped
      reads this
    {
      Wrapped(now, timeout, settled, timer, toolDone, outcome, settledAt, sources, composed, aborts)
    }

    constructor (timeout: nat, user: Source, start: Start, composed: Composed)
      ensures State() == Started(timeout, user, start, composed)
      ensures Inv(State(), start)
    {
      this.timeout, this.now := timeout, 0;
      settled, timer, toolDone := false, true, false;
      outcome, settledAt := None, None;
      sources, this.composed, aborts := [user, Signal(None)], composed, [];
      if start.Throws? {
        toolDone := true;
        outcome, settledAt := Some(Rejected(start.error)), Some(0);
      }
    }

    /** The caller's promise: only its first settlement is kept. */
    method SettlePromise(o: Outcome)
      modifies this`outcome, this`settledAt
      ensures State() == Promise(old(State()), o)
    {
      if outcome.None? {
        outcome, settledAt := Some(o), Some(now);
      }
    }

    method FireAbort(a: Abort)
      modifies this`sources, this`composed, this`aborts
      ensures State() == Abandon(old(State()), a)
    {
      aborts := aborts + [a];
      if a.source < |sources| && sources[a.source] == Signal(None) {
        sources := sources[a.source := Signal(Some(a.reason))];
        if a.source in composed.listening && composed.reason.None? {
          composed := composed.(reason := Some(a.reason));
        }
      }
    }

    method OnTimer()
      requires Enabled(State(), TimerFires)
      modifies this
      ensures State() == Step(old(State()), TimerFires)
    {
      timer := false;
      if settled {
        return;
      }
      settled := true;
      FireAbort(Abort(DEADLINE, TIMEOUT_REASON));
      SettlePromise(TimedOut);
    }

    method OnResolve(value: string)
      requires Enabled(State(), ToolResolves(value))
      modifies this
      ensures State() == Step(old(State()), ToolResolves(value))
    {
      toolDone := true;
      if settled {
        return;
      }
      settled := true;
      timer := false;
      SettlePromise(Resolved(value));
    }

    method OnReject(error: string)
      requires Enabled(State(), ToolRejects(error))
      modifies this
      ensures State() == Step(old(State()), ToolRejects(error))
    {
      toolDone := true;
      if settled {
        return;
      }
      settled := true;
      timer := false;
      SettlePromise(Rejected(error));
    }
  }

  // ---- the outcome and the clock, read off the events ----

  /** What an event would settle an open call with. */
  function Settles(e: Event): Option<Outcome> {
    match e
    case TimerFires => Some(TimedOut)
    case ToolResolves(value) => Some(Resolved(value))
    case ToolRejects(error) => Some(Rejected(error))
    case _ => None
  }

  /** The first settling event and the time at which it came. */
  function FirstSettling(events: seq<Event>): Option<(Outcome, nat)> {
    if events == [] then None
    else
      var front, last := events[..|events| - 1], events[|events| - 1];
      if FirstSettling(front).Some? then FirstSettling(front)
      else if Settles(last).Some? then Some((Settles(last).value, Waits(front)))
      else None
  }

  function Waits(events: seq<Event>): nat {
    if events == [] then 0 else Waits(events[..|events| - 1]) + (if events[|events| - 1] == Wait then 1 else 0)
  }

  /** The caller of a tool that hands back a promise gets the first of the tool's own
      value, the tool's own error and the timeout, at the time that came. */
  lemma {:induction false} OutcomeExact(timeout: nat, user: Source, composed: Composed, events: seq<Event>)
    requires IsRun(Started(timeout, user, Promises, composed), events)
    ensures var w, first := After(Started(timeout, user, Promises, composed), events), FirstSettling(events);
            && w.now == Waits(events)
            && w.outcome == (if first.Some? then Some(first.value.0) else None)
            && w.settledAt == (if first.Some? then Some(first.value.1) else None)
  {
    if events != [] {
      OutcomeExact(timeout, user, composed, events[..|events| - 1]);
      RunKeepsInv(Started(timeout, user, Promises, composed), events[..|events| - 1], Promises);
    }
  }

  /** The reason of the first abort by the user. */
  function FirstUserAbort(events: seq<Event>): Option<Reason> {
    if events == [] then None
    else
      var before := FirstUserAbort(events[..|events| - 1]);
      if before.Some? then before
      else if events[|events| - 1].UserAborts? then Some(events[|events| - 1].reason)
      else None
  }

  /** The user's signal is aborted exactly when it was at the start, or it is there
      and an abort came, and it keeps its first reason. */
  lemma {:induction false} UserSignalExact(timeout: nat, user: Source, start: Start, composed: Composed,
                                           events: seq<Event>)
    requires IsRun(Started(timeout, user, start, composed), events)
    ensures var w := After(Started(timeout, user, start, composed), events);
            && |w.sources| == 2
            && w.sources[USER] == (match user
                                   case Absent => Absent
                                   case Signal(Some(reason)) => Signal(Some(reason))
                                   case Signal(None) => Signal(FirstUserAbort(events)))
  {
    if events != [] {
      UserSignalExact(timeout, user, start, composed, events[..|events| - 1]);
    }
  }

  predicate ToolSettled(events: seq<Event>) {
    events != []
    && (events[|events| - 1].ToolResolves? || events[|events| - 1].ToolRejects?
        || ToolSettled(events[..|events| - 1]))
  }

  /** The timer is armed until something settles the call; for a tool that throws at
      once nothing but the timer itself does. */
  predicate Armed(start: Start, events: seq<Event>) {
    if start.Promises? then FirstSettling(events).None? else TimerFires !in events
  }

  lemma {:induction false} ArmedExact(timeout: nat, user: Source, start: Start, composed: Composed, events: seq<Event>)
    requires IsRun(Started(timeout, user, start, composed), events)
    ensures var w := After(Started(timeout, user, start, composed), events);
            && w.now == Waits(events) && w.timeout == timeout
            && (w.timer <==> Armed(start, events)) && (w.timer <==> !w.settled)
            && (w.toolDone <==> start.Throws? || ToolSettled(events))
  {
    if events != [] {
      ArmedExact(timeout, user, start, composed, events[..|events| - 1]);
      FrontAndLast(events);
    }
  }

  predicate CanFollow(timeout: nat, start: Start, events: seq<Event>, e: Event) {
    match e
    case Wait => Armed(start, events) ==> Waits(events) < timeout
    case TimerFires => Armed(start, events) && Waits(events) == timeout
    case UserAborts(_) => true
    case _ => start.Promises? && !ToolSettled(events)
  }

  /** After any run the user can abort, the tool can settle unless it has, and while the
      timer is armed it fires when the deadline has come and time stops at it. */
  lemma WhatCanHappen(timeout: nat, user: Source, start: Start, composed: Composed, events: seq<Event>, e: Event)
    requires IsRun(Started(timeout, user, start, composed), events)
    ensures IsRun(Started(timeout, user, start, composed), events + [e]) <==> CanFollow(timeout, start, events, e)
  {
    assert (events + [e])[..|events|] == events;
    ArmedExact(timeout, user, start, composed, events);
  }
}
