/** Cancelling a running turn: the shared map from a thread to the notify handle
    of its turn, and the pump loop that races the handle against the next line. */
module CancelRegistryModel {
  import opened Sequences

  type Thread = string

  /** How `run_turn` returned: on a cancel, on a line that reported the end, on an end
      of stream without one, or on any early error return. */
  datatype End = Cancelled | Reported | StreamEnded | Failed

  datatype Phase = Running | Finished(end: End) | Gone(end: End)

  /** One `exec_agent_send`. `permit` is the stored permit of its own `Notify`. */
  datatype Turn = Turn(thread: Thread, permit: bool, phase: Phase)

  /** `owner` is `pending_turns`, a handle being known by the number of its turn. */
  datatype Registry = Registry(owner: map<Thread, nat>, turns: seq<Turn>)

  const EMPTY := Registry(map[], [])

  /** What the pump finds beside the handle when it is polled: nothing, a line that
      is forwarded, a line that ends the turn (the sidecar's `agent_end`, rejected
      credentials, or one that cannot be forwarded), or the end of the stream. */
  datatype Input = Quiet | Line | LastLine | Eof

  datatype Event =
    | Register(thread: Thread)
    | Cancel(thread: Thread)
    | Poll(turn: nat, input: Input)
    | Fail(turn: nat)
    | Deregister(turn: nat, thread: Thread)

  predicate Enabled(r: Registry, e: Event) {
    match e
    case Register(_) => true
    case Cancel(_) => true
    case Poll(t, _) => t < |r.turns| && r.turns[t].phase.Running?
    case Fail(t) => t < |r.turns| && r.turns[t].phase.Running?
    case Deregister(t, th) => t < |r.turns| && r.turns[t].phase.Finished? && r.turns[t].thread == th
  }

  /** The select is biased: a stored permit wins over a line or an end of stream.
      `Deregister` removes by thread, whoever's entry that is. */
  function Step(r: Registry, e: Event): Registry
    requires Enabled(r, e)
  {
    match e
    case Register(th) => Registry(r.owner[th := |r.turns|], r.turns + [Turn(th, false, Running)])
    case Cancel(th) =>
      if th in r.owner && r.owner[th] < |r.turns| then
        r.(turns := r.turns[r.owner[th] := r.turns[r.owner[th]].(permit := true)])
      else r
    case Poll(t, input) =>
      if r.turns[t].permit then r.(turns := r.turns[t := r.turns[t].(permit := false, phase := Finished(Cancelled))])
      else if input.LastLine? then r.(turns := r.turns[t := r.turns[t].(phase := Finished(Reported))])
      else if input.Eof? then r.(turns := r.turns[t := r.turns[t].(phase := Finished(StreamEnded))])
      else r
    case Fail(t) => r.(turns := r.turns[t := r.turns[t].(phase := Finished(Failed))])
    case Deregister(t, th) =>
      Registry(r.owner - {th}, r.turns[t := r.turns[t].(phase := Gone(r.turns[t].phase.end))])
  }

  ghost predicate IsRun(events: seq<Event>)
    decreases |events|, 0
  {
    events == []
    || (IsRun(events[..|events| - 1]) && Enabled(After(events[..|events| - 1]), events[|events| - 1]))
  }

  ghost function After(events: seq<Event>): Registry
    requires IsRun(events)
    decreases |events|, 1
  {
    if events == [] then EMPTY else Step(After(events[..|events| - 1]), events[|events| - 1])
  }

  /** An entry always leads to a turn of its own thread that has not left yet. */
  ghost predicate Inv(r: Registry) {
    forall th | th in r.owner ::
      r.owner[th] < |r.turns| && r.turns[r.owner[th]].thread == th && !r.turns[r.owner[th]].phase.Gone?
  }

  lemma StepKeepsInv(r: Registry, e: Event)
    requires Inv(r) && Enabled(r, e)
    ensures Inv(Step(r, e))
  {
  }

  lemma {:induction false} RunKeepsInv(events: seq<Event>)
    requires IsRun(events)
    ensures Inv(After(events))
  {
    if events != [] {
      RunKeepsInv(events[..|events| - 1]);
      StepKeepsInv(After(events[..|events| - 1]), events[|events| - 1]);
    }
  }

  // ---- which handle an entry is, read off the events alone ----

  function Registrations(events: seq<Event>): nat {
    if events == [] then 0
    else Registrations(events[..|events| - 1]) + (if events[|events| - 1].Register? then 1 else 0)
  }

  lemma {:induction false} RegistrationsCount(events: seq<Event>)
    requires IsRun(events)
    ensures |After(events).turns| == Registrations(events)
  {
    if events != [] {
      RegistrationsCount(events[..|events| - 1]);
    }
  }

  /** `events[i]` is the registration of turn `t` on thread `th`. */
  ghost predicate RegisteredAt(events: seq<Event>, t: nat, th: Thread, i: nat) {
    i < |events| && events[i] == Register(th) && Registrations(events[..i]) == t
  }

  /** The event inserts or removes the entry of thread `th`. */
  predicate Touches(e: Event, th: Thread) {
    e == Register(th) || (e.Deregister? && e.thread == th)
  }

  /** `events[i]` registered turn `t` on `th`, and nothing after it touched the entry. */
  ghost predicate LastRegisteredAt(events: seq<Event>, th: Thread, t: nat, i: nat) {
    && RegisteredAt(events, t, th, i)
    && forall j | i < j < |events| :: !Touches(events[j], th)
  }

  ghost predicate LastRegistered(events: seq<Event>, th: Thread, t: nat) {
    exists i: nat :: LastRegisteredAt(events, th, t, i)
  }

  lemma TurnsGrow(r: Registry, e: Event)
    requires Enabled(r, e)
    ensures |r.turns| <= |Step(r, e).turns|
    ensures forall t | 0 <= t < |r.turns| :: Step(r, e).turns[t].thread == r.turns[t].thread
  {
  }

  lemma LastRegisteredStep(front: seq<Event>, e: Event, th: Thread, t: nat)
    ensures LastRegistered(front + [e], th, t)
       <==> if Touches(e, th) then e == Register(th) && t == Registrations(front)
            else LastRegistered(front, th, t)
  {
    var events := front + [e];
    assert events[..|front|] == front;
    forall i: nat | i < |front| ensures events[..i] == front[..i] {
    }
    if LastRegistered(events, th, t) {
      var i: nat :| LastRegisteredAt(events, th, t, i);
      assert i < |front| && !Touches(e, th) ==> LastRegisteredAt(front, th, t, i);
      assert Touches(events[|front|], th) ==> i == |front|;
    }
    if Touches(e, th) {
      if e == Register(th) && t == Registrations(front) {
        assert LastRegisteredAt(events, th, t, |front|);
      }
    } else if LastRegistered(front, th, t) {
      var i: nat :| LastRegisteredAt(front, th, t, i);
      assert LastRegisteredAt(events, th, t, i);
    }
  }

  /** For every run, overlapping turns included: a cancel reaches turn `t` exactly
      when the last insertion or removal on the thread was `t`'s registration. */
  lemma {:induction false} OwnerIsLastRegistered(events: seq<Event>, th: Thread, t: nat)
    requires IsRun(events)
    ensures th in After(events).owner && After(events).owner[th] == t <==> LastRegistered(events, th, t)
  {
    if events != [] {
      var front, last := events[..|events| - 1], events[|events| - 1];
      OwnerIsLastRegistered(front, th, t);
      RegistrationsCount(front);
      assert events == front + [last];
      LastRegisteredStep(front, last, th, t);
    }
  }

  /** A cancel changes one stored permit, that of the thread's entry, and nothing
      when there is no entry. */
  lemma CancelReachesOwner(events: seq<Event>, th: Thread, t: nat)
    requires IsRun(events) && t < |After(events).turns|
    ensures IsRun(events + [Cancel(th)])
    ensures var r, s := After(events), After(events + [Cancel(th)]);
            && s.owner == r.owner && |s.turns| == |r.turns|
            && s.turns[t] == r.turns[t].(permit := r.turns[t].permit || LastRegistered(events, th, t))
  {
    assert (events + [Cancel(th)])[..|events|] == events;
    RunKeepsInv(events);
    OwnerIsLastRegistered(events, th, t);
  }

  // ---- at most one turn per thread ----

  /** The caller never sends on a thread whose turn has not left yet. */
  ghost predicate OneTurnPerThread(events: seq<Event>)
    requires IsRun(events)
  {
    events == []
    || (OneTurnPerThread(events[..|events| - 1])
        && MaySend(After(events[..|events| - 1]), events[|events| - 1]))
  }

  predicate MaySend(r: Registry, e: Event) {
    e.Register? ==> forall t | 0 <= t < |r.turns| :: r.turns[t].thread == e.thread ==> r.turns[t].phase.Gone?
  }

  /** Entries and turns that have not left are then the same thing. */
  ghost predicate Exclusive(r: Registry) {
    forall t | 0 <= t < |r.turns| ::
      !r.turns[t].phase.Gone? <==> r.turns[t].thread in r.owner && r.owner[r.turns[t].thread] == t
  }

  lemma ExclusiveStep(r: Registry, e: Event)
    requires Inv(r) && Exclusive(r) && Enabled(r, e)
    requires MaySend(r, e)
    ensures Exclusive(Step(r, e))
  {
  }

  lemma {:induction false} ExclusiveRun(events: seq<Event>)
    requires IsRun(events) && OneTurnPerThread(events)
    ensures Exclusive(After(events))
  {
    if events != [] {
      var front := events[..|events| - 1];
      ExclusiveRun(front);
      RunKeepsInv(front);
      ExclusiveStep(After(front), events[|events| - 1]);
    }
  }

  /** A cancel on the turn's thread came after the turn registered. */
  predicate CancelSince(events: seq<Event>, t: nat, th: Thread) {
    events != [] &&
    (CancelSince(events[..|events| - 1], t, th)
     || (events[|events| - 1] == Cancel(th) && t < Registrations(events[..|events| - 1])))
  }

  /** The turn's fate as the events tell it: while it runs, the permit is there
      exactly when a cancel came since it registered; the first poll after that
      ends it as cancelled, and only such a poll does. */
  ghost predicate FateTold(events: seq<Event>, t: nat)
    requires IsRun(events) && t < |After(events).turns|
  {
    var u := After(events).turns[t];
    && (u.phase.Running? ==> (u.permit <==> CancelSince(events, t, u.thread)))
    && (!u.phase.Running? && u.phase.end.Cancelled? ==> CancelSince(events, t, u.thread))
  }

  lemma {:induction false} NoCancelBefore(events: seq<Event>, t: nat, th: Thread)
    requires Registrations(events) <= t
    ensures !CancelSince(events, t, th)
  {
    if events != [] {
      NoCancelBefore(events[..|events| - 1], t, th);
    }
  }

  lemma CancelSinceSnoc(front: seq<Event>, e: Event, t: nat, th: Thread)
    ensures CancelSince(front + [e], t, th)
       <==> CancelSince(front, t, th) || (e == Cancel(th) && t < Registrations(front))
  {
    assert (front + [e])[..|front|] == front;
  }

  /** What a step does to one turn: a running turn has a permit when it had one or
      is cancelled now, and ends as cancelled only on a permit it had. */
  lemma TurnStep(r: Registry, e: Event, t: nat)
    requires Inv(r) && Exclusive(r) && Enabled(r, e) && t < |r.turns|
    ensures t < |Step(r, e).turns|
    ensures var u, v := r.turns[t], Step(r, e).turns[t];
            && v.thread == u.thread
            && (v.phase.Running? ==> u.phase.Running? && (v.permit <==> u.permit || e == Cancel(u.thread)))
            && (!v.phase.Running? && v.phase.end.Cancelled? ==>
                  if u.phase.Running? then u.permit else u.phase.end.Cancelled?)
  {
  }

  lemma FateStep(front: seq<Event>, e: Event, t: nat)
    requires IsRun(front + [e]) && IsRun(front) && Enabled(After(front), e) && t < |After(front).turns|
    requires After(front + [e]) == Step(After(front), e)
    requires FateTold(front, t) && Inv(After(front)) && Exclusive(After(front))
    requires |After(front).turns| == Registrations(front)
    ensures t < |After(front + [e]).turns| && FateTold(front + [e], t)
  {
    TurnStep(After(front), e, t);
    CancelSinceSnoc(front, e, t, After(front).turns[t].thread);
  }

  lemma {:induction false} FateIsTold(events: seq<Event>, t: nat)
    requires IsRun(events) && OneTurnPerThread(events) && t < |After(events).turns|
    ensures FateTold(events, t)
  {
    var front, last := events[..|events| - 1], events[|events| - 1];
    RegistrationsCount(front);
    TurnsGrow(After(front), last);
    RunKeepsInv(front);
    ExclusiveRun(front);
    if t < |After(front).turns| {
      FateIsTold(front, t);
      FateStep(front, last, t);
    } else {
      NoCancelBefore(front, t, last.thread);
    }
  }

  /** Cancel safety: with one turn per thread, a cancel while turn `t` is between
      its registration and its removal stores `t`'s permit, whether or not the
      pump has started to wait, and changes no other turn. */
  lemma CancelHitsExactlyTheTurn(events: seq<Event>, t: nat)
    requires IsRun(events) && OneTurnPerThread(events) && t < |After(events).turns|
    requires !After(events).turns[t].phase.Gone?
    ensures var r := After(events);
            Step(r, Cancel(r.turns[t].thread)) == r.(turns := r.turns[t := r.turns[t].(permit := true)])
  {
    ExclusiveRun(events);
  }

  /** Any other cancel is a no-op; this half needs no assumption on overlaps. */
  lemma OtherCancelsAreNoOps(events: seq<Event>, th: Thread)
    requires IsRun(events)
    requires forall t | 0 <= t < |After(events).turns| ::
               After(events).turns[t].thread == th ==> After(events).turns[t].phase.Gone?
    ensures Step(After(events), Cancel(th)) == After(events)
  {
    RunKeepsInv(events);
  }

  /** The outcome of a poll, for every run with one turn per thread: cancelled
      exactly when a cancel came since the turn registered, even when a line or
      the end of the stream is ready too. */
  lemma PollOutcome(events: seq<Event>, t: nat, input: Input)
    requires IsRun(events) && OneTurnPerThread(events) && Enabled(After(events), Poll(t, input))
    ensures var u, v := After(events).turns[t], Step(After(events), Poll(t, input)).turns[t];
            && (v.phase == Finished(Cancelled) <==> CancelSince(events, t, u.thread))
            && (v.phase == Finished(Reported) <==> !CancelSince(events, t, u.thread) && input.LastLine?)
            && (v.phase == Finished(StreamEnded) <==> !CancelSince(events, t, u.thread) && input.Eof?)
            && (v.phase == Running <==> !CancelSince(events, t, u.thread) && (input.Quiet? || input.Line?))
  {
    FateIsTold(events, t);
  }

  lemma Extend(front: seq<Event>, e: Event) returns (run: seq<Event>)
    requires IsRun(front) && Enabled(After(front), e)
    ensures run == front + [e] && IsRun(run) && After(run) == Step(After(front), e)
    ensures OneTurnPerThread(run) ==> OneTurnPerThread(front) && MaySend(After(front), e)
  {
    run := front + [e];
    assert run[..|front|] == front;
  }

  /** Two turns of one thread under way at once. */
  lemma SentTwice(th: Thread) returns (run: seq<Event>)
    ensures run == [Register(th), Register(th)] && IsRun(run) && !OneTurnPerThread(run)
    ensures After(run) == Registry(map[th := 1], [Turn(th, false, Running), Turn(th, false, Running)])
  {
    run := Extend([], Register(th));
    assert After(run) == Registry(map[th := 0], [Turn(th, false, Running)]);
    assert After(run).turns[0].thread == th;
    run := Extend(run, Register(th));
  }

  /** Without that assumption it fails: the first turn's removal takes away the
      second turn's entry, and a cancel no longer reaches the turn that runs. */
  lemma OverlapLosesCancel(th: Thread) returns (run: seq<Event>)
    ensures run == [Register(th), Register(th), Poll(0, LastLine), Deregister(0, th)]
    ensures IsRun(run) && !OneTurnPerThread(run)
    ensures |After(run).turns| == 2 && After(run).turns[1].phase == Running
    ensures Step(After(run), Cancel(th)) == After(run)
  {
    var turn := Turn(th, false, Running);
    var sent := SentTwice(th);
    var polled := Extend(sent, Poll(0, LastLine));
    assert After(polled) == Registry(map[th := 1], [turn.(phase := Finished(Reported)), turn]);
    run := Extend(polled, Deregister(0, th));
    assert After(run) == Registry(map[], [turn.(phase := Gone(Reported)), turn]);
  }

  // ---- the objects ----

  class Notify {
    var permit: bool

    constructor ()
      ensures !permit
    {
      permit := false;
    }

    method NotifyOne()
      modifies this
      ensures permit
    {
      permit := true;
    }
  }

  class PendingTurns {
    var pending: map<Thread, Notify>
    ghost var handles: seq<Notify>
    ghost var registry: Registry

    /** The objects stand for the registry: one handle object per turn. */
    ghost predicate Valid()
      reads this, handles
    {
      && Inv(registry) && |handles| == |registry.turns| && NoRepeats(handles)
      && (forall t | 0 <= t < |handles| :: handles[t].permit == registry.turns[t].permit)
      && pending.Keys == registry.owner.Keys
      && (forall th | th in pending :: pending[th] == handles[registry.owner[th]])
    }

    constructor ()
      ensures Valid() && registry == EMPTY
    {
      pending, handles, registry := map[], [], EMPTY;
    }

    method Insert(thread: Thread) returns (cancelSignal: Notify)
      requires Valid()
      modifies this
      ensures Valid() && registry == Step(old(registry), Register(thread))
      ensures fresh(cancelSignal) && handles == old(handles) + [cancelSignal]
    {
      cancelSignal := new Notify();
      pending := pending[thread := cancelSignal];
      handles := handles + [cancelSignal];
      registry := Step(registry, Register(thread));
    }

    method Signal(thread: Thread)
      requires Valid()
      modifies this`registry, handles
      ensures Valid() && handles == old(handles) && registry == Step(old(registry), Cancel(thread))
    {
      if thread in pending {
        pending[thread].NotifyOne();
      }
      registry := Step(registry, Cancel(thread));
    }

    method Remove(ghost turn: nat, thread: Thread)
      requires Valid() && Enabled(registry, Deregister(turn, thread))
      modifies this
      ensures Valid() && handles == old(handles) && registry == Step(old(registry), Deregister(turn, thread))
    {
      pending := pending - {thread};
      StepKeepsInv(registry, Deregister(turn, thread));
      registry := Step(registry, Deregister(turn, thread));
    }

    /** One iteration of the pump: true when the turn was cancelled. */
    method Select(ghost turn: nat, cancelSignal: Notify, input: Input) returns (cancelled: bool)
      requires Valid() && Enabled(registry, Poll(turn, input)) && handles[turn] == cancelSignal
      modifies this`registry, cancelSignal
      ensures Valid() && handles == old(handles) && registry == Step(old(registry), Poll(turn, input))
      ensures cancelled <==> registry.turns[turn].phase == Finished(Cancelled)
    {
      cancelled := cancelSignal.permit;
      if cancelled {
        cancelSignal.permit := false;
      }
      StepKeepsInv(registry, Poll(turn, input));
      registry := Step(registry, Poll(turn, input));
    }
  }

  // ---- the end of a turn, read off the events ----

  /** How turn `t` on thread `th` ended: by the first failure or ending poll, which is a
      cancel when one came since the turn registered. */
  function EndTold(events: seq<Event>, t: nat, th: Thread): Option<End> {
    if events == [] then None
    else
      var front := events[..|events| - 1];
      if EndTold(front, t, th).Some? then EndTold(front, t, th)
      else
        match events[|events| - 1]
        case Fail(u) => if u == t then Some(Failed) else None
        case Poll(u, input) =>
          if u != t then None
          else if CancelSince(front, t, th) then Some(Cancelled)
          else if input.LastLine? then Some(Reported)
          else if input.Eof? then Some(StreamEnded)
          else None
        case _ => None
  }

  ghost predicate EndIsTold(events: seq<Event>, t: nat)
    requires IsRun(events) && t < |After(events).turns|
  {
    var u := After(events).turns[t];
    && (u.phase.Running? <==> EndTold(events, t, u.thread) == None)
    && (!u.phase.Running? ==> EndTold(events, t, u.thread) == Some(u.phase.end))
    && (u.phase.Gone? <==> Deregister(t, u.thread) in events)
  }

  /** A step seen from a turn that is there already. */
  lemma PhaseStep(r: Registry, e: Event, t: nat)
    requires Enabled(r, e) && t < |r.turns|
    ensures t < |Step(r, e).turns|
    ensures var u, v := r.turns[t], Step(r, e).turns[t];
            && v.thread == u.thread
            && v.phase == match e
                          case Fail(x) => if x == t then Finished(Failed) else u.phase
                          case Poll(x, input) =>
                            if x != t then u.phase
                            else if u.permit then Finished(Cancelled)
                            else if input.LastLine? then Finished(Reported)
                            else if input.Eof? then Finished(StreamEnded)
                            else u.phase
                          case Deregister(x, _) => if x == t then Gone(u.phase.end) else u.phase
                          case _ => u.phase
    ensures var u, v := r.turns[t], Step(r, e).turns[t];
            v.permit <==> match e
                          case Cancel(th) => u.permit || (th in r.owner && r.owner[th] == t)
                          case Poll(x, _) => u.permit && x != t
                          case _ => u.permit
  {
  }

  lemma {:induction false} NothingTold(events: seq<Event>, t: nat, th: Thread)
    requires IsRun(events) && |After(events).turns| <= t
    ensures EndTold(events, t, th) == None && Deregister(t, th) !in events
  {
    if events != [] {
      var front := events[..|events| - 1];
      TurnsGrow(After(front), events[|events| - 1]);
      NothingTold(front, t, th);
      FrontAndLast(events);
    }
  }

  /** With one turn per thread, every turn ends as its own events say, once and for
      all, and has left exactly when it was removed. */
  lemma {:induction false} TurnEndExact(events: seq<Event>, t: nat)
    requires IsRun(events) && OneTurnPerThread(events) && t < |After(events).turns|
    ensures EndIsTold(events, t)
  {
    var front, e := events[..|events| - 1], events[|events| - 1];
    FrontAndLast(events);
    TurnsGrow(After(front), e);
    if t < |After(front).turns| {
      TurnEndExact(front, t);
      FateIsTold(front, t);
      PhaseStep(After(front), e, t);
      DeregisterStep(front, e, t, After(front).turns[t].thread);
    } else {
      NothingTold(front, t, e.thread);
    }
  }

  lemma DeregisterStep(front: seq<Event>, e: Event, t: nat, th: Thread)
    ensures Deregister(t, th) in front + [e] <==> Deregister(t, th) in front || e == Deregister(t, th)
  {
  }

  /** A new turn runs, without a permit, on the thread it was sent on, and every
      registered thread leads to a turn of its own. */
  lemma NewTurn(events: seq<Event>, th: Thread)
    requires IsRun(events)
    ensures IsRun(events + [Register(th)])
    ensures var r, s := After(events), After(events + [Register(th)]);
            s.turns == r.turns + [Turn(th, false, Running)] && th in s.owner && s.owner[th] == |r.turns|
  {
    assert (events + [Register(th)])[..|events|] == events;
  }

  lemma OneMore(events: seq<Event>, e: Event)
    requires IsRun(events)
    ensures IsRun(events + [e]) <==> Enabled(After(events), e)
    ensures IsRun(events + [e]) ==> After(events + [e]) == Step(After(events), e)
  {
    assert (events + [e])[..|events|] == events;
  }

  /** No turn is stuck: while it runs it can fail at any time, and once it has ended it
      can leave, after which it is gone with the end it had. */
  lemma EveryTurnCanLeave(events: seq<Event>, t: nat)
    requires IsRun(events) && t < |After(events).turns|
    ensures var turn := After(events).turns[t];
            match turn.phase
            case Running =>
              var more := events + [Fail(t)] + [Deregister(t, turn.thread)];
              IsRun(more) && t < |After(more).turns| && After(more).turns[t].phase == Gone(Failed)
            case Finished(end) =>
              var more := events + [Deregister(t, turn.thread)];
              IsRun(more) && t < |After(more).turns| && After(more).turns[t].phase == Gone(end)
            case Gone(_) =>
              !IsRun(events + [Fail(t)]) && !IsRun(events + [Deregister(t, turn.thread)])
  {
    var turn := After(events).turns[t];
    var fail, leave := Fail(t), Deregister(t, turn.thread);
    OneMore(events, fail);
    OneMore(events, leave);
    if turn.phase.Running? {
      OneMore(events + [fail], leave);
    }
  }
}
