/** One sidecar run: translating agent events to the wire, mirroring turns into
    the session log, settling the finish reason, and the entry point around it. */
module AgentRunnerModel {
  import opened Sequences

  datatype StopReason = Stop | Length | CallsTool | StoppedAborted | StoppedError

  datatype FinishReason = EndTurn | ToolUse | Refusal | Error | Cancelled

  datatype Role = User | Assistant | ToolResult

  datatype Message = Message(role: Role, text: string, stopReason: Option<StopReason>)

  /** What pi-ai left behind for a turn that stopped on an error. */
  datatype Upstream = Upstream(status: Option<nat>, message: string)

  /** `Passed` stands for the deltas and tool events that are passed on one for
      one, `Ignored` for those that emit nothing. In `TurnEnd`, `accepts` is how
      many appends the session takes before it throws. */
  datatype AgentEvent =
    | AgentStart
    | TurnStart
    | Passed(wire: string)
    | Ignored
    | TurnEnd(message: Message, results: seq<Message>, accepts: nat, upstream: Upstream)
    | AgentEnd(messages: seq<Message>)

  datatype Wire =
    | WireAgentStart
    | WireTurnStart(turnIndex: nat)
    | WirePassed(wire: string)
    | WireTurnEnd(message: Message, results: seq<Message>)
    | WireCompaction(note: CompactionNote)
    | WireError(code: string, recoverable: bool)
    | WireAgentEnd(reason: FinishReason)

  /** What a compaction pass reports: that it started, ended, or failed recoverably. */
  datatype CompactionNote = Started | Ended | Failed

  datatype Captured = Captured(message: string, code: string)

  /** A happening while the prompt runs: an agent event, or a cancel from the control stream. */
  datatype Happening = FromAgent(event: AgentEvent) | Cancel

  datatype Runner = Runner(
    turnIndex: nat,
    finishReason: FinishReason,
    upstreamError: Option<Captured>,
    log: seq<Message>,
    emitted: seq<Wire>)

  function MapStopReason(stopReason: Option<StopReason>, fallback: FinishReason): FinishReason {
    if fallback == Cancelled then Cancelled
    else
      match stopReason
      case Some(Stop) => EndTurn
      case Some(Length) => EndTurn
      case Some(CallsTool) => ToolUse
      case Some(StoppedAborted) => Cancelled
      case Some(StoppedError) => Error
      case None => fallback
  }

  /** The stop reason of the last assistant message, if there is one. */
  function LastStop(messages: seq<Message>): Option<StopReason> {
    if messages == [] then None
    else if messages[|messages| - 1].role == Assistant then messages[|messages| - 1].stopReason
    else LastStop(messages[..|messages| - 1])
  }

  /** The messages a turn mirrors into the log, in order. */
  function TurnMessages(e: AgentEvent): seq<Message>
    requires e.TurnEnd?
  {
    [e.message] + e.results
  }

  /** The part of them the session accepted. */
  function Accepted(e: AgentEvent): seq<Message>
    requires e.TurnEnd?
  {
    var all := TurnMessages(e);
    if e.accepts <= |all| then all[..e.accepts] else all
  }

  function Capture(e: AgentEvent): Captured
    requires e.TurnEnd?
  {
    Captured(e.upstream.message, if e.upstream.status == Some(401) then "auth_failed" else "upstream_error")
  }

  function OnAgentEvent(r: Runner, e: AgentEvent): Runner {
    match e
    case AgentStart => r.(emitted := r.emitted + [WireAgentStart])
    case TurnStart => r.(emitted := r.emitted + [WireTurnStart(r.turnIndex)], turnIndex := r.turnIndex + 1)
    case Passed(wire) => r.(emitted := r.emitted + [WirePassed(wire)])
    case Ignored => r
    case TurnEnd(message, results, _, _) =>
      r.(upstreamError := if message.stopReason == Some(StoppedError) then Some(Capture(e)) else r.upstreamError,
         log := r.log + Accepted(e),
         emitted := r.emitted + [WireTurnEnd(message, results)])
    case AgentEnd(messages) => r.(finishReason := MapStopReason(LastStop(messages), r.finishReason))
  }

  function Handle(r: Runner, h: Happening): Runner {
    if h.Cancel? then r.(finishReason := Cancelled) else OnAgentEvent(r, h.event)
  }

  function HandleAll(r: Runner, hs: seq<Happening>): Runner {
    if hs == [] then r else Handle(HandleAll(r, hs[..|hs| - 1]), hs[|hs| - 1])
  }

  /** Everything a run meets outside. `during` lists what arrives while the
      compaction is awaited: the agent is unsubscribed by then, so each entry
      only says whether it is a cancel. */
  datatype Script = Script(
    setupThrows: bool,
    userAccepted: bool,
    happenings: seq<Happening>,
    promptThrows: bool,
    shutdownThrows: bool,
    mocked: bool,
    hasCompactionModel: bool,
    persisted: bool,
    compaction: seq<CompactionNote>,
    compactionThrows: bool,
    during: seq<bool>)

  function Opened(log: seq<Message>): Runner {
    Runner(0, EndTurn, None, log, [])
  }

  /** The state when the prompt and its clean-up are over. */
  function Prompted(log: seq<Message>, user: Message, s: Script): Runner {
    HandleAll(Opened(if s.userAccepted then log + [user] else log), s.happenings)
  }

  predicate CompactionGate(s: Script, reason: FinishReason) {
    !s.mocked && s.hasCompactionModel && s.persisted && reason != Cancelled && reason != Error
  }

  /** An exception escapes from the awaited compaction, for instance out of reading the log. */
  predicate CompactionEscapes(s: Script, reason: FinishReason) {
    CompactionGate(s, reason) && s.compactionThrows
  }

  function CompactionWires(notes: seq<CompactionNote>): (r: seq<Wire>) {
    if notes == [] then []
    else CompactionWires(notes[..|notes| - 1]) + [WireCompaction(notes[|notes| - 1])]
  }

  /** The reason that is emitted: the one the prompt left, unless a cancel
      arrived while a compaction was under way. */
  function FinalReason(r: Runner, s: Script): FinishReason {
    if CompactionGate(s, r.finishReason) && true in s.during then Cancelled else r.finishReason
  }

  function UpstreamWires(r: Runner, final: FinishReason): seq<Wire> {
    if final == Error && r.upstreamError.Some?
    then [WireError(r.upstreamError.value.code, r.upstreamError.value.code == "auth_failed")] else []
  }

  /** What a run emits after its prompt. */
  function Ending(r: Runner, s: Script): seq<Wire> {
    (if CompactionGate(s, r.finishReason) then CompactionWires(s.compaction) else [])
    + UpstreamWires(r, FinalReason(r, s))
    + [WireAgentEnd(FinalReason(r, s))]
  }

  function Finished(r: Runner, s: Script): Runner {
    r.(finishReason := FinalReason(r, s), emitted := r.emitted + Ending(r, s))
  }

  // ---- finish reason ----

  /** A cancel is sticky: no later event or stop reason replaces it. */
  lemma {:induction false} CancelIsSticky(r: Runner, hs: seq<Happening>)
    requires r.finishReason == Cancelled || Cancel in hs
    ensures HandleAll(r, hs).finishReason == Cancelled
  {
    if hs != [] {
      var front, last := hs[..|hs| - 1], hs[|hs| - 1];
      assert hs == front + [last];
      if r.finishReason == Cancelled || Cancel in front {
        CancelIsSticky(r, front);
      }
    }
  }

  /** The stop reasons of the `agent_end` events, in order. */
  function Stops(hs: seq<Happening>): seq<StopReason> {
    if hs == [] then []
    else
      var last := hs[|hs| - 1];
      Stops(hs[..|hs| - 1])
      + (if last.FromAgent? && last.event.AgentEnd? && LastStop(last.event.messages).Some?
         then [LastStop(last.event.messages).value] else [])
  }

  lemma StopsStep(r: Runner, front: seq<Happening>, last: Happening)
    requires last.FromAgent?
    ensures var stops, reason := Stops(front + [last]), r.finishReason;
            || (stops == Stops(front) && Handle(r, last).finishReason == reason)
            || exists s :: stops == Stops(front) + [s] && Handle(r, last).finishReason == MapStopReason(Some(s), reason)
  {
    assert (front + [last])[..|front|] == front;
    if last.event.AgentEnd? && LastStop(last.event.messages).Some? {
      var s := LastStop(last.event.messages).value;
      assert Stops(front + [last]) == Stops(front) + [s];
    }
  }

  /** Without a cancel, the run is cancelled iff some stop was an abort, and
      otherwise finishes as its last stop says. */
  lemma {:induction false} FinishReasonExact(r: Runner, hs: seq<Happening>)
    requires r.finishReason == EndTurn && Cancel !in hs
    ensures var stops := Stops(hs);
            HandleAll(r, hs).finishReason ==
            if StoppedAborted in stops then Cancelled
            else if stops == [] then EndTurn
            else MapStopReason(Some(stops[|stops| - 1]), EndTurn)
  {
    if hs != [] {
      var front, last := hs[..|hs| - 1], hs[|hs| - 1];
      assert hs == front + [last];
      FinishReasonExact(r, front);
      StopsStep(HandleAll(r, front), front, last);
    }
  }

  // ---- session log and turn indices ----

  /** What the turns of a run mirror into the log. */
  function Mirrored(hs: seq<Happening>): seq<Message> {
    if hs == [] then []
    else
      var last := hs[|hs| - 1];
      Mirrored(hs[..|hs| - 1]) + (if last.FromAgent? && last.event.TurnEnd? then Accepted(last.event) else [])
  }

  lemma {:induction false} LogFollowsTurns(r: Runner, hs: seq<Happening>)
    ensures HandleAll(r, hs).log == r.log + Mirrored(hs)
  {
    if hs == [] {
      assert r.log + [] == r.log;
    } else {
      var front, last := hs[..|hs| - 1], hs[|hs| - 1];
      LogFollowsTurns(r, front);
      LogStep(HandleAll(r, front), last);
    }
  }

  lemma LogStep(r: Runner, h: Happening)
    ensures Handle(r, h).log == r.log + (if h.FromAgent? && h.event.TurnEnd? then Accepted(h.event) else [])
  {
  }

  /** Turn by turn, the assistant message and then its tool results in order. */
  function WholeTurns(hs: seq<Happening>): seq<Message> {
    if hs == [] then []
    else
      var last := hs[|hs| - 1];
      WholeTurns(hs[..|hs| - 1])
      + (if last.FromAgent? && last.event.TurnEnd? then [last.event.message] + last.event.results else [])
  }

  predicate NoAppendFails(hs: seq<Happening>) {
    forall i | 0 <= i < |hs| ::
      hs[i].FromAgent? && hs[i].event.TurnEnd? ==> hs[i].event.accepts >= 1 + |hs[i].event.results|
  }

  lemma {:induction false} MirroredWhole(hs: seq<Happening>)
    requires NoAppendFails(hs)
    ensures Mirrored(hs) == WholeTurns(hs)
  {
    if hs != [] {
      MirroredWhole(hs[..|hs| - 1]);
    }
  }

  /** Without append failures the log after the turns is the old log, the user
      message, and the whole turns; each failure only shortens its own turn. */
  lemma SessionLogExact(log: seq<Message>, user: Message, s: Script)
    ensures Prompted(log, user, s).log == (if s.userAccepted then log + [user] else log) + Mirrored(s.happenings)
    ensures s.userAccepted && NoAppendFails(s.happenings) ==>
              Prompted(log, user, s).log == log + [user] + WholeTurns(s.happenings)
  {
    LogFollowsTurns(Opened(if s.userAccepted then log + [user] else log), s.happenings);
    if NoAppendFails(s.happenings) {
      MirroredWhole(s.happenings);
    }
  }

  function TurnStarts(ws: seq<Wire>): seq<nat> {
    if ws == [] then []
    else
      TurnStarts(ws[..|ws| - 1]) + (if ws[|ws| - 1].WireTurnStart? then [ws[|ws| - 1].turnIndex] else [])
  }

  function EndsOf(ws: seq<Wire>): nat {
    if ws == [] then 0 else EndsOf(ws[..|ws| - 1]) + (if ws[|ws| - 1].WireAgentEnd? then 1 else 0)
  }

  lemma WireAppend(ws: seq<Wire>, w: Wire)
    ensures TurnStarts(ws + [w]) == TurnStarts(ws) + (if w.WireTurnStart? then [w.turnIndex] else [])
    ensures EndsOf(ws + [w]) == EndsOf(ws) + (if w.WireAgentEnd? then 1 else 0)
  {
  }

  ghost predicate Counting(r: Runner) {
    && |TurnStarts(r.emitted)| == r.turnIndex
    && (forall i | 0 <= i < r.turnIndex :: TurnStarts(r.emitted)[i] == i)
    && EndsOf(r.emitted) == 0
  }

  lemma HandleKeepsCounting(r: Runner, h: Happening)
    requires Counting(r)
    ensures Counting(Handle(r, h))
  {
    if h.FromAgent? {
      match h.event {
        case AgentStart => WireAppend(r.emitted, WireAgentStart);
        case TurnStart => WireAppend(r.emitted, WireTurnStart(r.turnIndex));
        case Passed(wire) => WireAppend(r.emitted, WirePassed(wire));
        case TurnEnd(message, results, _, _) => WireAppend(r.emitted, WireTurnEnd(message, results));
        case _ =>
      }
    }
  }

  /** The emitted turn indices are 0, 1, 2, ..., and no end has been emitted. */
  lemma {:induction false} TurnIndicesCount(r: Runner, hs: seq<Happening>)
    requires Counting(r)
    ensures Counting(HandleAll(r, hs))
  {
    if hs != [] {
      TurnIndicesCount(r, hs[..|hs| - 1]);
      HandleKeepsCounting(HandleAll(r, hs[..|hs| - 1]), hs[|hs| - 1]);
    }
  }

  // ---- the run ----

  class AgentRunner {
    var turnIndex: nat
    var finishReason: FinishReason
    var upstreamError: Option<Captured>
    var log: seq<Message>
    var emitted: seq<Wire>

    ghost function State(): Runner
      reads this
    {
      Runner(turnIndex, finishReason, upstreamError, log, emitted)
    }

    constructor (log: seq<Message>)
      ensures State() == Opened(log)
    {
      turnIndex, finishReason, upstreamError, this.log, emitted := 0, EndTurn, None, log, [];
    }

    method Emit(w: Wire)
      modifies this`emitted
      ensures emitted == old(emitted) + [w]
    {
      emitted := emitted + [w];
    }

    method LastAssistantStop(messages: seq<Message>) returns (stop: Option<StopReason>)
      ensures stop == LastStop(messages)
    {
      var i := |messages| - 1;
      assert messages[..|messages|] == messages;
      while i >= 0
        invariant -1 <= i < |messages|
        invariant LastStop(messages) == LastStop(messages[..i + 1])
        decreases i
      {
        assert messages[..i + 1][..i] == messages[..i];
        if messages[i].role == Assistant {
          return messages[i].stopReason;
        }
        i := i - 1;
      }
      return None;
    }

    /** The appends of one turn, up to the one that throws. */
    method AppendTurn(e: AgentEvent)
      requires e.TurnEnd?
      modifies this`log
      ensures log == old(log) + Accepted(e)
    {
      var all := [e.message] + e.results;
      for i := 0 to |all|
        invariant i <= e.accepts
        invariant log == old(log) + all[..i]
      {
        if i == e.accepts {
          return;
        }
        log := log + [all[i]];
        assert all[..i] + [all[i]] == all[..i + 1];
      }
      assert all[..|all|] == all;
    }

    method OnEvent(e: AgentEvent)
      modifies this
      ensures State() == OnAgentEvent(old(State()), e)
    {
      match e {
        case AgentStart => Emit(WireAgentStart);
        case TurnStart =>
          Emit(WireTurnStart(turnIndex));
          turnIndex := turnIndex + 1;
        case Passed(wire) => Emit(WirePassed(wire));
        case Ignored =>
        case TurnEnd(message, results, _, upstream) =>
          if message.stopReason == Some(StoppedError) {
            var code := if upstream.status == Some(401) then "auth_failed" else "upstream_error";
            upstreamError := Some(Captured(upstream.message, code));
          }
          AppendTurn(e);
          Emit(WireTurnEnd(message, results));
        case AgentEnd(messages) =>
          var last := LastAssistantStop(messages);
          finishReason := MapStopReason(last, finishReason);
      }
    }

    method OnCancel()
      modifies this`finishReason
      ensures State() == old(State()).(finishReason := Cancelled)
    {
      finishReason := Cancelled;
    }

    /** Append the user message and drive the prompt. */
    method DrivePrompt(user: Message, userAccepted: bool, happenings: seq<Happening>)
      requires State() == Opened(log)
      modifies this
      ensures State() == HandleAll(Opened(if userAccepted then old(log) + [user] else old(log)), happenings)
    {
      if userAccepted {
        log := log + [user];
      }
      ghost var start := State();
      for i := 0 to |happenings|
        invariant State() == HandleAll(start, happenings[..i])
      {
        assert happenings[..i + 1][..i] == happenings[..i];
        match happenings[i] {
          case FromAgent(event) => OnEvent(event);
          case Cancel => OnCancel();
        }
      }
      assert happenings[..|happenings|] == happenings;
    }

    /** What follows the prompt: the gated compaction, the upstream error, the end. */
    method Finish(s: Script) returns (threw: bool)
      modifies this
      ensures threw <==> CompactionEscapes(s, old(finishReason))
      ensures threw ==> emitted == old(emitted) + CompactionWires(s.compaction)
      ensures !threw ==> State() == Finished(old(State()), s)
    {
      threw := false;
      ghost var before, gate := emitted, CompactionGate(s, finishReason);
      if !s.mocked && s.hasCompactionModel && s.persisted && finishReason != Cancelled && finishReason != Error {
        AwaitCompaction(s.compaction, s.during);
        if s.compactionThrows {
          return true;
        }
      } else {
        assert emitted == before + [];
      }
      ghost var notes := if gate then CompactionWires(s.compaction) else [];
      ghost var errors: seq<Wire> := [];
      if finishReason == Error && upstreamError.Some? {
        var w := WireError(upstreamError.value.code, upstreamError.value.code == "auth_failed");
        errors := [w];
        Emit(w);
      }
      assert emitted == before + notes + errors;
      Emit(WireAgentEnd(finishReason));
      assert before + notes + errors + [WireAgentEnd(finishReason)]
          == before + (notes + errors + [WireAgentEnd(finishReason)]);
    }

    /** The awaited compaction, with the cancels that arrive meanwhile. */
    method AwaitCompaction(notes: seq<CompactionNote>, during: seq<bool>)
      modifies this`emitted, this`finishReason
      ensures emitted == old(emitted) + CompactionWires(notes)
      ensures finishReason == if true in during then Cancelled else old(finishReason)
    {
      for i := 0 to |notes|
        invariant emitted == old(emitted) + CompactionWires(notes[..i]) && finishReason == old(finishReason)
      {
        assert notes[..i + 1][..i] == notes[..i];
        Emit(WireCompaction(notes[i]));
      }
      assert notes[..|notes|] == notes;
      for i := 0 to |during|
        invariant emitted == old(emitted) + CompactionWires(notes)
        invariant finishReason == if true in during[..i] then Cancelled else old(finishReason)
      {
        if during[i] {
          OnCancel();
        }
      }
      assert during[..|during|] == during;
    }
  }

  // ---- how a run ends ----

  lemma {:induction false} WiresConcat(a: seq<Wire>, b: seq<Wire>)
    ensures EndsOf(a + b) == EndsOf(a) + EndsOf(b)
  {
    if b == [] {
      assert a + b == a;
    } else {
      WiresConcat(a, b[..|b| - 1]);
      assert (a + b)[..|a + b| - 1] == a + b[..|b| - 1];
    }
  }

  lemma {:induction false} CompactionEmitsNoEnd(notes: seq<CompactionNote>)
    ensures EndsOf(CompactionWires(notes)) == 0
    ensures forall w | w in CompactionWires(notes) :: w.WireCompaction?
  {
    if notes != [] {
      CompactionEmitsNoEnd(notes[..|notes| - 1]);
      WireAppend(CompactionWires(notes[..|notes| - 1]), WireCompaction(notes[|notes| - 1]));
    }
  }

  lemma EndingEndsOnce(r: Runner, s: Script)
    ensures EndsOf(Ending(r, s)) == 1
  {
    var notes := if CompactionGate(s, r.finishReason) then CompactionWires(s.compaction) else [];
    var errors := UpstreamWires(r, FinalReason(r, s));
    CompactionEmitsNoEnd(s.compaction);
    WireAppend(notes + errors, WireAgentEnd(FinalReason(r, s)));
    WiresConcat(notes, errors);
    if errors != [] {
      assert errors[..0] == [];
    }
  }

  /** A finished run has emitted exactly one end, last, with its final reason.
      It compacted only if the prompt finished neither cancelled nor failed, and
      then the emitted reason differs from the one at the gate only by a cancel
      that came during the compaction. An upstream error is reported exactly
      when the run failed and one was captured. */
  lemma FinishedRun(r: Runner, s: Script)
    requires EndsOf(r.emitted) == 0
    ensures var t := Finished(r, s);
            && EndsOf(t.emitted) == 1 && t.emitted[|t.emitted| - 1] == WireAgentEnd(t.finishReason)
            && (t.finishReason != r.finishReason ==> t.finishReason == Cancelled && true in s.during)
            && (r.finishReason == Cancelled ==> t.finishReason == Cancelled)
  {
    WiresConcat(r.emitted, Ending(r, s));
    EndingEndsOnce(r, s);
  }

  lemma EndingReports(r: Runner, s: Script)
    ensures (exists n :: WireCompaction(n) in Ending(r, s))
       <==> CompactionGate(s, r.finishReason) && s.compaction != []
    ensures (exists w :: w in Ending(r, s) && w.WireError?)
       <==> FinalReason(r, s) == Error && r.upstreamError.Some?
  {
    var notes := if CompactionGate(s, r.finishReason) then CompactionWires(s.compaction) else [];
    var errors := UpstreamWires(r, FinalReason(r, s));
    CompactionEmitsNoEnd(s.compaction);
    assert forall w | w in Ending(r, s) :: w in notes || w in errors || w.WireAgentEnd?;
    if errors != [] {
      assert errors[0] in Ending(r, s);
    }
    if notes != [] {
      assert notes[|notes| - 1] == WireCompaction(s.compaction[|s.compaction| - 1]);
      assert notes[|notes| - 1] in Ending(r, s);
    }
  }

  // ---- what reaches the wire, read off the happenings ----

  function TurnsIn(hs: seq<Happening>): nat {
    if hs == [] then 0
    else TurnsIn(hs[..|hs| - 1]) + (if hs[|hs| - 1] == FromAgent(TurnStart) then 1 else 0)
  }

  /** What one happening must emit, in turn `turn`. */
  function WireOf(h: Happening, turn: nat): seq<Wire> {
    match h
    case Cancel => []
    case FromAgent(AgentStart) => [WireAgentStart]
    case FromAgent(TurnStart) => [WireTurnStart(turn)]
    case FromAgent(Passed(wire)) => [WirePassed(wire)]
    case FromAgent(TurnEnd(message, results, _, _)) => [WireTurnEnd(message, results)]
    case FromAgent(_) => []
  }

  function WiresOf(hs: seq<Happening>, turn: nat): seq<Wire> {
    if hs == [] then []
    else WiresOf(hs[..|hs| - 1], turn) + WireOf(hs[|hs| - 1], turn + TurnsIn(hs[..|hs| - 1]))
  }

  lemma EmitStep(r: Runner, h: Happening)
    ensures Handle(r, h).emitted == r.emitted + WireOf(h, r.turnIndex)
    ensures Handle(r, h).turnIndex == r.turnIndex + (if h == FromAgent(TurnStart) then 1 else 0)
  {
    Associative(r.emitted, [], []);
  }

  /** A run emits exactly one wire for each agent event that is not ignored and not
      the end, in order and with its own content, and turn starts count up. */
  lemma {:induction false} EmittedExact(r: Runner, hs: seq<Happening>)
    ensures HandleAll(r, hs).emitted == r.emitted + WiresOf(hs, r.turnIndex)
    ensures HandleAll(r, hs).turnIndex == r.turnIndex + TurnsIn(hs)
  {
    if hs == [] {
      Associative(r.emitted, [], []);
    } else {
      var front, h := hs[..|hs| - 1], hs[|hs| - 1];
      EmittedExact(r, front);
      EmitStep(HandleAll(r, front), h);
      Associative(r.emitted, WiresOf(front, r.turnIndex), WireOf(h, r.turnIndex + TurnsIn(front)));
    }
  }

  /** The last turn that stopped on an error decides what is reported: status 401 is
      an authentication failure, anything else an upstream error. */
  function LastUpstream(hs: seq<Happening>): Option<Upstream> {
    if hs == [] then None
    else
      var last := hs[|hs| - 1];
      if last.FromAgent? && last.event.TurnEnd? && last.event.message.stopReason == Some(StoppedError)
      then Some(last.event.upstream)
      else LastUpstream(hs[..|hs| - 1])
  }

  lemma {:induction false} UpstreamErrorExact(log: seq<Message>, hs: seq<Happening>)
    ensures var u, e := LastUpstream(hs), HandleAll(Opened(log), hs).upstreamError;
            && (u.None? <==> e.None?)
            && (u.Some? ==> e.value.message == u.value.message
                            && e.value.code == if u.value.status == Some(401) then "auth_failed" else "upstream_error")
  {
    if hs != [] {
      UpstreamErrorExact(log, hs[..|hs| - 1]);
    }
  }

  /** The last assistant message decides, whatever other messages follow it. */
  lemma {:induction false} LastStopExact(messages: seq<Message>, i: nat)
    requires i < |messages| && messages[i].role == Assistant
    requires forall j | i < j < |messages| :: messages[j].role != Assistant
    ensures LastStop(messages) == messages[i].stopReason
  {
    if i < |messages| - 1 {
      LastStopExact(messages[..|messages| - 1], i);
    }
  }

  lemma {:induction false} NoAssistantNoStop(messages: seq<Message>)
    requires forall j | 0 <= j < |messages| :: messages[j].role != Assistant
    ensures LastStop(messages) == None
  {
    if messages != [] {
      NoAssistantNoStop(messages[..|messages| - 1]);
    }
  }

  /** How each stop reason ends a run that nobody cancelled. */
  lemma LastStopDecides(r: Runner, hs: seq<Happening>, stop: StopReason)
    requires r.finishReason == EndTurn && Cancel !in hs && StoppedAborted !in Stops(hs)
    requires Stops(hs) != [] && Stops(hs)[|Stops(hs)| - 1] == stop
    ensures HandleAll(r, hs).finishReason ==
            match stop
            case Stop => EndTurn
            case Length => EndTurn
            case CallsTool => ToolUse
            case StoppedAborted => Cancelled
            case StoppedError => Error
  {
    FinishReasonExact(r, hs);
  }

  /** What a run emits after its prompt: one wire per compaction note, in order, and
      only when a real model with a compaction model and a stored session ended
      neither cancelled nor failed; then the captured error of a failed run, which
      only an authentication failure makes recoverable; then the end. */
  lemma EndingExact(r: Runner, s: Script)
    ensures var open := !s.mocked && s.hasCompactionModel && s.persisted
                        && r.finishReason != Cancelled && r.finishReason != Error;
            var final := if open && true in s.during then Cancelled else r.finishReason;
            var notes := if open then s.compaction else [];
            var failed := final == Error && r.upstreamError.Some?;
            var w := Ending(r, s);
            && |w| == |notes| + (if failed then 1 else 0) + 1
            && (forall i | 0 <= i < |notes| :: w[i] == WireCompaction(notes[i]))
            && (failed ==>
                  var code := r.upstreamError.value.code;
                  w[|notes|] == WireError(code, code == "auth_failed"))
            && w[|w| - 1] == WireAgentEnd(final)
  {
    CompactionWiresExact(s.compaction);
  }

  lemma {:induction false} CompactionWiresExact(notes: seq<CompactionNote>)
    ensures |CompactionWires(notes)| == |notes|
    ensures forall i | 0 <= i < |notes| :: CompactionWires(notes)[i] == WireCompaction(notes[i])
  {
    if notes != [] {
      CompactionWiresExact(notes[..|notes| - 1]);
    }
  }

  /** The messages a run mirrors, a failing append cutting only its own turn short. */
  function TurnShares(hs: seq<Happening>): seq<Message> {
    if hs == [] then []
    else
      var last := hs[|hs| - 1];
      TurnShares(hs[..|hs| - 1])
      + (if last.FromAgent? && last.event.TurnEnd? then
           var turn := [last.event.message] + last.event.results;
           turn[..if last.event.accepts < |turn| then last.event.accepts else |turn|]
         else [])
  }

  lemma {:induction false} LogWithFailures(log: seq<Message>, user: Message, s: Script)
    ensures Prompted(log, user, s).log == (if s.userAccepted then log + [user] else log) + TurnShares(s.happenings)
  {
    SessionLogExact(log, user, s);
    MirroredShares(s.happenings);
  }

  lemma {:induction false} MirroredShares(hs: seq<Happening>)
    ensures Mirrored(hs) == TurnShares(hs)
  {
    if hs != [] {
      MirroredShares(hs[..|hs| - 1]);
    }
  }
}

module SidecarMain {
  import opened Sequences
  import opened AgentRunnerModel

  datatype AuthMode = CorivoProxy | Byok | Chatgpt

  /** What the entry point finds: whether the input parses, whether it then has the
      fields that are read outside every `try`, the credentials, the answer of the
      model-id validation, and the script of the run itself. */
  datatype Boot = Boot(
    parses: bool,
    shaped: bool,
    mode: AuthMode,
    accountId: Option<string>,
    accountBlank: bool,
    mockMode: bool,
    validationError: Option<string>,
    session: seq<Message>,
    user: Message,
    script: Script)

  /** What a run has emitted when an exception ends it: nothing when the set-up throws,
      what the prompt emitted, and the notes of a compaction that throws. */
  function EmittedBeforeThrow(session: seq<Message>, user: Message, s: Script): seq<Wire> {
    if s.setupThrows then []
    else
      var r := Prompted(session, user, s);
      r.emitted + (if s.promptThrows || s.shutdownThrows then [] else CompactionWires(s.compaction))
  }

  predicate RunThrows(session: seq<Message>, user: Message, s: Script) {
    s.setupThrows || s.promptThrows || s.shutdownThrows
    || CompactionEscapes(s, Prompted(session, user, s).finishReason)
  }

  /** `main`: sequenced checks with early returns around the run. `None` for the
      exit code is a rejected promise: an input without the expected fields gets
      no event at all, and so no end. */
  method Start(b: Boot) returns (emitted: seq<Wire>, exitCode: Option<nat>, account: Option<string>)
    ensures EndsOf(emitted) == if b.parses && b.shaped then 1 else 0
    ensures b.parses && b.shaped ==> emitted != [] && emitted[|emitted| - 1].WireAgentEnd?
    ensures exitCode.None? <==> b.parses && !b.shaped
    ensures exitCode.None? ==> emitted == []
    ensures exitCode == Some(0) <==>
            && b.parses && b.shaped
            && (b.mode == Chatgpt ==> b.accountId.Some? && !b.accountBlank)
            && (b.mode == Byok && !b.mockMode ==> b.validationError == None)
            && !RunThrows(b.session, b.user, b.script)
    ensures exitCode == Some(0) ==>
              emitted == Finished(Prompted(b.session, b.user, b.script), b.script).emitted
    ensures exitCode.Some? ==> exitCode.value <= 1
    ensures !b.parses ==> exitCode == Some(1) && emitted == [WireError("input_parse_failed", false)]
    ensures b.parses && b.shaped && b.mode == Chatgpt && (b.accountId.None? || b.accountBlank) ==>
              emitted == [WireError("chatgpt_missing_account_id", false), WireAgentEnd(Error)]
    ensures b.parses && b.shaped && b.mode == Byok && !b.mockMode && b.validationError.Some? ==>
              emitted == [WireError(b.validationError.value, false), WireAgentEnd(Error)]
    ensures b.parses && b.shaped && !(b.mode == Chatgpt && (b.accountId.None? || b.accountBlank))
            && !(b.mode == Byok && !b.mockMode && b.validationError.Some?)
            && RunThrows(b.session, b.user, b.script) ==>
              emitted == EmittedBeforeThrow(b.session, b.user, b.script)
                         + [WireError("run_failed", false), WireAgentEnd(Error)]
    ensures account == if b.parses && b.shaped && b.mode == Chatgpt && !b.accountBlank then b.accountId else None
  {
    account := None;
    if !b.parses {
      emitted := [WireError("input_parse_failed", false)];
      assert emitted[..0] == [];
      return emitted, Some(1), None;
    }
    if !b.shaped {
      return [], None, None;
    }
    if b.mode == Chatgpt {
      if b.accountId.None? || b.accountBlank {
        emitted := Refusing("chatgpt_missing_account_id");
        return emitted, Some(1), None;
      }
      account := b.accountId;
    }
    if !b.mockMode && b.mode == Byok {
      if b.validationError.Some? {
        emitted := Refusing(b.validationError.value);
        return emitted, Some(1), account;
      }
    }
    var wires, code := RunGuarded(b.session, b.user, b.script);
    return wires, Some(code), account;
  }

  /** The `try` around the run. */
  method RunGuarded(session: seq<Message>, user: Message, s: Script) returns (emitted: seq<Wire>, code: nat)
    ensures code == if RunThrows(session, user, s) then 1 else 0
    ensures EndsOf(emitted) == 1
    ensures !RunThrows(session, user, s) ==>
              emitted == Finished(Prompted(session, user, s), s).emitted
              && emitted != [] && emitted[|emitted| - 1].WireAgentEnd?
    ensures RunThrows(session, user, s) ==>
              emitted == EmittedBeforeThrow(session, user, s) + [WireError("run_failed", false), WireAgentEnd(Error)]
  {
    var soFar, threw := RunAgent(session, user, s);
    if threw {
      emitted := Failing(soFar, "run_failed");
      return emitted, 1;
    }
    return soFar, 0;
  }

  method Refusing(code: string) returns (emitted: seq<Wire>)
    ensures emitted == [WireError(code, false), WireAgentEnd(Error)] && EndsOf(emitted) == 1
  {
    emitted := Failing([], code);
    Associative([WireError(code, false), WireAgentEnd(Error)], [], []);
  }

  /** The error report and the end that close every failing path. */
  method Failing(soFar: seq<Wire>, code: string) returns (emitted: seq<Wire>)
    requires EndsOf(soFar) == 0
    ensures emitted == soFar + [WireError(code, false), WireAgentEnd(Error)] && EndsOf(emitted) == 1
  {
    WireAppend(soFar, WireError(code, false));
    emitted := soFar + [WireError(code, false)];
    WireAppend(emitted, WireAgentEnd(Error));
    emitted := emitted + [WireAgentEnd(Error)];
  }

  /** `runAgent`: an exception before, during or right after the prompt, or out of
      the compaction, leaves what was emitted so far, and no end among it. */
  method RunAgent(session: seq<Message>, user: Message, s: Script) returns (emitted: seq<Wire>, threw: bool)
    ensures threw <==> RunThrows(session, user, s)
    ensures threw ==> EndsOf(emitted) == 0 && emitted == EmittedBeforeThrow(session, user, s)
    ensures !threw ==>
              emitted == Finished(Prompted(session, user, s), s).emitted
              && EndsOf(emitted) == 1 && emitted != [] && emitted[|emitted| - 1].WireAgentEnd?
  {
    if s.setupThrows {
      return [], true;
    }
    var runner := new AgentRunner(session);
    TurnIndicesCount(Opened(if s.userAccepted then session + [user] else session), s.happenings);
    runner.DrivePrompt(user, s.userAccepted, s.happenings);
    if s.promptThrows || s.shutdownThrows {
      return runner.emitted, true;
    }
    FinishedRun(runner.State(), s);
    WiresConcat(runner.emitted, CompactionWires(s.compaction));
    CompactionEmitsNoEnd(s.compaction);
    threw := runner.Finish(s);
    return runner.emitted, threw;
  }

  // ---- when a run throws and what it leaves ----

  /** Which runs throw, read off the script: those with a throwing set-up, prompt or
      clean-up, and those with a throwing compaction after a prompt that nobody
      cancelled, no stop aborted and the last stop did not fail. */
  lemma ThrowsExact(session: seq<Message>, user: Message, s: Script)
    ensures var stops := Stops(s.happenings);
            RunThrows(session, user, s) <==>
            s.setupThrows || s.promptThrows || s.shutdownThrows
            || (s.compactionThrows && !s.mocked && s.hasCompactionModel && s.persisted
                && Cancel !in s.happenings && StoppedAborted !in stops
                && (stops == [] || stops[|stops| - 1] != StoppedError))
  {
    var r := Opened(if s.userAccepted then session + [user] else session);
    if Cancel in s.happenings {
      CancelIsSticky(r, s.happenings);
    } else {
      FinishReasonExact(r, s.happenings);
    }
  }

  /** A run that does not throw emits what its happenings say and then its ending, and
      its log is that of its prompt. */
  lemma RunEmits(session: seq<Message>, user: Message, s: Script)
    ensures var r, t := Prompted(session, user, s), Finished(Prompted(session, user, s), s);
            && t.emitted == WiresOf(s.happenings, 0) + Ending(r, s)
            && t.log == (if s.userAccepted then session + [user] else session) + TurnShares(s.happenings)
  {
    var r := Opened(if s.userAccepted then session + [user] else session);
    EmittedExact(r, s.happenings);
    assert [] + WiresOf(s.happenings, 0) == WiresOf(s.happenings, 0);
    LogWithFailures(session, user, s);
  }

  /** A run that throws has emitted nothing before the set-up is over, else what its
      happenings say, and before an exception out of the compaction its notes too. */
  lemma ThrowEmits(session: seq<Message>, user: Message, s: Script)
    ensures var w, before := EmittedBeforeThrow(session, user, s), WiresOf(s.happenings, 0);
            && (s.setupThrows ==> w == [])
            && (!s.setupThrows && (s.promptThrows || s.shutdownThrows) ==> w == before)
            && (!s.setupThrows && !s.promptThrows && !s.shutdownThrows ==>
                  |w| == |before| + |s.compaction| && w[..|before|] == before
                  && forall i | 0 <= i < |s.compaction| :: w[|before| + i] == WireCompaction(s.compaction[i]))
  {
    EmittedExact(Opened(if s.userAccepted then session + [user] else session), s.happenings);
    assert [] + WiresOf(s.happenings, 0) == WiresOf(s.happenings, 0);
    assert WiresOf(s.happenings, 0) + [] == WiresOf(s.happenings, 0);
    CompactionWiresExact(s.compaction);
  }
}
