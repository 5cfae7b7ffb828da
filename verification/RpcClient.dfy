/** The sidecar's RPC client: one map of pending calls, raced by responses,
    aborts, timeouts, write errors and the closing of the socket. */
module RpcClientModel {
  import opened Sequences
  import opened Texts
  import opened RpcFraming

  type Id = string

  datatype Response =
    | Success(id: Id, result: string)
    | Failure(id: Id, code: string, message: string)

  datatype Outcome =
    | Resolved(result: string)
    | Rejected(code: string, message: string)
    | Aborted
    | TimedOut
    | WriteFailed
    | SocketClosed

  /** One issued call: its live timer, its abort listener, whether its line was
      handed to a socket, and the state of its promise. */
  datatype Call = Call(timer: bool, listener: bool, written: bool, outcome: Option<Outcome>)

  /** `connectPromise`: absent, pending, or resolved. It never leaves `Ready`. */
  datatype Connection = Idle | Connecting | Ready

  datatype Signal = NoSignal | Live | AlreadyAborted

  /** The client between two callbacks. `parse` is `JSON.parse`, with `None` for a throw. */
  datatype Client = Client(
    connection: Connection,
    socket: bool,
    buffer: string,
    pending: set<Id>,
    calls: map<Id, Call>)

  const FRESH := Client(Idle, false, "", {}, map[])

  type Parser = string -> Option<Response>

  datatype Event =
    | Connect
    | ConnectOk
    | ConnectFailed
    | Issue(id: Id, signal: Signal, timed: bool)
    | Data(chunk: string)
    | Abort(id: Id)
    | Timeout(id: Id)
    | WriteError(id: Id)
    | Close

  /** `settle`: cleanup always, but a promise keeps its first outcome. */
  function Settle(c: Call, o: Outcome): Call {
    Call(false, false, c.written, if c.outcome.None? then Some(o) else c.outcome)
  }

  function SettleId(c: Client, id: Id, o: Outcome): Client
    requires id in c.calls
  {
    c.(pending := c.pending - {id}, calls := c.calls[id := Settle(c.calls[id], o)])
  }

  function OutcomeOf(r: Response): Outcome {
    match r
    case Success(_, result) => Resolved(result)
    case Failure(_, code, message) => Rejected(code, message)
  }

  function Respond(c: Client, r: Response): Client {
    if r.id in c.pending && r.id in c.calls then SettleId(c, r.id, OutcomeOf(r)) else c
  }

  function Dispatch(c: Client, line: string, parse: Parser): Client {
    var r := parse(line);
    if r.None? then c else Respond(c, r.value)
  }

  function DispatchAll(c: Client, lines: seq<string>, parse: Parser): Client {
    if lines == [] then c
    else Dispatch(DispatchAll(c, lines[..|lines| - 1], parse), lines[|lines| - 1], parse)
  }

  function Receive(c: Client, chunk: string, parse: Parser): Client {
    var whole := c.buffer + chunk;
    DispatchAll(c, Frames(Lines(whole)), parse).(buffer := Rest(whole))
  }

  function Issued(c: Client, id: Id, signal: Signal, timed: bool): Client {
    if signal == AlreadyAborted then
      c.(calls := c.calls[id := Call(false, false, false, Some(Aborted))])
    else
      c.(pending := c.pending + {id}, calls := c.calls[id := Call(timed, signal == Live, c.socket, None)])
  }

  function Closed(c: Client): Client {
    c.(socket := false, pending := {},
       calls := map id | id in c.calls ::
                  if id in c.pending then Settle(c.calls[id], SocketClosed) else c.calls[id])
  }

  /** What can happen next. Ids are fresh; a timer fires only while armed, an
      abort reaches a call only through its listener, a write reports only on a
      line that was written, and data and close come from an open socket. */
  predicate Enabled(c: Client, e: Event) {
    match e
    case Connect => !c.socket && c.connection == Idle
    case ConnectOk => c.connection == Connecting
    case ConnectFailed => c.connection == Connecting
    case Issue(id, _, _) => c.connection == Ready && id !in c.calls
    case Data(_) => c.socket
    case Abort(id) => id in c.calls && c.calls[id].listener
    case Timeout(id) => id in c.calls && c.calls[id].timer
    case WriteError(id) => id in c.calls && c.calls[id].written
    case Close => c.socket
  }

  function Step(c: Client, e: Event, parse: Parser): Client
    requires Enabled(c, e)
  {
    match e
    case Connect => c.(connection := Connecting)
    case ConnectOk => c.(connection := Ready, socket := true)
    case ConnectFailed => c.(connection := Idle)
    case Issue(id, signal, timed) => Issued(c, id, signal, timed)
    case Data(chunk) => Receive(c, chunk, parse)
    case Abort(id) => SettleId(c, id, Outcome.Aborted)
    case Timeout(id) => SettleId(c, id, TimedOut)
    case WriteError(id) => SettleId(c, id, WriteFailed)
    case Close => Closed(c)
  }

  /** A run: each event was possible when it happened. */
  ghost predicate IsRun(c: Client, events: seq<Event>, parse: Parser)
    decreases |events|, 0
  {
    events == [] ||
    (IsRun(c, events[..|events| - 1], parse)
     && Enabled(After(c, events[..|events| - 1], parse), events[|events| - 1]))
  }

  ghost function After(c: Client, events: seq<Event>, parse: Parser): Client
    requires IsRun(c, events, parse)
    decreases |events|, 1
  {
    if events == [] then c
    else Step(After(c, events[..|events| - 1], parse), events[|events| - 1], parse)
  }

  /** Pending are exactly the issued calls without an outcome; a live timer or
      listener belongs to one of them; the buffer holds no complete line; without
      a socket no pending call has been written. */
  ghost predicate Inv(c: Client) {
    && (forall id :: id in c.pending <==> id in c.calls && c.calls[id].outcome.None?)
    && (forall id | id in c.calls :: c.calls[id].timer || c.calls[id].listener ==> id in c.pending)
    && !HasNewline(c.buffer)
    && (c.socket ==> c.connection == Ready)
    && (c.connection != Ready ==> c.calls == map[])
    && (!c.socket ==> forall id | id in c.pending && id in c.calls :: !c.calls[id].written)
  }

  // ---- what every step keeps ----

  lemma RespondKeeps(c: Client, r: Response)
    requires Inv(c)
    ensures Inv(Respond(c, r))
  {
  }

  lemma {:induction false} DispatchAllKeeps(c: Client, lines: seq<string>, parse: Parser)
    requires Inv(c)
    ensures var d := DispatchAll(c, lines, parse);
            && Inv(d) && d.buffer == c.buffer && d.socket == c.socket && d.connection == c.connection
            && d.calls.Keys == c.calls.Keys && d.pending <= c.pending
            && forall id | id in c.calls ::
                 d.calls[id].written == c.calls[id].written
                 && (id !in c.pending ==> d.calls[id] == c.calls[id])
                 && (id in d.pending ==> d.calls[id] == c.calls[id])
  {
    if lines != [] {
      var front, line := lines[..|lines| - 1], lines[|lines| - 1];
      DispatchAllKeeps(c, front, parse);
      var r := parse(line);
      if r.Some? {
        RespondKeeps(DispatchAll(c, front, parse), r.value);
      }
    }
  }

  lemma StepKeepsInv(c: Client, e: Event, parse: Parser)
    requires Inv(c) && Enabled(c, e)
    ensures Inv(Step(c, e, parse))
  {
    match e {
      case Data(chunk) =>
        DispatchAllKeeps(c, Frames(Lines(c.buffer + chunk)), parse);
      case Close =>
      case _ =>
    }
  }

  /** A settled call is never touched again: its outcome, its dead timer and its
      dead listener stay, whatever responses, aborts or write errors follow. */
  lemma SettledIsFinal(c: Client, e: Event, parse: Parser, id: Id)
    requires Inv(c) && Enabled(c, e) && id in c.calls && c.calls[id].outcome.Some?
    ensures id in Step(c, e, parse).calls && Step(c, e, parse).calls[id] == c.calls[id]
  {
    if e.Data? {
      DispatchAllKeeps(c, Frames(Lines(c.buffer + e.chunk)), parse);
    }
  }

  /** Why a call settled in a step. */
  ghost predicate Causes(c: Client, e: Event, parse: Parser, id: Id, o: Outcome) {
    match o
    case Resolved(result) =>
      e.Data? && exists l :: l in Frames(Lines(c.buffer + e.chunk)) && parse(l) == Some(Success(id, result))
    case Rejected(code, message) =>
      e.Data? && exists l :: l in Frames(Lines(c.buffer + e.chunk)) && parse(l) == Some(Failure(id, code, message))
    case Aborted => e == Abort(id) || (e.Issue? && e.id == id && e.signal == AlreadyAborted)
    case TimedOut => e == Timeout(id)
    case WriteFailed => e == WriteError(id)
    case SocketClosed => e == Close
  }

  lemma {:induction false} DispatchCause(c: Client, lines: seq<string>, parse: Parser, id: Id)
    requires Inv(c) && id in c.calls && c.calls[id].outcome.None?
    ensures id in DispatchAll(c, lines, parse).calls
    ensures var o := DispatchAll(c, lines, parse).calls[id].outcome;
            o.Some? ==> exists l, r :: l in lines && parse(l) == Some(r) && r.id == id && OutcomeOf(r) == o.value
  {
    if lines != [] {
      var front, line := lines[..|lines| - 1], lines[|lines| - 1];
      DispatchAllKeeps(c, front, parse);
      DispatchCause(c, front, parse, id);
      assert forall l | l in front :: l in lines;
      assert line in lines;
    }
  }

  /** Each outcome has its own cause, addressed to its own call: a response
      reaches only the call whose id it carries. */
  lemma SettledByItsCause(c: Client, e: Event, parse: Parser, id: Id)
    requires Inv(c) && Enabled(c, e)
    requires id in Step(c, e, parse).calls && Step(c, e, parse).calls[id].outcome.Some?
    requires id in c.calls ==> c.calls[id].outcome.None?
    ensures Causes(c, e, parse, id, Step(c, e, parse).calls[id].outcome.value)
  {
    if e.Data? {
      var lines := Frames(Lines(c.buffer + e.chunk));
      DispatchAllKeeps(c, lines, parse);
      DispatchCause(c, lines, parse, id);
    }
  }

  /** A response nobody waits for, late or unknown, changes nothing. */
  lemma LateResponse(c: Client, chunk: string, parse: Parser)
    requires Inv(c)
    requires forall l | l in Frames(Lines(c.buffer + chunk)) ::
               parse(l).Some? ==> parse(l).value.id !in c.pending
    ensures Receive(c, chunk, parse) == c.(buffer := Rest(c.buffer + chunk))
  {
    DispatchNobody(c, Frames(Lines(c.buffer + chunk)), parse);
  }

  lemma {:induction false} DispatchNobody(c: Client, lines: seq<string>, parse: Parser)
    requires forall l | l in lines :: parse(l).Some? ==> parse(l).value.id !in c.pending
    ensures DispatchAll(c, lines, parse) == c
  {
    if lines != [] {
      DispatchNobody(c, lines[..|lines| - 1], parse);
      assert lines[|lines| - 1] in lines;
    }
  }

  // ---- whole runs ----

  lemma {:induction false} RunKeepsInv(c: Client, events: seq<Event>, parse: Parser)
    requires Inv(c) && IsRun(c, events, parse)
    ensures Inv(After(c, events, parse))
  {
    if events != [] {
      RunKeepsInv(c, events[..|events| - 1], parse);
      StepKeepsInv(After(c, events[..|events| - 1], parse), events[|events| - 1], parse);
    }
  }

  lemma {:induction false} FirstOutcomeWins(c: Client, events: seq<Event>, parse: Parser, id: Id)
    requires Inv(c) && IsRun(c, events, parse) && id in c.calls && c.calls[id].outcome.Some?
    ensures id in After(c, events, parse).calls && After(c, events, parse).calls[id] == c.calls[id]
  {
    if events != [] {
      var front := events[..|events| - 1];
      FirstOutcomeWins(c, front, parse, id);
      RunKeepsInv(c, front, parse);
      SettledIsFinal(After(c, front, parse), events[|events| - 1], parse, id);
    }
  }

  // ---- chunking ----

  lemma {:induction false} DispatchAllAppend(c: Client, a: seq<string>, b: seq<string>, parse: Parser)
    ensures DispatchAll(c, a + b, parse) == DispatchAll(DispatchAll(c, a, parse), b, parse)
  {
    if b == [] {
      assert a + b == a;
    } else {
      DispatchAllAppend(c, a, b[..|b| - 1], parse);
      AppendFront(a, b);
    }
  }

  lemma {:induction false} DispatchIgnoresBuffer(c: Client, lines: seq<string>, buffer: string, parse: Parser)
    ensures DispatchAll(c.(buffer := buffer), lines, parse) == DispatchAll(c, lines, parse).(buffer := buffer)
  {
    if lines != [] {
      DispatchIgnoresBuffer(c, lines[..|lines| - 1], buffer, parse);
    }
  }

  lemma DispatchInTwo(c: Client, first: seq<string>, second: seq<string>, between: string, last: string, parse: Parser)
    ensures DispatchAll(DispatchAll(c, first, parse).(buffer := between), second, parse).(buffer := last)
         == DispatchAll(c, first + second, parse).(buffer := last)
  {
    DispatchAllAppend(c, first, second, parse);
    DispatchIgnoresBuffer(DispatchAll(c, first, parse), second, between, parse);
  }

  lemma ReceiveTwice(c: Client, a: string, b: string, parse: Parser)
    ensures Receive(Receive(c, a, parse), b, parse) == Receive(c, a + b, parse)
  {
    var whole := c.buffer + a;
    Associative(c.buffer, a, b);
    FramesSplit(whole, b);
    DispatchInTwo(c, Frames(Lines(whole)), Frames(Lines(Rest(whole) + b)), Rest(whole), Rest(whole + b), parse);
  }

  function ReceiveAll(c: Client, chunks: seq<string>, parse: Parser): Client {
    if chunks == [] then c
    else Receive(ReceiveAll(c, chunks[..|chunks| - 1], parse), chunks[|chunks| - 1], parse)
  }

  /** How the stream is cut into chunks makes no difference: the same responses
      are dispatched in the same order and the same unfinished line is left. */
  lemma {:induction false} ChunkingIrrelevant(c: Client, chunks: seq<string>, parse: Parser)
    requires Inv(c)
    ensures ReceiveAll(c, chunks, parse) == Receive(c, Joined(chunks), parse)
  {
    if chunks == [] {
      assert c.buffer + "" == c.buffer;
      NoLine(c.buffer);
    } else {
      ChunkingIrrelevant(c, chunks[..|chunks| - 1], parse);
      ReceiveTwice(c, Joined(chunks[..|chunks| - 1]), chunks[|chunks| - 1], parse);
    }
  }

  // ---- after a close ----

  /** The resolved connect promise is never renewed, so a closed client stays closed. */
  lemma {:induction false} ClosedForGood(c: Client, events: seq<Event>, parse: Parser)
    requires Inv(c) && c.connection == Ready && !c.socket && IsRun(c, events, parse)
    ensures After(c, events, parse).connection == Ready && !After(c, events, parse).socket
  {
    if events != [] {
      ClosedForGood(c, events[..|events| - 1], parse);
    }
  }

  /** A call made after the close is registered but never written. */
  lemma {:induction false} NeverWritten(c: Client, events: seq<Event>, parse: Parser, id: Id)
    requires Inv(c) && c.connection == Ready && !c.socket && IsRun(c, events, parse)
    requires id in c.calls && c.calls[id].outcome.None?
    ensures var d := After(c, events, parse);
            && id in d.calls && !d.calls[id].written
            && (d.calls[id].outcome.None? ==> d.calls[id] == c.calls[id])
            && (!c.calls[id].timer && !c.calls[id].listener ==> d.calls[id].outcome.None?)
  {
    if events != [] {
      var front := events[..|events| - 1];
      NeverWritten(c, front, parse, id);
      ClosedForGood(c, front, parse);
      RunKeepsInv(c, front, parse);
    }
  }

  /** Which calls can still settle once the socket is gone: exactly those with
      an armed timer or a live abort signal. A call with neither waits forever. */
  lemma SettlesAfterClose(c: Client, parse: Parser, id: Id)
    requires Inv(c) && c.connection == Ready && !c.socket
    requires id in c.calls && c.calls[id].outcome.None?
    ensures (exists events ::
               IsRun(c, events, parse) && id in After(c, events, parse).calls
               && After(c, events, parse).calls[id].outcome.Some?)
       <==> c.calls[id].timer || c.calls[id].listener
  {
    forall events | IsRun(c, events, parse) && id in After(c, events, parse).calls
      ensures !c.calls[id].timer && !c.calls[id].listener ==> After(c, events, parse).calls[id].outcome.None?
    {
      NeverWritten(c, events, parse, id);
    }
    if c.calls[id].timer {
      OneEventRun(c, Timeout(id), parse);
      assert After(c, [Timeout(id)], parse).calls[id].outcome.Some?;
    } else if c.calls[id].listener {
      OneEventRun(c, Abort(id), parse);
      assert After(c, [Abort(id)], parse).calls[id].outcome.Some?;
    }
  }

  lemma Extend(c: Client, front: seq<Event>, e: Event, parse: Parser) returns (run: seq<Event>)
    requires IsRun(c, front, parse) && Enabled(After(c, front, parse), e)
    ensures run == front + [e] && IsRun(c, run, parse)
    ensures After(c, run, parse) == Step(After(c, front, parse), e, parse)
  {
    run := front + [e];
    assert run[..|front|] == front;
  }

  /** Connected, closed, then called without signal or timeout: the call is pending
      and stays so in every continuation. */
  lemma StrandedCallWitness(id: Id, parse: Parser) returns (run: seq<Event>)
    ensures run == [Connect, ConnectOk, Close, Issue(id, NoSignal, false)] && IsRun(FRESH, run, parse)
    ensures id in After(FRESH, run, parse).pending
    ensures forall more | IsRun(After(FRESH, run, parse), more, parse) ::
              id in After(After(FRESH, run, parse), more, parse).pending
  {
    assert After(FRESH, [], parse) == FRESH;
    run := Extend(FRESH, [], Connect, parse);
    run := Extend(FRESH, run, ConnectOk, parse);
    assert After(FRESH, run, parse) == FRESH.(connection := Ready, socket := true);
    run := Extend(FRESH, run, Close, parse);
    assert After(FRESH, run, parse) == FRESH.(connection := Ready);
    run := Extend(FRESH, run, Issue(id, NoSignal, false), parse);
    NeverSettles(After(FRESH, run, parse), id, parse);
  }

  /** Nothing settles a call that has neither timer nor listener on a closed client. */
  lemma NeverSettles(c: Client, id: Id, parse: Parser)
    requires Inv(c) && c.connection == Ready && !c.socket && id in c.pending
    requires !c.calls[id].timer && !c.calls[id].listener
    ensures forall more | IsRun(c, more, parse) :: id in After(c, more, parse).pending
  {
    forall more | IsRun(c, more, parse) ensures id in After(c, more, parse).pending {
      NeverWritten(c, more, parse, id);
      RunKeepsInv(c, more, parse);
    }
  }

  lemma OneEventRun(c: Client, e: Event, parse: Parser)
    requires Enabled(c, e)
    ensures IsRun(c, [e], parse) && After(c, [e], parse) == Step(c, e, parse)
  {
  }

  // ---- the client object ----

  class RpcClient {
    const parse: Parser
    var connection: Connection
    var socket: bool
    var buffer: string
    var pending: set<Id>
    var calls: map<Id, Call>

    ghost function State(): Client
      reads this
    {
      Client(connection, socket, buffer, pending, calls)
    }

    constructor (parse: Parser)
      ensures this.parse == parse && State() == FRESH && Inv(State())
    {
      this.parse := parse;
      connection, socket, buffer, pending, calls := Idle, false, "", {}, map[];
    }

    /** Up to the await: a second caller joins the attempt under way, and a
        resolved promise is handed out again even when the socket is gone. */
    method EnsureConnected()
      requires Inv(State())
      modifies this
      ensures State() == if Enabled(old(State()), Connect) then Step(old(State()), Connect, parse) else old(State())
      ensures Inv(State())
    {
      if socket || connection != Idle {
        return;
      }
      connection := Connecting;
    }

    method OnConnect()
      requires Inv(State()) && Enabled(State(), ConnectOk)
      modifies this
      ensures State() == Step(old(State()), ConnectOk, parse) && Inv(State())
    {
      connection, socket := Ready, true;
    }

    method OnConnectError()
      requires Inv(State()) && Enabled(State(), ConnectFailed)
      modifies this
      ensures State() == Step(old(State()), ConnectFailed, parse) && Inv(State())
    {
      connection := Idle;
    }

    method HandleLine(line: string)
      modifies this
      ensures State() == Dispatch(old(State()), line, parse)
    {
      var resp := parse(line);
      if resp.Some? && resp.value.id in pending && resp.value.id in calls {
        var id := resp.value.id;
        pending := pending - {id};
        calls := calls[id := Settle(calls[id], OutcomeOf(resp.value))];
      }
    }

    /** Take the next line off the buffer, trimmed. */
    method TakeLine() returns (line: string)
      requires HasNewline(buffer)
      modifies this`buffer
      ensures line == Trim(old(buffer)[..NewlineIndex(old(buffer))], IsJsSpace)
      ensures State() == Shortened(old(State()))
    {
      var idx := NewlineIndex(buffer);
      line := Trim(buffer[..idx], IsJsSpace);
      buffer := buffer[idx + 1..];
    }

    /** One turn of the loop of `onData`: take a line and handle it unless it is blank. */
    method DrainLine(ghost start: Client, ghost done: seq<string>) returns (ghost done': seq<string>)
      requires HasNewline(buffer) && Draining(start, done, State(), parse)
      modifies this
      ensures Draining(start, done', State(), parse) && |buffer| < |old(buffer)|
    {
      ghost var now := State();
      var line := TakeLine();
      if line != "" {
        DrainOneLine(start, done, now, line, parse);
        DispatchKeepsBuffer(Shortened(now), line, parse);
        HandleLine(line);
        done' := done + [line];
      } else {
        DrainBlankLine(start, done, now, parse);
        done' := done;
      }
    }

    /** The loop of `onData`: every complete line in the buffer is dispatched. */
    method DrainBuffer()
      modifies this
      ensures State() == DispatchAll(old(State()), Frames(Lines(old(buffer))), parse).(buffer := Rest(old(buffer)))
    {
      ghost var start, done := State(), [];
      while HasNewline(buffer)
        invariant Draining(start, done, State(), parse)
        decreases |buffer|
      {
        done := DrainLine(start, done);
      }
      Drained(start, done, State(), parse);
    }

    method OnData(chunk: string)
      requires Inv(State()) && socket
      modifies this
      ensures State() == Step(old(State()), Data(chunk), parse) && Inv(State())
    {
      StepKeepsInv(State(), Data(chunk), parse);
      DispatchIgnoresBuffer(State(), Frames(Lines(buffer + chunk)), buffer + chunk, parse);
      buffer := buffer + chunk;
      DrainBuffer();
    }

    method OnClose()
      requires Inv(State()) && socket
      modifies this
      ensures State() == Step(old(State()), Close, parse) && Inv(State())
    {
      StepKeepsInv(State(), Close, parse);
      socket := false;
      var waiting := pending;
      while waiting != {}
        invariant waiting <= pending == old(pending) && calls.Keys == old(calls).Keys
        invariant forall id | id in calls ::
          calls[id] == if id in pending && id !in waiting then Settle(old(calls)[id], SocketClosed)
                       else old(calls)[id]
        invariant connection == old(connection) && !socket && buffer == old(buffer)
        decreases waiting
      {
        var id :| id in waiting;
        calls := calls[id := Settle(calls[id], SocketClosed)];
        waiting := waiting - {id};
      }
      pending := {};
      assert calls == Closed(old(State())).calls;
    }

    /** The part of `call` that runs once the connect promise has resolved. */
    method IssueCall(id: Id, signal: Signal, timed: bool)
      requires Inv(State()) && connection == Ready && id !in calls
      modifies this
      ensures State() == Step(old(State()), Issue(id, signal, timed), parse) && Inv(State())
    {
      StepKeepsInv(State(), Issue(id, signal, timed), parse);
      pending := pending + {id};
      var call := Call(false, false, false, None);
      if signal == AlreadyAborted {
        pending := pending - {id};
        calls := calls[id := Settle(call, Outcome.Aborted)];
        assert pending == old(pending);
        return;
      }
      if signal == Live {
        call := call.(listener := true);
      }
      if timed {
        call := call.(timer := true);
      }
      if socket {
        call := call.(written := true);
      }
      calls := calls[id := call];
    }

    method OnAbort(id: Id)
      requires Inv(State()) && Enabled(State(), Abort(id))
      modifies this
      ensures State() == Step(old(State()), Abort(id), parse) && Inv(State())
    {
      StepKeepsInv(State(), Abort(id), parse);
      pending := pending - {id};
      calls := calls[id := Settle(calls[id], Outcome.Aborted)];
    }

    method OnTimeout(id: Id)
      requires Inv(State()) && Enabled(State(), Timeout(id))
      modifies this
      ensures State() == Step(old(State()), Timeout(id), parse) && Inv(State())
    {
      StepKeepsInv(State(), Timeout(id), parse);
      pending := pending - {id};
      calls := calls[id := Settle(calls[id], TimedOut)];
    }

    method OnWriteError(id: Id)
      requires Inv(State()) && Enabled(State(), WriteError(id))
      modifies this
      ensures State() == Step(old(State()), WriteError(id), parse) && Inv(State())
    {
      StepKeepsInv(State(), WriteError(id), parse);
      pending := pending - {id};
      calls := calls[id := Settle(calls[id], WriteFailed)];
    }
  }

  /** Half way through a buffer: `done` has been dispatched, the rest is still in the buffer. */
  ghost predicate Draining(start: Client, done: seq<string>, now: Client, parse: Parser) {
    && done + Frames(Lines(now.buffer)) == Frames(Lines(start.buffer))
    && Rest(now.buffer) == Rest(start.buffer)
    && now == DispatchAll(start, done, parse).(buffer := now.buffer)
  }

  lemma DispatchOneMore(c: Client, done: seq<string>, line: string, buffer: string, parse: Parser)
    ensures DispatchAll(c, done + [line], parse).(buffer := buffer)
         == Dispatch(DispatchAll(c, done, parse).(buffer := buffer), line, parse)
  {
  }

  lemma DispatchKeepsBuffer(c: Client, line: string, parse: Parser)
    ensures Dispatch(c, line, parse).buffer == c.buffer
  {
  }

  lemma Drained(start: Client, done: seq<string>, now: Client, parse: Parser)
    requires Draining(start, done, now, parse) && !HasNewline(now.buffer)
    ensures now == DispatchAll(start, Frames(Lines(start.buffer)), parse).(buffer := Rest(start.buffer))
  {
    NoLine(now.buffer);
    assert done + [] == done;
  }

  /** The client with the first line of its buffer taken off. */
  ghost function Shortened(c: Client): Client
    requires HasNewline(c.buffer)
  {
    c.(buffer := c.buffer[NewlineIndex(c.buffer) + 1..])
  }

  ghost function NextLine(c: Client): string
    requires HasNewline(c.buffer)
  {
    Trim(c.buffer[..NewlineIndex(c.buffer)], IsJsSpace)
  }

  lemma DrainBlankLine(start: Client, done: seq<string>, now: Client, parse: Parser)
    requires Draining(start, done, now, parse) && HasNewline(now.buffer) && NextLine(now) == ""
    ensures Draining(start, done, Shortened(now), parse)
  {
    NextFrame(now.buffer);
    EmptyFront(Frames(Lines(Shortened(now).buffer)));
  }

  lemma EmptyFront(s: seq<string>)
    ensures [] + s == s
  {
  }

  lemma DrainOneLine(start: Client, done: seq<string>, now: Client, line: string, parse: Parser)
    requires Draining(start, done, now, parse) && HasNewline(now.buffer) && line == NextLine(now) != ""
    ensures Draining(start, done + [line], Dispatch(Shortened(now), line, parse), parse)
  {
    var shorter := Shortened(now);
    NextFrame(now.buffer);
    Associative(done, [line], Frames(Lines(shorter.buffer)));
    DispatchOneMore(start, done, line, shorter.buffer, parse);
    DispatchKeepsBuffer(shorter, line, parse);
  }

  // ---- what a call is given and what settles it ----

  /** Some connect succeeded and no close came after it. */
  ghost predicate OpenConnection(events: seq<Event>) {
    exists i :: 0 <= i < |events| && events[i] == ConnectOk && Close !in events[i + 1..]
  }

  lemma OpenConnectionStep(front: seq<Event>, e: Event)
    ensures OpenConnection(front + [e]) <==> e == ConnectOk || (e != Close && OpenConnection(front))
  {
    var events := front + [e];
    if i :| 0 <= i < |front| && front[i] == ConnectOk && Close !in front[i + 1..] {
      assert events[i + 1..] == front[i + 1..] + [e];
      assert events[i] == ConnectOk;
    }
    if e == ConnectOk {
      assert events[|front|] == ConnectOk && events[|front| + 1..] == [];
    }
    if i :| 0 <= i < |events| && events[i] == ConnectOk && Close !in events[i + 1..] {
      if i < |front| {
        assert events[i + 1..] == front[i + 1..] + [e];
        assert front[i] == ConnectOk && e in events[i + 1..];
      }
    }
  }

  lemma {:induction false} SocketExact(events: seq<Event>, parse: Parser)
    requires IsRun(FRESH, events, parse)
    ensures After(FRESH, events, parse).socket <==> OpenConnection(events)
  {
    if events != [] {
      var front, e := events[..|events| - 1], events[|events| - 1];
      SocketExact(front, parse);
      RunKeepsInv(FRESH, front, parse);
      OpenConnectionStep(front, e);
      FrontAndLast(events);
      if e.Data? {
        var c := After(FRESH, front, parse);
        DispatchAllKeeps(c, Frames(Lines(c.buffer + e.chunk)), parse);
      }
    }
  }

  /** A call is issued as it was asked for, in every run: pending, written exactly
      when the connection is open, with a timer exactly when it has a timeout and a
      listener exactly when it has a live signal; an aborted signal settles it at once. */
  lemma IssuedAsAsked(events: seq<Event>, id: Id, signal: Signal, timed: bool, parse: Parser)
    requires IsRun(FRESH, events + [Issue(id, signal, timed)], parse)
    ensures var c := After(FRESH, events + [Issue(id, signal, timed)], parse);
            && id in c.calls
            && (signal == AlreadyAborted ==>
                  && id !in c.pending && c.calls[id].outcome == Some(Outcome.Aborted)
                  && !c.calls[id].written && !c.calls[id].timer && !c.calls[id].listener)
            && (signal != AlreadyAborted ==>
                  && id in c.pending && c.calls[id].outcome == None
                  && (c.calls[id].written <==> OpenConnection(events))
                  && (c.calls[id].timer <==> timed)
                  && (c.calls[id].listener <==> signal == Live))
  {
    assert (events + [Issue(id, signal, timed)])[..|events|] == events;
    SocketExact(events, parse);
    RunKeepsInv(FRESH, events, parse);
  }

  /** The first of the lines that answers the call, as its caller sees it. */
  function AnswerIn(lines: seq<string>, parse: Parser, id: Id): Option<Outcome> {
    if lines == [] then None
    else
      var before := AnswerIn(lines[..|lines| - 1], parse, id);
      if before.Some? then before
      else
        match parse(lines[|lines| - 1])
        case Some(Success(i, result)) => if i == id then Some(Resolved(result)) else None
        case Some(Failure(i, code, message)) => if i == id then Some(Rejected(code, message)) else None
        case None => None
  }

  lemma {:induction false} DispatchAnswers(c: Client, lines: seq<string>, parse: Parser, id: Id)
    requires Inv(c) && id in c.pending
    ensures id in DispatchAll(c, lines, parse).calls
    ensures DispatchAll(c, lines, parse).calls[id].outcome == AnswerIn(lines, parse, id)
  {
    if lines != [] {
      DispatchAllKeeps(c, lines[..|lines| - 1], parse);
      DispatchAnswers(c, lines[..|lines| - 1], parse, id);
    }
  }

  /** What one event does to a pending call: nothing, unless it is the call's own
      abort, timeout or write error, a close, or a chunk that completes a line with
      the call's id. */
  function SettledBy(c: Client, e: Event, parse: Parser, id: Id): Option<Outcome> {
    match e
    case Abort(i) => if i == id then Some(Outcome.Aborted) else None
    case Timeout(i) => if i == id then Some(TimedOut) else None
    case WriteError(i) => if i == id then Some(WriteFailed) else None
    case Close => Some(SocketClosed)
    case Data(chunk) => AnswerIn(Frames(Lines(c.buffer + chunk)), parse, id)
    case _ => None
  }

  lemma PendingCallStep(c: Client, e: Event, parse: Parser, id: Id)
    requires Inv(c) && Enabled(c, e) && id in c.pending
    ensures id in Step(c, e, parse).calls
    ensures Step(c, e, parse).calls[id].outcome == SettledBy(c, e, parse, id)
  {
    if e.Data? {
      DispatchAnswers(c, Frames(Lines(c.buffer + e.chunk)), parse, id);
    }
  }

  /** The first event of a run that settles the call decides its outcome. */
  ghost function Settlement(c: Client, events: seq<Event>, parse: Parser, id: Id): Option<Outcome>
    requires IsRun(c, events, parse)
  {
    if events == [] then None
    else
      var front := events[..|events| - 1];
      if Settlement(c, front, parse, id).Some? then Settlement(c, front, parse, id)
      else SettledBy(After(c, front, parse), events[|events| - 1], parse, id)
  }

  lemma {:induction false} OutcomeIsFirstSettlement(c: Client, events: seq<Event>, parse: Parser, id: Id)
    requires Inv(c) && IsRun(c, events, parse) && id in c.pending
    ensures id in After(c, events, parse).calls
    ensures After(c, events, parse).calls[id].outcome == Settlement(c, events, parse, id)
  {
    if events != [] {
      var front, e := events[..|events| - 1], events[|events| - 1];
      OutcomeIsFirstSettlement(c, front, parse, id);
      RunKeepsInv(c, front, parse);
      var d := After(c, front, parse);
      if d.calls[id].outcome.Some? {
        SettledIsFinal(d, e, parse, id);
      } else {
        PendingCallStep(d, e, parse, id);
      }
    }
  }

  // ---- what can happen, read off the run ----

  /** How the last attempt to connect stands. */
  function LastAttempt(events: seq<Event>): Connection {
    if events == [] then Idle
    else
      match events[|events| - 1]
      case Connect => Connecting
      case ConnectOk => Ready
      case ConnectFailed => Idle
      case _ => LastAttempt(events[..|events| - 1])
  }

  /** What was asked for when a call was issued, and whether the connection was open then. */
  datatype Asking = Asking(signal: Signal, timed: bool, open: bool)

  ghost function Asked(events: seq<Event>, id: Id): Option<Asking> {
    if events == [] then None
    else
      var front, last := events[..|events| - 1], events[|events| - 1];
      if last.Issue? && last.id == id then Some(Asking(last.signal, last.timed, OpenConnection(front)))
      else Asked(front, id)
  }

  lemma {:induction false} AttemptExact(events: seq<Event>, parse: Parser)
    requires IsRun(FRESH, events, parse)
    ensures After(FRESH, events, parse).connection == LastAttempt(events)
  {
    if events != [] {
      var front, e := events[..|events| - 1], events[|events| - 1];
      AttemptExact(front, parse);
      RunKeepsInv(FRESH, front, parse);
      if e.Data? {
        var c := After(FRESH, front, parse);
        DispatchAllKeeps(c, Frames(Lines(c.buffer + e.chunk)), parse);
      }
    }
  }

  /** A call as its own issue says, in every run: written if the connection was open
      then, and with timer and listener only while it is pending. */
  ghost predicate IsAsAsked(c: Client, id: Id, asked: Option<Asking>) {
    && (id in c.calls <==> asked.Some?)
    && (asked.Some? ==>
          && (c.calls[id].written <==> asked.value.signal != AlreadyAborted && asked.value.open)
          && (c.calls[id].timer <==> id in c.pending && asked.value.timed)
          && (c.calls[id].listener <==> id in c.pending && asked.value.signal == Live))
  }

  lemma CallStep(c: Client, e: Event, parse: Parser, id: Id, asked: Option<Asking>)
    requires Inv(c) && Enabled(c, e) && IsAsAsked(c, id, asked)
    ensures IsAsAsked(Step(c, e, parse), id,
              if e.Issue? && e.id == id then Some(Asking(e.signal, e.timed, c.socket)) else asked)
  {
    StepKeepsInv(c, e, parse);
    if e.Data? {
      DispatchAllKeeps(c, Frames(Lines(c.buffer + e.chunk)), parse);
    }
  }

  lemma {:induction false} CallExact(events: seq<Event>, parse: Parser, id: Id)
    requires IsRun(FRESH, events, parse)
    ensures IsAsAsked(After(FRESH, events, parse), id, Asked(events, id))
  {
    if events != [] {
      var front := events[..|events| - 1];
      CallExact(front, parse, id);
      RunKeepsInv(FRESH, front, parse);
      SocketExact(front, parse);
      CallStep(After(FRESH, front, parse), events[|events| - 1], parse, id, Asked(front, id));
    }
  }

  /** What can happen after a run: a new connect exactly when the last attempt failed
      or there was none; a call under a new id once a connect has succeeded, even after
      the close; data and a close exactly while the connection is open; an abort or a
      timeout exactly on a pending call that asked for it; and a write error exactly
      on a call that was issued on an open connection, however it was settled. */
  ghost predicate CanFollow(events: seq<Event>, pending: set<Id>, e: Event) {
    match e
    case Connect => LastAttempt(events) == Idle
    case ConnectOk => LastAttempt(events) == Connecting
    case ConnectFailed => LastAttempt(events) == Connecting
    case Issue(id, _, _) => LastAttempt(events) == Ready && Asked(events, id).None?
    case Data(_) => OpenConnection(events)
    case Abort(id) => id in pending && Asked(events, id).Some? && Asked(events, id).value.signal == Live
    case Timeout(id) => id in pending && Asked(events, id).Some? && Asked(events, id).value.timed
    case WriteError(id) =>
      Asked(events, id).Some? && Asked(events, id).value.signal != AlreadyAborted && Asked(events, id).value.open
    case Close => OpenConnection(events)
  }

  lemma WhatCanHappen(events: seq<Event>, e: Event, parse: Parser)
    requires IsRun(FRESH, events, parse)
    ensures IsRun(FRESH, events + [e], parse) <==> CanFollow(events, After(FRESH, events, parse).pending, e)
  {
    assert (events + [e])[..|events|] == events;
    RunKeepsInv(FRESH, events, parse);
    SocketExact(events, parse);
    AttemptExact(events, parse);
    match e {
      case Issue(id, _, _) => CallExact(events, parse, id);
      case Abort(id) => CallExact(events, parse, id);
      case Timeout(id) => CallExact(events, parse, id);
      case WriteError(id) => CallExact(events, parse, id);
      case _ =>
    }
  }
}
