/** Newline framing of the sidecar RPC stream. */
module RpcFraming {
  import opened Sequences
  import opened Texts

  predicate HasNewline(s: string) {
    exists i | 0 <= i < |s| :: s[i] == '\n'
  }

  /** `indexOf("\n")`, for a string that has one. */
  function NewlineIndex(s: string): (i: nat)
    requires HasNewline(s)
    ensures i < |s| && s[i] == '\n' && forall k | 0 <= k < i :: s[k] != '\n'
  {
    NewlineFrom(s, 0)
  }

  function NewlineFrom(s: string, start: nat): (i: nat)
    requires exists k | start <= k < |s| :: s[k] == '\n'
    ensures start <= i < |s| && s[i] == '\n' && forall k | start <= k < i :: s[k] != '\n'
    decreases |s| - start
  {
    if s[start] == '\n' then start else NewlineFrom(s, start + 1)
  }

  /** The complete lines of a stream, character by character; an unfinished last
      line is no line yet. */
  function Lines(s: string): seq<string> {
    if s == "" then []
    else
      var front, last := s[..|s| - 1], s[|s| - 1];
      if last == '\n' then Lines(front) + [Rest(front)] else Lines(front)
  }

  /** The unfinished last line. */
  function Rest(s: string): (r: string)
    ensures !HasNewline(r)
  {
    if s == "" || s[|s| - 1] == '\n' then "" else Rest(s[..|s| - 1]) + [s[|s| - 1]]
  }

  lemma LinesSnoc(s: string, c: char)
    ensures Lines(s + [c]) == Lines(s) + (if c == '\n' then [Rest(s)] else [])
    ensures Rest(s + [c]) == if c == '\n' then "" else Rest(s) + [c]
  {
  }

  lemma {:induction false} NoLine(s: string)
    requires !HasNewline(s)
    ensures Lines(s) == [] && Rest(s) == s
  {
    if s != "" {
      NoLine(s[..|s| - 1]);
      assert s == s[..|s| - 1] + [s[|s| - 1]];
    }
  }

  function Joined(chunks: seq<string>): string {
    if chunks == [] then "" else Joined(chunks[..|chunks| - 1]) + chunks[|chunks| - 1]
  }

  /** Reading a stream in two parts, the second after what the first left over. */
  lemma {:induction false} LinesSplit(a: string, b: string)
    ensures Lines(a + b) == Lines(a) + Lines(Rest(a) + b)
    ensures Rest(a + b) == Rest(Rest(a) + b)
  {
    if b == "" {
      Associative(a, b, b);
      Associative(Rest(a), b, b);
      NoLine(Rest(a));
    } else {
      var front, last := b[..|b| - 1], b[|b| - 1];
      LinesSplit(a, front);
      AppendFront(a, b);
      AppendFront(Rest(a), b);
      LinesSnoc(a + front, last);
      LinesSnoc(Rest(a) + front, last);
      Associative(Lines(a), Lines(Rest(a) + front), if last == '\n' then [Rest(a + front)] else []);
    }
  }

  /** The first line ends at the first newline. */
  lemma FirstLine(s: string)
    requires HasNewline(s)
    ensures var i := NewlineIndex(s);
            Lines(s) == [s[..i]] + Lines(s[i + 1..]) && Rest(s) == Rest(s[i + 1..])
  {
    var i := NewlineIndex(s);
    var head, tail := s[..i], s[i + 1..];
    assert !HasNewline(head);
    NoLine(head);
    LinesSnoc(head, '\n');
    LinesSplit(head + ['\n'], tail);
    CutOnce(s, i);
    assert [] + [head] == [head] && "" + tail == tail;
  }

  lemma CutOnce(s: string, i: nat)
    requires i < |s|
    ensures s == s[..i] + [s[i]] + s[i + 1..]
  {
  }

  /** What a complete line dispatches: itself trimmed, or nothing when blank. */
  function FrameOf(line: string): seq<string> {
    var trimmed := Trim(line, IsJsSpace);
    if trimmed == "" then [] else [trimmed]
  }

  /** What a list of lines dispatches. */
  function Frames(lines: seq<string>): seq<string> {
    if lines == [] then [] else Frames(lines[..|lines| - 1]) + FrameOf(lines[|lines| - 1])
  }

  lemma {:induction false} FramesAppend(a: seq<string>, b: seq<string>)
    ensures Frames(a + b) == Frames(a) + Frames(b)
  {
    if b == [] {
      assert a + b == a;
    } else {
      var front, last := b[..|b| - 1], b[|b| - 1];
      FramesAppend(a, front);
      AppendFront(a, b);
      assert Frames(a) + (Frames(front) + FrameOf(last)) == Frames(a) + Frames(front) + FrameOf(last);
    }
  }

  lemma FramesOfOne(line: string)
    ensures Frames([line]) == FrameOf(line)
  {
  }

  /** What is dispatched from a buffer: the frame of its next line, then the rest. */
  lemma NextFrame(s: string)
    requires HasNewline(s)
    ensures Frames(Lines(s)) == FrameOf(s[..NewlineIndex(s)]) + Frames(Lines(s[NewlineIndex(s) + 1..]))
    ensures Rest(s) == Rest(s[NewlineIndex(s) + 1..])
  {
    var i := NewlineIndex(s);
    FirstLine(s);
    FramesAppend([s[..i]], Lines(s[i + 1..]));
    FramesOfOne(s[..i]);
  }

  /** Framing a stream in two parts. */
  lemma FramesSplit(a: string, b: string)
    ensures Frames(Lines(a + b)) == Frames(Lines(a)) + Frames(Lines(Rest(a) + b))
    ensures Rest(a + b) == Rest(Rest(a) + b)
  {
    LinesSplit(a, b);
    FramesAppend(Lines(a), Lines(Rest(a) + b));
  }

  // ---- what lines and frames are ----

  lemma LinesExactStep(front: string, c: char)
    requires Join(Lines(front) + [Rest(front)], "\n") == front
    ensures Join(Lines(front + [c]) + [Rest(front + [c])], "\n") == front + [c]
  {
    LinesSnoc(front, c);
    JoinLast(Lines(front), Rest(front));
    if c == '\n' {
      JoinLast(Lines(front) + [Rest(front)], "");
    } else {
      JoinLast(Lines(front), Rest(front) + [c]);
    }
  }

  /** The lines and the rest, joined by newlines, are the stream, and none of them
      has a newline inside. */
  lemma {:induction false} LinesExact(s: string)
    ensures Join(Lines(s) + [Rest(s)], "\n") == s
    ensures forall i | 0 <= i < |Lines(s)| :: !HasNewline(Lines(s)[i])
  {
    if s != "" {
      LinesExact(s[..|s| - 1]);
      FrontAndLast(s);
      LinesExactStep(s[..|s| - 1], s[|s| - 1]);
      LinesSnoc(s[..|s| - 1], s[|s| - 1]);
    }
  }

  lemma JoinLast(parts: seq<string>, last: string)
    ensures Join(parts + [last], "\n") == if parts == [] then last else Join(parts, "\n") + "\n" + last
  {
    assert (parts + [last])[..|parts|] == parts;
  }

  /** The positions of the lines that are not blank. */
  function InkedLines(lines: seq<string>): seq<nat> {
    if lines == [] then []
    else
      InkedLines(lines[..|lines| - 1])
      + (if AllOf(lines[|lines| - 1], IsJsSpace) then [] else [|lines| - 1])
  }

  /** A frame for each line that is not blank, in order: the line without its outer spaces. */
  ghost predicate AreFrames(lines: seq<string>, frames: seq<string>) {
    var at := InkedLines(lines);
    && |at| == |frames|
    && (forall i, j | 0 <= i < j < |at| :: at[i] < at[j])
    && (forall i | 0 <= i < |at| :: at[i] < |lines| && frames[i] != "" && IsTrimmed(lines[at[i]], frames[i], IsJsSpace))
    && (forall k: nat :: k in at <==> k < |lines| && !AllOf(lines[k], IsJsSpace))
  }

  lemma {:induction false} InkedMember(lines: seq<string>, k: nat)
    ensures k in InkedLines(lines) <==> k < |lines| && !AllOf(lines[k], IsJsSpace)
  {
    if lines != [] {
      InkedMember(lines[..|lines| - 1], k);
    }
  }

  lemma {:induction false} FramesInOrder(lines: seq<string>)
    ensures var at, frames := InkedLines(lines), Frames(lines);
            && |at| == |frames|
            && (forall i, j | 0 <= i < j < |at| :: at[i] < at[j])
            && (forall i | 0 <= i < |at| ::
                  at[i] < |lines| && frames[i] != "" && frames[i] == Trim(lines[at[i]], IsJsSpace))
  {
    if lines != [] {
      FramesInOrder(lines[..|lines| - 1]);
      TrimSpec(lines[|lines| - 1], IsJsSpace);
    }
  }

  lemma FramesExact(lines: seq<string>)
    ensures AreFrames(lines, Frames(lines))
  {
    var at := InkedLines(lines);
    FramesInOrder(lines);
    forall k: nat ensures k in at <==> k < |lines| && !AllOf(lines[k], IsJsSpace) {
      InkedMember(lines, k);
    }
    forall i | 0 <= i < |at| ensures IsTrimmed(lines[at[i]], Frames(lines)[i], IsJsSpace) {
      TrimSpec(lines[at[i]], IsJsSpace);
    }
  }

  lemma TrailingSpace(line: string, c: char)
    requires IsJsSpace(c)
    ensures FrameOf(line + [c]) == FrameOf(line)
  {
    TrimSpec(line, IsJsSpace);
    TrimSpec(line + [c], IsJsSpace);
    var r := Trim(line, IsJsSpace);
    if r == "" {
      assert AllOf(line + [c], IsJsSpace);
    } else {
      var a, b :| line == a + r + b && AllOf(a, IsJsSpace) && AllOf(b, IsJsSpace);
      assert a + r + b + [c] == a + r + (b + [c]);
      TrimSurrounded(a, r, b + [c], IsJsSpace);
    }
  }

  /** Lines that end in a carriage return and a newline dispatch the same frames. */
  lemma {:induction false} CarriageReturnIgnored(lines: seq<string>)
    ensures Frames(seq(|lines|, i requires 0 <= i < |lines| => lines[i] + "\r")) == Frames(lines)
  {
    if lines != [] {
      var front := lines[..|lines| - 1];
      CarriageReturnIgnored(front);
      TrailingSpace(lines[|lines| - 1], '\r');
      var all := seq(|lines|, i requires 0 <= i < |lines| => lines[i] + "\r");
      assert all[..|front|] == seq(|front|, i requires 0 <= i < |front| => front[i] + "\r");
    }
  }
}
