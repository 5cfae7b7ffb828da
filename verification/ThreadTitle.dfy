/** Naming a chat thread after the user's first message. */
module ThreadTitle {
  import opened Sequences
  import opened Texts

  const PLACEHOLDER := "\U{65B0}\U{4F1A}\U{8BDD}"
  const ELLIPSIS := '\U{2026}'
  const MAX_CHARS := 24

  predicate NeedsAutoTitle(current: Option<string>) {
    current.None?
    || Trim(current.value, IsRustSpace) == ""
    || Trim(current.value, IsRustSpace) == PLACEHOLDER
  }

  function StripCarriageReturn(line: string): string {
    if line != "" && line[|line| - 1] == '\r' then line[..|line| - 1] else line
  }

  /** `str::lines`: a terminated line also loses a carriage return, and an empty
      unterminated last line does not count. */
  function Lines(s: string): seq<string> {
    var parts := Split(s, '\n');
    var last := parts[|parts| - 1];
    seq(|parts| - 1, i requires 0 <= i < |parts| - 1 => StripCarriageReturn(parts[i]))
    + (if last == "" then [] else [last])
  }

  /** The first line that is not blank, or the empty string. */
  function FirstNonBlank(lines: seq<string>): string {
    if lines == [] then ""
    else if Trim(lines[0], IsRustSpace) != "" then lines[0]
    else FirstNonBlank(lines[1..])
  }

  function Shorten(line: string): string {
    if |line| <= MAX_CHARS then line else line[..MAX_CHARS] + [ELLIPSIS]
  }

  function DeriveTitle(content: string): string {
    Shorten(Trim(FirstNonBlank(Lines(Trim(content, IsRustSpace))), IsRustSpace))
  }

  // ---- the title of one message ----

  lemma {:induction false} SplitHead(s: string, separator: char)
    requires s != "" && s[0] != separator
    ensures Split(s, separator)[0] != "" && Split(s, separator)[0][0] == s[0]
  {
    var front, last := s[..|s| - 1], s[|s| - 1];
    var r := Split(front, separator);
    if front == "" {
      assert r == [""] && last == s[0];
      assert Split(s, separator)[0] == "" + [last];
    } else {
      SplitHead(front, separator);
      if last != separator && |r| == 1 {
        assert Split(s, separator)[0] == r[0] + [last];
      } else {
        assert Split(s, separator)[0] == r[0];
      }
    }
  }

  lemma TrimIgnoresCarriageReturn(line: string)
    requires line != "" && !IsRustSpace(line[0])
    ensures Trim(StripCarriageReturn(line), IsRustSpace) == Trim(line, IsRustSpace)
  {
  }

  lemma NotBlank(s: string)
    requires s != "" && !IsRustSpace(s[0])
    ensures Trim(s, IsRustSpace) != ""
  {
    TrimSpec(s, IsRustSpace);
  }

  /** The title comes from the first line of the trimmed message, whatever follows. */
  lemma TitleIsFirstLine(content: string)
    ensures var t := Trim(content, IsRustSpace);
            DeriveTitle(content) == Shorten(Trim(Split(t, '\n')[0], IsRustSpace))
  {
    var t := Trim(content, IsRustSpace);
    TrimSpec(content, IsRustSpace);
    if t != "" {
      SplitHead(t, '\n');
      var parts := Split(t, '\n');
      TrimIgnoresCarriageReturn(parts[0]);
      NotBlank(parts[0]);
      assert Lines(t)[0] == if |parts| > 1 then StripCarriageReturn(parts[0]) else parts[0];
    }
  }

  /** No title exactly for a blank message; otherwise a title without outer spaces,
      at most 24 characters and an ellipsis long. */
  lemma TitleShape(content: string)
    ensures DeriveTitle(content) == "" <==> AllOf(content, IsRustSpace)
    ensures var title := DeriveTitle(content);
            title != "" ==> !IsRustSpace(title[0]) && !IsRustSpace(title[|title| - 1]) && |title| <= MAX_CHARS + 1
  {
    TitleIsFirstLine(content);
    TrimSpec(content, IsRustSpace);
    var t := Trim(content, IsRustSpace);
    if t != "" {
      SplitHead(t, '\n');
      NotBlank(Split(t, '\n')[0]);
    }
    TrimSpec(Split(t, '\n')[0], IsRustSpace);
  }

  /** A derived title is never derived again, unless the user's text was itself
      blank or the placeholder. */
  lemma DerivedIsFinal(content: string)
    ensures NeedsAutoTitle(Some(DeriveTitle(content)))
       <==> DeriveTitle(content) == "" || DeriveTitle(content) == PLACEHOLDER
  {
    TitleShape(content);
    TrimmedIsFixed(DeriveTitle(content), IsRustSpace);
  }

  // ---- a thread over many messages ----

  function TitleAfter(title: Option<string>, text: string): Option<string> {
    if NeedsAutoTitle(title) && DeriveTitle(text) != "" then Some(DeriveTitle(text)) else title
  }

  function Titled(title: Option<string>, texts: seq<string>): Option<string> {
    if texts == [] then title else TitleAfter(Titled(title, texts[..|texts| - 1]), texts[|texts| - 1])
  }

  /** The message names the thread for good. */
  predicate Names(text: string) {
    DeriveTitle(text) != "" && DeriveTitle(text) != PLACEHOLDER
  }

  /** Whatever is sent, a thread that has a real title keeps it, and a thread that
      has none takes the title of the first message that gives a real one. */
  lemma {:induction false} FirstRealTitleWins(title: Option<string>, texts: seq<string>, i: nat)
    requires i < |texts| && Names(texts[i]) && forall j | 0 <= j < i :: !Names(texts[j])
    ensures Titled(title, texts) == if NeedsAutoTitle(title) then Some(DeriveTitle(texts[i])) else title
  {
    var front, last := texts[..|texts| - 1], texts[|texts| - 1];
    DerivedIsFinal(texts[i]);
    if i < |texts| - 1 {
      FirstRealTitleWins(title, front, i);
    } else {
      StillUnnamed(title, front);
    }
  }

  lemma {:induction false} StillUnnamed(title: Option<string>, texts: seq<string>)
    requires forall j | 0 <= j < |texts| :: !Names(texts[j])
    ensures NeedsAutoTitle(Titled(title, texts)) <==> NeedsAutoTitle(title)
    ensures !NeedsAutoTitle(title) ==> Titled(title, texts) == title
  {
    if texts != [] {
      StillUnnamed(title, texts[..|texts| - 1]);
      DerivedIsFinal(texts[|texts| - 1]);
    }
  }

  // ---- the command ----

  datatype Message = Message(threadId: string, text: string)

  class Chat {
    var messages: seq<Message>
    var titles: map<string, Option<string>>

    constructor ()
      ensures messages == [] && titles == map[]
    {
      messages, titles := [], map[];
    }

    /** The message is stored even when its thread does not exist. */
    method CreateUserMessage(threadId: string, text: string)
      modifies this
      ensures messages == old(messages) + [Message(threadId, text)]
      ensures titles.Keys == old(titles).Keys
      ensures forall id | id in titles ::
                titles[id] == if id == threadId then TitleAfter(old(titles)[id], text) else old(titles)[id]
    {
      messages := messages + [Message(threadId, text)];
      if threadId in titles {
        if NeedsAutoTitle(titles[threadId]) {
          var derived := DeriveTitle(text);
          if derived != "" {
            titles := titles[threadId := Some(derived)];
          }
        }
      }
    }
  }

  /** The title itself: the trimmed first line when it has at most 24 characters,
      else its first 24 and an ellipsis. */
  lemma TitleExact(content: string)
    ensures var line := Trim(Split(Trim(content, IsRustSpace), '\n')[0], IsRustSpace);
            DeriveTitle(content) == if |line| <= 24 then line else line[..24] + ['\U{2026}']
  {
    TitleIsFirstLine(content);
  }

  /** A thread is titled automatically when it has no title, a blank one or the
      placeholder, whatever spaces surround it. */
  lemma NeedsExact(current: Option<string>, before: string, after: string)
    requires AllOf(before, IsRustSpace) && AllOf(after, IsRustSpace)
    ensures NeedsAutoTitle(None)
    ensures current.Some? && AllOf(current.value, IsRustSpace) ==> NeedsAutoTitle(current)
    ensures NeedsAutoTitle(Some(before + PLACEHOLDER + after))
    ensures current.Some? && NeedsAutoTitle(current) ==>
              AllOf(current.value, IsRustSpace) || Trim(current.value, IsRustSpace) == "\U{65B0}\U{4F1A}\U{8BDD}"
  {
    if current.Some? {
      TrimSpec(current.value, IsRustSpace);
    }
    TrimSurrounded(before, PLACEHOLDER, after, IsRustSpace);
  }
}
