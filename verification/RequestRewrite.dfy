/** The rewrite of a Responses request for the ChatGPT endpoint: never stored, no
    unsupported field, system entries moved into `instructions`. */
module RequestRewrite {
  import opened Sequences
  import opened Texts

  /** A parsed JSON value; an object is its fields without their order. */
  datatype Json =
    | Null
    | Bool(b: bool)
    | Number(literal: string)
    | Str(s: string)
    | Arr(elements: seq<Json>)
    | Obj(fields: map<string, Json>)

  const UNSUPPORTED := ["prompt_cache_key", "prompt_cache_retention", "max_output_tokens"]

  /** A property read: `None` is `undefined`. */
  function Get(j: Json, key: string): Option<Json> {
    if j.Obj? && key in j.fields then Some(j.fields[key]) else None
  }

  predicate IsSystem(entry: Json) {
    Get(entry, "role") == Some(Str("system"))
  }

  // ---- the text of an entry ----

  function PartTexts(parts: seq<Json>): seq<string> {
    if parts == [] then []
    else
      var text := Get(parts[|parts| - 1], "text");
      PartTexts(parts[..|parts| - 1]) + (if text.Some? && text.value.Str? then [text.value.s] else [])
  }

  function Text(content: Option<Json>): Option<string> {
    if content.None? then None
    else
      match content.value
      case Str(s) => Some(s)
      case Arr(parts) => if PartTexts(parts) == [] then None else Some(Join(PartTexts(parts), ""))
      case Obj(_) =>
        var text := Get(content.value, "text");
        if text.Some? && text.value.Str? then Some(text.value.s) else None
      case _ => None
  }

  method ExtractText(content: Option<Json>) returns (r: Option<string>)
    ensures r == Text(content)
  {
    if content.None? {
      return None;
    }
    match content.value {
      case Str(s) => return Some(s);
      case Arr(elements) =>
        var parts: seq<string> := [];
        for i := 0 to |elements|
          invariant parts == PartTexts(elements[..i])
        {
          assert elements[..i + 1][..i] == elements[..i];
          var text := Get(elements[i], "text");
          if text.Some? && text.value.Str? {
            parts := parts + [text.value.s];
          }
        }
        assert elements[..|elements|] == elements;
        return if |parts| > 0 then Some(Join(parts, "")) else None;
      case Obj(_) =>
        var text := Get(content.value, "text");
        return if text.Some? && text.value.Str? then Some(text.value.s) else None;
      case _ => return None;
    }
  }

  // ---- the hoist ----

  /** A system entry that carries text. */
  predicate Speaks(entry: Json) {
    IsSystem(entry) && Text(Get(entry, "content")).Some? && Text(Get(entry, "content")).value != ""
  }

  /** The texts to hoist, in order. */
  function SystemTexts(input: seq<Json>): seq<string> {
    if input == [] then []
    else
      var last := input[|input| - 1];
      SystemTexts(input[..|input| - 1]) + (if Speaks(last) then [Text(Get(last, "content")).value] else [])
  }

  /** The entries that stay, in order. */
  function Kept(input: seq<Json>): seq<Json> {
    if input == [] then []
    else Kept(input[..|input| - 1]) + (if IsSystem(input[|input| - 1]) then [] else [input[|input| - 1]])
  }

  /** The caller's own instructions win when they are a non-empty string. */
  predicate CallerInstructs(fields: map<string, Json>) {
    "instructions" in fields && fields["instructions"].Str? && fields["instructions"].s != ""
  }

  function InputOf(fields: map<string, Json>): seq<Json> {
    if "input" in fields && fields["input"].Arr? then fields["input"].elements else []
  }

  function Hoisted(fields: map<string, Json>): map<string, Json> {
    var texts := SystemTexts(InputOf(fields));
    if texts == [] then fields
    else
      (if CallerInstructs(fields) then fields else fields["instructions" := Str(Join(texts, "\n\n"))])
      ["input" := Arr(Kept(InputOf(fields)))]
  }

  /** The request object that is edited in place. */
  class Body {
    var fields: map<string, Json>

    constructor (initial: map<string, Json>)
      ensures fields == initial
    {
      fields := initial;
    }

    method DeleteUnsupported()
      modifies this
      ensures fields == old(fields) - (set k | k in UNSUPPORTED)
    {
      for i := 0 to |UNSUPPORTED|
        invariant fields == old(fields) - (set k | k in UNSUPPORTED[..i])
      {
        assert UNSUPPORTED[..i + 1] == UNSUPPORTED[..i] + [UNSUPPORTED[i]];
        fields := fields - {UNSUPPORTED[i]};
      }
      assert UNSUPPORTED[..|UNSUPPORTED|] == UNSUPPORTED;
    }

    method HoistSystemToInstructions()
      modifies this
      ensures fields == Hoisted(old(fields))
    {
      if "input" !in fields || !fields["input"].Arr? {
        return;
      }
      var input := fields["input"].elements;
      var systemTexts: seq<string> := [];
      var kept: seq<Json> := [];
      for i := 0 to |input|
        invariant systemTexts == SystemTexts(input[..i]) && kept == Kept(input[..i])
        invariant fields == old(fields)
      {
        assert input[..i + 1][..i] == input[..i];
        if IsSystem(input[i]) {
          var text := ExtractText(Get(input[i], "content"));
          if text.Some? && text.value != "" {
            systemTexts := systemTexts + [text.value];
          }
        } else {
          kept := kept + [input[i]];
        }
      }
      assert input[..|input|] == input;
      if systemTexts == [] {
        return;
      }
      if "instructions" !in fields || !fields["instructions"].Str? || fields["instructions"].s == "" {
        fields := fields["instructions" := Str(Join(systemTexts, "\n\n"))];
      }
      fields := fields["input" := Arr(kept)];
    }
  }

  function Prepared(fields: map<string, Json>): map<string, Json> {
    fields["store" := Bool(false)] - (set k | k in UNSUPPORTED)
  }

  /** The whole rewrite; `None` when the body is not an object. */
  function Rewritten(parsed: Json): Option<Json> {
    if parsed.Obj? then Some(Obj(Hoisted(Prepared(parsed.fields)))) else None
  }

  /** `parsed` is `None` when the text is not JSON. */
  method InjectStoreFalse(parsed: Option<Json>) returns (next: Option<Json>)
    ensures next == if parsed.Some? then Rewritten(parsed.value) else None
  {
    if parsed.None? || !parsed.value.Obj? {
      return None;
    }
    var body := new Body(parsed.value.fields["store" := Bool(false)]);
    body.DeleteUnsupported();
    body.HoistSystemToInstructions();
    next := Some(Obj(body.fields));
  }

  // ---- what the rewrite promises ----

  /** The positions of the entries that are not system entries. */
  function Positions(input: seq<Json>): seq<nat> {
    if input == [] then []
    else
      Positions(input[..|input| - 1])
      + (if IsSystem(input[|input| - 1]) then [] else [|input| - 1])
  }

  /** `r` is `input` without its system entries: all others, in their order. */
  ghost predicate WithoutSystem(input: seq<Json>, r: seq<Json>) {
    var at := Positions(input);
    && |at| == |r|
    && (forall i, j | 0 <= i < j < |at| :: at[i] < at[j])
    && (forall i | 0 <= i < |at| :: at[i] < |input| && r[i] == input[at[i]])
    && (forall k: nat :: k in at <==> k < |input| && !IsSystem(input[k]))
  }

  lemma {:induction false} PositionsMember(input: seq<Json>, k: nat)
    ensures k in Positions(input) <==> k < |input| && !IsSystem(input[k])
  {
    if input != [] {
      PositionsMember(input[..|input| - 1], k);
    }
  }

  lemma {:induction false} PositionsInOrder(input: seq<Json>)
    ensures var at, r := Positions(input), Kept(input);
            && |at| == |r|
            && (forall i, j | 0 <= i < j < |at| :: at[i] < at[j])
            && (forall i | 0 <= i < |at| :: at[i] < |input| && r[i] == input[at[i]])
  {
    if input != [] {
      PositionsInOrder(input[..|input| - 1]);
    }
  }

  lemma KeptIsWithoutSystem(input: seq<Json>)
    ensures WithoutSystem(input, Kept(input))
    ensures forall i | 0 <= i < |Kept(input)| :: !IsSystem(Kept(input)[i])
  {
    PositionsInOrder(input);
    forall k: nat ensures k in Positions(input) <==> k < |input| && !IsSystem(input[k]) {
      PositionsMember(input, k);
    }
    assert forall i | 0 <= i < |Positions(input)| :: Positions(input)[i] in Positions(input);
  }

  predicate SomeSpeaks(input: seq<Json>) {
    exists i :: 0 <= i < |input| && Speaks(input[i])
  }

  lemma SomeSpeaksSnoc(front: seq<Json>, last: Json)
    ensures SomeSpeaks(front + [last]) <==> SomeSpeaks(front) || Speaks(last)
  {
    var input := front + [last];
    if i :| 0 <= i < |front| && Speaks(front[i]) {
      assert Speaks(input[i]);
    }
    if Speaks(last) {
      assert Speaks(input[|front|]);
    }
    if i :| 0 <= i < |input| && Speaks(input[i]) {
      assert i < |front| ==> Speaks(front[i]);
    }
  }

  lemma {:induction false} TextsExact(input: seq<Json>)
    ensures SystemTexts(input) != [] <==> SomeSpeaks(input)
    ensures forall i | 0 <= i < |SystemTexts(input)| :: SystemTexts(input)[i] != ""
  {
    if input != [] {
      var front, last := input[..|input| - 1], input[|input| - 1];
      TextsExact(front);
      assert input == front + [last];
      SomeSpeaksSnoc(front, last);
    }
  }

  lemma {:induction false} SilentInput(input: seq<Json>)
    requires forall i | 0 <= i < |input| :: !IsSystem(input[i])
    ensures SystemTexts(input) == []
  {
    if input != [] {
      SilentInput(input[..|input| - 1]);
    }
  }

  /** Whatever object comes in, what goes out is not stored and has no
      unsupported field, and no field but the four in question changes. */
  lemma RewriteFields(parsed: Json)
    requires parsed.Obj?
    ensures var out := Rewritten(parsed);
            && out.Some? && Get(out.value, "store") == Some(Bool(false))
            && (forall k | k in UNSUPPORTED :: Get(out.value, k) == None)
            && (forall k | k !in UNSUPPORTED && k != "store" && k != "input" && k != "instructions" ::
                  Get(out.value, k) == Get(parsed, k))
  {
  }

  lemma PreparedKeeps(fields: map<string, Json>)
    ensures InputOf(Prepared(fields)) == InputOf(fields)
    ensures CallerInstructs(Prepared(fields)) <==> CallerInstructs(fields)
    ensures Get(Obj(Prepared(fields)), "input") == Get(Obj(fields), "input")
    ensures Get(Obj(Prepared(fields)), "instructions") == Get(Obj(fields), "instructions")
  {
  }

  /** The input loses its system entries exactly when one of them has text; until
      then it is not touched at all. */
  lemma RewriteInput(parsed: Json)
    requires parsed.Obj?
    ensures var out, input := Rewritten(parsed).value, InputOf(parsed.fields);
            if SomeSpeaks(input) then
              Get(out, "input").Some? && Get(out, "input").value.Arr?
              && WithoutSystem(input, Get(out, "input").value.elements)
            else Get(out, "input") == Get(parsed, "input")
  {
    PreparedKeeps(parsed.fields);
    TextsExact(InputOf(parsed.fields));
    KeptIsWithoutSystem(InputOf(parsed.fields));
  }

  /** The caller's non-empty instructions are never replaced; otherwise the system
      texts take their place, when there are any. */
  lemma RewriteInstructions(parsed: Json)
    requires parsed.Obj?
    ensures var out, texts := Rewritten(parsed).value, SystemTexts(InputOf(parsed.fields));
            Get(out, "instructions")
            == if CallerInstructs(parsed.fields) || texts == [] then Get(parsed, "instructions")
               else Some(Str(Join(texts, "\n\n")))
  {
  }

  /** The endpoint insists on instructions: they are there in the end exactly when
      the caller gave some or some system entry has text. */
  lemma RewriteInstructs(parsed: Json)
    requires parsed.Obj?
    ensures CallerInstructs(Rewritten(parsed).value.fields)
       <==> CallerInstructs(parsed.fields) || SomeSpeaks(InputOf(parsed.fields))
  {
    RewriteInstructions(parsed);
    var texts := SystemTexts(InputOf(parsed.fields));
    TextsExact(InputOf(parsed.fields));
    if texts != [] {
      JoinNotEmpty(texts, "\n\n");
    }
    var out := Rewritten(parsed).value;
    assert CallerInstructs(out.fields) <==>
           Get(out, "instructions").Some? && Get(out, "instructions").value.Str? && Get(out, "instructions").value.s != "";
    assert CallerInstructs(parsed.fields) ==> CallerInstructs(out.fields);
  }

  lemma JoinNotEmpty(parts: seq<string>, separator: string)
    requires parts != [] && parts[|parts| - 1] != ""
    ensures Join(parts, separator) != ""
  {
  }

  /** Rewriting a rewritten request changes nothing. */
  lemma RewriteIdempotent(parsed: Json)
    requires parsed.Obj?
    ensures Rewritten(Rewritten(parsed).value) == Rewritten(parsed)
  {
    var out := Rewritten(parsed).value;
    RewriteFields(parsed);
    assert Prepared(out.fields) == out.fields by {
      assert out.fields["store" := Bool(false)] == out.fields;
    }
    var before := Prepared(parsed.fields);
    if SystemTexts(InputOf(before)) != [] {
      KeptIsWithoutSystem(InputOf(before));
      assert InputOf(out.fields) == Kept(InputOf(before));
      SilentInput(InputOf(out.fields));
    }
  }

  /** The rewritten fields, when some system entry has text. */
  lemma RewrittenSpeaking(parsed: Json)
    requires parsed.Obj? && SomeSpeaks(InputOf(parsed.fields))
    ensures var input := InputOf(parsed.fields);
            Rewritten(parsed).value.fields
            == (if CallerInstructs(parsed.fields) then Prepared(parsed.fields)
                else Prepared(parsed.fields)["instructions" := Str(Join(SystemTexts(input), "\n\n"))])
               ["input" := Arr(Kept(input))]
  {
    PreparedKeeps(parsed.fields);
    TextsExact(InputOf(parsed.fields));
  }

  lemma PreparedAlike(a: map<string, Json>, b: map<string, Json>, input: Json)
    requires a - {"input"} == b - {"input"}
    ensures Prepared(a)["input" := input] == Prepared(b)["input" := input]
    ensures CallerInstructs(a) <==> CallerInstructs(b)
  {
    var without := set k | k in UNSUPPORTED;
    forall k | k != "input" ensures k in a <==> k in b {
      assert k in a - {"input"} <==> k in b - {"input"};
    }
    forall k | k != "input" && k in a ensures a[k] == b[k] {
      assert (a - {"input"})[k] == (b - {"input"})[k];
    }
    var x, y := Prepared(a)["input" := input], Prepared(b)["input" := input];
    assert x.Keys == y.Keys;
    assert forall k | k in x :: x[k] == y[k];
  }

  lemma InstructionsDecide(a: map<string, Json>, b: map<string, Json>, input: Json, s: Json, t: Json)
    requires a["input" := input] == b["input" := input]
    ensures a["instructions" := s]["input" := input] == b["instructions" := t]["input" := input] <==> s == t
  {
    var x, y := a["instructions" := s]["input" := input], b["instructions" := t]["input" := input];
    assert x["instructions"] == s && y["instructions"] == t;
    assert x == a["input" := input]["instructions" := s];
    assert y == b["input" := input]["instructions" := t];
  }

  /** What becomes of the system texts. Of two requests that differ only in their
      system entries, both with text in some, the rewrites are equal exactly when
      the caller has instructions, and then the texts are lost, or when the joined
      texts are equal. */
  lemma SystemTextsKeptExact(p: Json, q: Json)
    requires p.Obj? && q.Obj? && p.fields - {"input"} == q.fields - {"input"}
    requires Kept(InputOf(p.fields)) == Kept(InputOf(q.fields))
    requires SomeSpeaks(InputOf(p.fields)) && SomeSpeaks(InputOf(q.fields))
    ensures Rewritten(p) == Rewritten(q)
       <==> CallerInstructs(p.fields)
            || Join(SystemTexts(InputOf(p.fields)), "\n\n") == Join(SystemTexts(InputOf(q.fields)), "\n\n")
  {
    RewrittenSpeaking(p);
    RewrittenSpeaking(q);
    var kept := Arr(Kept(InputOf(p.fields)));
    PreparedAlike(p.fields, q.fields, kept);
    InstructionsDecide(Prepared(p.fields), Prepared(q.fields), kept,
                       Str(Join(SystemTexts(InputOf(p.fields)), "\n\n")),
                       Str(Join(SystemTexts(InputOf(q.fields)), "\n\n")));
  }

  function Instructed(systemText: string): Json {
    Obj(map["instructions" := Str("x"),
            "input" := Arr([Obj(map["role" := Str("system"), "content" := Str(systemText)])])])
  }

  lemma InstructedBecomes(text: string)
    requires text != ""
    ensures Rewritten(Instructed(text))
         == Some(Obj(map["instructions" := Str("x"), "input" := Arr([]), "store" := Bool(false)]))
  {
    var entry := Obj(map["role" := Str("system"), "content" := Str(text)]);
    assert [entry][..0] == [];
    assert SystemTexts([entry]) == [text] && Kept([entry]) == [];
    var fields := Instructed(text).fields;
    assert fields["input"].elements == [entry];
    PreparedKeeps(fields);
    var prepared := Prepared(fields);
    assert prepared == fields["store" := Bool(false)];
    assert CallerInstructs(prepared) && InputOf(prepared) == [entry];
    assert prepared["input" := Arr([])]
        == map["instructions" := Str("x"), "input" := Arr([]), "store" := Bool(false)];
  }

  /** A request that loses its system text: whatever the text, the result is the same. */
  lemma SystemTextDiscarded(a: string, b: string)
    requires a != "" && b != ""
    ensures Rewritten(Instructed(a)) == Rewritten(Instructed(b))
    ensures Instructed(a) == Instructed(b) <==> a == b
  {
    InstructedBecomes(a);
    InstructedBecomes(b);
    assert Instructed(a).fields["input"].elements[0].fields["content"] == Str(a);
    assert Instructed(b).fields["input"].elements[0].fields["content"] == Str(b);
  }

  // ---- the texts and the entries, spelled out ----

  /** One more part of a content list adds its text, if that is a string; a list
      without any such part has no text. */
  lemma PartsText(front: seq<Json>, part: Json)
    ensures Text(Some(Arr([]))) == None
    ensures var before, after := Text(Some(Arr(front))), Text(Some(Arr(front + [part])));
            if part.Obj? && "text" in part.fields && part.fields["text"].Str? then
              after == Some((if before.Some? then before.value else "") + part.fields["text"].s)
            else after == before
  {
    assert (front + [part])[..|front|] == front;
    Associative(PartTexts(front), [], []);
    if part.Obj? && "text" in part.fields && part.fields["text"].Str? {
      JoinNothing(PartTexts(front), part.fields["text"].s);
    }
  }

  lemma JoinNothing(parts: seq<string>, last: string)
    ensures Join(parts + [last], "") == Join(parts, "") + last
  {
    assert (parts + [last])[..|parts|] == parts;
  }

  /** The other contents: a string is its own text, an object has that of its "text",
      and nothing else has any. */
  lemma ContentText(content: Json, fields: map<string, Json>)
    ensures Text(None) == None
    ensures content.Str? ==> Text(Some(content)) == Some(content.s)
    ensures "text" in fields && fields["text"].Str? ==> Text(Some(Obj(fields))) == Some(fields["text"].s)
    ensures "text" !in fields || !fields["text"].Str? ==> Text(Some(Obj(fields))) == None
    ensures content.Null? || content.Bool? || content.Number? ==> Text(Some(content)) == None
  {
  }

  /** An entry whose role is "system". */
  predicate SaysSystem(e: Json) {
    e.Obj? && "role" in e.fields && e.fields["role"] == Str("system")
  }

  /** The text of an entry with content. */
  function EntryText(e: Json): string {
    if e.Obj? && "content" in e.fields && Text(Some(e.fields["content"])).Some?
    then Text(Some(e.fields["content"])).value else ""
  }

  function SpeakingPositions(input: seq<Json>): seq<nat> {
    if input == [] then []
    else
      var last := input[|input| - 1];
      SpeakingPositions(input[..|input| - 1])
      + (if SaysSystem(last) && EntryText(last) != "" then [|input| - 1] else [])
  }

  /** The hoisted texts are those of the system entries with text, in their order. */
  ghost predicate AreSystemTexts(input: seq<Json>, texts: seq<string>) {
    var at := SpeakingPositions(input);
    && |at| == |texts|
    && (forall i, j | 0 <= i < j < |at| :: at[i] < at[j])
    && (forall i | 0 <= i < |at| :: at[i] < |input| && texts[i] == EntryText(input[at[i]]))
    && (forall k: nat :: k in at <==> k < |input| && SaysSystem(input[k]) && EntryText(input[k]) != "")
  }

  lemma {:induction false} SpeakingMember(input: seq<Json>, k: nat)
    ensures k in SpeakingPositions(input) <==> k < |input| && SaysSystem(input[k]) && EntryText(input[k]) != ""
  {
    if input != [] {
      SpeakingMember(input[..|input| - 1], k);
    }
  }

  lemma {:induction false} SpeakingInOrder(input: seq<Json>)
    ensures var at, texts := SpeakingPositions(input), SystemTexts(input);
            && |at| == |texts|
            && (forall i, j | 0 <= i < j < |at| :: at[i] < at[j])
            && (forall i | 0 <= i < |at| :: at[i] < |input| && texts[i] == EntryText(input[at[i]]))
  {
    if input != [] {
      SpeakingInOrder(input[..|input| - 1]);
    }
  }

  lemma SystemTextsExact(input: seq<Json>)
    ensures AreSystemTexts(input, SystemTexts(input))
  {
    SpeakingInOrder(input);
    forall k: nat
      ensures k in SpeakingPositions(input) <==> k < |input| && SaysSystem(input[k]) && EntryText(input[k]) != ""
    {
      SpeakingMember(input, k);
    }
  }

  /** The rewrite with every name spelled out: not stored, none of the three fields the
      endpoint refuses, no entry with role "system" left when one of them has text, and
      the caller's non-empty instructions, or else the joined texts. */
  lemma RewriteSpelledOut(parsed: Json)
    requires parsed.Obj?
    ensures var out, input := Rewritten(parsed).value, InputOf(parsed.fields);
            var texts := SystemTexts(input);
            var instructed := "instructions" in parsed.fields && parsed.fields["instructions"].Str?
                              && parsed.fields["instructions"].s != "";
            && out.Obj? && "store" in out.fields && out.fields["store"] == Bool(false)
            && "prompt_cache_key" !in out.fields && "prompt_cache_retention" !in out.fields
            && "max_output_tokens" !in out.fields
            && AreSystemTexts(input, texts)
            && (texts != [] ==> forall e | e in InputOf(out.fields) :: !SaysSystem(e))
            && (instructed ==> Get(out, "instructions") == Some(parsed.fields["instructions"]))
            && (!instructed && texts != [] ==> Get(out, "instructions") == Some(Str(Join(texts, "\n\n"))))
  {
    RewriteFields(parsed);
    RewriteInstructions(parsed);
    RewriteInput(parsed);
    SystemTextsExact(InputOf(parsed.fields));
    TextsExact(InputOf(parsed.fields));
    KeptIsWithoutSystem(InputOf(parsed.fields));
    var out := Rewritten(parsed).value;
    assert "prompt_cache_key" in UNSUPPORTED by { assert UNSUPPORTED[0] == "prompt_cache_key"; }
    assert "prompt_cache_retention" in UNSUPPORTED by { assert UNSUPPORTED[1] == "prompt_cache_retention"; }
    assert "max_output_tokens" in UNSUPPORTED by { assert UNSUPPORTED[2] == "max_output_tokens"; }
    assert Get(out, "prompt_cache_key") == None && Get(out, "prompt_cache_retention") == None;
    assert Get(out, "max_output_tokens") == None && Get(out, "store").Some?;
    if SystemTexts(InputOf(parsed.fields)) != [] {
      RewrittenSpeaking(parsed);
    }
  }

  /** What is no object is refused, and every object is rewritten. */
  lemma OnlyObjects(parsed: Json)
    ensures Rewritten(parsed).Some? <==> parsed.Obj?
  {
  }
}
