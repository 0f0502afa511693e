/** from_openai_response, and the normal form the two directions keep. */
module OpenAiReply {
  import opened Prelude
  import opened JsonValues
  import opened JsonText
  import opened Ndjson
  import opened TicketStore
  import opened StoreFile
  import opened ToolCalls
  import opened Conversation
  import opened OpenAi

  datatype Response = Response(content: seq<Block>, stopReason: string)

  /** `value or default` */
  function Or(value: Json, default: Json): Json { if Truthy(value) then value else default }

  const MALFORMED := "__malformed_arguments__"

  /** The input a call carries: JSON text is decoded, text that is not JSON is kept under a
      key of its own, anything but a dict becomes {}. */
  function InputOf(function_: Json): Json {
    var raw := Or(GetOrNull(function_, "arguments"), Str("{}"));
    var arguments :=
      if !raw.Str? then raw
      else match Loads(raw.s) case Some(j) => j case None => Put(EMPTY, MALFORMED, raw);
    if arguments.Obj? then arguments else EMPTY
  }

  /** One tool call; None where the code raises on a value that is not a dict. */
  function UseOf(call: Json): Option<Block> {
    if !call.Obj? then None
    else
      var f := Or(GetOrNull(call, "function"), EMPTY);
      if !f.Obj? then None
      else Some(ToolUse(Or(GetOrNull(call, "id"), Str("call_0")), if Has(f, "name") then f.vals["name"] else Str(""), InputOf(f)))
  }

  function UsesOf(calls: seq<Json>): Option<seq<Block>> {
    if calls == [] then Some([])
    else
      var before, last := UsesOf(calls[..|calls| - 1]), UseOf(calls[|calls| - 1]);
      if before.None? || last.None? then None else Some(before.value + [last.value])
  }

  function Spoken(message: Json): seq<Block> {
    var text := GetOrNull(message, "content");
    if text.Str? && Strip(text.s) != "" then [Text(text.s)] else []
  }

  /** The message of the first choice; None where the code raises. */
  function MessageOf(payload: Json): Option<(Json, Json)> {
    var choices := GetOrNull(payload, "choices");
    if !payload.Obj? || !Truthy(choices) || !choices.Arr? || !choices.items[0].Obj? then None
    else
      var choice := choices.items[0];
      var message := Or(GetOrNull(choice, "message"), EMPTY);
      if !message.Obj? then None else Some((message, GetOrNull(choice, "finish_reason")))
  }

  function CallsIn(message: Json): Option<seq<Json>> {
    var calls := Or(GetOrNull(message, "tool_calls"), Arr([]));
    if calls.Arr? then Some(calls.items) else None
  }

  function StopReason(finish: Json): string { if finish == Str("tool_calls") then "tool_use" else "end_turn" }

  /** None is an exception: LLMError when there is no choice, or a value of the wrong type. */
  function FromOpenAi(payload: Json): Option<Response> {
    match MessageOf(payload)
    case None => None
    case Some((message, finish)) =>
      match CallsIn(message)
      case None => None
      case Some(calls) =>
        match UsesOf(calls)
        case None => None
        case Some(uses) => Some(Response(Spoken(message) + uses, StopReason(finish)))
  }

  /** from_openai_response */
  method FromOpenAiResponse(payload: Json) returns (r: Option<Response>)
    ensures r == FromOpenAi(payload)
  {
    hide UseOf, Spoken, MessageOf, CallsIn;
    var found := MessageOf(payload);
    if found.None? {
      return None;
    }
    var (message, finish) := found.value;
    var blocks := Spoken(message);
    var calls := CallsIn(message);
    if calls.None? {
      return None;
    }
    var items := calls.value;
    for n := 0 to |items|
      invariant UsesOf(items[..n]).Some? && blocks == Spoken(message) + UsesOf(items[..n]).value
    {
      UsesGrow(items, n);
      var use := UseOf(items[n]);
      if use.None? {
        RaisesOnce(items, n + 1);
        return None;
      }
      blocks := blocks + [use.value];
    }
    assert items[..|items|] == items;
    return Some(Response(blocks, StopReason(finish)));
  }

  lemma UsesGrow(calls: seq<Json>, n: nat)
    requires n < |calls|
    ensures UsesOf(calls[..n + 1]) ==
              var before, last := UsesOf(calls[..n]), UseOf(calls[n]);
              if before.None? || last.None? then None else Some(before.value + [last.value])
  {
    assert calls[..n + 1][..n] == calls[..n];
    hide UseOf;
  }

  lemma {:induction false} RaisesOnce(calls: seq<Json>, n: nat)
    requires n <= |calls| && UsesOf(calls[..n]).None?
    ensures UsesOf(calls).None?
    decreases |calls| - n
  {
    hide UseOf;
    if n == |calls| {
      assert calls[..n] == calls;
    } else {
      UsesGrow(calls, n);
      RaisesOnce(calls, n + 1);
    }
  }

  // ----- what is read of a completion ----------------------------------------------------

  /** A call's arguments: the dict its text decodes to, {} for any other value, and the raw
      text under a key of its own when it is no JSON. */
  predicate IsInput(input: Json, text: string) {
    match Loads(text)
    case Some(j) => input == if j.Obj? then j else Obj([], map[])
    case None => input == Obj(["__malformed_arguments__"], map["__malformed_arguments__" := Str(text)])
  }

  lemma CallIsRead(call: Json, f: Json, id: string, name: string, text: string)
    requires Shows(call, "id", Str(id)) && id != "" && Shows(call, "function", f)
    requires Shows(f, "name", Str(name)) && Shows(f, "arguments", Str(text)) && text != ""
    ensures var use := UseOf(call);
            use.Some? && use.value.ToolUse? && use.value.id == Str(id) && use.value.name == Str(name) && IsInput(use.value.input, text)
  {
    assert "name" in f.vals && Truthy(f);
    assert Put(EMPTY, MALFORMED, Str(text)) == Obj(["__malformed_arguments__"], map["__malformed_arguments__" := Str(text)]);
    hide Loads, Put;
  }

  /** A completion that is accepted: its text first, if it is not blank, then one use for each
      of the calls, in order; the loop goes on exactly if it finished for tool calls. */
  lemma CompletionMeans(payload: Json, choices: seq<Json>, message: Json, calls: seq<Json>)
    requires Shows(payload, "choices", Arr(choices)) && choices != [] && Shows(choices[0], "message", message) && message.Obj? && Truthy(message)
    requires Shows(message, "tool_calls", Arr(calls)) || (calls == [] && !Has(message, "tool_calls"))
    requires FromOpenAi(payload).Some?
    ensures var r, text := FromOpenAi(payload).value, GetOrNull(message, "content");
            var n := if text.Str? && Strip(text.s) != "" then 1 else 0;
            && r.stopReason == (if GetOrNull(choices[0], "finish_reason") == Str("tool_calls") then "tool_use" else "end_turn")
            && |r.content| == n + |calls| && (n == 1 ==> r.content[0] == Text(text.s))
            && forall i :: 0 <= i < |calls| ==> UseOf(calls[i]) == Some(r.content[n + i])
  {
    assert Truthy(Arr(choices)) && MessageOf(payload) == Some((message, GetOrNull(choices[0], "finish_reason")));
    assert CallsIn(message) == Some(calls);
    UsesAreInOrder(calls);
    hide UseOf, MessageOf, CallsIn, Strip, UsesOf;
  }

  lemma {:induction false} UsesAreInOrder(calls: seq<Json>)
    requires UsesOf(calls).Some?
    ensures |UsesOf(calls).value| == |calls| && forall i :: 0 <= i < |calls| ==> UseOf(calls[i]) == Some(UsesOf(calls).value[i])
  {
    hide UseOf;
    if calls != [] {
      UsesAreInOrder(calls[..|calls| - 1]);
    }
  }

  // ----- the way back -------------------------------------------------------------------

  function CallJson(c: WireCall): Json {
    Record(["id", "type", "function"],
           [c.id, Str("function"), Record(["name", "arguments"], [c.name, Str(c.arguments)])])
  }

  function CallsJson(calls: seq<WireCall>): (r: seq<Json>)
    ensures |r| == |calls| && forall i :: 0 <= i < |r| ==> r[i] == CallJson(calls[i])
  {
    seq(|calls|, i requires 0 <= i < |calls| => CallJson(calls[i]))
  }

  function ReplyKeys(calls: seq<WireCall>): seq<string> {
    ["role", "content"] + if calls == [] then [] else ["tool_calls"]
  }

  /** The assistant entry of to_openai_messages, as JSON. */
  function ReplyJson(w: Wire): Json
    requires w.Reply?
  {
    Record(ReplyKeys(w.calls),
           [Str("assistant"), if w.spoken.None? then Null else Str(w.spoken.value)]
           + if w.calls == [] then [] else [Arr(CallsJson(w.calls))])
  }

  /** A completion that carries the entry as its message. */
  function Completion(w: Wire, finish: Json): Json
    requires w.Reply?
  {
    Record(["choices"], [Arr([Record(["message", "finish_reason"], [ReplyJson(w), finish])])])
  }

  // ----- the normal form -------------------------------------------------------------------

  /** What every accepted completion decodes to: at most one text, not blank, then the
      calls, each with a usable id and a dict for its input. */
  ghost predicate NormalUse(b: Block) {
    b.ToolUse? && Truthy(b.id) && b.input.Obj? && WellFormed(b.input)
  }

  ghost predicate NormalTexts(texts: seq<Block>) {
    |texts| <= 1 && forall i :: 0 <= i < |texts| ==> texts[i].Text? && Strip(texts[i].text) != ""
  }

  ghost predicate NormalUses(uses: seq<Block>) { forall i :: 0 <= i < |uses| ==> NormalUse(uses[i]) }

  lemma UseIsNormal(call: Json)
    requires WellFormed(call) && UseOf(call).Some?
    ensures NormalUse(UseOf(call).value)
  {
    var f := Or(GetOrNull(call, "function"), EMPTY);
    var raw := Or(GetOrNull(f, "arguments"), Str("{}"));
    assert WellFormed(f) && WellFormed(raw);
    PutWellFormed(EMPTY, MALFORMED, raw);
    hide Loads, Put;
  }

  lemma {:induction false} UsesAreNormal(calls: seq<Json>)
    requires (forall i :: 0 <= i < |calls| ==> WellFormed(calls[i])) && UsesOf(calls).Some?
    ensures |UsesOf(calls).value| == |calls| && forall i :: 0 <= i < |calls| ==> NormalUse(UsesOf(calls).value[i])
  {
    hide UseOf, NormalUse, WellFormed;
    if calls != [] {
      UsesAreNormal(calls[..|calls| - 1]);
      UseIsNormal(calls[|calls| - 1]);
    }
  }

  lemma TruthyRecord(keys: seq<string>, values: seq<Json>)
    requires |keys| == |values| && Distinct(keys) && keys != []
    ensures Truthy(Record(keys, values))
  {
    RecordAt(keys, values, 0);
  }

  /** One call survives: its id, its name, and its arguments through their JSON text. */
  lemma UseReturns(u: Block)
    requires NormalUse(u)
    ensures UseOf(CallJson(CallOf(u))) == Some(u)
  {
    var text := Dumps(u.input, SPACED);
    EmptyIsFalsy(u.input);
    LoadsInvertsDumps(u.input, SPACED);
    EmitStarts(u.input, SPACED, 0, "");
    assert text != "" && CallOf(u) == WireCall(u.id, u.name, text);
    var f := Record(["name", "arguments"], [u.name, Str(text)]);
    var keys, values := ["id", "type", "function"], [u.id, Str("function"), f];
    hide Record, Dumps, Loads, Emit, CallOf, Zip, WellFormed;
    RecordAt(["name", "arguments"], [u.name, Str(text)], 0);
    RecordAt(["name", "arguments"], [u.name, Str(text)], 1);
    TruthyRecord(["name", "arguments"], [u.name, Str(text)]);
    RecordAt(keys, values, 0);
    RecordAt(keys, values, 2);
    assert GetOrNull(f, "arguments") == Str(text) && GetOrNull(f, "name") == u.name && Has(f, "name");
    var call := Record(keys, values);
    assert call == CallJson(CallOf(u));
    assert GetOrNull(call, "function") == f && GetOrNull(call, "id") == u.id;
    assert InputOf(f) == u.input;
  }

  lemma EmptyIsFalsy(j: Json)
    requires j.Obj? && WellFormed(j)
    ensures !Truthy(j) ==> j == EMPTY
  {
    assert j.keys != [] ==> j.keys[0] in j.vals;
  }

  lemma {:induction false} UsesReturn(uses: seq<Block>, calls: seq<WireCall>)
    requires NormalUses(uses) && |calls| == |uses| && forall i :: 0 <= i < |uses| ==> calls[i] == CallOf(uses[i])
    ensures UsesOf(CallsJson(calls)) == Some(uses)
    decreases |uses|
  {
    hide UseOf, NormalUse, CallOf, CallJson;
    if uses != [] {
      var n := |uses| - 1;
      UsesReturn(uses[..n], calls[..n]);
      UseReturns(uses[n]);
      assert CallsJson(calls)[..n] == CallsJson(calls[..n]);
      assert uses == uses[..n] + [uses[n]];
    }
  }

  /** The entry as a message: its text and its calls are read back as they are. */
  lemma ReplyIsRead(w: Wire)
    requires w.Reply?
    ensures ReplyJson(w).Obj? && Truthy(ReplyJson(w))
    ensures GetOrNull(ReplyJson(w), "content") == (if w.spoken.None? then Null else Str(w.spoken.value))
    ensures CallsIn(ReplyJson(w)) == Some(CallsJson(w.calls))
  {
    var keys := ReplyKeys(w.calls);
    var values := [Str("assistant"), if w.spoken.None? then Null else Str(w.spoken.value)]
                  + if w.calls == [] then [] else [Arr(CallsJson(w.calls))];
    assert keys[1] == "content" && values[1] == (if w.spoken.None? then Null else Str(w.spoken.value));
    assert Distinct(keys);
    hide Record, CallJson, Zip, CallsJson;
    TruthyRecord(keys, values);
    RecordAt(keys, values, 1);
    if w.calls == [] {
      RecordLacks(keys, values, "tool_calls");
      assert CallsJson(w.calls) == [];
    } else {
      assert keys[2] == "tool_calls" && values[2] == Arr(CallsJson(w.calls));
      RecordAt(keys, values, 2);
    }
  }

  lemma CompletionIsRead(w: Wire, finish: Json)
    requires w.Reply?
    ensures MessageOf(Completion(w, finish)) == Some((ReplyJson(w), finish))
  {
    ReplyIsRead(w);
    var choice := Record(["message", "finish_reason"], [ReplyJson(w), finish]);
    hide Record, ReplyJson, Zip;
    RecordAt(["message", "finish_reason"], [ReplyJson(w), finish], 0);
    RecordAt(["message", "finish_reason"], [ReplyJson(w), finish], 1);
    RecordAt(["choices"], [Arr([choice])], 0);
    assert GetOrNull(choice, "message") == ReplyJson(w) && GetOrNull(choice, "finish_reason") == finish;
    assert GetOrNull(Completion(w, finish), "choices") == Arr([choice]);
    RecordIsObj(["message", "finish_reason"], [ReplyJson(w), finish]);
    RecordIsObj(["choices"], [Arr([choice])]);
  }

  lemma RecordIsObj(keys: seq<string>, values: seq<Json>)
    requires |keys| == |values|
    ensures Record(keys, values).Obj?
  {
  }

  lemma {:induction false} NoTexts(uses: seq<Block>)
    requires NormalUses(uses)
    ensures Texts(uses) == [] && |CallsOf(uses)| == |uses| && forall i :: 0 <= i < |uses| ==> CallsOf(uses)[i] == CallOf(uses[i])
  {
    if uses != [] {
      assert NormalUse(uses[0]);
      hide CallOf, NormalUse;
      assert NormalUses(uses[1..]);
      NoTexts(uses[1..]);
    }
  }

  /** A normal turn goes out as one entry with its text and its calls. */
  lemma NormalConverts(texts: seq<Block>, uses: seq<Block>)
    requires NormalTexts(texts) && NormalUses(uses)
    ensures var out := Convert(Assistant(texts + uses));
            && |out| == 1 && out[0].Reply?
            && out[0].spoken == (if texts == [] then None else Some(texts[0].text))
            && out[0].calls == CallsOf(uses)
  {
    CallsOfSum(texts, uses);
    NoTexts(uses);
    if texts == [] {
      assert texts + uses == uses;
      EmptyText();
    } else {
      assert texts == [texts[0]] && texts[1..] == [];
      assert texts[0].text != "" by { BlankIsBlank(); }
      OneText(texts[0].text);
    }
    hide CallOf, NormalUse, Strip, Join, NonEmpty;
  }

  lemma BlankIsBlank()
    ensures Strip("") == ""
  {
  }

  lemma EmptyText()
    ensures Join(NonEmpty([])) == ""
  {
  }

  lemma OneText(t: string)
    requires t != ""
    ensures Join(NonEmpty([t])) == t
  {
    assert [t][1..] == [] && NonEmpty([]) == [];
  }

  lemma SpokenReturns(w: Wire, texts: seq<Block>)
    requires w.Reply? && NormalTexts(texts) && w.spoken == (if texts == [] then None else Some(texts[0].text))
    ensures Spoken(ReplyJson(w)) == texts
  {
    ReplyIsRead(w);
    if texts != [] {
      assert texts == [Text(texts[0].text)];
    }
    hide ReplyJson, Strip;
  }

  lemma SpokenIsNormal(message: Json)
    ensures NormalTexts(Spoken(message))
  {
    hide Strip;
  }

  /** What the adapter accepts it decodes into a normal form: sent out again and decoded
      with the same finish reason, it comes back block for block. */
  lemma TranslationFixpoint(payload: Json)
    requires WellFormed(payload) && FromOpenAi(payload).Some?
    ensures var r := FromOpenAi(payload).value;
            var out := Convert(Assistant(r.content));
            && |out| == 1 && out[0].Reply?
            && FromOpenAi(Completion(out[0], MessageOf(payload).value.1)) == Some(r)
  {
    hide NormalUse, NormalTexts, CallOf, CallsOf, UsesOf, MessageOf, ReplyJson, Spoken, CallsIn, CallsJson, Convert, WellFormed;
    var (message, finish) := MessageOf(payload).value;
    MessageWellFormed(payload);
    var calls := CallsIn(message).value;
    CallsWellFormed(message);
    UsesAreNormal(calls);
    var texts, uses := Spoken(message), UsesOf(calls).value;
    SpokenIsNormal(message);
    NormalConverts(texts, uses);
    var w := Convert(Assistant(texts + uses))[0];
    NoTexts(uses);
    CompletionIsRead(w, finish);
    ReplyIsRead(w);
    SpokenReturns(w, texts);
    UsesReturn(uses, w.calls);
  }

  lemma MessageWellFormed(payload: Json)
    requires WellFormed(payload) && MessageOf(payload).Some?
    ensures WellFormed(MessageOf(payload).value.0)
  {
    var choices := GetOrNull(payload, "choices");
    assert WellFormed(choices);
    assert WellFormed(choices.items[0]);
    assert WellFormed(GetOrNull(choices.items[0], "message"));
  }

  lemma CallsWellFormed(message: Json)
    requires WellFormed(message) && CallsIn(message).Some?
    ensures forall i :: 0 <= i < |CallsIn(message).value| ==> WellFormed(CallsIn(message).value[i])
  {
  }
}
