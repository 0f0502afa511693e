/** The OpenAI dialect: the history out, one completion back in. */
module OpenAi {
  import opened Prelude
  import opened JsonValues
  import opened JsonText
  import opened Ndjson
  import opened StoreFile
  import opened Conversation
  import opened Sequences

  datatype WireCall = WireCall(id: Json, name: Json, arguments: string)

  datatype Wire =
    | System(text: string)
    | User(text: string)
    | Tool(callId: Json, content: string)
    | Reply(spoken: Option<string>, calls: seq<WireCall>)

  // ----- out ---------------------------------------------------------------------------

  /** The arguments travel as a JSON string. */
  function CallOf(use: Block): WireCall
    requires use.ToolUse?
  {
    WireCall(use.id, use.name, Dumps(if Truthy(use.input) then use.input else EMPTY, SPACED))
  }

  function CallsOf(blocks: seq<Block>): seq<WireCall> {
    if blocks == [] then []
    else (if blocks[0].ToolUse? then [CallOf(blocks[0])] else []) + CallsOf(blocks[1..])
  }

  function ResultsOf(blocks: seq<Block>): seq<Wire> {
    if blocks == [] then []
    else
      (if blocks[0].ToolResult? then [Tool(blocks[0].toolUseId, blocks[0].content)] else []) + ResultsOf(blocks[1..])
  }

  /** _text_of */
  function TextOf(blocks: seq<Block>): string { Join(NonEmpty(Texts(blocks))) }

  /** One turn of ours in their messages. */
  function Convert(m: Message): seq<Wire> {
    match m
    case UserText(text) => [User(text)]
    case UserBlocks(blocks) => ResultsOf(blocks) + if Texts(blocks) == [] then [] else [User(Join(Texts(blocks)))]
    case Assistant(content) => [Reply(if TextOf(content) == "" then None else Some(TextOf(content)), CallsOf(content))]
  }

  function ConvertAll(messages: seq<Message>): seq<Wire> {
    if messages == [] then [] else ConvertAll(messages[..|messages| - 1]) + Convert(messages[|messages| - 1])
  }

  function Prompt(system: string): seq<Wire> { if system == "" then [] else [System(system)] }

  /** The loop over the blocks of a user turn: results as they come, text at the end. */
  method ConvertResults(blocks: seq<Block>) returns (wire: seq<Wire>)
    ensures wire == Convert(UserBlocks(blocks))
  {
    wire := [];
    var leftover: seq<string> := [];
    for i := 0 to |blocks|
      invariant wire == ResultsOf(blocks[..i]) && leftover == Texts(blocks[..i])
    {
      AppendBlock(blocks, i);
      hide ResultsOf, Texts;
      if blocks[i].ToolResult? {
        wire := wire + [Tool(blocks[i].toolUseId, blocks[i].content)];
      } else if blocks[i].Text? {
        leftover := leftover + [blocks[i].text];
      }
    }
    assert blocks[..|blocks|] == blocks;
    if leftover != [] {
      wire := wire + [User(Join(leftover))];
    }
  }

  /** The loop over the blocks of an assistant turn. */
  method ConvertCalls(content: seq<Block>) returns (calls: seq<WireCall>)
    ensures calls == CallsOf(content)
  {
    calls := [];
    for i := 0 to |content|
      invariant calls == CallsOf(content[..i])
    {
      AppendBlock(content, i);
      hide CallsOf, CallOf;
      if content[i].ToolUse? {
        calls := calls + [CallOf(content[i])];
      }
    }
    assert content[..|content|] == content;
  }

  method ConvertMessage(m: Message) returns (wire: seq<Wire>)
    ensures wire == Convert(m)
  {
    match m
    case UserText(text) => wire := [User(text)];
    case UserBlocks(blocks) => wire := ConvertResults(blocks);
    case Assistant(content) =>
      var calls := ConvertCalls(content);
      wire := [Reply(if TextOf(content) == "" then None else Some(TextOf(content)), calls)];
  }

  lemma ConvertAllGrows(messages: seq<Message>, n: nat)
    requires n < |messages|
    ensures ConvertAll(messages[..n + 1]) == ConvertAll(messages[..n]) + Convert(messages[n])
  {
    assert messages[..n + 1][..n] == messages[..n];
    hide Convert;
  }

  lemma NothingConverted()
    ensures ConvertAll([]) == []
  {
  }

  /** to_openai_messages */
  method ToOpenAiMessages(messages: seq<Message>, system: string) returns (converted: seq<Wire>)
    ensures converted == Prompt(system) + ConvertAll(messages)
  {
    hide Convert, ConvertAll;
    NothingConverted();
    converted := if system != "" then [System(system)] else [];
    for n := 0 to |messages|
      invariant converted == Prompt(system) + ConvertAll(messages[..n])
    {
      ConvertAllGrows(messages, n);
      var wire := ConvertMessage(messages[n]);
      converted := converted + wire;
    }
    assert messages[..|messages|] == messages;
  }

  lemma CallsOfSum(a: seq<Block>, b: seq<Block>)
    ensures CallsOf(a + b) == CallsOf(a) + CallsOf(b)
    ensures ResultsOf(a + b) == ResultsOf(a) + ResultsOf(b)
    ensures Texts(a + b) == Texts(a) + Texts(b)
  {
    OnlyCallsOfSum(a, b);
    OnlyResultsOfSum(a, b);
    OnlyTextsOfSum(a, b);
  }

  lemma {:induction false} OnlyCallsOfSum(a: seq<Block>, b: seq<Block>)
    ensures CallsOf(a + b) == CallsOf(a) + CallsOf(b)
  {
    hide CallOf;
    if a == [] {
      assert a + b == b && CallsOf(a) == [];
      hide CallsOf;
    } else {
      var first := if a[0].ToolUse? then [CallOf(a[0])] else [];
      assert (a + b)[1..] == a[1..] + b && (a + b)[0] == a[0];
      assert CallsOf(a) == first + CallsOf(a[1..]) && CallsOf(a + b) == first + CallsOf(a[1..] + b);
      hide CallsOf;
      OnlyCallsOfSum(a[1..], b);
    }
  }

  lemma {:induction false} OnlyResultsOfSum(a: seq<Block>, b: seq<Block>)
    ensures ResultsOf(a + b) == ResultsOf(a) + ResultsOf(b)
  {
    if a == [] {
      assert a + b == b;
    } else {
      assert (a + b)[1..] == a[1..] + b;
      OnlyResultsOfSum(a[1..], b);
    }
  }

  lemma {:induction false} OnlyTextsOfSum(a: seq<Block>, b: seq<Block>)
    ensures Texts(a + b) == Texts(a) + Texts(b)
  {
    if a == [] {
      assert a + b == b;
    } else {
      assert (a + b)[1..] == a[1..] + b;
      OnlyTextsOfSum(a[1..], b);
    }
  }

  lemma AppendBlock(blocks: seq<Block>, i: nat)
    requires i < |blocks|
    ensures CallsOf(blocks[..i + 1]) == CallsOf(blocks[..i]) + if blocks[i].ToolUse? then [CallOf(blocks[i])] else []
    ensures ResultsOf(blocks[..i + 1])
         == ResultsOf(blocks[..i]) + if blocks[i].ToolResult? then [Tool(blocks[i].toolUseId, blocks[i].content)] else []
    ensures Texts(blocks[..i + 1]) == Texts(blocks[..i]) + if blocks[i].Text? then [blocks[i].text] else []
  {
    assert blocks[..i + 1] == blocks[..i] + [blocks[i]];
    CallsOfSum(blocks[..i], [blocks[i]]);
    assert [blocks[i]][1..] == [];
    hide CallOf;
  }

  // ----- every call is answered at once --------------------------------------------------

  /** The tail starts with exactly one tool message for each call, in order. */
  predicate Follow(tail: seq<Wire>, calls: seq<WireCall>) {
    && |calls| <= |tail|
    && (forall j :: 0 <= j < |calls| ==> tail[j].Tool? && tail[j].callId == calls[j].id)
    && (|calls| < |tail| ==> !tail[|calls|].Tool?)
  }

  /** The calls of the reply at i are answered at once. */
  predicate WiredAt(wire: seq<Wire>, i: nat)
    requires i < |wire|
  {
    wire[i].Reply? && wire[i].calls != [] ==> Follow(wire[i + 1..], wire[i].calls)
  }

  ghost predicate Wired(wire: seq<Wire>) { forall i :: 0 <= i < |wire| ==> WiredAt(wire, i) }

  /** Results only ever answer the turn before them. */
  ghost predicate Orderly(messages: seq<Message>) {
    && Paired(messages)
    && forall i :: 0 <= i < |messages| && messages[i].UserBlocks? ==> i > 0 && IsCalling(messages[i - 1])
  }

  lemma {:induction false} CallsAreUses(blocks: seq<Block>)
    ensures |CallsOf(blocks)| == |ToolUses(blocks)|
    ensures forall i :: 0 <= i < |CallsOf(blocks)| ==> CallsOf(blocks)[i] == CallOf(ToolUses(blocks)[i])
  {
    if blocks != [] {
      hide CallOf;
      var rest := blocks[1..];
      CallsAreUses(rest);
      var first := if blocks[0].ToolUse? then [blocks[0]] else [];
      assert ToolUses(blocks) == first + ToolUses(rest);
      assert CallsOf(blocks) == (if blocks[0].ToolUse? then [CallOf(blocks[0])] else []) + CallsOf(rest);
      hide ToolUses, CallsOf;
    }
  }

  lemma {:induction false} OnlyResults(blocks: seq<Block>)
    requires AllResults(blocks)
    ensures |ResultsOf(blocks)| == |blocks| && Texts(blocks) == []
    ensures forall i :: 0 <= i < |blocks| ==> ResultsOf(blocks)[i] == Tool(blocks[i].toolUseId, blocks[i].content)
  {
    if blocks != [] {
      OnlyResults(blocks[1..]);
    }
  }

  lemma WiredAppend(a: seq<Wire>, b: seq<Wire>)
    requires Wired(a) && Wired(b) && (b == [] || !b[0].Tool?)
    ensures Wired(a + b)
  {
    var w := a + b;
    forall i | 0 <= i < |w| ensures WiredAt(w, i) {
      if i < |a| {
        assert WiredAt(a, i) && w[i + 1..] == a[i + 1..] + b;
      } else {
        assert WiredAt(b, i - |a|) && w[i + 1..] == b[i - |a| + 1..];
      }
    }
  }

  /** A calling turn and its results. */
  lemma PairIsWired(call: Message, results: Message)
    requires IsCalling(call) && results.UserBlocks? && Matches(ToolUses(call.content), results.blocks)
    ensures Wired(Convert(call) + Convert(results)) && Convert(call)[0].Reply?
  {
    CallsAreUses(call.content);
    OnlyResults(results.blocks);
    hide CallOf, TextOf, CallsOf, ToolUses, ResultsOf;
    var w := Convert(call) + Convert(results);
    assert w == Convert(call) + ResultsOf(results.blocks);
    assert |Convert(call)| == 1;
    forall i | 0 <= i < |w| ensures WiredAt(w, i) {
      if i == 0 {
        var calls, tail := w[0].calls, w[1..];
        assert tail == ResultsOf(results.blocks);
        forall j | 0 <= j < |calls| ensures tail[j].Tool? && tail[j].callId == calls[j].id {
          CallKeepsId(ToolUses(call.content)[j]);
        }
      } else {
        assert w[i] == ResultsOf(results.blocks)[i - 1];
      }
    }
  }

  lemma CallKeepsId(use: Block)
    requires use.ToolUse?
    ensures CallOf(use).id == use.id
  {
  }

  lemma PlainIsWired(m: Message)
    requires m.UserText? || (m.Assistant? && !IsCalling(m))
    ensures Wired(Convert(m)) && Convert(m) != [] && !Convert(m)[0].Tool?
  {
    if m.Assistant? {
      CallsAreUses(m.content);
    }
  }

  /** Each tool-calling reply of an orderly history is followed, on the wire, by exactly
      one tool message for each of its calls, in order. */
  lemma {:induction false} WireIsPaired(messages: seq<Message>)
    requires Orderly(messages)
    ensures Wired(ConvertAll(messages))
    decreases |messages|
  {
    hide Convert, WiredAt, Wired;
    if messages == [] {
      assert Wired(ConvertAll(messages)) by { NothingIsWired(); }
      return;
    }
    var n := |messages| - 1;
    var last := messages[n];
    assert AnsweredAt(messages, n);
    if last.UserBlocks? {
      assert AnsweredAt(messages, n - 1);
      PrefixIsOrderly(messages, n - 1);
      WireIsPaired(messages[..n - 1]);
      PairIsWired(messages[n - 1], last);
      assert messages[..n][..n - 1] == messages[..n - 1];
      var a, b, c := ConvertAll(messages[..n - 1]), Convert(messages[n - 1]), Convert(last);
      assert ConvertAll(messages) == (a + b) + c;
      assert (a + b) + c == a + (b + c);
      HeadOfPair(messages[n - 1], c);
      WiredAppend(a, b + c);
    } else {
      PrefixIsOrderly(messages, n);
      WireIsPaired(messages[..n]);
      PlainIsWired(last);
      WiredAppend(ConvertAll(messages[..n]), Convert(last));
    }
  }

  lemma NothingIsWired()
    ensures ConvertAll([]) == [] && Wired([])
  {
  }

  lemma HeadOfPair(call: Message, rest: seq<Wire>)
    requires call.Assistant?
    ensures Convert(call) + rest != [] && !(Convert(call) + rest)[0].Tool?
  {
  }

  /** What comes before a turn that is no result stays orderly. */
  lemma PrefixIsOrderly(messages: seq<Message>, n: nat)
    requires Orderly(messages) && n < |messages| && !messages[n].UserBlocks?
    ensures Orderly(messages[..n])
  {
    var before := messages[..n];
    forall i | 0 <= i < n ensures AnsweredAt(before, i) {
      assert AnsweredAt(messages, i);
    }
    hide IsCalling, Matches;
    forall i | 0 <= i < n && before[i].UserBlocks? ensures i > 0 && IsCalling(before[i - 1]) {
      assert messages[i].UserBlocks?;
    }
  }

  // ----- what each turn says on the wire ----------------------------------------------------

  predicate IsResult(b: Block) { b.ToolResult? }

  predicate IsText(b: Block) { b.Text? }

  /** One tool message for each result, with its id and text. */
  predicate CarryResults(wire: seq<Wire>, results: seq<Block>) {
    |wire| == |results| && forall i :: 0 <= i < |wire| ==>
      results[i].ToolResult? && wire[i] == Tool(results[i].toolUseId, results[i].content)
  }

  lemma {:induction false} ResultsPicked(blocks: seq<Block>) returns (results: seq<Block>)
    ensures Picks(results, blocks, IsResult) && CarryResults(ResultsOf(blocks), results)
  {
    hide Picks;
    if blocks == [] {
      results := [];
      PicksNothing(IsResult);
    } else {
      var rest := ResultsPicked(blocks[1..]);
      results := (if IsResult(blocks[0]) then [blocks[0]] else []) + rest;
      PicksMore(blocks[0], rest, blocks[1..], IsResult);
      assert [blocks[0]] + blocks[1..] == blocks;
      CarryOneMore(blocks[0], ResultsOf(blocks[1..]), rest);
    }
  }

  lemma CarryOneMore(b: Block, wire: seq<Wire>, results: seq<Block>)
    requires CarryResults(wire, results)
    ensures CarryResults((if b.ToolResult? then [Tool(b.toolUseId, b.content)] else []) + wire, (if IsResult(b) then [b] else []) + results)
  {
    if b.ToolResult? {
      var wire', results' := [Tool(b.toolUseId, b.content)] + wire, [b] + results;
      forall i | 0 <= i < |wire'| ensures results'[i].ToolResult? && wire'[i] == Tool(results'[i].toolUseId, results'[i].content) {
        if i > 0 { assert wire'[i] == wire[i - 1] && results'[i] == results[i - 1]; }
      }
    } else {
      assert [] + wire == wire && [] + results == results;
    }
  }

  lemma {:induction false} TextsPicked(blocks: seq<Block>) returns (texts: seq<Block>)
    ensures Picks(texts, blocks, IsText) && TextsIn(texts) == Texts(blocks)
  {
    hide Picks;
    if blocks == [] {
      texts := [];
      PicksNothing(IsText);
    } else {
      var rest := TextsPicked(blocks[1..]);
      texts := (if IsText(blocks[0]) then [blocks[0]] else []) + rest;
      PicksMore(blocks[0], rest, blocks[1..], IsText);
      assert [blocks[0]] + blocks[1..] == blocks;
      assert TextsIn(texts) == (if IsText(blocks[0]) then [blocks[0].text] else []) + TextsIn(rest);
    }
  }

  /** A user turn: its text as it is; or a tool message for each result, in order, and behind
      them, if it has any text, one user message with all of it. */
  lemma UserTurnOnTheWire(m: Message)
    ensures m.UserText? ==> Convert(m) == [User(m.text)]
    ensures m.UserBlocks? ==>
              exists results, texts :: Picks(results, m.blocks, IsResult) && Picks(texts, m.blocks, IsText) && UserWire(Convert(m), results, texts)
  {
    if m.UserBlocks? {
      var results := ResultsPicked(m.blocks);
      var texts := TextsPicked(m.blocks);
      JoinJoins(Texts(m.blocks));
      hide Picks, Joins, Join, Texts, ResultsOf;
      assert UserWire(Convert(m), results, texts);
    }
  }

  ghost predicate UserWire(wire: seq<Wire>, results: seq<Block>, texts: seq<Block>) {
    var n := |results|;
    && |wire| == n + (if texts == [] then 0 else 1) && CarryResults(wire[..n], results)
    && (texts != [] ==> wire[n].User? && Joins(wire[n].text, TextsIn(texts), '\n'))
  }

  /** An assistant turn: one reply, with its texts if there is any, and one call for each
      tool use, in order, whose arguments decode to the input. */
  lemma AssistantTurnOnTheWire(m: Message)
    requires m.Assistant?
    ensures |Convert(m)| == 1 && Convert(m)[0].Reply? && IsSpoken(m.content, Convert(m)[0].spoken)
    ensures |Convert(m)[0].calls| == |ToolUses(m.content)|
    ensures forall i :: 0 <= i < |ToolUses(m.content)| ==> CarriesCall(Convert(m)[0].calls[i], ToolUses(m.content)[i])
  {
    TextsSpeak(m.content);
    CallsAreUses(m.content);
    hide CallOf, CallsOf, ToolUses, Speaks, Join, Texts, NonEmpty;
    forall i | 0 <= i < |ToolUses(m.content)| ensures CarriesCall(CallOf(ToolUses(m.content)[i]), ToolUses(m.content)[i]) {
      CallIsCarried(ToolUses(m.content)[i]);
    }
  }

  ghost predicate IsSpoken(content: seq<Block>, spoken: Option<string>) {
    if spoken.None? then Speaks(content, "") else spoken.value != "" && Speaks(content, spoken.value)
  }

  ghost predicate CarriesCall(call: WireCall, use: Block) {
    && use.ToolUse? && call.id == use.id && call.name == use.name
    && (WellFormed(use.input) && use.input.Obj? && use.input.vals != map[] ==> Loads(call.arguments) == Some(use.input))
    && (!Truthy(use.input) ==> Loads(call.arguments) == Some(Obj([], map[])))
  }

  lemma CallIsCarried(use: Block)
    requires use.ToolUse?
    ensures CarriesCall(CallOf(use), use)
  {
    hide Loads, Dumps;
    assert WellFormed(EMPTY);
    LoadsInvertsDumps(EMPTY, SPACED);
    if WellFormed(use.input) { LoadsInvertsDumps(use.input, SPACED); }
  }

  /** The system prompt comes first, if there is one, and nowhere else is there any. */
  lemma PromptComesFirst(messages: seq<Message>, system: string)
    ensures var wire := Prompt(system) + ConvertAll(messages);
            && (system != "" ==> wire != [] && wire[0] == System(system))
            && forall i :: 0 <= i < |wire| && wire[i].System? ==> i == 0 && system != ""
  {
    NoSystem(messages);
    hide ConvertAll;
  }

  lemma {:induction false} NoSystem(messages: seq<Message>)
    ensures forall i :: 0 <= i < |ConvertAll(messages)| ==> !ConvertAll(messages)[i].System?
  {
    if messages != [] {
      var n := |messages| - 1;
      NoSystem(messages[..n]);
      NoSystemIn(messages[n]);
      hide Convert;
    }
  }

  lemma NoSystemIn(m: Message)
    ensures forall i :: 0 <= i < |Convert(m)| ==> !Convert(m)[i].System?
  {
    if m.UserBlocks? {
      var results := ResultsPicked(m.blocks);
      hide ResultsOf, Picks;
    }
  }
}
