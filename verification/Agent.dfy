/** The agentic loop: model, tool calls, tool results, model, until it stops. */
module Agents {
  import opened Prelude
  import opened JsonValues
  import opened JsonText
  import opened Ndjson
  import opened Conversation
  import opened OpenAi
  import opened Sequences

  /** One answer of the model, or the call raises. */
  datatype ModelAnswer = Fails | Says(content: seq<Block>, stopReason: string)

  /** How registry.call ends; Crashed is any exception execute_tool does not catch. */
  datatype ToolOutcome = NotFound(message: string) | Rejected(code: int, message: string) | Lost(message: string)
                       | Came(result: Json) | Crashed

  /** The k-th model call of a turn, and the i-th tool call after it. */
  type Model = nat -> ModelAnswer
  type Tools = (nat, nat) -> ToolOutcome

  // ----- one tool call -----------------------------------------------------------------

  /** The text of one content block; None where the code raises. */
  function PartOf(block: Json): Option<string> {
    if GetOrNull(block, "type") == Str("text") then
      var text := if Has(block, "text") then block.vals["text"] else Str("");
      if text.Str? then Some(text.s) else None
    else Some(Dumps(block, SPACED))
  }

  function PartsOf(blocks: seq<Json>): Option<seq<string>> {
    if blocks == [] then Some([])
    else
      var first, rest := PartOf(blocks[0]), PartsOf(blocks[1..]);
      if first.None? || rest.None? then None else Some([first.value] + rest.value)
  }

  function Flatten(content: Json): Option<string> {
    if content.Str? then Some(content.s)
    else if !content.Arr? then Some(Dumps(content, SPACED))
    else match PartsOf(content.items) case None => None case Some(parts) => Some(Join(parts))
  }

  /** Every failure the code catches comes back as a result; None is an exception. */
  function ResultOf(id: Json, outcome: ToolOutcome): (r: Option<Block>)
    ensures r.Some? ==> r.value.ToolResult? && r.value.toolUseId == id
  {
    match outcome
    case NotFound(message) => Some(ToolResult(id, message, true))
    case Rejected(code, message) => Some(ToolResult(id, "Protocol error " + IntText(code) + ": " + message, true))
    case Lost(message) => Some(ToolResult(id, "Transport error: " + message, true))
    case Crashed => None
    case Came(result) =>
      if !result.Obj? then None
      else
        match Flatten(if Has(result, "content") then result.vals["content"] else Arr([]))
        case None => None
        case Some(text) => Some(ToolResult(id, text, Truthy(GetOrNull(result, "isError"))))
  }

  /** dict(input or {}) raises on a value that is no dict. */
  function Execute(use: Block, outcome: ToolOutcome): (r: Option<Block>)
    requires use.ToolUse?
    ensures r.Some? ==> r.value.ToolResult? && r.value.toolUseId == use.id
  {
    if Truthy(use.input) && !use.input.Obj? then None else ResultOf(use.id, outcome)
  }

  /** The results of the calls after model answer k, if none of them raises. */
  function Results(uses: seq<Block>, k: nat, tools: Tools, n: nat): (r: Option<seq<Block>>)
    requires n <= |uses| && forall b :: b in uses ==> b.ToolUse?
    ensures r.Some? ==> |r.value| == n && AllResults(r.value)
    ensures r.Some? ==> forall i :: 0 <= i < n ==> r.value[i].toolUseId == uses[i].id
  {
    if n == 0 then Some([])
    else
      var before, last := Results(uses, k, tools, n - 1), Execute(uses[n - 1], tools(k, n - 1));
      if before.None? || last.None? then None else Some(before.value + [last.value])
  }

  // ----- one turn ------------------------------------------------------------------------

  /** The loop goes round: answer k asks for tools and they all return. */
  predicate Continues(k: nat, model: Model, tools: Tools) {
    && model(k).Says? && model(k).stopReason == "tool_use" && ToolUses(model(k).content) != []
    && Results(ToolUses(model(k).content), k, tools, |ToolUses(model(k).content)|).Some?
  }

  predicate AllContinue(k: nat, model: Model, tools: Tools) { forall j :: 0 <= j < k ==> Continues(j, model, tools) }

  function Round(k: nat, model: Model, tools: Tools): seq<Message>
    requires Continues(k, model, tools)
  {
    var content := model(k).content;
    [Assistant(content), UserBlocks(Results(ToolUses(content), k, tools, |ToolUses(content)|).value)]
  }

  function Rounds(k: nat, model: Model, tools: Tools): seq<Message>
    requires AllContinue(k, model, tools)
  {
    if k == 0 then [] else Rounds(k - 1, model, tools) + Round(k - 1, model, tools)
  }

  /** How many full rounds a turn makes. */
  function RoundCount(k: nat, max: nat, model: Model, tools: Tools): (r: nat)
    requires k <= max && AllContinue(k, model, tools)
    ensures k <= r <= max && AllContinue(r, model, tools)
    ensures r < max ==> !Continues(r, model, tools)
    decreases max - k
  {
    if k < max && Continues(k, model, tools) then RoundCount(k + 1, max, model, tools) else k
  }

  function Final(k: nat, max: nat, model: Model): seq<Message> {
    if k < max && model(k).Says? then [Assistant(model(k).content)] else []
  }

  /** Everything one call of run_turn adds to the history. */
  function TurnOf(text: string, max: nat, model: Model, tools: Tools): seq<Message> {
    var k := RoundCount(0, max, model, tools);
    [UserText(text)] + Rounds(k, model, tools) + Final(k, max, model)
  }

  function AnswerOf(content: seq<Block>): string { Strip(Join(NonEmpty(Texts(content)))) }

  /** The turn ended with every call it made answered: capped, the model raised, or its
      last answer calls nothing. */
  predicate EndsWell(max: nat, model: Model, tools: Tools) {
    var k := RoundCount(0, max, model, tools);
    k == max || model(k).Fails? || ToolUses(model(k).content) == []
  }

  datatype Ended = Answered(text: string) | Raised

  function Stopped(max: nat): string {
    "Stopped after " + IntText(max) + " tool rounds without a final answer. Try narrowing the request."
  }

  function AnswerAt(k: nat, model: Model): string {
    if model(k).Says? then AnswerOf(model(k).content) else ""
  }

  /** The pass that does not go on raises: the model did, or a tool it asked for. */
  predicate Breaks(k: nat, model: Model) {
    model(k).Fails? || (model(k).stopReason == "tool_use" && ToolUses(model(k).content) != [])
  }

  function EndOf(max: nat, model: Model, tools: Tools): Ended {
    var k := RoundCount(0, max, model, tools);
    if k < max then if Breaks(k, model) then Raised else Answered(AnswerAt(k, model))
    else
      var answer := if max == 0 then "" else AnswerAt(max - 1, model);
      Answered(if answer != "" then answer else Stopped(max))
  }

  function ModelCalls(max: nat, model: Model, tools: Tools): (n: nat)
    ensures n <= max
  {
    var k := RoundCount(0, max, model, tools); if k < max then k + 1 else max
  }

  class Session {
    var messages: seq<Message>

    constructor ()
      ensures messages == []
    {
      messages := [];
    }

    method Add(m: Message)
      modifies this
      ensures messages == old(messages) + [m]
    {
      messages := messages + [m];
    }
  }

  class Agent {
    const session: Session
    const maxIterations: nat

    constructor (session: Session, maxIterations: nat)
      ensures this.session == session && this.maxIterations == maxIterations
    {
      this.session := session;
      this.maxIterations := maxIterations;
    }

    /** The list of results, one call after another; None is an exception. */
    method ExecuteAll(uses: seq<Block>, k: nat, tools: Tools) returns (results: Option<seq<Block>>)
      requires forall b :: b in uses ==> b.ToolUse?
      ensures results == Results(uses, k, tools, |uses|)
    {
      var done: seq<Block> := [];
      for n := 0 to |uses|
        invariant Results(uses, k, tools, n) == Some(done)
      {
        var r := Execute(uses[n], tools(k, n));
        if r.None? {
          StaysRaised(uses, k, tools, n + 1, |uses|);
          return None;
        }
        done := done + [r.value];
      }
      return Some(done);
    }

    /** One pass of the loop. */
    method Pass(k: nat, model: Model, tools: Tools) returns (goesOn: bool, raised: bool, answer: string)
      modifies session
      ensures goesOn == Continues(k, model, tools)
      ensures goesOn ==> session.messages == old(session.messages) + Round(k, model, tools)
      ensures !goesOn ==> session.messages == old(session.messages) + Final(k, k + 1, model) && raised == Breaks(k, model)
      ensures answer == AnswerAt(k, model)
    {
      hide Results, ToolUses, AnswerOf;
      var response := model(k);
      if response.Fails? {
        return false, true, "";
      }
      session.Add(Assistant(response.content));
      answer := AnswerOf(response.content);
      var uses := ToolUses(response.content);
      if response.stopReason != "tool_use" || uses == [] {
        return false, false, answer;
      }
      var results := ExecuteAll(uses, k, tools);
      if results.None? {
        return false, true, answer;
      }
      session.Add(UserBlocks(results.value));
      return true, false, answer;
    }

    /** What the history gains is the user's text, the full rounds and the last answer;
        the model is called once for each. */
    method RunTurn(text: string, model: Model, tools: Tools) returns (ended: Ended, modelCalls: nat)
      modifies session
      ensures session.messages == old(session.messages) + TurnOf(text, maxIterations, model, tools)
      ensures modelCalls == ModelCalls(maxIterations, model, tools) <= maxIterations
      ensures ended == EndOf(maxIterations, model, tools) && Concludes(ended, maxIterations, model, tools)
    {
      EndConcludes(maxIterations, model, tools);
      hide Concludes, Stopped, Continues, Round, Final, AnswerAt, Breaks;
      session.Add(UserText(text));
      var answer := "";
      modelCalls := 0;
      ghost var start := session.messages;
      while modelCalls < maxIterations
        invariant modelCalls <= maxIterations && AllContinue(modelCalls, model, tools)
        invariant session.messages == start + Rounds(modelCalls, model, tools)
        invariant RoundCount(0, maxIterations, model, tools) == RoundCount(modelCalls, maxIterations, model, tools)
        invariant answer == if modelCalls == 0 then "" else AnswerAt(modelCalls - 1, model)
      {
        ghost var before := session.messages;
        var goesOn, raised, said := Pass(modelCalls, model, tools);
        answer := said;
        modelCalls := modelCalls + 1;
        if !goesOn {
          FinalOf(modelCalls - 1, maxIterations, model);
          return if raised then Raised else Answered(answer), modelCalls;
        }
        RoundsGrow(modelCalls - 1, model, tools);
        assert session.messages == start + Rounds(modelCalls, model, tools);
      }
      NoFinal(maxIterations, model);
      return Answered(if answer != "" then answer else Stopped(maxIterations)), modelCalls;
    }
  }

  lemma FinalOf(k: nat, max: nat, model: Model)
    requires k < max
    ensures Final(k, max, model) == Final(k, k + 1, model)
  {
  }

  lemma NoFinal(max: nat, model: Model)
    ensures Final(max, max, model) == []
  {
  }

  lemma RoundsGrow(k: nat, model: Model, tools: Tools)
    requires AllContinue(k, model, tools) && Continues(k, model, tools)
    ensures AllContinue(k + 1, model, tools)
    ensures Rounds(k + 1, model, tools) == Rounds(k, model, tools) + Round(k, model, tools)
  {
  }

  lemma {:induction false} StaysRaised(uses: seq<Block>, k: nat, tools: Tools, n: nat, m: nat)
    requires n <= m <= |uses| && (forall b :: b in uses ==> b.ToolUse?) && Results(uses, k, tools, n).None?
    ensures Results(uses, k, tools, m).None?
    decreases m - n
  {
    if n < m {
      hide Execute;
      StaysRaised(uses, k, tools, n + 1, m);
    }
  }

  // ----- every call is answered ------------------------------------------------------------

  /** Adding a turn that calls nothing, or a turn with its results, keeps the order; adding
      a turn that calls and is not answered breaks it. */
  lemma AddPlain(h: seq<Message>, m: Message)
    requires Orderly(h) && !m.UserBlocks?
    ensures Orderly(h + [m]) <==> !IsCalling(m)
  {
    var all := h + [m];
    hide Matches, IsCalling;
    if !IsCalling(m) {
      forall i | 0 <= i < |all| ensures AnsweredAt(all, i) {
        if i < |h| { assert AnsweredAt(h, i); }
      }
    } else {
      assert !AnsweredAt(all, |h|);
    }
  }

  lemma AddRound(h: seq<Message>, call: Message, results: Message)
    requires Orderly(h) && IsCalling(call) && results.UserBlocks? && Matches(ToolUses(call.content), results.blocks)
    ensures Orderly(h + [call, results])
  {
    var all := h + [call, results];
    hide Matches, ToolUses;
    forall i | 0 <= i < |all| ensures AnsweredAt(all, i) {
      if i < |h| { assert AnsweredAt(h, i); }
    }
  }

  lemma {:induction false} RoundsAreOrderly(h: seq<Message>, k: nat, model: Model, tools: Tools)
    requires Orderly(h) && AllContinue(k, model, tools)
    ensures Orderly(h + Rounds(k, model, tools))
  {
    if k == 0 {
      assert h + [] == h;
    } else {
      RoundsAreOrderly(h, k - 1, model, tools);
      var before := h + Rounds(k - 1, model, tools);
      var round := Round(k - 1, model, tools);
      assert Continues(k - 1, model, tools);
      AddRound(before, round[0], round[1]);
      hide Orderly, Continues, Round;
      assert round == [round[0], round[1]];
      assert h + Rounds(k, model, tools) == before + round;
    }
  }

  /** One turn keeps every call answered exactly when it ends well: also when it is capped,
      and when the model call raises. */
  lemma TurnIsOrderlyIff(h: seq<Message>, text: string, max: nat, model: Model, tools: Tools)
    requires Orderly(h)
    ensures Orderly(h + TurnOf(text, max, model, tools)) <==> EndsWell(max, model, tools)
  {
    var k := RoundCount(0, max, model, tools);
    AddPlain(h, UserText(text));
    RoundsAreOrderly(h + [UserText(text)], k, model, tools);
    var before := h + [UserText(text)] + Rounds(k, model, tools);
    hide Orderly, Rounds;
    assert h + TurnOf(text, max, model, tools) == before + Final(k, max, model);
    if k < max && model(k).Says? {
      AddPlain(before, Assistant(model(k).content));
    } else {
      assert before + [] == before;
    }
  }

  /** What the loop asks of the model and of the tools. */
  lemma PremisesSuffice(max: nat, model: Model, tools: Tools)
    requires forall k: nat :: model(k).Says? && ToolUses(model(k).content) != [] ==> model(k).stopReason == "tool_use"
    requires forall k: nat :: model(k).Says? ==>
               Results(ToolUses(model(k).content), k, tools, |ToolUses(model(k).content)|).Some?
    ensures EndsWell(max, model, tools)
  {
    hide Results, ToolUses;
  }

  // ----- when a turn ends well, in terms of the answers it gets ------------------------------

  predicate TextIsText(block: Json) {
    GetOrNull(block, "type") == Str("text") && Has(block, "text") ==> block.vals["text"].Str?
  }

  predicate TextsAreText(content: Json) { content.Arr? ==> forall block :: block in content.items ==> TextIsText(block) }

  function ContentOf(result: Json): Json { if Has(result, "content") then result.vals["content"] else Arr([]) }

  /** The arguments are a dict, or nothing; the call does not crash; and a result is a dict
      whose text blocks carry text. */
  predicate Returns(use: Block, outcome: ToolOutcome)
    requires use.ToolUse?
  {
    && (Truthy(use.input) ==> use.input.Obj?) && !outcome.Crashed?
    && (outcome.Came? ==> outcome.result.Obj? && TextsAreText(ContentOf(outcome.result)))
  }

  lemma {:induction false} PartsIff(blocks: seq<Json>)
    ensures PartsOf(blocks).Some? <==> forall block :: block in blocks ==> TextIsText(block)
  {
    if blocks != [] {
      PartsIff(blocks[1..]);
      assert PartOf(blocks[0]).Some? <==> TextIsText(blocks[0]);
      hide PartOf, TextIsText;
      assert forall block :: block in blocks <==> block == blocks[0] || block in blocks[1..];
    }
  }

  /** One tool call returns a result exactly then. */
  lemma CallReturnsIff(use: Block, outcome: ToolOutcome)
    requires use.ToolUse?
    ensures Execute(use, outcome).Some? <==> Returns(use, outcome)
  {
    if outcome.Came? && outcome.result.Obj? && ContentOf(outcome.result).Arr? {
      PartsIff(ContentOf(outcome.result).items);
    }
    hide PartsOf, TextIsText, Dumps;
  }

  lemma {:induction false} ResultsIff(uses: seq<Block>, k: nat, tools: Tools, n: nat)
    requires n <= |uses| && forall b :: b in uses ==> b.ToolUse?
    ensures Results(uses, k, tools, n).Some? <==> forall i :: 0 <= i < n ==> Returns(uses[i], tools(k, i))
  {
    hide Returns, Execute;
    if n > 0 {
      ResultsIff(uses, k, tools, n - 1);
      CallReturnsIff(uses[n - 1], tools(k, n - 1));
    }
  }

  /** Answer k asks for its tools, and all of them return. */
  predicate Served(k: nat, model: Model, tools: Tools)
    requires model(k).Says?
  {
    var uses := ToolUses(model(k).content);
    model(k).stopReason == "tool_use" && forall i :: 0 <= i < |uses| ==> Returns(uses[i], tools(k, i))
  }

  predicate Calls(k: nat, model: Model) { model(k).Says? && ToolUses(model(k).content) != [] }

  lemma ContinuesIff(k: nat, model: Model, tools: Tools)
    ensures Continues(k, model, tools) <==> Calls(k, model) && Served(k, model, tools)
  {
    if model(k).Says? {
      var uses := ToolUses(model(k).content);
      ResultsIff(uses, k, tools, |uses|);
    }
    hide Results, Returns, ToolUses;
  }

  /** A turn fails to end well exactly when, within the cap, the first answer that is not a
      served round calls tools all the same: it gave another stop reason, or one of its
      calls does not return. */
  lemma EndsWellIff(max: nat, model: Model, tools: Tools)
    ensures EndsWell(max, model, tools) <==>
              !exists k: nat ::
                 && k < max && Calls(k, model) && !Served(k, model, tools)
                 && forall j: nat :: j < k ==> Calls(j, model) && Served(j, model, tools)
  {
    hide Served, Results, ToolUses, RoundCount;
    var n := RoundCount(0, max, model, tools);
    forall k: nat ensures Continues(k, model, tools) <==> Calls(k, model) && Served(k, model, tools) { ContinuesIff(k, model, tools); }
    hide Continues;
    assert n < max ==> !Continues(n, model, tools);
    forall k: nat | k < max && Calls(k, model) && !Served(k, model, tools)
                    && forall j: nat :: j < k ==> Calls(j, model) && Served(j, model, tools)
      ensures k == n
    {
      assert !Continues(k, model, tools);
    }
  }

  // ----- what a turn returns, in terms of the answers it gets -------------------------------

  /** The non-empty texts of the content, all of them in order, one line feed between two,
      without the blanks around the whole. */
  ghost predicate Reads(content: seq<Block>, answer: string) {
    exists joined :: Speaks(content, joined) && Strips(answer, joined, IsSpace)
  }

  /** Which fixes the answer. */
  lemma ReadsIsUnique(content: seq<Block>, a: string, b: string)
    requires Reads(content, a) && Reads(content, b)
    ensures a == b
  {
    hide Speaks, Strips;
    var joined :| Speaks(content, joined) && Strips(a, joined, IsSpace);
    var joined' :| Speaks(content, joined') && Strips(b, joined', IsSpace);
    SpeaksIsUnique(content, joined, joined');
    StripsIsUnique(a, b, joined, IsSpace);
  }

  /** A single text without outer blanks is the answer as it is, whatever tool calls and
      empty texts stand around it. */
  lemma OneTextIsTheAnswer(content: seq<Block>, i: nat, text: string, answer: string)
    requires i < |content| && content[i] == Text(text) && text != "" && !IsSpace(text[0]) && !IsSpace(text[|text| - 1])
    requires forall j :: 0 <= j < |content| && j != i ==> !IsSaid(content[j])
    requires Reads(content, answer)
    ensures answer == text
  {
    OnlyOnePicked(content, i);
    JoinsOne(text, '\n');
    assert TextsIn([content[i]]) == [text];
    assert StripsAt(text, text, IsSpace, 0, |text|);
    assert Strips(text, text, IsSpace);
    hide Picks, Joins, Strips, IsSpace;
    assert Speaks(content, text);
    ReadsIsUnique(content, answer, text);
  }

  lemma OnlyOnePicked(content: seq<Block>, i: nat)
    requires i < |content| && IsSaid(content[i]) && forall j :: 0 <= j < |content| && j != i ==> !IsSaid(content[j])
    ensures Picks([content[i]], content, IsSaid)
  {
    NoneCounted(content[..i]);
    CountGrows(content, i, IsSaid);
    CountTail(content, i + 1);
    assert StandsAt([content[i]], content, IsSaid, i);
  }

  lemma {:induction false} NoneCounted(content: seq<Block>)
    requires forall j :: 0 <= j < |content| ==> !IsSaid(content[j])
    ensures Count(content, IsSaid) == 0
  {
    if content != [] {
      NoneCounted(content[..|content| - 1]);
    }
  }

  lemma {:induction false} CountTail(content: seq<Block>, k: nat)
    requires k <= |content| && forall j :: k <= j < |content| ==> !IsSaid(content[j])
    ensures Count(content, IsSaid) == Count(content[..k], IsSaid)
    decreases |content| - k
  {
    if k < |content| {
      CountGrows(content, k, IsSaid);
      CountTail(content, k + 1);
    } else {
      assert content[..k] == content;
    }
  }

  predicate RoundsServed(k: nat, model: Model, tools: Tools) {
    forall j: nat :: j < k ==> Calls(j, model) && Served(j, model, tools)
  }

  /** Answer k asks for a tool call that does not return. */
  predicate AsksInVain(k: nat, model: Model, tools: Tools) {
    && Calls(k, model) && model(k).stopReason == "tool_use"
    && exists i :: 0 <= i < |ToolUses(model(k).content)| && !Returns(ToolUses(model(k).content)[i], tools(k, i))
  }

  /** Answer k is the first that is no served round: the turn raises if the model did or a
      call does not return, and otherwise returns that answer's texts. */
  ghost predicate EndsAt(k: nat, ended: Ended, model: Model, tools: Tools) {
    && !(Calls(k, model) && Served(k, model, tools))
    && if model(k).Fails? || AsksInVain(k, model, tools) then ended.Raised?
       else ended.Answered? && Reads(model(k).content, ended.text)
  }

  /** All rounds of the turn were served: the texts of the last answer, or, when they are
      blank, that it was stopped. */
  ghost predicate EndsCapped(max: nat, ended: Ended, model: Model) {
    && ended.Answered?
    && if max == 0 || (model(max - 1).Says? && Reads(model(max - 1).content, "")) then ended.text == Stopped(max)
       else model(max - 1).Says? && Reads(model(max - 1).content, ended.text)
  }

  ghost predicate Concludes(ended: Ended, max: nat, model: Model, tools: Tools) {
    exists k: nat :: k <= max && RoundsServed(k, model, tools) && if k == max then EndsCapped(max, ended, model) else EndsAt(k, ended, model, tools)
  }

  lemma EndConcludes(max: nat, model: Model, tools: Tools)
    ensures Concludes(EndOf(max, model, tools), max, model, tools)
  {
    var k := RoundCount(0, max, model, tools);
    var ended := EndOf(max, model, tools);
    forall j: nat | j < k ensures Calls(j, model) && Served(j, model, tools) {
      assert Continues(j, model, tools);
      ContinuesIff(j, model, tools);
    }
    assert RoundsServed(k, model, tools);
    ContinuesIff(k, model, tools);
    if k < max && model(k).Says? {
      AnswerReads(model(k).content);
    }
    if k == max && max > 0 {
      assert Calls(max - 1, model);
      AnswerReads(model(max - 1).content);
      if Reads(model(max - 1).content, "") { ReadsIsUnique(model(max - 1).content, "", AnswerOf(model(max - 1).content)); }
    }
    hide RoundCount, Returns, ToolUses, Continues, Reads, AnswerOf, Stopped;
    if k == max { assert EndsCapped(max, ended, model); } else { assert EndsAt(k, ended, model, tools); }
  }

  // ----- and so it does ------------------------------------------------------------------------

  lemma AnswerReads(content: seq<Block>)
    ensures Reads(content, AnswerOf(content))
  {
    TextsSpeak(content);
    StripStrips(Join(NonEmpty(Texts(content))));
    hide Speaks, Strips, Join, NonEmpty, Texts, Strip;
  }

  // ----- what the model is told of a call -----------------------------------------------------

  predicate IsPart(part: string, block: Json) {
    if Has(block, "type") && GetOrNull(block, "type") == Str("text") then
      Str(part) == (if Has(block, "text") then GetOrNull(block, "text") else Str(""))
    else part == Dumps(block, SPACED)
  }

  /** A result's text blocks reach the model as they are, any other block as JSON, one line
      feed between two. */
  lemma ContentReachesTheModel(use: Json, result: Json, blocks: seq<Json>)
    requires Has(result, "content") && GetOrNull(result, "content") == Arr(blocks) && ResultOf(use, Came(result)).Some?
    ensures exists parts :: |parts| == |blocks| && (forall i :: 0 <= i < |blocks| ==> IsPart(parts[i], blocks[i]))
                         && Joins(ResultOf(use, Came(result)).value.content, parts, '\n')
    ensures ResultOf(use, Came(result)).value.isError == Truthy(GetOrNull(result, "isError"))
  {
    var parts := PartsOf(blocks).value;
    PartsAreParts(blocks);
    JoinJoins(parts);
    hide PartsOf, IsPart, Joins, Join, Truthy;
  }

  lemma {:induction false} PartsAreParts(blocks: seq<Json>)
    requires PartsOf(blocks).Some?
    ensures |PartsOf(blocks).value| == |blocks| && forall i :: 0 <= i < |blocks| ==> IsPart(PartsOf(blocks).value[i], blocks[i])
  {
    if blocks != [] {
      PartsAreParts(blocks[1..]);
      var parts := PartsOf(blocks).value;
      assert IsPart(parts[0], blocks[0]);
      hide IsPart, PartOf;
      forall i | 0 < i < |blocks| ensures IsPart(parts[i], blocks[i]) {
        assert parts[i] == PartsOf(blocks[1..]).value[i - 1] && blocks[i] == blocks[1..][i - 1];
      }
    }
  }

  predicate Mentions(text: string, message: string) { exists i, j :: 0 <= i <= j <= |text| && text[i..j] == message }

  /** What the loop catches is an error result with the exception's own message in it. */
  lemma FailuresAreReported(use: Json, outcome: ToolOutcome)
    requires !outcome.Came? && !outcome.Crashed?
    ensures var r := ResultOf(use, outcome); r.Some? && r.value.isError && Mentions(r.value.content, outcome.message)
    ensures outcome.Rejected? ==> Mentions(ResultOf(use, outcome).value.content, IntText(outcome.code))
  {
    hide Mentions, IntText;
    match outcome
    case NotFound(message) =>
      assert "" + message + "" == message;
      MentionsWithin("", message, "");
    case Rejected(code, message) =>
      var text := "Protocol error " + IntText(code) + ": " + message;
      assert text == "Protocol error " + IntText(code) + (": " + message);
      assert text == ("Protocol error " + IntText(code) + ": ") + message + "";
      MentionsWithin("Protocol error ", IntText(code), ": " + message);
      MentionsWithin("Protocol error " + IntText(code) + ": ", message, "");
    case Lost(message) =>
      assert "Transport error: " + message + "" == "Transport error: " + message;
      MentionsWithin("Transport error: ", message, "");
  }

  lemma MentionsWithin(front: string, message: string, rest: string)
    ensures Mentions(front + message + rest, message)
  {
    var text := front + message + rest;
    assert text[|front|..|front| + |message|] == message;
  }

  // ----- whole conversations ------------------------------------------------------------------

  datatype UserTurn = UserTurn(text: string, model: Model, tools: Tools)

  /** The history after some turns, each run to its end, however it ended. */
  function HistoryOf(turns: seq<UserTurn>, max: nat): seq<Message> {
    if turns == [] then []
    else
      var n := |turns| - 1;
      HistoryOf(turns[..n], max) + TurnOf(turns[n].text, max, turns[n].model, turns[n].tools)
  }

  lemma BrokenStaysBroken(h: seq<Message>, more: seq<Message>)
    requires !Orderly(h) && more != [] && more[0].UserText?
    ensures !Orderly(h + more)
  {
    hide Matches, IsCalling;
    var all := h + more;
    if i :| 0 <= i < |h| && !AnsweredAt(h, i) {
      assert !AnsweredAt(all, i);
    } else {
      var i :| 0 <= i < |h| && h[i].UserBlocks? && !(i > 0 && IsCalling(h[i - 1]));
      assert all[i].UserBlocks? && (i > 0 ==> all[i - 1] == h[i - 1]);
    }
  }

  /** After any number of turns every tool-calling turn is followed at once by its results,
      in order, exactly when every single turn ended well. */
  lemma {:induction false} ConversationIsOrderlyIff(turns: seq<UserTurn>, max: nat)
    ensures Orderly(HistoryOf(turns, max)) <==>
              forall i :: 0 <= i < |turns| ==> EndsWell(max, turns[i].model, turns[i].tools)
  {
    hide Orderly, EndsWell, TurnOf;
    if turns == [] {
      assert Orderly([]) by { NothingIsOrderly(); }
    } else {
      var n := |turns| - 1;
      var h := HistoryOf(turns[..n], max);
      ConversationIsOrderlyIff(turns[..n], max);
      assert forall i :: 0 <= i < n ==> turns[..n][i] == turns[i];
      if Orderly(h) {
        TurnIsOrderlyIff(h, turns[n].text, max, turns[n].model, turns[n].tools);
      } else {
        TurnStarts(turns[n].text, max, turns[n].model, turns[n].tools);
        BrokenStaysBroken(h, TurnOf(turns[n].text, max, turns[n].model, turns[n].tools));
      }
    }
  }

  lemma NothingIsOrderly()
    ensures Orderly([])
  {
  }

  lemma TurnStarts(text: string, max: nat, model: Model, tools: Tools)
    ensures TurnOf(text, max, model, tools) != [] && TurnOf(text, max, model, tools)[0].UserText?
  {
  }

  /** And what such a conversation puts on the wire has, behind each tool-calling reply,
      exactly one tool message per call. */
  lemma ConversationIsWired(turns: seq<UserTurn>, max: nat)
    requires forall i :: 0 <= i < |turns| ==> EndsWell(max, turns[i].model, turns[i].tools)
    ensures Wired(ConvertAll(HistoryOf(turns, max)))
  {
    ConversationIsOrderlyIff(turns, max);
    WireIsPaired(HistoryOf(turns, max));
  }
}
