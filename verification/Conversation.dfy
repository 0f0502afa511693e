/** The normalised history that the agent loop keeps and the adapters translate. */
module Conversation {
  import opened Prelude
  import opened JsonValues
  import opened Sequences

  /** `Other` is any block the loop and the adapters pass over. */
  datatype Block =
    | Text(text: string)
    | ToolUse(id: Json, name: Json, input: Json)
    | ToolResult(toolUseId: Json, content: string, isError: bool)
    | Other

  datatype Message =
    | UserText(text: string)
    | UserBlocks(blocks: seq<Block>)
    | Assistant(content: seq<Block>)

  function ToolUses(blocks: seq<Block>): (r: seq<Block>)
    ensures forall b :: b in r ==> b.ToolUse?
  {
    if blocks == [] then []
    else (if blocks[0].ToolUse? then [blocks[0]] else []) + ToolUses(blocks[1..])
  }

  function UseIds(uses: seq<Block>): (r: seq<Json>)
    requires forall b :: b in uses ==> b.ToolUse?
    ensures |r| == |uses| && forall i :: 0 <= i < |r| ==> r[i] == uses[i].id
  {
    seq(|uses|, i requires 0 <= i < |uses| => uses[i].id)
  }

  predicate AllResults(blocks: seq<Block>) { forall i :: 0 <= i < |blocks| ==> blocks[i].ToolResult? }

  /** One result for each call, in order, and nothing else. */
  predicate Matches(uses: seq<Block>, results: seq<Block>)
    requires forall b :: b in uses ==> b.ToolUse?
  {
    && AllResults(results) && |results| == |uses|
    && forall i :: 0 <= i < |uses| ==> results[i].toolUseId == uses[i].id
  }

  predicate IsCalling(m: Message) { m.Assistant? && ToolUses(m.content) != [] }

  /** The tool-calling turn at i is followed at once by the turn with its results. */
  predicate AnsweredAt(messages: seq<Message>, i: nat)
    requires i < |messages|
  {
    IsCalling(messages[i]) ==>
      && i + 1 < |messages| && messages[i + 1].UserBlocks?
      && Matches(ToolUses(messages[i].content), messages[i + 1].blocks)
  }

  ghost predicate Paired(messages: seq<Message>) {
    forall i :: 0 <= i < |messages| ==> AnsweredAt(messages, i)
  }

  function Join(parts: seq<string>): string {
    if parts == [] then ""
    else if |parts| == 1 then parts[0]
    else parts[0] + "\n" + Join(parts[1..])
  }

  function Texts(blocks: seq<Block>): seq<string> {
    if blocks == [] then []
    else (if blocks[0].Text? then [blocks[0].text] else []) + Texts(blocks[1..])
  }

  function NonEmpty(parts: seq<string>): seq<string> {
    if parts == [] then [] else (if parts[0] != "" then [parts[0]] else []) + NonEmpty(parts[1..])
  }

  // ----- told by positions ---------------------------------------------------------------

  predicate IsSaid(b: Block) { b.Text? && b.text != "" }

  function TextsIn(said: seq<Block>): (r: seq<string>)
    ensures |r| == |said| && forall i :: 0 <= i < |r| ==> r[i] == (if said[i].Text? then said[i].text else "")
  {
    seq(|said|, i requires 0 <= i < |said| => if said[i].Text? then said[i].text else "")
  }

  /** The non-empty texts, all of them in order, one line feed between two. */
  ghost predicate Speaks(content: seq<Block>, joined: string) {
    exists said :: Picks(said, content, IsSaid) && Joins(joined, TextsIn(said), '\n')
  }

  function Said(content: seq<Block>): seq<Block> {
    if content == [] then [] else (if IsSaid(content[0]) then [content[0]] else []) + Said(content[1..])
  }

  lemma {:induction false} SaidIsPicked(content: seq<Block>)
    ensures Picks(Said(content), content, IsSaid) && TextsIn(Said(content)) == NonEmpty(Texts(content))
  {
    if content != [] {
      SaidIsPicked(content[1..]);
      PicksMore(content[0], Said(content[1..]), content[1..], IsSaid);
      var rest := Texts(content[1..]);
      assert content[0].Text? ==> Texts(content) == [content[0].text] + rest && Texts(content)[1..] == rest;
      assert !content[0].Text? ==> Texts(content) == rest;
      assert [content[0]] + content[1..] == content;
      assert TextsIn(Said(content)) == (if IsSaid(content[0]) then [content[0].text] else []) + TextsIn(Said(content[1..]));
      hide Picks;
    }
  }

  lemma {:induction false} JoinBehind(parts: seq<string>, part: string)
    requires parts != []
    ensures Join(parts + [part]) == Join(parts) + ['\n'] + part
  {
    var all := parts + [part];
    assert all[1..] == parts[1..] + [part];
    if |parts| > 1 {
      JoinBehind(parts[1..], part);
    } else {
      assert all[1..] == [part];
    }
  }

  lemma {:induction false} JoinJoins(parts: seq<string>)
    ensures Joins(Join(parts), parts, '\n')
  {
    if |parts| == 1 {
      assert parts == [parts[0]];
      JoinsOne(parts[0], '\n');
    } else if |parts| > 1 {
      var n := |parts| - 1;
      assert parts == parts[..n] + [parts[n]];
      JoinJoins(parts[..n]);
      JoinBehind(parts[..n], parts[n]);
      hide Joins, Join;
      JoinsMore(Join(parts[..n]), parts[..n], '\n', parts[n]);
    }
  }

  lemma TextsSpeak(content: seq<Block>)
    ensures Speaks(content, Join(NonEmpty(Texts(content))))
  {
    SaidIsPicked(content);
    JoinJoins(NonEmpty(Texts(content)));
    hide Picks, Joins, Join, NonEmpty, Texts, Said;
  }

  lemma SpeaksIsUnique(content: seq<Block>, a: string, b: string)
    requires Speaks(content, a) && Speaks(content, b)
    ensures a == b
  {
    hide Picks, Joins;
    var said :| Picks(said, content, IsSaid) && Joins(a, TextsIn(said), '\n');
    var said' :| Picks(said', content, IsSaid) && Joins(b, TextsIn(said'), '\n');
    PicksIsUnique(said, said', content, IsSaid);
    JoinsIsUnique(a, b, TextsIn(said), '\n');
  }

  predicate IsUse(b: Block) { b.ToolUse? }

  /** The calls of an answer are its tool-use blocks, all of them, in order. */
  lemma {:induction false} ToolUsesArePicked(content: seq<Block>)
    ensures Picks(ToolUses(content), content, IsUse)
  {
    if content != [] {
      ToolUsesArePicked(content[1..]);
      PicksMore(content[0], ToolUses(content[1..]), content[1..], IsUse);
      assert [content[0]] + content[1..] == content;
      hide Picks;
    }
  }
}
