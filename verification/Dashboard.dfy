/** Which part of the conversation the dashboard shows. */
module Dashboard {

  const LOG_PANEL_ROWS := 8
  const SIDEBAR_WIDTH := 26
  const HEADER_ROWS := 3
  const FOOTER_ROWS := 3
  const CONVERSATION_CHROME := 4
  const CONVERSATION_CHROME_ROWS := 2

  datatype Line = Line(role: string, text: string)

  datatype Screen = Screen(height: int, width: int, showLog: bool)

  function Max(a: int, b: int): int { if a >= b then a else b }

  function ConversationRows(s: Screen): (r: int)
    ensures r >= 3
  {
    Max(3, s.height - (HEADER_ROWS + FOOTER_ROWS + if s.showLog then LOG_PANEL_ROWS + 2 else 0) - CONVERSATION_CHROME_ROWS)
  }

  function ConversationWidth(s: Screen): (r: int)
    ensures r >= 20
  {
    Max(20, s.width - SIDEBAR_WIDTH - CONVERSATION_CHROME)
  }

  /** -(-n // span) */
  function CeilDiv(n: nat, span: int): int
    requires span >= 1
  {
    -((0 - n) / span)
  }

  function Prefix(role: string): nat {
    if role == "user" then 2 else if role == "tool" || role == "error" then 4 else 0
  }

  function EntryRows(line: Line, width: int): (r: int)
  {
    if line.role == "output" then 1
    else Max(1, CeilDiv(|line.text|, Max(1, width - Prefix(line.role)))) + 1
  }

  function Rows(lines: seq<Line>, width: int): int {
    if lines == [] then 0 else EntryRows(lines[0], width) + Rows(lines[1..], width)
  }

  function Tail(lines: seq<Line>, k: nat): seq<Line>
    requires k <= |lines|
  {
    lines[|lines| - k..]
  }

  /** The last k lines are what is shown: the newest always, more only if all of it fits,
      and not one line less than fits. */
  predicate Shown(lines: seq<Line>, s: Screen, k: nat) {
    var budget, width := ConversationRows(s), ConversationWidth(s);
    && k <= |lines| && (lines != [] ==> k >= 1)
    && (k > 1 ==> Rows(Tail(lines, k), width) <= budget)
    && (k < |lines| ==> Rows(Tail(lines, k + 1), width) > budget)
  }

  lemma TailGrows(lines: seq<Line>, k: nat, width: int)
    requires k < |lines|
    ensures Rows(Tail(lines, k + 1), width) == EntryRows(lines[|lines| - 1 - k], width) + Rows(Tail(lines, k), width)
  {
    assert Tail(lines, k + 1)[1..] == Tail(lines, k);
  }

  /** visible_transcript: backwards until the budget runs out. */
  method VisibleTranscript(lines: seq<Line>, s: Screen) returns (kept: seq<Line>)
    ensures |kept| <= |lines| && kept == Tail(lines, |kept|) && Shown(lines, s, |kept|)
  {
    var budget := ConversationRows(s);
    var width := ConversationWidth(s);
    kept := [];
    while |kept| < |lines|
      invariant |kept| <= |lines| && kept == Tail(lines, |kept|)
      invariant budget == ConversationRows(s) - Rows(kept, width)
      invariant |kept| > 1 ==> budget >= 0
      decreases |lines| - |kept|
    {
      var line := lines[|lines| - 1 - |kept|];
      var cost := EntryRows(line, width);
      TailGrows(lines, |kept|, width);
      if kept != [] && budget - cost < 0 {
        return;
      }
      budget := budget - cost;
      kept := [line] + kept;
    }
  }

  // ----- the longest suffix -----------------------------------------------------------------

  lemma EntryHasRows(line: Line, width: int)
    ensures EntryRows(line, width) >= 1
  {
  }

  lemma {:induction false} LongerCostsMore(lines: seq<Line>, j: nat, k: nat, width: int)
    requires j <= k <= |lines|
    ensures Rows(Tail(lines, j), width) + (k - j) <= Rows(Tail(lines, k), width)
    decreases k - j
  {
    if j < k {
      LongerCostsMore(lines, j, k - 1, width);
      TailGrows(lines, k - 1, width);
      EntryHasRows(lines[|lines| - k], width);
    }
  }

  /** What is shown is the one longest suffix that fits, or the newest line alone when even
      that does not. */
  lemma ShownIsLongest(lines: seq<Line>, s: Screen, k: nat, j: nat)
    requires Shown(lines, s, k) && j <= |lines| && Rows(Tail(lines, j), ConversationWidth(s)) <= ConversationRows(s)
    ensures j <= k
  {
    if j > k {
      LongerCostsMore(lines, k + 1, j, ConversationWidth(s));
    }
  }

  lemma ShownIsUnique(lines: seq<Line>, s: Screen, j: nat, k: nat)
    requires Shown(lines, s, j) && Shown(lines, s, k)
    ensures j == k
  {
    if j < k {
      LongerCostsMore(lines, j + 1, k, ConversationWidth(s));
    } else if k < j {
      LongerCostsMore(lines, k + 1, j, ConversationWidth(s));
    }
  }

  /** The rows of an entry: one for a line of output; otherwise as many spans as its text
      needs and no more, at least one, and a blank row behind. */
  lemma EntryRowsAre(line: Line, width: int)
    ensures var rows := EntryRows(line, width);
            var indent := if line.role == "user" then 2 else if line.role in ["tool", "error"] then 4 else 0;
            var span := if width - indent >= 1 then width - indent else 1;
            if line.role == "output" then rows == 1
            else rows >= 2 && |line.text| <= (rows - 1) * span && (rows > 2 ==> (rows - 2) * span < |line.text|)
  {
    var span := Max(1, width - Prefix(line.role));
    var lines := CeilDiv(|line.text|, span);
    CeilDivBounds(|line.text|, span);
    assert (lines - 1) * span == lines * span - span;
    hide CeilDiv;
  }

  /** Header, footer, borders and, unless it is collapsed, the log take their rows; the
      sidebar and the panel's edges their columns. */
  lemma PanelIs(s: Screen)
    ensures ConversationRows(s) == (if s.height - (if s.showLog then 18 else 8) > 3 then s.height - (if s.showLog then 18 else 8) else 3)
    ensures ConversationWidth(s) == if s.width > 50 then s.width - 30 else 20
  {
  }

  // ----- a larger screen never hides a line ---------------------------------------------------

  lemma CeilDivBounds(n: nat, span: int)
    requires span >= 1
    ensures CeilDiv(n, span) >= 0 && n <= CeilDiv(n, span) * span < n + span
  {
    var q, r := (0 - n) / span, (0 - n) % span;
    assert 0 - n == q * span + r && 0 <= r < span;
    assert (-q) * span == -(q * span);
    Cancelled(-1, -q, span);
  }

  lemma WiderSpanFewerRows(n: nat, narrow: int, wide: int)
    requires 1 <= narrow <= wide
    ensures CeilDiv(n, wide) <= CeilDiv(n, narrow)
  {
    CeilDivBounds(n, narrow);
    CeilDivBounds(n, wide);
    var p, q := CeilDiv(n, narrow), CeilDiv(n, wide);
    hide CeilDiv;
    Scaled(p, narrow, wide);
    assert (p + 1) * wide == p * wide + wide;
    Cancelled(q, p + 1, wide);
  }

  lemma Scaled(p: int, a: int, b: int)
    requires p >= 0 && a <= b
    ensures p * a <= p * b
  {
  }

  lemma Cancelled(p: int, q: int, a: int)
    requires a >= 1 && p * a < q * a
    ensures p < q
  {
  }

  lemma WiderIsShorter(line: Line, narrow: int, wide: int)
    requires narrow <= wide
    ensures EntryRows(line, wide) <= EntryRows(line, narrow)
  {
    WiderSpanFewerRows(|line.text|, Max(1, narrow - Prefix(line.role)), Max(1, wide - Prefix(line.role)));
    hide CeilDiv;
  }

  lemma {:induction false} WiderCostsLess(lines: seq<Line>, narrow: int, wide: int)
    requires narrow <= wide
    ensures Rows(lines, wide) <= Rows(lines, narrow)
  {
    if lines != [] {
      WiderIsShorter(lines[0], narrow, wide);
      hide EntryRows;
      WiderCostsLess(lines[1..], narrow, wide);
    }
  }

  /** A terminal that grows in either dimension, or a log that is collapsed, never hides a
      line that was visible. */
  lemma GrowingNeverHides(lines: seq<Line>, small: Screen, large: Screen, j: nat, k: nat)
    requires small.height <= large.height && small.width <= large.width && (large.showLog ==> small.showLog)
    requires Shown(lines, small, j) && Shown(lines, large, k)
    ensures j <= k
  {
    if j > 1 {
      WiderCostsLess(Tail(lines, j), ConversationWidth(small), ConversationWidth(large));
      assert ConversationRows(small) <= ConversationRows(large);
      hide Rows;
      ShownIsLongest(lines, large, k, j);
    }
  }
}
