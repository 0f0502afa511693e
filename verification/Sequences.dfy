/** What a filter, a join and a strip give back, told by positions. */
module Sequences {

  // ----- a filter ------------------------------------------------------------------------

  function Count<T>(all: seq<T>, wanted: T -> bool): nat {
    if all == [] then 0 else Count(all[..|all| - 1], wanted) + if wanted(all[|all| - 1]) then 1 else 0
  }

  lemma {:induction false} CountGrows<T>(all: seq<T>, k: nat, wanted: T -> bool)
    requires k < |all|
    ensures Count(all[..k + 1], wanted) == Count(all[..k], wanted) + (if wanted(all[k]) then 1 else 0)
    ensures Count(all[..k], wanted) <= Count(all, wanted) && (wanted(all[k]) ==> Count(all[..k], wanted) < Count(all, wanted))
    decreases |all| - k
  {
    assert all[..k + 1][..k] == all[..k];
    if k + 1 < |all| {
      CountGrows(all, k + 1, wanted);
    } else {
      assert all[..k + 1] == all;
    }
  }

  /** `kept` is as long as there are wanted elements, and each of those stands in it behind
      the ones wanted before it: all of them, no other, in order. */
  ghost predicate Picks<T>(kept: seq<T>, all: seq<T>, wanted: T -> bool) {
    |kept| == Count(all, wanted) && forall k :: 0 <= k < |all| && wanted(all[k]) ==> StandsAt(kept, all, wanted, k)
  }

  ghost predicate StandsAt<T>(kept: seq<T>, all: seq<T>, wanted: T -> bool, k: nat)
    requires k < |all|
  {
    Count(all[..k], wanted) < |kept| && kept[Count(all[..k], wanted)] == all[k]
  }

  lemma {:induction false} CountInFront<T>(x: T, all: seq<T>, wanted: T -> bool)
    ensures Count([x] + all, wanted) == (if wanted(x) then 1 else 0) + Count(all, wanted)
  {
    if all == [] {
      assert [x][..0] == [];
      assert [x] + all == [x];
    } else {
      var n := |all| - 1;
      CountInFront(x, all[..n], wanted);
      assert ([x] + all)[..n + 1] == [x] + all[..n];
    }
  }

  lemma PicksNothing<T>(wanted: T -> bool)
    ensures Picks([], [], wanted)
  {
  }

  /** One more element in front. */
  lemma PicksMore<T>(x: T, kept: seq<T>, all: seq<T>, wanted: T -> bool)
    requires Picks(kept, all, wanted)
    ensures Picks((if wanted(x) then [x] else []) + kept, [x] + all, wanted)
  {
    var kept', all' := (if wanted(x) then [x] else []) + kept, [x] + all;
    CountInFront(x, all, wanted);
    forall k | 0 <= k < |all'| && wanted(all'[k]) ensures StandsAt(kept', all', wanted, k) {
      if k > 0 {
        assert StandsAt(kept, all, wanted, k - 1);
        assert all'[..k] == [x] + all[..k - 1];
        CountInFront(x, all[..k - 1], wanted);
      } else {
        assert all'[..0] == [];
      }
    }
  }

  lemma {:induction false} IsCounted<T>(all: seq<T>, wanted: T -> bool, i: nat) returns (k: nat)
    requires i < Count(all, wanted)
    ensures k < |all| && wanted(all[k]) && Count(all[..k], wanted) == i
  {
    var n := |all| - 1;
    if i < Count(all[..n], wanted) {
      k := IsCounted(all[..n], wanted, i);
      assert all[..n][..k] == all[..k];
    } else {
      k := n;
    }
  }

  /** There is one such list. */
  lemma PicksIsUnique<T>(a: seq<T>, b: seq<T>, all: seq<T>, wanted: T -> bool)
    requires Picks(a, all, wanted) && Picks(b, all, wanted)
    ensures a == b
  {
    forall i | 0 <= i < |a| ensures a[i] == b[i] {
      var k := IsCounted(all, wanted, i);
      assert StandsAt(a, all, wanted, k) && StandsAt(b, all, wanted, k);
    }
  }

  // ----- a join ----------------------------------------------------------------------------

  /** Behind the parts before it, and a separator for each. */
  function Start(parts: seq<string>, i: nat): nat
    requires i <= |parts|
  {
    if i == 0 then 0 else Start(parts, i - 1) + |parts[i - 1]| + 1
  }

  lemma {:induction false} StartAscends(parts: seq<string>, i: nat, j: nat)
    requires i < j <= |parts|
    ensures Start(parts, i) + |parts[i]| + 1 <= Start(parts, j)
    decreases j
  {
    if i + 1 < j {
      StartAscends(parts, i, j - 1);
    }
  }

  lemma {:induction false} StartOfPrefix(parts: seq<string>, n: nat, i: nat)
    requires i <= n <= |parts|
    ensures Start(parts[..n], i) == Start(parts, i)
  {
    if i > 0 {
      StartOfPrefix(parts, n, i - 1);
    }
  }

  ghost predicate PartAt(s: string, parts: seq<string>, separator: char, i: nat)
    requires i < |parts|
  {
    var at := Start(parts, i);
    at + |parts[i]| <= |s| && s[at..at + |parts[i]|] == parts[i] && (i > 0 ==> s[at - 1] == separator)
  }

  /** The parts stand in `s` in order, with one separator between neighbours and nothing
      before, behind or between them. */
  ghost predicate Joins(s: string, parts: seq<string>, separator: char) {
    if parts == [] then s == ""
    else |s| + 1 == Start(parts, |parts|) && forall i :: 0 <= i < |parts| ==> PartAt(s, parts, separator, i)
  }

  lemma JoinsOne(s: string, separator: char)
    ensures Joins(s, [s], separator)
  {
    assert PartAt(s, [s], separator, 0);
    assert Start([s], 1) == |s| + 1;
  }

  /** One more part behind. */
  lemma JoinsMore(s: string, parts: seq<string>, separator: char, part: string)
    requires Joins(s, parts, separator) && parts != []
    ensures Joins(s + [separator] + part, parts + [part], separator)
  {
    var n, all, parts' := |parts|, s + [separator] + part, parts + [part];
    assert parts'[..n] == parts;
    StartOfPrefix(parts', n, n);
    forall i | 0 <= i < n + 1 ensures PartAt(all, parts', separator, i) {
      StartOfPrefix(parts', n, i);
      if i < n {
        assert PartAt(s, parts, separator, i);
        Within(s, all, Start(parts, i), Start(parts, i) + |parts[i]|);
      } else {
        assert all[|s| + 1..] == part;
      }
    }
  }

  lemma Within(s: string, all: string, lo: nat, hi: nat)
    requires s <= all && lo <= hi <= |s|
    ensures all[lo..hi] == s[lo..hi]
  {
  }

  /** There is one such string. */
  lemma {:induction false} JoinsIsUnique(s: string, t: string, parts: seq<string>, separator: char)
    requires Joins(s, parts, separator) && Joins(t, parts, separator)
    ensures s == t
  {
    var n := |parts| - 1;
    if n == 0 {
      assert PartAt(s, parts, separator, 0) && PartAt(t, parts, separator, 0);
      assert Start(parts, 1) == |parts[0]| + 1;
    } else if n > 0 {
      LastJoined(s, parts, separator);
      LastJoined(t, parts, separator);
      hide Joins;
      JoinsIsUnique(s[..Start(parts, n) - 1], t[..Start(parts, n) - 1], parts[..n], separator);
    }
  }

  lemma LastJoined(s: string, parts: seq<string>, separator: char)
    requires Joins(s, parts, separator) && |parts| > 1
    ensures var n := |parts| - 1; var m := Start(parts, n);
            0 < m <= |s| && s == s[..m - 1] + [separator] + parts[n] && Joins(s[..m - 1], parts[..n], separator)
  {
    var n := |parts| - 1;
    var m := Start(parts, n);
    assert PartAt(s, parts, separator, n) && |s| == m + |parts[n]|;
    StartAscends(parts, n - 1, n);
    SplitAt(s, m, separator, parts[n]);
    assert forall i :: 0 <= i < n ==> PartAt(s, parts, separator, i);
    hide Start, Joins, PartAt;
    InitJoined(s, parts, separator, n);
  }

  lemma InitJoined(s: string, parts: seq<string>, separator: char, n: nat)
    requires 0 < n < |parts| && 0 < Start(parts, n) <= |s| && forall i :: 0 <= i < n ==> PartAt(s, parts, separator, i)
    ensures Joins(s[..Start(parts, n) - 1], parts[..n], separator)
  {
    var before, init := s[..Start(parts, n) - 1], parts[..n];
    StartOfPrefix(parts, n, n);
    hide Start, PartAt;
    forall i | 0 <= i < n ensures PartAt(before, init, separator, i) {
      StartOfPrefix(parts, n, i);
      StartAscends(parts, i, n);
      PartWithin(s, before, parts, init, separator, i);
    }
  }

  lemma SplitAt(s: string, m: nat, separator: char, part: string)
    requires 0 < m && |s| == m + |part| && s[m..m + |part|] == part && s[m - 1] == separator
    ensures s == s[..m - 1] + [separator] + part
  {
  }

  lemma PartWithin(s: string, before: string, parts: seq<string>, init: seq<string>, separator: char, i: nat)
    requires i < |init| && init <= parts && before <= s && PartAt(s, parts, separator, i)
    requires Start(init, i) == Start(parts, i) && Start(parts, i) + |parts[i]| <= |before|
    ensures PartAt(before, init, separator, i)
  {
    hide Start;
    if i > 0 { StartAscends(parts, i - 1, i); }
    Within(before, s, Start(parts, i), Start(parts, i) + |parts[i]|);
  }

  // ----- a strip ---------------------------------------------------------------------------

  /** `t` is `s` without its outer blanks, and no character less. */
  ghost predicate Strips(t: string, s: string, blank: char -> bool) {
    (t != "" ==> !blank(t[0]) && !blank(t[|t| - 1])) && exists i, j :: StripsAt(t, s, blank, i, j)
  }

  ghost predicate StripsAt(t: string, s: string, blank: char -> bool, i: int, j: int) {
    && 0 <= i <= j <= |s| && t == s[i..j]
    && (forall k :: 0 <= k < i ==> blank(s[k])) && (forall k :: j <= k < |s| ==> blank(s[k]))
  }

  /** There is one such string. */
  lemma StripsIsUnique(t: string, u: string, s: string, blank: char -> bool)
    requires Strips(t, s, blank) && Strips(u, s, blank)
    ensures t == u
  {
    var i, j :| StripsAt(t, s, blank, i, j);
    var k, l :| StripsAt(u, s, blank, k, l);
    if t != "" {
      assert t[0] == s[i] && t[|t| - 1] == s[j - 1];
      assert i >= k && j <= l;
    }
    if u != "" {
      assert u[0] == s[k] && u[|u| - 1] == s[l - 1];
    }
  }
}
