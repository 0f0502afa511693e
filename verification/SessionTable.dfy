/** SessionRegistry: a bounded table of sessions that evicts the oldest. */
module SessionTable {
  import opened Prelude

  /** A dict: insertion order beside contents. */
  datatype Table<V> = Table(ids: seq<string>, vals: map<string, V>)

  ghost predicate TableOk<V>(t: Table<V>) {
    && (forall id :: id in t.ids <==> id in t.vals)
    && (forall i, j :: 0 <= i < j < |t.ids| ==> t.ids[i] != t.ids[j])
  }

  function Without(ids: seq<string>, id: string): (r: seq<string>)
    ensures forall x :: x in r <==> x in ids && x != id
    ensures id !in ids ==> r == ids
    ensures |r| <= |ids|
  {
    if ids == [] then []
    else (if ids[0] == id then [] else [ids[0]]) + Without(ids[1..], id)
  }

  /** del table[id] */
  function Remove<V>(t: Table<V>, id: string): Table<V> {
    Table(Without(t.ids, id), t.vals - {id})
  }

  /** table[id] = value */
  function Insert<V>(t: Table<V>, id: string, value: V): Table<V> {
    Table(if id in t.vals then t.ids else t.ids + [id], t.vals[id := value])
  }

  /** With a cap of zero there is no oldest session to drop. */
  function Create<V>(t: Table<V>, max: nat, id: string, value: V): Table<V>
    requires max >= 1
  {
    Insert(if |t.ids| >= max && t.ids != [] then Remove(t, t.ids[0]) else t, id, value)
  }

  predicate Given(id: Option<string>) { id.Some? && id.value != "" }

  function Find<V>(t: Table<V>, id: Option<string>): Option<V> {
    if Given(id) && id.value in t.vals then Some(t.vals[id.value]) else None
  }

  function Drop<V>(t: Table<V>, id: Option<string>): Table<V> {
    if Given(id) then Remove(t, id.value) else t
  }

  // ----- one operation ---------------------------------------------------------------

  lemma {:induction false} WithoutDistinct(ids: seq<string>, id: string)
    requires forall i, j :: 0 <= i < j < |ids| ==> ids[i] != ids[j]
    ensures var r := Without(ids, id); forall i, j :: 0 <= i < j < |r| ==> r[i] != r[j]
    ensures id in ids ==> |Without(ids, id)| == |ids| - 1
  {
    if ids != [] {
      WithoutDistinct(ids[1..], id);
      assert ids[0] !in ids[1..];
      assert ids[0] !in Without(ids[1..], id);
    }
  }

  lemma HeadRemoved<V>(t: Table<V>)
    requires TableOk(t) && t.ids != []
    ensures Remove(t, t.ids[0]).ids == t.ids[1..] && TableOk(Remove(t, t.ids[0]))
  {
    WithoutDistinct(t.ids, t.ids[0]);
    assert t.ids[0] !in t.ids[1..];
  }

  lemma RemoveOk<V>(t: Table<V>, id: string)
    requires TableOk(t)
    ensures TableOk(Remove(t, id))
  {
    WithoutDistinct(t.ids, id);
  }

  lemma InsertOk<V>(t: Table<V>, id: string, value: V)
    requires TableOk(t)
    ensures TableOk(Insert(t, id, value))
  {
    var t' := Insert(t, id, value);
    assert forall x :: x in t'.ids <==> x in t.ids || x == id;
  }

  /** A full table gives up its first entry, any other table none; the new session is
      last, and every other one keeps its value. */
  lemma CreateTakesTheOldest<V>(t: Table<V>, max: nat, id: string, value: V)
    requires TableOk(t) && max >= 1 && id !in t.vals && |t.ids| <= max
    ensures var t' := Create(t, max, id, value);
            && TableOk(t') && |t'.ids| <= max
            && t'.ids == (if |t.ids| == max then t.ids[1..] else t.ids) + [id]
            && t'.vals[id] == value && forall x :: x in t'.ids && x != id ==> x in t.vals && t'.vals[x] == t.vals[x]
  {
    if |t.ids| == max {
      HeadRemoved(t);
    }
  }

  // ----- runs ----------------------------------------------------------------------------

  datatype Op<V> = New(id: string, value: V) | Look(key: Option<string>) | End(key: Option<string>)

  function Apply<V>(t: Table<V>, max: nat, op: Op<V>): Table<V>
    requires max >= 1
  {
    match op
    case New(id, value) => Create(t, max, id, value)
    case Look(_) => t
    case End(key) => Drop(t, key)
  }

  function Run<V>(t: Table<V>, max: nat, ops: seq<Op<V>>): Table<V>
    requires max >= 1
  {
    if ops == [] then t else Apply(Run(t, max, ops[..|ops| - 1]), max, ops[|ops| - 1])
  }

  /** The ids handed out, in order. */
  function Created<V>(ops: seq<Op<V>>): seq<string> {
    if ops == [] then []
    else
      var op := ops[|ops| - 1];
      Created(ops[..|ops| - 1]) + if op.New? then [op.id] else []
  }

  /** uuid4 never repeats an id. */
  ghost predicate Fresh<V>(ops: seq<Op<V>>) {
    var c := Created(ops); forall i, j :: 0 <= i < j < |c| ==> c[i] != c[j]
  }

  ghost predicate Precedes(c: seq<string>, x: string, y: string) {
    forall p, q :: 0 <= p < |c| && 0 <= q < |c| && c[p] == x && c[q] == y ==> p < q
  }

  /** Listed in the order they were created. */
  ghost predicate InOrder(ids: seq<string>, c: seq<string>) {
    forall i, j :: 0 <= i < j < |ids| ==> Precedes(c, ids[i], ids[j])
  }

  lemma {:induction false} WithoutInOrder(ids: seq<string>, id: string, c: seq<string>)
    requires InOrder(ids, c)
    ensures InOrder(Without(ids, id), c)
  {
    if ids != [] {
      hide Precedes;
      WithoutInOrder(ids[1..], id, c);
      var rest := Without(ids[1..], id);
      forall j | 0 <= j < |rest| ensures Precedes(c, ids[0], rest[j]) {
        assert rest[j] in ids[1..];
      }
    }
  }

  lemma AppendInOrder(ids: seq<string>, id: string, c: seq<string>)
    requires InOrder(ids, c) && id !in c && forall x :: x in ids ==> x in c
    ensures InOrder(ids + [id], c + [id])
  {
    var more, c' := ids + [id], c + [id];
    forall i, j | 0 <= i < j < |more| ensures Precedes(c', more[i], more[j]) {
      if j < |ids| {
        assert Precedes(c, ids[i], ids[j]);
      } else {
        assert ids[i] != id;
      }
    }
  }

  lemma FreshLast<V>(ops: seq<Op<V>>)
    requires Fresh(ops) && ops != []
    ensures Fresh(ops[..|ops| - 1]) && Created(ops[..|ops| - 1]) <= Created(ops)
    ensures ops[|ops| - 1].New? ==> ops[|ops| - 1].id !in Created(ops[..|ops| - 1])
  {
    var c := Created(ops[..|ops| - 1]);
    assert forall i :: 0 <= i < |c| ==> Created(ops)[i] == c[i];
    if ops[|ops| - 1].New? {
      assert Created(ops)[|c|] == ops[|ops| - 1].id;
    }
  }

  lemma {:induction false} RunInvariant<V>(max: nat, ops: seq<Op<V>>)
    requires max >= 1 && Fresh(ops)
    ensures var t := Run(Table([], map[]), max, ops);
            TableOk(t) && |t.ids| <= max && InOrder(t.ids, Created(ops)) && forall id :: id in t.ids ==> id in Created(ops)
  {
    if ops != [] {
      var n := |ops| - 1;
      var c := Created(ops[..n]);
      FreshLast(ops);
      RunInvariant(max, ops[..n]);
      var t := Run(Table([], map[]), max, ops[..n]);
      match ops[n]
      case New(id, value) =>
        CreateTakesTheOldest(t, max, id, value);
        AppendInOrder(if |t.ids| == max then t.ids[1..] else t.ids, id, c);
      case End(key) =>
        if Given(key) {
          RemoveOk(t, key.value);
          WithoutInOrder(t.ids, key.value, c);
        }
      case Look(_) =>
    }
  }

  /** Over any run with fresh ids: the table never exceeds its cap, and the session a
      full table evicts was created before every other live one. */
  lemma EvictionTakesTheEarliest<V>(max: nat, ops: seq<Op<V>>)
    requires max >= 1 && Fresh(ops)
    ensures var t := Run(Table([], map[]), max, ops);
            |t.ids| <= max && forall x :: x in t.ids && x != t.ids[0] ==> Precedes(Created(ops), t.ids[0], x)
  {
    RunInvariant(max, ops);
  }

  // ----- survival ----------------------------------------------------------------------------

  function Creations<V>(ops: seq<Op<V>>): nat {
    if ops == [] then 0 else Creations(ops[..|ops| - 1]) + if ops[|ops| - 1].New? then 1 else 0
  }

  /** How many entries follow x. */
  function Behind(ids: seq<string>, x: string): nat {
    if ids == [] then 0 else if ids[0] == x then |ids| - 1 else Behind(ids[1..], x)
  }

  lemma {:induction false} BehindLess(ids: seq<string>, y: string, x: string)
    requires x != y
    ensures Behind(Without(ids, y), x) <= Behind(ids, x)
  {
    if ids != [] {
      BehindLess(ids[1..], y, x);
      assert Without(ids, y) == if ids[0] == y then Without(ids[1..], y) else [ids[0]] + Without(ids[1..], y);
    }
  }

  lemma {:induction false} BehindMore(ids: seq<string>, id: string, x: string)
    requires x in ids
    ensures Behind(ids + [id], x) == Behind(ids, x) + 1
  {
    assert (ids + [id])[1..] == ids[1..] + [id];
    if ids[0] != x {
      BehindMore(ids[1..], id, x);
    }
  }

  /** The ids a run hands out are new to the table it starts from. */
  ghost predicate NewTo<V>(t: Table<V>, ops: seq<Op<V>>) {
    Fresh(ops) && forall id :: id in Created(ops) ==> id !in t.vals
  }

  lemma {:induction false} SurvivesRun<V>(t: Table<V>, max: nat, ops: seq<Op<V>>, x: string)
    requires max >= 1 && TableOk(t) && |t.ids| <= max && NewTo(t, ops)
    requires x in t.vals && Behind(t.ids, x) + Creations(ops) < max
    requires forall i :: 0 <= i < |ops| ==> ops[i] != End(Some(x))
    ensures var r := Run(t, max, ops);
            && TableOk(r) && |r.ids| <= max && (forall id :: id in r.vals ==> id in t.vals || id in Created(ops))
            && x in r.vals && r.vals[x] == t.vals[x] && Behind(r.ids, x) <= Behind(t.ids, x) + Creations(ops)
  {
    if ops != [] {
      var n := |ops| - 1;
      var c := Created(ops[..n]);
      FreshLast(ops);
      SurvivesRun(t, max, ops[..n], x);
      var r := Run(t, max, ops[..n]);
      match ops[n]
      case New(id, value) =>
        assert id in Created(ops);
        SurvivesCreate(r, max, id, value, x);
      case End(key) =>
        if Given(key) {
          assert key.value != x;
          RemoveOk(r, key.value);
          BehindLess(r.ids, key.value, x);
        }
      case Look(_) =>
    }
  }

  lemma SurvivesCreate<V>(t: Table<V>, max: nat, id: string, value: V, x: string)
    requires TableOk(t) && max >= 1 && id !in t.vals && |t.ids| <= max && x in t.vals && Behind(t.ids, x) < max - 1
    ensures var t' := Create(t, max, id, value);
            && TableOk(t') && |t'.ids| <= max && x in t'.vals && t'.vals[x] == t.vals[x]
            && Behind(t'.ids, x) == Behind(t.ids, x) + 1 && forall y :: y in t'.vals ==> y == id || y in t.vals
  {
    CreateTakesTheOldest(t, max, id, value);
    if |t.ids| == max {
      assert t.ids[0] != x;
      assert x in t.ids[1..];
      BehindMore(t.ids[1..], id, x);
    } else {
      BehindMore(t.ids, id, x);
    }
  }

  /** A session that is not deleted outlives at least max - 1 later creations, whatever
      else is created, looked up or deleted meanwhile. */
  lemma SurvivesLaterCreations<V>(t: Table<V>, max: nat, x: string, value: V, later: seq<Op<V>>)
    requires max >= 1 && TableOk(t) && |t.ids| <= max && x !in t.vals
    requires NewTo(Create(t, max, x, value), later) && Creations(later) <= max - 1
    requires forall i :: 0 <= i < |later| ==> later[i] != End(Some(x))
    ensures x != "" ==> Find(Run(Create(t, max, x, value), max, later), Some(x)) == Some(value)
  {
    CreateTakesTheOldest(t, max, x, value);
    var t' := Create(t, max, x, value);
    var kept := if |t.ids| == max then t.ids[1..] else t.ids;
    LastHasNoneBehind(kept, x);
    SurvivesRun(t', max, later, x);
  }

  lemma {:induction false} LastHasNoneBehind(ids: seq<string>, x: string)
    requires x !in ids
    ensures Behind(ids + [x], x) == 0
  {
    if ids != [] {
      assert (ids + [x])[1..] == ids[1..] + [x];
      LastHasNoneBehind(ids[1..], x);
    }
  }

  function LastOf(ids: seq<string>, max: nat): seq<string> { if |ids| <= max then ids else ids[|ids| - max..] }

  lemma LastOfNone(max: nat)
    ensures LastOf([], max) == []
  {
  }

  lemma LastOfMore(ids: seq<string>, max: nat, id: string)
    requires max >= 1
    ensures |LastOf(ids, max)| <= max
    ensures LastOf(ids + [id], max) == (if |LastOf(ids, max)| == max then LastOf(ids, max)[1..] else LastOf(ids, max)) + [id]
  {
  }

  lemma NotYetLive<V>(t: Table<V>, id: string)
    requires TableOk(t) && id !in t.ids
    ensures id !in t.vals
  {
  }

  /** And no longer than that: if nobody deletes, the live sessions are exactly the last
      max created. */
  lemma {:induction false} WithoutDeletesTheLastStay<V>(max: nat, ops: seq<Op<V>>)
    requires max >= 1 && Fresh(ops) && forall i :: 0 <= i < |ops| ==> !ops[i].End?
    ensures var c := Created(ops);
            Run(Table([], map[]), max, ops).ids == LastOf(c, max)
  {
    if ops != [] {
      var n := |ops| - 1;
      hide Fresh, Create, TableOk, InOrder, LastOf;
      assert LastOf([], max) == [] by { LastOfNone(max); }
      FreshLast(ops);
      WithoutDeletesTheLastStay(max, ops[..n]);
      RunInvariant(max, ops[..n]);
      if ops[n].New? {
        var t := Run(Table([], map[]), max, ops[..n]);
        NotYetLive(t, ops[n].id);
        CreateTakesTheOldest(t, max, ops[n].id, ops[n].value);
        LastOfMore(Created(ops[..n]), max, ops[n].id);
      }
    }
  }
}
