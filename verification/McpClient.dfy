/** MCPClient's table of pending Futures as the object it is. Each method here is what
    one thread does while no other runs; ClientProtocol interleaves the same ledger
    operations step by step. */
module McpClients {
  import opened Prelude
  import opened JsonValues
  import opened FutureLedger

  class FutureCell {
    var state: Future

    constructor ()
      ensures state == Unset
    {
      state := Unset;
    }
  }

  ghost function States(cells: map<nat, FutureCell>): map<nat, Future>
    reads cells.Values
  {
    map id | id in cells :: cells[id].state
  }

  ghost predicate Apart(cells: map<nat, FutureCell>) {
    forall a, b :: a in cells && b in cells && a != b ==> cells[a] != cells[b]
  }

  /** The Futures registered, out of all that were made. */
  ghost predicate Registered(pending: map<nat, FutureCell>, cells: map<nat, FutureCell>, l: Ledger) {
    pending.Keys == l.pending && forall id :: id in pending ==> id in cells && pending[id] == cells[id]
  }

  /** set_result or set_exception: one Future done, all others as they were. */
  method SetDone(ghost cells: map<nat, FutureCell>, ghost id: nat, future: FutureCell, outcome: Outcome)
    requires Apart(cells) && id in cells && cells[id] == future
    modifies future
    ensures States(cells) == old(States(cells))[id := Done(outcome)]
  {
    assert forall i :: i in cells && i != id ==> cells[i] != future;
    future.state := Done(outcome);
  }

  lemma NewCell(cells: map<nat, FutureCell>, id: nat, future: FutureCell)
    requires Apart(cells) && id !in cells && future !in cells.Values
    ensures Apart(cells[id := future]) && States(cells[id := future]) == States(cells)[id := future.state]
  {
    assert forall i :: i in cells ==> cells[i] in cells.Values;
  }

  class McpClient {
    var nextId: nat
    var pending: map<nat, FutureCell>
    ghost var cells: map<nat, FutureCell>   // every Future ever made
    ghost var ledger: Ledger

    /** The objects are what the ledger says they are. */
    ghost predicate Valid()
      reads this, cells.Values
    {
      && LedgerOk(ledger) && Apart(cells) && States(cells) == ledger.futures && Registered(pending, cells, ledger)
      && forall id :: id in ledger.futures ==> id < nextId
    }

    constructor ()
      ensures Valid() && pending == map[] && ledger == NEW_LEDGER && nextId == 1
    {
      nextId := 1;
      pending := map[];
      cells := map[];
      ledger := NEW_LEDGER;
    }

    /** _next_id, a new Future, and its registration. */
    method Register() returns (id: nat, future: FutureCell)
      requires Valid()
      modifies this
      ensures Valid() && fresh(future) && id == old(nextId) && nextId == id + 1
      ensures ledger == Open(old(ledger), id) && pending == old(pending)[id := future]
    {
      hide LedgerOk, Apart;
      id := nextId;
      nextId := nextId + 1;
      future := new FutureCell();
      OpenKeeps(ledger, id);
      assert id !in States(cells);
      NewCell(cells, id, future);
      hide States;
      pending := pending[id := future];
      cells := cells[id := future];
      ledger := Open(ledger, id);
    }

    /** A caller takes its own id out: its send raised, or its wait timed out. */
    method Unregister(id: nat, ghost caller: nat)
      requires Valid()
      modifies this
      ensures Valid() && ledger == Drop(old(ledger), id, caller) && id !in pending
    {
      hide LedgerOk, Apart, States;
      DropKeeps(ledger, id, caller);
      ledger := Drop(ledger, id, caller);
      pending := pending - {id};
    }

    /** _resolve: an id that is not pending completes nobody. */
    method Resolve(key: Option<nat>, outcome: Outcome)
      requires Valid() && TheReader !in ledger.tasks
      modifies this, pending.Values
      ensures Valid() && TheReader !in ledger.tasks
      ensures key.None? || key.value !in old(pending) ==> ledger == old(ledger)
      ensures key.Some? && key.value in old(pending) ==>
                && ledger.pending == old(ledger).pending - {key.value}
                && ledger.futures == old(ledger).futures[key.value := Done(outcome)]
                && ledger.completedBy == old(ledger).completedBy[key.value := TheReader]
    {
      hide LedgerOk, Resolved, Apart, States;
      if key.None? || key.value !in pending {
        return;
      }
      var id := key.value;
      var future := pending[id];
      StateOf(cells, ledger, id);
      ResolvedAlone(ledger, id, outcome);
      pending := pending - {id};
      assert States(cells) == ledger.futures && future == cells[id];
      if future.state.Done? {
        return;
      }
      SetDone(cells, id, future, outcome);
      ledger := Resolved(ledger, id, outcome);
    }

    /** `if not future.done(): future.set_exception(error)` */
    method FailOne(ghost w: Who, id: nat, future: FutureCell, outcome: Outcome)
      requires Valid() && w in ledger.tasks && id in ledger.tasks[w].ids && ledger.tasks[w].checked == None
      requires id in cells && cells[id] == future && ledger.tasks[w].outcome == outcome
      modifies this`ledger, future
      ensures Valid() && ledger == Complete(Check(old(ledger), w, id), w)
    {
      hide LedgerOk, Apart, States, Check, Complete;
      CheckedAlone(ledger, w, id);
      assert future.state == Unset by { HeldState(cells, ledger, id); }
      if !future.state.Done? {
        SetDone(cells, id, future, outcome);
        ledger := Complete(Check(ledger, w, id), w);
      }
    }

    /** Everything that is pending changes hands. */
    method Sweep(ghost w: Who, outcome: Outcome) returns (swept: map<nat, FutureCell>)
      requires Valid() && w !in ledger.tasks && !w.TheCaller?
      modifies this
      ensures Valid() && pending == map[] && cells == old(cells) && swept == old(pending)
      ensures Sweeping(old(ledger), ledger, swept.Keys, swept.Keys, w, outcome)
    {
      hide LedgerOk, Apart, States, Sweeping;
      swept := pending;
      TakeKeeps(ledger, swept.Keys, w, outcome);
      SweptTracks(ledger, swept.Keys, w, outcome);
      pending := map[];
      ledger := Take(ledger, swept.Keys, w, outcome);
    }

    /** _fail_all_pending: a sweep, and then one Future after another. */
    method FailAllPending(ghost w: Who, outcome: Outcome)
      requires Valid() && w !in ledger.tasks && !w.TheCaller?
      modifies this, pending.Values
      ensures Valid() && w !in ledger.tasks && pending == map[]
      ensures ledger.futures == AllDone(old(ledger).futures, old(pending).Keys, outcome)
      ensures forall id :: id in old(pending) ==> id in ledger.completedBy && ledger.completedBy[id] == w
    {
      hide LedgerOk, Apart, States, Check, Complete, Sweeping, AllDone, Release;
      ghost var before := ledger;
      var swept := Sweep(w, outcome);
      var todo := swept.Keys;
      while todo != {}
        invariant Valid() && pending == map[] && todo <= swept.Keys && cells == old(cells)
        invariant Sweeping(before, ledger, swept.Keys, todo, w, outcome)
        decreases |todo|
      {
        var id :| id in todo;
        SweepOne(before, ledger, swept.Keys, todo, w, outcome, id);
        FailOne(w, id, swept[id], outcome);
        todo := todo - {id};
      }
      SweepEnds(before, ledger, swept.Keys, w, outcome);
      ledger := Release(ledger, w);
    }
  }

  lemma StateOf(cells: map<nat, FutureCell>, l: Ledger, id: nat)
    requires States(cells) == l.futures && LedgerOk(l) && id in l.pending
    ensures id in cells && cells[id].state == Unset && id in l.futures
  {
    assert id in l.futures && l.futures[id] == Unset;
    assert id in States(cells);
  }

  lemma HeldState(cells: map<nat, FutureCell>, l: Ledger, id: nat)
    requires States(cells) == l.futures && id in l.futures && l.futures[id] == Unset
    ensures id in cells && cells[id].state == Unset
  {
    assert id in States(cells);
  }

  ghost function AllDone(futures: map<nat, Future>, ids: set<nat>, outcome: Outcome): map<nat, Future> {
    map i | i in futures :: if i in ids then Done(outcome) else futures[i]
  }

  /** Half way through a sweep. */
  ghost predicate Sweeping(before: Ledger, l: Ledger, ids: set<nat>, todo: set<nat>, w: Who, outcome: Outcome) {
    && w in l.tasks && l.tasks[w] == Task(todo, None, outcome) && l.pending == {}
    && l.futures == AllDone(before.futures, ids - todo, outcome)
    && forall i :: i in ids - todo ==> i in l.completedBy && l.completedBy[i] == w
  }

  lemma SweptTracks(l: Ledger, ids: set<nat>, w: Who, outcome: Outcome)
    requires ids == l.pending
    ensures Sweeping(l, Take(l, ids, w, outcome), ids, ids, w, outcome)
  {
    assert AllDone(l.futures, ids - ids, outcome) == l.futures;
  }

  lemma SweepOne(before: Ledger, l: Ledger, ids: set<nat>, todo: set<nat>, w: Who, outcome: Outcome, id: nat)
    requires LedgerOk(l) && Sweeping(before, l, ids, todo, w, outcome) && id in todo && todo <= ids
    ensures w in l.tasks && id in l.tasks[w].ids && l.tasks[w].checked == None && l.tasks[w].outcome == outcome && id in l.futures
    ensures var c := Check(l, w, id); w in c.tasks && c.tasks[w].checked == Some(id) && id in c.futures
    ensures Sweeping(before, Complete(Check(l, w, id), w), ids, todo - {id}, w, outcome)
  {
    CheckedAlone(l, w, id);
    hide LedgerOk, Check, Complete;
    assert ids - (todo - {id}) == (ids - todo) + {id};
    assert AllDone(before.futures, ids - (todo - {id}), outcome) == AllDone(before.futures, ids - todo, outcome)[id := Done(outcome)];
  }

  lemma SweepEnds(before: Ledger, l: Ledger, ids: set<nat>, w: Who, outcome: Outcome)
    requires LedgerOk(l) && Sweeping(before, l, ids, {}, w, outcome)
    ensures LedgerOk(Release(l, w)) && w !in Release(l, w).tasks && Release(l, w).pending == {}
    ensures Release(l, w).futures == l.futures == AllDone(before.futures, ids, outcome)
    ensures forall i :: i in ids ==> i in Release(l, w).completedBy && Release(l, w).completedBy[i] == w
  {
    ReleaseKeeps(l, w);
    assert ids - {} == ids;
  }

  /** A held Future is not done: the test outside the lock cannot fail. */
  lemma UnsetWhenHeld(l: Ledger, w: Who, id: nat)
    requires LedgerOk(l) && w in l.tasks && id in l.tasks[w].ids
    ensures id in l.futures && l.futures[id] == Unset
  {
  }

  /** done() and set, for one id of a task. */
  lemma CheckedAlone(l: Ledger, w: Who, id: nat)
    requires LedgerOk(l) && w in l.tasks && id in l.tasks[w].ids && l.tasks[w].checked == None
    ensures id in l.futures && l.futures[id] == Unset
    ensures var c := Check(l, w, id); w in c.tasks && c.tasks[w].checked == Some(id) && id in c.futures
    ensures var r := Complete(Check(l, w, id), w);
            && LedgerOk(r) && r.pending == l.pending && r.futures == l.futures[id := Done(l.tasks[w].outcome)]
            && r.completedBy == l.completedBy[id := w]
            && r.tasks == l.tasks[w := Task(l.tasks[w].ids - {id}, None, l.tasks[w].outcome)]
  {
    UnsetWhenHeld(l, w, id);
    CheckKeeps(l, w, id);
    CompleteKeeps(Check(l, w, id), w);
  }

  /** pop, done(), set and done: _resolve without interruption. */
  ghost function Resolved(l: Ledger, id: nat, outcome: Outcome): Ledger
    requires LedgerOk(l) && id in l.pending && TheReader !in l.tasks
  {
    TakeKeeps(l, {id}, TheReader, outcome);
    CheckedAlone(Take(l, {id}, TheReader, outcome), TheReader, id);
    Release(Complete(Check(Take(l, {id}, TheReader, outcome), TheReader, id), TheReader), TheReader)
  }

  lemma ResolvedAlone(l: Ledger, id: nat, outcome: Outcome)
    requires LedgerOk(l) && id in l.pending && TheReader !in l.tasks
    ensures var r := Resolved(l, id, outcome);
            && LedgerOk(r) && r.pending == l.pending - {id} && r.futures == l.futures[id := Done(outcome)]
            && r.completedBy == l.completedBy[id := TheReader] && TheReader !in r.tasks
  {
    var t := Take(l, {id}, TheReader, outcome);
    TakeKeeps(l, {id}, TheReader, outcome);
    CheckedAlone(t, TheReader, id);
    ReleaseKeeps(Complete(Check(t, TheReader, id), TheReader), TheReader);
    hide LedgerOk, Check, Complete;
  }
}
