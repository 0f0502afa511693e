/** Who may complete a pending Future: the bookkeeping behind MCPClient._pending.

    Taking an id out of _pending hands its Future to the taker, and to nobody
    else. Each operation here is one critical section, or one Future touched
    outside the lock. */
module FutureLedger {
  import opened Prelude
  import opened JsonValues

  datatype Who = TheReader | TheCloser(k: nat) | TheCaller(c: nat)

  /** What a Future can be completed with. */
  datatype Outcome =
    | Answer(result: Json)
    | Rejected(code: int, message: string, data: Json)
    | ConnectionLost
    | SessionClosed

  datatype Future = Unset | Done(outcome: Outcome)

  /** Futures taken out of _pending and being completed one by one; `checked`
      is the one whose done() has just been seen false, outside the lock. */
  datatype Task = Task(ids: set<nat>, checked: Option<nat>, outcome: Outcome)

  datatype Ledger = Ledger(
    pending: set<nat>,
    futures: map<nat, Future>,
    tasks: map<Who, Task>,
    removedBy: map<nat, Who>,    // history: who took an id out of pending
    completedBy: map<nat, Who>,  // history: who completed its Future
    doubleSet: bool              // set_result or set_exception met a done Future
  )

  const NEW_LEDGER := Ledger({}, map[], map[], map[], map[], false)

  /** `self._pending[message_id] = future` */
  function Open(l: Ledger, id: nat): Ledger {
    l.(futures := l.futures[id := Unset], pending := l.pending + {id})
  }

  /** A caller's own `self._pending.pop(message_id, None)`. */
  function Drop(l: Ledger, id: nat, c: nat): Ledger {
    if id !in l.pending then l
    else l.(pending := l.pending - {id}, removedBy := l.removedBy[id := TheCaller(c)])
  }

  /** One pop by the reader, or a whole sweep: `ids` change hands. */
  function Take(l: Ledger, ids: set<nat>, w: Who, outcome: Outcome): Ledger {
    l.(pending := l.pending - ids,
       removedBy := l.removedBy + (map i | i in ids :: w),
       tasks := l.tasks[w := Task(ids, None, outcome)])
  }

  /** `future.done()`: a done Future is left alone. */
  function Check(l: Ledger, w: Who, id: nat): Ledger
    requires w in l.tasks && id in l.futures
  {
    var t := l.tasks[w];
    l.(tasks := l.tasks[w := if l.futures[id].Done? then t.(ids := t.ids - {id}) else t.(checked := Some(id))])
  }

  /** set_result or set_exception on the Future just checked. */
  function Complete(l: Ledger, w: Who): Ledger
    requires w in l.tasks && l.tasks[w].checked.Some? && l.tasks[w].checked.value in l.futures
  {
    var t := l.tasks[w];
    var id := t.checked.value;
    var l' := l.(tasks := l.tasks[w := Task(t.ids - {id}, None, t.outcome)]);
    if l.futures[id].Done? then l'.(doubleSet := true)
    else l'.(futures := l.futures[id := Done(t.outcome)], completedBy := l.completedBy[id := w])
  }

  function Release(l: Ledger, w: Who): Ledger {
    l.(tasks := l.tasks - {w})
  }

  function Held(l: Ledger, w: Who): set<nat> { if w in l.tasks then l.tasks[w].ids else {} }

  /** What an actor still has to do: its own steps left, at most. */
  function Work(l: Ledger, w: Who): nat {
    if w !in l.tasks then 0
    else 2 * |l.tasks[w].ids| + (if l.tasks[w].checked.Some? then 0 else 1)
  }

  /** What is pending is unset and was never taken. */
  ghost predicate PendingOk(l: Ledger) {
    forall i :: i in l.pending ==> i in l.futures && l.futures[i].Unset? && i !in l.removedBy
  }

  /** An actor holds only what it took, and what it holds is unset. */
  ghost predicate TasksOk(l: Ledger) {
    && (forall w, i :: w in l.tasks && i in l.tasks[w].ids ==>
          i in l.futures && l.futures[i].Unset? && i in l.removedBy && l.removedBy[i] == w)
    && (forall w :: w in l.tasks ==>
          !w.TheCaller? && (l.tasks[w].checked.Some? ==> l.tasks[w].checked.value in l.tasks[w].ids))
  }

  /** Done means completed, once, by whoever took it; taken and unset means still held. */
  ghost predicate FuturesOk(l: Ledger) {
    && (forall i :: i in l.removedBy ==> i in l.futures && i !in l.pending)
    && (forall i :: i in l.completedBy ==> i in l.futures && l.futures[i].Done?)
    && (forall i :: i in l.futures && l.futures[i].Done? ==>
          i in l.removedBy && i in l.completedBy && l.completedBy[i] == l.removedBy[i] && !l.removedBy[i].TheCaller?)
    && (forall i :: i in l.futures && l.futures[i].Unset? && i !in l.pending ==>
          i in l.removedBy && (l.removedBy[i].TheCaller? || i in Held(l, l.removedBy[i])))
  }

  ghost predicate LedgerOk(l: Ledger) {
    PendingOk(l) && TasksOk(l) && FuturesOk(l) && !l.doubleSet
  }

  lemma OpenKeeps(l: Ledger, id: nat)
    requires LedgerOk(l) && id !in l.futures
    ensures LedgerOk(Open(l, id))
  {
  }

  lemma DropKeeps(l: Ledger, id: nat, c: nat)
    requires LedgerOk(l)
    ensures LedgerOk(Drop(l, id, c))
  {
  }

  lemma TakeKeeps(l: Ledger, ids: set<nat>, w: Who, outcome: Outcome)
    requires LedgerOk(l) && ids <= l.pending && w !in l.tasks && !w.TheCaller?
    ensures LedgerOk(Take(l, ids, w, outcome))
  {
  }

  lemma CheckKeeps(l: Ledger, w: Who, id: nat)
    requires LedgerOk(l) && w in l.tasks && l.tasks[w].checked.None? && id in l.tasks[w].ids
    ensures LedgerOk(Check(l, w, id)) && Work(Check(l, w, id), w) < Work(l, w)
  {
    assert l.futures[id].Unset?;
    CheckedKeepsTasks(l, w, id);
    CheckedKeepsFutures(l, w, id);
    hide TasksOk, FuturesOk;
  }

  lemma CheckedKeepsTasks(l: Ledger, w: Who, id: nat)
    requires TasksOk(l) && w in l.tasks && id in l.tasks[w].ids
    ensures TasksOk(Check(l, w, id))
  {
  }

  lemma CheckedKeepsFutures(l: Ledger, w: Who, id: nat)
    requires FuturesOk(l) && w in l.tasks && id in l.tasks[w].ids && id in l.futures && l.futures[id].Unset?
    ensures FuturesOk(Check(l, w, id))
  {
  }

  lemma CompleteKeepsTasks(l: Ledger, w: Who)
    requires LedgerOk(l) && w in l.tasks && l.tasks[w].checked.Some?
    ensures l.tasks[w].checked.value in l.futures && PendingOk(Complete(l, w)) && TasksOk(Complete(l, w))
    ensures !Complete(l, w).doubleSet && Work(Complete(l, w), w) < Work(l, w)
    ensures Complete(l, w).futures == l.futures[l.tasks[w].checked.value := Done(l.tasks[w].outcome)]
  {
  }

  lemma CompleteKeepsFutures(l: Ledger, w: Who)
    requires LedgerOk(l) && w in l.tasks && l.tasks[w].checked.Some? && l.tasks[w].checked.value in l.futures
    requires !Complete(l, w).doubleSet
    ensures FuturesOk(Complete(l, w))
  {
  }

  /** set_result never meets a done Future, although done() was tested outside the lock. */
  lemma CompleteKeeps(l: Ledger, w: Who)
    requires LedgerOk(l) && w in l.tasks && l.tasks[w].checked.Some?
    ensures LedgerOk(Complete(l, w)) && Work(Complete(l, w), w) < Work(l, w)
    ensures Complete(l, w).futures == l.futures[l.tasks[w].checked.value := Done(l.tasks[w].outcome)]
  {
    CompleteKeepsTasks(l, w);
    CompleteKeepsFutures(l, w);
    hide Complete, FuturesOk, PendingOk, TasksOk, Work;
  }

  lemma ReleaseKeeps(l: Ledger, w: Who)
    requires LedgerOk(l) && w in l.tasks && l.tasks[w].ids == {}
    ensures LedgerOk(Release(l, w))
  {
  }
}
