/** Which waiting calls are released, exactly: by completion steps alone, after the reader
    has gone, and after a close() has finished. */
module ClientReleases {
  import opened Prelude
  import opened JsonValues
  import opened JsonRpc
  import opened FutureLedger
  import opened ClientProtocol
  import opened ClientInvariant
  import opened ClientTheorems

  // ----- completion steps ---------------------------------------------------------------

  lemma TaskLeavesPending(s: State, w: Who, step: TaskStep)
    requires NextTask(s, w, step).Some?
    ensures var s' := NextTask(s, w, step).value; s'.ledger.pending == s.ledger.pending && s'.calls == s.calls
  {
  }

  lemma {:induction false} TasksLeavePending(s: State, actions: seq<Action>)
    requires (forall n :: 0 <= n < |actions| ==> actions[n].ATask?) && Run(s, actions).Some?
    ensures var s' := Run(s, actions).value; s'.ledger.pending == s.ledger.pending && s'.calls == s.calls
    decreases |actions|
  {
    if actions != [] {
      hide NextTask;
      TaskLeavesPending(s, actions[0].w, actions[0].task);
      TasksLeavePending(Next(s, actions[0]).value, actions[1..]);
    }
  }

  /** A waiting call can be given an outcome by completion steps alone exactly when its id
      is no longer pending: somebody has taken its Future. */
  lemma ReleasableIff(s: State, c: nat)
    requires Reachable(s) && c in s.calls && At(s, c).Waiting?
    ensures (exists actions :: Releases(s, c, actions)) <==> At(s, c).id !in s.ledger.pending
  {
    ReachableInv(s);
    hide Reachable, Inv, Run, NextCall;
    if actions :| Releases(s, c, actions) {
      var s' := Run(s, actions).value;
      TasksLeavePending(s, actions);
      RunKeeps(s, actions);
      if At(s, c).id in s.ledger.pending {
        PendingIsUnset(s', At(s, c).id);
        NotYetCollected(s', c);
      }
    }
    if At(s, c).id !in s.ledger.pending {
      var actions := WaiterIsReleased(s, c);
    }
  }

  lemma NotYetCollected(s: State, c: nat)
    requires c in s.calls && At(s, c).Waiting? && FutureOf(s, At(s, c).id) == Unset
    ensures NextCall(s, c, Collects) == None
  {
  }

  // ----- after a sweep ---------------------------------------------------------------------

  /** `reached` is what the last sweep found registered: none of it is pending any more.
      Once the reader has swept, what came later is pending, or its own caller gave it up. */
  ghost predicate ReachOk(l: Ledger, reader: ReaderPhase, reached: set<nat>) {
    && (forall i :: i in reached ==> i in l.futures && i !in l.pending)
    && (reader.Sweeping? || reader.Ended? ==> forall i :: i in l.futures ==> Accounted(l, reached, i))
  }

  predicate Accounted(l: Ledger, reached: set<nat>, i: nat) {
    i in reached || i in l.pending || (i in l.removedBy && l.removedBy[i].TheCaller?)
  }

  lemma OpenReach(l: Ledger, reader: ReaderPhase, reached: set<nat>, id: nat)
    requires ReachOk(l, reader, reached) && id !in l.futures
    ensures ReachOk(Open(l, id), reader, reached)
  {
  }

  lemma DropReach(l: Ledger, reader: ReaderPhase, reached: set<nat>, id: nat, c: nat)
    requires ReachOk(l, reader, reached)
    ensures ReachOk(Drop(l, id, c), reader, reached)
  {
  }

  /** A sweep, by whichever actor. */
  lemma SweepReach(l: Ledger, reader: ReaderPhase, w: Who, outcome: Outcome)
    ensures ReachOk(Take(l, l.pending, w, outcome), reader, l.futures.Keys)
  {
  }

  /** A pop, while the reader still reads. */
  lemma PopReach(l: Ledger, reader: ReaderPhase, reached: set<nat>, id: nat, outcome: Outcome)
    requires ReachOk(l, reader, reached)
    ensures ReachOk(Take(l, {id}, TheReader, outcome), Delivering, reached)
  {
  }

  /** What completing does not touch. */
  lemma SameReach(l: Ledger, l': Ledger, reader: ReaderPhase, reader': ReaderPhase, reached: set<nat>)
    requires ReachOk(l, reader, reached)
    requires l'.futures.Keys == l.futures.Keys && l'.pending == l.pending && l'.removedBy == l.removedBy
    requires reader'.Sweeping? || reader'.Ended? ==> reader.Sweeping? || reader.Ended?
    ensures ReachOk(l', reader', reached)
  {
    forall i | i in l'.futures && (reader'.Sweeping? || reader'.Ended?) ensures Accounted(l', reached, i) {
      assert i in l.futures.Keys;
      assert Accounted(l, reached, i);
    }
    forall i | i in reached ensures i in l'.futures && i !in l'.pending {
      assert i in l'.futures.Keys;
    }
  }

  lemma CallReach(s: State, c: nat, step: CallStep)
    requires CallsOk(s.owner, s.calls, s.ledger) && ReachOk(s.ledger, s.reader, s.reached) && NextCall(s, c, step).Some?
    ensures var s' := NextCall(s, c, step).value; ReachOk(s'.ledger, s'.reader, s'.reached)
  {
    hide CallOk, RequestOf, CallsOk, ReachOk, Open, Drop, FutureOf;
    if step.Register? {
      assert At(s, c).id !in s.ledger.futures by { OneCallOk(s, c); Registering(s, c, step); }
      OpenReach(s.ledger, s.reader, s.reached, At(s, c).id);
    } else if step.Unregister? {
      DropReach(s.ledger, s.reader, s.reached, At(s, c).id, c);
    }
  }

  lemma TaskReach(s: State, w: Who, step: TaskStep)
    requires ReachOk(s.ledger, s.reader, s.reached) && NextTask(s, w, step).Some?
    ensures var s' := NextTask(s, w, step).value; ReachOk(s'.ledger, s'.reader, s'.reached)
  {
    hide ReachOk, Check, Complete, Release;
    var s' := NextTask(s, w, step).value;
    TaskFrame(s.ledger, w, step);
    assert s'.reached == s.reached;
    SameReach(s.ledger, s'.ledger, s.reader, s'.reader, s.reached);
  }

  lemma TaskFrame(l: Ledger, w: Who, step: TaskStep)
    ensures forall id | w in l.tasks && id in l.futures ::
              Check(l, w, id).futures == l.futures && Check(l, w, id).pending == l.pending && Check(l, w, id).removedBy == l.removedBy
    ensures w in l.tasks && l.tasks[w].checked.Some? && l.tasks[w].checked.value in l.futures ==>
              var l' := Complete(l, w); l'.futures.Keys == l.futures.Keys && l'.pending == l.pending && l'.removedBy == l.removedBy
    ensures Release(l, w).futures == l.futures && Release(l, w).pending == l.pending && Release(l, w).removedBy == l.removedBy
  {
  }

  lemma ReadReach(s: State, step: ReadStep)
    requires ReachOk(s.ledger, s.reader, s.reached) && NextRead(s, step).Some?
    ensures var s' := NextRead(s, step).value; ReachOk(s'.ledger, s'.reader, s'.reached)
  {
    hide ReachOk, Heard, Rest, Arrive, Take;
    match step
    case Receive(logRaises) =>
      HeardNeverSwept(s.inbox[0], logRaises);
      SameReach(s.ledger, s.ledger, s.reader, Heard(s.inbox[0], logRaises), s.reached);
    case Pop =>
      if s.reader.id.Some? && s.reader.id.value in s.ledger.pending {
        PopReach(s.ledger, s.reader, s.reached, s.reader.id.value, s.reader.outcome);
      } else {
        SameReach(s.ledger, s.ledger, s.reader, Listening, s.reached);
      }
    case Reply(raises, body) =>
      ArriveReached(s, body);
      SameReach(s.ledger, s.ledger, s.reader, if raises then Leaving else Listening, s.reached);
    case SweepPending =>
      SweepReach(s.ledger, Sweeping, TheReader, ConnectionLost);
  }

  lemma HeardNeverSwept(head: Item, logRaises: bool)
    ensures !Heard(head, logRaises).Sweeping? && !Heard(head, logRaises).Ended?
  {
    hide ParseMessage;
  }

  lemma ArriveReached(s: State, body: Option<Json>)
    ensures Arrive(s, body).ledger == s.ledger && Arrive(s, body).reader == s.reader && Arrive(s, body).reached == s.reached
  {
  }

  lemma CloseReach(s: State, k: nat, step: CloseStep)
    requires ReachOk(s.ledger, s.reader, s.reached) && NextClose(s, k, step).Some?
    ensures var s' := NextClose(s, k, step).value; ReachOk(s'.ledger, s'.reader, s'.reached)
  {
    hide ReachOk, Take;
    if step.SweepClosed? {
      SweepReach(s.ledger, s.reader, TheCloser(k), SessionClosed);
    }
  }

  lemma NextReach(s: State, a: Action)
    requires Inv(s) && ReachOk(s.ledger, s.reader, s.reached) && Next(s, a).Some?
    ensures var s' := Next(s, a).value; ReachOk(s'.ledger, s'.reader, s'.reached)
  {
    hide Ids, LedgerOk, CallsOk, RolesOk, AnswersOk, SentOk, CloseOk, SealedOk, ReachOk, NextCall, NextTask, NextRead, NextClose;
    match a
    case ACall(c, step) => CallReach(s, c, step);
    case ATask(w, step) => TaskReach(s, w, step);
    case ARead(step) => ReadReach(s, step);
    case AClose(k, step) => CloseReach(s, k, step);
    case AArrives(item) => if item.Incoming? { ArriveReached(s, Some(item.raw)); }
  }

  lemma {:induction false} RunReach(s: State, actions: seq<Action>)
    requires Inv(s) && ReachOk(s.ledger, s.reader, s.reached) && Run(s, actions).Some?
    ensures var s' := Run(s, actions).value; ReachOk(s'.ledger, s'.reader, s'.reached)
    decreases |actions|
  {
    if actions != [] {
      hide Inv, ReachOk, Next;
      NextKeeps(s, actions[0]);
      NextReach(s, actions[0]);
      RunReach(Next(s, actions[0]).value, actions[1..]);
    }
  }

  lemma ReachableReach(s: State)
    requires Reachable(s)
    ensures ReachOk(s.ledger, s.reader, s.reached)
  {
    var actions :| Run(Init(s.kind), actions) == Some(s);
    InitInv(s.kind);
    RunReach(Init(s.kind), actions);
  }

  /** The reader has gone. A call that waits is released by completion steps exactly when
      it had registered before the last sweep: the reader's own, or a later one of some
      close(). A call that registered after it is not. */
  lemma AfterTheReaderIff(s: State, c: nat)
    requires Reachable(s) && s.reader.Ended? && c in s.calls && At(s, c).Waiting?
    ensures (exists actions :: Releases(s, c, actions)) <==> At(s, c).id in s.reached
  {
    ReleasableIff(s, c);
    ReachableReach(s);
    ReachableInv(s);
    hide Reachable, Releases, Ids, LedgerOk, RolesOk, AnswersOk, SentOk, CloseOk, SealedOk;
    OneCallOk(s, c);
    hide CallsOk;
    assert At(s, c).id in s.ledger.futures;
    assert Accounted(s.ledger, s.reached, At(s, c).id);
  }

  /** The reader's sweep releases everyone registered before it, and so does a close()'s. */
  lemma SweepReleasesAll(s: State, a: Action, s': State, c: nat)
    requires Reachable(s) && Next(s, a) == Some(s') && s'.kind == s.kind
    requires a == ARead(SweepPending) || (a.AClose? && a.close == SweepClosed)
    requires c in s'.calls && At(s', c).Waiting?
    ensures exists actions :: Releases(s', c, actions)
  {
    Extend(s, a, s');
    ReleasableIff(s', c);
    hide Reachable, Releases, RequestOf;
  }

  // ----- what a step leaves alone -----------------------------------------------------------

  /** The transport, the closers and what was reached are as they were. */
  predicate Aside(s: State, s': State) {
    && s'.kind == s.kind && s'.clientClosed == s.clientClosed && s'.flagged == s.flagged && s'.shut == s.shut
  }

  lemma ArriveAside()
    ensures forall t: State, body :: Aside(t, Arrive(t, body)) && Arrive(t, body).closers == t.closers
    ensures forall t: State, body :: Arrive(t, body).reached == t.reached && Arrive(t, body).reader == t.reader
    ensures forall t: State, body :: Arrive(t, body).calls == t.calls && Arrive(t, body).ledger == t.ledger
  {
  }

  lemma CallAside(s: State, c: nat, step: CallStep)
    requires NextCall(s, c, step).Some?
    ensures var s' := NextCall(s, c, step).value;
            Aside(s, s') && s'.closers == s.closers && s'.reached == s.reached && s'.reader == s.reader
  {
    ArriveAside();
    hide RequestOf, Open, Drop, FutureOf, Arrive;
  }

  predicate Swept(r: ReaderPhase) { r.Sweeping? || r.Ended? }

  lemma TaskAside(s: State, w: Who, step: TaskStep)
    requires NextTask(s, w, step).Some?
    ensures var s' := NextTask(s, w, step).value;
            && Aside(s, s') && s'.reached == s.reached && (Swept(s.reader) ==> Swept(s'.reader))
            && (s'.closers == s.closers
                || exists k :: k in s.closers && s.closers[k].SweepingClosed? && s'.closers == s.closers[k := Joining])
  {
    hide Check, Complete, Release;
  }

  lemma PoppedAside(s: State)
    requires s.reader.Parsed?
    ensures Aside(s, Popped(s)) && Popped(s).closers == s.closers && Popped(s).calls == s.calls
    ensures Popped(s).ledger.pending <= s.ledger.pending
  {
    hide Take, Aside;
    if s.reader.id.None? || s.reader.id.value !in s.ledger.pending {
      ReaderAside(s, s.ledger, Listening);
    } else {
      var taken := Take(s.ledger, {s.reader.id.value}, TheReader, s.reader.outcome);
      TakeShrinks(s.ledger, {s.reader.id.value}, TheReader, s.reader.outcome);
      ReaderAside(s, taken, Delivering);
    }
  }

  lemma ReaderAside(s: State, l: Ledger, reader: ReaderPhase)
    ensures Aside(s, s.(ledger := l, reader := reader))
  {
  }

  lemma TakeShrinks(l: Ledger, ids: set<nat>, w: Who, outcome: Outcome)
    ensures Take(l, ids, w, outcome).pending <= l.pending
  {
  }

  lemma ReadAside(s: State, step: ReadStep)
    requires NextRead(s, step).Some?
    ensures var s' := NextRead(s, step).value;
            && Aside(s, s') && s'.closers == s.closers && s'.calls == s.calls
            && s'.ledger.pending <= s.ledger.pending && !Swept(s.reader)
  {
    hide Take, Heard, Rest, Arrive, Popped;
    ArriveAside();
    TakeShrinks(s.ledger, s.ledger.pending, TheReader, ConnectionLost);
    if step.Pop? { PoppedAside(s); }
  }

  lemma CloseAside(s: State, k: nat, step: CloseStep)
    requires NextClose(s, k, step).Some?
    ensures var s' := NextClose(s, k, step).value;
            && s'.kind == s.kind && s'.reader == s.reader && (!step.SweepClosed? ==> s'.reached == s.reached)
            && s'.calls == s.calls && s'.ledger.pending <= s.ledger.pending
            && (s.clientClosed ==> s'.clientClosed) && (s.flagged ==> s'.flagged) && (s.shut ==> s'.shut)
            && (step.Mark? ==> s'.clientClosed)
            && s'.closers.Keys == s.closers.Keys + {k}
            && (forall j :: j in s.closers && j != k ==> s'.closers[j] == s.closers[j])
            && (Late(s'.closers[k]) ==> step.Mark? || (k in s.closers && Late(s.closers[k])))
  {
    TakeShrinks(s.ledger, s.ledger.pending, TheCloser(k), SessionClosed);
    hide Take;
  }

  /** Past the closed check and the mark. */
  predicate Late(p: CloserPhase) { !p.Skipped? && !p.Passed? }

  predicate NoCloseSweeps(actions: seq<Action>) {
    forall n :: 0 <= n < |actions| ==> !(actions[n].AClose? && actions[n].close.SweepClosed?)
  }

  /** The reader sweeps once: after it, only a close() moves `reached`. */
  lemma StaysSwept(s: State, a: Action)
    requires Swept(s.reader) && Next(s, a).Some? && !(a.AClose? && a.close.SweepClosed?)
    ensures var s' := Next(s, a).value; Swept(s'.reader) && s'.reached == s.reached
  {
    hide NextCall, NextTask, NextRead, NextClose, Swept, Aside, Arrive;
    match a
    case ACall(c, step) => CallAside(s, c, step);
    case ATask(w, step) => TaskAside(s, w, step);
    case ARead(step) => ReadAside(s, step);
    case AClose(k, step) => CloseAside(s, k, step);
    case AArrives(item) => ArriveAside();
  }

  lemma {:induction false} RunStaysSwept(s: State, actions: seq<Action>)
    requires Swept(s.reader) && Run(s, actions).Some? && NoCloseSweeps(actions)
    ensures Run(s, actions).value.reached == s.reached
    decreases |actions|
  {
    if actions != [] {
      hide Next;
      StaysSwept(s, actions[0]);
      RunStaysSwept(Next(s, actions[0]).value, actions[1..]);
    }
  }

  lemma {:induction false} RunFrom(s: State, actions: seq<Action>)
    requires Reachable(s) && Run(s, actions).Some?
    ensures Run(s, actions).value.kind == s.kind && Reachable(Run(s, actions).value)
    decreases |actions|
  {
    hide Reachable;
    if actions != [] {
      KindStays(s, actions[0]);
      hide Next;
      Extend(s, actions[0], Next(s, actions[0]).value);
      RunFrom(Next(s, actions[0]).value, actions[1..]);
    }
  }

  lemma KindStays(s: State, a: Action)
    requires Next(s, a).Some?
    ensures Next(s, a).value.kind == s.kind
  {
    hide NextCall, NextTask, NextRead, NextClose, Arrive;
    match a
    case ACall(c, step) => CallAside(s, c, step);
    case ATask(w, step) => TaskAside(s, w, step);
    case ARead(step) => ReadAside(s, step);
    case AClose(k, step) => CloseAside(s, k, step);
    case AArrives(item) => ArriveAside();
  }

  /** From the reader's sweep on, and as long as no close() sweeps: once the reader has
      ended, a waiting call is released exactly if it had registered before that sweep. */
  lemma AfterTheReadersSweepIff(s: State, actions: seq<Action>, c: nat)
    requires Reachable(s) && Next(s, ARead(SweepPending)).Some? && NoCloseSweeps(actions)
    requires Run(Next(s, ARead(SweepPending)).value, actions).Some?
    requires var t := Run(Next(s, ARead(SweepPending)).value, actions).value; t.reader.Ended? && c in t.calls && At(t, c).Waiting?
    ensures var t := Run(Next(s, ARead(SweepPending)).value, actions).value;
            (exists more :: Releases(t, c, more)) <==> At(t, c).id in s.ledger.futures
  {
    hide Reachable, Run, Releases, Take;
    var s1 := Next(s, ARead(SweepPending)).value;
    assert s1.reader.Sweeping? && s1.reached == s.ledger.futures.Keys && s1.kind == s.kind;
    hide Next;
    Extend(s, ARead(SweepPending), s1);
    RunFrom(s1, actions);
    RunStaysSwept(s1, actions);
    AfterTheReaderIff(Run(s1, actions).value, c);
  }

  // ----- after a close() has finished -----------------------------------------------------------

  /** The call waits on a pending id, or it can still come to that: sends still go through
      and it has passed the closed check. */
  ghost predicate Exposed(s: State, c: nat) {
    c in s.calls &&
    match At(s, c)
    case Waiting(id) => id in s.ledger.pending
    case Posting(id) => id in s.ledger.pending
    case Checked => !SendRefused(s)
    case Numbered(_) => !SendRefused(s)
    case Registered(id) => !SendRefused(s) && id in s.ledger.pending
    case _ => false
  }

  ghost predicate SomeExposed(s: State) { exists c :: Exposed(s, c) }

  lemma FinishedIsClosed(s: State)
    requires Reachable(s) && SomeFinished(s)
    ensures ClosedOk(s) && s.clientClosed
  {
    var actions :| Run(Init(s.kind), actions) == Some(s);
    RunClosed(Init(s.kind), actions);
  }

  /** Past Mark the client is closed, for good. */
  ghost predicate ClosedOk(s: State) {
    forall k :: k in s.closers && Late(s.closers[k]) ==> s.clientClosed
  }

  lemma NextClosed(s: State, a: Action)
    requires ClosedOk(s) && Next(s, a).Some?
    ensures ClosedOk(Next(s, a).value) && (s.clientClosed ==> Next(s, a).value.clientClosed)
    ensures SendRefused(s) ==> SendRefused(Next(s, a).value)
  {
    hide NextCall, NextTask, NextRead, NextClose, Arrive;
    match a
    case ACall(c, step) => CallAside(s, c, step);
    case ATask(w, step) => TaskAside(s, w, step);
    case ARead(step) => ReadAside(s, step);
    case AClose(k, step) => CloseAside(s, k, step);
    case AArrives(item) => ArriveAside();
  }

  lemma {:induction false} RunClosed(s: State, actions: seq<Action>)
    requires ClosedOk(s) && Run(s, actions).Some?
    ensures ClosedOk(Run(s, actions).value) && (s.clientClosed ==> Run(s, actions).value.clientClosed)
    decreases |actions|
  {
    if actions != [] {
      hide Next, ClosedOk;
      NextClosed(s, actions[0]);
      RunClosed(Next(s, actions[0]).value, actions[1..]);
    }
  }

  // ----- exposure only goes away ------------------------------------------------------------------

  lemma FewerExposed(s: State, s': State)
    requires s'.calls == s.calls && s'.ledger.pending <= s.ledger.pending && (SendRefused(s) ==> SendRefused(s')) && !SomeExposed(s)
    ensures !SomeExposed(s')
  {
    forall c ensures !Exposed(s', c) { assert !Exposed(s, c); }
  }

  /** A call of its own accord never becomes exposed once the client is closed. */
  lemma OwnStepStaysSafe(s: State, c: nat, step: CallStep)
    requires NextCall(s, c, step).Some? && s.clientClosed && !Exposed(s, c)
    requires c in s.calls && At(s, c).Registered? ==> At(s, c).id in s.ledger.futures
    ensures !Exposed(NextCall(s, c, step).value, c)
  {
    hide RequestOf;
  }

  /** Nor does its step expose another one. */
  lemma OtherStaysSafe(s: State, s': State, c: nat, d: nat, id: nat)
    requires c != d && !Exposed(s, d)
    requires d in s'.calls <==> d in s.calls
    requires d in s.calls ==> s'.calls[d] == s.calls[d] && (HasId(At(s, d)) ==> At(s, d).id != id)
    requires forall i :: i in s'.ledger.pending && i != id ==> i in s.ledger.pending
    requires SendRefused(s) == SendRefused(s')
    ensures !Exposed(s', d)
  {
  }

  lemma CallStaysSafe(s: State, c: nat, step: CallStep)
    requires Inv(s) && NextCall(s, c, step).Some? && s.clientClosed && !SomeExposed(s)
    ensures !SomeExposed(NextCall(s, c, step).value)
  {
    hide LedgerOk, RolesOk, AnswersOk, SentOk, CloseOk, SealedOk, NextCall, Exposed, SendRefused, CallsOk, CallOk;
    var s' := NextCall(s, c, step).value;
    CallAside(s, c, step);
    SameRefusal(s, s');
    RegisteredIsOpen(s, c);
    assert !Exposed(s, c);
    OwnStepStaysSafe(s, c, step);
    var id := OnlyIdMoved(s, c, step);
    forall d ensures !Exposed(s', d) {
      assert !Exposed(s, d);
      if d != c { OtherStaysSafe(s, s', c, d, id); }
    }
  }

  lemma SameRefusal(s: State, s': State)
    requires Aside(s, s')
    ensures SendRefused(s) == SendRefused(s')
  {
  }

  lemma RegisteredIsOpen(s: State, c: nat)
    requires CallsOk(s.owner, s.calls, s.ledger)
    ensures c in s.calls && At(s, c).Registered? ==> At(s, c).id in s.ledger.futures
  {
    if c in s.calls { OneCallOk(s, c); }
    hide CallsOk;
  }

  lemma OpenAndDropPending(l: Ledger)
    ensures forall id :: Open(l, id).pending == l.pending + {id}
    ensures forall id, c :: Drop(l, id, c).pending <= l.pending
  {
  }

  /** A step of c changes nothing about the other calls and their ids. */
  lemma OnlyIdMoved(s: State, c: nat, step: CallStep) returns (id: nat)
    requires Ids(s.nextId, s.owner, s.calls) && NextCall(s, c, step).Some?
    ensures var s' := NextCall(s, c, step).value;
            && (forall d :: d != c ==> (d in s'.calls <==> d in s.calls) && (d in s.calls ==> s'.calls[d] == s.calls[d]))
            && (forall d :: d in s.calls && d != c && HasId(At(s, d)) ==> At(s, d).id != id)
            && forall i :: i in s'.ledger.pending && i != id ==> i in s.ledger.pending
  {
    id := if c in s.calls && HasId(At(s, c)) then At(s, c).id else 0;
    OnePendingMoved(s, c, step, id);
    OneCallMoved(s, c, step);
    hide NextCall;
  }

  lemma OneCallMoved(s: State, c: nat, step: CallStep)
    requires NextCall(s, c, step).Some?
    ensures var s' := NextCall(s, c, step).value; c in s'.calls && s'.calls.Keys == s.calls.Keys + {c}
    ensures var s' := NextCall(s, c, step).value; forall d :: d != c && d in s.calls ==> s'.calls[d] == s.calls[d]
  {
    hide RequestOf, Open, Drop, Arrive, FutureOf;
    if !step.Begin? && !step.TakeId? {
      CallShape(s, c, step);
      hide NextCall;
    }
  }

  lemma OnePendingMoved(s: State, c: nat, step: CallStep, id: nat)
    requires NextCall(s, c, step).Some? && (c in s.calls && HasId(At(s, c)) ==> At(s, c).id == id)
    ensures forall i :: i in NextCall(s, c, step).value.ledger.pending && i != id ==> i in s.ledger.pending
  {
    OpenAndDropPending(s.ledger);
    ArriveAside();
    hide RequestOf, Open, Drop, Arrive, FutureOf, Move;
    MoveLedger();
  }

  lemma MoveLedger()
    ensures forall t: State, c, p | c in t.calls :: Move(t, c, p).ledger == t.ledger
  {
  }

  lemma NextStaysSafe(s: State, a: Action)
    requires Inv(s) && Next(s, a).Some? && s.clientClosed && !SomeExposed(s)
    ensures !SomeExposed(Next(s, a).value)
  {
    hide Inv, NextCall, NextTask, NextRead, NextClose, SomeExposed, Arrive;
    match a
    case ACall(c, step) => CallStaysSafe(s, c, step);
    case ATask(w, step) =>
      TaskAside(s, w, step);
      TaskLeavesPending(s, w, step);
      FewerExposed(s, Next(s, a).value);
    case ARead(step) =>
      ReadAside(s, step);
      FewerExposed(s, Next(s, a).value);
    case AClose(k, step) =>
      CloseAside(s, k, step);
      FewerExposed(s, Next(s, a).value);
    case AArrives(item) =>
      ArriveAside();
      FewerExposed(s, Next(s, a).value);
  }

  lemma {:induction false} RunStaysSafe(s: State, actions: seq<Action>)
    requires Inv(s) && ClosedOk(s) && Run(s, actions).Some? && s.clientClosed && !SomeExposed(s)
    ensures !SomeExposed(Run(s, actions).value)
    decreases |actions|
  {
    if actions != [] {
      hide Inv, SomeExposed, Next, ClosedOk;
      NextKeeps(s, actions[0]);
      NextClosed(s, actions[0]);
      NextStaysSafe(s, actions[0]);
      RunStaysSafe(Next(s, actions[0]).value, actions[1..]);
    }
  }

  // ----- and it does come true --------------------------------------------------------------------

  function Rank(p: Phase): nat {
    match p case Checked => 3 case Numbered(_) => 2 case Registered(_) => 1 case _ => 0
  }

  function OnwardStep(s: State, c: nat): CallStep
    requires c in s.calls
  {
    match At(s, c)
    case Checked => TakeId
    case Numbered(_) => Register
    case _ => if s.kind == Stdio then WriteLine else PostStarts
  }

  lemma OnwardFromChecked(s: State, c: nat)
    requires c in s.calls && At(s, c).Checked? && Exposed(s, c)
    ensures var n := NextCall(s, c, TakeId); n.Some? && Exposed(n.value, c) && At(n.value, c).Numbered?
  {
  }

  lemma OnwardFromNumbered(s: State, c: nat)
    requires c in s.calls && At(s, c).Numbered? && Exposed(s, c)
    ensures var n := NextCall(s, c, Register); n.Some? && Exposed(n.value, c) && At(n.value, c).Registered?
  {
  }

  lemma OnwardFromRegistered(s: State, c: nat)
    requires c in s.calls && At(s, c).Registered? && Exposed(s, c)
    ensures var n := NextCall(s, c, OnwardStep(s, c)); n.Some? && Exposed(n.value, c) && Rank(At(n.value, c)) == 0
  {
    hide RequestOf;
  }

  lemma Onward(s: State, c: nat)
    requires Exposed(s, c) && Rank(At(s, c)) > 0
    ensures var n := NextCall(s, c, OnwardStep(s, c));
            n.Some? && Exposed(n.value, c) && Rank(At(n.value, c)) < Rank(At(s, c))
  {
    assert c in s.calls;
    hide NextCall, Exposed;
    match At(s, c)
    case Checked => OnwardFromChecked(s, c);
    case Numbered(_) => OnwardFromNumbered(s, c);
    case Registered(_) => OnwardFromRegistered(s, c);
  }

  lemma {:induction false} ExposedStrands(s: State, c: nat) returns (actions: seq<Action>)
    requires Exposed(s, c)
    ensures Run(s, actions).Some? && Stranded(Run(s, actions).value, c)
    decreases Rank(At(s, c))
  {
    if Rank(At(s, c)) == 0 {
      actions := [];
      RunNothing(s);
    } else {
      Onward(s, c);
      hide NextCall, Exposed, Stranded, Run;
      var step := OnwardStep(s, c);
      var rest := ExposedStrands(NextCall(s, c, step).value, c);
      actions := [ACall(c, step)] + rest;
      RunCons(s, ACall(c, step), rest);
    }
  }

  ghost predicate CanStrand(s: State) {
    exists actions, c :: Run(s, actions).Some? && Stranded(Run(s, actions).value, c)
  }

  /** A close() has finished. Some call can still come to wait on a Future nobody has taken
      exactly when some call is exposed now: it waits on a pending id, or it has passed the
      closed check while sends still go through. */
  lemma StrandingIff(s: State)
    requires Reachable(s) && SomeFinished(s)
    ensures CanStrand(s) <==> SomeExposed(s)
  {
    ReachableInv(s);
    FinishedIsClosed(s);
    hide Reachable, SomeFinished, Inv, ClosedOk, Run, Exposed, Stranded;
    if SomeExposed(s) {
      var c :| Exposed(s, c);
      var actions := ExposedStrands(s, c);
    }
    if CanStrand(s) {
      var actions, c :| Run(s, actions).Some? && Stranded(Run(s, actions).value, c);
      if !SomeExposed(s) {
        RunStaysSafe(s, actions);
        StrandedIsExposed(Run(s, actions).value, c);
      }
    }
  }

  lemma StrandedIsExposed(s: State, c: nat)
    requires Stranded(s, c)
    ensures Exposed(s, c)
  {
  }

  /** A sealing sweep exposes nobody; over HTTP every finished close() is one. */
  lemma SealedExposesNobody(s: State)
    requires Reachable(s) && (s.sealed || (SomeFinished(s) && (s.kind == Http || !ShuttingDown(s))))
    ensures !SomeExposed(s)
  {
    if !s.sealed { FinishedSeals(s); }
    ReachableInv(s);
    hide Reachable, Ids, LedgerOk, CallsOk, RolesOk, AnswersOk, SentOk, SomeFinished, ShuttingDown;
    forall c ensures !Exposed(s, c) {}
  }
}
