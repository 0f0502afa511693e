/** What MCPClient promises, in every interleaving. */
module ClientTheorems {
  import opened Prelude
  import opened JsonValues
  import opened JsonRpc
  import opened FutureLedger
  import opened ClientProtocol
  import opened ClientInvariant

  // ----- exactly-once completion ---------------------------------------------

  /** set_result and set_exception never meet a done Future; a Future is completed
      by the actor that removed its id; a call that is over is not registered. */
  lemma CompletionIsOwned(s: State)
    requires Reachable(s)
    ensures !s.ledger.doubleSet
    ensures forall i :: i in s.ledger.futures && s.ledger.futures[i].Done? ==>
              i in s.ledger.completedBy && i in s.ledger.removedBy && s.ledger.completedBy[i] == s.ledger.removedBy[i]
    ensures forall c :: c in s.calls && (At(s, c).Returned? || At(s, c).Raised?) ==> At(s, c).id !in s.ledger.pending
  {
    ReachableInv(s);
    hide Ids, RolesOk, AnswersOk, SentOk, CloseOk, SealedOk, Reachable;
    forall c | c in s.calls && (At(s, c).Returned? || At(s, c).Raised?) ensures At(s, c).id !in s.ledger.pending {
      OneCallOk(s, c);
    }
  }

  predicate DoneIn(s: State, i: nat, o: Outcome, w: Who) {
    i in s.ledger.futures && s.ledger.futures[i] == Done(o) && i in s.ledger.completedBy && s.ledger.completedBy[i] == w
  }

  lemma CallLeavesDone(s: State, c: nat, step: CallStep, i: nat, o: Outcome, w: Who)
    requires CallsOk(s.owner, s.calls, s.ledger) && NextCall(s, c, step).Some? && DoneIn(s, i, o, w)
    ensures DoneIn(NextCall(s, c, step).value, i, o, w)
  {
    hide RequestOf, CallOk;
    if step.Register? {
      assert At(s, c).id !in s.ledger.futures by { OneCallOk(s, c); Registering(s, c, step); }
    }
  }

  lemma TaskLeavesDone(s: State, w': Who, step: TaskStep, i: nat, o: Outcome, w: Who)
    requires LedgerOk(s.ledger) && NextTask(s, w', step).Some? && DoneIn(s, i, o, w)
    ensures DoneIn(NextTask(s, w', step).value, i, o, w)
  {
    if step.Completes? {
      CheckedIsUnset(s.ledger, w');
    }
    hide LedgerOk;
  }

  lemma TakeLeavesFutures(l: Ledger, ids: set<nat>, w: Who, outcome: Outcome)
    ensures var l' := Take(l, ids, w, outcome); l'.futures == l.futures && l'.completedBy == l.completedBy
  {
  }

  lemma ArriveLedger(s: State)
    ensures forall body :: Arrive(s, body).ledger == s.ledger
  {
  }

  lemma PoppedLeavesFutures(s: State)
    requires s.reader.Parsed?
    ensures Popped(s).ledger.futures == s.ledger.futures && Popped(s).ledger.completedBy == s.ledger.completedBy
  {
    hide Take;
    var l, l' := s.ledger, Popped(s).ledger;
    if l' != l {
      var taken := Take(l, {s.reader.id.value}, TheReader, s.reader.outcome);
      assert l' == taken;
      hide Popped;
      TakeLeavesFutures(l, {s.reader.id.value}, TheReader, s.reader.outcome);
    }
  }

  lemma ReadLeavesDone(s: State, step: ReadStep, i: nat, o: Outcome, w: Who)
    requires NextRead(s, step).Some? && DoneIn(s, i, o, w)
    ensures DoneIn(NextRead(s, step).value, i, o, w)
  {
    hide Heard, Rest, Take, Arrive, Popped;
    TakeLeavesFutures(s.ledger, s.ledger.pending, TheReader, ConnectionLost);
    match step
    case Pop => PoppedLeavesFutures(s);
    case Reply(_, body) => ArriveLedger(s);
    case _ =>
  }

  lemma CloseLeavesDone(s: State, k: nat, step: CloseStep, i: nat, o: Outcome, w: Who)
    requires NextClose(s, k, step).Some? && DoneIn(s, i, o, w)
    ensures DoneIn(NextClose(s, k, step).value, i, o, w)
  {
    hide Take;
    TakeLeavesFutures(s.ledger, s.ledger.pending, TheCloser(k), SessionClosed);
  }

  lemma ItemLeavesDone(s: State, item: Item, i: nat, o: Outcome, w: Who)
    requires Next(s, AArrives(item)).Some? && DoneIn(s, i, o, w)
    ensures DoneIn(Next(s, AArrives(item)).value, i, o, w)
  {
  }

  /** Once completed, a Future keeps its outcome and its completer for good. */
  lemma {:induction false} CompletedOnce(s: State, actions: seq<Action>, i: nat, o: Outcome, w: Who)
    requires Inv(s) && Run(s, actions).Some? && DoneIn(s, i, o, w)
    ensures DoneIn(Run(s, actions).value, i, o, w)
    decreases |actions|
  {
    if actions != [] {
      hide Inv, Next, DoneIn;
      NextKeeps(s, actions[0]);
      NextLeavesDone(s, actions[0], i, o, w);
      CompletedOnce(Next(s, actions[0]).value, actions[1..], i, o, w);
    }
  }

  lemma NextLeavesDone(s: State, a: Action, i: nat, o: Outcome, w: Who)
    requires Inv(s) && Next(s, a).Some? && DoneIn(s, i, o, w)
    ensures DoneIn(Next(s, a).value, i, o, w)
  {
    hide Ids, LedgerOk, CallsOk, RolesOk, AnswersOk, SentOk, CloseOk, SealedOk, NextCall, NextTask, NextRead, NextClose, DoneIn;
    match a {
      case ACall(c, step) => CallLeavesDone(s, c, step, i, o, w);
      case ATask(w', step) => TaskLeavesDone(s, w', step, i, o, w);
      case ARead(step) => ReadLeavesDone(s, step, i, o, w);
      case AClose(k, step) => CloseLeavesDone(s, k, step, i, o, w);
      case AArrives(item) => ItemLeavesDone(s, item, i, o, w);
    }
  }

  // ----- what an actor has taken, it completes --------------------------------

  lemma HolderCanStep(s: State, w: Who)
    requires Inv(s) && w in s.ledger.tasks && s.ledger.tasks[w].ids != {}
    ensures exists step: TaskStep :: !step.Finishes? && NextTask(s, w, step).Some?
  {
    hide Ids, CallsOk, RolesOk, AnswersOk, SentOk, CloseOk, SealedOk;
    var t := s.ledger.tasks[w];
    if t.checked.Some? {
      CheckedIsUnset(s.ledger, w);
      hide LedgerOk;
      assert NextTask(s, w, Completes).Some?;
    } else {
      var id :| id in t.ids;
      assert id in s.ledger.futures;
      hide LedgerOk;
      assert NextTask(s, w, Checks(id)).Some?;
    }
  }

  /** Every own step brings the holder closer to the end, whichever it is. */
  lemma OwnStepShrinks(s: State, w: Who, step: TaskStep)
    requires Inv(s) && NextTask(s, w, step).Some? && !step.Finishes?
    ensures var l' := NextTask(s, w, step).value.ledger; w in l'.tasks && Work(l', w) < Work(s.ledger, w)
  {
    hide Ids, LedgerOk, CallsOk, RolesOk, AnswersOk, SentOk, CloseOk, SealedOk, Work;
    match step
    case Checks(id) => CheckKeeps(s.ledger, w, id);
    case Completes => CompleteKeeps(s.ledger, w);
  }

  ghost predicate OnlyTasks(actions: seq<Action>, w: Who) {
    forall n :: 0 <= n < |actions| ==> actions[n].ATask? && actions[n].w == w
  }

  /** From s to s', actor w did some of its task: the calls stood still, and what
      w held it still holds or has completed. */
  ghost predicate Progress(s: State, s': State, w: Who) {
    && s'.calls == s.calls && w in s.ledger.tasks && w in s'.ledger.tasks
    && (forall i :: i in s.ledger.tasks[w].ids ==> i in s'.ledger.tasks[w].ids || Completed(s'.ledger, i))
    && (forall i :: Completed(s.ledger, i) ==> Completed(s'.ledger, i))
  }

  predicate Completed(l: Ledger, i: nat) { i in l.futures && l.futures[i].Done? }

  lemma StepProgresses(s: State, w: Who, step: TaskStep)
    requires Inv(s) && NextTask(s, w, step).Some? && !step.Finishes?
    ensures Progress(s, NextTask(s, w, step).value, w)
  {
    if step.Completes? {
      CheckedIsUnset(s.ledger, w);
    }
    hide Inv, LedgerOk;
  }

  lemma ProgressTrans(s: State, s1: State, s2: State, w: Who)
    requires Progress(s, s1, w) && Progress(s1, s2, w)
    ensures Progress(s, s2, w)
  {
    hide Completed;
  }

  /** A holder with something left has a next step, and it is progress. */
  lemma HolderSteps(s: State, w: Who) returns (step: TaskStep, s1: State)
    requires Inv(s) && w in s.ledger.tasks && s.ledger.tasks[w].ids != {}
    ensures Next(s, ATask(w, step)) == Some(s1) && Inv(s1) && Progress(s, s1, w)
    ensures w in s1.ledger.tasks && Work(s1.ledger, w) < Work(s.ledger, w)
  {
    hide Inv, Work, NextTask, NextCall, NextRead, NextClose, Progress;
    HolderCanStep(s, w);
    step :| !step.Finishes? && NextTask(s, w, step).Some?;
    s1 := NextTask(s, w, step).value;
    OwnStepShrinks(s, w, step);
    TaskKeeps(s, w, step);
    StepProgresses(s, w, step);
  }

  /** The holder alone can complete everything it holds. */
  lemma {:induction false} HolderDrains(s: State, w: Who) returns (actions: seq<Action>)
    requires Inv(s) && w in s.ledger.tasks
    ensures OnlyTasks(actions, w) && Run(s, actions).Some?
    ensures var s' := Run(s, actions).value; Progress(s, s', w) && s'.ledger.tasks[w].ids == {}
    decreases Work(s.ledger, w)
  {
    hide Inv, Work, Next;
    if s.ledger.tasks[w].ids == {} {
      actions := [];
    } else {
      hide Run, Progress;
      var step, s1 := HolderSteps(s, w);
      var rest := HolderDrains(s1, w);
      actions := [ATask(w, step)] + rest;
      RunCons(s, ATask(w, step), rest);
      ProgressTrans(s, s1, Run(s1, rest).value, w);
    }
  }

  // ----- close() releases everyone ---------------------------------------------

  ghost predicate SomeFinished(s: State) { exists k :: k in s.closers && s.closers[k].Finished? }

  /** A call inside future.result, or about to be, whose id nobody has taken. */
  ghost predicate Stranded(s: State, c: nat) {
    c in s.calls && (At(s, c).Waiting? || At(s, c).Posting?) && At(s, c).id in s.ledger.pending
  }

  /** Over HTTP any finished close() has sealed the client; over stdio every
      close() past the transport's flag must have swept. */
  lemma FinishedSeals(s: State)
    requires Reachable(s) && SomeFinished(s) && (s.kind == Http || !ShuttingDown(s))
    ensures s.sealed && SendRefused(s)
  {
    ReachableInv(s);
    hide Ids, LedgerOk, CallsOk, RolesOk, AnswersOk, SentOk, SealedOk;
  }

  /** After a sealing close: nobody waits on a registered id, whoever waits can be
      given an outcome by the actor holding its Future, and a late send raises. */
  lemma SealedReleases(s: State, c: nat)
    requires Reachable(s) && s.sealed && c in s.calls
    ensures !Stranded(s, c)
    ensures At(s, c).Registered? ==> NextCall(s, c, WriteLine) == None && NextCall(s, c, PostStarts) == None
    ensures At(s, c).Waiting? ==> exists actions :: Releases(s, c, actions)
  {
    ReachableInv(s);
    hide Reachable, Ids, LedgerOk, CallsOk, RolesOk, AnswersOk, SentOk, RequestOf, Releases, Run;
    if At(s, c).Waiting? {
      var actions := WaiterIsReleased(s, c);
    }
  }

  lemma WaiterIsReleased(s: State, c: nat) returns (actions: seq<Action>)
    requires Inv(s) && c in s.calls && At(s, c).Waiting? && At(s, c).id !in s.ledger.pending
    ensures Releases(s, c, actions)
  {
    var id := At(s, c).id;
    WaitersFuture(s, c);
    hide Inv, Run, NextCall;
    if s.ledger.futures[id].Done? {
      actions := [];
      assert Run(s, []) == Some(s) by { RunNothing(s); }
      CanCollect(s, c);
    } else {
      var w := s.ledger.removedBy[id];
      actions := HolderDrains(s, w);
      CanCollect(Run(s, actions).value, c);
    }
  }

  lemma RunNothing(s: State)
    ensures Run(s, []) == Some(s)
  {
  }

  lemma CanCollect(s: State, c: nat)
    requires c in s.calls && At(s, c).Waiting? && Completed(s.ledger, At(s, c).id)
    ensures NextCall(s, c, Collects).Some?
  {
  }

  /** The Future of a call whose id was taken is done, or its taker still holds it. */
  lemma WaitersFuture(s: State, c: nat)
    requires Inv(s) && c in s.calls && At(s, c).Waiting? && At(s, c).id !in s.ledger.pending
    ensures var id := At(s, c).id;
            && id in s.ledger.futures
            && (s.ledger.futures[id].Done?
                || (id in s.ledger.removedBy && s.ledger.removedBy[id] in s.ledger.tasks
                    && id in s.ledger.tasks[s.ledger.removedBy[id]].ids))
  {
    hide Ids, RolesOk, AnswersOk, SentOk, CloseOk, SealedOk, PendingOk, TasksOk;
    OneCallOk(s, c);
    hide CallsOk;
  }

  /** Completing steps alone let the call collect its outcome: no timeout is needed. */
  ghost predicate Releases(s: State, c: nat, actions: seq<Action>) {
    && (forall n :: 0 <= n < |actions| ==> actions[n].ATask?)
    && Run(s, actions).Some? && NextCall(Run(s, actions).value, c, Collects).Some?
  }

  /** close() releases everyone, on either transport. */
  lemma CloseReleasesEveryone(s: State, c: nat)
    requires Reachable(s) && SomeFinished(s) && (s.kind == Http || !ShuttingDown(s)) && c in s.calls
    ensures !Stranded(s, c)
    ensures At(s, c).Registered? ==> NextCall(s, c, WriteLine) == None && NextCall(s, c, PostStarts) == None
    ensures At(s, c).Waiting? ==> exists actions :: Releases(s, c, actions)
  {
    hide Stranded, NextCall, Releases, Reachable;
    FinishedSeals(s);
    SealedReleases(s, c);
  }

  // ----- who answers whom --------------------------------------------------------

  /** A response whose call is still in request() finds its id registered, unless a
      close() is already failing that call, and then the call gets that response. */
  lemma AnswerIsNotLost(s: State, c: nat)
    requires Reachable(s) && c in s.calls && (At(s, c).Registered? || At(s, c).Posting? || At(s, c).Waiting?)
    requires s.reader.Parsed? && s.reader.id == Some(At(s, c).id) && FutureOf(s, At(s, c).id) == Unset
    requires forall k :: At(s, c).id !in Held(s.ledger, TheCloser(k))
    ensures var id := At(s, c).id;
            && id in s.ledger.pending
            && var s' := Run(s, [ARead(Pop), ATask(TheReader, Checks(id)), ATask(TheReader, Completes)]);
               s'.Some? && FutureOf(s'.value, id) == Done(s.reader.outcome)
  {
    ReachableInv(s);
    hide Reachable;
    UnsetIsPending(s, c);
    PendingIsUnset(s, At(s, c).id);
    hide Inv, Run;
    DeliverInThree(s, At(s, c).id);
  }

  /** pop, done(), set_result. */
  lemma DeliverInThree(s: State, id: nat)
    requires s.reader.Parsed? && s.reader.id == Some(id) && id in s.ledger.pending
    requires id in s.ledger.futures && s.ledger.futures[id] == Unset
    ensures var s' := Run(s, [ARead(Pop), ATask(TheReader, Checks(id)), ATask(TheReader, Completes)]);
            s'.Some? && FutureOf(s'.value, id) == Done(s.reader.outcome)
  {
    hide Run;
    var l := Take(s.ledger, {id}, TheReader, s.reader.outcome);
    var s1 := s.(ledger := l, reader := Delivering);
    var s2 := s1.(ledger := Check(l, TheReader, id));
    var s3 := s2.(ledger := Complete(s2.ledger, TheReader));
    assert FutureOf(s3, id) == Done(s.reader.outcome) && s2.ledger.tasks[TheReader].checked == Some(id);
    hide FutureOf, Take, Check, Complete;
    RunThree(s, ARead(Pop), s1, ATask(TheReader, Checks(id)), s2, ATask(TheReader, Completes), s3);
  }

  lemma RunThree(s: State, a1: Action, s1: State, a2: Action, s2: State, a3: Action, s3: State)
    requires Next(s, a1) == Some(s1) && Next(s1, a2) == Some(s2) && Next(s2, a3) == Some(s3)
    ensures Run(s, [a1, a2, a3]) == Some(s3)
  {
    hide Next;
    RunCons(s2, a3, []);
    RunCons(s1, a2, [a3]);
    RunCons(s, a1, [a2, a3]);
    assert [a1, a2, a3] == [a1] + [a2, a3] && [a2, a3] == [a2] + [a3] && [a3] == [a3] + [];
    RunNothing(s3);
  }

  lemma PendingIsUnset(s: State, id: nat)
    requires Inv(s) && id in s.ledger.pending
    ensures id in s.ledger.futures && s.ledger.futures[id] == Unset
  {
    hide Ids, TasksOk, FuturesOk, CallsOk, RolesOk, AnswersOk, SentOk, CloseOk, SealedOk;
  }

  lemma UnsetIsPending(s: State, c: nat)
    requires Inv(s) && c in s.calls && (At(s, c).Registered? || At(s, c).Posting? || At(s, c).Waiting?)
    requires s.reader.Parsed? && FutureOf(s, At(s, c).id) == Unset
    requires forall k :: At(s, c).id !in Held(s.ledger, TheCloser(k))
    ensures At(s, c).id in s.ledger.pending
  {
    hide Ids, AnswersOk, SentOk, CloseOk, SealedOk, PendingOk, TasksOk;
    OneCallOk(s, c);
    hide CallsOk;
    assert Held(s.ledger, TheReader) == {};
  }

  /** What request() returns or raises as the server's answer came in a delivered
      response carrying the call's own id; the request sent under it is the call's own. */
  lemma OutcomeWasDelivered(s: State, c: nat)
    requires Reachable(s) && c in s.calls && At(s, c).Returned?
    requires At(s, c).outcome.Answer? || At(s, c).outcome.Rejected?
    ensures exists raw :: raw in s.delivered && PhaseFor(raw) == Parsed(Some(At(s, c).id), At(s, c).outcome)
    ensures At(s, c).id in s.sent && s.sent[At(s, c).id] == RequestOf(s.calls[c], At(s, c).id)
  {
    ReachableInv(s);
    hide RolesOk, CloseOk, SealedOk, LedgerOk, RequestOf, PhaseFor, Reachable;
    OneCallOk(s, c);
    hide CallsOk;
    assert Backed(s.delivered, At(s, c).id, s.ledger.futures[At(s, c).id].outcome);
  }

  /** No two calls use one id. */
  lemma IdsAreUnique(s: State, c: nat, d: nat)
    requires Reachable(s) && c in s.calls && d in s.calls && HasId(At(s, c)) && HasId(At(s, d))
    ensures c != d ==> At(s, c).id != At(s, d).id
  {
    ReachableInv(s);
    hide LedgerOk, CallsOk, RolesOk, AnswersOk, SentOk, CloseOk, SealedOk, Reachable;
  }

  // ----- where the promise stops ---------------------------------------------------

  lemma {:induction false} RunAppend(s: State, actions: seq<Action>, a: Action)
    requires Run(s, actions).Some?
    ensures Run(s, actions + [a]) == Next(Run(s, actions).value, a)
    decreases |actions|
  {
    hide Next;
    if actions == [] {
      RunCons(s, a, []);
      assert [] + [a] == [a] + [];
    } else {
      RunAppend(Next(s, actions[0]).value, actions[1..], a);
      assert actions + [a] == [actions[0]] + (actions[1..] + [a]);
      RunCons(s, actions[0], actions[1..] + [a]);
    }
  }

  lemma Extend(s: State, a: Action, s': State)
    requires Reachable(s) && Next(s, a) == Some(s') && s'.kind == s.kind
    ensures Reachable(s')
  {
    hide Next;
    var actions :| Run(Init(s.kind), actions) == Some(s);
    RunAppend(Init(s.kind), actions, a);
  }

  lemma InitReachable(kind: Kind)
    ensures Reachable(Init(kind))
  {
    RunNothing(Init(kind));
  }

  /** The server has ended its output, and the reader thread with it. */
  lemma ReaderGone() returns (s: State)
    ensures Reachable(s) && s == Init(Stdio).(reader := Ended, inbox := [Eof])
  {
    hide Reachable;
    s := Init(Stdio);
    InitReachable(Stdio);
    s := Do(s, AArrives(Eof));
    s := Do(s, ARead(Receive(false)));
    s := Do(s, ARead(SweepPending));
    s := Do(s, ATask(TheReader, Finishes));
  }

  /** Two close() calls that both pass the check, over stdio, after the reader has gone: the
      second finds the transport's flag set, sweeps, has no thread to join and returns while
      sends still succeed. */
  lemma RacingCloses() returns (s: State)
    ensures Reachable(s) && s.kind == Stdio && SomeFinished(s) && Stranded(s, 0)
  {
    hide Reachable;
    s := ReaderGone();
    s := Do(s, ACall(0, Begin("ping", EMPTY)));
    s := Do(s, ACall(0, TakeId));
    s := Do(s, AClose(0, Enter));
    s := Do(s, AClose(1, Enter));
    s := Do(s, AClose(0, Mark));
    s := Do(s, AClose(1, Mark));
    s := Do(s, AClose(0, TestFlag));
    s := Do(s, AClose(0, SetFlag));
    s := Do(s, AClose(1, TestFlag));
    s := Do(s, AClose(1, SweepClosed));
    s := Do(s, ATask(TheCloser(1), Finishes));
    s := Do(s, AClose(1, Join(false)));
    s := Do(s, ACall(0, Register));
    s := Do(s, ACall(0, WriteLine));
    assert s.closers[1].Finished?;
  }

  lemma Do(s: State, a: Action) returns (s': State)
    requires Reachable(s) && Next(s, a).Some? && Next(s, a).value.kind == s.kind
    ensures s' == Next(s, a).value && Reachable(s')
  {
    s' := Next(s, a).value;
    Extend(s, a, s');
  }

  /** A finished close() with a call left stranded: possible exactly over stdio. */
  lemma FinishedCloseCanStrand(kind: Kind)
    ensures (exists s, c :: Reachable(s) && s.kind == kind && SomeFinished(s) && Stranded(s, c)) <==> kind == Stdio
  {
    hide Reachable, Stranded, SomeFinished;
    if kind == Stdio {
      var s := RacingCloses();
    } else {
      forall s, c | Reachable(s) && s.kind == kind && SomeFinished(s)
        ensures !Stranded(s, c)
      {
        if c in s.calls {
          CloseReleasesEveryone(s, c);
        } else {
          NotACall(s, c);
        }
      }
    }
  }

  lemma NotACall(s: State, c: nat)
    requires c !in s.calls
    ensures !Stranded(s, c)
  {
  }

  /** A Future that is unset and that nobody is about to complete. */
  ghost predicate Unheld(l: Ledger, i: nat) {
    i in l.futures && l.futures[i].Unset? && forall w :: i !in Held(l, w)
  }

  /** The reader is gone and nobody holds the Future. */
  ghost predicate Orphaned(s: State, i: nat) {
    s.reader.Ended? && Unheld(s.ledger, i)
  }

  lemma OpenLeavesUnheld(l: Ledger, i: nat, id: nat)
    requires Unheld(l, i) && id != i
    ensures Unheld(Open(l, id), i)
  {
    forall w ensures i !in Held(Open(l, id), w) { assert i !in Held(l, w); }
  }

  lemma DropLeavesUnheld(l: Ledger, i: nat, id: nat, c: nat)
    requires Unheld(l, i)
    ensures Unheld(Drop(l, id, c), i)
  {
    forall w ensures i !in Held(Drop(l, id, c), w) { assert i !in Held(l, w); }
  }

  lemma CheckLeavesUnheld(l: Ledger, i: nat, w: Who, id: nat)
    requires Unheld(l, i) && w in l.tasks && id in l.futures
    ensures Unheld(Check(l, w, id), i)
  {
    forall v ensures i !in Held(Check(l, w, id), v) { assert i !in Held(l, v); }
  }

  lemma CompleteLeavesUnheld(l: Ledger, i: nat, w: Who)
    requires LedgerOk(l) && Unheld(l, i) && w in l.tasks && l.tasks[w].checked.Some?
    ensures l.tasks[w].checked.value in l.futures && Unheld(Complete(l, w), i)
  {
    CheckedIsUnset(l, w);
    hide LedgerOk;
    assert i !in Held(l, w);
    forall v ensures i !in Held(Complete(l, w), v) { assert i !in Held(l, v); }
  }

  lemma ReleaseLeavesUnheld(l: Ledger, i: nat, w: Who)
    requires Unheld(l, i)
    ensures Unheld(Release(l, w), i)
  {
    forall v ensures i !in Held(Release(l, w), v) { assert i !in Held(l, v); }
  }

  /** A server that ends its stdout but keeps its stdin open: a later request is sent
      and nobody is left to answer it. */
  lemma EofBeforeRequest() returns (s: State)
    ensures Reachable(s) && At0Waits(s) && Orphaned(s, 1) && !s.clientClosed
  {
    hide Reachable;
    s := ReaderGone();
    s := Do(s, ACall(0, Begin("ping", EMPTY)));
    s := Do(s, ACall(0, TakeId));
    s := Do(s, ACall(0, Register));
    s := Do(s, ACall(0, WriteLine));
  }

  predicate At0Waits(s: State) { 0 in s.calls && At(s, 0) == Waiting(1) }

  lemma CallLeavesOrphan(s: State, c: nat, step: CallStep, i: nat)
    requires CallsOk(s.owner, s.calls, s.ledger) && Orphaned(s, i) && NextCall(s, c, step).Some?
    ensures Orphaned(NextCall(s, c, step).value, i)
  {
    hide CallOk, RequestOf, CallsOk, Unheld, Open, Drop;
    if step.Register? {
      assert i in s.ledger.futures by { UnheldExists(s.ledger, i); }
      assert At(s, c).id !in s.ledger.futures by { OneCallOk(s, c); Registering(s, c, step); }
      OpenLeavesUnheld(s.ledger, i, At(s, c).id);
    } else if step.Unregister? {
      DropLeavesUnheld(s.ledger, i, At(s, c).id, c);
    }
  }

  lemma UnheldExists(l: Ledger, i: nat)
    requires Unheld(l, i)
    ensures i in l.futures
  {
  }

  lemma TaskLeavesOrphan(s: State, w: Who, step: TaskStep, i: nat)
    requires LedgerOk(s.ledger) && Orphaned(s, i) && NextTask(s, w, step).Some?
    ensures Orphaned(NextTask(s, w, step).value, i)
  {
    hide LedgerOk, Unheld, Check, Complete, Release;
    match step
    case Checks(id) => CheckLeavesUnheld(s.ledger, i, w, id);
    case Completes => CompleteLeavesUnheld(s.ledger, i, w);
    case Finishes => ReleaseLeavesUnheld(s.ledger, i, w);
  }

  lemma NextLeavesOrphan(s: State, a: Action, i: nat)
    requires Inv(s) && Orphaned(s, i) && Next(s, a).Some? && !(a.AClose? && a.close.SweepClosed?)
    ensures Orphaned(Next(s, a).value, i)
  {
    hide Ids, CallsOk, LedgerOk, RolesOk, AnswersOk, SentOk, CloseOk, SealedOk, NextCall, NextTask, Unheld, Take, Heard, Rest, Popped;
    match a
    case ACall(c, step) => CallLeavesOrphan(s, c, step, i);
    case ATask(w, step) => TaskLeavesOrphan(s, w, step, i);
    case _ => hide Inv;
  }

  /** Such a call gets no outcome, whatever happens, until a close() sweeps. */
  lemma {:induction false} OrphanStaysUnset(s: State, actions: seq<Action>, i: nat)
    requires Inv(s) && Orphaned(s, i) && Run(s, actions).Some?
    requires forall n :: 0 <= n < |actions| ==> !(actions[n].AClose? && actions[n].close.SweepClosed?)
    ensures Orphaned(Run(s, actions).value, i)
    decreases |actions|
  {
    if actions != [] {
      hide Inv, Orphaned, Next;
      NextKeeps(s, actions[0]);
      NextLeavesOrphan(s, actions[0], i);
      OrphanStaysUnset(Next(s, actions[0]).value, actions[1..], i);
    }
  }
}
