/** The inductive invariant of ClientProtocol, one conjunct per concern. */
module ClientInvariant {
  import opened Prelude
  import opened JsonValues
  import opened JsonRpc
  import opened FutureLedger
  import opened ClientProtocol

  /** Ids are handed out once: owner is a bijection between ids and numbered calls. */
  ghost predicate Ids(nextId: nat, owner: map<nat, nat>, calls: map<nat, Call>) {
    && nextId >= 1
    && (forall c :: c in calls && HasId(calls[c].at) ==> calls[c].at.id in owner && owner[calls[c].at.id] == c)
    && (forall i :: i in owner ==>
          1 <= i < nextId && owner[i] in calls && HasId(calls[owner[i]].at) && calls[owner[i]].at.id == i)
  }

  /** A call between registering its id and giving it up. */
  predicate Active(p: Phase) { p.Registered? || p.Posting? || p.Waiting? || p.SendRaised? || p.Expired? }

  /** Where a call stands says what the ledger holds for its id. */
  ghost predicate CallOk(p: Phase, l: Ledger) {
    && (p.Numbered? ==> p.id !in l.futures)
    && (Active(p) || p.Returned? || p.Raised? ==> p.id in l.futures)
    && (p.Returned? ==> l.futures[p.id] == Done(p.outcome))
    && (p.Returned? || p.Raised? ==> p.id !in l.pending)
    && (HasId(p) && p.id in l.removedBy && l.removedBy[p.id].TheCaller? ==> p.Raised?)
  }

  ghost predicate CallsOk(owner: map<nat, nat>, calls: map<nat, Call>, l: Ledger) {
    && (forall c :: c in calls ==> CallOk(calls[c].at, l))
    && (forall i :: i in l.futures ==> i in owner)
  }

  /** An actor is in a completing phase exactly when it has a task. */
  ghost predicate RolesOk(busy: set<Who>, reader: ReaderPhase, closers: map<nat, CloserPhase>) {
    && (TheReader in busy <==> reader.Delivering? || reader.Sweeping?)
    && (forall k :: TheCloser(k) in busy <==> k in closers && closers[k].SweepingClosed?)
  }

  /** A server's outcome for id i came in a delivered response carrying i. */
  ghost predicate Backed(delivered: set<Json>, i: nat, o: Outcome) {
    o.Answer? || o.Rejected? ==> exists raw :: raw in delivered && PhaseFor(raw) == Parsed(Some(i), o)
  }

  ghost predicate AnswersOk(l: Ledger, reader: ReaderPhase, inbox: seq<Item>, delivered: set<Json>) {
    && (forall n :: 0 <= n < |inbox| && inbox[n].Incoming? ==> inbox[n].raw in delivered)
    && (reader.Parsed? && reader.id.Some? ==> Backed(delivered, reader.id.value, reader.outcome))
    && (forall w, i :: w in l.tasks && i in l.tasks[w].ids ==> Backed(delivered, i, l.tasks[w].outcome))
    && (forall i :: i in l.futures && l.futures[i].Done? ==> Backed(delivered, i, l.futures[i].outcome))
  }

  /** Every request on the wire is the one its owner built. */
  ghost predicate SentOk(owner: map<nat, nat>, calls: map<nat, Call>, sent: map<nat, Json>) {
    && (forall i :: i in sent ==> i in owner && owner[i] in calls && sent[i] == RequestOf(calls[owner[i]], i))
    && (forall c :: c in calls && (calls[c].at.Posting? || calls[c].at.Waiting? || calls[c].at.Returned?) ==> calls[c].at.id in sent)
  }

  predicate PastFlag(p: CloserPhase) { p.Shutting? || p.Shut? || HasSwept(p) }

  predicate HasSwept(p: CloserPhase) { p.SweepingClosed? || p.Joining? || p.Finished? }

  /** Some closer has set the transport's flag and has yet to sweep with sends refused. */
  ghost predicate ShuttingDown(s: State) {
    exists k :: k in s.closers && (s.closers[k].Shutting? || (s.closers[k].Shut? && SendRefused(s)))
  }

  ghost predicate CloseOk(s: State) {
    && (s.shut ==> s.flagged)
    && (forall k :: k in s.closers && PastFlag(s.closers[k]) ==> s.flagged)
    && (s.flagged ==> s.sealed || ShuttingDown(s))
    && (s.kind == Http ==> forall k :: k in s.closers && HasSwept(s.closers[k]) ==> s.sealed)
    && (s.sealed ==> SendRefused(s))
  }

  /** After a sealing sweep a registered id belongs to a call that cannot be waiting. */
  ghost predicate SealedOk(sealed: bool, pending: set<nat>, calls: map<nat, Call>) {
    sealed ==> forall c :: c in calls && (calls[c].at.Posting? || calls[c].at.Waiting?) ==> calls[c].at.id !in pending
  }

  ghost predicate Inv(s: State) {
    && Ids(s.nextId, s.owner, s.calls)
    && LedgerOk(s.ledger)
    && CallsOk(s.owner, s.calls, s.ledger)
    && RolesOk(s.ledger.tasks.Keys, s.reader, s.closers)
    && AnswersOk(s.ledger, s.reader, s.inbox, s.delivered)
    && SentOk(s.owner, s.calls, s.sent)
    && CloseOk(s)
    && SealedOk(s.sealed, s.ledger.pending, s.calls)
  }

  lemma InitInv(kind: Kind)
    ensures Inv(Init(kind))
  {
  }

  // ----- request() keeps it -------------------------------------------------

  /** A step after TakeId only moves its own call, which keeps its id. */
  ghost predicate Moves(s: State, s': State, c: nat, p: Phase) {
    && c in s.calls && HasId(At(s, c)) && HasId(p) && p.id == At(s, c).id
    && s'.calls == s.calls[c := s.calls[c].(at := p)] && s'.owner == s.owner && s'.nextId == s.nextId
  }

  lemma CallShape(s: State, c: nat, step: CallStep)
    requires NextCall(s, c, step).Some? && !step.Begin? && !step.TakeId?
    ensures var s' := NextCall(s, c, step).value; c in s'.calls && Moves(s, s', c, At(s', c))
  {
    ArriveLeavesCalls();
    hide RequestOf, Open, Drop, Arrive, FutureOf;
  }

  lemma ArriveLeavesCalls()
    ensures forall t: State, body ::
              Arrive(t, body).calls == t.calls && Arrive(t, body).owner == t.owner && Arrive(t, body).nextId == t.nextId
  {
  }

  lemma MoveKeepsIds(s: State, s': State, c: nat, p: Phase)
    requires Ids(s.nextId, s.owner, s.calls) && Moves(s, s', c, p)
    ensures Ids(s'.nextId, s'.owner, s'.calls)
  {
  }

  lemma BeginKeepsIds(s: State, c: nat, call: Call)
    requires Ids(s.nextId, s.owner, s.calls) && c !in s.calls && !HasId(call.at)
    ensures Ids(s.nextId, s.owner, s.calls[c := call])
  {
  }

  lemma TakeIdKeepsIds(s: State, c: nat)
    requires Ids(s.nextId, s.owner, s.calls) && c in s.calls && At(s, c).Checked?
    ensures Ids(s.nextId + 1, s.owner[s.nextId := c], s.calls[c := s.calls[c].(at := Numbered(s.nextId))])
  {
  }

  lemma CallKeepsIds(s: State, c: nat, step: CallStep)
    requires Ids(s.nextId, s.owner, s.calls) && NextCall(s, c, step).Some?
    ensures var s' := NextCall(s, c, step).value; Ids(s'.nextId, s'.owner, s'.calls)
  {
    hide RequestOf, Open, Drop, Ids;
    var s' := NextCall(s, c, step).value;
    if step.Begin? {
      BeginKeepsIds(s, c, s'.calls[c]);
    } else if step.TakeId? {
      TakeIdKeepsIds(s, c);
    } else {
      CallShape(s, c, step);
      MoveKeepsIds(s, s', c, At(s', c));
    }
  }

  lemma CallKeepsLedger(s: State, c: nat, step: CallStep)
    requires LedgerOk(s.ledger) && CallsOk(s.owner, s.calls, s.ledger) && NextCall(s, c, step).Some?
    ensures LedgerOk(NextCall(s, c, step).value.ledger)
  {
    hide RequestOf, Open, Drop, LedgerOk;
    var p := if c in s.calls then At(s, c) else Refused;
    if step.Register? && p.Numbered? {
      OpenKeeps(s.ledger, p.id);
    } else if step.Unregister? && (p.SendRaised? || p.Expired?) {
      DropKeeps(s.ledger, p.id, c);
    }
  }

  /** The ledger changes at one id only: every other call is unaffected. */
  ghost predicate SameElsewhere(l: Ledger, l': Ledger, id: nat) {
    && (forall i :: i in l'.futures ==> i == id || i in l.futures)
    && (forall i :: i in l.futures ==> i in l'.futures && (i != id ==> l'.futures[i] == l.futures[i]))
    && (forall i :: i in l'.pending && i != id ==> i in l.pending)
    && (forall i :: i in l'.removedBy && i != id ==> i in l.removedBy && l'.removedBy[i] == l.removedBy[i])
  }

  lemma LedgerMoveKeepsCalls(s: State, s': State, c: nat, p: Phase)
    requires Ids(s.nextId, s.owner, s.calls) && CallsOk(s.owner, s.calls, s.ledger) && Moves(s, s', c, p)
    requires SameElsewhere(s.ledger, s'.ledger, p.id) && CallOk(p, s'.ledger)
    ensures CallsOk(s'.owner, s'.calls, s'.ledger)
  {
    forall d | d in s'.calls ensures CallOk(s'.calls[d].at, s'.ledger) {
      if d != c {
        assert CallOk(s.calls[d].at, s.ledger);
        assert HasId(s.calls[d].at) ==> s.calls[d].at.id != p.id;
      }
    }
  }

  lemma CallKeepsCalls(s: State, c: nat, step: CallStep)
    requires Ids(s.nextId, s.owner, s.calls) && LedgerOk(s.ledger) && CallsOk(s.owner, s.calls, s.ledger) && NextCall(s, c, step).Some?
    ensures var s' := NextCall(s, c, step).value; CallsOk(s'.owner, s'.calls, s'.ledger)
  {
    hide RequestOf, Ids, LedgerOk, CallsOk, CallOk, SameElsewhere, Open, Drop;
    var s' := NextCall(s, c, step).value;
    if step.Begin? {
      BeginKeepsCalls(s, c, s'.calls[c]);
    } else if step.TakeId? {
      TakeIdKeepsCalls(s, c);
    } else {
      CallShape(s, c, step);
      OneCallOk(s, c);
      assert (step.Register? ==> At(s, c).id !in s.ledger.futures) && (step.Unregister? ==> At(s, c).id in s.ledger.futures) by {
        Registering(s, c, step);
      }
      OneCallAfter(s, c, step);
      LedgerMoveKeepsCalls(s, s', c, At(s', c));
    }
  }

  lemma OneCallAfter(s: State, c: nat, step: CallStep)
    requires c in s.calls && NextCall(s, c, step).Some? && !step.Begin? && !step.TakeId?
    requires LedgerOk(s.ledger) && HasId(At(s, c)) && CallOk(At(s, c), s.ledger)
    requires step.Register? ==> At(s, c).id !in s.ledger.futures
    requires step.Unregister? ==> At(s, c).id in s.ledger.futures
    ensures var s' := NextCall(s, c, step).value;
            && c in s'.calls && HasId(At(s', c)) && CallOk(At(s', c), s'.ledger)
            && SameElsewhere(s.ledger, s'.ledger, At(s', c).id)
  {
    hide RequestOf, LedgerOk, CallOk, Open, Drop, SameElsewhere;
    var s' := NextCall(s, c, step).value;
    var id := At(s, c).id;
    if step.Register? {
      OpenAt(s.ledger, id);
    } else if step.Unregister? {
      DropAt(s.ledger, id, c);
    } else {
      Unchanged(s.ledger, id);
      assert CallOk(At(s', c), s.ledger) by { MovedAt(s, c, step); }
    }
  }

  lemma Registering(s: State, c: nat, step: CallStep)
    requires c in s.calls && NextCall(s, c, step).Some? && CallOk(At(s, c), s.ledger)
    ensures step.Register? ==> At(s, c).id !in s.ledger.futures
    ensures step.Unregister? ==> At(s, c).id in s.ledger.futures
  {
    hide RequestOf, Open, Drop;
  }

  lemma MovedAt(s: State, c: nat, step: CallStep)
    requires c in s.calls && NextCall(s, c, step).Some? && !step.Begin? && !step.TakeId? && !step.Register? && !step.Unregister?
    requires LedgerOk(s.ledger) && CallOk(At(s, c), s.ledger)
    ensures var s' := NextCall(s, c, step).value; c in s'.calls && CallOk(At(s', c), s.ledger)
  {
    hide RequestOf, LedgerOk;
    DoneIsTaken(s.ledger, if HasId(At(s, c)) then At(s, c).id else 0);
  }

  lemma OpenAt(l: Ledger, id: nat)
    requires LedgerOk(l) && id !in l.futures
    ensures CallOk(Registered(id), Open(l, id)) && SameElsewhere(l, Open(l, id), id)
  {
    assert id !in l.removedBy;
  }

  lemma DropAt(l: Ledger, id: nat, c: nat)
    requires id in l.futures
    ensures CallOk(Raised(id), Drop(l, id, c)) && SameElsewhere(l, Drop(l, id, c), id)
  {
  }

  lemma Unchanged(l: Ledger, id: nat)
    ensures SameElsewhere(l, l, id)
  {
  }

  lemma OneCallOk(s: State, c: nat)
    requires CallsOk(s.owner, s.calls, s.ledger) && c in s.calls
    ensures CallOk(s.calls[c].at, s.ledger)
  {
  }

  lemma BeginKeepsCalls(s: State, c: nat, call: Call)
    requires CallsOk(s.owner, s.calls, s.ledger) && !HasId(call.at)
    ensures CallsOk(s.owner, s.calls[c := call], s.ledger)
  {
  }

  lemma TakeIdKeepsCalls(s: State, c: nat)
    requires Ids(s.nextId, s.owner, s.calls) && LedgerOk(s.ledger) && CallsOk(s.owner, s.calls, s.ledger)
    requires c in s.calls && At(s, c).Checked?
    ensures CallsOk(s.owner[s.nextId := c], s.calls[c := s.calls[c].(at := Numbered(s.nextId))], s.ledger)
  {
    assert s.nextId !in s.ledger.futures;
    hide CallOk;
    assert CallOk(Numbered(s.nextId), s.ledger) by { NumberedOk(s.ledger, s.nextId); }
  }

  lemma NumberedOk(l: Ledger, id: nat)
    requires LedgerOk(l) && id !in l.futures
    ensures CallOk(Numbered(id), l)
  {
  }

  lemma DoneIsTaken(l: Ledger, id: nat)
    requires LedgerOk(l)
    ensures id in l.futures && l.futures[id].Done? ==> id !in l.pending && id in l.removedBy && !l.removedBy[id].TheCaller?
  {
  }

  lemma CallKeepsRoles(s: State, c: nat, step: CallStep)
    requires RolesOk(s.ledger.tasks.Keys, s.reader, s.closers) && NextCall(s, c, step).Some?
    ensures var s' := NextCall(s, c, step).value; RolesOk(s'.ledger.tasks.Keys, s'.reader, s'.closers)
  {
    CallLeavesTasks(s, c, step);
    CallArrivals(s, c, step);
    hide NextCall, RolesOk;
  }

  /** Registering and unregistering touch no task and complete no Future. */
  lemma OpenAndDrop(l: Ledger)
    ensures forall id :: Open(l, id).tasks == l.tasks && Open(l, id).futures == l.futures[id := Unset]
    ensures forall id, c :: Drop(l, id, c).tasks == l.tasks && Drop(l, id, c).futures == l.futures
  {
  }

  /** What is done was done before. */
  ghost predicate SameTasks(l: Ledger, l': Ledger) {
    && l'.tasks == l.tasks
    && forall i :: i in l'.futures && l'.futures[i].Done? ==> i in l.futures && l.futures[i] == l'.futures[i]
  }

  /** What arrived stays arrived. */
  ghost predicate Arrivals(s: State, s': State) {
    && s'.reader == s.reader && s'.closers == s.closers && s.delivered <= s'.delivered
    && forall n :: 0 <= n < |s'.inbox| && s'.inbox[n].Incoming? ==> s'.inbox[n] in s.inbox || s'.inbox[n].raw in s'.delivered
  }

  lemma CallLeavesTasks(s: State, c: nat, step: CallStep)
    requires NextCall(s, c, step).Some?
    ensures SameTasks(s.ledger, NextCall(s, c, step).value.ledger)
  {
    OpenAndDrop(s.ledger);
    ArriveFrame(s);
    hide RequestOf, Open, Drop, FutureOf, Arrive;
  }

  lemma ArriveFrame(s: State)
    ensures forall t: State, body :: Arrive(t, body).ledger == t.ledger
  {
  }

  lemma CallArrivals(s: State, c: nat, step: CallStep)
    requires NextCall(s, c, step).Some?
    ensures Arrivals(s, NextCall(s, c, step).value)
  {
    hide RequestOf, Open, Drop, FutureOf, Arrive;
    ArrivesKnown();
  }

  lemma ArrivesKnown()
    ensures forall t: State, body :: Arrivals(t, Arrive(t, body))
  {
  }

  lemma FrameKeepsAnswers(s: State, s': State)
    requires AnswersOk(s.ledger, s.reader, s.inbox, s.delivered) && SameTasks(s.ledger, s'.ledger) && Arrivals(s, s')
    ensures AnswersOk(s'.ledger, s'.reader, s'.inbox, s'.delivered)
  {
    hide PhaseFor;
  }

  lemma CallKeepsAnswers(s: State, c: nat, step: CallStep)
    requires AnswersOk(s.ledger, s.reader, s.inbox, s.delivered) && NextCall(s, c, step).Some?
    ensures var s' := NextCall(s, c, step).value; AnswersOk(s'.ledger, s'.reader, s'.inbox, s'.delivered)
  {
    CallLeavesTasks(s, c, step);
    CallArrivals(s, c, step);
    FrameKeepsAnswers(s, NextCall(s, c, step).value);
    hide NextCall, AnswersOk, SameTasks, Arrivals;
  }

  lemma MoveKeepsSent(s: State, s': State, c: nat, p: Phase)
    requires Ids(s.nextId, s.owner, s.calls) && SentOk(s.owner, s.calls, s.sent) && Moves(s, s', c, p)
    requires s'.sent == s.sent || s'.sent == s.sent[p.id := RequestOf(s.calls[c], p.id)]
    requires (p.Posting? || p.Waiting? || p.Returned?) ==> p.id in s'.sent
    ensures SentOk(s'.owner, s'.calls, s'.sent)
  {
    hide BuildRequest;
  }

  lemma SentAt(s: State, c: nat)
    requires SentOk(s.owner, s.calls, s.sent) && c in s.calls
    ensures At(s, c).Posting? || At(s, c).Waiting? ==> At(s, c).id in s.sent
  {
    hide RequestOf;
  }

  lemma BeginKeepsSent(s: State, c: nat, call: Call)
    requires Ids(s.nextId, s.owner, s.calls) && SentOk(s.owner, s.calls, s.sent) && c !in s.calls && !HasId(call.at)
    ensures SentOk(s.owner, s.calls[c := call], s.sent)
  {
    hide RequestOf;
  }

  lemma TakeIdKeepsSent(s: State, c: nat)
    requires Ids(s.nextId, s.owner, s.calls) && SentOk(s.owner, s.calls, s.sent) && c in s.calls && At(s, c).Checked?
    ensures SentOk(s.owner[s.nextId := c], s.calls[c := s.calls[c].(at := Numbered(s.nextId))], s.sent)
  {
    hide RequestOf;
    assert forall i :: i in s.sent ==> i != s.nextId && s.owner[i] != c;
  }

  lemma CallKeepsSent(s: State, c: nat, step: CallStep)
    requires Ids(s.nextId, s.owner, s.calls) && SentOk(s.owner, s.calls, s.sent) && NextCall(s, c, step).Some?
    ensures var s' := NextCall(s, c, step).value; SentOk(s'.owner, s'.calls, s'.sent)
  {
    hide RequestOf, Open, Drop, SentOk, Ids;
    var s' := NextCall(s, c, step).value;
    if step.Begin? {
      BeginKeepsSent(s, c, s'.calls[c]);
    } else if step.TakeId? {
      TakeIdKeepsSent(s, c);
    } else {
      CallShape(s, c, step);
      assert At(s, c).Posting? || At(s, c).Waiting? ==> At(s, c).id in s.sent by { SentAt(s, c); }
      MoveKeepsSent(s, s', c, At(s', c));
    }
  }

  lemma CallKeepsClose(s: State, c: nat, step: CallStep)
    requires CloseOk(s) && NextCall(s, c, step).Some?
    ensures CloseOk(NextCall(s, c, step).value)
  {
    hide RequestOf;
  }

  lemma CallKeepsSealed(s: State, c: nat, step: CallStep)
    requires Ids(s.nextId, s.owner, s.calls) && CloseOk(s) && SealedOk(s.sealed, s.ledger.pending, s.calls) && NextCall(s, c, step).Some?
    ensures var s' := NextCall(s, c, step).value; SealedOk(s'.sealed, s'.ledger.pending, s'.calls)
  {
    hide RequestOf;
  }


  // ----- the other threads keep it ------------------------------------------

  /** What completing and sweeping do to the ledger, as the calls see it. */
  ghost predicate Settles(l: Ledger, l': Ledger) {
    && l'.pending <= l.pending
    && (forall i :: i in l.futures <==> i in l'.futures)
    && (forall i :: i in l.futures && l.futures[i].Done? ==> l'.futures[i] == l.futures[i])
    && (forall i :: i in l'.removedBy && l'.removedBy[i].TheCaller? ==> i in l.removedBy && l.removedBy[i] == l'.removedBy[i])
  }

  lemma SettlingKeepsCalls(s: State, l': Ledger)
    requires CallsOk(s.owner, s.calls, s.ledger) && Settles(s.ledger, l')
    ensures CallsOk(s.owner, s.calls, l')
  {
    forall c | c in s.calls ensures CallOk(s.calls[c].at, l') {
      assert CallOk(s.calls[c].at, s.ledger);
    }
  }

  lemma TaskKeepsLedger(s: State, w: Who, step: TaskStep)
    requires LedgerOk(s.ledger) && NextTask(s, w, step).Some?
    ensures var l' := NextTask(s, w, step).value.ledger; LedgerOk(l') && Settles(s.ledger, l') && l'.pending == s.ledger.pending
  {
    hide LedgerOk, Check, Complete, Release, Settles;
    match step
    case Checks(id) =>
      CheckKeeps(s.ledger, w, id);
      CheckSettles(s.ledger, w, id);
    case Completes =>
      assert s.ledger.tasks[w].checked.value in s.ledger.tasks[w].ids && s.ledger.futures[s.ledger.tasks[w].checked.value].Unset? by {
        CheckedIsUnset(s.ledger, w);
      }
      CompleteKeeps(s.ledger, w);
      CompleteSettles(s.ledger, w);
    case Finishes =>
      ReleaseKeeps(s.ledger, w);
      ReleaseSettles(s.ledger, w);
  }

  lemma CheckSettles(l: Ledger, w: Who, id: nat)
    requires w in l.tasks && id in l.futures
    ensures Settles(l, Check(l, w, id)) && Check(l, w, id).pending == l.pending
  {
  }

  lemma CompleteSettles(l: Ledger, w: Who)
    requires w in l.tasks && l.tasks[w].checked.Some? && l.tasks[w].checked.value in l.tasks[w].ids && l.tasks[w].checked.value in l.futures
    requires l.futures[l.tasks[w].checked.value].Unset?
    ensures Settles(l, Complete(l, w)) && Complete(l, w).pending == l.pending
  {
  }

  lemma ReleaseSettles(l: Ledger, w: Who)
    ensures Settles(l, Release(l, w)) && Release(l, w).pending == l.pending
  {
  }

  lemma CheckedIsUnset(l: Ledger, w: Who)
    requires LedgerOk(l) && w in l.tasks && l.tasks[w].checked.Some?
    ensures l.tasks[w].checked.value in l.tasks[w].ids && l.tasks[w].checked.value in l.futures
    ensures l.futures[l.tasks[w].checked.value].Unset?
  {
  }

  /** Which actors have a task after each ledger operation. */
  lemma TaskKeys(l: Ledger, w: Who)
    ensures forall id | w in l.tasks && id in l.futures :: Check(l, w, id).tasks.Keys == l.tasks.Keys
    ensures w in l.tasks && l.tasks[w].checked.Some? && l.tasks[w].checked.value in l.futures ==> Complete(l, w).tasks.Keys == l.tasks.Keys
    ensures Release(l, w).tasks.Keys == l.tasks.Keys - {w}
    ensures forall ids, outcome :: Take(l, ids, w, outcome).tasks.Keys == l.tasks.Keys + {w}
  {
  }

  lemma TaskKeepsRoles(s: State, w: Who, step: TaskStep)
    requires RolesOk(s.ledger.tasks.Keys, s.reader, s.closers) && NextTask(s, w, step).Some?
    ensures var s' := NextTask(s, w, step).value; RolesOk(s'.ledger.tasks.Keys, s'.reader, s'.closers)
  {
    hide Check, Complete, Release, Take;
    TaskKeys(s.ledger, w);
    var s' := NextTask(s, w, step).value;
    if !step.Finishes? {
      hide RolesOk;
    }
  }

  lemma TaskKeepsAnswers(s: State, w: Who, step: TaskStep)
    requires LedgerOk(s.ledger) && AnswersOk(s.ledger, s.reader, s.inbox, s.delivered) && NextTask(s, w, step).Some?
    ensures var s' := NextTask(s, w, step).value; AnswersOk(s'.ledger, s'.reader, s'.inbox, s'.delivered)
  {
    hide Backed;
    if step.Completes? {
      CheckedIsUnset(s.ledger, w);
    }
    hide LedgerOk;
  }

  lemma TaskKeepsClose(s: State, w: Who, step: TaskStep)
    requires CloseOk(s) && NextTask(s, w, step).Some?
    ensures CloseOk(NextTask(s, w, step).value)
  {
    hide Check, Complete, Release;
    var s' := NextTask(s, w, step).value;
    if ShuttingDown(s) {
      var k :| k in s.closers && (s.closers[k].Shutting? || (s.closers[k].Shut? && SendRefused(s)));
      assert k in s'.closers && s'.closers[k] == s.closers[k];
    }
  }

  lemma TaskKeeps(s: State, w: Who, step: TaskStep)
    requires Inv(s) && NextTask(s, w, step).Some?
    ensures Inv(NextTask(s, w, step).value)
  {
    hide Ids, LedgerOk, CallsOk, RolesOk, AnswersOk, SentOk, CloseOk, SealedOk, Settles, Check, Complete, Release;
    TaskKeepsLedger(s, w, step);
    SettlingKeepsCalls(s, NextTask(s, w, step).value.ledger);
    TaskKeepsRoles(s, w, step);
    TaskKeepsAnswers(s, w, step);
    TaskKeepsClose(s, w, step);
  }

  lemma CallKeeps(s: State, c: nat, step: CallStep)
    requires Inv(s) && NextCall(s, c, step).Some?
    ensures Inv(NextCall(s, c, step).value)
  {
    hide Ids, LedgerOk, CallsOk, RolesOk, AnswersOk, SentOk, CloseOk, SealedOk, NextCall;
    CallKeepsIds(s, c, step);
    CallKeepsLedger(s, c, step);
    CallKeepsCalls(s, c, step);
    CallKeepsRoles(s, c, step);
    CallKeepsAnswers(s, c, step);
    CallKeepsSent(s, c, step);
    CallKeepsClose(s, c, step);
    CallKeepsSealed(s, c, step);
  }

  /** One pop, or a sweep: everything a Take leaves true. */
  lemma TakeSettles(l: Ledger, ids: set<nat>, w: Who, outcome: Outcome)
    requires LedgerOk(l) && ids <= l.pending && w !in l.tasks && !w.TheCaller?
    ensures var l' := Take(l, ids, w, outcome); LedgerOk(l') && Settles(l, l') && l'.pending == l.pending - ids
  {
    TakeKeeps(l, ids, w, outcome);
    hide LedgerOk;
  }

  lemma SmallerKeepsSealed(sealed: bool, pending: set<nat>, less: set<nat>, calls: map<nat, Call>)
    requires SealedOk(sealed, pending, calls) && less <= pending
    ensures SealedOk(sealed, less, calls)
  {
  }

  /** A message just heard never puts the reader in a completing phase. */
  lemma HeardIsIdle(head: Item, logRaises: bool)
    ensures var p := Heard(head, logRaises); !p.Delivering? && !p.Sweeping?
  {
    hide ParseMessage;
  }

  lemma ReceiveKeepsAnswers(s: State, logRaises: bool)
    requires s.inbox != [] && AnswersOk(s.ledger, s.reader, s.inbox, s.delivered)
    ensures AnswersOk(s.ledger, Heard(s.inbox[0], logRaises), Rest(s.inbox), s.delivered)
  {
    hide PhaseFor;
    var rest := Rest(s.inbox);
    forall n | 0 <= n < |rest| && rest[n].Incoming? ensures rest[n].raw in s.delivered {
      assert rest[n] == s.inbox[n + 1];
    }
  }

  lemma ReceiveKeeps(s: State, logRaises: bool)
    requires Inv(s) && NextRead(s, Receive(logRaises)).Some?
    ensures Inv(NextRead(s, Receive(logRaises)).value)
  {
    hide Ids, LedgerOk, CallsOk, AnswersOk, SentOk, CloseOk, SealedOk, Heard, Rest;
    HeardIsIdle(s.inbox[0], logRaises);
    ReceiveKeepsAnswers(s, logRaises);
    SameCloseOk(s, NextRead(s, Receive(logRaises)).value);
  }

  lemma TakeKeepsAnswers(s: State, ids: set<nat>, w: Who, outcome: Outcome, reader: ReaderPhase)
    requires AnswersOk(s.ledger, s.reader, s.inbox, s.delivered) && !reader.Parsed?
    requires forall i :: i in ids ==> Backed(s.delivered, i, outcome)
    ensures AnswersOk(Take(s.ledger, ids, w, outcome), reader, s.inbox, s.delivered)
  {
    hide Backed;
  }

  /** The reader takes ids out of pending. */
  lemma ReaderTakes(s: State, ids: set<nat>, outcome: Outcome, reader: ReaderPhase)
    requires Inv(s) && !s.reader.Delivering? && !s.reader.Sweeping? && (reader.Delivering? || reader.Sweeping?)
    requires ids <= s.ledger.pending && forall i :: i in ids ==> Backed(s.delivered, i, outcome)
    ensures Inv(s.(ledger := Take(s.ledger, ids, TheReader, outcome), reader := reader))
  {
    hide Ids, LedgerOk, CallsOk, AnswersOk, SentOk, CloseOk, SealedOk, Settles, Backed;
    var s' := s.(ledger := Take(s.ledger, ids, TheReader, outcome), reader := reader);
    TakeSettles(s.ledger, ids, TheReader, outcome);
    SettlingKeepsCalls(s, s'.ledger);
    SmallerKeepsSealed(s.sealed, s.ledger.pending, s'.ledger.pending, s.calls);
    TakeKeepsAnswers(s, ids, TheReader, outcome, reader);
    SameCloseOk(s, s');
  }

  lemma PopKeeps(s: State)
    requires Inv(s) && s.reader.Parsed?
    ensures Inv(Popped(s))
  {
    hide Ids, LedgerOk, CallsOk, SentOk, CloseOk, SealedOk, Backed, Take, Inv;
    ParsedIsBacked(s);
    if s.reader.id.None? || s.reader.id.value !in s.ledger.pending {
      IdleKeeps(s, Listening);
    } else {
      ReaderTakes(s, {s.reader.id.value}, s.reader.outcome, Delivering);
    }
  }

  lemma ParsedIsBacked(s: State)
    requires Inv(s) && s.reader.Parsed?
    ensures s.reader.id.Some? ==> Backed(s.delivered, s.reader.id.value, s.reader.outcome)
  {
    hide Backed;
  }

  /** The reader moves between phases in which it holds nothing. */
  lemma IdleKeeps(s: State, reader: ReaderPhase)
    requires Inv(s) && !s.reader.Delivering? && !s.reader.Sweeping?
    requires !reader.Delivering? && !reader.Sweeping? && !reader.Parsed?
    ensures Inv(s.(reader := reader))
  {
    hide Ids, LedgerOk, CallsOk, SentOk, CloseOk, SealedOk, Backed;
    SameCloseOk(s, s.(reader := reader));
  }

  /** A message enters the inbox. */
  lemma ArriveKeeps(s: State, body: Option<Json>)
    requires Inv(s)
    ensures Inv(Arrive(s, body))
  {
    hide Ids, LedgerOk, CallsOk, RolesOk, SentOk, SealedOk, Backed, CloseOk;
    var s' := Arrive(s, body);
    SameCloseOk(s, s');
    MoreDelivered(s, s'.delivered);
  }

  lemma MoreDelivered(s: State, more: set<Json>)
    requires s.delivered <= more
    ensures forall i, o :: Backed(s.delivered, i, o) ==> Backed(more, i, o)
  {
    hide PhaseFor;
  }

  lemma ReadKeeps(s: State, step: ReadStep)
    requires Inv(s) && NextRead(s, step).Some?
    ensures Inv(NextRead(s, step).value)
  {
    hide Inv, Heard, Rest, Popped, Arrive, Take, Backed;
    match step
    case Receive(logRaises) => ReceiveKeeps(s, logRaises);
    case Pop => PopKeeps(s);
    case Reply(raises, body) =>
      if raises {
        IdleKeeps(s, Leaving);
      } else {
        ArriveKeeps(s, body);
        assert Arrive(s, body).reader == s.reader by { ArriveReader(s, body); }
        IdleKeeps(Arrive(s, body), Listening);
      }
    case SweepPending =>
      assert forall i :: Backed(s.delivered, i, ConnectionLost) by { LostIsBacked(s.delivered); }
      ReaderTakes(s, s.ledger.pending, ConnectionLost, Sweeping);
      HistoryIsFree(s.(ledger := Take(s.ledger, s.ledger.pending, TheReader, ConnectionLost), reader := Sweeping), s.ledger.futures.Keys);
  }

  lemma HistoryIsFree(s: State, reached: set<nat>)
    requires Inv(s)
    ensures Inv(s.(reached := reached))
  {
    SameCloseOk(s, s.(reached := reached));
    hide Ids, LedgerOk, CallsOk, RolesOk, AnswersOk, SentOk, CloseOk, SealedOk;
  }

  lemma ArriveReader(s: State, body: Option<Json>)
    ensures Arrive(s, body).reader == s.reader
  {
  }

  lemma LostIsBacked(delivered: set<Json>)
    ensures forall i :: Backed(delivered, i, ConnectionLost) && Backed(delivered, i, SessionClosed)
  {
  }

  lemma SameCloseOk(s: State, s': State)
    requires CloseOk(s)
    requires s'.kind == s.kind && s'.closers == s.closers && s'.flagged == s.flagged && s'.shut == s.shut && s'.sealed == s.sealed
    ensures CloseOk(s')
  {
  }

  lemma CloseKeepsClose(s: State, k: nat, step: CloseStep)
    requires CloseOk(s) && NextClose(s, k, step).Some?
    ensures CloseOk(NextClose(s, k, step).value)
  {
    hide Take;
    var s' := NextClose(s, k, step).value;
    if s.flagged && !s.sealed {
      var j :| j in s.closers && (s.closers[j].Shutting? || (s.closers[j].Shut? && SendRefused(s)));
      assert j in s'.closers && (s'.sealed || s'.closers[j].Shutting? || (s'.closers[j].Shut? && SendRefused(s')));
    } else if s'.flagged && !s.flagged {
      assert s'.closers[k].Shutting?;
    }
  }

  lemma CloserMoves(busy: set<Who>, reader: ReaderPhase, closers: map<nat, CloserPhase>, k: nat, p: CloserPhase)
    requires RolesOk(busy, reader, closers) && !p.SweepingClosed? && (k in closers ==> !closers[k].SweepingClosed?)
    ensures RolesOk(busy, reader, closers[k := p])
  {
  }

  lemma CloserSweeps(busy: set<Who>, reader: ReaderPhase, closers: map<nat, CloserPhase>, k: nat)
    requires RolesOk(busy, reader, closers)
    ensures RolesOk(busy + {TheCloser(k)}, reader, closers[k := SweepingClosed])
  {
  }

  lemma CloseKeepsRoles(s: State, k: nat, step: CloseStep)
    requires RolesOk(s.ledger.tasks.Keys, s.reader, s.closers) && NextClose(s, k, step).Some?
    ensures var s' := NextClose(s, k, step).value; RolesOk(s'.ledger.tasks.Keys, s'.reader, s'.closers)
  {
    hide Take, RolesOk;
    TaskKeys(s.ledger, TheCloser(k));
    if step.SweepClosed? {
      CloserSweeps(s.ledger.tasks.Keys, s.reader, s.closers, k);
    } else {
      CloserMoves(s.ledger.tasks.Keys, s.reader, s.closers, k, NextClose(s, k, step).value.closers[k]);
    }
  }

  lemma CloseKeepsAnswers(s: State, k: nat, step: CloseStep)
    requires AnswersOk(s.ledger, s.reader, s.inbox, s.delivered) && NextClose(s, k, step).Some?
    ensures var s' := NextClose(s, k, step).value; AnswersOk(s'.ledger, s'.reader, s'.inbox, s'.delivered)
  {
    hide PhaseFor;
  }

  lemma CloseKeeps(s: State, k: nat, step: CloseStep)
    requires Inv(s) && NextClose(s, k, step).Some?
    ensures Inv(NextClose(s, k, step).value)
  {
    hide Ids, LedgerOk, CallsOk, AnswersOk, SentOk, CloseOk, Settles, Take;
    var s' := NextClose(s, k, step).value;
    CloseKeepsRoles(s, k, step);
    CloseKeepsAnswers(s, k, step);
    CloseKeepsClose(s, k, step);
    if step.SweepClosed? {
      TakeSettles(s.ledger, s.ledger.pending, TheCloser(k), SessionClosed);
      SettlingKeepsCalls(s, s'.ledger);
      assert s'.ledger.pending == {};
    }
  }

  lemma NextKeeps(s: State, a: Action)
    requires Inv(s) && Next(s, a).Some?
    ensures Inv(Next(s, a).value)
  {
    hide NextCall, NextTask, NextRead, NextClose, Inv;
    match a
    case ACall(c, step) => CallKeeps(s, c, step);
    case ATask(w, step) => TaskKeeps(s, w, step);
    case ARead(step) => ReadKeeps(s, step);
    case AClose(k, step) => CloseKeeps(s, k, step);
    case AArrives(item) => ItemKeeps(s, item);
  }

  lemma ItemKeeps(s: State, item: Item)
    requires Inv(s) && Next(s, AArrives(item)).Some?
    ensures Inv(Next(s, AArrives(item)).value)
  {
    if item.Incoming? {
      ArriveKeeps(s, Some(item.raw));
    } else {
      hide Ids, LedgerOk, CallsOk, RolesOk, SentOk, SealedOk, Backed, CloseOk;
      SameCloseOk(s, Next(s, AArrives(item)).value);
    }
  }

  lemma {:induction false} RunKeeps(s: State, actions: seq<Action>)
    requires Inv(s) && Run(s, actions).Some?
    ensures Inv(Run(s, actions).value)
    decreases |actions|
  {
    if actions != [] {
      NextKeeps(s, actions[0]);
      RunKeeps(Next(s, actions[0]).value, actions[1..]);
    }
  }

  /** The invariant holds in every state any interleaving can reach. */
  lemma ReachableInv(s: State)
    requires Reachable(s)
    ensures Inv(s)
  {
    var actions :| Run(Init(s.kind), actions) == Some(s);
    InitInv(s.kind);
    RunKeeps(Init(s.kind), actions);
  }
}
