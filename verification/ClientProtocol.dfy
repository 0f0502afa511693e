/** MCPClient over a Transport, as a step system.

    Every step is one thing a thread does between two points where another
    thread may run: reading an Event, a critical section, one queue operation,
    one Future completed. Calls to `request` and to `close`, the reader thread,
    timeouts, the transport and the peer interleave freely. */
module ClientProtocol {
  import opened Prelude
  import opened JsonValues
  import opened JsonRpc
  import opened FutureLedger

  datatype Kind = Stdio | Http

  /** Where one call of request() stands. */
  datatype Phase =
    | Refused                          // found the session closed
    | Checked                          // found it open
    | Numbered(id: nat)                // has its id
    | Registered(id: nat)              // its Future is in _pending
    | Posting(id: nat)                 // inside an HTTP POST
    | Waiting(id: nat)                 // in future.result
    | SendRaised(id: nat)              // send failed, id not yet removed
    | Expired(id: nat)                 // timed out, id not yet removed
    | Returned(id: nat, outcome: Outcome)
    | Raised(id: nat)                  // raised the send error or the timeout

  datatype Call = Call(meth: string, params: Json, at: Phase)

  datatype ReaderPhase =
    | Listening
    | Parsed(id: Option<nat>, outcome: Outcome)   // a response, not yet popped
    | Replying                                    // owes -32601 to a server request
    | Leaving                                     // in the finally, not yet swept
    | Delivering
    | Sweeping
    | Ended

  datatype CloserPhase =
    | Skipped           // found the session closed already
    | Passed            // found it open
    | Marked            // set _closed
    | ShutChecked       // inside transport.close, found its flag clear
    | Shutting          // set the transport's flag
    | Shut              // transport.close returned
    | SweepingClosed
    | Joining           // waiting for the reader thread
    | Finished

  datatype Item = Incoming(raw: Json) | Eof

  datatype State = State(
    kind: Kind,
    // the ids and the calls using them
    nextId: nat,
    owner: map<nat, nat>,       // history: which call took an id
    calls: map<nat, Call>,
    ledger: Ledger,
    // the other threads
    reader: ReaderPhase,
    closers: map<nat, CloserPhase>,
    clientClosed: bool,
    // the transport
    flagged: bool,              // its _closed event
    shut: bool,                 // stdio: the process is gone
    inbox: seq<Item>,
    // history
    sent: map<nat, Json>,       // the request handed to the wire under an id
    delivered: set<Json>,       // every message ever put in the inbox
    sealed: bool,               // a close() swept after sends were refused
    reached: set<nat>           // the ids registered before the last sweep, by the reader or a close()
  )

  function Init(kind: Kind): State {
    State(kind, 1, map[], map[], NEW_LEDGER, Listening, map[], false, false, false, [], map[], {}, false, {})
  }

  /** Whether send() is certain to raise: HTTP tests the flag, stdio the process. */
  predicate SendRefused(s: State) {
    if s.kind == Http then s.flagged else s.shut
  }

  predicate HasId(p: Phase) { !p.Refused? && !p.Checked? }

  function At(s: State, c: nat): Phase
    requires c in s.calls
  {
    s.calls[c].at
  }

  function Move(s: State, c: nat, p: Phase): State
    requires c in s.calls
  {
    s.(calls := s.calls[c := s.calls[c].(at := p)])
  }

  function FutureOf(s: State, id: nat): Future {
    if id in s.ledger.futures then s.ledger.futures[id] else Unset
  }

  function RequestOf(call: Call, id: nat): Json {
    BuildRequest(IntId(id), call.meth, Some(call.params))
  }

  function Arrive(s: State, body: Option<Json>): State {
    if body.None? then s
    else s.(inbox := s.inbox + [Incoming(body.value)], delivered := s.delivered + {body.value})
  }

  // ----- request() ----------------------------------------------------------

  datatype CallStep =
    | Begin(meth: string, params: Json)
    | TakeId
    | Register
    | SendRaises
    | WriteLine                      // stdio: the line is in the pipe
    | PostStarts                     // HTTP: past the closed test
    | PostEnds(body: Option<Json>)   // HTTP: its body, if any, is in the inbox
    | TimesOut
    | Unregister
    | Collects

  function NextCall(s: State, c: nat, step: CallStep): Option<State> {
    if step.Begin? then
      if c in s.calls then None
      else
        var at := if s.clientClosed then Refused else Checked;
        Some(s.(calls := s.calls[c := Call(step.meth, step.params, at)]))
    else if c !in s.calls then None
    else
      var p := At(s, c);
      match step
      case TakeId =>
        if !p.Checked? then None
        else Some(Move(s, c, Numbered(s.nextId)).(nextId := s.nextId + 1, owner := s.owner[s.nextId := c]))
      case Register =>
        if !p.Numbered? then None else Some(Move(s, c, Registered(p.id)).(ledger := Open(s.ledger, p.id)))
      case SendRaises =>
        if !p.Registered? && !p.Posting? then None else Some(Move(s, c, SendRaised(p.id)))
      case WriteLine =>
        if !p.Registered? || s.kind != Stdio || SendRefused(s) then None
        else Some(Move(s, c, Waiting(p.id)).(sent := s.sent[p.id := RequestOf(s.calls[c], p.id)]))
      case PostStarts =>
        if !p.Registered? || s.kind != Http || SendRefused(s) then None
        else Some(Move(s, c, Posting(p.id)).(sent := s.sent[p.id := RequestOf(s.calls[c], p.id)]))
      case PostEnds(body) =>
        if !p.Posting? then None else Some(Arrive(Move(s, c, Waiting(p.id)), body))
      case TimesOut =>
        if !p.Waiting? || FutureOf(s, p.id) != Unset then None else Some(Move(s, c, Expired(p.id)))
      case Unregister =>
        if !p.SendRaised? && !p.Expired? then None
        else Some(Move(s, c, Raised(p.id)).(ledger := Drop(s.ledger, p.id, c)))
      case Collects =>
        if !p.Waiting? || FutureOf(s, p.id) == Unset then None
        else Some(Move(s, c, Returned(p.id, FutureOf(s, p.id).outcome)))
  }

  // ----- completing Futures, by the reader or by close() --------------------

  datatype TaskStep = Checks(id: nat) | Completes | Finishes

  function NextTask(s: State, w: Who, step: TaskStep): Option<State> {
    if w !in s.ledger.tasks then None
    else
      var t := s.ledger.tasks[w];
      match step
      case Checks(id) =>
        if t.checked.Some? || id !in t.ids || id !in s.ledger.futures then None
        else Some(s.(ledger := Check(s.ledger, w, id)))
      case Completes =>
        if t.checked.None? || t.checked.value !in s.ledger.futures then None
        else Some(s.(ledger := Complete(s.ledger, w)))
      case Finishes =>
        if t.ids != {} then None
        else
          match w
          case TheReader =>
            if !s.reader.Delivering? && !s.reader.Sweeping? then None
            else
              Some(s.(ledger := Release(s.ledger, w), reader := if s.reader.Delivering? then Listening else Ended))
          case TheCloser(k) =>
            if k !in s.closers || !s.closers[k].SweepingClosed? then None
            else Some(s.(ledger := Release(s.ledger, w), closers := s.closers[k := Joining]))
          case TheCaller(_) => None
  }

  // ----- _read_loop ---------------------------------------------------------

  datatype ReadStep =
    | Receive(logRaises: bool)
    | Pop
    | Reply(raises: bool, body: Option<Json>)
    | SweepPending

  /** The key a response id names in _pending: only ints are ever keys. */
  function KeyOf(id: Option<MessageId>): Option<nat> {
    if id.Some? && id.value.IntId? && id.value.n >= 0 then Some(id.value.n) else None
  }

  function PhaseFor(raw: Json): ReaderPhase {
    match ParseMessage(raw)
    case Err(_) => Listening
    case Ok(Request(_, _, _)) => Replying
    case Ok(Notification(_, _)) => Listening
    case Ok(Success(id, result)) => Parsed(KeyOf(Some(id)), Answer(result))
    case Ok(Failure(id, code, message, data)) => Parsed(KeyOf(id), Rejected(code, message, data))
  }

  /** What the head of the inbox makes the reader do next. */
  function Heard(head: Item, logRaises: bool): ReaderPhase {
    if head.Eof? || logRaises then Leaving else PhaseFor(head.raw)
  }

  /** receive(): an EOF goes back into the queue for every other waiter. */
  function Rest(inbox: seq<Item>): seq<Item>
    requires inbox != []
  {
    if inbox[0].Eof? then inbox[1..] + [Eof] else inbox[1..]
  }

  /** `self._pending.pop(message.id, None)` */
  function Popped(s: State): State
    requires s.reader.Parsed?
  {
    if s.reader.id.None? || s.reader.id.value !in s.ledger.pending then s.(reader := Listening)
    else s.(ledger := Take(s.ledger, {s.reader.id.value}, TheReader, s.reader.outcome), reader := Delivering)
  }

  function NextRead(s: State, step: ReadStep): Option<State> {
    match step
    case Receive(logRaises) =>
      if !s.reader.Listening? || s.inbox == [] then None
      else Some(s.(reader := Heard(s.inbox[0], logRaises), inbox := Rest(s.inbox)))
    case Pop =>
      if !s.reader.Parsed? then None else Some(Popped(s))
    case Reply(raises, body) =>
      if !s.reader.Replying? then None
      else if raises then Some(s.(reader := Leaving))
      else Some(Arrive(s, body).(reader := Listening))
    case SweepPending =>
      if !s.reader.Leaving? then None
      else
        Some(s.(
               ledger := Take(s.ledger, s.ledger.pending, TheReader, ConnectionLost), reader := Sweeping,
               reached := s.ledger.futures.Keys))
  }

  // ----- close() ------------------------------------------------------------

  datatype CloseStep = Enter | Mark | TestFlag | SetFlag | ShutDown | SweepClosed | Join(timesOut: bool)

  function NextClose(s: State, k: nat, step: CloseStep): Option<State> {
    if step.Enter? then
      if k in s.closers then None
      else Some(s.(closers := s.closers[k := if s.clientClosed then Skipped else Passed]))
    else if k !in s.closers then None
    else
      var p := s.closers[k];
      match step
      case Mark =>
        if !p.Passed? then None else Some(s.(closers := s.closers[k := Marked], clientClosed := true))
      case TestFlag =>
        if !p.Marked? then None else Some(s.(closers := s.closers[k := if s.flagged then Shut else ShutChecked]))
      case SetFlag =>
        if !p.ShutChecked? then None else Some(s.(closers := s.closers[k := Shutting], flagged := true))
      case ShutDown =>
        if !p.Shutting? then None
        else Some(s.(closers := s.closers[k := Shut], shut := true, inbox := s.inbox + [Eof]))
      case SweepClosed =>
        if !p.Shut? then None
        else
          Some(s.(
                 ledger := Take(s.ledger, s.ledger.pending, TheCloser(k), SessionClosed),
                 closers := s.closers[k := SweepingClosed], sealed := s.sealed || SendRefused(s),
                 reached := s.ledger.futures.Keys))
      case Join(timesOut) =>
        if !p.Joining? || (!s.reader.Ended? && !timesOut) then None
        else Some(s.(closers := s.closers[k := Finished]))
  }

  // ----- runs ---------------------------------------------------------------

  datatype Action =
    | ACall(c: nat, call: CallStep)
    | ATask(w: Who, task: TaskStep)
    | ARead(read: ReadStep)
    | AClose(k: nat, close: CloseStep)
    | AArrives(item: Item)          // stdio: a line from the server, or the end of its stdout

  function Next(s: State, a: Action): Option<State> {
    match a
    case ACall(c, step) => NextCall(s, c, step)
    case ATask(w, step) => NextTask(s, w, step)
    case ARead(step) => NextRead(s, step)
    case AClose(k, step) => NextClose(s, k, step)
    case AArrives(item) =>
      if s.kind != Stdio then None
      else if item.Eof? then Some(s.(inbox := s.inbox + [Eof]))
      else Some(Arrive(s, Some(item.raw)))
  }

  function Run(s: State, actions: seq<Action>): Option<State>
    decreases |actions|
  {
    if actions == [] then Some(s)
    else
      match Next(s, actions[0])
      case None => None
      case Some(s') => Run(s', actions[1..])
  }

  lemma RunCons(s: State, a: Action, rest: seq<Action>)
    ensures Run(s, [a] + rest) == if Next(s, a).None? then None else Run(Next(s, a).value, rest)
  {
    assert ([a] + rest)[1..] == rest;
    hide Next;
  }

  /** Some interleaving from a fresh client leads to s. */
  ghost predicate Reachable(s: State) {
    exists actions :: Run(Init(s.kind), actions) == Some(s)
  }
}
