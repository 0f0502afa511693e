/** What the netops engine does over whole message traces. */
module ServerRuns {
  import opened Prelude
  import opened JsonValues
  import opened JsonRpc
  import opened Ndjson
  import opened TicketStore
  import opened StoreFile
  import opened Validation
  import opened NetopsCore
  import opened ToolCalls
  import opened Protocol

  /** One line off the wire, decoded or not, and what the world was when it came. */
  datatype Turn = Turn(decoded: Result<Json, string>, env: Env)

  ghost predicate TurnOk(t: Turn) { t.decoded.Ok? ==> WellFormed(t.decoded.value) && t.decoded.value.Obj? }

  ghost predicate TurnsOk(turns: seq<Turn>) { forall i :: 0 <= i < |turns| ==> TurnOk(turns[i]) }

  function Step(t: Turn, seed: Seed, s: Server): (Option<Json>, Server)
    requires TurnOk(t)
  {
    HandleDecoded(t.decoded, seed, t.env, s)
  }

  function After(turns: seq<Turn>, seed: Seed, s: Server): Server
    requires TurnsOk(turns)
  {
    if turns == [] then s
    else
      var n := |turns| - 1;
      Step(turns[n], seed, After(turns[..n], seed, s)).1
  }

  function ReplyAt(turns: seq<Turn>, seed: Seed, s: Server, k: nat): Option<Json>
    requires TurnsOk(turns) && k < |turns|
  {
    Step(turns[k], seed, After(turns[..k], seed, s)).0
  }

  /** What the server writes, in order. */
  function Outputs(turns: seq<Turn>, seed: Seed, s: Server): seq<Json>
    requires TurnsOk(turns)
  {
    if turns == [] then []
    else
      var n := |turns| - 1;
      var reply := ReplyAt(turns, seed, s, n);
      Outputs(turns[..n], seed, s) + if reply.Some? then [reply.value] else []
  }

  // ----- the handshake ---------------------------------------------------------------

  predicate IsRequest(t: Turn, meth: string) {
    t.decoded.Ok? && var p := ParseMessage(t.decoded.value); p.Ok? && p.value.Request? && p.value.meth == meth
  }

  predicate IsNotification(t: Turn, meth: string) {
    t.decoded.Ok? && var p := ParseMessage(t.decoded.value); p.Ok? && p.value.Notification? && p.value.meth == meth
  }

  lemma DispatchSession(meth: string, params: Json, seed: Seed, env: Env, s: Server)
    requires WellFormed(params)
    ensures var r := Dispatch(meth, params, seed, env, s);
            && r.1.session == (if meth == INITIALIZE then s.session.(initializeReceived := true) else s.session)
            && (r.1.store != s.store ==> meth == TOOLS_CALL && s.session.initialized)
            && ((meth == TOOLS_LIST || meth == TOOLS_CALL) && !s.session.initialized ==> r.0 == Err(NotInitialized()))
  {
    hide ToolsCall, InitializeResult, ListTools, NotInitialized;
  }

  /** One message sets a flag only when it is the message for that flag. */
  lemma StepSession(t: Turn, seed: Seed, s: Server)
    requires TurnOk(t)
    ensures var s' := Step(t, seed, s).1;
            && s'.session == Handshake(s.session.initializeReceived || IsRequest(t, INITIALIZE),
                                       s.session.initialized || (IsNotification(t, INITIALIZED) && s.session.initializeReceived))
            && (s'.store != s.store ==> IsRequest(t, TOOLS_CALL) && s.session.initialized)
  {
    if t.decoded.Ok? {
      var raw := t.decoded.value;
      if ParseMessage(raw).Ok? && ParseMessage(raw).value.Request? {
        ParsedParams(raw);
        DispatchSession(ParseMessage(raw).value.meth, ParseMessage(raw).value.params, seed, t.env, s);
      }
    }
    hide Dispatch, Reply, ParseMessage, WellFormed;
  }

  /** From a fresh session: initialized after a trace iff some valid initialize request
      comes strictly before some notifications/initialized. */
  lemma {:induction false} InitializedIff(turns: seq<Turn>, seed: Seed, store: StoreState)
    requires TurnsOk(turns)
    ensures var s := After(turns, seed, Server(FRESH, store)).session;
            && (s.initializeReceived <==> exists i :: 0 <= i < |turns| && IsRequest(turns[i], INITIALIZE))
            && (s.initialized <==>
                  exists i, j :: 0 <= i < j < |turns| && IsRequest(turns[i], INITIALIZE) && IsNotification(turns[j], INITIALIZED))
  {
    hide IsRequest, IsNotification, Step, TurnOk;
    if turns != [] {
      var n := |turns| - 1;
      var before := turns[..n];
      assert forall i :: 0 <= i < n ==> before[i] == turns[i];
      InitializedIff(before, seed, store);
      StepSession(turns[n], seed, After(before, seed, Server(FRESH, store)));
    }
  }

  lemma {:induction false} SessionOnlyGrows(turns: seq<Turn>, seed: Seed, s: Server, k: nat)
    requires TurnsOk(turns) && k <= |turns|
    ensures After(turns[..k], seed, s).session.initialized ==> After(turns, seed, s).session.initialized
    ensures After(turns[..k], seed, s).session.initializeReceived ==> After(turns, seed, s).session.initializeReceived
    decreases |turns| - k
  {
    hide IsRequest, IsNotification, Step, TurnOk;
    if k < |turns| {
      SessionOnlyGrows(turns, seed, s, k + 1);
      StepSession(turns[k], seed, After(turns[..k], seed, s));
      assert turns[..k + 1][..k] == turns[..k];
    } else {
      assert turns[..k] == turns;
    }
  }

  /** A trace without a completed handshake leaves the store as it was. */
  lemma {:induction false} NoHandshakeNoStore(turns: seq<Turn>, seed: Seed, store: StoreState)
    requires TurnsOk(turns)
    requires forall i, j :: 0 <= i < j < |turns| ==> !(IsRequest(turns[i], INITIALIZE) && IsNotification(turns[j], INITIALIZED))
    ensures After(turns, seed, Server(FRESH, store)).store == store
  {
    hide IsRequest, IsNotification, Step, TurnOk;
    if turns != [] {
      var n := |turns| - 1;
      var before := turns[..n];
      assert forall i :: 0 <= i < n ==> before[i] == turns[i];
      InitializedIff(before, seed, store);
      NoHandshakeNoStore(before, seed, store);
      StepSession(turns[n], seed, After(before, seed, Server(FRESH, store)));
    }
  }

  // ----- the store over a trace ----------------------------------------------------------

  lemma StepKeepsStore(t: Turn, seed: Seed, s: Server)
    requires TurnOk(t) && StoreOk(s.store)
    ensures StoreOk(Step(t, seed, s).1.store) && Extends(s.store, Step(t, seed, s).1.store)
  {
    ExtendsItself(s.store);
    if t.decoded.Ok? {
      var raw := t.decoded.value;
      var p := ParseMessage(raw);
      if p.Ok? && p.value.Request? {
        ParsedParams(raw);
        hide StoreOk, Extends, CallTool, WellFormed, ParseMessage, Outcome, Reply;
        DispatchKeepsStore(p.value.meth, p.value.params, seed, t.env, s);
      }
    }
  }

  lemma ToolsCallKeepsStore(params: Json, seed: Seed, env: Env, st: StoreState)
    requires WellFormed(params) && StoreOk(st)
    ensures StoreOk(ToolsCall(params, seed, env, st).1) && Extends(st, ToolsCall(params, seed, env, st).1)
  {
    ExtendsItself(st);
    var name := GetOrNull(params, "name");
    var arguments := if Has(params, "arguments") then params.vals["arguments"] else EMPTY;
    if name.Str? {
      CallKeepsStore(name.s, arguments, seed, env, st);
    }
    hide StoreOk, Extends, CallTool, WellFormed, Outcome, Has;
  }

  lemma DispatchKeepsStore(meth: string, params: Json, seed: Seed, env: Env, s: Server)
    requires WellFormed(params) && StoreOk(s.store)
    ensures StoreOk(Dispatch(meth, params, seed, env, s).1.store) && Extends(s.store, Dispatch(meth, params, seed, env, s).1.store)
  {
    ExtendsItself(s.store);
    hide StoreOk, Extends, ToolsCall, InitializeResult, ListTools, NotInitialized;
    ToolsCallKeepsStore(if params.Obj? then params else EMPTY, seed, env, s.store);
  }

  /** Any trace keeps the store invariant and loses nothing. */
  lemma {:induction false} TraceKeepsStore(turns: seq<Turn>, seed: Seed, s: Server)
    requires TurnsOk(turns) && StoreOk(s.store)
    ensures StoreOk(After(turns, seed, s).store) && Extends(s.store, After(turns, seed, s).store)
  {
    hide StoreOk, Extends, Step, TurnOk;
    if turns == [] {
      ExtendsItself(s.store);
    } else {
      var n := |turns| - 1;
      TraceKeepsStore(turns[..n], seed, s);
      StepKeepsStore(turns[n], seed, After(turns[..n], seed, s));
      ExtendsTrans(s.store, After(turns[..n], seed, s).store, After(turns, seed, s).store);
    }
  }

  // ----- replies ------------------------------------------------------------------------------

  /** The id a message must be answered with, if it must be answered: sections 4, 4.1 and 5
      of JSON-RPC 2.0. A message that does not parse is answered with the id it carries. */
  function Due(decoded: Result<Json, string>): Option<Json> {
    match decoded
    case Err(_) => Some(Null)
    case Ok(raw) =>
      match ParseMessage(raw)
      case Err(_) => Some(GetOrNull(raw, ID))
      case Ok(Request(id, _, _)) => Some(IdJson(id))
      case Ok(_) => None
  }

  predicate IdIsLegal(id: Json) { id.Null? || IdOf(id).Some? }

  /** An envelope that carries this id and exactly one of result and error. */
  predicate Answers(reply: Json, id: Json) {
    && GetOrNull(reply, JSONRPC) == Str("2.0") && Get(reply, ID) == Some(id)
    && Has(reply, RESULT) != Has(reply, ERROR) && !Has(reply, METHOD)
  }

  /** What a peer makes of the reply. */
  function Read(id: Json, r: Result<Json, RpcError>): Message
    requires IdIsLegal(id) && (r.Ok? ==> IdOf(id).Some?)
  {
    match r
    case Ok(result) => Success(IdOf(id).value, result)
    case Err(e) => Failure(IdOf(id), e.code, e.message, e.data)
  }

  lemma ReplyAnswers(id: Json, r: Result<Json, RpcError>)
    ensures Answers(Reply(id, r), id)
  {
    if r.Err? {
      hide ErrorPayload;
    }
  }

  lemma ReplyIsRead(id: Json, r: Result<Json, RpcError>)
    requires r.Ok? ==> IdOf(id).Some?
    ensures ParseMessage(Reply(id, r)).Ok? <==> IdIsLegal(id)
    ensures IdIsLegal(id) ==> ParseMessage(Reply(id, r)) == Ok(Read(id, r))
  {
    if r.Err? {
      ParseOfBuildErrorFrom(id, r.error);
    } else {
      ParseInvertsBuildResponse(IdOf(id).value, r.value);
    }
    hide BuildErrorFrom, ParseMessage, Envelope;
  }

  /** One message: a reply exactly when one is due, carrying the id that is due; a peer
      accepts it iff that id is null, an int or a string. */
  lemma ReplyDiscipline(t: Turn, seed: Seed, s: Server)
    requires TurnOk(t)
    ensures var reply := Step(t, seed, s).0;
            && (reply.Some? <==> Due(t.decoded).Some?)
            && (reply.Some? ==> reply.value.Obj? && Answers(reply.value, Due(t.decoded).value))
            && (reply.Some? ==> (ParseMessage(reply.value).Ok? <==> IdIsLegal(Due(t.decoded).value)))
  {
    if Due(t.decoded).Some? {
      var (id, r) := Answered(t, seed, s);
      ReplyAnswers(id, r);
      ReplyIsRead(id, r);
    }
    hide Dispatch, Reply, Answers, WellFormed;
  }

  /** The id and the outcome that the reply is made of. */
  ghost function Answered(t: Turn, seed: Seed, s: Server): (r: (Json, Result<Json, RpcError>))
    requires TurnOk(t) && Due(t.decoded).Some?
    ensures Step(t, seed, s).0 == Some(Reply(r.0, r.1)) && r.0 == Due(t.decoded).value
    ensures r.1.Ok? ==> IdOf(r.0).Some?
  {
    match t.decoded
    case Err(message) => (Null, Err(RpcError(PARSE_ERROR, message, Null)))
    case Ok(raw) =>
      match ParseMessage(raw)
      case Err(e) => (GetOrNull(raw, ID), Err(e))
      case Ok(Request(id, meth, params)) =>
        ParsedParams(raw);
        (IdJson(id), Dispatch(meth, params, seed, t.env, s).0)
  }

  function Dues(turns: seq<Turn>): seq<Json> {
    if turns == [] then []
    else
      var n := |turns| - 1;
      Dues(turns[..n]) + if Due(turns[n].decoded).Some? then [Due(turns[n].decoded).value] else []
  }

  /** Over any trace: the outputs answer what is due, one each, in order. */
  lemma {:induction false} OutputsAnswerDues(turns: seq<Turn>, seed: Seed, s: Server)
    requires TurnsOk(turns)
    ensures var out := Outputs(turns, seed, s);
            |out| == |Dues(turns)| && forall k :: 0 <= k < |out| ==> Answers(out[k], Dues(turns)[k])
  {
    hide Step, TurnOk, Answers, Due;
    if turns != [] {
      var n := |turns| - 1;
      OutputsAnswerDues(turns[..n], seed, s);
      ReplyDiscipline(turns[n], seed, After(turns[..n], seed, s));
    }
  }
}
