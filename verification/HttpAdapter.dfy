/** The Streamable HTTP adapter: the same engine behind a session table. */
module HttpAdapter {
  import opened Prelude
  import opened JsonValues
  import opened JsonRpc
  import opened JsonText
  import opened Ndjson
  import opened TicketStore
  import opened StoreFile
  import opened NetopsCore
  import opened ToolCalls
  import opened Protocol
  import opened ServerRuns
  import opened SessionTable

  /** A POST body is None when it is not JSON; `minted` is what uuid4 would return. */
  datatype HttpRequest = Post(body: Option<Json>, version: Option<string>, session: Option<string>, minted: string, env: Env)
                       | Delete(session: Option<string>)

  datatype HttpResponse = HttpResponse(status: nat, body: Option<Json>, session: Option<string>)

  datatype HttpServer = HttpServer(table: Table<Handshake>, store: StoreState)

  ghost predicate RequestOk(r: HttpRequest) { r.Post? && r.body.Some? ==> WellFormed(r.body.value) }

  function Refused(status: nat, code: int, message: string, id: Json): HttpResponse {
    HttpResponse(status, Some(BuildErrorFrom(id, RpcError(code, message, Null))), None)
  }

  predicate Speaks(version: Option<string>) { version.None? || version.value == PROTOCOL_VERSION }

  /** 200 with the reply, or 202 when none is owed. */
  function Answer(reply: Option<Json>, session: Option<string>): HttpResponse {
    HttpResponse(if reply.Some? then 200 else 202, reply, session)
  }

  /** The engine on one live session. */
  function Serve(id: string, raw: Json, seed: Seed, env: Env, h: HttpServer): (Option<Json>, HttpServer)
    requires WellFormed(raw) && id in h.table.vals
  {
    var (reply, s) := HandleMessage(raw, seed, env, Server(h.table.vals[id], h.store));
    (reply, HttpServer(h.table.(vals := h.table.vals[id := s.session]), s.store))
  }

  function Handle(r: HttpRequest, max: nat, seed: Seed, h: HttpServer): (HttpResponse, HttpServer)
    requires RequestOk(r) && max >= 1
  {
    match r
    case Delete(session) =>
      (HttpResponse(if Find(h.table, session).Some? then 204 else 404, None, None), h.(table := Drop(h.table, session)))
    case Post(body, version, session, minted, env) =>
      if body.None? then (Refused(400, PARSE_ERROR, "invalid JSON", Null), h)
      else if !body.value.Obj? then (Refused(400, INVALID_REQUEST, "a JSON-RPC message must be a JSON object", Null), h)
      else if !Speaks(version) then (Refused(400, INVALID_REQUEST, "unsupported version", GetOrNull(body.value, ID)), h)
      else if GetOrNull(body.value, METHOD) == Str(INITIALIZE) then
        var h' := h.(table := Create(h.table, max, minted, FRESH));
        var (reply, h'') := Serve(minted, body.value, seed, env, h');
        (Answer(reply, Some(minted)), h'')
      else if Find(h.table, session).None? then
        (Refused(404, INVALID_REQUEST, "unknown or expired session", GetOrNull(body.value, ID)), h)
      else
        var (reply, h') := Serve(session.value, body.value, seed, env, h);
        (Answer(reply, None), h')
  }

  function AfterAll(requests: seq<HttpRequest>, max: nat, seed: Seed, h: HttpServer): HttpServer
    requires (forall i :: 0 <= i < |requests| ==> RequestOk(requests[i])) && max >= 1
  {
    if requests == [] then h
    else
      var n := |requests| - 1;
      Handle(requests[n], max, seed, AfterAll(requests[..n], max, seed, h)).1
  }

  // ----- the same server on both transports ------------------------------------------------

  /** The session under this id is in the state a stdio session is in, over the same store. */
  predicate Mirrors(h: HttpServer, id: string, s: Server) {
    id != "" && id in h.table.vals && h.table.vals[id] == s.session && h.store == s.store
  }

  /** A message over HTTP, on the session it names. */
  ghost predicate Carries(r: HttpRequest, id: string, raw: Json, env: Env) {
    r.Post? && r.body == Some(raw) && Speaks(r.version) && r.session == Some(id) && r.env == env
  }

  predicate Starts(raw: Json) { raw.Obj? && GetOrNull(raw, METHOD) == Str(INITIALIZE) }

  lemma {:induction false} CreateHolds<V>(t: Table<V>, max: nat, id: string, value: V)
    requires max >= 1
    ensures id in Create(t, max, id, value).vals && Create(t, max, id, value).vals[id] == value
  {
  }

  /** One message that is no initialize: the same reply on both, 202 exactly where stdio
      writes nothing, and the two stay in step. */
  lemma StepMirrors(r: HttpRequest, max: nat, seed: Seed, h: HttpServer, id: string, raw: Json, env: Env, s: Server)
    requires RequestOk(r) && max >= 1 && Mirrors(h, id, s) && Carries(r, id, raw, env)
    requires WellFormed(raw) && raw.Obj? && !Starts(raw)
    ensures var (response, h') := Handle(r, max, seed, h);
            var (reply, s') := HandleMessage(raw, seed, env, s);
            && response.body == reply && response.status == (if reply.Some? then 200 else 202)
            && Mirrors(h', id, s')
  {
    hide HandleMessage, WellFormed, Create;
  }

  /** An initialize: the same reply again, on a session that has just been created. */
  lemma StartMirrors(r: HttpRequest, max: nat, seed: Seed, h: HttpServer, raw: Json, env: Env, s: Server)
    requires RequestOk(r) && max >= 1 && r.Post? && r.body == Some(raw) && Speaks(r.version) && r.minted != "" && r.env == env
    requires WellFormed(raw) && Starts(raw) && s == Server(FRESH, h.store)
    ensures var (response, h') := Handle(r, max, seed, h);
            var (reply, s') := HandleMessage(raw, seed, env, s);
            && response.body == reply && response.status == (if reply.Some? then 200 else 202)
            && response.session == Some(r.minted) && Mirrors(h', r.minted, s')
  {
    CreateHolds(h.table, max, r.minted, FRESH);
    hide HandleMessage, WellFormed, Create;
  }

  /** The HTTP requests of a client that initializes and then carries the session id. */
  ghost predicate Conversation(requests: seq<HttpRequest>, turns: seq<Turn>) {
    && |requests| == |turns| && |turns| > 0
    && (forall i :: 0 <= i < |turns| ==> TurnOk(turns[i]) && turns[i].decoded.Ok? && RequestOk(requests[i]))
    && requests[0].Post? && requests[0].body == Some(turns[0].decoded.value) && requests[0].env == turns[0].env
    && Speaks(requests[0].version) && requests[0].minted != "" && Starts(turns[0].decoded.value)
    && forall i :: 0 < i < |turns| ==>
         Carries(requests[i], requests[0].minted, turns[i].decoded.value, turns[i].env) && !Starts(turns[i].decoded.value)
  }

  lemma {:induction false} ConversationMirrors(requests: seq<HttpRequest>, turns: seq<Turn>, max: nat, seed: Seed, h: HttpServer)
    requires max >= 1 && Conversation(requests, turns)
    ensures Mirrors(AfterAll(requests, max, seed, h), requests[0].minted, After(turns, seed, Server(FRESH, h.store)))
  {
    hide Handle, HandleMessage, WellFormed, Mirrors, Carries, Starts, Speaks;
    var n := |turns| - 1;
    assert turns[n].decoded.Ok? && RequestOk(requests[n]) && TurnOk(turns[n]);
    WellFormedTurn(turns[n]);
    if n == 0 {
      StartMirrors(requests[0], max, seed, h, turns[0].decoded.value, turns[0].env, Server(FRESH, h.store));
      assert AfterAll(requests[..0], max, seed, h) == h && After(turns[..0], seed, Server(FRESH, h.store)) == Server(FRESH, h.store);
    } else {
      assert forall i :: 0 <= i < n ==> requests[..n][i] == requests[i] && turns[..n][i] == turns[i];
      ConversationMirrors(requests[..n], turns[..n], max, seed, h);
      StepMirrors(requests[n], max, seed, AfterAll(requests[..n], max, seed, h), requests[0].minted,
                  turns[n].decoded.value, turns[n].env, After(turns[..n], seed, Server(FRESH, h.store)));
    }
  }

  lemma WellFormedTurn(t: Turn)
    requires TurnOk(t) && t.decoded.Ok?
    ensures WellFormed(t.decoded.value) && t.decoded.value.Obj?
  {
  }

  /** Same server on both transports: at every position the HTTP body is the reply stdio
      writes, 200 where there is one and 202 exactly where none is owed. */
  lemma HttpIsStdio(requests: seq<HttpRequest>, turns: seq<Turn>, max: nat, seed: Seed, h: HttpServer, k: nat)
    requires max >= 1 && Conversation(requests, turns) && k < |turns|
    ensures var response := Handle(requests[k], max, seed, AfterAll(requests[..k], max, seed, h)).0;
            var reply := ReplyAt(turns, seed, Server(FRESH, h.store), k);
            response.body == reply && response.status == (if reply.Some? then 200 else 202)
  {
    hide Handle, HandleMessage, WellFormed, Mirrors, Carries, Starts, Speaks;
    assert turns[k].decoded.Ok? && RequestOk(requests[k]) && TurnOk(turns[k]);
    WellFormedTurn(turns[k]);
    if k == 0 {
      StartMirrors(requests[0], max, seed, h, turns[0].decoded.value, turns[0].env, Server(FRESH, h.store));
      assert AfterAll(requests[..0], max, seed, h) == h && After(turns[..0], seed, Server(FRESH, h.store)) == Server(FRESH, h.store);
    } else {
      assert forall i :: 0 <= i < k ==> requests[..k][i] == requests[i] && turns[..k][i] == turns[i];
      assert Conversation(requests[..k], turns[..k]);
      ConversationMirrors(requests[..k], turns[..k], max, seed, h);
      StepMirrors(requests[k], max, seed, AfterAll(requests[..k], max, seed, h), requests[0].minted,
                  turns[k].decoded.value, turns[k].env, After(turns[..k], seed, Server(FRESH, h.store)));
    }
  }

  // ----- other clients ---------------------------------------------------------------------

  /** The request is delivered to the session under this id. */
  predicate Reaches(r: HttpRequest, id: string) {
    match r
    case Delete(session) => session == Some(id)
    case Post(body, _, session, _, _) => session == Some(id) && body.Some? && !Starts(body.value)
  }

  /** The request starts a session on a full table whose oldest session is this one. */
  predicate Evicts(r: HttpRequest, max: nat, h: HttpServer, id: string) {
    && r.Post? && r.body.Some? && Starts(r.body.value) && Speaks(r.version)
    && |h.table.ids| >= max && h.table.ids != [] && h.table.ids[0] == id
  }

  lemma CreateElsewhere<V>(t: Table<V>, max: nat, minted: string, value: V, id: string)
    requires max >= 1 && TableOk(t) && id in t.vals && minted !in t.vals
    ensures var t' := Create(t, max, minted, value);
            if |t.ids| >= max && t.ids != [] && t.ids[0] == id then id !in t'.vals
            else id in t'.vals && t'.vals[id] == t.vals[id]
  {
  }

  /** A request that does not reach a session leaves its handshake as it was; the session
      goes away exactly when it is the oldest of a full table and another one starts. */
  lemma OthersLeaveItAlone(r: HttpRequest, max: nat, seed: Seed, h: HttpServer, id: string)
    requires RequestOk(r) && max >= 1 && TableOk(h.table) && id in h.table.vals && !Reaches(r, id)
    requires r.Post? ==> r.minted !in h.table.vals
    ensures var t := Handle(r, max, seed, h).1.table;
            && (id in t.vals <==> !Evicts(r, max, h, id))
            && (id in t.vals ==> t.vals[id] == h.table.vals[id])
  {
    if r.Post? {
      CreateElsewhere(h.table, max, r.minted, FRESH, id);
      CreateHolds(h.table, max, r.minted, FRESH);
    }
    hide HandleMessage, WellFormed, Create, TableOk, BuildErrorFrom;
  }

  // ----- every run ----------------------------------------------------------------------------

  ghost predicate HttpOk(h: HttpServer, max: nat) {
    && TableOk(h.table) && |h.table.ids| <= max && StoreOk(h.store)
    && forall id :: id in h.table.vals && h.table.vals[id].initialized ==> h.table.vals[id].initializeReceived
  }

  lemma ServeKeepsOk(id: string, raw: Json, seed: Seed, env: Env, h: HttpServer, max: nat)
    requires WellFormed(raw) && raw.Obj? && id in h.table.vals && HttpOk(h, max)
    ensures var h' := Serve(id, raw, seed, env, h).1;
            && HttpOk(h', max) && Extends(h.store, h'.store)
            && (h'.store != h.store ==> h.table.vals[id].initialized)
  {
    var s := Server(h.table.vals[id], h.store);
    MessageKeepsOk(raw, seed, env, s);
    var s' := HandleMessage(raw, seed, env, s).1;
    UpdateKeepsOk(h, max, id, s');
    hide HandleMessage, WellFormed, HttpOk, StoreOk, Extends;
  }

  lemma MessageKeepsOk(raw: Json, seed: Seed, env: Env, s: Server)
    requires WellFormed(raw) && raw.Obj? && StoreOk(s.store) && (s.session.initialized ==> s.session.initializeReceived)
    ensures var s' := HandleMessage(raw, seed, env, s).1;
            && StoreOk(s'.store) && Extends(s.store, s'.store)
            && (s'.session.initialized ==> s'.session.initializeReceived)
            && (s'.store != s.store ==> s.session.initialized)
  {
    var t := Turn(Ok(raw), env);
    StepSession(t, seed, s);
    StepKeepsStore(t, seed, s);
    hide HandleMessage, WellFormed, StoreOk, Extends, IsRequest, IsNotification;
  }

  lemma UpdateKeepsOk(h: HttpServer, max: nat, id: string, s: Server)
    requires HttpOk(h, max) && id in h.table.vals && StoreOk(s.store) && (s.session.initialized ==> s.session.initializeReceived)
    ensures HttpOk(HttpServer(h.table.(vals := h.table.vals[id := s.session]), s.store), max)
  {
    hide StoreOk;
  }

  lemma CreateKeepsOk(h: HttpServer, max: nat, minted: string)
    requires HttpOk(h, max) && max >= 1 && minted !in h.table.vals
    ensures HttpOk(h.(table := Create(h.table, max, minted, FRESH)), max)
  {
    CreateTakesTheOldest(h.table, max, minted, FRESH);
    hide Create, StoreOk;
  }

  lemma DropKeepsOk(h: HttpServer, max: nat, session: Option<string>)
    requires HttpOk(h, max)
    ensures HttpOk(h.(table := Drop(h.table, session)), max)
  {
    if Given(session) {
      RemoveOk(h.table, session.value);
    }
    hide StoreOk;
  }

  lemma PostKeepsOk(r: HttpRequest, max: nat, seed: Seed, h: HttpServer)
    requires RequestOk(r) && max >= 1 && HttpOk(h, max) && r.Post? && r.minted !in h.table.vals
    ensures var h' := Handle(r, max, seed, h).1;
            && HttpOk(h', max) && Extends(h.store, h'.store)
            && (h'.store != h.store ==> Find(h.table, r.session).Some? && Find(h.table, r.session).value.initialized)
  {
    hide HttpOk, Extends, Create, Serve, WellFormed, BuildErrorFrom, Speaks, GetOrNull;
    ExtendsItself(h.store);
    CreateKeepsOk(h, max, r.minted);
    CreateHolds(h.table, max, r.minted, FRESH);
    var body, session, minted, env := r.body, r.session, r.minted, r.env;
    if body.Some? && body.value.Obj? {
      if Starts(body.value) {
        ServeKeepsOk(minted, body.value, seed, env, h.(table := Create(h.table, max, minted, FRESH)), max);
      } else if Find(h.table, session).Some? {
        ServeKeepsOk(session.value, body.value, seed, env, h, max);
      }
    }
  }

  /** One request keeps the table within its cap and the store sound; only a session whose
      handshake is complete reaches the store. */
  lemma HandleKeepsOk(r: HttpRequest, max: nat, seed: Seed, h: HttpServer)
    requires RequestOk(r) && max >= 1 && HttpOk(h, max) && (r.Post? ==> r.minted !in h.table.vals)
    ensures var h' := Handle(r, max, seed, h).1;
            && HttpOk(h', max) && Extends(h.store, h'.store)
            && (h'.store != h.store ==>
                  r.Post? && Find(h.table, r.session).Some? && Find(h.table, r.session).value.initialized)
  {
    if r.Delete? {
      ExtendsItself(h.store);
      DropKeepsOk(h, max, r.session);
      hide HttpOk, Extends, Drop;
    } else {
      PostKeepsOk(r, max, seed, h);
      hide HttpOk, Extends, Handle;
    }
  }

  /** uuid4 mints an id no live session has. */
  ghost predicate Minting(requests: seq<HttpRequest>, max: nat, seed: Seed, h: HttpServer)
    requires (forall i :: 0 <= i < |requests| ==> RequestOk(requests[i])) && max >= 1
  {
    forall k :: 0 <= k < |requests| && requests[k].Post? ==> requests[k].minted !in AfterAll(requests[..k], max, seed, h).table.vals
  }

  lemma {:induction false} HttpRunsKeepOk(requests: seq<HttpRequest>, max: nat, seed: Seed, h: HttpServer)
    requires (forall i :: 0 <= i < |requests| ==> RequestOk(requests[i])) && max >= 1
    requires HttpOk(h, max) && Minting(requests, max, seed, h)
    ensures HttpOk(AfterAll(requests, max, seed, h), max) && Extends(h.store, AfterAll(requests, max, seed, h).store)
  {
    hide HttpOk, Extends, Handle, RequestOk;
    if requests == [] {
      ExtendsItself(h.store);
    } else {
      var n := |requests| - 1;
      forall k | 0 <= k < n && requests[..n][k].Post?
        ensures requests[..n][k].minted !in AfterAll(requests[..n][..k], max, seed, h).table.vals
      {
        assert requests[..n][..k] == requests[..k];
      }
      HttpRunsKeepOk(requests[..n], max, seed, h);
      HandleKeepsOk(requests[n], max, seed, AfterAll(requests[..n], max, seed, h));
      ExtendsTrans(h.store, AfterAll(requests[..n], max, seed, h).store, AfterAll(requests, max, seed, h).store);
    }
  }

  // ----- what a status says -----------------------------------------------------------------

  /** The body is an object in a version this server speaks. */
  predicate Speakable(r: HttpRequest) { r.Post? && r.body.Some? && r.body.value.Obj? && Speaks(r.version) }

  /** Read from the status alone: 400 for a body or version the server cannot take, 404 for
      a session that is not live, 200 where the engine owes an answer and 202 where it owes
      none; a refusal changes nothing. */
  lemma StatusTells(r: HttpRequest, max: nat, seed: Seed, h: HttpServer)
    requires RequestOk(r) && max >= 1 && r.Post?
    ensures var (response, h') := Handle(r, max, seed, h);
            var served := Speakable(r) && (Starts(r.body.value) || Find(h.table, r.session).Some?);
            && (Speakable(r) <==> r.body.Some? && r.body.value.Obj? && (r.version.Some? ==> r.version.value == "2025-11-25"))
            && (response.status == 400 <==> !Speakable(r))
            && (response.status == 404 <==> Speakable(r) && !served)
            && (response.status == 200 <==> served && Due(Ok(r.body.value)).Some?)
            && (response.status == 202 <==> served && Due(Ok(r.body.value)).None?)
            && (!served ==> h' == h)
            && (response.body.Some? <==> response.status != 202)
            && (response.session.Some? <==> Speakable(r) && Starts(r.body.value))
  {
    if Speakable(r) {
      var t := Turn(Ok(r.body.value), r.env);
      if Starts(r.body.value) {
        CreateHolds(h.table, max, r.minted, FRESH);
        ReplyDiscipline(t, seed, Server(FRESH, h.store));
      } else if Find(h.table, r.session).Some? {
        ReplyDiscipline(t, seed, Server(h.table.vals[r.session.value], h.store));
      }
    }
    hide HandleMessage, WellFormed, Create, BuildErrorFrom, ParseMessage, Due;
  }

  /** What a refusal says: -32700 for a body that is no JSON, -32600 for anything else, and
      the id of the message wherever there is one. */
  lemma RefusalsSay(r: HttpRequest, max: nat, seed: Seed, h: HttpServer)
    requires RequestOk(r) && max >= 1 && r.Post? && !(Speakable(r) && (Starts(r.body.value) || Find(h.table, r.session).Some?))
    ensures var response := Handle(r, max, seed, h).0;
            && response.body.Some? && Shows(response.body.value, "id", if r.body.Some? then GetOrNull(r.body.value, "id") else Null)
            && exists error :: Shows(response.body.value, "error", error) && Shows(error, "code", Int(if r.body.None? then -32700 else -32600))
  {
    var id := if r.body.Some? then GetOrNull(r.body.value, "id") else Null;
    ErrorShows(id, RpcError(PARSE_ERROR, "invalid JSON", Null));
    ErrorShows(id, RpcError(INVALID_REQUEST, "a JSON-RPC message must be a JSON object", Null));
    ErrorShows(id, RpcError(INVALID_REQUEST, "unsupported version", Null));
    ErrorShows(id, RpcError(INVALID_REQUEST, "unknown or expired session", Null));
    assert r.body.Some? && !r.body.value.Obj? ==> id == Null;
    hide BuildErrorFrom, Shows, Serve, Create, Find, ErrorPayload;
  }

  lemma ErrorShows(id: Json, e: RpcError)
    ensures Shows(BuildErrorFrom(id, e), "id", id)
    ensures Shows(BuildErrorFrom(id, e), "error", ErrorPayload(e.code, e.message, e.data))
    ensures Shows(ErrorPayload(e.code, e.message, e.data), "code", Int(e.code))
  {
  }

  /** A deleted session is gone: the next message under its id is a 404. */
  lemma DeletedIsUnknown(id: string, r: HttpRequest, max: nat, seed: Seed, h: HttpServer)
    requires RequestOk(r) && max >= 1 && Speakable(r) && !Starts(r.body.value) && r.session == Some(id)
    ensures var (response, h') := Handle(Delete(Some(id)), max, seed, h);
            && (response.status == 204 <==> Find(h.table, Some(id)).Some?)
            && Handle(r, max, seed, h').0.status == 404
  {
    var (response, h') := Handle(Delete(Some(id)), max, seed, h);
    assert Find(h'.table, Some(id)).None?;
    StatusTells(r, max, seed, h');
    hide Handle, Due, Starts;
  }

  // ----- where the transports differ ----------------------------------------------------------

  /** A second initialize: the same reply on both, but stdio keeps its initialized session
      while HTTP hands out a new one that is not, so tools/list is answered on stdio and
      refused under the new id. */
  lemma SecondInitializeDiffers(r: HttpRequest, max: nat, seed: Seed, h: HttpServer, id: string, raw: Json, env: Env, s: Server)
    requires RequestOk(r) && max >= 1 && Mirrors(h, id, s) && s.session == Handshake(true, true)
    requires r.Post? && r.body == Some(raw) && Speaks(r.version) && r.env == env && WellFormed(raw) && raw.Obj?
    requires IsRequest(Turn(Ok(raw), env), INITIALIZE)
    ensures var (response, h') := Handle(r, max, seed, h);
            var (reply, s') := HandleMessage(raw, seed, env, s);
            && response.body == reply && response.session == Some(r.minted)
            && s'.session == Handshake(true, true)
            && r.minted in h'.table.vals && h'.table.vals[r.minted] == Handshake(true, false)
            && Protocol.Dispatch(TOOLS_LIST, EMPTY, seed, env, s').0.Ok?
            && Protocol.Dispatch(TOOLS_LIST, EMPTY, seed, env, Server(h'.table.vals[r.minted], h'.store)).0 == Err(NotInitialized())
  {
    CreateHolds(h.table, max, r.minted, FRESH);
    StepSession(Turn(Ok(raw), env), seed, s);
    StepSession(Turn(Ok(raw), env), seed, Server(FRESH, h.store));
    InitializeAnswer(raw, seed, env, s, Server(FRESH, h.store));
    assert WellFormed(EMPTY);
    DispatchSession(TOOLS_LIST, EMPTY, seed, env, s);
    MethodOfRequest(raw, env);
    hide HandleMessage, WellFormed, Create, ParseMessage, ListTools, BuildErrorFrom;
  }

  lemma MethodOfRequest(raw: Json, env: Env)
    requires raw.Obj? && IsRequest(Turn(Ok(raw), env), INITIALIZE)
    ensures Starts(raw) && !IsNotification(Turn(Ok(raw), env), INITIALIZED) && !IsRequest(Turn(Ok(raw), env), TOOLS_CALL)
  {
  }

  lemma InitializeAnswer(raw: Json, seed: Seed, env: Env, s: Server, u: Server)
    requires WellFormed(raw) && IsRequest(Turn(Ok(raw), env), INITIALIZE)
    ensures HandleMessage(raw, seed, env, s).0 == HandleMessage(raw, seed, env, u).0
  {
    ParsedParams(raw);
    hide ParseMessage, WellFormed, ToolsCall, ListTools, InitializeResult, Reply;
  }

  /** A body that is JSON but no object: -32700 on stdio, -32600 over HTTP, id null on both. */
  lemma NonObjectDiffers(line: string, body: Json, r: HttpRequest, max: nat, seed: Seed, h: HttpServer, env: Env, s: Server)
    requires Loads(Strip(StripBom(Strip(line)))) == Some(body) && !body.Obj?
    requires RequestOk(r) && max >= 1 && r.Post? && r.body == Some(body)
    ensures var reply := HandleLine(line, seed, env, s).0;
            reply.Some? && ParseMessage(reply.value).Ok? && ParseMessage(reply.value).value.Failure?
            && ParseMessage(reply.value).value.maybeId == None && ParseMessage(reply.value).value.code == PARSE_ERROR
    ensures var response := Handle(r, max, seed, h).0;
            response.status == 400 && response.body.Some? && ParseMessage(response.body.value)
              == Ok(Failure(None, INVALID_REQUEST, "a JSON-RPC message must be a JSON object", Null))
  {
    assert Decode(line).Err?;
    var e := RpcError(PARSE_ERROR, Decode(line).error, Null);
    ParseOfBuildErrorFrom(Null, e);
    ParseOfBuildErrorFrom(Null, RpcError(INVALID_REQUEST, "a JSON-RPC message must be a JSON object", Null));
    assert HandleLine(line, seed, env, s).0 == Some(BuildErrorFrom(Null, e)) by { hide BuildErrorFrom, ParseMessage, Decode; }
    hide BuildErrorFrom, ParseMessage, Decode, HandleLine, Loads;
  }
}
