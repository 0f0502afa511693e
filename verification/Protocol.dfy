/** The netops protocol engine: handshake, method table, error mapping. */
module Protocol {
  import opened Prelude
  import opened JsonValues
  import opened JsonRpc
  import opened Ndjson
  import opened TicketStore
  import opened StoreFile
  import opened Validation
  import opened NetopsCore
  import opened ToolCalls

  const PROTOCOL_VERSION := "2025-11-25"
  const SERVER_NAME := "netops"
  const SERVER_VERSION := "1.0.0"
  const INSTRUCTIONS := "Technical support back office for a Guatemalan ISP."

  const INITIALIZE := "initialize"
  const INITIALIZED := "notifications/initialized"
  const TOOLS_LIST := "tools/list"
  const TOOLS_CALL := "tools/call"
  const PING := "ping"

  /** One session beside the store it shares. */
  datatype Handshake = Handshake(initializeReceived: bool, initialized: bool)

  const FRESH := Handshake(false, false)

  datatype Server = Server(session: Handshake, store: StoreState)

  // ----- results -----------------------------------------------------------------

  function InitializeResult(): Json {
    Record(["protocolVersion", "capabilities", "serverInfo", "instructions"],
           [Str(PROTOCOL_VERSION),
            Record(["tools"], [Record(["listChanged"], [Bool(false)])]),
            Record(["name", "version"], [Str(SERVER_NAME), Str(SERVER_VERSION)]),
            Str(INSTRUCTIONS)])
  }

  function Descriptor(t: Tool): Json
    requires |t.args| == |t.props|
  {
    Record(["name", "inputSchema"], [Str(t.name), InputSchema(t)])
  }

  function Descriptors(tools: seq<Tool>): (r: seq<Json>)
    requires forall t :: t in tools ==> |t.args| == |t.props|
    ensures |r| == |tools| && forall i :: 0 <= i < |tools| ==> r[i] == Descriptor(tools[i])
  {
    seq(|tools|, i requires 0 <= i < |tools| => Descriptor(tools[i]))
  }

  function ListTools(): Json { Record(["tools"], [Arr(Descriptors(TOOLS))]) }

  // ----- dispatch ------------------------------------------------------------------

  function NotInitialized(): RpcError { InvalidRequest("called before the initialize handshake completed") }

  /** What the exception mapping of handle_message and core.dispatch make of a run. */
  function Outcome(r: Ran): Result<Json, RpcError> {
    match r
    case Payload(p) => Ok(TextResult(p, false))
    case Domain(p) => Ok(TextResult(p, true))
    case Bad(e) => Err(e)
    case Unhandled => Err(RpcError(INTERNAL_ERROR, "unhandled error", Null))
  }

  /** params.get("arguments", {}) */
  function ArgumentsOf(params: Json): Json { if Has(params, "arguments") then params.vals["arguments"] else EMPTY }

  function ToolsCall(params: Json, seed: Seed, env: Env, st: StoreState): (Result<Json, RpcError>, StoreState)
    requires WellFormed(params)
  {
    var name := GetOrNull(params, "name");
    if !name.Str? || name.s == "" then (Err(InvalidParams("params.name must be a non-empty string", Null)), st)
    else
      var (ran, st') := CallTool(name.s, ArgumentsOf(params), seed, env, st);
      (Outcome(ran), st')
  }

  /** Positional params are replaced by {}. */
  function Dispatch(meth: string, params: Json, seed: Seed, env: Env, s: Server): (Result<Json, RpcError>, Server)
    requires WellFormed(params)
  {
    if meth == INITIALIZE then (Ok(InitializeResult()), s.(session := s.session.(initializeReceived := true)))
    else if meth == PING then (Ok(EMPTY), s)
    else if meth == TOOLS_LIST then (if s.session.initialized then Ok(ListTools()) else Err(NotInitialized()), s)
    else if meth == TOOLS_CALL then
      if !s.session.initialized then (Err(NotInitialized()), s)
      else
        var (r, st') := ToolsCall(if params.Obj? then params else EMPTY, seed, env, s.store);
        (r, s.(store := st'))
    else (Err(RpcError(METHOD_NOT_FOUND, "Method not found", Null)), s)
  }

  /** The notification confirms a handshake; it cannot start one. */
  function Notified(meth: string, s: Handshake): Handshake {
    if meth == INITIALIZED && s.initializeReceived then s.(initialized := true) else s
  }

  function Reply(id: Json, r: Result<Json, RpcError>): (reply: Json)
    ensures reply.Obj?
  {
    match r
    case Ok(result) => Put(Put(Envelope(), ID, id), RESULT, result)
    case Err(e) => BuildErrorFrom(id, e)
  }

  lemma ParsedParams(raw: Json)
    requires WellFormed(raw) && ParseMessage(raw).Ok? && ParseMessage(raw).value.Request?
    ensures WellFormed(ParseMessage(raw).value.params)
  {
  }

  function HandleMessage(raw: Json, seed: Seed, env: Env, s: Server): (Option<Json>, Server)
    requires WellFormed(raw)
  {
    match ParseMessage(raw)
    case Err(e) => (Some(Reply(GetOrNull(raw, ID), Err(e))), s)
    case Ok(Notification(meth, _)) => (None, s.(session := Notified(meth, s.session)))
    case Ok(Request(id, meth, params)) =>
      ParsedParams(raw);
      var (r, s') := Dispatch(meth, params, seed, env, s);
      (Some(Reply(IdJson(id), r)), s')
    case Ok(_) => (None, s)
  }

  /** handle_line; the id of a line that does not decode is null. */
  function HandleDecoded(decoded: Result<Json, string>, seed: Seed, env: Env, s: Server): (Option<Json>, Server)
    requires decoded.Ok? ==> WellFormed(decoded.value)
  {
    match decoded
    case Err(message) => (Some(Reply(Null, Err(RpcError(PARSE_ERROR, message, Null)))), s)
    case Ok(raw) => HandleMessage(raw, seed, env, s)
  }

  lemma DecodedIsWellFormed(line: string)
    ensures Decode(line).Ok? ==> WellFormed(Decode(line).value) && Decode(line).value.Obj?
  {
  }

  function HandleLine(line: string, seed: Seed, env: Env, s: Server): (Option<Json>, Server) {
    DecodedIsWellFormed(line);
    HandleDecoded(Decode(line), seed, env, s)
  }
}
