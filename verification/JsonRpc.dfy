/** JSON-RPC 2.0 envelopes: building, classifying, and NDJSON framing. */
module JsonRpc {
  import opened Prelude
  import opened JsonValues
  import JsonText

  const PARSE_ERROR := -32700
  const INVALID_REQUEST := -32600
  const METHOD_NOT_FOUND := -32601
  const INVALID_PARAMS := -32602
  const INTERNAL_ERROR := -32603

  // The field names of an envelope.
  const JSONRPC := "jsonrpc"
  const ID := "id"
  const METHOD := "method"
  const PARAMS := "params"
  const RESULT := "result"
  const ERROR := "error"
  const CODE := "code"
  const MESSAGE := "message"
  const DATA := "data"

  /** A request id: an int or a string, never null and never a bool. */
  datatype MessageId = IntId(n: int) | StrId(s: string)

  datatype Message =
    | Request(id: MessageId, meth: string, params: Json)
    | Notification(meth: string, params: Json)
    | Success(id: MessageId, result: Json)
    | Failure(maybeId: Option<MessageId>, code: int, message: string, data: Json)

  /** JsonRpcError: `data` is Null when there is none. */
  datatype RpcError = RpcError(code: int, message: string, data: Json)

  // ----- building ---------------------------------------------------------

  function IdJson(id: MessageId): Json {
    match id case IntId(n) => Int(n) case StrId(s) => Str(s)
  }

  function MaybeIdJson(id: Option<MessageId>): Json {
    if id.None? then Null else IdJson(id.value)
  }

  /** The id a raw value denotes, if it is one. */
  function IdOf(j: Json): Option<MessageId> {
    match j case Int(n) => Some(IntId(n)) case Str(s) => Some(StrId(s)) case _ => None
  }

  function Envelope(): (j: Json)
    ensures j.Obj?
  {
    Put(EMPTY, JSONRPC, Str("2.0"))
  }

  function WithParams(message: Json, params: Option<Json>): Json
    requires message.Obj?
  {
    if params.None? then message else Put(message, PARAMS, params.value)
  }

  function BuildRequest(id: MessageId, meth: string, params: Option<Json>): Json {
    WithParams(Put(Put(Envelope(), ID, IdJson(id)), METHOD, Str(meth)), params)
  }

  function BuildNotification(meth: string, params: Option<Json>): Json {
    WithParams(Put(Envelope(), METHOD, Str(meth)), params)
  }

  function BuildResponse(id: MessageId, result: Json): Json {
    Put(Put(Envelope(), ID, IdJson(id)), RESULT, result)
  }

  function ErrorPayload(code: int, message: string, data: Json): Json
  {
    var payload := Put(Put(EMPTY, CODE, Int(code)), MESSAGE, Str(message));
    if data == Null then payload else Put(payload, DATA, data)
  }

  /** build_error_from: the id is whatever the sender put there, so any value. */
  function BuildErrorFrom(id: Json, error: RpcError): Json {
    Put(Put(Envelope(), ID, id), ERROR, ErrorPayload(error.code, error.message, error.data))
  }

  function DefaultMessage(code: int): string {
    if code == PARSE_ERROR then "Parse error"
    else if code == INVALID_REQUEST then "Invalid Request"
    else if code == METHOD_NOT_FOUND then "Method not found"
    else if code == INVALID_PARAMS then "Invalid params"
    else if code == INTERNAL_ERROR then "Internal error"
    else "Error"
  }

  lemma DefaultMessages()
    ensures DefaultMessage(-32700) == "Parse error" && DefaultMessage(-32600) == "Invalid Request"
    ensures DefaultMessage(-32601) == "Method not found" && DefaultMessage(-32602) == "Invalid params"
    ensures DefaultMessage(-32603) == "Internal error" && forall code :: code < -32700 || -32600 < code ==> DefaultMessage(code) == "Error"
  {
  }

  /** build_error: an empty message is replaced by the code's own. */
  function BuildError(id: Option<MessageId>, code: int, message: string, data: Json): Json {
    BuildErrorFrom(MaybeIdJson(id), RpcError(code, if message == "" then DefaultMessage(code) else message, data))
  }

  // ----- classification ---------------------------------------------------

  function InvalidRequest(message: string): RpcError { RpcError(INVALID_REQUEST, message, Null) }

  function RequireId(raw: Json): Result<MessageId, RpcError> {
    match IdOf(GetOrNull(raw, ID))
    case Some(id) => Ok(id)
    case None => Err(InvalidRequest("id must be an int or a string, never null"))
  }

  function ParseCall(raw: Json): Result<Message, RpcError>
    requires Has(raw, METHOD)
  {
    var meth := raw.vals[METHOD];
    var params := if Has(raw, PARAMS) then raw.vals[PARAMS] else EMPTY;
    if !meth.Str? || meth.s == "" then Err(InvalidRequest("method must be a non-empty string"))
    else if !params.Obj? && !params.Arr? then Err(InvalidRequest("params must be an object or an array"))
    else if !Has(raw, ID) then Ok(Notification(meth.s, params))
    else
      match RequireId(raw)
      case Err(e) => Err(e)
      case Ok(id) => Ok(Request(id, meth.s, params))
  }

  function ParseError(raw: Json): Result<Message, RpcError>
    requires Has(raw, ERROR)
  {
    var error := raw.vals[ERROR];
    var id := GetOrNull(raw, ID);
    if !error.Obj? then Err(InvalidRequest("error must be an object"))
    else if !GetOrNull(error, CODE).Int? then Err(InvalidRequest("error.code must be an integer"))
    else if !GetOrNull(error, MESSAGE).Str? then Err(InvalidRequest("error.message must be a string"))
    else if id != Null && IdOf(id).None? then
      Err(InvalidRequest("id must be an int, a string, or null on an error response"))
    else
      Ok(Failure(IdOf(id), GetOrNull(error, CODE).n, GetOrNull(error, MESSAGE).s, GetOrNull(error, DATA)))
  }

  function ParseMessage(raw: Json): Result<Message, RpcError> {
    if !raw.Obj? then Err(InvalidRequest("a JSON-RPC message must be a JSON object"))
    else if GetOrNull(raw, JSONRPC) != Str("2.0") then Err(InvalidRequest("jsonrpc must be exactly '2.0'"))
    else if Has(raw, METHOD) then ParseCall(raw)
    else if Has(raw, RESULT) == Has(raw, ERROR) then
      Err(InvalidRequest("a response must carry exactly one of result or error"))
    else if Has(raw, ERROR) then ParseError(raw)
    else
      match RequireId(raw)
      case Err(e) => Err(e)
      case Ok(id) => Ok(Success(id, raw.vals[RESULT]))
  }

  // The four shapes of sections 4, 4.1, 5 and 5.1 of JSON-RPC 2.0, as this protocol narrows
  // them: an id is an int or a string, params are structured.

  predicate Envelops(raw: Json) { raw.Obj? && JSONRPC in raw.vals && raw.vals[JSONRPC] == Str("2.0") }

  predicate Named(raw: Json) {
    && Envelops(raw) && METHOD in raw.vals && raw.vals[METHOD].Str? && |raw.vals[METHOD].s| > 0
    && (PARAMS in raw.vals ==> raw.vals[PARAMS].Obj? || raw.vals[PARAMS].Arr?)
  }

  predicate Identified(raw: Json) { raw.Obj? && ID in raw.vals && (raw.vals[ID].Int? || raw.vals[ID].Str?) }

  predicate RequestShape(raw: Json) { Named(raw) && Identified(raw) }

  predicate NotificationShape(raw: Json) { Named(raw) && ID !in raw.vals }

  predicate SuccessShape(raw: Json) {
    Envelops(raw) && METHOD !in raw.vals && RESULT in raw.vals && ERROR !in raw.vals && Identified(raw)
  }

  predicate FailureShape(raw: Json) {
    && Envelops(raw) && METHOD !in raw.vals && RESULT !in raw.vals && ERROR in raw.vals
    && (ID in raw.vals ==> raw.vals[ID].Null? || Identified(raw))
    && raw.vals[ERROR].Obj?
    && CODE in raw.vals[ERROR].vals && raw.vals[ERROR].vals[CODE].Int?
    && MESSAGE in raw.vals[ERROR].vals && raw.vals[ERROR].vals[MESSAGE].Str?
  }

  lemma CallAcceptsExactly(raw: Json)
    requires Envelops(raw) && METHOD in raw.vals
    ensures var p := ParseCall(raw);
            && (p.Ok? && p.value.Request? <==> RequestShape(raw))
            && (p.Ok? && p.value.Notification? <==> NotificationShape(raw))
            && (p.Ok? ==> p.value.Request? || p.value.Notification?)
            && (p.Err? ==> p.error.code == INVALID_REQUEST)
  {
    assert IdOf(GetOrNull(raw, ID)).Some? <==> Identified(raw);
    hide IdOf, Identified;
  }

  lemma FailureAcceptsExactly(raw: Json)
    requires Envelops(raw) && METHOD !in raw.vals && ERROR in raw.vals && RESULT !in raw.vals
    ensures var p := ParseError(raw);
            && (p.Ok? <==> FailureShape(raw)) && (p.Ok? ==> p.value.Failure?) && (p.Err? ==> p.error.code == INVALID_REQUEST)
  {
  }

  /** parse_message accepts exactly the four shapes, each as what it is, and answers
      everything else with -32600. */
  lemma ParseAcceptsExactly(raw: Json)
    ensures var p := ParseMessage(raw);
            && (p.Ok? && p.value.Request? <==> RequestShape(raw))
            && (p.Ok? && p.value.Notification? <==> NotificationShape(raw))
            && (p.Ok? && p.value.Success? <==> SuccessShape(raw))
            && (p.Ok? && p.value.Failure? <==> FailureShape(raw))
            && (p.Err? ==> p.error.code == INVALID_REQUEST)
  {
    if Envelops(raw) {
      if METHOD in raw.vals {
        CallAcceptsExactly(raw);
      } else if ERROR in raw.vals && RESULT !in raw.vals {
        FailureAcceptsExactly(raw);
      }
    }
    hide ParseCall, ParseError, Named;
  }

  /** parse_message undoes each builder. */
  lemma ParseInvertsBuildRequest(id: MessageId, meth: string, params: Option<Json>)
    ensures ParseMessage(BuildRequest(id, meth, params)).Ok?
        <==> meth != "" && (params.None? || params.value.Obj? || params.value.Arr?)
    ensures ParseMessage(BuildRequest(id, meth, params)).Ok? ==>
              ParseMessage(BuildRequest(id, meth, params))
              == Ok(Request(id, meth, if params.None? then EMPTY else params.value))
  {
  }

  lemma ParseInvertsBuildNotification(meth: string, params: Option<Json>)
    requires meth != "" && (params.None? || params.value.Obj? || params.value.Arr?)
    ensures ParseMessage(BuildNotification(meth, params))
         == Ok(Notification(meth, if params.None? then EMPTY else params.value))
  {
  }

  lemma ParseInvertsBuildResponse(id: MessageId, result: Json)
    ensures ParseMessage(BuildResponse(id, result)) == Ok(Success(id, result))
  {
  }

  /** An error reply is accepted exactly when the id it echoes is null, an int or a string. */
  lemma ParseOfBuildErrorFrom(id: Json, e: RpcError)
    ensures ParseMessage(BuildErrorFrom(id, e)).Ok? <==> id == Null || IdOf(id).Some?
    ensures id == Null || IdOf(id).Some? ==>
              ParseMessage(BuildErrorFrom(id, e)) == Ok(Failure(IdOf(id), e.code, e.message, e.data))
  {
    var payload := ErrorPayload(e.code, e.message, e.data);
    assert GetOrNull(payload, CODE) == Int(e.code) && GetOrNull(payload, MESSAGE) == Str(e.message);
    assert GetOrNull(payload, DATA) == e.data;
    var raw := BuildErrorFrom(id, e);
    assert GetOrNull(raw, JSONRPC) == Str("2.0") && GetOrNull(raw, ID) == id && Get(raw, ERROR) == Some(payload);
    assert !Has(raw, METHOD) && !Has(raw, RESULT);
    hide BuildErrorFrom, ErrorPayload;
  }

  lemma ParseInvertsBuildError(id: Option<MessageId>, code: int, message: string, data: Json)
    ensures ParseMessage(BuildError(id, code, message, data))
         == Ok(Failure(id, code, if message == "" then DefaultMessage(code) else message, data))
  {
    ParseOfBuildErrorFrom(MaybeIdJson(id), RpcError(code, if message == "" then DefaultMessage(code) else message, data));
  }
}
