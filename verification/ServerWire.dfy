/** The netops engine behind its stdio stream: what a client reads back. */
module ServerWire {
  import opened Prelude
  import opened JsonValues
  import opened JsonRpc
  import opened Ndjson
  import opened TicketStore
  import opened StoreFile
  import opened Validation
  import opened NetopsCore
  import opened ToolCalls
  import opened Protocol
  import opened ServerRuns

  // ----- no reply is an internal error ------------------------------------------------

  /** The code in a reply's error member, as it stands on the wire. */
  function CodeOf(reply: Json): Json { GetOrNull(GetOrNull(reply, ERROR), CODE) }

  predicate Handled(code: Json) {
    code == Int(PARSE_ERROR) || code == Int(INVALID_REQUEST) || code == Int(METHOD_NOT_FOUND) || code == Int(INVALID_PARAMS)
  }

  lemma CallsAreHandled(params: Json, seed: Seed, env: Env, st: StoreState)
    requires WellFormed(params) && EnvOk(env) && SeedOk(seed)
    ensures var r := ToolsCall(params, seed, env, st).0; r.Err? ==> r.error.code == INVALID_PARAMS
  {
    hide EnvOk, SeedOk, CallTool, WellFormed, TextResult, Has;
    ArgumentsWellFormed(params);
    var name := GetOrNull(params, "name");
    if name.Str? {
      ToolsNeverFailInternally(name.s, ArgumentsOf(params), seed, env, st);
    }
  }

  lemma DispatchIsHandled(meth: string, params: Json, seed: Seed, env: Env, s: Server)
    requires WellFormed(params) && EnvOk(env) && SeedOk(seed)
    ensures var r := Dispatch(meth, params, seed, env, s).0; r.Err? ==> Handled(Int(r.error.code))
  {
    hide EnvOk, SeedOk, ToolsCall, InitializeResult, ListTools;
    CallsAreHandled(if params.Obj? then params else EMPTY, seed, env, s.store);
  }

  /** With a sound seed, a readable clock and saves that do not fail, no message whatever
      is answered with -32603: an error on the wire carries one of the four other codes,
      also where the echoed id is one that no peer accepts. */
  lemma NoInternalErrors(turns: seq<Turn>, seed: Seed, s: Server, k: nat)
    requires TurnsOk(turns) && k < |turns| && EnvOk(turns[k].env) && SeedOk(seed)
    ensures var reply := ReplyAt(turns, seed, s, k);
            reply.Some? && Has(reply.value, ERROR) ==> Handled(CodeOf(reply.value)) && CodeOf(reply.value) != Int(INTERNAL_ERROR)
  {
    var t, s' := turns[k], After(turns[..k], seed, s);
    if Due(t.decoded).Some? {
      var (id, r) := Answered(t, seed, s');
      ReplyShows(id, r);
      ErrorIsHandled(t, seed, s');
    }
    hide Step, EnvOk, SeedOk, ParseMessage, Reply;
  }

  lemma ReplyShows(id: Json, r: Result<Json, RpcError>)
    ensures Has(Reply(id, r), ERROR) <==> r.Err?
    ensures r.Err? ==> CodeOf(Reply(id, r)) == Int(r.error.code)
  {
    if r.Err? {
      var payload := ErrorPayload(r.error.code, r.error.message, r.error.data);
      assert GetOrNull(payload, CODE) == Int(r.error.code);
      assert Get(Reply(id, r), ERROR) == Some(payload);
    }
  }

  lemma ParseErrorCode(raw: Json)
    ensures ParseMessage(raw).Err? ==> ParseMessage(raw).error.code == INVALID_REQUEST
  {
  }

  lemma ErrorIsHandled(t: Turn, seed: Seed, s: Server)
    requires TurnOk(t) && Due(t.decoded).Some? && EnvOk(t.env) && SeedOk(seed)
    ensures var r := Answered(t, seed, s).1; r.Err? ==> Handled(Int(r.error.code))
  {
    if t.decoded.Ok? {
      var raw := t.decoded.value;
      ParseErrorCode(raw);
      if ParseMessage(raw).Ok? {
        ParsedParams(raw);
        DispatchIsHandled(ParseMessage(raw).value.meth, ParseMessage(raw).value.params, seed, t.env, s);
      }
    }
    hide Dispatch, EnvOk, SeedOk, ParseMessage, WellFormed;
  }

  // ----- every reply can go on the wire --------------------------------------------------

  lemma StrsWellFormed(ss: seq<string>)
    ensures WellFormed(Arr(Strs(ss)))
  {
  }

  lemma ErrorReplyWellFormed(id: Json, e: RpcError)
    requires WellFormed(id) && WellFormed(e.data)
    ensures WellFormed(Reply(id, Err(e)))
  {
    var payload := Put(Put(EMPTY, CODE, Int(e.code)), MESSAGE, Str(e.message));
    PutWellFormed(EMPTY, CODE, Int(e.code));
    PutWellFormed(Put(EMPTY, CODE, Int(e.code)), MESSAGE, Str(e.message));
    PutWellFormed(payload, DATA, e.data);
    EnvelopeWellFormed(id, ERROR, ErrorPayload(e.code, e.message, e.data));
    hide Put, WellFormed;
  }

  lemma EnvelopeWellFormed(id: Json, key: string, value: Json)
    requires WellFormed(id) && WellFormed(value)
    ensures WellFormed(Put(Put(Envelope(), ID, id), key, value))
  {
    PutWellFormed(EMPTY, JSONRPC, Str("2.0"));
    PutWellFormed(Envelope(), ID, id);
    PutWellFormed(Put(Envelope(), ID, id), key, value);
    hide Put, WellFormed;
  }

  lemma ReplyWellFormed(id: Json, r: Result<Json, RpcError>)
    requires WellFormed(id) && (if r.Ok? then WellFormed(r.value) else WellFormed(r.error.data))
    ensures WellFormed(Reply(id, r))
  {
    if r.Err? {
      ErrorReplyWellFormed(id, r.error);
    } else {
      EnvelopeWellFormed(id, RESULT, r.value);
    }
    hide WellFormed, Put, BuildErrorFrom;
  }

  ghost predicate DataOk(r: Result<Json, RpcError>) { if r.Ok? then WellFormed(r.value) else WellFormed(r.error.data) }

  lemma PropWellFormed(p: Prop)
    ensures WellFormed(PropJson(p))
  {
    if p.Choice? {
      StrsWellFormed(p.options);
    }
    var keys, values := PropKeys(p), PropValues(p);
    forall i | 0 <= i < |values| ensures WellFormed(values[i]) {}
    hide Record, PropKeys, PropValues, WellFormed;
    RecordWellFormed(keys, values);
  }

  lemma SchemaWellFormed(t: Tool)
    requires ToolOk(t)
    ensures WellFormed(InputSchema(t))
  {
    var props := PropsJson(t.props);
    forall i | 0 <= i < |props| ensures WellFormed(props[i]) { PropWellFormed(t.props[i]); }
    RecordWellFormed(t.args, props);
    StrsWellFormed(t.required);
    var keys, values := SchemaKeys(t), SchemaValues(t);
    assert values[0] == Str("object") && values[1] == Record(t.args, props) && (|values| == 3 ==> values[2] == Arr(Strs(t.required)));
    hide Record, SchemaKeys, SchemaValues, PropJson, ToolOk, PropsJson, Strs;
    forall i | 0 <= i < |values| ensures WellFormed(values[i]) {}
    hide WellFormed;
    RecordWellFormed(keys, values);
  }

  lemma ListWellFormed()
    ensures WellFormed(ListTools())
  {
    var items := Descriptors(TOOLS);
    forall i | 0 <= i < |items| ensures WellFormed(items[i]) { DescriptorWellFormed(TOOLS[i]); }
    RecordWellFormed(["tools"], [Arr(items)]);
    hide Descriptors, Record;
  }

  lemma DescriptorWellFormed(t: Tool)
    requires t in TOOLS
    ensures |t.args| == |t.props| && WellFormed(Descriptor(t))
  {
    ToolsAreOk(t);
    SchemaWellFormed(t);
    hide InputSchema, Record, ToolOk;
    RecordWellFormed(["name", "inputSchema"], [Str(t.name), InputSchema(t)]);
  }

  lemma InitializeWellFormed()
    ensures WellFormed(InitializeResult())
  {
    hide Record, Zip;
    var tools := Record(["listChanged"], [Bool(false)]);
    RecordWellFormed(["listChanged"], [Bool(false)]);
    RecordWellFormed(["tools"], [tools]);
    RecordWellFormed(["name", "version"], [Str(SERVER_NAME), Str(SERVER_VERSION)]);
    RecordWellFormed(["protocolVersion", "capabilities", "serverInfo", "instructions"],
                     [Str(PROTOCOL_VERSION), Record(["tools"], [tools]),
                      Record(["name", "version"], [Str(SERVER_NAME), Str(SERVER_VERSION)]), Str(INSTRUCTIONS)]);
  }

  lemma TextWellFormed(payload: Json, isError: bool)
    ensures WellFormed(TextResult(payload, isError))
  {
    var text := Str(JsonText.Dumps(payload, JsonText.INDENTED));
    var block := Record(["type", "text"], [Str("text"), text]);
    hide Record, Zip;
    RecordWellFormed(["type", "text"], [Str("text"), text]);
    RecordWellFormed(["content", "isError"], [Arr([block]), Bool(isError)]);
  }

  lemma FieldDataWellFormed(field: string)
    ensures WellFormed(FieldData(field))
  {
    PutWellFormed(EMPTY, "field", Str(field));
  }

  lemma RequireOneOfDataOk(args: Json, names: seq<string>)
    ensures RequireOneOf(args, names).Err? ==> WellFormed(RequireOneOf(args, names).error.data)
  {
    var items := seq(|names|, i requires 0 <= i < |names| => Str(names[i]));
    assert WellFormed(Arr(items));
    PutWellFormed(EMPTY, "expected_one_of", Arr(items));
    hide SuppliedOf, WellFormed, Put;
  }

  ghost predicate RanDataOk(r: Ran) { r.Bad? ==> WellFormed(r.error.data) }

  lemma LookupDataOk(seed: Seed, env: Env, args: Json)
    ensures RanDataOk(HandleLookup(seed, env, args))
  {
    hide WellFormed, RequireOneOf, Record, AccountView;
    RequireOneOfDataOk(args, [ACCOUNT_ID, PHONE]);
  }

  lemma ScheduleDataOk(env: Env, st: StoreState, args: Json)
    ensures RanDataOk(HandleSchedule(env, st, args).0)
  {
    hide WellFormed, FieldData, Record, Scheduled, VisitJson;
    FieldDataWellFormed(DATE);
  }

  lemma HandleDataOk(tool: string, seed: Seed, env: Env, st: StoreState, args: Json)
    ensures RanDataOk(Handle(tool, seed, env, st, args).0)
  {
    hide WellFormed, Record, HandleLookup, HandleSchedule, LinkState, LinkMetrics, Readings, FindOutages, Opened, VisitJson, TicketJson;
    LookupDataOk(seed, env, args);
    ScheduleDataOk(env, st, args);
  }

  lemma CallDataOk(name: string, arguments: Json, seed: Seed, env: Env, st: StoreState)
    requires WellFormed(arguments)
    ensures RanDataOk(CallTool(name, arguments, seed, env, st).0)
  {
    StrsWellFormed(Available());
    RecordWellFormed(["available"], [Arr(Strs(Available()))]);
    var found := FindTool(TOOLS, name);
    if found.Some? {
      ToolsAreOk(found.value);
      SchemaIsOk(found.value);
      var valid := ValidateArguments(arguments, InputSchema(found.value), env.matches);
      ValidDataOk(arguments, InputSchema(found.value), env.matches);
      if valid.Ok? {
        HandleDataOk(name, seed, env, st, valid.value);
      }
    }
    hide WellFormed, Handle, ValidateArguments, InputSchema, Record, Strs, Available, FindTool;
  }

  lemma ValidDataOk(arguments: Json, schema: Json, m: Matcher)
    requires WellFormed(arguments) && SchemaOk(schema) && (Has(schema, "properties") ==> schema.vals["properties"].Obj?)
    ensures var r := ValidateArguments(arguments, schema, m); r.Err? ==> WellFormed(r.error.data)
  {
    var a := if arguments.Null? then EMPTY else arguments;
    if a.Obj? && CheckObject(a, schema, "", m).Some? {
      FieldDataWellFormed(CheckObject(a, schema, "", m).value);
    }
    hide CheckObject, WellFormed, FieldData, SchemaOk;
  }

  lemma ScalarsWellFormed()
    ensures WellFormed(EMPTY) && WellFormed(Null)
  {
  }

  lemma ArgumentsWellFormed(params: Json)
    requires WellFormed(params)
    ensures WellFormed(ArgumentsOf(params))
  {
  }

  lemma OutcomeDataOk(ran: Ran)
    requires RanDataOk(ran)
    ensures DataOk(Outcome(ran))
  {
    ScalarsWellFormed();
    hide WellFormed, TextResult;
    if ran.Payload? { TextWellFormed(ran.payload, false); }
    else if ran.Domain? { TextWellFormed(ran.payload, true); }
  }

  lemma ToolsCallDataOk(params: Json, seed: Seed, env: Env, st: StoreState)
    requires WellFormed(params)
    ensures DataOk(ToolsCall(params, seed, env, st).0)
  {
    hide WellFormed, CallTool, Has, Outcome, RanDataOk;
    ScalarsWellFormed();
    ArgumentsWellFormed(params);
    var name := GetOrNull(params, "name");
    if name.Str? && name.s != "" {
      var call := CallTool(name.s, ArgumentsOf(params), seed, env, st);
      CallDataOk(name.s, ArgumentsOf(params), seed, env, st);
      OutcomeDataOk(call.0);
    }
  }

  lemma DispatchDataOk(meth: string, params: Json, seed: Seed, env: Env, s: Server)
    requires WellFormed(params)
    ensures DataOk(Dispatch(meth, params, seed, env, s).0)
  {
    hide WellFormed, ToolsCall, InitializeResult, ListTools;
    ScalarsWellFormed();
    InitializeWellFormed();
    ListWellFormed();
    ToolsCallDataOk(if params.Obj? then params else EMPTY, seed, env, s.store);
  }

  lemma AnsweredDataOk(t: Turn, seed: Seed, s: Server)
    requires TurnOk(t) && Due(t.decoded).Some?
    ensures var (id, r) := Answered(t, seed, s); WellFormed(id) && DataOk(r)
  {
    assert WellFormed(Null);
    if t.decoded.Ok? {
      var raw := t.decoded.value;
      assert WellFormed(GetOrNull(raw, ID));
      var p := ParseMessage(raw);
      if p.Ok? {
        ParsedParams(raw);
        assert WellFormed(IdJson(p.value.id));
        DispatchDataOk(p.value.meth, p.value.params, seed, t.env, s);
      } else {
        ErrorHasNoData(raw);
      }
    }
    hide WellFormed, Dispatch, ParseMessage, Reply;
  }

  lemma ErrorHasNoData(raw: Json)
    ensures ParseMessage(raw).Err? ==> ParseMessage(raw).error.data == Null
  {
  }

  /** Everything the server writes can be encoded and read back. */
  lemma {:induction false} OutputsWellFormed(turns: seq<Turn>, seed: Seed, s: Server)
    requires TurnsOk(turns)
    ensures forall i :: 0 <= i < |Outputs(turns, seed, s)| ==> WellFormed(Outputs(turns, seed, s)[i]) && Outputs(turns, seed, s)[i].Obj?
  {
    hide Step, TurnOk, WellFormed, Due, Reply, DataOk;
    if turns != [] {
      var n := |turns| - 1;
      var s' := After(turns[..n], seed, s);
      OutputsWellFormed(turns[..n], seed, s);
      ReplyDiscipline(turns[n], seed, s');
      if Due(turns[n].decoded).Some? {
        var (id, r) := Answered(turns[n], seed, s');
        AnsweredDataOk(turns[n], seed, s');
        DataReply(id, r);
      }
    }
  }

  lemma DataReply(id: Json, r: Result<Json, RpcError>)
    requires WellFormed(id) && DataOk(r)
    ensures WellFormed(Reply(id, r))
  {
    ReplyWellFormed(id, r);
  }

  // ----- the stdio stream -----------------------------------------------------------------

  /** The turns a text stream makes, each with its own moment. */
  ghost predicate TurnsOf(turns: seq<Turn>, text: string) {
    |turns| == |ReadStream(text)| && forall i :: 0 <= i < |turns| ==> turns[i].decoded == ReadStream(text)[i]
  }

  /** A client that writes messages and reads the server's stream: every message arrives,
      and what it reads back is one answer for each that is due, in order, ids echoed. */
  lemma StdioExchange(messages: seq<Json>, eol: string, turns: seq<Turn>, seed: Seed, s: Server)
    requires forall i :: 0 <= i < |messages| ==> WellFormed(messages[i]) && messages[i].Obj?
    requires (eol == "\n" || eol == "\r\n") && TurnsOf(turns, WriteStream(messages, eol))
    ensures |turns| == |messages| && forall i :: 0 <= i < |turns| ==> turns[i].decoded == Ok(messages[i])
    ensures TurnsOk(turns)
    ensures var read := ReadStream(WriteStream(Outputs(turns, seed, s), "\n"));
            && |read| == |Dues(turns)|
            && forall k :: 0 <= k < |read| ==> read[k].Ok? && Answers(read[k].value, Dues(turns)[k])
  {
    StreamRoundTrip(messages, eol);
    hide ReadStream, WriteStream, Answers, WellFormed, Step;
    OutputsWellFormed(turns, seed, s);
    OutputsAnswerDues(turns, seed, s);
    StreamRoundTrip(Outputs(turns, seed, s), "\n");
  }
}
