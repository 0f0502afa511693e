/** MCPClient.connect: initialize, the version check, notifications/initialized. */
module Connect {
  import opened Prelude
  import opened JsonValues
  import opened JsonRpc
  import opened StoreFile
  import opened NetopsCore
  import opened ToolCalls
  import opened Protocol
  import opened ServerRuns

  /** The answer of the initialize request, judged. */
  datatype Verdict = Malformed | Unsupported | Accepted(version: string)

  function Judge(result: Json, supported: seq<string>): Verdict {
    if !result.Obj? then Malformed
    else
      var offered := GetOrNull(result, "protocolVersion");
      if offered.Str? && offered.s in supported then Accepted(offered.s) else Unsupported
  }

  function InitializeParams(version: string): Json {
    Record(["protocolVersion", "capabilities", "clientInfo"],
           [Str(version), EMPTY, Record(["name", "version"], [Str("uvg-mcp-host"), Str("0.1.0")])])
  }

  class ClientSession {
    const supported: seq<string>
    var initialized: bool
    var closed: bool
    var version: Option<string>
    var notified: seq<Json>

    constructor (supported: seq<string>)
      ensures this.supported == supported && !initialized && !closed && version == None && notified == []
    {
      this.supported := supported;
      initialized := false;
      closed := false;
      version := None;
      notified := [];
    }

    /** After the initialize request; `sendRaises` is the transport refusing the notification.
        An unsupported version disconnects, and nothing is sent. */
    method Finish(result: Json, sendRaises: bool) returns (verdict: Verdict)
      requires !initialized && !closed && notified == []
      modifies this
      ensures verdict == Judge(result, supported)
      ensures initialized <==> verdict.Accepted? && !sendRaises
      ensures closed <==> verdict.Unsupported?
      ensures version == if verdict.Accepted? then Some(verdict.version) else old(version)
      ensures notified == if initialized then [BuildNotification(INITIALIZED, Some(EMPTY))] else []
      ensures closed <==> result.Obj? && forall v :: v in supported ==> !Shows(result, "protocolVersion", Str(v))
      ensures initialized <==> !sendRaises && exists v :: v in supported && Shows(result, "protocolVersion", Str(v))
      ensures forall v :: v in supported && Shows(result, "protocolVersion", Str(v)) ==> version == Some(v)
    {
      verdict := Judge(result, supported);
      if verdict.Malformed? {
        return;
      }
      if verdict.Unsupported? {
        closed := true;
        return;
      }
      version := Some(verdict.version);
      if sendRaises {
        return;
      }
      notified := notified + [BuildNotification(INITIALIZED, Some(EMPTY))];
      initialized := true;
    }
  }

  lemma ParamsWellFormed(version: string)
    ensures WellFormed(InitializeParams(version)) && InitializeParams(version).Obj?
  {
    var info := Record(["name", "version"], [Str("uvg-mcp-host"), Str("0.1.0")]);
    RecordWellFormed(["name", "version"], [Str("uvg-mcp-host"), Str("0.1.0")]);
    RecordWellFormed(["protocolVersion", "capabilities", "clientInfo"], [Str(version), EMPTY, info]);
    hide Zip;
  }

  /** What the client asks for. */
  lemma ParamsShow(version: string)
    ensures var p := InitializeParams(version);
            && Shows(p, "protocolVersion", Str(version)) && Shows(p, "capabilities", Obj([], map[]))
            && exists info :: Shows(p, "clientInfo", info) && Shows(info, "name", Str("uvg-mcp-host")) && Shows(info, "version", Str("0.1.0"))
  {
    var info := Record(["name", "version"], [Str("uvg-mcp-host"), Str("0.1.0")]);
    var keys, values := ["protocolVersion", "capabilities", "clientInfo"], [Str(version), EMPTY, info];
    RecordShows(["name", "version"], [Str("uvg-mcp-host"), Str("0.1.0")]);
    RecordShows(keys, values);
    hide Record;
    assert Shows(info, ["name", "version"][0], Str("uvg-mcp-host")) && Shows(info, ["name", "version"][1], Str("0.1.0"));
    assert Shows(InitializeParams(version), keys[0], values[0]) && Shows(InitializeParams(version), keys[1], values[1])
        && Shows(InitializeParams(version), keys[2], values[2]);
  }

  lemma RequestWellFormed(id: nat, params: Json)
    requires WellFormed(params)
    ensures WellFormed(BuildRequest(IntId(id), INITIALIZE, Some(params)))
    ensures WellFormed(BuildNotification(INITIALIZED, Some(EMPTY)))
  {
    PutWellFormed(EMPTY, JSONRPC, Str("2.0"));
    PutWellFormed(Envelope(), ID, Int(id));
    PutWellFormed(Put(Envelope(), ID, Int(id)), METHOD, Str(INITIALIZE));
    PutWellFormed(Put(Put(Envelope(), ID, Int(id)), METHOD, Str(INITIALIZE)), PARAMS, params);
    PutWellFormed(Envelope(), METHOD, Str(INITIALIZED));
    PutWellFormed(Put(Envelope(), METHOD, Str(INITIALIZED)), PARAMS, EMPTY);
    hide Put;
  }

  lemma VersionOfResult()
    ensures InitializeResult().Obj? && GetOrNull(InitializeResult(), "protocolVersion") == Str(PROTOCOL_VERSION)
  {
    RecordAt(["protocolVersion", "capabilities", "serverInfo", "instructions"],
             [Str(PROTOCOL_VERSION),
              Record(["tools"], [Record(["listChanged"], [Bool(false)])]),
              Record(["name", "version"], [Str(SERVER_NAME), Str(SERVER_VERSION)]),
              Str(INSTRUCTIONS)], 0);
  }

  lemma InitializeIsServed(raw: Json, id: nat, params: Json, seed: Seed, env: Env, s: Server)
    requires WellFormed(raw) && ParseMessage(raw) == Ok(Request(IntId(id), INITIALIZE, params))
    ensures HandleMessage(raw, seed, env, s)
         == (Some(Reply(Int(id), Ok(InitializeResult()))), s.(session := s.session.(initializeReceived := true)))
  {
    hide ParseMessage, WellFormed, InitializeResult, Reply;
  }

  lemma InitializedIsServed(raw: Json, seed: Seed, env: Env, s: Server)
    requires WellFormed(raw) && ParseMessage(raw) == Ok(Notification(INITIALIZED, EMPTY)) && s.session.initializeReceived
    ensures HandleMessage(raw, seed, env, s) == (None, s.(session := Handshake(true, true)))
  {
    hide ParseMessage, WellFormed, Dispatch, Reply;
  }

  /** Connecting to this server completes the handshake on both sides: whatever version is
      asked for, the server offers its own; a client that supports it accepts, and the
      notification it then sends leaves the server's session initialized. */
  lemma ConnectCompletesTheHandshake(id: nat, asked: string, supported: seq<string>, seed: Seed, env: Env, env': Env, s: Server)
    requires PROTOCOL_VERSION in supported
    ensures WellFormed(BuildRequest(IntId(id), INITIALIZE, Some(InitializeParams(asked))))
    ensures WellFormed(BuildNotification(INITIALIZED, Some(EMPTY)))
    ensures var request := BuildRequest(IntId(id), INITIALIZE, Some(InitializeParams(asked)));
            var (reply, s1) := HandleMessage(request, seed, env, s);
            && reply.Some? && ParseMessage(reply.value) == Ok(Success(IntId(id), InitializeResult()))
            && Judge(InitializeResult(), supported) == Accepted(PROTOCOL_VERSION)
            && var (none, s2) := HandleMessage(BuildNotification(INITIALIZED, Some(EMPTY)), seed, env', s1);
               none.None? && s2.session == Handshake(true, true) && s2.store == s.store
  {
    hide InitializeParams, InitializeResult, WellFormed, BuildRequest, BuildNotification, HandleMessage, Reply, ParseMessage;
    var params := InitializeParams(asked);
    ParamsWellFormed(asked);
    RequestWellFormed(id, params);
    VersionOfResult();
    ParseInvertsBuildRequest(IntId(id), INITIALIZE, Some(params));
    ParseInvertsBuildNotification(INITIALIZED, Some(EMPTY));
    ReplyIsRead(Int(id), Ok(InitializeResult()));
    var request := BuildRequest(IntId(id), INITIALIZE, Some(params));
    InitializeIsServed(request, id, params, seed, env, s);
    InitializedIsServed(BuildNotification(INITIALIZED, Some(EMPTY)), seed, env', HandleMessage(request, seed, env, s).1);
  }
}
