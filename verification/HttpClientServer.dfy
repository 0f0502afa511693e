/** HttpTransport talking to the HTTP adapter: the headers one learns are the headers the
    other asks for, so the client reads what it would read from a pipe. */
module HttpClientServer {
  import opened Prelude
  import opened JsonValues
  import opened JsonRpc
  import opened StoreFile
  import opened NetopsCore
  import opened ToolCalls
  import opened Protocol
  import opened ServerRuns
  import opened HttpAdapter
  import H = HttpTransports
  import C = ClientProtocol

  /** One message from the client, and what the server would mint for it. */
  datatype Asked = Asked(message: Json, env: Env, minted: string)

  function RequestFor(l: H.Learned, a: Asked): HttpRequest {
    Post(Some(a.message), H.HeadersFor(l, a.message).version, H.HeadersFor(l, a.message).session, a.minted, a.env)
  }

  function AnswerOf(r: HttpResponse): H.Answer {
    H.Answer(r.status, r.session, if r.body.None? then H.Empty else H.Body(r.body.value))
  }

  ghost predicate AskedOk(a: Asked) { WellFormed(a.message) && a.message.Obj? && a.minted != "" }

  /** Both ends after one exchange. */
  function Exchange(t: H.Transport, h: HttpServer, a: Asked, max: nat, seed: Seed): (H.Transport, HttpServer)
    requires AskedOk(a) && max >= 1
  {
    var (response, h') := HttpAdapter.Handle(RequestFor(t.learned, a), max, seed, h);
    (H.Settle(t, a.message, AnswerOf(response)).1, h')
  }

  function Talk(t: H.Transport, h: HttpServer, asked: seq<Asked>, max: nat, seed: Seed): (H.Transport, HttpServer)
    requires (forall i :: 0 <= i < |asked| ==> AskedOk(asked[i])) && max >= 1
  {
    if asked == [] then (t, h)
    else
      var n := |asked| - 1;
      var (t', h') := Talk(t, h, asked[..n], max, seed);
      Exchange(t', h', asked[n], max, seed)
  }

  function TurnsOf(asked: seq<Asked>): (turns: seq<Turn>)
    ensures |turns| == |asked| && forall i :: 0 <= i < |asked| ==> turns[i] == Turn(Ok(asked[i].message), asked[i].env)
  {
    seq(|asked|, i requires 0 <= i < |asked| => Turn(Ok(asked[i].message), asked[i].env))
  }

  /** What the client knows once it has its session. */
  ghost predicate Holds(l: H.Learned, id: string) {
    l.session == Some(id) && (l.version.None? || l.version == Some(PROTOCOL_VERSION))
  }

  // ----- one exchange ----------------------------------------------------------------------

  lemma InitializeVersion(raw: Json, seed: Seed, env: Env, s: Server)
    requires WellFormed(raw) && Starts(raw)
    ensures var reply := HandleMessage(raw, seed, env, s).0;
            H.VersionIn(reply).None? || H.VersionIn(reply) == Some(PROTOCOL_VERSION)
  {
    var p := ParseMessage(raw);
    RecordAt(["protocolVersion", "capabilities", "serverInfo", "instructions"],
             [Str(PROTOCOL_VERSION),
              Record(["tools"], [Record(["listChanged"], [Bool(false)])]),
              Record(["name", "version"], [Str(SERVER_NAME), Str(SERVER_VERSION)]),
              Str(INSTRUCTIONS)], 0);
    assert GetOrNull(InitializeResult(), "protocolVersion") == Str(PROTOCOL_VERSION);
    if p.Ok? && p.value.Request? {
      ParsedParams(raw);
      StartsMeans(raw);
      assert HandleMessage(raw, seed, env, s).0 == Some(Reply(IdJson(p.value.id), Ok(InitializeResult())))
        by { hide ParseMessage, WellFormed, InitializeResult, Reply; }
      ResultOfReply(IdJson(p.value.id), Ok(InitializeResult()));
    } else if p.Err? {
      ResultOfReply(GetOrNull(raw, ID), Err(p.error));
    }
    hide ParseMessage, WellFormed, InitializeResult, Reply, Dispatch;
  }

  lemma StartsMeans(raw: Json)
    requires Starts(raw) && ParseMessage(raw).Ok? && ParseMessage(raw).value.Request?
    ensures ParseMessage(raw).value.meth == INITIALIZE
  {
  }

  lemma ResultOfReply(id: Json, r: Result<Json, RpcError>)
    ensures GetOrNull(Reply(id, r), RESULT) == if r.Ok? then r.value else Null
  {
    if r.Err? {
      hide ErrorPayload;
    }
  }

  lemma FirstSpeaks(l: H.Learned, a: Asked)
    requires AskedOk(a) && l == H.Learned(None, None)
    ensures RequestOk(RequestFor(l, a)) && Speaks(RequestFor(l, a).version)
    ensures Starts(a.message) <==> H.IsInitialize(a.message)
  {
  }

  /** The first exchange teaches the client its session id and its version. */
  lemma FirstExchange(t: H.Transport, h: HttpServer, a: Asked, max: nat, seed: Seed)
    requires AskedOk(a) && max >= 1 && t.learned == H.Learned(None, None) && Starts(a.message)
    ensures var (t', h') := Exchange(t, h, a, max, seed);
            var (reply, s') := HandleMessage(a.message, seed, a.env, Server(FRESH, h.store));
            && Holds(t'.learned, a.minted) && Mirrors(h', a.minted, s')
            && t'.inbox == t.inbox + (if reply.Some? then [C.Incoming(reply.value)] else [])
  {
    hide HandleMessage, WellFormed, HttpAdapter.Handle, Mirrors, H.VersionIn, Starts, GetOrNull, Put, Speaks;
    var r := RequestFor(t.learned, a);
    var s := Server(FRESH, h.store);
    FirstSpeaks(t.learned, a);
    StartMirrors(r, max, seed, h, a.message, a.env, s);
    InitializeVersion(a.message, seed, a.env, s);
    ReplyIsObject(a.message, seed, a.env, s);
  }

  lemma ReplyIsObject(raw: Json, seed: Seed, env: Env, s: Server)
    requires WellFormed(raw)
    ensures HandleMessage(raw, seed, env, s).0.Some? ==> HandleMessage(raw, seed, env, s).0.value.Obj?
  {
    if ParseMessage(raw).Ok? && ParseMessage(raw).value.Request? {
      ParsedParams(raw);
    }
    hide ParseMessage, WellFormed, Dispatch, Reply;
  }

  lemma NextSpeaks(l: H.Learned, a: Asked, id: string)
    requires AskedOk(a) && Holds(l, id) && id != ""
    ensures RequestOk(RequestFor(l, a)) && Speaks(RequestFor(l, a).version) && RequestFor(l, a).session == Some(id)
    ensures Starts(a.message) <==> H.IsInitialize(a.message)
  {
  }

  /** Every later one carries them, and the server recognises the session. */
  lemma NextExchange(t: H.Transport, h: HttpServer, a: Asked, max: nat, seed: Seed, id: string, s: Server)
    requires AskedOk(a) && max >= 1 && Holds(t.learned, id) && Mirrors(h, id, s) && !Starts(a.message)
    ensures Carries(RequestFor(t.learned, a), id, a.message, a.env)
    ensures var (t', h') := Exchange(t, h, a, max, seed);
            var (reply, s') := HandleMessage(a.message, seed, a.env, s);
            && Holds(t'.learned, id) && Mirrors(h', id, s')
            && t'.inbox == t.inbox + (if reply.Some? then [C.Incoming(reply.value)] else [])
  {
    hide HandleMessage, WellFormed, HttpAdapter.Handle, H.VersionIn, Starts, GetOrNull, Put, Speaks;
    var r := RequestFor(t.learned, a);
    NextSpeaks(t.learned, a, id);
    StepMirrors(r, max, seed, h, id, a.message, a.env, s);
    ReplyIsObject(a.message, seed, a.env, s);
  }

  // ----- the whole conversation -----------------------------------------------------------------

  function Items(messages: seq<Json>): (r: seq<C.Item>)
    ensures |r| == |messages| && forall i :: 0 <= i < |r| ==> r[i] == C.Incoming(messages[i])
  {
    seq(|messages|, i requires 0 <= i < |messages| => C.Incoming(messages[i]))
  }

  lemma TurnsOfOk(asked: seq<Asked>)
    requires forall i :: 0 <= i < |asked| ==> AskedOk(asked[i])
    ensures TurnsOk(TurnsOf(asked))
  {
  }

  /** The stdio side of one more message. */
  lemma OneMore(asked: seq<Asked>, seed: Seed, s: Server)
    requires (forall i :: 0 <= i < |asked| ==> AskedOk(asked[i])) && asked != []
    ensures TurnsOk(TurnsOf(asked)) && TurnsOk(TurnsOf(asked[..|asked| - 1]))
    ensures var n := |asked| - 1;
            var before := TurnsOf(asked[..n]);
            var (reply, s') := HandleMessage(asked[n].message, seed, asked[n].env, After(before, seed, s));
            && After(TurnsOf(asked), seed, s) == s'
            && Outputs(TurnsOf(asked), seed, s) == Outputs(before, seed, s) + (if reply.Some? then [reply.value] else [])
  {
    TurnsOfOk(asked);
    TurnsOfOk(asked[..|asked| - 1]);
    hide HandleMessage, AskedOk, TurnOk;
    assert TurnsOf(asked)[..|asked| - 1] == TurnsOf(asked[..|asked| - 1]);
  }

  lemma ItemsGrow(inbox: seq<C.Item>, messages: seq<Json>, reply: Option<Json>)
    ensures inbox + Items(messages) + (if reply.Some? then [C.Incoming(reply.value)] else [])
         == inbox + Items(messages + if reply.Some? then [reply.value] else [])
  {
  }

  /** A client that initializes first and never again: its inbox over HTTP is filled with
      exactly the messages a stdio server would write, in the same order. */
  lemma {:induction false} HttpClientReadsStdio(t: H.Transport, h: HttpServer, asked: seq<Asked>, max: nat, seed: Seed)
    requires (forall i :: 0 <= i < |asked| ==> AskedOk(asked[i])) && max >= 1 && asked != []
    requires t.learned == H.Learned(None, None)
    requires forall i :: 0 <= i < |asked| ==> (Starts(asked[i].message) <==> i == 0)
    ensures TurnsOk(TurnsOf(asked))
    ensures var (t', h') := Talk(t, h, asked, max, seed);
            && t'.inbox == t.inbox + Items(Outputs(TurnsOf(asked), seed, Server(FRESH, h.store)))
            && Holds(t'.learned, asked[0].minted)
            && Mirrors(h', asked[0].minted, After(TurnsOf(asked), seed, Server(FRESH, h.store)))
  {
    TurnsOfOk(asked);
    hide HandleMessage, AskedOk, Exchange, Mirrors, Holds, Starts, TurnOk, TurnsOf, Outputs, After, Items, TurnsOk;
    var n := |asked| - 1;
    var s := Server(FRESH, h.store);
    OneMore(asked, seed, s);
    if n == 0 {
      assert asked[..0] == [];
      FirstExchange(t, h, asked[0], max, seed);
      NoneYet(asked[..0], seed, s);
      ItemsGrow(t.inbox, [], HandleMessage(asked[0].message, seed, asked[0].env, s).0);
    } else {
      assert forall i :: 0 <= i < n ==> asked[..n][i] == asked[i];
      HttpClientReadsStdio(t, h, asked[..n], max, seed);
      var (t', h') := Talk(t, h, asked[..n], max, seed);
      var s' := After(TurnsOf(asked[..n]), seed, s);
      NextExchange(t', h', asked[n], max, seed, asked[0].minted, s');
      ItemsGrow(t.inbox, Outputs(TurnsOf(asked[..n]), seed, s), HandleMessage(asked[n].message, seed, asked[n].env, s').0);
    }
  }

  lemma NoneYet(asked: seq<Asked>, seed: Seed, s: Server)
    requires asked == []
    ensures TurnsOk(TurnsOf(asked)) && After(TurnsOf(asked), seed, s) == s && Outputs(TurnsOf(asked), seed, s) == []
    ensures forall inbox: seq<C.Item> :: inbox + Items([]) == inbox
  {
  }
}
