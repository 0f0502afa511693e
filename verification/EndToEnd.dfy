/** Client and server together: each of any number of concurrent callers gets the
    server's answer to its own request. */
module EndToEnd {
  import opened Prelude
  import opened JsonValues
  import opened JsonRpc
  import opened FutureLedger
  import opened NetopsCore
  import opened Protocol
  import opened ServerRuns
  import C = ClientProtocol
  import Inv = ClientInvariant
  import Theorems = ClientTheorems

  /** One run of the engine, from one seed and one starting state: the lines it has taken so
      far, each with the world as it was then. */
  datatype Service = Service(seed: Seed, start: Server, turns: seq<Turn>)

  /** The engine at the moment it took line k. */
  function StateAt(r: Service, k: nat): Server
    requires TurnsOk(r.turns) && k <= |r.turns|
  {
    After(r.turns[..k], r.seed, r.start)
  }

  /** Whatever the engine owes an answer is a request this client sent, in any interleaving;
      its notifications and error replies owe none. */
  ghost predicate Takes(r: Service, sent: map<nat, Json>) {
    TurnsOk(r.turns)
    && forall k :: 0 <= k < |r.turns| && Due(r.turns[k].decoded).Some? ==> IsSent(r.turns[k].decoded, sent)
  }

  ghost predicate IsSent(decoded: Result<Json, string>, sent: map<nat, Json>) {
    exists id :: id in sent && decoded == Ok(sent[id])
  }

  ghost predicate IsOutput(r: Service, raw: Json)
    requires TurnsOk(r.turns)
  {
    exists k :: 0 <= k < |r.turns| && ReplyAt(r.turns, r.seed, r.start, k) == Some(raw)
  }

  /** The peer is this run: it takes what the client sent, and whatever arrives is one of
      its replies. */
  ghost predicate PeerIs(s: C.State, r: Service) {
    Takes(r, s.sent) && forall raw :: raw in s.delivered ==> IsOutput(r, raw)
  }

  /** What request() makes of the engine's outcome. */
  function Verdict(r: Result<Json, RpcError>): Outcome {
    match r
    case Ok(result) => Answer(result)
    case Err(e) => Rejected(e.code, e.message, e.data)
  }

  lemma DueOfRequest(id: nat, meth: string, params: Json)
    ensures Due(Ok(BuildRequest(IntId(id), meth, Some(params)))) == Some(Int(id))
    ensures BuildRequest(IntId(id), meth, Some(params)).Obj?
  {
    var raw := BuildRequest(IntId(id), meth, Some(params));
    ParseInvertsBuildRequest(IntId(id), meth, Some(params));
    assert GetOrNull(raw, ID) == Int(id);
    hide BuildRequest, ParseMessage;
  }

  /** The reader finds in a reply the id of the request it answers, and what the engine
      decided when it took that request. */
  lemma ReplyNamesItsRequest(r: Service, k: nat, id: nat, raw: Json)
    requires TurnsOk(r.turns) && k < |r.turns| && Due(r.turns[k].decoded) == Some(Int(id))
    requires ReplyAt(r.turns, r.seed, r.start, k) == Some(raw)
    ensures TurnOk(r.turns[k])
    ensures C.PhaseFor(raw) == C.Parsed(Some(id), Verdict(Answered(r.turns[k], r.seed, StateAt(r, k)).1))
  {
    hide Step, ParseMessage, Due, After;
    var (key, outcome) := Answered(r.turns[k], r.seed, StateAt(r, k));
    assert raw == Protocol.Reply(Int(id), outcome);
    ReplyIsRead(Int(id), outcome);
    hide Protocol.Reply;
    assert ParseMessage(raw) == Ok(Read(Int(id), outcome));
  }

  lemma BuiltRequest(id: nat, meth: string, params: Json)
    requires meth != "" && params.Obj? && WellFormed(BuildRequest(IntId(id), meth, Some(params)))
    ensures ParseMessage(BuildRequest(IntId(id), meth, Some(params))) == Ok(Request(IntId(id), meth, params))
    ensures WellFormed(params)
  {
    hide BuildRequest, ParseMessage;
    ParseInvertsBuildRequest(IntId(id), meth, Some(params));
    BuiltParams(id, meth, params);
  }

  lemma BuiltParams(id: nat, meth: string, params: Json)
    ensures Get(BuildRequest(IntId(id), meth, Some(params)), PARAMS) == Some(params)
  {
  }

  lemma RequestIsDispatched(t: Turn, id: nat, meth: string, params: Json, seed: Seed, server: Server)
    requires TurnOk(t) && t.decoded.Ok? && ParseMessage(t.decoded.value) == Ok(Request(IntId(id), meth, params)) && WellFormed(params)
    ensures Due(t.decoded).Some?
    ensures Answered(t, seed, server).1 == Dispatch(meth, params, seed, t.env, server).0
  {
    hide ParseMessage, WellFormed, Dispatch, Protocol.Reply;
  }

  /** At line k of the run this call's request was served, with this outcome. */
  ghost predicate ServedAt(r: Service, k: nat, call: C.Call, id: nat, outcome: Outcome)
    requires TurnsOk(r.turns)
  {
    && k < |r.turns| && r.turns[k].decoded == Ok(C.RequestOf(call, id)) && WellFormed(call.params)
    && outcome == Verdict(Dispatch(call.meth, call.params, r.seed, r.turns[k].env, StateAt(r, k)).0)
  }

  /** In every interleaving of callers, reader, timeouts and closes, over either transport:
      what a caller returns or raises as the server's answer is what the engine did, in its
      one run, at the line where it took that caller's own request. */
  lemma EachCallerGetsItsOwnAnswer(s: C.State, r: Service, c: nat)
    requires C.Reachable(s) && PeerIs(s, r)
    requires c in s.calls && C.At(s, c).Returned? && (C.At(s, c).outcome.Answer? || C.At(s, c).outcome.Rejected?)
    requires s.calls[c].meth != "" && s.calls[c].params.Obj?
    ensures exists k: nat :: ServedAt(r, k, s.calls[c], C.At(s, c).id, C.At(s, c).outcome)
  {
    Theorems.OutcomeWasDelivered(s, c);
    Inv.ReachableInv(s);
    var id := C.At(s, c).id;
    var raw :| raw in s.delivered && C.PhaseFor(raw) == C.Parsed(Some(id), C.At(s, c).outcome);
    assert IsOutput(r, raw);
    var k :| 0 <= k < |r.turns| && ReplyAt(r.turns, r.seed, r.start, k) == Some(raw);
    ReplyIsDue(r, k);
    assert IsSent(r.turns[k].decoded, s.sent);
    var sentId :| sentId in s.sent && r.turns[k].decoded == Ok(s.sent[sentId]);
    SentIsARequest(s, sentId);
    hide C.PhaseFor, Inv.Inv, C.Reachable, C.RequestOf, PeerIs, ReplyAt, Due, ServedAt;
    DueOfRequest(sentId, s.calls[s.owner[sentId]].meth, s.calls[s.owner[sentId]].params);
    ReplyNamesItsRequest(r, k, sentId, raw);
    assert sentId == id;
    ServedHere(s, r, k, c);
  }

  lemma ReplyIsDue(r: Service, k: nat)
    requires TurnsOk(r.turns) && k < |r.turns| && ReplyAt(r.turns, r.seed, r.start, k).Some?
    ensures Due(r.turns[k].decoded).Some?
  {
    ReplyDiscipline(r.turns[k], r.seed, StateAt(r, k));
    hide Step, Due;
  }

  lemma ServedHere(s: C.State, r: Service, k: nat, c: nat)
    requires TurnsOk(r.turns) && k < |r.turns| && c in s.calls && C.At(s, c).Returned?
    requires r.turns[k].decoded == Ok(C.RequestOf(s.calls[c], C.At(s, c).id)) && Due(r.turns[k].decoded).Some? && TurnOk(r.turns[k])
    requires s.calls[c].meth != "" && s.calls[c].params.Obj?
    requires C.At(s, c).outcome == Verdict(Answered(r.turns[k], r.seed, StateAt(r, k)).1)
    ensures ServedAt(r, k, s.calls[c], C.At(s, c).id, C.At(s, c).outcome)
  {
    var id, call := C.At(s, c).id, s.calls[c];
    assert WellFormed(C.RequestOf(call, id));
    hide Due, ParseMessage, BuildRequest, WellFormed, Dispatch, After;
    BuiltRequest(id, call.meth, call.params);
    RequestIsDispatched(r.turns[k], id, call.meth, call.params, r.seed, StateAt(r, k));
  }

  /** No request is taken twice. */
  ghost predicate TakesOnce(r: Service) {
    forall j, k :: 0 <= j < k < |r.turns| && Due(r.turns[j].decoded).Some? ==> r.turns[j].decoded != r.turns[k].decoded
  }

  /** Then there is one such line, so the answer a caller gets is the engine's only one. */
  lemma TheAnswerIsTheOnlyOne(s: C.State, r: Service, c: nat, j: nat)
    requires C.Reachable(s) && PeerIs(s, r) && TakesOnce(r)
    requires c in s.calls && C.At(s, c).Returned? && (C.At(s, c).outcome.Answer? || C.At(s, c).outcome.Rejected?)
    requires s.calls[c].meth != "" && s.calls[c].params.Obj?
    requires j < |r.turns| && r.turns[j].decoded == Ok(C.RequestOf(s.calls[c], C.At(s, c).id))
    ensures ServedAt(r, j, s.calls[c], C.At(s, c).id, C.At(s, c).outcome)
  {
    EachCallerGetsItsOwnAnswer(s, r, c);
    var k: nat :| ServedAt(r, k, s.calls[c], C.At(s, c).id, C.At(s, c).outcome);
    DueOfRequest(C.At(s, c).id, s.calls[c].meth, s.calls[c].params);
    hide C.Reachable, Due, Dispatch, After, BuildRequest;
  }

  lemma SentIsARequest(s: C.State, id: nat)
    requires Inv.Inv(s) && id in s.sent
    ensures id in s.owner && s.owner[id] in s.calls && C.HasId(C.At(s, s.owner[id])) && C.At(s, s.owner[id]).id == id
    ensures s.sent[id] == BuildRequest(IntId(id), s.calls[s.owner[id]].meth, Some(s.calls[s.owner[id]].params))
    ensures forall c :: c in s.calls && C.HasId(C.At(s, c)) && C.At(s, c).id == id ==> s.owner[id] == c
  {
    hide LedgerOk, Inv.CallsOk, Inv.RolesOk, Inv.AnswersOk, Inv.CloseOk, Inv.SealedOk, BuildRequest;
  }
}
