/** One session among many: other clients create, use and delete sessions in between, all
    over the same store, and this one still answers as a stdio session would. */
module HttpInterleaved {
  import opened Prelude
  import opened JsonValues
  import opened JsonRpc
  import opened TicketStore
  import opened NetopsCore
  import opened ToolCalls
  import opened Protocol
  import opened ServerRuns
  import opened SessionTable
  import opened HttpAdapter

  /** A message delivered to the session, and the shared store it found. */
  datatype Served = Served(raw: Json, env: Env, store: StoreState)

  ghost predicate ServedOk(mine: seq<Served>) { forall i :: 0 <= i < |mine| ==> WellFormed(mine[i].raw) }

  /** A stdio session that got exactly these messages, while others wrote the store. */
  function StdioSession(mine: seq<Served>, seed: Seed): Handshake
    requires ServedOk(mine)
  {
    if mine == [] then FRESH
    else
      var n := |mine| - 1;
      var last := mine[n];
      HandleMessage(last.raw, seed, last.env, Server(StdioSession(mine[..n], seed), last.store)).1.session
  }

  /** What that session writes for one more message. */
  function StdioReply(mine: seq<Served>, raw: Json, env: Env, seed: Seed, store: StoreState): Option<Json>
    requires ServedOk(mine) && WellFormed(raw)
  {
    HandleMessage(raw, seed, env, Server(StdioSession(mine, seed), store)).0
  }

  /** The request is delivered to the session: the one that starts it, or one that names it. */
  predicate Addressed(r: HttpRequest, id: string) {
    Speakable(r) && if Starts(r.body.value) then r.minted == id else r.session == Some(id)
  }

  ghost predicate AllOk(requests: seq<HttpRequest>) { forall i :: 0 <= i < |requests| ==> RequestOk(requests[i]) }

  /** The messages delivered to the session in a run, with the store each one found. */
  function Mine(requests: seq<HttpRequest>, id: string, max: nat, seed: Seed, h: HttpServer): (mine: seq<Served>)
    requires AllOk(requests) && max >= 1
    ensures ServedOk(mine)
  {
    if requests == [] then []
    else
      var n := |requests| - 1;
      var r := requests[n];
      Mine(requests[..n], id, max, seed, h)
      + if Addressed(r, id) then [Served(r.body.value, r.env, AfterAll(requests[..n], max, seed, h).store)] else []
  }

  /** Nobody deletes the session, and no request starts another one while this is the
      oldest of a full table. */
  ghost predicate Spares(r: HttpRequest, max: nat, h: HttpServer, id: string) {
    !(r.Delete? && r.session == Some(id)) && !Evicts(r, max, h, id)
  }

  // ----- one request ----------------------------------------------------------------------

  /** A request for the session is answered as stdio would, and moves its handshake so. */
  lemma AddressedStep(r: HttpRequest, max: nat, seed: Seed, h: HttpServer, id: string)
    requires RequestOk(r) && max >= 1 && id != "" && id in h.table.vals && Addressed(r, id) && r.minted !in h.table.vals
    ensures var (response, h') := HttpAdapter.Handle(r, max, seed, h);
            var (reply, s) := HandleMessage(r.body.value, seed, r.env, Server(h.table.vals[id], h.store));
            && response.body == reply && response.status == (if reply.Some? then 200 else 202)
            && id in h'.table.vals && h'.table.vals[id] == s.session
  {
    hide HandleMessage, HttpAdapter.Handle, WellFormed, Starts;
    StepMirrors(r, max, seed, h, id, r.body.value, r.env, Server(h.table.vals[id], h.store));
  }

  /** Any other request leaves it alone, while it is spared. */
  lemma OtherStep(r: HttpRequest, max: nat, seed: Seed, h: HttpServer, id: string)
    requires RequestOk(r) && max >= 1 && TableOk(h.table) && id in h.table.vals && !Addressed(r, id)
    requires (r.Post? ==> r.minted !in h.table.vals) && Spares(r, max, h, id)
    ensures var h' := HttpAdapter.Handle(r, max, seed, h).1;
            id in h'.table.vals && h'.table.vals[id] == h.table.vals[id]
  {
    if Reaches(r, id) {
      Unspoken(r, max, seed, h);
    } else {
      OthersLeaveItAlone(r, max, seed, h, id);
      hide HttpAdapter.Handle;
    }
  }

  lemma Unspoken(r: HttpRequest, max: nat, seed: Seed, h: HttpServer)
    requires RequestOk(r) && max >= 1 && r.Post? && !Speakable(r)
    ensures HttpAdapter.Handle(r, max, seed, h).1 == h
  {
    StatusTells(r, max, seed, h);
    hide HttpAdapter.Handle, Due;
  }

  // ----- the whole run -----------------------------------------------------------------------

  /** A run that starts with the session's own initialize, from any server in any state; the
      ids minted are fresh, and the session is spared throughout. */
  ghost predicate Hosts(requests: seq<HttpRequest>, id: string, max: nat, seed: Seed, h: HttpServer)
    requires AllOk(requests) && max >= 1
  {
    && |requests| > 0 && id != "" && HttpOk(h, max) && Minting(requests, max, seed, h)
    && Speakable(requests[0]) && Starts(requests[0].body.value) && requests[0].minted == id
    && forall k :: 0 < k < |requests| ==> Spares(requests[k], max, AfterAll(requests[..k], max, seed, h), id)
  }

  lemma HostsPrefix(requests: seq<HttpRequest>, n: nat, id: string, max: nat, seed: Seed, h: HttpServer)
    requires AllOk(requests) && max >= 1 && Hosts(requests, id, max, seed, h) && 0 < n <= |requests|
    ensures AllOk(requests[..n]) && Hosts(requests[..n], id, max, seed, h)
  {
    var before := requests[..n];
    forall k | 0 <= k < n ensures before[k] == requests[k] && before[..k] == requests[..k] {}
    hide HttpOk, HttpAdapter.Handle, AfterAll, Spares, Speakable, Starts;
  }

  /** After every request the session is live and in the state of that stdio session. */
  lemma {:induction false} SessionIsStdio(requests: seq<HttpRequest>, id: string, max: nat, seed: Seed, h: HttpServer)
    requires AllOk(requests) && max >= 1 && Hosts(requests, id, max, seed, h)
    ensures var t := AfterAll(requests, max, seed, h).table.vals;
            id in t && t[id] == StdioSession(Mine(requests, id, max, seed, h), seed)
    decreases |requests|
  {
    var n := |requests| - 1;
    var before := requests[..n];
    var h' := AfterAll(before, max, seed, h);
    assert RequestOk(requests[n]);
    hide HandleMessage, HttpAdapter.Handle, HttpOk, RequestOk, Addressed, StdioSession, Spares;
    if n == 0 {
      assert before == [];
      FirstOfRun(requests[0], id, max, seed, h);
      assert Mine(requests, id, max, seed, h) == [] + [Served(requests[0].body.value, requests[0].env, h.store)];
    } else {
      HostsPrefix(requests, n, id, max, seed, h);
      SessionIsStdio(before, id, max, seed, h);
      HostsMinted(requests, id, max, seed, h);
      var mine := Mine(before, id, max, seed, h);
      if Addressed(requests[n], id) {
        AddressedStep(requests[n], max, seed, h', id);
        OneMoreServed(mine, Served(requests[n].body.value, requests[n].env, h'.store), seed);
      } else {
        OtherStep(requests[n], max, seed, h', id);
        assert mine + [] == mine;
      }
    }
  }

  lemma OneMoreServed(mine: seq<Served>, last: Served, seed: Seed)
    requires ServedOk(mine) && WellFormed(last.raw)
    ensures ServedOk(mine + [last])
    ensures StdioSession(mine + [last], seed)
         == HandleMessage(last.raw, seed, last.env, Server(StdioSession(mine, seed), last.store)).1.session
  {
    assert (mine + [last])[..|mine|] == mine;
    hide HandleMessage;
  }

  lemma FirstOfRun(r: HttpRequest, id: string, max: nat, seed: Seed, h: HttpServer)
    requires RequestOk(r) && max >= 1 && id != "" && Speakable(r) && Starts(r.body.value) && r.minted == id
    ensures Addressed(r, id) && WellFormed(r.body.value) && ServedOk([Served(r.body.value, r.env, h.store)])
    ensures var t := HttpAdapter.Handle(r, max, seed, h).1.table.vals;
            id in t && t[id] == StdioSession([Served(r.body.value, r.env, h.store)], seed)
  {
    StartMirrors(r, max, seed, h, r.body.value, r.env, Server(FRESH, h.store));
    OneMoreServed([], Served(r.body.value, r.env, h.store), seed);
    assert [] + [Served(r.body.value, r.env, h.store)] == [Served(r.body.value, r.env, h.store)];
    hide HandleMessage, HttpAdapter.Handle, WellFormed;
    assert StdioSession([], seed) == FRESH;
  }

  lemma HostsMinted(requests: seq<HttpRequest>, id: string, max: nat, seed: Seed, h: HttpServer)
    requires AllOk(requests) && max >= 1 && Hosts(requests, id, max, seed, h) && |requests| > 1
    ensures var n := |requests| - 1;
            var h' := AfterAll(requests[..n], max, seed, h);
            && TableOk(h'.table) && Spares(requests[n], max, h', id)
            && (requests[n].Post? ==> requests[n].minted !in h'.table.vals)
  {
    var n := |requests| - 1;
    HostsPrefix(requests, n, id, max, seed, h);
    HttpRunsKeepOk(requests[..n], max, seed, h);
    hide HttpAdapter.Handle, AfterAll, Spares, RequestOk, Speakable, Starts, StoreOk;
  }

  /** Where the run stands when one of its requests comes in. */
  lemma AtRequest(requests: seq<HttpRequest>, id: string, max: nat, seed: Seed, h: HttpServer, k: nat)
    requires AllOk(requests) && max >= 1 && Hosts(requests, id, max, seed, h) && 0 < k < |requests|
    ensures AllOk(requests[..k]) && RequestOk(requests[k]) && id != ""
    ensures var h' := AfterAll(requests[..k], max, seed, h);
            && id in h'.table.vals
            && h'.table.vals[id] == StdioSession(Mine(requests[..k], id, max, seed, h), seed)
            && (requests[k].Post? ==> requests[k].minted !in h'.table.vals)
  {
    assert id != "" && RequestOk(requests[k]);
    hide HandleMessage, HttpAdapter.Handle, AfterAll, Mine, StdioSession, Spares, Hosts, Starts, RequestOk, AllOk, ServedOk;
    HostsPrefix(requests, k, id, max, seed, h);
    SessionIsStdio(requests[..k], id, max, seed, h);
    MintedFresh(requests, id, max, seed, h, k);
  }

  lemma MintedFresh(requests: seq<HttpRequest>, id: string, max: nat, seed: Seed, h: HttpServer, k: nat)
    requires AllOk(requests) && max >= 1 && Hosts(requests, id, max, seed, h) && 0 < k < |requests|
    ensures AllOk(requests[..k])
    ensures requests[k].Post? ==> requests[k].minted !in AfterAll(requests[..k], max, seed, h).table.vals
  {
    hide HandleMessage, HttpAdapter.Handle, AfterAll, Spares, Hosts, Starts, RequestOk, AllOk, TableOk;
    var upTo := requests[..k + 1];
    assert upTo[..k] == requests[..k] && upTo[k] == requests[k];
    HostsPrefix(requests, k + 1, id, max, seed, h);
    HostsPrefix(requests, k, id, max, seed, h);
    HostsMinted(upTo, id, max, seed, h);
  }

  /** The same server on both transports, among other clients: as long as the session is
      neither deleted nor evicted, every message delivered to it is answered over HTTP as
      the stdio session that got exactly its messages answers, over the store as the others
      have left it; 202 exactly where no reply is owed. */
  lemma InterleavedIsStdio(requests: seq<HttpRequest>, id: string, max: nat, seed: Seed, h: HttpServer, k: nat)
    requires AllOk(requests) && max >= 1 && Hosts(requests, id, max, seed, h)
    requires 0 < k < |requests| && Addressed(requests[k], id)
    ensures AllOk(requests[..k]) && WellFormed(requests[k].body.value)
    ensures var h' := AfterAll(requests[..k], max, seed, h);
            var response := HttpAdapter.Handle(requests[k], max, seed, h').0;
            var reply := StdioReply(Mine(requests[..k], id, max, seed, h), requests[k].body.value, requests[k].env, seed, h'.store);
            response.body == reply && response.status == (if reply.Some? then 200 else 202)
  {
    AtRequest(requests, id, max, seed, h, k);
    Deliverable(requests[k], id);
    hide HandleMessage, HttpAdapter.Handle, AfterAll, Mine, StdioSession, Spares, Hosts, Starts, Speaks, RequestOk, Addressed, WellFormed, AllOk, ServedOk;
    AddressedStep(requests[k], max, seed, AfterAll(requests[..k], max, seed, h), id);
  }

  lemma Deliverable(r: HttpRequest, id: string)
    requires RequestOk(r) && Addressed(r, id)
    ensures r.Post? && r.body.Some? && WellFormed(r.body.value)
  {
    hide WellFormed, Starts;
  }
}
