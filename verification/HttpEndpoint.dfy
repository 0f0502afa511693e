/** SessionRegistry and the /mcp endpoint as the objects they are. */
module HttpEndpoint {
  import opened Prelude
  import opened JsonValues
  import opened JsonRpc
  import opened TicketStore
  import opened StoreFile
  import opened NetopsStores
  import opened NetopsCore
  import opened Protocol
  import opened NetopsSessions
  import opened SessionTable
  import opened HttpAdapter

  ghost function FlagsOf(sessions: map<string, NetopsSession>): map<string, Handshake>
    reads sessions.Values
  {
    map id | id in sessions :: Handshake(sessions[id].initializeReceived, sessions[id].initialized)
  }

  lemma FlagsOfPlaced(sessions: map<string, NetopsSession>, id: string, session: NetopsSession)
    ensures FlagsOf(sessions[id := session]) == FlagsOf(sessions)[id := Handshake(session.initializeReceived, session.initialized)]
  {
  }

  lemma FlagsOfDiscarded(sessions: map<string, NetopsSession>, id: string)
    ensures FlagsOf(sessions - {id}) == FlagsOf(sessions) - {id}
  {
  }

  lemma OwnedDiscarded(sessions: map<string, NetopsSession>, id: string, store: NetopsStore, seed: Seed)
    requires Owned(sessions, store, seed)
    ensures Owned(sessions - {id}, store, seed)
  {
  }

  /** Every session is its own object over the shared store. */
  ghost predicate Owned(sessions: map<string, NetopsSession>, store: NetopsStore, seed: Seed) {
    && (forall id :: id in sessions ==> sessions[id].store == store && sessions[id].seed == seed)
    && forall a, b :: a in sessions && b in sessions && a != b ==> sessions[a] != sessions[b]
  }

  lemma OwnedPlaced(sessions: map<string, NetopsSession>, id: string, session: NetopsSession, store: NetopsStore, seed: Seed)
    requires Owned(sessions, store, seed) && session !in sessions.Values && session.store == store && session.seed == seed
    ensures Owned(sessions[id := session], store, seed)
  {
    assert forall x :: x in sessions ==> sessions[x] in sessions.Values;
  }

  class SessionRegistry {
    const store: NetopsStore
    const seed: Seed
    const maxSessions: nat
    var order: seq<string>
    var sessions: map<string, NetopsSession>

    ghost predicate Valid()
      reads this, sessions.Values
    {
      maxSessions >= 1 && TableOk(Table(order, sessions)) && Owned(sessions, store, seed)
    }

    ghost function Flags(): Table<Handshake>
      reads this, sessions.Values
    {
      Table(order, FlagsOf(sessions))
    }

    constructor (store: NetopsStore, seed: Seed, maxSessions: nat)
      requires maxSessions >= 1
      ensures Valid() && Flags() == Table([], map[])
      ensures this.store == store && this.seed == seed && this.maxSessions == maxSessions
    {
      this.store := store;
      this.seed := seed;
      this.maxSessions := maxSessions;
      order := [];
      sessions := map[];
    }

    /** A full table drops its oldest session first. */
    method CreateSession(id: string) returns (session: NetopsSession)
      requires Valid()
      modifies this
      ensures Valid() && fresh(session) && id in sessions && sessions[id] == session
      ensures Flags() == Create(old(Flags()), maxSessions, id, FRESH)
      ensures forall x :: x in sessions && x != id ==> x in old(sessions) && sessions[x] == old(sessions)[x]
    {
      hide TableOk, Remove, Insert;
      session := new NetopsSession(store, seed);
      assert Valid() && Flags() == old(Flags());
      assert forall x :: x in sessions ==> sessions[x] in old(sessions).Values;
      if |order| >= maxSessions {
        Discard(order[0]);
      }
      Place(id, session);
    }

    /** self._sessions[id] = session */
    method Place(id: string, session: NetopsSession)
      requires Valid() && session !in sessions.Values && session.store == store && session.seed == seed
      modifies this
      ensures Valid() && sessions == old(sessions)[id := session]
      ensures Flags() == Insert(old(Flags()), id, old(Handshake(session.initializeReceived, session.initialized)))
    {
      InsertOk(Table(order, sessions), id, session);
      hide TableOk;
      FlagsOfPlaced(sessions, id, session);
      OwnedPlaced(sessions, id, session, store, seed);
      hide FlagsOf, Owned;
      order := if id in sessions then order else order + [id];
      sessions := sessions[id := session];
    }

    /** del self._sessions[id] */
    method Discard(id: string)
      requires Valid()
      modifies this
      ensures Valid() && order == Without(old(order), id) && sessions == old(sessions) - {id}
      ensures Flags() == Remove(old(Flags()), id)
    {
      hide TableOk, FlagsOf, Owned, Without;
      RemoveOk(Table(order, sessions), id);
      FlagsOfDiscarded(sessions, id);
      OwnedDiscarded(sessions, id, store, seed);
      order := Without(order, id);
      sessions := sessions - {id};
    }

    method GetSession(id: Option<string>) returns (session: Option<NetopsSession>)
      requires Valid()
      ensures session == Find(Table(order, sessions), id)
    {
      session := if id.Some? && id.value != "" && id.value in sessions then Some(sessions[id.value]) else None;
    }

    method DropSession(id: Option<string>) returns (dropped: bool)
      requires Valid()
      modifies this
      ensures Valid() && dropped == Find(old(Flags()), id).Some? && Flags() == Drop(old(Flags()), id)
    {
      if id.None? || id.value == "" {
        return false;
      }
      dropped := id.value in sessions;
      Discard(id.value);
    }

    ghost function State(): HttpServer
      reads this, sessions.Values, store
    {
      HttpServer(Flags(), store.state)
    }

    /** session.handle_message on the live session with this id. */
    method Route(id: string, session: NetopsSession, raw: Json, env: Env, temp: nat, fault: Fault) returns (reply: Option<Json>)
      requires Valid() && id in sessions && sessions[id] == session && WellFormed(raw)
      requires store.Valid() && temp !in store.disk.temps
      requires env.saveFails == Fails(fault, FileText(Serve(id, raw, seed, env, State()).1.store))
      modifies session, store
      ensures Valid() && store.Valid() && (reply, State()) == Serve(id, raw, seed, env, old(State()))
      ensures store.disk == (if store.state == old(store.state) || env.saveFails then old(store.disk)
                             else old(store.disk).(file := Some(FileText(store.state))))
    {
      hide TableOk, FileText, StoreOk, WellFormed, Protocol.HandleMessage;
      assert forall x :: x in sessions && x != id ==> sessions[x] != session;
      reply := session.HandleMessage(raw, env, temp, fault);
      assert FlagsOf(sessions) == old(FlagsOf(sessions))[id := session.State().session];
    }
  }

  /** POST /mcp */
  method Mcp(registry: SessionRegistry, body: Option<Json>, version: Option<string>, session: Option<string>,
             minted: string, env: Env, temp: nat, fault: Fault)
    returns (response: HttpResponse)
    requires registry.Valid() && registry.store.Valid() && temp !in registry.store.disk.temps
    requires RequestOk(Post(body, version, session, minted, env))
    requires env.saveFails == Fails(fault, FileText(
               HttpAdapter.Handle(Post(body, version, session, minted, env), registry.maxSessions, registry.seed, registry.State()).1.store))
    modifies registry, registry.sessions.Values, registry.store
    ensures registry.Valid() && registry.store.Valid()
    ensures (response, registry.State())
         == HttpAdapter.Handle(Post(body, version, session, minted, env), registry.maxSessions, registry.seed, old(registry.State()))
  {
    hide TableOk, FileText, StoreOk, WellFormed, Create, Serve, Owned, Refused, FlagsOf;
    if body.None? {
      return Refused(400, PARSE_ERROR, "invalid JSON", Null);
    }
    var message := body.value;
    if !message.Obj? {
      return Refused(400, INVALID_REQUEST, "a JSON-RPC message must be a JSON object", Null);
    }
    if !Speaks(version) {
      return Refused(400, INVALID_REQUEST, "unsupported version", GetOrNull(message, ID));
    }
    if GetOrNull(message, METHOD) == Str(INITIALIZE) {
      var started := registry.CreateSession(minted);
      var reply := registry.Route(minted, started, message, env, temp, fault);
      return Answer(reply, Some(minted));
    }
    var found := registry.GetSession(session);
    FlagsOfFound(registry.order, registry.sessions, session);
    if found.None? {
      return Refused(404, INVALID_REQUEST, "unknown or expired session", GetOrNull(message, ID));
    }
    assert found.value in registry.sessions.Values;
    var reply := registry.Route(session.value, found.value, message, env, temp, fault);
    return Answer(reply, None);
  }

  lemma FlagsOfFound(order: seq<string>, sessions: map<string, NetopsSession>, id: Option<string>)
    ensures Find(Table(order, sessions), id).Some? <==> Find(Table(order, FlagsOf(sessions)), id).Some?
  {
  }

  /** DELETE /mcp */
  method EndSession(registry: SessionRegistry, session: Option<string>) returns (response: HttpResponse)
    requires registry.Valid()
    modifies registry
    ensures registry.Valid()
    ensures (response, registry.State())
         == HttpAdapter.Handle(Delete(session), registry.maxSessions, registry.seed, old(registry.State()))
  {
    var dropped := registry.DropSession(session);
    response := HttpResponse(if dropped then 204 else 404, None, None);
  }
}
