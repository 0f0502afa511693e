/** NetopsSession as the object it is: two flags beside the store it shares. */
module NetopsSessions {
  import opened Prelude
  import opened JsonValues
  import opened JsonRpc
  import opened Ndjson
  import opened TicketStore
  import opened StoreFile
  import opened NetopsStores
  import opened Validation
  import opened NetopsCore
  import opened ToolCalls
  import opened Protocol

  /** handle_open_ticket on the store object. */
  method OpenTicketOn(store: NetopsStore, seed: Seed, env: Env, args: Json, temp: nat, fault: Fault) returns (ran: Ran)
    requires store.Valid() && temp !in store.disk.temps
    requires env.saveFails == Fails(fault, FileText(HandleOpenTicket(seed, env, store.state, args).1))
    modifies store
    ensures store.Valid() && (ran, store.state) == HandleOpenTicket(seed, env, old(store.state), args)
    ensures store.disk == (if store.state == old(store.state) || env.saveFails then old(store.disk)
                           else old(store.disk).(file := Some(FileText(store.state))))
  {
    var id, category, description := StrArg(args, ACCOUNT_ID), StrArg(args, CATEGORY), StrArg(args, DESCRIPTION);
    var priority := if Has(args, PRIORITY) then StrArg(args, PRIORITY) else Some("normal");
    if id.None? {
      return Unhandled;
    }
    if env.norm(id.value) !in seed.accounts {
      return Domain(AccountFailure(id.value));
    }
    if category.None? || description.None? || priority.None? {
      return Unhandled;
    }
    var account := seed.accounts[env.norm(id.value)].accountId;
    var created := store.CreateTicket(account, category.value, description.value, priority.value, env.now, temp, fault);
    if created.None? {
      return Unhandled;
    }
    var t := created.value;
    ran := Payload(Record(["ticket_id", "status", "account_id", "category", "priority", "created_at"],
                          [Str(t.ticketId), Str(t.status), Str(t.accountId), Str(t.category), Str(t.priority), Str(t.createdAt)]));
  }

  /** handle_schedule_visit on the store object. */
  method ScheduleVisitOn(store: NetopsStore, env: Env, args: Json, temp: nat, fault: Fault) returns (ran: Ran)
    requires store.Valid() && temp !in store.disk.temps
    requires env.saveFails == Fails(fault, FileText(HandleSchedule(env, store.state, args).1))
    modifies store
    ensures store.Valid() && (ran, store.state) == HandleSchedule(env, old(store.state), args)
    ensures store.disk == (if store.state == old(store.state) || env.saveFails then old(store.disk)
                           else old(store.disk).(file := Some(FileText(store.state))))
  {
    hide FileText, StoreOk, VisitValues, Put, FieldData, Zip, Today, StrArg, Scheduled, IdsOk, VisitsOk, TicketsOk, Extends;
    var raw, date, window := StrArg(args, TICKET_ID), StrArg(args, DATE), StrArg(args, TIME_WINDOW);
    if raw.None? {
      return Unhandled;
    }
    var id := env.norm(raw.value);
    if env.norm(id) !in store.state.tickets {
      return Domain(TicketFailure(id));
    }
    if date.None? {
      return Unhandled;
    }
    if env.dateOf(date.value).None? {
      return Bad(InvalidParams("date is not a real calendar date", FieldData(DATE)));
    }
    if env.dateOf(Today(env)).None? {
      return Unhandled;
    }
    if env.dateOf(date.value).value < env.dateOf(Today(env)).value {
      return Domain(Record(["error", "ticket_id", "earliest"], [Str("La fecha ya pasó."), Str(id), Str(Today(env))]));
    }
    if window.None? || id !in store.state.tickets {
      return Unhandled;
    }
    var already := id in store.state.visits;
    ScheduledIsNew(store.state, id, date.value, window.value, env.now);
    var visit := store.ScheduleVisit(id, date.value, window.value, env.now, temp, fault);
    if visit.None? {
      return Unhandled;
    }
    ran := Payload(Put(VisitJson(visit.value), "rescheduled", Bool(already)));
  }

  lemma ScheduledIsNew(st: StoreState, id: string, date: string, timeWindow: string, now: string)
    requires id in st.tickets
    ensures Scheduled(st, id, date, timeWindow, now) != st && id in Scheduled(st, id, date, timeWindow, now).visits
  {
    var st' := Scheduled(st, id, date, timeWindow, now);
    assert |st'.tickets[id].history| == |st.tickets[id].history| + 1;
  }

  class NetopsSession {
    const store: NetopsStore
    const seed: Seed
    var initializeReceived: bool
    var initialized: bool

    ghost function State(): Server
      reads this, store
    {
      Server(Handshake(initializeReceived, initialized), store.state)
    }

    constructor (store: NetopsStore, seed: Seed)
      ensures this.store == store && this.seed == seed && State().session == FRESH
    {
      this.store := store;
      this.seed := seed;
      initializeReceived := false;
      initialized := false;
    }

    method HandleInitialize() returns (result: Json)
      modifies this
      ensures result == InitializeResult() && initializeReceived && initialized == old(initialized)
    {
      initializeReceived := true;
      result := InitializeResult();
    }

    method HandleNotification(meth: string)
      modifies this
      ensures State().session == Notified(meth, old(State()).session)
    {
      if meth == INITIALIZED && initializeReceived {
        initialized := true;
      }
    }

    /** core.dispatch on the shared store. */
    method CallOn(name: string, arguments: Json, env: Env, temp: nat, fault: Fault) returns (ran: Ran)
      requires WellFormed(arguments) && store.Valid() && temp !in store.disk.temps
      requires env.saveFails == Fails(fault, FileText(CallTool(name, arguments, seed, env, store.state).1))
      modifies store
      ensures store.Valid() && (ran, store.state) == CallTool(name, arguments, seed, env, old(store.state))
      ensures store.disk == (if store.state == old(store.state) || env.saveFails then old(store.disk)
                             else old(store.disk).(file := Some(FileText(store.state))))
    {
      var tool := FindTool(TOOLS, name);
      if tool.None? {
        return Bad(InvalidParams("unknown tool", Record(["available"], [Arr(Strs(Available()))])));
      }
      ToolsAreOk(tool.value);
      SchemaIsOk(tool.value);
      var valid := ValidateArguments(arguments, InputSchema(tool.value), env.matches);
      if valid.Err? {
        return Bad(valid.error);
      }
      hide ValidateArguments, InputSchema, Handle, FileText, StoreOk, FindTool;
      ran := RunOn(name, valid.value, env, temp, fault);
    }

    /** HANDLERS[name](store, arguments) */
    method RunOn(name: string, args: Json, env: Env, temp: nat, fault: Fault) returns (ran: Ran)
      requires exists t :: t in TOOLS && t.name == name
      requires store.Valid() && temp !in store.disk.temps
      requires env.saveFails == Fails(fault, FileText(Handle(name, seed, env, store.state, args).1))
      modifies store
      ensures store.Valid() && (ran, store.state) == Handle(name, seed, env, old(store.state), args)
      ensures store.disk == (if store.state == old(store.state) || env.saveFails then old(store.disk)
                             else old(store.disk).(file := Some(FileText(store.state))))
    {
      hide HandleOpenTicket, HandleSchedule, HandleLookup, HandleStatus, HandleOutages, HandleDiagnostic, HandleGetTicket, FileText, StoreOk;
      if name == OPEN_TICKET.name {
        ran := OpenTicketOn(store, seed, env, args, temp, fault);
      } else if name == SCHEDULE.name {
        ran := ScheduleVisitOn(store, env, args, temp, fault);
      } else {
        ran := Handle(name, seed, env, store.state, args).0;
      }
    }

    /** Route one decoded message: the reply, or None if none is owed. */
    method HandleMessage(raw: Json, env: Env, temp: nat, fault: Fault) returns (reply: Option<Json>)
      requires WellFormed(raw) && store.Valid() && temp !in store.disk.temps
      requires env.saveFails == Fails(fault, FileText(Protocol.HandleMessage(raw, seed, env, State()).1.store))
      modifies this, store
      ensures store.Valid() && (reply, State()) == Protocol.HandleMessage(raw, seed, env, old(State()))
      ensures store.disk == (if store.state == old(store.state) || env.saveFails then old(store.disk)
                             else old(store.disk).(file := Some(FileText(store.state))))
    {
      var message := ParseMessage(raw);
      if message.Err? {
        return Some(Reply(GetOrNull(raw, ID), Err(message.error)));
      }
      if message.value.Notification? {
        HandleNotification(message.value.meth);
        return None;
      }
      if !message.value.Request? {
        return None;
      }
      ParsedParams(raw);
      hide ParseMessage, WellFormed, StoreOk, FileText, Reply;
      var result := Dispatch(message.value.meth, message.value.params, env, temp, fault);
      reply := Some(Reply(IdJson(message.value.id), result));
    }

    method Dispatch(meth: string, params: Json, env: Env, temp: nat, fault: Fault) returns (result: Result<Json, RpcError>)
      requires WellFormed(params) && store.Valid() && temp !in store.disk.temps
      requires env.saveFails == Fails(fault, FileText(Protocol.Dispatch(meth, params, seed, env, State()).1.store))
      modifies this, store
      ensures store.Valid() && (result, State()) == Protocol.Dispatch(meth, params, seed, env, old(State()))
      ensures store.disk == (if store.state == old(store.state) || env.saveFails then old(store.disk)
                             else old(store.disk).(file := Some(FileText(store.state))))
    {
      hide CallTool, StoreOk, FileText, InitializeResult, ListTools, TextResult;
      if meth == INITIALIZE {
        var r := HandleInitialize();
        result := Ok(r);
      } else if meth == PING {
        result := Ok(EMPTY);
      } else if meth == TOOLS_LIST {
        result := if initialized then Ok(ListTools()) else Err(NotInitialized());
      } else if meth == TOOLS_CALL {
        if !initialized {
          return Err(NotInitialized());
        }
        var p := if params.Obj? then params else EMPTY;
        var name := GetOrNull(p, "name");
        if !name.Str? || name.s == "" {
          return Err(InvalidParams("params.name must be a non-empty string", Null));
        }
        var ran := CallOn(name.s, ArgumentsOf(p), env, temp, fault);
        result := Outcome(ran);
      } else {
        result := Err(RpcError(METHOD_NOT_FOUND, "Method not found", Null));
      }
    }
  }
}
