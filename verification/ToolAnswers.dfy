/** What a tools/call answers, told by the arguments, the seed and the store alone. */
module ToolAnswers {
  import opened Prelude
  import opened JsonValues
  import opened JsonRpc
  import opened JsonText
  import opened TicketStore
  import opened StoreFile
  import opened Validation
  import opened NetopsCore
  import opened ToolCalls
  import opened Protocol
  import Conversation
  import Agents
  import opened ToolReadings
  import ToolStories

  // ----- from the handler to the model -----------------------------------------------------

  /** A tools/call on an initialized session: a result exactly when the handler gave a payload
      or a domain failure, marked as an error exactly for the failure, with the payload as
      its one text; everything else is a JSON-RPC error. The model sees it marked alike. */
  lemma CallIsReported(params: Json, name: string, arguments: Json, seed: Seed, env: Env, s: Server, use: Json)
    requires WellFormed(params) && params.Obj? && s.session.initialized && GetOrNull(params, "name") == Str(name) && name != ""
    requires if Has(params, "arguments") then arguments == GetOrNull(params, "arguments") else arguments == Obj([], map[])
    requires WellFormed(arguments)
    ensures var (ran, st') := CallTool(name, arguments, seed, env, s.store);
            var (r, s') := Dispatch("tools/call", params, seed, env, s);
            && s' == Server(s.session, st')
            && (r.Ok? <==> ran.Payload? || ran.Domain?)
            && (r.Ok? ==> Shows(r.value, "isError", Bool(ran.Domain?)) && IsOneText(r.value, Dumps(ran.payload, INDENTED)))
            && (ran.Bad? ==> r == Err(ran.error))
            && (ran.Unhandled? ==> r.Err? && r.error.code == -32603)
    ensures var ran := CallTool(name, arguments, seed, env, s.store).0;
            var r := Dispatch("tools/call", params, seed, env, s).0;
            (r.Ok? ==>
              Agents.ResultOf(use, Agents.Came(r.value)) == Some(Conversation.ToolResult(use, Dumps(ran.payload, INDENTED), ran.Domain?)))
  {
    hide WellFormed, CallTool, TextResult, Dumps, Agents.ResultOf, IsOneText, Shows;
    var ran := CallTool(name, arguments, seed, env, s.store).0;
    assert Dispatch("tools/call", params, seed, env, s).0 == Outcome(ran);
    if ran.Payload? {
      TextIsShown(ran.payload, false, use);
    } else if ran.Domain? {
      TextIsShown(ran.payload, true, use);
    }
  }

  /** The content is one text block. */
  ghost predicate IsOneText(result: Json, text: string) {
    exists block :: Shows(result, "content", Arr([block])) && Shows(block, "type", Str("text")) && Shows(block, "text", Str(text))
  }

  lemma TextIsShown(payload: Json, isError: bool, use: Json)
    ensures var r := TextResult(payload, isError);
            Shows(r, "isError", Bool(isError)) && IsOneText(r, Dumps(payload, INDENTED))
    ensures Agents.ResultOf(use, Agents.Came(TextResult(payload, isError)))
         == Some(Conversation.ToolResult(use, Dumps(payload, INDENTED), isError))
  {
    ToolStories.OutcomeReachesTheModel(use, payload, isError);
    ToolStories.TextShows(payload, isError);
    var values := [Str("text"), Str(Dumps(payload, INDENTED))];
    var block := Record(["type", "text"], values);
    RecordShows(["type", "text"], values);
    hide Record, TextResult, Dumps, Agents.ResultOf;
    assert Shows(block, ["type", "text"][0], values[0]) && Shows(block, ["type", "text"][1], values[1]);
    assert Shows(TextResult(payload, isError), "content", Arr([block]));
  }

  /** The method table. Anything that is no method of the server is -32601; a tools/call
      whose params hold no usable name is -32602; before the handshake both tools methods
      are -32600. */
  lemma MethodTable(meth: string, params: Json, seed: Seed, env: Env, s: Server)
    requires WellFormed(params)
    ensures var (r, s') := Dispatch(meth, params, seed, env, s);
            && (meth == "ping" ==> r == Ok(Obj([], map[])) && s' == s)
            && (meth == "initialize" ==> r == Ok(InitializeResult()) && s' == s.(session := Handshake(true, s.session.initialized)))
            && (meth == "tools/list" ==> s' == s && if s.session.initialized then r == Ok(ListTools()) else r.Err? && r.error.code == -32600)
            && (meth == "tools/call" && !s.session.initialized ==> r.Err? && r.error.code == -32600 && s' == s)
            && (meth == "tools/call" && s.session.initialized && !(exists name :: name != "" && Shows(params, "name", Str(name))) ==>
                  r.Err? && r.error.code == -32602 && s' == s)
            && (meth !in ["ping", "initialize", "tools/list", "tools/call"] ==> r.Err? && r.error.code == -32601 && s' == s)
  {
    hide WellFormed, CallTool, InitializeResult, ListTools, Outcome;
    if meth == "tools/call" && s.session.initialized {
      var name := GetOrNull(params, "name");
      if name.Str? && name.s != "" {
        assert Shows(params, "name", Str(name.s));
      }
    }
  }

  /** What initialize answers. */
  lemma InitializeShows()
    ensures var r := InitializeResult();
            && Shows(r, "protocolVersion", Str("2025-11-25"))
            && (exists tools :: Shows(r, "capabilities", Record(["tools"], [tools])) && Shows(tools, "listChanged", Bool(false)))
            && (exists info :: Shows(r, "serverInfo", info) && Shows(info, "name", Str("netops")) && Shows(info, "version", Str("1.0.0")))
  {
    var keys := ["protocolVersion", "capabilities", "serverInfo", "instructions"];
    var tools := Record(["listChanged"], [Bool(false)]);
    var info := Record(["name", "version"], [Str("netops"), Str("1.0.0")]);
    var values := [Str("2025-11-25"), Record(["tools"], [tools]), info, Str(INSTRUCTIONS)];
    RecordShows(keys, values);
    RecordShows(["listChanged"], [Bool(false)]);
    RecordShows(["name", "version"], [Str("netops"), Str("1.0.0")]);
    hide Record;
    assert Shows(InitializeResult(), keys[0], values[0]) && Shows(InitializeResult(), keys[1], values[1]) && Shows(InitializeResult(), keys[2], values[2]);
    assert Shows(tools, ["listChanged"][0], [Bool(false)][0]);
    assert Shows(info, ["name", "version"][0], Str("netops")) && Shows(info, ["name", "version"][1], Str("1.0.0"));
  }

  // ----- schedule_visit ----------------------------------------------------------------------

  /** The first ten characters of the clock. */
  predicate IsToday(env: Env, today: string) { today <= env.now && |today| == if |env.now| < 10 then |env.now| else 10 }

  predicate ScheduleAsks(args: Json, raw: string, date: string, window: string) {
    Shows(args, "ticket_id", Str(raw)) && Shows(args, "date", Str(date)) && Shows(args, "time_window", Str(window))
  }

  /** The clock reads a date, and the id in its normal form is an open ticket. */
  predicate CanSchedule(env: Env, st: StoreState, raw: string, today: string) {
    IsToday(env, today) && env.dateOf(today).Some? && env.norm(env.norm(raw)) == env.norm(raw) && env.norm(raw) in st.tickets
  }

  /** For an existing ticket the date alone decides: a real date that is not past is booked
      (and reported when the save succeeds), a past one is a domain failure, and what is no
      date is -32602. */
  lemma ScheduleIsDecidedByTheDate(env: Env, st: StoreState, args: Json, raw: string, date: string, window: string, today: string)
    requires ScheduleAsks(args, raw, date, window) && CanSchedule(env, st, raw, today)
    ensures var ran := HandleSchedule(env, st, args).0;
            var day, first := env.dateOf(date), env.dateOf(today).value;
            && (ran.Payload? <==> day.Some? && first <= day.value && !env.saveFails)
            && (ran.Unhandled? <==> day.Some? && first <= day.value && env.saveFails)
            && (ran.Domain? <==> day.Some? && day.value < first)
            && (ran.Bad? <==> day.None?)
  {
    assert Today(env) == today;
    hide Today, IsToday, Record, VisitJson, Scheduled, FieldData;
  }

  /** What is refused leaves the store as it was, and says why: the day from which on a visit
      can be had, or the field that is no date. */
  lemma RefusedVisit(env: Env, st: StoreState, args: Json, raw: string, date: string, window: string, today: string)
    requires ScheduleAsks(args, raw, date, window) && CanSchedule(env, st, raw, today)
    ensures var (ran, st') := HandleSchedule(env, st, args);
            && (ran.Domain? || ran.Bad? ==> st' == st)
            && (ran.Domain? ==>
                  Shows(ran.payload, "ticket_id", Str(env.norm(raw))) && Shows(ran.payload, "earliest", Str(today)) && Has(ran.payload, "error"))
            && (ran.Bad? ==> ran.error.code == -32602 && Shows(ran.error.data, "field", Str("date")))
  {
    assert Today(env) == today;
    var keys, values := ["error", "ticket_id", "earliest"], [Str("La fecha ya pasó."), Str(env.norm(raw)), Str(today)];
    RecordShows(keys, values);
    assert Shows(Record(keys, values), keys[0], values[0]) && Shows(Record(keys, values), keys[1], values[1])
        && Shows(Record(keys, values), keys[2], values[2]);
    hide Today, IsToday, Record, VisitJson, Scheduled;
  }

  /** A booked visit is the one asked for, on this ticket; no other ticket or visit is
      touched, and a visit that was there is replaced and said to be. */
  lemma BookedVisit(env: Env, st: StoreState, args: Json, raw: string, date: string, window: string, today: string)
    requires ScheduleAsks(args, raw, date, window) && CanSchedule(env, st, raw, today)
    requires env.dateOf(date).Some? && env.dateOf(today).value <= env.dateOf(date).value
    ensures var (ran, st') := HandleSchedule(env, st, args);
            var id := env.norm(raw);
            && id in st'.visits && st'.visits[id] == Visit(id, st.tickets[id].accountId, date, window, "scheduled", env.now)
            && st'.visits - {id} == st.visits - {id} && st'.tickets - {id} == st.tickets - {id} && st'.counter == st.counter
            && IsScheduledNow(st.tickets[id], st'.tickets[id], date, window, env.now)
    ensures var (ran, st') := HandleSchedule(env, st, args);
            ran.Payload? ==>
              && Shows(ran.payload, "ticket_id", Str(env.norm(raw))) && Shows(ran.payload, "date", Str(date))
              && Shows(ran.payload, "time_window", Str(window)) && Shows(ran.payload, "status", Str("scheduled"))
              && Shows(ran.payload, "rescheduled", Bool(env.norm(raw) in st.visits))
  {
    var id := env.norm(raw);
    ScheduleBooks(env, st, args, raw, date, window, today);
    ScheduledShows(st, id, date, window, env.now);
    VisitShows(Scheduled(st, id, date, window, env.now).visits[id], id in st.visits);
    hide HandleSchedule, VisitJson, Scheduled, Shows, IsScheduledNow, ScheduleAsks, IsToday;
  }

  lemma ScheduleBooks(env: Env, st: StoreState, args: Json, raw: string, date: string, window: string, today: string)
    requires ScheduleAsks(args, raw, date, window) && CanSchedule(env, st, raw, today)
    requires env.dateOf(date).Some? && env.dateOf(today).value <= env.dateOf(date).value
    ensures var st' := Scheduled(st, env.norm(raw), date, window, env.now);
            && env.norm(raw) in st'.visits
            && HandleSchedule(env, st, args)
               == (if env.saveFails then Unhandled else Payload(Put(VisitJson(st'.visits[env.norm(raw)]), "rescheduled", Bool(env.norm(raw) in st.visits))), st')
  {
    assert Today(env) == today;
    AsksAreRead(args, raw, date, window);
    hide Today, IsToday, Record, VisitJson, StrArg, ScheduleAsks;
  }

  lemma AsksAreRead(args: Json, raw: string, date: string, window: string)
    requires ScheduleAsks(args, raw, date, window)
    ensures StrArg(args, TICKET_ID) == Some(raw) && StrArg(args, DATE) == Some(date) && StrArg(args, TIME_WINDOW) == Some(window)
  {
  }

  /** The same ticket, scheduled, with one more entry in its history. */
  predicate IsScheduledNow(t: Ticket, u: Ticket, date: string, window: string, now: string) {
    && u == t.(status := "scheduled", updatedAt := now, history := u.history)
    && |u.history| == |t.history| + 1 && t.history <= u.history
    && u.history[|t.history|] == Entry(now, "scheduled", "Visita técnica agendada para " + date + " en la ventana " + window)
  }

  lemma ScheduledShows(st: StoreState, id: string, date: string, window: string, now: string)
    requires id in st.tickets
    ensures var st' := Scheduled(st, id, date, window, now);
            && id in st'.visits && id in st'.tickets
            && st'.visits[id] == Visit(id, st.tickets[id].accountId, date, window, "scheduled", now)
            && st'.visits - {id} == st.visits - {id} && st'.tickets - {id} == st.tickets - {id} && st'.counter == st.counter
            && IsScheduledNow(st.tickets[id], st'.tickets[id], date, window, now)
  {
  }

  lemma VisitShows(v: Visit, already: bool)
    ensures var p := Put(VisitJson(v), "rescheduled", Bool(already));
            && Shows(p, "ticket_id", Str(v.ticketId)) && Shows(p, "date", Str(v.date)) && Shows(p, "time_window", Str(v.timeWindow))
            && Shows(p, "status", Str(v.status)) && Shows(p, "rescheduled", Bool(already))
  {
    FieldsAreDistinct();
    RecordShows(VISIT_FIELDS, VisitValues(v));
    assert Shows(VisitJson(v), VISIT_FIELDS[0], VisitValues(v)[0]) && Shows(VisitJson(v), VISIT_FIELDS[2], VisitValues(v)[2]);
    assert Shows(VisitJson(v), VISIT_FIELDS[3], VisitValues(v)[3]) && Shows(VisitJson(v), VISIT_FIELDS[4], VisitValues(v)[4]);
    hide Zip;
  }

  /** An unknown ticket is a domain failure whatever the date, and nothing is booked. */
  lemma NoTicketNoVisit(env: Env, st: StoreState, args: Json, raw: string)
    requires Shows(args, "ticket_id", Str(raw)) && env.norm(env.norm(raw)) !in st.tickets
    ensures var (ran, st') := HandleSchedule(env, st, args);
            IsFailure(ran, "ticket_id", env.norm(raw)) && st' == st
  {
    FailureHolds("ticket_id", "No existe el ticket.", env.norm(raw));
    hide Record, IsFailure;
  }
}
