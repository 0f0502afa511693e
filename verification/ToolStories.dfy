/** What the tools promise each other and the model that calls them. */
module ToolStories {
  import opened Prelude
  import opened JsonValues
  import opened JsonRpc
  import opened JsonText
  import opened TicketStore
  import opened StoreFile
  import opened Validation
  import opened NetopsCore
  import opened ToolCalls
  import opened Protocol
  import Conversation
  import Agents

  // ----- the seed ------------------------------------------------------------------------

  /** The last account in the list for which the key is this one. */
  ghost predicate IsLastWith(list: seq<Account>, key: Account -> string, k: string, a: Account) {
    exists i :: 0 <= i < |list| && list[i] == a && key(list[i]) == k && forall j :: i < j < |list| ==> key(list[j]) != k
  }

  ghost predicate Indexes(table: map<string, Account>, list: seq<Account>, key: Account -> string) {
    && (forall i :: 0 <= i < |list| ==> key(list[i]) in table)
    && forall k :: k in table ==> IsLastWith(list, key, k, table[k])
  }

  lemma NowLast(list: seq<Account>, key: Account -> string, n: nat)
    requires n < |list|
    ensures IsLastWith(list[..n + 1], key, key(list[n]), list[n])
  {
    assert list[..n + 1][n] == list[n];
  }

  lemma StillLast(list: seq<Account>, key: Account -> string, n: nat, k: string, a: Account)
    requires n < |list| && IsLastWith(list[..n], key, k, a) && key(list[n]) != k
    ensures IsLastWith(list[..n + 1], key, k, a)
  {
    var before, after := list[..n], list[..n + 1];
    var i :| 0 <= i < n && before[i] == a && key(before[i]) == k && forall j :: i < j < n ==> key(before[j]) != k;
    forall j | i < j < n + 1 ensures key(after[j]) != k {
      if j < n { assert after[j] == before[j]; }
    }
    assert after[i] == a;
  }

  lemma IndexOneMore(table: map<string, Account>, list: seq<Account>, key: Account -> string, n: nat)
    requires n < |list| && Indexes(table, list[..n], key)
    ensures Indexes(table[key(list[n]) := list[n]], list[..n + 1], key)
  {
    hide IsLastWith;
    var table' := table[key(list[n]) := list[n]];
    NowLast(list, key, n);
    forall k | k in table' ensures IsLastWith(list[..n + 1], key, k, table'[k]) {
      if k != key(list[n]) {
        StillLast(list, key, n, k, table[k]);
      }
    }
    var before, after := list[..n], list[..n + 1];
    forall i | 0 <= i < |after| ensures key(after[i]) in table' {
      if i < n { assert after[i] == before[i]; }
    }
  }

  /** _load_seed: both tables index the accounts, the last one winning. */
  method LoadSeed(list: seq<Account>, digits: string -> string)
    returns (accounts: map<string, Account>, byPhone: map<string, Account>)
    ensures Indexes(accounts, list, (a: Account) => a.accountId)
    ensures Indexes(byPhone, list, (a: Account) => digits(a.phone))
  {
    accounts, byPhone := map[], map[];
    ghost var byId, byNumber := (a: Account) => a.accountId, (a: Account) => digits(a.phone);
    for n := 0 to |list|
      invariant Indexes(accounts, list[..n], byId) && Indexes(byPhone, list[..n], byNumber)
    {
      IndexOneMore(accounts, list, byId, n);
      IndexOneMore(byPhone, list, byNumber, n);
      hide Indexes;
      accounts := accounts[list[n].accountId := list[n]];
      byPhone := byPhone[digits(list[n].phone) := list[n]];
    }
    assert list[..|list|] == list;
  }

  /** lookup_account shows an account of the seed, and the one that was asked for: by id in
      any spelling, or by a phone with the same digits. */
  lemma LookupFindsWhatWasAsked(seed: Seed, env: Env, args: Json, list: seq<Account>, name: string, asked: string)
    requires Indexes(seed.accounts, list, (a: Account) => a.accountId)
    requires Indexes(seed.byPhone, list, (a: Account) => env.digits(a.phone))
    requires RequireOneOf(args, [ACCOUNT_ID, PHONE]) == Ok(name) && StrArg(args, name) == Some(asked)
    requires HandleLookup(seed, env, args).Payload?
    ensures name == ACCOUNT_ID || name == PHONE
    ensures exists i :: 0 <= i < |list| && HandleLookup(seed, env, args).payload == AccountView(list[i])
              && (if name == ACCOUNT_ID then list[i].accountId == env.norm(asked) else env.digits(list[i].phone) == env.digits(asked))
  {
    RequireOneOfIsExclusive(args, ACCOUNT_ID, PHONE);
    hide RequireOneOf, AccountView, StrArg, Record;
    if name == ACCOUNT_ID {
      assert IsLastWith(list, (a: Account) => a.accountId, env.norm(asked), seed.accounts[env.norm(asked)]);
    } else {
      assert IsLastWith(list, (a: Account) => env.digits(a.phone), env.digits(asked), seed.byPhone[env.digits(asked)]);
    }
  }

  // ----- outages --------------------------------------------------------------------------

  predicate Concerns(o: Outage, region: Option<string>, activeOnly: bool) {
    (region.Some? ==> o.region == region.value) && (activeOnly ==> o.status == "active")
  }

  /** find_outages keeps exactly the outages of the region and state asked for. */
  lemma {:induction false} MatchingIsExact(outages: seq<Outage>, region: Option<string>, activeOnly: bool)
    ensures forall o :: o in Matching(outages, region, activeOnly) <==> o in outages && Concerns(o, region, activeOnly)
  {
    if outages != [] {
      MatchingIsExact(outages[1..], region, activeOnly);
      assert forall o :: o in outages <==> o == outages[0] || o in outages[1..];
      assert Concerns(outages[0], region, activeOnly) <==>
        (region.Some? ==> outages[0].region == region.value) && (activeOnly ==> outages[0].status == "active");
      hide Concerns;
    }
  }

  /** An outage a service check reports is one that list_outages lists for the account's
      region, and it is active. */
  lemma ReportedOutageIsListed(seed: Seed, env: Env, a: Account)
    requires ActiveOutageFor(seed, env, a).Some?
    ensures var o := ActiveOutageFor(seed, env, a).value;
            && o in FindOutages(seed, env, a.region, true) && o in seed.outages && o.status == "active"
            && (a.region != "" ==> o.region == env.lower(a.region))
  {
    MatchingIsExact(seed.outages, if a.region == "" then None else Some(env.lower(a.region)), true);
  }

  /** check_service_status and run_diagnostic name the same cause. */
  lemma StatusAndDiagnosticAgree(seed: Seed, env: Env, a: Account)
    ensures var reason, cause := LinkState(seed, env, a).1, Cause(seed, env, a);
            && (reason == "administrative_suspension" ==>
                  cause == "Servicio suspendido administrativamente; no es una falla técnica.")
            && (reason == "pending_installation" ==>
                  cause == "La instalación está pendiente; todavía no hay enlace que medir.")
  {
    hide ActiveOutageFor, LinkMetrics;
  }

  lemma StatusAndDiagnosticAgreeOnTheLine(seed: Seed, env: Env, a: Account)
    ensures var reason, cause := LinkState(seed, env, a).1, Cause(seed, env, a);
            && (reason == "mass_outage" ==>
                  var o := ActiveOutageFor(seed, env, a);
                  o.Some? && cause == "Incidencia masiva " + o.value.outageId + " en la región: " + o.value.cause + ".")
            && (reason == "packet_loss" ==>
                  cause == "Pérdida de paquetes elevada; probable degradación en el último tramo.")
  {
    hide ActiveOutageFor, LinkMetrics;
  }

  // ----- tickets ----------------------------------------------------------------------------

  const OPEN_KEYS := ["ticket_id", "status", "account_id", "category", "priority", "created_at"]

  /** What open_ticket answers is what the store now holds. */
  lemma OpenAnswersTheTicket(seed: Seed, env: Env, st: StoreState, args: Json)
    requires HandleOpenTicket(seed, env, st, args).0.Payload?
    ensures var (ran, st1) := HandleOpenTicket(seed, env, st, args);
            var id := TicketId(st.counter + 1);
            && id in st1.tickets
            && GetOrNull(ran.payload, "ticket_id") == Str(id)
            && GetOrNull(ran.payload, "status") == Str(st1.tickets[id].status)
            && GetOrNull(ran.payload, "account_id") == Str(st1.tickets[id].accountId)
            && GetOrNull(ran.payload, "category") == Str(st1.tickets[id].category)
            && GetOrNull(ran.payload, "priority") == Str(st1.tickets[id].priority)
            && GetOrNull(ran.payload, "created_at") == Str(st1.tickets[id].createdAt)
            && st1.tickets[id].category == StrArg(args, CATEGORY).value
            && st1.tickets[id].description == StrArg(args, DESCRIPTION).value
            && st1.tickets[id].priority == (if Has(args, PRIORITY) then StrArg(args, PRIORITY).value else "normal")
  {
    var a := seed.accounts[env.norm(StrArg(args, ACCOUNT_ID).value)];
    var priority := if Has(args, PRIORITY) then StrArg(args, PRIORITY).value else "normal";
    var id := TicketId(st.counter + 1);
    var values := [Str(id), Str(OPEN), Str(a.accountId), Str(StrArg(args, CATEGORY).value), Str(priority), Str(env.now)];
    hide Zip, Record, TicketId, StrArg, GetOrNull;
    OpenFields(values);
    assert HandleOpenTicket(seed, env, st, args).0.payload == Record(OPEN_KEYS, values);
    assert HandleOpenTicket(seed, env, st, args).1.tickets[id]
        == NewTicket(id, a.accountId, StrArg(args, CATEGORY).value, StrArg(args, DESCRIPTION).value, priority, env.now);
  }

  lemma OpenFields(values: seq<Json>)
    requires |values| == 6
    ensures GetOrNull(Record(OPEN_KEYS, values), "ticket_id") == values[0] && GetOrNull(Record(OPEN_KEYS, values), "status") == values[1]
    ensures GetOrNull(Record(OPEN_KEYS, values), "account_id") == values[2] && GetOrNull(Record(OPEN_KEYS, values), "category") == values[3]
    ensures GetOrNull(Record(OPEN_KEYS, values), "priority") == values[4] && GetOrNull(Record(OPEN_KEYS, values), "created_at") == values[5]
  {
    assert Distinct(OPEN_KEYS);
    RecordAt(OPEN_KEYS, values, 0);
    RecordAt(OPEN_KEYS, values, 1);
    RecordAt(OPEN_KEYS, values, 2);
    RecordAt(OPEN_KEYS, values, 3);
    RecordAt(OPEN_KEYS, values, 4);
    RecordAt(OPEN_KEYS, values, 5);
    hide Zip, GetOrNull, Record;
  }

  lemma TicketShows(t: Ticket)
    ensures GetOrNull(TicketJson(t), "ticket_id") == Str(t.ticketId) && GetOrNull(TicketJson(t), "status") == Str(t.status)
    ensures !Has(TicketJson(t), "visit") && TicketJson(t).Obj?
  {
    FieldsAreDistinct();
    RecordAt(TICKET_FIELDS, TicketValues(t), 0);
    RecordAt(TICKET_FIELDS, TicketValues(t), 5);
    RecordLacks(TICKET_FIELDS, TicketValues(t), "visit");
    hide Zip;
  }

  /** get_ticket shows a visit exactly when the ticket it shows is scheduled. */
  lemma TicketShowsItsVisit(env: Env, st: StoreState, args: Json)
    requires StoreOk(st) && HandleGetTicket(env, st, args).Payload?
    ensures var p := HandleGetTicket(env, st, args).payload;
            && GetOrNull(p, "ticket_id") == Str(env.norm(env.norm(StrArg(args, TICKET_ID).value)))
            && (Has(p, "visit") <==> GetOrNull(p, "status") == Str(SCHEDULED))
  {
    hide StoreOk, TicketJson, VisitJson, StrArg;
    var key := env.norm(env.norm(StrArg(args, TICKET_ID).value));
    StoredTicket(st, key);
    TicketShows(st.tickets[key]);
  }

  lemma StoredTicket(st: StoreState, id: string)
    requires StoreOk(st) && id in st.tickets
    ensures st.tickets[id].ticketId == id && (id in st.visits <==> st.tickets[id].status == SCHEDULED)
  {
    assert TicketOk(id, st.tickets[id]);
    hide IdsOk, SCHEDULED;
  }

  // ----- the table of tools -------------------------------------------------------------------

  lemma DescriptorShows(t: Tool)
    requires |t.args| == |t.props|
    ensures GetOrNull(Descriptor(t), "name") == Str(t.name) && GetOrNull(Descriptor(t), "inputSchema") == InputSchema(t)
  {
    RecordAt(["name", "inputSchema"], [Str(t.name), InputSchema(t)], 0);
    RecordAt(["name", "inputSchema"], [Str(t.name), InputSchema(t)], 1);
    hide InputSchema, Zip;
  }

  lemma NamesAreDistinct(s: Tool, t: Tool)
    requires s in TOOLS && t in TOOLS && s.name == t.name
    ensures s == t
  {
  }

  function Listed(): (r: seq<Json>)
    ensures |r| == |TOOLS|
  {
    Descriptors(TOOLS)
  }

  lemma ListShows()
    ensures GetOrNull(ListTools(), "tools") == Arr(Listed())
  {
    RecordAt(["tools"], [Arr(Descriptors(TOOLS))], 0);
    hide Zip, Descriptors;
  }

  lemma ListedAt(i: nat)
    requires i < |TOOLS|
    ensures ToolOk(TOOLS[i]) && GetOrNull(Listed()[i], "inputSchema") == InputSchema(TOOLS[i])
    ensures GetOrNull(Listed()[i], "name") == Str(TOOLS[i].name)
  {
    ToolsAreOk(TOOLS[i]);
    DescriptorShows(TOOLS[i]);
    hide Descriptor, InputSchema, ToolOk, GetOrNull;
  }

  /** tools/list advertises exactly the names tools/call knows. */
  lemma ListedIffCallable(name: string)
    ensures GetOrNull(ListTools(), "tools") == Arr(Listed())
    ensures FindTool(TOOLS, name).Some? <==> exists i :: 0 <= i < |TOOLS| && GetOrNull(Listed()[i], "name") == Str(name)
  {
    ListShows();
    hide FindTool, Listed, GetOrNull;
    forall i | 0 <= i < |TOOLS| ensures GetOrNull(Listed()[i], "name") == Str(TOOLS[i].name) { ListedAt(i); }
    if FindTool(TOOLS, name).Some? {
      var k :| 0 <= k < |TOOLS| && TOOLS[k] == FindTool(TOOLS, name).value;
      assert GetOrNull(Listed()[k], "name") == Str(name);
    }
  }

  /** A call is judged by the very schema that is advertised for its name. */
  lemma CallsMeetTheListedSchema(i: nat, arguments: Json, seed: Seed, env: Env, st: StoreState)
    requires i < |TOOLS| && WellFormed(arguments)
    ensures var schema := GetOrNull(Listed()[i], "inputSchema");
            SchemaOk(schema) && Has(schema, "properties") && schema.vals["properties"].Obj?
    ensures var schema := GetOrNull(Listed()[i], "inputSchema");
            var valid := ValidateArguments(arguments, schema, env.matches);
            CallTool(TOOLS[i].name, arguments, seed, env, st)
            == if valid.Err? then (Bad(valid.error), st) else NetopsCore.Handle(TOOLS[i].name, seed, env, st, valid.value)
  {
    ListedAt(i);
    SchemaIsOk(TOOLS[i]);
    NamesAreDistinct(FindTool(TOOLS, TOOLS[i].name).value, TOOLS[i]);
    hide Listed, InputSchema, SchemaOk, NetopsCore.Handle, ValidateArguments, FindTool, ToolOk, Available, GetOrNull;
  }

  // ----- up to the model ------------------------------------------------------------------------

  lemma TextShows(payload: Json, isError: bool)
    ensures var r := TextResult(payload, isError);
            && r.Obj? && GetOrNull(r, "isError") == Bool(isError) && Has(r, "content")
            && r.vals["content"] == Arr([Record(["type", "text"], [Str("text"), Str(Dumps(payload, INDENTED))])])
  {
    var block := Record(["type", "text"], [Str("text"), Str(Dumps(payload, INDENTED))]);
    RecordAt(["content", "isError"], [Arr([block]), Bool(isError)], 0);
    RecordAt(["content", "isError"], [Arr([block]), Bool(isError)], 1);
    hide Zip, Dumps;
  }

  /** A handler's payload reaches the model as text, and as an error exactly when it was a
      domain failure; a protocol rejection reaches it as an error too. */
  lemma OutcomeReachesTheModel(id: Json, payload: Json, isError: bool)
    ensures Agents.ResultOf(id, Agents.Came(TextResult(payload, isError)))
         == Some(Conversation.ToolResult(id, Dumps(payload, INDENTED), isError))
  {
    var text := Dumps(payload, INDENTED);
    var block := Record(["type", "text"], [Str("text"), Str(text)]);
    hide Zip, Dumps, Record, TextResult;
    TextShows(payload, isError);
    RecordAt(["type", "text"], [Str("text"), Str(text)], 0);
    RecordAt(["type", "text"], [Str("text"), Str(text)], 1);
    assert Agents.PartOf(block) == Some(text);
    assert [block][1..] == [];
    assert Agents.PartsOf([block]) == Some([text] + []);
    assert [text] + [] == [text];
    assert Agents.Flatten(Arr([block])) == Some(text);
  }
}
