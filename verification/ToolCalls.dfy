/** core.dispatch: a tool call validates, runs, and is wrapped. */
module ToolCalls {
  import opened Prelude
  import opened JsonValues
  import opened JsonRpc
  import JsonText
  import opened TicketStore
  import opened StoreFile
  import opened Validation
  import opened NetopsCore

  // ----- reading a record --------------------------------------------------------

  lemma RecordAt(keys: seq<string>, values: seq<Json>, i: nat)
    requires |keys| == |values| && Distinct(keys) && i < |keys|
    ensures Has(Record(keys, values), keys[i]) && GetOrNull(Record(keys, values), keys[i]) == values[i]
  {
    ZipAt(keys, values);
  }

  lemma RecordLacks(keys: seq<string>, values: seq<Json>, key: string)
    requires |keys| == |values| && Distinct(keys) && key !in keys
    ensures !Has(Record(keys, values), key)
  {
    ZipAt(keys, values);
  }

  // ----- the schemas are what the validator relies on ----------------------------------

  ghost predicate ToolOk(t: Tool) {
    && |t.args| == |t.props| && Distinct(t.args)
    && forall name :: name in t.required ==> name in t.args
  }

  lemma ToolsAreOk(t: Tool)
    requires t in TOOLS
    ensures ToolOk(t)
  {
  }

  /** A property's schema has a type, and no keyword that nests. */
  lemma PropSchema(p: Prop)
    ensures PropJson(p).Obj? && GetOrNull(PropJson(p), "type") == Str(if p.Flag? then "boolean" else "string")
    ensures !Has(PropJson(p), "required") && !Has(PropJson(p), "items") && !Has(PropJson(p), "properties")
    ensures Has(PropJson(p), "enum") ==> PropJson(p).vals["enum"].Arr?
  {
    var keys, values := PropKeys(p), PropValues(p);
    assert values[0] == Str(if p.Flag? then "boolean" else "string") && (p.Choice? ==> |keys| == 2 && keys[1] == "enum" && values[1].Arr?);
    assert !p.Choice? ==> "enum" !in keys;
    hide PropKeys, PropValues, Zip;
    RecordAt(keys, values, 0);
    RecordLacks(keys, values, "required");
    RecordLacks(keys, values, "items");
    RecordLacks(keys, values, "properties");
    if p.Choice? {
      RecordAt(keys, values, 1);
    } else {
      RecordLacks(keys, values, "enum");
    }
  }

  lemma PropSchemaOk(p: Prop)
    ensures SchemaOk(PropJson(p))
  {
    PropSchema(p);
    hide PropJson;
  }

  /** What the tool's schema says, read back from its JSON. */
  lemma ToolSchema(t: Tool)
    requires ToolOk(t)
    ensures var s := InputSchema(t);
            && s.Obj? && Has(s, "properties") && s.vals["properties"] == Record(t.args, PropsJson(t.props))
            && Required(s) == Strs(t.required) && !Closed(s) && !Has(s, "enum") && !Has(s, "items")
            && (Has(s, "required") ==> s.vals["required"].Arr?)
  {
    var keys, values := SchemaKeys(t), SchemaValues(t);
    assert values[1] == Record(t.args, PropsJson(t.props)) && (t.required != [] ==> values[2] == Arr(Strs(t.required)));
    hide SchemaKeys, SchemaValues, Zip;
    RecordAt(keys, values, 1);
    RecordLacks(keys, values, "enum");
    RecordLacks(keys, values, "items");
    RecordLacks(keys, values, "additionalProperties");
    if t.required != [] {
      RecordAt(keys, values, 2);
    } else {
      RecordLacks(keys, values, "required");
      assert Strs(t.required) == [];
    }
  }

  /** The property schema of an argument, by name. */
  lemma PropAt(t: Tool, i: nat)
    requires ToolOk(t) && i < |t.args|
    ensures GetOrNull(Properties(InputSchema(t)), t.args[i]) == PropJson(t.props[i])
  {
    ToolSchema(t);
    RecordAt(t.args, PropsJson(t.props), i);
    hide InputSchema, Record, PropJson;
  }

  lemma PropsAreOk(keys: seq<string>, props: seq<Prop>)
    requires |keys| == |props| && Distinct(keys)
    ensures forall name :: name in Zip(keys, PropsJson(props)) ==> SchemaOk(Zip(keys, PropsJson(props))[name])
  {
    ZipAt(keys, PropsJson(props));
    var vals := Zip(keys, PropsJson(props));
    hide PropJson, Zip, SchemaOk, Distinct;
    forall name | name in vals ensures SchemaOk(vals[name]) {
      var i :| 0 <= i < |keys| && keys[i] == name;
      PropSchemaOk(props[i]);
    }
  }

  lemma NestedOk(s: Json)
    requires Has(s, "properties") && s.vals["properties"].Obj?
    requires forall name :: name in s.vals["properties"].vals ==> SchemaOk(s.vals["properties"].vals[name])
    requires !Has(s, "enum") && !Has(s, "items") && (Has(s, "required") ==> s.vals["required"].Arr?)
    requires forall i :: 0 <= i < |Required(s)| ==> Required(s)[i].Str?
    ensures SchemaOk(s)
  {
  }

  lemma SchemaIsOk(t: Tool)
    requires ToolOk(t)
    ensures SchemaOk(InputSchema(t)) && Has(InputSchema(t), "properties") && InputSchema(t).vals["properties"].Obj?
  {
    var s := InputSchema(t);
    ToolSchema(t);
    PropsAreOk(t.args, t.props);
    assert s.vals["properties"].vals == Zip(t.args, PropsJson(t.props));
    hide InputSchema, PropJson, Zip, SchemaOk, ToolOk, PropsJson;
    NestedOk(s);
  }

  // ----- one call -------------------------------------------------------------------------

  function ToolNames(tools: seq<Tool>): seq<string> {
    if tools == [] then [] else [tools[0].name] + ToolNames(tools[1..])
  }

  /** a <= b on strings, by code points. */
  predicate Upto(a: string, b: string) {
    a == "" || (b != "" && (a[0] < b[0] || (a[0] == b[0] && Upto(a[1..], b[1..]))))
  }

  ghost predicate Ascending(names: seq<string>) {
    forall i, j :: 0 <= i < j < |names| ==> Upto(names[i], names[j])
  }

  function Insert(name: string, names: seq<string>): seq<string> {
    if names == [] || Upto(name, names[0]) then [name] + names else [names[0]] + Insert(name, names[1..])
  }

  /** sorted(names) */
  function Sorted(names: seq<string>): seq<string> {
    if names == [] then [] else Insert(names[0], Sorted(names[1..]))
  }

  /** sorted(TOOLS_BY_NAME) */
  function Available(): seq<string> { Sorted(ToolNames(TOOLS)) }

  /** core.dispatch, before the result is wrapped. */
  function CallTool(name: string, arguments: Json, seed: Seed, env: Env, st: StoreState): (Ran, StoreState)
    requires WellFormed(arguments)
  {
    match FindTool(TOOLS, name)
    case None => (Bad(InvalidParams("unknown tool", Record(["available"], [Arr(Strs(Available()))]))), st)
    case Some(t) =>
      ToolsAreOk(t);
      SchemaIsOk(t);
      match ValidateArguments(arguments, InputSchema(t), env.matches)
      case Err(e) => (Bad(e), st)
      case Ok(args) => Handle(name, seed, env, st, args)
  }

  /** _text_result */
  function TextResult(payload: Json, isError: bool): Json {
    Record(["content", "isError"],
           [Arr([Record(["type", "text"], [Str("text"), Str(JsonText.Dumps(payload, JsonText.INDENTED))])]), Bool(isError)])
  }

  // ----- the names an unknown tool is answered with ----------------------------------------

  lemma {:induction false} UptoIsTotal(a: string, b: string)
    ensures Upto(a, b) || Upto(b, a)
  {
    if a != "" && b != "" && a[0] == b[0] {
      UptoIsTotal(a[1..], b[1..]);
    }
  }

  lemma {:induction false} UptoChains(a: string, b: string, c: string)
    requires Upto(a, b) && Upto(b, c)
    ensures Upto(a, c)
  {
    if a != "" && a[0] == b[0] == c[0] {
      UptoChains(a[1..], b[1..], c[1..]);
    }
  }

  lemma {:induction false} InsertKeeps(name: string, names: seq<string>)
    requires Ascending(names)
    ensures multiset(Insert(name, names)) == multiset(names) + multiset{name} && Ascending(Insert(name, names))
  {
    hide Upto;
    if names != [] {
      UptoIsTotal(name, names[0]);
      assert names == [names[0]] + names[1..];
      if Upto(name, names[0]) {
        forall j | 0 <= j < |names| ensures Upto(name, names[j]) { if j > 0 { UptoChains(name, names[0], names[j]); } }
      } else {
        var rest := Insert(name, names[1..]);
        InsertKeeps(name, names[1..]);
        forall j | 0 <= j < |rest| ensures Upto(names[0], rest[j]) { assert rest[j] in multiset(rest); }
      }
    }
  }

  /** sorted() lists what it was given, each as often, in ascending order. */
  lemma {:induction false} SortedSorts(names: seq<string>)
    ensures multiset(Sorted(names)) == multiset(names) && Ascending(Sorted(names))
  {
    if names != [] {
      assert names == [names[0]] + names[1..];
      SortedSorts(names[1..]);
      InsertKeeps(names[0], Sorted(names[1..]));
    }
    hide Insert, Ascending;
  }

  lemma {:induction false} NamesFound(tools: seq<Tool>, name: string)
    ensures name in ToolNames(tools) <==> FindTool(tools, name).Some?
  {
    if tools != [] {
      NamesFound(tools[1..], name);
    }
  }

  /** A call of an unknown tool is refused with -32602 and the names that would have been
      found, all of them and no other, in ascending order; the store is untouched. */
  lemma UnknownToolIsToldWhichThereAre(name: string, arguments: Json, seed: Seed, env: Env, st: StoreState)
    requires WellFormed(arguments) && FindTool(TOOLS, name).None?
    ensures Ascending(Available()) && forall other :: other in Available() <==> FindTool(TOOLS, other).Some?
    ensures var (ran, st') := CallTool(name, arguments, seed, env, st);
            && st' == st && ran.Bad? && ran.error.code == INVALID_PARAMS
            && GetOrNull(ran.error.data, "available") == Arr(Strs(Available()))
  {
    SortedSorts(ToolNames(TOOLS));
    hide Sorted, Handle, InputSchema, ValidateArguments;
    forall other ensures other in Available() <==> FindTool(TOOLS, other).Some? {
      NamesFound(TOOLS, other);
      assert other in multiset(Available()) <==> other in multiset(ToolNames(TOOLS));
    }
  }

  // ----- a call never ends in an internal error ------------------------------------------

  /** The clock reads a date, the disk takes the save, and normalising twice is
      normalising once. */
  ghost predicate EnvOk(env: Env) {
    && !env.saveFails && env.dateOf(Today(env)).Some?
    && forall s :: env.norm(env.norm(s)) == env.norm(s)
  }

  /** No seed plan has speed zero: the speed test divides by it. */
  ghost predicate SeedOk(seed: Seed) {
    forall id :: id in seed.accounts ==> seed.accounts[id].planSpeedMbps != 0
  }

  /** The call ends in a result or in -32602. */
  predicate Handled(r: Ran) { !r.Unhandled? && (r.Bad? ==> r.error.code == INVALID_PARAMS) }

  lemma ArgIsTyped(t: Tool, args: Json, i: nat, m: Matcher)
    requires ToolOk(t) && i < |t.args| && args.Obj? && ConformsObject(args, InputSchema(t), m)
    ensures t.args[i] in t.required ==> Has(args, t.args[i])
    ensures Has(args, t.args[i]) && !t.props[i].Flag? ==> StrArg(args, t.args[i]).Some?
  {
    ToolSchema(t);
    PropAt(t, i);
    PropSchema(t.props[i]);
    hide InputSchema, PropJson, EnumOk, MinLengthOk, MaxLengthOk, PatternOk, MinimumOk, MaximumOk, Properties, Required, Closed;
    var name := t.args[i];
    if name in t.required {
      var j :| 0 <= j < |t.required| && t.required[j] == name;
      assert Required(InputSchema(t))[j] == Str(name);
    }
    if Has(args, name) && !t.props[i].Flag? {
      assert Conforms(args.vals[name], PropJson(t.props[i]), m);
      assert TypeOk(args.vals[name], PropJson(t.props[i]));
    }
  }

  lemma LookupIsHandled(seed: Seed, env: Env, args: Json)
    requires args.Obj? && ConformsObject(args, InputSchema(LOOKUP), env.matches)
    ensures Handled(HandleLookup(seed, env, args))
  {
    ToolsAreOk(LOOKUP);
    ArgIsTyped(LOOKUP, args, 0, env.matches);
    ArgIsTyped(LOOKUP, args, 1, env.matches);
    RequireOneOfIsExclusive(args, ACCOUNT_ID, PHONE);
    hide InputSchema, ConformsObject, RequireOneOf, AccountView, Record;
  }

  lemma StatusIsHandled(seed: Seed, env: Env, args: Json)
    requires args.Obj? && ConformsObject(args, InputSchema(STATUS), env.matches)
    ensures Handled(HandleStatus(seed, env, args))
  {
    ToolsAreOk(STATUS);
    ArgIsTyped(STATUS, args, 0, env.matches);
    hide InputSchema, ConformsObject, Record, LinkState, LinkMetrics, MetricsJson, ActiveOutageFor;
  }

  lemma OutagesAreHandled(seed: Seed, env: Env, args: Json)
    requires args.Obj? && ConformsObject(args, InputSchema(OUTAGES), env.matches)
    ensures Handled(HandleOutages(seed, env, args))
  {
    ToolsAreOk(OUTAGES);
    ArgIsTyped(OUTAGES, args, 0, env.matches);
    hide InputSchema, ConformsObject, Record, FindOutages;
  }

  lemma DiagnosticArgs(args: Json, m: Matcher)
    requires args.Obj? && ConformsObject(args, InputSchema(DIAGNOSTIC), m)
    ensures StrArg(args, ACCOUNT_ID).Some? && StrArg(args, TEST_TYPE).Some?
  {
    ToolsAreOk(DIAGNOSTIC);
    ArgIsTyped(DIAGNOSTIC, args, 0, m);
    ArgIsTyped(DIAGNOSTIC, args, 1, m);
    hide InputSchema, ConformsObject, ToolOk, GetOrNull;
  }

  lemma DiagnosticIsHandled(seed: Seed, env: Env, args: Json)
    requires args.Obj? && ConformsObject(args, InputSchema(DIAGNOSTIC), env.matches) && SeedOk(seed)
    ensures Handled(HandleDiagnostic(seed, env, args))
  {
    DiagnosticArgs(args, env.matches);
    hide InputSchema, ConformsObject, Record, Cause, LinkMetrics, StrArg, Has;
  }

  lemma OpenArgs(args: Json, m: Matcher)
    requires args.Obj? && ConformsObject(args, InputSchema(OPEN_TICKET), m)
    ensures StrArg(args, ACCOUNT_ID).Some? && StrArg(args, CATEGORY).Some? && StrArg(args, DESCRIPTION).Some?
    ensures Has(args, PRIORITY) ==> StrArg(args, PRIORITY).Some?
  {
    ToolsAreOk(OPEN_TICKET);
    ArgIsTyped(OPEN_TICKET, args, 0, m);
    ArgIsTyped(OPEN_TICKET, args, 1, m);
    ArgIsTyped(OPEN_TICKET, args, 2, m);
    ArgIsTyped(OPEN_TICKET, args, 3, m);
    hide InputSchema, ConformsObject, ToolOk, GetOrNull;
  }

  lemma OpenIsHandled(seed: Seed, env: Env, st: StoreState, args: Json)
    requires args.Obj? && ConformsObject(args, InputSchema(OPEN_TICKET), env.matches) && EnvOk(env)
    ensures Handled(HandleOpenTicket(seed, env, st, args).0)
  {
    OpenArgs(args, env.matches);
    hide InputSchema, ConformsObject, Record, Opened, TicketId, StrArg, Has;
  }

  lemma GetIsHandled(env: Env, st: StoreState, args: Json)
    requires args.Obj? && ConformsObject(args, InputSchema(GET_TICKET), env.matches)
    ensures Handled(HandleGetTicket(env, st, args))
  {
    ToolsAreOk(GET_TICKET);
    ArgIsTyped(GET_TICKET, args, 0, env.matches);
    hide InputSchema, ConformsObject, Record, TicketJson, VisitJson;
  }

  lemma ScheduleArgs(args: Json, m: Matcher)
    requires args.Obj? && ConformsObject(args, InputSchema(SCHEDULE), m)
    ensures StrArg(args, TICKET_ID).Some? && StrArg(args, DATE).Some? && StrArg(args, TIME_WINDOW).Some?
  {
    ToolsAreOk(SCHEDULE);
    ArgIsTyped(SCHEDULE, args, 0, m);
    ArgIsTyped(SCHEDULE, args, 1, m);
    ArgIsTyped(SCHEDULE, args, 2, m);
    hide InputSchema, ConformsObject, ToolOk, GetOrNull;
  }

  lemma ScheduleIsHandled(env: Env, st: StoreState, args: Json)
    requires args.Obj? && ConformsObject(args, InputSchema(SCHEDULE), env.matches) && EnvOk(env)
    ensures Handled(HandleSchedule(env, st, args).0)
  {
    ScheduleArgs(args, env.matches);
    hide InputSchema, ConformsObject, Record, VisitJson, Scheduled, Today, StrArg, Has, FieldData;
  }

  lemma HandlersAreHandled(t: Tool, seed: Seed, env: Env, st: StoreState, args: Json)
    requires t in TOOLS && args.Obj? && |t.args| == |t.props| && ConformsObject(args, InputSchema(t), env.matches)
    requires EnvOk(env) && SeedOk(seed)
    ensures Handled(Handle(t.name, seed, env, st, args).0)
  {
    hide InputSchema, ConformsObject, HandleLookup, HandleStatus,
         HandleOutages, HandleDiagnostic, HandleOpenTicket, HandleGetTicket, HandleSchedule, Handled;
    if t == LOOKUP { LookupIsHandled(seed, env, args); }
    else if t == STATUS { StatusIsHandled(seed, env, args); }
    else if t == OUTAGES { OutagesAreHandled(seed, env, args); }
    else if t == DIAGNOSTIC { DiagnosticIsHandled(seed, env, args); }
    else if t == OPEN_TICKET { OpenIsHandled(seed, env, st, args); }
    else if t == GET_TICKET { GetIsHandled(env, st, args); }
    else { ScheduleIsHandled(env, st, args); }
  }

  /** Any name, any arguments: with a sound seed and a save that does not fail, the call
      ends in a result or in -32602, never in -32603. */
  lemma ToolsNeverFailInternally(name: string, arguments: Json, seed: Seed, env: Env, st: StoreState)
    requires WellFormed(arguments) && EnvOk(env) && SeedOk(seed)
    ensures Handled(CallTool(name, arguments, seed, env, st).0)
  {
    var found := FindTool(TOOLS, name);
    if found.Some? {
      ToolsAreOk(found.value);
      SchemaIsOk(found.value);
      ValidatorIsExact(arguments, InputSchema(found.value), env.matches);
      hide InputSchema, ConformsObject, ObjectViolations, Handle, EnvOk, SeedOk, ValidateArguments, SchemaOk, FindTool;
      var a := if arguments.Null? then EMPTY else arguments;
      if a.Obj? && ConformsObject(a, InputSchema(found.value), env.matches) {
        HandlersAreHandled(found.value, seed, env, st, a);
      }
    }
  }

  // ----- what a call may do to the store ---------------------------------------------------

  /** Only open_ticket and schedule_visit touch the store, each by one store operation. */
  lemma HandleIsOneOperation(tool: string, seed: Seed, env: Env, st: StoreState, args: Json)
    ensures var st' := Handle(tool, seed, env, st, args).1;
            st' == st || exists op :: st' == Apply(st, op)
  {
    hide HandleLookup, HandleStatus, HandleOutages, HandleDiagnostic, HandleGetTicket, Record, Opened, Scheduled, TicketId, VisitJson;
    if tool == OPEN_TICKET.name {
      var st' := HandleOpenTicket(seed, env, st, args).1;
      if st' != st {
        var id := StrArg(args, ACCOUNT_ID).value;
        var priority := if Has(args, PRIORITY) then StrArg(args, PRIORITY).value else "normal";
        assert st' == Apply(st, OpenTicket(seed.accounts[env.norm(id)].accountId, StrArg(args, CATEGORY).value,
                                           StrArg(args, DESCRIPTION).value, priority, env.now));
      }
    } else {
      var st' := HandleSchedule(env, st, args).1;
      if st' != st {
        assert st' == Apply(st, ScheduleVisit(env.norm(StrArg(args, TICKET_ID).value), StrArg(args, DATE).value,
                                              StrArg(args, TIME_WINDOW).value, env.now));
      }
    }
  }

  /** Whatever is called, and even when the save fails: the store invariant holds after
      it and nothing recorded before is lost. */
  lemma CallKeepsStore(name: string, arguments: Json, seed: Seed, env: Env, st: StoreState)
    requires WellFormed(arguments) && StoreOk(st)
    ensures StoreOk(CallTool(name, arguments, seed, env, st).1) && Extends(st, CallTool(name, arguments, seed, env, st).1)
  {
    var st' := CallTool(name, arguments, seed, env, st).1;
    ExtendsItself(st);
    var found := FindTool(TOOLS, name);
    if found.Some? {
      ToolsAreOk(found.value);
      SchemaIsOk(found.value);
      var valid := ValidateArguments(arguments, InputSchema(found.value), env.matches);
      hide InputSchema, ValidateArguments, Handle, Apply, StoreOk, Extends;
      if valid.Ok? {
        HandleIsOneOperation(name, seed, env, st, valid.value);
        if st' != st {
          var op :| st' == Apply(st, op);
          ApplyExtends(st, op);
        }
      }
    }
  }

  // ----- what one call promises another ------------------------------------------------------

  /** The id open_ticket returned, asked for in any spelling that normalises to it, finds
      that ticket after any further run of the store, with at most more history. */
  lemma OpenedTicketStaysReadable(seed: Seed, env: Env, st: StoreState, args: Json, later: seq<StoreOp>, env': Env, asked: Json)
    requires StoreOk(st) && HandleOpenTicket(seed, env, st, args).0.Payload?
    requires StrArg(asked, TICKET_ID).Some?
    requires var id := TicketId(st.counter + 1); env'.norm(StrArg(asked, TICKET_ID).value) == id && env'.norm(id) == id
    ensures var id := TicketId(st.counter + 1);
            var st1 := HandleOpenTicket(seed, env, st, args).1;
            var now := ApplyAll(st1, later);
            && id in st1.tickets && id in now.tickets && Grown(st1.tickets[id], now.tickets[id])
            && st1.tickets[id].category == StrArg(args, CATEGORY).value
            && st1.tickets[id].description == StrArg(args, DESCRIPTION).value
            && HandleGetTicket(env', now, asked).Payload?
  {
    hide StoreOk, Grown, TicketId, TicketJson, VisitJson, Record, Put, ApplyAll, StrArg;
    var id := StrArg(args, ACCOUNT_ID).value;
    var priority := if Has(args, PRIORITY) then StrArg(args, PRIORITY).value else "normal";
    var op := OpenTicket(seed.accounts[env.norm(id)].accountId, StrArg(args, CATEGORY).value, StrArg(args, DESCRIPTION).value, priority, env.now);
    ApplyExtends(st, op);
    HistoryOnlyGrows(Apply(st, op), later);
  }
}
