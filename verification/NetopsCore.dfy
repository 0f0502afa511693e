/** The seven netops tools: schemas, handlers and dispatch over the store state. */
module NetopsCore {
  import opened Prelude
  import opened JsonValues
  import opened JsonRpc
  import JsonText
  import opened TicketStore
  import opened StoreFile
  import opened Validation

  // ----- what the handlers take from outside -------------------------------------

  /** Python and the platform: the clock, the disk, Unicode, dates, hashing, rounding. */
  datatype Env = Env(
    now: string,
    saveFails: bool,
    matches: Matcher,                // re.match
    norm: string -> string,          // s.strip().upper()
    lower: string -> string,         // s.strip().lower()
    digits: string -> string,        // normalize_phone
    dateOf: string -> Option<int>,   // date.fromisoformat, as an ordinal
    hash: string -> nat,             // the first eight bytes of the SHA-256
    tenths: (int, int) -> int        // round(a / b, 1), in tenths
  )

  datatype Account = Account(
    accountId: string, holder: string, phone: string, plan: string, planSpeedMbps: int, status: string,
    technology: string, region: string, serviceAddress: string, installedOn: string, suspensionReason: Option<string>)

  /** `raw` is the whole seed entry, which list_outages returns as it is. */
  datatype Outage = Outage(outageId: string, region: string, status: string, cause: string, eta: string, raw: Json)

  datatype Seed = Seed(accounts: map<string, Account>, byPhone: map<string, Account>, outages: seq<Outage>)

  /** How a handler ends: a payload, a DomainError, an InvalidParamsError, or any other exception. */
  datatype Ran =
    | Payload(payload: Json)
    | Domain(payload: Json)
    | Bad(error: RpcError)
    | Unhandled

  // ----- the schemas ---------------------------------------------------------------

  datatype Prop =
    | Text(minLength: int)
    | Bounded(minLength: int, maxLength: int)
    | Choice(options: seq<string>)
    | Dated(pattern: string)
    | Flag

  function Strs(ss: seq<string>): (r: seq<Json>)
    ensures |r| == |ss| && forall i :: 0 <= i < |ss| ==> r[i] == Str(ss[i])
  {
    seq(|ss|, i requires 0 <= i < |ss| => Str(ss[i]))
  }

  function PropKeys(p: Prop): (r: seq<string>)
    ensures Distinct(r) && r != [] && r[0] == "type"
    ensures "required" !in r && "items" !in r && "properties" !in r
  {
    match p
    case Text(_) => ["type", "minLength"]
    case Bounded(_, _) => ["type", "minLength", "maxLength"]
    case Choice(_) => ["type", "enum"]
    case Dated(_) => ["type", "pattern"]
    case Flag => ["type"]
  }

  function PropValues(p: Prop): (r: seq<Json>)
    ensures |r| == |PropKeys(p)|
  {
    match p
    case Text(lo) => [Str("string"), Int(lo)]
    case Bounded(lo, hi) => [Str("string"), Int(lo), Int(hi)]
    case Choice(options) => [Str("string"), Arr(Strs(options))]
    case Dated(pattern) => [Str("string"), Str(pattern)]
    case Flag => [Str("boolean")]
  }

  function PropJson(p: Prop): Json { Record(PropKeys(p), PropValues(p)) }

  datatype Tool = Tool(name: string, args: seq<string>, props: seq<Prop>, required: seq<string>)

  function PropsJson(props: seq<Prop>): (r: seq<Json>)
    ensures |r| == |props| && forall i :: 0 <= i < |props| ==> r[i] == PropJson(props[i])
  {
    seq(|props|, i requires 0 <= i < |props| => PropJson(props[i]))
  }

  function SchemaKeys(t: Tool): (r: seq<string>)
    ensures Distinct(r) && |r| >= 2 && r[0] == "type" && r[1] == "properties"
    ensures t.required != [] ==> |r| == 3 && r[2] == "required"
    ensures t.required == [] ==> |r| == 2 && "required" !in r
    ensures "enum" !in r && "items" !in r && "additionalProperties" !in r
  {
    ["type", "properties"] + if t.required == [] then [] else ["required"]
  }

  function SchemaValues(t: Tool): (r: seq<Json>)
    requires |t.args| == |t.props|
    ensures |r| == |SchemaKeys(t)|
  {
    [Str("object"), Record(t.args, PropsJson(t.props))] + if t.required == [] then [] else [Arr(Strs(t.required))]
  }

  function InputSchema(t: Tool): Json
    requires |t.args| == |t.props|
  {
    Record(SchemaKeys(t), SchemaValues(t))
  }

  const ACCOUNT_ID := "account_id"
  const PHONE := "phone"
  const REGION := "region"
  const ACTIVE_ONLY := "active_only"
  const TEST_TYPE := "test_type"
  const CATEGORY := "category"
  const DESCRIPTION := "description"
  const PRIORITY := "priority"
  const TICKET_ID := "ticket_id"
  const DATE := "date"
  const TIME_WINDOW := "time_window"

  const REGIONS := ["guatemala", "quetzaltenango", "peten", "escuintla"]
  const CATEGORIES := ["connectivity", "speed", "billing", "equipment", "installation"]
  const PRIORITIES := ["low", "normal", "high", "critical"]
  const TIME_WINDOWS := ["08:00-12:00", "12:00-16:00", "16:00-20:00"]
  const TEST_TYPES := ["ping", "speed", "line"]
  const DATE_PATTERN := "^\\d{4}-\\d{2}-\\d{2}$"

  const LOOKUP := Tool("lookup_account", [ACCOUNT_ID, PHONE], [Text(3), Text(8)], [])
  const STATUS := Tool("check_service_status", [ACCOUNT_ID], [Text(3)], [ACCOUNT_ID])
  const OUTAGES := Tool("list_outages", [REGION, ACTIVE_ONLY], [Choice(REGIONS), Flag], [])
  const DIAGNOSTIC := Tool("run_diagnostic", [ACCOUNT_ID, TEST_TYPE], [Text(3), Choice(TEST_TYPES)], [ACCOUNT_ID, TEST_TYPE])
  const OPEN_TICKET :=
    Tool("open_ticket", [ACCOUNT_ID, CATEGORY, DESCRIPTION, PRIORITY],
         [Text(3), Choice(CATEGORIES), Bounded(5, 2000), Choice(PRIORITIES)], [ACCOUNT_ID, CATEGORY, DESCRIPTION])
  const GET_TICKET := Tool("get_ticket", [TICKET_ID], [Text(5)], [TICKET_ID])
  const SCHEDULE :=
    Tool("schedule_visit", [TICKET_ID, DATE, TIME_WINDOW], [Text(5), Dated(DATE_PATTERN), Choice(TIME_WINDOWS)],
         [TICKET_ID, DATE, TIME_WINDOW])

  const TOOLS := [LOOKUP, STATUS, OUTAGES, DIAGNOSTIC, OPEN_TICKET, GET_TICKET, SCHEDULE]

  /** TOOLS_BY_NAME.get(name) */
  function FindTool(tools: seq<Tool>, name: string): (r: Option<Tool>)
    ensures r.Some? ==> r.value in tools && r.value.name == name
    ensures r.None? ==> forall t :: t in tools ==> t.name != name
  {
    if tools == [] then None
    else if tools[0].name == name then Some(tools[0])
    else FindTool(tools[1..], name)
  }

  // ----- reading accounts, outages and arguments -------------------------------------

  /** A string argument; anything else makes the handler's own string method raise. */
  function StrArg(arguments: Json, name: string): Option<string> {
    if Has(arguments, name) && arguments.vals[name].Str? then Some(arguments.vals[name].s) else None
  }

  function StableInt(env: Env, parts: string, low: int, high: int): (r: int)
    requires low <= high
    ensures low <= r <= high
  {
    low + env.hash(parts) % (high - low + 1)
  }

  datatype Metrics = Metrics(latencyMs: int, lossTenths: int, snrTenths: int, downTenths: int, upTenths: int)

  function LinkMetrics(env: Env, a: Account): Metrics {
    Metrics(StableInt(env, a.accountId + "|latency", 6, 45),
            StableInt(env, a.accountId + "|loss", 0, 20),
            StableInt(env, a.accountId + "|snr", 240, 380),
            env.tenths(a.planSpeedMbps * StableInt(env, a.accountId + "|down", 82, 99), 100),
            env.tenths(a.planSpeedMbps * StableInt(env, a.accountId + "|up", 40, 52), 100))
  }

  function Tenths(n: int): Json { Decimal(n, 1) }

  function MetricsJson(m: Metrics): Json {
    Record(["latency_ms", "packet_loss_pct", "snr_db", "downstream_mbps", "upstream_mbps"],
           [Int(m.latencyMs), Tenths(m.lossTenths), Tenths(m.snrTenths), Tenths(m.downTenths), Tenths(m.upTenths)])
  }

  function Matching(outages: seq<Outage>, region: Option<string>, activeOnly: bool): seq<Outage> {
    if outages == [] then []
    else
      var o := outages[0];
      (if (region.Some? ==> o.region == region.value) && (activeOnly ==> o.status == "active") then [o] else [])
      + Matching(outages[1..], region, activeOnly)
  }

  /** find_outages: an empty region means every region. */
  function FindOutages(seed: Seed, env: Env, region: string, activeOnly: bool): seq<Outage> {
    Matching(seed.outages, if region == "" then None else Some(env.lower(region)), activeOnly)
  }

  function ActiveOutageFor(seed: Seed, env: Env, a: Account): Option<Outage> {
    var found := FindOutages(seed, env, a.region, true);
    if found == [] then None else Some(found[0])
  }

  function AccountFailure(id: string): Json { Record(["error", "account_id"], [Str("No existe la cuenta."), Str(id)]) }

  function TicketFailure(id: string): Json { Record(["error", "ticket_id"], [Str("No existe el ticket."), Str(id)]) }

  // ----- the handlers -----------------------------------------------------------------

  function AccountView(a: Account): Json {
    var view := Record(
      ["account_id", "holder", "phone", "plan", "plan_speed_mbps", "status", "technology", "region", "service_address", "installed_on"],
      [Str(a.accountId), Str(a.holder), Str(a.phone), Str(a.plan), Int(a.planSpeedMbps), Str(a.status), Str(a.technology),
       Str(a.region), Str(a.serviceAddress), Str(a.installedOn)]);
    if a.suspensionReason.None? then view else Put(view, "suspension_reason", Str(a.suspensionReason.value))
  }

  function HandleLookup(seed: Seed, env: Env, args: Json): Ran {
    match RequireOneOf(args, [ACCOUNT_ID, PHONE])
    case Err(e) => Bad(e)
    case Ok(name) =>
      var value := StrArg(args, name);
      if value.None? then Unhandled
      else
        var (table, key) :=
          if name == ACCOUNT_ID then (seed.accounts, env.norm(value.value)) else (seed.byPhone, env.digits(value.value));
        if key in table then Payload(AccountView(table[key]))
        else Domain(Record(["error", name], [Str("No se encontró ninguna cuenta."), Str(value.value)]))
  }

  /** The link state, in the order the causes are tried. */
  function LinkState(seed: Seed, env: Env, a: Account): (string, string) {
    var outage := ActiveOutageFor(seed, env, a);
    if a.status == "suspended" then ("down", "administrative_suspension")
    else if a.status == "pending_installation" then ("not_provisioned", "pending_installation")
    else if outage.Some? then ("down", "mass_outage")
    else if LinkMetrics(env, a).lossTenths >= 15 then ("degraded", "packet_loss")
    else ("up", "healthy")
  }

  function HandleStatus(seed: Seed, env: Env, args: Json): Ran {
    var id := StrArg(args, ACCOUNT_ID);
    if id.None? then Unhandled
    else if env.norm(id.value) !in seed.accounts then Domain(AccountFailure(id.value))
    else
      var a := seed.accounts[env.norm(id.value)];
      var (state, reason) := LinkState(seed, env, a);
      var outage := ActiveOutageFor(seed, env, a);
      var common := Record(["account_id", "account_status", "region", "link_state", "reason"],
                           [Str(a.accountId), Str(a.status), Str(a.region), Str(state), Str(reason)]);
      var placed := if reason == "mass_outage" && outage.Some?
                    then Put(Put(common, "outage_id", Str(outage.value.outageId)), "eta", Str(outage.value.eta)) else common;
      Payload(Put(placed, "metrics", MetricsJson(LinkMetrics(env, a))))
  }

  function Raws(outages: seq<Outage>): seq<Json> {
    if outages == [] then [] else [outages[0].raw] + Raws(outages[1..])
  }

  /** region and active_only are optional; a region that is neither absent nor a string
      has no strip(). */
  function HandleOutages(seed: Seed, env: Env, args: Json): Ran {
    var region := GetOrNull(args, REGION);
    var activeOnly := if Has(args, ACTIVE_ONLY) then args.vals[ACTIVE_ONLY] else Bool(true);
    if Truthy(region) && !region.Str? then Unhandled
    else
      var name := if region.Str? then region.s else "";
      var found := FindOutages(seed, env, name, Truthy(activeOnly));
      Payload(Record(["region", "active_only", "count", "outages"],
                     [Str(if name == "" then "all" else name), activeOnly, Int(|found|), Arr(Raws(found))]))
  }

  function Cause(seed: Seed, env: Env, a: Account): string {
    var outage := ActiveOutageFor(seed, env, a);
    var m := LinkMetrics(env, a);
    if a.status == "suspended" then "Servicio suspendido administrativamente; no es una falla técnica."
    else if a.status == "pending_installation" then "La instalación está pendiente; todavía no hay enlace que medir."
    else if outage.Some? then "Incidencia masiva " + outage.value.outageId + " en la región: " + outage.value.cause + "."
    else if m.lossTenths >= 15 then "Pérdida de paquetes elevada; probable degradación en el último tramo."
    else if m.snrTenths < 270 then "Relación señal/ruido baja; revisar acometida y conectores."
    else "Sin anomalías detectadas en la línea."
  }

  /** None when a reading divides by a plan speed of zero. */
  function Readings(env: Env, a: Account, testType: string): Option<Json> {
    var m := LinkMetrics(env, a);
    if testType == "ping" then
      Some(Record(["latency_ms", "jitter_ms", "packet_loss_pct", "packets_sent"],
                  [Int(m.latencyMs), Tenths(env.tenths(m.latencyMs, 6)), Tenths(m.lossTenths), Int(20)]))
    else if testType == "speed" then
      if a.planSpeedMbps == 0 then None
      else
        Some(Record(["downstream_mbps", "upstream_mbps", "contracted_mbps", "pct_of_plan"],
                    [Tenths(m.downTenths), Tenths(m.upTenths), Int(a.planSpeedMbps),
                     Tenths(env.tenths(10 * m.downTenths, a.planSpeedMbps))]))
    else
      Some(Record(["snr_db", "attenuation_db", "technology", "sync_errors_last_hour"],
                  [Tenths(m.snrTenths), Tenths(StableInt(env, a.accountId + "|att", 50, 180)), Str(a.technology),
                   Int(StableInt(env, a.accountId + "|err", 0, 12))]))
  }

  function HandleDiagnostic(seed: Seed, env: Env, args: Json): Ran {
    var id, test := StrArg(args, ACCOUNT_ID), StrArg(args, TEST_TYPE);
    if id.None? then Unhandled
    else if env.norm(id.value) !in seed.accounts then Domain(AccountFailure(id.value))
    else if test.None? then Unhandled
    else
      var a := seed.accounts[env.norm(id.value)];
      match Readings(env, a, test.value)
      case None => Unhandled
      case Some(readings) =>
        Payload(Record(["account_id", "test_type", "readings", "probable_cause"],
                       [Str(a.accountId), Str(test.value), readings, Str(Cause(seed, env, a))]))
  }

  function HandleOpenTicket(seed: Seed, env: Env, st: StoreState, args: Json): (Ran, StoreState) {
    var id, category, description := StrArg(args, ACCOUNT_ID), StrArg(args, CATEGORY), StrArg(args, DESCRIPTION);
    var priority := if Has(args, PRIORITY) then StrArg(args, PRIORITY) else Some("normal");
    if id.None? then (Unhandled, st)
    else if env.norm(id.value) !in seed.accounts then (Domain(AccountFailure(id.value)), st)
    else if category.None? || description.None? || priority.None? then (Unhandled, st)
    else
      var a := seed.accounts[env.norm(id.value)];
      var st' := Opened(st, a.accountId, category.value, description.value, priority.value, env.now);
      var ticket := TicketId(st.counter + 1);
      if env.saveFails then (Unhandled, st')
      else
        (Payload(Record(["ticket_id", "status", "account_id", "category", "priority", "created_at"],
                        [Str(ticket), Str(OPEN), Str(a.accountId), Str(category.value), Str(priority.value), Str(env.now)])), st')
  }

  function HandleGetTicket(env: Env, st: StoreState, args: Json): Ran {
    var raw := StrArg(args, TICKET_ID);
    if raw.None? then Unhandled
    else
      var id := env.norm(raw.value);
      var key := env.norm(id);
      if key !in st.tickets then Domain(TicketFailure(id))
      else
        var t := st.tickets[key];
        Payload(if t.ticketId in st.visits then Put(TicketJson(t), "visit", VisitJson(st.visits[t.ticketId])) else TicketJson(t))
  }

  /** self.now()[:10] */
  function Today(env: Env): string { if |env.now| < 10 then env.now else env.now[..10] }

  /** The dates and the existing visit are read before the lock; the store looks the
      ticket up again under it. */
  function HandleSchedule(env: Env, st: StoreState, args: Json): (Ran, StoreState) {
    var raw, date, window := StrArg(args, TICKET_ID), StrArg(args, DATE), StrArg(args, TIME_WINDOW);
    if raw.None? then (Unhandled, st)
    else
      var id := env.norm(raw.value);
      if env.norm(id) !in st.tickets then (Domain(TicketFailure(id)), st)
      else if date.None? then (Unhandled, st)
      else if env.dateOf(date.value).None? then (Bad(InvalidParams("date is not a real calendar date", FieldData(DATE))), st)
      else if env.dateOf(Today(env)).None? then (Unhandled, st)
      else if env.dateOf(date.value).value < env.dateOf(Today(env)).value then
        (Domain(Record(["error", "ticket_id", "earliest"], [Str("La fecha ya pasó."), Str(id), Str(Today(env))])), st)
      else if window.None? || id !in st.tickets then (Unhandled, st)
      else
        var already := id in st.visits;
        var st' := Scheduled(st, id, date.value, window.value, env.now);
        if env.saveFails then (Unhandled, st')
        else (Payload(Put(VisitJson(st'.visits[id]), "rescheduled", Bool(already))), st')
  }

  // ----- dispatch -----------------------------------------------------------------------

  function Handle(tool: string, seed: Seed, env: Env, st: StoreState, args: Json): (Ran, StoreState) {
    if tool == LOOKUP.name then (HandleLookup(seed, env, args), st)
    else if tool == STATUS.name then (HandleStatus(seed, env, args), st)
    else if tool == OUTAGES.name then (HandleOutages(seed, env, args), st)
    else if tool == DIAGNOSTIC.name then (HandleDiagnostic(seed, env, args), st)
    else if tool == OPEN_TICKET.name then HandleOpenTicket(seed, env, st, args)
    else if tool == GET_TICKET.name then (HandleGetTicket(env, st, args), st)
    else HandleSchedule(env, st, args)
  }
}
