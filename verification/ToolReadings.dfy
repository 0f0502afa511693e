/** What the tools show of an account, an outage and a ticket, member by member. */
module ToolReadings {
  import opened Prelude
  import opened JsonValues
  import opened JsonRpc
  import opened TicketStore
  import opened StoreFile
  import opened Validation
  import opened NetopsCore
  import opened ToolCalls
  import opened Sequences
  import ToolStories

  // ----- members -------------------------------------------------------------------------

  ghost predicate Holds(j: Json, members: seq<(string, Json)>) {
    forall i :: 0 <= i < |members| ==> Shows(j, members[i].0, members[i].1)
  }

  function KeysOf(members: seq<(string, Json)>): (r: seq<string>)
    ensures |r| == |members| && forall i :: 0 <= i < |r| ==> r[i] == members[i].0
  {
    seq(|members|, i requires 0 <= i < |members| => members[i].0)
  }

  lemma RecordHolds(keys: seq<string>, values: seq<Json>, members: seq<(string, Json)>)
    requires |keys| == |values| == |members| && Distinct(keys)
    requires forall i :: 0 <= i < |keys| ==> members[i] == (keys[i], values[i])
    ensures Holds(Record(keys, values), members)
  {
    RecordShows(keys, values);
    hide Record, Shows;
  }

  /** Another member beside them. */
  lemma PutHolds(j: Json, members: seq<(string, Json)>, key: string, value: Json)
    requires j.Obj? && Holds(j, members) && forall i :: 0 <= i < |members| ==> members[i].0 != key
    ensures Holds(Put(j, key, value), members) && Shows(Put(j, key, value), key, value)
  {
    forall i | 0 <= i < |members| ensures Shows(Put(j, key, value), members[i].0, members[i].1) {
      assert Shows(j, members[i].0, members[i].1);
    }
  }

  // ----- the line of an account ------------------------------------------------------------

  /** From low to high, and off low by the remainder of the account's hash for this reading. */
  ghost predicate IsReading(n: int, env: Env, a: Account, what: string, low: int, high: int) {
    low <= n <= high && exists turns: int :: IsOff(n, low, high, turns, env.hash(a.accountId + "|" + what))
  }

  predicate IsOff(n: int, low: int, high: int, turns: int, hash: int) { hash == turns * (high - low + 1) + n - low }

  lemma StableIsReading(env: Env, a: Account, what: string, low: int, high: int)
    requires low <= high
    ensures IsReading(StableInt(env, a.accountId + "|" + what, low, high), env, a, what, low, high)
  {
    var h: int, span := env.hash(a.accountId + "|" + what), high - low + 1;
    assert IsOff(low + h % span, low, high, h / span, h);
  }

  /** Each metric is its own reading, in its own range, throughput in tenths of the plan. */
  lemma MetricsAre(env: Env, a: Account)
    ensures var m := LinkMetrics(env, a);
            && IsReading(m.latencyMs, env, a, "latency", 6, 45)
            && IsReading(m.lossTenths, env, a, "loss", 0, 20)
            && IsReading(m.snrTenths, env, a, "snr", 240, 380)
            && (exists percent :: IsReading(percent, env, a, "down", 82, 99) && m.downTenths == env.tenths(a.planSpeedMbps * percent, 100))
            && (exists percent :: IsReading(percent, env, a, "up", 40, 52) && m.upTenths == env.tenths(a.planSpeedMbps * percent, 100))
  {
    hide IsReading, StableInt;
    StableIsReading(env, a, "latency", 6, 45);
    StableIsReading(env, a, "loss", 0, 20);
    StableIsReading(env, a, "snr", 240, 380);
    StableIsReading(env, a, "down", 82, 99);
    StableIsReading(env, a, "up", 40, 52);
    Suffixes(a);
  }

  lemma Suffixes(a: Account)
    ensures a.accountId + "|" + "latency" == a.accountId + "|latency" && a.accountId + "|" + "loss" == a.accountId + "|loss"
    ensures a.accountId + "|" + "snr" == a.accountId + "|snr" && a.accountId + "|" + "down" == a.accountId + "|down"
    ensures a.accountId + "|" + "up" == a.accountId + "|up" && a.accountId + "|" + "att" == a.accountId + "|att"
    ensures a.accountId + "|" + "err" == a.accountId + "|err"
  {
  }

  // ----- the state of a link -----------------------------------------------------------------

  /** An active outage of the account's region; an account without one is in every region. */
  predicate Hits(o: Outage, env: Env, a: Account) { o.status == "active" && (a.region == "" || o.region == env.lower(a.region)) }

  /** The first in the list that hits the account. */
  ghost predicate IsFirstHit(o: Outage, seed: Seed, env: Env, a: Account) {
    exists i :: 0 <= i < |seed.outages| && seed.outages[i] == o && Hits(o, env, a) && forall j :: 0 <= j < i ==> !Hits(seed.outages[j], env, a)
  }

  lemma {:induction false} FirstMatch(outages: seq<Outage>, region: Option<string>, activeOnly: bool)
    ensures var found := Matching(outages, region, activeOnly);
            found == [] <==> forall i :: 0 <= i < |outages| ==> !ToolStories.Concerns(outages[i], region, activeOnly)
    ensures var found := Matching(outages, region, activeOnly);
            found != [] ==> exists i :: 0 <= i < |outages| && outages[i] == found[0] && ToolStories.Concerns(outages[i], region, activeOnly)
                              && forall j :: 0 <= j < i ==> !ToolStories.Concerns(outages[j], region, activeOnly)
  {
    if outages != [] {
      FirstMatch(outages[1..], region, activeOnly);
      if !ToolStories.Concerns(outages[0], region, activeOnly) && Matching(outages[1..], region, activeOnly) != [] {
        var i :| 0 <= i < |outages| - 1 && outages[1..][i] == Matching(outages[1..], region, activeOnly)[0]
                 && ToolStories.Concerns(outages[1..][i], region, activeOnly)
                 && forall j :: 0 <= j < i ==> !ToolStories.Concerns(outages[1..][j], region, activeOnly);
        assert outages[i + 1] == outages[1..][i];
        forall j | 0 <= j < i + 1 ensures !ToolStories.Concerns(outages[j], region, activeOnly) {
          if j > 0 { assert outages[j] == outages[1..][j - 1]; }
        }
      }
    }
  }

  lemma ActiveOutageIsFirst(seed: Seed, env: Env, a: Account)
    ensures var o := ActiveOutageFor(seed, env, a);
            && (o.Some? <==> exists hit :: hit in seed.outages && Hits(hit, env, a))
            && (o.Some? ==> IsFirstHit(o.value, seed, env, a))
  {
    var region := if a.region == "" then None else Some(env.lower(a.region));
    FirstMatch(seed.outages, region, true);
    assert forall o :: ToolStories.Concerns(o, region, true) <==> Hits(o, env, a);
    hide Matching, ToolStories.Concerns, Hits;
    if hit :| hit in seed.outages && Hits(hit, env, a) {
      var i :| 0 <= i < |seed.outages| && seed.outages[i] == hit;
    }
  }

  predicate InService(a: Account) { a.status != "suspended" && a.status != "pending_installation" }

  /** One reason at a time, the administrative ones first; the link is up exactly when it
      is healthy. */
  lemma LinkStateIs(seed: Seed, env: Env, a: Account)
    ensures var (state, reason) := LinkState(seed, env, a);
            var hit := exists o :: o in seed.outages && Hits(o, env, a);
            var loss := LinkMetrics(env, a).lossTenths;
            && (reason == "administrative_suspension" <==> a.status == "suspended")
            && (reason == "pending_installation" <==> a.status == "pending_installation")
            && (reason == "mass_outage" <==> InService(a) && hit)
            && (reason == "packet_loss" <==> InService(a) && !hit && loss >= 15)
            && (reason == "healthy" <==> InService(a) && !hit && loss < 15)
            && (state == "down" <==> reason == "administrative_suspension" || reason == "mass_outage")
            && (state == "not_provisioned" <==> reason == "pending_installation")
            && (state == "degraded" <==> reason == "packet_loss")
            && (state == "up" <==> reason == "healthy")
  {
    ActiveOutageIsFirst(seed, env, a);
    hide ActiveOutageFor, LinkMetrics, Hits, IsFirstHit;
  }

  // ----- check_service_status ------------------------------------------------------------------

  lemma MetricsHold(m: Metrics)
    ensures Holds(MetricsJson(m), [("latency_ms", Int(m.latencyMs)), ("packet_loss_pct", Decimal(m.lossTenths, 1)), ("snr_db", Decimal(m.snrTenths, 1)),
                                   ("downstream_mbps", Decimal(m.downTenths, 1)), ("upstream_mbps", Decimal(m.upTenths, 1))])
  {
    var keys := ["latency_ms", "packet_loss_pct", "snr_db", "downstream_mbps", "upstream_mbps"];
    var values := [Int(m.latencyMs), Tenths(m.lossTenths), Tenths(m.snrTenths), Tenths(m.downTenths), Tenths(m.upTenths)];
    hide Record, Holds;
    RecordHolds(keys, values, [("latency_ms", Int(m.latencyMs)), ("packet_loss_pct", Decimal(m.lossTenths, 1)), ("snr_db", Decimal(m.snrTenths, 1)),
                               ("downstream_mbps", Decimal(m.downTenths, 1)), ("upstream_mbps", Decimal(m.upTenths, 1))]);
  }

  function StatusMembers(a: Account, state: string, reason: string): seq<(string, Json)> {
    [("account_id", Str(a.accountId)), ("account_status", Str(a.status)), ("region", Str(a.region)), ("link_state", Str(state)), ("reason", Str(reason))]
  }

  /** An account of the seed is reported with its link state and metrics, and with the outage
      and its end exactly when that is the reason; any other id is a domain failure. */
  lemma StatusShows(seed: Seed, env: Env, args: Json, id: string)
    requires Shows(args, "account_id", Str(id))
    ensures var ran := HandleStatus(seed, env, args);
            && (ran.Payload? <==> env.norm(id) in seed.accounts)
            && (env.norm(id) !in seed.accounts ==> IsFailure(ran, "account_id", id))
    ensures env.norm(id) in seed.accounts ==>
              var a, p := seed.accounts[env.norm(id)], HandleStatus(seed, env, args).payload;
              var (state, reason) := LinkState(seed, env, a);
              && Holds(p, StatusMembers(a, state, reason)) && Shows(p, "metrics", MetricsJson(LinkMetrics(env, a)))
              && (Has(p, "outage_id") <==> reason == "mass_outage") && (Has(p, "eta") <==> reason == "mass_outage")
              && (reason == "mass_outage" ==> ShowsFirstHit(p, seed, env, a))
  {
    assert StrArg(args, ACCOUNT_ID) == Some(id);
    if env.norm(id) in seed.accounts {
      var a := seed.accounts[env.norm(id)];
      LinkStateIs(seed, env, a);
      ActiveOutageIsFirst(seed, env, a);
      StatusPayload(seed, env, a);
      assert HandleStatus(seed, env, args) == Payload(StatusOf(seed, env, a));
    } else {
      FailureHolds("account_id", "No existe la cuenta.", id);
    }
    hide Record, LinkState, LinkMetrics, MetricsJson, ActiveOutageFor, Holds, ShowsFirstHit, StatusMembers;
  }

  ghost predicate IsFailure(ran: Ran, key: string, asked: string) {
    ran.Domain? && Shows(ran.payload, key, Str(asked)) && exists message :: Shows(ran.payload, "error", Str(message))
  }

  lemma FailureHolds(key: string, message: string, asked: string)
    requires key != "error"
    ensures IsFailure(Domain(Record(["error", key], [Str(message), Str(asked)])), key, asked)
  {
    var keys, values := ["error", key], [Str(message), Str(asked)];
    RecordShows(keys, values);
    hide Record;
    assert Shows(Record(keys, values), keys[0], values[0]) && Shows(Record(keys, values), keys[1], values[1]);
  }

  ghost predicate ShowsFirstHit(p: Json, seed: Seed, env: Env, a: Account) {
    exists o :: IsFirstHit(o, seed, env, a) && Shows(p, "outage_id", Str(o.outageId)) && Shows(p, "eta", Str(o.eta))
  }

  const STATUS_KEYS := ["account_id", "account_status", "region", "link_state", "reason"]

  function StatusCommon(a: Account, state: string, reason: string): Json {
    Record(STATUS_KEYS, [Str(a.accountId), Str(a.status), Str(a.region), Str(state), Str(reason)])
  }

  function StatusOf(seed: Seed, env: Env, a: Account): Json {
    var (state, reason) := LinkState(seed, env, a);
    var outage, common := ActiveOutageFor(seed, env, a), StatusCommon(a, state, reason);
    Put(if reason == "mass_outage" && outage.Some?
        then Put(Put(common, "outage_id", Str(outage.value.outageId)), "eta", Str(outage.value.eta)) else common,
        "metrics", MetricsJson(LinkMetrics(env, a)))
  }

  lemma CommonHolds(a: Account, state: string, reason: string)
    ensures var j := StatusCommon(a, state, reason);
            j.Obj? && Holds(j, StatusMembers(a, state, reason)) && !Has(j, "outage_id") && !Has(j, "eta")
  {
    var values := [Str(a.accountId), Str(a.status), Str(a.region), Str(state), Str(reason)];
    assert Distinct(STATUS_KEYS) && "outage_id" !in STATUS_KEYS && "eta" !in STATUS_KEYS;
    RecordHolds(STATUS_KEYS, values, StatusMembers(a, state, reason));
    RecordShows(STATUS_KEYS, values);
    hide Zip, Holds;
  }

  lemma OthersAreApart(a: Account, state: string, reason: string)
    ensures forall i :: 0 <= i < 5 ==> StatusMembers(a, state, reason)[i].0 !in ["outage_id", "eta", "metrics"]
    ensures |StatusMembers(a, state, reason)| == 5
  {
  }

  lemma StatusPayload(seed: Seed, env: Env, a: Account)
    ensures var (state, reason) := LinkState(seed, env, a);
            var p, o := StatusOf(seed, env, a), ActiveOutageFor(seed, env, a);
            && Holds(p, StatusMembers(a, state, reason)) && Shows(p, "metrics", MetricsJson(LinkMetrics(env, a)))
            && (Has(p, "outage_id") <==> reason == "mass_outage" && o.Some?) && (Has(p, "eta") <==> reason == "mass_outage" && o.Some?)
            && (reason == "mass_outage" && o.Some? ==> Shows(p, "outage_id", Str(o.value.outageId)) && Shows(p, "eta", Str(o.value.eta)))
  {
    var (state, reason) := LinkState(seed, env, a);
    var common, o, metrics := StatusCommon(a, state, reason), ActiveOutageFor(seed, env, a), MetricsJson(LinkMetrics(env, a));
    CommonHolds(a, state, reason);
    OthersAreApart(a, state, reason);
    var members := StatusMembers(a, state, reason);
    hide StatusMembers, StatusCommon, LinkState, LinkMetrics, MetricsJson, ActiveOutageFor, Holds;
    if reason == "mass_outage" && o.Some? {
      PutHolds(common, members, "outage_id", Str(o.value.outageId));
      PutHolds(Put(common, "outage_id", Str(o.value.outageId)), members, "eta", Str(o.value.eta));
      var placed := Put(Put(common, "outage_id", Str(o.value.outageId)), "eta", Str(o.value.eta));
      PutHolds(placed, members, "metrics", metrics);
    } else {
      PutHolds(common, members, "metrics", metrics);
    }
  }

  // ----- run_diagnostic ----------------------------------------------------------------------------

  function PingMembers(env: Env, m: Metrics): seq<(string, Json)> {
    [("latency_ms", Int(m.latencyMs)), ("jitter_ms", Decimal(env.tenths(m.latencyMs, 6), 1)), ("packet_loss_pct", Decimal(m.lossTenths, 1)),
     ("packets_sent", Int(20))]
  }

  function SpeedMembers(env: Env, a: Account, m: Metrics): seq<(string, Json)> {
    [("downstream_mbps", Decimal(m.downTenths, 1)), ("upstream_mbps", Decimal(m.upTenths, 1)), ("contracted_mbps", Int(a.planSpeedMbps)),
     ("pct_of_plan", Decimal(env.tenths(10 * m.downTenths, a.planSpeedMbps), 1))]
  }

  function LineMembers(a: Account, m: Metrics, attenuation: int, errors: int): seq<(string, Json)> {
    [("snr_db", Decimal(m.snrTenths, 1)), ("attenuation_db", Decimal(attenuation, 1)), ("technology", Str(a.technology)),
     ("sync_errors_last_hour", Int(errors))]
  }

  /** Each test reads its own metrics; the speed test alone divides by the plan. */
  lemma ReadingsAre(env: Env, a: Account, test: string)
    requires test in ["ping", "speed", "line"]
    ensures Readings(env, a, test).None? <==> test == "speed" && a.planSpeedMbps == 0
    ensures Readings(env, a, test).Some? ==>
              var r, m := Readings(env, a, test).value, LinkMetrics(env, a);
              && (test == "ping" ==> Holds(r, PingMembers(env, m)))
              && (test == "speed" ==> Holds(r, SpeedMembers(env, a, m)))
              && (test == "line" ==> exists attenuation, errors ::
                    && IsReading(attenuation, env, a, "att", 50, 180) && IsReading(errors, env, a, "err", 0, 12)
                    && Holds(r, LineMembers(a, m, attenuation, errors)))
  {
    var m := LinkMetrics(env, a);
    var attenuation, errors := StableInt(env, a.accountId + "|att", 50, 180), StableInt(env, a.accountId + "|err", 0, 12);
    Suffixes(a);
    StableIsReading(env, a, "att", 50, 180);
    StableIsReading(env, a, "err", 0, 12);
    hide Record, Holds, LinkMetrics, StableInt, IsReading;
    if test == "ping" {
      RecordHolds(["latency_ms", "jitter_ms", "packet_loss_pct", "packets_sent"],
                  [Int(m.latencyMs), Tenths(env.tenths(m.latencyMs, 6)), Tenths(m.lossTenths), Int(20)], PingMembers(env, m));
    } else if test == "speed" {
      if a.planSpeedMbps != 0 {
        RecordHolds(["downstream_mbps", "upstream_mbps", "contracted_mbps", "pct_of_plan"],
                    [Tenths(m.downTenths), Tenths(m.upTenths), Int(a.planSpeedMbps), Tenths(env.tenths(10 * m.downTenths, a.planSpeedMbps))],
                    SpeedMembers(env, a, m));
      }
    } else {
      RecordHolds(["snr_db", "attenuation_db", "technology", "sync_errors_last_hour"],
                  [Tenths(m.snrTenths), Tenths(attenuation), Str(a.technology), Int(errors)], LineMembers(a, m, attenuation, errors));
    }
  }

  /** The cause of a line in service: the outage, then the loss, then the noise. */
  lemma CauseIs(seed: Seed, env: Env, a: Account)
    requires InService(a)
    ensures var cause, m := Cause(seed, env, a), LinkMetrics(env, a);
            var hit := exists o :: o in seed.outages && Hits(o, env, a);
            && (hit ==> exists o :: IsFirstHit(o, seed, env, a)
                          && cause == "Incidencia masiva " + o.outageId + " en la región: " + o.cause + ".")
            && (!hit && m.lossTenths >= 15 ==> cause == "Pérdida de paquetes elevada; probable degradación en el último tramo.")
            && (!hit && m.lossTenths < 15 && m.snrTenths < 270 ==> cause == "Relación señal/ruido baja; revisar acometida y conectores.")
            && (!hit && m.lossTenths < 15 && m.snrTenths >= 270 ==> cause == "Sin anomalías detectadas en la línea.")
  {
    ActiveOutageIsFirst(seed, env, a);
    hide ActiveOutageFor, LinkMetrics, Hits, IsFirstHit;
  }

  /** An account of the seed is diagnosed, and only the speed test of a plan of zero raises;
      any other id is a domain failure. */
  lemma DiagnosticShows(seed: Seed, env: Env, args: Json, id: string, test: string)
    requires Shows(args, "account_id", Str(id)) && Shows(args, "test_type", Str(test)) && test in ["ping", "speed", "line"]
    ensures var ran := HandleDiagnostic(seed, env, args);
            && (env.norm(id) !in seed.accounts ==> IsFailure(ran, "account_id", id))
            && (env.norm(id) in seed.accounts ==>
                  var a := seed.accounts[env.norm(id)];
                  if test == "speed" && a.planSpeedMbps == 0 then ran.Unhandled?
                  else
                    && ran.Payload? && Readings(env, a, test).Some?
                    && Holds(ran.payload, DiagnosticMembers(a, test, Readings(env, a, test).value, Cause(seed, env, a))))
  {
    FailureHolds("account_id", "No existe la cuenta.", id);
    DiagnosticDecides(seed, env, args, id, test);
    hide HandleDiagnostic, Readings, Cause, LinkMetrics, Holds, Record, IsFailure, Shows, DiagnosticMembers;
    if env.norm(id) in seed.accounts {
      var a := seed.accounts[env.norm(id)];
      ReadingsAre(env, a, test);
      if Readings(env, a, test).Some? {
        DiagnosticHolds(a, test, Readings(env, a, test).value, Cause(seed, env, a));
      }
    }
  }

  function DiagnosticJson(a: Account, test: string, readings: Json, cause: string): Json {
    Record(["account_id", "test_type", "readings", "probable_cause"], [Str(a.accountId), Str(test), readings, Str(cause)])
  }

  lemma DiagnosticHolds(a: Account, test: string, readings: Json, cause: string)
    ensures Holds(DiagnosticJson(a, test, readings, cause), DiagnosticMembers(a, test, readings, cause))
  {
    hide Record, Holds;
    RecordHolds(["account_id", "test_type", "readings", "probable_cause"], [Str(a.accountId), Str(test), readings, Str(cause)],
                DiagnosticMembers(a, test, readings, cause));
  }

  lemma DiagnosticDecides(seed: Seed, env: Env, args: Json, id: string, test: string)
    requires Shows(args, "account_id", Str(id)) && Shows(args, "test_type", Str(test))
    ensures HandleDiagnostic(seed, env, args)
         == if env.norm(id) !in seed.accounts then Domain(Record(["error", "account_id"], [Str("No existe la cuenta."), Str(id)]))
            else
              var a := seed.accounts[env.norm(id)];
              var r := Readings(env, a, test);
              if r.None? then Unhandled else Payload(DiagnosticJson(a, test, r.value, Cause(seed, env, a)))
  {
    assert StrArg(args, ACCOUNT_ID) == Some(id) && StrArg(args, TEST_TYPE) == Some(test);
    hide Readings, Cause, Record, StrArg, Shows;
  }

  function DiagnosticMembers(a: Account, test: string, readings: Json, cause: string): seq<(string, Json)> {
    [("account_id", Str(a.accountId)), ("test_type", Str(test)), ("readings", readings), ("probable_cause", Str(cause))]
  }

  // ----- lookup_account ------------------------------------------------------------------------------

  function AccountMembers(a: Account): (r: seq<(string, Json)>)
    ensures |r| == 10
  {
    [("account_id", Str(a.accountId)), ("holder", Str(a.holder)), ("phone", Str(a.phone)), ("plan", Str(a.plan)),
     ("plan_speed_mbps", Int(a.planSpeedMbps)), ("status", Str(a.status)), ("technology", Str(a.technology)), ("region", Str(a.region)),
     ("service_address", Str(a.serviceAddress)), ("installed_on", Str(a.installedOn))]
  }

  const ACCOUNT_KEYS :=
    ["account_id", "holder", "phone", "plan", "plan_speed_mbps", "status", "technology", "region", "service_address", "installed_on"]

  lemma AccountKeysApart()
    ensures Distinct(ACCOUNT_KEYS) && "suspension_reason" !in ACCOUNT_KEYS
  {
  }

  /** An account is shown with all its members, and a suspension's reason if it has one. */
  lemma AccountIsShown(a: Account)
    ensures var v := AccountView(a);
            && Holds(v, AccountMembers(a)) && (Has(v, "suspension_reason") <==> a.suspensionReason.Some?)
            && (a.suspensionReason.Some? ==> Shows(v, "suspension_reason", Str(a.suspensionReason.value)))
  {
    var values :=
      [Str(a.accountId), Str(a.holder), Str(a.phone), Str(a.plan), Int(a.planSpeedMbps), Str(a.status), Str(a.technology),
       Str(a.region), Str(a.serviceAddress), Str(a.installedOn)];
    AccountKeysApart();
    assert Record(ACCOUNT_KEYS, values).Obj?;
    hide Holds, Record, Distinct;
    RecordHolds(ACCOUNT_KEYS, values, AccountMembers(a));
    RecordShows(ACCOUNT_KEYS, values);
    if a.suspensionReason.Some? {
      assert forall i :: 0 <= i < 10 ==> AccountMembers(a)[i].0 == ACCOUNT_KEYS[i];
      PutHolds(Record(ACCOUNT_KEYS, values), AccountMembers(a), "suspension_reason", Str(a.suspensionReason.value));
    }
  }

  /** The argument is given: there, and neither null nor empty. */
  predicate IsGiven(args: Json, name: string) { Has(args, name) && GetOrNull(args, name) != Null && GetOrNull(args, name) != Str("") }

  /** With exactly one of id and phone, the account that has it is shown, and a domain
      failure says that there is none; with both or neither the call is -32602. */
  lemma LookupShows(seed: Seed, env: Env, args: Json, asked: string)
    ensures Shows(args, "account_id", Str(asked)) && asked != "" && !IsGiven(args, "phone") ==>
              var ran := HandleLookup(seed, env, args);
              if env.norm(asked) in seed.accounts then ran == Payload(AccountView(seed.accounts[env.norm(asked)]))
              else IsFailure(ran, "account_id", asked)
    ensures Shows(args, "phone", Str(asked)) && asked != "" && !IsGiven(args, "account_id") ==>
              var ran := HandleLookup(seed, env, args);
              if env.digits(asked) in seed.byPhone then ran == Payload(AccountView(seed.byPhone[env.digits(asked)]))
              else IsFailure(ran, "phone", asked)
    ensures IsGiven(args, "account_id") == IsGiven(args, "phone") ==>
              HandleLookup(seed, env, args).Bad? && HandleLookup(seed, env, args).error.code == -32602
  {
    RequireOneOfIsExclusive(args, ACCOUNT_ID, PHONE);
    assert forall name :: Supplied(args, name) <==> IsGiven(args, name);
    assert Shows(args, ACCOUNT_ID, Str(asked)) ==> StrArg(args, ACCOUNT_ID) == Some(asked) && (asked != "" ==> IsGiven(args, ACCOUNT_ID));
    assert Shows(args, PHONE, Str(asked)) ==> StrArg(args, PHONE) == Some(asked) && (asked != "" ==> IsGiven(args, PHONE));
    FailureHolds(ACCOUNT_ID, "No se encontró ninguna cuenta.", asked);
    FailureHolds(PHONE, "No se encontró ninguna cuenta.", asked);
    hide RequireOneOf, Supplied, IsGiven, StrArg, Shows, IsFailure, Record, AccountView;
  }

  // ----- list_outages ----------------------------------------------------------------------------------

  /** Active if only those are asked for, and of the region if one is. */
  function Wanted(env: Env, region: string, activeOnly: bool): Outage -> bool {
    (o: Outage) => (region != "" ==> o.region == env.lower(region)) && (activeOnly ==> o.status == "active")
  }

  lemma {:induction false} MatchingPicks(outages: seq<Outage>, env: Env, region: string, activeOnly: bool)
    ensures Picks(Matching(outages, if region == "" then None else Some(env.lower(region)), activeOnly), outages, Wanted(env, region, activeOnly))
  {
    if outages != [] {
      var r := if region == "" then None else Some(env.lower(region));
      MatchingPicks(outages[1..], env, region, activeOnly);
      PicksMore(outages[0], Matching(outages[1..], r, activeOnly), outages[1..], Wanted(env, region, activeOnly));
      assert [outages[0]] + outages[1..] == outages;
      hide Picks;
    }
  }

  lemma {:induction false} RawsAre(outages: seq<Outage>)
    ensures |Raws(outages)| == |outages| && forall i :: 0 <= i < |outages| ==> Raws(outages)[i] == outages[i].raw
  {
    if outages != [] {
      RawsAre(outages[1..]);
    }
  }

  /** The entries of the listed outages as they stand in the seed. */
  predicate AreRaws(items: seq<Json>, listed: seq<Outage>) {
    |items| == |listed| && forall i :: 0 <= i < |listed| ==> items[i] == listed[i].raw
  }

  /** The outages of the region, every one when none is named, and only the active ones
      unless told otherwise: all of them, in the order of the seed, and counted. */
  lemma OutagesShow(seed: Seed, env: Env, args: Json, region: string, activeOnly: bool)
    requires Shows(args, "region", Str(region)) || (GetOrNull(args, "region") == Null && region == "")
    requires if Has(args, "active_only") then Shows(args, "active_only", Bool(activeOnly)) else activeOnly
    ensures var ran := HandleOutages(seed, env, args);
            ran.Payload? && exists listed, items :: Picks(listed, seed.outages, Wanted(env, region, activeOnly)) && AreRaws(items, listed)
                              && Holds(ran.payload, OutageMembers(region, activeOnly, |listed|, items))
  {
    var listed := FindOutages(seed, env, region, activeOnly);
    MatchingPicks(seed.outages, env, region, activeOnly);
    RawsAre(listed);
    var keys := ["region", "active_only", "count", "outages"];
    var values := [Str(if region == "" then "all" else region), Bool(activeOnly), Int(|listed|), Arr(Raws(listed))];
    hide Record, Holds, Picks, Matching, Raws;
    RecordHolds(keys, values, OutageMembers(region, activeOnly, |listed|, Raws(listed)));
    OutagesDecides(seed, env, args, region, activeOnly);
  }

  function OutageMembers(region: string, activeOnly: bool, count: nat, items: seq<Json>): seq<(string, Json)> {
    [("region", Str(if region == "" then "all" else region)), ("active_only", Bool(activeOnly)), ("count", Int(count)), ("outages", Arr(items))]
  }

  lemma OutagesDecides(seed: Seed, env: Env, args: Json, region: string, activeOnly: bool)
    requires Shows(args, "region", Str(region)) || (GetOrNull(args, "region") == Null && region == "")
    requires if Has(args, "active_only") then Shows(args, "active_only", Bool(activeOnly)) else activeOnly
    ensures var listed := FindOutages(seed, env, region, activeOnly);
            HandleOutages(seed, env, args)
            == Payload(Record(["region", "active_only", "count", "outages"],
                              [Str(if region == "" then "all" else region), Bool(activeOnly), Int(|listed|), Arr(Raws(listed))]))
  {
    hide Record, FindOutages, Raws;
  }

  // ----- open_ticket and get_ticket -----------------------------------------------------------------

  predicate OpenAsks(args: Json, asked: string, category: string, description: string, priority: string) {
    && Shows(args, "account_id", Str(asked)) && Shows(args, "category", Str(category)) && Shows(args, "description", Str(description))
    && if Has(args, "priority") then Shows(args, "priority", Str(priority)) else priority == "normal"
  }

  /** For an account of the seed the next ticket is opened as asked, for that account and with
      one entry in its history, and reported when the save succeeds; nothing else is touched.
      Any other id is a domain failure, and nothing at all is. */
  lemma OpenIsDecidedByTheAccount(seed: Seed, env: Env, st: StoreState, args: Json, asked: string, category: string, description: string, priority: string)
    requires OpenAsks(args, asked, category, description, priority)
    ensures var (ran, st') := HandleOpenTicket(seed, env, st, args);
            && (ran.Payload? <==> env.norm(asked) in seed.accounts && !env.saveFails)
            && (ran.Unhandled? <==> env.norm(asked) in seed.accounts && env.saveFails)
            && (env.norm(asked) !in seed.accounts ==> IsFailure(ran, "account_id", asked) && st' == st)
    ensures var (ran, st') := HandleOpenTicket(seed, env, st, args);
            env.norm(asked) in seed.accounts ==>
              var account, id := seed.accounts[env.norm(asked)].accountId, TicketId(st.counter + 1);
              && st'.counter == st.counter + 1 && st'.visits == st.visits && st'.tickets - {id} == st.tickets - {id} && id in st'.tickets
              && IsNewTicket(st'.tickets[id], id, account, category, description, priority, env.now)
  {
    FailureHolds("account_id", "No existe la cuenta.", asked);
    OpenDecides(seed, env, st, args, asked, category, description, priority);
    if env.norm(asked) in seed.accounts {
      OpenedShows(st, seed.accounts[env.norm(asked)].accountId, category, description, priority, env.now);
    }
    hide HandleOpenTicket, Record, TicketId, IsFailure, OpenAsks, Opened, IsNewTicket;
  }

  lemma OpenDecides(seed: Seed, env: Env, st: StoreState, args: Json, asked: string, category: string, description: string, priority: string)
    requires OpenAsks(args, asked, category, description, priority)
    ensures var (ran, st') := HandleOpenTicket(seed, env, st, args);
            if env.norm(asked) !in seed.accounts then ran == Domain(Record(["error", "account_id"], [Str("No existe la cuenta."), Str(asked)])) && st' == st
            else
              && st' == Opened(st, seed.accounts[env.norm(asked)].accountId, category, description, priority, env.now)
              && if env.saveFails then ran.Unhandled? else ran.Payload?
  {
    assert StrArg(args, ACCOUNT_ID) == Some(asked) && StrArg(args, CATEGORY) == Some(category) && StrArg(args, DESCRIPTION) == Some(description);
    assert Has(args, PRIORITY) ==> StrArg(args, PRIORITY) == Some(priority);
    hide Record, TicketId, StrArg, Shows, Opened;
  }

  lemma OpenedShows(st: StoreState, account: string, category: string, description: string, priority: string, now: string)
    ensures var st', id := Opened(st, account, category, description, priority, now), TicketId(st.counter + 1);
            && st'.counter == st.counter + 1 && st'.visits == st.visits && st'.tickets - {id} == st.tickets - {id} && id in st'.tickets
            && IsNewTicket(st'.tickets[id], id, account, category, description, priority, now)
  {
    hide TicketId;
  }

  predicate IsNewTicket(t: Ticket, id: string, account: string, category: string, description: string, priority: string, now: string) {
    && t.ticketId == id && t.accountId == account && t.category == category && t.description == description && t.priority == priority
    && t.status == "open" && t.createdAt == now && t.updatedAt == now
    && t.history == [Entry(now, "open", "Ticket creado por el asistente")]
  }

  function TicketMembers(t: Ticket): (r: seq<(string, Json)>)
    ensures |r| == 8
  {
    [("ticket_id", Str(t.ticketId)), ("account_id", Str(t.accountId)), ("category", Str(t.category)), ("description", Str(t.description)),
     ("priority", Str(t.priority)), ("status", Str(t.status)), ("created_at", Str(t.createdAt)), ("updated_at", Str(t.updatedAt))]
  }

  function VisitMembers(v: Visit): seq<(string, Json)> {
    [("ticket_id", Str(v.ticketId)), ("account_id", Str(v.accountId)), ("date", Str(v.date)), ("time_window", Str(v.timeWindow)),
     ("status", Str(v.status)), ("scheduled_at", Str(v.scheduledAt))]
  }

  predicate ShowsEntry(j: Json, e: Entry) { Shows(j, "at", Str(e.at)) && Shows(j, "status", Str(e.status)) && Shows(j, "note", Str(e.note)) }

  /** The history, entry by entry. */
  ghost predicate ShowsHistory(j: Json, history: seq<Entry>) {
    exists items :: Shows(j, "history", Arr(items)) && |items| == |history| && forall i :: 0 <= i < |items| ==> ShowsEntry(items[i], history[i])
  }

  lemma EntryShown(e: Entry)
    ensures ShowsEntry(EntryJson(e), e)
  {
    var values := [Str(e.at), Str(e.status), Str(e.note)];
    FieldsAreDistinct();
    RecordShows(ENTRY_FIELDS, values);
    hide Record, Shows;
    var j := Record(ENTRY_FIELDS, values);
    assert Shows(j, ENTRY_FIELDS[0], values[0]) && Shows(j, ENTRY_FIELDS[1], values[1]) && Shows(j, ENTRY_FIELDS[2], values[2]);
  }

  lemma TicketHolds(t: Ticket)
    ensures TicketJson(t).Obj? && Holds(TicketJson(t), TicketMembers(t)) && ShowsHistory(TicketJson(t), t.history) && !Has(TicketJson(t), "visit")
  {
    var j, values := TicketJson(t), TicketValues(t);
    FieldsAreDistinct();
    assert TICKET_FIELDS[8] == "history" && "visit" !in TICKET_FIELDS && j.Obj?;
    assert forall i :: 0 <= i < 8 ==> TicketMembers(t)[i] == (TICKET_FIELDS[i], values[i]);
    RecordShows(TICKET_FIELDS, values);
    hide Record, Shows, Distinct, ShowsEntry;
    forall i | 0 <= i < 8 ensures Shows(j, TicketMembers(t)[i].0, TicketMembers(t)[i].1) {
      assert Shows(j, TICKET_FIELDS[i], values[i]);
    }
    var items := HistoryJson(t.history);
    assert Shows(j, TICKET_FIELDS[8], Arr(items));
    forall i | 0 <= i < |items| ensures ShowsEntry(items[i], t.history[i]) { EntryShown(t.history[i]); }
  }

  lemma VisitHolds(v: Visit)
    ensures Holds(VisitJson(v), VisitMembers(v))
  {
    FieldsAreDistinct();
    hide Record, Holds, Distinct;
    RecordHolds(VISIT_FIELDS, VisitValues(v), VisitMembers(v));
  }

  /** A ticket is shown as it is stored, with its visit as that is stored if it has one; an
      unknown id is a domain failure. */
  lemma GetShows(env: Env, st: StoreState, args: Json, asked: string)
    requires StoreOk(st) && Shows(args, "ticket_id", Str(asked))
    ensures var ran, id := HandleGetTicket(env, st, args), env.norm(env.norm(asked));
            && (ran.Payload? <==> id in st.tickets) && (id !in st.tickets ==> IsFailure(ran, "ticket_id", env.norm(asked)))
    ensures var ran, id := HandleGetTicket(env, st, args), env.norm(env.norm(asked));
            id in st.tickets ==>
              && Holds(ran.payload, TicketMembers(st.tickets[id])) && ShowsHistory(ran.payload, st.tickets[id].history)
              && (Has(ran.payload, "visit") <==> id in st.visits)
              && (id in st.visits ==> exists v :: Shows(ran.payload, "visit", v) && Holds(v, VisitMembers(st.visits[id])))
  {
    var id := env.norm(env.norm(asked));
    FailureHolds("ticket_id", "No existe el ticket.", env.norm(asked));
    assert StrArg(args, TICKET_ID) == Some(asked);
    hide StoreOk, TicketJson, VisitJson, Holds, ShowsHistory, TicketMembers, VisitMembers, StrArg, Record, IsFailure;
    if id in st.tickets {
      ToolStories.StoredTicket(st, id);
      TicketHolds(st.tickets[id]);
      if id in st.visits {
        VisitHolds(st.visits[id]);
        VisitBeside(TicketJson(st.tickets[id]), st.tickets[id], VisitJson(st.visits[id]));
      }
    }
  }

  lemma VisitBeside(j: Json, t: Ticket, v: Json)
    requires j.Obj? && Holds(j, TicketMembers(t)) && ShowsHistory(j, t.history)
    ensures var p := Put(j, "visit", v); Holds(p, TicketMembers(t)) && ShowsHistory(p, t.history) && Shows(p, "visit", v) && Has(p, "visit")
  {
    assert forall i :: 0 <= i < 8 ==> TicketMembers(t)[i].0 != "visit";
    PutHolds(j, TicketMembers(t), "visit", v);
    hide Holds, TicketMembers, ShowsEntry;
    var items :| Shows(j, "history", Arr(items)) && |items| == |t.history| && forall i :: 0 <= i < |items| ==> ShowsEntry(items[i], t.history[i]);
    assert Shows(Put(j, "visit", v), "history", Arr(items));
  }
}
