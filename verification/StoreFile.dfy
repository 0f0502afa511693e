/** The state file: what _save_state writes and what _load_state makes of it. */
module StoreFile {
  import opened Prelude
  import opened JsonValues
  import opened JsonText
  import opened TicketStore

  // ----- records ------------------------------------------------------------------

  function Zip<K, V>(keys: seq<K>, values: seq<V>): map<K, V>
    requires |keys| == |values|
  {
    if keys == [] then map[]
    else Zip(keys[..|keys| - 1], values[..|values| - 1])[keys[|keys| - 1] := values[|values| - 1]]
  }

  lemma {:induction false} ZipAt<K, V>(keys: seq<K>, values: seq<V>)
    requires |keys| == |values| && forall i, j :: 0 <= i < j < |keys| ==> keys[i] != keys[j]
    ensures forall k :: k in Zip(keys, values) <==> k in keys
    ensures forall i :: 0 <= i < |keys| ==> keys[i] in Zip(keys, values) && Zip(keys, values)[keys[i]] == values[i]
  {
    if keys != [] {
      var n := |keys| - 1;
      ZipAt(keys[..n], values[..n]);
      assert keys == keys[..n] + [keys[n]];
      forall i | 0 <= i < |keys| ensures keys[i] in Zip(keys, values) && Zip(keys, values)[keys[i]] == values[i] {
        if i < n {
          assert keys[..n][i] == keys[i] && values[..n][i] == values[i];
        }
      }
    }
  }

  lemma ZipIsInjective<K, V>(keys: seq<K>, a: seq<V>, b: seq<V>)
    requires |keys| == |a| == |b| && (forall i, j :: 0 <= i < j < |keys| ==> keys[i] != keys[j])
    requires Zip(keys, a) == Zip(keys, b)
    ensures a == b
  {
    ZipAt(keys, a);
    ZipAt(keys, b);
    forall i | 0 <= i < |a| ensures a[i] == b[i] {
      assert Zip(keys, a)[keys[i]] == Zip(keys, b)[keys[i]];
    }
  }

  /** A dict literal with these keys in this order. */
  function Record(keys: seq<string>, values: seq<Json>): Json
    requires |keys| == |values|
  {
    Obj(keys, Zip(keys, values))
  }

  lemma RecordShows(keys: seq<string>, values: seq<Json>)
    requires |keys| == |values| && Distinct(keys)
    ensures forall i :: 0 <= i < |keys| ==> Shows(Record(keys, values), keys[i], values[i])
    ensures forall key :: key !in keys ==> !Has(Record(keys, values), key)
  {
    ZipAt(keys, values);
    hide Zip;
  }

  lemma RecordWellFormed(keys: seq<string>, values: seq<Json>)
    requires |keys| == |values| && Distinct(keys) && forall i :: 0 <= i < |values| ==> WellFormed(values[i])
    ensures WellFormed(Record(keys, values))
  {
    ZipAt(keys, values);
    forall k | k in Zip(keys, values) ensures WellFormed(Zip(keys, values)[k]) {
      var i :| 0 <= i < |keys| && keys[i] == k;
    }
    hide Zip;
  }

  // ----- the state as JSON -----------------------------------------------------------

  const ENTRY_FIELDS := ["at", "status", "note"]
  const TICKET_FIELDS :=
    ["ticket_id", "account_id", "category", "description", "priority", "status", "created_at", "updated_at", "history"]
  const VISIT_FIELDS := ["ticket_id", "account_id", "date", "time_window", "status", "scheduled_at"]
  const STATE_FIELDS := ["tickets", "visits", "counters"]

  lemma FieldsAreDistinct()
    ensures Distinct(ENTRY_FIELDS) && Distinct(VISIT_FIELDS) && Distinct(STATE_FIELDS) && Distinct(TICKET_FIELDS)
  {
  }

  function EntryJson(e: Entry): Json {
    Record(ENTRY_FIELDS, [Str(e.at), Str(e.status), Str(e.note)])
  }

  function HistoryJson(h: seq<Entry>): (items: seq<Json>)
    ensures |items| == |h| && forall i :: 0 <= i < |h| ==> items[i] == EntryJson(h[i])
  {
    if h == [] then [] else [EntryJson(h[0])] + HistoryJson(h[1..])
  }

  function TicketValues(t: Ticket): (v: seq<Json>)
    ensures |v| == 9
  {
    [Str(t.ticketId), Str(t.accountId), Str(t.category), Str(t.description), Str(t.priority), Str(t.status),
     Str(t.createdAt), Str(t.updatedAt), Arr(HistoryJson(t.history))]
  }

  function TicketJson(t: Ticket): Json { Record(TICKET_FIELDS, TicketValues(t)) }

  function VisitValues(v: Visit): (r: seq<Json>)
    ensures |r| == 6
  {
    [Str(v.ticketId), Str(v.accountId), Str(v.date), Str(v.timeWindow), Str(v.status), Str(v.scheduledAt)]
  }

  function VisitJson(v: Visit): Json { Record(VISIT_FIELDS, VisitValues(v)) }

  function TicketsJson(st: StoreState): Json {
    Obj(st.ticketIds, map id | id in st.tickets :: TicketJson(st.tickets[id]))
  }

  function VisitsJson(st: StoreState): Json {
    Obj(st.visitIds, map id | id in st.visits :: VisitJson(st.visits[id]))
  }

  function StateJson(st: StoreState): Json {
    Record(STATE_FIELDS, [TicketsJson(st), VisitsJson(st), Record(["ticket"], [Int(st.counter)])])
  }

  lemma EntryWellFormed(e: Entry)
    ensures WellFormed(EntryJson(e))
  {
    FieldsAreDistinct();
    hide Record;
    RecordWellFormed(ENTRY_FIELDS, [Str(e.at), Str(e.status), Str(e.note)]);
  }

  lemma TicketWellFormed(t: Ticket)
    ensures WellFormed(TicketJson(t))
  {
    forall i | 0 <= i < |t.history| ensures WellFormed(HistoryJson(t.history)[i]) {
      EntryWellFormed(t.history[i]);
    }
    FieldsAreDistinct();
    hide Record, HistoryJson;
    RecordWellFormed(TICKET_FIELDS, TicketValues(t));
  }

  lemma VisitWellFormed(v: Visit)
    ensures WellFormed(VisitJson(v))
  {
    FieldsAreDistinct();
    hide Record;
    RecordWellFormed(VISIT_FIELDS, VisitValues(v));
  }

  lemma TicketsWellFormed(st: StoreState)
    requires StoreOk(st)
    ensures WellFormed(TicketsJson(st)) && WellFormed(VisitsJson(st))
  {
    hide TicketJson, VisitJson, TicketOk, VisitsOk;
    assert Distinct(st.ticketIds) by { TicketIdsDistinct(st); }
    hide TicketId;
    forall id | id in st.tickets ensures WellFormed(TicketJson(st.tickets[id])) { TicketWellFormed(st.tickets[id]); }
    forall id | id in st.visits ensures WellFormed(VisitJson(st.visits[id])) { VisitWellFormed(st.visits[id]); }
  }

  lemma TicketIdsDistinct(st: StoreState)
    requires IdsOk(st)
    ensures Distinct(st.ticketIds)
  {
    forall i, j | 0 <= i < j < |st.ticketIds| ensures st.ticketIds[i] != st.ticketIds[j] {
      if TicketId(i + 1) == TicketId(j + 1) {
        TicketIdIsInjective(i + 1, j + 1);
        assert false;
      }
    }
  }

  lemma StateWellFormed(st: StoreState)
    requires StoreOk(st)
    ensures WellFormed(StateJson(st))
  {
    TicketsWellFormed(st);
    FieldsAreDistinct();
    assert WellFormed(Record(["ticket"], [Int(st.counter)])) by { RecordWellFormed(["ticket"], [Int(st.counter)]); }
    hide Record, TicketsJson, VisitsJson, StoreOk, WellFormed;
    RecordWellFormed(STATE_FIELDS, [TicketsJson(st), VisitsJson(st), Record(["ticket"], [Int(st.counter)])]);
  }

  // ----- two states with the same JSON are the same state -------------------------------

  lemma RecordIsInjective(keys: seq<string>, a: seq<Json>, b: seq<Json>)
    requires |keys| == |a| == |b| && Distinct(keys) && Record(keys, a) == Record(keys, b)
    ensures a == b
  {
    ZipIsInjective(keys, a, b);
  }

  lemma EntryIsInjective(a: Entry, b: Entry)
    requires EntryJson(a) == EntryJson(b)
    ensures a == b
  {
    FieldsAreDistinct();
    var va := [Str(a.at), Str(a.status), Str(a.note)];
    var vb := [Str(b.at), Str(b.status), Str(b.note)];
    hide Record;
    RecordIsInjective(ENTRY_FIELDS, va, vb);
    assert va[0] == vb[0] && va[1] == vb[1] && va[2] == vb[2];
  }

  lemma HistoryIsInjective(a: seq<Entry>, b: seq<Entry>)
    requires HistoryJson(a) == HistoryJson(b)
    ensures a == b
  {
    hide EntryJson;
    assert |a| == |b|;
    forall i | 0 <= i < |a| ensures a[i] == b[i] {
      assert HistoryJson(a)[i] == HistoryJson(b)[i];
      EntryIsInjective(a[i], b[i]);
    }
  }

  lemma TicketIsInjective(a: Ticket, b: Ticket)
    requires TicketJson(a) == TicketJson(b)
    ensures a == b
  {
    FieldsAreDistinct();
    var va, vb := TicketValues(a), TicketValues(b);
    assert va == vb by { hide Record, TicketValues; RecordIsInjective(TICKET_FIELDS, va, vb); }
    hide TicketJson, HistoryJson;
    forall i | 0 <= i < 9 ensures va[i] == vb[i] {}
    assert va[0] == vb[0] && va[1] == vb[1] && va[2] == vb[2] && va[3] == vb[3] && va[4] == vb[4];
    assert va[5] == vb[5] && va[6] == vb[6] && va[7] == vb[7] && va[8] == vb[8];
    HistoryIsInjective(a.history, b.history);
  }

  lemma VisitIsInjective(a: Visit, b: Visit)
    requires VisitJson(a) == VisitJson(b)
    ensures a == b
  {
    FieldsAreDistinct();
    var va, vb := VisitValues(a), VisitValues(b);
    assert va == vb by { hide Record, VisitValues; RecordIsInjective(VISIT_FIELDS, va, vb); }
    hide VisitJson;
    assert va[0] == vb[0] && va[1] == vb[1] && va[2] == vb[2] && va[3] == vb[3] && va[4] == vb[4] && va[5] == vb[5];
  }

  lemma TicketsAreInjective(a: StoreState, b: StoreState)
    requires TicketsJson(a) == TicketsJson(b)
    ensures a.ticketIds == b.ticketIds && a.tickets == b.tickets
  {
    hide TicketJson;
    var ma, mb := TicketsJson(a).vals, TicketsJson(b).vals;
    assert forall id :: id in a.tickets <==> id in ma;
    assert forall id :: id in b.tickets <==> id in mb;
    forall id | id in a.tickets ensures a.tickets[id] == b.tickets[id] {
      assert ma[id] == mb[id];
      TicketIsInjective(a.tickets[id], b.tickets[id]);
    }
    SameMap(a.tickets, b.tickets);
  }

  lemma VisitsAreInjective(a: StoreState, b: StoreState)
    requires VisitsJson(a) == VisitsJson(b)
    ensures a.visitIds == b.visitIds && a.visits == b.visits
  {
    hide VisitJson;
    var ma, mb := VisitsJson(a).vals, VisitsJson(b).vals;
    assert forall id :: id in a.visits <==> id in ma;
    assert forall id :: id in b.visits <==> id in mb;
    forall id | id in a.visits ensures a.visits[id] == b.visits[id] {
      assert ma[id] == mb[id];
      VisitIsInjective(a.visits[id], b.visits[id]);
    }
    SameMap(a.visits, b.visits);
  }

  /** The file determines the state. */
  lemma StateIsInjective(a: StoreState, b: StoreState)
    requires StateJson(a) == StateJson(b)
    ensures a == b
  {
    FieldsAreDistinct();
    var va := [TicketsJson(a), VisitsJson(a), Record(["ticket"], [Int(a.counter)])];
    var vb := [TicketsJson(b), VisitsJson(b), Record(["ticket"], [Int(b.counter)])];
    hide Record, TicketsJson, VisitsJson;
    RecordIsInjective(STATE_FIELDS, va, vb);
    assert va[0] == vb[0] && va[1] == vb[1] && va[2] == vb[2];
    TicketsAreInjective(a, b);
    VisitsAreInjective(a, b);
    RecordIsInjective(["ticket"], [Int(a.counter)], [Int(b.counter)]);
    assert [Int(a.counter)][0] == [Int(b.counter)][0];
  }

  // ----- _load_state --------------------------------------------------------------------

  function FileText(st: StoreState): string { Dumps(StateJson(st), INDENTED) }

  /** {**base, **loaded}, the first i keys of `loaded` stored. */
  function Merged(base: Json, loaded: Json, i: nat): (r: Json)
    requires base.Obj? && WellFormed(loaded) && loaded.Obj? && i <= |loaded.keys|
    ensures r.Obj?
  {
    if i == 0 then base
    else Put(Merged(base, loaded, i - 1), loaded.keys[i - 1], loaded.vals[loaded.keys[i - 1]])
  }

  const COUNTERS := "counters"

  /** A missing, unreadable or non-object file leaves the empty state. */
  function LoadState(file: Option<string>): Json {
    var base := StateJson(EMPTY_STORE);
    match file
    case None => base
    case Some(text) =>
      match Loads(text)
      case None => base
      case Some(loaded) =>
        if !loaded.Obj? then base
        else
          var merged := Merged(base, loaded, |loaded.keys|);
          if Has(merged, COUNTERS) then merged else Put(merged, COUNTERS, Record(["ticket"], [Int(0)]))
  }

  /** Whether _load_state would find the file corrupt. */
  predicate Corrupt(file: Option<string>) { file.Some? && Loads(file.value).None? }

  /** m with the first i keys taken from n. */
  ghost function Overlay<K, V>(m: map<K, V>, keys: seq<K>, n: map<K, V>, i: nat): map<K, V>
    requires i <= |keys| && forall k :: k in keys ==> k in n
  {
    if i == 0 then m else Overlay(m, keys, n, i - 1)[keys[i - 1] := n[keys[i - 1]]]
  }

  lemma {:induction false} OverlayHolds<K, V>(m: map<K, V>, keys: seq<K>, n: map<K, V>, i: nat)
    requires i <= |keys| && (forall k :: k in keys ==> k in n) && forall k :: k in keys ==> k in m
    ensures var r := Overlay(m, keys, n, i);
            r.Keys == m.Keys && forall k :: k in keys[..i] ==> r[k] == n[k]
  {
    if i > 0 {
      OverlayHolds(m, keys, n, i - 1);
      assert keys[..i] == keys[..i - 1] + [keys[i - 1]];
    }
  }

  lemma OverlayReplaces<K, V>(m: map<K, V>, keys: seq<K>, n: map<K, V>)
    requires (forall k :: k in keys <==> k in n) && forall k :: k in keys <==> k in m
    ensures Overlay(m, keys, n, |keys|) == n
  {
    OverlayHolds(m, keys, n, |keys|);
    assert keys[..|keys|] == keys;
    var r := Overlay(m, keys, n, |keys|);
    assert forall k :: k in r <==> k in m;
    SameMap(r, n);
  }

  lemma {:induction false} MergedIsOverlay(base: Json, loaded: Json, i: nat)
    requires base.Obj? && WellFormed(loaded) && loaded.Obj? && i <= |loaded.keys| && forall k :: k in loaded.keys ==> k in base.vals
    ensures Merged(base, loaded, i) == Obj(base.keys, Overlay(base.vals, loaded.keys, loaded.vals, i))
  {
    assert forall k :: k in loaded.keys ==> k in loaded.vals;
    hide WellFormed;
    if i > 0 {
      MergedIsOverlay(base, loaded, i - 1);
      OverlayHolds(base.vals, loaded.keys, loaded.vals, i - 1);
      assert loaded.keys[i - 1] in loaded.keys;
      assert Merged(base, loaded, i).keys == base.keys;
    }
  }

  lemma MergeReplaces(base: Json, loaded: Json)
    requires WellFormed(base) && base.Obj? && WellFormed(loaded) && loaded.Obj? && loaded.keys == base.keys
    ensures Merged(base, loaded, |loaded.keys|) == loaded
  {
    MergedIsOverlay(base, loaded, |loaded.keys|);
    OverlayReplaces(base.vals, loaded.keys, loaded.vals);
    hide WellFormed, Merged, Overlay;
  }

  lemma EmptyIsOk()
    ensures StoreOk(EMPTY_STORE)
  {
  }

  lemma StateShape(st: StoreState)
    ensures StateJson(st).Obj? && StateJson(st).keys == STATE_FIELDS && Has(StateJson(st), COUNTERS)
  {
    FieldsAreDistinct();
    hide TicketsJson, VisitsJson;
    ZipAt(STATE_FIELDS, [TicketsJson(st), VisitsJson(st), Record(["ticket"], [Int(st.counter)])]);
    assert STATE_FIELDS[2] == COUNTERS;
  }

  /** Reading back what _save_state wrote gives exactly the state it wrote. */
  lemma LoadInvertsSave(st: StoreState)
    requires StoreOk(st)
    ensures LoadState(Some(FileText(st))) == StateJson(st) && !Corrupt(Some(FileText(st)))
  {
    EmptyIsOk();
    StateWellFormed(st);
    StateWellFormed(EMPTY_STORE);
    StateShape(st);
    StateShape(EMPTY_STORE);
    LoadsInvertsDumps(StateJson(st), INDENTED);
    hide StateJson, Dumps, Loads, WellFormed, StoreOk, Has;
    MergeReplaces(StateJson(EMPTY_STORE), StateJson(st));
  }
}
