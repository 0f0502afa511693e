/** The session log: correlation by a dictionary of running timers, a bounded buffer,
    and a JSONL file. */
module McpLoggers {
  import opened Prelude
  import opened JsonValues
  import opened JsonRpc
  import opened Ndjson
  import opened StoreFile

  datatype Kind = IsRequest | IsResponse | IsNotification | IsError | IsUnknown

  const OUT := "out"
  const IN := "in"

  /** Total: what cannot be recognised is unknown. */
  function Classify(message: Json): Kind {
    if Has(message, METHOD) then if Has(message, ID) then IsRequest else IsNotification
    else if Has(message, ERROR) then IsError
    else if Has(message, RESULT) then IsResponse
    else IsUnknown
  }

  function KindOf(m: Message): Kind {
    match m
    case Request(_, _, _) => IsRequest
    case Notification(_, _) => IsNotification
    case Success(_, _) => IsResponse
    case Failure(_, _, _, _) => IsError
  }

  /** On every message the protocol accepts, the two classifications agree. */
  lemma ClassifyAgrees(raw: Json)
    ensures ParseMessage(raw).Ok? ==> Classify(raw) == KindOf(ParseMessage(raw).value)
  {
    hide RequireId, IdOf;
    if ParseMessage(raw).Ok? && Has(raw, METHOD) {
      assert ParseMessage(raw) == ParseCall(raw);
    }
  }

  // ----- events ---------------------------------------------------------------------

  function TypeName(k: Kind): string {
    match k
    case IsRequest => "request"
    case IsResponse => "response"
    case IsNotification => "notification"
    case IsError => "error"
    case IsUnknown => "unknown"
  }

  /** `duration` is in microseconds. */
  datatype Event = Event(
    ts: string, direction: string, server: string, transport: string, kind: Kind,
    meth: Option<string>, id: Json, payload: Json, duration: Option<int>, requestMethod: Option<string>)

  /** An event beside the clock reading it was correlated with. */
  datatype Entry = Entry(event: Event, clock: int)

  function Direction(d: string): string {
    if d == "send" || d == OUT then OUT else if d == "recv" || d == IN then IN else d
  }

  function Opposite(d: string): string { if d == OUT then IN else OUT }

  /** Python equality of keys: ids compare as Python compares them, so 1 and 1.0 are one id. */
  datatype Key = Key(server: string, direction: string, id: PyVal)

  /** A list or a dict cannot be a dictionary key. */
  predicate Hashable(j: Json) { !j.Arr? && !j.Obj? }

  predicate Answers(k: Kind) { k.IsResponse? || k.IsError? }

  function Method(message: Json): Option<string> {
    var m := GetOrNull(message, METHOD); if m.Str? then Some(m.s) else None
  }

  /** The timer the event starts or stops, if it does either. */
  function KeyOf(e: Event): Option<Key> {
    if e.id.Null? then None
    else if e.kind.IsRequest? then Some(Key(e.server, e.direction, Norm(e.id)))
    else if Answers(e.kind) then Some(Key(e.server, Opposite(e.direction), Norm(e.id)))
    else None
  }

  // ----- the scan of history -----------------------------------------------------------

  datatype Started = Started(clock: int, meth: string)

  function StartOf(e: Entry): Started { Started(e.clock, if e.event.meth.Some? then e.event.meth.value else "") }

  /** The request a response with this key answers: the latest entry about the key, if
      that is a request. */
  function Scan(history: seq<Entry>, key: Key): Option<Started> {
    if history == [] then None
    else
      var n := |history| - 1;
      if KeyOf(history[n].event) == Some(key) then
        if history[n].event.kind.IsRequest? then Some(StartOf(history[n])) else None
      else Scan(history[..n], key)
  }

  /** Every request with this key that no response has taken, latest last, if each response
      takes the latest one left. */
  function Unanswered(history: seq<Entry>, key: Key): seq<Started> {
    if history == [] then []
    else
      var n := |history| - 1;
      var before := Unanswered(history[..n], key);
      if KeyOf(history[n].event) != Some(key) then before
      else if history[n].event.kind.IsRequest? then before + [StartOf(history[n])]
      else if before == [] then []
      else before[..|before| - 1]
  }

  function LatestUnanswered(history: seq<Entry>, key: Key): Option<Started> {
    var left := Unanswered(history, key); if left == [] then None else Some(left[|left| - 1])
  }

  predicate IsResponseTo(e: Entry, key: Key) { KeyOf(e.event) == Some(key) && !e.event.kind.IsRequest? }

  predicate IsRequestOf(e: Entry, key: Key) { KeyOf(e.event) == Some(key) && e.event.kind.IsRequest? }

  /** At every point the scan finds the latest request no response has taken. */
  ghost predicate ScanExact(history: seq<Entry>, key: Key) {
    forall n :: 0 <= n <= |history| ==> Scan(history[..n], key) == LatestUnanswered(history[..n], key)
  }

  /** No response comes while two requests with its id are unanswered. */
  ghost predicate OneInFlight(history: seq<Entry>, key: Key) {
    forall n :: 0 <= n < |history| && IsResponseTo(history[n], key) ==> |Unanswered(history[..n], key)| <= 1
  }

  lemma OneMore(history: seq<Entry>, n: nat, key: Key)
    requires n < |history|
    ensures var before, left := Unanswered(history[..n], key), Unanswered(history[..n + 1], key);
            && (IsRequestOf(history[n], key) ==> left == before + [StartOf(history[n])] && Scan(history[..n + 1], key) == Some(StartOf(history[n])))
            && (IsResponseTo(history[n], key) ==>
                  left == (if before == [] then [] else before[..|before| - 1]) && Scan(history[..n + 1], key) == None)
            && (KeyOf(history[n].event) != Some(key) ==> left == before && Scan(history[..n + 1], key) == Scan(history[..n], key))
  {
    assert history[..n + 1][..n] == history[..n];
    hide KeyOf, StartOf;
  }

  lemma {:induction false} ExactUpTo(history: seq<Entry>, n: nat, key: Key)
    requires n <= |history| && OneInFlight(history, key)
    ensures Scan(history[..n], key) == LatestUnanswered(history[..n], key)
  {
    hide KeyOf, StartOf;
    if n > 0 {
      ExactUpTo(history, n - 1, key);
      OneMore(history, n - 1, key);
      hide Scan, Unanswered;
    }
  }

  /** The scan is exact at every point, also where no response comes, exactly when no
      response ever comes while two requests with its id are in flight. */
  lemma ScanIsExactIff(history: seq<Entry>, key: Key)
    ensures ScanExact(history, key) <==> OneInFlight(history, key)
  {
    if OneInFlight(history, key) {
      forall n | 0 <= n <= |history| ensures Scan(history[..n], key) == LatestUnanswered(history[..n], key) {
        ExactUpTo(history, n, key);
      }
    } else {
      var n :| 0 <= n < |history| && IsResponseTo(history[n], key) && |Unanswered(history[..n], key)| > 1;
      OneMore(history, n, key);
      hide Scan, Unanswered, IsResponseTo;
      assert LatestUnanswered(history[..n + 1], key).Some?;
    }
  }

  // ----- what responses get ---------------------------------------------------------------

  /** How many requests with this key are unanswered: a request adds one, a response takes
      one off if there is one. */
  function InFlight(history: seq<Entry>, key: Key): nat {
    if history == [] then 0
    else
      var n := |history| - 1;
      var before := InFlight(history[..n], key);
      if IsRequestOf(history[n], key) then before + 1
      else if IsResponseTo(history[n], key) && before > 0 then before - 1
      else before
  }

  lemma {:induction false} InFlightCounts(history: seq<Entry>, key: Key)
    ensures InFlight(history, key) == |Unanswered(history, key)|
  {
    hide KeyOf, StartOf;
    if history != [] {
      InFlightCounts(history[..|history| - 1], key);
    }
  }

  /** The entry at m is the last one about the key before n. */
  ghost predicate JustBefore(history: seq<Entry>, key: Key, m: nat, n: nat)
    requires m < n <= |history|
  {
    KeyOf(history[m].event) == Some(key) && forall j :: m < j < n ==> KeyOf(history[j].event) != Some(key)
  }

  /** A response that comes right after another one, as far as the key is concerned, finds
      no request in flight. */
  ghost predicate NoLateResponse(history: seq<Entry>, key: Key) {
    forall m, n ::
      (0 <= m < n < |history| && IsResponseTo(history[m], key) && IsResponseTo(history[n], key) && JustBefore(history, key, m, n))
      ==> InFlight(history[..n], key) == 0
  }

  /** Every response finds the latest request no other response has taken. */
  ghost predicate ResponsesExact(history: seq<Entry>, key: Key) {
    forall n :: 0 <= n < |history| && IsResponseTo(history[n], key) ==>
      Scan(history[..n], key) == LatestUnanswered(history[..n], key)
  }

  /** The scan stops at the last entry about the key: a request is what it finds, behind a
      response it finds nothing, and with no entry there is nothing in flight. */
  lemma {:induction false} ScanStops(history: seq<Entry>, n: nat, key: Key)
    requires n <= |history|
    ensures Scan(history[..n], key).Some? ==> Scan(history[..n], key) == LatestUnanswered(history[..n], key)
    ensures Scan(history[..n], key).None? && Unanswered(history[..n], key) != [] ==>
              exists m: nat :: m < n && IsResponseTo(history[m], key) && JustBefore(history, key, m, n)
    ensures forall m: nat :: m < n && IsResponseTo(history[m], key) && JustBefore(history, key, m, n) ==>
              Scan(history[..n], key).None?
  {
    hide KeyOf, StartOf;
    if n > 0 {
      ScanStops(history, n - 1, key);
      OneMore(history, n - 1, key);
      hide Scan, Unanswered;
      if KeyOf(history[n - 1].event) == Some(key) {
        assert JustBefore(history, key, n - 1, n);
      } else {
        forall m: nat | m < n - 1 ensures JustBefore(history, key, m, n) <==> JustBefore(history, key, m, n - 1) {}
      }
    }
  }

  /** Every response gets the latest unanswered request exactly when no response that
      follows another one comes while a request is in flight. */
  lemma ResponsesAreExactIff(history: seq<Entry>, key: Key)
    ensures ResponsesExact(history, key) <==> NoLateResponse(history, key)
  {
    hide KeyOf, Scan, Unanswered, InFlight, IsResponseTo, JustBefore;
    if NoLateResponse(history, key) {
      forall n | 0 <= n < |history| && IsResponseTo(history[n], key)
        ensures Scan(history[..n], key) == LatestUnanswered(history[..n], key)
      {
        ScanStops(history, n, key);
        InFlightCounts(history[..n], key);
      }
    }
    if ResponsesExact(history, key) {
      forall m, n | 0 <= m < n < |history| && IsResponseTo(history[m], key) && IsResponseTo(history[n], key)
                    && JustBefore(history, key, m, n)
        ensures InFlight(history[..n], key) == 0
      {
        ScanStops(history, n, key);
        InFlightCounts(history[..n], key);
      }
    }
  }

  /** Ids that are used once, as MCPClient's are, are enough. */
  lemma {:induction false} UniqueIdsAreEnough(history: seq<Entry>, key: Key)
    requires forall i, j :: 0 <= i < j < |history| && IsRequestOf(history[i], key) ==> !IsRequestOf(history[j], key)
    ensures ScanExact(history, key) && ResponsesExact(history, key)
  {
    hide IsRequestOf, IsResponseTo;
    forall n | 0 <= n < |history| ensures |Unanswered(history[..n], key)| <= 1 {
      AtMostOne(history, n, key);
    }
    ScanIsExactIff(history, key);
  }

  lemma {:induction false} AtMostOne(history: seq<Entry>, n: nat, key: Key)
    requires n <= |history|
    requires forall i, j :: 0 <= i < j < |history| && IsRequestOf(history[i], key) ==> !IsRequestOf(history[j], key)
    ensures |Unanswered(history[..n], key)| <= 1
    ensures Unanswered(history[..n], key) != [] ==> exists i :: 0 <= i < n && IsRequestOf(history[i], key)
  {
    if n > 0 {
      AtMostOne(history, n - 1, key);
      OneMore(history, n - 1, key);
      assert IsRequestOf(history[n - 1], key) || IsResponseTo(history[n - 1], key) || KeyOf(history[n - 1].event) != Some(key);
      hide KeyOf, StartOf, Unanswered, Scan, IsRequestOf, IsResponseTo;
    }
  }

  /** A second response after a reused id: one request is left unanswered, and the log
      attaches nothing. */
  lemma ReusedIdIsForgotten()
    ensures exists history: seq<Entry>, key: Key :: Scan(history, key) == None && LatestUnanswered(history, key).Some?
  {
    var request := Event("t", OUT, "netops", "stdio", IsRequest, Some("ping"), Int(1), EMPTY, None, None);
    var response := Event("t", IN, "netops", "stdio", IsResponse, None, Int(1), EMPTY, None, None);
    var key := Key("netops", OUT, Norm(Int(1)));
    var h1 := [Entry(request, 0)];
    var h2 := h1 + [Entry(request, 1)];
    var h3 := h2 + [Entry(response, 2)];
    assert KeyOf(request) == Some(key) && KeyOf(response) == Some(key);
    hide KeyOf, Norm;
    assert h1[..0] == [] && h2[..1] == h1 && h3[..2] == h2;
    assert Unanswered(h1, key) == [Started(0, "ping")];
    assert Unanswered(h2, key) == [Started(0, "ping"), Started(1, "ping")];
    assert LatestUnanswered(h3, key) == Some(Started(0, "ping"));
    assert Scan(h3, key) == None;
  }

  // ----- what is recorded -----------------------------------------------------------------

  /** record() raises: KeyError for a response in an unknown direction, TypeError for an
      id that cannot be a key. */
  predicate Raises(direction: string, message: Json) {
    var id, kind := GetOrNull(message, ID), Classify(message);
    && !id.Null? && (kind.IsRequest? || Answers(kind))
    && (!Hashable(id) || (Answers(kind) && Direction(direction) != OUT && Direction(direction) != IN))
  }

  function Plain(ts: string, server: string, direction: string, message: Json, transport: string): Event {
    Event(ts, Direction(direction), server, transport, Classify(message), Method(message), GetOrNull(message, ID), message, None, None)
  }

  /** The event with what the request it answers says about it. */
  function Timed(e: Event, started: Option<Started>, clock: int): Event {
    if !Answers(e.kind) || e.id.Null? || started.None? then e
    else e.(duration := Some(clock - started.value.clock),
            requestMethod := if started.value.meth == "" then None else Some(started.value.meth))
  }

  lemma PlainIsPlain(ts: string, server: string, direction: string, message: Json, transport: string)
    ensures var e := Plain(ts, server, direction, message, transport); e.duration == None && e.requestMethod == None
  {
  }

  /** The last n. */
  function Last<T>(s: seq<T>, n: nat): seq<T> { if |s| <= n then s else s[|s| - n..] }

  function EventsOf(history: seq<Entry>): (r: seq<Event>)
    ensures |r| == |history| && forall i :: 0 <= i < |r| ==> r[i] == history[i].event
  {
    seq(|history|, i requires 0 <= i < |history| => history[i].event)
  }

  const FIELDS := ["ts", "direction", "server", "transport", "type", "method", "id", "payload"]

  function EventJson(e: Event): (j: Json)
    ensures j.Obj?
  {
    var entry := Record(FIELDS,
      [Str(e.ts), Str(e.direction), Str(e.server), Str(e.transport), Str(TypeName(e.kind)),
       if e.meth.None? then Null else Str(e.meth.value), e.id, e.payload]);
    if e.duration.None? then entry else Put(entry, "duration_ms", Decimal(e.duration.value, 3))
  }

  function Lines(events: seq<Event>): seq<Json> {
    if events == [] then [] else Lines(events[..|events| - 1]) + [EventJson(events[|events| - 1])]
  }

  lemma {:induction false} WriteStreamGrows(messages: seq<Json>, m: Json, eol: string)
    ensures WriteStream(messages + [m], eol) == WriteStream(messages, eol) + (Encode(m) + eol)
  {
    hide Encode;
    if messages == [] {
      assert (messages + [m])[1..] == [];
      assert eol + "" == eol;
    } else {
      assert (messages + [m])[1..] == messages[1..] + [m];
      WriteStreamGrows(messages[1..], m, eol);
      var a, b, c := Encode(messages[0]), WriteStream(messages[1..], eol), Encode(m) + eol;
      Reassociate(a, eol, b, c);
    }
  }

  lemma Reassociate(a: string, b: string, c: string, d: string)
    ensures a + (b + (c + d)) == (a + (b + c)) + d
  {
  }

  // ----- the logger -------------------------------------------------------------------------

  class McpLogger {
    const bufferSize: nat
    var events: seq<Event>
    var pending: map<Key, Started>
    var file: string
    var closed: bool
    ghost var history: seq<Entry>     // everything recorded
    ghost var written: nat            // how much of it before close()

    /** The dictionary of timers says what a scan of the whole history says; the buffer is
        its tail; the file is what was recorded before close, line by line. */
    ghost predicate Valid()
      reads this
    {
      && Refines(pending, history) && Recorded(history) && Directed(history)
      && events == Last(EventsOf(history), bufferSize)
      && written <= |history| && (!closed ==> written == |history|)
      && file == WriteStream(Lines(EventsOf(history[..written])), "\n")
    }

    constructor (bufferSize: nat)
      ensures Valid() && history == [] && !closed && this.bufferSize == bufferSize
    {
      this.bufferSize := bufferSize;
      events := [];
      pending := map[];
      file := "";
      closed := false;
      history := [];
      written := 0;
    }

    /** None: it raised, and nothing was recorded. */
    method RecordMessage(server: string, direction: string, message: Json, transport: string, ts: string, clock: int)
      returns (recorded: Option<Event>)
      requires Valid()
      modifies this
      ensures Valid() && closed == old(closed)
      ensures recorded.None? <==> Raises(direction, message)
      ensures recorded.None? ==> history == old(history) && written == old(written)
      ensures recorded.Some? ==>
                var e := Plain(ts, server, direction, message, transport);
                && recorded.value == Timed(e, if KeyOf(e).None? then None else Scan(old(history), KeyOf(e).value), clock)
                && history == old(history) + [Entry(recorded.value, clock)]
                && written == old(written) + (if closed then 0 else 1)
    {
      var e := Plain(ts, server, direction, message, transport);
      if Raises(direction, message) {
        return None;
      }
      hide Refines, Recorded, Directed, Scan, Plain, Lines, WriteStream, Raises, Timed, KeyOf, Last;
      assert e.duration == None && e.requestMethod == None by { PlainIsPlain(ts, server, direction, message, transport); }
      var duration, requestMethod := Correlate(e, clock);
      RecordedGrows(history, e, clock);
      DirectedGrows(history, ts, server, direction, message, transport);
      e := e.(duration := duration, requestMethod := requestMethod);
      history := history + [Entry(e, clock)];
      assert history[..|history| - 1] == old(history) && history[..written] == old(history)[..written];
      Append(e);
      Write(e);
      recorded := Some(e);
    }

    /** Start a timer on a request, stop it on the response with that id. */
    method Correlate(e: Event, clock: int) returns (duration: Option<int>, requestMethod: Option<string>)
      requires Refines(pending, history) && e.duration == None && e.requestMethod == None
      modifies this`pending
      ensures var timed := Timed(e, if KeyOf(e).None? then None else Scan(history, KeyOf(e).value), clock);
              && timed == e.(duration := duration, requestMethod := requestMethod)
              && Refines(pending, history + [Entry(timed, clock)])
    {
      hide Norm, TypeName;
      if e.id.Null? || (!e.kind.IsRequest? && !Answers(e.kind)) {
        OthersKeep(pending, history, Entry(e, clock));
        return None, None;
      }
      var key := KeyOf(e).value;
      assert (if key in pending then Some(pending[key]) else None) == Scan(history, key);
      if e.kind.IsRequest? {
        RequestStarts(pending, history, Entry(e, clock), key);
        pending := pending[key := StartOf(Entry(e, clock))];
        return None, None;
      }
      var started := if key in pending then Some(pending[key]) else None;
      ResponseStops(pending, history, Entry(Timed(e, started, clock), clock), key);
      pending := pending - {key};
      if started.None? {
        return None, None;
      }
      return Some(clock - started.value.clock), if started.value.meth == "" then None else Some(started.value.meth);
    }

    /** deque(maxlen=buffer_size).append */
    method Append(e: Event)
      requires history != [] && history[|history| - 1].event == e
      requires events == Last(EventsOf(history[..|history| - 1]), bufferSize)
      modifies this`events
      ensures events == Last(EventsOf(history), bufferSize)
    {
      ghost var before := EventsOf(history[..|history| - 1]);
      assert EventsOf(history) == before + [e];
      if bufferSize == 0 {
        events := [];
      } else if |events| == bufferSize {
        events := events[1..] + [e];
      } else {
        events := events + [e];
      }
    }

    method Write(e: Event)
      requires history != [] && history[|history| - 1].event == e
      requires written <= |history| - 1 && (!closed ==> written == |history| - 1)
      requires file == WriteStream(Lines(EventsOf(history[..written])), "\n")
      modifies this`file, this`written
      ensures written == old(written) + (if closed then 0 else 1) && written <= |history|
      ensures file == WriteStream(Lines(EventsOf(history[..written])), "\n")
    {
      if closed {
        return;
      }
      hide EventJson, Encode, WriteStream;
      ghost var before := EventsOf(history[..written]);
      assert EventsOf(history) == before + [e] && history[..written + 1] == history;
      assert (before + [e])[..|before|] == before;
      WriteStreamGrows(Lines(before), EventJson(e), "\n");
      file := file + (Encode(EventJson(e)) + "\n");
      written := written + 1;
    }

    /** The most recent events, oldest first. */
    method Tail(count: int) returns (r: seq<Event>)
      requires Valid()
      ensures r == if count <= 0 then [] else Last(Last(EventsOf(history), bufferSize), count)
    {
      r := if count <= 0 then [] else if |events| <= count then events else events[|events| - count..];
    }

    method Close()
      requires Valid()
      modifies this`closed
      ensures Valid() && closed && written == old(written)
    {
      closed := true;
    }
  }

  /** An event before anything is attached to it. */
  function Bare(e: Event): Event { e.(duration := None, requestMethod := None) }

  /** Each event carries what the history before it says. */
  ghost predicate Recorded(history: seq<Entry>) {
    forall n :: 0 <= n < |history| ==> RecordedAt(history, n)
  }

  ghost predicate RecordedAt(history: seq<Entry>, n: nat)
    requires n < |history|
  {
    var e := history[n].event;
    e == Timed(Bare(e), if KeyOf(e).None? then None else Scan(history[..n], KeyOf(e).value), history[n].clock)
  }

  lemma RecordedGrows(history: seq<Entry>, plain: Event, clock: int)
    requires Recorded(history) && plain == Bare(plain)
    ensures var e := Timed(plain, if KeyOf(plain).None? then None else Scan(history, KeyOf(plain).value), clock);
            Recorded(history + [Entry(e, clock)])
  {
    hide Scan;
    var e := Timed(plain, if KeyOf(plain).None? then None else Scan(history, KeyOf(plain).value), clock);
    assert KeyOf(e) == KeyOf(plain) && Bare(e) == plain;
    var all := history + [Entry(e, clock)];
    forall n | 0 <= n < |all| ensures RecordedAt(all, n) {
      if n < |history| {
        assert RecordedAt(history, n) && all[..n] == history[..n];
      } else {
        assert all[..n] == history;
      }
    }
  }

  /** In a log this logger wrote: every response carries the duration and the method of the
      latest request no other response had taken exactly when no response that follows
      another one came while a request was in flight. */
  lemma AttachedIsLatestIff(history: seq<Entry>, key: Key)
    requires Recorded(history)
    ensures NoLateResponse(history, key) <==>
              forall n :: 0 <= n < |history| && IsResponseTo(history[n], key) ==> CarriesLatest(history, key, n)
  {
    ResponsesAreExactIff(history, key);
    forall n | 0 <= n < |history| && IsResponseTo(history[n], key)
      ensures CarriesLatest(history, key, n) <==> Scan(history[..n], key) == LatestUnanswered(history[..n], key)
    {
      CarriesScan(history, key, n);
    }
    hide Scan, Unanswered, CarriesLatest, NoLateResponse, IsResponseTo;
  }

  /** The response at n carries the latest request unanswered before it. */
  ghost predicate CarriesLatest(history: seq<Entry>, key: Key, n: nat)
    requires n < |history|
  {
    history[n].event == Timed(Bare(history[n].event), LatestUnanswered(history[..n], key), history[n].clock)
  }

  lemma CarriesScan(history: seq<Entry>, key: Key, n: nat)
    requires Recorded(history) && n < |history| && IsResponseTo(history[n], key)
    ensures CarriesLatest(history, key, n) <==> Scan(history[..n], key) == LatestUnanswered(history[..n], key)
  {
    assert RecordedAt(history, n);
    ScanStops(history, n, key);
    hide Scan, Unanswered, JustBefore, Norm;
    assert !history[n].event.id.Null? && Answers(history[n].event.kind);
  }

  // ----- which answer is timed, told by the entries alone ----------------------------------

  /** A request of this server, in this direction, with an id equal to this one. */
  predicate Asks(e: Event, server: string, direction: string, id: Json) {
    e.kind == IsRequest && e.id != Null && e.server == server && e.direction == direction && Norm(e.id) == Norm(id)
  }

  /** A response or an error of this server with an equal id, in the other of "out" and "in". */
  predicate Replies(e: Event, server: string, direction: string, id: Json) {
    && (e.kind == IsResponse || e.kind == IsError) && e.id != Null && e.server == server && Norm(e.id) == Norm(id)
    && ((direction == "out" && e.direction == "in") || (direction == "in" && e.direction == "out"))
  }

  /** The message at j answers the request at i, and neither another such request nor another
      answer to one comes between. */
  ghost predicate IsAnsweredBy(history: seq<Entry>, i: nat, j: nat) {
    && i < j < |history|
    && var e := history[i].event;
       && Asks(e, e.server, e.direction, e.id) && Replies(history[j].event, e.server, e.direction, e.id)
       && forall k :: i < k < j ==> IsUnrelated(history[k].event, e)
  }

  predicate IsUnrelated(e: Event, request: Event) {
    !Asks(e, request.server, request.direction, request.id) && !Replies(e, request.server, request.direction, request.id)
  }

  /** What the scan finds, by position. */
  lemma {:induction false} ScanFinds(history: seq<Entry>, n: nat, key: Key)
    requires n <= |history|
    ensures forall i: nat :: i < n && IsRequestOf(history[i], key) && JustBefore(history, key, i, n) ==>
              Scan(history[..n], key) == Some(StartOf(history[i]))
    ensures Scan(history[..n], key).Some? ==> exists i: nat :: i < n && IsRequestOf(history[i], key) && JustBefore(history, key, i, n)
  {
    hide KeyOf, StartOf;
    if n > 0 {
      ScanFinds(history, n - 1, key);
      OneMore(history, n - 1, key);
      hide Scan, Unanswered;
      if KeyOf(history[n - 1].event) == Some(key) {
        assert JustBefore(history, key, n - 1, n);
      } else {
        forall m: nat | m < n - 1 ensures JustBefore(history, key, m, n) <==> JustBefore(history, key, m, n - 1) {}
      }
    }
  }

  /** Every answer that was recorded travelled out or in; any other direction raises. */
  ghost predicate Directed(history: seq<Entry>) {
    forall n :: 0 <= n < |history| ==> IsDirected(history[n].event)
  }

  predicate IsDirected(e: Event) {
    (e.kind == IsResponse || e.kind == IsError) && e.id != Null ==> e.direction == "out" || e.direction == "in"
  }

  lemma DirectedGrows(history: seq<Entry>, ts: string, server: string, direction: string, message: Json, transport: string)
    requires Directed(history) && !Raises(direction, message)
    ensures forall x: Entry :: Bare(x.event) == Plain(ts, server, direction, message, transport) ==> Directed(history + [x])
  {
    forall x: Entry | Bare(x.event) == Plain(ts, server, direction, message, transport) ensures Directed(history + [x]) {
      assert Bare(x.event).kind == x.event.kind && Bare(x.event).id == x.event.id && Bare(x.event).direction == x.event.direction;
      assert IsDirected(x.event);
      hide IsDirected, Bare, Plain;
    }
  }

  lemma AnsweredIsJustBefore(history: seq<Entry>, i: nat, j: nat, key: Key)
    requires Directed(history) && i < j < |history| && IsDirected(history[j].event)
    requires var e := history[j].event;
             && (e.kind == IsResponse || e.kind == IsError) && e.id != Null
             && key == Key(e.server, if e.direction == "out" then "in" else "out", Norm(e.id))
    ensures KeyOf(history[j].event) == Some(key)
    ensures IsAnsweredBy(history, i, j) <==> IsRequestOf(history[i], key) && JustBefore(history, key, i, j)
  {
    var e := history[j].event;
    hide Norm, KeyOf, Asks, Replies;
    forall k | 0 <= k <= j
      ensures IsRequestOf(history[k], key) <==> Asks(history[k].event, key.server, key.direction, e.id)
      ensures IsResponseTo(history[k], key) <==> Replies(history[k].event, key.server, key.direction, e.id)
    {
      KeyIsRelation(e, history[k].event);
    }
    hide IsDirected, Directed;
    SameRequest(history[i].event, e, key);
    if IsRequestOf(history[i], key) {
      forall k | i < k < j ensures IsUnrelated(history[k].event, history[i].event) <==> KeyOf(history[k].event) != Some(key) {
        SameId(history[k].event, history[i].event, key, e.id);
      }
    }
  }

  lemma KeyIsRelation(e: Event, x: Event)
    requires (e.kind == IsResponse || e.kind == IsError) && e.id != Null && (e.direction == "out" || e.direction == "in") && IsDirected(x)
    ensures var key := Key(e.server, if e.direction == "out" then "in" else "out", Norm(e.id));
            && KeyOf(e) == Some(key)
            && (KeyOf(x) == Some(key) && x.kind == IsRequest <==> Asks(x, key.server, key.direction, e.id))
            && (KeyOf(x) == Some(key) && x.kind != IsRequest <==> Replies(x, key.server, key.direction, e.id))
  {
    hide Norm;
  }

  /** The request that is asked and replied to is one about the reply's key. */
  lemma SameRequest(request: Event, e: Event, key: Key)
    requires (e.kind == IsResponse || e.kind == IsError) && e.id != Null && (e.direction == "out" || e.direction == "in")
    requires key == Key(e.server, if e.direction == "out" then "in" else "out", Norm(e.id))
    ensures Asks(request, request.server, request.direction, request.id) && Replies(e, request.server, request.direction, request.id)
       <==> Asks(request, key.server, key.direction, e.id)
  {
    hide Norm;
  }

  lemma SameId(x: Event, request: Event, key: Key, id: Json)
    requires Asks(request, key.server, key.direction, id)
    ensures IsUnrelated(x, request) <==> !Asks(x, key.server, key.direction, id) && !Replies(x, key.server, key.direction, id)
  {
    hide Norm;
  }

  /** The answer to a request carries the time since it and its own method. */
  lemma AnswerCarriesItsRequest(history: seq<Entry>, i: nat, j: nat)
    requires Recorded(history) && Directed(history) && IsAnsweredBy(history, i, j)
    ensures history[j].event.duration == Some(history[j].clock - history[i].clock)
    ensures history[j].event.requestMethod == if history[i].event.meth == Some("") then None else history[i].event.meth
  {
    var e := history[j].event;
    var key := Key(e.server, if e.direction == "out" then "in" else "out", Norm(e.id));
    assert IsDirected(e) && RecordedAt(history, j);
    hide Norm, KeyOf, Recorded, Directed, Scan;
    AnsweredIsJustBefore(history, i, j, key);
    ScanFinds(history, j, key);
  }

  /** And nothing else carries anything: no message of another server, no answer in the
      request's own direction, no second answer, and no message of another kind. */
  lemma TimedIffAnswer(history: seq<Entry>, j: nat)
    requires Recorded(history) && Directed(history) && j < |history|
    ensures history[j].event.duration.Some? <==> exists i: nat :: IsAnsweredBy(history, i, j)
    ensures history[j].event.requestMethod.Some? ==> history[j].event.duration.Some?
  {
    var e := history[j].event;
    assert IsDirected(e) && RecordedAt(history, j);
    if (e.kind == IsResponse || e.kind == IsError) && e.id != Null {
      var key := Key(e.server, if e.direction == "out" then "in" else "out", Norm(e.id));
      hide Norm, KeyOf, Recorded, Directed, Scan, IsAnsweredBy;
      forall i: nat | i < j ensures IsAnsweredBy(history, i, j) <==> IsRequestOf(history[i], key) && JustBefore(history, key, i, j) {
        AnsweredIsJustBefore(history, i, j, key);
      }
      Earlier(history, j);
      ScanFinds(history, j, key);
      assert KeyOf(e) == Some(key) by { KeyIsRelation(e, e); }
    }
    hide Norm, KeyOf, Recorded, Directed, Scan;
  }

  lemma Earlier(history: seq<Entry>, j: nat)
    ensures forall i: nat :: IsAnsweredBy(history, i, j) ==> i < j
  {
  }

  /** The timers running are the ones a scan of history finds. */
  ghost predicate Refines(pending: map<Key, Started>, history: seq<Entry>) {
    forall key :: (if key in pending then Some(pending[key]) else None) == Scan(history, key)
  }

  lemma ScanLast(history: seq<Entry>, x: Entry, key: Key)
    ensures Scan(history + [x], key)
         == if KeyOf(x.event) == Some(key) then (if x.event.kind.IsRequest? then Some(StartOf(x)) else None) else Scan(history, key)
  {
    assert (history + [x])[..|history|] == history;
  }

  lemma OthersKeep(pending: map<Key, Started>, history: seq<Entry>, x: Entry)
    requires Refines(pending, history) && KeyOf(x.event) == None
    ensures Refines(pending, history + [x])
  {
    forall key ensures (if key in pending then Some(pending[key]) else None) == Scan(history + [x], key) {
      ScanLast(history, x, key);
    }
  }

  lemma RequestStarts(pending: map<Key, Started>, history: seq<Entry>, x: Entry, key: Key)
    requires Refines(pending, history) && KeyOf(x.event) == Some(key) && x.event.kind.IsRequest?
    ensures Refines(pending[key := StartOf(x)], history + [x])
  {
    var after := pending[key := StartOf(x)];
    hide KeyOf, StartOf;
    forall k ensures (if k in after then Some(after[k]) else None) == Scan(history + [x], k) {
      ScanLast(history, x, k);
      assert (if k in pending then Some(pending[k]) else None) == Scan(history, k);
    }
  }

  lemma ResponseStops(pending: map<Key, Started>, history: seq<Entry>, x: Entry, key: Key)
    requires Refines(pending, history) && KeyOf(x.event) == Some(key) && !x.event.kind.IsRequest?
    ensures Refines(pending - {key}, history + [x])
  {
    var after := pending - {key};
    hide KeyOf, StartOf;
    forall k ensures (if k in after then Some(after[k]) else None) == Scan(history + [x], k) {
      ScanLast(history, x, k);
      assert (if k in pending then Some(pending[k]) else None) == Scan(history, k);
    }
  }

  // ----- what an event and its line show ---------------------------------------------------

  /** An event is its message: as it came, from where, and which of the four kinds it is. */
  lemma EventShowsTheMessage(ts: string, server: string, direction: string, message: Json, transport: string)
    ensures var e := Plain(ts, server, direction, message, transport);
            && e.ts == ts && e.server == server && e.transport == transport && e.payload == message
            && (direction == "send" || direction == "out" <==> e.direction == "out")
            && (direction == "recv" || direction == "in" <==> e.direction == "in")
            && (Has(message, "method") && GetOrNull(message, "method").Str? <==> e.meth.Some?)
            && (e.meth.Some? ==> GetOrNull(message, "method") == Str(e.meth.value))
            && e.id == GetOrNull(message, "id")
            && (ParseMessage(message).Ok? ==> e.kind == KindOf(ParseMessage(message).value))
  {
    ClassifyAgrees(message);
    hide ParseMessage, Classify;
  }

  predicate Named(name: string, kind: Kind) {
    match kind
    case IsRequest => name == "request"
    case IsResponse => name == "response"
    case IsNotification => name == "notification"
    case IsError => name == "error"
    case IsUnknown => name == "unknown"
  }

  /** A line of the file holds the event's fields, and the duration exactly if there is one. */
  lemma LineShowsTheEvent(e: Event)
    ensures var j := EventJson(e);
            && Shows(j, "ts", Str(e.ts)) && Shows(j, "direction", Str(e.direction)) && Shows(j, "server", Str(e.server))
            && Shows(j, "transport", Str(e.transport)) && Shows(j, "id", e.id) && Shows(j, "payload", e.payload)
            && (exists name :: Shows(j, "type", Str(name)) && Named(name, e.kind))
            && Shows(j, "method", if e.meth.None? then Null else Str(e.meth.value))
            && (if e.duration.None? then !Has(j, "duration_ms") else Shows(j, "duration_ms", Decimal(e.duration.value, 3)))
  {
    var values :=
      [Str(e.ts), Str(e.direction), Str(e.server), Str(e.transport), Str(TypeName(e.kind)),
       if e.meth.None? then Null else Str(e.meth.value), e.id, e.payload];
    assert Named(TypeName(e.kind), e.kind);
    FieldsShow(values);
    if e.duration.Some? {
      DurationKeeps(Record(FIELDS, values), Decimal(e.duration.value, 3));
    }
    hide TypeName, Named, Record, Put, Shows, Has;
  }

  lemma FieldsShow(values: seq<Json>)
    requires |values| == 8
    ensures var j := Record(FIELDS, values);
            && Shows(j, "ts", values[0]) && Shows(j, "direction", values[1]) && Shows(j, "server", values[2])
            && Shows(j, "transport", values[3]) && Shows(j, "type", values[4]) && Shows(j, "method", values[5])
            && Shows(j, "id", values[6]) && Shows(j, "payload", values[7]) && !Has(j, "duration_ms")
  {
    assert forall i, j :: 0 <= i < j < |FIELDS| ==> FIELDS[i] != FIELDS[j];
    RecordShows(FIELDS, values);
    hide Record, Shows;
    var j := Record(FIELDS, values);
    assert Shows(j, FIELDS[0], values[0]) && Shows(j, FIELDS[1], values[1]) && Shows(j, FIELDS[2], values[2]) && Shows(j, FIELDS[3], values[3]);
    assert Shows(j, FIELDS[4], values[4]) && Shows(j, FIELDS[5], values[5]) && Shows(j, FIELDS[6], values[6]) && Shows(j, FIELDS[7], values[7]);
  }

  lemma DurationKeeps(j: Json, duration: Json)
    requires j.Obj?
    ensures Shows(Put(j, "duration_ms", duration), "duration_ms", duration)
    ensures forall key, value :: key != "duration_ms" && Shows(j, key, value) ==> Shows(Put(j, "duration_ms", duration), key, value)
  {
  }

  // ----- reading the log back ------------------------------------------------------------

  /** tail(k) is the last k of everything recorded, as far as the buffer reaches. */
  lemma TailOfBuffer(history: seq<Event>, bufferSize: nat, count: nat)
    ensures Last(Last(history, bufferSize), count) == Last(history, if count < bufferSize then count else bufferSize)
  {
  }

  lemma EventWellFormed(e: Event)
    requires WellFormed(e.id) && WellFormed(e.payload)
    ensures WellFormed(EventJson(e))
  {
    var values :=
      [Str(e.ts), Str(e.direction), Str(e.server), Str(e.transport), Str(TypeName(e.kind)),
       if e.meth.None? then Null else Str(e.meth.value), e.id, e.payload];
    forall i | 0 <= i < |values| ensures WellFormed(values[i]) {}
    hide Record, WellFormed, Put, TypeName;
    RecordWellFormed(FIELDS, values);
    if e.duration.Some? {
      DurationWellFormed(e.duration.value);
      PutWellFormed(Record(FIELDS, values), "duration_ms", Decimal(e.duration.value, 3));
    }
  }

  lemma DurationWellFormed(d: int)
    ensures WellFormed(Decimal(d, 3))
  {
  }

  lemma {:induction false} LinesAt(events: seq<Event>)
    ensures |Lines(events)| == |events| && forall i :: 0 <= i < |events| ==> Lines(events)[i] == EventJson(events[i])
  {
    hide EventJson;
    if events != [] {
      LinesAt(events[..|events| - 1]);
    }
  }

  /** The file holds exactly the events recorded before close, in order: reading it line
      by line gives back each one. */
  lemma FileReadsBack(events: seq<Event>)
    requires forall i :: 0 <= i < |events| ==> WellFormed(events[i].id) && WellFormed(events[i].payload)
    ensures var read := ReadStream(WriteStream(Lines(events), "\n"));
            |read| == |events| && forall i :: 0 <= i < |events| ==> read[i] == Ok(EventJson(events[i]))
  {
    LinesAt(events);
    hide EventJson, ReadStream, WriteStream, WellFormed, Lines;
    forall i | 0 <= i < |events| ensures WellFormed(Lines(events)[i]) && Lines(events)[i].Obj? {
      EventWellFormed(events[i]);
    }
    StreamRoundTrip(Lines(events), "\n");
  }
}
