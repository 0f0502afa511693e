/** The state NetopsStore owns: tickets, visits and the ticket counter. */
module TicketStore {
  import opened Prelude
  import opened JsonValues
  import opened JsonText

  datatype Entry = Entry(at: string, status: string, note: string)

  datatype Ticket = Ticket(
    ticketId: string, accountId: string, category: string, description: string, priority: string,
    status: string, createdAt: string, updatedAt: string, history: seq<Entry>)

  datatype Visit = Visit(
    ticketId: string, accountId: string, date: string, timeWindow: string, status: string, scheduledAt: string)

  /** The two dicts keep their insertion order beside their contents. */
  datatype StoreState = StoreState(
    ticketIds: seq<string>, tickets: map<string, Ticket>,
    visitIds: seq<string>, visits: map<string, Visit>,
    counter: nat)

  const EMPTY_STORE := StoreState([], map[], [], map[], 0)

  const OPEN := "open"
  const SCHEDULED := "scheduled"

  // ----- ticket ids ------------------------------------------------------------

  /** f"TCK-{n:05d}" */
  function TicketId(n: nat): string {
    "TCK-" + (if n < Pow10(5) then PadDigits(n, 5) else Digits(n))
  }

  /** Injective for every counter value, also past 99999 where the padding ends. */
  lemma TicketIdIsInjective(m: nat, n: nat)
    requires TicketId(m) == TicketId(n)
    ensures m == n
  {
    hide Pow10, PadDigits, Digits, Value;
    var a := if m < Pow10(5) then PadDigits(m, 5) else Digits(m);
    var b := if n < Pow10(5) then PadDigits(n, 5) else Digits(n);
    assert TicketId(m)[4..] == a && TicketId(n)[4..] == b;
  }

  /** TCK- and the number, in five digits with zeros in front while it fits, and in as many
      as it needs after that. */
  lemma TicketIdReads(n: nat)
    ensures var id := TicketId(n);
            && |id| >= 9 && id[..4] == "TCK-" && AllDigits(id[4..]) && Value(id[4..]) == n
            && (n < 100000 ==> |id| == 9) && (n >= 100000 ==> id[4] != '0')
  {
    assert Pow10(5) == 100000 by { FiveZeros(); }
    hide Pow10, PadDigits, Digits;
    if n >= 100000 { LongEnough(Digits(n), 5); }
    var text := if n < Pow10(5) then PadDigits(n, 5) else Digits(n);
    assert TicketId(n)[4..] == text && TicketId(n)[..4] == "TCK-";
    hide Value, AllDigits, TicketId;
  }

  lemma FiveZeros()
    ensures Pow10(5) == 100000
  {
    assert Pow10(1) == 10 && Pow10(2) == 100 && Pow10(3) == 1000 && Pow10(4) == 10000;
  }

  /** k digits stand for less than 10^k. */
  lemma {:induction false} ValueBelow(s: string)
    requires AllDigits(s)
    ensures Value(s) < Pow10(|s|)
  {
    if s != "" {
      ValueBelow(s[..|s| - 1]);
    }
  }

  lemma {:induction false} PowGrows(j: nat, k: nat)
    requires j <= k
    ensures Pow10(j) <= Pow10(k)
    decreases k - j
  {
    if j < k {
      PowGrows(j, k - 1);
    }
  }

  lemma LongEnough(s: string, k: nat)
    requires AllDigits(s) && Value(s) >= Pow10(k)
    ensures |s| > k
  {
    ValueBelow(s);
    if |s| <= k { PowGrows(|s|, k); }
    hide Pow10, Value, AllDigits;
  }

  // ----- the two operations ------------------------------------------------------

  function NewTicket(id: string, account: string, category: string, description: string, priority: string, now: string): Ticket {
    Ticket(id, account, category, description, priority, OPEN, now, now, [Entry(now, OPEN, "Ticket creado por el asistente")])
  }

  /** create_ticket, up to its save. */
  function Opened(st: StoreState, account: string, category: string, description: string, priority: string, now: string): StoreState {
    var id := TicketId(st.counter + 1);
    AddTicket(st, id, NewTicket(id, account, category, description, priority, now))
  }

  function AddTicket(st: StoreState, id: string, t: Ticket): StoreState {
    st.(counter := st.counter + 1,
        ticketIds := if id in st.tickets then st.ticketIds else st.ticketIds + [id],
        tickets := st.tickets[id := t])
  }

  function NewVisit(ticket: Ticket, id: string, date: string, timeWindow: string, now: string): Visit {
    Visit(id, ticket.accountId, date, timeWindow, SCHEDULED, now)
  }

  function VisitNote(date: string, timeWindow: string): string {
    "Visita técnica agendada para " + date + " en la ventana " + timeWindow
  }

  function WithVisit(ticket: Ticket, date: string, timeWindow: string, now: string): Ticket {
    ticket.(status := SCHEDULED, updatedAt := now,
            history := ticket.history + [Entry(now, SCHEDULED, VisitNote(date, timeWindow))])
  }

  /** schedule_visit, up to its save. */
  function Scheduled(st: StoreState, id: string, date: string, timeWindow: string, now: string): StoreState
    requires id in st.tickets
  {
    PutVisit(st, id, WithVisit(st.tickets[id], date, timeWindow, now), NewVisit(st.tickets[id], id, date, timeWindow, now))
  }

  function PutVisit(st: StoreState, id: string, t: Ticket, v: Visit): StoreState {
    st.(visitIds := if id in st.visits then st.visitIds else st.visitIds + [id],
        visits := st.visits[id := v],
        tickets := st.tickets[id := t])
  }

  datatype StoreOp =
    | OpenTicket(account: string, category: string, description: string, priority: string, now: string)
    | ScheduleVisit(id: string, date: string, timeWindow: string, now: string)

  /** An unknown ticket id is a KeyError: nothing changes. */
  function Apply(st: StoreState, op: StoreOp): StoreState {
    match op
    case OpenTicket(account, category, description, priority, now) => Opened(st, account, category, description, priority, now)
    case ScheduleVisit(id, date, timeWindow, now) => if id in st.tickets then Scheduled(st, id, date, timeWindow, now) else st
  }

  function ApplyAll(st: StoreState, ops: seq<StoreOp>): StoreState
    decreases |ops|
  {
    if ops == [] then st else ApplyAll(Apply(st, ops[0]), ops[1..])
  }

  // ----- the invariant -------------------------------------------------------------

  ghost predicate Distinct(ids: seq<string>) { forall i, j :: 0 <= i < j < |ids| ==> ids[i] != ids[j] }

  /** Every ticket the counter has reached exists, in order, and no other. */
  ghost predicate IdsOk(st: StoreState) {
    && |st.ticketIds| == st.counter
    && (forall i :: 0 <= i < st.counter ==> st.ticketIds[i] == TicketId(i + 1))
    && (forall id :: id in st.tickets <==> id in st.ticketIds)
    && (forall id :: id in st.visits <==> id in st.visitIds)
    && Distinct(st.visitIds)
  }

  /** The last history entry agrees with status and updated_at. */
  predicate TicketOk(id: string, t: Ticket) {
    && t.ticketId == id
    && |t.history| > 0 && t.history[0].at == t.createdAt
    && t.history[|t.history| - 1].status == t.status && t.history[|t.history| - 1].at == t.updatedAt
    && (t.status == OPEN || t.status == SCHEDULED)
  }

  /** A visit belongs to a ticket, copies its account, and exists iff the status says so. */
  ghost predicate VisitsOk(st: StoreState) {
    && (forall id :: id in st.visits ==>
          && id in st.tickets && st.visits[id].ticketId == id
          && st.visits[id].accountId == st.tickets[id].accountId
          && st.visits[id].status == SCHEDULED && st.visits[id].scheduledAt == st.tickets[id].updatedAt)
    && (forall id :: id in st.tickets ==> (id in st.visits <==> st.tickets[id].status == SCHEDULED))
  }

  ghost predicate TicketsOk(st: StoreState) {
    forall id :: id in st.tickets ==> TicketOk(id, st.tickets[id])
  }

  ghost predicate StoreOk(st: StoreState) {
    IdsOk(st) && VisitsOk(st) && TicketsOk(st)
  }

  lemma NextIdIsNew(st: StoreState)
    requires IdsOk(st)
    ensures TicketId(st.counter + 1) !in st.tickets
  {
    var id := TicketId(st.counter + 1);
    if id in st.ticketIds {
      var i :| 0 <= i < st.counter && st.ticketIds[i] == id;
      TicketIdIsInjective(i + 1, st.counter + 1);
      assert false;
    }
  }

  lemma AddKeepsIds(st: StoreState, id: string, t: Ticket)
    requires IdsOk(st) && id == TicketId(st.counter + 1) && id !in st.tickets
    ensures IdsOk(AddTicket(st, id, t))
  {
    hide TicketId;
    var st' := AddTicket(st, id, t);
    forall k ensures k in st'.tickets <==> k in st'.ticketIds {
      assert k in st'.ticketIds <==> k in st.ticketIds || k == id;
    }
  }

  lemma AddKeepsVisits(st: StoreState, id: string, t: Ticket)
    requires VisitsOk(st) && id !in st.tickets && t.status != SCHEDULED
    ensures VisitsOk(AddTicket(st, id, t))
  {
    hide SCHEDULED;
  }

  lemma AddKeepsTickets(st: StoreState, id: string, t: Ticket)
    requires TicketsOk(st) && TicketOk(id, t)
    ensures TicketsOk(AddTicket(st, id, t))
  {
    hide TicketOk;
  }

  lemma OpenKeepsOk(st: StoreState, account: string, category: string, description: string, priority: string, now: string)
    requires StoreOk(st)
    ensures StoreOk(Opened(st, account, category, description, priority, now))
  {
    NextIdIsNew(st);
    var id := TicketId(st.counter + 1);
    var t := NewTicket(id, account, category, description, priority, now);
    assert TicketOk(id, t) && t.status != SCHEDULED by { NewTicketOk(id, account, category, description, priority, now); }
    hide IdsOk, VisitsOk, TicketsOk, TicketId, AddTicket, NewTicket, SCHEDULED;
    AddKeepsIds(st, id, t);
    AddKeepsVisits(st, id, t);
    AddKeepsTickets(st, id, t);
  }

  lemma NewTicketOk(id: string, account: string, category: string, description: string, priority: string, now: string)
    ensures var t := NewTicket(id, account, category, description, priority, now); TicketOk(id, t) && t.status != SCHEDULED
  {
  }

  lemma PutKeepsIds(st: StoreState, id: string, t: Ticket, v: Visit)
    requires IdsOk(st) && id in st.tickets
    ensures IdsOk(PutVisit(st, id, t, v))
  {
    hide TicketId;
    var st' := PutVisit(st, id, t, v);
    forall k ensures k in st'.visits <==> k in st'.visitIds {
      assert k in st'.visitIds <==> k in st.visitIds || k == id;
    }
  }

  lemma PutKeepsVisits(st: StoreState, id: string, t: Ticket, v: Visit)
    requires VisitsOk(st) && id in st.tickets && t.status == SCHEDULED && t.accountId == st.tickets[id].accountId
    requires v.ticketId == id && v.accountId == t.accountId && v.status == SCHEDULED && v.scheduledAt == t.updatedAt
    ensures VisitsOk(PutVisit(st, id, t, v))
  {
    hide SCHEDULED;
  }

  lemma WithVisitOk(id: string, t: Ticket, date: string, timeWindow: string, now: string)
    requires TicketOk(id, t)
    ensures TicketOk(id, WithVisit(t, date, timeWindow, now)) && Grown(t, WithVisit(t, date, timeWindow, now))
  {
    hide VisitNote;
  }

  lemma ScheduleKeepsOk(st: StoreState, id: string, date: string, timeWindow: string, now: string)
    requires StoreOk(st) && id in st.tickets
    ensures StoreOk(Scheduled(st, id, date, timeWindow, now))
  {
    hide IdsOk, VisitsOk, TicketId, PutVisit, VisitNote, SCHEDULED, TicketOk;
    var t := WithVisit(st.tickets[id], date, timeWindow, now);
    var v := NewVisit(st.tickets[id], id, date, timeWindow, now);
    WithVisitOk(id, st.tickets[id], date, timeWindow, now);
    hide TicketsOk;
    PutKeepsIds(st, id, t, v);
    PutKeepsVisits(st, id, t, v);
    PutKeepsTickets(st, id, t, v);
  }

  lemma PutKeepsTickets(st: StoreState, id: string, t: Ticket, v: Visit)
    requires TicketsOk(st) && TicketOk(id, t)
    ensures TicketsOk(PutVisit(st, id, t, v))
  {
    hide TicketOk;
  }

  // ----- nothing is ever taken back ---------------------------------------------------

  /** The later ticket is the earlier one with, at most, more history. */
  predicate Grown(t: Ticket, u: Ticket) {
    && u.ticketId == t.ticketId && u.accountId == t.accountId && u.category == t.category
    && u.description == t.description && u.priority == t.priority && u.createdAt == t.createdAt
    && t.history <= u.history
  }

  ghost predicate Extends(a: StoreState, b: StoreState) {
    && a.counter <= b.counter
    && (forall id :: id in a.tickets ==> id in b.tickets && Grown(a.tickets[id], b.tickets[id]))
    && (forall id :: id in a.visits ==> id in b.visits)
  }

  lemma ExtendsTrans(a: StoreState, b: StoreState, c: StoreState)
    requires Extends(a, b) && Extends(b, c)
    ensures Extends(a, c)
  {
    forall id | id in a.tickets ensures id in c.tickets && Grown(a.tickets[id], c.tickets[id]) {
      assert Grown(a.tickets[id], b.tickets[id]) && Grown(b.tickets[id], c.tickets[id]);
    }
  }

  lemma AddExtends(st: StoreState, id: string, t: Ticket)
    requires id !in st.tickets
    ensures Extends(st, AddTicket(st, id, t))
  {
    GrownItself();
    hide Grown;
  }

  lemma PutExtends(st: StoreState, id: string, t: Ticket, v: Visit)
    requires id in st.tickets && Grown(st.tickets[id], t)
    ensures Extends(st, PutVisit(st, id, t, v))
  {
    GrownItself();
    hide Grown;
  }

  lemma ApplyExtends(st: StoreState, op: StoreOp)
    requires StoreOk(st)
    ensures Extends(st, Apply(st, op)) && StoreOk(Apply(st, op))
  {
    hide StoreOk, Extends, TicketId, NewTicket, NewVisit, WithVisit, AddTicket, PutVisit;
    match op
    case OpenTicket(account, category, description, priority, now) =>
      OpenKeepsOk(st, account, category, description, priority, now);
      NextIdOfOk(st);
      AddExtends(st, TicketId(st.counter + 1), NewTicket(TicketId(st.counter + 1), account, category, description, priority, now));
    case ScheduleVisit(id, date, timeWindow, now) =>
      if id in st.tickets {
        ScheduleKeepsOk(st, id, date, timeWindow, now);
        OneGrows(st, id, date, timeWindow, now);
        PutExtends(st, id, WithVisit(st.tickets[id], date, timeWindow, now), NewVisit(st.tickets[id], id, date, timeWindow, now));
      } else {
        ExtendsItself(st);
      }
  }

  lemma GrownItself()
    ensures forall t :: Grown(t, t)
  {
  }

  lemma OneGrows(st: StoreState, id: string, date: string, timeWindow: string, now: string)
    requires StoreOk(st) && id in st.tickets
    ensures Grown(st.tickets[id], WithVisit(st.tickets[id], date, timeWindow, now))
  {
    hide IdsOk, VisitsOk, TicketOk, Grown, WithVisit;
    WithVisitOk(id, st.tickets[id], date, timeWindow, now);
  }

  /** The invariant holds after any run of the two operations. */
  lemma {:induction false} RunsKeepOk(st: StoreState, ops: seq<StoreOp>)
    requires StoreOk(st)
    ensures StoreOk(ApplyAll(st, ops))
    decreases |ops|
  {
    if ops != [] {
      hide StoreOk, Apply;
      ApplyExtends(st, ops[0]);
      RunsKeepOk(Apply(st, ops[0]), ops[1..]);
    }
  }

  /** Whatever runs next: no ticket loses history, no visit goes away, and a ticket
      opened later has an id no earlier ticket had. */
  lemma {:induction false} HistoryOnlyGrows(st: StoreState, ops: seq<StoreOp>)
    requires StoreOk(st)
    ensures Extends(st, ApplyAll(st, ops))
    ensures TicketId(ApplyAll(st, ops).counter + 1) !in st.tickets
    decreases |ops|
  {
    hide StoreOk, Extends, Apply, TicketId;
    if ops == [] {
      ExtendsItself(st);
      NextIdOfOk(st);
    } else {
      ApplyExtends(st, ops[0]);
      var st' := Apply(st, ops[0]);
      HistoryOnlyGrows(st', ops[1..]);
      ExtendsTrans(st, st', ApplyAll(st', ops[1..]));
      KeptIds(st, st');
    }
  }

  lemma ExtendsItself(st: StoreState)
    ensures Extends(st, st)
  {
  }

  lemma NextIdOfOk(st: StoreState)
    requires StoreOk(st)
    ensures TicketId(st.counter + 1) !in st.tickets
  {
    NextIdIsNew(st);
  }

  lemma KeptIds(a: StoreState, b: StoreState)
    requires Extends(a, b)
    ensures forall id :: id in a.tickets ==> id in b.tickets
  {
  }
}
