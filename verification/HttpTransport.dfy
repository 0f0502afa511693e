/** HttpTransport: one POST per message, its answer folded into an inbox, and the
    session headers learned from the traffic. */
module HttpTransports {
  import opened Prelude
  import opened JsonValues
  import opened JsonRpc
  import opened ClientProtocol

  const INITIALIZE := "initialize"

  datatype Content = Empty | NotJson | Body(json: Json)

  datatype Answer = Answer(status: nat, session: Option<string>, content: Content)

  /** What the network makes of the k-th POST of one message. */
  datatype Attempt = Dropped | Answered(answer: Answer)

  type Network = nat -> Attempt

  datatype Learned = Learned(session: Option<string>, version: Option<string>)

  datatype Headers = Headers(session: Option<string>, version: Option<string>)

  datatype Transport = Transport(started: bool, closed: bool, learned: Learned, inbox: seq<Item>)

  predicate Truth(o: Option<string>) { o.Some? && o.value != "" }

  predicate IsInitialize(message: Json) { GetOrNull(message, METHOD) == Str(INITIALIZE) }

  /** The version is claimed on everything after initialize. */
  function HeadersFor(l: Learned, message: Json): Headers {
    Headers(if Truth(l.session) then l.session else None,
            if Truth(l.version) && !IsInitialize(message) then l.version else None)
  }

  /** The protocolVersion inside an initialize result. */
  function VersionIn(body: Option<Json>): Option<string> {
    var result := if body.Some? then GetOrNull(body.value, RESULT) else Null;
    var version := GetOrNull(result, "protocolVersion");
    if version.Str? then Some(version.s) else None
  }

  function Remember(l: Learned, message: Json, a: Answer, body: Option<Json>): Learned {
    if !IsInitialize(message) then l
    else
      Learned(if Truth(a.session) then a.session else l.session,
              if VersionIn(body).Some? then VersionIn(body) else l.version)
  }

  function BodyOf(a: Answer): Result<Option<Json>, string> {
    if a.status == 202 || a.content.Empty? then Ok(None)
    else if a.status >= 400 then Err("HTTP error")
    else if a.content.NotJson? then Err("response was not JSON")
    else if !a.content.json.Obj? then Err("response was not a JSON object")
    else Ok(Some(a.content.json))
  }

  // ----- the retry loop ----------------------------------------------------------------

  predicate NoneAnswered(net: Network, n: nat) { forall i :: 0 <= i < n ==> net(i).Dropped? }

  /** A dropped POST is repeated, an answered one never: the first answer within
      retries + 1 attempts, if there is one. */
  method Post(net: Network, retries: nat) returns (r: Result<Answer, string>, tries: nat)
    ensures 1 <= tries <= retries + 1 && NoneAnswered(net, tries - 1)
    ensures r.Ok? <==> !NoneAnswered(net, retries + 1)
    ensures r.Ok? ==> net(tries - 1) == Answered(r.value)
    ensures r.Err? ==> tries == retries + 1
  {
    tries := 0;
    while tries < retries + 1
      invariant tries <= retries + 1 && NoneAnswered(net, tries)
    {
      tries := tries + 1;
      match net(tries - 1)
      case Answered(a) => return Ok(a), tries;
      case Dropped =>
    }
    return Err("POST failed"), tries;
  }

  /** The same as a function. */
  function FirstAnswer(net: Network, i: nat, n: nat): Option<Answer>
    decreases n - i
  {
    if i >= n then None
    else match net(i) case Answered(a) => Some(a) case Dropped => FirstAnswer(net, i + 1, n)
  }

  lemma {:induction false} FirstAnswerIs(net: Network, i: nat, n: nat, tries: nat)
    requires i < tries <= n && (forall j :: i <= j < tries - 1 ==> net(j).Dropped?) && net(tries - 1).Answered?
    ensures FirstAnswer(net, i, n) == Some(net(tries - 1).answer)
    decreases n - i
  {
    if i < tries - 1 {
      FirstAnswerIs(net, i + 1, n, tries);
    }
  }

  lemma {:induction false} NoAnswer(net: Network, i: nat, n: nat)
    requires forall j :: i <= j < n ==> net(j).Dropped?
    ensures FirstAnswer(net, i, n) == None
    decreases n - i
  {
    if i < n {
      NoAnswer(net, i + 1, n);
    }
  }

  // ----- send, receive, close --------------------------------------------------------------

  /** send() past its checks: what one answer does to the transport, whatever else has
      happened to it since. A refused body is raised before anything is remembered. */
  function Settle(t: Transport, message: Json, a: Answer): (Result<bool, string>, Transport) {
    match BodyOf(a)
    case Err(e) => (Err(e), t)
    case Ok(body) =>
      var t' := t.(learned := Remember(t.learned, message, a, body));
      (Ok(true), if body.None? then t' else t'.(inbox := t.inbox + [Incoming(body.value)]))
  }

  function Sent(t: Transport, message: Json, net: Network, retries: nat): (Result<bool, string>, Transport) {
    if !t.started then (Err("transport is not started"), t)
    else if t.closed then (Err("transport is closed"), t)
    else
      match FirstAnswer(net, 0, retries + 1)
      case None => (Err("POST failed"), t)
      case Some(a) => Settle(t, message, a)
  }

  function Closed(t: Transport): Transport {
    if t.closed then t else t.(closed := true, inbox := t.inbox + [Eof])
  }

  /** receive(): None at the end of the stream. */
  function Received(inbox: seq<Item>): Option<Json>
    requires inbox != []
  {
    if inbox[0].Eof? then None else Some(inbox[0].raw)
  }

  class HttpTransport {
    const retries: nat
    var started: bool
    var closed: bool
    var sessionId: Option<string>
    var protocolVersion: Option<string>
    var inbox: seq<Item>

    ghost function State(): Transport
      reads this
    {
      Transport(started, closed, Learned(sessionId, protocolVersion), inbox)
    }

    constructor (retries: nat)
      ensures this.retries == retries && State() == Transport(false, false, Learned(None, None), [])
    {
      this.retries := retries;
      started := false;
      closed := false;
      sessionId := None;
      protocolVersion := None;
      inbox := [];
    }

    method Start()
      modifies this
      ensures State() == old(State()).(started := true)
    {
      started := true;
    }

    method Close()
      modifies this
      ensures State() == Closed(old(State()))
    {
      if closed {
        return;
      }
      closed := true;
      inbox := inbox + [Eof];
    }

    method Learn(message: Json, a: Answer, body: Option<Json>)
      modifies this
      ensures State() == old(State()).(learned := Remember(old(State()).learned, message, a, body))
    {
      if GetOrNull(message, METHOD) != Str(INITIALIZE) {
        return;
      }
      if a.session.Some? && a.session.value != "" {
        sessionId := a.session;
      }
      if VersionIn(body).Some? {
        protocolVersion := VersionIn(body);
      }
    }

    method Send(message: Json, net: Network) returns (r: Result<bool, string>)
      modifies this
      ensures (r, State()) == Sent(old(State()), message, net, retries)
    {
      if !started {
        return Err("transport is not started");
      }
      if closed {
        return Err("transport is closed");
      }
      var answer, tries := Post(net, retries);
      if answer.Err? {
        NoAnswer(net, 0, retries + 1);
        return Err("POST failed");
      }
      FirstAnswerIs(net, 0, retries + 1, tries);
      var body := BodyOf(answer.value);
      if body.Err? {
        return Err(body.error);
      }
      Learn(message, answer.value, body.value);
      if body.value.Some? {
        inbox := inbox + [Incoming(body.value.value)];
      }
      return Ok(true);
    }

    /** The marker goes back in, so every other waiter sees the close too. */
    method Receive() returns (item: Option<Json>)
      requires inbox != []
      modifies this
      ensures item == Received(old(inbox)) && State() == old(State()).(inbox := Rest(old(inbox)))
    {
      var head := inbox[0];
      inbox := inbox[1..];
      if head.Eof? {
        inbox := inbox + [Eof];
        return None;
      }
      return Some(head.raw);
    }
  }

  // ----- the end of the stream -----------------------------------------------------------

  /** The inbox after n receive() calls with nothing arriving; the marker is never lost. */
  function Later(inbox: seq<Item>, n: nat): (r: seq<Item>)
    requires Eof in inbox
    ensures Eof in r
  {
    if n == 0 then inbox
    else
      var q := Later(inbox, n - 1);
      assert q == [q[0]] + q[1..];
      Rest(q)
  }

  /** What the n-th receive() returns. */
  function Nth(inbox: seq<Item>, n: nat): Option<Json>
    requires Eof in inbox
  {
    Received(Later(inbox, n))
  }

  lemma {:induction false} LaterOfRest(inbox: seq<Item>, n: nat)
    requires Eof in inbox
    ensures Eof in Rest(inbox) && Later(inbox, n + 1) == Later(Rest(inbox), n)
  {
    if n > 0 {
      LaterOfRest(inbox, n - 1);
    }
  }

  lemma {:induction false} MessageIsReached(inbox: seq<Item>, i: nat)
    requires Eof in inbox && i < |inbox| && inbox[i].Incoming? && forall j :: 0 <= j < i ==> inbox[j].Eof?
    ensures Nth(inbox, i) == Some(inbox[i].raw)
    decreases i
  {
    if i > 0 {
      LaterOfRest(inbox, i - 1);
      MessageIsReached(Rest(inbox), i - 1);
    }
  }

  lemma {:induction false} OnlyMarkers(inbox: seq<Item>, n: nat)
    requires Eof in inbox && forall i :: 0 <= i < |inbox| ==> inbox[i].Eof?
    ensures forall i :: 0 <= i < |Later(inbox, n)| ==> Later(inbox, n)[i].Eof?
  {
    if n > 0 {
      OnlyMarkers(inbox, n - 1);
    }
  }

  /** Once receive() has returned None it does so for ever exactly when nothing but
      markers is left behind the one it put back. */
  lemma EndIsStickyIff(inbox: seq<Item>)
    requires Eof in inbox
    ensures (forall n: nat :: Nth(inbox, n).None?) <==> (forall i :: 0 <= i < |inbox| ==> inbox[i].Eof?)
  {
    if forall i :: 0 <= i < |inbox| ==> inbox[i].Eof? {
      forall n: nat ensures Nth(inbox, n).None? {
        OnlyMarkers(inbox, n);
      }
    } else {
      var i := FirstMessage(inbox);
      MessageIsReached(inbox, i);
    }
  }

  lemma {:induction false} FirstMessage(inbox: seq<Item>) returns (i: nat)
    requires exists i :: 0 <= i < |inbox| && inbox[i].Incoming?
    ensures i < |inbox| && inbox[i].Incoming? && forall j :: 0 <= j < i ==> inbox[j].Eof?
  {
    i := 0;
    while inbox[i].Eof?
      invariant i < |inbox| && forall j :: 0 <= j < i ==> inbox[j].Eof?
      invariant exists k :: i <= k < |inbox| && inbox[k].Incoming?
      decreases |inbox| - i
    {
      i := i + 1;
    }
  }

  /** The markers of a queue, which receiving moves to its end. */
  function Marks(inbox: seq<Item>): (r: seq<Item>)
    ensures forall i :: 0 <= i < |r| ==> r[i].Eof?
  {
    if inbox == [] then [] else (if inbox[0].Eof? then [Eof] else []) + Marks(inbox[1..])
  }

  /** Receiving everything up to some point leaves the rest, and the markers behind it. */
  lemma {:induction false} ReceivedUpTo(inbox: seq<Item>, rest: seq<Item>)
    requires Eof in inbox + rest
    ensures Later(inbox + rest, |inbox|) == rest + Marks(inbox)
    decreases |inbox|
  {
    var all := inbox + rest;
    if inbox == [] {
      assert all == rest;
    } else {
      var more := if inbox[0].Eof? then [Eof] else [];
      assert all == [inbox[0]] + (inbox[1..] + rest);
      assert Rest(all) == inbox[1..] + (rest + more);
      LaterOfRest(all, |inbox| - 1);
      ReceivedUpTo(inbox[1..], rest + more);
      assert (rest + more) + Marks(inbox[1..]) == rest + (more + Marks(inbox[1..]));
    }
  }

  lemma {:induction false} LaterAdds(inbox: seq<Item>, m: nat, n: nat)
    requires Eof in inbox
    ensures Later(inbox, m + n) == Later(Later(inbox, m), n)
  {
    if n > 0 {
      LaterAdds(inbox, m, n - 1);
    }
  }

  lemma BehindTheMarker(q: seq<Item>, body: Json)
    ensures var late := q + [Eof, Incoming(body)];
            Eof in late && Nth(late, |q|) == None && Nth(late, |q| + 1) == Some(body)
  {
    var late := q + [Eof, Incoming(body)];
    assert late[|q|] == Eof;
    ReceivedUpTo(q, [Eof, Incoming(body)]);
    LaterAdds(late, |q|, 1);
    var there := Later(late, |q|);
    OneLater(there);
    hide Later, Marks;
    assert Rest(there)[0] == Incoming(body);
  }

  lemma BeforeTheMarker(q: seq<Item>, body: Json, n: nat)
    ensures var early := q + [Incoming(body), Eof];
            Eof in early && Nth(early, |q|) == Some(body) && (n > |q| ==> Nth(early, n) == None)
  {
    var early := q + [Incoming(body), Eof];
    assert early[|q| + 1] == Eof;
    ReceivedUpTo(q, [Incoming(body), Eof]);
    if n > |q| {
      var there := Later(early, |q|);
      LaterAdds(early, |q|, 1);
      LaterAdds(early, |q| + 1, n - |q| - 1);
      OneLater(there);
      hide Later;
      assert Rest(there) == [Eof] + Marks(q);
      OnlyMarkers(Rest(there), n - |q| - 1);
    }
  }

  lemma OneLater(inbox: seq<Item>)
    requires Eof in inbox
    ensures Later(inbox, 1) == Rest(inbox)
  {
    assert Later(inbox, 0) == inbox;
  }

  /** A POST still in flight when close() runs puts its body behind the marker: whatever was
      waiting before it, the stream ends, and then goes on with the body. Over the same
      steps in the other order it ends for good. */
  lemma LateBodyReopensTheStream(t: Transport, message: Json, a: Answer)
    requires !t.closed && BodyOf(a).Ok? && BodyOf(a).value.Some?
    ensures var late, k := Settle(Closed(t), message, a).1.inbox, |t.inbox|;
            Eof in late && Nth(late, k) == None && Nth(late, k + 1) == BodyOf(a).value
    ensures var early, k := Closed(Settle(t, message, a).1).inbox, |t.inbox|;
            Eof in early && Nth(early, k) == BodyOf(a).value && forall n: nat :: n > k ==> Nth(early, n) == None
  {
    hide Nth, Later;
    var body, q := BodyOf(a).value.value, t.inbox;
    assert (q + [Eof]) + [Incoming(body)] == q + [Eof, Incoming(body)];
    assert (q + [Incoming(body)]) + [Eof] == q + [Incoming(body), Eof];
    BehindTheMarker(q, body);
    BeforeTheMarker(q, body, 0);
    forall n: nat | n > |q| ensures Nth(q + [Incoming(body), Eof], n) == None {
      BeforeTheMarker(q, body, n);
    }
  }

  // ----- failed exchanges -------------------------------------------------------------------

  /** The status is no success. */
  predicate Failed(a: Answer) { a.status < 200 || a.status > 299 }

  /** An answer with something in it: an error status, or no JSON object. */
  predicate Complains(a: Answer) {
    !a.content.Empty? && (a.status >= 400 || !a.content.Body? || !a.content.json.Obj?)
  }

  /** A failed exchange is raised to the caller of send() exactly when the answer has a body
      and is an error status or carries no JSON object. Otherwise the send succeeds: an
      empty one as if no answer were owed, an object below 400 as the answer itself. */
  lemma FailureIsRaisedIff(t: Transport, message: Json, net: Network, retries: nat, k: nat)
    requires t.started && !t.closed && k <= retries && NoneAnswered(net, k) && net(k).Answered? && Failed(net(k).answer)
    ensures var a := net(k).answer;
            var (r, t') := Sent(t, message, net, retries);
            && (r.Err? <==> Complains(a))
            && (r.Err? ==> t' == t)
            && (r.Ok? ==> t'.inbox == t.inbox + if a.content.Empty? then [] else [Incoming(a.content.json)])
  {
    FirstAnswerIs(net, 0, retries + 1, k + 1);
  }

  /** Any other answer: 202 and an empty body owe nothing; a body that is an object is the
      answer, and anything else is raised. */
  lemma SuccessIsEnqueuedIff(t: Transport, message: Json, net: Network, retries: nat, k: nat)
    requires t.started && !t.closed && k <= retries && NoneAnswered(net, k) && net(k).Answered? && !Failed(net(k).answer)
    ensures var a := net(k).answer;
            var (r, t') := Sent(t, message, net, retries);
            if a.status == 202 || a.content.Empty? then r.Ok? && t'.inbox == t.inbox
            else if a.content.Body? && a.content.json.Obj? then r.Ok? && t'.inbox == t.inbox + [Incoming(a.content.json)]
            else r.Err? && t' == t
  {
    FirstAnswerIs(net, 0, retries + 1, k + 1);
  }

  /** After an initialize was answered with a session id and a version, every message names
      the session, and every one but another initialize claims the version. */
  lemma NextMessageClaims(t: Transport, message: Json, a: Answer, result: Json, id: string, version: string, next: Json)
    requires Shows(message, "method", Str("initialize")) && a.status == 200 && a.session == Some(id) && id != "" && version != ""
    requires a.content.Body? && Shows(a.content.json, "result", result) && Shows(result, "protocolVersion", Str(version))
    ensures var headers := HeadersFor(Settle(t, message, a).1.learned, next);
            && headers.session == Some(id)
            && headers.version == if Shows(next, "method", Str("initialize")) then None else Some(version)
  {
    assert BodyOf(a) == Ok(Some(a.content.json));
    assert VersionIn(Some(a.content.json)) == Some(version);
    assert IsInitialize(next) <==> Shows(next, "method", Str("initialize"));
    hide VersionIn, IsInitialize, Shows, BodyOf;
    assert IsInitialize(message) by { Initializes(message); }
  }

  lemma Initializes(message: Json)
    requires Shows(message, "method", Str("initialize"))
    ensures IsInitialize(message)
  {
  }

  /** A redirect whose body is an object is taken for the answer. */
  lemma RedirectIsEnqueued(t: Transport, message: Json, retries: nat, body: Json)
    requires t.started && !t.closed && body.Obj?
    ensures var net: Network := _ => Answered(Answer(302, None, Body(body)));
            Sent(t, message, net, retries).0 == Ok(true) && Sent(t, message, net, retries).1.inbox == t.inbox + [Incoming(body)]
  {
    var net: Network := _ => Answered(Answer(302, None, Body(body)));
    FailureIsRaisedIff(t, message, net, retries, 0);
  }

  /** A server error without a body is taken for an answer that owes nothing. */
  lemma EmptyErrorIsSilent(t: Transport, message: Json, retries: nat)
    requires t.started && !t.closed
    ensures var net: Network := _ => Answered(Answer(500, None, Empty));
            Sent(t, message, net, retries).0 == Ok(true) && Sent(t, message, net, retries).1.inbox == t.inbox
  {
    var net: Network := _ => Answered(Answer(500, None, Empty));
    FailureIsRaisedIff(t, message, net, retries, 0);
  }
}
