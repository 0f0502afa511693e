/** ServerRegistry: many servers, one table of namespaced tools. */
module ToolRegistry {
  import opened Prelude
  import opened JsonValues

  const SEPARATOR := "__"

  /** f"{server}__{name}" */
  function Qualified(server: string, tool: string): string { server + SEPARATOR + tool }

  // ----- when names can be told apart --------------------------------------------------

  predicate IsPrefix(a: string, b: string) { |a| <= |b| && b[..|a|] == a }

  predicate HasSeparator(s: string) { exists i :: 0 <= i < |s| - 1 && s[i] == '_' && s[i + 1] == '_' }

  /** No double underscore inside, no underscore at the end. */
  predicate Plain(server: string) { !HasSeparator(server) && (server == "" || server[|server| - 1] != '_') }

  predicate Extends(longer: string, shorter: string) { IsPrefix(shorter + SEPARATOR, longer + SEPARATOR) }

  lemma SameStart(s: string, t: string, x: string, y: string)
    requires Qualified(s, x) == Qualified(t, y) && |s| <= |t|
    ensures Extends(t, s)
  {
    var q := Qualified(s, x);
    assert q[..|s| + 2] == s + SEPARATOR;
    assert q[..|t| + 2] == t + SEPARATOR;
    assert (t + SEPARATOR)[..|s| + 2] == q[..|s| + 2];
  }

  /** Two servers can clash, whatever tools they offer, exactly when one name followed by
      the separator starts with the other one followed by it. */
  lemma ClashIff(s: string, t: string)
    ensures (exists x, y :: x != "" && y != "" && Qualified(s, x) == Qualified(t, y)) <==> Extends(t, s) || Extends(s, t)
  {
    if x, y :| x != "" && y != "" && Qualified(s, x) == Qualified(t, y) {
      if |s| <= |t| { SameStart(s, t, x, y); } else { SameStart(t, s, y, x); }
    }
    if Extends(t, s) {
      Clash(s, t);
    } else if Extends(s, t) {
      Clash(t, s);
    }
  }

  lemma Clash(s: string, t: string)
    requires Extends(t, s)
    ensures exists x, y :: x != "" && y != "" && Qualified(s, x) == Qualified(t, y)
  {
    var u := (t + SEPARATOR)[|s| + 2..];
    assert t + SEPARATOR == (s + SEPARATOR) + u;
    assert Qualified(t, "y") == (s + SEPARATOR) + (u + "y");
    assert Qualified(s, u + "y") == (s + SEPARATOR) + (u + "y");
  }

  lemma ExtendingNameIsNotPlain(t: string, s: string)
    requires Extends(t, s) && s != t
    ensures !Plain(t)
  {
    var whole, start := t + SEPARATOR, s + SEPARATOR;
    assert whole[..|start|] == start;
    assert whole[|s|] == start[|s|] && whole[|s| + 1] == start[|s| + 1] && whole[..|s|] == start[..|s|];
    if |s| + 1 < |t| {
      assert t[|s|] == '_' && t[|s| + 1] == '_';
    } else {
      assert t[|t| - 1] == '_';
    }
  }

  /** Between plainly named servers a qualified name determines the server and the tool. */
  lemma QualifiedIsInjective(s: string, t: string, x: string, y: string)
    requires Plain(s) && Plain(t) && Qualified(s, x) == Qualified(t, y)
    ensures s == t && x == y
  {
    if |s| <= |t| {
      SameStart(s, t, x, y);
      if s != t { ExtendingNameIsNotPlain(t, s); }
    } else {
      SameStart(t, s, y, x);
      if s != t { ExtendingNameIsNotPlain(s, t); }
    }
    assert Qualified(s, x)[|s| + 2..] == x && Qualified(t, y)[|t| + 2..] == y;
  }

  // ----- one server -------------------------------------------------------------------------

  datatype RegisteredTool = RegisteredTool(server: string, name: string, definition: Json)

  predicate NameChar(c: char) {
    ('a' <= c <= 'z') || ('A' <= c <= 'Z') || ('0' <= c <= '9') || c == '_' || c == '-'
  }

  predicate NameBody(s: string) { 1 <= |s| <= 128 && forall i :: 0 <= i < |s| ==> NameChar(s[i]) }

  /** The pattern's $ also matches before a final line feed. */
  predicate Usable(name: string) {
    NameBody(name) || (name != "" && name[|name| - 1] == '\n' && NameBody(name[..|name| - 1]))
  }

  /** How reaching one server ends: an exception connect_all catches or not, before or
      after the client is kept, or the definitions it lists. */
  datatype Outcome = Unreachable(caught: bool) | Unlisted(caught: bool) | Offers(definitions: seq<Json>)

  datatype Ending = Fine | Caught | Uncaught

  datatype Registry = Registry(clients: seq<string>, failures: set<string>, tools: map<string, RegisteredTool>)

  /** The name under which a definition is registered, if it is. */
  function NameIn(server: string, definition: Json): Option<string> {
    var name := GetOrNull(definition, "name");
    if name.Str? && name.s != "" && Usable(Qualified(server, name.s)) then Some(name.s) else None
  }

  /** A letter, a digit, an underscore or a hyphen. */
  predicate IsNameChar(c: char) {
    var n := c as int; 97 <= n <= 122 || 65 <= n <= 90 || 48 <= n <= 57 || n == 95 || n == 45
  }

  predicate IsApiName(s: string) { 1 <= |s| <= 128 && forall i :: 0 <= i < |s| ==> IsNameChar(s[i]) }

  /** A final line feed aside, it is 1 to 128 such characters. */
  predicate FitsTheApi(qualified: string) {
    var n := |qualified|; IsApiName(if n > 0 && qualified[n - 1] == '\n' then qualified[..n - 1] else qualified)
  }

  lemma NameBodyIs(s: string)
    ensures NameBody(s) <==> IsApiName(s)
  {
    assert forall c :: NameChar(c) <==> IsNameChar(c);
    hide NameChar, IsNameChar;
  }

  /** A definition is registered exactly when it has a name that is not empty and whose
      qualified form the API accepts. */
  lemma RegisteredIff(server: string, definition: Json, name: string)
    ensures NameIn(server, definition) == Some(name)
       <==> Shows(definition, "name", Str(name)) && name != "" && FitsTheApi(server + "__" + name)
  {
    var q := server + "__" + name;
    assert Qualified(server, name) == q;
    UsableIs(q);
    hide Usable, FitsTheApi;
  }

  lemma UsableIs(q: string)
    ensures Usable(q) <==> FitsTheApi(q)
  {
    NameBodyIs(q);
    if q != "" && q[|q| - 1] == '\n' {
      NameBodyIs(q[..|q| - 1]);
      assert !IsNameChar(q[|q| - 1]) && !IsApiName(q);
    }
    hide NameBody, IsApiName;
  }

  function AddTool(tools: map<string, RegisteredTool>, server: string, definition: Json): map<string, RegisteredTool> {
    match NameIn(server, definition)
    case None => tools
    case Some(name) => tools[Qualified(server, name) := RegisteredTool(server, name, definition)]
  }

  /** The definitions before the first one that is no dict: reading its name raises. */
  function Readable(definitions: seq<Json>): (r: seq<Json>)
    ensures |r| <= |definitions| && r == definitions[..|r|]
    ensures forall d :: d in r ==> d.Obj?
    ensures |r| < |definitions| ==> !definitions[|r|].Obj?
  {
    if definitions == [] || !definitions[0].Obj? then [] else [definitions[0]] + Readable(definitions[1..])
  }

  function AddAll(tools: map<string, RegisteredTool>, server: string, definitions: seq<Json>): map<string, RegisteredTool> {
    if definitions == [] then tools
    else
      var n := |definitions| - 1;
      AddTool(AddAll(tools, server, definitions[..n]), server, definitions[n])
  }

  /** The clients by name, in the order in which they were first kept. */
  function Keep(clients: seq<string>, name: string): seq<string> { if name in clients then clients else clients + [name] }

  function ConnectOne(r: Registry, name: string, o: Outcome): (Registry, Ending) {
    match o
    case Unreachable(caught) => (r, if caught then Caught else Uncaught)
    case Unlisted(caught) => (r.(clients := Keep(r.clients, name)), if caught then Caught else Uncaught)
    case Offers(definitions) =>
      (r.(clients := Keep(r.clients, name), tools := AddAll(r.tools, name, Readable(definitions))),
       if Readable(definitions) == definitions then Fine else Uncaught)
  }

  /** Server after server; an exception that is not caught ends it. */
  function ConnectAll(r: Registry, configs: seq<(string, Outcome)>): (Registry, Ending)
    decreases |configs|
  {
    if configs == [] then (r, Fine)
    else
      var (name, o) := configs[0];
      var (r', ending) := ConnectOne(r, name, o);
      if ending == Uncaught then (r', Uncaught)
      else ConnectAll(if ending == Caught then r'.(failures := r'.failures + {name}) else r', configs[1..])
  }

  const NOTHING := Registry([], {}, map[])

  // ----- the invariant -------------------------------------------------------------------------

  /** Each key is its tool's own qualified name, and its server is a live client. */
  ghost predicate RegistryOk(r: Registry) {
    forall key :: key in r.tools ==>
      && key == Qualified(r.tools[key].server, r.tools[key].name) && Usable(key)
      && r.tools[key].name != "" && r.tools[key].server in r.clients
  }

  lemma {:induction false} AddAllKeeps(r: Registry, server: string, definitions: seq<Json>)
    requires RegistryOk(r) && server in r.clients
    ensures RegistryOk(r.(tools := AddAll(r.tools, server, definitions)))
  {
    hide Usable;
    if definitions != [] {
      AddAllKeeps(r, server, definitions[..|definitions| - 1]);
    }
  }

  /** Whatever the servers do, also when connecting stops half way. */
  lemma {:induction false} ConnectAllKeeps(r: Registry, configs: seq<(string, Outcome)>)
    requires RegistryOk(r)
    ensures RegistryOk(ConnectAll(r, configs).0)
    decreases |configs|
  {
    if configs != [] {
      var (name, o) := configs[0];
      var (r', ending) := ConnectOne(r, name, o);
      if o.Offers? {
        AddAllKeeps(r.(clients := Keep(r.clients, name)), name, Readable(o.definitions));
      }
      assert RegistryOk(r');
      hide AddAll;
      if ending != Uncaught {
        ConnectAllKeeps(if ending == Caught then r'.(failures := r'.failures + {name}) else r', configs[1..]);
      }
    }
  }

  // ----- the registry object --------------------------------------------------------------------

  datatype Called = ToolNotFound | Sent(server: string, tool: string)

  class ServerRegistry {
    var clients: seq<string>
    var failures: set<string>
    var tools: map<string, RegisteredTool>

    ghost function State(): Registry
      reads this
    {
      Registry(clients, failures, tools)
    }

    ghost predicate Valid()
      reads this
    {
      RegistryOk(State())
    }

    constructor ()
      ensures Valid() && State() == NOTHING
    {
      clients := [];
      failures := {};
      tools := map[];
    }

    method ConnectServer(name: string, o: Outcome) returns (ending: Ending)
      requires Valid()
      modifies this
      ensures (State(), ending) == ConnectOne(old(State()), name, o)
    {
      if o.Unreachable? {
        return if o.caught then Caught else Uncaught;
      }
      clients := Keep(clients, name);
      if o.Unlisted? {
        return if o.caught then Caught else Uncaught;
      }
      ghost var before := tools;
      var definitions := o.definitions;
      for n := 0 to |definitions|
        invariant n <= |Readable(definitions)| && tools == AddAll(before, name, Readable(definitions)[..n])
        invariant clients == Keep(old(clients), name) && failures == old(failures)
      {
        if !definitions[n].Obj? {
          assert Readable(definitions)[..n] == Readable(definitions);
          return Uncaught;
        }
        assert Readable(definitions)[..n + 1][..n] == Readable(definitions)[..n];
        tools := AddTool(tools, name, definitions[n]);
      }
      assert Readable(definitions)[..|definitions|] == definitions;
      return Fine;
    }

    method ConnectServers(configs: seq<(string, Outcome)>) returns (ending: Ending)
      requires Valid()
      modifies this
      ensures Valid() && (State(), ending) == ConnectAll(old(State()), configs)
    {
      ConnectAllKeeps(State(), configs);
      for n := 0 to |configs|
        invariant ConnectAll(old(State()), configs) == ConnectAll(State(), configs[n..]) && Valid()
      {
        assert configs[n..][0] == configs[n] && configs[n..][1..] == configs[n + 1..];
        ConnectAllKeeps(State(), [configs[n]]);
        OneStep(State(), configs[n]);
        var e := ConnectServer(configs[n].0, configs[n].1);
        if e == Uncaught {
          return Uncaught;
        }
        if e == Caught {
          failures := failures + {configs[n].0};
        }
      }
      return Fine;
    }

    /** Client after client is closed; nothing is forgotten before all of them are. A close
        that raises ends the loop, and leaves the later clients open and all tables full. */
    method CloseAll(raising: set<string>) returns (closed: seq<string>, raised: bool)
      modifies this
      ensures raised <==> exists name :: name in old(clients) && name in raising
      ensures closed <= old(clients) && forall name :: name in closed ==> name !in raising
      ensures raised ==> |closed| < |old(clients)| && old(clients)[|closed|] in raising && State() == old(State())
      ensures !raised ==> closed == old(clients) && clients == [] && tools == map[] && failures == old(failures)
      ensures old(Valid()) ==> Valid()
    {
      for n := 0 to |clients|
        invariant forall name :: name in clients[..n] ==> name !in raising
      {
        if clients[n] in raising {
          return clients[..n], true;
        }
      }
      closed, raised := clients, false;
      clients := [];
      tools := map[];
    }

    /** The client lookup cannot fail: what is found is a live client, called under the name
        that makes the key. */
    method Call(qualified: string) returns (called: Called)
      requires Valid()
      ensures called.ToolNotFound? <==> qualified !in tools
      ensures called.Sent? ==> called.server in clients && Qualified(called.server, called.tool) == qualified
      ensures called.Sent? ==> called.server == tools[qualified].server && called.tool == tools[qualified].name
    {
      if qualified !in tools {
        return ToolNotFound;
      }
      return Sent(tools[qualified].server, tools[qualified].name);
    }
  }

  lemma OneStep(r: Registry, config: (string, Outcome))
    ensures ConnectAll(r, [config]) ==
              var (r', ending) := ConnectOne(r, config.0, config.1);
              (if ending == Caught then r'.(failures := r'.failures + {config.0}) else r', if ending == Uncaught then Uncaught else Fine)
  {
    assert [config][1..] == [];
    hide ConnectOne;
  }

  /** The exceptions connect_all does not catch: McpError, or a definition that is no dict. */
  predicate Stops(o: Outcome) {
    match o
    case Unreachable(caught) => !caught
    case Unlisted(caught) => !caught
    case Offers(definitions) => exists i :: 0 <= i < |definitions| && !definitions[i].Obj?
  }

  lemma {:induction false} ReadableIff(definitions: seq<Json>)
    ensures Readable(definitions) == definitions <==> forall i :: 0 <= i < |definitions| ==> definitions[i].Obj?
  {
    if definitions != [] && definitions[0].Obj? {
      ReadableIff(definitions[1..]);
    }
  }

  // ----- routing --------------------------------------------------------------------------------

  predicate Names(server: string, definitions: seq<Json>, tool: string) {
    exists i :: 0 <= i < |definitions| && NameIn(server, definitions[i]) == Some(tool)
  }

  /** Some server that connecting gets to has this name, and lists a usable tool with this
      name before anything that is no definition. */
  ghost predicate Offered(configs: seq<(string, Outcome)>, server: string, tool: string) {
    exists i :: 0 <= i < |configs| && Lists(configs[i], server, tool) && forall j :: 0 <= j < i ==> !Stops(configs[j].1)
  }

  predicate Lists(config: (string, Outcome), server: string, tool: string) {
    config.0 == server && config.1.Offers? && Names(server, Readable(config.1.definitions), tool)
  }

  ghost predicate PlainConfigs(configs: seq<(string, Outcome)>) {
    forall i :: 0 <= i < |configs| ==> Plain(configs[i].0)
  }

  ghost predicate PlainServers(r: Registry) { forall key :: key in r.tools ==> Plain(r.tools[key].server) }

  lemma {:induction false} AddAllKeys(tools: map<string, RegisteredTool>, server: string, definitions: seq<Json>, key: string)
    ensures key in AddAll(tools, server, definitions) <==>
              key in tools || exists i :: 0 <= i < |definitions| && NameIn(server, definitions[i]).Some?
                                          && Qualified(server, NameIn(server, definitions[i]).value) == key
    ensures key in AddAll(tools, server, definitions) ==>
              AddAll(tools, server, definitions)[key].server == server
              || (key in tools && AddAll(tools, server, definitions)[key] == tools[key])
  {
    hide NameIn, Qualified;
    if definitions != [] {
      var n := |definitions| - 1;
      AddAllKeys(tools, server, definitions[..n], key);
    }
  }

  lemma OneServerOffers(tools: map<string, RegisteredTool>, server: string, definitions: seq<Json>, s: string, t: string)
    requires Plain(server) && Plain(s)
    ensures Qualified(s, t) in AddAll(tools, server, definitions)
       <==> Qualified(s, t) in tools || (server == s && Names(s, definitions, t))
  {
    AddAllKeys(tools, server, definitions, Qualified(s, t));
    forall i | 0 <= i < |definitions| && NameIn(server, definitions[i]).Some?
               && Qualified(server, NameIn(server, definitions[i]).value) == Qualified(s, t)
      ensures server == s && NameIn(server, definitions[i]) == Some(t)
    {
      QualifiedIsInjective(server, s, NameIn(server, definitions[i]).value, t);
    }
    hide NameIn, Qualified, Plain;
  }

  /** What one server adds, whether or not it then stops the rest. */
  lemma OneMoreServer(r: Registry, config: (string, Outcome), s: string, t: string)
    requires PlainServers(r) && Plain(config.0) && Plain(s)
    ensures var (r', ending) := ConnectOne(r, config.0, config.1);
            && PlainServers(r') && (ending == Uncaught <==> Stops(config.1))
            && (Qualified(s, t) in r'.tools <==> Qualified(s, t) in r.tools || Lists(config, s, t))
  {
    hide Plain, Qualified, AddAll, Names, Readable;
    var (name, o) := config;
    if o.Offers? {
      var definitions := Readable(o.definitions);
      ReadableIff(o.definitions);
      OneServerOffers(r.tools, name, definitions, s, t);
      var tools := AddAll(r.tools, name, definitions);
      forall key | key in tools ensures Plain(tools[key].server) {
        AddAllKeys(r.tools, name, definitions, key);
      }
    }
  }

  lemma {:induction false} OffersAreRegistered(r: Registry, configs: seq<(string, Outcome)>, s: string, t: string)
    requires PlainConfigs(configs) && PlainServers(r) && Plain(s)
    ensures PlainServers(ConnectAll(r, configs).0)
    ensures Qualified(s, t) in ConnectAll(r, configs).0.tools <==> Qualified(s, t) in r.tools || Offered(configs, s, t)
    decreases |configs|
  {
    hide Plain, Qualified, ConnectOne, Lists, Stops;
    if configs != [] {
      var (name, o) := configs[0];
      assert Plain(name);
      var (r', ending) := ConnectOne(r, name, o);
      var next := if ending == Caught then r'.(failures := r'.failures + {name}) else r';
      OneMoreServer(r, configs[0], s, t);
      OfferedFirst(configs, s, t);
      if ending != Uncaught {
        OffersAreRegistered(next, configs[1..], s, t);
      }
    }
  }

  lemma OfferedFirst(configs: seq<(string, Outcome)>, s: string, t: string)
    requires configs != []
    ensures Offered(configs, s, t) <==> Lists(configs[0], s, t) || (!Stops(configs[0].1) && Offered(configs[1..], s, t))
  {
    hide Lists, Stops;
    var rest := configs[1..];
    forall j | 0 <= j < |rest| ensures rest[j] == configs[j + 1] {}
    if i :| 0 < i < |configs| && Lists(configs[i], s, t) && forall j :: 0 <= j < i ==> !Stops(configs[j].1) {
      assert Lists(rest[i - 1], s, t) && !Stops(configs[0].1);
      assert forall j :: 0 <= j < i - 1 ==> !Stops(rest[j].1);
    }
    if !Stops(configs[0].1) {
      if i :| 0 <= i < |rest| && Lists(rest[i], s, t) && forall j :: 0 <= j < i ==> !Stops(rest[j].1) {
        forall j | 0 <= j < i + 1 ensures !Stops(configs[j].1) { if j > 0 { assert !Stops(rest[j - 1].1); } }
        assert Lists(configs[i + 1], s, t);
      }
    }
  }

  /** With plain server names, however connecting ends: a qualified name is known exactly
      when its server was got to and offers the tool, and it leads to that server under the
      tool's own name. */
  lemma CallsReachTheOwner(configs: seq<(string, Outcome)>, s: string, t: string)
    requires PlainConfigs(configs) && Plain(s)
    ensures var tools := ConnectAll(NOTHING, configs).0.tools;
            && (Qualified(s, t) in tools <==> Offered(configs, s, t))
            && (Qualified(s, t) in tools ==> tools[Qualified(s, t)].server == s && tools[Qualified(s, t)].name == t)
  {
    OffersAreRegistered(NOTHING, configs, s, t);
    ConnectAllKeeps(NOTHING, configs);
    var tools := ConnectAll(NOTHING, configs).0.tools;
    if Qualified(s, t) in tools {
      var tool := tools[Qualified(s, t)];
      assert Qualified(tool.server, tool.name) == Qualified(s, t);
      QualifiedIsInjective(tool.server, s, tool.name, t);
    }
    hide ConnectAll, Qualified, Plain, Offered;
  }

  /** Without them a call can reach another server: a server named a__b takes over the
      name that the tool b__c of server a was listed under. */
  lemma OverlappingNamesMisroute()
    ensures Qualified("a", "b__c") == Qualified("a__b", "c") && !Plain("a__b")
    ensures forall before: map<string, RegisteredTool>, d: Json :: NameIn("a__b", d) == Some("c") ==>
              AddTool(before, "a__b", d)[Qualified("a", "b__c")].server == "a__b"
  {
    assert "a__b"[1] == '_' && "a__b"[2] == '_';
    assert Qualified("a", "b__c") == "a__b__c" && Qualified("a__b", "c") == "a__b__c";
    hide Usable;
  }

  lemma PrefixChains(a: seq<string>, b: seq<string>, c: seq<string>, name: string)
    requires a <= b && b <= c
    ensures a <= c && (name in b ==> name in c)
  {
    assert c[..|b|] == b;
  }

  /** One bad server stops the others exactly when its exception is one of those; in every
      other case each server ends up connected or among the failures. */
  lemma {:induction false} OneBadServerStopsTheRestIff(r: Registry, configs: seq<(string, Outcome)>)
    ensures ConnectAll(r, configs).1 == Uncaught <==> exists i :: 0 <= i < |configs| && Stops(configs[i].1)
    ensures var r' := ConnectAll(r, configs).0;
            && r.clients <= r'.clients && r.failures <= r'.failures
            && (ConnectAll(r, configs).1 != Uncaught ==>
                  forall i :: 0 <= i < |configs| ==> configs[i].0 in r'.clients || configs[i].0 in r'.failures)
    decreases |configs|
  {
    hide AddAll, Readable;
    if configs != [] {
      var (name, o) := configs[0];
      if o.Offers? { ReadableIff(o.definitions); }
      var (r', ending) := ConnectOne(r, name, o);
      assert ending == Uncaught <==> Stops(o);
      hide Stops;
      assert forall i :: 0 <= i < |configs| - 1 ==> configs[1..][i] == configs[i + 1];
      if ending != Uncaught {
        var next := if ending == Caught then r'.(failures := r'.failures + {name}) else r';
        OneBadServerStopsTheRestIff(next, configs[1..]);
        PrefixChains(r.clients, r'.clients, ConnectAll(next, configs[1..]).0.clients, name);
        if i :| 0 <= i < |configs| && Stops(configs[i].1) {
          assert i > 0 && Stops(configs[1..][i - 1].1);
        }
      }
    }
  }
}
