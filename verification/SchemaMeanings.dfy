/** What the validator accepts, told over plain strings, numbers and members; and from that
    exactly which arguments each of the seven tools takes. */
module SchemaMeanings {
  import opened Prelude
  import opened JsonValues
  import opened JsonRpc
  import opened TicketStore
  import opened StoreFile
  import opened Validation
  import opened NetopsCore
  import opened ToolCalls
  import ToolStories

  // ----- the keywords ----------------------------------------------------------------------

  /** An unknown type name asks for nothing. */
  predicate HasType(v: Json, t: string) {
    && (t == "object" ==> v.Obj?) && (t == "array" ==> v.Arr?) && (t == "string" ==> v.Str?)
    && (t == "integer" ==> v.Int?) && (t == "number" ==> v.Int? || v.Decimal?) && (t == "boolean" ==> v.Bool?)
  }

  /** A bool is an int to Python. */
  predicate IsInt(j: Json, n: int) { j == Int(n) || (j.Bool? && n == if j.b then 1 else 0) }

  /** What the keywords of one schema ask of a value; 1, 1.0 and true are one value to an
      enum, and only strings have a length and only numbers bounds. */
  ghost predicate Satisfies(v: Json, p: Json, m: Matcher) {
    FitsType(v, p) && FitsEnum(v, p) && FitsAsText(v, p, m) && FitsAsNumber(v, p)
  }

  ghost predicate FitsType(v: Json, p: Json) { forall t :: GetOrNull(p, "type") == Str(t) ==> HasType(v, t) }

  ghost predicate FitsEnum(v: Json, p: Json) {
    forall options :: GetOrNull(p, "enum") == Arr(options) ==> exists i :: 0 <= i < |options| && Norm(options[i]) == Norm(v)
  }

  ghost predicate FitsAsText(v: Json, p: Json, m: Matcher) { v.Str? ==> FitsText(v.s, p, m) }

  ghost predicate FitsAsNumber(v: Json, p: Json) { (v.Int? || v.Decimal?) ==> forall x :: Norm(v) == PyNum(x) ==> FitsBounds(x, p) }

  ghost predicate FitsText(s: string, p: Json, m: Matcher) {
    && (forall lo :: IsInt(GetOrNull(p, "minLength"), lo) ==> lo <= |s|)
    && (forall hi :: IsInt(GetOrNull(p, "maxLength"), hi) ==> |s| <= hi)
    && (forall pattern :: GetOrNull(p, "pattern") == Str(pattern) ==> m(pattern, s))
  }

  ghost predicate FitsBounds(x: real, p: Json) {
    && (forall lo :: Norm(GetOrNull(p, "minimum")) == PyNum(lo) ==> lo <= x)
    && (forall hi :: Norm(GetOrNull(p, "maximum")) == PyNum(hi) ==> x <= hi)
  }

  lemma TypeMeans(v: Json, p: Json)
    ensures TypeOk(v, p) <==> FitsType(v, p)
  {
    var t := GetOrNull(p, "type");
    if t.Str? {
      assert TypeMatches(v, t.s) <==> HasType(v, t.s);
    }
  }

  lemma EnumMeans(v: Json, p: Json)
    ensures EnumOk(v, p) <==> FitsEnum(v, p)
  {
    hide Norm, GetOrNull;
  }

  lemma TextMeans(v: Json, p: Json, m: Matcher)
    ensures MinLengthOk(v, p) && MaxLengthOk(v, p) && PatternOk(v, p, m) <==> FitsAsText(v, p, m)
  {
    var lo, hi, pattern := GetOrNull(p, "minLength"), GetOrNull(p, "maxLength"), GetOrNull(p, "pattern");
    if IntOf(lo).Some? { assert IsInt(lo, IntOf(lo).value); }
    if IntOf(hi).Some? { assert IsInt(hi, IntOf(hi).value); }
    hide GetOrNull;
  }

  lemma BoundsMean(v: Json, p: Json)
    ensures MinimumOk(v, p) && MaximumOk(v, p) <==> FitsAsNumber(v, p)
  {
    assert v.Int? || v.Decimal? ==> Norm(v).PyNum?;
    hide Norm, GetOrNull;
  }

  /** The validator's own reading of a schema's keywords is that one. */
  lemma KeywordsMean(v: Json, p: Json, m: Matcher)
    ensures OwnOk(v, p, m) <==> Satisfies(v, p, m)
  {
    hide TypeOk, EnumOk, MinLengthOk, MaxLengthOk, PatternOk, MinimumOk, MaximumOk, FitsType, FitsEnum, FitsAsText, FitsAsNumber;
    TypeMeans(v, p);
    EnumMeans(v, p);
    TextMeans(v, p, m);
    BoundsMean(v, p);
  }

  // ----- members and items -------------------------------------------------------------------

  /** The required names are there, no other than the described ones if the schema is closed,
      and every described member conforms. */
  ghost predicate MembersFit(v: Json, p: Json, m: Matcher)
    requires v.Obj?
  {
    && RequiredAreThere(v, GetOrNull(p, "required"))
    && (GetOrNull(p, "additionalProperties") == Bool(false) ==> forall k :: k in v.vals ==> Has(GetOrNull(p, "properties"), k))
    && forall k :: k in v.vals ==> MemberFits(v.vals[k], GetOrNull(GetOrNull(p, "properties"), k), m)
  }

  predicate RequiredAreThere(v: Json, names: Json) {
    names.Arr? ==> forall i :: 0 <= i < |names.items| && names.items[i].Str? ==> Has(v, names.items[i].s)
  }

  ghost predicate MemberFits(v: Json, p: Json, m: Matcher) { p.Obj? ==> Conforms(v, p, m) }

  lemma ObjectMeans(v: Json, p: Json, m: Matcher)
    requires v.Obj? && (Has(p, "properties") ==> GetOrNull(p, "properties").Obj?)
    ensures ConformsObject(v, p, m) <==> MembersFit(v, p, m)
  {
    var described, properties := GetOrNull(p, "properties"), Properties(p);
    assert described.Obj? ==> properties == described;
    assert !described.Obj? ==> described == Null && properties == EMPTY;
    NothingIn();
    var names := GetOrNull(p, "required");
    assert Required(p) == if names.Arr? then names.items else [];
    assert names.Arr? ==> (RequiredAreThere(v, names) <==> forall i :: 0 <= i < |names.items| && names.items[i].Str? ==> Has(v, names.items[i].s));
    hide Conforms, GetOrNull, Properties, Has, Required, RequiredAreThere;
    if ConformsObject(v, p, m) {
      forall k | k in v.vals ensures MemberFits(v.vals[k], GetOrNull(described, k), m) {}
    }
    if MembersFit(v, p, m) {
      forall k | k in v.vals && GetOrNull(properties, k).Obj? ensures Conforms(v.vals[k], GetOrNull(properties, k), m) {
        assert MemberFits(v.vals[k], GetOrNull(described, k), m);
      }
    }
  }

  lemma NothingIn()
    ensures forall k :: GetOrNull(EMPTY, k) == Null && GetOrNull(Null, k) == Null && !Has(EMPTY, k) && !Has(Null, k)
  {
  }

  /** A value conforms to a schema exactly when it satisfies its keywords, its items conform
      to the item schema, and its members fit. */
  lemma SchemaMeans(v: Json, p: Json, m: Matcher)
    ensures Conforms(v, p, m) <==>
              && Satisfies(v, p, m)
              && (v.Arr? && GetOrNull(p, "items").Obj? ==> forall i :: 0 <= i < |v.items| ==> Conforms(v.items[i], GetOrNull(p, "items"), m))
              && (v.Obj? && GetOrNull(p, "properties").Obj? ==> MembersFit(v, p, m))
  {
    KeywordsMean(v, p, m);
    if v.Obj? && GetOrNull(p, "properties").Obj? {
      ObjectMeans(v, p, m);
    }
    hide OwnOk, Satisfies, MembersFit, ConformsObject, GetOrNull;
  }

  /** The arguments of a call are accepted, as they are, exactly when they are a dict, or
      null for an empty one, whose members fit. */
  lemma ArgumentsMean(arguments: Json, schema: Json, m: Matcher)
    requires WellFormed(arguments) && SchemaOk(schema) && (Has(schema, "properties") ==> schema.vals["properties"].Obj?)
    ensures var r, a := ValidateArguments(arguments, schema, m), if arguments.Null? then Obj([], map[]) else arguments;
            && (r.Ok? <==> a.Obj? && MembersFit(a, schema, m))
            && (if r.Ok? then r.value == a else r.error.code == -32602)
  {
    ValidatorIsExact(arguments, schema, m);
    var a := if arguments.Null? then Obj([], map[]) else arguments;
    if a.Obj? { ObjectMeans(a, schema, m); }
    hide MembersFit, ConformsObject, ValidateArguments, ObjectViolations, SchemaOk;
  }

  // ----- one argument ------------------------------------------------------------------------

  function One(name: string, v: Json): Json { Obj([name], map[name := v]) }

  /** A schema that describes one property. */
  function Describes(name: string, p: Json): Json {
    Obj(["type", "properties"], map["type" := Str("object"), "properties" := One(name, p)])
  }

  lemma DescribesIsOk(name: string, p: Json)
    requires SchemaOk(p)
    ensures SchemaOk(Describes(name, p)) && Describes(name, p).vals["properties"].Obj?
  {
    var schema := Describes(name, p);
    assert !Has(schema, "enum") && !Has(schema, "required") && !Has(schema, "items") && Required(schema) == [];
    forall k | k in schema.vals["properties"].vals ensures SchemaOk(schema.vals["properties"].vals[k]) {}
    hide SchemaOk;
    NestedOk(schema);
  }

  /** A value with nothing below it is accepted as the one argument exactly when it satisfies
      the keywords of its property. */
  lemma OneArgumentIff(name: string, v: Json, p: Json, m: Matcher)
    requires WellFormed(v) && !v.Arr? && !v.Obj? && SchemaOk(p)
    ensures WellFormed(One(name, v)) && SchemaOk(Describes(name, p)) && Describes(name, p).vals["properties"].Obj?
    ensures ValidateArguments(One(name, v), Describes(name, p), m).Ok? <==> Satisfies(v, p, m)
  {
    var args, schema := One(name, v), Describes(name, p);
    assert WellFormed(args);
    DescribesIsOk(name, p);
    ArgumentsMean(args, schema, m);
    SchemaMeans(v, p, m);
    DescribesReads(name, p);
    hide SchemaOk, Satisfies, ValidateArguments, Conforms, Describes, WellFormed, GetOrNull, MembersFit, One;
    OneFits(name, v, p, schema, m);
  }

  lemma DescribesReads(name: string, p: Json)
    ensures var schema := Describes(name, p);
            && GetOrNull(schema, "required") == Null && GetOrNull(schema, "additionalProperties") == Null
            && GetOrNull(schema, "properties") == One(name, p)
  {
  }

  lemma OneFits(name: string, v: Json, p: Json, schema: Json, m: Matcher)
    requires GetOrNull(schema, "required") == Null && GetOrNull(schema, "additionalProperties") == Null
    requires p.Obj? && GetOrNull(schema, "properties") == One(name, p)
    ensures MembersFit(One(name, v), schema, m) <==> Conforms(v, p, m)
  {
    var args, described := One(name, v), One(name, p);
    assert GetOrNull(described, name) == p && name in args.vals && args.vals[name] == v;
    assert forall k :: k in args.vals ==> k == name;
    hide Conforms, GetOrNull, One;
  }

  /** The validator accepts this one argument exactly when `accepted`. */
  ghost predicate JudgedBy(name: string, v: Json, p: Json, m: Matcher, accepted: bool)
    requires SchemaOk(p)
  {
    && WellFormed(One(name, v)) && SchemaOk(Describes(name, p)) && Describes(name, p).vals["properties"].Obj?
    && (ValidateArguments(One(name, v), Describes(name, p), m).Ok? <==> accepted)
  }

  lemma JudgedIff(name: string, v: Json, p: Json, m: Matcher, accepted: bool)
    requires SchemaOk(p) && WellFormed(v) && !v.Arr? && !v.Obj? && (Satisfies(v, p, m) <==> accepted)
    ensures JudgedBy(name, v, p, m, accepted)
  {
    OneArgumentIff(name, v, p, m);
    hide SchemaOk, Satisfies, ValidateArguments, Describes, WellFormed;
  }

  lemma LengthIsJudged(name: string, s: string, p: Json, lo: int, hi: int, m: Matcher)
    requires SchemaOk(p) && GetOrNull(p, "type") == Str("string") && !Has(p, "enum") && !Has(p, "pattern")
    requires Shows(p, "minLength", Int(lo)) && Shows(p, "maxLength", Int(hi))
    ensures JudgedBy(name, Str(s), p, m, lo <= |s| <= hi)
  {
    assert GetOrNull(p, "enum") == Null && GetOrNull(p, "pattern") == Null && WellFormed(Str(s));
    assert IsInt(GetOrNull(p, "minLength"), lo) && IsInt(GetOrNull(p, "maxLength"), hi);
    hide SchemaOk, GetOrNull, Norm, JudgedBy, WellFormed;
    JudgedIff(name, Str(s), p, m, lo <= |s| <= hi);
  }

  lemma RangeIsJudged(name: string, n: int, p: Json, lo: int, hi: int, m: Matcher)
    requires SchemaOk(p) && GetOrNull(p, "type") in [Str("integer"), Str("number")] && !Has(p, "enum")
    requires Shows(p, "minimum", Int(lo)) && Shows(p, "maximum", Int(hi))
    ensures JudgedBy(name, Int(n), p, m, lo <= n <= hi)
  {
    assert GetOrNull(p, "enum") == Null && WellFormed(Int(n));
    assert Norm(Int(lo)) == PyNum(lo as real) && Norm(Int(hi)) == PyNum(hi as real) && Norm(Int(n)) == PyNum(n as real);
    hide SchemaOk, GetOrNull, Norm, JudgedBy, WellFormed;
    JudgedIff(name, Int(n), p, m, lo <= n <= hi);
  }

  lemma EnumIsJudged(name: string, s: string, p: Json, options: seq<string>, m: Matcher)
    requires SchemaOk(p) && GetOrNull(p, "type") == Str("string") && !Has(p, "minLength") && !Has(p, "maxLength") && !Has(p, "pattern")
    requires Shows(p, "enum", Arr(Strs(options)))
    ensures JudgedBy(name, Str(s), p, m, s in options)
  {
    assert GetOrNull(p, "minLength") == Null && GetOrNull(p, "maxLength") == Null && GetOrNull(p, "pattern") == Null && WellFormed(Str(s));
    ListedIff(s, options);
    hide SchemaOk, GetOrNull, Norm, JudgedBy, WellFormed;
    JudgedIff(name, Str(s), p, m, s in options);
  }

  lemma ListedIff(s: string, options: seq<string>)
    ensures (exists i :: 0 <= i < |Strs(options)| && Norm(Strs(options)[i]) == Norm(Str(s))) <==> s in options
  {
    forall i | 0 <= i < |options| ensures Norm(Strs(options)[i]) == Norm(Str(s)) <==> options[i] == s {}
  }

  lemma PatternIsJudged(name: string, s: string, p: Json, pattern: string, m: Matcher)
    requires SchemaOk(p) && GetOrNull(p, "type") == Str("string") && !Has(p, "enum") && !Has(p, "minLength") && !Has(p, "maxLength")
    requires Shows(p, "pattern", Str(pattern))
    ensures JudgedBy(name, Str(s), p, m, m(pattern, s))
  {
    assert GetOrNull(p, "minLength") == Null && GetOrNull(p, "maxLength") == Null && GetOrNull(p, "enum") == Null && WellFormed(Str(s));
    hide SchemaOk, GetOrNull, Norm, JudgedBy, WellFormed;
    JudgedIff(name, Str(s), p, m, m(pattern, s));
  }

  // ----- the seven tools ------------------------------------------------------------------------

  ghost predicate Accepts(prop: Prop, v: Json, m: Matcher) {
    match prop
    case Text(lo) => v.Str? && lo <= |v.s|
    case Bounded(lo, hi) => v.Str? && lo <= |v.s| <= hi
    case Choice(options) => v.Str? && v.s in options
    case Dated(pattern) => v.Str? && m(pattern, v.s)
    case Flag => v.Bool?
  }

  /** What the schema of a property says, read back from its JSON. */
  lemma PropReads(prop: Prop)
    ensures var p := PropJson(prop);
            && p.Obj? && GetOrNull(p, "type") == Str(if prop.Flag? then "boolean" else "string")
            && GetOrNull(p, "minLength") == (if prop.Text? || prop.Bounded? then Int(prop.minLength) else Null)
            && GetOrNull(p, "maxLength") == (if prop.Bounded? then Int(prop.maxLength) else Null)
            && GetOrNull(p, "enum") == (if prop.Choice? then Arr(Strs(prop.options)) else Null)
            && GetOrNull(p, "pattern") == (if prop.Dated? then Str(prop.pattern) else Null)
  {
    var keys, values := PropKeys(prop), PropValues(prop);
    RecordShows(keys, values);
    assert Shows(PropJson(prop), keys[0], values[0]);
    assert |keys| > 1 ==> Shows(PropJson(prop), keys[1], values[1]);
    assert |keys| > 2 ==> Shows(PropJson(prop), keys[2], values[2]);
    hide Record;
  }

  lemma PropMeans(prop: Prop, v: Json, m: Matcher)
    ensures Satisfies(v, PropJson(prop), m) <==> Accepts(prop, v, m)
  {
    var p := PropJson(prop);
    PropReads(prop);
    hide PropJson, GetOrNull, FitsType, FitsEnum, FitsAsText;
    TypeFits(v, p, if prop.Flag? then "boolean" else "string");
    if v.Str? && !prop.Flag? {
      PropText(prop, v.s, p, m);
      PropEnum(prop, v.s, p);
    } else if v.Bool? && prop.Flag? {
      FlagFits(v, p, m);
    }
  }

  lemma TypeFits(v: Json, p: Json, t: string)
    requires GetOrNull(p, "type") == Str(t)
    ensures FitsType(v, p) <==> HasType(v, t)
  {
    hide HasType, GetOrNull;
  }

  lemma FlagFits(v: Json, p: Json, m: Matcher)
    requires v.Bool? && GetOrNull(p, "enum") == Null
    ensures FitsEnum(v, p) && FitsAsText(v, p, m) && FitsAsNumber(v, p)
  {
    hide GetOrNull;
  }

  lemma PropEnum(prop: Prop, s: string, p: Json)
    requires GetOrNull(p, "enum") == (if prop.Choice? then Arr(Strs(prop.options)) else Null)
    ensures FitsEnum(Str(s), p) <==> (prop.Choice? ==> s in prop.options)
  {
    hide GetOrNull, Norm;
    if prop.Choice? { ListedIff(s, prop.options); }
  }

  lemma PropText(prop: Prop, s: string, p: Json, m: Matcher)
    requires GetOrNull(p, "minLength") == (if prop.Text? || prop.Bounded? then Int(prop.minLength) else Null)
    requires GetOrNull(p, "maxLength") == (if prop.Bounded? then Int(prop.maxLength) else Null)
    requires GetOrNull(p, "pattern") == (if prop.Dated? then Str(prop.pattern) else Null)
    ensures FitsAsText(Str(s), p, m)
       <==> (prop.Text? || prop.Bounded? ==> prop.minLength <= |s|) && (prop.Bounded? ==> |s| <= prop.maxLength)
            && (prop.Dated? ==> m(prop.pattern, s))
  {
    hide GetOrNull;
    if prop.Text? || prop.Bounded? { assert IsInt(GetOrNull(p, "minLength"), prop.minLength); }
    if prop.Bounded? { assert IsInt(GetOrNull(p, "maxLength"), prop.maxLength); }
  }

  /** Every required argument is there, and each that is there fits. */
  ghost predicate TakesArgs(t: Tool, args: Json, m: Matcher)
    requires |t.args| == |t.props|
  {
    && args.Obj? && (forall name :: name in t.required ==> Has(args, name))
    && forall i :: 0 <= i < |t.args| ==> ArgFits(args, t.args[i], t.props[i], m)
  }

  ghost predicate ArgFits(args: Json, name: string, prop: Prop, m: Matcher) {
    Has(args, name) ==> Accepts(prop, args.vals[name], m)
  }

  lemma PropConforms(prop: Prop, v: Json, m: Matcher)
    ensures Conforms(v, PropJson(prop), m) <==> Accepts(prop, v, m)
  {
    PropSchema(prop);
    PropMeans(prop, v, m);
    SchemaMeans(v, PropJson(prop), m);
    assert GetOrNull(PropJson(prop), "items") == Null && GetOrNull(PropJson(prop), "properties") == Null;
    hide PropJson, Conforms, Satisfies, Accepts, MembersFit, GetOrNull, Has;
  }

  lemma ToolMeans(t: Tool, args: Json, m: Matcher)
    requires ToolOk(t) && args.Obj?
    ensures ConformsObject(args, InputSchema(t), m) <==> TakesArgs(t, args, m)
  {
    var schema := InputSchema(t);
    ToolSchema(t);
    assert Properties(schema) == Record(t.args, PropsJson(t.props)) && Distinct(t.args);
    hide InputSchema, Conforms, ArgFits, Properties, Required, Closed, Record, PropsJson, ToolOk, Has;
    RequiredMeans(t, args, schema);
    MembersMean(t.args, t.props, args, m);
  }

  lemma MembersMean(names: seq<string>, props: seq<Prop>, args: Json, m: Matcher)
    requires |names| == |props| && Distinct(names) && args.Obj?
    ensures var described := Record(names, PropsJson(props));
            (forall k :: k in args.vals && GetOrNull(described, k).Obj? ==> Conforms(args.vals[k], GetOrNull(described, k), m))
            <==> forall i :: 0 <= i < |names| ==> ArgFits(args, names[i], props[i], m)
  {
    var described := Record(names, PropsJson(props));
    RecordShows(names, PropsJson(props));
    forall i | 0 <= i < |names| ensures Has(described, names[i]) && GetOrNull(described, names[i]) == PropJson(props[i]) {
      assert Shows(described, names[i], PropsJson(props)[i]);
    }
    forall k | GetOrNull(described, k).Obj? ensures k in names { assert Has(described, k); }
    hide Record, Conforms, PropJson, Accepts, GetOrNull, PropsJson, Distinct, Shows;
    forall i | 0 <= i < |names| && Has(args, names[i])
      ensures Conforms(args.vals[names[i]], PropJson(props[i]), m) <==> ArgFits(args, names[i], props[i], m)
      ensures PropJson(props[i]).Obj?
    {
      PropSchema(props[i]);
      PropConforms(props[i], args.vals[names[i]], m);
    }
    if forall k :: k in args.vals && GetOrNull(described, k).Obj? ==> Conforms(args.vals[k], GetOrNull(described, k), m) {
      forall i | 0 <= i < |names| ensures ArgFits(args, names[i], props[i], m) {}
    }
  }

  lemma RequiredMeans(t: Tool, args: Json, schema: Json)
    requires Required(schema) == Strs(t.required)
    ensures (forall i :: 0 <= i < |Required(schema)| && Required(schema)[i].Str? ==> Has(args, Required(schema)[i].s))
       <==> forall name :: name in t.required ==> Has(args, name)
  {
    hide Required, Has;
    if forall i :: 0 <= i < |Required(schema)| && Required(schema)[i].Str? ==> Has(args, Required(schema)[i].s) {
      forall name | name in t.required ensures Has(args, name) {
        var i :| 0 <= i < |t.required| && t.required[i] == name;
        assert Required(schema)[i] == Str(name);
      }
    }
  }

  function Given(arguments: Json): Json { if arguments.Null? then Obj([], map[]) else arguments }

  /** The call runs to this result when its arguments fit, and is refused with -32602, the
      store untouched, when they do not. */
  ghost predicate Runs(name: string, arguments: Json, seed: Seed, env: Env, st: StoreState, fit: bool, result: (Ran, StoreState))
    requires WellFormed(arguments)
  {
    var (ran, st') := CallTool(name, arguments, seed, env, st);
    if fit then (ran, st') == result else ran.Bad? && ran.error.code == -32602 && st' == st
  }

  lemma ToolRuns(t: Tool, arguments: Json, seed: Seed, env: Env, st: StoreState)
    requires t in TOOLS && WellFormed(arguments)
    ensures |t.args| == |t.props|
    ensures Runs(t.name, arguments, seed, env, st, TakesArgs(t, Given(arguments), env.matches), Handle(t.name, seed, env, st, Given(arguments)))
  {
    ToolsAreOk(t);
    ToolStories.NamesAreDistinct(FindTool(TOOLS, t.name).value, t);
    SchemaIsOk(t);
    ValidatorIsExact(arguments, InputSchema(t), env.matches);
    if Given(arguments).Obj? { ToolMeans(t, Given(arguments), env.matches); }
    hide ToolOk, InputSchema, ConformsObject, ObjectViolations, Handle, ValidateArguments, SchemaOk, FindTool, WellFormed, Available;
    hide ArgFits;
  }

  /** A text of at least `lo` and at most `hi` characters, if there is such a limit. */
  ghost predicate HasText(args: Json, name: string, lo: int, hi: Option<int>) {
    exists s :: Shows(args, name, Str(s)) && lo <= |s| && (hi.Some? ==> |s| <= hi.value)
  }

  ghost predicate HasOneOf(args: Json, name: string, options: seq<string>) { exists s :: Shows(args, name, Str(s)) && s in options }

  ghost predicate HasFlag(args: Json, name: string) { exists b :: Shows(args, name, Bool(b)) }

  ghost predicate HasMatch(args: Json, name: string, pattern: string, m: Matcher) {
    exists s :: Shows(args, name, Str(s)) && m(pattern, s)
  }

  lemma TextArg(args: Json, name: string, lo: int, m: Matcher)
    ensures ArgFits(args, name, Text(lo), m) <==> (Has(args, name) ==> HasText(args, name, lo, None))
  {
    assert Has(args, name) ==> Shows(args, name, args.vals[name]);
  }

  lemma BoundedArg(args: Json, name: string, lo: int, hi: int, m: Matcher)
    ensures ArgFits(args, name, Bounded(lo, hi), m) <==> (Has(args, name) ==> HasText(args, name, lo, Some(hi)))
  {
    assert Has(args, name) ==> Shows(args, name, args.vals[name]);
  }

  lemma ChoiceArg(args: Json, name: string, options: seq<string>, m: Matcher)
    ensures ArgFits(args, name, Choice(options), m) <==> (Has(args, name) ==> HasOneOf(args, name, options))
  {
    assert Has(args, name) ==> Shows(args, name, args.vals[name]);
  }

  lemma DatedArg(args: Json, name: string, pattern: string, m: Matcher)
    ensures ArgFits(args, name, Dated(pattern), m) <==> (Has(args, name) ==> HasMatch(args, name, pattern, m))
  {
    assert Has(args, name) ==> Shows(args, name, args.vals[name]);
  }

  lemma FlagArg(args: Json, name: string, m: Matcher)
    ensures ArgFits(args, name, Flag, m) <==> (Has(args, name) ==> HasFlag(args, name))
  {
    assert Has(args, name) ==> Shows(args, name, args.vals[name]);
  }

  lemma HasMeans(args: Json, name: string, lo: int, hi: Option<int>, options: seq<string>, pattern: string, m: Matcher)
    ensures HasText(args, name, lo, hi) || HasOneOf(args, name, options) || HasMatch(args, name, pattern, m) ==> Has(args, name) && args.Obj?
  {
  }

  ghost predicate LookupArgs(args: Json) {
    args.Obj? && (Has(args, "account_id") ==> HasText(args, "account_id", 3, None)) && (Has(args, "phone") ==> HasText(args, "phone", 8, None))
  }

  ghost predicate StatusArgs(args: Json) { HasText(args, "account_id", 3, None) }

  ghost predicate OutagesArgs(args: Json) {
    && args.Obj? && (Has(args, "active_only") ==> HasFlag(args, "active_only"))
    && (Has(args, "region") ==> HasOneOf(args, "region", ["guatemala", "quetzaltenango", "peten", "escuintla"]))
  }

  ghost predicate DiagnosticArgs(args: Json) {
    HasText(args, "account_id", 3, None) && HasOneOf(args, "test_type", ["ping", "speed", "line"])
  }

  /** An id of at least 3 characters, a listed category, a description of 5 to 2000
      characters, and a listed priority or none. */
  ghost predicate OpenArgs(args: Json) {
    && HasText(args, "account_id", 3, None)
    && HasOneOf(args, "category", ["connectivity", "speed", "billing", "equipment", "installation"])
    && HasText(args, "description", 5, Some(2000))
    && (Has(args, "priority") ==> HasOneOf(args, "priority", ["low", "normal", "high", "critical"]))
  }

  ghost predicate GetArgs(args: Json) { HasText(args, "ticket_id", 5, None) }

  ghost predicate ScheduleArgs(args: Json, m: Matcher) {
    && HasText(args, "ticket_id", 5, None)
    && HasMatch(args, "date", "^\\d{4}-\\d{2}-\\d{2}$", m)
    && HasOneOf(args, "time_window", ["08:00-12:00", "12:00-16:00", "16:00-20:00"])
  }

  lemma LookupFits(args: Json, m: Matcher)
    ensures TakesArgs(LOOKUP, args, m) <==> LookupArgs(args)
  {
    hide ArgFits, HasText;
    TextArg(args, "account_id", 3, m);
    TextArg(args, "phone", 8, m);
    assert TakesArgs(LOOKUP, args, m)
      <==> args.Obj? && ArgFits(args, LOOKUP.args[0], LOOKUP.props[0], m) && ArgFits(args, LOOKUP.args[1], LOOKUP.props[1], m);
  }

  lemma StatusFits(args: Json, m: Matcher)
    ensures TakesArgs(STATUS, args, m) <==> StatusArgs(args)
  {
    HasMeans(args, "account_id", 3, None, [], "", m);
    hide ArgFits, HasText;
    TextArg(args, "account_id", 3, m);
    assert TakesArgs(STATUS, args, m) <==> args.Obj? && Has(args, STATUS.required[0]) && ArgFits(args, STATUS.args[0], STATUS.props[0], m);
  }

  lemma OutagesFits(args: Json, m: Matcher)
    ensures TakesArgs(OUTAGES, args, m) <==> OutagesArgs(args)
  {
    hide ArgFits, HasOneOf, HasFlag;
    ChoiceArg(args, "region", REGIONS, m);
    FlagArg(args, "active_only", m);
    assert TakesArgs(OUTAGES, args, m)
      <==> args.Obj? && ArgFits(args, OUTAGES.args[0], OUTAGES.props[0], m) && ArgFits(args, OUTAGES.args[1], OUTAGES.props[1], m);
  }

  lemma DiagnosticFits(args: Json, m: Matcher)
    ensures TakesArgs(DIAGNOSTIC, args, m) <==> DiagnosticArgs(args)
  {
    HasMeans(args, "account_id", 3, None, [], "", m);
    HasMeans(args, "test_type", 0, None, TEST_TYPES, "", m);
    hide ArgFits, HasText, HasOneOf;
    TextArg(args, "account_id", 3, m);
    ChoiceArg(args, "test_type", TEST_TYPES, m);
    assert TakesArgs(DIAGNOSTIC, args, m)
      <==> args.Obj? && Has(args, DIAGNOSTIC.required[0]) && Has(args, DIAGNOSTIC.required[1])
           && ArgFits(args, DIAGNOSTIC.args[0], DIAGNOSTIC.props[0], m) && ArgFits(args, DIAGNOSTIC.args[1], DIAGNOSTIC.props[1], m);
  }

  lemma OpenFits(args: Json, m: Matcher)
    ensures TakesArgs(OPEN_TICKET, args, m) <==> OpenArgs(args)
  {
    HasMeans(args, "account_id", 3, None, [], "", m);
    HasMeans(args, "category", 0, None, CATEGORIES, "", m);
    HasMeans(args, "description", 5, Some(2000), [], "", m);
    hide ArgFits, HasText, HasOneOf;
    TextArg(args, "account_id", 3, m);
    ChoiceArg(args, "category", CATEGORIES, m);
    BoundedArg(args, "description", 5, 2000, m);
    ChoiceArg(args, "priority", PRIORITIES, m);
    var t := OPEN_TICKET;
    assert TakesArgs(t, args, m)
      <==> args.Obj? && Has(args, t.required[0]) && Has(args, t.required[1]) && Has(args, t.required[2])
           && ArgFits(args, t.args[0], t.props[0], m) && ArgFits(args, t.args[1], t.props[1], m)
           && ArgFits(args, t.args[2], t.props[2], m) && ArgFits(args, t.args[3], t.props[3], m);
  }

  lemma GetFits(args: Json, m: Matcher)
    ensures TakesArgs(GET_TICKET, args, m) <==> GetArgs(args)
  {
    HasMeans(args, "ticket_id", 5, None, [], "", m);
    hide ArgFits, HasText;
    TextArg(args, "ticket_id", 5, m);
    assert TakesArgs(GET_TICKET, args, m)
      <==> args.Obj? && Has(args, GET_TICKET.required[0]) && ArgFits(args, GET_TICKET.args[0], GET_TICKET.props[0], m);
  }

  lemma ScheduleFits(args: Json, m: Matcher)
    ensures TakesArgs(SCHEDULE, args, m) <==> ScheduleArgs(args, m)
  {
    HasMeans(args, "ticket_id", 5, None, [], "", m);
    HasMeans(args, "date", 0, None, [], DATE_PATTERN, m);
    HasMeans(args, "time_window", 0, None, TIME_WINDOWS, "", m);
    hide ArgFits, HasText, HasOneOf, HasMatch;
    TextArg(args, "ticket_id", 5, m);
    DatedArg(args, "date", DATE_PATTERN, m);
    ChoiceArg(args, "time_window", TIME_WINDOWS, m);
    var t := SCHEDULE;
    assert TakesArgs(t, args, m)
      <==> args.Obj? && Has(args, t.required[0]) && Has(args, t.required[1]) && Has(args, t.required[2])
           && ArgFits(args, t.args[0], t.props[0], m) && ArgFits(args, t.args[1], t.props[1], m) && ArgFits(args, t.args[2], t.props[2], m);
  }

  /** Which arguments each tool takes, exactly, and which handler they then reach. */
  lemma ToolsTakeExactly(arguments: Json, seed: Seed, env: Env, st: StoreState)
    requires WellFormed(arguments)
    ensures var args := Given(arguments);
            && Runs("lookup_account", arguments, seed, env, st, LookupArgs(args), (HandleLookup(seed, env, args), st))
            && Runs("check_service_status", arguments, seed, env, st, StatusArgs(args), (HandleStatus(seed, env, args), st))
            && Runs("list_outages", arguments, seed, env, st, OutagesArgs(args), (HandleOutages(seed, env, args), st))
            && Runs("run_diagnostic", arguments, seed, env, st, DiagnosticArgs(args), (HandleDiagnostic(seed, env, args), st))
            && Runs("open_ticket", arguments, seed, env, st, OpenArgs(args), HandleOpenTicket(seed, env, st, args))
            && Runs("get_ticket", arguments, seed, env, st, GetArgs(args), (HandleGetTicket(env, st, args), st))
            && Runs("schedule_visit", arguments, seed, env, st, ScheduleArgs(args, env.matches), HandleSchedule(env, st, args))
  {
    var args, m := Given(arguments), env.matches;
    HandlersByName(seed, env, st, args);
    hide Runs, WellFormed, TakesArgs, Handle, HandleLookup, HandleStatus, HandleOutages, HandleDiagnostic, HandleOpenTicket, HandleGetTicket, HandleSchedule,
         LookupArgs, StatusArgs, OutagesArgs, DiagnosticArgs, OpenArgs, GetArgs, ScheduleArgs;
    LookupFits(args, m);
    ToolRuns(LOOKUP, arguments, seed, env, st);
    StatusFits(args, m);
    ToolRuns(STATUS, arguments, seed, env, st);
    OutagesFits(args, m);
    ToolRuns(OUTAGES, arguments, seed, env, st);
    DiagnosticFits(args, m);
    ToolRuns(DIAGNOSTIC, arguments, seed, env, st);
    OpenFits(args, m);
    ToolRuns(OPEN_TICKET, arguments, seed, env, st);
    GetFits(args, m);
    ToolRuns(GET_TICKET, arguments, seed, env, st);
    ScheduleFits(args, m);
    ToolRuns(SCHEDULE, arguments, seed, env, st);
  }

  lemma HandlersByName(seed: Seed, env: Env, st: StoreState, args: Json)
    ensures Handle(LOOKUP.name, seed, env, st, args) == (HandleLookup(seed, env, args), st)
    ensures Handle(STATUS.name, seed, env, st, args) == (HandleStatus(seed, env, args), st)
    ensures Handle(OUTAGES.name, seed, env, st, args) == (HandleOutages(seed, env, args), st)
    ensures Handle(DIAGNOSTIC.name, seed, env, st, args) == (HandleDiagnostic(seed, env, args), st)
    ensures Handle(OPEN_TICKET.name, seed, env, st, args) == HandleOpenTicket(seed, env, st, args)
    ensures Handle(GET_TICKET.name, seed, env, st, args) == (HandleGetTicket(env, st, args), st)
    ensures Handle(SCHEDULE.name, seed, env, st, args) == HandleSchedule(env, st, args)
  {
    hide HandleLookup, HandleStatus, HandleOutages, HandleDiagnostic, HandleOpenTicket, HandleGetTicket, HandleSchedule;
  }
}
