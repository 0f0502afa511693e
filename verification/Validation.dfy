/** The JSON Schema subset of servers/netops/validation.py: the fail-fast checker,
    the list of all violations it is the head of, and what a schema means. */
module Validation {
  import opened Prelude
  import opened JsonValues
  import opened JsonRpc
  import JsonText

  /** re.match(pattern, value), which this model does not define. */
  type Matcher = (string, string) -> bool

  // ----- keywords -------------------------------------------------------------

  predicate TypeMatches(v: Json, expected: string) {
    if expected == "object" then v.Obj?
    else if expected == "array" then v.Arr?
    else if expected == "string" then v.Str?
    else if expected == "integer" then v.Int?
    else if expected == "number" then v.Int? || v.Decimal?
    else if expected == "boolean" then v.Bool?
    else true
  }

  /** A keyword's value when isinstance(x, int) accepts it; a bool is an int. */
  function IntOf(j: Json): Option<int> {
    match j case Int(n) => Some(n) case Bool(b) => Some(if b then 1 else 0) case _ => None
  }

  /** A keyword's value when isinstance(x, (int, float)) accepts it. */
  function NumOf(j: Json): Option<real> {
    match Norm(j) case PyNum(r) => Some(r) case _ => None
  }

  predicate TypeOk(v: Json, schema: Json) {
    var t := GetOrNull(schema, "type"); t.Str? ==> TypeMatches(v, t.s)
  }

  predicate EnumOk(v: Json, schema: Json) {
    var e := GetOrNull(schema, "enum");
    e.Arr? ==> exists i :: 0 <= i < |e.items| && Norm(e.items[i]) == Norm(v)
  }

  predicate MinLengthOk(v: Json, schema: Json) {
    var n := IntOf(GetOrNull(schema, "minLength")); v.Str? && n.Some? ==> |v.s| >= n.value
  }

  predicate MaxLengthOk(v: Json, schema: Json) {
    var n := IntOf(GetOrNull(schema, "maxLength")); v.Str? && n.Some? ==> |v.s| <= n.value
  }

  predicate PatternOk(v: Json, schema: Json, m: Matcher) {
    var p := GetOrNull(schema, "pattern"); v.Str? && p.Str? ==> m(p.s, v.s)
  }

  predicate MinimumOk(v: Json, schema: Json) {
    var n := NumOf(GetOrNull(schema, "minimum"));
    (v.Int? || v.Decimal?) && n.Some? && NumOf(v).Some? ==> NumOf(v).value >= n.value
  }

  predicate MaximumOk(v: Json, schema: Json) {
    var n := NumOf(GetOrNull(schema, "maximum"));
    (v.Int? || v.Decimal?) && n.Some? && NumOf(v).Some? ==> NumOf(v).value <= n.value
  }

  function Properties(schema: Json): Json {
    var p := GetOrNull(schema, "properties"); if p.Obj? then p else EMPTY
  }

  function Required(schema: Json): seq<Json> {
    var r := GetOrNull(schema, "required"); if r.Arr? then r.items else []
  }

  predicate Closed(schema: Json) { GetOrNull(schema, "additionalProperties") == Bool(false) }

  function ItemSchema(schema: Json): Json { GetOrNull(schema, "items") }

  /** What the checker relies on: a keyword it iterates over is a list or a dict. */
  ghost predicate SchemaOk(schema: Json) {
    && schema.Obj?
    && (Has(schema, "enum") ==> schema.vals["enum"].Arr?)
    && (Has(schema, "required") ==> schema.vals["required"].Arr?)
    && (forall i :: 0 <= i < |Required(schema)| ==> Required(schema)[i].Str?)
    && (forall k :: k in schema.vals && schema.vals[k].Obj? && k == "items" ==> SchemaOk(schema.vals[k]))
    && (forall k :: k in schema.vals && k == "properties" && schema.vals[k].Obj? ==>
          forall name :: name in schema.vals[k].vals && schema.vals[k].vals[name].Obj? ==> SchemaOk(schema.vals[k].vals[name]))
  }

  const BASIC_TYPES := ["object", "array", "string", "number", "boolean"]

  /** The type names split the values: anything but null has exactly one of the basic five,
      null has none, an integer is a number, and a bool is neither. */
  lemma TypesSplitTheValues(v: Json)
    ensures !v.Null? <==> exists i :: 0 <= i < 5 && TypeMatches(v, BASIC_TYPES[i])
    ensures forall i, j :: 0 <= i < 5 && 0 <= j < 5 && TypeMatches(v, BASIC_TYPES[i]) && TypeMatches(v, BASIC_TYPES[j]) ==> i == j
    ensures TypeMatches(v, "integer") ==> TypeMatches(v, "number")
    ensures v.Bool? ==> !TypeMatches(v, "integer") && !TypeMatches(v, "number")
  {
    assert TypeMatches(v, BASIC_TYPES[0]) == v.Obj? && TypeMatches(v, BASIC_TYPES[1]) == v.Arr?;
    assert TypeMatches(v, BASIC_TYPES[2]) == v.Str? && TypeMatches(v, BASIC_TYPES[3]) == (v.Int? || v.Decimal?);
    assert TypeMatches(v, BASIC_TYPES[4]) == v.Bool?;
    hide TypeMatches;
  }

  // ----- what a schema means ----------------------------------------------------

  ghost predicate OwnOk(v: Json, schema: Json, m: Matcher) {
    && TypeOk(v, schema) && EnumOk(v, schema)
    && MinLengthOk(v, schema) && MaxLengthOk(v, schema) && PatternOk(v, schema, m)
    && MinimumOk(v, schema) && MaximumOk(v, schema)
  }

  /** The value satisfies every keyword, and so does everything below it. */
  ghost predicate Conforms(v: Json, schema: Json, m: Matcher)
    decreases v, 1
  {
    && OwnOk(v, schema, m)
    && (v.Arr? && ItemSchema(schema).Obj? ==> forall i :: 0 <= i < |v.items| ==> Conforms(v.items[i], ItemSchema(schema), m))
    && (v.Obj? && GetOrNull(schema, "properties").Obj? ==> ConformsObject(v, schema, m))
  }

  ghost predicate ConformsObject(v: Json, schema: Json, m: Matcher)
    requires v.Obj?
    decreases v, 0
  {
    && (forall i :: 0 <= i < |Required(schema)| && Required(schema)[i].Str? ==> Has(v, Required(schema)[i].s))
    && (Closed(schema) ==> forall k :: k in v.vals ==> Has(Properties(schema), k))
    && (forall k :: k in v.vals && GetOrNull(Properties(schema), k).Obj? ==> Conforms(v.vals[k], GetOrNull(Properties(schema), k), m))
  }

  // ----- the fail-fast checker ----------------------------------------------------

  function Member(path: string, name: string): string { if path == "" then name else path + "." + name }

  function Index(path: string, i: nat): string { path + "[" + JsonText.Digits(i) + "]" }

  /** _validate_value: None, or data.field of the error raised. */
  function CheckValue(v: Json, schema: Json, path: string, m: Matcher): Option<string>
    requires WellFormed(v)
    decreases v, 3, 0
  {
    if !TypeOk(v, schema) then Some(path)
    else if !EnumOk(v, schema) then Some(path)
    else if !MinLengthOk(v, schema) then Some(path)
    else if !MaxLengthOk(v, schema) then Some(path)
    else if !PatternOk(v, schema, m) then Some(path)
    else if !MinimumOk(v, schema) then Some(path)
    else if !MaximumOk(v, schema) then Some(path)
    else if v.Arr? && ItemSchema(schema).Obj? then CheckItems(v, 0, ItemSchema(schema), path, m)
    else if v.Obj? && GetOrNull(schema, "properties").Obj? then CheckObject(v, schema, path, m)
    else None
  }

  function CheckItems(v: Json, i: nat, schema: Json, path: string, m: Matcher): Option<string>
    requires WellFormed(v) && v.Arr? && i <= |v.items|
    decreases v, 2, |v.items| - i
  {
    if i == |v.items| then None
    else
      match CheckValue(v.items[i], schema, Index(path, i), m)
      case Some(field) => Some(field)
      case None => CheckItems(v, i + 1, schema, path, m)
  }

  /** _validate_object */
  function CheckObject(v: Json, schema: Json, path: string, m: Matcher): Option<string>
    requires WellFormed(v) && v.Obj?
    decreases v, 2, |v.keys| + 1
  {
    match CheckRequired(v, Required(schema), path)
    case Some(field) => Some(field)
    case None =>
      if Closed(schema) && exists k :: k in v.keys && !Has(Properties(schema), k) then
        Some(if path == "" then "arguments" else path)
      else CheckMembers(v, 0, Properties(schema), path, m)
  }

  function CheckRequired(v: Json, names: seq<Json>, path: string): Option<string> {
    if names == [] then None
    else if names[0].Str? && !Has(v, names[0].s) then Some(Member(path, names[0].s))
    else CheckRequired(v, names[1..], path)
  }

  function CheckMembers(v: Json, i: nat, properties: Json, path: string, m: Matcher): Option<string>
    requires WellFormed(v) && v.Obj? && i <= |v.keys|
    decreases v, 2, |v.keys| - i
  {
    if i == |v.keys| then None
    else
      var name := v.keys[i];
      var schema := GetOrNull(properties, name);
      match (if schema.Obj? then CheckValue(v.vals[name], schema, Member(path, name), m) else None)
      case Some(field) => Some(field)
      case None => CheckMembers(v, i + 1, properties, path, m)
  }

  // ----- all violations, in traversal order -----------------------------------------

  function When(failed: bool, path: string): seq<string> { if failed then [path] else [] }

  function OwnViolations(v: Json, schema: Json, path: string, m: Matcher): seq<string> {
    When(!TypeOk(v, schema), path) + When(!EnumOk(v, schema), path)
    + When(!MinLengthOk(v, schema), path) + When(!MaxLengthOk(v, schema), path) + When(!PatternOk(v, schema, m), path)
    + When(!MinimumOk(v, schema), path) + When(!MaximumOk(v, schema), path)
  }

  /** Every keyword that fails anywhere in the value, with its path: nothing is skipped
      because something before it failed. */
  function Violations(v: Json, schema: Json, path: string, m: Matcher): seq<string>
    requires WellFormed(v)
    decreases v, 3, 0
  {
    OwnViolations(v, schema, path, m)
    + (if v.Arr? && ItemSchema(schema).Obj? then ItemViolations(v, 0, ItemSchema(schema), path, m) else [])
    + (if v.Obj? && GetOrNull(schema, "properties").Obj? then ObjectViolations(v, schema, path, m) else [])
  }

  function ItemViolations(v: Json, i: nat, schema: Json, path: string, m: Matcher): seq<string>
    requires WellFormed(v) && v.Arr? && i <= |v.items|
    decreases v, 2, |v.items| - i
  {
    if i == |v.items| then []
    else Violations(v.items[i], schema, Index(path, i), m) + ItemViolations(v, i + 1, schema, path, m)
  }

  function ObjectViolations(v: Json, schema: Json, path: string, m: Matcher): seq<string>
    requires WellFormed(v) && v.Obj?
    decreases v, 2, |v.keys| + 1
  {
    RequiredViolations(v, Required(schema), path)
    + When(Closed(schema) && exists k :: k in v.keys && !Has(Properties(schema), k), if path == "" then "arguments" else path)
    + MemberViolations(v, 0, Properties(schema), path, m)
  }

  function RequiredViolations(v: Json, names: seq<Json>, path: string): seq<string> {
    if names == [] then []
    else
      (if names[0].Str? && !Has(v, names[0].s) then [Member(path, names[0].s)] else [])
      + RequiredViolations(v, names[1..], path)
  }

  function MemberViolations(v: Json, i: nat, properties: Json, path: string, m: Matcher): seq<string>
    requires WellFormed(v) && v.Obj? && i <= |v.keys|
    decreases v, 2, |v.keys| - i
  {
    if i == |v.keys| then []
    else
      var name := v.keys[i];
      var schema := GetOrNull(properties, name);
      (if schema.Obj? then Violations(v.vals[name], schema, Member(path, name), m) else [])
      + MemberViolations(v, i + 1, properties, path, m)
  }

  lemma ItemWellFormed(v: Json, i: nat)
    requires WellFormed(v) && v.Arr? && i < |v.items|
    ensures WellFormed(v.items[i])
  {
  }

  lemma MemberWellFormed(v: Json, i: nat)
    requires WellFormed(v) && v.Obj? && i < |v.keys|
    ensures v.keys[i] in v.vals && WellFormed(v.vals[v.keys[i]])
  {
    assert v.keys[i] in v.keys;
  }

  // ----- the checker reports the first violation --------------------------------------

  function First(s: seq<string>): Option<string> { if s == [] then None else Some(s[0]) }

  lemma NoneOfEmpty(s: seq<string>)
    ensures First(s).None? <==> s == []
  {
  }

  lemma FirstOfSum(a: seq<string>, b: seq<string>)
    ensures First(a + b) == if a == [] then First(b) else First(a)
  {
  }

  lemma OwnFirst(v: Json, schema: Json, path: string, m: Matcher)
    ensures OwnViolations(v, schema, path, m) == [] <==> OwnOk(v, schema, m)
    ensures OwnViolations(v, schema, path, m) != [] ==> First(OwnViolations(v, schema, path, m)) == Some(path)
  {
    hide TypeOk, EnumOk, MinLengthOk, MaxLengthOk, PatternOk, MinimumOk, MaximumOk;
  }

  lemma {:induction false} CheckIsFirstViolation(v: Json, schema: Json, path: string, m: Matcher)
    requires WellFormed(v)
    ensures CheckValue(v, schema, path, m) == First(Violations(v, schema, path, m))
    decreases v, 3, 0
  {
    OwnFirst(v, schema, path, m);
    hide TypeOk, EnumOk, MinLengthOk, MaxLengthOk, PatternOk, MinimumOk, MaximumOk, OwnViolations,
         CheckItems, CheckObject, ItemViolations, ObjectViolations, WellFormed;
    if OwnOk(v, schema, m) {
      if v.Arr? && ItemSchema(schema).Obj? {
        ItemsFirst(v, 0, ItemSchema(schema), path, m);
      } else if v.Obj? && GetOrNull(schema, "properties").Obj? {
        ObjectFirst(v, schema, path, m);
      }
    }
  }

  lemma {:induction false} ItemsFirst(v: Json, i: nat, schema: Json, path: string, m: Matcher)
    requires WellFormed(v) && v.Arr? && i <= |v.items|
    ensures CheckItems(v, i, schema, path, m) == First(ItemViolations(v, i, schema, path, m))
    decreases v, 2, |v.items| - i
  {
    if i < |v.items| {
      hide WellFormed, CheckValue, Violations, Index, First;
      ItemWellFormed(v, i);
      CheckIsFirstViolation(v.items[i], schema, Index(path, i), m);
      ItemsFirst(v, i + 1, schema, path, m);
      FirstOfSum(Violations(v.items[i], schema, Index(path, i), m), ItemViolations(v, i + 1, schema, path, m));
      assert First(Violations(v.items[i], schema, Index(path, i), m)).None?
          <==> Violations(v.items[i], schema, Index(path, i), m) == [] by { NoneOfEmpty(Violations(v.items[i], schema, Index(path, i), m)); }
    }
  }

  lemma {:induction false} ObjectFirst(v: Json, schema: Json, path: string, m: Matcher)
    requires WellFormed(v) && v.Obj?
    ensures CheckObject(v, schema, path, m) == First(ObjectViolations(v, schema, path, m))
    decreases v, 2, |v.keys| + 1
  {
    hide WellFormed, CheckMembers, MemberViolations, CheckRequired, RequiredViolations, Closed, Required, Properties;
    RequiredFirst(v, Required(schema), path);
    MembersFirst(v, 0, Properties(schema), path, m);
  }

  lemma {:induction false} RequiredFirst(v: Json, names: seq<Json>, path: string)
    ensures CheckRequired(v, names, path) == First(RequiredViolations(v, names, path))
  {
    if names != [] {
      RequiredFirst(v, names[1..], path);
    }
  }

  lemma {:induction false} MembersFirst(v: Json, i: nat, properties: Json, path: string, m: Matcher)
    requires WellFormed(v) && v.Obj? && i <= |v.keys|
    ensures CheckMembers(v, i, properties, path, m) == First(MemberViolations(v, i, properties, path, m))
    decreases v, 2, |v.keys| - i
  {
    if i < |v.keys| {
      hide WellFormed, CheckValue, Violations, Member;
      var name := v.keys[i];
      MemberWellFormed(v, i);
      if GetOrNull(properties, name).Obj? {
        CheckIsFirstViolation(v.vals[name], GetOrNull(properties, name), Member(path, name), m);
      }
      MembersFirst(v, i + 1, properties, path, m);
    }
  }

  // ----- there is no violation exactly when the value conforms -------------------------

  lemma {:induction false} NoViolationMeansConforms(v: Json, schema: Json, path: string, m: Matcher)
    requires WellFormed(v)
    ensures Violations(v, schema, path, m) == [] <==> Conforms(v, schema, m)
    decreases v, 3, 0
  {
    OwnFirst(v, schema, path, m);
    hide OwnOk, OwnViolations, ItemViolations, ObjectViolations, WellFormed, ConformsObject, Norm;
    if v.Arr? && ItemSchema(schema).Obj? {
      NoItemViolation(v, 0, ItemSchema(schema), path, m);
    } else if v.Obj? && GetOrNull(schema, "properties").Obj? {
      NoObjectViolation(v, schema, path, m);
    }
  }

  ghost predicate ItemsConform(items: seq<Json>, i: nat, schema: Json, m: Matcher) {
    forall j :: i <= j < |items| ==> Conforms(items[j], schema, m)
  }

  lemma ItemsConformFrom(items: seq<Json>, i: nat, schema: Json, m: Matcher)
    requires i < |items|
    ensures ItemsConform(items, i, schema, m) <==> Conforms(items[i], schema, m) && ItemsConform(items, i + 1, schema, m)
  {
    hide Conforms;
  }

  lemma {:induction false} NoItemViolation(v: Json, i: nat, schema: Json, path: string, m: Matcher)
    requires WellFormed(v) && v.Arr? && i <= |v.items|
    ensures ItemViolations(v, i, schema, path, m) == [] <==> ItemsConform(v.items, i, schema, m)
    decreases v, 2, |v.items| - i
  {
    if i < |v.items| {
      hide WellFormed, Violations, Conforms, Index, ItemsConform;
      ItemWellFormed(v, i);
      NoViolationMeansConforms(v.items[i], schema, Index(path, i), m);
      NoItemViolation(v, i + 1, schema, path, m);
      ItemsConformFrom(v.items, i, schema, m);
    }
  }

  lemma {:induction false} NoObjectViolation(v: Json, schema: Json, path: string, m: Matcher)
    requires WellFormed(v) && v.Obj?
    ensures ObjectViolations(v, schema, path, m) == [] <==> ConformsObject(v, schema, m)
    decreases v, 2, |v.keys| + 1
  {
    NoRequiredViolation(v, Required(schema), path);
    NoMemberViolation(v, 0, Properties(schema), path, m);
    assert forall k :: k in v.keys <==> k in v.vals;
    hide WellFormed, Conforms, MemberViolations, RequiredViolations, Required, Properties, Closed, MembersConform;
    MembersMeanAll(v, Properties(schema), m);
  }

  /** Key by key in order, or for every key there is. */
  lemma MembersMeanAll(v: Json, properties: Json, m: Matcher)
    requires v.Obj? && forall k :: k in v.keys <==> k in v.vals
    ensures MembersConform(v, 0, properties, m) <==>
              forall k :: k in v.vals && GetOrNull(properties, k).Obj? ==> Conforms(v.vals[k], GetOrNull(properties, k), m)
  {
    hide Conforms;
    if MembersConform(v, 0, properties, m) {
      forall k | k in v.vals && GetOrNull(properties, k).Obj? ensures Conforms(v.vals[k], GetOrNull(properties, k), m) {
        var j :| 0 <= j < |v.keys| && v.keys[j] == k;
        assert MemberConforms(v, j, properties, m);
      }
    }
  }

  lemma {:induction false} NoRequiredViolation(v: Json, names: seq<Json>, path: string)
    ensures RequiredViolations(v, names, path) == [] <==> forall i :: 0 <= i < |names| && names[i].Str? ==> Has(v, names[i].s)
  {
    if names != [] {
      NoRequiredViolation(v, names[1..], path);
    }
  }

  ghost predicate MemberConforms(v: Json, i: nat, properties: Json, m: Matcher)
    requires v.Obj? && i < |v.keys| && v.keys[i] in v.vals
  {
    GetOrNull(properties, v.keys[i]).Obj? ==> Conforms(v.vals[v.keys[i]], GetOrNull(properties, v.keys[i]), m)
  }

  ghost predicate MembersConform(v: Json, i: nat, properties: Json, m: Matcher)
    requires v.Obj? && forall k :: k in v.keys ==> k in v.vals
  {
    forall j :: i <= j < |v.keys| ==> MemberConforms(v, j, properties, m)
  }

  lemma MembersConformFrom(v: Json, i: nat, properties: Json, m: Matcher)
    requires v.Obj? && (forall k :: k in v.keys ==> k in v.vals) && i < |v.keys|
    ensures MembersConform(v, i, properties, m) <==> MemberConforms(v, i, properties, m) && MembersConform(v, i + 1, properties, m)
  {
    hide MemberConforms;
  }

  lemma {:induction false} NoMemberViolation(v: Json, i: nat, properties: Json, path: string, m: Matcher)
    requires WellFormed(v) && v.Obj? && i <= |v.keys|
    ensures (forall k :: k in v.keys ==> k in v.vals)
    ensures MemberViolations(v, i, properties, path, m) == [] <==> MembersConform(v, i, properties, m)
    decreases v, 2, |v.keys| - i
  {
    assert forall k :: k in v.keys ==> k in v.vals;
    hide WellFormed, Violations, Conforms, Member, MembersConform;
    if i < |v.keys| {
      var name := v.keys[i];
      MemberWellFormed(v, i);
      if GetOrNull(properties, name).Obj? {
        NoViolationMeansConforms(v.vals[name], GetOrNull(properties, name), Member(path, name), m);
      }
      NoMemberViolation(v, i + 1, properties, path, m);
      MembersConformFrom(v, i, properties, m);
    } else {
      assert MembersConform(v, i, properties, m) by { NoMembersLeft(v, properties, m); }
    }
  }

  lemma NoMembersLeft(v: Json, properties: Json, m: Matcher)
    requires v.Obj? && forall k :: k in v.keys ==> k in v.vals
    ensures MembersConform(v, |v.keys|, properties, m)
  {
  }

  // ----- validate_arguments, require_one_of -----------------------------------------------

  function FieldData(field: string): Json { Put(EMPTY, "field", Str(field)) }

  function InvalidParams(message: string, data: Json): RpcError { RpcError(INVALID_PARAMS, message, data) }

  /** None stands for {}; the arguments come back unchanged. */
  function ValidateArguments(arguments: Json, schema: Json, m: Matcher): Result<Json, RpcError>
    requires WellFormed(arguments) && SchemaOk(schema) && (Has(schema, "properties") ==> schema.vals["properties"].Obj?)
  {
    var a := if arguments.Null? then EMPTY else arguments;
    if !a.Obj? then Err(InvalidParams("arguments must be an object", Null))
    else
      match CheckObject(a, schema, "", m)
      case Some(field) => Err(InvalidParams(field, FieldData(field)))
      case None => Ok(a)
  }

  /** Accepted exactly when the arguments mean what the schema asks for; otherwise
      data.field is the first violation met in traversal order. */
  lemma ValidatorIsExact(arguments: Json, schema: Json, m: Matcher)
    requires WellFormed(arguments) && SchemaOk(schema) && (Has(schema, "properties") ==> schema.vals["properties"].Obj?)
    ensures var r := ValidateArguments(arguments, schema, m);
            var a := if arguments.Null? then EMPTY else arguments;
            && (r.Ok? <==> a.Obj? && ConformsObject(a, schema, m))
            && (r.Ok? ==> r.value == a)
            && (r.Err? && a.Obj? ==> ObjectViolations(a, schema, "", m) != [] && r.error.data == FieldData(ObjectViolations(a, schema, "", m)[0]))
            && (r.Err? ==> r.error.code == INVALID_PARAMS)
  {
    var a := if arguments.Null? then EMPTY else arguments;
    if a.Obj? {
      assert WellFormed(a);
      hide WellFormed, SchemaOk, CheckObject, ObjectViolations, ConformsObject;
      ObjectFirst(a, schema, "", m);
      NoObjectViolation(a, schema, "", m);
    }
  }

  predicate Supplied(arguments: Json, name: string) {
    GetOrNull(arguments, name) != Null && GetOrNull(arguments, name) != Str("")
  }

  function SuppliedOf(arguments: Json, names: seq<string>): seq<string> {
    if names == [] then []
    else (if Supplied(arguments, names[0]) then [names[0]] else []) + SuppliedOf(arguments, names[1..])
  }

  function RequireOneOf(arguments: Json, names: seq<string>): Result<string, RpcError> {
    var supplied := SuppliedOf(arguments, names);
    if |supplied| == 1 then Ok(supplied[0])
    else
      Err(InvalidParams(if supplied == [] then "none was given" else "more than one was given",
                        Put(EMPTY, "expected_one_of", Arr(seq(|names|, i requires 0 <= i < |names| => Str(names[i]))))))
  }

  lemma {:induction false} SuppliedOfHolds(arguments: Json, names: seq<string>)
    ensures forall name :: name in SuppliedOf(arguments, names) <==> name in names && Supplied(arguments, name)
  {
    hide Supplied;
    if names != [] {
      SuppliedOfHolds(arguments, names[1..]);
      assert forall name :: name in names <==> name == names[0] || name in names[1..];
    }
  }

  /** The name returned is supplied, and it is the only one of distinct names that is. */
  lemma RequireOneOfIsExclusive(arguments: Json, a: string, b: string)
    requires a != b
    ensures var r := RequireOneOf(arguments, [a, b]);
            && (r == Ok(a) <==> Supplied(arguments, a) && !Supplied(arguments, b))
            && (r == Ok(b) <==> Supplied(arguments, b) && !Supplied(arguments, a))
            && (r.Ok? ==> r.value == a || r.value == b)
            && (r.Err? ==> r.error.code == INVALID_PARAMS)
  {
    hide Supplied;
    assert [a, b][1..] == [b] && [b][1..] == [];
    assert SuppliedOf(arguments, [b]) == (if Supplied(arguments, b) then [b] else []);
    assert SuppliedOf(arguments, [a, b]) == (if Supplied(arguments, a) then [a] else []) + SuppliedOf(arguments, [b]);
  }
}
