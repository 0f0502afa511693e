/** JSON values as the Python code holds them: dict, list, str, int, float, bool, None. */
module JsonValues {
  import opened Prelude

  /** A dict is its key order plus its contents. A float is an exact decimal,
      mantissa / 10^scale with scale at least 1, so 1 and 1.0 stay different values. */
  datatype Json =
    | Null
    | Bool(b: bool)
    | Int(n: int)
    | Decimal(mantissa: int, scale: nat)
    | Str(s: string)
    | Arr(items: seq<Json>)
    | Obj(keys: seq<string>, vals: map<string, Json>)

  const EMPTY: Json := Obj([], map[])

  /** What every value built by Python satisfies: dict keys are distinct. */
  ghost predicate WellFormed(j: Json) {
    match j
    case Decimal(_, scale) => scale >= 1
    case Arr(items) => forall i :: 0 <= i < |items| ==> WellFormed(items[i])
    case Obj(keys, vals) =>
      && (forall k :: k in vals ==> WellFormed(vals[k]))
      && (forall k :: k in keys <==> k in vals)
      && (forall i, j :: 0 <= i < j < |keys| ==> keys[i] != keys[j])
    case _ => true
  }

  predicate Has(j: Json, key: string) {
    j.Obj? && key in j.vals
  }

  /** dict.get(key) */
  function Get(j: Json, key: string): Option<Json> {
    if Has(j, key) then Some(j.vals[key]) else None
  }

  /** dict.get(key), with None for a missing key. */
  function GetOrNull(j: Json, key: string): Json {
    if Has(j, key) then j.vals[key] else Null
  }

  /** A member of a dict, by name. */
  predicate Shows(j: Json, key: string, value: Json) { Has(j, key) && GetOrNull(j, key) == value }

  /** dict[key] = value: an existing key keeps its place. */
  function Put(j: Json, key: string, value: Json): (r: Json)
    requires j.Obj?
    ensures r.Obj?
  {
    Obj(KeysWith(j, key), j.vals[key := value])
  }

  function KeysWith(j: Json, key: string): seq<string>
    requires j.Obj?
  {
    if key in j.vals then j.keys else j.keys + [key]
  }

  lemma PutWellFormed(j: Json, key: string, value: Json)
    requires j.Obj? && WellFormed(j) && WellFormed(value)
    ensures WellFormed(Put(j, key, value))
  {
  }

  function Pow10(k: nat): (r: nat)
    ensures r > 0
  {
    if k == 0 then 1 else 10 * Pow10(k - 1)
  }

  /** A value up to Python's ==: numbers compare across int, float and bool,
      dicts compare without their order. */
  datatype PyVal =
    | PyNone
    | PyNum(r: real)
    | PyStr(s: string)
    | PyList(items: seq<PyVal>)
    | PyDict(vals: map<string, PyVal>)

  function Norm(j: Json): PyVal {
    match j
    case Null => PyNone
    case Bool(b) => PyNum(if b then 1.0 else 0.0)
    case Int(n) => PyNum(n as real)
    case Decimal(m, k) => PyNum(m as real / Pow10(k) as real)
    case Str(s) => PyStr(s)
    case Arr(items) => PyList(seq(|items|, i requires 0 <= i < |items| => Norm(items[i])))
    case Obj(_, vals) => PyDict(map k | k in vals :: Norm(vals[k]))
  }

  /** Python truthiness. */
  predicate Truthy(j: Json) {
    match j
    case Null => false
    case Bool(b) => b
    case Int(n) => n != 0
    case Decimal(m, _) => m != 0
    case Str(s) => s != ""
    case Arr(items) => items != []
    case Obj(_, vals) => vals != map[]
  }
}
