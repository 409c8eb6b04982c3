/**
 * The JavaScript values the backend keeps in its records, and the two pieces of JavaScript
 * semantics its handlers rely on: truthiness and object spread.
 */
module Json {

  /** A JSON value; numbers are the integers the backend stores (fractions are not modelled). */
  datatype Value =
    | Str(s: string)
    | Num(n: int)
    | Bool(b: bool)
    | Null
    | Arr(items: seq<Value>)
    | Obj(fields: map<string, Value>)

  /** A plain JavaScript object: property names to values. */
  type Record = map<string, Value>

  /** JavaScript truthiness: "", 0, false and null are falsy, everything else is truthy. */
  predicate Truthy(v: Value)
  {
    match v
    case Str(s) => s != ""
    case Num(n) => n != 0
    case Bool(b) => b
    case Null => false
    case Arr(_) => true
    case Obj(_) => true
  }

  /** `r.key` used as a condition: a missing property reads as `undefined`, which is falsy. */
  predicate FieldTruthy(r: Record, key: string)
  {
    key in r && Truthy(r[key])
  }

  /** `{ ...base, ...overrides }`: the properties of both, those of `overrides` winning. */
  function Spread(base: Record, overrides: Record): (r: Record)
    ensures r.Keys == base.Keys + overrides.Keys
    ensures forall k :: k in overrides ==> r[k] == overrides[k]
    ensures forall k :: k in base && k !in overrides ==> r[k] == base[k]
  {
    base + overrides
  }
}
