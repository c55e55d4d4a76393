/**
 * A parsed JSON value, the shape of every payload that crosses the real-time
 * channel and of the loosely typed objects the pages spread into one another.
 * Numbers are mathematical reals: NaN and the infinities are not modelled.
 */
module Json {

  datatype Json =
    | Null
    | Bool(b: bool)
    | Num(n: real)
    | Str(s: string)
    | Arr(items: seq<Json>)
    | Obj(fields: map<string, Json>)

  /** A JavaScript object whose values are JSON values. */
  type Object = map<string, Json>

  /** JavaScript truthiness: `null`, `false`, `0` and `""` are falsy, everything else is truthy. */
  predicate Truthy(j: Json) {
    match j
    case Null => false
    case Bool(b) => b
    case Num(n) => n != 0.0
    case Str(s) => s != ""
    case Arr(_) => true
    case Obj(_) => true
  }

  /** Property read `o.k`; a missing key reads as `undefined`, which behaves here like `null`. */
  function Get(o: Object, k: string): Json {
    if k in o then o[k] else Null
  }
}
