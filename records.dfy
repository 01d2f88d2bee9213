/** The JavaScript values that the data-access services copy between the pages and the store. */
module Records {

  datatype Value =
    | Undefined
    | Null
    | Bool(b: bool)
    | Num(n: int)
    | Str(s: string)
    | Arr(items: seq<Value>)
    | Obj(fields: map<string, Value>)

  /** A plain object: its own keys and their values. */
  type Record = map<string, Value>

  /** `r.k`: reading a key the object lacks gives `undefined`. */
  function Get(r: Record, k: string): (v: Value)
    ensures k !in r ==> v == Undefined
    ensures k in r ==> v == r[k]
  {
    if k in r then r[k] else Undefined
  }

  /** The values JavaScript treats as false (numbers are integers here, so there is no NaN). */
  predicate Falsy(v: Value) {
    v.Undefined? || v.Null? || v == Bool(false) || v == Num(0) || v == Str("")
  }

  /** `v || fallback`. */
  function Or(v: Value, fallback: Value): Value {
    if Falsy(v) then fallback else v
  }

  /** `Object.fromEntries(Object.entries(data).filter(([key]) => allowed.includes(key)))`. */
  function Pick(data: Record, allowed: seq<string>): (r: Record)
    ensures forall k :: k in r <==> k in data && k in allowed
    ensures forall k :: k in r ==> r[k] == data[k]
  {
    map k | k in data && k in allowed :: data[k]
  }
}
