/**
 * JavaScript objects as the server handles them. A record maps property
 * names to values and a missing property reads as `undefined`; spreading
 * `{...a, ...b}` keeps every property of both, b's value winning. Dates are
 * `Time` values holding milliseconds (see module Calendar).
 */
module Records {

  datatype Value = Undefined | Null | Bool(b: bool) | Num(n: real) | Str(s: string) | Time(ms: int)

  type Record = map<string, Value>

  /** Property access: a missing property is `undefined`. */
  function Get(r: Record, f: string): Value
  {
    if f in r then r[f] else Undefined
  }

  /** A property that is absent or holds `undefined` (what `=== undefined` tests). */
  predicate IsUndefined(r: Record, f: string)
  {
    Get(r, f) == Undefined
  }

  /** JavaScript truthiness: undefined, null, false, 0 and "" are falsy; a Date object is truthy. */
  predicate Truthy(v: Value)
  {
    match v
    case Undefined => false
    case Null => false
    case Bool(b) => b
    case Num(n) => n != 0.0
    case Str(s) => s != ""
    case Time(_) => true
  }

  /** `{...a, ...b}`. */
  function Spread(a: Record, b: Record): (r: Record)
    ensures r.Keys == a.Keys + b.Keys
  {
    a + b
  }

  /** After a spread, b's properties override and every other property of a is kept. */
  lemma SpreadGet(a: Record, b: Record, f: string)
    ensures Get(Spread(a, b), f) == if f in b then b[f] else Get(a, f)
  {
  }

  /** `v || 0` for a numeric column: a number, or 0 when the value is falsy. */
  function OrZero(v: Value): real
  {
    if v.Num? then v.n else 0.0
  }

  /** `v || d`: a falsy value gives way to d. */
  function Or(v: Value, d: Value): Value
  {
    if Truthy(v) then v else d
  }

  /** The instant a date value denotes; a value that is not a date reads as the epoch. */
  function Instant(v: Value): int
  {
    if v.Time? then v.ms else 0
  }

  /** A numeric id as JavaScript stores it. */
  function IdValue(id: int): Value
  {
    Num(id as real)
  }
}
