/** The JavaScript values the three components handle, and the results that
    stand for a call that either returns or throws an `Error`. */
module JsValues {

  /** A primitive JavaScript value. Objects appear only as `Record`s. */
  datatype Value = Undefined | Null | Bool(b: bool) | Num(n: real) | Str(s: string)

  /** A plain object: its own enumerable properties. */
  type Record = map<string, Value>

  /** `obj[key]`: a property the object does not have reads as `undefined`. */
  function Get(r: Record, key: string): Value
  {
    if key in r then r[key] else Undefined
  }

  /** `{ ...r, [name]: true }`: a copy of `r` with one boolean flag set. */
  function WithFlag(r: Record, name: string): (f: Record)
    ensures f.Keys == r.Keys + {name}
    ensures f[name] == Bool(true)
    ensures forall k :: k in r && k != name ==> f[k] == r[k]
  {
    r[name := Bool(true)]
  }

  /** A call that returns a value of type T or throws an error with a message. */
  datatype Result<+T> = Ok(value: T) | Err(error: string)

  /** A call that returns nothing or throws an error with a message. */
  datatype Outcome = Pass | Fail(error: string)
}
