/** A decoded JSON value as Python's `json` module hands it over, and the handful
    of Python operations that ChatBot.py applies to such values: truthiness,
    `d.get(k, default)`, `v[0]` and `v[k]`. Each operation that can raise in
    Python returns the exception kind instead. */
module PyJson {

  /** JSON null, booleans, numbers, strings, arrays (Python lists) and objects
      (Python dicts). Numbers are kept as reals, so an int and the equal float
      are one value, and NaN and Infinity are not represented. */
  datatype Json =
    | JNull
    | JBool(b: bool)
    | JNum(n: real)
    | JStr(s: string)
    | JArr(items: seq<Json>)
    | JObj(fields: map<string, Json>)

  /** The built-in exceptions that the extraction code can raise. */
  datatype Fault = AttributeError | IndexError | KeyError | TypeError

  /** A Python expression evaluation: a value, or the exception it raised. */
  datatype Result<+T> = Ok(value: T) | Err(fault: Fault) {
    predicate IsFailure() { Err? }

    function PropagateFailure<U>(): Result<U>
      requires Err?
    {
      Err(fault)
    }

    function Extract(): T
      requires Ok?
    {
      value
    }
  }

  /** Python truthiness: None, False, zero and empty containers are false. */
  predicate Truthy(v: Json) {
    match v
    case JNull => false
    case JBool(b) => b
    case JNum(n) => n != 0.0
    case JStr(s) => s != []
    case JArr(items) => items != []
    case JObj(fields) => fields != map[]
  }

  /** `v.get(key, default)`: only a dict has `get`; every other value raises
      AttributeError. A key that is present yields its value even when that
      value is null or otherwise falsy. */
  function Get(v: Json, key: string, default: Json): Result<Json> {
    match v
    case JObj(fields) => Ok(if key in fields then fields[key] else default)
    case _ => Err(AttributeError)
  }

  /** `v[0]`: the first element of a list, the first character (itself a
      string) of a str, a KeyError on a dict (JSON keys are strings, never the
      integer 0) and a TypeError on anything that is not subscriptable. */
  function First(v: Json): Result<Json> {
    match v
    case JArr(items) => if items == [] then Err(IndexError) else Ok(items[0])
    case JStr(s) => if s == [] then Err(IndexError) else Ok(JStr([s[0]]))
    case JObj(_) => Err(KeyError)
    case _ => Err(TypeError)
  }

  /** `v[key]` with a string key: a dict yields the value or raises KeyError;
      lists and strs need integer indices and the scalars are not
      subscriptable, so all of those raise TypeError. */
  function Field(v: Json, key: string): Result<Json> {
    match v
    case JObj(fields) => if key in fields then Ok(fields[key]) else Err(KeyError)
    case _ => Err(TypeError)
  }
}
