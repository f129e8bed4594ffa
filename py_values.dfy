/** Python values as they come out of a parsed JSON document, the exceptions the
    library lets escape, and the few Python operations on them that it uses
    (`d[k]`, `d[k] if k in d else None`, `x[0]`, `==` and hashing). */
module PyValues {

  datatype Option<+T> = None | Some(value: T)

  /** A parsed JSON value. JSON numbers are modelled as integers only. */
  datatype Json =
    | JNull
    | JBool(b: bool)
    | JInt(i: int)
    | JStr(s: string)
    | JArr(items: seq<Json>)
    | JObj(fields: map<string, Json>)

  /** A JSON object, as Python's `dict` with string keys. */
  type Object = map<string, Json>

  /** The exceptions the library lets escape to its caller. */
  datatype PyError = KeyError(key: Json) | IndexError | TypeError

  /** A value, or the exception that aborted its computation. */
  datatype Result<+T> = Ok(value: T) | Err(error: PyError)

  /** `d[k] if k in d else None`: an absent key and a JSON `null` both give Python's `None`. */
  function Get(d: Object, k: string): Option<Json> {
    if k in d && d[k] != JNull then Some(d[k]) else None
  }

  /** `d[k]`, which raises `KeyError` when the key is absent. */
  function Item(d: Object, k: string): Result<Json> {
    if k in d then Ok(d[k]) else Err(KeyError(JStr(k)))
  }

  /** A raw value placed where Python holds either `None` or a value. */
  function ToOption(v: Json): Option<Json> {
    if v == JNull then None else Some(v)
  }

  /** `v[0]`: the first element of a list, the first character of a string;
      a dict has no key `0`; anything else is not subscriptable. */
  function First(v: Json): Result<Json> {
    match v
    case JArr(items) => if |items| == 0 then Err(IndexError) else Ok(items[0])
    case JStr(s) => if |s| == 0 then Err(IndexError) else Ok(JStr(s[..1]))
    case JObj(_) => Err(KeyError(JInt(0)))
    case _ => Err(TypeError)
  }

  /** `v[k]` for a string key: only a dict accepts it. */
  function Subscript(v: Json, k: string): Result<Json> {
    match v
    case JObj(m) => Item(m, k)
    case _ => Err(TypeError)
  }

  /** Python compares and hashes `True` and `False` as `1` and `0`. */
  function Canon(v: Json): Json {
    match v
    case JBool(b) => JInt(if b then 1 else 0)
    case _ => v
  }

  /** Python's `==` on two values read from JSON (booleans against integers at the top level). */
  predicate PyEq(x: Json, y: Json) {
    Canon(x) == Canon(y)
  }

  /** Lists and dicts cannot be dict keys or set members. */
  predicate Hashable(v: Json) {
    !v.JArr? && !v.JObj?
  }
}
