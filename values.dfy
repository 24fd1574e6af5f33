/** The JavaScript values that node payloads hold, and JavaScript truthiness. */
module Values {

  datatype Option<+T> = None | Some(value: T)

  /** A payload field. Numbers (positions, guidance scale, progress) are kept
      as opaque reals: the store never does arithmetic on them. */
  datatype Value =
    | VNull
    | VBool(b: bool)
    | VNum(x: real)
    | VStr(s: string)
    | VStrList(items: seq<string>)

  /** A node payload: a record from field names to values. */
  type Payload = map<string, Value>

  /** Reading `d.key`; `None` stands for `undefined` (the key is absent). */
  function Field(d: Payload, key: string): Option<Value>
  {
    if key in d then Some(d[key]) else None
  }

  /** JavaScript truthiness (`if (v)`) of a possibly undefined value. */
  predicate Truthy(v: Option<Value>)
  {
    match v
    case None => false
    case Some(VNull) => false
    case Some(VBool(b)) => b
    case Some(VNum(x)) => x != 0.0
    case Some(VStr(s)) => s != ""
    case Some(VStrList(_)) => true
  }
}
