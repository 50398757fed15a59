/**
 * The decoded form of the JSON text a recordset keeps in its `jsondata`
 * field, and Python's `len` on such a value.
 */
module Json {
  import opened Wrappers

  /** A decoded JSON value; numbers are kept as integers. */
  datatype Value =
    | Null
    | Bool(b: bool)
    | Number(n: int)
    | String(s: string)
    | Array(items: seq<Value>)
    | Object(fields: map<string, Value>)

  /**
   * Python's `len(v)`: the number of characters of a string, of items of a
   * list, of keys of a dict; `None` where Python raises a TypeError.
   */
  function Len(v: Value): (r: Option<nat>)
    ensures r.None? <==> v.Null? || v.Bool? || v.Number?
    ensures v.String? ==> r == Some(|v.s|)
    ensures v.Array? ==> r == Some(|v.items|)
    ensures v.Object? ==> r == Some(|v.fields|)
  {
    match v
    case String(s) => Some(|s|)
    case Array(items) => Some(|items|)
    case Object(fields) => Some(|fields|)
    case _ => None
  }
}
