/**
 * JSON-shaped values. Resource records are server-defined dictionaries, so
 * they are kept as plain maps from field name to value, never as a fixed
 * schema.
 */
module Json {

  datatype Value =
    | Null
    | Bool(b: bool)
    | Int(i: int)
    | Str(s: string)
    | Array(elems: seq<Value>)
    | Object(fields: map<string, Value>)

  /** A company, contact, project or opportunity record. */
  type Record = map<string, Value>

  /** Python's `record.get(key)`: the value under `key`, or None when absent. */
  function Get(r: Record, key: string): (v: Value)
    ensures key in r ==> v == r[key]
    ensures v != Null ==> key in r
  {
    if key in r then r[key] else Null
  }

  /**
   * The serialisation and printing routines the client borrows from the
   * Python runtime, taken as parameters: `dumps` is `json.dumps`, `repr` is
   * `str()` of a list or a dictionary. Nothing is assumed about either.
   */
  datatype Codec = Codec(dumps: Value -> string, repr: Value -> string)
}
