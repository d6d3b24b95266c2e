/**
 * JSON values as the Python scripts load and dump them. A state record is a
 * JSON object; numbers (Python int and float alike) are modelled as `int`.
 */
module Json {

  datatype Value =
    | Null
    | Bool(b: bool)
    | Num(n: int)
    | Str(s: string)
    | Arr(items: seq<Value>)
    | Obj(fields: map<string, Value>)

  /** A JSON object: the content of one state file. */
  type Record = map<string, Value>

  /** Python's `d.get(key, default)`. */
  function GetOr(rec: Record, key: string, default: Value): (v: Value)
    ensures key in rec ==> v == rec[key]
    ensures key !in rec ==> v == default
  {
    if key in rec then rec[key] else default
  }
}
