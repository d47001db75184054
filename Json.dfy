/** Decoded JSON values as the program sees them after `json.loads` /
    `json.load`: numbers are modelled as integers (floating point is out of
    scope), objects as maps from key to value. */
module Json {

  datatype Option<+T> = None | Some(value: T)

  datatype Value =
    | JNull
    | JBool(b: bool)
    | JNum(n: int)
    | JStr(s: string)
    | JList(items: seq<Value>)
    | JObject(fields: map<string, Value>)

  /** A JSON object after decoding: a Python `dict` with string keys. */
  type Object = map<string, Value>

  /** Python's `d[key]` on a dict: a missing key raises `KeyError`, modelled as None. */
  function Lookup(d: Object, key: string): (r: Option<Value>)
    ensures r.Some? <==> key in d
    ensures r.Some? ==> r.value == d[key]
  {
    if key in d then Some(d[key]) else None
  }
}
