/** The part of `serde_json::Value` the executors inspect. */
module Json {
  import opened Wrappers

  /** A JSON value. Numbers are kept as integers (floating point is not modelled). */
  datatype Value =
    | Null
    | Bool(b: bool)
    | Number(n: int)
    | String(s: string)
    | Array(items: seq<Value>)
    | Object(fields: map<string, Value>)

  /** `Value::get(key)`: the field of an object; absent for a missing key or a non-object. */
  function Get(v: Value, key: string): (r: Option<Value>)
    ensures r.Some? <==> v.Object? && key in v.fields
    ensures r.Some? ==> r.value == v.fields[key]
  {
    match v
    case Object(fields) => if key in fields then Some(fields[key]) else None
    case _ => None
  }

  /** `Value::as_str`: the text of a string value, absent for every other kind of value. */
  function AsStr(v: Value): (r: Option<string>)
    ensures r.Some? <==> v.String?
    ensures r.Some? ==> r.value == v.s
  {
    if v.String? then Some(v.s) else None
  }

  /** `v.get(key).and_then(|x| x.as_str())`: a field that is present and holds a string. */
  function StrField(v: Value, key: string): (r: Option<string>)
    ensures r.Some? <==> v.Object? && key in v.fields && v.fields[key].String?
    ensures r.Some? ==> r.value == v.fields[key].s
  {
    match Get(v, key)
    case Some(x) => AsStr(x)
    case None => None
  }
}
