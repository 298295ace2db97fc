/** The JSON values that `json.dump` writes and `json.load` returns, as the
    plugin sees them after parsing: text layout is not modelled, objects are
    maps from keys to values and numbers are integers. */
module JsonValues {
  import opened Runtime

  datatype Json =
    | JNull
    | JBool(b: bool)
    | JNum(n: int)
    | JStr(s: string)
    | JArr(items: seq<Json>)
    | JObj(members: map<string, Json>)

  /** Python's `value[key]` on a loaded JSON value: a dict yields the member or
      raises KeyError, anything else raises TypeError. */
  function Subscript(j: Json, key: string): (r: Result<Json>)
    ensures r.Ok? <==> j.JObj? && key in j.members
    ensures r.Ok? ==> r.value == j.members[key]
    ensures r.Raise? ==> r.error == (if j.JObj? then KeyError(key) else TypeError)
  {
    match j
    case JObj(m) => if key in m then Ok(m[key]) else Raise(KeyError(key))
    case _ => Raise(TypeError)
  }

  /** Python's `key in value` on a loaded dict. */
  predicate HasKey(j: Json, key: string) {
    j.JObj? && key in j.members
  }
}
