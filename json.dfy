/** JSON payloads as the Python code sees them after `r.json()`, and the
    subscripting the code applies to them.  Floating-point numbers are not
    modelled. */
module Json {
  import opened Wrappers

  datatype Json =
    | JNull
    | JBool(b: bool)
    | JInt(i: int)
    | JStr(s: string)
    | JArr(items: seq<Json>)
    | JObj(fields: map<string, Json>)

  /** `j[key]`: a dict lookup.  A missing key is a KeyError; anything that
      is not a dict cannot be subscripted by a string. */
  function Get(j: Json, key: string): (r: Result<Json>)
    ensures r.Ok? <==> j.JObj? && key in j.fields
    ensures r.Ok? ==> r.value == j.fields[key]
    ensures j.JObj? && key !in j.fields ==> r == Err(KeyMissing(key))
    ensures !j.JObj? ==> r == Err(NotSubscriptable)
  {
    match j
    case JObj(fields) => if key in fields then Ok(fields[key]) else Err(KeyMissing(key))
    case _ => Err(NotSubscriptable)
  }

  /** `resp[key]` where `resp` is what `call_endpoint` returned: None when the
      call failed, and subscripting None is a TypeError. */
  function GetFrom(resp: Option<Json>, key: string): (r: Result<Json>)
    ensures resp.None? ==> r == Err(NotSubscriptable)
    ensures resp.Some? ==> r == Get(resp.value, key)
  {
    match resp
    case None => Err(NotSubscriptable)
    case Some(j) => Get(j, key)
  }
}
