/**
 * Parsed JSON values, as `json.loads` returns them. The parser itself is not
 * modelled: operations that parse take it as a parameter of type `Parser`.
 */
module Json {
  import opened Text
  import opened Wrappers

  datatype Json =
    | JNull
    | JBool(b: bool)
    | JInt(i: int)
    | JString(s: String)
    | JArray(items: seq<Json>)
    | JObject(fields: seq<(String, Json)>)

  /** `json.loads`: a JSON value, or None where it raises `JSONDecodeError`. */
  type Parser = String -> Option<Json>

  /** `obj.get(key)`: the value of the last member named `key` (a later duplicate wins). */
  function Get(fields: seq<(String, Json)>, key: String): (r: Option<Json>)
    ensures r.None? <==> forall k :: 0 <= k < |fields| ==> fields[k].0 != key
    ensures r.Some? ==> (key, r.value) in fields
    decreases |fields|
  {
    if |fields| == 0 then None
    else if fields[|fields| - 1].0 == key then Some(fields[|fields| - 1].1)
    else Get(fields[..|fields| - 1], key)
  }
}
