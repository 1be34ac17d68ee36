/** Parsed JSON values, as `response.json()` yields them and `JSON.stringify`
    serialises them, with the JavaScript truthiness and property access the
    core applies to them. Numbers are integers in this model. */
module Json {
  import opened Wrappers

  datatype Json =
    | JNull
    | JBool(b: bool)
    | JNumber(n: int)
    | JString(s: string)
    | JArray(items: seq<Json>)
    | JObject(members: seq<(string, Json)>)

  /** JavaScript truthiness of a parsed value (`if (data)`, `x || y`). */
  predicate Truthy(j: Json) {
    match j
    case JNull => false
    case JBool(b) => b
    case JNumber(n) => n != 0
    case JString(s) => s != ""
    case JArray(_) => true
    case JObject(_) => true
  }

  /** The value of the last member named `key` (the one `JSON.parse` keeps). */
  function LastMember(members: seq<(string, Json)>, key: string): (r: Option<Json>)
    ensures r.Some? <==> exists i :: 0 <= i < |members| && members[i].0 == key
    ensures r.Some? ==> exists i :: 0 <= i < |members| && members[i] == (key, r.value)
  {
    if members == [] then None
    else
      var last := members[|members| - 1];
      if last.0 == key then Some(last.1)
      else
        var r := LastMember(members[..|members| - 1], key);
        assert forall i :: 0 <= i < |members| - 1 ==> members[..|members| - 1][i] == members[i];
        r
  }

  /** `j.key` on a parsed value: the member of an object, `undefined` (None)
      on anything else. */
  function Member(j: Json, key: string): Option<Json>
  {
    match j
    case JObject(ms) => LastMember(ms, key)
    case _ => None
  }

  /** `result?.data ?? undefined`: a missing or `null` `data` reads as undefined. */
  function DataOrUndefined(j: Json): (r: Option<Json>)
    ensures r.Some? ==> r.value != JNull && Member(j, "data") == r
    ensures r.None? ==> Member(j, "data") in {None, Some(JNull)}
  {
    match Member(j, "data")
    case Some(JNull) => None
    case other => other
  }
}
