/** JSON-like values: what the database driver returns and what `json.dumps` consumes.
    An object keeps its members in insertion order, as a Python dict does. */
module Json {
  import opened Wrappers

  datatype Json =
    | JNull
    | JBool(b: bool)
    | JNumber(n: int)
    | JString(s: string)
    | JArray(items: seq<Json>)
    | JObject(members: seq<(string, Json)>)

  /** `d.get(key)` on a dict: the value of the first member named `key`, if any. */
  function Get(members: seq<(string, Json)>, key: string): (r: Option<Json>)
    ensures r.None? <==> forall i :: 0 <= i < |members| ==> members[i].0 != key
    ensures r.Some? ==> exists i :: 0 <= i < |members| && members[i] == (key, r.value)
  {
    if members == [] then None
    else if members[0].0 == key then Some(members[0].1)
    else
      var r := Get(members[1..], key);
      assert r.Some? ==> exists i :: 0 <= i < |members| - 1 && members[1..][i] == (key, r.value);
      r
  }
}
