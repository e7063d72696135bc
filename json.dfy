/**
 * The JSON trees that the clients hand to Gson. Kotlin's `mapOf` and
 * `mutableMapOf` build insertion-ordered maps, so an object is the ordered
 * list of its members.
 */
module Json {
  import opened Options

  datatype Json =
    | JObject(members: seq<(string, Json)>)
    | JArray(items: seq<Json>)
    | JString(text: string)
    | JNumber(number: int)

  /** The keys of an object, in insertion order. */
  function Keys(members: seq<(string, Json)>): (keys: seq<string>)
    ensures |keys| == |members|
    ensures forall i :: 0 <= i < |members| ==> keys[i] == members[i].0
  {
    if members == [] then [] else [members[0].0] + Keys(members[1..])
  }

  /** No key occurs twice, as in any map. */
  predicate DistinctKeys(members: seq<(string, Json)>) {
    forall i, j :: 0 <= i < j < |members| ==> members[i].0 != members[j].0
  }

  /** Member `key` of an object, `None` when `j` is not an object or lacks the key. */
  function Field(j: Json, key: string): (r: Option<Json>)
    ensures r.Some? <==> j.JObject? && key in Keys(j.members)
  {
    if j.JObject? then Lookup(j.members, key) else None
  }

  function Lookup(members: seq<(string, Json)>, key: string): (r: Option<Json>)
    ensures r.Some? <==> key in Keys(members)
    ensures r.Some? ==> exists i :: 0 <= i < |members| && members[i] == (key, r.value)
  {
    if members == [] then None
    else if members[0].0 == key then Some(members[0].1)
    else Lookup(members[1..], key)
  }

  /** The value reached by following `path` through nested objects. */
  function At(j: Json, path: seq<string>): Option<Json>
    decreases |path|
  {
    if path == [] then Some(j)
    else match Field(j, path[0])
      case None => None
      case Some(child) => At(child, path[1..])
  }

  /** In an object without repeated keys, each key finds its own member. */
  lemma {:induction false} LookupDistinct(members: seq<(string, Json)>, i: nat)
    requires DistinctKeys(members) && i < |members|
    ensures Lookup(members, members[i].0) == Some(members[i].1)
  {
    if i > 0 {
      assert members[0].0 != members[i].0;
      assert DistinctKeys(members[1..]) by {
        forall a, b | 0 <= a < b < |members| - 1 ensures members[1..][a].0 != members[1..][b].0 {
          assert members[a + 1].0 != members[b + 1].0;
        }
      }
      LookupDistinct(members[1..], i - 1);
    }
  }

  /** Following `p + q` is following `p`, then `q`. */
  lemma {:induction false} AtConcat(j: Json, p: seq<string>, q: seq<string>)
    ensures At(j, p + q) == match At(j, p) case None => None case Some(v) => At(v, q)
    decreases |p|
  {
    if p == [] {
      assert p + q == q;
    } else {
      assert (p + q)[0] == p[0] && (p + q)[1..] == p[1..] + q;
      match Field(j, p[0])
      case None =>
      case Some(child) => AtConcat(child, p[1..], q);
    }
  }
}
