/**
 * The decoded payload of a response. A JSON object is a Python dict, so its
 * members keep insertion order; a JSON number is modelled as an integer.
 */
module JsonData {

  datatype Json =
    | Object(members: seq<(string, Json)>)
    | Array(items: seq<Json>)
    | Str(str: string)
    | Num(num: int)
    | Bool(b: bool)
    | Null

  /** The normalized body of a response: decoded JSON, or the raw text. */
  datatype Body = JsonBody(value: Json) | Text(text: string)

  /** A dict or a list, the two shapes the analysis looks inside. */
  predicate IsContainer(v: Json)
  {
    v.Object? || v.Array?
  }

  /** Python's `len()` of a dict (its key count) or a list (its item count). */
  function Size(v: Json): (n: nat)
    requires IsContainer(v)
    ensures v.Object? ==> n == |v.members|
    ensures v.Array? ==> n == |v.items|
  {
    if v.Object? then |v.members| else |v.items|
  }

  /** `list(d.keys())`: the keys of an object, in insertion order. */
  function Keys(members: seq<(string, Json)>): (ks: seq<string>)
    ensures |ks| == |members|
    ensures forall i :: 0 <= i < |members| ==> ks[i] == members[i].0
  {
    if members == [] then [] else [members[0].0] + Keys(members[1..])
  }

  /** A dict never holds the same key twice. */
  predicate DistinctKeys(members: seq<(string, Json)>)
  {
    forall i, j :: 0 <= i < j < |members| ==> members[i].0 != members[j].0
  }

  /**
   * Over a dict, the key list names every key exactly once and nothing else.
   */
  lemma {:induction false} KeysListedOnce(members: seq<(string, Json)>, k: string)
    requires DistinctKeys(members)
    ensures multiset(Keys(members))[k] == if exists i :: 0 <= i < |members| && members[i].0 == k then 1 else 0
  {
    if members != [] {
      var rest := members[1..];
      assert DistinctKeys(rest) by {
        forall i, j | 0 <= i < j < |rest| ensures rest[i].0 != rest[j].0 {
          assert rest[i] == members[i + 1] && rest[j] == members[j + 1];
        }
      }
      KeysListedOnce(rest, k);
      assert Keys(members) == [members[0].0] + Keys(rest);
      assert multiset(Keys(members)) == multiset{members[0].0} + multiset(Keys(rest));
      if members[0].0 == k {
        forall i | 0 <= i < |rest| ensures rest[i].0 != k {
          assert rest[i] == members[i + 1];
        }
      } else {
        if i :| 0 <= i < |members| && members[i].0 == k {
          assert rest[i - 1] == members[i];
        }
        if i :| 0 <= i < |rest| && rest[i].0 == k {
          assert members[i + 1] == rest[i];
        }
      }
    }
  }
}
