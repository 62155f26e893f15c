/**
  A model of the generic JSON tree (`serde_json::Value`) that the client parses
  response bodies into and builds request bodies from.

  An object is kept as the sequence of its members. serde_json's map never holds
  a key twice; that invariant is the predicate `DistinctKeys`, and the lemmas
  that reason about membership ask for it. The order of members is not modelled.
*/
module JsonValue {
  import opened Wrappers

  datatype Value =
    | Null
    | Bool(b: bool)
    | Number(n: int)
    | String(s: string)
    | Array(items: seq<Value>)
    | Object(members: seq<(string, Value)>)

  /** No key occurs twice among an object's members. */
  predicate DistinctKeys(members: seq<(string, Value)>) {
    forall i, j :: 0 <= i < j < |members| ==> members[i].0 != members[j].0
  }

  /** The value stored under `key` among `members`, if any. */
  function Lookup(members: seq<(string, Value)>, key: string): (r: Option<Value>)
    ensures r.Some? ==> (key, r.value) in members
    ensures r.None? ==> forall i :: 0 <= i < |members| ==> members[i].0 != key
  {
    if |members| == 0 then None
    else if members[0].0 == key then Some(members[0].1)
    else Lookup(members[1..], key)
  }

  /** `value.get(key)` with a string key: the member of an object, and nothing for every other kind of value. */
  function Get(value: Value, key: string): (r: Option<Value>)
    ensures !value.Object? ==> r.None?
    ensures r.Some? ==> (key, r.value) in value.members
    ensures value.Object? && r.None? ==> forall i :: 0 <= i < |value.members| ==> value.members[i].0 != key
  {
    match value
    case Object(members) => Lookup(members, key)
    case _ => None
  }

  /** In an object without repeated keys, a member is exactly what a lookup of its key finds. */
  lemma LookupMember(members: seq<(string, Value)>, key: string, v: Value)
    requires DistinctKeys(members)
    ensures Lookup(members, key) == Some(v) <==> (key, v) in members
  {
  }

  /** The members left after deleting every member whose key is `key`. */
  function RemoveKey(members: seq<(string, Value)>, key: string): (r: seq<(string, Value)>)
    ensures Lookup(r, key).None?
    ensures forall k :: k != key ==> Lookup(r, k) == Lookup(members, k)
    ensures forall m :: m in r ==> m in members
    ensures DistinctKeys(members) ==> DistinctKeys(r)
  {
    if |members| == 0 then []
    else if members[0].0 == key then RemoveKey(members[1..], key)
    else
      DistinctKeysTail(members);
      [members[0]] + RemoveKey(members[1..], key)
  }

  /** Dropping the first member keeps the keys distinct, and none of the rest repeats its key. */
  lemma DistinctKeysTail(members: seq<(string, Value)>)
    requires |members| > 0
    ensures DistinctKeys(members) ==> DistinctKeys(members[1..])
    ensures DistinctKeys(members) ==> forall m :: m in members[1..] ==> m.0 != members[0].0
  {
  }

  /** The same value with the member `key` deleted when it is an object; any other value unchanged. */
  function Without(value: Value, key: string): (r: Value)
    ensures Get(r, key).None?
    ensures forall k :: k != key ==> Get(r, k) == Get(value, k)
    ensures r.Object? <==> value.Object?
  {
    match value
    case Object(members) => Object(RemoveKey(members, key))
    case _ => value
  }
}
