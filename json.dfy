/**
  The JSON values an HTTP reply body is serialised from. Only what the error
  handler builds and what one can observe of it is defined here: the value of a
  key and the set of strings that occur anywhere in a value, which is what a
  caller reading the body could learn. An object is taken to have distinct keys,
  as every JavaScript object does; on a repeated key `Lookup` answers with the
  first member, which never arises for the bodies built here.
*/
module JsonValues {
  import opened Wrappers

  datatype Json =
    | JNull
    | JBool(b: bool)
    | JNumber(n: int)
    | JString(s: string)
    | JArray(items: seq<Json>)
    | JObject(members: seq<Member>)

  /** One `key: value` entry of an object, in insertion order. */
  datatype Member = Member(key: string, value: Json)

  /** The keys of an object's members, in order. */
  function MemberKeys(ms: seq<Member>): (ks: seq<string>)
    ensures |ks| == |ms|
    ensures forall i :: 0 <= i < |ms| ==> ks[i] == ms[i].key
  {
    if ms == [] then [] else [ms[0].key] + MemberKeys(ms[1..])
  }

  /** The keys of `j`, or none when `j` is not an object. */
  function Keys(j: Json): seq<string>
  {
    if j.JObject? then MemberKeys(j.members) else []
  }

  /** The value stored under `key`: the first member with that key, if any. */
  function Lookup(ms: seq<Member>, key: string): (r: Option<Json>)
    ensures r.None? <==> forall i :: 0 <= i < |ms| ==> ms[i].key != key
    ensures r.Some? ==> exists i :: 0 <= i < |ms| && ms[i] == Member(key, r.value)
                                    && forall k :: 0 <= k < i ==> ms[k].key != key
  {
    if ms == [] then None
    else if ms[0].key == key then Some(ms[0].value)
    else
      var r := Lookup(ms[1..], key);
      assert forall i :: 1 <= i < |ms| ==> ms[i] == ms[1..][i - 1];
      r
  }

  /** `j.key` for an object `j`; nothing for any other value. */
  function Get(j: Json, key: string): Option<Json>
  {
    if j.JObject? then Lookup(j.members, key) else None
  }

  /** Every string that occurs in `j`, as an object key or as a string value, at any depth. */
  function Strings(j: Json): set<string>
    decreases j, 1
  {
    match j
    case JString(s) => {s}
    case JArray(items) => ItemStrings(items)
    case JObject(ms) => MemberStrings(ms)
    case _ => {}
  }

  function ItemStrings(items: seq<Json>): set<string>
    decreases items, 0
  {
    if items == [] then {} else Strings(items[0]) + ItemStrings(items[1..])
  }

  function MemberStrings(ms: seq<Member>): (r: set<string>)
    decreases ms, 0
    ensures forall s :: s in r <==> exists i :: 0 <= i < |ms| && (ms[i].key == s || s in Strings(ms[i].value))
  {
    if ms == [] then {} else {ms[0].key} + Strings(ms[0].value) + MemberStrings(ms[1..])
  }
}
