/**
 * JSON-like values: what `json.loads` produces, what database cells hold and
 * what the discovery state stores. An object keeps its members in insertion
 * order, as a Python dict does; JSON floating-point numbers are not modelled.
 */
module Json {
  import opened Wrappers

  datatype Json =
    | JNull
    | JBool(b: bool)
    | JNum(n: int)
    | JStr(s: string)
    | JList(items: seq<Json>)
    | JObject(members: seq<Member>)

  datatype Member = Member(key: string, value: Json)

  /** Python truthiness of a decoded JSON value. */
  predicate Truthy(j: Json) {
    match j
    case JNull => false
    case JBool(b) => b
    case JNum(n) => n != 0
    case JStr(s) => s != ""
    case JList(items) => items != []
    case JObject(members) => members != []
  }

  /** `key in d` for a dict. */
  predicate HasKey(members: seq<Member>, key: string) {
    exists i :: 0 <= i < |members| && members[i].key == key
  }

  /**
   * `d.get(key)`: the value stored under `key`, if any. When the members
   * repeat a key the last one wins, as with `json.loads` and a dict display.
   */
  function Lookup(members: seq<Member>, key: string): (r: Option<Json>)
    ensures r.Some? <==> HasKey(members, key)
  {
    if members == [] then None
    else
      var n := |members| - 1;
      if members[n].key == key then Some(members[n].value)
      else
        assert HasKey(members, key) <==> HasKey(members[..n], key) by {
          if HasKey(members, key) {
            var i :| 0 <= i < |members| && members[i].key == key;
            assert members[..n][i].key == key;
          }
          if HasKey(members[..n], key) {
            var i :| 0 <= i < n && members[..n][i].key == key;
            assert members[i].key == key;
          }
        }
        Lookup(members[..n], key)
  }

  /** The value found is that of the last member with the key. */
  lemma {:induction false} LookupLast(members: seq<Member>, key: string, i: nat)
    requires i < |members| && members[i].key == key
    requires forall j :: i < j < |members| ==> members[j].key != key
    ensures Lookup(members, key) == Some(members[i].value)
    decreases |members|
  {
    var n := |members| - 1;
    if i < n {
      LookupLast(members[..n], key, i);
    }
  }

  /** The keys of a dict in iteration order: each key once, where it first appears. */
  function Keys(members: seq<Member>): (r: seq<string>)
    ensures forall i, j :: 0 <= i < j < |r| ==> r[i] != r[j]
  {
    if members == [] then []
    else
      var init := Keys(members[..|members| - 1]);
      if members[|members| - 1].key in init then init else init + [members[|members| - 1].key]
  }

  /** Every key of a dict is listed, and nothing else. */
  lemma {:induction false} KeysMembers(members: seq<Member>, key: string)
    ensures key in Keys(members) <==> HasKey(members, key)
    decreases |members|
  {
    if members != [] {
      var n := |members| - 1;
      KeysMembers(members[..n], key);
      if HasKey(members[..n], key) {
        var i :| 0 <= i < n && members[..n][i].key == key;
        assert members[i].key == key;
      }
      if HasKey(members, key) && members[n].key != key {
        var i :| 0 <= i < |members| && members[i].key == key;
        assert members[..n][i].key == key;
      }
    }
  }

  /** `value[key]` on an arbitrary value: only a dict holding the key answers. */
  function Get(j: Json, key: string): Option<Json> {
    if j.JObject? then Lookup(j.members, key) else None
  }

  /** The values of a dict, in insertion order (`d.values()`). */
  function Values(members: seq<Member>): (r: seq<Json>)
    ensures |r| == |members|
    ensures forall i :: 0 <= i < |members| ==> r[i] == members[i].value
  {
    if members == [] then [] else [members[0].value] + Values(members[1..])
  }
}
