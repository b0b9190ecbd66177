/**
 * JSON documents as values. Numbers are integers (floating point is not
 * modelled). An object keeps its members in document order; a parser keeps
 * the last value of a repeated key, and so does `Lookup`.
 */
module Json {
  import opened Wrappers

  datatype Json =
    | JNull
    | JBool(b: bool)
    | JNumber(n: int)
    | JString(s: string)
    | JArray(items: seq<Json>)
    | JObject(members: seq<(string, Json)>)

  /** The value of the last member named `key`, if any. */
  function Lookup(members: seq<(string, Json)>, key: string): (r: Option<Json>)
    ensures r.Some? <==> exists i :: 0 <= i < |members| && members[i].0 == key
    ensures r.Some? ==> exists i :: 0 <= i < |members| && members[i] == (key, r.value)
                          && forall j :: i < j < |members| ==> members[j].0 != key
  {
    if |members| == 0 then None
    else
      var last := members[|members| - 1];
      if last.0 == key then Some(last.1)
      else
        var init := members[..|members| - 1];
        var r := Lookup(init, key);
        assert forall i :: 0 <= i < |init| ==> init[i] == members[i];
        assert r.Some? ==> exists i :: 0 <= i < |members| && members[i] == (key, r.value)
                             && forall j :: i < j < |members| ==> members[j].0 != key by {
          if r.Some? {
            var i :| 0 <= i < |init| && init[i] == (key, r.value) && forall j :: i < j < |init| ==> init[j].0 != key;
            assert members[i] == (key, r.value);
          }
        }
        r
  }

  /**
   * The keys of the dictionary a parser builds from an object's members:
   * each key once, in the order of its first occurrence.
   */
  function DictKeys(members: seq<(string, Json)>): (ks: seq<string>)
    ensures forall k :: k in ks <==> exists i :: 0 <= i < |members| && members[i].0 == k
    ensures forall i, j :: 0 <= i < j < |ks| ==> ks[i] != ks[j]
  {
    if |members| == 0 then []
    else
      var n := |members| - 1;
      var ks := DictKeys(members[..n]);
      assert forall i :: 0 <= i < n ==> members[..n][i] == members[i];
      if members[n].0 in ks then ks else ks + [members[n].0]
  }

  /** Each key in `ks` occurs in `members` before any occurrence of a later key in `ks`. */
  ghost predicate InFirstOccurrenceOrder(members: seq<(string, Json)>, ks: seq<string>)
  {
    forall i, j :: 0 <= i < j < |ks| ==> KeyPrecedes(members, ks[i], ks[j])
  }

  /** Key `a` occurs in `members` before any occurrence of key `b`. */
  ghost predicate KeyPrecedes(members: seq<(string, Json)>, a: string, b: string)
  {
    exists p :: 0 <= p < |members| && members[p].0 == a && forall q :: 0 <= q <= p ==> members[q].0 != b
  }

  /** `DictKeys` lists the keys in the order of their first occurrence. */
  lemma {:induction false} DictKeysInFirstOccurrenceOrder(members: seq<(string, Json)>)
    ensures InFirstOccurrenceOrder(members, DictKeys(members))
  {
    if |members| > 0 {
      var n := |members| - 1;
      var init := members[..n];
      var ks := DictKeys(init);
      DictKeysInFirstOccurrenceOrder(init);
      assert forall q :: 0 <= q < n ==> init[q] == members[q];
      var all := DictKeys(members);
      assert all == if members[n].0 in ks then ks else ks + [members[n].0];
      forall i, j | 0 <= i < j < |all|
        ensures KeyPrecedes(members, all[i], all[j])
      {
        assert all[i] == ks[i] && ks[i] in ks;
        var p :| 0 <= p < n && init[p].0 == ks[i];
        if j < |ks| {
          assert all[j] == ks[j];
          assert KeyPrecedes(init, ks[i], ks[j]);
          p :| 0 <= p < n && init[p].0 == ks[i] && forall q :: 0 <= q <= p ==> init[q].0 != ks[j];
        } else {
          assert all[j] == members[n].0 && members[n].0 !in ks;
        }
        assert members[p].0 == all[i];
      }
    }
  }
}
