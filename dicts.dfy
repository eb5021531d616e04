/**
 * A Python dict from `str` to `str` as the provisioning code uses it for IP
 * maps (`{"net1": "10.0.0.5", ...}`): key/value pairs in insertion order.
 * A `None` value is written as the empty string; both are falsy in Python.
 */
module Dicts {
  import opened Wrappers

  type Dict = seq<(string, string)>

  predicate DistinctKeys(d: Dict)
  {
    forall i, j :: 0 <= i < j < |d| ==> d[i].0 != d[j].0
  }

  /** `d.get(k)`. */
  function Get(d: Dict, k: string): (r: Option<string>)
    ensures r.None? <==> forall i :: 0 <= i < |d| ==> d[i].0 != k
    ensures r.Some? ==> exists i :: 0 <= i < |d| && d[i] == (k, r.value)
    ensures DistinctKeys(d) ==> forall i :: 0 <= i < |d| && d[i].0 == k ==> r == Some(d[i].1)
  {
    if d == [] then None
    else if d[0].0 == k then Some(d[0].1)
    else
      var r := Get(d[1..], k);
      assert forall i :: 1 <= i < |d| ==> d[i] == d[1..][i - 1];
      r
  }

  /** `[v for v in d.values() if v]`. */
  function NonEmptyValues(d: Dict): (r: seq<string>)
    ensures |r| <= |d|
    ensures forall i :: 0 <= i < |r| ==> r[i] != ""
    ensures r == [] <==> forall i :: 0 <= i < |d| ==> d[i].1 == ""
    ensures forall v :: v in r <==> v != "" && exists i :: 0 <= i < |d| && d[i].1 == v
  {
    if d == [] then []
    else
      var rest := NonEmptyValues(d[1..]);
      assert forall i :: 1 <= i < |d| ==> d[i] == d[1..][i - 1];
      if d[0].1 != "" then [d[0].1] + rest else rest
  }

  /** The values of `a + b` that are kept are those of `a`, then those of `b`: the order of the dict is kept. */
  lemma {:induction false} NonEmptyValuesAppend(a: Dict, b: Dict)
    ensures NonEmptyValues(a + b) == NonEmptyValues(a) + NonEmptyValues(b)
    decreases |a|
  {
    if a != [] {
      assert (a + b)[1..] == a[1..] + b;
      NonEmptyValuesAppend(a[1..], b);
    } else {
      assert a + b == b;
    }
  }

  /** Adding a pair last adds its value last exactly when the value is non-empty. */
  lemma NonEmptyValuesSnoc(d: Dict, k: string, v: string)
    ensures NonEmptyValues(d + [(k, v)]) == NonEmptyValues(d) + (if v != "" then [v] else [])
  {
    NonEmptyValuesAppend(d, [(k, v)]);
    assert [(k, v)][1..] == [];
  }

  /** `d[k] = v`: an existing key keeps its position, a new key goes last. */
  function Put(d: Dict, k: string, v: string): (r: Dict)
    ensures (forall i :: 0 <= i < |d| ==> d[i].0 != k) ==> r == d + [(k, v)]
    ensures Get(r, k) == Some(v)
  {
    if d == [] then [(k, v)]
    else if d[0].0 == k then [(k, v)] + d[1..]
    else
      var rest := Put(d[1..], k, v);
      var r := [d[0]] + rest;
      assert r[1..] == rest;
      assert (forall i :: 0 <= i < |d| ==> d[i].0 != k) ==> r == d + [(k, v)] by {
        if forall i :: 0 <= i < |d| ==> d[i].0 != k {
          assert forall i :: 0 <= i < |d[1..]| ==> d[1..][i].0 != k by {
            forall i | 0 <= i < |d[1..]| ensures d[1..][i].0 != k {
              assert d[1..][i] == d[i + 1];
            }
          }
          assert d == [d[0]] + d[1..];
        }
      }
      r
  }
}
