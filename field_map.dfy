/** The flat `field name -> value` dict a mapper builds. Python dicts keep
    insertion order, and assigning an existing key keeps its position, so the
    map is an association list whose keys stay distinct. */
module FieldMap {
  import opened Wrappers
  import opened Json

  type FieldMap = seq<(string, Json)>

  /** The keys in insertion order (`list(d)`). */
  function Keys(m: FieldMap): (ks: seq<string>)
    ensures |ks| == |m|
  {
    if m == [] then [] else [m[0].0] + Keys(m[1..])
  }

  predicate Distinct(ks: seq<string>) {
    forall i, j :: 0 <= i < j < |ks| ==> ks[i] != ks[j]
  }

  /** What every dict satisfies: no key twice. */
  predicate Valid(m: FieldMap) {
    Distinct(Keys(m))
  }

  /** `d.get(k)`, `None` for a missing key. */
  function Lookup(m: FieldMap, k: string): Option<Json> {
    Find(m, k)
  }

  lemma {:induction false} LookupKeys(m: FieldMap, k: string)
    ensures Lookup(m, k).Some? <==> k in Keys(m)
  {
    if m != [] { LookupKeys(m[1..], k); }
  }

  /** `d[k] = v`: replaces the value in place when `k` is present, appends otherwise. */
  function Put(m: FieldMap, k: string, v: Json): (r: FieldMap)
    ensures forall q :: Lookup(r, q) == if q == k then Some(v) else Lookup(m, q)
  {
    if m == [] then
      var r := [(k, v)];
      assert r[1..] == [];
      r
    else if m[0].0 == k then
      var r := [(k, v)] + m[1..];
      assert r[1..] == m[1..];
      r
    else
      var t := Put(m[1..], k, v);
      var r := [m[0]] + t;
      assert r[0] == m[0] && r[1..] == t;
      assert forall q :: Lookup(r, q) == if m[0].0 == q then Some(m[0].1) else Lookup(t, q);
      assert forall q :: Lookup(m, q) == if m[0].0 == q then Some(m[0].1) else Lookup(m[1..], q);
      r
  }

  lemma {:induction false} PutKeys(m: FieldMap, k: string, v: Json)
    ensures Keys(Put(m, k, v)) == if k in Keys(m) then Keys(m) else Keys(m) + [k]
  {
    if m != [] && m[0].0 != k {
      PutKeys(m[1..], k, v);
      assert Keys(Put(m, k, v)) == [m[0].0] + Keys(Put(m[1..], k, v));
    }
  }

  /** Assigning a key never duplicates it. */
  lemma PutValid(m: FieldMap, k: string, v: Json)
    requires Valid(m)
    ensures Valid(Put(m, k, v))
  {
    PutKeys(m, k, v);
  }

  /** A Python dict literal of strings, as its entries are written. */
  type FieldTable = seq<(string, string)>

  /** `table.get(name)`: a later entry of a dict literal replaces an
      earlier one with the same name. */
  function DictGet(t: FieldTable, name: string): (r: Option<string>)
    ensures r.Some? <==> exists i :: 0 <= i < |t| && t[i].0 == name
  {
    if t == [] then None
    else if t[|t| - 1].0 == name then Some(t[|t| - 1].1)
    else
      assert forall i :: 0 <= i < |t| - 1 ==> t[..|t| - 1][i] == t[i];
      DictGet(t[..|t| - 1], name)
  }
}
