/**
 A map that remembers the order its keys were first put in: assigning to a key that is there keeps its place.
 */
module InsertionMap {
  import opened Wrappers

  datatype OMap<K, V> = OMap(order: seq<K>, items: map<K, V>)

  function Nothing<K, V>(): OMap<K, V> {
    OMap([], map[])
  }

  predicate Distinct<K(==)>(s: seq<K>) {
    forall i, j | 0 <= i < j < |s| :: s[i] != s[j]
  }

  ghost predicate WellFormed<K(!new), V>(m: OMap<K, V>) {
    Distinct(m.order) && forall k :: k in m.order <==> k in m.items
  }

  function Put<K(==), V>(m: OMap<K, V>, k: K, v: V): OMap<K, V> {
    OMap(if k in m.items then m.order else m.order + [k], m.items[k := v])
  }

  function WithoutKey<K(==)>(s: seq<K>, k: K): (r: seq<K>)
    ensures |r| <= |s|
  {
    if s == [] then [] else if s[0] == k then WithoutKey(s[1..], k) else [s[0]] + WithoutKey(s[1..], k)
  }

  function Remove<K(==), V>(m: OMap<K, V>, k: K): OMap<K, V> {
    if k in m.items then OMap(WithoutKey(m.order, k), m.items - {k}) else m
  }

  // Drops the oldest keys until at most `n` are left.
  function Trim<K(==), V>(m: OMap<K, V>, n: nat): OMap<K, V>
    decreases |m.order|
  {
    if |m.order| <= n then m else Trim(OMap(m.order[1..], m.items - {m.order[0]}), n)
  }

  lemma {:induction false} PutIsWellFormed<K(!new), V>(m: OMap<K, V>, k: K, v: V)
    requires WellFormed(m)
    ensures WellFormed(Put(m, k, v)) && Put(m, k, v).items.Keys == m.items.Keys + {k}
    ensures |Put(m, k, v).order| == if k in m.items then |m.order| else |m.order| + 1
  {
    if k !in m.items {
      assert forall q :: q in m.order + [k] <==> q in m.order || q == k;
      assert forall q | q in m.order :: q in m.items;
    }
  }

  lemma {:induction false} WithoutKeyMembers<K(!new)>(s: seq<K>, k: K)
    requires Distinct(s)
    ensures Distinct(WithoutKey(s, k)) && forall q :: q in WithoutKey(s, k) <==> q in s && q != k
    ensures |WithoutKey(s, k)| == if k in s then |s| - 1 else |s|
  {
    if s != [] {
      assert s == [s[0]] + s[1..];
      WithoutKeyMembers(s[1..], k);
      var r := WithoutKey(s[1..], k);
      assert forall q | q in s[1..] :: q != s[0];
      forall i | 0 <= i < |r| ensures r[i] != s[0] {
        assert r[i] in r;
      }
    }
  }

  lemma {:induction false} RemoveIsWellFormed<K(!new), V>(m: OMap<K, V>, k: K)
    requires WellFormed(m)
    ensures WellFormed(Remove(m, k)) && Remove(m, k).items == m.items - {k}
    ensures |Remove(m, k).order| <= |m.order|
  {
    WithoutKeyMembers(m.order, k);
    assert k !in m.items ==> m.items - {k} == m.items;
  }

  /** A bounded store after one more entry: that entry and only entries it had before. */
  lemma {:induction false} BoundedPut<K(!new), V>(m: OMap<K, V>, k: K, v: V, n: nat)
    requires WellFormed(m) && n > 0 && |m.order| <= n
    ensures var t := Trim(Put(m, k, v), n);
            && WellFormed(t) && |t.order| <= n && k in t.items && t.items[k] == v
            && forall q | q in t.items && q != k :: q in m.items && t.items[q] == m.items[q]
  {
    var p := Put(m, k, v);
    PutIsWellFormed(m, k, v);
    TrimKeepsTheYoungest(p, n);
    if k !in m.items {
      var t := Trim(p, n);
      assert t.order[|t.order| - 1] == p.order[|p.order| - 1] == k;
      assert k in t.order;
    }
  }

  /** What is left after trimming are the youngest keys with their values. */
  lemma {:induction false} TrimKeepsTheYoungest<K(!new), V>(m: OMap<K, V>, n: nat)
    requires WellFormed(m)
    ensures var t := Trim(m, n);
            && WellFormed(t) && |t.order| == Min(|m.order|, n)
            && t.order == m.order[|m.order| - |t.order|..]
            && forall k | k in t.items :: k in m.items && t.items[k] == m.items[k]
    decreases |m.order|
  {
    if |m.order| > n {
      TrimKeepsTheYoungest(OMap(m.order[1..], m.items - {m.order[0]}), n);
    }
  }
}
