/** Listing the keys of a map, as Go's `for k := range m { out = append(out, k) }` does: each
    key once, in an order the language leaves open. */
module MapUtil {
  /** No element occurs twice. */
  predicate Distinct<K(==)>(ks: seq<K>) {
    forall i, j :: 0 <= i < j < |ks| ==> ks[i] != ks[j]
  }

  /** The keys of `m`, each exactly once, in some order. */
  method Keys<K(==), V>(m: map<K, V>) returns (ks: seq<K>)
    ensures forall k :: k in ks <==> k in m
    ensures Distinct(ks)
  {
    ks := [];
    var rest := m.Keys;
    while rest != {}
      invariant forall k :: k in ks ==> k in m && k !in rest
      invariant forall k :: k in m ==> k in ks || k in rest
      invariant rest <= m.Keys
      invariant Distinct(ks)
      decreases rest
    {
      var k :| k in rest;
      ks := ks + [k];
      rest := rest - {k};
    }
  }

  /** A distinct listing of a key set has as many entries as the map has keys. */
  lemma {:induction false} DistinctListingSize<K, V>(ks: seq<K>, m: map<K, V>)
    requires forall k :: k in ks <==> k in m
    requires Distinct(ks)
    ensures |ks| == |m|
    decreases |ks|
  {
    if ks == [] {
      assert m.Keys == {};
    } else {
      var last := ks[|ks| - 1];
      var m' := m - {last};
      assert forall k :: k in ks[..|ks| - 1] <==> k in m' by {
        forall k ensures k in ks[..|ks| - 1] <==> k in m' {
          if k in ks[..|ks| - 1] {
            var i :| 0 <= i < |ks| - 1 && ks[i] == k;
            assert ks[i] != ks[|ks| - 1];
          }
          if k in m' {
            assert k in ks;
            var i :| 0 <= i < |ks| && ks[i] == k;
            assert i != |ks| - 1;
            assert ks[..|ks| - 1][i] == k;
          }
        }
      }
      DistinctListingSize(ks[..|ks| - 1], m');
      assert last in m;
      assert m'.Keys == m.Keys - {last};
    }
  }
}
