/** Sums over the values of an id-keyed map (the engine's `Map.values()`
    loops).  Real addition is associative and commutative, so the
    insertion order of a JavaScript Map does not affect these sums. */
module Sums {

  /** Sum of m[k] over the keys in `keys`. */
  ghost function SumOver(m: map<string, real>, keys: set<string>): real
    requires keys <= m.Keys
    decreases keys
  {
    if keys == {} then 0.0
    else
      var k :| k in keys;
      m[k] + SumOver(m, keys - {k})
  }

  /** Sum of all values of a map. */
  ghost function SumValues(m: map<string, real>): real {
    SumOver(m, m.Keys)
  }

  /** Any key may be taken out first: the sum does not depend on the order. */
  lemma {:induction false} SumOverRemove(m: map<string, real>, keys: set<string>, k: string)
    requires keys <= m.Keys && k in keys
    ensures SumOver(m, keys) == m[k] + SumOver(m, keys - {k})
    decreases keys
  {
    var j :| j in keys && SumOver(m, keys) == m[j] + SumOver(m, keys - {j});
    if j != k {
      SumOverRemove(m, keys - {j}, k);
      SumOverRemove(m, keys - {k}, j);
      assert keys - {j} - {k} == keys - {k} - {j};
    }
  }

  /** The sum only reads the values at the keys it ranges over. */
  lemma {:induction false} SumOverAgree(m1: map<string, real>, m2: map<string, real>, keys: set<string>)
    requires keys <= m1.Keys && keys <= m2.Keys
    requires forall k :: k in keys ==> m1[k] == m2[k]
    ensures SumOver(m1, keys) == SumOver(m2, keys)
    decreases keys
  {
    if keys != {} {
      var k :| k in keys && SumOver(m1, keys) == m1[k] + SumOver(m1, keys - {k});
      SumOverRemove(m2, keys, k);
      SumOverAgree(m1, m2, keys - {k});
    }
  }

  /** Updating one entry changes the sum by the difference. */
  lemma SumValuesUpdate(m: map<string, real>, k: string, v: real)
    ensures SumValues(m[k := v]) == SumValues(m) - (if k in m then m[k] else 0.0) + v
  {
    var m' := m[k := v];
    SumOverRemove(m', m'.Keys, k);
    SumOverAgree(m, m', m.Keys - {k});
    if k in m {
      SumOverRemove(m, m.Keys, k);
      assert m'.Keys - {k} == m.Keys - {k};
    } else {
      assert m.Keys - {k} == m.Keys;
      assert m'.Keys - {k} == m.Keys;
    }
  }

  /** Non-negative values have a non-negative sum. */
  lemma {:induction false} SumOverNonNegative(m: map<string, real>, keys: set<string>)
    requires keys <= m.Keys
    requires forall k :: k in keys ==> m[k] >= 0.0
    ensures SumOver(m, keys) >= 0.0
    decreases keys
  {
    if keys != {} {
      var k :| k in keys && SumOver(m, keys) == m[k] + SumOver(m, keys - {k});
      SumOverNonNegative(m, keys - {k});
    }
  }

  /** The `for (const v of m.values()) total += v` loop. */
  method SumMap(m: map<string, real>) returns (total: real)
    ensures total == SumValues(m)
  {
    total := 0.0;
    var rest := m.Keys;
    while rest != {}
      invariant rest <= m.Keys
      invariant total + SumOver(m, rest) == SumValues(m)
      decreases rest
    {
      var k :| k in rest;
      SumOverRemove(m, rest, k);
      total := total + m[k];
      rest := rest - {k};
    }
  }
}
