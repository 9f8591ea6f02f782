/** The sum of the values of a finite map, the specification of the counting
    loops of the stats calculator. The key picked first does not matter, as
    `SumValuesRemove` shows, so the sum is that of any iteration order. */
module Sums {

  ghost function SumValues<K>(m: map<K, int>): int
    decreases m.Keys
  {
    if m == map[] then 0
    else
      var k :| k in m;
      m[k] + SumValues(m - {k})
  }

  /** The sum splits off any one entry. */
  lemma {:induction false} SumValuesRemove<K>(m: map<K, int>, x: K)
    requires x in m
    ensures SumValues(m) == m[x] + SumValues(m - {x})
    decreases m.Keys
  {
    var y :| y in m && SumValues(m) == m[y] + SumValues(m - {y});
    if y != x {
      SumValuesRemove(m - {y}, x);
      SumValuesRemove(m - {x}, y);
      assert m - {y} - {x} == m - {x} - {y};
    }
  }

  /** Setting one entry changes the sum by the difference. */
  lemma SumValuesUpdate<K>(m: map<K, int>, x: K, v: int)
    ensures SumValues(m[x := v]) == SumValues(m) - (if x in m then m[x] else 0) + v
  {
    SumValuesRemove(m[x := v], x);
    if x in m {
      SumValuesRemove(m, x);
      assert m[x := v] - {x} == m - {x};
    } else {
      assert m[x := v] - {x} == m;
    }
  }

  /** A map of zeros sums to zero. */
  lemma {:induction false} SumValuesZero<K>(m: map<K, int>)
    requires forall k :: k in m ==> m[k] == 0
    ensures SumValues(m) == 0
    decreases m.Keys
  {
    if m != map[] {
      var k :| k in m;
      SumValuesRemove(m, k);
      SumValuesZero(m - {k});
    }
  }

  /** Moving one key from the keys still to look at to the keys seen keeps
      the two a partition of all keys, as the counting loops need. */
  lemma Visit<K>(all: set<K>, remaining: set<K>, visited: set<K>, k: K)
    requires remaining <= all && visited == all - remaining && k in remaining
    ensures remaining - {k} <= all && visited + {k} == all - (remaining - {k})
  {
  }
}
