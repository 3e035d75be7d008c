/** Sums over finite sets and maps, in which order plays no part. */
module Sums {

  ghost function SumSet<T>(s: set<T>, f: T -> int): int {
    if s == {} then 0
    else
      var x :| x in s;
      f(x) + SumSet(s - {x}, f)
  }

  lemma {:induction false} SumSetRemove<T>(s: set<T>, f: T -> int, y: T)
    requires y in s
    ensures SumSet(s, f) == f(y) + SumSet(s - {y}, f)
    decreases s
  {
    var x :| x in s && SumSet(s, f) == f(x) + SumSet(s - {x}, f);
    if x != y {
      var rest := s - {x} - {y};
      assert rest == s - {y} - {x};
      SumSetRemove(s - {x}, f, y);
      SumSetRemove(s - {y}, f, x);
    }
  }

  lemma SumSetInsert<T>(s: set<T>, f: T -> int, y: T)
    requires y !in s
    ensures SumSet(s + {y}, f) == SumSet(s, f) + f(y)
  {
    SumSetRemove(s + {y}, f, y);
    assert s + {y} - {y} == s;
  }

  lemma {:induction false} SumSetUnion<T>(s: set<T>, t: set<T>, f: T -> int)
    requires s !! t
    ensures SumSet(s + t, f) == SumSet(s, f) + SumSet(t, f)
    decreases s
  {
    if s == {} {
      assert s + t == t;
    } else {
      var x :| x in s;
      SumSetRemove(s, f, x);
      SumSetRemove(s + t, f, x);
      SumSetUnion(s - {x}, t, f);
      assert s + t - {x} == (s - {x}) + t;
    }
  }

  ghost function SumMap<K, V>(m: map<K, V>, f: V -> int): int {
    if m == map[] then 0
    else
      var k :| k in m;
      f(m[k]) + SumMap(m - {k}, f)
  }

  lemma {:induction false} SumMapRemove<K, V>(m: map<K, V>, f: V -> int, j: K)
    requires j in m
    ensures SumMap(m, f) == f(m[j]) + SumMap(m - {j}, f)
    decreases m.Keys
  {
    var k :| k in m && SumMap(m, f) == f(m[k]) + SumMap(m - {k}, f);
    if k != j {
      var rest := m - {k} - {j};
      assert rest == m - {j} - {k};
      SumMapRemove(m - {k}, f, j);
      SumMapRemove(m - {j}, f, k);
    }
  }

  lemma SumMapInsert<K, V>(m: map<K, V>, f: V -> int, j: K, v: V)
    requires j !in m
    ensures SumMap(m[j := v], f) == SumMap(m, f) + f(v)
  {
    SumMapRemove(m[j := v], f, j);
    assert m[j := v] - {j} == m;
  }

  lemma SumMapUpdate<K, V>(m: map<K, V>, f: V -> int, j: K, v: V)
    requires j in m
    ensures SumMap(m[j := v], f) == SumMap(m, f) - f(m[j]) + f(v)
  {
    SumMapRemove(m[j := v], f, j);
    SumMapRemove(m, f, j);
    assert m[j := v] - {j} == m - {j};
  }

  // What the entry at `j` contributes, if there is one.
  function At<K, V>(m: map<K, V>, f: V -> int, j: K): int {
    if j in m then f(m[j]) else 0
  }

  lemma SumMapSet<K, V>(m: map<K, V>, f: V -> int, j: K, v: V)
    ensures SumMap(m[j := v], f) == SumMap(m, f) - At(m, f, j) + f(v)
  {
    if j in m {
      SumMapUpdate(m, f, j, v);
    } else {
      SumMapInsert(m, f, j, v);
    }
  }

  lemma {:induction false} SumMapCongruent<K, V>(m: map<K, V>, f: V -> int, g: V -> int)
    requires forall k :: k in m ==> f(m[k]) == g(m[k])
    ensures SumMap(m, f) == SumMap(m, g)
    decreases m.Keys
  {
    if m != map[] {
      var k :| k in m;
      SumMapRemove(m, f, k);
      SumMapRemove(m, g, k);
      SumMapCongruent(m - {k}, f, g);
    }
  }

  /** A sum whose every term is zero is zero. */
  lemma {:induction false} SumMapZero<K, V>(m: map<K, V>, f: V -> int)
    requires forall k :: k in m ==> f(m[k]) == 0
    ensures SumMap(m, f) == 0
    decreases m.Keys
  {
    if m != map[] {
      var k :| k in m;
      SumMapRemove(m, f, k);
      SumMapZero(m - {k}, f);
    }
  }

  lemma {:induction false} SumMapNonNegative<K, V>(m: map<K, V>, f: V -> int)
    requires forall k :: k in m ==> 0 <= f(m[k])
    ensures 0 <= SumMap(m, f)
    decreases m.Keys
  {
    if m != map[] {
      var k :| k in m;
      SumMapRemove(m, f, k);
      SumMapNonNegative(m - {k}, f);
    }
  }
}
