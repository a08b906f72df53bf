/** Folds over JavaScript `Map` contents and the sweep that deletes entries while iterating. */
module MapFolds {

  /** The sum of the values stored under `keys`. */
  ghost function SumOver<K>(m: map<K, int>, keys: set<K>): int
    requires keys <= m.Keys
    decreases keys
  {
    if keys == {} then 0
    else
      var k :| k in keys;
      m[k] + SumOver(m, keys - {k})
  }

  /** The sum of all values of a map, in whatever order they are visited. */
  ghost function SumValues<K>(m: map<K, int>): int
  {
    SumOver(m, m.Keys)
  }

  /** Any key may be taken out first: the sum does not depend on the visiting order. */
  lemma {:induction false} SumOverRemove<K>(m: map<K, int>, keys: set<K>, k: K)
    requires keys <= m.Keys && k in keys
    ensures SumOver(m, keys) == m[k] + SumOver(m, keys - {k})
    decreases keys
  {
    var j :| j in keys && SumOver(m, keys) == m[j] + SumOver(m, keys - {j});
    if j != k {
      SumOverRemove(m, keys - {j}, k);
      SumOverRemove(m, keys - {k}, j);
      assert keys - {j} - {k} == keys - {k} - {j};
    }
  }

  /** The sum of `f(m[k])` over `keys`, in whatever order the keys are visited. */
  ghost function SumMapped<K>(m: map<K, int>, keys: set<K>, f: int -> real): real
    requires keys <= m.Keys
    decreases keys
  {
    if keys == {} then 0.0
    else
      var k :| k in keys;
      f(m[k]) + SumMapped(m, keys - {k}, f)
  }

  lemma {:induction false} SumMappedRemove<K>(m: map<K, int>, keys: set<K>, k: K, f: int -> real)
    requires keys <= m.Keys && k in keys
    ensures SumMapped(m, keys, f) == f(m[k]) + SumMapped(m, keys - {k}, f)
    decreases keys
  {
    var j :| j in keys && SumMapped(m, keys, f) == f(m[j]) + SumMapped(m, keys - {j}, f);
    if j != k {
      SumMappedRemove(m, keys - {j}, k, f);
      SumMappedRemove(m, keys - {k}, j, f);
      assert keys - {j} - {k} == keys - {k} - {j};
    }
  }

  /** A sum of terms that are none of them positive is not positive. */
  lemma {:induction false} SumMappedNonPositive<K>(m: map<K, int>, keys: set<K>, f: int -> real)
    requires keys <= m.Keys
    requires forall k :: k in keys ==> f(m[k]) <= 0.0
    ensures SumMapped(m, keys, f) <= 0.0
    decreases keys
  {
    if keys != {} {
      var k :| k in keys;
      SumMappedRemove(m, keys, k, f);
      SumMappedNonPositive(m, keys - {k}, f);
    }
  }

  /** The largest value stored under `keys`, or `floor` when there is none larger
      (`Math.max(...values, floor)`). */
  ghost function MaxOver<K>(m: map<K, int>, keys: set<K>, floor: int): int
    requires keys <= m.Keys
    decreases keys
  {
    if keys == {} then floor
    else
      var k :| k in keys;
      var rest := MaxOver(m, keys - {k}, floor);
      if m[k] > rest then m[k] else rest
  }

  lemma {:induction false} MaxOverRemove<K>(m: map<K, int>, keys: set<K>, k: K, floor: int)
    requires keys <= m.Keys && k in keys
    ensures var rest := MaxOver(m, keys - {k}, floor);
            MaxOver(m, keys, floor) == if m[k] > rest then m[k] else rest
    decreases keys
  {
    var j :| j in keys && MaxOver(m, keys, floor) ==
      (var rest := MaxOver(m, keys - {j}, floor); if m[j] > rest then m[j] else rest);
    if j != k {
      MaxOverRemove(m, keys - {j}, k, floor);
      MaxOverRemove(m, keys - {k}, j, floor);
      assert keys - {j} - {k} == keys - {k} - {j};
    }
  }

  /** The maximum is one of the values (or the floor) and bounds every value and the floor. */
  lemma {:induction false} MaxOverBounds<K>(m: map<K, int>, keys: set<K>, floor: int, bound: int)
    requires keys <= m.Keys
    requires floor <= bound && forall k :: k in keys ==> m[k] <= bound
    ensures floor <= MaxOver(m, keys, floor) <= bound
    ensures forall k :: k in keys ==> m[k] <= MaxOver(m, keys, floor)
    decreases keys
  {
    if keys != {} {
      var k :| k in keys;
      MaxOverRemove(m, keys, k, floor);
      MaxOverBounds(m, keys - {k}, floor, bound);
    }
  }

  /** Some element of a non-empty set: the next key a `Map` iteration visits. */
  method Pick<T>(s: set<T>) returns (x: T)
    requires s != {}
    ensures x in s
  {
    x :| x in s;
  }

  /** `Math.max(...m.values(), floor)`. */
  method MaxOfValues<K>(m: map<K, int>, floor: int) returns (best: int)
    ensures best == MaxOver(m, m.Keys, floor)
  {
    best := floor;
    var pending := m.Keys;
    ghost var done: set<K> := {};
    while pending != {}
      invariant pending <= m.Keys && done == m.Keys - pending
      invariant best == MaxOver(m, done, floor)
      decreases pending
    {
      var k := Pick(pending);
      MaxOverRemove(m, done + {k}, k, floor);
      assert done + {k} - {k} == done;
      if m[k] > best {
        best := m[k];
      }
      done := done + {k};
      pending := pending - {k};
    }
    assert done == m.Keys;
  }

  /** The entries of `m` that `dead` does not select. */
  function Keep<K, V>(m: map<K, V>, dead: (K, V) -> bool): map<K, V>
  {
    map k | k in m && !dead(k, m[k]) :: m[k]
  }

  /** The `forEach`-and-`delete` sweep of a JavaScript `Map`: every entry is visited once
      and deleted when `dead` holds of it. */
  method RemoveWhere<K, V>(m: map<K, V>, dead: (K, V) -> bool) returns (r: map<K, V>)
    ensures r == Keep(m, dead)
  {
    r := m;
    var pending := m.Keys;
    while pending != {}
      invariant pending <= m.Keys
      invariant forall k :: k in r <==> k in m && (k in pending || !dead(k, m[k]))
      invariant forall k :: k in r ==> r[k] == m[k]
      decreases pending
    {
      var k :| k in pending;
      if dead(k, r[k]) {
        r := r - {k};
      }
      pending := pending - {k};
    }
  }
}
