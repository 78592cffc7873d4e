/** Sizes of key sets and sums over the rows of a table. */
module MapSums {

  lemma SubsetSmaller<K>(a: set<K>, b: set<K>)
    requires a <= b
    ensures |a| <= |b|
  {
    if a != {} {
      var x :| x in a;
      SubsetSmaller(a - {x}, b - {x});
    }
  }

  ghost function Sum<K(!new)>(keys: set<K>, f: K -> real): real {
    if keys == {} then 0.0 else
      var k :| k in keys;
      f(k) + Sum(keys - {k}, f)
  }

  /** Any key may be taken out first. */
  lemma SumSplit<K(!new)>(keys: set<K>, f: K -> real, k: K)
    requires k in keys
    ensures Sum(keys, f) == f(k) + Sum(keys - {k}, f)
  {
    var j :| j in keys && Sum(keys, f) == f(j) + Sum(keys - {j}, f);
    if j != k {
      SumSplit(keys - {j}, f, k);
      SumSplit(keys - {k}, f, j);
      assert keys - {j} - {k} == keys - {k} - {j};
    }
  }

  lemma SumAgrees<K(!new)>(keys: set<K>, f: K -> real, g: K -> real)
    requires forall k :: k in keys ==> f(k) == g(k)
    ensures Sum(keys, f) == Sum(keys, g)
  {
    if keys != {} {
      var k :| k in keys;
      SumSplit(keys, f, k);
      SumSplit(keys, g, k);
      SumAgrees(keys - {k}, f, g);
    }
  }

  /** The weight of a whole table. */
  ghost function Total<K(!new), V>(table: map<K, V>, weight: V -> real): real {
    Sum(table.Keys, k => if k in table then weight(table[k]) else 0.0)
  }

  /** The weight of one row, 0 when there is none. */
  ghost function At<K, V>(table: map<K, V>, weight: V -> real, k: K): real {
    if k in table then weight(table[k]) else 0.0
  }

  /** Writing one row changes the total by that row's change. */
  lemma TotalAfterWrite<K(!new), V>(table: map<K, V>, weight: V -> real, k: K, v: V)
    ensures Total(table[k := v], weight) == Total(table, weight) - At(table, weight, k) + weight(v)
  {
    var after := table[k := v];
    var f := (j: K) => if j in table then weight(table[j]) else 0.0;
    var g := (j: K) => if j in after then weight(after[j]) else 0.0;
    var others := table.Keys - {k};
    assert after.Keys - {k} == others;
    SumSplit(after.Keys, g, k);
    SumAgrees(others, f, g);
    if k in table {
      SumSplit(table.Keys, f, k);
    } else {
      assert others == table.Keys;
    }
  }

  lemma TotalAgrees<K(!new), V, W>(t1: map<K, V>, w1: V -> real, t2: map<K, W>, w2: W -> real)
    requires t1.Keys == t2.Keys
    requires forall k :: k in t1 ==> w1(t1[k]) == w2(t2[k])
    ensures Total(t1, w1) == Total(t2, w2)
  {
    SumAgrees(t1.Keys, k => if k in t1 then w1(t1[k]) else 0.0, k => if k in t2 then w2(t2[k]) else 0.0);
  }

  lemma TotalEmpty<K(!new), V>(table: map<K, V>, weight: V -> real)
    requires table == map[]
    ensures Total(table, weight) == 0.0
  {}

  lemma TotalIsSum<K(!new), V>(table: map<K, V>, weight: V -> real, row: K -> real)
    requires forall k :: k in table ==> row(k) == weight(table[k])
    ensures Total(table, weight) == Sum(table.Keys, row)
  {
    SumAgrees(table.Keys, row, k => if k in table then weight(table[k]) else 0.0);
  }
}
