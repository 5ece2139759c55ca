/** The plain JavaScript object used as a dictionary by the analytics hooks and
    the company page. Its entries keep insertion order, so it is modelled as an
    association list with distinct keys. `Aggregate` is the recurring loop
      `rows.forEach(row => { if (!m[key(row)]) m[key(row)] = init(row);
                             m[key(row)] = step(m[key(row)], row) })`
    (every value the source stores is a truthy number or object, so "not
    truthy" is "absent"). */
module Dict {
  import opened Util

  function Keys<K, V>(d: seq<(K, V)>): (r: seq<K>)
    ensures |r| == |d|
    ensures forall i :: 0 <= i < |d| ==> r[i] == d[i].0
  {
    seq(|d|, i requires 0 <= i < |d| => d[i].0)
  }

  function Values<K, V>(d: seq<(K, V)>): (r: seq<V>)
    ensures |r| == |d|
    ensures forall i :: 0 <= i < |d| ==> r[i] == d[i].1
  {
    seq(|d|, i requires 0 <= i < |d| => d[i].1)
  }

  /** `m[k]`: the value stored under the first entry with key `k`. */
  function Find<K(==), V>(d: seq<(K, V)>, k: K): (r: Option<V>)
    ensures r.None? <==> k !in Keys(d)
  {
    if d == [] then None
    else if d[0].0 == k then Some(d[0].1)
    else
      assert Keys(d) == [d[0].0] + Keys(d[1..]);
      Find(d[1..], k)
  }

  /** `m[k] = v`: overwrite in place when the key is present, else append. */
  function Upsert<K(==), V>(d: seq<(K, V)>, k: K, v: V): (r: seq<(K, V)>)
    ensures k in Keys(d) ==> Keys(r) == Keys(d)
    ensures k !in Keys(d) ==> Keys(r) == Keys(d) + [k]
  {
    if d == [] then [(k, v)]
    else if d[0].0 == k then
      KeysTail(d);
      KeysCons((k, v), d[1..]);
      [(k, v)] + d[1..]
    else
      KeysTail(d);
      var t := Upsert(d[1..], k, v);
      KeysCons(d[0], t);
      [d[0]] + t
  }

  lemma KeysCons<K, V>(e: (K, V), d: seq<(K, V)>)
    ensures Keys([e] + d) == [e.0] + Keys(d)
  {
  }

  lemma KeysTail<K, V>(d: seq<(K, V)>)
    requires d != []
    ensures Keys(d) == [d[0].0] + Keys(d[1..])
  {
  }

  lemma {:induction false} FindUpsert<K, V>(d: seq<(K, V)>, k: K, v: V, j: K)
    ensures Find(Upsert(d, k, v), j) == if j == k then Some(v) else Find(d, j)
  {
    if d != [] && d[0].0 != k {
      FindUpsert(d[1..], k, v, j);
    }
  }

  /** The value under each key of a dictionary with distinct keys. */
  lemma {:induction false} FindAt<K, V>(d: seq<(K, V)>, i: int)
    requires NoDup(Keys(d)) && 0 <= i < |d|
    ensures Find(d, d[i].0) == Some(d[i].1)
  {
    if i > 0 {
      assert Keys(d)[0] != Keys(d)[i];
      assert Keys(d[1..]) == Keys(d)[1..];
      FindAt(d[1..], i - 1);
    }
  }

  // ---------------------------------------------------------------------------
  // Grouping rows

  /** The forEach loop after the rows seen so far. */
  function Aggregate<R, K(==), V>(rows: seq<R>, key: R -> K, init: R -> V, step: (V, R) -> V): seq<(K, V)> {
    if rows == [] then []
    else
      var d := Aggregate(rows[..|rows| - 1], key, init, step);
      var row := rows[|rows| - 1];
      var cur := match Find(d, key(row)) case Some(v) => v case None => init(row);
      Upsert(d, key(row), step(cur, row))
  }

  /** One more row: the loop body's update of the dictionary. */
  lemma AggregateStep<R, K, V>(rows: seq<R>, i: int, key: R -> K, init: R -> V, step: (V, R) -> V)
    requires 0 <= i < |rows|
    ensures var d := Aggregate(rows[..i], key, init, step);
      var cur := match Find(d, key(rows[i])) case Some(v) => v case None => init(rows[i]);
      Aggregate(rows[..i + 1], key, init, step) == Upsert(d, key(rows[i]), step(cur, rows[i]))
  {
    assert rows[..i + 1][..i] == rows[..i];
  }

  /** One more row of a filtered aggregate: a kept row is added, any other
      row changes nothing. */
  lemma AggregateFilterStep<R, K, V>(rows: seq<R>, i: int, keep: R -> bool, key: R -> K, init: R -> V, step: (V, R) -> V)
    requires 0 <= i < |rows|
    ensures var d := Aggregate(Filter(rows[..i], keep), key, init, step);
      var cur := match Find(d, key(rows[i])) case Some(v) => v case None => init(rows[i]);
      Aggregate(Filter(rows[..i + 1], keep), key, init, step)
        == if keep(rows[i]) then Upsert(d, key(rows[i]), step(cur, rows[i])) else d
  {
    var kept := Filter(rows[..i], keep);
    assert rows[..i + 1][..i] == rows[..i];
    if keep(rows[i]) {
      assert Filter(rows[..i + 1], keep) == kept + [rows[i]];
      AggregateStep(kept + [rows[i]], |kept|, key, init, step);
      assert (kept + [rows[i]])[..|kept|] == kept;
    }
  }

  /** The keys of the rows, in order. */
  function KeysOf<R, K>(rows: seq<R>, key: R -> K): (r: seq<K>)
    ensures |r| == |rows|
    ensures forall i :: 0 <= i < |rows| ==> r[i] == key(rows[i])
  {
    if rows == [] then [] else KeysOf(rows[..|rows| - 1], key) + [key(rows[|rows| - 1])]
  }

  /** The rows whose key is `k`, in order. */
  function Select<R, K(==)>(rows: seq<R>, key: R -> K, k: K): (r: seq<R>)
    ensures |r| <= |rows|
  {
    if rows == [] then []
    else
      var s := Select(rows[..|rows| - 1], key, k);
      if key(rows[|rows| - 1]) == k then s + [rows[|rows| - 1]] else s
  }

  /** What one group's entry becomes: `init` on its first row, then `step` on
      each of its rows in order; `None` for a group without rows. */
  function Fold<R, V>(rows: seq<R>, init: R -> V, step: (V, R) -> V): Option<V> {
    if rows == [] then None
    else
      var row := rows[|rows| - 1];
      var cur := match Fold(rows[..|rows| - 1], init, step) case Some(v) => v case None => init(row);
      Some(step(cur, row))
  }

  /** The groups appear in the order their keys are first seen. */
  lemma {:induction false} AggregateKeys<R, K, V>(rows: seq<R>, key: R -> K, init: R -> V, step: (V, R) -> V)
    ensures Keys(Aggregate(rows, key, init, step)) == Dedupe(KeysOf(rows, key))
  {
    if rows != [] {
      var init' := rows[..|rows| - 1];
      AggregateKeys(init', key, init, step);
      assert KeysOf(rows, key)[..|rows| - 1] == KeysOf(init', key);
    }
  }

  /** Each group holds the fold of exactly the rows with its key. */
  lemma {:induction false} AggregateFind<R, K, V>(rows: seq<R>, key: R -> K, init: R -> V, step: (V, R) -> V, k: K)
    ensures Find(Aggregate(rows, key, init, step), k) == Fold(Select(rows, key, k), init, step)
  {
    if rows != [] {
      var pre := rows[..|rows| - 1];
      var row := rows[|rows| - 1];
      var d := Aggregate(pre, key, init, step);
      AggregateFind(pre, key, init, step, k);
      AggregateFind(pre, key, init, step, key(row));
      var cur := match Find(d, key(row)) case Some(v) => v case None => init(row);
      FindUpsert(d, key(row), step(cur, row), k);
      if key(row) == k {
        var s := Select(rows, key, k);
        assert s[..|s| - 1] == Select(pre, key, k);
      }
    }
  }

  /** The keys of an aggregate are distinct. */
  lemma AggregateNoDup<R, K, V>(rows: seq<R>, key: R -> K, init: R -> V, step: (V, R) -> V)
    ensures NoDup(Keys(Aggregate(rows, key, init, step)))
  {
    AggregateKeys(rows, key, init, step);
  }

  /** Entry `i` of an aggregate is the fold of the rows with its key. */
  lemma AggregateAt<R, K, V>(rows: seq<R>, key: R -> K, init: R -> V, step: (V, R) -> V, i: int)
    requires 0 <= i < |Aggregate(rows, key, init, step)|
    ensures var d := Aggregate(rows, key, init, step);
      Fold(Select(rows, key, d[i].0), init, step) == Some(d[i].1)
  {
    var d := Aggregate(rows, key, init, step);
    AggregateNoDup(rows, key, init, step);
    FindAt(d, i);
    AggregateFind(rows, key, init, step, d[i].0);
  }

  // ---------------------------------------------------------------------------
  // Groups partition the rows

  /** Total size of the groups named by `ks`. */
  function GroupSizes<R, K(==)>(rows: seq<R>, key: R -> K, ks: seq<K>): nat {
    if ks == [] then 0 else GroupSizes(rows, key, ks[..|ks| - 1]) + |Select(rows, key, ks[|ks| - 1])|
  }

  lemma {:induction false} GroupSizesAppend<R, K>(rows: seq<R>, row: R, key: R -> K, ks: seq<K>)
    requires NoDup(ks)
    ensures GroupSizes(rows + [row], key, ks) == GroupSizes(rows, key, ks) + (if key(row) in ks then 1 else 0)
  {
    if ks != [] {
      var pre := ks[..|ks| - 1];
      assert (rows + [row])[..|rows|] == rows;
      assert NoDup(pre);
      GroupSizesAppend(rows, row, key, pre);
      assert key(row) in ks <==> key(row) in pre || key(row) == ks[|ks| - 1];
    }
  }

  /** Every row falls in exactly one group: the group sizes add up to the
      number of rows. */
  lemma {:induction false} GroupsPartition<R, K>(rows: seq<R>, key: R -> K)
    ensures GroupSizes(rows, key, Dedupe(KeysOf(rows, key))) == |rows|
  {
    if rows != [] {
      var pre := rows[..|rows| - 1];
      var row := rows[|rows| - 1];
      var ks := Dedupe(KeysOf(pre, key));
      GroupsPartition(pre, key);
      DedupeKeysStep(rows, key);
      SplitLast(rows);
      GroupSizesAppend(pre, row, key, ks);
      if key(row) !in ks {
        GroupSizesNewKey(pre, row, key, ks);
      }
    }
  }

  lemma SplitLast<T>(s: seq<T>)
    requires s != []
    ensures s == s[..|s| - 1] + [s[|s| - 1]]
  {
  }

  /** The distinct keys after one more row. */
  lemma DedupeKeysStep<R, K>(rows: seq<R>, key: R -> K)
    requires rows != []
    ensures var ks := Dedupe(KeysOf(rows[..|rows| - 1], key));
      var k := key(rows[|rows| - 1]);
      Dedupe(KeysOf(rows, key)) == if k in ks then ks else ks + [k]
  {
    assert KeysOf(rows, key)[..|rows| - 1] == KeysOf(rows[..|rows| - 1], key);
  }

  /** A row with a new key makes a group of its own. */
  lemma GroupSizesNewKey<R, K>(rows: seq<R>, row: R, key: R -> K, ks: seq<K>)
    requires ks == Dedupe(KeysOf(rows, key)) && key(row) !in ks
    ensures GroupSizes(rows + [row], key, ks + [key(row)]) == GroupSizes(rows + [row], key, ks) + 1
  {
    SelectEmpty(rows, key, key(row));
    assert (rows + [row])[..|rows|] == rows;
    assert (ks + [key(row)])[..|ks|] == ks;
  }

  /** A key no row carries selects nothing. */
  lemma {:induction false} SelectEmpty<R, K>(rows: seq<R>, key: R -> K, k: K)
    requires k !in KeysOf(rows, key)
    ensures Select(rows, key, k) == []
  {
    if rows != [] {
      assert KeysOf(rows, key)[..|rows| - 1] == KeysOf(rows[..|rows| - 1], key);
      SelectEmpty(rows[..|rows| - 1], key, k);
    }
  }

  /** The selected rows all carry the key. */
  lemma {:induction false} SelectAll<R, K>(rows: seq<R>, key: R -> K, k: K)
    ensures forall i :: 0 <= i < |Select(rows, key, k)| ==> key(Select(rows, key, k)[i]) == k
  {
    if rows != [] {
      SelectAll(rows[..|rows| - 1], key, k);
    }
  }

  /** The selected rows are rows of the input. */
  lemma {:induction false} SelectMembers<R, K>(rows: seq<R>, key: R -> K, k: K, i: int)
    requires 0 <= i < |Select(rows, key, k)|
    ensures Select(rows, key, k)[i] in rows
  {
    var pre := rows[..|rows| - 1];
    var s := Select(pre, key, k);
    if i < |s| {
      SelectMembers(pre, key, k, i);
      assert s[i] in pre;
    }
  }

  // ---------------------------------------------------------------------------
  // Counters

  /** The sum of `f` over the values. */
  function Total<K, V>(d: seq<(K, V)>, f: V -> nat): nat {
    if d == [] then 0 else f(d[0].1) + Total(d[1..], f)
  }

  /** Overwriting or adding one value changes the total by the difference. */
  lemma {:induction false} TotalUpsert<K, V>(d: seq<(K, V)>, k: K, v: V, f: V -> nat)
    ensures Total(Upsert(d, k, v), f) + (match Find(d, k) case Some(w) => f(w) case None => 0)
         == Total(d, f) + f(v)
  {
    if d != [] && d[0].0 != k {
      TotalUpsert(d[1..], k, v, f);
    }
  }

  /** When every row adds one to a counter that starts at zero, the counters
      of all groups add up to the number of rows. */
  lemma {:induction false} AggregateTotal<R, K, V>(rows: seq<R>, key: R -> K, init: R -> V, step: (V, R) -> V, count: V -> nat)
    requires forall r :: count(init(r)) == 0
    requires forall v, r :: count(step(v, r)) == count(v) + 1
    ensures Total(Aggregate(rows, key, init, step), count) == |rows|
  {
    if rows != [] {
      var pre := rows[..|rows| - 1];
      var row := rows[|rows| - 1];
      var d := Aggregate(pre, key, init, step);
      var cur := match Find(d, key(row)) case Some(v) => v case None => init(row);
      AggregateTotal(pre, key, init, step, count);
      TotalUpsert(d, key(row), step(cur, row), count);
      StepCounts(init, step, count, cur, row);
      assert Aggregate(rows, key, init, step) == Upsert(d, key(row), step(cur, row));
    }
  }

  /** Under the same conditions a group's counter is its number of rows. */
  lemma {:induction false} FoldCount<R, V>(rows: seq<R>, init: R -> V, step: (V, R) -> V, count: V -> nat)
    requires forall r :: count(init(r)) == 0
    requires forall v, r :: count(step(v, r)) == count(v) + 1
    ensures Fold(rows, init, step).Some? ==> count(Fold(rows, init, step).value) == |rows|
  {
    if rows != [] {
      var pre := rows[..|rows| - 1];
      var row := rows[|rows| - 1];
      FoldCount(pre, init, step, count);
      var cur := match Fold(pre, init, step) case Some(v) => v case None => init(row);
      StepCounts(init, step, count, cur, row);
    }
  }

  /** One instance of the counter conditions. */
  lemma StepCounts<R, V>(init: R -> V, step: (V, R) -> V, count: V -> nat, v: V, r: R)
    requires forall r :: count(init(r)) == 0
    requires forall v, r :: count(step(v, r)) == count(v) + 1
    ensures count(init(r)) == 0 && count(step(v, r)) == count(v) + 1
  {
  }
}
