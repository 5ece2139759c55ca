/** `Array.prototype.sort` with a comparator, as the front end uses it to rank
    recommendations and insights. Since ES2019 the sort is stable, so it is
    modelled as a stable insertion sort driven by a strict "must come before"
    relation: `before(x, y)` holds when the comparator returns a negative
    number for `(x, y)`. */
module Sorting {
  import opened Util

  /** The comparator induces a strict order: irreflexive and transitive. */
  ghost predicate StrictOrder<T(!new)>(before: (T, T) -> bool) {
    && (forall x :: !before(x, x))
    && (forall x, y, z :: before(x, y) && before(y, z) ==> before(x, z))
  }

  /** No element stands after an element it must precede. */
  predicate SortedBy<T>(s: seq<T>, before: (T, T) -> bool) {
    forall i, j :: 0 <= i < j < |s| ==> !before(s[j], s[i])
  }

  /** Inserts `x` in front of the first element it must precede, that is after
      every element it ties with (which keeps the sort stable). */
  function Insert<T>(x: T, s: seq<T>, before: (T, T) -> bool): (r: seq<T>)
    ensures multiset(r) == multiset(s) + multiset{x}
    ensures |r| == |s| + 1
  {
    if s == [] || before(x, s[0]) then [x] + s
    else
      assert s == [s[0]] + s[1..];
      [s[0]] + Insert(x, s[1..], before)
  }

  /** Stable sort: each element in turn is inserted into the sorted prefix. */
  function SortBy<T>(s: seq<T>, before: (T, T) -> bool): (r: seq<T>)
    ensures multiset(r) == multiset(s)
    ensures |r| == |s|
  {
    if s == [] then []
    else
      assert s == s[..|s| - 1] + [s[|s| - 1]];
      Insert(s[|s| - 1], SortBy(s[..|s| - 1], before), before)
  }

  lemma {:induction false} InsertSorted<T(!new)>(x: T, s: seq<T>, before: (T, T) -> bool)
    requires StrictOrder(before) && SortedBy(s, before)
    ensures SortedBy(Insert(x, s, before), before)
  {
    if s == [] || before(x, s[0]) {
      var r := [x] + s;
      forall i, j | 0 <= i < j < |r| ensures !before(r[j], r[i]) {
        if i == 0 {
          assert r[j] == s[j - 1];
        }
      }
    } else {
      var t := Insert(x, s[1..], before);
      InsertSorted(x, s[1..], before);
      forall k | 0 <= k < |t| ensures !before(t[k], s[0]) {
        assert t[k] in multiset(t);
        if t[k] != x {
          assert t[k] in multiset(s[1..]);
          var m :| 0 <= m < |s[1..]| && s[1..][m] == t[k];
          assert s[m + 1] == t[k];
        }
      }
    }
  }

  /** The sort's result is ordered by `before`. */
  lemma {:induction false} SortBySorted<T(!new)>(s: seq<T>, before: (T, T) -> bool)
    requires StrictOrder(before)
    ensures SortedBy(SortBy(s, before), before)
  {
    if s != [] {
      SortBySorted(s[..|s| - 1], before);
      InsertSorted(s[|s| - 1], SortBy(s[..|s| - 1], before), before);
    }
  }

  /** Every element of the sorted list comes from the input. */
  lemma SortByMembers<T>(s: seq<T>, before: (T, T) -> bool, k: int)
    requires 0 <= k < |SortBy(s, before)|
    ensures SortBy(s, before)[k] in s
  {
    var r := SortBy(s, before);
    assert r[k] in multiset(r);
  }

  /** A strict order whose "neither must precede the other" is an
      equivalence: when `x` must precede `z`, any `y` must come after `x`
      or before `z`. Every comparator of a numeric key induces one. */
  ghost predicate StrictWeakOrder<T(!new)>(before: (T, T) -> bool) {
    && StrictOrder(before)
    && (forall x, y, z {:trigger before(x, z), before(x, y), before(y, z)} ::
          before(x, z) ==> before(x, y) || before(y, z))
  }

  /** The elements the comparator ties with `c`. */
  function TiedWith<T>(before: (T, T) -> bool, c: T): T -> bool {
    z => !before(z, c) && !before(c, z)
  }

  /** Inserting an element the test rejects leaves the kept elements as
      they were. */
  lemma {:induction false} InsertOther<T>(x: T, s: seq<T>, before: (T, T) -> bool, q: T -> bool)
    requires !q(x)
    ensures Filter(Insert(x, s, before), q) == Filter(s, q)
  {
    if s == [] || before(x, s[0]) {
      FilterAppend([x], s, q);
    } else {
      InsertOther(x, s[1..], before, q);
      FilterAppend([s[0]], Insert(x, s[1..], before), q);
      FilterAppend([s[0]], s[1..], q);
      assert s == [s[0]] + s[1..];
    }
  }

  /** Inserting an element tied with `c` into a sorted list puts it after
      every element already tied with `c`. */
  lemma {:induction false} InsertTied<T(!new)>(x: T, s: seq<T>, before: (T, T) -> bool, c: T)
    requires StrictWeakOrder(before) && SortedBy(s, before)
    requires TiedWith(before, c)(x)
    ensures Filter(Insert(x, s, before), TiedWith(before, c)) == Filter(s, TiedWith(before, c)) + [x]
  {
    if s == [] {
      assert Filter([x], TiedWith(before, c)) == [x];
    } else if before(x, s[0]) {
      TiedNoneAfter(x, s, before, c);
    } else {
      assert SortedBy(s[1..], before);
      InsertTied(x, s[1..], before, c);
      InsertKeepsHead(x, s, before, TiedWith(before, c));
    }
  }

  /** Where `x` goes after the head, the head keeps its place in front of
      the kept elements. */
  lemma InsertKeepsHead<T>(x: T, s: seq<T>, before: (T, T) -> bool, q: T -> bool)
    requires s != [] && !before(x, s[0])
    requires Filter(Insert(x, s[1..], before), q) == Filter(s[1..], q) + [x]
    ensures Filter(Insert(x, s, before), q) == Filter(s, q) + [x]
  {
    var s' := s[1..];
    var i' := Insert(x, s', before);
    assert s == [s[0]] + s';
    var h := Filter([s[0]], q);
    calc {
      Filter(Insert(x, s, before), q);
      Filter([s[0]] + i', q);
      { FilterAppend([s[0]], i', q); }
      h + Filter(i', q);
      h + (Filter(s', q) + [x]);
      (h + Filter(s', q)) + [x];
      { FilterAppend([s[0]], s', q); }
      Filter(s, q) + [x];
    }
  }

  /** In a sorted list that `x` must precede, nothing ties with `x`'s
      class, so `x` is the only element of that class kept. */
  lemma TiedNoneAfter<T(!new)>(x: T, s: seq<T>, before: (T, T) -> bool, c: T)
    requires StrictWeakOrder(before) && SortedBy(s, before)
    requires TiedWith(before, c)(x) && s != [] && before(x, s[0])
    ensures Filter(Insert(x, s, before), TiedWith(before, c)) == Filter(s, TiedWith(before, c)) + [x]
  {
    var q := TiedWith(before, c);
    forall k | 0 <= k < |s| ensures !q(s[k]) {
      assert before(x, s[k]) by {
        if k > 0 {
          assert !before(s[k], s[0]);
        }
      }
    }
    FilterNone(s, q);
    FilterAppend([x], s, q);
    assert Insert(x, s, before) == [x] + s;
  }

  /** No element passes the test, so nothing is kept. */
  lemma {:induction false} FilterNone<T>(s: seq<T>, q: T -> bool)
    requires forall k :: 0 <= k < |s| ==> !q(s[k])
    ensures Filter(s, q) == []
  {
    if s != [] {
      FilterNone(s[..|s| - 1], q);
    }
  }

  /** The sort is stable: the elements tied with any `c` come out in the
      order they went in. */
  lemma {:induction false} SortByStable<T(!new)>(s: seq<T>, before: (T, T) -> bool, c: T)
    requires StrictWeakOrder(before)
    ensures Filter(SortBy(s, before), TiedWith(before, c)) == Filter(s, TiedWith(before, c))
  {
    if s != [] {
      var init, x := s[..|s| - 1], s[|s| - 1];
      SortByStable(init, before, c);
      SortBySorted(init, before);
      if TiedWith(before, c)(x) {
        InsertTied(x, SortBy(init, before), before, c);
      } else {
        InsertOther(x, SortBy(init, before), before, TiedWith(before, c));
      }
      SortByLast(s, before, TiedWith(before, c));
    }
  }

  /** When the sorted prefix keeps its order under `q` and the insertion of
      the last element adds it after them exactly when `q` keeps it, the
      whole sort keeps the order. */
  lemma SortByLast<T>(s: seq<T>, before: (T, T) -> bool, q: T -> bool)
    requires s != []
    requires Filter(SortBy(s[..|s| - 1], before), q) == Filter(s[..|s| - 1], q)
    requires Filter(Insert(s[|s| - 1], SortBy(s[..|s| - 1], before), before), q)
      == Filter(SortBy(s[..|s| - 1], before), q) + (if q(s[|s| - 1]) then [s[|s| - 1]] else [])
    ensures Filter(SortBy(s, before), q) == Filter(s, q)
  {
    var init, x := s[..|s| - 1], s[|s| - 1];
    var sorted := SortBy(init, before);
    var last := if q(x) then [x] else [];
    calc {
      Filter(SortBy(s, before), q);
      Filter(Insert(x, sorted, before), q);
      Filter(sorted, q) + last;
      Filter(init, q) + last;
      Filter(s, q);
    }
  }

  /** A cut of a sorted list is sorted. */
  lemma SortedSlice<T(!new)>(s: seq<T>, before: (T, T) -> bool, n: int)
    requires StrictOrder(before)
    ensures SortedBy(Slice(SortBy(s, before), n), before)
  {
    SortBySorted(s, before);
  }
}
