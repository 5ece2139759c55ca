/** Shared vocabulary of the model: optional values, the few string operations
    the scrapers and the front end rely on (ASCII case mapping, substring search,
    joining, decimal printing) and small facts about sequences. */
module Util {

  datatype Option<+T> = None | Some(value: T) {
    function GetOr(default: T): T {
      if Some? then value else default
    }
  }

  /** A key of a decoded JSON object or a feed entry: missing, `null`, or set.
      JavaScript treats the first two alike; Python's `d.get(k, default)`
      falls back to `default` only when the key is missing. */
  datatype Field<+T> = Absent | Null | Present(value: T)

  /** `d.get(k, default)` in Python, with `None` for `null`. */
  function PyGet<T>(f: Field<T>, default: Option<T>): Option<T> {
    match f
    case Absent => default
    case Null => None
    case Present(v) => Some(v)
  }

  /** The field as JavaScript sees it: `undefined` and `null` are both absent. */
  function AsOption<T>(f: Field<T>): Option<T> {
    if f.Present? then Some(f.value) else None
  }

  /** Truthiness of a string field: set and not empty. */
  predicate IsTruthy(f: Field<string>) {
    f.Present? && f.value != ""
  }

  /** Truthiness of a numeric field: set and not zero. */
  predicate IsNonZero(f: Field<int>) {
    f.Present? && f.value != 0
  }

  /** `f || fallback` in JavaScript. */
  function OrElse(f: Field<string>, fallback: string): (r: string)
    ensures r != "" || fallback == ""
  {
    if IsTruthy(f) then f.value else fallback
  }

  /** JavaScript/Python truthiness of an optional string: present and not empty. */
  predicate Truthy(o: Option<string>) {
    o.Some? && o.value != ""
  }

  /** JavaScript/Python truthiness of an optional number: present and not zero. */
  predicate NumTruthy(o: Option<int>) {
    o.Some? && o.value != 0
  }

  /** `o || fallback` on an optional string. */
  function Or(o: Option<string>, fallback: string): string {
    if Truthy(o) then o.value else fallback
  }

  // ---------------------------------------------------------------------------
  // Case mapping (ASCII letters only)

  function LowerChar(c: char): char {
    if 'A' <= c <= 'Z' then (c as int + 32) as char else c
  }

  function UpperChar(c: char): char {
    if 'a' <= c <= 'z' then (c as int - 32) as char else c
  }

  function Lower(s: string): (r: string)
    ensures |r| == |s| && forall i :: 0 <= i < |s| ==> r[i] == LowerChar(s[i])
  {
    if s == [] then [] else [LowerChar(s[0])] + Lower(s[1..])
  }

  function Upper(s: string): (r: string)
    ensures |r| == |s| && forall i :: 0 <= i < |s| ==> r[i] == UpperChar(s[i])
  {
    if s == [] then [] else [UpperChar(s[0])] + Upper(s[1..])
  }

  /** Upper-casing goes character by character. */
  lemma UpperConcat(x: string, y: string)
    ensures Upper(x + y) == Upper(x) + Upper(y)
  {
    var l := Upper(x + y);
    var r := Upper(x) + Upper(y);
    forall i | 0 <= i < |l|
      ensures l[i] == r[i]
    {
      if i < |x| {
        assert (x + y)[i] == x[i];
      } else {
        assert (x + y)[i] == y[i - |x|];
      }
    }
  }

  /** Lower-casing forgets the original case: whatever case a text is
      written in, its lower-cased form is the same. */
  lemma LowerIgnoresCase(s: string)
    ensures Lower(Lower(s)) == Lower(s)
    ensures Lower(Upper(s)) == Lower(s)
  {
    assert forall i :: 0 <= i < |s| ==> LowerChar(LowerChar(s[i])) == LowerChar(s[i]);
    assert forall i :: 0 <= i < |s| ==> LowerChar(UpperChar(s[i])) == LowerChar(s[i]);
  }

  // ---------------------------------------------------------------------------
  // Prefixes, suffixes and substrings

  predicate StartsWith(s: string, p: string) {
    |p| <= |s| && s[..|p|] == p
  }

  predicate EndsWith(s: string, p: string) {
    |p| <= |s| && s[|s| - |p|..] == p
  }

  /** A concatenation starts with its first part and ends with its last. */
  lemma Affixes(a: string, m: string, b: string)
    ensures StartsWith(a + m + b, a) && EndsWith(a + m + b, b)
  {
    assert (a + m + b)[..|a|] == a;
    assert (a + m + b)[|a + m + b| - |b|..] == b;
  }

  /** Shortening a prefix or a suffix keeps it one. */
  lemma StartsWithShorter(s: string, t: string, u: string)
    requires StartsWith(s, t + u)
    ensures StartsWith(s, t)
  {
    assert s[..|t|] == (t + u)[..|t|];
  }

  lemma EndsWithShorter(s: string, t: string, u: string)
    requires EndsWith(s, t + u)
    ensures EndsWith(s, u)
  {
    assert s[|s| - |u|..] == (t + u)[|t|..];
  }

  /** `s.includes(t)` in JavaScript, `t in s` in Python. */
  predicate Contains(s: string, t: string)
    decreases |s|
  {
    StartsWith(s, t) || (s != [] && Contains(s[1..], t))
  }

  /** An occurrence of `t` at position `i` of `s` is a witness for `Contains`. */
  lemma {:induction false} ContainsAt(s: string, t: string, i: nat)
    requires i + |t| <= |s| && s[i..i + |t|] == t
    ensures Contains(s, t)
    decreases i
  {
    if i > 0 {
      assert s[1..][i - 1..i - 1 + |t|] == s[i..i + |t|];
      ContainsAt(s[1..], t, i - 1);
    } else {
      assert s[..|t|] == t;
    }
  }

  /** A text that contains `t` contains every prefix of `t`. */
  lemma {:induction false} ContainsPrefix(s: string, t: string, p: string)
    requires Contains(s, t) && StartsWith(t, p)
    ensures Contains(s, p)
    decreases |s|
  {
    if StartsWith(s, t) {
      assert s[..|p|] == t[..|p|];
    } else {
      ContainsPrefix(s[1..], t, p);
    }
  }

  /** A text built around `t` contains it. */
  lemma ContainsMiddle(a: string, t: string, b: string)
    ensures Contains(a + t + b, t)
  {
    assert (a + t + b)[|a|..|a| + |t|] == t;
    ContainsAt(a + t + b, t, |a|);
  }

  /** Text put in front keeps an occurrence. */
  lemma {:induction false} ContainsAfter(a: string, s: string, t: string)
    requires Contains(s, t)
    ensures Contains(a + s, t)
    decreases |a|
  {
    if a == [] {
      assert a + s == s;
    } else {
      ContainsAfter(a[1..], s, t);
      assert (a + s)[1..] == a[1..] + s;
    }
  }

  // ---------------------------------------------------------------------------
  // Joining and truncating

  /** Text appended after an occurrence keeps it. */
  lemma {:induction false} ContainsBeforeMore(s: string, b: string, t: string)
    requires Contains(s, t)
    ensures Contains(s + b, t)
    decreases |s|
  {
    if StartsWith(s, t) {
      assert (s + b)[..|t|] == s[..|t|];
    } else {
      ContainsBeforeMore(s[1..], b, t);
      assert (s + b)[1..] == s[1..] + b;
    }
  }

  /** The first index at or after `from` holding `c`. */
  function IndexOf(s: string, c: char, from: nat): (r: Option<nat>)
    decreases |s| - from
    ensures r.Some? ==> from <= r.value < |s| && s[r.value] == c && c !in s[from..r.value]
    ensures r.None? ==> from >= |s| || c !in s[from..]
  {
    if from >= |s| then None
    else if s[from] == c then Some(from)
    else
      var r := IndexOf(s, c, from + 1);
      assert r.Some? ==> s[from..r.value] == [s[from]] + s[from + 1..r.value];
      assert r.None? && from + 1 < |s| ==> s[from..] == [s[from]] + s[from + 1..];
      r
  }

  /** `parts.join(sep)`. */
  function Join(parts: seq<string>, sep: string): string {
    if parts == [] then ""
    else if |parts| == 1 then parts[0]
    else parts[0] + sep + Join(parts[1..], sep)
  }

  /** A joined list ends with its last part. */
  lemma {:induction false} JoinEndsWithLast(parts: seq<string>, sep: string)
    requires parts != []
    ensures EndsWith(Join(parts, sep), parts[|parts| - 1])
  {
    if |parts| > 1 {
      JoinEndsWithLast(parts[1..], sep);
      var j := Join(parts[1..], sep);
      var last := parts[|parts| - 1];
      assert (parts[0] + sep + j)[|parts[0] + sep + j| - |last|..] == j[|j| - |last|..];
    }
  }

  /** A joined list contains each of its parts. */
  lemma {:induction false} JoinContains(parts: seq<string>, sep: string, i: int)
    requires 0 <= i < |parts|
    ensures Contains(Join(parts, sep), parts[i])
  {
    if |parts| == 1 {
      ContainsMiddle("", parts[0], "");
      assert "" + parts[0] + "" == parts[0];
    } else if i == 0 {
      ContainsMiddle("", parts[0], sep + Join(parts[1..], sep));
      assert "" + parts[0] + (sep + Join(parts[1..], sep)) == Join(parts, sep);
    } else {
      JoinContains(parts[1..], sep, i - 1);
      ContainsAfter(parts[0] + sep, Join(parts[1..], sep), parts[i]);
    }
  }

  /** `s.slice(0, n)` for a non-negative `n`. */
  function Take<T>(s: seq<T>, n: nat): (r: seq<T>)
    ensures |r| == if n < |s| then n else |s|
    ensures forall i :: 0 <= i < |r| ==> r[i] == s[i]
  {
    if n < |s| then s[..n] else s
  }

  /** `s.slice(0, end)` in JavaScript: a negative `end` counts from the back,
      one past the length stops at the length. */
  function Slice<T>(s: seq<T>, end: int): (r: seq<T>)
    ensures |r| == if end < 0 then (if |s| + end < 0 then 0 else |s| + end)
                   else if end < |s| then end else |s|
    ensures r == s[..|r|]
  {
    if end < 0 then (if |s| + end < 0 then [] else s[..|s| + end])
    else Take(s, end)
  }

  /** `s.filter(p)`: the elements satisfying `p`, in order. */
  function Filter<T>(s: seq<T>, p: T -> bool): (r: seq<T>)
    ensures |r| <= |s|
    ensures forall i :: 0 <= i < |r| ==> p(r[i]) && r[i] in s
    ensures forall i :: 0 <= i < |s| && p(s[i]) ==> s[i] in r
  {
    if s == [] then []
    else
      var pre := Filter(s[..|s| - 1], p);
      if p(s[|s| - 1]) then pre + [s[|s| - 1]] else pre
  }

  /** `filter` keeps order and multiplicity: the kept elements of a
      concatenation are those of its first part, then those of its second. */
  lemma {:induction false} FilterAppend<T>(a: seq<T>, b: seq<T>, p: T -> bool)
    ensures Filter(a + b, p) == Filter(a, p) + Filter(b, p)
    decreases |b|
  {
    if b == [] {
      assert a + b == a;
    } else {
      var b' := b[..|b| - 1];
      assert (a + b)[..|a + b| - 1] == a + b';
      FilterAppend(a, b', p);
    }
  }

  /** `items.filter(Boolean)` on strings: drops the empty ones. */
  function NonEmpty(items: seq<string>): (r: seq<string>)
    ensures |r| <= |items|
    ensures forall i :: 0 <= i < |r| ==> r[i] != "" && r[i] in items
    ensures forall i :: 0 <= i < |items| && items[i] != "" ==> items[i] in r
  {
    if items == [] then []
    else
      var pre := NonEmpty(items[..|items| - 1]);
      var last := items[|items| - 1];
      if last == "" then pre else pre + [last]
  }

  /** Dropping the empty strings keeps the order: the kept items of a
      concatenation are those of its first part, then those of its second. */
  lemma {:induction false} NonEmptyAppend(a: seq<string>, b: seq<string>)
    ensures NonEmpty(a + b) == NonEmpty(a) + NonEmpty(b)
    decreases |b|
  {
    if b == [] {
      assert a + b == a;
    } else {
      var b' := b[..|b| - 1];
      assert (a + b)[..|a + b| - 1] == a + b';
      NonEmptyAppend(a, b');
    }
  }

  /** The parts, one after the other. */
  function Concat<T>(parts: seq<seq<T>>): seq<T> {
    if parts == [] then [] else parts[0] + Concat(parts[1..])
  }

  // ---------------------------------------------------------------------------
  // Counting and de-duplication

  function Occurrences<T(==)>(s: seq<T>, x: T): nat {
    if s == [] then 0
    else Occurrences(s[..|s| - 1], x) + (if s[|s| - 1] == x then 1 else 0)
  }

  function Sum(s: seq<int>): int {
    if s == [] then 0 else Sum(s[..|s| - 1]) + s[|s| - 1]
  }

  predicate NoDup<T(==)>(s: seq<T>) {
    forall i, j :: 0 <= i < j < |s| ==> s[i] != s[j]
  }

  /** `k` is the index of the first occurrence of `x` in `s`. */
  predicate IsFirstIndex<T(==)>(s: seq<T>, x: T, k: int) {
    0 <= k < |s| && s[k] == x && x !in s[..k]
  }

  /** `Array.from(new Set(s))`: the distinct elements of `s`, in the order of
      their first occurrence. */
  function Dedupe<T(==)>(s: seq<T>): (r: seq<T>)
    ensures NoDup(r)
    ensures forall i :: 0 <= i < |r| ==> r[i] in s
    ensures forall i :: 0 <= i < |s| ==> s[i] in r
  {
    if s == [] then []
    else
      var d := Dedupe(s[..|s| - 1]);
      if s[|s| - 1] in d then d else d + [s[|s| - 1]]
  }

  /** The elements of `Dedupe(s)` appear in the order of their first
      occurrence in `s`. */
  lemma {:induction false} DedupeFirstSeenOrder<T>(s: seq<T>, i: nat, j: nat, ki: int, kj: int)
    requires i < j < |Dedupe(s)|
    requires IsFirstIndex(s, Dedupe(s)[i], ki) && IsFirstIndex(s, Dedupe(s)[j], kj)
    ensures ki < kj
    decreases |s|
  {
    var n := |s|;
    var init := s[..n - 1];
    var d := Dedupe(init);
    var x, y := Dedupe(s)[i], Dedupe(s)[j];
    FirstIndexInPrefix(s, x, ki);
    if s[n - 1] in d || j < |d| {
      FirstIndexInPrefix(s, y, kj);
      DedupeFirstSeenOrder(init, i, j, ki, kj);
    } else {
      assert j == |d| && y == s[n - 1] && x in init;
      forall m | 0 <= m < n - 1
        ensures s[m] != y
      {
        assert s[m] == init[m] && init[m] in d;
      }
    }
  }

  /** A first occurrence of an element of `s[..|s|-1]` is a first occurrence there. */
  lemma FirstIndexInPrefix<T>(s: seq<T>, x: T, k: int)
    requires |s| > 0 && IsFirstIndex(s, x, k)
    ensures x in s[..|s| - 1] ==> k < |s| - 1 && IsFirstIndex(s[..|s| - 1], x, k)
  {
    var init := s[..|s| - 1];
    if x in init {
      var m :| 0 <= m < |init| && init[m] == x;
      assert forall j :: 0 <= j < k ==> s[..k][j] == s[j];
      assert k <= m;
      assert init[..k] == s[..k];
    }
  }

  // ---------------------------------------------------------------------------
  // Decimal printing of integers (JavaScript template literals, Python f-strings)

  function DigitChar(d: nat): char
    requires d < 10
  {
    ('0' as int + d) as char
  }

  function NatToString(n: nat): (r: string)
    ensures |r| > 0
    ensures forall i :: 0 <= i < |r| ==> '0' <= r[i] <= '9'
  {
    if n < 10 then [DigitChar(n)] else NatToString(n / 10) + [DigitChar(n % 10)]
  }

  function IntToString(n: int): string {
    if n < 0 then "-" + NatToString(-n) else NatToString(n)
  }

  /** The number a string of decimal digits denotes. */
  function DigitsValue(s: string): int {
    if s == [] then 0 else DigitsValue(s[..|s| - 1]) * 10 + (s[|s| - 1] as int - '0' as int)
  }

  /** Reading back the printed digits gives the number again. */
  lemma {:induction false} NatToStringRoundTrip(n: nat)
    ensures DigitsValue(NatToString(n)) == n
  {
    if n >= 10 {
      var s := NatToString(n / 10) + [DigitChar(n % 10)];
      assert s[..|s| - 1] == NatToString(n / 10);
      NatToStringRoundTrip(n / 10);
    }
  }

  lemma NatToStringInjective(a: nat, b: nat)
    requires NatToString(a) == NatToString(b)
    ensures a == b
  {
    NatToStringRoundTrip(a);
    NatToStringRoundTrip(b);
  }

  /** Printing is injective on integers. */
  lemma IntToStringInjective(a: int, b: int)
    requires IntToString(a) == IntToString(b)
    ensures a == b
  {
    if a < 0 && b < 0 {
      assert IntToString(a)[1..] == NatToString(-a);
      assert IntToString(b)[1..] == NatToString(-b);
      NatToStringInjective(-a, -b);
    } else if a >= 0 && b >= 0 {
      NatToStringInjective(a, b);
    } else if a < 0 {
      NegativeSign(a, b);
    } else {
      NegativeSign(b, a);
    }
  }

  lemma NegativeSign(a: int, b: int)
    requires a < 0 <= b
    ensures IntToString(a) != IntToString(b)
  {
    var d := NatToString(b);
    assert '0' <= d[0] <= '9';
    assert IntToString(a)[0] == '-';
  }
}
