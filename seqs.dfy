/** Counting, filtering and ordering over sequences: the integer side of
    pandas' `value_counts`, boolean-mask filtering, `sort_index`, and
    Python's stable `sorted(..., reverse=True)`. */
module Seqs {

  /** A key with its number of occurrences (one item of `value_counts()`). */
  datatype Tally<K> = Tally(key: K, count: nat)

  predicate NoDups<T(==)>(s: seq<T>) {
    forall i, j :: 0 <= i < j < |s| ==> s[i] != s[j]
  }

  /** Number of occurrences of `x` in `s`. */
  function Count<T(==)>(s: seq<T>, x: T): (n: nat)
    ensures n <= |s|
    ensures n > 0 <==> x in s
  {
    if s == [] then 0 else (if s[0] == x then 1 else 0) + Count(s[1..], x)
  }

  /** Number of elements of `s` that satisfy `p`. */
  function CountWhere<T>(s: seq<T>, p: T -> bool): (n: nat)
    ensures n <= |s|
  {
    if s == [] then 0 else (if p(s[0]) then 1 else 0) + CountWhere(s[1..], p)
  }

  /** One element that passes makes the count positive. */
  lemma {:induction false} CountWherePositive<T>(s: seq<T>, p: T -> bool, i: nat)
    requires i < |s| && p(s[i])
    ensures CountWhere(s, p) > 0
  {
    if i > 0 {
      CountWherePositive(s[1..], p, i - 1);
    }
  }

  lemma {:induction false} CountWhereAppend<T>(a: seq<T>, b: seq<T>, p: T -> bool)
    ensures CountWhere(a + b, p) == CountWhere(a, p) + CountWhere(b, p)
  {
    if a != [] {
      CountWhereAppend(a[1..], b, p);
      assert (a + b)[1..] == a[1..] + b;
    } else {
      assert a + b == b;
    }
  }

  /** Counting a prefix one element further. */
  lemma CountWherePrefix<T>(s: seq<T>, i: nat, p: T -> bool)
    requires i < |s|
    ensures CountWhere(s[..i + 1], p) == CountWhere(s[..i], p) + (if p(s[i]) then 1 else 0)
  {
    assert s[..i + 1] == s[..i] + [s[i]];
    CountWhereAppend(s[..i], [s[i]], p);
  }

  /** The elements of `s` that satisfy `p`, in their original order
      (a boolean-mask selection `df[mask]`). */
  function Filter<T>(s: seq<T>, p: T -> bool): (r: seq<T>)
    ensures |r| <= |s|
    ensures forall i :: 0 <= i < |r| ==> r[i] in s && p(r[i])
    ensures forall i :: 0 <= i < |s| && p(s[i]) ==> s[i] in r
  {
    if s == [] then [] else (if p(s[0]) then [s[0]] else []) + Filter(s[1..], p)
  }

  /** Filtering one more element. */
  lemma FilterSnoc<T>(s: seq<T>, i: nat, p: T -> bool)
    requires i < |s|
    ensures Filter(s[..i + 1], p) == Filter(s[..i], p) + (if p(s[i]) then [s[i]] else [])
  {
    assert s[..i + 1] == s[..i] + [s[i]];
    FilterAppend(s[..i], [s[i]], p);
  }

  lemma FilterSingle<T>(x: T, p: T -> bool)
    ensures Filter([x], p) == if p(x) then [x] else []
  {
    assert [x][1..] == [];
  }

  /** Filtering distributes over concatenation. */
  lemma {:induction false} FilterAppend<T>(a: seq<T>, b: seq<T>, p: T -> bool)
    ensures Filter(a + b, p) == Filter(a, p) + Filter(b, p)
  {
    if a == [] {
      assert a + b == b;
    } else {
      var h := if p(a[0]) then [a[0]] else [];
      calc {
        Filter(a + b, p);
      == { assert (a + b)[0] == a[0]; assert (a + b)[1..] == a[1..] + b; }
        h + Filter(a[1..] + b, p);
      == { FilterAppend(a[1..], b, p); }
        h + (Filter(a[1..], p) + Filter(b, p));
      ==
        (h + Filter(a[1..], p)) + Filter(b, p);
      }
    }
  }

  lemma {:induction false} FilterSize<T>(s: seq<T>, p: T -> bool)
    ensures |Filter(s, p)| == CountWhere(s, p)
  {
    if s != [] { FilterSize(s[1..], p); }
  }

  /** Two filters in a row keep what their conjunction keeps. */
  lemma {:induction false} FilterTwice<T>(s: seq<T>, p: T -> bool, q: T -> bool, pq: T -> bool)
    requires forall x :: pq(x) == (p(x) && q(x))
    ensures Filter(Filter(s, p), q) == Filter(s, pq)
  {
    if s != [] {
      FilterTwice(s[1..], p, q, pq);
      var rest := Filter(s[1..], p);
      if p(s[0]) {
        assert Filter(s, p) == [s[0]] + rest;
        assert Filter(s, p)[1..] == rest;
      } else {
        assert Filter(s, p) == rest;
      }
    }
  }

  /** A filter whose condition implies an earlier one selects from that
      earlier selection: narrowing a selection never adds records. */
  lemma FilterNarrows<T>(s: seq<T>, p: T -> bool, q: T -> bool)
    requires forall x :: q(x) ==> p(x)
    ensures Filter(s, q) == Filter(Filter(s, p), q)
    ensures |Filter(s, q)| <= |Filter(s, p)|
  {
    FilterTwice(s, p, q, q);
  }

  lemma FilterAll<T>(s: seq<T>, p: T -> bool)
    requires forall x :: p(x)
    ensures Filter(s, p) == s
  {
  }

  /** The distinct elements of `s` in order of first appearance
      (the insertion order of a Python dict keyed by them). */
  function Distinct<T(==)>(s: seq<T>): (r: seq<T>)
    ensures NoDups(r)
    ensures forall i :: 0 <= i < |r| ==> r[i] in s
    ensures forall i :: 0 <= i < |s| ==> s[i] in r
  {
    if s == [] then []
    else
      var d := Distinct(s[..|s| - 1]);
      assert forall i :: 0 <= i < |s| - 1 ==> s[i] == s[..|s| - 1][i];
      if s[|s| - 1] in d then d else d + [s[|s| - 1]]
  }

  /** `Distinct` keeps exactly the values of the sequence. */
  lemma DistinctMember<T>(s: seq<T>, x: T)
    ensures x in Distinct(s) <==> x in s
  {
    if x in Distinct(s) {
      var i :| 0 <= i < |Distinct(s)| && Distinct(s)[i] == x;
    }
  }

  /** One more value at the end is listed once more only when it is new. */
  lemma DistinctSnoc<T>(s: seq<T>, x: T)
    ensures Distinct(s + [x]) == if x in Distinct(s) then Distinct(s) else Distinct(s) + [x]
  {
    assert (s + [x])[..|s + [x]| - 1] == s;
  }

  /** The tally of every key of `keys` over `s`, in the order of `keys`. */
  function TallyOf<T(==)>(keys: seq<T>, s: seq<T>): (r: seq<Tally<T>>)
    ensures |r| == |keys|
    ensures forall i :: 0 <= i < |r| ==> r[i] == Tally(keys[i], Count(s, keys[i]))
  {
    if keys == [] then [] else [Tally(keys[0], Count(s, keys[0]))] + TallyOf(keys[1..], s)
  }

  function Keys<K>(t: seq<Tally<K>>): (r: seq<K>)
    ensures |r| == |t|
    ensures forall i :: 0 <= i < |t| ==> r[i] == t[i].key
  {
    if t == [] then [] else [t[0].key] + Keys(t[1..])
  }

  /** Sum of the counts whose key satisfies `p`. */
  function SumWhere<K>(t: seq<Tally<K>>, p: K -> bool): nat {
    if t == [] then 0 else (if p(t[0].key) then t[0].count else 0) + SumWhere(t[1..], p)
  }

  /** Sum of all counts (`sum(d.values())`). */
  function Total<K>(t: seq<Tally<K>>): nat {
    if t == [] then 0 else t[0].count + Total(t[1..])
  }

  lemma {:induction false} TotalIsSumWhere<K>(t: seq<Tally<K>>, p: K -> bool)
    requires forall k :: p(k)
    ensures Total(t) == SumWhere(t, p)
  {
    if t != [] { TotalIsSumWhere(t[1..], p); }
  }

  /** Number of keys of `keys` equal to `y` that satisfy `p`. */
  function Hits<T(==)>(keys: seq<T>, y: T, p: T -> bool): nat {
    if keys == [] then 0 else (if keys[0] == y && p(y) then 1 else 0) + Hits(keys[1..], y, p)
  }

  lemma {:induction false} HitsOnce<T>(keys: seq<T>, y: T, p: T -> bool)
    requires NoDups(keys) && y in keys
    ensures Hits(keys, y, p) == if p(y) then 1 else 0
  {
    if keys[0] == y {
      HitsNone(keys[1..], y, p);
    } else {
      HitsOnce(keys[1..], y, p);
    }
  }

  lemma {:induction false} HitsNone<T>(keys: seq<T>, y: T, p: T -> bool)
    requires y !in keys
    ensures Hits(keys, y, p) == 0
  {
    if keys != [] { HitsNone(keys[1..], y, p); }
  }

  lemma {:induction false} SumWhereCons<T>(keys: seq<T>, y: T, s: seq<T>, p: T -> bool)
    ensures SumWhere(TallyOf(keys, [y] + s), p) == Hits(keys, y, p) + SumWhere(TallyOf(keys, s), p)
  {
    if keys != [] {
      SumWhereCons(keys[1..], y, s, p);
      assert ([y] + s)[1..] == s;
    }
  }

  /** Summing the tallies of a duplicate-free key list that covers `s`
      counts every element of `s` exactly once. */
  lemma {:induction false} SumWhereTallies<T>(keys: seq<T>, s: seq<T>, p: T -> bool)
    requires NoDups(keys)
    requires forall x :: x in s ==> x in keys
    ensures SumWhere(TallyOf(keys, s), p) == CountWhere(s, p)
  {
    if s == [] {
      SumWhereEmpty(keys, p);
    } else {
      SumWhereTallies(keys, s[1..], p);
      assert [s[0]] + s[1..] == s;
      SumWhereCons(keys, s[0], s[1..], p);
      HitsOnce(keys, s[0], p);
    }
  }

  lemma {:induction false} SumWhereEmpty<T>(keys: seq<T>, p: T -> bool)
    ensures SumWhere(TallyOf(keys, []), p) == 0
  {
    if keys != [] { SumWhereEmpty(keys[1..], p); }
  }

  // ---- stable ordering ---------------------------------------------------

  /** Insert `x` before the first element whose rank is not above its own. */
  function Insert<T>(x: T, l: seq<T>, rank: T -> int): (r: seq<T>)
    ensures |r| == |l| + 1
    ensures multiset(r) == multiset(l) + multiset{x}
  {
    if l == [] || rank(l[0]) <= rank(x) then [x] + l
    else
      assert l == [l[0]] + l[1..];
      [l[0]] + Insert(x, l[1..], rank)
  }

  /** Python's `sorted(s, key=rank, reverse=True)`: highest rank first, equal
      ranks in their original order. */
  function SortDesc<T>(s: seq<T>, rank: T -> int): (r: seq<T>)
    ensures |r| == |s|
    ensures multiset(r) == multiset(s)
  {
    if s == [] then []
    else
      assert s == [s[0]] + s[1..];
      Insert(s[0], SortDesc(s[1..], rank), rank)
  }

  ghost predicate SortedDesc<T>(s: seq<T>, rank: T -> int) {
    forall i, j :: 0 <= i < j < |s| ==> rank(s[i]) >= rank(s[j])
  }

  /** The elements of rank `c`, in order. */
  function WithRank<T>(s: seq<T>, rank: T -> int, c: int): seq<T> {
    if s == [] then [] else (if rank(s[0]) == c then [s[0]] else []) + WithRank(s[1..], rank, c)
  }

  lemma {:induction false} InsertSorted<T>(x: T, l: seq<T>, rank: T -> int)
    requires SortedDesc(l, rank)
    ensures SortedDesc(Insert(x, l, rank), rank)
  {
    if l != [] && rank(l[0]) > rank(x) {
      InsertSorted(x, l[1..], rank);
      var r := Insert(x, l, rank);
      var tail := Insert(x, l[1..], rank);
      assert r == [l[0]] + tail;
      forall j | 0 <= j < |tail| ensures rank(l[0]) >= rank(tail[j]) {
        assert tail[j] in multiset(l[1..]) + multiset{x};
        if tail[j] in multiset(l[1..]) {
          var k :| 0 <= k < |l[1..]| && l[1..][k] == tail[j];
          assert l[k + 1] == tail[j];
        }
      }
    }
  }

  lemma {:induction false} InsertWithRank<T>(x: T, l: seq<T>, rank: T -> int, c: int)
    requires SortedDesc(l, rank)
    ensures WithRank(Insert(x, l, rank), rank, c) ==
      (if rank(x) == c then [x] else []) + WithRank(l, rank, c)
  {
    if l != [] && rank(l[0]) > rank(x) {
      InsertWithRank(x, l[1..], rank, c);
      var r := Insert(x, l, rank);
      assert r[0] == l[0] && r[1..] == Insert(x, l[1..], rank);
      if rank(l[0]) == c {
        // every element of rank x's rank sits after l[0], so x's rank is not c
        assert rank(x) != c;
      }
    } else {
      var r := Insert(x, l, rank);
      assert r[0] == x && r[1..] == l;
    }
  }

  /** `SortDesc` orders by rank and is stable: for every rank, the elements
      of that rank keep their original relative order. */
  lemma {:induction false} SortDescCorrect<T>(s: seq<T>, rank: T -> int)
    ensures SortedDesc(SortDesc(s, rank), rank)
    ensures forall c :: WithRank(SortDesc(s, rank), rank, c) == WithRank(s, rank, c)
  {
    if s != [] {
      SortDescCorrect(s[1..], rank);
      var l := SortDesc(s[1..], rank);
      InsertSorted(s[0], l, rank);
      forall c ensures WithRank(SortDesc(s, rank), rank, c) == WithRank(s, rank, c) {
        InsertWithRank(s[0], l, rank, c);
      }
    }
  }

  lemma {:induction false} InsertTotal<K>(x: Tally<K>, l: seq<Tally<K>>, rank: Tally<K> -> int, p: K -> bool)
    ensures SumWhere(Insert(x, l, rank), p) == (if p(x.key) then x.count else 0) + SumWhere(l, p)
  {
    if l != [] && rank(l[0]) > rank(x) {
      InsertTotal(x, l[1..], rank, p);
    }
  }

  /** Re-ordering tallies does not change their sums. */
  lemma {:induction false} SortDescSumWhere<K>(t: seq<Tally<K>>, rank: Tally<K> -> int, p: K -> bool)
    ensures SumWhere(SortDesc(t, rank), p) == SumWhere(t, p)
  {
    if t != [] {
      SortDescSumWhere(t[1..], rank, p);
      InsertTotal(t[0], SortDesc(t[1..], rank), rank, p);
    }
  }

  lemma NoDupsFromMultiset<T>(a: seq<T>, b: seq<T>)
    requires multiset(a) == multiset(b) && NoDups(b)
    ensures NoDups(a)
  {
    forall i, j | 0 <= i < j < |a| ensures a[i] != a[j] {
      if a[i] == a[j] {
        var m := multiset(a);
        assert a == a[..i] + [a[i]] + a[i + 1..j] + [a[j]] + a[j + 1..];
        assert m[a[i]] >= 2;
        MultisetAtMostOnce(b, a[i]);
      }
    }
  }

  lemma {:induction false} MultisetAtMostOnce<T>(b: seq<T>, x: T)
    requires NoDups(b)
    ensures multiset(b)[x] <= 1
  {
    if b != [] {
      assert b == [b[0]] + b[1..];
      assert NoDups(b[1..]) by {
        forall i, j | 0 <= i < j < |b[1..]| ensures b[1..][i] != b[1..][j] {
          assert b[1..][i] == b[i + 1] && b[1..][j] == b[j + 1];
        }
      }
      MultisetAtMostOnce(b[1..], x);
      if b[0] == x {
        assert x !in b[1..];
      }
    }
  }

  /** The first `n` elements (`s[:n]` for `n >= 0`). */
  function Take<T>(s: seq<T>, n: nat): (r: seq<T>)
    ensures |r| <= n && |r| <= |s|
    ensures |r| == if n < |s| then n else |s|
    ensures r == s[..|r|]
  {
    if n < |s| then s[..n] else s
  }

  /** Python's `s[:n]` for any integer `n`: a negative `n` counts from the end. */
  function SliceTo<T>(s: seq<T>, n: int): (r: seq<T>)
    ensures |r| <= |s| && r == s[..|r|]
    ensures n >= 0 ==> |r| == if n < |s| then n else |s|
    ensures n < 0 ==> |r| == if |s| + n < 0 then 0 else |s| + n
  {
    if n >= 0 then Take(s, n)
    else if |s| + n < 0 then []
    else s[..|s| + n]
  }

  lemma {:induction false} CountWhereAll<T>(s: seq<T>, p: T -> bool)
    requires forall x :: p(x)
    ensures CountWhere(s, p) == |s|
  {
    if s != [] { CountWhereAll(s[1..], p); }
  }

  // ---- value_counts, sort_index and mode ----------------------------------

  /** A tally ranked by its count. */
  function ByCount<K>(t: Tally<K>): int { t.count }

  /** An integer tally ranked by its negated key: sorting by it, highest
      first, is pandas' `sort_index()`. */
  function ByKeyAscending(t: Tally<int>): int { -t.key }

  /** The tallies whose count is `c`. */
  function HasCount<K>(c: nat): Tally<K> -> bool { (t: Tally<K>) => t.count == c }

  /** `s.value_counts()`: every distinct value with its number of
      occurrences, highest count first, equal counts in order of first
      appearance. */
  function ValueCounts<T(==)>(s: seq<T>): seq<Tally<T>> {
    SortDesc(TallyOf(Distinct(s), s), ByCount)
  }

  /** `s.value_counts().sort_index()` for integer values. */
  function SortedIndex(s: seq<int>): seq<Tally<int>> {
    SortDesc(ValueCounts(s), ByKeyAscending)
  }

  /** The highest number of occurrences of any value of `s` (0 when empty). */
  function MaxCount<T(==)>(s: seq<T>): nat {
    var vc := ValueCounts(s);
    if vc == [] then 0 else vc[0].count
  }

  /** `s.mode().tolist()` for integer values: every value of highest count,
      ascending. */
  function Modes(s: seq<int>): seq<int> {
    Keys(Filter(SortedIndex(s), HasCount(MaxCount(s))))
  }

  /** `t` is a tally of `s`: its keys are distinct values of `s`, each with
      its true number of occurrences. */
  ghost predicate TrueTally<T>(t: seq<Tally<T>>, s: seq<T>) {
    && NoDups(Keys(t))
    && forall i :: 0 <= i < |t| ==> t[i].key in s && t[i].count == Count(s, t[i].key)
  }

  /** Every value of `s` is a key of `t`. */
  ghost predicate CoversValues<T>(t: seq<Tally<T>>, s: seq<T>) {
    forall x :: x in s ==> x in Keys(t)
  }

  lemma KeysOfTallyOf<T>(keys: seq<T>, s: seq<T>)
    ensures Keys(TallyOf(keys, s)) == keys
  {
  }

  /** Re-ordering a true, covering tally keeps it true and covering. */
  lemma TallyPermutation<T>(a: seq<Tally<T>>, b: seq<Tally<T>>, s: seq<T>)
    requires multiset(a) == multiset(b)
    requires TrueTally(b, s) && CoversValues(b, s)
    ensures TrueTally(a, s) && CoversValues(a, s)
  {
    forall i | 0 <= i < |a| ensures a[i].key in s && a[i].count == Count(s, a[i].key) {
      assert a[i] in multiset(b);
    }
    assert NoDups(b) by {
      forall i, j | 0 <= i < j < |b| ensures b[i] != b[j] {
        assert Keys(b)[i] != Keys(b)[j];
      }
    }
    NoDupsFromMultiset(a, b);
    forall i, j | 0 <= i < j < |a| ensures Keys(a)[i] != Keys(a)[j] {
      assert a[i] != a[j];
    }
    forall x | x in s ensures x in Keys(a) {
      var j :| 0 <= j < |b| && Keys(b)[j] == x;
      assert b[j] in multiset(a);
      var i :| 0 <= i < |a| && a[i] == b[j];
      assert Keys(a)[i] == x;
    }
  }

  /** `value_counts()` is a true tally of every value, ordered by count. */
  lemma ValueCountsCorrect<T>(s: seq<T>)
    ensures TrueTally(ValueCounts(s), s) && CoversValues(ValueCounts(s), s)
    ensures SortedDesc(ValueCounts(s), ByCount)
    ensures |ValueCounts(s)| == |Distinct(s)|
  {
    var t := TallyOf(Distinct(s), s);
    KeysOfTallyOf(Distinct(s), s);
    TallyPermutation(ValueCounts(s), t, s);
    SortDescCorrect(t, ByCount);
  }

  /** Summing `value_counts()` over the keys that satisfy `p` counts the
      values that satisfy `p`. */
  lemma ValueCountsSum<T>(s: seq<T>, p: T -> bool)
    ensures SumWhere(ValueCounts(s), p) == CountWhere(s, p)
  {
    SortDescSumWhere(TallyOf(Distinct(s), s), ByCount, p);
    SumWhereTallies(Distinct(s), s, p);
  }

  /** `sort_index()` of `value_counts()` is a true tally of every value, in
      strictly ascending key order, with the same sums. */
  lemma SortedIndexCorrect(s: seq<int>)
    ensures TrueTally(SortedIndex(s), s) && CoversValues(SortedIndex(s), s)
    ensures forall i, j :: 0 <= i < j < |SortedIndex(s)| ==> SortedIndex(s)[i].key < SortedIndex(s)[j].key
  {
    var r := SortedIndex(s);
    ValueCountsCorrect(s);
    TallyPermutation(r, ValueCounts(s), s);
    SortDescCorrect(ValueCounts(s), ByKeyAscending);
    forall i, j | 0 <= i < j < |r| ensures r[i].key < r[j].key {
      assert ByKeyAscending(r[i]) >= ByKeyAscending(r[j]);
      assert Keys(r)[i] != Keys(r)[j];
    }
  }

  lemma SortedIndexSum(s: seq<int>, p: int -> bool)
    ensures SumWhere(SortedIndex(s), p) == CountWhere(s, p)
  {
    SortDescSumWhere(ValueCounts(s), ByKeyAscending, p);
    ValueCountsSum(s, p);
  }

  /** No value occurs more often than `MaxCount`, and when `s` is not empty
      some value occurs exactly that often. */
  lemma MaxCountCorrect<T>(s: seq<T>)
    ensures forall x :: Count(s, x) <= MaxCount(s)
    ensures s != [] ==> MaxCount(s) > 0 && ValueCounts(s)[0].count == MaxCount(s)
  {
    var vc := ValueCounts(s);
    ValueCountsCorrect(s);
    forall x ensures Count(s, x) <= MaxCount(s) {
      if x in s {
        var j :| 0 <= j < |vc| && Keys(vc)[j] == x;
        assert ByCount(vc[0]) >= ByCount(vc[j]) || j == 0;
      }
    }
    if s != [] {
      assert s[0] in Keys(vc);
      assert vc[0].key in s;
    }
  }

  lemma SortedTail<T>(s: seq<T>, rank: T -> int)
    requires s != [] && SortedDesc(s, rank)
    ensures SortedDesc(s[1..], rank)
    ensures forall y :: y in s[1..] ==> rank(s[0]) >= rank(y)
  {
    forall i, j | 0 <= i < j < |s[1..]| ensures rank(s[1..][i]) >= rank(s[1..][j]) {
      assert s[1..][i] == s[i + 1] && s[1..][j] == s[j + 1];
    }
    forall y | y in s[1..] ensures rank(s[0]) >= rank(y) {
      var k :| 0 <= k < |s[1..]| && s[1..][k] == y;
      assert s[k + 1] == y;
    }
  }

  lemma SortedCons<T>(x: T, l: seq<T>, rank: T -> int)
    requires SortedDesc(l, rank)
    requires forall y :: y in l ==> rank(x) >= rank(y)
    ensures SortedDesc([x] + l, rank)
  {
    forall i, j | 0 <= i < j < |[x] + l| ensures rank(([x] + l)[i]) >= rank(([x] + l)[j]) {
      assert ([x] + l)[j] == l[j - 1];
      if i > 0 {
        assert ([x] + l)[i] == l[i - 1];
      }
    }
  }

  /** Filtering keeps an order. */
  lemma {:induction false} FilterSorted<T>(s: seq<T>, rank: T -> int, p: T -> bool)
    requires SortedDesc(s, rank)
    ensures SortedDesc(Filter(s, p), rank)
  {
    if s != [] {
      SortedTail(s, rank);
      FilterSorted(s[1..], rank, p);
      var rest := Filter(s[1..], p);
      if p(s[0]) {
        assert Filter(s, p) == [s[0]] + rest;
        SortedCons(s[0], rest, rank);
      } else {
        assert Filter(s, p) == rest;
      }
    }
  }

  /** `mode()` holds exactly the values of highest count. */
  lemma ModesMembers(s: seq<int>, x: int)
    ensures x in Modes(s) <==> x in s && Count(s, x) == MaxCount(s)
  {
    if x in Modes(s) {
      ModeIsModal(s, x);
    }
    if x in s && Count(s, x) == MaxCount(s) {
      ModalIsMode(s, x);
    }
  }

  /** An entry of a true tally holds a value of the sequence and its count. */
  lemma TrueTallyMember<T>(t: seq<Tally<T>>, s: seq<T>, e: Tally<T>)
    requires TrueTally(t, s) && e in t
    ensures e.key in s && e.count == Count(s, e.key)
  {
    var j :| 0 <= j < |t| && t[j] == e;
  }

  /** The tally `sort_index()` builds is a true tally. */
  lemma SortedIndexTrue(s: seq<int>)
    ensures TrueTally(SortedIndex(s), s)
  {
    SortedIndexCorrect(s);
  }

  lemma ModeIsModal(s: seq<int>, x: int)
    requires x in Modes(s)
    ensures x in s && Count(s, x) == MaxCount(s)
  {
    var f := Filter(SortedIndex(s), HasCount(MaxCount(s)));
    var i :| 0 <= i < |Keys(f)| && Keys(f)[i] == x;
    assert f[i] in SortedIndex(s) && f[i].count == MaxCount(s);
    SortedIndexTrue(s);
    TrueTallyMember(SortedIndex(s), s, f[i]);
  }

  lemma ModalIsMode(s: seq<int>, x: int)
    requires x in s && Count(s, x) == MaxCount(s)
    ensures x in Modes(s)
  {
    var si := SortedIndex(s);
    var j := SortedIndexEntry(s, x);
    var f := Filter(si, HasCount(MaxCount(s)));
    assert HasCount(MaxCount(s))(si[j]);
    assert si[j] in f;
    var i :| 0 <= i < |f| && f[i] == si[j];
    assert Keys(f)[i] == x;
  }

  /** Every value of `s` has its entry in `sort_index()`. */
  lemma SortedIndexEntry(s: seq<int>, x: int) returns (j: nat)
    requires x in s
    ensures j < |SortedIndex(s)| && SortedIndex(s)[j] == Tally(x, Count(s, x))
  {
    SortedIndexCorrect(s);
    assert x in Keys(SortedIndex(s));
    j :| 0 <= j < |SortedIndex(s)| && Keys(SortedIndex(s))[j] == x;
  }

  /** The values of `mode()` are listed in strictly ascending order. */
  lemma ModesAscending(s: seq<int>)
    ensures forall i, j :: 0 <= i < j < |Modes(s)| ==> Modes(s)[i] < Modes(s)[j]
  {
    var si := SortedIndex(s);
    var f := Filter(si, HasCount(MaxCount(s)));
    SortedIndexCorrect(s);
    SortDescCorrect(ValueCounts(s), ByKeyAscending);
    FilterSorted(si, ByKeyAscending, HasCount(MaxCount(s)));
    FilterKeysNoDups(si, HasCount(MaxCount(s)));
    AscendingKeys(f);
  }

  /** Distinct keys ordered by `ByKeyAscending` strictly ascend. */
  lemma AscendingKeys(f: seq<Tally<int>>)
    requires SortedDesc(f, ByKeyAscending) && NoDups(Keys(f))
    ensures forall i, j :: 0 <= i < j < |f| ==> Keys(f)[i] < Keys(f)[j]
  {
    forall i, j | 0 <= i < j < |f| ensures Keys(f)[i] < Keys(f)[j] {
      AscendingKeyPair(f, i, j);
    }
  }

  lemma AscendingKeyPair(f: seq<Tally<int>>, i: nat, j: nat)
    requires SortedDesc(f, ByKeyAscending) && NoDups(Keys(f))
    requires i < j < |f|
    ensures f[i].key < f[j].key
  {
    assert ByKeyAscending(f[i]) >= ByKeyAscending(f[j]);
    assert Keys(f)[i] != Keys(f)[j];
  }

  /** Filtering a tally with distinct keys keeps them distinct. */
  lemma {:induction false} FilterKeysNoDups<K>(t: seq<Tally<K>>, p: Tally<K> -> bool)
    requires NoDups(Keys(t))
    ensures NoDups(Keys(Filter(t, p)))
  {
    if t != [] {
      assert Keys(t[1..]) == Keys(t)[1..];
      FilterKeysNoDups(t[1..], p);
      var rest := Filter(t[1..], p);
      if p(t[0]) {
        assert Filter(t, p) == [t[0]] + rest;
        var k := Keys([t[0]] + rest);
        assert k == [t[0].key] + Keys(rest);
        forall i | 0 <= i < |rest| ensures Keys(rest)[i] != t[0].key {
          var a :| 0 <= a < |t[1..]| && t[1..][a] == rest[i];
          assert Keys(t)[a + 1] == rest[i].key;
        }
      } else {
        assert Filter(t, p) == rest;
      }
    }
  }

  /** A non-empty sequence has a mode. */
  lemma ModesNonEmpty(s: seq<int>)
    requires s != []
    ensures Modes(s) != []
  {
    ValueCountsCorrect(s);
    MaxCountCorrect(s);
    assert s[0] in Keys(ValueCounts(s));
    var v := ValueCounts(s)[0];
    assert v.key in s;
    ModesMembers(s, v.key);
  }

  /** `value_counts().head(n)`: at most `n` values, a true tally in
      non-increasing count. */
  lemma TopCountsCorrect<T>(s: seq<T>, n: nat)
    ensures |Take(ValueCounts(s), n)| <= n
    ensures TrueTally(Take(ValueCounts(s), n), s)
    ensures SortedDesc(Take(ValueCounts(s), n), ByCount)
  {
    ValueCountsCorrect(s);
    TrueTallyTaken(ValueCounts(s), s, n);
    TakeSorted(ValueCounts(s), n);
  }

  /** A prefix of a list sorted by count is sorted by count. */
  lemma TakeSorted<T>(t: seq<Tally<T>>, n: nat)
    requires SortedDesc(t, ByCount)
    ensures SortedDesc(Take(t, n), ByCount)
  {
    assert forall i :: 0 <= i < |Take(t, n)| ==> Take(t, n)[i] == t[i];
  }

  /** A value left out of `value_counts().head(n)` occurs no more often than
      the last value kept, and is only left out when `n` values were kept. */
  lemma TopCountsComplete<T>(s: seq<T>, n: nat, x: T)
    requires x in s && x !in Keys(Take(ValueCounts(s), n))
    ensures |Take(ValueCounts(s), n)| == n
    ensures n > 0 ==> Count(s, x) <= Take(ValueCounts(s), n)[n - 1].count
  {
    var j := ValueCountsIndexOf(s, x);
    ValueCountsCorrect(s);
    TakeLeavesOut(ValueCounts(s), n, j);
  }

  /** The first `n` of a list sorted by count leave out only what comes
      after them, which counts no more than the last one kept. */
  lemma TakeLeavesOut<K>(t: seq<Tally<K>>, n: nat, j: nat)
    requires SortedDesc(t, ByCount)
    requires j < |t| && t[j].key !in Keys(Take(t, n))
    ensures |Take(t, n)| == n
    ensures n > 0 ==> t[j].count <= Take(t, n)[n - 1].count
  {
    var r := Take(t, n);
    if j < |r| {
      assert false;
    }
    if n > 0 && n - 1 < j {
      assert r[n - 1] == t[n - 1];
      assert ByCount(t[n - 1]) >= ByCount(t[j]);
    }
  }

  /** Where a value of `s` sits in `value_counts()`. */
  lemma ValueCountsIndexOf<T>(s: seq<T>, x: T) returns (j: nat)
    requires x in s
    ensures j < |ValueCounts(s)| && ValueCounts(s)[j] == Tally(x, Count(s, x))
  {
    ValueCountsCorrect(s);
    var vc := ValueCounts(s);
    assert x in Keys(vc);
    j :| 0 <= j < |vc| && Keys(vc)[j] == x;
  }

  /** What sits at a position of `value_counts()`. */
  lemma ValueCountsKey<T>(s: seq<T>, i: nat)
    requires i < |ValueCounts(s)|
    ensures ValueCounts(s)[i].key in s && ValueCounts(s)[i].count == Count(s, ValueCounts(s)[i].key)
  {
    ValueCountsCorrect(s);
  }

  lemma ValueCountsOrdered<T>(s: seq<T>, i: nat, j: nat)
    requires i <= j < |ValueCounts(s)|
    ensures ValueCounts(s)[i].count >= ValueCounts(s)[j].count
  {
    ValueCountsCorrect(s);
    if i < j {
      assert ByCount(ValueCounts(s)[i]) >= ByCount(ValueCounts(s)[j]);
    }
  }

  // ---- tallies after selection and reordering ---------------------------

  /** Selecting entries of a true tally leaves a true tally. */
  lemma TrueTallyFiltered<T>(t: seq<Tally<T>>, s: seq<T>, p: Tally<T> -> bool)
    requires TrueTally(t, s)
    ensures TrueTally(Filter(t, p), s)
  {
    FilterKeysNoDups(t, p);
  }

  /** A prefix of a true tally is a true tally. */
  lemma TrueTallyTaken<T>(t: seq<Tally<T>>, s: seq<T>, n: nat)
    requires TrueTally(t, s)
    ensures TrueTally(Take(t, n), s)
  {
    var r := Take(t, n);
    assert forall i :: 0 <= i < |r| ==> r[i] == t[i];
    forall i, j | 0 <= i < j < |r| ensures Keys(r)[i] != Keys(r)[j] {
      assert Keys(t)[i] != Keys(t)[j];
    }
  }

  /** A reordering of a true tally is a true tally. */
  lemma TrueTallyReordered<T>(a: seq<Tally<T>>, b: seq<Tally<T>>, s: seq<T>)
    requires multiset(a) == multiset(b) && TrueTally(b, s)
    ensures TrueTally(a, s)
  {
    forall i | 0 <= i < |a| ensures a[i] in b {
      assert a[i] in multiset(a);
    }
    assert NoDups(b) by {
      forall i, j | 0 <= i < j < |b| ensures b[i] != b[j] {
        assert Keys(b)[i] != Keys(b)[j];
      }
    }
    forall i, j | 0 <= i < j < |a| ensures Keys(a)[i] != Keys(a)[j] {
      if a[i].key == a[j].key {
        assert a[i] == a[j];
        assert a == a[..j] + a[j..];
        assert a[i] in a[..j] && a[j] in a[j..];
        assert multiset(a)[a[i]] >= 2;
        MultisetAtMostOnce(b, a[i]);
      }
    }
  }

  /** Entries of equal count are listed in ascending key order. */
  ghost predicate TiesAscending(t: seq<Tally<int>>) {
    forall i, j :: 0 <= i < j < |t| && t[i].count == t[j].count ==> t[i].key < t[j].key
  }

  /** Every element of an insertion result is the inserted one or was there. */
  lemma InsertMember<T>(x: T, l: seq<T>, rank: T -> int, y: T)
    requires y in Insert(x, l, rank)
    ensures y == x || y in l
  {
    assert y in multiset(Insert(x, l, rank));
  }

  /** Putting in front an entry whose key is below every entry of equal count
      keeps ties ascending. */
  lemma ConsTiesAscending(h: Tally<int>, r: seq<Tally<int>>)
    requires TiesAscending(r)
    requires forall j :: 0 <= j < |r| && h.count == r[j].count ==> h.key < r[j].key
    ensures TiesAscending([h] + r)
  {
    var t := [h] + r;
    forall i, j | 0 <= i < j < |t| && t[i].count == t[j].count ensures t[i].key < t[j].key {
      assert t[j] == r[j - 1];
      if i > 0 {
        assert t[i] == r[i - 1];
      }
    }
  }

  lemma {:induction false} InsertTiesAscending(x: Tally<int>, l: seq<Tally<int>>)
    requires TiesAscending(l)
    requires forall y :: y in l ==> x.key < y.key
    ensures TiesAscending(Insert(x, l, ByCount))
  {
    if l == [] || ByCount(l[0]) <= ByCount(x) {
      ConsTiesAscending(x, l);
    } else {
      var tail := l[1..];
      forall i, j | 0 <= i < j < |tail| && tail[i].count == tail[j].count ensures tail[i].key < tail[j].key {
        assert tail[i] == l[i + 1] && tail[j] == l[j + 1];
      }
      InsertTiesAscending(x, tail);
      var r := Insert(x, tail, ByCount);
      forall j | 0 <= j < |r| && l[0].count == r[j].count ensures l[0].key < r[j].key {
        InsertMember(x, tail, ByCount, r[j]);
        var k :| 0 <= k < |tail| && tail[k] == r[j];
        assert l[k + 1] == r[j];
      }
      ConsTiesAscending(l[0], r);
    }
  }

  /** Python's stable descending sort by count, applied to a tally in
      strictly ascending key order, breaks ties by ascending key. */
  lemma {:induction false} SortDescTiesAscending(t: seq<Tally<int>>)
    requires forall i, j :: 0 <= i < j < |t| ==> t[i].key < t[j].key
    ensures TiesAscending(SortDesc(t, ByCount))
  {
    if t != [] {
      var tail := t[1..];
      assert forall i, j :: 0 <= i < j < |tail| ==> tail[i].key < tail[j].key by {
        forall i, j | 0 <= i < j < |tail| ensures tail[i].key < tail[j].key {
          assert tail[i] == t[i + 1] && tail[j] == t[j + 1];
        }
      }
      SortDescTiesAscending(tail);
      var l := SortDesc(tail, ByCount);
      forall y | y in l ensures t[0].key < y.key {
        assert y in multiset(l);
        assert y in tail;
        var k :| 0 <= k < |tail| && tail[k] == y;
        assert t[k + 1] == y;
      }
      InsertTiesAscending(t[0], l);
    }
  }

  /** Ascending key order survives selection. */
  lemma {:induction false} FilterAscending(t: seq<Tally<int>>, p: Tally<int> -> bool)
    requires forall i, j :: 0 <= i < j < |t| ==> t[i].key < t[j].key
    ensures forall i, j :: 0 <= i < j < |Filter(t, p)| ==> Filter(t, p)[i].key < Filter(t, p)[j].key
  {
    FilterSorted(t, ByKeyAscending, p);
    FilterKeysNoDupsAscending(t, p);
    AscendingKeys(Filter(t, p));
  }

  lemma FilterKeysNoDupsAscending(t: seq<Tally<int>>, p: Tally<int> -> bool)
    requires forall i, j :: 0 <= i < j < |t| ==> t[i].key < t[j].key
    ensures SortedDesc(t, ByKeyAscending)
    ensures NoDups(Keys(Filter(t, p)))
  {
    forall i, j | 0 <= i < j < |t| ensures Keys(t)[i] != Keys(t)[j] {
      assert t[i].key < t[j].key;
    }
    FilterKeysNoDups(t, p);
  }

  /** Keys equal to `k`. */
  function Equals<T(==)>(k: T): T -> bool { x => x == k }

  lemma {:induction false} CountWhereEquals<T>(s: seq<T>, k: T)
    ensures CountWhere(s, Equals(k)) == Count(s, k)
  {
    if s != [] { CountWhereEquals(s[1..], k); }
  }

  lemma {:induction false} CountAppend<T>(a: seq<T>, b: seq<T>, x: T)
    ensures Count(a + b, x) == Count(a, x) + Count(b, x)
  {
    if a == [] {
      assert a + b == b;
    } else {
      assert (a + b)[1..] == a[1..] + b;
      CountAppend(a[1..], b, x);
    }
  }

  /** The sum over one key of a tally with distinct keys is that key's count,
      or 0 for a key it does not hold. */
  lemma {:induction false} SumWhereOneKey<K>(t: seq<Tally<K>>, k: K)
    requires NoDups(Keys(t))
    ensures k !in Keys(t) ==> SumWhere(t, Equals(k)) == 0
    ensures forall i :: 0 <= i < |t| && t[i].key == k ==> SumWhere(t, Equals(k)) == t[i].count
  {
    if t != [] {
      assert Keys(t[1..]) == Keys(t)[1..];
      SumWhereOneKey(t[1..], k);
      if t[0].key == k {
        assert k !in Keys(t[1..]);
      }
    }
  }

  lemma NoDupsCons<T>(x: T, s: seq<T>)
    requires NoDups(s) && x !in s
    ensures NoDups([x] + s)
  {
    forall i, j | 0 <= i < j < |[x] + s| ensures ([x] + s)[i] != ([x] + s)[j] {
      assert ([x] + s)[j] == s[j - 1];
    }
  }

  lemma NoDupsTail<T>(s: seq<T>)
    requires NoDups(s) && s != []
    ensures NoDups(s[1..]) && s[0] !in s[1..]
  {
    forall j | 0 <= j < |s[1..]| ensures s[1..][j] != s[0] {
      assert s[1..][j] == s[j + 1];
    }
  }

  /** The first `n` of a true tally sorted by count: at most `n` entries, a
      true tally, in non-increasing count. */
  lemma TopOfTally<T>(t: seq<Tally<T>>, s: seq<T>, n: nat)
    requires TrueTally(t, s)
    ensures |Take(SortDesc(t, ByCount), n)| <= n
    ensures TrueTally(Take(SortDesc(t, ByCount), n), s)
    ensures SortedDesc(Take(SortDesc(t, ByCount), n), ByCount)
  {
    var sorted := SortDesc(t, ByCount);
    var r := Take(sorted, n);
    TrueTallyReordered(sorted, t, s);
    TrueTallyTaken(sorted, s, n);
    SortDescCorrect(t, ByCount);
    assert forall i :: 0 <= i < |r| ==> r[i] == sorted[i];
  }

  /** The first entry of a covering tally sorted by count is at least as
      frequent as any value. */
  lemma SortedTallyPeak<T>(t: seq<Tally<T>>, s: seq<T>)
    requires TrueTally(t, s) && CoversValues(t, s) && t != []
    ensures forall x :: Count(s, x) <= SortDesc(t, ByCount)[0].count
  {
    var sorted := SortDesc(t, ByCount);
    SortDescCorrect(t, ByCount);
    forall x ensures Count(s, x) <= sorted[0].count {
      if x in s {
        assert x in Keys(t);
        var j :| 0 <= j < |t| && Keys(t)[j] == x;
        assert t[j] in multiset(sorted);
        var k :| 0 <= k < |sorted| && sorted[k] == t[j];
        if k > 0 {
          assert ByCount(sorted[0]) >= ByCount(sorted[k]);
        }
      }
    }
  }

  /** Each of the first `n` of a sorted selection passed the selection. */
  lemma TopOfFilterPasses<T>(t: seq<T>, p: T -> bool, rank: T -> int, n: nat)
    ensures forall i :: 0 <= i < |Take(SortDesc(Filter(t, p), rank), n)| ==> p(Take(SortDesc(Filter(t, p), rank), n)[i])
  {
    var f := Filter(t, p);
    var sorted := SortDesc(f, rank);
    forall i | 0 <= i < |Take(sorted, n)| ensures p(Take(sorted, n)[i]) {
      assert Take(sorted, n)[i] == sorted[i];
      assert sorted[i] in multiset(f);
    }
  }

  /** A prefix keeps ties in ascending key order. */
  lemma TiesTaken(t: seq<Tally<int>>, n: nat)
    requires TiesAscending(t)
    ensures TiesAscending(Take(t, n))
  {
    assert forall i :: 0 <= i < |Take(t, n)| ==> Take(t, n)[i] == t[i];
  }
}
