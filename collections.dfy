/**
 * Generic building blocks for the repository queries: the ids of the rows
 * a `WHERE` clause keeps (in table order) and a stable `ORDER BY`.
 */
module Collections {
  import opened Wrappers

  /** No id occurs twice. */
  ghost predicate Distinct(s: seq<nat>) {
    forall i, j :: 0 <= i < j < |s| ==> s[i] != s[j]
  }

  /** Strictly increasing, so in particular duplicate-free. */
  ghost predicate Increasing(s: seq<nat>) {
    forall i, j :: 0 <= i < j < |s| ==> s[i] < s[j]
  }

  /** Non-decreasing in `key`: the meaning of `ORDER BY key ASC`. */
  ghost predicate SortedBy(s: seq<nat>, key: nat -> int) {
    forall i, j :: 0 <= i < j < |s| ==> key(s[i]) <= key(s[j])
  }

  /** The ids `0 <= i < n` for which `p` holds, in ascending order. */
  function Filter(n: nat, p: nat -> bool): (r: seq<nat>)
    ensures forall i: nat :: i in r <==> i < n && p(i)
    ensures forall k :: 0 <= k < |r| ==> r[k] < n && p(r[k])
  {
    if n == 0 then []
    else
      var front := Filter(n - 1, p);
      assert forall k :: 0 <= k < |front| ==> front[k] in front;
      if p(n - 1) then front + [n - 1] else front
  }

  /** The kept ids come out in table order. */
  lemma {:induction false} FilterIncreasing(n: nat, p: nat -> bool)
    ensures Increasing(Filter(n, p))
  {
    if n > 0 {
      FilterIncreasing(n - 1, p);
    }
  }

  /** Number of ids `0 <= i < n` for which `p` holds. */
  function Count(n: nat, p: nat -> bool): (c: nat)
    ensures c <= n
    ensures c == 0 <==> forall i :: 0 <= i < n ==> !p(i)
  {
    if n == 0 then 0
    else Count(n - 1, p) + (if p(n - 1) then 1 else 0)
  }

  /** Counting under two predicates that agree on the table gives the same number. */
  lemma {:induction false} CountAgrees(n: nat, p: nat -> bool, p': nat -> bool)
    requires forall i: nat :: i < n ==> p(i) == p'(i)
    ensures Count(n, p) == Count(n, p')
  {
    if n > 0 {
      CountAgrees(n - 1, p, p');
    }
  }

  /** The count is the number of distinct ids `p` keeps. */
  lemma {:induction false} CountIsSize(n: nat, p: nat -> bool)
    ensures Count(n, p) == |set i: nat | i < n && p(i)|
  {
    if n > 0 {
      CountIsSize(n - 1, p);
      var front := set i: nat | i < n - 1 && p(i);
      var all := set i: nat | i < n && p(i);
      if p(n - 1) {
        assert all == front + {n - 1};
      } else {
        assert all == front;
      }
    } else {
      assert (set i: nat | i < n && p(i)) == {};
    }
  }

  lemma {:induction false} CountIsFilterLength(n: nat, p: nat -> bool)
    ensures Count(n, p) == |Filter(n, p)|
  {
    if n > 0 {
      CountIsFilterLength(n - 1, p);
    }
  }

  /**
   * Inserts `x` before the first element whose key is not smaller, so `x`
   * precedes the elements with an equal key (which makes SortBy stable).
   */
  function InsertBy(x: nat, s: seq<nat>, key: nat -> int): (r: seq<nat>)
    ensures multiset(r) == multiset(s) + multiset{x}
    ensures forall y :: y in r <==> y == x || y in s
    ensures |r| == |s| + 1
  {
    if s == [] || key(x) <= key(s[0]) then [x] + s
    else
      assert s == [s[0]] + s[1..];
      [s[0]] + InsertBy(x, s[1..], key)
  }

  lemma {:induction false} InsertByKeepsSorted(x: nat, s: seq<nat>, key: nat -> int)
    requires SortedBy(s, key)
    ensures SortedBy(InsertBy(x, s, key), key)
  {
    if s != [] && key(x) > key(s[0]) {
      InsertByKeepsSorted(x, s[1..], key);
      HeadIsLeast(s, key);
      SortedCons(s[0], InsertBy(x, s[1..], key), key);
    }
  }

  /** An element no larger than any of a sorted sequence can go in front of it. */
  lemma SortedCons(a: nat, rest: seq<nat>, key: nat -> int)
    requires SortedBy(rest, key)
    requires forall y :: y in rest ==> key(a) <= key(y)
    ensures SortedBy([a] + rest, key)
  {
    var r := [a] + rest;
    forall i, j | 0 <= i < j < |r|
      ensures key(r[i]) <= key(r[j])
    {
      if i == 0 {
        assert r[j] == rest[j - 1];
        assert r[j] in rest;
      } else {
        assert r[i] == rest[i - 1] && r[j] == rest[j - 1];
      }
    }
  }

  /** In a sorted sequence no later element has a smaller key than the first. */
  lemma HeadIsLeast(s: seq<nat>, key: nat -> int)
    requires s != [] && SortedBy(s, key)
    ensures forall y :: y in s[1..] ==> key(s[0]) <= key(y)
  {
    forall y | y in s[1..]
      ensures key(s[0]) <= key(y)
    {
      var j :| 0 <= j < |s[1..]| && s[1..][j] == y;
      assert s[j + 1] == y;
    }
  }

  /** Stable insertion sort by ascending `key`. */
  function SortBy(s: seq<nat>, key: nat -> int): (r: seq<nat>)
    ensures multiset(r) == multiset(s)
    ensures |r| == |s|
  {
    if s == [] then []
    else
      assert s == [s[0]] + s[1..];
      InsertBy(s[0], SortBy(s[1..], key), key)
  }

  lemma {:induction false} SortByIsSorted(s: seq<nat>, key: nat -> int)
    ensures SortedBy(SortBy(s, key), key)
  {
    if s != [] {
      SortByIsSorted(s[1..], key);
      InsertByKeepsSorted(s[0], SortBy(s[1..], key), key);
    }
  }

  /** Sorting keeps exactly the same ids. */
  lemma SortByMembers(s: seq<nat>, key: nat -> int, x: nat)
    ensures x in SortBy(s, key) <==> x in s
  {
    var r := SortBy(s, key);
    assert x in r <==> x in multiset(r);
    assert x in s <==> x in multiset(s);
  }

  /** An id occurs at most once in a sequence whose multiset has no repeats. */
  lemma {:induction false} SingletonCountsAreDistinct(s: seq<nat>)
    requires forall x :: multiset(s)[x] <= 1
    ensures Distinct(s)
  {
    forall i, j | 0 <= i < j < |s|
      ensures s[i] != s[j]
    {
      assert s == s[..j] + s[j..];
      assert multiset(s) == multiset(s[..j]) + multiset(s[j..]);
      assert s[i] in s[..j];
      assert multiset(s[j..])[s[j]] >= 1;
      assert multiset(s)[s[i]] <= 1;
    }
  }

  /** Distinct sequences have no repeated multiset element. */
  lemma {:induction false} DistinctCounts(s: seq<nat>)
    requires Distinct(s)
    ensures forall x :: multiset(s)[x] <= 1
  {
    if s != [] {
      var t := s[..|s| - 1];
      var last := s[|s| - 1];
      assert s == t + [last];
      assert Distinct(t);
      DistinctCounts(t);
      assert last !in t;
      assert multiset(s) == multiset(t) + multiset{last};
    }
  }

  /** Sorting a duplicate-free sequence yields a duplicate-free sequence. */
  lemma SortByKeepsDistinct(s: seq<nat>, key: nat -> int)
    requires Distinct(s)
    ensures Distinct(SortBy(s, key))
  {
    DistinctCounts(s);
    SingletonCountsAreDistinct(SortBy(s, key));
  }

  lemma IncreasingIsDistinct(s: seq<nat>)
    requires Increasing(s)
    ensures Distinct(s)
  {
  }

  /**
   * `SELECT … WHERE p ORDER BY key ASC` over a table of `n` rows: exactly the
   * ids satisfying `p`, each once, in non-decreasing key order.
   */
  function Select(n: nat, p: nat -> bool, key: nat -> int): (r: seq<nat>)
    ensures forall i: nat :: i in r <==> i < n && p(i)
    ensures forall k :: 0 <= k < |r| ==> r[k] < n && p(r[k])
    ensures SortedBy(r, key)
    ensures Distinct(r)
  {
    var rows := Filter(n, p);
    var r := SortBy(rows, key);
    SortByIsSorted(rows, key);
    FilterIncreasing(n, p);
    IncreasingIsDistinct(rows);
    SortByKeepsDistinct(rows, key);
    forall i: nat ensures i in r <==> i in rows {
      SortByMembers(rows, key, i);
    }
    assert forall k :: 0 <= k < |r| ==> r[k] in r;
    r
  }

  /** The first id `i < n` satisfying `p`, if any. */
  function First(n: nat, p: nat -> bool): (r: Option<nat>)
    ensures r.None? <==> forall i: nat :: i < n ==> !p(i)
    ensures r.Some? ==> r.value < n && p(r.value) && forall i: nat :: i < r.value ==> !p(i)
  {
    var hits := Filter(n, p);
    FilterIncreasing(n, p);
    if hits == [] then None
    else
      assert hits[0] in hits;
      assert forall i: nat :: i < hits[0] ==> i !in hits by {
        forall i: nat | i in hits
          ensures hits[0] <= i
        {
          var k :| 0 <= k < |hits| && hits[k] == i;
          assert k == 0 || hits[0] < hits[k];
        }
      }
      Some(hits[0])
  }

  // ----- Sums over ids -----

  /** `f` summed over the ids of `s`, last id added last. */
  function Sum(s: seq<nat>, f: nat -> int): int {
    if s == [] then 0 else Sum(s[..|s| - 1], f) + f(s[|s| - 1])
  }

  /** `f` summed over the ids `0 <= i < n` for which `p` holds. */
  function SumWhere(n: nat, p: nat -> bool, f: nat -> int): int {
    if n == 0 then 0 else SumWhere(n - 1, p, f) + (if p(n - 1) then f(n - 1) else 0)
  }

  lemma {:induction false} SumAppend(a: seq<nat>, b: seq<nat>, f: nat -> int)
    ensures Sum(a + b, f) == Sum(a, f) + Sum(b, f)
    decreases |b|
  {
    if b != [] {
      var b' := b[..|b| - 1];
      assert (a + b)[..|a + b| - 1] == a + b';
      SumAppend(a, b', f);
    } else {
      assert a + b == a;
    }
  }

  lemma SumSnoc(s: seq<nat>, x: nat, f: nat -> int)
    ensures Sum(s + [x], f) == Sum(s, f) + f(x)
  {
    assert (s + [x])[..|s|] == s;
  }

  /** The sum does not depend on the order of the ids. */
  lemma {:induction false} SumPermutation(a: seq<nat>, b: seq<nat>, f: nat -> int)
    requires multiset(a) == multiset(b)
    ensures Sum(a, f) == Sum(b, f)
    decreases |a|
  {
    if a == [] {
      assert |b| == |multiset(b)| == 0;
    } else {
      var a' := a[..|a| - 1];
      var x := a[|a| - 1];
      assert a == a' + [x];
      assert x in multiset(b);
      var i :| 0 <= i < |b| && b[i] == x;
      var b' := b[..i] + b[i + 1..];
      RemoveAt(b, i);
      assert multiset(a') == multiset(a) - multiset{x};
      SumPermutation(a', b', f);
      SumRemoveAt(b, i, f);
    }
  }

  lemma RemoveAt(b: seq<nat>, i: nat)
    requires i < |b|
    ensures multiset(b[..i] + b[i + 1..]) == multiset(b) - multiset{b[i]}
  {
    assert b == b[..i] + [b[i]] + b[i + 1..];
  }

  lemma SumRemoveAt(b: seq<nat>, i: nat, f: nat -> int)
    requires i < |b|
    ensures Sum(b, f) == Sum(b[..i] + b[i + 1..], f) + f(b[i])
  {
    var x := b[i];
    assert b == b[..i] + [x] + b[i + 1..];
    SumAppend(b[..i] + [x], b[i + 1..], f);
    SumAppend(b[..i], [x], f);
    SumAppend(b[..i], b[i + 1..], f);
    assert [x][..0] == [];
  }

  lemma {:induction false} SumOfFilter(n: nat, p: nat -> bool, f: nat -> int)
    ensures Sum(Filter(n, p), f) == SumWhere(n, p, f)
  {
    if n > 0 {
      SumOfFilter(n - 1, p, f);
      FilterStep(n, p);
      SumStep(Filter(n - 1, p), Filter(n, p), n - 1, p(n - 1), f);
    }
  }

  lemma SumStep(front: seq<nat>, r: seq<nat>, x: nat, keep: bool, f: nat -> int)
    requires r == if keep then front + [x] else front
    ensures Sum(r, f) == Sum(front, f) + (if keep then f(x) else 0)
  {
    if keep {
      SumSnoc(front, x, f);
    }
  }

  lemma FilterStep(n: nat, p: nat -> bool)
    requires n > 0
    ensures Filter(n, p) == if p(n - 1) then Filter(n - 1, p) + [n - 1] else Filter(n - 1, p)
  {
  }

  /** Ordering the selected rows does not change their sum. */
  lemma SumOfSelect(n: nat, p: nat -> bool, key: nat -> int, f: nat -> int)
    ensures Sum(Select(n, p, key), f) == SumWhere(n, p, f)
  {
    SumPermutation(SortBy(Filter(n, p), key), Filter(n, p), f);
    SumOfFilter(n, p, f);
  }

  /** Counting two predicates that never hold together adds up. */
  lemma {:induction false} CountDisjoint(n: nat, p: nat -> bool, p': nat -> bool, either: nat -> bool)
    requires forall i: nat :: i < n ==> !(p(i) && p'(i)) && (either(i) == (p(i) || p'(i)))
    ensures Count(n, either) == Count(n, p) + Count(n, p')
  {
    if n > 0 {
      CountDisjoint(n - 1, p, p', either);
    }
  }

  /** A sum over ids whose every term is non-negative is non-negative. */
  lemma {:induction false} SumWhereNonNegative(n: nat, p: nat -> bool, f: nat -> int)
    requires forall i: nat :: i < n && p(i) ==> f(i) >= 0
    ensures SumWhere(n, p, f) >= 0
  {
    if n > 0 {
      SumWhereNonNegative(n - 1, p, f);
    }
  }

  /** A sum over ids none of which qualifies is zero. */
  lemma {:induction false} SumWhereNone(n: nat, p: nat -> bool, f: nat -> int)
    requires forall i: nat :: i < n ==> !p(i)
    ensures SumWhere(n, p, f) == 0
  {
    if n > 0 {
      SumWhereNone(n - 1, p, f);
    }
  }
}
