/**
 * The array operations the views apply to their lists: `filter`, the
 * first-occurrence de-duplication of `Array.from(new Set(xs))`, and a stable
 * comparator sort (`[...xs].sort(cmp)`), with the facts about them that the
 * views rely on.
 */
module Lists {

  /** `s.filter(p)`: the elements that pass `p`, in their original order. */
  function Filter<T(!new)>(s: seq<T>, p: T -> bool): (r: seq<T>)
    ensures |r| <= |s|
    ensures forall x :: x in r <==> x in s && p(x)
    ensures forall i :: 0 <= i < |r| ==> p(r[i])
  {
    if |s| == 0 then []
    else if p(s[0]) then [s[0]] + Filter(s[1..], p)
    else Filter(s[1..], p)
  }

  /** `a` is obtained from `b` by deleting elements, without reordering the rest. */
  ghost predicate IsSubsequence<T>(a: seq<T>, b: seq<T>)
    decreases |b|
  {
    || |a| == 0
    || (|b| > 0 && ((a[0] == b[0] && IsSubsequence(a[1..], b[1..])) || IsSubsequence(a, b[1..])))
  }

  /** Filtering keeps the survivors in their original relative order. */
  lemma {:induction false} FilterIsSubsequence<T(!new)>(s: seq<T>, p: T -> bool)
    ensures IsSubsequence(Filter(s, p), s)
  {
    if |s| > 0 {
      FilterIsSubsequence(s[1..], p);
      var r := Filter(s, p);
      if p(s[0]) {
        assert r[0] == s[0] && r[1..] == Filter(s[1..], p);
      }
    }
  }

  /** Filtering with everything passing changes nothing. */
  lemma {:induction false} FilterAll<T(!new)>(s: seq<T>, p: T -> bool)
    requires forall x :: x in s ==> p(x)
    ensures Filter(s, p) == s
  {
    if |s| > 0 {
      FilterAll(s[1..], p);
      assert s == [s[0]] + s[1..];
    }
  }

  /** Filtering twice is filtering once by the conjunction. */
  lemma {:induction false} FilterFilter<T(!new)>(s: seq<T>, p: T -> bool, q: T -> bool, both: T -> bool)
    requires forall x :: both(x) <==> p(x) && q(x)
    ensures Filter(Filter(s, p), q) == Filter(s, both)
  {
    if |s| > 0 {
      FilterFilter(s[1..], p, q, both);
      if p(s[0]) {
        assert Filter(s, p) == [s[0]] + Filter(s[1..], p);
      }
    }
  }

  /** Filters with the same verdict on every element give the same list. */
  lemma {:induction false} FilterExtensional<T(!new)>(s: seq<T>, p: T -> bool, q: T -> bool)
    requires forall x :: x in s ==> (p(x) <==> q(x))
    ensures Filter(s, p) == Filter(s, q)
  {
    if |s| > 0 {
      FilterExtensional(s[1..], p, q);
    }
  }

  /** How many elements pass the filter, counted with multiplicity. */
  lemma {:induction false} FilterMultiset<T(!new)>(s: seq<T>, p: T -> bool, x: T)
    ensures multiset(Filter(s, p))[x] == if p(x) then multiset(s)[x] else 0
  {
    if |s| > 0 {
      FilterMultiset(s[1..], p, x);
      assert s == [s[0]] + s[1..];
      assert multiset(s) == multiset{s[0]} + multiset(s[1..]);
      if p(s[0]) {
        assert Filter(s, p) == [s[0]] + Filter(s[1..], p);
        assert multiset(Filter(s, p)) == multiset{s[0]} + multiset(Filter(s[1..], p));
      } else {
        assert Filter(s, p) == Filter(s[1..], p);
      }
    }
  }

  /** Nothing passes, nothing is kept. */
  lemma {:induction false} FilterNone<T(!new)>(s: seq<T>, p: T -> bool)
    requires forall x :: x in s ==> !p(x)
    ensures Filter(s, p) == []
  {
    if |s| > 0 {
      assert s[0] in s;
      FilterNone(s[1..], p);
    }
  }

  /** Filtering a list with one more element at the end. */
  lemma {:induction false} FilterAppend<T(!new)>(s: seq<T>, x: T, p: T -> bool)
    ensures Filter(s + [x], p) == Filter(s, p) + (if p(x) then [x] else [])
  {
    if |s| > 0 {
      FilterAppend(s[1..], x, p);
      assert (s + [x])[1..] == s[1..] + [x];
    }
  }

  /** `s.map(f)`. */
  function Map<T(!new), U>(s: seq<T>, f: T -> U): (r: seq<U>)
    ensures |r| == |s|
    ensures forall k :: 0 <= k < |s| ==> r[k] == f(s[k])
  {
    if |s| == 0 then [] else [f(s[0])] + Map(s[1..], f)
  }

  /** Mapping a concatenation maps each part. */
  lemma MapConcat<T(!new), U>(a: seq<T>, b: seq<T>, f: T -> U)
    ensures Map(a + b, f) == Map(a, f) + Map(b, f)
  {
    var l := Map(a + b, f);
    var ma := Map(a, f);
    var mb := Map(b, f);
    assert |l| == |ma + mb|;
    forall k | 0 <= k < |l|
      ensures l[k] == (ma + mb)[k]
    {
      if k < |a| {
        MapAt(a + b, f, k);
        MapAt(a, f, k);
      } else {
        MapAt(a + b, f, k);
        MapAt(b, f, k - |a|);
      }
    }
  }

  /** The `k`-th mapped element. */
  lemma MapAt<T(!new), U>(s: seq<T>, f: T -> U, k: int)
    requires 0 <= k < |s|
    ensures Map(s, f)[k] == f(s[k])
  {
  }

  predicate NoDuplicates<T(==)>(s: seq<T>) {
    forall i, j :: 0 <= i < j < |s| ==> s[i] != s[j]
  }

  /** Filtering a list without duplicates keeps it without duplicates. */
  lemma {:induction false} FilterNoDuplicates<T(!new)>(s: seq<T>, p: T -> bool)
    requires NoDuplicates(s)
    ensures NoDuplicates(Filter(s, p))
  {
    if |s| > 0 {
      assert NoDuplicates(s[1..]) by {
        forall i, j | 0 <= i < j < |s[1..]|
          ensures s[1..][i] != s[1..][j]
        {
          assert s[1..][i] == s[i + 1] && s[1..][j] == s[j + 1];
        }
      }
      FilterNoDuplicates(s[1..], p);
      var rest := Filter(s[1..], p);
      if p(s[0]) {
        assert s[0] !in s[1..];
        var r := [s[0]] + rest;
        forall i, j | 0 <= i < j < |r|
          ensures r[i] != r[j]
        {
          if i == 0 {
            assert r[j] in rest;
          } else {
            assert r[i] == rest[i - 1] && r[j] == rest[j - 1];
          }
        }
      }
    }
  }

  /** In a list without duplicates every value it holds occurs once. */
  lemma {:induction false} NoDuplicatesCount<T>(s: seq<T>, x: T)
    requires NoDuplicates(s)
    requires x in s
    ensures multiset(s)[x] == 1
  {
    assert s == [s[0]] + s[1..];
    assert NoDuplicates(s[1..]) by {
      forall i, j | 0 <= i < j < |s[1..]|
        ensures s[1..][i] != s[1..][j]
      {
        assert s[1..][i] == s[i + 1] && s[1..][j] == s[j + 1];
      }
    }
    if x == s[0] {
      forall k | 0 <= k < |s[1..]|
        ensures s[1..][k] != x
      {
        assert s[1..][k] == s[k + 1];
      }
      assert x !in s[1..];
    } else {
      NoDuplicatesCount(s[1..], x);
    }
  }

  /** Two lists holding the same values, with multiplicity, hold the same values. */
  lemma SameElements<T>(a: seq<T>, b: seq<T>)
    requires multiset(a) == multiset(b)
    ensures forall x :: x in a <==> x in b
  {
    forall x
      ensures x in a <==> x in b
    {
      assert x in a <==> x in multiset(a);
      assert x in b <==> x in multiset(b);
    }
  }

  /** `Array.from(new Set(s))`: each value once, at the place it first occurs. */
  function Distinct<T(==,!new)>(s: seq<T>): (r: seq<T>)
    ensures forall x :: x in r <==> x in s
    ensures NoDuplicates(r)
  {
    if |s| == 0 then []
    else
      var d := Distinct(s[..|s| - 1]);
      assert forall x :: x in s <==> x in s[..|s| - 1] || x == s[|s| - 1];
      if s[|s| - 1] in d then d else d + [s[|s| - 1]]
  }

  // ----- sorting -----

  /** `cmp` does not put `a` after `b`. */
  predicate NotAfter<T>(cmp: (T, T) -> int, a: T, b: T) {
    cmp(a, b) <= 0
  }

  /**
   * A comparator in the sense of `Array.prototype.sort`: any two values are
   * comparable, and "not after" is transitive.
   */
  ghost predicate TotalPreorder<T(!new)>(cmp: (T, T) -> int) {
    && (forall a, b :: NotAfter(cmp, a, b) || NotAfter(cmp, b, a))
    && (forall a, b, c {:trigger NotAfter(cmp, a, b), NotAfter(cmp, b, c)}
          :: NotAfter(cmp, a, b) && NotAfter(cmp, b, c) ==> cmp(a, c) <= 0)
  }

  predicate SortedBy<T>(s: seq<T>, cmp: (T, T) -> int) {
    forall i, j :: 0 <= i < j < |s| ==> cmp(s[i], s[j]) <= 0
  }

  /** Inserts `x` in front of the first element it does not come after. */
  function InsertBy<T>(x: T, s: seq<T>, cmp: (T, T) -> int): (r: seq<T>)
    ensures multiset(r) == multiset(s) + multiset{x}
    ensures |r| == |s| + 1
  {
    if |s| == 0 then [x]
    else if cmp(x, s[0]) <= 0 then [x] + s
    else
      assert s == [s[0]] + s[1..];
      [s[0]] + InsertBy(x, s[1..], cmp)
  }

  /** `[...s].sort(cmp)` as a stable insertion sort. */
  function SortBy<T>(s: seq<T>, cmp: (T, T) -> int): (r: seq<T>)
    ensures multiset(r) == multiset(s)
    ensures |r| == |s|
  {
    if |s| == 0 then []
    else
      assert s == [s[0]] + s[1..];
      InsertBy(s[0], SortBy(s[1..], cmp), cmp)
  }

  /** Placing `x` in front of a sorted list it does not come after keeps it sorted. */
  lemma InsertFrontSorted<T(!new)>(x: T, s: seq<T>, cmp: (T, T) -> int)
    requires TotalPreorder(cmp)
    requires SortedBy(s, cmp)
    requires |s| > 0 && cmp(x, s[0]) <= 0
    ensures SortedBy([x] + s, cmp)
  {
    var r := [x] + s;
    forall i, j | 0 <= i < j < |r|
      ensures cmp(r[i], r[j]) <= 0
    {
      if i == 0 && j > 1 {
        assert NotAfter(cmp, x, s[0]) && NotAfter(cmp, s[0], s[j - 1]);
      }
    }
  }

  /** Every element of a list is among the list it came from, or the one inserted. */
  lemma InsertByElements<T>(x: T, s: seq<T>, cmp: (T, T) -> int, y: T)
    requires y in InsertBy(x, s, cmp)
    ensures y == x || y in s
  {
    assert y in multiset(InsertBy(x, s, cmp));
  }

  lemma {:induction false} InsertBySorted<T(!new)>(x: T, s: seq<T>, cmp: (T, T) -> int)
    requires TotalPreorder(cmp)
    requires SortedBy(s, cmp)
    ensures SortedBy(InsertBy(x, s, cmp), cmp)
  {
    if |s| == 0 {
    } else if cmp(x, s[0]) <= 0 {
      InsertFrontSorted(x, s, cmp);
    } else {
      InsertBySorted(x, s[1..], cmp);
      var rest := InsertBy(x, s[1..], cmp);
      assert NotAfter(cmp, x, s[0]) || NotAfter(cmp, s[0], x);
      var r := [s[0]] + rest;
      forall i, j | 0 <= i < j < |r|
        ensures cmp(r[i], r[j]) <= 0
      {
        if i == 0 {
          InsertByElements(x, s[1..], cmp, rest[j - 1]);
        } else {
          assert r[i] == rest[i - 1] && r[j] == rest[j - 1];
        }
      }
    }
  }

  /** The sorted copy is in comparator order. */
  lemma {:induction false} SortBySorted<T(!new)>(s: seq<T>, cmp: (T, T) -> int)
    requires TotalPreorder(cmp)
    ensures SortedBy(SortBy(s, cmp), cmp)
  {
    if |s| > 0 {
      SortBySorted(s[1..], cmp);
      InsertBySorted(s[0], SortBy(s[1..], cmp), cmp);
    }
  }
}
