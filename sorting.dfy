/**
 * Sorting by a caller-given order. The pipeline sorts three times through library
 * calls whose order among equal keys is not specified (`sort_values` on the date,
 * `np.argsort` on the amplitudes, `sort_values` on (end date, type)); each is
 * modelled by this insertion sort, and only "sorted and a permutation" is claimed.
 */
module Sorting {

  /** `le` is a total preorder: any two values compare, and comparison chains. */
  ghost predicate TotalPreorder<T(!new)>(le: (T, T) -> bool)
  {
    && (forall a, b :: le(a, b) || le(b, a))
    && (forall a, b, c :: le(a, b) && le(b, c) ==> le(a, c))
  }

  /** Every earlier element is at most every later one. */
  predicate Sorted<T>(s: seq<T>, le: (T, T) -> bool)
  {
    forall i, j :: 0 <= i < j < |s| ==> le(s[i], s[j])
  }

  /** Inserts `x` before the first element it is at most. */
  function Insert<T>(x: T, s: seq<T>, le: (T, T) -> bool): (r: seq<T>)
    ensures |r| == |s| + 1
    ensures multiset(r) == multiset(s) + multiset{x}
  {
    if |s| == 0 then [x]
    else if le(x, s[0]) then [x] + s
    else
      assert s == [s[0]] + s[1..];
      [s[0]] + Insert(x, s[1..], le)
  }

  /** Insertion sort: the returned sequence is a permutation of `s`. */
  function SortBy<T>(s: seq<T>, le: (T, T) -> bool): (r: seq<T>)
    ensures |r| == |s|
    ensures multiset(r) == multiset(s)
  {
    if |s| == 0 then []
    else
      assert s == [s[0]] + s[1..];
      Insert(s[0], SortBy(s[1..], le), le)
  }

  /** Prepending a value that is at most every element keeps a sequence sorted. */
  lemma ConsSorted<T>(y: T, t: seq<T>, le: (T, T) -> bool)
    requires Sorted(t, le) && forall k :: 0 <= k < |t| ==> le(y, t[k])
    ensures Sorted([y] + t, le)
  {
    var r := [y] + t;
    forall i, j | 0 <= i < j < |r|
      ensures le(r[i], r[j])
    {
      assert r[j] == t[j - 1];
      if i > 0 {
        assert r[i] == t[i - 1];
      }
    }
  }

  /** Every element of `Insert(x, s, le)` is `x` or an element of `s`. */
  lemma InsertFrom<T>(x: T, s: seq<T>, le: (T, T) -> bool, k: int)
    requires 0 <= k < |Insert(x, s, le)|
    ensures Insert(x, s, le)[k] == x || Insert(x, s, le)[k] in s
  {
    var r := Insert(x, s, le);
    assert r[k] in multiset(r);
  }

  lemma {:induction false} InsertSorted<T(!new)>(x: T, s: seq<T>, le: (T, T) -> bool)
    requires TotalPreorder(le) && Sorted(s, le)
    ensures Sorted(Insert(x, s, le), le)
  {
    if |s| > 0 && le(x, s[0]) {
      assert forall k :: 0 <= k < |s| ==> le(s[0], s[k]) || k == 0;
      ConsSorted(x, s, le);
    } else if |s| > 0 {
      var t := Insert(x, s[1..], le);
      InsertSorted(x, s[1..], le);
      forall k | 0 <= k < |t|
        ensures le(s[0], t[k])
      {
        InsertFrom(x, s[1..], le, k);
        if t[k] != x {
          var m :| 0 <= m < |s[1..]| && s[1..][m] == t[k];
          assert s[m + 1] == t[k];
        }
      }
      ConsSorted(s[0], t, le);
    }
  }

  /** The result of `SortBy` is sorted whenever `le` is a total preorder. */
  lemma {:induction false} SortBySorted<T(!new)>(s: seq<T>, le: (T, T) -> bool)
    requires TotalPreorder(le)
    ensures Sorted(SortBy(s, le), le)
  {
    if |s| > 0 {
      SortBySorted(s[1..], le);
      InsertSorted(s[0], SortBy(s[1..], le), le);
    }
  }

  /** Two positions holding the same value make its multiplicity at least two. */
  lemma RepeatedValue<T>(s: seq<T>, a: int, b: int)
    requires 0 <= a < b < |s| && s[a] == s[b]
    ensures multiset(s)[s[a]] >= 2
  {
    assert s == s[..b] + [s[b]] + s[b + 1..];
    assert s[a] in s[..b];
    assert multiset(s) == multiset(s[..b]) + multiset{s[b]} + multiset(s[b + 1..]);
  }

  /** A permutation of a sequence without repeats has no repeats. */
  lemma DistinctOfPermutation<T>(s: seq<T>, t: seq<T>)
    requires multiset(s) == multiset(t)
    requires forall i, j :: 0 <= i < j < |t| ==> t[i] != t[j]
    ensures forall i, j :: 0 <= i < j < |s| ==> s[i] != s[j]
  {
    forall i, j | 0 <= i < j < |s|
      ensures s[i] != s[j]
    {
      if s[i] == s[j] {
        RepeatedValue(s, i, j);
        AtMostOnce(t, s[i]);
        assert false;
      }
    }
  }

  /** In a sequence without repeats every value occurs at most once. */
  lemma {:induction false} AtMostOnce<T>(t: seq<T>, x: T)
    requires forall i, j :: 0 <= i < j < |t| ==> t[i] != t[j]
    ensures multiset(t)[x] <= 1
  {
    if |t| > 0 {
      assert t == [t[0]] + t[1..];
      AtMostOnce(t[1..], x);
      if t[0] == x {
        assert x !in t[1..] by {
          forall m | 0 <= m < |t[1..]|
            ensures t[1..][m] != x
          {
            assert t[1..][m] == t[m + 1];
          }
        }
      }
    }
  }

  /** Python's `str` order: lexicographic by code point, a proper prefix first. */
  predicate StrLe(a: string, b: string)
    decreases |a|
  {
    |a| == 0 || (|b| > 0 && (a[0] < b[0] || (a[0] == b[0] && StrLe(a[1..], b[1..]))))
  }

  lemma {:induction false} StrLeTotal(a: string, b: string)
    ensures StrLe(a, b) || StrLe(b, a)
    decreases |a|
  {
    if |a| > 0 && |b| > 0 && a[0] == b[0] {
      StrLeTotal(a[1..], b[1..]);
    }
  }

  lemma {:induction false} StrLeTransitive(a: string, b: string, c: string)
    requires StrLe(a, b) && StrLe(b, c)
    ensures StrLe(a, c)
    decreases |a|
  {
    if |a| > 0 && a[0] == b[0] && b[0] == c[0] {
      StrLeTransitive(a[1..], b[1..], c[1..]);
    }
  }

  /** Only equal strings compare both ways. */
  lemma {:induction false} StrLeAntisymmetric(a: string, b: string)
    requires StrLe(a, b) && StrLe(b, a)
    ensures a == b
    decreases |a|
  {
    if |a| > 0 {
      StrLeAntisymmetric(a[1..], b[1..]);
      assert a == [a[0]] + a[1..] && b == [b[0]] + b[1..];
    }
  }
}
