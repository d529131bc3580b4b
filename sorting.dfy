/** The stable sort the source calls: `Array.prototype.sort` with a comparator
    (stable since ES2019), modelled as a stable insertion sort by a key under a
    total preorder. Sorted, a permutation and stable together determine the
    result, so any stable sort of the same comparator gives the same list. */
module Sorting {
  import opened Seqs

  ghost predicate TotalPreorder<K(!new)>(le: (K, K) -> bool)
  {
    && (forall a, b :: le(a, b) || le(b, a))
    && (forall a, b, c :: le(a, b) && le(b, c) ==> le(a, c))
  }

  ghost predicate SortedBy<T, K>(s: seq<T>, key: T -> K, le: (K, K) -> bool)
  {
    forall i, j :: 0 <= i < j < |s| ==> le(key(s[i]), key(s[j]))
  }

  /** Inserts x before the first element whose key is not below x's key. */
  function InsertBy<T(==), K>(x: T, s: seq<T>, key: T -> K, le: (K, K) -> bool): (r: seq<T>)
    ensures |r| == |s| + 1
  {
    if s == [] || le(key(x), key(s[0])) then [x] + s
    else [s[0]] + InsertBy(x, s[1..], key, le)
  }

  /** The sorted list. */
  function SortBy<T(==), K>(s: seq<T>, key: T -> K, le: (K, K) -> bool): (r: seq<T>)
    ensures |r| == |s|
  {
    if s == [] then [] else InsertBy(s[0], SortBy(s[1..], key, le), key, le)
  }

  /** Inserting adds x and keeps every element of s. */
  lemma {:induction false} InsertByPermutes<T(!new), K(!new)>(x: T, s: seq<T>, key: T -> K, le: (K, K) -> bool)
    ensures multiset(InsertBy(x, s, key, le)) == multiset(s) + multiset{x}
  {
    if s != [] && !le(key(x), key(s[0])) {
      InsertByPermutes(x, s[1..], key, le);
      assert s == [s[0]] + s[1..];
    }
  }

  /** The sorted list is a permutation of s. */
  lemma {:induction false} SortByPermutes<T(!new), K(!new)>(s: seq<T>, key: T -> K, le: (K, K) -> bool)
    ensures multiset(SortBy(s, key, le)) == multiset(s)
  {
    if s != [] {
      SortByPermutes(s[1..], key, le);
      InsertByPermutes(s[0], SortBy(s[1..], key, le), key, le);
      assert s == [s[0]] + s[1..];
    }
  }

  lemma {:induction false} InsertBySorted<T(!new), K(!new)>(x: T, s: seq<T>, key: T -> K, le: (K, K) -> bool)
    requires TotalPreorder(le)
    requires SortedBy(s, key, le)
    ensures SortedBy(InsertBy(x, s, key, le), key, le)
  {
    if s != [] && !le(key(x), key(s[0])) {
      InsertBySorted(x, s[1..], key, le);
      InsertByPermutes(x, s[1..], key, le);
      var r := InsertBy(x, s[1..], key, le);
      assert le(key(s[0]), key(x));
      forall y | y in multiset(r) ensures le(key(s[0]), key(y)) {
        assert y in multiset(s[1..]) + multiset{x};
        if y != x {
          assert y in s[1..];
        }
      }
      forall i, j | 0 <= i < j < |[s[0]] + r| ensures le(key(([s[0]] + r)[i]), key(([s[0]] + r)[j])) {
        if i == 0 {
          assert r[j - 1] in multiset(r);
        }
      }
    }
  }

  /** The result is ordered by the key. */
  lemma {:induction false} SortBySorted<T(!new), K(!new)>(s: seq<T>, key: T -> K, le: (K, K) -> bool)
    requires TotalPreorder(le)
    ensures SortedBy(SortBy(s, key, le), key, le)
  {
    if s != [] {
      SortBySorted(s[1..], key, le);
      InsertBySorted(s[0], SortBy(s[1..], key, le), key, le);
    }
  }

  lemma HavingSingletonsCommute<T(!new), K(!new)>(a: T, b: T, key: T -> K, k: K)
    requires key(a) != key(b)
    ensures Having([a], key, k) + Having([b], key, k) == Having([b], key, k) + Having([a], key, k)
  {
    assert Having([a], key, k) == (if key(a) == k then [a] else []);
    assert Having([b], key, k) == (if key(b) == k then [b] else []);
  }

  lemma SwapFront<T>(a: seq<T>, b: seq<T>, rest: seq<T>)
    requires a + b == b + a
    ensures a + (b + rest) == b + (a + rest)
  {
    assert a + (b + rest) == (a + b) + rest;
    assert b + (a + rest) == (b + a) + rest;
  }

  lemma {:induction false} InsertByStable<T(!new), K(!new)>(x: T, s: seq<T>, key: T -> K, le: (K, K) -> bool, k: K)
    requires forall a :: le(a, a)
    ensures Having(InsertBy(x, s, key, le), key, k) == Having([x], key, k) + Having(s, key, k)
  {
    if s == [] || le(key(x), key(s[0])) {
      HavingAppend([x], s, key, k);
    } else {
      var r := InsertBy(x, s[1..], key, le);
      assert InsertBy(x, s, key, le) == [s[0]] + r;
      assert key(s[0]) != key(x) by { assert le(key(x), key(x)); }
      var hx, h0, rest := Having([x], key, k), Having([s[0]], key, k), Having(s[1..], key, k);
      HavingSingletonsCommute(s[0], x, key, k);
      InsertByStable(x, s[1..], key, le, k);
      HavingAppend([s[0]], r, key, k);
      HavingAppend([s[0]], s[1..], key, k);
      assert [s[0]] + s[1..] == s;
      SwapFront(h0, hx, rest);
    }
  }

  /** Elements with equal keys keep their relative order. */
  lemma {:induction false} SortByStable<T(!new), K(!new)>(s: seq<T>, key: T -> K, le: (K, K) -> bool, k: K)
    requires TotalPreorder(le)
    ensures Having(SortBy(s, key, le), key, k) == Having(s, key, k)
  {
    if s != [] {
      SortByStable(s[1..], key, le, k);
      InsertByStable(s[0], SortBy(s[1..], key, le), key, le, k);
      HavingAppend([s[0]], s[1..], key, k);
      assert [s[0]] + s[1..] == s;
    }
  }

  /** Sorting an already sorted list leaves it unchanged. */
  lemma {:induction false} SortBySortedIsIdentity<T(!new), K(!new)>(s: seq<T>, key: T -> K, le: (K, K) -> bool)
    requires SortedBy(s, key, le)
    ensures SortBy(s, key, le) == s
  {
    if s != [] {
      SortBySortedIsIdentity(s[1..], key, le);
      assert [s[0]] + s[1..] == s;
    }
  }

  /** Two duplicate-free lists, both ordered by a key that tells distinct
      elements apart, are equal as soon as they hold the same elements. */
  lemma {:induction false} SortedByUnique<T(!new), K(!new)>(a: seq<T>, b: seq<T>, key: T -> K, le: (K, K) -> bool)
    requires forall x, y :: le(key(x), key(y)) && le(key(y), key(x)) ==> x == y
    requires SortedBy(a, key, le) && SortedBy(b, key, le)
    requires NoDup(a) && NoDup(b)
    requires forall x :: x in a <==> x in b
    ensures a == b
  {
    if a != [] {
      assert a[0] in a;
      assert b != [];
      assert b[0] in b;
      var k :| 0 <= k < |b| && b[k] == a[0];
      var m :| 0 <= m < |a| && a[m] == b[0];
      assert a[0] == b[0];
      forall x | x in a[1..] ensures x in b[1..] {
        var i :| 0 <= i < |a| - 1 && a[1..][i] == x;
        assert a[i + 1] == x && x != a[0] && x in a;
        assert x in b;
        var j :| 0 <= j < |b| && b[j] == x;
        assert j != 0 && b[1..][j - 1] == x;
      }
      forall x | x in b[1..] ensures x in a[1..] {
        var i :| 0 <= i < |b| - 1 && b[1..][i] == x;
        assert b[i + 1] == x && x != b[0] && x in b;
        assert x in a;
        var j :| 0 <= j < |a| && a[j] == x;
        assert j != 0 && a[1..][j - 1] == x;
      }
      assert NoDup(a[1..]) by {
        forall i, j | 0 <= i < j < |a| - 1 ensures a[1..][i] != a[1..][j] {
          assert a[1..][i] == a[i + 1] && a[1..][j] == a[j + 1];
        }
      }
      assert NoDup(b[1..]) by {
        forall i, j | 0 <= i < j < |b| - 1 ensures b[1..][i] != b[1..][j] {
          assert b[1..][i] == b[i + 1] && b[1..][j] == b[j + 1];
        }
      }
      SortedByUnique(a[1..], b[1..], key, le);
      assert a == [a[0]] + a[1..] && b == [b[0]] + b[1..];
    }
  }
}
