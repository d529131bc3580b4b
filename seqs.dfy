/** List operations of the utility library the source uses: `uniq` (first
    occurrence wins), keyed filtering and `groupBy` (groups in first-seen
    order of their key). */
module Seqs {

  predicate NoDup<T(==,!new)>(s: seq<T>)
  {
    forall i, j :: 0 <= i < j < |s| ==> s[i] != s[j]
  }

  /** Appending a new element keeps a list duplicate-free. */
  lemma NoDupSnoc<T(!new)>(s: seq<T>, x: T)
    requires NoDup(s) && x !in s
    ensures NoDup(s + [x])
  {
    forall i, j | 0 <= i < j < |s| + 1 ensures (s + [x])[i] != (s + [x])[j] {
      if j == |s| {
        assert (s + [x])[i] == s[i];
      }
    }
  }

  /** Position of the first occurrence of x. */
  function FirstIndex<T(==,!new)>(s: seq<T>, x: T): (i: nat)
    requires x in s
    ensures i < |s| && s[i] == x && x !in s[..i]
  {
    if s[0] == x then 0 else assert s == [s[0]] + s[1..]; 1 + FirstIndex(s[1..], x)
  }

  lemma FirstIndexUnique<T(!new)>(s: seq<T>, x: T, k: nat)
    requires k < |s| && s[k] == x && x !in s[..k]
    ensures FirstIndex(s, x) == k
  {
  }

  lemma FirstIndexOfPrefix<T(!new)>(p: seq<T>, y: T, x: T)
    requires x in p
    ensures x in p + [y] && FirstIndex(p + [y], x) == FirstIndex(p, x)
  {
    var k := FirstIndex(p, x);
    assert (p + [y])[..k] == p[..k];
    FirstIndexUnique(p + [y], x, k);
  }

  /** `uniq(s)`: every value once, at the place of its first occurrence. */
  function Uniq<T(==,!new)>(s: seq<T>): (u: seq<T>)
    ensures NoDup(u)
    ensures forall x :: x in u <==> x in s
    decreases |s|
  {
    if s == [] then []
    else
      var u := Uniq(s[..|s| - 1]);
      assert s == s[..|s| - 1] + [s[|s| - 1]];
      if s[|s| - 1] in u then u else u + [s[|s| - 1]]
  }

  /** The values of `uniq(s)` come in the order of their first occurrence in s. */
  lemma {:induction false} UniqFirstSeenOrder<T(!new)>(s: seq<T>, i: nat, j: nat)
    requires i < j < |Uniq(s)|
    ensures Uniq(s)[i] in s && Uniq(s)[j] in s
    ensures FirstIndex(s, Uniq(s)[i]) < FirstIndex(s, Uniq(s)[j])
    decreases |s|
  {
    var n := |s|;
    var p, y := s[..n - 1], s[n - 1];
    assert s == p + [y];
    var u := Uniq(p);
    var x1, x2 := Uniq(s)[i], Uniq(s)[j];
    if j < |u| {
      UniqFirstSeenOrder(p, i, j);
      FirstIndexOfPrefix(p, y, x1);
      FirstIndexOfPrefix(p, y, x2);
    } else {
      assert x2 == y && y !in p;
      FirstIndexOfPrefix(p, y, x1);
      assert s[..n - 1] == p;
      FirstIndexUnique(s, y, n - 1);
    }
  }

  /** A value occurring once per list position does not lose anything to `uniq`. */
  lemma {:induction false} UniqOfNoDup<T(!new)>(s: seq<T>)
    requires NoDup(s)
    ensures Uniq(s) == s
    decreases |s|
  {
    if s != [] {
      UniqOfNoDup(s[..|s| - 1]);
      assert s == s[..|s| - 1] + [s[|s| - 1]];
    }
  }

  /** `s.map(f)`. */
  function MapSeq<T, U>(s: seq<T>, f: T -> U): (r: seq<U>)
    ensures |r| == |s|
    ensures forall i :: 0 <= i < |s| ==> r[i] == f(s[i])
  {
    seq(|s|, i requires 0 <= i < |s| => f(s[i]))
  }

  /** `s.filter(p)`. */
  function Filter<T>(s: seq<T>, p: T -> bool): (r: seq<T>)
    ensures |r| <= |s|
  {
    if s == [] then [] else (if p(s[0]) then [s[0]] else []) + Filter(s[1..], p)
  }

  lemma {:induction false} FilterMembers<T(!new)>(s: seq<T>, p: T -> bool)
    ensures forall x :: x in Filter(s, p) <==> x in s && p(x)
  {
    if s != [] {
      FilterMembers(s[1..], p);
      assert s == [s[0]] + s[1..];
    }
  }

  lemma {:induction false} FilterNoDup<T(!new)>(s: seq<T>, p: T -> bool)
    requires NoDup(s)
    ensures NoDup(Filter(s, p))
  {
    if s != [] {
      assert NoDup(s[1..]) by {
        forall i, j | 0 <= i < j < |s| - 1 ensures s[1..][i] != s[1..][j] {
          assert s[1..][i] == s[i + 1] && s[1..][j] == s[j + 1];
        }
      }
      FilterNoDup(s[1..], p);
      FilterMembers(s[1..], p);
      assert s[0] !in s[1..] by {
        forall j | 0 <= j < |s| - 1 ensures s[1..][j] != s[0] {
          assert s[1..][j] == s[j + 1];
        }
      }
    }
  }

  /** `s.filter(x => key(x) === k)`. */
  function Having<T(==,!new), K(==,!new)>(s: seq<T>, key: T -> K, k: K): (r: seq<T>)
    ensures |r| <= |s|
  {
    if s == [] then [] else (if key(s[0]) == k then [s[0]] else []) + Having(s[1..], key, k)
  }

  /** The filtered list holds exactly the elements of s with key k. */
  lemma {:induction false} HavingMembers<T(!new), K(!new)>(s: seq<T>, key: T -> K, k: K)
    ensures forall x :: x in Having(s, key, k) <==> x in s && key(x) == k
  {
    if s != [] {
      HavingMembers(s[1..], key, k);
      assert s == [s[0]] + s[1..];
    }
  }

  lemma {:induction false} HavingAppend<T(!new), K(!new)>(a: seq<T>, b: seq<T>, key: T -> K, k: K)
    ensures Having(a + b, key, k) == Having(a, key, k) + Having(b, key, k)
  {
    if a == [] {
      assert a + b == b;
    } else {
      var h := if key(a[0]) == k then [a[0]] else [];
      assert (a + b)[0] == a[0];
      assert (a + b)[1..] == a[1..] + b;
      HavingAppend(a[1..], b, key, k);
      calc {
        Having(a + b, key, k);
        h + Having(a[1..] + b, key, k);
        h + (Having(a[1..], key, k) + Having(b, key, k));
        (h + Having(a[1..], key, k)) + Having(b, key, k);
      }
    }
  }

  /** The keys of `groupBy(s, key)`, in first-seen order. */
  function GroupKeys<T(!new), K(==,!new)>(s: seq<T>, key: T -> K): (ks: seq<K>)
    ensures NoDup(ks)
    ensures forall k :: k in ks <==> exists x :: x in s && key(x) == k
  {
    var ks := Uniq(MapSeq(s, key));
    assert forall k :: k in MapSeq(s, key) <==> exists x :: x in s && key(x) == k by {
      forall k | k in MapSeq(s, key) ensures exists x :: x in s && key(x) == k {
        var i :| 0 <= i < |s| && MapSeq(s, key)[i] == k;
        assert s[i] in s;
      }
      forall k | exists x :: x in s && key(x) == k ensures k in MapSeq(s, key) {
        var x :| x in s && key(x) == k;
        var i :| 0 <= i < |s| && s[i] == x;
        assert MapSeq(s, key)[i] == k;
      }
    }
    ks
  }

  /** `values(groupBy(s, key))`: one group per key, in first-seen key order, each
      group keeping the order of s. */
  function GroupBy<T(==,!new), K(==,!new)>(s: seq<T>, key: T -> K): (gs: seq<seq<T>>)
    ensures |gs| == |GroupKeys(s, key)|
  {
    var ks := GroupKeys(s, key);
    seq(|ks|, i requires 0 <= i < |ks| => Having(s, key, ks[i]))
  }

  /** Every group is non-empty, holds exactly the elements with its key, and the
      keys of different groups differ. */
  lemma GroupByPartitions<T(!new), K(!new)>(s: seq<T>, key: T -> K, i: nat)
    requires i < |GroupBy(s, key)|
    ensures GroupBy(s, key)[i] == Having(s, key, GroupKeys(s, key)[i])
    ensures |GroupBy(s, key)[i]| > 0
    ensures forall x :: x in GroupBy(s, key)[i] <==> x in s && key(x) == GroupKeys(s, key)[i]
  {
    var k := GroupKeys(s, key)[i];
    HavingMembers(s, key, k);
    assert k in GroupKeys(s, key);
    var x :| x in s && key(x) == k;
    assert x in GroupBy(s, key)[i];
  }
}
