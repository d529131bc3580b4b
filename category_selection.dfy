/** Resolution of a category's `id` directive against the project's category
    menu: make it a list, expand the wildcard 0 to every known id, drop
    duplicates, cancel every id whose absolute value appears negated, keep the
    known ids, and sort them with the default (string) order of
    `Array.prototype.sort`. */
module CategorySelection {
  import opened Text
  import opened Seqs
  import opened Sorting
  import opened Config
  import opened Remote

  /** `castArray(categoryConfig.id)`. */
  function CastIds(d: IdDirective): seq<int>
  {
    match d
    case OneId(id) => [id]
    case Ids(ids) => ids
  }

  function CatId(c: CatMenuItem): int
  {
    c.id
  }

  function KnownIds(cats: seq<CatMenuItem>): seq<int>
  {
    MapSeq(cats, CatId)
  }

  /** Appends every known id when the list holds the wildcard 0. */
  function WithWildcard(ids: seq<int>, known: seq<int>): seq<int>
  {
    if 0 in ids then ids + known else ids
  }

  function Abs(x: int): int
  {
    if x < 0 then -x else x
  }

  predicate IsNegative(id: int)
  {
    id < 0
  }

  /** `ids.filter(id => id < 0).map(Math.abs)`. */
  function Excluded(ids: seq<int>): seq<int>
  {
    MapSeq(Filter(ids, IsNegative), Abs)
  }

  function NotExcludedBy(excluded: seq<int>): int -> bool
  {
    (id: int) => Abs(id) !in excluded
  }

  function KnownIn(known: seq<int>): int -> bool
  {
    (id: int) => id in known
  }

  /** `ids.sort()` without a comparator: ascending by decimal string. */
  function JsSortIds(ids: seq<int>): seq<int>
  {
    SortBy(ids, IntToString, StrLe)
  }

  /** The ids left once duplicates, cancelled ids and unknown ids are gone, in
      first-seen order. */
  function Candidates(d: IdDirective, cats: seq<CatMenuItem>): seq<int>
  {
    var known := KnownIds(cats);
    var unique := Uniq(WithWildcard(CastIds(d), known));
    Filter(Filter(unique, NotExcludedBy(Excluded(unique))), KnownIn(known))
  }

  /** The category ids one category configuration resolves to. */
  function SelectCategoryIds(d: IdDirective, cats: seq<CatMenuItem>): seq<int>
  {
    JsSortIds(Candidates(d, cats))
  }

  /** An id is cancelled when its negation, as a non-zero value, is among the ids. */
  predicate Cancelled(ids: seq<int>, x: int)
  {
    x != 0 && -Abs(x) in ids
  }

  lemma ExcludedMembers(ids: seq<int>, x: int)
    ensures Abs(x) in Excluded(ids) <==> Cancelled(ids, x)
  {
    var neg := Filter(ids, IsNegative);
    var e := Excluded(ids);
    FilterMembers(ids, IsNegative);
    if Abs(x) in e {
      var i :| 0 <= i < |e| && e[i] == Abs(x);
      assert e[i] == Abs(neg[i]);
      assert neg[i] in neg;
      assert neg[i] == -Abs(x);
    }
    if Cancelled(ids, x) {
      assert -Abs(x) in neg;
      var i :| 0 <= i < |neg| && neg[i] == -Abs(x);
      assert e[i] == Abs(neg[i]) == Abs(x);
    }
  }

  /** Sorting neither adds nor loses an id. */
  lemma JsSortIdsMembers(s: seq<int>)
    ensures forall x :: x in JsSortIds(s) <==> x in s
  {
    var r := JsSortIds(s);
    SortByPermutes(s, IntToString, StrLe);
    forall x ensures x in r <==> x in s {
      assert x in r <==> x in multiset(r);
      assert x in s <==> x in multiset(s);
    }
  }

  /** Membership: an id is selected exactly when it is known, it was asked for
      (directly or through the wildcard), and it is not cancelled, whatever the
      order of the positive and the negative entry. */
  lemma SelectCategoryIdsMembers(d: IdDirective, cats: seq<CatMenuItem>, x: int)
    ensures var asked := WithWildcard(CastIds(d), KnownIds(cats));
      x in SelectCategoryIds(d, cats) <==> x in KnownIds(cats) && x in asked && !Cancelled(asked, x)
  {
    var known := KnownIds(cats);
    var asked := WithWildcard(CastIds(d), known);
    var unique := Uniq(asked);
    var kept := Filter(unique, NotExcludedBy(Excluded(unique)));
    FilterMembers(unique, NotExcludedBy(Excluded(unique)));
    FilterMembers(kept, KnownIn(known));
    JsSortIdsMembers(Candidates(d, cats));
    ExcludedMembers(unique, x);
    assert Cancelled(unique, x) <==> Cancelled(asked, x);
  }

  /** The selection holds no negative id. */
  lemma SelectCategoryIdsNonNegative(d: IdDirective, cats: seq<CatMenuItem>, x: int)
    requires x in SelectCategoryIds(d, cats)
    ensures x >= 0
  {
    SelectCategoryIdsMembers(d, cats, x);
  }

  /** With the wildcard, every known id that is not cancelled is selected. */
  lemma SelectCategoryIdsWildcard(d: IdDirective, cats: seq<CatMenuItem>, x: int)
    requires 0 in CastIds(d)
    requires x in KnownIds(cats)
    ensures x in SelectCategoryIds(d, cats) <==> !Cancelled(CastIds(d) + KnownIds(cats), x)
  {
    SelectCategoryIdsMembers(d, cats, x);
  }

  lemma StrLeIsTotalPreorder()
    ensures TotalPreorder(StrLe)
  {
    forall a, b ensures StrLe(a, b) || StrLe(b, a) {
      StrLeTotal(a, b);
    }
    forall a, b, c | StrLe(a, b) && StrLe(b, c) ensures StrLe(a, c) {
      StrLeTransitive(a, b, c);
    }
  }

  /** Ids with the same decimal string are the same id. */
  lemma IntStringOrderAntisymmetric()
    ensures forall x: int, y: int :: StrLe(IntToString(x), IntToString(y)) && StrLe(IntToString(y), IntToString(x)) ==> x == y
  {
    forall x: int, y: int | StrLe(IntToString(x), IntToString(y)) && StrLe(IntToString(y), IntToString(x)) ensures x == y {
      StrLeAntisymmetric(IntToString(x), IntToString(y));
      IntToStringInjective(x, y);
    }
  }

  lemma {:induction false} NoDupMultiplicity(s: seq<int>)
    requires NoDup(s)
    ensures forall x :: multiset(s)[x] <= 1
  {
    if s != [] {
      assert NoDup(s[1..]) by {
        forall i, j | 0 <= i < j < |s| - 1 ensures s[1..][i] != s[1..][j] {
          assert s[1..][i] == s[i + 1] && s[1..][j] == s[j + 1];
        }
      }
      NoDupMultiplicity(s[1..]);
      assert s == [s[0]] + s[1..];
      assert s[0] !in s[1..] by {
        forall j | 0 <= j < |s| - 1 ensures s[1..][j] != s[0] {
          assert s[1..][j] == s[j + 1];
        }
      }
    }
  }

  lemma CandidatesNoDup(d: IdDirective, cats: seq<CatMenuItem>)
    ensures NoDup(Candidates(d, cats))
  {
    var known := KnownIds(cats);
    var unique := Uniq(WithWildcard(CastIds(d), known));
    FilterNoDup(unique, NotExcludedBy(Excluded(unique)));
    FilterNoDup(Filter(unique, NotExcludedBy(Excluded(unique))), KnownIn(known));
  }

  /** The selection has no duplicates and ascends in the string order of the
      ids' decimal forms. */
  lemma SelectCategoryIdsOrdered(d: IdDirective, cats: seq<CatMenuItem>)
    ensures NoDup(SelectCategoryIds(d, cats))
    ensures SortedBy(SelectCategoryIds(d, cats), IntToString, StrLe)
  {
    var chosen := Candidates(d, cats);
    var r := JsSortIds(chosen);
    CandidatesNoDup(d, cats);
    StrLeIsTotalPreorder();
    SortBySorted(chosen, IntToString, StrLe);
    SortByPermutes(chosen, IntToString, StrLe);
    NoDupMultiplicity(chosen);
    forall i, j | 0 <= i < j < |r| ensures r[i] != r[j] {
      assert r == r[..j] + r[j..];
      assert r[i] in r[..j] && r[j..][0] == r[j];
      assert multiset(r)[r[i]] == multiset(r[..j])[r[i]] + multiset(r[j..])[r[i]];
    }
  }

  /** The selection is the only duplicate-free, string-ordered list of the
      selected ids: any such list equals it. */
  lemma SelectCategoryIdsUnique(d: IdDirective, cats: seq<CatMenuItem>, r: seq<int>)
    requires NoDup(r) && SortedBy(r, IntToString, StrLe)
    requires forall x :: x in r <==> x in SelectCategoryIds(d, cats)
    ensures SelectCategoryIds(d, cats) == r
  {
    SelectCategoryIdsOrdered(d, cats);
    IntStringOrderAntisymmetric();
    var s := SelectCategoryIds(d, cats);
    assert forall x :: x in s <==> x in r;
    SortedByUnique(SelectCategoryIds(d, cats), r, IntToString, StrLe);
  }

  /** The orders the examples below rely on: single digits ascend, and "10"
      comes before "9". */
  lemma SmallIdsSorted()
    ensures SortedBy([1, 3, 4], IntToString, StrLe)
    ensures SortedBy([1, 2, 3], IntToString, StrLe)
    ensures SortedBy([10, 9], IntToString, StrLe)
  {
    assert IntToString(1) == "1" && IntToString(2) == "2" && IntToString(3) == "3" && IntToString(4) == "4";
    assert IntToString(9) == "9" && IntToString(10) == "10";
  }

  /** Known ids {1, 2, 3, 4} and the directive [0, -2] select [1, 3, 4]. */
  lemma WildcardWithExclusionExample(d: IdDirective, cats: seq<CatMenuItem>)
    requires d == Ids([0, -2])
    requires cats == [CatMenuItem(1, "a"), CatMenuItem(2, "b"), CatMenuItem(3, "c"), CatMenuItem(4, "d")]
    ensures SelectCategoryIds(d, cats) == [1, 3, 4]
  {
    WildcardWithExclusionMembers(d, cats);
    SmallIdsSorted();
    SelectCategoryIdsUnique(d, cats, [1, 3, 4]);
  }

  lemma WildcardWithExclusionMembers(d: IdDirective, cats: seq<CatMenuItem>)
    requires d == Ids([0, -2])
    requires cats == [CatMenuItem(1, "a"), CatMenuItem(2, "b"), CatMenuItem(3, "c"), CatMenuItem(4, "d")]
    ensures forall x :: x in [1, 3, 4] <==> x in SelectCategoryIds(d, cats)
  {
    assert KnownIds(cats) == [1, 2, 3, 4];
    assert WithWildcard(CastIds(d), KnownIds(cats)) == [0, -2, 1, 2, 3, 4];
    forall x ensures x in [1, 3, 4] <==> x in SelectCategoryIds(d, cats) {
      SelectCategoryIdsMembers(d, cats, x);
    }
  }

  /** Known ids {1, 2, 3} and the directive [3, 1, 2, 0] select [1, 2, 3]. */
  lemma WildcardReorderExample(d: IdDirective, cats: seq<CatMenuItem>)
    requires d == Ids([3, 1, 2, 0])
    requires cats == [CatMenuItem(1, "a"), CatMenuItem(2, "b"), CatMenuItem(3, "c")]
    ensures SelectCategoryIds(d, cats) == [1, 2, 3]
  {
    WildcardReorderMembers(d, cats);
    SmallIdsSorted();
    SelectCategoryIdsUnique(d, cats, [1, 2, 3]);
  }

  lemma WildcardReorderMembers(d: IdDirective, cats: seq<CatMenuItem>)
    requires d == Ids([3, 1, 2, 0])
    requires cats == [CatMenuItem(1, "a"), CatMenuItem(2, "b"), CatMenuItem(3, "c")]
    ensures forall x :: x in [1, 2, 3] <==> x in SelectCategoryIds(d, cats)
  {
    assert KnownIds(cats) == [1, 2, 3];
    var asked := WithWildcard(CastIds(d), KnownIds(cats));
    assert asked == [3, 1, 2, 0] + [1, 2, 3];
    assert forall y :: y in asked ==> y in KnownIds(cats) || y == 0;
    forall x ensures x in [1, 2, 3] <==> x in SelectCategoryIds(d, cats) {
      SelectCategoryIdsMembers(d, cats, x);
      assert !Cancelled(asked, x);
    }
  }

  /** The sort is by string: ids 9 and 10 come out as [10, 9]. */
  lemma StringSortExample(d: IdDirective, cats: seq<CatMenuItem>)
    requires d == Ids([9, 10])
    requires cats == [CatMenuItem(9, "a"), CatMenuItem(10, "b")]
    ensures SelectCategoryIds(d, cats) == [10, 9]
  {
    assert KnownIds(cats) == [9, 10];
    assert WithWildcard(CastIds(d), KnownIds(cats)) == [9, 10];
    forall x ensures x in [10, 9] <==> x in SelectCategoryIds(d, cats) {
      SelectCategoryIdsMembers(d, cats, x);
    }
    SmallIdsSorted();
    SelectCategoryIdsUnique(d, cats, [10, 9]);
  }
}
