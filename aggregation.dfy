/** How the codes of one category configuration become output-file chunks:
    every interface code carries the weights [serverIndex, projectIndex,
    categoryIndex, categoryIndex2] and a category UID built from the same four
    numbers; the codes are grouped by output path, each group is ordered by
    weights, and its chunk is one preamble per distinct UID (none when
    `typesOnly`) followed by the codes, empty parts dropped, joined by a blank
    line. */
module Aggregation {
  import opened Text
  import opened Seqs
  import opened Sorting
  import opened Config

  /** `[serverIndex, projectIndex, categoryIndex, categoryIndex2]`. */
  datatype Weights = Weights(server: nat, project: nat, category: nat, item: nat)

  /** `sortByWeights` compares weights lexicographically. */
  predicate WeightsLe(a: Weights, b: Weights)
  {
    || a.server < b.server
    || (a.server == b.server && a.project < b.project)
    || (a.server == b.server && a.project == b.project && a.category < b.category)
    || (a.server == b.server && a.project == b.project && a.category == b.category && a.item <= b.item)
  }

  lemma WeightsLeTotalPreorder()
    ensures TotalPreorder(WeightsLe)
  {
  }

  lemma WeightsLeAntisymmetric(a: Weights, b: Weights)
    requires WeightsLe(a, b) && WeightsLe(b, a)
    ensures a == b
  {
  }

  /** Each index behind a '_', in order. */
  function UnderscoreJoined(ns: seq<nat>): string
  {
    if ns == [] then "" else "_" + NatToString(ns[0]) + UnderscoreJoined(ns[1..])
  }

  function WeightList(w: Weights): seq<nat>
  {
    [w.server, w.project, w.category, w.item]
  }

  /** `_${serverIndex}_${projectIndex}_${categoryIndex}_${categoryIndex2}`. */
  function CategoryUID(w: Weights): string
  {
    UnderscoreJoined(WeightList(w))
  }

  predicate NoSeparator(s: string)
  {
    forall i :: 0 <= i < |s| ==> s[i] != '_'
  }

  /** A separator-free head is recovered from `head + "_" + tail`. */
  lemma SplitAtSeparator(x: string, y: string, x': string, y': string)
    requires NoSeparator(x) && NoSeparator(x')
    requires x + y == x' + y'
    requires y == [] || y[0] == '_'
    requires y' == [] || y'[0] == '_'
    ensures x == x' && y == y'
  {
    var s := x + y;
    assert s == x' + y';
    assert forall i :: 0 <= i < |x| ==> s[i] == x[i];
    assert forall i :: 0 <= i < |x'| ==> s[i] == x'[i];
    assert |y| > 0 ==> s[|x|] == '_';
    assert |y'| > 0 ==> s[|x'|] == '_';
    assert |x| == |x'|;
    assert x == s[..|x|] == x';
    assert y == s[|x|..] == y';
  }

  /** The rendering of equally many indices determines them. */
  lemma {:induction false} UnderscoreJoinedInjective(a: seq<nat>, b: seq<nat>)
    requires |a| == |b|
    requires UnderscoreJoined(a) == UnderscoreJoined(b)
    ensures a == b
  {
    if a != [] {
      var ta, tb := UnderscoreJoined(a[1..]), UnderscoreJoined(b[1..]);
      assert UnderscoreJoined(a) == "_" + (NatToString(a[0]) + ta);
      assert UnderscoreJoined(b) == "_" + (NatToString(b[0]) + tb);
      assert NatToString(a[0]) + ta == UnderscoreJoined(a)[1..] == NatToString(b[0]) + tb;
      SplitAtSeparator(NatToString(a[0]), ta, NatToString(b[0]), tb);
      NatToStringInjective(a[0], b[0]);
      UnderscoreJoinedInjective(a[1..], b[1..]);
      assert a == [a[0]] + a[1..] && b == [b[0]] + b[1..];
    }
  }

  /** Distinct weights give distinct category UIDs, so one preamble per UID is
      one preamble per category id. */
  lemma CategoryUIDInjective(a: Weights, b: Weights)
    ensures CategoryUID(a) == CategoryUID(b) <==> a == b
  {
    if CategoryUID(a) == CategoryUID(b) {
      UnderscoreJoinedInjective(WeightList(a), WeightList(b));
      assert WeightList(a)[0] == WeightList(b)[0] && WeightList(a)[1] == WeightList(b)[1];
      assert WeightList(a)[2] == WeightList(b)[2] && WeightList(a)[3] == WeightList(b)[3];
    }
  }

  /** One interface's contribution: its UID, output path, weights and code. */
  datatype Fragment = Fragment(categoryUID: string, outputFilePath: string, weights: Weights, code: string)

  /** One category id's contribution to one output path. */
  datatype Chunk = Chunk(outputFilePath: string, code: string, weights: Weights)

  function WeightsOf(f: Fragment): Weights { f.weights }
  function UIDOf(f: Fragment): string { f.categoryUID }
  function CodeOf(f: Fragment): string { f.code }
  function PathOf(f: Fragment): string { f.outputFilePath }

  /** `const ${name}${uid} = ${JSON.stringify(value)} as any`. */
  function ConstLine(name: string, uid: string, value: Value): string
  {
    "const " + name + uid + " = " + JsonText(value) + " as any"
  }

  /** The four constants a category's request functions refer to, one per line. */
  function Preamble(uid: string, sc: Layer): string
  {
    ConstLine("mockUrl", uid, Get(sc, "mockUrl")) + "\n" + ConstLine("devUrl", uid, Get(sc, "devUrl")) + "\n"
      + ConstLine("prodUrl", uid, Get(sc, "prodUrl")) + "\n" + ConstLine("dataKey", uid, Get(sc, "dataKey"))
  }

  /** The preamble of a UID, or '' under `typesOnly`. */
  function PreambleOrEmpty(sc: Layer): string -> string
  {
    (uid: string) => if Truthy(Get(sc, "typesOnly")) then "" else Preamble(uid, sc)
  }

  function SortByWeights(group: seq<Fragment>): seq<Fragment>
  {
    SortBy(group, WeightsOf, WeightsLe)
  }

  /** The parts of a chunk before empty ones are dropped: the preambles of the
      distinct UIDs of the weight-ordered group, then its codes. */
  function ChunkParts(group: seq<Fragment>, sc: Layer): seq<string>
  {
    var sorted := SortByWeights(group);
    MapSeq(Uniq(MapSeq(sorted, UIDOf)), PreambleOrEmpty(sc)) + MapSeq(sorted, CodeOf)
  }

  /** `last(sortByWeights(group)).weights`. */
  function ChunkWeights(group: seq<Fragment>): Weights
    requires |group| > 0
  {
    var sorted := SortByWeights(group);
    sorted[|sorted| - 1].weights
  }

  function AssembleChunk(path: string, group: seq<Fragment>, sc: Layer): Chunk
    requires |group| > 0
  {
    Chunk(path, Join(DropEmpty(ChunkParts(group, sc)), "\n\n"), ChunkWeights(group))
  }

  /** `Object.keys(groupBy(interfaceCodes, outputFilePath)).map(...)`: one chunk
      per output path, in first-seen order of the paths. */
  function CategoryChunks(fragments: seq<Fragment>, sc: Layer): (cs: seq<Chunk>)
    ensures |cs| == |GroupKeys(fragments, PathOf)|
  {
    var keys := GroupKeys(fragments, PathOf);
    var groups := GroupBy(fragments, PathOf);
    seq(|keys|, i requires 0 <= i < |keys| =>
      GroupByPartitions(fragments, PathOf, i);
      AssembleChunk(keys[i], groups[i], sc))
  }

  /** The chunks follow the distinct output paths in first-seen order, and each
      chunk is assembled from exactly the fragments for its path. */
  lemma CategoryChunksByPath(fragments: seq<Fragment>, sc: Layer, i: nat)
    requires i < |CategoryChunks(fragments, sc)|
    ensures var c := CategoryChunks(fragments, sc)[i];
      && c.outputFilePath == GroupKeys(fragments, PathOf)[i]
      && |Having(fragments, PathOf, c.outputFilePath)| > 0
      && c == AssembleChunk(c.outputFilePath, Having(fragments, PathOf, c.outputFilePath), sc)
  {
    GroupByPartitions(fragments, PathOf, i);
  }

  /** No two chunks of one category configuration share an output path. */
  lemma CategoryChunksDistinctPaths(fragments: seq<Fragment>, sc: Layer, i: nat, j: nat)
    requires i < j < |CategoryChunks(fragments, sc)|
    ensures CategoryChunks(fragments, sc)[i].outputFilePath != CategoryChunks(fragments, sc)[j].outputFilePath
  {
    CategoryChunksByPath(fragments, sc, i);
    CategoryChunksByPath(fragments, sc, j);
  }

  /** The codes of a chunk come in weight order, and codes with equal weights in
      the order they were produced. */
  lemma ChunkCodesInWeightOrder(group: seq<Fragment>, w: Weights)
    ensures SortedBy(SortByWeights(group), WeightsOf, WeightsLe)
    ensures multiset(SortByWeights(group)) == multiset(group)
    ensures Having(SortByWeights(group), WeightsOf, w) == Having(group, WeightsOf, w)
  {
    WeightsLeTotalPreorder();
    SortBySorted(group, WeightsOf, WeightsLe);
    SortByPermutes(group, WeightsOf, WeightsLe);
    SortByStable(group, WeightsOf, WeightsLe, w);
  }

  /** The weights reported for a chunk are the greatest of its group. */
  lemma ChunkWeightsAreGreatest(group: seq<Fragment>, f: Fragment)
    requires |group| > 0
    requires f in group
    ensures WeightsLe(f.weights, ChunkWeights(group))
  {
    var sorted := SortByWeights(group);
    WeightsLeTotalPreorder();
    SortBySorted(group, WeightsOf, WeightsLe);
    SortByPermutes(group, WeightsOf, WeightsLe);
    var n := |sorted| - 1;
    assert f in multiset(group);
    assert f in multiset(sorted);
    var k :| 0 <= k < |sorted| && sorted[k] == f;
    assert k < n ==> WeightsLe(WeightsOf(sorted[k]), WeightsOf(sorted[n]));
  }

  /** The reported weights are those of one of the group's fragments. */
  lemma ChunkWeightsOccur(group: seq<Fragment>)
    requires |group| > 0
    ensures exists f :: f in group && f.weights == ChunkWeights(group)
  {
    var sorted := SortByWeights(group);
    var last := sorted[|sorted| - 1];
    SortByPermutes(group, WeightsOf, WeightsLe);
    assert last in multiset(sorted);
    assert last in multiset(group);
    assert last in group;
  }

  /** One preamble per distinct UID of the group, in the order in which the UIDs
      first occur among the weight-ordered fragments, and nothing but '' under
      `typesOnly`. */
  lemma ChunkPreambles(group: seq<Fragment>, sc: Layer)
    ensures var uids := Uniq(MapSeq(SortByWeights(group), UIDOf));
      var pre := ChunkParts(group, sc)[..|uids|];
      && NoDup(uids)
      && (forall f :: f in group ==> f.categoryUID in uids)
      && (forall u :: u in uids ==> exists f :: f in group && f.categoryUID == u)
      && (Truthy(Get(sc, "typesOnly")) ==> forall k :: 0 <= k < |pre| ==> pre[k] == "")
      && (!Truthy(Get(sc, "typesOnly")) ==> forall k :: 0 <= k < |pre| ==> pre[k] == Preamble(uids[k], sc))
  {
    var sorted := SortByWeights(group);
    var ids := MapSeq(sorted, UIDOf);
    var uids := Uniq(ids);
    SortByPermutes(group, WeightsOf, WeightsLe);
    forall f | f in group ensures f.categoryUID in uids {
      assert f in multiset(sorted);
      var k :| 0 <= k < |sorted| && sorted[k] == f;
      assert ids[k] == f.categoryUID;
    }
    forall u | u in uids ensures exists f :: f in group && f.categoryUID == u {
      var k :| 0 <= k < |ids| && ids[k] == u;
      assert sorted[k] in multiset(group);
    }
  }

  /** Under `typesOnly` a chunk is just the non-empty codes in weight order. */
  lemma ChunkTypesOnly(path: string, group: seq<Fragment>, sc: Layer)
    requires |group| > 0
    requires Truthy(Get(sc, "typesOnly"))
    ensures AssembleChunk(path, group, sc).code == Join(DropEmpty(MapSeq(SortByWeights(group), CodeOf)), "\n\n")
  {
    var sorted := SortByWeights(group);
    var pre := MapSeq(Uniq(MapSeq(sorted, UIDOf)), PreambleOrEmpty(sc));
    assert ChunkParts(group, sc) == pre + MapSeq(sorted, CodeOf);
    NoEmptyLeft(pre);
    DropEmptyAppend(pre, MapSeq(sorted, CodeOf));
    assert DropEmpty(pre + MapSeq(sorted, CodeOf)) == DropEmpty(MapSeq(sorted, CodeOf));
  }

  lemma {:induction false} NoEmptyLeft(parts: seq<string>)
    requires forall k :: 0 <= k < |parts| ==> parts[k] == ""
    ensures DropEmpty(parts) == []
  {
    if parts != [] {
      NoEmptyLeft(parts[1..]);
    }
  }

  /** Without `typesOnly` every preamble is kept, and all of them come before the
      first code. */
  lemma ChunkPreamblesFirst(path: string, group: seq<Fragment>, sc: Layer)
    requires |group| > 0
    requires !Truthy(Get(sc, "typesOnly"))
    ensures var sorted := SortByWeights(group);
      var uids := Uniq(MapSeq(sorted, UIDOf));
      AssembleChunk(path, group, sc).code ==
        Join(MapSeq(uids, PreambleOrEmpty(sc)) + DropEmpty(MapSeq(sorted, CodeOf)), "\n\n")
  {
    var sorted := SortByWeights(group);
    var uids := Uniq(MapSeq(sorted, UIDOf));
    var pre := MapSeq(uids, PreambleOrEmpty(sc));
    assert ChunkParts(group, sc) == pre + MapSeq(sorted, CodeOf);
    forall k | 0 <= k < |pre| ensures pre[k] != "" {
      assert pre[k] == Preamble(uids[k], sc);
      assert |ConstLine("mockUrl", uids[k], Get(sc, "mockUrl"))| > 0;
    }
    DropEmptyKeepsNonEmpty(pre);
    DropEmptyAppend(pre, MapSeq(sorted, CodeOf));
  }

  /** A list holding one value, possibly repeated, has that value alone as
      its `uniq`. */
  lemma {:induction false} UniqOfConstant(ids: seq<string>, uid: string)
    requires |ids| > 0
    requires forall k :: 0 <= k < |ids| ==> ids[k] == uid
    ensures Uniq(ids) == [uid]
    decreases |ids|
  {
    if |ids| > 1 {
      UniqOfConstant(ids[..|ids| - 1], uid);
    }
  }

  /** All fragments of one category id share a UID and weights: the chunk is
      that UID's preamble (unless `typesOnly`) and the codes in production
      order, and it reports the shared weights. */
  lemma UniformChunk(path: string, group: seq<Fragment>, sc: Layer, uid: string, w: Weights)
    requires |group| > 0
    requires forall k :: 0 <= k < |group| ==> group[k].categoryUID == uid && group[k].weights == w
    ensures var c := AssembleChunk(path, group, sc);
      && c.weights == w
      && c.code == Join(DropEmpty([PreambleOrEmpty(sc)(uid)] + MapSeq(group, CodeOf)), "\n\n")
  {
    assert SortedBy(group, WeightsOf, WeightsLe);
    SortBySortedIsIdentity(group, WeightsOf, WeightsLe);
    UniqOfConstant(MapSeq(group, UIDOf), uid);
    assert ChunkParts(group, sc) == MapSeq([uid], PreambleOrEmpty(sc)) + MapSeq(group, CodeOf);
    assert MapSeq([uid], PreambleOrEmpty(sc)) == [PreambleOrEmpty(sc)(uid)];
  }

  /** Every fragment of one category id carries that id's weights, so every
      chunk it yields reports them. */
  lemma CategoryChunksWeights(fragments: seq<Fragment>, sc: Layer, w: Weights, i: nat)
    requires forall k :: 0 <= k < |fragments| ==> fragments[k].weights == w
    requires i < |CategoryChunks(fragments, sc)|
    ensures CategoryChunks(fragments, sc)[i].weights == w
  {
    CategoryChunksByPath(fragments, sc, i);
    var c := CategoryChunks(fragments, sc)[i];
    var group := Having(fragments, PathOf, c.outputFilePath);
    ChunkWeightsOccur(group);
    HavingMembers(fragments, PathOf, c.outputFilePath);
  }

  function ChunkPath(c: Chunk): string { c.outputFilePath }
  function ChunkWeightsOf(c: Chunk): Weights { c.weights }
  function ChunkCode(c: Chunk): string { c.code }

  /** Weights of an earlier category configuration than (s, p, c) in the
      declared order of servers, projects and categories. */
  predicate Precedes(w: Weights, s: nat, p: nat, c: nat)
  {
    w.server < s || (w.server == s && (w.project < p || (w.project == p && w.category < c)))
  }

  /** Weights of category configuration (s, p, c). */
  predicate InCategory(w: Weights, s: nat, p: nat, c: nat)
  {
    w.server == s && w.project == p && w.category == c
  }
}
