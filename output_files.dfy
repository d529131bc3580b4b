/** The `outputFileList` dictionary `generate` fills: one entry per output
    path, holding the synthetical configuration of the first category that
    reached the path and the list of code chunks pushed onto it. The chunks
    whose codes make up each entry are kept alongside as ghost state, to
    state the order in which they arrive. */
module OutputFiles {
  import opened Seqs
  import opened Config
  import opened Aggregation

  datatype OutputFile = OutputFile(syntheticalConfig: Layer, content: seq<string>)

  /** The chunks recorded for `path`; none when the path has no record. */
  function PushedAt(pushed: map<string, seq<Chunk>>, path: string): seq<Chunk>
  {
    if path in pushed then pushed[path] else []
  }

  /** Pairwise non-decreasing weights. */
  ghost predicate InWeightOrder(cs: seq<Chunk>)
  {
    forall i, j :: 0 <= i < j < |cs| ==> WeightsLe(cs[i].weights, cs[j].weights)
  }

  /** Chunks no lighter than every chunk already there keep the order. */
  lemma OrderAppend(before: seq<Chunk>, group: seq<Chunk>)
    requires InWeightOrder(before) && InWeightOrder(group)
    requires |group| > 0 ==> forall x :: x in before ==> WeightsLe(x.weights, group[0].weights)
    ensures InWeightOrder(before + group)
  {
    forall i, j | 0 <= i < j < |before + group| ensures WeightsLe((before + group)[i].weights, (before + group)[j].weights) {
      if i < |before| && j >= |before| {
        assert before[i] in before;
        assert WeightsLe(group[0].weights, group[j - |before|].weights);
      }
    }
  }

  /** The codes of `a + b` are the codes of `a` followed by those of `b`. */
  lemma CodesAppend(a: seq<Chunk>, b: seq<Chunk>)
    ensures MapSeq(a + b, ChunkCode) == MapSeq(a, ChunkCode) + MapSeq(b, ChunkCode)
  {
  }

  /** `after` keeps every entry of `before`: the same configuration, and the
      old content as a prefix of the new. */
  ghost predicate Grows(before: map<string, OutputFile>, after: map<string, OutputFile>)
  {
    forall p :: p in before ==>
      && p in after
      && after[p].syntheticalConfig == before[p].syntheticalConfig
      && before[p].content <= after[p].content
  }

  lemma GrowsTransitive(a: map<string, OutputFile>, b: map<string, OutputFile>, c: map<string, OutputFile>)
    requires Grows(a, b) && Grows(b, c)
    ensures Grows(a, c)
  {
    forall p | p in a ensures a[p].content <= c[p].content {
      assert a[p].content <= b[p].content <= c[p].content;
      assert c[p].content[..|a[p].content|] == b[p].content[..|a[p].content|];
    }
  }

  /** Appending codes to one entry grows the files. */
  lemma AppendGrows(files: map<string, OutputFile>, path: string, codes: seq<string>)
    requires path in files
    ensures Grows(files, files[path := OutputFile(files[path].syntheticalConfig, files[path].content + codes)])
  {
    assert files[path].content <= files[path].content + codes;
  }

  /** Every chunk recorded so far belongs to a category configuration before
      (s, p, c). */
  ghost predicate AllPrecede(pushed: map<string, seq<Chunk>>, s: nat, p: nat, c: nat)
  {
    forall path, k :: path in pushed && 0 <= k < |pushed[path]| ==> Precedes(pushed[path][k].weights, s, p, c)
  }

  /** Moving the bound forward keeps every recorded chunk before it. */
  lemma AllPrecedeLater(pushed: map<string, seq<Chunk>>, s: nat, p: nat, c: nat, s2: nat, p2: nat, c2: nat)
    requires AllPrecede(pushed, s, p, c)
    requires s < s2 || (s == s2 && (p < p2 || (p == p2 && c <= c2)))
    ensures AllPrecede(pushed, s2, p2, c2)
  {
  }

  class OutputFileList {
    var files: map<string, OutputFile>
    ghost var pushed: map<string, seq<Chunk>>

    /** Each entry's content is the codes of the chunks recorded for its path,
        and those chunks arrived in ascending weight order. */
    ghost predicate Valid()
      reads this
    {
      && pushed.Keys <= files.Keys
      && forall p :: p in files ==>
           && files[p].content == MapSeq(PushedAt(pushed, p), ChunkCode)
           && InWeightOrder(PushedAt(pushed, p))
    }

    /** `Object.create(null)`. */
    constructor()
      ensures Valid()
      ensures files == map[] && pushed == map[]
    {
      files := map[];
      pushed := map[];
    }

    /** Creates the entry for `path` with `sc` and no content, unless the path
        already has one, which then stays as it is. */
    method Ensure(path: string, sc: Layer)
      requires Valid()
      modifies this
      ensures Valid()
      ensures files == if path in old(files) then old(files) else old(files)[path := OutputFile(sc, [])]
      ensures pushed == old(pushed)
      ensures Grows(old(files), files)
    {
      if path !in files {
        files := files[path := OutputFile(sc, [])];
      }
    }

    /** `content.push(...codes)`: appends the codes of `group` to the entry for
        `path`. Pushing chunks no lighter than those already there keeps the
        entry in weight order. */
    method Push(path: string, codes: seq<string>, ghost group: seq<Chunk>)
      requires Valid()
      requires path in files && codes == MapSeq(group, ChunkCode) && InWeightOrder(group)
      requires |group| > 0 ==> forall x :: x in PushedAt(pushed, path) ==> WeightsLe(x.weights, group[0].weights)
      modifies this
      ensures Valid()
      ensures files == old(files)[path := OutputFile(old(files)[path].syntheticalConfig, old(files)[path].content + codes)]
      ensures pushed == old(pushed)[path := PushedAt(old(pushed), path) + group]
      ensures Grows(old(files), files)
    {
      var before := PushedAt(pushed, path);
      OrderAppend(before, group);
      CodesAppend(before, group);
      AppendGrows(files, path, codes);
      files := files[path := OutputFile(files[path].syntheticalConfig, files[path].content + codes)];
      pushed := pushed[path := before + group];
    }
  }
}
