/** The `Generator` class: its configuration, the URL and token `prepare`
    obtains, the two memoised fetches of remote metadata, and `generate`,
    which walks servers, projects (one per token), categories and category ids
    in declared order and fills the output-file dictionary. The documentation
    server (`Api`) and the code it cannot see (`Hooks`) are fixed for the
    lifetime of the object. */
module Generation {
  import opened Wrappers
  import opened Text
  import opened Seqs
  import opened Sorting
  import opened Config
  import opened Remote
  import opened Merge
  import opened CategorySelection
  import opened Aggregation
  import opened OutputFiles
  import opened Prepare

  /** `path.resolve`, the user callbacks `outputFilePath` and
      `preproccessInterface`, and the code template with its JSON-schema
      conversions, as functions of their inputs. */
  datatype Hooks = Hooks(
    resolvePath: (string, string) -> string,
    outputFilePath: (Layer, Interface) -> string,
    preprocess: (Layer, Interface) -> Option<Interface>,
    interfaceCode: (Layer, Interface, string) -> Result<string, Error>)

  /** What an uncached `fetchProject` yields for a server and token. */
  function ProjectResult(api: Api, serverUrl: string, token: string): Result<Project, Error>
  {
    match FetchApi(api.getProject(serverUrl, token))
    case Success(raw) => Success(DeriveProject(serverUrl, raw))
    case Failure(e) => Failure(e)
  }

  /** What an uncached `fetchExport` yields, given the project `fetchProject`
      returned for the same key. */
  function ExportResult(api: Api, serverUrl: string, token: string, project: Result<Project, Error>): Result<seq<Category>, Error>
  {
    if project.Failure? then Failure(project.error)
    else
      match FetchApi(api.exportCategories(serverUrl, token))
      case Success(raws) => Success(DeriveExport(serverUrl, project.value.basepath, raws))
      case Failure(e) => Failure(e)
  }

  /** `${serverUrl}` and `${token}` of a merged configuration. */
  function ServerUrlOf(sc: Layer): string { TemplateText(Get(sc, "serverUrl")) }
  function TokenOf(sc: Layer): string { TemplateText(Get(sc, "token")) }

  function IdOf(itf: Interface): int { itf.id }

  predicate IntLe(a: int, b: int) { a <= b }

  /** The preprocessing of one interface: the user callback when the
      configuration has one (`None` for a falsy answer), the interface itself
      otherwise. */
  function Preprocess(hooks: Hooks, sc: Layer, itf: Interface): Option<Interface>
  {
    if Get(sc, "preproccessInterface").Callback? then hooks.preprocess(sc, itf) else Some(itf)
  }

  /** Sets `_project`, preprocesses, and drops what the preprocessing dropped. */
  function Preprocessed(hooks: Hooks, sc: Layer, project: Project, list: seq<Interface>): (r: seq<Interface>)
    ensures |r| <= |list|
  {
    if list == [] then []
    else
      var head := Preprocess(hooks, sc, list[0].(project := Some(project)));
      (if head.Some? then [head.value] else []) + Preprocessed(hooks, sc, project, list[1..])
  }

  /** The interface list of one category id, ready for code generation:
      preprocessed, then ordered by interface id (`a._id - b._id`). */
  function PrepareInterfaces(hooks: Hooks, sc: Layer, project: Project, list: seq<Interface>): seq<Interface>
  {
    SortBy(Preprocessed(hooks, sc, project, list), IdOf, IntLe)
  }

  /** The prepared list is ordered by id and holds exactly the preprocessed
      interfaces; without a preprocessing callback these are the fetched ones,
      each carrying the project. */
  lemma PrepareInterfacesOrdered(hooks: Hooks, sc: Layer, project: Project, list: seq<Interface>)
    ensures SortedBy(PrepareInterfaces(hooks, sc, project, list), IdOf, IntLe)
    ensures multiset(PrepareInterfaces(hooks, sc, project, list)) == multiset(Preprocessed(hooks, sc, project, list))
    ensures !Get(sc, "preproccessInterface").Callback? ==>
      Preprocessed(hooks, sc, project, list) == seq(|list|, k requires 0 <= k < |list| => list[k].(project := Some(project)))
  {
    SortBySorted(Preprocessed(hooks, sc, project, list), IdOf, IntLe);
    SortByPermutes(Preprocessed(hooks, sc, project, list), IdOf, IntLe);
    if !Get(sc, "preproccessInterface").Callback? {
      PreprocessedWithoutCallback(hooks, sc, project, list);
    }
  }

  lemma {:induction false} PreprocessedWithoutCallback(hooks: Hooks, sc: Layer, project: Project, list: seq<Interface>)
    requires !Get(sc, "preproccessInterface").Callback?
    ensures Preprocessed(hooks, sc, project, list) == seq(|list|, k requires 0 <= k < |list| => list[k].(project := Some(project)))
  {
    if list != [] {
      PreprocessedWithoutCallback(hooks, sc, project, list[1..]);
    }
  }

  /** `path.resolve(cwd, outputFilePath)`, the path coming from the callback when
      the configuration has one; anything but a string or a callback makes
      `path.resolve` throw. */
  function OutputPathOf(hooks: Hooks, cwd: string, sc: Layer, itf: Interface): Result<string, Error>
  {
    match Get(sc, "outputFilePath")
    case Callback(_) => Success(hooks.resolvePath(cwd, hooks.outputFilePath(sc, itf)))
    case Str(path) => Success(hooks.resolvePath(cwd, path))
    case _ => Failure(SynthesisError("outputFilePath is neither a string nor a function"))
  }

  /** The fragment of one interface, or the first error in producing it. */
  function MakeFragment(hooks: Hooks, cwd: string, sc: Layer, itf: Interface, w: Weights): Result<Fragment, Error>
  {
    var path :- OutputPathOf(hooks, cwd, sc, itf);
    var code :- hooks.interfaceCode(sc, itf, CategoryUID(w));
    Success(Fragment(CategoryUID(w), path, w, code))
  }

  /** The `interfaceCodes` of one category id: one fragment per interface, all
      with the id's weights and UID; it fails when any interface fails. */
  function MakeFragments(hooks: Hooks, cwd: string, sc: Layer, list: seq<Interface>, w: Weights): (r: Result<seq<Fragment>, Error>)
    ensures r.Failure? <==> exists k :: 0 <= k < |list| && MakeFragment(hooks, cwd, sc, list[k], w).Failure?
    ensures r.Success? ==> |r.value| == |list| && forall k :: 0 <= k < |list| ==>
      && r.value[k] == MakeFragment(hooks, cwd, sc, list[k], w).value
      && r.value[k].weights == w && r.value[k].categoryUID == CategoryUID(w)
  {
    if list == [] then Success([])
    else
      var head := MakeFragment(hooks, cwd, sc, list[0], w);
      var tail := MakeFragments(hooks, cwd, sc, list[1..], w);
      assert forall k :: 1 <= k < |list| ==> list[1..][k - 1] == list[k];
      if head.Failure? then Failure(head.error)
      else if tail.Failure? then
        var k :| 0 <= k < |list[1..]| && MakeFragment(hooks, cwd, sc, list[1..][k], w).Failure?;
        assert list[k + 1] == list[1..][k];
        Failure(tail.error)
      else Success([head.value] + tail.value)
  }

  /** The two memo tables, as values. */
  datatype Memo = Memo(projects: map<string, Result<Project, Error>>, exports: map<string, Result<seq<Category>, Error>>)

  /** `fetchProject` through its memo: the cached answer for the key, else the
      server's answer, which is cached whether it succeeded or not. */
  function MemoProject(api: Api, m: Memo, serverUrl: string, token: string): (Result<Project, Error>, Memo)
  {
    var key := MemoKey(serverUrl, token);
    if key in m.projects then (m.projects[key], m)
    else
      var r := ProjectResult(api, serverUrl, token);
      (r, m.(projects := m.projects[key := r]))
  }

  /** `fetchExport` through its memo; an uncached export first goes through
      `fetchProject` for the same key. */
  function MemoExport(api: Api, m: Memo, serverUrl: string, token: string): (Result<seq<Category>, Error>, Memo)
  {
    var key := MemoKey(serverUrl, token);
    if key in m.exports then (m.exports[key], m)
    else
      var project := MemoProject(api, m, serverUrl, token);
      var r := ExportResult(api, serverUrl, token, project.0);
      (r, project.1.(exports := project.1.exports[key := r]))
  }

  /** `fetchProjectInfo` of a merged server and project configuration. */
  function ProjectInfoMemo(api: Api, m: Memo, serverUrl: string, token: string): (Result<ProjectInfo, Error>, Memo)
  {
    var project := MemoProject(api, m, serverUrl, token);
    if project.0.Failure? then (Failure(project.0.error), project.1)
    else
      match FetchApi(api.getCatMenu(serverUrl, token, project.0.value.id))
      case Failure(e) => (Failure(e), project.1)
      case Success(cats) => (Success(ProjectInfo(project.0.value, cats, serverUrl)), project.1)
  }

  /** `serverUrl` of `{...serverConfig, ...projectConfig}`: the project's own
      field when it has one, else the server's. */
  function MergedServerUrl(server: ServerConfig, project: ProjectConfig): string
  {
    TemplateText(if "serverUrl" in project.settings then project.settings["serverUrl"] else Str(server.serverUrl))
  }

  /** `token` of `{...serverConfig, ...projectConfig}`: always the project's. */
  function MergedToken(project: ProjectConfig): string
  {
    match project.token
    case OneToken(t) => t
    case Tokens(_) => TemplateText(Obj("[tokens]"))
  }

  /** The two fields `fetchProjectInfo` reads from the merged configuration. */
  lemma MergedFields(server: ServerConfig, project: ProjectConfig)
    ensures ServerUrlOf(ServerLayer(server) + ProjectLayer(project)) == MergedServerUrl(server, project)
    ensures TokenOf(ServerLayer(server) + ProjectLayer(project)) == MergedToken(project)
    ensures project.token.OneToken? ==> MergedToken(project) == project.token.token
  {
    assert "serverUrl" != "token";
  }

  /** `fetchInterfaceList` of a synthetical configuration. */
  function InterfaceListMemo(api: Api, m: Memo, sc: Layer): (Result<seq<Interface>, Error>, Memo)
  {
    var cats := MemoExport(api, m, ServerUrlOf(sc), TokenOf(sc));
    (if cats.0.Failure? then Failure(cats.0.error) else Success(FindInterfaceList(cats.0.value, Get(sc, "id"))), cats.1)
  }

  /** Repeating a request changes nothing and gives the same answer: once a
      key is in the memo, it is answered from the memo. */
  lemma MemoProjectIdempotent(api: Api, m: Memo, serverUrl: string, token: string)
    ensures var first := MemoProject(api, m, serverUrl, token);
      MemoProject(api, first.1, serverUrl, token) == first
  {
  }

  lemma MemoExportIdempotent(api: Api, m: Memo, serverUrl: string, token: string)
    ensures var first := MemoExport(api, m, serverUrl, token);
      MemoExport(api, first.1, serverUrl, token) == first
  {
  }

  /** Every key of `keys` has a project-cache entry, filled by the server
      address and token the key was made of, holding the server's answer to
      them. */
  ghost predicate ProjectsFilled(api: Api, cache: map<string, Result<Project, Error>>, origin: map<string, (string, string)>, keys: seq<string>)
    decreases |keys|
  {
    keys == [] || (
      var k := keys[|keys| - 1];
      && k in cache && k in origin
      && MemoKey(origin[k].0, origin[k].1) == k
      && cache[k] == ProjectResult(api, origin[k].0, origin[k].1)
      && ProjectsFilled(api, cache, origin, keys[..|keys| - 1]))
  }

  /** Every key of `keys` has an export-cache entry, filled by the server
      address and token the key was made of, holding the server's export for
      them given the project cached under the same key. */
  ghost predicate ExportsFilled(api: Api, projects: map<string, Result<Project, Error>>, cache: map<string, Result<seq<Category>, Error>>, origin: map<string, (string, string)>, keys: seq<string>)
    decreases |keys|
  {
    keys == [] || (
      var k := keys[|keys| - 1];
      && k in cache && k in origin && k in projects
      && MemoKey(origin[k].0, origin[k].1) == k
      && cache[k] == ExportResult(api, origin[k].0, origin[k].1, projects[k])
      && ExportsFilled(api, projects, cache, origin, keys[..|keys| - 1]))
  }

  /** What a filled project cache holds under one of its keys. */
  lemma {:induction false} ProjectsFilledAt(api: Api, cache: map<string, Result<Project, Error>>, origin: map<string, (string, string)>, keys: seq<string>, k: string)
    requires ProjectsFilled(api, cache, origin, keys) && k in keys
    ensures k in cache && k in origin
    ensures MemoKey(origin[k].0, origin[k].1) == k && cache[k] == ProjectResult(api, origin[k].0, origin[k].1)
    decreases |keys|
  {
    if keys[|keys| - 1] != k {
      var i :| 0 <= i < |keys| && keys[i] == k;
      assert keys[..|keys| - 1][i] == k;
      ProjectsFilledAt(api, cache, origin, keys[..|keys| - 1], k);
    }
  }

  /** Caching the server's answer under a new key fills that key as well. */
  lemma ProjectsFilledAdd(api: Api, cache: map<string, Result<Project, Error>>, origin: map<string, (string, string)>, keys: seq<string>, serverUrl: string, token: string)
    requires ProjectsFilled(api, cache, origin, keys) && MemoKey(serverUrl, token) !in keys
    ensures var k := MemoKey(serverUrl, token);
      ProjectsFilled(api, cache[k := ProjectResult(api, serverUrl, token)], origin[k := (serverUrl, token)], keys + [k])
  {
    var k := MemoKey(serverUrl, token);
    ProjectsFilledGrow(api, cache, origin, keys, k, ProjectResult(api, serverUrl, token), (serverUrl, token));
    assert (keys + [k])[..|keys|] == keys;
  }

  /** A new entry under a key outside `keys` leaves them filled. */
  lemma {:induction false} ProjectsFilledGrow(api: Api, cache: map<string, Result<Project, Error>>, origin: map<string, (string, string)>, keys: seq<string>, k: string, v: Result<Project, Error>, o: (string, string))
    requires ProjectsFilled(api, cache, origin, keys) && k !in keys
    ensures ProjectsFilled(api, cache[k := v], origin[k := o], keys)
    decreases |keys|
  {
    if keys != [] {
      assert keys == keys[..|keys| - 1] + [keys[|keys| - 1]];
      ProjectsFilledGrow(api, cache, origin, keys[..|keys| - 1], k, v, o);
    }
  }

  /** What a filled export cache holds under one of its keys. */
  lemma {:induction false} ExportsFilledAt(api: Api, projects: map<string, Result<Project, Error>>, cache: map<string, Result<seq<Category>, Error>>, origin: map<string, (string, string)>, keys: seq<string>, k: string)
    requires ExportsFilled(api, projects, cache, origin, keys) && k in keys
    ensures k in cache && k in origin && k in projects
    ensures MemoKey(origin[k].0, origin[k].1) == k && cache[k] == ExportResult(api, origin[k].0, origin[k].1, projects[k])
    decreases |keys|
  {
    if keys[|keys| - 1] != k {
      var i :| 0 <= i < |keys| && keys[i] == k;
      assert keys[..|keys| - 1][i] == k;
      ExportsFilledAt(api, projects, cache, origin, keys[..|keys| - 1], k);
    }
  }

  /** Caching the export computed from the cached project under a new key
      fills that key as well. */
  lemma ExportsFilledAdd(api: Api, projects: map<string, Result<Project, Error>>, cache: map<string, Result<seq<Category>, Error>>, origin: map<string, (string, string)>, keys: seq<string>, serverUrl: string, token: string)
    requires ExportsFilled(api, projects, cache, origin, keys) && MemoKey(serverUrl, token) !in keys
    requires MemoKey(serverUrl, token) in projects
    ensures var k := MemoKey(serverUrl, token);
      ExportsFilled(api, projects, cache[k := ExportResult(api, serverUrl, token, projects[k])], origin[k := (serverUrl, token)], keys + [k])
  {
    var k := MemoKey(serverUrl, token);
    ExportsFilledGrow(api, projects, cache, origin, keys, k, ExportResult(api, serverUrl, token, projects[k]), (serverUrl, token));
    assert (keys + [k])[..|keys|] == keys;
  }

  /** A new export entry under a key outside `keys` leaves them filled. */
  lemma {:induction false} ExportsFilledGrow(api: Api, projects: map<string, Result<Project, Error>>, cache: map<string, Result<seq<Category>, Error>>, origin: map<string, (string, string)>, keys: seq<string>, k: string, v: Result<seq<Category>, Error>, o: (string, string))
    requires ExportsFilled(api, projects, cache, origin, keys) && k !in keys
    ensures ExportsFilled(api, projects, cache[k := v], origin[k := o], keys)
    decreases |keys|
  {
    if keys != [] {
      assert keys == keys[..|keys| - 1] + [keys[|keys| - 1]];
      ExportsFilledGrow(api, projects, cache, origin, keys[..|keys| - 1], k, v, o);
    }
  }

  /** New project entries that keep the old ones leave the export cache
      filled. */
  lemma {:induction false} ExportsFilledProjects(api: Api, projects: map<string, Result<Project, Error>>, projects': map<string, Result<Project, Error>>, cache: map<string, Result<seq<Category>, Error>>, origin: map<string, (string, string)>, keys: seq<string>)
    requires ExportsFilled(api, projects, cache, origin, keys)
    requires forall q :: q in projects ==> q in projects' && projects'[q] == projects[q]
    ensures ExportsFilled(api, projects', cache, origin, keys)
    decreases |keys|
  {
    if keys != [] {
      ExportsFilledProjects(api, projects, projects', cache, origin, keys[..|keys| - 1]);
    }
  }

  /** What `generate` works with besides the configuration. */
  datatype Context = Context(api: Api, hooks: Hooks, cwd: string)

  /** The state `generate` threads along: the memo tables, the output files
      and, for each output path, the chunks whose codes were pushed onto it. */
  datatype Run = Run(memo: Memo, files: map<string, OutputFile>, pushed: map<string, seq<Chunk>>)

  /** One server and one single-token project of it, with the fetched project
      information, identified by their indices. */
  datatype Scope = Scope(server: ServerConfig, serverIndex: nat, project: ProjectConfig, projectIndex: nat, info: ProjectInfo)

  /** The synthetical configuration of category configuration `c` narrowed to
      one category id. */
  function IdConfig(scope: Scope, c: CategoryConfig, id: int): Layer
  {
    Synthesize(ServerLayer(scope.server), ProjectLayer(scope.project), CategoryLayer(CategoryConfig(OneId(id), c.settings)), scope.info)
  }

  /** `if (!outputFileList[path]) outputFileList[path] = { syntheticalConfig, content: [] }`
      for each path in turn: a path keeps the entry of the first configuration
      that reached it. */
  function EnsureEntries(files: map<string, OutputFile>, paths: seq<string>, sc: Layer): (r: map<string, OutputFile>)
    ensures forall p :: p in r <==> p in files || p in paths
    ensures forall p :: p in files ==> r[p] == files[p]
    ensures forall p :: p in r && p !in files ==> r[p] == OutputFile(sc, [])
    decreases |paths|
  {
    if paths == [] then files
    else
      var next := if paths[0] in files then files else files[paths[0] := OutputFile(sc, [])];
      EnsureEntries(next, paths[1..], sc)
  }

  /** `sortByWeights(groupedCodes)`: one category configuration's chunks for
      `path`, ordered by weights. */
  function SortedGroup(chunks: seq<Chunk>, path: string): seq<Chunk>
  {
    SortBy(Having(chunks, ChunkPath, path), ChunkWeightsOf, WeightsLe)
  }

  /** The codes one category configuration pushes onto `path`. */
  function GroupCodes(chunks: seq<Chunk>, path: string): seq<string>
  {
    MapSeq(SortedGroup(chunks, path), ChunkCode)
  }

  /** The pushes of one category configuration, one output path after another. */
  function PushGroups(files: map<string, OutputFile>, chunks: seq<Chunk>, paths: seq<string>): (r: map<string, OutputFile>)
    requires forall p :: p in paths ==> p in files
    ensures r.Keys == files.Keys
    decreases |paths|
  {
    if paths == [] then files
    else
      var p := paths[0];
      PushGroups(files[p := files[p].(content := files[p].content + GroupCodes(chunks, p))], chunks, paths[1..])
  }

  /** The chunks the pushes of one category configuration record, one output
      path after another: each path's sorted group after what it held. */
  function PushChunkGroups(pushed: map<string, seq<Chunk>>, chunks: seq<Chunk>, paths: seq<string>): map<string, seq<Chunk>>
    decreases |paths|
  {
    if paths == [] then pushed
    else
      var p := paths[0];
      PushChunkGroups(pushed[p := PushedAt(pushed, p) + SortedGroup(chunks, p)], chunks, paths[1..])
  }

  /** Every chunk of one category id has that id's weights and a path among
      the chunk paths. */
  lemma ChunksCarry(fragments: seq<Fragment>, sc: Layer, w: Weights)
    requires forall k :: 0 <= k < |fragments| ==> fragments[k].weights == w
    ensures forall x :: x in CategoryChunks(fragments, sc) ==>
      x.weights == w && x.outputFilePath in MapSeq(CategoryChunks(fragments, sc), ChunkPath)
  {
    var cs := CategoryChunks(fragments, sc);
    forall x | x in cs ensures x.weights == w && x.outputFilePath in MapSeq(cs, ChunkPath) {
      var i :| 0 <= i < |cs| && cs[i] == x;
      CategoryChunksWeights(fragments, sc, w, i);
      assert MapSeq(cs, ChunkPath)[i] == x.outputFilePath;
    }
  }

  /** The category ids that category configuration k of the scope's project
      selects. */
  function CategoryIds(scope: Scope, k: nat): seq<int>
    requires k < |scope.project.categories|
  {
    SelectCategoryIds(scope.project.categories[k].id, scope.info.cats)
  }

  /** What the category ids of one configuration leave behind: the run and
      the chunks collected. */
  datatype Collected = Collected(run: Run, chunks: seq<Chunk>)

  /** Category ids m.. of category configuration k in order, from `run` and
      holding the chunks collected so far: the collected state once the ids
      are done, or the first error. */
  function IdsFrom(ctx: Context, scope: Scope, k: nat, m: nat, run: Run, chunks: seq<Chunk>): Result<Collected, Error>
    requires k < |scope.project.categories|
    requires m <= |CategoryIds(scope, k)|
    requires forall x :: x in chunks ==> x.outputFilePath in run.files
    decreases |CategoryIds(scope, k)| - m, 2
  {
    if m == |CategoryIds(scope, k)| then Success(Collected(run, chunks))
    else IdStep(ctx, scope, k, m, run, chunks)
  }

  /** Category id m, not the last one: one step of the loop over the ids,
      which is the fetch below. */
  function IdStep(ctx: Context, scope: Scope, k: nat, m: nat, run: Run, chunks: seq<Chunk>): Result<Collected, Error>
    requires k < |scope.project.categories|
    requires m < |CategoryIds(scope, k)|
    requires forall x :: x in chunks ==> x.outputFilePath in run.files
    decreases |CategoryIds(scope, k)| - m, 1
  {
    IdFetch(ctx, scope, k, m, run, chunks)
  }

  /** Category id m: fetch its interface list (through the memo), then go on
      with that list. */
  function IdFetch(ctx: Context, scope: Scope, k: nat, m: nat, run: Run, chunks: seq<Chunk>): Result<Collected, Error>
    requires k < |scope.project.categories|
    requires m < |CategoryIds(scope, k)|
    requires forall x :: x in chunks ==> x.outputFilePath in run.files
    decreases |CategoryIds(scope, k)| - m, 0, 1
  {
    var sc := IdConfig(scope, scope.project.categories[k], CategoryIds(scope, k)[m]);
    var list := InterfaceListMemo(ctx.api, run.memo, sc);
    if list.0.Failure? then Failure(list.0.error)
    else IdInterfaces(ctx, scope, k, m, Run(list.1, run.files, run.pushed), chunks, list.0.value)
  }

  /** Category id m with its interface list: prepare the interfaces, make
      their fragments with weights [server, project, category, m], assemble
      the chunks, make sure each chunk's output file has an entry, and go on
      with the next id. */
  function IdInterfaces(ctx: Context, scope: Scope, k: nat, m: nat, run: Run, chunks: seq<Chunk>, list: seq<Interface>): Result<Collected, Error>
    requires k < |scope.project.categories|
    requires m < |CategoryIds(scope, k)|
    requires forall x :: x in chunks ==> x.outputFilePath in run.files
    decreases |CategoryIds(scope, k)| - m, 0, 0
  {
    var sc := IdConfig(scope, scope.project.categories[k], CategoryIds(scope, k)[m]);
    var prepared := PrepareInterfaces(ctx.hooks, sc, scope.info.project, list);
    var w := Weights(scope.serverIndex, scope.projectIndex, k, m);
    var fragments := MakeFragments(ctx.hooks, ctx.cwd, sc, prepared, w);
    if fragments.Failure? then Failure(fragments.error)
    else
      var made := CategoryChunks(fragments.value, sc);
      ChunksCarry(fragments.value, sc, w);
      var files := EnsureEntries(run.files, MapSeq(made, ChunkPath), sc);
      IdsFrom(ctx, scope, k, m + 1, Run(run.memo, files, run.pushed), chunks + made)
  }

  /** Every chunk collected has an entry in the collected output files. */
  lemma {:induction false} IdsFromKeepsEntries(ctx: Context, scope: Scope, k: nat, m: nat, run: Run, chunks: seq<Chunk>)
    requires k < |scope.project.categories|
    requires m <= |CategoryIds(scope, k)|
    requires forall x :: x in chunks ==> x.outputFilePath in run.files
    ensures var r := IdsFrom(ctx, scope, k, m, run, chunks);
      r.Success? ==> forall x :: x in r.value.chunks ==> x.outputFilePath in r.value.run.files
    decreases |CategoryIds(scope, k)| - m
  {
    if m < |CategoryIds(scope, k)| {
      var sc := IdConfig(scope, scope.project.categories[k], CategoryIds(scope, k)[m]);
      var list := InterfaceListMemo(ctx.api, run.memo, sc);
      assert IdsFrom(ctx, scope, k, m, run, chunks) == IdStep(ctx, scope, k, m, run, chunks) == IdFetch(ctx, scope, k, m, run, chunks);
      if list.0.Success? {
        var now := Run(list.1, run.files, run.pushed);
        assert IdFetch(ctx, scope, k, m, run, chunks) == IdInterfaces(ctx, scope, k, m, now, chunks, list.0.value);
        var prepared := PrepareInterfaces(ctx.hooks, sc, scope.info.project, list.0.value);
        var w := Weights(scope.serverIndex, scope.projectIndex, k, m);
        var fragments := MakeFragments(ctx.hooks, ctx.cwd, sc, prepared, w);
        if fragments.Success? {
          var made := CategoryChunks(fragments.value, sc);
          ChunksCarry(fragments.value, sc, w);
          var files := EnsureEntries(run.files, MapSeq(made, ChunkPath), sc);
          assert forall x :: x in chunks + made ==> x.outputFilePath in files;
          assert IdInterfaces(ctx, scope, k, m, now, chunks, list.0.value)
            == IdsFrom(ctx, scope, k, m + 1, Run(list.1, files, run.pushed), chunks + made);
          IdsFromKeepsEntries(ctx, scope, k, m + 1, Run(list.1, files, run.pushed), chunks + made);
        }
      }
    }
  }

  /** Category configurations k.. of the scope's project in order: each
      one's ids, then the pushes of the chunks they collected. */
  function CategoriesFrom(ctx: Context, scope: Scope, k: nat, run: Run): Result<Run, Error>
    requires k <= |scope.project.categories|
    decreases |scope.project.categories| - k
  {
    if k == |scope.project.categories| then Success(run)
    else
      var ids := IdsFrom(ctx, scope, k, 0, run, []);
      if ids.Failure? then Failure(ids.error)
      else
        var c := ids.value;
        IdsFromKeepsEntries(ctx, scope, k, 0, run, []);
        var keys := GroupKeys(c.chunks, ChunkPath);
        CategoriesFrom(ctx, scope, k + 1, c.run.(files := PushGroups(c.run.files, c.chunks, keys), pushed := PushChunkGroups(c.run.pushed, c.chunks, keys)))
  }

  /** The single-token projects of one server from index j on: each one's
      project information (of `{...serverConfig, ...projectConfig}`), then its
      category configurations in order. */
  function RunProjects(ctx: Context, server: ServerConfig, si: nat, projects: seq<ProjectConfig>, j: nat, run: Run): Result<Run, Error>
    requires j <= |projects|
    decreases |projects| - j
  {
    if j == |projects| then Success(run)
    else
      var project := projects[j];
      var info := ProjectInfoMemo(ctx.api, run.memo, MergedServerUrl(server, project), MergedToken(project));
      if info.0.Failure? then Failure(info.0.error)
      else
        var step := CategoriesFrom(ctx, Scope(server, si, project, j, info.0.value), 0, Run(info.1, run.files, run.pushed));
        if step.Failure? then Failure(step.error)
        else RunProjects(ctx, server, si, projects, j + 1, step.value)
  }

  function RunServers(ctx: Context, config: seq<ServerConfig>, i: nat, run: Run): Result<Run, Error>
    requires i <= |config|
    decreases |config| - i
  {
    if i == |config| then Success(run)
    else
      var step := RunProjects(ctx, config[i], i, ExpandTokens(config[i].projects), 0, run);
      if step.Failure? then Failure(step.error)
      else RunServers(ctx, config, i + 1, step.value)
  }

  /** Every server in declaration order, starting from memo tables `m` and no
      output files. */
  function GenerateRun(ctx: Context, config: seq<ServerConfig>, m: Memo): Result<Run, Error>
  {
    RunServers(ctx, config, 0, Run(m, map[], map[]))
  }

  /** What `generate` resolves to, starting from memo tables `m`: the output
      files, or the first error met in declaration order. */
  function GenerateSpec(ctx: Context, config: seq<ServerConfig>, m: Memo): Result<map<string, OutputFile>, Error>
  {
    var r := GenerateRun(ctx, config, m);
    if r.Failure? then Failure(r.error) else Success(r.value.files)
  }

  /** A method's outcome agrees with a step of the specification: the same
      error, or success in the state the step ends in. */
  predicate Agrees(spec: Result<Run, Error>, r: Result<(), Error>, now: Run)
  {
    && (spec.Failure? ==> r == Failure(spec.error))
    && (spec.Success? ==> r.Success? && spec.value == now)
  }

  /** A method that carries out one step of a run agrees with the rest of
      the specification: where the rest from its start fails, it fails with
      that error; where it succeeds, the rest from its start is the rest from
      where it stopped. */
  predicate Continues(before: Result<Run, Error>, r: Result<(), Error>, after: Result<Run, Error>)
  {
    before == if r.Success? then after else Failure(r.error)
  }

  /** One server further along the specification of `generate`. */
  lemma RunServersNext(ctx: Context, config: seq<ServerConfig>, i: nat, run: Run, r: Result<(), Error>, now: Run)
    requires i < |config|
    requires Agrees(RunProjects(ctx, config[i], i, ExpandTokens(config[i].projects), 0, run), r, now)
    ensures r.Failure? ==> RunServers(ctx, config, i, run) == Failure(r.error)
    ensures r.Success? ==> RunServers(ctx, config, i, run) == RunServers(ctx, config, i + 1, now)
  {
  }

  /** The pushes touch exactly the paths pushed to: each gets its group's
      codes appended after what it held, its configuration unchanged; every
      other entry is left as it is. */
  lemma {:induction false} PushGroupsContent(files: map<string, OutputFile>, chunks: seq<Chunk>, paths: seq<string>, q: string)
    requires forall p :: p in paths ==> p in files
    requires NoDup(paths)
    requires q in files
    ensures var r := PushGroups(files, chunks, paths);
      && r[q].syntheticalConfig == files[q].syntheticalConfig
      && r[q].content == files[q].content + (if q in paths then GroupCodes(chunks, q) else [])
  {
    if paths != [] {
      var p := paths[0];
      var next := files[p := files[p].(content := files[p].content + GroupCodes(chunks, p))];
      assert NoDup(paths[1..]) by {
        forall i, j | 0 <= i < j < |paths| - 1 ensures paths[1..][i] != paths[1..][j] {
          assert paths[1..][i] == paths[i + 1] && paths[1..][j] == paths[j + 1];
        }
      }
      assert p !in paths[1..] by {
        forall j | 0 <= j < |paths| - 1 ensures paths[1..][j] != p {
          assert paths[1..][j] == paths[j + 1];
        }
      }
      PushGroupsContent(next, chunks, paths[1..], q);
      assert q in paths <==> q == p || q in paths[1..];
    }
  }

  /** The codes a category configuration pushes onto a path are its chunks
      for that path, in weight order. */
  /** The entries after the pushes onto the paths in `done`. */
  function Pushed(files: map<string, OutputFile>, chunks: seq<Chunk>, done: seq<string>): (r: map<string, OutputFile>)
    ensures r.Keys == files.Keys
  {
    map q | q in files :: files[q].(content := files[q].content + if q in done then GroupCodes(chunks, q) else [])
  }

  /** Before any push, every entry is as it was. */
  lemma PushedNone(files: map<string, OutputFile>, chunks: seq<Chunk>)
    ensures Pushed(files, chunks, []) == files
  {
    forall q | q in files ensures Pushed(files, chunks, [])[q] == files[q] {
      assert files[q].content + [] == files[q].content;
    }
  }

  /** Pushing onto one more path. */
  lemma PushedSnoc(files: map<string, OutputFile>, chunks: seq<Chunk>, done: seq<string>, path: string)
    requires path in files && path !in done
    ensures Pushed(files, chunks, done + [path]) ==
      var now := Pushed(files, chunks, done);
      now[path := now[path].(content := now[path].content + GroupCodes(chunks, path))]
  {
    var now := Pushed(files, chunks, done);
    var next := now[path := now[path].(content := now[path].content + GroupCodes(chunks, path))];
    forall q | q in files ensures Pushed(files, chunks, done + [path])[q] == next[q] {
      assert q in done + [path] <==> q in done || q == path;
    }
  }

  /** The pushes of distinct paths, one after another, are the pushes onto all
      of them at once. */
  lemma PushGroupsIsPushed(files: map<string, OutputFile>, chunks: seq<Chunk>, paths: seq<string>)
    requires forall p :: p in paths ==> p in files
    requires NoDup(paths)
    ensures PushGroups(files, chunks, paths) == Pushed(files, chunks, paths)
  {
    forall q | q in files ensures PushGroups(files, chunks, paths)[q] == Pushed(files, chunks, paths)[q] {
      PushGroupsContent(files, chunks, paths, q);
    }
  }

  lemma GroupCodesOrdered(chunks: seq<Chunk>, path: string)
    ensures var sorted := SortedGroup(chunks, path);
      && SortedBy(sorted, ChunkWeightsOf, WeightsLe)
      && multiset(sorted) == multiset(Having(chunks, ChunkPath, path))
  {
    WeightsLeTotalPreorder();
    SortBySorted(Having(chunks, ChunkPath, path), ChunkWeightsOf, WeightsLe);
    SortByPermutes(Having(chunks, ChunkPath, path), ChunkWeightsOf, WeightsLe);
  }

  /** How `prepare` ends: rejected for a missing workspace, a dismissed input
      box, an invalid token, an invalid URL or an input that is neither. */
  datatype PrepareError = NoWorkspace | Dismissed | BadToken | BadUrl | BadInput

  /** `if (!answer)`: an input box that was dismissed or left empty. */
  predicate Typed(answer: Option<string>)
  {
    answer.Some? && answer.value != ""
  }

  /** Makes sure each chunk's output file has an entry, creating the missing
      ones with `sc`. */
  method EnsureChunks(out: OutputFileList, chunks: seq<Chunk>, sc: Layer)
    requires out.Valid()
    modifies out
    ensures out.Valid()
    ensures out.files == EnsureEntries(old(out.files), MapSeq(chunks, ChunkPath), sc)
    ensures out.pushed == old(out.pushed)
  {
    var paths := MapSeq(chunks, ChunkPath);
    ghost var goal := EnsureEntries(out.files, paths, sc);
    ghost var pushed0 := out.pushed;
    var n := 0;
    while n < |paths|
      invariant 0 <= n <= |paths|
      invariant out.Valid()
      invariant goal == EnsureEntries(out.files, paths[n..], sc)
      invariant out.pushed == pushed0
    {
      out.Ensure(paths[n], sc);
      assert paths[n..][1..] == paths[n + 1..];
      n := n + 1;
    }
  }

  /** During the pushes of category configuration (s, p, c): every recorded
      chunk is of a configuration up to (s, p, c), and a path not yet pushed to
      holds only chunks of earlier ones. */
  ghost predicate PushedUpTo(pushed: map<string, seq<Chunk>>, done: seq<string>, s: nat, p: nat, c: nat)
  {
    forall q, i :: q in pushed && 0 <= i < |pushed[q]| ==>
      Precedes(pushed[q][i].weights, s, p, c + 1) && (q !in done ==> Precedes(pushed[q][i].weights, s, p, c))
  }

  /** A path not yet pushed to holds only chunks no heavier than those of
      (s, p, c). */
  lemma PushAllowed(pushed: map<string, seq<Chunk>>, done: seq<string>, path: string, group: seq<Chunk>, s: nat, p: nat, c: nat)
    requires PushedUpTo(pushed, done, s, p, c)
    requires path !in done
    requires forall i :: 0 <= i < |group| ==> InCategory(group[i].weights, s, p, c)
    ensures |group| > 0 ==> forall x :: x in PushedAt(pushed, path) ==> WeightsLe(x.weights, group[0].weights)
  {
    if |group| > 0 && path in pushed {
      forall x | x in pushed[path] ensures WeightsLe(x.weights, group[0].weights) {
        var i :| 0 <= i < |pushed[path]| && pushed[path][i] == x;
        assert Precedes(pushed[path][i].weights, s, p, c);
      }
    }
  }

  /** Pushing chunks of (s, p, c) onto a path marks that path as done. */
  lemma PushedUpToStep(w0: map<string, seq<Chunk>>, w1: map<string, seq<Chunk>>, done: seq<string>, path: string, group: seq<Chunk>, s: nat, p: nat, c: nat)
    requires PushedUpTo(w0, done, s, p, c)
    requires w1 == w0[path := PushedAt(w0, path) + group]
    requires forall i :: 0 <= i < |group| ==> InCategory(group[i].weights, s, p, c)
    ensures PushedUpTo(w1, done + [path], s, p, c)
  {
    forall q, i | q in w1 && 0 <= i < |w1[q]|
      ensures Precedes(w1[q][i].weights, s, p, c + 1) && (q !in done + [path] ==> Precedes(w1[q][i].weights, s, p, c))
    {
      if q == path && i >= |PushedAt(w0, path)| {
        assert w1[q][i] == group[i - |PushedAt(w0, path)|];
      } else {
        assert w1[q][i] == w0[q][i];
      }
    }
  }

  /** One output path of a category configuration (s, p, c): its chunks, in
      weight order, pushed onto its entry and recorded for it. */
  method PushGroup(out: OutputFileList, chunks: seq<Chunk>, path: string, ghost done: seq<string>, ghost s: nat, ghost p: nat, ghost c: nat)
    requires out.Valid()
    requires PushedUpTo(out.pushed, done, s, p, c)
    requires path in out.files && path !in done
    requires forall x :: x in chunks ==> InCategory(x.weights, s, p, c)
    modifies out
    ensures out.Valid()
    ensures out.files == old(out.files)[path := old(out.files)[path].(content := old(out.files)[path].content + GroupCodes(chunks, path))]
    ensures out.pushed == old(out.pushed)[path := PushedAt(old(out.pushed), path) + SortedGroup(chunks, path)]
    ensures PushedUpTo(out.pushed, done + [path], s, p, c)
  {
    var group := SortedGroup(chunks, path);
    GroupWeights(chunks, path, s, p, c);
    PushAllowed(out.pushed, done, path, group, s, p, c);
    ghost var w0 := out.pushed;
    out.Push(path, MapSeq(group, ChunkCode), group);
    PushedUpToStep(w0, out.pushed, done, path, group, s, p, c);
  }

  /** One path's group of chunks of category configuration (s, p, c): in
      weight order, and all of that configuration. */
  lemma GroupWeights(chunks: seq<Chunk>, path: string, s: nat, p: nat, c: nat)
    requires forall x :: x in chunks ==> InCategory(x.weights, s, p, c)
    ensures var group := SortedGroup(chunks, path);
      && InWeightOrder(group)
      && (forall i :: 0 <= i < |group| ==> InCategory(group[i].weights, s, p, c))
  {
    var group := SortedGroup(chunks, path);
    GroupCodesOrdered(chunks, path);
    HavingMembers(chunks, ChunkPath, path);
    forall i | 0 <= i < |group| ensures InCategory(group[i].weights, s, p, c) {
      assert group[i] in multiset(group);
    }
  }

  /** The first path still to push is not among those done, and moves onto
      them. */
  lemma MoveFirst(done: seq<string>, rest: seq<string>)
    requires rest != [] && NoDup(done + rest)
    ensures rest[0] !in done
    ensures done + rest == (done + [rest[0]]) + rest[1..]
  {
    forall i | 0 <= i < |done| ensures done[i] != rest[0] {
      assert (done + rest)[i] == done[i] && (done + rest)[|done|] == rest[0];
    }
  }

  /** `for (const groupedCodes of values(groupBy(codes, outputFilePath)))`:
      pushes each path's chunks of one category configuration (s, p, c) in
      weight order. Every entry then holds only chunks of configurations up to
      (s, p, c), so each path's content stays in weight order. */
  method PushChunks(out: OutputFileList, chunks: seq<Chunk>, ghost s: nat, ghost p: nat, ghost c: nat)
    requires out.Valid()
    requires AllPrecede(out.pushed, s, p, c)
    requires forall x :: x in chunks ==> x.outputFilePath in out.files && InCategory(x.weights, s, p, c)
    modifies out
    ensures out.Valid()
    ensures out.files == PushGroups(old(out.files), chunks, GroupKeys(chunks, ChunkPath))
    ensures out.pushed == PushChunkGroups(old(out.pushed), chunks, GroupKeys(chunks, ChunkPath))
    ensures AllPrecede(out.pushed, s, p, c + 1)
  {
    var keys := GroupKeys(chunks, ChunkPath);
    assert forall q :: q in keys ==> q in out.files;
    ghost var files := PushGroups(out.files, chunks, keys);
    ghost var pushed := PushChunkGroups(out.pushed, chunks, keys);
    var rest := keys;
    ghost var done: seq<string> := [];
    while rest != []
      invariant out.Valid()
      invariant NoDup(done + rest)
      invariant forall q :: q in rest ==> q in out.files
      invariant files == PushGroups(out.files, chunks, rest)
      invariant pushed == PushChunkGroups(out.pushed, chunks, rest)
      invariant PushedUpTo(out.pushed, done, s, p, c)
      decreases |rest|
    {
      var path := rest[0];
      MoveFirst(done, rest);
      PushGroup(out, chunks, path, done, s, p, c);
      rest, done := rest[1..], done + [path];
    }
  }

  class Generator {
    const api: Api
    const hooks: Hooks
    var config: seq<ServerConfig>
    var url: string
    var token: string
    var cwd: string
    /** The memo tables of `fetchProject` and `fetchExport`, by `MemoKey`. */
    var projectCache: map<string, Result<Project, Error>>
    var exportCache: map<string, Result<seq<Category>, Error>>
    /** The server and token whose request filled each cache entry. */
    ghost var projectOrigin: map<string, (string, string)>
    ghost var exportOrigin: map<string, (string, string)>
    /** The keys requested from `/api/project/get` and `/api/plugin/export`, in order. */
    ghost var projectRequests: seq<string>
    ghost var exportRequests: seq<string>

    /** Each endpoint was asked once per cached key and never otherwise, and
        every cached answer is what the server gives for the pair that filled
        the entry; an export is only cached after its project. */
    ghost predicate Valid()
      reads this`projectCache, this`projectOrigin, this`projectRequests
      reads this`exportCache, this`exportOrigin, this`exportRequests
    {
      ProjectsValid() && ExportsValid()
    }

    ghost predicate ProjectsValid()
      reads this`projectCache, this`projectOrigin, this`projectRequests
    {
      && projectOrigin.Keys == projectCache.Keys
      && NoDup(projectRequests) && (forall k :: k in projectRequests <==> k in projectCache)
      && ProjectsFilled(api, projectCache, projectOrigin, projectRequests)
    }

    ghost predicate ExportsValid()
      reads this`projectCache, this`exportCache, this`exportOrigin, this`exportRequests
    {
      && exportOrigin.Keys == exportCache.Keys
      && exportCache.Keys <= projectCache.Keys
      && NoDup(exportRequests) && (forall k :: k in exportRequests <==> k in exportCache)
      && ExportsFilled(api, projectCache, exportCache, exportOrigin, exportRequests)
    }

    function MemoOf(): Memo
      reads this`projectCache, this`exportCache
    {
      Memo(projectCache, exportCache)
    }

    function ContextOf(): Context
      reads this`cwd
    {
      Context(api, hooks, cwd)
    }

    constructor(api: Api, hooks: Hooks)
      ensures Valid()
      ensures this.api == api && this.hooks == hooks
      ensures config == [] && url == "" && token == "" && cwd == ""
      ensures projectCache == map[] && exportCache == map[]
    {
      this.api := api;
      this.hooks := hooks;
      config := [];
      url := "";
      token := "";
      cwd := "";
      projectCache := map[];
      exportCache := map[];
      projectOrigin := map[];
      exportOrigin := map[];
      projectRequests := [];
      exportRequests := [];
    }

    /** `prepare`: the workspace (the clicked folder, else the first workspace
        folder) becomes the working directory; the first answer is a URL
        (stored without trailing slashes and written to the storage file) to
        be followed by a token, or a token, with the URL then read from the
        storage file or, when that is empty, asked for. `stored` is the storage
        file's content and `saved` what is written to it. */
    method Prepare(uri: Option<string>, workspace: Option<string>, first: Option<string>, second: Option<string>, stored: string)
      returns (r: Result<(), PrepareError>, saved: Option<string>)
      modifies this`cwd, this`url, this`token
      ensures r == Failure(NoWorkspace) <==> uri.None? && workspace.None?
      ensures r == Failure(NoWorkspace) ==> cwd == old(cwd) && url == old(url) && token == old(token) && saved == None
      ensures r != Failure(NoWorkspace) ==> cwd == (if uri.Some? then uri.value else workspace.value)
      ensures r != Failure(NoWorkspace) && !Typed(first) ==> r == Failure(Dismissed)
      ensures r != Failure(NoWorkspace) && Typed(first) && !IsUrl(first.value) && !IsToken(first.value) ==> r == Failure(BadInput)
      ensures r != Failure(NoWorkspace) && Typed(first) && IsUrl(first.value) ==>
        && url == StripTrailing(first.value, '/') && saved == Some(url)
        && (r.Success? <==> Typed(second) && IsToken(second.value))
        && (Typed(second) && !IsToken(second.value) ==> r == Failure(BadToken))
        && (r.Success? ==> token == second.value)
      ensures r != Failure(NoWorkspace) && Typed(first) && IsToken(first.value) ==>
        && token == first.value
        && (stored != "" ==> r.Success? && url == stored && saved == None)
        && (stored == "" ==> (r.Success? <==> Typed(second) && IsUrl(second.value)))
        && (stored == "" && Typed(second) && !IsUrl(second.value) ==> r == Failure(BadUrl))
        && (stored == "" && r.Success? ==> url == StripTrailing(second.value, '/') && saved == Some(url))
      ensures r.Success? ==> IsToken(token) && url != ""
    {
      saved := None;
      var dir := if uri.Some? then uri else workspace;
      if dir.None? {
        return Failure(NoWorkspace), saved;
      }
      cwd := dir.value;
      if !Typed(first) {
        return Failure(Dismissed), saved;
      }
      var res := first.value;
      UrlAndTokenDisjoint(res);
      if IsUrl(res) {
        url := StripTrailing(res, '/');
        saved := Some(url);
        if !Typed(second) {
          return Failure(Dismissed), saved;
        }
        if IsToken(second.value) {
          token := second.value;
          StrippedUrlKeepsColon(res);
          return Success(()), saved;
        }
        return Failure(BadToken), saved;
      } else if IsToken(res) {
        token := res;
        url := stored;
        if url == "" {
          if !Typed(second) {
            return Failure(Dismissed), saved;
          }
          if IsUrl(second.value) {
            url := StripTrailing(second.value, '/');
            saved := Some(url);
            StrippedUrlKeepsColon(second.value);
            return Success(()), saved;
          }
          return Failure(BadUrl), saved;
        }
      } else {
        return Failure(BadInput), saved;
      }
      r := Success(());
    }

    /** `setConfig`: one server at the prepared URL with one project holding the
        prepared token, every category, types only, `yapi/index.ts`. */
    method SetConfig()
      modifies this`config
      ensures config == DefaultConfig(url, token)
      ensures |config| == 1 && config[0].serverUrl == url
      ensures ExpandTokens(config[0].projects) == config[0].projects
      ensures config[0].projects[0].token == OneToken(token)
    {
      config := DefaultConfig(url, token);
      ExpandTokensOfOne(config[0].projects[0]);
      assert config[0].projects == [config[0].projects[0]];
    }

    /** `fetchProject`: the cached answer for the key, or one request whose
        answer (failure included) is cached. */
    method FetchProject(serverUrl: string, token: string) returns (r: Result<Project, Error>)
      requires Valid()
      modifies this`projectCache, this`projectOrigin, this`projectRequests
      ensures Valid()
      ensures (r, MemoOf()) == MemoProject(api, old(MemoOf()), serverUrl, token)
      ensures MemoKey(serverUrl, token) in old(projectCache) ==> projectRequests == old(projectRequests)
      ensures MemoKey(serverUrl, token) !in old(projectCache) ==> projectRequests == old(projectRequests) + [MemoKey(serverUrl, token)]
      ensures '|' !in serverUrl && '|' !in projectOrigin[MemoKey(serverUrl, token)].0 ==>
        r == ProjectResult(api, serverUrl, token)
    {
      var key := MemoKey(serverUrl, token);
      if key in projectCache {
        ProjectsFilledAt(api, projectCache, projectOrigin, projectRequests, key);
        r := projectCache[key];
      } else {
        r := ProjectResult(api, serverUrl, token);
        assert key !in projectRequests;
        NoDupSnoc(projectRequests, key);
        ProjectsFilledAdd(api, projectCache, projectOrigin, projectRequests, serverUrl, token);
        ExportsFilledProjects(api, projectCache, projectCache[key := r], exportCache, exportOrigin, exportRequests);
        projectCache := projectCache[key := r];
        projectOrigin := projectOrigin[key := (serverUrl, token)];
        projectRequests := projectRequests + [key];
      }
      var origin := projectOrigin[key];
      if '|' !in serverUrl && '|' !in origin.0 {
        MemoKeyInjective(serverUrl, token, origin.0, origin.1);
      }
    }

    /** `fetchExport`: the cached answer for the key, or the project (through
        `fetchProject`) and then one export request, whose outcome is cached. */
    method FetchExport(serverUrl: string, token: string) returns (r: Result<seq<Category>, Error>)
      requires Valid()
      modifies this`projectCache, this`projectOrigin, this`projectRequests
      modifies this`exportCache, this`exportOrigin, this`exportRequests
      ensures Valid()
      ensures (r, MemoOf()) == MemoExport(api, old(MemoOf()), serverUrl, token)
      ensures MemoKey(serverUrl, token) in old(exportCache) ==> exportRequests == old(exportRequests)
      ensures MemoKey(serverUrl, token) !in old(exportCache) ==> exportRequests == old(exportRequests) + [MemoKey(serverUrl, token)]
    {
      var key := MemoKey(serverUrl, token);
      if key in exportCache {
        r := exportCache[key];
      } else {
        var project := FetchProject(serverUrl, token);
        r := ExportResult(api, serverUrl, token, project);
        StoreExport(serverUrl, token, r);
      }
    }

    /** Caches the export fetched for a key that had none. */
    method StoreExport(serverUrl: string, token: string, r: Result<seq<Category>, Error>)
      requires Valid()
      requires MemoKey(serverUrl, token) in projectCache && MemoKey(serverUrl, token) !in exportCache
      requires r == ExportResult(api, serverUrl, token, projectCache[MemoKey(serverUrl, token)])
      modifies this`exportCache, this`exportOrigin, this`exportRequests
      ensures Valid()
      ensures exportCache == old(exportCache)[MemoKey(serverUrl, token) := r]
      ensures exportRequests == old(exportRequests) + [MemoKey(serverUrl, token)]
    {
      var key := MemoKey(serverUrl, token);
      assert key !in exportRequests;
      NoDupSnoc(exportRequests, key);
      ExportsFilledAdd(api, projectCache, exportCache, exportOrigin, exportRequests, serverUrl, token);
      exportCache := exportCache[key := r];
      exportOrigin := exportOrigin[key := (serverUrl, token)];
      exportRequests := exportRequests + [key];
    }

    /** `fetchProjectInfo`: the project of the merged server and project
        configuration, with its category menu. */
    method FetchProjectInfo(serverUrl: string, token: string) returns (r: Result<ProjectInfo, Error>)
      requires Valid()
      modifies this`projectCache, this`projectOrigin, this`projectRequests
      ensures Valid()
      ensures (r, MemoOf()) == ProjectInfoMemo(api, old(MemoOf()), serverUrl, token)
    {
      var project := FetchProject(serverUrl, token);
      if project.Failure? {
        return Failure(project.error);
      }
      var cats := FetchApi(api.getCatMenu(serverUrl, token, project.value.id));
      if cats.Failure? {
        return Failure(cats.error);
      }
      r := Success(ProjectInfo(project.value, cats.value, serverUrl));
    }

    /** `fetchInterfaceList`: the interfaces of the first exported category
        whose first interface has the configuration's category id. */
    method FetchInterfaceList(sc: Layer) returns (r: Result<seq<Interface>, Error>)
      requires Valid()
      modifies this`projectCache, this`projectOrigin, this`projectRequests
      modifies this`exportCache, this`exportOrigin, this`exportRequests
      ensures Valid()
      ensures (r, MemoOf()) == InterfaceListMemo(api, old(MemoOf()), sc)
    {
      var cats := FetchExport(ServerUrlOf(sc), TokenOf(sc));
      if cats.Failure? {
        return Failure(cats.error);
      }
      r := Success(FindInterfaceList(cats.value, Get(sc, "id")));
    }

    /** One category id of category configuration (s, p, k): its interface
        list, prepared, turned into fragments and chunks; entries for the
        chunks' output files are created on the way. The chunks come back to
        the caller, who holds those collected so far. */
    method GenerateId(out: OutputFileList, scope: Scope, k: nat, m: nat, ghost chunks: seq<Chunk>) returns (r: Result<seq<Chunk>, Error>)
      requires Valid() && out.Valid()
      requires k < |scope.project.categories|
      requires m < |CategoryIds(scope, k)|
      requires forall x :: x in chunks ==> x.outputFilePath in out.files
      modifies out, this`projectCache, this`projectOrigin, this`projectRequests
      modifies this`exportCache, this`exportOrigin, this`exportRequests
      ensures Valid() && out.Valid()
      ensures forall p :: p in old(out.files) ==> p in out.files
      ensures r.Success? ==> forall x :: x in r.value ==>
        x.outputFilePath in out.files && x.weights == Weights(scope.serverIndex, scope.projectIndex, k, m)
      ensures r.Failure? ==> IdsFrom(ContextOf(), scope, k, m, old(Run(MemoOf(), out.files, out.pushed)), chunks) == Failure(r.error)
      ensures r.Success? ==>
        IdsFrom(ContextOf(), scope, k, m, old(Run(MemoOf(), out.files, out.pushed)), chunks)
        == IdsFrom(ContextOf(), scope, k, m + 1, Run(MemoOf(), out.files, out.pushed), chunks + r.value)
      ensures out.pushed == old(out.pushed)
    {
      ghost var before := IdStep(ContextOf(), scope, k, m, Run(MemoOf(), out.files, out.pushed), chunks);
      assert before == IdFetch(ContextOf(), scope, k, m, Run(MemoOf(), out.files, out.pushed), chunks);
      var sc := IdConfig(scope, scope.project.categories[k], CategoryIds(scope, k)[m]);
      var list := FetchInterfaceList(sc);
      if list.Failure? {
        return Failure(list.error);
      }
      assert before == IdInterfaces(ContextOf(), scope, k, m, Run(MemoOf(), out.files, out.pushed), chunks, list.value);
      var prepared := PrepareInterfaces(hooks, sc, scope.info.project, list.value);
      var w := Weights(scope.serverIndex, scope.projectIndex, k, m);
      var fragments := MakeFragments(hooks, cwd, sc, prepared, w);
      if fragments.Failure? {
        return Failure(fragments.error);
      }
      var made := CategoryChunks(fragments.value, sc);
      ChunksCarry(fragments.value, sc, w);
      EnsureChunks(out, made, sc);
      r := Success(made);
    }

    /** The selected ids of one category configuration in order, collecting
        their chunks. */
    method GenerateIds(out: OutputFileList, scope: Scope, k: nat) returns (r: Result<seq<Chunk>, Error>)
      requires Valid() && out.Valid()
      requires k < |scope.project.categories|
      requires AllPrecede(out.pushed, scope.serverIndex, scope.projectIndex, k)
      modifies out, this`projectCache, this`projectOrigin, this`projectRequests
      modifies this`exportCache, this`exportOrigin, this`exportRequests
      ensures Valid() && out.Valid()
      ensures AllPrecede(out.pushed, scope.serverIndex, scope.projectIndex, k)
      ensures r.Success? ==> forall x :: x in r.value ==>
        x.outputFilePath in out.files && InCategory(x.weights, scope.serverIndex, scope.projectIndex, k)
      ensures r.Failure? ==> IdsFrom(ContextOf(), scope, k, 0, old(Run(MemoOf(), out.files, out.pushed)), []) == Failure(r.error)
      ensures r.Success? ==>
        IdsFrom(ContextOf(), scope, k, 0, old(Run(MemoOf(), out.files, out.pushed)), []) == Success(Collected(Run(MemoOf(), out.files, out.pushed), r.value))
    {
      var ids := CategoryIds(scope, k);
      ghost var goal := IdsFrom(ContextOf(), scope, k, 0, Run(MemoOf(), out.files, out.pushed), []);
      var chunks: seq<Chunk> := [];
      var m := 0;
      while m < |ids|
        invariant 0 <= m <= |ids|
        invariant Valid() && out.Valid()
        invariant forall x :: x in chunks ==> x.outputFilePath in out.files && InCategory(x.weights, scope.serverIndex, scope.projectIndex, k)
        invariant goal == IdsFrom(ContextOf(), scope, k, m, Run(MemoOf(), out.files, out.pushed), chunks)
        invariant AllPrecede(out.pushed, scope.serverIndex, scope.projectIndex, k)
      {
        var step := GenerateId(out, scope, k, m, chunks);
        if step.Failure? {
          return Failure(step.error);
        }
        chunks := chunks + step.value;
        m := m + 1;
      }
      r := Success(chunks);
    }

    /** One category configuration: its selected ids in order, then the pushes
        of the collected chunks. */
    method GenerateCategory(out: OutputFileList, scope: Scope, k: nat) returns (r: Result<(), Error>)
      requires Valid() && out.Valid()
      requires k < |scope.project.categories|
      requires AllPrecede(out.pushed, scope.serverIndex, scope.projectIndex, k)
      modifies out, this`projectCache, this`projectOrigin, this`projectRequests
      modifies this`exportCache, this`exportOrigin, this`exportRequests
      ensures Valid() && out.Valid()
      ensures Continues(CategoriesFrom(ContextOf(), scope, k, old(Run(MemoOf(), out.files, out.pushed))), r,
                        CategoriesFrom(ContextOf(), scope, k + 1, Run(MemoOf(), out.files, out.pushed)))
      ensures r.Success? ==> AllPrecede(out.pushed, scope.serverIndex, scope.projectIndex, k + 1)
    {
      var collected := GenerateIds(out, scope, k);
      if collected.Failure? {
        return Failure(collected.error);
      }
      PushChunks(out, collected.value, scope.serverIndex, scope.projectIndex, k);
      r := Success(());
    }

    /** The category configurations of one project in order. */
    method GenerateCategories(out: OutputFileList, scope: Scope) returns (r: Result<(), Error>)
      requires Valid() && out.Valid()
      requires AllPrecede(out.pushed, scope.serverIndex, scope.projectIndex, 0)
      modifies out, this`projectCache, this`projectOrigin, this`projectRequests
      modifies this`exportCache, this`exportOrigin, this`exportRequests
      ensures Valid() && out.Valid()
      ensures Agrees(CategoriesFrom(ContextOf(), scope, 0, old(Run(MemoOf(), out.files, out.pushed))), r, Run(MemoOf(), out.files, out.pushed))
      ensures r.Success? ==> AllPrecede(out.pushed, scope.serverIndex, scope.projectIndex + 1, 0)
    {
      ghost var ctx := ContextOf();
      ghost var before := CategoriesFrom(ctx, scope, 0, Run(MemoOf(), out.files, out.pushed));
      r := Success(());
      var k := 0;
      while k < |scope.project.categories|
        invariant 0 <= k <= |scope.project.categories|
        invariant Valid() && out.Valid()
        invariant ctx == ContextOf()
        invariant r.Success? && before == CategoriesFrom(ctx, scope, k, Run(MemoOf(), out.files, out.pushed))
        invariant AllPrecede(out.pushed, scope.serverIndex, scope.projectIndex, k)
      {
        r := GenerateCategory(out, scope, k);
        if r.Failure? {
          return;
        }
        k := k + 1;
      }
      AllPrecedeLater(out.pushed, scope.serverIndex, scope.projectIndex, k, scope.serverIndex, scope.projectIndex + 1, 0);
    }

    /** One single-token project: its project information, then its category
        configurations in order. */
    method GenerateProject(out: OutputFileList, server: ServerConfig, si: nat, projects: seq<ProjectConfig>, j: nat) returns (r: Result<(), Error>)
      requires Valid() && out.Valid()
      requires j < |projects|
      requires AllPrecede(out.pushed, si, j, 0)
      modifies out, this`projectCache, this`projectOrigin, this`projectRequests
      modifies this`exportCache, this`exportOrigin, this`exportRequests
      ensures Valid() && out.Valid()
      ensures Continues(RunProjects(ContextOf(), server, si, projects, j, old(Run(MemoOf(), out.files, out.pushed))), r,
                        RunProjects(ContextOf(), server, si, projects, j + 1, Run(MemoOf(), out.files, out.pushed)))
      ensures r.Success? ==> AllPrecede(out.pushed, si, j + 1, 0)
    {
      ghost var ctx := ContextOf();
      ghost var run := Run(MemoOf(), out.files, out.pushed);
      var project := projects[j];
      var info := FetchProjectInfo(MergedServerUrl(server, project), MergedToken(project));
      if info.Failure? {
        return Failure(info.error);
      }
      var scope := Scope(server, si, project, j, info.value);
      ghost var step := CategoriesFrom(ctx, scope, 0, Run(MemoOf(), out.files, out.pushed));
      r := GenerateCategories(out, scope);
    }

    /** One server: its projects, one per token, in order. */
    method GenerateServer(out: OutputFileList, server: ServerConfig, si: nat) returns (r: Result<(), Error>)
      requires Valid() && out.Valid()
      requires AllPrecede(out.pushed, si, 0, 0)
      modifies out, this`projectCache, this`projectOrigin, this`projectRequests
      modifies this`exportCache, this`exportOrigin, this`exportRequests
      ensures Valid() && out.Valid()
      ensures Agrees(RunProjects(ContextOf(), server, si, ExpandTokens(server.projects), 0, old(Run(MemoOf(), out.files, out.pushed))), r, Run(MemoOf(), out.files, out.pushed))
      ensures r.Success? ==> AllPrecede(out.pushed, si + 1, 0, 0)
    {
      var projects := ExpandTokens(server.projects);
      ghost var ctx := ContextOf();
      ghost var goal := RunProjects(ctx, server, si, projects, 0, Run(MemoOf(), out.files, out.pushed));
      r := Success(());
      var j := 0;
      while j < |projects|
        invariant 0 <= j <= |projects|
        invariant Valid() && out.Valid()
        invariant ctx == ContextOf()
        invariant r.Success? && goal == RunProjects(ctx, server, si, projects, j, Run(MemoOf(), out.files, out.pushed))
        invariant AllPrecede(out.pushed, si, j, 0)
      {
        r := GenerateProject(out, server, si, projects, j);
        if r.Failure? {
          return;
        }
        j := j + 1;
      }
      AllPrecedeLater(out.pushed, si, j, 0, si + 1, 0, 0);
    }

    /** `generate`: every server, project and category configuration in
        declaration order. On success the output files are what the
        specification gives, `pushed` holds the chunks the specification
        records, and each file's content is the codes of its chunks, which
        come in weight order. */
    method Generate() returns (r: Result<map<string, OutputFile>, Error>, ghost pushed: map<string, seq<Chunk>>)
      requires Valid()
      modifies this`projectCache, this`projectOrigin, this`projectRequests
      modifies this`exportCache, this`exportOrigin, this`exportRequests
      ensures Valid()
      ensures r == GenerateSpec(ContextOf(), config, old(MemoOf()))
      ensures r.Success? ==> GenerateRun(ContextOf(), config, old(MemoOf())) == Success(Run(MemoOf(), r.value, pushed))
      ensures r.Success? ==> pushed.Keys <= r.value.Keys && forall p :: p in r.value ==>
        r.value[p].content == MapSeq(PushedAt(pushed, p), ChunkCode) && InWeightOrder(PushedAt(pushed, p))
    {
      var out := new OutputFileList();
      ghost var ctx := ContextOf();
      ghost var goal := RunServers(ctx, config, 0, Run(MemoOf(), out.files, out.pushed));
      var i := 0;
      while i < |config|
        invariant 0 <= i <= |config|
        invariant fresh(out)
        invariant Valid() && out.Valid()
        invariant ctx == ContextOf()
        invariant goal == RunServers(ctx, config, i, Run(MemoOf(), out.files, out.pushed))
        invariant AllPrecede(out.pushed, i, 0, 0)
      {
        ghost var runI := Run(MemoOf(), out.files, out.pushed);
        var step := GenerateServer(out, config[i], i);
        RunServersNext(ctx, config, i, runI, step, Run(MemoOf(), out.files, out.pushed));
        if step.Failure? {
          return Failure(step.error), out.pushed;
        }
        i := i + 1;
      }
      return Success(out.files), out.pushed;
    }
  }
}
