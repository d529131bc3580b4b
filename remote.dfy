/** What the generator learns from the documentation server: the reply rule of
    `fetchApi`, the project record with its normalised base path, the bulk export
    of categories with their interfaces, and the lookups over them. The HTTP
    client itself is a parameter (`Api`). */
module Remote {
  import opened Wrappers
  import opened Text
  import opened Config

  datatype Error =
    | FetchError(message: string)      // the server answered with a truthy errcode
    | TransportError(reason: string)   // the request itself failed
    | SynthesisError(message: string)  // an output path or the interface code could not be produced

  /** A reply body `{ errcode, errmsg, data }`, or a failed request. */
  datatype Reply<T> = Reply(errcode: int, errmsg: string, data: T) | Unreachable(reason: string)

  /** `fetchApi`: a truthy errcode raises an error carrying errmsg, a failed
      request propagates, otherwise the data is the answer. */
  function FetchApi<T>(reply: Reply<T>): (r: Result<T, Error>)
    ensures r.Failure? <==> reply.Unreachable? || reply.errcode != 0
    ensures r.Failure? && reply.Reply? ==> r.error == FetchError(reply.errmsg)
    ensures r.Success? ==> r.value == reply.data
  {
    match reply
    case Unreachable(reason) => Failure(TransportError(reason))
    case Reply(errcode, errmsg, data) => if errcode != 0 then Failure(FetchError(errmsg)) else Success(data)
  }

  datatype Env = Env(name: string, domain: string)

  /** `getDevUrl`/`getProdUrl`: the domain of the first environment whose name is
      the requested one, or '' when there is none. */
  function EnvDomain(envs: seq<Env>, name: Value): (d: string)
    ensures (forall i :: 0 <= i < |envs| ==> Str(envs[i].name) != name) ==> d == ""
    ensures forall i :: (0 <= i < |envs| && Str(envs[i].name) == name &&
      (forall j :: 0 <= j < i ==> Str(envs[j].name) != name)) ==> d == envs[i].domain
  {
    if envs == [] then ""
    else if Str(envs[0].name) == name then envs[0].domain
    else EnvDomain(envs[1..], name)
  }

  /** A project as the server sends it; an absent or empty `basepath` is "". */
  datatype RawProject = RawProject(id: int, basepath: string, env: seq<Env>)

  datatype Project = Project(id: int, basepath: string, url: string, env: seq<Env>)

  /** `/${basepath || '/'}` with trailing slashes removed and leading ones collapsed. */
  function NormalizeBasePath(raw: string): string
  {
    var prefixed := "/" + (if raw == "" then "/" else raw);
    var stripped := StripTrailing(prefixed, '/');
    if |stripped| > 0 && stripped[0] == '/' then "/" + DropLeading(stripped, '/') else stripped
  }

  /** The base path is the raw one without its leading and trailing slashes,
      behind a single '/', or empty when nothing else is left. */
  lemma NormalizeBasePathTrims(raw: string)
    ensures var core := DropLeading(StripTrailing(raw, '/'), '/');
      NormalizeBasePath(raw) == if core == "" then "" else "/" + core
  {
    var prefixed := "/" + (if raw == "" then "/" else raw);
    var stripped := StripTrailing(prefixed, '/');
    var tail := StripTrailing(raw, '/');
    if raw == "" {
      StripTrailingShape(prefixed, '/');
      assert stripped == "";
    } else if tail == "" {
      StripTrailingShape(raw, '/');
      StripTrailingShape(prefixed, '/');
      assert forall i :: 0 <= i < |prefixed| ==> prefixed[i] == '/';
      assert stripped == "";
    } else {
      assert prefixed == "/" + raw;
      StripTrailingShape(raw, '/');
      DropLeadingShape(tail, '/');
      StripTrailingUnderPrefix("/", raw, '/');
      assert stripped == "/" + tail;
      DropLeadingUnderPrefix("/", tail, '/');
    }
  }

  lemma {:induction false} StripTrailingUnderPrefix(p: string, s: string, c: char)
    requires StripTrailing(s, c) != ""
    ensures StripTrailing(p + s, c) == p + StripTrailing(s, c)
    decreases |s|
  {
    if |s| > 0 && s[|s| - 1] == c {
      assert (p + s)[..|p + s| - 1] == p + s[..|s| - 1];
      StripTrailingUnderPrefix(p, s[..|s| - 1], c);
    }
  }

  lemma DropLeadingUnderPrefix(p: string, s: string, c: char)
    requires forall i :: 0 <= i < |p| ==> p[i] == c
    ensures DropLeading(p + s, c) == DropLeading(s, c)
    decreases |p|
  {
    if |p| > 0 {
      assert (p + s)[1..] == p[1..] + s;
      DropLeadingUnderPrefix(p[1..], s, c);
    } else {
      assert p + s == s;
    }
  }

  /** What is left of a base path between its leading and trailing slashes
      neither starts nor ends with '/'. */
  lemma TrimmedCoreShape(raw: string)
    ensures var core := DropLeading(StripTrailing(raw, '/'), '/');
      core == "" || (core[0] != '/' && core[|core| - 1] != '/')
  {
    var t := StripTrailing(raw, '/');
    var core := DropLeading(t, '/');
    StripTrailingShape(raw, '/');
    DropLeadingShape(t, '/');
    if core != "" {
      assert core == t[|t| - |core|..];
      assert core[|core| - 1] == t[|t| - 1];
    }
  }

  /** A normalised base path is empty or starts with exactly one '/', never ends
      with '/', and normalising it again changes nothing. */
  lemma NormalizeBasePathShape(raw: string)
    ensures var b := NormalizeBasePath(raw);
      && (b == "" || (|b| >= 2 && b[0] == '/' && b[1] != '/'))
      && (b == "" || b[|b| - 1] != '/')
      && NormalizeBasePath(b) == b
  {
    NormalizeBasePathTrims(raw);
    TrimmedCoreShape(raw);
    var core := DropLeading(StripTrailing(raw, '/'), '/');
    var b := NormalizeBasePath(raw);
    NormalizeBasePathTrims(b);
    if core != "" {
      assert b == "/" + core;
      assert b[1..] == core;
      assert StripTrailing(b, '/') == b;
      assert DropLeading(b, '/') == DropLeading(core, '/') == core;
    } else {
      assert b == "";
    }
  }

  /** The record `fetchProject` keeps: normalised base path and the project's page. */
  function DeriveProject(serverUrl: string, raw: RawProject): Project
  {
    Project(raw.id, NormalizeBasePath(raw.basepath),
      serverUrl + "/project/" + IntToString(raw.id) + "/interface/api", raw.env)
  }

  datatype Header = Header(name: string, value: string)

  /** `omit(category, ['list'])`. */
  datatype CategoryRef = CategoryRef(id: int, name: string, url: string)

  datatype Interface = Interface(
    id: int,
    catid: int,
    projectId: int,
    path: string,
    httpMethod: string,
    title: string,
    url: string,
    reqHeaders: seq<Header>,
    reqParams: seq<string>,
    reqQuery: seq<string>,
    reqBodyType: string,
    tags: seq<string>,
    upTime: int,
    category: Option<CategoryRef>,
    project: Option<Project>)

  /** A category of the bulk export as the server sends it; `list` may be absent. */
  datatype RawCategory = RawCategory(id: int, name: string, list: Option<seq<Interface>>)

  datatype Category = Category(id: int, name: string, url: string, list: seq<Interface>)

  /** An entry of the category menu (`getCatMenu`). */
  datatype CatMenuItem = CatMenuItem(id: int, name: string)

  function Items(raw: RawCategory): seq<Interface>
  {
    if raw.list.Some? then raw.list.value else []
  }

  /** One category of `fetchExport`: page links from the first interface's
      project and category ids (0 when there is none) and every interface path
      behind the project's base path. */
  function DeriveCategory(serverUrl: string, basepath: string, raw: RawCategory): Category
  {
    var items := Items(raw);
    var projectId := if |items| > 0 then items[0].projectId else 0;
    var catId := if |items| > 0 then items[0].catid else 0;
    var projectUrl := serverUrl + "/project/" + IntToString(projectId) + "/interface/api";
    Category(raw.id, raw.name, projectUrl + "/cat_" + IntToString(catId),
      seq(|items|, j requires 0 <= j < |items| =>
        items[j].(url := projectUrl + "/" + IntToString(items[j].id), path := basepath + items[j].path)))
  }

  function DeriveExport(serverUrl: string, basepath: string, raws: seq<RawCategory>): seq<Category>
  {
    seq(|raws|, i requires 0 <= i < |raws| => DeriveCategory(serverUrl, basepath, raws[i]))
  }

  /** The export keeps every category and every interface in order, prefixes each
      interface path with the base path, and turns an absent list into an empty one. */
  lemma DeriveExportPrefixesPaths(serverUrl: string, basepath: string, raws: seq<RawCategory>)
    ensures var cats := DeriveExport(serverUrl, basepath, raws);
      && |cats| == |raws|
      && forall i :: 0 <= i < |raws| ==>
        && cats[i].id == raws[i].id && cats[i].name == raws[i].name
        && (raws[i].list.None? ==> cats[i].list == [])
        && |cats[i].list| == |Items(raws[i])|
        && forall j :: 0 <= j < |Items(raws[i])| ==>
          && cats[i].list[j].path == basepath + Items(raws[i])[j].path
          && cats[i].list[j].(url := Items(raws[i])[j].url, path := Items(raws[i])[j].path) == Items(raws[i])[j]
  {
  }

  function RefOf(c: Category): CategoryRef
  {
    CategoryRef(c.id, c.name, c.url)
  }

  /** Every interface of a category gets `_category` set to the category. */
  function WithCategory(list: seq<Interface>, ref: CategoryRef): seq<Interface>
  {
    seq(|list|, j requires 0 <= j < |list| => list[j].(category := Some(ref)))
  }

  /** A category `fetchInterfaceList` accepts for `id`: a non-empty list whose
      first interface has that category id. */
  predicate Matches(c: Category, id: Value)
  {
    |c.list| > 0 && Num(c.list[0].catid) == id
  }

  /** `fetchInterfaceList` over an export: the list of the first matching
      category, each interface carrying that category, or [] when none matches. */
  function FindInterfaceList(cats: seq<Category>, id: Value): (r: seq<Interface>)
    ensures (forall i :: 0 <= i < |cats| ==> !Matches(cats[i], id)) ==> r == []
    ensures forall i :: (0 <= i < |cats| && Matches(cats[i], id) &&
      (forall j :: 0 <= j < i ==> !Matches(cats[j], id))) ==>
        && |r| == |cats[i].list|
        && forall k :: 0 <= k < |r| ==> r[k] == cats[i].list[k].(category := Some(RefOf(cats[i])))
  {
    if cats == [] then []
    else if Matches(cats[0], id) then WithCategory(cats[0].list, RefOf(cats[0]))
    else FindInterfaceList(cats[1..], id)
  }

  /** What `fetchProjectInfo` returns: the project, its category menu, and the
      server it came from (for the mock URL). */
  datatype ProjectInfo = ProjectInfo(project: Project, cats: seq<CatMenuItem>, serverUrl: string)

  /** `getMockUrl()`. */
  function MockUrl(info: ProjectInfo): string
  {
    info.serverUrl + "/mock/" + IntToString(info.project.id)
  }

  /** The cache key of `fetchProject` and `fetchExport`. */
  function MemoKey(serverUrl: string, token: string): string
  {
    serverUrl + "|" + token
  }

  /** Server URLs without '|' give distinct keys to distinct server and token
      pairs. */
  lemma MemoKeyInjective(s1: string, t1: string, s2: string, t2: string)
    requires '|' !in s1 && '|' !in s2
    requires MemoKey(s1, t1) == MemoKey(s2, t2)
    ensures s1 == s2 && t1 == t2
  {
    var k := MemoKey(s1, t1);
    assert k[|s1|] == '|' && k[|s2|] == '|';
    assert forall i :: 0 <= i < |s1| ==> k[i] == s1[i];
    assert forall i :: 0 <= i < |s2| ==> k[i] == s2[i];
    assert |s1| == |s2|;
    assert s1 == k[..|s1|] == s2;
    assert t1 == k[|s1| + 1..] == t2;
  }

  /** With a '|' in a server URL, two different pairs share one key. */
  lemma MemoKeyCollision()
    ensures MemoKey("http://a|b", "t") == MemoKey("http://a", "b|t")
  {
  }

  /** The documentation server's three endpoints, as functions of their inputs:
      `/api/project/get`, `/api/plugin/export` and `/api/interface/getCatMenu`. */
  datatype Api = Api(
    getProject: (string, string) -> Reply<RawProject>,
    exportCategories: (string, string) -> Reply<seq<RawCategory>>,
    getCatMenu: (string, string, int) -> Reply<seq<CatMenuItem>>)
}
