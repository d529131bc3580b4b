/** The configuration tree the generator runs over: servers, each with
    projects, each with categories, every level carrying its own settings. A
    settings record is a map from field name to a JavaScript value, so that the
    object spreads of the source become map unions. */
module Config {
  import opened Text

  /** The JavaScript values a configuration field can hold. A user callback is
      named, and its behaviour is supplied where it is called. */
  datatype Value =
    | Undefined
    | Null
    | Bool(b: bool)
    | Num(n: int)
    | Str(s: string)
    | Callback(name: string)
    | Obj(text: string)

  type Layer = map<string, Value>

  /** JavaScript truthiness. */
  predicate Truthy(v: Value)
  {
    match v
    case Undefined => false
    case Null => false
    case Bool(b) => b
    case Num(n) => n != 0
    case Str(s) => s != ""
    case Callback(_) => true
    case Obj(_) => true
  }

  /** Property access: a missing field reads as `undefined`. */
  function Get(layer: Layer, field: string): Value
  {
    if field in layer then layer[field] else Undefined
  }

  /** The text a value gives inside a template literal. */
  function TemplateText(v: Value): string
  {
    match v
    case Undefined => "undefined"
    case Null => "null"
    case Bool(b) => if b then "true" else "false"
    case Num(n) => IntToString(n)
    case Str(s) => s
    case Callback(name) => name
    case Obj(text) => text
  }

  /** The text `JSON.stringify(v)` gives inside a template literal (`undefined`
      for values JSON cannot represent); string escapes are not modelled. */
  function JsonText(v: Value): string
  {
    match v
    case Undefined => "undefined"
    case Null => "null"
    case Bool(b) => if b then "true" else "false"
    case Num(n) => IntToString(n)
    case Str(s) => "\"" + s + "\""
    case Callback(_) => "undefined"
    case Obj(text) => text
  }

  /** A project's `token`: one token or a list of them. */
  datatype TokenSpec = OneToken(token: string) | Tokens(tokens: seq<string>)

  /** A category's `id` directive: one id or a list of them. */
  datatype IdDirective = OneId(id: int) | Ids(ids: seq<int>)

  datatype CategoryConfig = CategoryConfig(id: IdDirective, settings: Layer)

  datatype ProjectConfig = ProjectConfig(token: TokenSpec, categories: seq<CategoryConfig>, settings: Layer)

  datatype ServerConfig = ServerConfig(serverUrl: string, projects: seq<ProjectConfig>, settings: Layer)

  /** `castArray(project.token)`. */
  function CastTokens(t: TokenSpec): seq<string>
  {
    match t
    case OneToken(token) => [token]
    case Tokens(tokens) => tokens
  }

  /** `castArray(project.token).map(token => ({...project, token}))`. */
  function ExpandProject(p: ProjectConfig): seq<ProjectConfig>
  {
    var ts := CastTokens(p.token);
    seq(|ts|, i requires 0 <= i < |ts| => p.(token := OneToken(ts[i])))
  }

  /** The `reduce` that unrolls every multi-token project into one project per
      token; every resulting project holds a single token. */
  function ExpandTokens(ps: seq<ProjectConfig>): (r: seq<ProjectConfig>)
    ensures forall i :: 0 <= i < |r| ==> r[i].token.OneToken?
  {
    if ps == [] then [] else ExpandTokens(ps[..|ps| - 1]) + ExpandProject(ps[|ps| - 1])
  }

  function TokenCount(ps: seq<ProjectConfig>): nat
  {
    if ps == [] then 0 else TokenCount(ps[..|ps| - 1]) + |CastTokens(ps[|ps| - 1].token)|
  }

  /** Expansion distributes over concatenation: projects keep their relative order. */
  lemma {:induction false} ExpandTokensAppend(a: seq<ProjectConfig>, b: seq<ProjectConfig>)
    ensures ExpandTokens(a + b) == ExpandTokens(a) + ExpandTokens(b)
    decreases |b|
  {
    if b == [] {
      assert a + b == a;
    } else {
      var b' := b[..|b| - 1];
      assert (a + b)[..|a + b| - 1] == a + b';
      ExpandTokensAppend(a, b');
    }
  }

  /** A project with tokens t1..tn becomes n projects, the i-th holding ti and
      every other field unchanged. */
  lemma ExpandTokensOfOne(p: ProjectConfig)
    ensures |ExpandTokens([p])| == |CastTokens(p.token)|
    ensures forall i :: 0 <= i < |CastTokens(p.token)| ==>
      ExpandTokens([p])[i] == p.(token := OneToken(CastTokens(p.token)[i]))
  {
    assert [p][..0] == [];
  }

  /** The expansion yields one project per token overall. */
  lemma {:induction false} ExpandTokensLength(ps: seq<ProjectConfig>)
    ensures |ExpandTokens(ps)| == TokenCount(ps)
  {
    if ps != [] {
      ExpandTokensLength(ps[..|ps| - 1]);
    }
  }

  /** The fields `{...serverConfig}` contributes. */
  function ServerLayer(s: ServerConfig): Layer
  {
    s.settings["serverUrl" := Str(s.serverUrl)]
  }

  /** The fields `{...projectConfig}` contributes. */
  function ProjectLayer(p: ProjectConfig): Layer
  {
    p.settings["token" := match p.token case OneToken(t) => Str(t) case Tokens(_) => Obj("[tokens]")]
  }

  /** The fields `{...categoryConfig}` contributes. */
  function CategoryLayer(c: CategoryConfig): Layer
  {
    c.settings["id" := match c.id case OneId(n) => Num(n) case Ids(_) => Obj("[ids]")]
  }

  /** The configuration `setConfig` installs: one server at `url`, one project
      with `token`, every category (`id: 0`), types only, one output file. */
  function DefaultConfig(url: string, token: string): seq<ServerConfig>
  {
    [ServerConfig(
      url,
      [ProjectConfig(OneToken(token), [CategoryConfig(OneId(0), map[])], map[])],
      map[
        "typesOnly" := Bool(true),
        "target" := Str("typescript"),
        "reactHooks" := Obj("{ enabled: false }"),
        "prodEnvName" := Str("production"),
        "outputFilePath" := Str("yapi/index.ts"),
        "dataKey" := Str("data")])]
  }
}
