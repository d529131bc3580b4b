/** The synthetical configuration of one category: a last-write-wins merge of
    the server, project and category fields, then the mock URL, then the
    defaulted target and the development and production URLs looked up among
    the project's environments. */
module Merge {
  import opened Config
  import opened Remote

  /** The fields the merge computes instead of inheriting. */
  const ComputedFields: set<string> := {"mockUrl", "target", "devUrl", "prodUrl"}

  /** `{...serverConfig, ...projectConfig, ...categoryConfig, mockUrl}` followed by
      the assignments to `target`, `devUrl` and `prodUrl`. */
  function Synthesize(server: Layer, project: Layer, category: Layer, info: ProjectInfo): Layer
  {
    var merged := (server + project + category)["mockUrl" := Str(MockUrl(info))];
    var target := Get(merged, "target");
    var targeted := merged["target" := if Truthy(target) then target else Str("typescript")];
    var withDev := targeted["devUrl" := Str(EnvDomain(info.project.env, Get(targeted, "devEnvName")))];
    withDev["prodUrl" := Str(EnvDomain(info.project.env, Get(withDev, "prodEnvName")))]
  }

  /** Every inherited field comes from the innermost layer that defines it, and
      is present exactly when some layer defines it. */
  lemma SynthesizeLastWriteWins(server: Layer, project: Layer, category: Layer, info: ProjectInfo, field: string)
    requires field !in ComputedFields
    ensures var sc := Synthesize(server, project, category, info);
      && (field in sc <==> field in server || field in project || field in category)
      && Get(sc, field) ==
        if field in category then category[field]
        else if field in project then project[field]
        else Get(server, field)
  {
  }

  /** The computed fields: the project's mock URL, a truthy target (the layered
      one, else 'typescript'), and the environment domains named by the layered
      `devEnvName` and `prodEnvName`. */
  lemma SynthesizeComputedFields(server: Layer, project: Layer, category: Layer, info: ProjectInfo)
    ensures var sc := Synthesize(server, project, category, info);
      var layered := server + project + category;
      && Get(sc, "mockUrl") == Str(MockUrl(info))
      && Truthy(Get(sc, "target"))
      && (Truthy(Get(layered, "target")) ==> Get(sc, "target") == Get(layered, "target"))
      && (!Truthy(Get(layered, "target")) ==> Get(sc, "target") == Str("typescript"))
      && Get(sc, "devUrl") == Str(EnvDomain(info.project.env, Get(layered, "devEnvName")))
      && Get(sc, "prodUrl") == Str(EnvDomain(info.project.env, Get(layered, "prodEnvName")))
  {
  }
}
