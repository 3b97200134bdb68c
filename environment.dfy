/** `src/config/environment.ts`: resolving the run mode and the two base URLs from the
    process environment, with development defaults and hard errors in production. The
    console warnings are not modelled. */
module Environment {
  import opened Common

  /** The three variables read from `process.env`; `None` is an unset variable. */
  datatype ProcessEnv = ProcessEnv(nodeEnv: Option<string>, apiBaseUrl: Option<string>, assetBaseUrl: Option<string>)

  datatype EnvironmentConfig = EnvironmentConfig(
    nodeEnv: string,
    apiBaseUrl: string,
    assetBaseUrl: string,
    isProduction: bool,
    isDevelopment: bool,
    isTest: bool)

  const ApiRequired := "NEXT_PUBLIC_API_BASE_URL is required in production"
  const AssetRequired := "NEXT_PUBLIC_ASSET_BASE_URL is required in production"
  const DevApiUrl := "http://localhost:8000/api"
  const DevAssetUrl := "http://localhost:8000"

  /** `process.env.NODE_ENV || 'development'` */
  function NodeEnv(env: ProcessEnv): string {
    OrElse(env.nodeEnv, "development")
  }

  function DefaultApiUrl(mode: string): string { if mode == "development" then DevApiUrl else "" }
  function DefaultAssetUrl(mode: string): string { if mode == "development" then DevAssetUrl else "" }

  /** `getValidatedEnv`; a thrown `Error` is an `Err` carrying its message. */
  function GetValidatedEnv(env: ProcessEnv): (r: Result<EnvironmentConfig, string>)
    ensures r.Err? ==> NodeEnv(env) == "production"
    ensures r.Ok? ==> r.value.nodeEnv == NodeEnv(env)
  {
    var mode := NodeEnv(env);
    if mode == "production" && !Truthy(env.apiBaseUrl) then Err(ApiRequired)
    else if mode == "production" && !Truthy(env.assetBaseUrl) then Err(AssetRequired)
    else
      Ok(EnvironmentConfig(
        mode,
        OrElse(env.apiBaseUrl, DefaultApiUrl(mode)),
        OrElse(env.assetBaseUrl, DefaultAssetUrl(mode)),
        mode == "production",
        mode == "development",
        mode == "test"))
  }

  /** An unset or empty `NODE_ENV` is development, which never fails. */
  lemma UnsetNodeEnvIsDevelopment(env: ProcessEnv)
    requires !Truthy(env.nodeEnv)
    ensures GetValidatedEnv(env).Ok?
    ensures GetValidatedEnv(env).value.nodeEnv == "development"
    ensures GetValidatedEnv(env).value.isDevelopment
  {
  }

  /** In production the API URL is checked first, then the asset URL; with both set the
      configuration is built. */
  lemma ProductionRequiresBothUrls(env: ProcessEnv)
    requires NodeEnv(env) == "production"
    ensures !Truthy(env.apiBaseUrl) ==> GetValidatedEnv(env) == Err(ApiRequired)
    ensures Truthy(env.apiBaseUrl) && !Truthy(env.assetBaseUrl) ==> GetValidatedEnv(env) == Err(AssetRequired)
    ensures GetValidatedEnv(env).Ok? <==> Truthy(env.apiBaseUrl) && Truthy(env.assetBaseUrl)
  {
  }

  /** Outside production nothing fails; a missing or empty URL gets the localhost default in
      development and the empty string in any other mode; a given URL is used verbatim. */
  lemma UrlResolution(env: ProcessEnv)
    requires NodeEnv(env) != "production"
    ensures GetValidatedEnv(env).Ok?
    ensures var c := GetValidatedEnv(env).value;
      && c.apiBaseUrl == (if Truthy(env.apiBaseUrl) then env.apiBaseUrl.value
                          else if NodeEnv(env) == "development" then DevApiUrl else "")
      && c.assetBaseUrl == (if Truthy(env.assetBaseUrl) then env.assetBaseUrl.value
                            else if NodeEnv(env) == "development" then DevAssetUrl else "")
  {
  }

  /** A configuration that was built carries the given URLs unchanged. */
  lemma ProvidedUrlsVerbatim(env: ProcessEnv)
    requires GetValidatedEnv(env).Ok?
    ensures Truthy(env.apiBaseUrl) ==> GetValidatedEnv(env).value.apiBaseUrl == env.apiBaseUrl.value
    ensures Truthy(env.assetBaseUrl) ==> GetValidatedEnv(env).value.assetBaseUrl == env.assetBaseUrl.value
  {
  }

  /** Each flag holds exactly when the mode is its literal, so at most one holds; a mode
      such as "staging" sets none of them. */
  lemma ModeFlags(env: ProcessEnv)
    requires GetValidatedEnv(env).Ok?
    ensures var c := GetValidatedEnv(env).value;
      && (c.isProduction <==> NodeEnv(env) == "production")
      && (c.isDevelopment <==> NodeEnv(env) == "development")
      && (c.isTest <==> NodeEnv(env) == "test")
      && !(c.isProduction && c.isDevelopment) && !(c.isProduction && c.isTest) && !(c.isDevelopment && c.isTest)
  {
  }
}
