/** Resolution of configuration variables: a value set at build time wins,
    then the value in the runtime environment file, then the caller's
    fallback. The two sources are inputs (maps from variable names). */
module Environment {
  import opened Wrappers
  import opened JsValues

  /** The two places a variable is looked up: the build-time `.env` values,
      keyed by the full variable name, and the runtime environment file,
      keyed by the name without its `DL_` prefix. */
  datatype EnvSources = EnvSources(buildTime: map<string, JsValue>, runtime: map<string, JsValue>)

  datatype EnvironmentType = Dev | Managed | SelfHosted | Demo

  /** The spelling of each environment type, as configured and as used for
      per-environment keys. */
  function EnvName(e: EnvironmentType): string
  {
    match e
    case Dev => "dev"
    case Managed => "managed"
    case SelfHosted => "self-hosted"
    case Demo => "demo"
  }

  const Prefix: string := "DL_"

  /** `mapKeyToVarName`: strips a leading `DL_`, and only that. */
  function MapKeyToVarName(key: string): (name: string)
    ensures Prefix <= key ==> key == Prefix + name
    ensures !(Prefix <= key) ==> name == key
  {
    if Prefix <= key then key[|Prefix|..] else key
  }

  /** The value `(buildtimeValue || runtimeValue) ?? fallback`, with
      `undefined` as `None`. */
  function ResolvedValue(env: EnvSources, key: string, fallback: JsValue): (v: Option<JsValue>)
    ensures var build := Get(env.buildTime, key);
      var run := Get(env.runtime, MapKeyToVarName(key));
      (Present(build) ==> v == build)
      && (!Present(build) && run != None && run != Some(Null) ==> v == run)
      && (!Present(build) && (run == None || run == Some(Null)) ==> v == Some(fallback))
  {
    Coalesce(Or(Get(env.buildTime, key), Get(env.runtime, MapKeyToVarName(key))), Some(fallback))
  }

  /** `getEnvVar`: the resolved value, or the error thrown when that value is
      falsy and `throwError` is set. */
  function GetEnvVar(env: EnvSources, key: string, fallback: JsValue, throwError: bool): (r: Result<JsValue>)
    ensures r.Err? <==> !Present(ResolvedValue(env, key, fallback)) && throwError
    ensures r.Err? ==> r.error == "Environment variable " + key + " is not set."
    ensures r.Ok? ==> r.value == ResolvedValue(env, key, fallback).GetOr(fallback)
  {
    var v := ResolvedValue(env, key, fallback);
    if !Present(v) && throwError then Err("Environment variable " + key + " is not set.")
    else Ok(v.GetOr(fallback))
  }

  /** The value a lookup that does not throw gives. */
  function Lookup(env: EnvSources, key: string, fallback: JsValue): JsValue
  {
    GetEnvVar(env, key, fallback, false).value
  }

  /** A lookup that does not throw never fails, and falls back exactly when
      neither source supplies a usable value. */
  lemma LookupNeverThrows(env: EnvSources, key: string, fallback: JsValue)
    ensures GetEnvVar(env, key, fallback, false).Ok?
    ensures (key !in env.buildTime || !Truthy(env.buildTime[key]))
            && (MapKeyToVarName(key) !in env.runtime || env.runtime[MapKeyToVarName(key)] == Null)
            ==> Lookup(env, key, fallback) == fallback
  {
  }

  /** `isSupabaseEnabled`: both the URL and the anonymous key are truthy. */
  predicate IsSupabaseEnabled(env: EnvSources)
  {
    Truthy(Lookup(env, "SUPABASE_URL", Null)) && Truthy(Lookup(env, "SUPABASE_ANON_KEY", Null))
  }

  /** `getEnvironmentType`: a configured value that names one of the four
      types, otherwise self-hosted. */
  function GetEnvironmentType(env: EnvSources): (t: EnvironmentType)
    ensures Lookup(env, "DL_ENV_TYPE", Str("self-hosted")) == Str(EnvName(t))
            || t == SelfHosted
    ensures forall u :: Lookup(env, "DL_ENV_TYPE", Str("self-hosted")) == Str(EnvName(u)) ==> t == u
  {
    var v := Lookup(env, "DL_ENV_TYPE", Str("self-hosted"));
    if v == Str("dev") then Dev
    else if v == Str("managed") then Managed
    else if v == Str("demo") then Demo
    else SelfHosted
  }

  /** The configured type is taken exactly when it spells one of the four
      types; an unset variable gives self-hosted. */
  lemma EnvironmentTypeCases(env: EnvSources, t: EnvironmentType)
    ensures Lookup(env, "DL_ENV_TYPE", Str("self-hosted")) == Str(EnvName(t)) ==> GetEnvironmentType(env) == t
    ensures (forall u: EnvironmentType :: Lookup(env, "DL_ENV_TYPE", Str("self-hosted")) != Str(EnvName(u)))
            ==> GetEnvironmentType(env) == SelfHosted
    ensures "DL_ENV_TYPE" !in env.buildTime && "ENV_TYPE" !in env.runtime ==> GetEnvironmentType(env) == SelfHosted
  {
    assert MapKeyToVarName("DL_ENV_TYPE") == "ENV_TYPE";
  }

  /** `getSupabaseUrl`: the URL, or the error that an unset URL throws. */
  function GetSupabaseUrl(env: EnvSources): Result<JsValue>
  {
    GetEnvVar(env, "SUPABASE_URL", Null, true)
  }

  /** `getSupabasePublicKey`: the anonymous key, or the error that an unset key throws. */
  function GetSupabasePublicKey(env: EnvSources): Result<JsValue>
  {
    GetEnvVar(env, "SUPABASE_ANON_KEY", Null, true)
  }

  /** A throwing lookup with a `null` fallback succeeds exactly when the
      value found is truthy, and then gives that value. */
  lemma ThrowingLookup(env: EnvSources, key: string)
    ensures GetEnvVar(env, key, Null, true).Ok? <==> Truthy(Lookup(env, key, Null))
    ensures GetEnvVar(env, key, Null, true).Ok? ==> GetEnvVar(env, key, Null, true).value == Lookup(env, key, Null)
    ensures GetEnvVar(env, key, Null, true).Err? ==> GetEnvVar(env, key, Null, true).error == "Environment variable " + key + " is not set."
  {
    var v := ResolvedValue(env, key, Null);
    assert Lookup(env, key, Null) == v.GetOr(Null);
    if v.Some? {
      assert Present(v) <==> Truthy(v.value);
    }
  }

  /** Supabase counts as enabled exactly when neither of its two getters
      would throw, and then they return what the check looked at. */
  lemma SupabaseEnabledIffGettersSucceed(env: EnvSources)
    ensures IsSupabaseEnabled(env) <==> GetSupabaseUrl(env).Ok? && GetSupabasePublicKey(env).Ok?
    ensures GetSupabaseUrl(env).Ok? ==> GetSupabaseUrl(env).value == Lookup(env, "SUPABASE_URL", Null)
    ensures GetSupabasePublicKey(env).Ok? ==> GetSupabasePublicKey(env).value == Lookup(env, "SUPABASE_ANON_KEY", Null)
  {
    ThrowingLookup(env, "SUPABASE_URL");
    ThrowingLookup(env, "SUPABASE_ANON_KEY");
  }

  datatype PlausibleConfig = PlausibleConfig(site: JsValue, url: JsValue, isConfigured: bool)

  /** `getPlausibleConfig`: site and URL default to the empty string, and the
      configuration counts only when both are truthy. */
  function GetPlausibleConfig(env: EnvSources): (c: PlausibleConfig)
    ensures c.isConfigured <==> Truthy(c.site) && Truthy(c.url)
    ensures c.site == Lookup(env, "DL_PLAUSIBLE_SITE", Str(""))
    ensures c.url == Lookup(env, "DL_PLAUSIBLE_URL", Str(""))
  {
    var site := Lookup(env, "DL_PLAUSIBLE_SITE", Str(""));
    var url := Lookup(env, "DL_PLAUSIBLE_URL", Str(""));
    PlausibleConfig(site, url, Truthy(site) && Truthy(url))
  }

  /** With nothing configured, plausible is off and both fields are empty strings. */
  lemma PlausibleUnconfigured()
    ensures GetPlausibleConfig(EnvSources(map[], map[])) == PlausibleConfig(Str(""), Str(""), false)
  {
  }
}
