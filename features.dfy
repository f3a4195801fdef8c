/** Feature flags: each feature has a default, an optional `managed` entry
    (one value, or one value per billing plan) and optional per-environment
    values. The service resolves every feature for the current plan and
    environment and keeps the result as its active feature set. */
module Features {
  import opened Wrappers
  import opened JsValues
  import opened Environment

  /** The `managed` entry of a feature: absent, a single value, or an object
      mapping plan names to values. */
  datatype ManagedEntry = NoManaged | ManagedValue(v: JsValue) | PerPlan(plans: map<string, JsValue>)

  /** A feature definition. `perEnv` holds the environment-named keys
      (`dev`, `self-hosted`, `demo`). */
  datatype FeatureConfig = FeatureConfig(default: Option<JsValue>, managed: ManagedEntry, perEnv: map<string, JsValue>)

  /** What the loop body does for one feature: sets a value, leaves the
      feature unset (or sets it to `undefined`, which reads the same), or
      throws (indexing a `null` `managed` entry). */
  datatype Resolution = SetTo(value: JsValue) | Unset | Throws

  function OfOption(v: Option<JsValue>): Resolution
  {
    if v.Some? then SetTo(v.value) else Unset
  }

  /** The value one feature resolves to, for one environment and one plan. */
  function ResolveOne(c: FeatureConfig, env: EnvironmentType, plan: string): Resolution
  {
    if env == Managed then
      match c.managed
      case NoManaged => Unset
      case ManagedValue(v) =>
        if v.Bool? || v.Num? then SetTo(v)
        else if v == Null then Throws
        else Unset
      case PerPlan(plans) => OfOption(Coalesce(Get(plans, plan), c.default))
    else if EnvName(env) in c.perEnv then SetTo(c.perEnv[EnvName(env)])
    else OfOption(c.default)
  }

  /** A boolean or numeric `managed` value is used as it is, for every plan. */
  lemma ManagedValueIgnoresPlan(c: FeatureConfig, plan: string)
    requires c.managed.ManagedValue? && (c.managed.v.Bool? || c.managed.v.Num?)
    ensures ResolveOne(c, Managed, plan) == SetTo(c.managed.v)
  {
  }

  /** With a per-plan `managed` object, the plan's entry is used unless it is
      `null` or missing, in which case the default is. */
  lemma ManagedPerPlanEntry(c: FeatureConfig, plan: string)
    requires c.managed.PerPlan?
    ensures plan in c.managed.plans && c.managed.plans[plan] != Null ==>
      ResolveOne(c, Managed, plan) == SetTo(c.managed.plans[plan])
    ensures !(plan in c.managed.plans && c.managed.plans[plan] != Null) ==>
      ResolveOne(c, Managed, plan) == OfOption(c.default)
  {
  }

  /** Outside the managed environment the `managed` entry plays no part: the
      environment's own value is used when defined, the default otherwise. */
  lemma UnmanagedUsesEnvironmentValue(c: FeatureConfig, env: EnvironmentType, plan: string, other: ManagedEntry)
    requires env != Managed
    ensures EnvName(env) in c.perEnv ==> ResolveOne(c, env, plan) == SetTo(c.perEnv[EnvName(env)])
    ensures EnvName(env) !in c.perEnv ==> ResolveOne(c, env, plan) == OfOption(c.default)
    ensures ResolveOne(c, env, plan) == ResolveOne(c.(managed := other), env, plan)
  {
  }

  /** The feature set `resolveFeatures` builds: every feature whose
      resolution sets a value, mapped to that value. */
  function ResolvedSet(defs: map<string, FeatureConfig>, env: EnvironmentType, plan: string): map<string, JsValue>
  {
    map f | f in defs && ResolveOne(defs[f], env, plan).SetTo? :: ResolveOne(defs[f], env, plan).value
  }

  /** Whether resolving some feature would throw. */
  predicate AnyThrows(defs: map<string, FeatureConfig>, env: EnvironmentType, plan: string)
  {
    exists f :: f in defs && ResolveOne(defs[f], env, plan).Throws?
  }

  /** `features[feature] ?? null`. */
  function ValueOf(features: map<string, JsValue>, feature: string): (r: JsValue)
    ensures feature !in features ==> r == Null
    ensures feature in features ==> r == features[feature]
  {
    if feature in features then features[feature] else Null
  }

  /** The non-boolean fallback of `isFeatureEnabled`. */
  function EnabledOf(v: JsValue): (r: bool)
    ensures v.Bool? ==> r == v.b
    ensures !v.Bool? ==> !r
  {
    if v.Bool? then v.b else false
  }

  /** In the managed environment a feature without a `managed` entry is
      unset, so its value reads as `null` and it is not enabled. */
  lemma ManagedWithoutEntryIsNull(defs: map<string, FeatureConfig>, plan: string, f: string)
    requires f in defs && defs[f].managed.NoManaged?
    ensures ValueOf(ResolvedSet(defs, Managed, plan), f) == Null
    ensures !EnabledOf(ValueOf(ResolvedSet(defs, Managed, plan), f))
  {
  }

  class FeatureService {
    /** The feature definitions and the environment type, fixed at construction. */
    const definitions: map<string, FeatureConfig>
    const environment: EnvironmentType
    /** The latest value pushed to `activeFeatures$`. */
    var activeFeatures: map<string, JsValue>

    constructor (definitions: map<string, FeatureConfig>, environment: EnvironmentType)
      ensures this.definitions == definitions && this.environment == environment
      ensures activeFeatures == map[]
    {
      this.definitions := definitions;
      this.environment := environment;
      activeFeatures := map[];
    }

    /** `resolveFeatures`: one pass over the definitions, filling the result
        feature by feature; `None` when some feature's resolution throws. */
    method ResolveFeatures(userPlan: string) returns (features: Option<map<string, JsValue>>)
      ensures features.Some? <==> !AnyThrows(definitions, environment, userPlan)
      ensures features.Some? ==> features.value == ResolvedSet(definitions, environment, userPlan)
    {
      var result: map<string, JsValue> := map[];
      var remaining := definitions.Keys;
      while remaining != {}
        invariant remaining <= definitions.Keys
        invariant forall f :: f in result <==>
          f in definitions && f !in remaining && ResolveOne(definitions[f], environment, userPlan).SetTo?
        invariant forall f :: f in result ==> result[f] == ResolveOne(definitions[f], environment, userPlan).value
        invariant forall f :: f in definitions && f !in remaining ==> !ResolveOne(definitions[f], environment, userPlan).Throws?
        decreases |remaining|
      {
        var f :| f in remaining;
        remaining := remaining - {f};
        match ResolveOne(definitions[f], environment, userPlan)
        case SetTo(v) =>
          result := result[f := v];
        case Unset =>
        case Throws =>
          return None;
      }
      features := Some(result);
    }

    /** The subscription to the user's plan: resolves for `userPlan || 'free'`
        and publishes the result; when resolution throws nothing is published. */
    method OnUserPlan(userPlan: Option<string>)
      modifies this
      ensures !AnyThrows(definitions, environment, OrText(userPlan, "free")) ==>
        activeFeatures == ResolvedSet(definitions, environment, OrText(userPlan, "free"))
      ensures AnyThrows(definitions, environment, OrText(userPlan, "free")) ==> activeFeatures == old(activeFeatures)
    {
      var features := ResolveFeatures(OrText(userPlan, "free"));
      if features.Some? {
        activeFeatures := features.value;
      }
    }

    /** `getFeatureValue`: the active value, `null` when unset. */
    function GetFeatureValue(feature: string): JsValue
      reads this
    {
      ValueOf(activeFeatures, feature)
    }

    /** `isFeatureEnabled`: a boolean value passes through, anything else is `false`. */
    function IsFeatureEnabled(feature: string): bool
      reads this
    {
      EnabledOf(GetFeatureValue(feature))
    }
  }
}
