/**
 The engine a cabinet uses: ai-provider-config.ts (merge of the platform's and the cabinet's
 configuration), ai-subscription-policy.ts (what the plan allows) and the part of
 ai-model-router.service.ts that reads the result. Stored texts are already trimmed.
 */
module AiConfig {
  import opened Wrappers

  datatype Provider = Provider(baseUrl: Option<string>, model: Option<string>, apiKey: Option<string>)

  const NO_PROVIDER := Provider(None, None, None)

  datatype Origin = Unset | ByPlatform | ByCabinet

  datatype Config = Config(
    active: Option<string>,
    providers: map<string, Provider>,
    flat: Provider,
    origin: Origin)

  const NO_CONFIG := Config(None, map[], NO_PROVIDER, Unset)

  datatype Choice = Choice(provider: string, model: string)

  datatype Policy = Policy(defaultModel: Option<Choice>, allowSelection: bool, allowCustom: bool, allowed: seq<Choice>)

  /** A present, non-empty text. */
  predicate Truthy(s: Option<string>) {
    s.Some? && s.value != ""
  }

  function OrElse(a: Option<string>, b: Option<string>): Option<string> {
    if a.Some? then a else b
  }

  function Find(providers: map<string, Provider>, id: string): Option<Provider> {
    if id in providers then Some(providers[id]) else None
  }

  predicate HasCabinetOverride(c: Option<Config>) {
    c.Some? && Truthy(c.value.active)
  }

  predicate HasFlat(c: Config) {
    Truthy(c.flat.baseUrl) || Truthy(c.flat.apiKey) || Truthy(c.flat.model)
  }

  function Catalog(platform: Option<Config>): map<string, Provider> {
    if platform.Some? then platform.value.providers else map[]
  }

  /** `mergeAiConfigs` */
  function Merge(platform: Option<Config>, cabinet: Option<Config>): Option<Config> {
    var catalog := Catalog(platform);
    if HasCabinetOverride(cabinet) then
      var active := cabinet.value.active.value;
      var own := Find(cabinet.value.providers, active);
      var mine := if own.Some? then own.value else NO_PROVIDER;
      var base := if active in catalog then catalog[active] else mine;
      var model := OrElse(mine.model, if active in catalog then catalog[active].model else None);
      Some(NO_CONFIG.(active := Some(active), providers := catalog[active := base.(model := model)]))
    else if platform.Some? && Truthy(platform.value.active) then
      Some(NO_CONFIG.(active := platform.value.active, providers := catalog))
    else if cabinet.Some? && HasFlat(cabinet.value) then cabinet
    else None
  }

  predicate IsTenantId(id: string) {
    "tenant_" <= id
  }

  /** `isAllowedAiChoice` */
  predicate IsAllowed(policy: Policy, choice: Choice) {
    policy.allowSelection && choice in policy.allowed
  }

  /** The platform decided for this cabinet. */
  predicate Locked(c: Option<Config>) {
    HasCabinetOverride(c) && !c.value.origin.ByCabinet?
  }

  function OwnChoice(c: Option<Config>): Option<Provider> {
    if HasCabinetOverride(c) then Find(c.value.providers, c.value.active.value) else None
  }

  function ModelOf(p: Option<Provider>): string {
    if p.Some? && p.value.model.Some? then p.value.model.value else ""
  }

  /** The cabinet's own choice counts under this policy. */
  predicate ChoiceCounts(c: Option<Config>, policy: Policy) {
    && HasCabinetOverride(c) && OwnChoice(c).Some?
    && (|| (IsTenantId(c.value.active.value) && policy.allowCustom)
        || IsAllowed(policy, Choice(c.value.active.value, ModelOf(OwnChoice(c)))))
  }

  function FromChoice(choice: Choice): Config {
    NO_CONFIG.(active := Some(choice.provider),
               providers := map[choice.provider := NO_PROVIDER.(model := Some(choice.model))])
  }

  /** `resolveSubscriptionAiConfig` */
  function Resolve(platform: Option<Config>, cabinet: Option<Config>, policy: Policy): Option<Config> {
    if Locked(cabinet) then Merge(platform, cabinet)
    else if ChoiceCounts(cabinet, policy) then Merge(platform, cabinet)
    else if policy.defaultModel.Some? then Merge(platform, Some(FromChoice(policy.defaultModel.value)))
    else Merge(platform, None)
  }

  // ----- which engine a configuration gives -----

  const BUILTIN := {"deepseek", "glm", "meta", "freellm", "google"}

  /** A built-in provider keeps its URL and key on the server; `FromEnv` is the server's own configuration. */
  datatype Engine =
    | Builtin(id: string, model: string)
    | Custom(baseUrl: string, apiKey: Option<string>, model: string)
    | FromEnv

  /** `getProviderRuntimeConfig` */
  function Runtime(id: string, p: Provider, defaults: string -> string): Engine {
    if id in BUILTIN then
      var model := if p.model.Some? then p.model.value else defaults(id);
      if model == "" then FromEnv else Builtin(id, model)
    else if Truthy(p.baseUrl) && Truthy(p.model) then Custom(p.baseUrl.value, p.apiKey, p.model.value)
    else FromEnv
  }

  /** `resolveTenantEffective` */
  ghost function EngineOf(c: Option<Config>, defaults: string -> string): Engine {
    if c.None? then FromEnv
    else
      var active := c.value.active;
      var providers := c.value.providers;
      if Truthy(active) && active.value in providers then Runtime(active.value, providers[active.value], defaults)
      else if Truthy(active) && active.value in BUILTIN then Runtime(active.value, NO_PROVIDER, defaults)
      else if |providers| == 1 then
        var key := var k :| k in providers; k;
        Runtime(if active.Some? then active.value else key, providers[key], defaults)
      else if HasFlat(c.value) then Runtime(if active.Some? then active.value else "custom", c.value.flat, defaults)
      else FromEnv
  }

  /** There is a configuration exactly when the cabinet or the platform chose, or the cabinet has a flat one. */
  lemma {:induction false} MergedIff(platform: Option<Config>, cabinet: Option<Config>)
    ensures Merge(platform, cabinet).Some? <==>
            HasCabinetOverride(cabinet) || HasCabinetOverride(platform) || (cabinet.Some? && HasFlat(cabinet.value))
  {
  }

  /** Without a choice, the only provider declared is used; otherwise an old flat configuration, or the server's own. */
  lemma {:induction false} EngineWithoutChoice(c: Config, defaults: string -> string)
    requires c.active.None?
    ensures forall p :: c.providers.Keys == {p} ==>
                          EngineOf(Some(c), defaults) == Runtime(p, c.providers[p], defaults)
    ensures |c.providers| != 1 ==>
              EngineOf(Some(c), defaults) == if Truthy(c.flat.baseUrl) && Truthy(c.flat.model)
                then Custom(c.flat.baseUrl.value, c.flat.apiKey, c.flat.model.value) else FromEnv
  {
    forall p | c.providers.Keys == {p} ensures EngineOf(Some(c), defaults) == Runtime(p, c.providers[p], defaults) {
      assert |c.providers| == |c.providers.Keys| == 1;
      assert forall k :: k in c.providers <==> k == p;
    }
  }

  /** A built-in provider needs no declaration. */
  lemma {:induction false} BuiltinEngine(c: Config, defaults: string -> string)
    requires Truthy(c.active) && c.active.value in BUILTIN && defaults(c.active.value) != ""
    ensures c.active.value !in c.providers
      ==> EngineOf(Some(c), defaults) == Builtin(c.active.value, defaults(c.active.value))
  {
  }
}
