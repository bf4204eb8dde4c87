/**
 The AI settings screen of a cabinet (cabinet-ai-settings.service.ts): its own choices, under the
 plan it has and the exceptions the platform makes, over any run of all three.
 */
module CabinetAiSettings {
  import opened Wrappers
  import opened AiConfig

  datatype Account = Account(config: Option<Config>, policy: Policy, enabled: bool)

  datatype Source = FromCabinet | FromPlan | FromPlatform | FromServer

  const MAX_CUSTOM := 20

  // ----- what the screen says -----

  /** The `selected` test of `access`. */
  predicate Selected(a: Account) {
    && HasCabinetOverride(a.config)
    && (|| Locked(a.config)
        || (if IsTenantId(a.config.value.active.value) then a.policy.allowCustom && OwnChoice(a.config).Some?
            else IsAllowed(a.policy, Choice(a.config.value.active.value, ModelOf(OwnChoice(a.config))))))
  }

  function Reported(platform: Option<Config>, a: Account): Source {
    if Selected(a) then FromCabinet
    else if a.policy.defaultModel.Some? then FromPlan
    else if HasCabinetOverride(platform) then FromPlatform
    else FromServer
  }

  /** The configuration each source stands for. */
  function Configured(platform: Option<Config>, a: Account, source: Source): Option<Config> {
    match source
    case FromCabinet => Merge(platform, a.config)
    case FromPlan =>
      Merge(platform, if a.policy.defaultModel.Some? then Some(FromChoice(a.policy.defaultModel.value)) else None)
    case FromPlatform =>
      Some(NO_CONFIG.(active := if platform.Some? then platform.value.active else None, providers := Catalog(platform)))
    case FromServer => None
  }

  /** The two cases where the screen and the resolver decide differently. */
  predicate Misreported(a: Account) {
    && HasCabinetOverride(a.config) && !Locked(a.config)
    && var id := a.config.value.active.value;
       var listed := IsAllowed(a.policy, Choice(id, ModelOf(OwnChoice(a.config))));
       if IsTenantId(id) then listed && OwnChoice(a.config).Some? && !a.policy.allowCustom
       else listed && OwnChoice(a.config).None?
  }

  /** The branch the resolver takes. */
  function Taken(platform: Option<Config>, a: Account): Source {
    if Locked(a.config) || ChoiceCounts(a.config, a.policy) then FromCabinet
    else if a.policy.defaultModel.Some? then FromPlan
    else if HasCabinetOverride(platform) then FromPlatform
    else FromServer
  }

  lemma {:induction false} ResolverTakes(platform: Option<Config>, a: Account)
    ensures Resolve(platform, a.config, a.policy) == Configured(platform, a, Taken(platform, a))
  {
  }

  /** The reported source is the one used, exactly outside the two cases above. */
  lemma {:induction false} ReportedIsTaken(platform: Option<Config>, a: Account)
    ensures Reported(platform, a) == Taken(platform, a) <==> !Misreported(a)
    ensures !Misreported(a) ==> Resolve(platform, a.config, a.policy) == Configured(platform, a, Reported(platform, a))
  {
    ResolverTakes(platform, a);
  }

  /** The policies a console produces: no personal provider and no empty model among the allowed ones. */
  predicate Regular(policy: Policy) {
    forall c :: c in policy.allowed ==> !IsTenantId(c.provider) && c.provider != "" && c.model != ""
  }

  lemma {:induction false} RegularPolicyIsReported(platform: Option<Config>, a: Account)
    requires Regular(a.policy)
    ensures Resolve(platform, a.config, a.policy) == Configured(platform, a, Reported(platform, a))
  {
    assert !Misreported(a);
    ReportedIsTaken(platform, a);
  }

  // ----- the actions of a cabinet -----

  datatype Action =
    | Select(choice: Choice, hasKey: bool)
    | Reset
    | SaveNew(id: string, provider: Provider)
    | SaveExisting(id: string, provider: Provider)
    | Remove(id: string)

  predicate Writable(a: Account) {
    a.enabled && !Locked(a.config)
  }

  function Stored(a: Account): Config {
    if a.config.Some? then a.config.value else NO_CONFIG
  }

  function TenantIds(providers: map<string, Provider>): set<string> {
    set id | id in providers && IsTenantId(id)
  }

  predicate IsOwn(a: Account, choice: Choice) {
    && IsTenantId(choice.provider) && a.policy.allowCustom
    && choice.provider in Stored(a).providers && Stored(a).providers[choice.provider].model == Some(choice.model)
  }

  /** What is stored of an edited configuration: without a key, the one it had. */
  function Edited(previous: Provider, p: Provider): Provider {
    if Truthy(p.apiKey) then p else p.(apiKey := previous.apiKey)
  }

  /** The new configuration, `None` when the request is refused. */
  function Perform(a: Account, action: Action): Option<Config> {
    var c := Stored(a);
    if !Writable(a) then None
    else match action
      case Select(choice, hasKey) =>
        if !(IsOwn(a, choice) || IsAllowed(a.policy, choice)) || !hasKey then None
        else
          var entry := if IsOwn(a, choice) then c.providers[choice.provider]
            else NO_PROVIDER.(model := Some(choice.model));
          Some(c.(origin := ByCabinet, active := Some(choice.provider),
                  providers := c.providers[choice.provider := entry]))
      case Reset =>
        if a.policy.allowSelection || a.policy.allowCustom then Some(c.(origin := ByCabinet, active := None)) else None
      case SaveNew(id, provider) =>
        if !a.policy.allowCustom || |TenantIds(c.providers)| >= MAX_CUSTOM then None
        else Some(c.(origin := ByCabinet, providers := c.providers[id := provider]))
      case SaveExisting(id, provider) =>
        if !a.policy.allowCustom || !IsTenantId(id) || id !in c.providers then None
        else Some(c.(origin := ByCabinet, providers := c.providers[id := Edited(c.providers[id], provider)]))
      case Remove(id) =>
        if !a.policy.allowCustom || !IsTenantId(id) || id !in c.providers then None
        else
          var d := c.(providers := c.providers - {id});
          Some(if d.active == Some(id) then d.(active := None) else d)
  }

  datatype Event =
    | ByTenant(action: Action)
    | PlanChanged(policy: Policy, enabled: bool)
    | ByConsole(config: Option<Config>)

  function After(a: Account, e: Event): Account {
    match e
    case ByTenant(action) => var c := Perform(a, action); if c.Some? then a.(config := c) else a
    case PlanChanged(policy, enabled) => a.(policy := policy, enabled := enabled)
    case ByConsole(config) => a.(config := config)
  }

  function Run(a: Account, es: seq<Event>): Account
    decreases |es|
  {
    if es == [] then a else Run(After(a, es[0]), es[1..])
  }

  /** What the console and the plans are expected to set; new personal ids are `tenant_…`. */
  predicate Ordinary(e: Event) {
    match e
    case ByTenant(SaveNew(id, _)) => IsTenantId(id)
    case PlanChanged(policy, _) => Regular(policy)
    case ByConsole(config) => config.None? || |TenantIds(config.value.providers)| <= MAX_CUSTOM
    case _ => true
  }

  // ----- what every run keeps -----

  /** A choice the policy no longer allows counts as no choice: a downgrade revokes it. */
  lemma {:induction false} ForbiddenChoiceIsIgnored(platform: Option<Config>, a: Account)
    requires !Locked(a.config) && !ChoiceCounts(a.config, a.policy)
    ensures Resolve(platform, a.config, a.policy) == Resolve(platform, None, a.policy)
  {
  }

  /** The configuration names a provider the cabinet may declare itself, or an allowed provider with its model. */
  predicate Permitted(policy: Policy, c: Config) {
    && Truthy(c.active) && c.active.value in c.providers
    && var id, model := c.active.value, c.providers[c.active.value].model;
       (IsTenantId(id) && policy.allowCustom)
       || (policy.allowSelection && model.Some? && Choice(id, model.value) in policy.allowed)
  }

  /** The engine is that of the provider named, and of the model that goes with it. */
  lemma {:induction false} PermittedEngine(policy: Policy, c: Config, defaults: string -> string)
    requires Permitted(policy, c)
    ensures EngineOf(Some(c), defaults) == Runtime(c.active.value, c.providers[c.active.value], defaults)
  {
  }

  /** What is resolved is what the plan or the platform gives, or a provider and a model the policy permits. */
  lemma {:induction false} ResolvedIsPermitted(platform: Option<Config>, a: Account, defaults: string -> string)
    requires Regular(a.policy) && !Locked(a.config)
    ensures var r := Resolve(platform, a.config, a.policy);
      r == Resolve(platform, None, a.policy)
      || (r.Some? && Permitted(a.policy, r.value)
          && EngineOf(r, defaults) == Runtime(r.value.active.value, r.value.providers[r.value.active.value], defaults))
  {
    if ChoiceCounts(a.config, a.policy) {
      assert Choice(a.config.value.active.value, "") !in a.policy.allowed;
      assert Permitted(a.policy, Merge(platform, a.config).value);
      PermittedEngine(a.policy, Merge(platform, a.config).value, defaults);
    } else {
      ForbiddenChoiceIsIgnored(platform, a);
    }
  }

  /** A tenant never alters an exception of the platform. */
  lemma {:induction false} ExceptionIsKept(a: Account, action: Action)
    requires Locked(a.config)
    ensures After(a, ByTenant(action)) == a
  {
  }

  /** Nor can it make one: whatever a tenant writes stays under the policy. */
  lemma {:induction false} TenantNeverLocks(a: Account, action: Action)
    requires !Locked(a.config)
    ensures !Locked(After(a, ByTenant(action)).config)
  {
  }

  /** A successful selection resolves to exactly the engine selected. */
  lemma {:induction false} SelectionIsResolved(platform: Option<Config>, a: Account, choice: Choice, hasKey: bool)
    requires Perform(a, Select(choice, hasKey)).Some? && choice.provider != ""
    ensures var r := Resolve(platform, Perform(a, Select(choice, hasKey)), a.policy);
      && r.Some? && r.value.active == Some(choice.provider)
      && choice.provider in r.value.providers && r.value.providers[choice.provider].model == Some(choice.model)
  {
  }

  lemma {:induction false} TenantIdsAdd(m: map<string, Provider>, id: string, p: Provider)
    ensures |TenantIds(m[id := p])| <= |TenantIds(m)| + 1
    ensures !IsTenantId(id) || id in m ==> TenantIds(m[id := p]) == TenantIds(m)
  {
    var now := TenantIds(m[id := p]);
    assert now == if IsTenantId(id) then TenantIds(m) + {id} else TenantIds(m);
  }

  lemma {:induction false} TenantIdsRemove(m: map<string, Provider>, id: string)
    ensures |TenantIds(m - {id})| <= |TenantIds(m)|
  {
    assert TenantIds(m - {id}) == TenantIds(m) - {id};
  }

  predicate Bounded(a: Account) {
    Regular(a.policy) && (a.config.Some? ==> |TenantIds(a.config.value.providers)| <= MAX_CUSTOM)
  }

  lemma {:induction false} ActionIsBounded(a: Account, action: Action)
    requires Bounded(a) && Ordinary(ByTenant(action))
    ensures Bounded(After(a, ByTenant(action)))
  {
    var c := Stored(a).providers;
    match action {
      case Select(choice, _) =>
        if Perform(a, action).Some? {
          assert !IsTenantId(choice.provider) || choice.provider in c;
          TenantIdsAdd(c, choice.provider, Perform(a, action).value.providers[choice.provider]);
        }
      case Reset =>
      case SaveNew(id, p) => TenantIdsAdd(c, id, p);
      case SaveExisting(id, p) => if id in c { TenantIdsAdd(c, id, Edited(c[id], p)); }
      case Remove(id) => TenantIdsRemove(c, id);
    }
  }

  /** Personal configurations stay at most twenty. */
  lemma {:induction false} RunIsBounded(a: Account, es: seq<Event>)
    requires Bounded(a) && forall e :: e in es ==> Ordinary(e)
    ensures Bounded(Run(a, es))
    decreases |es|
  {
    if es != [] {
      assert Ordinary(es[0]);
      if es[0].ByTenant? { ActionIsBounded(a, es[0].action); }
      RunIsBounded(After(a, es[0]), es[1..]);
    }
  }

  /**
   After every run of cabinet actions, plan changes and exceptions: the source shown is the one used,
   and without an exception the engine is that of the plan or the platform, or one the current policy permits.
   */
  lemma {:induction false} EveryRunIsReported(platform: Option<Config>, a: Account, es: seq<Event>)
    requires Bounded(a) && forall e :: e in es ==> Ordinary(e)
    ensures var b := Run(a, es);
      && Resolve(platform, b.config, b.policy) == Configured(platform, b, Reported(platform, b))
      && var r := Resolve(platform, b.config, b.policy);
         Locked(b.config) || r == Resolve(platform, None, b.policy) || (r.Some? && Permitted(b.policy, r.value))
  {
    hide Resolve, Permitted, Locked, Configured, Reported;
    var b := Run(a, es);
    RunIsBounded(a, es);
    RegularPolicyIsReported(platform, b);
    if !Locked(b.config) { ResolvedIsPermitted(platform, b, id => ""); }
  }

  /** Only the platform changes an exception. */
  lemma {:induction false} ExceptionSurvivesRuns(a: Account, es: seq<Event>)
    requires Locked(a.config) && forall e :: e in es ==> !e.ByConsole?
    ensures Run(a, es).config == a.config
    decreases |es|
  {
    if es != [] {
      if es[0].ByTenant? { ExceptionIsKept(a, es[0].action); }
      ExceptionSurvivesRuns(After(a, es[0]), es[1..]);
    }
  }

  /** Nothing of the provider but the model is said. */
  predicate OnlyModel(p: Provider, model: string) {
    p == NO_PROVIDER.(model := Some(model))
  }

  /**
   A selection keeps the personal configurations of the cabinet exactly when it is not of one of them through
   the allowed models, unless that one had nothing but its model.
   */
  lemma {:induction false} SelectionKeepsOwnIff(a: Account, choice: Choice, hasKey: bool)
    requires Perform(a, Select(choice, hasKey)).Some?
    ensures var before, after := Stored(a).providers, Perform(a, Select(choice, hasKey)).value.providers;
      (forall id :: id in TenantIds(before) ==> id in after && after[id] == before[id])
      <==> (choice.provider in TenantIds(before)
        ==> IsOwn(a, choice) || OnlyModel(before[choice.provider], choice.model))
  {
  }

  /** With a personal id among the allowed models, selecting it erases the cabinet's own configuration of that name. */
  lemma {:induction false} ListedTenantIdIsOverwritten(p: Provider)
    requires p.model == Some("m")
    ensures var c := NO_CONFIG.(providers := map["tenant_x" := p], origin := ByCabinet);
      var a := Account(Some(c), Policy(None, true, false, [Choice("tenant_x", "m")]), true);
      var r := Perform(a, Select(Choice("tenant_x", "m"), true));
      r.Some? && r.value.providers["tenant_x"] == NO_PROVIDER.(model := Some("m")) && !Regular(a.policy)
  {
    var allowed := [Choice("tenant_x", "m")];
    assert allowed[0] in allowed && IsTenantId(allowed[0].provider);
  }

  /** Where neither the platform nor the cabinet decides, the model of the plan is the one resolved. */
  lemma {:induction false} PlanDefaultIsResolved(platform: Option<Config>, a: Account, defaults: string -> string)
    requires Taken(platform, a).FromPlan? && a.policy.defaultModel.value.provider != ""
    requires a.policy.defaultModel.value.model != ""
    ensures var d, r := a.policy.defaultModel.value, Resolve(platform, a.config, a.policy);
      && r.Some? && r.value.active == Some(d.provider)
      && d.provider in r.value.providers && r.value.providers[d.provider].model == Some(d.model)
      && EngineOf(r, defaults) ==
         if d.provider in BUILTIN then Builtin(d.provider, d.model)
         else if d.provider in Catalog(platform) && Truthy(Catalog(platform)[d.provider].baseUrl)
         then Custom(Catalog(platform)[d.provider].baseUrl.value, Catalog(platform)[d.provider].apiKey, d.model)
         else FromEnv
  {
  }

  /** Where the platform decides, its provider is used, with its own model or the usual one. */
  lemma {:induction false} PlatformDefaultIsResolved(platform: Option<Config>, a: Account, defaults: string -> string)
    requires Taken(platform, a).FromPlatform?
    ensures var id, r := platform.value.active.value, Resolve(platform, a.config, a.policy);
      var p := if id in platform.value.providers then platform.value.providers[id] else NO_PROVIDER;
      && r.Some? && r.value.active == Some(id) && r.value.providers == platform.value.providers
      && (id in BUILTIN ==>
            var model := if p.model.Some? then p.model.value else defaults(id);
            EngineOf(r, defaults) == if model == "" then FromEnv else Builtin(id, model))
      && (id !in BUILTIN && id in platform.value.providers && Truthy(p.baseUrl) && Truthy(p.model) ==>
            EngineOf(r, defaults) == Custom(p.baseUrl.value, p.apiKey, p.model.value))
  {
  }

  /** Where nobody decides, the server's own configuration is used. */
  lemma {:induction false} NobodyDecides(platform: Option<Config>, a: Account, defaults: string -> string)
    requires Taken(platform, a).FromServer?
    ensures Resolve(platform, a.config, a.policy).None? && EngineOf(None, defaults) == FromEnv
  {
  }

  // ----- what the screen offers -----

  predicate CanSelect(a: Account) {
    a.enabled && !Locked(a.config) && (a.policy.allowSelection || a.policy.allowCustom)
  }

  predicate CanAdd(a: Account) {
    a.enabled && !Locked(a.config) && a.policy.allowCustom
  }

  /** The choices listed: the allowed models with a key, and every personal configuration. */
  predicate Offered(a: Account, choice: Choice, hasKey: bool) {
    && a.enabled && !Locked(a.config)
    && (|| (a.policy.allowSelection && hasKey && choice in a.policy.allowed)
        || (a.policy.allowCustom && choice.provider in TenantIds(Stored(a).providers)
            && choice.model == ModelOf(Some(Stored(a).providers[choice.provider]))))
  }

  /** A choice offered is accepted unless it has no key, or is a personal configuration without model; no other is. */
  lemma {:induction false} OfferedIsAccepted(a: Account, choice: Choice, hasKey: bool)
    ensures Perform(a, Select(choice, hasKey)).Some? ==> Offered(a, choice, hasKey) && hasKey
    ensures Offered(a, choice, hasKey) ==> (Perform(a, Select(choice, hasKey)).Some?
              <==> hasKey && (IsAllowed(a.policy, choice) || Stored(a).providers[choice.provider].model.Some?))
  {
  }

  /** What the screen says can be done is what is accepted, but for a full list, or an unknown configuration. */
  lemma {:induction false} ScreenIsRight(a: Account, id: string, p: Provider)
    ensures Perform(a, Reset).Some? <==> CanSelect(a)
    ensures Perform(a, SaveNew(id, p)).Some? <==> CanAdd(a) && |TenantIds(Stored(a).providers)| < MAX_CUSTOM
    ensures Perform(a, SaveExisting(id, p)).Some? <==> CanAdd(a) && id in TenantIds(Stored(a).providers)
    ensures Perform(a, Remove(id)).Some? <==> CanAdd(a) && id in TenantIds(Stored(a).providers)
  {
  }

  // ----- what each action does -----

  function Entry(a: Account, id: string): Option<Provider> {
    Find(Stored(a).providers, id)
  }

  function Chosen(a: Account): Option<string> {
    Stored(a).active
  }

  /** A reset leaves no choice, and keeps the personal configurations: the plan or the platform decides. */
  lemma {:induction false} ResetIsResolved(platform: Option<Config>, a: Account)
    requires CanSelect(a)
    ensures var b := After(a, ByTenant(Reset));
      && Chosen(b) == None && (forall id :: Entry(b, id) == Entry(a, id)) && b == a.(config := b.config)
      && Resolve(platform, b.config, b.policy) == Resolve(platform, None, b.policy)
      && Reported(platform, b) == Reported(platform, a.(config := None))
  {
  }

  /** The action saves `p` under `id`, and is accepted. */
  predicate Saves(a: Account, action: Action, id: string, p: Provider) {
    (action == SaveNew(id, p) || action == SaveExisting(id, p)) && Perform(a, action).Some?
  }

  /** A saved configuration is the one given, with the key it had when none is given; nothing else changes. */
  lemma {:induction false} SaveIsStored(a: Account, action: Action, id: string, p: Provider)
    requires Saves(a, action, id, p)
    ensures var b := After(a, ByTenant(action));
      && (forall x :: x != id ==> Entry(b, x) == Entry(a, x)) && Chosen(b) == Chosen(a) && b == a.(config := b.config)
      && Entry(b, id).Some? && Entry(b, id).value.baseUrl == p.baseUrl && Entry(b, id).value.model == p.model
      && (Truthy(p.apiKey) ==> Entry(b, id).value.apiKey == p.apiKey)
      && (action.SaveExisting? && !Truthy(p.apiKey) ==> Entry(b, id).value.apiKey == Entry(a, id).value.apiKey)
  {
  }

  /** The configuration in use is resolved as it was saved. */
  lemma {:induction false} SavedIsResolved(platform: Option<Config>, a: Account, id: string, p: Provider)
    requires Saves(a, SaveExisting(id, p), id, p) && Chosen(a) == Some(id) && id !in Catalog(platform) && p.model.Some?
    ensures var b := After(a, ByTenant(SaveExisting(id, p)));
      var r := Resolve(platform, b.config, b.policy);
      && r.Some? && r.value.active == Some(id) && id in r.value.providers
      && Some(r.value.providers[id]) == Entry(b, id)
  {
  }

  /** A removed configuration is gone, the others stay, and the choice goes exactly when it was that one. */
  lemma {:induction false} RemovalIsComplete(platform: Option<Config>, a: Account, id: string)
    requires Perform(a, Remove(id)).Some?
    ensures var b := After(a, ByTenant(Remove(id)));
      && Entry(b, id) == None && (forall x :: x != id ==> Entry(b, x) == Entry(a, x)) && b == a.(config := b.config)
      && Chosen(b) == (if Chosen(a) == Some(id) then None else Chosen(a))
      && (Chosen(a) == Some(id) ==> Resolve(platform, b.config, b.policy) == Resolve(platform, None, b.policy))
  {
  }

  /** The last personal configuration can be removed, and a full list has room again. */
  lemma {:induction false} RemovalMakesRoom(a: Account, id: string, newId: string, p: Provider)
    requires Perform(a, Remove(id)).Some? && |TenantIds(Stored(a).providers)| <= MAX_CUSTOM
    ensures Perform(After(a, ByTenant(Remove(id))), SaveNew(newId, p)).Some?
  {
    var m := Stored(a).providers;
    assert id in TenantIds(m) && TenantIds(m - {id}) == TenantIds(m) - {id};
  }

  // ----- and over runs -----

  /** The event changes what is stored under `id`: saves, removes or overwrites it, or replaces everything. */
  predicate Touches(a: Account, e: Event, id: string) {
    match e
    case ByTenant(action) =>
      && Perform(a, action).Some?
      && (match action
          case Select(choice, _) => choice.provider == id && !IsOwn(a, choice)
          case Reset => false
          case SaveNew(x, _) => x == id
          case SaveExisting(x, _) => x == id
          case Remove(x) => x == id)
    case PlanChanged(_, _) => false
    case ByConsole(_) => true
  }

  /** No event of the run does. */
  predicate LeftAlone(a: Account, es: seq<Event>, id: string)
    decreases |es|
  {
    es == [] || (!Touches(a, es[0], id) && LeftAlone(After(a, es[0]), es[1..], id))
  }

  /** A personal configuration stays as it is until it is saved again, removed, selected elsewhere, or replaced. */
  lemma {:induction false} EntryStays(a: Account, es: seq<Event>, id: string)
    requires LeftAlone(a, es, id)
    ensures Entry(Run(a, es), id) == Entry(a, id)
    decreases |es|
  {
    hide After, Touches, Entry;
    if es != [] {
      EntryStep(a, es[0], id);
      EntryStays(After(a, es[0]), es[1..], id);
    }
  }

  lemma {:induction false} EntryStep(a: Account, e: Event, id: string)
    requires !Touches(a, e, id)
    ensures Entry(After(a, e), id) == Entry(a, id)
  {
  }

  /** So over a run an entry is the one saved last. */
  lemma {:induction false} SavedLasts(a: Account, before: seq<Event>, action: Action, after: seq<Event>, id: string,
          p: Provider)
    requires Saves(Run(a, before), action, id, p) && Truthy(p.apiKey)
    requires LeftAlone(After(Run(a, before), ByTenant(action)), after, id)
    ensures Entry(Run(a, before + [ByTenant(action)] + after), id) == Some(p)
  {
    hide Entry, LeftAlone, Saves, After, Run;
    RunThrough(a, before, ByTenant(action), after);
    var b := After(Run(a, before), ByTenant(action));
    EntryStays(b, after, id);
    SaveIsExact(Run(a, before), action, id, p);
  }

  lemma {:induction false} SaveIsExact(a: Account, action: Action, id: string, p: Provider)
    requires Saves(a, action, id, p) && Truthy(p.apiKey)
    ensures Entry(After(a, ByTenant(action)), id) == Some(p)
  {
  }

  lemma {:induction false} RunThrough(a: Account, before: seq<Event>, e: Event, after: seq<Event>)
    ensures Run(a, before + [e] + after) == Run(After(Run(a, before), e), after)
    decreases |before|
  {
    hide After;
    var all := before + [e] + after;
    if before == [] {
      assert all[0] == e && all[1..] == after;
    } else {
      assert all[0] == before[0] && all[1..] == before[1..] + [e] + after;
      RunThrough(After(a, before[0]), before[1..], e, after);
    }
  }

  /** Whatever a cabinet writes, but for a removal, is marked as its own choice. */
  lemma {:induction false} WritesAreOwn(a: Account, action: Action)
    requires Perform(a, action).Some?
    ensures !action.Remove? ==> Perform(a, action).value.origin.ByCabinet?
    ensures Perform(a, action).value.flat == Stored(a).flat
  {
  }

  /** The plan in force is the last one given, whatever the cabinet did since. */
  lemma {:induction false} LastPlanDecides(a: Account, before: seq<Event>, policy: Policy, enabled: bool,
          after: seq<Event>)
    requires forall e :: e in after ==> !e.PlanChanged?
    ensures var r := Run(a, before + [PlanChanged(policy, enabled)] + after); r.policy == policy && r.enabled == enabled
  {
    hide Run;
    var e := PlanChanged(policy, enabled);
    RunThrough(a, before, e, after);
    PlanStays(After(Run(a, before), e), after);
  }

  lemma {:induction false} PlanStays(a: Account, es: seq<Event>)
    requires forall e :: e in es ==> !e.PlanChanged?
    ensures Run(a, es).policy == a.policy && Run(a, es).enabled == a.enabled
    decreases |es|
  {
    if es != [] { PlanStays(After(a, es[0]), es[1..]); }
  }

  /** An exception of the platform holds until the platform changes it. */
  lemma {:induction false} LastExceptionDecides(a: Account, before: seq<Event>, config: Option<Config>,
          after: seq<Event>)
    requires Locked(config) && forall e :: e in after ==> !e.ByConsole?
    ensures Run(a, before + [ByConsole(config)] + after).config == config
  {
    hide Run, Locked;
    RunThrough(a, before, ByConsole(config), after);
    ExceptionSurvivesRuns(After(Run(a, before), ByConsole(config)), after);
  }

  /** The event changes the choice: a selection, a reset, the removal of what is chosen, or a replacement. */
  predicate Rechooses(a: Account, e: Event) {
    match e
    case ByTenant(action) =>
      Perform(a, action).Some? && (action.Select? || action.Reset? || (action.Remove? && Chosen(a) == Some(action.id)))
    case PlanChanged(_, _) => false
    case ByConsole(_) => true
  }

  predicate ChoiceLeftAlone(a: Account, es: seq<Event>)
    decreases |es|
  {
    es == [] || (!Rechooses(a, es[0]) && ChoiceLeftAlone(After(a, es[0]), es[1..]))
  }

  lemma {:induction false} ChoiceStays(a: Account, es: seq<Event>)
    requires ChoiceLeftAlone(a, es)
    ensures Chosen(Run(a, es)) == Chosen(a)
    decreases |es|
  {
    if es != [] { ChoiceStays(After(a, es[0]), es[1..]); }
  }

  /** A selection lasts, with its model, until the choice or what is stored under its provider is changed. */
  lemma {:induction false} SelectionLasts(a: Account, choice: Choice, es: seq<Event>)
    requires Perform(a, Select(choice, true)).Some?
    requires var b := After(a, ByTenant(Select(choice, true)));
      ChoiceLeftAlone(b, es) && LeftAlone(b, es, choice.provider)
    ensures var r := Run(a, [ByTenant(Select(choice, true))] + es);
      && Chosen(r) == Some(choice.provider)
      && Entry(r, choice.provider).Some? && Entry(r, choice.provider).value.model == Some(choice.model)
  {
    hide LeftAlone, ChoiceLeftAlone;
    var b, all := After(a, ByTenant(Select(choice, true))), [ByTenant(Select(choice, true))] + es;
    assert all[0] == ByTenant(Select(choice, true)) && all[1..] == es;
    ChoiceStays(b, es);
    EntryStays(b, es, choice.provider);
    SelectionIsStored(a, choice);
  }

  lemma {:induction false} SelectionIsStored(a: Account, choice: Choice)
    requires Perform(a, Select(choice, true)).Some?
    ensures var b := After(a, ByTenant(Select(choice, true)));
      && Chosen(b) == Some(choice.provider)
      && Entry(b, choice.provider).Some? && Entry(b, choice.provider).value.model == Some(choice.model)
      && forall x :: x != choice.provider ==> Entry(b, x) == Entry(a, x)
  {
  }

  // ----- the service -----

  class CabinetAiSettingsService {
    var config: Option<Config>
    var policy: Policy
    var enabled: bool

    constructor (a: Account)
      ensures State() == a
    {
      config, policy, enabled := a.config, a.policy, a.enabled;
    }

    ghost function State(): Account
      reads this
    {
      Account(config, policy, enabled)
    }

    method SelectEngine(choice: Choice, hasKey: bool) returns (ok: bool)
      modifies this`config
      ensures ok == Perform(old(State()), Select(choice, hasKey)).Some?
      ensures State() == After(old(State()), ByTenant(Select(choice, hasKey)))
    {
      if !enabled || Locked(config) { return false; }
      var current := if config.Some? then config.value else NO_CONFIG;
      var own := Find(current.providers, choice.provider);
      var isOwn := IsTenantId(choice.provider) && policy.allowCustom && own.Some?
        && own.value.model == Some(choice.model);
      if !isOwn && !IsAllowed(policy, choice) { return false; }
      if !hasKey { return false; }
      var entry := if isOwn then own.value else NO_PROVIDER.(model := Some(choice.model));
      current := current.(origin := ByCabinet, active := Some(choice.provider));
      current := current.(providers := current.providers[choice.provider := entry]);
      config := Some(current);
      return true;
    }

    method ResetChoice() returns (ok: bool)
      modifies this`config
      ensures ok == Perform(old(State()), Reset).Some?
      ensures State() == After(old(State()), ByTenant(Reset))
    {
      if !enabled || Locked(config) { return false; }
      if !policy.allowSelection && !policy.allowCustom { return false; }
      var current := if config.Some? then config.value else NO_CONFIG;
      config := Some(current.(origin := ByCabinet, active := None));
      return true;
    }

    method SaveCustom(id: Option<string>, newId: string, provider: Provider) returns (ok: bool)
      modifies this`config
      ensures var action := if id.Some? then SaveExisting(id.value, provider) else SaveNew(newId, provider);
        ok == Perform(old(State()), action).Some? && State() == After(old(State()), ByTenant(action))
    {
      if !enabled || Locked(config) || !policy.allowCustom { return false; }
      var current := if config.Some? then config.value else NO_CONFIG;
      if id.Some? && (!IsTenantId(id.value) || id.value !in current.providers) { return false; }
      if id.None? && |TenantIds(current.providers)| >= MAX_CUSTOM { return false; }
      var key, entry := newId, provider;
      if id.Some? {
        key := id.value;
        if !Truthy(provider.apiKey) { entry := provider.(apiKey := current.providers[key].apiKey); }
      }
      config := Some(current.(origin := ByCabinet, providers := current.providers[key := entry]));
      return true;
    }

    method DeleteCustom(id: string) returns (ok: bool)
      modifies this`config
      ensures ok == Perform(old(State()), Remove(id)).Some?
      ensures State() == After(old(State()), ByTenant(Remove(id)))
    {
      if !enabled || Locked(config) || !policy.allowCustom { return false; }
      var current := if config.Some? then config.value else NO_CONFIG;
      if !IsTenantId(id) || id !in current.providers { return false; }
      current := current.(providers := current.providers - {id});
      if current.active == Some(id) { current := current.(active := None); }
      config := Some(current);
      return true;
    }
  }
}
