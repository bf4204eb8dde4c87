/**
 The migration that moves engine choices from cabinets to the platform
 (1792100000000-MoveAiConfigToPlatform.ts): the loop over the cabinets, and the engine each cabinet
 has before and after.
 */
module MoveAiConfig {
  import opened Wrappers
  import opened AiConfig

  /** The column: empty, a text that is not a JSON object, or a configuration. */
  datatype Column = Empty | Unreadable | Json(config: Config)

  function Parse(c: Column): Option<Config> {
    if c.Json? then Some(c.config) else None
  }

  function ToColumn(c: Option<Config>): Column {
    if c.Some? then Json(c.value) else Empty
  }

  type Id = nat

  /** `flatId` names the provider made from an old flat configuration. */
  datatype Names = Names(flatId: Id -> string)

  // ----- one cabinet -----

  function AddCustom(catalog: map<string, Provider>, providers: map<string, Provider>): map<string, Provider> {
    catalog + map id | id in providers && id !in BUILTIN && Truthy(providers[id].baseUrl) && id !in catalog ::
        providers[id]
  }

  /** The active engine the cabinet keeps, with its model, and the catalogue it needs. */
  datatype Kept = Kept(active: Option<string>, model: Option<string>, catalog: map<string, Provider>)

  function Keep(n: Names, catalog: map<string, Provider>, id: Id, c: Config): Kept {
    var added := AddCustom(catalog, c.providers);
    if !Truthy(c.active) && Truthy(c.flat.baseUrl) && Truthy(c.flat.model) then
      Kept(Some(n.flatId(id)), c.flat.model, added[n.flatId(id) := c.flat])
    else
      var own := if Truthy(c.active) then Find(c.providers, c.active.value) else None;
      Kept(c.active, if own.Some? then own.value.model else None, added)
  }

  function ExceptionFor(k: Kept): Option<Config> {
    if Truthy(k.active) && (k.active.value in BUILTIN || k.active.value in k.catalog) then
      Some(NO_CONFIG.(active := k.active,
                      providers := map[k.active.value := if Truthy(k.model) then NO_PROVIDER.(model := k.model)
                        else NO_PROVIDER]))
    else None
  }

  // ----- all cabinets -----

  datatype Tables = Tables(cabinets: map<Id, Column>, platform: Option<Config>, backup: Option<map<Id, Option<Config>>>)

  function MoveOne(n: Names, catalog: map<string, Provider>, id: Id, column: Column): (Column, map<string, Provider>) {
    if column.Json? then
      var k := Keep(n, catalog, id, column.config);
      (ToColumn(ExceptionFor(k)), k.catalog)
    else (Empty, catalog)
  }

  /** The cabinets after the loop over `ids`, and the catalogue it accumulated. */
  function MoveAll(n: Names, cabinets: map<Id, Column>, catalog: map<string, Provider>, ids: seq<Id>)
    : (map<Id, Column>, map<string, Provider>)
    requires forall i :: i in ids ==> i in cabinets
    decreases |ids|
  {
    if ids == [] then (cabinets, catalog)
    else
      var (column, more) := MoveOne(n, catalog, ids[0], cabinets[ids[0]]);
      MoveAll(n, cabinets[ids[0] := column], more, ids[1..])
  }

  /** The rows `up` reads: each cabinet with a configuration once, in any order. */
  ghost predicate Lists(t: Tables, ids: seq<Id>) {
    && (forall i :: i in ids <==> i in t.cabinets && !t.cabinets[i].Empty?)
    && (forall i, j :: 0 <= i < j < |ids| ==> ids[i] != ids[j])
  }

  function Backup(cabinets: map<Id, Column>, ids: seq<Id>): map<Id, Option<Config>>
    requires forall i :: i in ids ==> i in cabinets
  {
    map i | i in ids :: Parse(cabinets[i])
  }

  lemma {:induction false} BackupNone(cabinets: map<Id, Column>, ids: seq<Id>)
    requires ids == []
    ensures Backup(cabinets, ids) == map[]
  {
  }

  lemma {:induction false} BackupSnoc(cabinets: map<Id, Column>, ids: seq<Id>, id: Id)
    requires id in cabinets && forall i :: i in ids ==> i in cabinets
    ensures Backup(cabinets, ids + [id]) == Backup(cabinets, ids)[id := Parse(cabinets[id])]
  {
  }

  function Up(n: Names, t: Tables, ids: seq<Id>): Tables
    requires forall i :: i in ids ==> i in t.cabinets
  {
    var platform := if t.platform.Some? then t.platform.value else NO_CONFIG;
    var (cabinets, catalog) := MoveAll(n, t.cabinets, platform.providers, ids);
    Tables(cabinets, Some(platform.(providers := catalog)), if t.backup.Some? then t.backup
      else Some(Backup(t.cabinets, ids)))
  }

  function Down(t: Tables): Tables {
    var saved := if t.backup.Some? then t.backup.value else map[];
    Tables(map i | i in t.cabinets :: if i in saved then ToColumn(saved[i]) else t.cabinets[i], None, None)
  }

  // ----- down undoes up -----

  lemma {:induction false} OthersUnmoved(n: Names, cabinets: map<Id, Column>, catalog: map<string, Provider>,
          ids: seq<Id>, i: Id)
    requires forall x :: x in ids ==> x in cabinets
    ensures MoveAll(n, cabinets, catalog, ids).0.Keys == cabinets.Keys
    ensures i in cabinets && i !in ids ==> MoveAll(n, cabinets, catalog, ids).0[i] == cabinets[i]
    decreases |ids|
  {
    if ids != [] {
      var (column, more) := MoveOne(n, catalog, ids[0], cabinets[ids[0]]);
      OthersUnmoved(n, cabinets[ids[0] := column], more, ids[1..], i);
    }
  }

  /** Each cabinet gets its parsed configuration back, whatever the order of the rows. */
  lemma {:induction false} DownRestores(n: Names, t: Tables, ids: seq<Id>)
    requires Lists(t, ids) && t.backup.None?
    ensures var r := Down(Up(n, t, ids));
      r.cabinets.Keys == t.cabinets.Keys && forall i ::
          i in t.cabinets ==> r.cabinets[i] == ToColumn(Parse(t.cabinets[i]))
  {
    var platform := if t.platform.Some? then t.platform.value else NO_CONFIG;
    OthersUnmoved(n, t.cabinets, platform.providers, ids, 0);
    forall i | i in t.cabinets ensures Down(Up(n, t, ids)).cabinets[i] == ToColumn(Parse(t.cabinets[i])) {
      OthersUnmoved(n, t.cabinets, platform.providers, ids, i);
    }
  }

  /**
   With a backup left by an earlier run, a cabinet gets its configuration back exactly when that backup holds
   it, or when the backup does not know the cabinet and `up` has not changed it.
   */
  lemma {:induction false} DownRestoresIff(n: Names, t: Tables, ids: seq<Id>, i: Id)
    requires Lists(t, ids) && i in t.cabinets
    ensures var u := Up(n, t, ids);
      && var r := Down(u);
      && i in u.cabinets && i in r.cabinets
      && (r.cabinets[i] == ToColumn(Parse(t.cabinets[i]))
          <==> || t.backup.None?
               || (if i in t.backup.value then t.backup.value[i] == Parse(t.cabinets[i])
                   else u.cabinets[i] == ToColumn(Parse(t.cabinets[i]))))
  {
    hide MoveAll;
    OthersUnmoved(n, t.cabinets, Catalog(t.platform), ids, i);
    if t.backup.None? { DownRestores(n, t, ids); }
  }

  /**
   `down` after `up` gives the tables back exactly when there was no `ai` setting of the platform, which `down`
   erases, no backup, and no column that is not a JSON object.
   */
  lemma {:induction false} DownUndoesUpIff(n: Names, t: Tables, ids: seq<Id>)
    requires Lists(t, ids)
    ensures Down(Up(n, t, ids)).platform.None?
    ensures Down(Up(n, t, ids)) == t
      <==> t.platform.None? && t.backup.None? && forall i :: i in t.cabinets ==> !t.cabinets[i].Unreadable?
  {
    hide MoveAll;
    var r := Down(Up(n, t, ids));
    if t.platform.None? && t.backup.None? {
      DownRestores(n, t, ids);
      forall i | i in t.cabinets ensures r.cabinets[i] == t.cabinets[i] <==> !t.cabinets[i].Unreadable? {}
      if forall i :: i in t.cabinets ==> !t.cabinets[i].Unreadable? { assert r.cabinets == t.cabinets; }
    }
  }

  // ----- no cabinet changes engine -----

  /** The provider is built in, in the catalogue, or declared by the cabinet with a URL. */
  predicate Usable(catalog: map<string, Provider>, c: Config, id: string) {
    id in BUILTIN || id in catalog || (id in c.providers && Truthy(c.providers[id].baseUrl))
  }

  /** One meaning for each custom provider: `d` gives the content every use of its id has. */
  ghost predicate Agreed(n: Names, d: map<string, Provider>, catalog: map<string, Provider>, id: Id, c: Config) {
    // A provider declared with a URL is the one the id stands for.
    && (forall p :: p in c.providers && p !in BUILTIN && Truthy(c.providers[p].baseUrl) && p !in catalog ==>
          p in d && d[p] == c.providers[p])
    // A custom provider used without being declared, or without a URL, is nobody else's.
    && (Truthy(c.active) && !Usable(catalog, c, c.active.value) ==> c.active.value !in d)
    // The provider made from a flat configuration is new.
    && (!Truthy(c.active) && Truthy(c.flat.baseUrl) && Truthy(c.flat.model) ==>
          n.flatId(id) !in BUILTIN && n.flatId(id) !in catalog && n.flatId(id) != "" && n.flatId(id) in d
            && d[n.flatId(id)] == c.flat)
  }

  /** Either flat, or with an active provider whose model is not an empty text. */
  predicate WellShaped(c: Config) {
    if Truthy(c.active) then
      c.active.value in c.providers ==> c.providers[c.active.value].model != Some("")
    else c.providers == map[]
  }

  /** The catalogue during the loop: the platform's own entries, and entries that agree. */
  ghost predicate Between(start: map<string, Provider>, d: map<string, Provider>, catalog: map<string, Provider>) {
    && (forall p :: p in start ==> p in catalog && catalog[p] == start[p])
    && (forall p :: p in catalog && p !in start ==> p !in BUILTIN && p in d && catalog[p] == d[p])
  }

  lemma {:induction false} KeepBetween(n: Names, start: map<string, Provider>, d: map<string, Provider>,
          catalog: map<string, Provider>, id: Id, c: Config)
    requires Between(start, d, catalog) && Agreed(n, d, start, id, c)
    ensures Between(start, d, Keep(n, catalog, id, c).catalog)
    ensures forall p :: p in catalog ==> p in Keep(n, catalog, id, c).catalog
  {
  }

  function With(platform: Option<Config>, catalog: map<string, Provider>): Option<Config> {
    Some((if platform.Some? then platform.value else NO_CONFIG).(providers := catalog))
  }

  /** What an exception, or any choice of a cabinet, resolves to. */
  lemma {:induction false} OverrideEngine(platform: Option<Config>, c: Config, defaults: string -> string)
    requires Truthy(c.active)
    ensures var a, catalog := c.active.value, Catalog(platform);
      var mine := if a in c.providers then c.providers[a] else NO_PROVIDER;
      var base := if a in catalog then catalog[a] else mine;
      var model := OrElse(mine.model, if a in catalog then catalog[a].model else None);
      EngineOf(Merge(platform, Some(c)), defaults) == Runtime(a, base.(model := model), defaults)
  {
  }

  lemma {:induction false} FlatEngineIsKept(n: Names, start: map<string, Provider>, d: map<string, Provider>, k: Kept,
          end: map<string, Provider>, id: Id, c: Config, platform: Option<Config>,
          defaults: string -> string)
    requires Between(start, d, end) && Agreed(n, d, start, id, c) && WellShaped(c) && !Truthy(c.active)
    requires k.catalog.Keys <= end.Keys && (exists catalog :: k == Keep(n, catalog, id, c))
    requires start == Catalog(platform) && !HasCabinetOverride(platform)
    ensures EngineOf(Merge(With(platform, end), ExceptionFor(k)), defaults)
      == EngineOf(Merge(platform, Some(c)), defaults)
  {
    var after := With(platform, end);
    if Truthy(c.flat.baseUrl) && Truthy(c.flat.model) {
      var f := n.flatId(id);
      assert f in k.catalog && end[f] == c.flat;
      OverrideEngine(after, ExceptionFor(k).value, defaults);
      assert EngineOf(Merge(after, ExceptionFor(k)), defaults)
          == Custom(c.flat.baseUrl.value, c.flat.apiKey, c.flat.model.value);
    } else {
      assert Merge(after, ExceptionFor(k)) == None;
    }
  }

  lemma {:induction false} ActiveEngineIsKept(n: Names, start: map<string, Provider>, d: map<string, Provider>,
          catalog: map<string, Provider>,
          end: map<string, Provider>, id: Id, c: Config, platform: Option<Config>,
          defaults: string -> string)
    requires Between(start, d, catalog) && Between(start, d, end) && Agreed(n, d, start, id, c) && WellShaped(c)
    requires Truthy(c.active)
    requires Keep(n, catalog, id, c).catalog.Keys <= end.Keys
    requires start == Catalog(platform) && !HasCabinetOverride(platform)
    ensures EngineOf(Merge(With(platform, end), ExceptionFor(Keep(n, catalog, id, c))), defaults)
         == EngineOf(Merge(platform, Some(c)), defaults)
  {
    var k, a, after := Keep(n, catalog, id, c), c.active.value, With(platform, end);
    OverrideEngine(platform, c, defaults);
    if Usable(start, c, a) {
      assert a in BUILTIN || a in k.catalog;
      var e := ExceptionFor(k).value;
      OverrideEngine(after, e, defaults);
    } else {
      assert a !in end && a !in k.catalog;
      assert Merge(after, ExceptionFor(k)) == None;
    }
  }

  lemma {:induction false} EngineIsKept(n: Names, start: map<string, Provider>, d: map<string, Provider>,
          catalog: map<string, Provider>,
          end: map<string, Provider>, id: Id, c: Config, platform: Option<Config>,
          defaults: string -> string)
    requires Between(start, d, catalog) && Between(start, d, end) && Agreed(n, d, start, id, c) && WellShaped(c)
    requires Keep(n, catalog, id, c).catalog.Keys <= end.Keys
    requires start == Catalog(platform) && !HasCabinetOverride(platform)
    ensures EngineOf(Merge(With(platform, end), ExceptionFor(Keep(n, catalog, id, c))), defaults)
         == EngineOf(Merge(platform, Some(c)), defaults)
  {
    if Truthy(c.active) { ActiveEngineIsKept(n, start, d, catalog, end, id, c, platform, defaults); }
    else { FlatEngineIsKept(n, start, d, Keep(n, catalog, id, c), end, id, c, platform, defaults); }
  }

  ghost predicate AllAgreed(n: Names, d: map<string, Provider>, t: Tables) {
    forall i :: i in t.cabinets && t.cabinets[i].Json? ==>
      Agreed(n, d, Catalog(t.platform), i, t.cabinets[i].config) && WellShaped(t.cabinets[i].config)
  }

  /** The catalogue only grows, and stays between the platform's entries and the agreed ones. */
  lemma {:induction false} CatalogGrows(n: Names, d: map<string, Provider>, t: Tables, cabinets: map<Id, Column>,
          catalog: map<string, Provider>, ids: seq<Id>)
    requires AllAgreed(n, d, t) && Between(Catalog(t.platform), d, catalog)
    requires forall i :: i in ids ==> i in cabinets && i in t.cabinets && cabinets[i] == t.cabinets[i]
    requires forall i, j :: 0 <= i < j < |ids| ==> ids[i] != ids[j]
    ensures Between(Catalog(t.platform), d, MoveAll(n, cabinets, catalog, ids).1)
    ensures catalog.Keys <= MoveAll(n, cabinets, catalog, ids).1.Keys
    decreases |ids|
  {
    if ids != [] {
      var column := cabinets[ids[0]];
      if column.Json? { KeepBetween(n, Catalog(t.platform), d, catalog, ids[0], column.config); }
      var (moved, more) := MoveOne(n, catalog, ids[0], column);
      CatalogGrows(n, d, t, cabinets[ids[0] := moved], more, ids[1..]);
    }
  }

  /** Row `i` was moved under some catalogue of the loop. */
  lemma {:induction false} MovedUnder(n: Names, d: map<string, Provider>, t: Tables, cabinets: map<Id, Column>,
                                      catalog: map<string, Provider>, ids: seq<Id>, i: Id)
    returns (under: map<string, Provider>)
    requires AllAgreed(n, d, t) && Between(Catalog(t.platform), d, catalog) && i in ids
    requires forall x :: x in ids ==> x in cabinets && x in t.cabinets && cabinets[x] == t.cabinets[x]
    requires forall x, y :: 0 <= x < y < |ids| ==> ids[x] != ids[y]
    ensures Between(Catalog(t.platform), d, under)
    ensures MoveAll(n, cabinets, catalog, ids).0.Keys == cabinets.Keys
    ensures MoveAll(n, cabinets, catalog, ids).0[i] == MoveOne(n, under, i, t.cabinets[i]).0
    ensures MoveOne(n, under, i, t.cabinets[i]).1.Keys <= MoveAll(n, cabinets, catalog, ids).1.Keys
    decreases |ids|
  {
    OthersUnmoved(n, cabinets, catalog, ids, i);
    var column := cabinets[ids[0]];
    if column.Json? { KeepBetween(n, Catalog(t.platform), d, catalog, ids[0], column.config); }
    var (moved, more) := MoveOne(n, catalog, ids[0], column);
    if i == ids[0] {
      under := catalog;
      OthersUnmoved(n, cabinets[i := moved], more, ids[1..], i);
      CatalogGrows(n, d, t, cabinets[i := moved], more, ids[1..]);
    } else {
      under := MovedUnder(n, d, t, cabinets[ids[0] := moved], more, ids[1..], i);
    }
  }

  /**
   No cabinet changes engine: when the platform sets no default and the custom ids agree, each
   cabinet resolves to the same engine before and after, whatever the order of the rows.
   */
  lemma {:induction false} UpKeepsEngines(n: Names, d: map<string, Provider>, t: Tables, ids: seq<Id>, i: Id,
          defaults: string -> string)
    requires Lists(t, ids) && i in t.cabinets && AllAgreed(n, d, t) && !HasCabinetOverride(t.platform)
    ensures var u := Up(n, t, ids);
      i in u.cabinets
      && EngineOf(Merge(u.platform, Parse(u.cabinets[i])), defaults)
        == EngineOf(Merge(t.platform, Parse(t.cabinets[i])), defaults)
  {
    var start, u := Catalog(t.platform), Up(n, t, ids);
    CatalogGrows(n, d, t, t.cabinets, start, ids);
    OthersUnmoved(n, t.cabinets, start, ids, i);
    if i in ids {
      var catalog := MovedUnder(n, d, t, t.cabinets, start, ids, i);
      if t.cabinets[i].Json? {
        var end := MoveAll(n, t.cabinets, start, ids).1;
        EngineIsKept(n, start, d, catalog, end, i, t.cabinets[i].config, t.platform, defaults);
        assert u.platform == With(t.platform, end);
        assert Parse(u.cabinets[i]) == ExceptionFor(Keep(n, catalog, i, t.cabinets[i].config));
      }
    }
  }

  // ----- when an id is reused -----

  /** The row declares the provider `a`, with a URL. */
  predicate DeclaresUrl(column: Column, a: string) {
    column.Json? && a in column.config.providers && Truthy(column.config.providers[a].baseUrl)
  }

  /** The first row that declares `a` with a URL says what `a` becomes. */
  function FirstDeclared(cabinets: map<Id, Column>, ids: seq<Id>, a: string): Option<Provider>
    requires forall i :: i in ids ==> i in cabinets
  {
    if ids == [] then None
    else if DeclaresUrl(cabinets[ids[0]], a) then Some(cabinets[ids[0]].config.providers[a])
    else FirstDeclared(cabinets, ids[1..], a)
  }

  lemma {:induction false} FirstDeclaredElsewhere(cabinets: map<Id, Column>, ids: seq<Id>, a: string, id: Id,
          column: Column)
    requires id !in ids && forall i :: i in ids ==> i in cabinets
    ensures FirstDeclared(cabinets[id := column], ids, a) == FirstDeclared(cabinets, ids, a)
  {
    if ids != [] { FirstDeclaredElsewhere(cabinets, ids[1..], a, id, column); }
  }

  predicate Once(ids: seq<Id>) {
    forall i, j :: 0 <= i < j < |ids| ==> ids[i] != ids[j]
  }

  predicate NotFlat(n: Names, ids: seq<Id>, a: string) {
    forall i :: i in ids ==> n.flatId(i) != a
  }

  lemma {:induction false} EntryOfRow(n: Names, catalog: map<string, Provider>, id: Id, column: Column, a: string)
    requires a !in BUILTIN && n.flatId(id) != a
    ensures var more := MoveOne(n, catalog, id, column).1;
      Find(more, a) == if a in catalog then Some(catalog[a])
        else if DeclaresUrl(column, a) then Some(column.config.providers[a]) else None
  {
  }

  /** The catalogue after the loop: its own entries, then the first declarations. */
  lemma {:induction false} EntryOfLoop(n: Names, cabinets: map<Id, Column>, catalog: map<string, Provider>,
          ids: seq<Id>, a: string)
    requires (forall i :: i in ids ==> i in cabinets) && Once(ids) && a !in BUILTIN && NotFlat(n, ids, a)
    ensures Find(MoveAll(n, cabinets, catalog, ids).1, a) == if a in catalog then Some(catalog[a])
      else FirstDeclared(cabinets, ids, a)
    decreases |ids|
  {
    hide MoveOne;
    if ids != [] {
      var id := ids[0];
      var (column, more) := MoveOne(n, catalog, id, cabinets[id]);
      EntryOfRow(n, catalog, id, cabinets[id], a);
      EntryOfLoop(n, cabinets[id := column], more, ids[1..], a);
      FirstDeclaredElsewhere(cabinets, ids[1..], a, id, column);
    }
  }

  // ----- what up leaves -----

  /** Nothing, or a known provider and at most its model: no URL, no key. */
  predicate IsException(catalog: map<string, Provider>, column: Column) {
    column.Empty?
    || (column.Json? && Truthy(column.config.active)
        && (column.config.active.value in BUILTIN || column.config.active.value in catalog)
        && exists m :: m in {None, ModelIn(column.config)}
                       && column.config == NO_CONFIG.(active := column.config.active,
             providers := map[column.config.active.value := NO_PROVIDER.(model := m)]))
  }

  function ModelIn(c: Config): Option<string> {
    if Truthy(c.active) && c.active.value in c.providers then c.providers[c.active.value].model else None
  }

  /** The provider and the model a cabinet uses, when it is one that stays known. */
  function Uses(n: Names, catalog: map<string, Provider>, id: Id, c: Config): Option<(string, Option<string>)> {
    if Truthy(c.active) then if Usable(catalog, c, c.active.value) then Some((c.active.value, ModelIn(c))) else None
    else if Truthy(c.flat.baseUrl) && Truthy(c.flat.model) then Some((n.flatId(id), c.flat.model)) else None
  }

  /**
   `after` is nothing but a known provider and its model: the ones `before` uses, when that provider is known of
   the platform or declared by the cabinet; each provider `before` declares with a URL is in the catalogue.
   */
  predicate MovedTo(n: Names, start: map<string, Provider>, end: map<string, Provider>, id: Id, before: Column,
                    after: Column) {
    && IsException(end, after)
    && (before.Json? && Uses(n, start, id, before.config).Some? ==>
          var (a, model) := Uses(n, start, id, before.config).value;
          after.Json? && after.config.active == Some(a) && (Truthy(model) ==> ModelIn(after.config) == model))
    && (before.Json? ==>
          forall p :: p in before.config.providers && DeclaresUrl(before, p) ==> p in BUILTIN || p in end)
  }

  lemma {:induction false} MovedRow(n: Names, start: map<string, Provider>, catalog: map<string, Provider>, id: Id,
          column: Column)
    requires start.Keys <= catalog.Keys && n.flatId(id) != ""
    ensures var (moved, more) := MoveOne(n, catalog, id, column);
      catalog.Keys <= more.Keys && MovedTo(n, start, more, id, column, moved)
  {
  }

  lemma {:induction false} MovedStays(n: Names, start: map<string, Provider>, small: map<string, Provider>,
          big: map<string, Provider>, id: Id, before: Column, after: Column)
    requires small.Keys <= big.Keys && MovedTo(n, start, small, id, before, after)
    ensures MovedTo(n, start, big, id, before, after)
  {
    hide Uses, DeclaresUrl, ModelIn, Truthy;
  }

  lemma {:induction false} MovedLoop(n: Names, cabinets: map<Id, Column>, start: map<string, Provider>,
          catalog: map<string, Provider>, ids: seq<Id>, i: Id)
    requires (forall x :: x in ids ==> x in cabinets) && Once(ids) && start.Keys <= catalog.Keys
    requires forall x :: x in ids ==> n.flatId(x) != ""
    ensures var (cs, end) := MoveAll(n, cabinets, catalog, ids);
      && catalog.Keys <= end.Keys && (i in ids ==> i in cs && MovedTo(n, start, end, i, cabinets[i], cs[i]))
    decreases |ids|
  {
    hide MoveOne, MovedTo;
    if ids != [] {
      var id := ids[0];
      var (column, more) := MoveOne(n, catalog, id, cabinets[id]);
      MovedRow(n, start, catalog, id, cabinets[id]);
      MovedLoop(n, cabinets[id := column], start, more, ids[1..], i);
      OthersUnmoved(n, cabinets[id := column], more, ids[1..], i);
      if i == id { MovedStays(n, start, more, MoveAll(n, cabinets, catalog, ids).1, id, cabinets[id], column); }
    }
  }

  /** What `up` is for: the choices stay with the cabinets, as exceptions, and the providers move to the platform. */
  lemma {:induction false} UpLeavesExceptions(n: Names, t: Tables, ids: seq<Id>, i: Id)
    requires Lists(t, ids) && i in ids && forall x :: x in ids ==> n.flatId(x) != ""
    ensures var u := Up(n, t, ids);
      && i in u.cabinets && Catalog(t.platform).Keys <= Catalog(u.platform).Keys
      && MovedTo(n, Catalog(t.platform), Catalog(u.platform), i, t.cabinets[i], u.cabinets[i])
  {
    hide MoveAll, MovedTo;
    MovedLoop(n, t.cabinets, Catalog(t.platform), Catalog(t.platform), ids, i);
  }

  /** The exception of a cabinet that declared its active provider. */
  lemma {:induction false} ColumnOfLoop(n: Names, cabinets: map<Id, Column>, catalog: map<string, Provider>,
          ids: seq<Id>, i: Id, a: string)
    requires (forall x :: x in ids ==> x in cabinets) && Once(ids) && i in ids && a != "" && a !in BUILTIN
    requires DeclaresUrl(cabinets[i], a) && cabinets[i].config.active == Some(a)
    ensures i in MoveAll(n, cabinets, catalog, ids).0
    ensures Parse(MoveAll(n, cabinets, catalog, ids).0[i])
      == ExceptionFor(Kept(Some(a), cabinets[i].config.providers[a].model, map[a := NO_PROVIDER]))
    decreases |ids|
  {
    var id := ids[0];
    var (column, more) := MoveOne(n, catalog, id, cabinets[id]);
    OthersUnmoved(n, cabinets[id := column], more, ids[1..], i);
    if id != i { ColumnOfLoop(n, cabinets[id := column], more, ids[1..], i, a); }
  }

  /** The engine of an exception, in a catalogue that has its provider with a URL. */
  lemma {:induction false} ExceptionEngine(platform: Option<Config>, end: map<string, Provider>, a: string,
          model: Option<string>, defaults: string -> string)
    requires a != "" && a !in BUILTIN && a in end && Truthy(end[a].baseUrl)
    ensures EngineOf(Merge(With(platform, end), ExceptionFor(Kept(Some(a), model, map[a := NO_PROVIDER]))), defaults)
         == var used := if Truthy(model) then model else end[a].model;
            if Truthy(used) then Custom(end[a].baseUrl.value, end[a].apiKey, used.value) else FromEnv
  {
    OverrideEngine(With(platform, end), ExceptionFor(Kept(Some(a), model, map[a := NO_PROVIDER])).value, defaults);
  }

  /**
   A cabinet that declared its active provider, which the platform does not have, keeps its engine exactly
   when the first row that declares that id with a URL has its URL and its key; or, when the cabinet gave
   no model, has no model either.
   */
  lemma {:induction false} DeclaredEngineIsKeptIff(n: Names, t: Tables, ids: seq<Id>, i: Id, a: string,
          defaults: string -> string)
    requires Lists(t, ids) && i in ids && t.cabinets[i].Json? && t.cabinets[i].config.active == Some(a) && a != ""
    requires a !in BUILTIN && a !in Catalog(t.platform) && NotFlat(n, ids, a) && DeclaresUrl(t.cabinets[i], a)
    ensures FirstDeclared(t.cabinets, ids, a).Some?
    ensures var u, own := Up(n, t, ids), t.cabinets[i].config.providers[a];
      var first := FirstDeclared(t.cabinets, ids, a).value;
      && i in u.cabinets
      && (EngineOf(Merge(u.platform, Parse(u.cabinets[i])), defaults)
        == EngineOf(Merge(t.platform, Parse(t.cabinets[i])), defaults)
        <==> if Truthy(own.model) then first.baseUrl == own.baseUrl && first.apiKey == own.apiKey
             else !Truthy(first.model))
  {
    hide MoveAll, EngineOf, Merge, ExceptionFor, FirstDeclared;
    var start, c := Catalog(t.platform), t.cabinets[i].config;
    var end := MoveAll(n, t.cabinets, start, ids).1;
    EntryOfLoop(n, t.cabinets, start, ids, a);
    FirstIsDeclared(t.cabinets, ids, i, a);
    ColumnOfLoop(n, t.cabinets, start, ids, i, a);
    assert Up(n, t, ids).platform == With(t.platform, end);
    ExceptionEngine(t.platform, end, a, c.providers[a].model, defaults);
    OverrideEngine(t.platform, c, defaults);
  }

  lemma {:induction false} FirstIsDeclared(cabinets: map<Id, Column>, ids: seq<Id>, i: Id, a: string)
    requires (forall x :: x in ids ==> x in cabinets) && i in ids && DeclaresUrl(cabinets[i], a)
    ensures FirstDeclared(cabinets, ids, a).Some? && Truthy(FirstDeclared(cabinets, ids, a).value.baseUrl)
  {
    if !DeclaresUrl(cabinets[ids[0]], a) { FirstIsDeclared(cabinets, ids[1..], i, a); }
  }

  /** The exception of a cabinet that did not declare its active provider: there is one if a row before it did. */
  lemma {:induction false} UndeclaredColumn(n: Names, cabinets: map<Id, Column>, catalog: map<string, Provider>,
          ids: seq<Id>, p: nat, a: string)
    requires (forall x :: x in ids ==> x in cabinets) && Once(ids) && p < |ids| && a != "" && a !in BUILTIN
    requires NotFlat(n, ids, a)
    requires cabinets[ids[p]].Json? && cabinets[ids[p]].config.active == Some(a) && !DeclaresUrl(cabinets[ids[p]], a)
    ensures ids[p] in MoveAll(n, cabinets, catalog, ids).0
    ensures Parse(MoveAll(n, cabinets, catalog, ids).0[ids[p]])
         == if a in catalog || FirstDeclared(cabinets, ids[..p], a).Some?
            then ExceptionFor(Kept(Some(a), ModelGiven(cabinets[ids[p]].config, a), map[a := NO_PROVIDER])) else None
    decreases |ids|
  {
    var id := ids[0];
    var (column, more) := MoveOne(n, catalog, id, cabinets[id]);
    OthersUnmoved(n, cabinets[id := column], more, ids[1..], ids[p]);
    if p > 0 {
      EntryOfRow(n, catalog, id, cabinets[id], a);
      UndeclaredColumn(n, cabinets[id := column], more, ids[1..], p - 1, a);
      FirstDeclaredElsewhere(cabinets, ids[1..][..p - 1], a, id, column);
      assert ids[..p][0] == id && ids[..p][1..] == ids[1..][..p - 1];
    }
  }

  function ModelGiven(c: Config, a: string): Option<string> {
    if a in c.providers then c.providers[a].model else None
  }

  lemma {:induction false} FirstOfPrefix(cabinets: map<Id, Column>, ids: seq<Id>, p: nat, a: string)
    requires (forall x :: x in ids ==> x in cabinets) && p <= |ids| && FirstDeclared(cabinets, ids[..p], a).Some?
    ensures FirstDeclared(cabinets, ids, a) == FirstDeclared(cabinets, ids[..p], a)
    ensures Truthy(FirstDeclared(cabinets, ids, a).value.baseUrl)
  {
    assert ids[..p][0] == ids[0] && ids[..p][1..] == ids[1..][..p - 1];
    if !DeclaresUrl(cabinets[ids[0]], a) { FirstOfPrefix(cabinets, ids[1..], p - 1, a); }
  }

  /**
   A cabinet whose active provider nobody has, neither the platform nor itself, has no engine of its own. It
   stays so exactly when no row before it declares that id with a URL, or when there is no model to use;
   otherwise it takes the engine of the first of these rows.
   */
  lemma {:induction false} UndeclaredEngineIsKeptIff(n: Names, t: Tables, ids: seq<Id>, p: nat, a: string,
          defaults: string -> string)
    requires Lists(t, ids) && p < |ids| && t.cabinets[ids[p]].Json? && t.cabinets[ids[p]].config.active == Some(a)
    requires a != ""
    requires a !in BUILTIN && a !in Catalog(t.platform) && NotFlat(n, ids, a) && !DeclaresUrl(t.cabinets[ids[p]], a)
    requires !HasCabinetOverride(t.platform)
    ensures var u, i, first := Up(n, t, ids), ids[p], FirstDeclared(t.cabinets, ids[..p], a);
      var model := ModelGiven(t.cabinets[i].config, a);
      && i in u.cabinets && EngineOf(Merge(t.platform, Parse(t.cabinets[i])), defaults) == FromEnv
      && (EngineOf(Merge(u.platform, Parse(u.cabinets[i])), defaults) == FromEnv
          <==> first.None? || (!Truthy(model) && !Truthy(first.value.model)))
  {
    hide MoveAll, EngineOf, Merge, ExceptionFor, FirstDeclared;
    var start, i := Catalog(t.platform), ids[p];
    var c := t.cabinets[i].config;
    var end := MoveAll(n, t.cabinets, start, ids).1;
    UndeclaredColumn(n, t.cabinets, start, ids, p, a);
    OverrideEngine(t.platform, c, defaults);
    assert Up(n, t, ids).platform == With(t.platform, end);
    if FirstDeclared(t.cabinets, ids[..p], a).Some? {
      EntryOfLoop(n, t.cabinets, start, ids, a);
      FirstOfPrefix(t.cabinets, ids, p, a);
      ExceptionEngine(t.platform, end, a, ModelGiven(c, a), defaults);
    } else {
      NoException(t.platform, end, defaults);
    }
  }

  lemma {:induction false} NoException(platform: Option<Config>, end: map<string, Provider>, defaults: string -> string)
    requires !HasCabinetOverride(platform)
    ensures EngineOf(Merge(With(platform, end), None), defaults) == FromEnv
  {
  }

  function Declares(url: string): Config {
    NO_CONFIG.(active := Some("x"), providers := map["x" := Provider(Some(url), Some("m"), None)])
  }

  /** Two cabinets that declare `x` with different URLs: the second is moved to the engine of the first. */
  lemma {:induction false} ReusedIdMovesACabinet(n: Names, defaults: string -> string)
    ensures var t := Tables(map[1 := Json(Declares("u1")), 2 := Json(Declares("u2"))], None, None);
      var u := Up(n, t, [1, 2]);
      && 2 in u.cabinets && EngineOf(Merge(u.platform, Parse(u.cabinets[2])), defaults) == Custom("u1", None, "m")
      && EngineOf(Merge(t.platform, Parse(t.cabinets[2])), defaults) == Custom("u2", None, "m")
  {
    var one, two := Declares("u1"), Declares("u2");
    var cabinets := map[1 := Json(one), 2 := Json(two)];
    var first := map["x" := one.providers["x"]];
    assert AddCustom(map[], one.providers) == first && AddCustom(first, two.providers) == first;
    var e := NO_CONFIG.(active := Some("x"), providers := map["x" := NO_PROVIDER.(model := Some("m"))]);
    assert MoveOne(n, map[], 1, Json(one)) == (Json(e), first) && MoveOne(n, first, 2, Json(two)) == (Json(e), first);
    assert [1, 2][1..] == [2] && [2][1..] == [];
    assert MoveAll(n, cabinets, map[], [1, 2]) == (cabinets[1 := Json(e)][2 := Json(e)], first);
    OverrideEngine(With(None, first), e, defaults);
    OverrideEngine(None, two, defaults);
  }

  // ----- the migration -----

  class AiConfigMigration {
    const names: Names
    var cabinets: map<Id, Column>
    var platform: Option<Config>
    var backup: Option<map<Id, Option<Config>>>

    constructor (names: Names, t: Tables)
      ensures this.names == names && State() == t
    {
      this.names := names;
      cabinets, platform, backup := t.cabinets, t.platform, t.backup;
    }

    ghost function State(): Tables
      reads this
    {
      Tables(cabinets, platform, backup)
    }

    /** Adds the custom providers of a cabinet that the catalogue does not have, in any order. */
    method Collect(catalog: map<string, Provider>, providers: map<string, Provider>) returns (r: map<string, Provider>)
      ensures r == AddCustom(catalog, providers)
    {
      r := catalog;
      var left := providers.Keys;
      while left != {}
        invariant left <= providers.Keys
        invariant r.Keys == catalog.Keys + set p | p in providers && p !in left && p !in BUILTIN
          && Truthy(providers[p].baseUrl)
        invariant forall p ::
            p in r ==> r[p] == if p in catalog then catalog[p] else if p in providers then providers[p] else r[p]
      {
        var id :| id in left;
        left := left - {id};
        if id !in BUILTIN && Truthy(providers[id].baseUrl) && id !in r { r := r[id := providers[id]]; }
      }
    }

    /** One row: its new column, and the catalogue with what it needs. */
    method MoveRow(catalog: map<string, Provider>, id: Id,
            column: Column) returns (r: Column, more: map<string, Provider>)
      ensures (r, more) == MoveOne(names, catalog, id, column)
    {
      if !column.Json? { return Empty, catalog; }
      var c := column.config;
      more := Collect(catalog, c.providers);
      var active := c.active;
      var model := if Truthy(active) && active.value in c.providers then c.providers[active.value].model else None;
      if !Truthy(active) && Truthy(c.flat.baseUrl) && Truthy(c.flat.model) {
        active := Some(names.flatId(id));
        model := c.flat.model;
        more := more[active.value := c.flat];
      }
      var known := Truthy(active) && (active.value in BUILTIN || active.value in more);
      if !known { return Empty, more; }
      var entry := if Truthy(model) then NO_PROVIDER.(model := model) else NO_PROVIDER;
      r := Json(NO_CONFIG.(active := active, providers := map[active.value := entry]));
    }

    method MigrateUp(ids: seq<Id>)
      requires Lists(State(), ids)
      modifies this
      ensures State() == Up(names, old(State()), ids)
    {
      hide MoveOne, Backup;
      var stored := if platform.Some? then platform.value else NO_CONFIG;
      var catalog := stored.providers;
      var saved := map[];
      BackupNone(cabinets, ids[..0]);
      var i := 0;
      while i < |ids|
        invariant 0 <= i <= |ids| && platform == old(platform) && backup == old(backup)
        invariant forall k :: k in ids ==> k in cabinets
        invariant forall k :: i <= k < |ids| ==> cabinets[ids[k]] == old(cabinets)[ids[k]]
        invariant MoveAll(names, cabinets, catalog, ids[i..]) == MoveAll(names, old(cabinets), stored.providers, ids)
        invariant saved == Backup(old(cabinets), ids[..i])
      {
        var id := ids[i];
        assert ids[i..][0] == id && ids[i..][1..] == ids[i + 1..] && ids[..i + 1] == ids[..i] + [id];
        BackupSnoc(old(cabinets), ids[..i], id);
        saved := saved[id := Parse(cabinets[id])];
        var column, more := MoveRow(catalog, id, cabinets[id]);
        cabinets, catalog := cabinets[id := column], more;
        i := i + 1;
      }
      assert ids[..|ids|] == ids;
      platform := Some(stored.(providers := catalog));
      if backup.None? { backup := Some(saved); }
    }

    method MigrateDown()
      modifies this
      ensures State() == Down(old(State()))
    {
      var saved := if backup.Some? then backup.value else map[];
      var left := saved.Keys;
      while left != {}
        invariant left <= saved.Keys && platform == old(platform) && backup == old(backup)
        invariant cabinets == map i | i in old(cabinets) ::
            if i in saved && i !in left then ToColumn(saved[i]) else old(cabinets)[i]
      {
        var id :| id in left;
        left := left - {id};
        if id in cabinets { cabinets := cabinets[id := ToColumn(saved[id])]; }
      }
      platform, backup := None, None;
    }
  }
}
