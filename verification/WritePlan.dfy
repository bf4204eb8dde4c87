/**
 Execution of a write plan (generic-write.service.ts): what one run does, as functions of the
 state. A handler writes through its own connection and commits at once; a generic write goes
 through the plan's transaction when there is one. Handlers, repositories, target lookups,
 actions and the commit are parameters (`World`): any behaviour is allowed, and the database refuses a row whose
 key is taken or whose foreign keys point nowhere.
 */
module WritePlan {
  import opened Wrappers

  type Id = n: nat | n > 0 witness 1

  datatype Key = Key(entity: string, id: Id)

  datatype Atom = Num(n: int) | Str(s: string)

  /** `refs` are the rows the foreign keys of the row point to. */
  datatype Row = Row(data: map<string, Atom>, refs: set<Key>, trashed: bool)

  type Db = map<Key, Row>

  datatype Part = Chars(s: string) | Hole(temp: string, field: string)

  /** `Template` holds `{{temp.field}}` references, `Legacy` is `$temp.field`, `Create` a confirmed creation. */
  datatype Field =
    | Null
    | Value(a: Atom)
    | Template(parts: seq<Part>)
    | Legacy(temp: string, field: string)
    | Create(title: string)

  type Fields = map<string, Field>

  datatype Kind = Insert | Update | Delete | Action

  datatype Operation = Operation(
    kind: Kind,
    entity: string,
    fields: Fields,
    tempId: Option<string>,
    entityId: Option<Id>,
    criteria: Option<Fields>,
    all: bool,
    action: string)

  /** A many-to-one relation: its column, the other names it goes by, the table it points to. */
  datatype Relation = Relation(fk: string, names: seq<string>, table: string)

  datatype InsertEffect = InsertThrows | Inserts(id: Id, row: Row, deferred: bool) | Finds(id: Id)

  datatype UpdateEffect = UpdateThrows | Updates(row: Row)

  datatype Handler = Handler(
    insert: (Fields, Db) -> InsertEffect,
    update: (Id, Fields, Db) -> UpdateEffect,
    undo: Option<(Key, Db) -> bool>)

  datatype World = World(
    handlers: map<string, Handler>,
    genericInsert: (string, Fields, Db) -> InsertEffect,
    genericUpdate: (string, Id, Fields, Db) -> UpdateEffect,
    relations: map<string, seq<Relation>>,
    tables: set<string>,
    softDelete: set<string>,
    show: Atom -> string,
    autoName: (string, Id) -> string,
    labelKey: string -> string,
    prepareChoice: (string, string, Fields) -> Option<(Fields, Fields)>,
    mayCreate: string -> bool,
    creationFields: (string, string, Fields) -> Fields,
    oneTarget: (string, Fields, set<Key>, Db) -> Option<Id>,
    allTargets: (string, Fields, Db) -> Option<seq<Id>>,
    actionTable: (string, string) -> Option<string>,
    prepare: (string, Id, Fields) -> bool,
    runs: Result -> bool,
    commits: (Db, Db) -> bool)

  datatype Result = Result(
    kind: Kind,
    entity: string,
    id: Id,
    affected: nat,
    row: Option<Row>,
    deferred: bool,
    success: bool)

  datatype ChoiceKey = ChoiceKey(table: string, title: string, extra: Fields)

  /** An entity the following operations can refer to. */
  datatype Produced = Produced(temp: Option<string>, entity: string, id: Id, row: Row, byOperation: bool)

  datatype Event =
    | Inserted(key: Key, byHandler: bool)
    | Updated(key: Key, byHandler: bool, row: Row, recorded: seq<Key>)
    | Chosen(choice: ChoiceKey, id: Id)
    | Committed
    | RolledBack
    | Undone(key: Key)
    | Trashed(key: Key)
    | Ran(index: nat)

  datatype State = State(
    db: Db,
    tx: Db,
    results: seq<Result>,
    created: map<string, Row>,
    targeted: set<Key>,
    latest: map<string, Produced>,
    recorded: seq<Key>,
    choices: map<ChoiceKey, Id>,
    produced: seq<Produced>,
    failed: seq<Key>,
    log: seq<Event>)

  /** Either a value, or an exception: in both cases with the state left behind. */
  datatype Step<T> = Done(s: State, value: T) | Thrown(s: State)

  function Init(db: Db): State {
    State(db, map[], [], map[], {}, map[], [], map[], [], [], [])
  }

  // ----- references to earlier operations -----

  function FillPart(w: World, p: Part, created: map<string, Row>): Part {
    if p.Hole? && p.temp in created && p.field in created[p.temp].data
    then Chars(w.show(created[p.temp].data[p.field])) else p
  }

  function FillParts(w: World, parts: seq<Part>, created: map<string, Row>): (r: seq<Part>)
    ensures |r| == |parts| && forall i :: 0 <= i < |r| ==> r[i] == FillPart(w, parts[i], created)
  {
    if parts == [] then [] else [FillPart(w, parts[0], created)] + FillParts(w, parts[1..], created)
  }

  function ResolveField(w: World, v: Field, created: map<string, Row>): Field {
    match v
    case Template(parts) => Template(FillParts(w, parts, created))
    case Legacy(t, f) =>
      if t !in created then v else if f in created[t].data then Value(created[t].data[f]) else Null
    case _ => v
  }

  function Resolve(w: World, fields: Fields, created: map<string, Row>): Fields {
    map k | k in fields :: ResolveField(w, fields[k], created)
  }

  // ----- foreign keys taken from the plan -----

  predicate HasValue(fields: Fields, name: string) {
    name in fields && fields[name] != Null && fields[name] != Template([]) && fields[name] != Value(Str(""))
  }

  predicate Supplied(fields: Fields, r: Relation) {
    HasValue(fields, r.fk) || exists n :: n in r.names && HasValue(fields, n)
  }

  function Inject(fields: Fields, relations: seq<Relation>, latest: map<string, Produced>): Fields
    decreases |relations|
  {
    if relations == [] then fields
    else
      var r := relations[0];
      var next := if !Supplied(fields, r) && r.table in latest
                  then fields[r.fk := Value(Num(latest[r.table].id))] else fields;
      Inject(next, relations[1..], latest)
  }

  function Relations(w: World, entity: string): seq<Relation> {
    if entity in w.relations then w.relations[entity] else []
  }

  function AutoInject(w: World, op: Operation, fields: Fields, latest: map<string, Produced>): Fields {
    if !op.kind.Insert? || latest == map[] then fields else Inject(fields, Relations(w, op.entity), latest)
  }

  // ----- writes -----

  /** What a connection sees: handlers do not see the open transaction. */
  function View(s: State, byHandler: bool): Db {
    if byHandler then s.db else s.db + s.tx
  }

  function Put(tx: bool, s: State, byHandler: bool, key: Key, row: Row): State {
    if byHandler || !tx then s.(db := s.db[key := row]) else s.(tx := s.tx[key := row])
  }

  function DoInsert(w: World, tx: bool, s: State, entity: string, fields: Fields): Step<Result> {
    var h := entity in w.handlers;
    var seen := View(s, h);
    match if h then w.handlers[entity].insert(fields, seen) else w.genericInsert(entity, fields, seen)
    case InsertThrows => Thrown(s)
    case Finds(id) =>
      var key := Key(entity, id);
      if key in seen then Done(s, Result(Insert, entity, id, 0, Some(seen[key]), false, true)) else Thrown(s)
    case Inserts(id, row, deferred) =>
      var key := Key(entity, id);
      if key in s.db || key in s.tx || !(row.refs <= seen.Keys) then Thrown(s)
      else
        var s' := Put(tx, s, h, key, row);
        Done(s'.(log := s'.log + [Inserted(key, h)]), Result(Insert, entity, id, 1, Some(row), deferred, true))
  }

  function DoUpdate(w: World, tx: bool, s: State, entity: string, id: Id, fields: Fields): Step<Result> {
    var h := entity in w.handlers;
    var seen, key := View(s, h), Key(entity, id);
    if key !in seen then Thrown(s)
    else
      match if h then w.handlers[entity].update(id, fields, seen) else w.genericUpdate(entity, id, fields, seen)
      case UpdateThrows => Thrown(s)
      case Updates(row) =>
        if !(row.refs <= seen.Keys) then Thrown(s)
        else
          var s' := Put(tx, s, h, key, row);
          Done(s'.(log := s'.log + [Updated(key, h, row, s.recorded)]),
               Result(Update, entity, id, 1, Some(row), false, true))
  }

  const PROTECTED := {"id", "created_at", "deleted_at", "deleted_by", "password", "token", "secret", "refreshToken"}

  /** A registered handler first, the generic path otherwise. */
  function Execute(w: World, tx: bool, s: State, kind: Kind, entity: string, id: Option<Id>,
          fields: Fields): Step<Result> {
    var safe := if entity in w.handlers then fields else map k | k in fields && k !in PROTECTED :: fields[k];
    if entity !in w.handlers && safe == map[] then Thrown(s)
    else match kind
      case Insert => DoInsert(w, tx, s, entity, safe)
      case Update => if id.None? then Thrown(s) else DoUpdate(w, tx, s, entity, id.value, safe)
      case _ => Thrown(s)
  }

  // ----- confirmed creations -----

  datatype Choice = Choice(relation: Relation, title: string)

  function ChosenName(fields: Fields, names: seq<string>): Option<string> {
    if names == [] then None
    else if names[0] in fields && fields[names[0]].Create? then Some(names[0])
    else ChosenName(fields, names[1..])
  }

  function Choices(fields: Fields, relations: seq<Relation>): seq<Choice> {
    if relations == [] then []
    else
      var r := relations[0];
      var name := ChosenName(fields, [r.fk] + r.names);
      (if name.Some? && name.value in fields
        && fields[name.value].Create? then [Choice(r, fields[name.value].title)] else [])
      + Choices(fields, relations[1..])
  }

  function Link(fields: Fields, r: Relation, id: Id): Fields {
    (fields - (set n | n in r.names))[r.fk := Value(Num(id))]
  }

  /** The links made, and the rows created for them. */
  datatype Materialized = Materialized(fields: Fields, made: seq<Produced>)

  /** The row for a choice made for the first time in this plan. */
  function MakeChoice(w: World, tx: bool, s: State, r: Relation, choice: ChoiceKey, title: string,
          m: Materialized): Step<Materialized> {
    match DoInsert(w, tx, s, r.table, w.creationFields(r.table, title, choice.extra))
    case Thrown(s1) => Thrown(s1)
    case Done(s1, result) =>
      var s2 := s1.(choices := s1.choices[choice := result.id],
                    recorded := if result.affected != 0 then s1.recorded + [Key(r.table, result.id)] else s1.recorded,
                    log := s1.log + [Chosen(choice, result.id)]);
      var made := if result.row.Some?
                  then m.made
                    + [Produced(Some(w.autoName(r.table, result.id)), r.table, result.id, result.row.value, false)]
                  else m.made;
      Done(s2, Materialized(Link(m.fields, r, result.id), made))
  }

  function MaterializeOne(w: World, tx: bool, s: State, entity: string, c: Choice,
          m: Materialized): Step<Materialized> {
    match w.prepareChoice(entity, c.relation.fk, m.fields)
    case None => Thrown(s)
    case Some((fields, extra)) =>
      var choice := ChoiceKey(c.relation.table, w.labelKey(c.title), extra);
      if choice in s.choices then Done(s, m.(fields := Link(fields, c.relation, s.choices[choice])))
      else if !w.mayCreate(c.relation.table) then Thrown(s)
      else MakeChoice(w, tx, s, c.relation, choice, c.title, m.(fields := fields))
  }

  function Materialize(w: World, tx: bool, s: State, entity: string, choices: seq<Choice>,
          m: Materialized): Step<Materialized>
    decreases |choices|
  {
    if choices == [] then Done(s, m)
    else match MaterializeOne(w, tx, s, entity, choices[0], m)
      case Thrown(s1) => Thrown(s1)
      case Done(s1, m1) => Materialize(w, tx, s1, entity, choices[1..], m1)
  }

  // ----- operations -----

  const MAX_BULK_UPDATE := 200

  function BulkUpdate(w: World, tx: bool, s: State, entity: string, fields: Fields, ids: seq<Id>): Step<()>
    decreases |ids|
  {
    if ids == [] then Done(s, ())
    else
      var key := Key(entity, ids[0]);
      if key in s.targeted then BulkUpdate(w, tx, s, entity, fields, ids[1..])
      else match Execute(w, tx, s.(targeted := s.targeted + {key}), Update, entity, Some(ids[0]), fields)
        case Thrown(s1) => Thrown(s1)
        case Done(s1, result) =>
          BulkUpdate(w, tx, s1.(results := s1.results + [result]), entity, fields, ids[1..])
  }

  /** What later operations can use of an operation's result. */
  function Produce(s: State, p: Produced): State {
    s.(created := if p.temp.Some? then s.created[p.temp.value := p.row] else s.created, produced := s.produced + [p])
  }

  function ProduceAll(s: State, ps: seq<Produced>): State
    decreases |ps|
  {
    if ps == [] then s else ProduceAll(Produce(s, ps[0]), ps[1..])
  }

  /** The result of an operation, its row to clean up, and what later operations can use of it. */
  function Note(w: World, s: State, op: Operation, result: Result): State {
    var s1 := s.(results := s.results + [result]);
    var s2 := if result.kind.Insert? && result.affected != 0 && result.row.Some? && op.entity in w.handlers
              then s1.(recorded := s1.recorded + [Key(op.entity, result.id)]) else s1;
    if result.row.Some?
    then
      var p := Produced(op.tempId, op.entity, result.id, result.row.value, true);
      Produce(s2.(latest := s2.latest[op.entity := p]), p)
    else s2
  }

  function Remember(w: World, s: State, op: Operation, result: Result, made: seq<Produced>): State {
    ProduceAll(Note(w, s, op, result), made)
  }

  /** An action is checked at its place in the plan; it only runs once the whole plan is in. */
  function PrepareAction(w: World, s: State, op: Operation, fields: Fields): Step<()> {
    match w.actionTable(op.action, op.entity)
    case None => Thrown(s)
    case Some(table) =>
      var found := if op.entityId.Some? then op.entityId
                   else if op.criteria.Some? then w.oneTarget(table, op.criteria.value, {}, s.db) else None;
      if op.entityId.None? && op.criteria.Some? && found.None? then Thrown(s)
      else
        var target := if found.Some? then found else if table in s.latest then Some(s.latest[table].id) else None;
        if target.None? || !w.prepare(op.action, target.value, fields) then Thrown(s)
        else Done(s.(results := s.results + [Result(Action, table, target.value, 0, None, true, true)]), ())
  }

  function RunOne(w: World, tx: bool, s: State, op: Operation, id: Option<Id>, m: Materialized): Step<()> {
    var s1 := if op.kind.Update? && id.Some? then s.(targeted := s.targeted + {Key(op.entity, id.value)}) else s;
    match Execute(w, tx, s1, op.kind, op.entity, id, m.fields)
    case Thrown(s2) => Thrown(s2)
    case Done(s2, result) => Done(Remember(w, s2, op, result, m.made), ())
  }

  /** A write whose fields are complete: on all matching records, on the one that matches, or on the given one. */
  function RunWrite(w: World, tx: bool, s: State, op: Operation, m: Materialized): Step<()> {
    var search := op.kind.Update? && op.entityId.None? && op.criteria.Some?;
    if search && op.all then
      match w.allTargets(op.entity, op.criteria.value, s.db)
      case None => Thrown(s)
      case Some(ids) =>
        if |ids| > MAX_BULK_UPDATE then Thrown(s) else BulkUpdate(w, tx, s, op.entity, m.fields, ids)
    else
      var id := if search then w.oneTarget(op.entity, op.criteria.value, s.targeted, s.db) else op.entityId;
      if search && id.None? then Thrown(s) else RunOne(w, tx, s, op, id, m)
  }

  function RunOperation(w: World, tx: bool, s: State, op: Operation): Step<()> {
    var fields := AutoInject(w, op, Resolve(w, op.fields, s.created), s.latest);
    if op.kind.Action? then PrepareAction(w, s, op, fields)
    else match Materialize(w, tx, s, op.entity, Choices(fields, Relations(w, op.entity)), Materialized(fields, []))
      case Thrown(s1) => Thrown(s1)
      case Done(s1, m) => RunWrite(w, tx, s1, op, m)
  }

  function RunOperations(w: World, tx: bool, s: State, ops: seq<Operation>): Step<()>
    decreases |ops|
  {
    if ops == [] then Done(s, ())
    else match RunOperation(w, tx, s, ops[0])
      case Thrown(s1) => Thrown(s1)
      case Done(s1, _) => RunOperations(w, tx, s1, ops[1..])
  }

  // ----- the end of a plan -----

  function Commit(s: State): State {
    s.(db := s.db + s.tx, tx := map[], log := s.log + [Committed])
  }

  function Rollback(s: State): State {
    s.(tx := map[], log := s.log + [RolledBack])
  }

  /** A row that another one points to cannot be deleted. */
  predicate Blocked(s: State, key: Key) {
    exists k :: k in s.db + s.tx && k != key && key in (s.db + s.tx)[k].refs
  }

  datatype Undo = Deletes | Trashes | Fails

  function UndoOutcome(w: World, s: State, key: Key): Undo {
    if key.entity in w.handlers && w.handlers[key.entity].undo.Some? then
      if w.handlers[key.entity].undo.value(key, s.db) then Deletes else Fails
    else if key.entity !in w.tables then Fails
    else if !Blocked(s, key) then Deletes
    else if key.entity in w.softDelete then Trashes
    else Fails
  }

  function UndoAs(s: State, key: Key, outcome: Undo): State {
    match outcome
    case Deletes => s.(db := s.db - {key}, log := s.log + [Undone(key)])
    case Trashes =>
      s.(db := if key in s.db then s.db[key := s.db[key].(trashed := true)] else s.db, log := s.log + [Trashed(key)])
    case Fails => s.(failed := s.failed + [key])
  }

  function UndoOne(w: World, s: State, key: Key): State {
    UndoAs(s, key, UndoOutcome(w, s, key))
  }

  /** The `n` first recorded rows, the last one first. */
  function Cleanup(w: World, s: State, keys: seq<Key>, n: nat): State
    requires n <= |keys|
    decreases n
  {
    if n == 0 then s else Cleanup(w, UndoOne(w, s, keys[n - 1]), keys, n - 1)
  }

  /** The deferred actions of the results from `i` on; a failure is only noted on its own result. */
  function RunDeferred(w: World, s: State, i: nat): State
    requires i <= |s.results|
    decreases |s.results| - i
  {
    if i == |s.results| then s
    else if !s.results[i].deferred then RunDeferred(w, s, i + 1)
    else
      var r := s.results[i].(deferred := false);
      var after := r.(success := r.success && (!r.kind.Action? || w.runs(r)));
      RunDeferred(w, s.(results := s.results[i := after], log := s.log + [Ran(i)]), i + 1)
  }

  datatype Plan = Plan(transaction: bool, operations: seq<Operation>)

  function Abort(w: World, tx: bool, s: State): State {
    var s1 := if tx then Rollback(s) else s;
    Cleanup(w, s1, s1.recorded, |s1.recorded|)
  }

  function Finish(w: World, tx: bool, s: State): State {
    RunDeferred(w, if tx then Commit(s) else s, 0)
  }

  /** A commit that throws leaves the tables as they were, and the plan fails. */
  function ExecutePlan(w: World, db: Db, plan: Plan): Step<()> {
    match RunOperations(w, plan.transaction, Init(db), plan.operations)
    case Done(s, _) =>
      if plan.transaction && !w.commits(s.db, s.tx) then Thrown(Abort(w, plan.transaction, s))
      else Done(Finish(w, plan.transaction, s), ())
    case Thrown(s) => Thrown(Abort(w, plan.transaction, s))
  }
}
