/** How data moves between the operations of a write plan. */
module WritePlanFlow {
  import opened Wrappers
  import opened WritePlan

  // ----- what a run remembers is what its operations produced -----

  /** The last entity produced under a temporary name. */
  function LastNamed(ps: seq<Produced>, name: string): Option<Produced> {
    if ps == [] then None
    else if ps[|ps| - 1].temp == Some(name) then Some(ps[|ps| - 1])
    else LastNamed(ps[..|ps| - 1], name)
  }

  /** The row of the last operation on a table. */
  function LastOf(ps: seq<Produced>, table: string): Option<Produced> {
    if ps == [] then None
    else if ps[|ps| - 1].byOperation && ps[|ps| - 1].entity == table then Some(ps[|ps| - 1])
    else LastOf(ps[..|ps| - 1], table)
  }

  function Known(created: map<string, Row>, name: string): Option<Row> {
    if name in created then Some(created[name]) else None
  }

  function Latest(latest: map<string, Produced>, table: string): Option<Produced> {
    if table in latest then Some(latest[table]) else None
  }

  function RowOf(p: Option<Produced>): Option<Row> {
    if p.Some? then Some(p.value.row) else None
  }

  ghost predicate NamesProduced(s: State) {
    && (forall n :: Known(s.created, n) == RowOf(LastNamed(s.produced, n)))
    && (forall t :: Latest(s.latest, t) == LastOf(s.produced, t))
  }

  /** Each confirmed creation was made once, and the run remembers which row it gave. */
  ghost predicate ChoicesMadeOnce(s: State) {
    && (forall i, j ::
        0 <= i < j < |s.log| && s.log[i].Chosen? && s.log[j].Chosen? ==> s.log[i].choice != s.log[j].choice)
    && (forall e :: e in s.log && e.Chosen? ==> e.choice in s.choices && s.choices[e.choice] == e.id)
  }

  ghost predicate UpdatesTargeted(s: State) {
    forall e :: e in s.log && e.Updated? ==> e.key in s.targeted
  }

  ghost predicate Flow(s: State) {
    NamesProduced(s) && ChoicesMadeOnce(s) && UpdatesTargeted(s)
  }

  /** What a later state keeps of an earlier one. */
  ghost predicate Continues(s: State, t: State) {
    && s.log <= t.log && s.produced <= t.produced && s.targeted <= t.targeted
    && (forall c :: c in s.choices ==> c in t.choices && t.choices[c] == s.choices[c])
  }

  lemma {:induction false} LogGrows(s: State, t: State, e: Event)
    requires Flow(s) && t.log == s.log + [e] && !e.Chosen? && (e.Updated? ==> e.key in t.targeted)
    requires t.produced == s.produced && t.created == s.created && t.latest == s.latest && t.choices == s.choices
    requires s.targeted <= t.targeted
    ensures Flow(t) && Continues(s, t)
  {
  }

  lemma {:induction false} Unchanged(s: State, t: State)
    requires Flow(s) && t.log == s.log && t.produced == s.produced && t.created == s.created
    requires t.latest == s.latest && t.choices == s.choices && s.targeted <= t.targeted
    ensures Flow(t) && Continues(s, t)
  {
  }

  lemma {:induction false} InsertLogs(w: World, tx: bool, s: State, entity: string, fields: Fields)
    ensures var r := DoInsert(w, tx, s, entity, fields);
      r.s == s || (r.Done? && r.s == s.(db := r.s.db, tx := r.s.tx,
                                        log := s.log + [Inserted(Key(entity, r.value.id), entity in w.handlers)]))
  {
  }

  lemma {:induction false} InsertFlow(w: World, tx: bool, s: State, entity: string, fields: Fields)
    requires Flow(s)
    ensures Flow(DoInsert(w, tx, s, entity, fields).s) && Continues(s, DoInsert(w, tx, s, entity, fields).s)
    ensures DoInsert(w, tx, s, entity, fields).s.choices == s.choices
  {
    hide Flow, Continues, DoInsert;
    var r := DoInsert(w, tx, s, entity, fields);
    InsertLogs(w, tx, s, entity, fields);
    if r.s == s {
      Unchanged(s, r.s);
    } else {
      LogGrows(s, r.s, Inserted(Key(entity, r.value.id), entity in w.handlers));
    }
  }

  lemma {:induction false} UpdateFlow(w: World, tx: bool, s: State, entity: string, id: Id, fields: Fields)
    requires Flow(s) && Key(entity, id) in s.targeted
    ensures Flow(DoUpdate(w, tx, s, entity, id, fields).s) && Continues(s, DoUpdate(w, tx, s, entity, id, fields).s)
  {
    hide Flow, Continues;
    var r := DoUpdate(w, tx, s, entity, id, fields);
    if r.Done? { LogGrows(s, r.s, Updated(Key(entity, id), entity in w.handlers, r.value.row.value, s.recorded)); }
    else { Unchanged(s, r.s); }
  }

  lemma {:induction false} ExecuteFlow(w: World, tx: bool, s: State, kind: Kind, entity: string, id: Option<Id>,
          fields: Fields)
    requires Flow(s) && (kind.Update? && id.Some? ==> Key(entity, id.value) in s.targeted)
    ensures Flow(Execute(w, tx, s, kind, entity, id, fields).s)
    ensures Continues(s, Execute(w, tx, s, kind, entity, id, fields).s)
  {
    hide Flow, Continues, DoInsert, DoUpdate;
    var safe := if entity in w.handlers then fields else map k | k in fields && k !in PROTECTED :: fields[k];
    InsertFlow(w, tx, s, entity, safe);
    if kind.Update? && id.Some? { UpdateFlow(w, tx, s, entity, id.value, safe); }
    Unchanged(s, s);
  }

  lemma {:induction false} ChosenFlow(s: State, t: State, choice: ChoiceKey, id: Id)
    requires Flow(s) && choice !in s.choices
    requires t.log == s.log + [Chosen(choice, id)] && t.choices == s.choices[choice := id]
    requires t.produced == s.produced && t.created == s.created && t.latest == s.latest && t.targeted == s.targeted
    ensures Flow(t) && Continues(s, t)
  {
    forall i, j | 0 <= i < j < |t.log| && t.log[i].Chosen? && t.log[j].Chosen?
      ensures t.log[i].choice != t.log[j].choice
    {
      if j == |s.log| { assert t.log[i] in s.log; }
    }
  }

  ghost predicate OnlyChoices(ps: seq<Produced>) {
    forall p :: p in ps ==> !p.byOperation
  }

  lemma {:induction false} MakeChoiceFlow(w: World, tx: bool, s: State, r: Relation, choice: ChoiceKey, title: string,
          m: Materialized)
    requires Flow(s) && OnlyChoices(m.made) && choice !in s.choices
    ensures var t := MakeChoice(w, tx, s, r, choice, title, m);
      Flow(t.s) && Continues(s, t.s) && (t.Done? ==> OnlyChoices(t.value.made))
  {
    var fields := w.creationFields(r.table, title, choice.extra);
    InsertFlow(w, tx, s, r.table, fields);
    var done := DoInsert(w, tx, s, r.table, fields);
    if done.Done? { ChosenFlow(done.s, MakeChoice(w, tx, s, r, choice, title, m).s, choice, done.value.id); }
  }

  lemma {:induction false} MaterializeOneFlow(w: World, tx: bool, s: State, entity: string, c: Choice, m: Materialized)
    requires Flow(s) && OnlyChoices(m.made)
    ensures var t := MaterializeOne(w, tx, s, entity, c, m);
      Flow(t.s) && Continues(s, t.s) && (t.Done? ==> OnlyChoices(t.value.made))
  {
    Unchanged(s, s);
    var prepared := w.prepareChoice(entity, c.relation.fk, m.fields);
    if prepared.Some? {
      var (fields, extra) := prepared.value;
      var choice := ChoiceKey(c.relation.table, w.labelKey(c.title), extra);
      if choice !in s.choices { MakeChoiceFlow(w, tx, s, c.relation, choice, c.title, m.(fields := fields)); }
    }
  }

  lemma {:induction false} MaterializeFlow(w: World, tx: bool, s: State, entity: string, choices: seq<Choice>,
          m: Materialized)
    requires Flow(s) && OnlyChoices(m.made)
    ensures var t := Materialize(w, tx, s, entity, choices, m);
      Flow(t.s) && Continues(s, t.s) && (t.Done? ==> OnlyChoices(t.value.made))
    decreases |choices|
  {
    hide MaterializeOne;
    if choices == [] {
      Unchanged(s, s);
    } else {
      MaterializeOneFlow(w, tx, s, entity, choices[0], m);
      var r := MaterializeOne(w, tx, s, entity, choices[0], m);
      if r.Done? { MaterializeFlow(w, tx, r.s, entity, choices[1..], r.value); }
    }
  }

  lemma {:induction false} BulkFlow(w: World, tx: bool, s: State, entity: string, fields: Fields, ids: seq<Id>)
    requires Flow(s)
    ensures var t := BulkUpdate(w, tx, s, entity, fields, ids).s; Flow(t) && Continues(s, t)
    decreases |ids|
  {
    hide Execute, Flow, Continues;
    if ids == [] {
      Unchanged(s, s);
    } else {
      var key := Key(entity, ids[0]);
      if key in s.targeted {
        BulkFlow(w, tx, s, entity, fields, ids[1..]);
      } else {
        var s0 := s.(targeted := s.targeted + {key});
        Unchanged(s, s0);
        ExecuteFlow(w, tx, s0, Update, entity, Some(ids[0]), fields);
        var r := Execute(w, tx, s0, Update, entity, Some(ids[0]), fields);
        ContinuesOn(s, s0, r.s);
        if r.Done? {
          var s1 := r.s.(results := r.s.results + [r.value]);
          Unchanged(r.s, s1);
          ContinuesOn(s, r.s, s1);
          BulkFlow(w, tx, s1, entity, fields, ids[1..]);
          ContinuesOn(s, s1, BulkUpdate(w, tx, s1, entity, fields, ids[1..]).s);
        }
      }
    }
  }

  lemma {:induction false} ProduceFlow(s: State, s1: State, p: Produced)
    requires Flow(s)
    requires s1 == s.(latest := s1.latest) && s1.latest == if p.byOperation then s.latest[p.entity := p] else s.latest
    ensures Flow(Produce(s1, p)) && Continues(s, Produce(s1, p))
  {
    var t := Produce(s1, p);
    assert t.produced[..|t.produced| - 1] == s.produced;
  }

  lemma {:induction false} ProduceAllFlow(s: State, ps: seq<Produced>)
    requires Flow(s) && OnlyChoices(ps)
    ensures Flow(ProduceAll(s, ps)) && Continues(s, ProduceAll(s, ps))
    decreases |ps|
  {
    if ps != [] {
      ProduceFlow(s, s, ps[0]);
      ProduceAllFlow(Produce(s, ps[0]), ps[1..]);
    }
  }

  lemma {:induction false} ContinuesOn(s: State, t: State, u: State)
    requires Continues(s, t) && Continues(t, u)
    ensures Continues(s, u)
  {
  }

  lemma {:induction false} NoteFlow(w: World, s: State, op: Operation, result: Result)
    requires Flow(s)
    ensures Flow(Note(w, s, op, result)) && Continues(s, Note(w, s, op, result))
  {
    hide Flow, Continues, Produce;
    var s1 := s.(results := s.results + [result]);
    var s2 := if result.kind.Insert? && result.affected != 0 && result.row.Some? && op.entity in w.handlers
              then s1.(recorded := s1.recorded + [Key(op.entity, result.id)]) else s1;
    Unchanged(s, s2);
    if result.row.Some? {
      var p := Produced(op.tempId, op.entity, result.id, result.row.value, true);
      var s3 := s2.(latest := s2.latest[op.entity := p]);
      ProduceFlow(s2, s3, p);
      ContinuesOn(s, s2, Produce(s3, p));
    }
  }

  lemma {:induction false} RememberFlow(w: World, s: State, op: Operation, result: Result, made: seq<Produced>)
    requires Flow(s) && OnlyChoices(made)
    ensures Flow(Remember(w, s, op, result, made)) && Continues(s, Remember(w, s, op, result, made))
  {
    hide Flow, Continues, Note, ProduceAll, OnlyChoices;
    var noted := Note(w, s, op, result);
    NoteFlow(w, s, op, result);
    ProduceAllFlow(noted, made);
    ContinuesOn(s, noted, ProduceAll(noted, made));
  }

  lemma {:induction false} OneFlow(w: World, tx: bool, s: State, op: Operation, id: Option<Id>, m: Materialized)
    requires Flow(s) && OnlyChoices(m.made)
    ensures Flow(RunOne(w, tx, s, op, id, m).s) && Continues(s, RunOne(w, tx, s, op, id, m).s)
  {
    var s1 := if op.kind.Update? && id.Some? then s.(targeted := s.targeted + {Key(op.entity, id.value)}) else s;
    Unchanged(s, s1);
    ExecuteFlow(w, tx, s1, op.kind, op.entity, id, m.fields);
    var done := Execute(w, tx, s1, op.kind, op.entity, id, m.fields);
    if done.Done? { RememberFlow(w, done.s, op, done.value, m.made); }
  }

  lemma {:induction false} WriteFlow(w: World, tx: bool, s: State, op: Operation, m: Materialized)
    requires Flow(s) && OnlyChoices(m.made)
    ensures Flow(RunWrite(w, tx, s, op, m).s) && Continues(s, RunWrite(w, tx, s, op, m).s)
  {
    Unchanged(s, s);
    var search := op.kind.Update? && op.entityId.None? && op.criteria.Some?;
    if search && op.all {
      var ids := w.allTargets(op.entity, op.criteria.value, s.db);
      if ids.Some? { BulkFlow(w, tx, s, op.entity, m.fields, ids.value); }
    } else {
      OneFlow(w, tx, s, op, if search then w.oneTarget(op.entity, op.criteria.value, s.targeted, s.db) else op.entityId,
              m);
    }
  }

  lemma {:induction false} OperationFlow(w: World, tx: bool, s: State, op: Operation)
    requires Flow(s)
    ensures Flow(RunOperation(w, tx, s, op).s) && Continues(s, RunOperation(w, tx, s, op).s)
  {
    hide Materialize, RunWrite;
    var fields := AutoInject(w, op, Resolve(w, op.fields, s.created), s.latest);
    if op.kind.Action? {
      Unchanged(s, RunOperation(w, tx, s, op).s);
    } else {
      var choices := Choices(fields, Relations(w, op.entity));
      MaterializeFlow(w, tx, s, op.entity, choices, Materialized(fields, []));
      var r := Materialize(w, tx, s, op.entity, choices, Materialized(fields, []));
      if r.Done? { WriteFlow(w, tx, r.s, op, r.value); }
    }
  }

  /** Holds before and after every operation of every run. */
  lemma {:induction false} RunFlow(w: World, tx: bool, s: State, ops: seq<Operation>)
    requires Flow(s)
    ensures Flow(RunOperations(w, tx, s, ops).s) && Continues(s, RunOperations(w, tx, s, ops).s)
    decreases |ops|
  {
    hide RunOperation;
    Unchanged(s, s);
    if ops != [] {
      OperationFlow(w, tx, s, ops[0]);
      var r := RunOperation(w, tx, s, ops[0]);
      if r.Done? { RunFlow(w, tx, r.s, ops[1..]); }
    }
  }

  lemma {:induction false} StartFlow(db: Db)
    ensures Flow(Init(db))
  {
  }

  // ----- references -----

  /** The field a reference stands for, when an entity was produced under its name. */
  function Referenced(ps: seq<Produced>, temp: string, field: string): Option<Atom> {
    var source := LastNamed(ps, temp);
    if source.Some? && field in source.value.row.data then Some(source.value.row.data[field]) else None
  }

  /** What a field becomes: its references come from the entities `ps`; the rest stays as it is. */
  ghost predicate FilledFrom(w: World, ps: seq<Produced>, v: Field, r: Field) {
    match v
    case Template(parts) =>
      r.Template? && |r.parts| == |parts| && forall i :: 0 <= i < |parts| ==> r.parts[i] == PartFrom(w, ps, parts[i])
    case Legacy(temp, field) =>
      var found := Referenced(ps, temp, field);
      r == if found.Some? then Value(found.value) else if LastNamed(ps, temp).Some? then Null else v
    case _ => r == v
  }

  function PartFrom(w: World, ps: seq<Produced>, p: Part): Part {
    if p.Hole? && Referenced(ps, p.temp, p.field).Some? then Chars(w.show(Referenced(ps, p.temp, p.field).value)) else p
  }

  /**
   A `{{name.field}}`, or a `$name.field`, is only replaced by a field of the last entity produced under
   that name, by an earlier operation of the plan; a `$name.field` that entity does not have becomes NULL,
   and any other reference stays as it is.
   */
  lemma {:induction false} ReferencesComeFromEarlierOperations(w: World, tx: bool, db: Db, before: seq<Operation>,
          fields: Fields, k: string)
    requires RunOperations(w, tx, Init(db), before).Done? && k in fields
    ensures var s := RunOperations(w, tx, Init(db), before).s;
      k in Resolve(w, fields, s.created) && FilledFrom(w, s.produced, fields[k], Resolve(w, fields, s.created)[k])
  {
    hide RunOperations, LastNamed, ChoicesMadeOnce, UpdatesTargeted;
    StartFlow(db);
    RunFlow(w, tx, Init(db), before);
    var s := RunOperations(w, tx, Init(db), before).s;
    match fields[k] {
      case Template(parts) =>
        forall i | 0 <= i < |parts| ensures FillPart(w, parts[i], s.created) == PartFrom(w, s.produced, parts[i]) {
          if parts[i].Hole? { assert Known(s.created, parts[i].temp) == RowOf(LastNamed(s.produced, parts[i].temp)); }
        }
      case Legacy(temp, _) => assert Known(s.created, temp) == RowOf(LastNamed(s.produced, temp));
      case _ =>
    }
  }

  lemma {:induction false} LastNamedIsProduced(ps: seq<Produced>, name: string)
    ensures LastNamed(ps, name).Some?
      ==> LastNamed(ps, name).value in ps && LastNamed(ps, name).value.temp == Some(name)
    ensures LastNamed(ps, name).None? ==> forall p :: p in ps ==> p.temp != Some(name)
  {
    if ps != [] { LastNamedIsProduced(ps[..|ps| - 1], name); assert ps == ps[..|ps| - 1] + [ps[|ps| - 1]]; }
  }

  // ----- foreign keys -----

  lemma {:induction false} InjectOnlyAdds(fields: Fields, relations: seq<Relation>, latest: map<string, Produced>,
          n: string)
    ensures var r := Inject(fields, relations, latest);
      && (HasValue(fields, n) ==> n in r && r[n] == fields[n])
      && (n in r && !(n in fields && r[n] == fields[n]) ==>
            exists x :: x in relations && x.fk == n && !Supplied(fields, x) && x.table in latest
                        && r[n] == Value(Num(latest[x.table].id)))
    decreases |relations|
  {
    if relations != [] {
      var x := relations[0];
      var next := if !Supplied(fields, x)
        && x.table in latest then fields[x.fk := Value(Num(latest[x.table].id))] else fields;
      assert forall k :: HasValue(fields, k) ==> HasValue(next, k);
      InjectOnlyAdds(next, relations[1..], latest, n);
      var r := Inject(fields, relations, latest);
      if n in r && !(n in fields && r[n] == fields[n]) {
        if n in next && r[n] == next[n] {
          assert x in relations && x.fk == n;
        } else {
          var y :| y in relations[1..] && y.fk == n && !Supplied(next, y) && y.table in latest
            && r[n] == Value(Num(latest[y.table].id));
          assert !Supplied(fields, y) && y in relations;
        }
      }
    }
  }

  /** After it, no relation to a table of the plan is left without a value. */
  lemma {:induction false} InjectFillsAll(fields: Fields, relations: seq<Relation>, latest: map<string, Produced>,
          x: Relation)
    requires x in relations && x.table in latest
    ensures Supplied(Inject(fields, relations, latest), x)
    decreases |relations|
  {
    var r := relations[0];
    var next := if !Supplied(fields, r)
      && r.table in latest then fields[r.fk := Value(Num(latest[r.table].id))] else fields;
    if x == r {
      assert Supplied(next, x);
      InjectKeepsSupplied(next, relations[1..], latest, x);
    } else {
      InjectFillsAll(next, relations[1..], latest, x);
    }
  }

  lemma {:induction false} InjectKeepsSupplied(fields: Fields, relations: seq<Relation>,
          latest: map<string, Produced>, x: Relation)
    requires Supplied(fields, x)
    ensures Supplied(Inject(fields, relations, latest), x)
  {
    forall n | HasValue(fields, n)
      ensures HasValue(Inject(fields, relations, latest), n)
    {
      InjectOnlyAdds(fields, relations, latest, n);
    }
  }

  /** `n` is a foreign key nobody supplied, set to the row of the last earlier operation on its table. */
  predicate TakenFromPlan(fields: Fields, r: Fields, n: string, x: Relation, ps: seq<Produced>) {
    && x.fk == n && !Supplied(fields, x) && LastOf(ps, x.table).Some?
    && n in r && r[n] == Value(Num(LastOf(ps, x.table).value.id))
  }

  /**
   A supplied field is never overwritten; an added one is the foreign key of a relation none of
   whose names was supplied, and holds the row of the last earlier operation on its table.
   */
  lemma {:induction false} InjectedKeysAreLatest(w: World, tx: bool, db: Db, before: seq<Operation>, op: Operation,
          fields: Fields, n: string)
    requires RunOperations(w, tx, Init(db), before).Done?
    ensures var s := RunOperations(w, tx, Init(db), before).s;
      var r := AutoInject(w, op, fields, s.latest);
      && (HasValue(fields, n) ==> n in r && r[n] == fields[n])
      && (n in r && !(n in fields && r[n] == fields[n]) ==>
            op.kind.Insert? && exists x :: x in Relations(w, op.entity) && TakenFromPlan(fields, r, n, x, s.produced))
  {
    StartFlow(db);
    RunFlow(w, tx, Init(db), before);
    var s := RunOperations(w, tx, Init(db), before).s;
    var r := AutoInject(w, op, fields, s.latest);
    InjectOnlyAdds(fields, Relations(w, op.entity), s.latest, n);
    if n in r && !(n in fields && r[n] == fields[n]) {
      var x :| x in Relations(w, op.entity) && x.fk == n && !Supplied(fields, x) && x.table in s.latest
               && r[n] == Value(Num(s.latest[x.table].id));
      assert Latest(s.latest, x.table) == LastOf(s.produced, x.table);
      assert TakenFromPlan(fields, r, n, x, s.produced);
    }
  }

  /** The names a foreign key goes by are empty in the operation, and belong to no other relation. */
  predicate Missing(fields: Fields, relations: seq<Relation>, x: Relation) {
    && (forall n :: n in [x.fk] + x.names && n in fields ==> fields[n] in {Null, Template([]), Value(Str(""))})
    && (forall y :: y in relations && y != x ==> y.fk != x.fk && y.fk !in x.names)
  }

  lemma {:induction false} MissingStays(fields: Fields, relations: seq<Relation>, x: Relation, y: Relation, v: Field)
    requires Missing(fields, relations, x) && y in relations && y != x
    ensures Missing(fields[y.fk := v], relations, x)
  {
    assert [x.fk] + x.names != [] && ([x.fk] + x.names)[0] == x.fk;
    forall n | n in [x.fk] + x.names ensures n == x.fk || n in x.names {}
  }

  lemma {:induction false} MissingIsEmpty(fields: Fields, relations: seq<Relation>, x: Relation)
    requires Missing(fields, relations, x)
    ensures !Supplied(fields, x)
  {
    assert ([x.fk] + x.names)[0] == x.fk;
    forall n | n in x.names
      ensures !HasValue(fields, n)
    {
      var i :| 0 <= i < |x.names| && x.names[i] == n;
      assert ([x.fk] + x.names)[i + 1] == n;
    }
  }

  lemma {:induction false} MissingIsFilled(fields: Fields, relations: seq<Relation>, rest: seq<Relation>,
          latest: map<string, Produced>, x: Relation)
    requires Missing(fields, relations, x) && x in rest && x.table in latest && forall y :: y in rest ==> y in relations
    ensures var r := Inject(fields, rest, latest); x.fk in r && r[x.fk] == Value(Num(latest[x.table].id))
    decreases |rest|
  {
    hide Missing, Supplied;
    var y := rest[0];
    var v := if y.table in latest then Value(Num(latest[y.table].id)) else Null;
    if y == x {
      MissingIsEmpty(fields, relations, x);
      InjectOnlyAdds(fields[x.fk := v], rest[1..], latest, x.fk);
    } else {
      MissingStays(fields, relations, x, y, v);
      MissingIsFilled(if !Supplied(fields, y) && y.table in latest then fields[y.fk := v] else fields, relations,
                      rest[1..], latest, x);
    }
  }

  /** A foreign key an INSERT lacks is the row of the last earlier operation on its table, when there is one. */
  lemma {:induction false} MissingKeyIsTaken(w: World, tx: bool, db: Db, before: seq<Operation>, op: Operation,
          fields: Fields, x: Relation)
    requires RunOperations(w, tx, Init(db), before).Done? && op.kind.Insert?
    requires op.entity in w.relations && x in w.relations[op.entity] && Missing(fields, w.relations[op.entity], x)
    ensures var s := RunOperations(w, tx, Init(db), before).s;
      var r := AutoInject(w, op, fields, s.latest);
      LastOf(s.produced, x.table).Some?
      ==> x.fk in r && r[x.fk] == Value(Num(LastOf(s.produced, x.table).value.id))
  {
    hide RunOperations, Missing, LastOf, ChoicesMadeOnce, UpdatesTargeted;
    StartFlow(db);
    RunFlow(w, tx, Init(db), before);
    var s := RunOperations(w, tx, Init(db), before).s;
    assert Latest(s.latest, x.table) == LastOf(s.produced, x.table);
    if x.table in s.latest {
      MissingIsFilled(fields, w.relations[op.entity], w.relations[op.entity], s.latest, x);
    }
  }

  // ----- bulk updates -----

  /** The records updated since `from`. */
  function UpdatedSince(log: seq<Event>, from: nat): seq<Key>
    requires from <= |log|
  {
    if |log| == from then []
    else
      var e := log[|log| - 1];
      UpdatedSince(log[..|log| - 1], from) + if e.Updated? then [e.key] else []
  }

  lemma {:induction false} UpdateAddsOne(w: World, tx: bool, s: State, entity: string, id: Id, fields: Fields)
    ensures var r := Execute(w, tx, s, Update, entity, Some(id), fields);
      && r.s.targeted == s.targeted && (r.Thrown? ==> r.s.log == s.log)
      && (r.Done? ==> |r.s.log| == |s.log| + 1 && r.s.log[..|s.log|] == s.log
                      && r.s.log[|s.log|].Updated? && r.s.log[|s.log|].key == Key(entity, id))
  {
  }

  lemma {:induction false} UpdatedSplit(log: seq<Event>, from: nat, mid: nat)
    requires from <= mid <= |log|
    ensures UpdatedSince(log, from) == UpdatedSince(log[..mid], from) + UpdatedSince(log, mid)
    decreases |log|
  {
    if mid == |log| {
      assert log[..mid] == log;
    } else {
      UpdatedSplit(log[..|log| - 1], from, mid);
      assert log[..|log| - 1][..mid] == log[..mid];
    }
  }

  lemma {:induction false} UpdatedThenRest(before: seq<Event>, mid: seq<Event>, end: seq<Event>, key: Key)
    requires |mid| == |before| + 1 && mid[..|before|] == before && mid[|before|].Updated? && mid[|before|].key == key
    requires mid <= end
    ensures before <= end && UpdatedSince(end, |before|) == [key] + UpdatedSince(end, |mid|)
  {
    UpdatedSplit(end, |before|, |mid|);
    assert end[..|mid|] == mid && end[..|before|] == before;
    assert UpdatedSince(mid, |before|) == UpdatedSince(before, |before|) + [key] == [key];
  }

  /** The matching records not targeted yet, each once, in order. */
  function Fresh(entity: string, ids: seq<Id>, targeted: set<Key>): seq<Key>
    decreases |ids|
  {
    if ids == [] then []
    else
      var key := Key(entity, ids[0]);
      if key in targeted then Fresh(entity, ids[1..], targeted) else [key] + Fresh(entity, ids[1..], targeted + {key})
  }

  lemma {:induction false} FreshMembers(entity: string, ids: seq<Id>, targeted: set<Key>)
    ensures var r := Fresh(entity, ids, targeted);
      && (forall i, j :: 0 <= i < j < |r| ==> r[i] != r[j])
      && (forall k :: k in r <==> k !in targeted && k.entity == entity && k.id in ids)
    decreases |ids|
  {
    if ids != [] {
      var key := Key(entity, ids[0]);
      FreshMembers(entity, ids[1..], if key in targeted then targeted else targeted + {key});
      assert forall k: Key :: k.id in ids <==> k.id == ids[0] || k.id in ids[1..];
    }
  }

  /**
   A bulk update visits exactly the matching records that no earlier UPDATE of the plan targeted,
   each once; when one of them fails, a beginning of that list.
   */
  lemma {:induction false} BulkVisitsOnce(w: World, tx: bool, s: State, entity: string, fields: Fields, ids: seq<Id>)
    ensures var r := BulkUpdate(w, tx, s, entity, fields, ids);
      && s.log <= r.s.log
      && UpdatedSince(r.s.log, |s.log|) <= Fresh(entity, ids, s.targeted)
      && (r.Done? ==> UpdatedSince(r.s.log, |s.log|) == Fresh(entity, ids, s.targeted))
    decreases |ids|
  {
    hide Execute, BulkUpdate, Fresh, UpdatedSince;
    BulkStep(w, tx, s, entity, fields, ids);
    FreshStep(entity, ids, s.targeted);
    NoneUpdated(s.log);
    if ids != [] {
      var key := Key(entity, ids[0]);
      if key in s.targeted {
        BulkVisitsOnce(w, tx, s, entity, fields, ids[1..]);
      } else {
        var s0 := s.(targeted := s.targeted + {key});
        UpdateAddsOne(w, tx, s0, entity, ids[0], fields);
        var r := Execute(w, tx, s0, Update, entity, Some(ids[0]), fields);
        if r.Done? {
          var s1 := r.s.(results := r.s.results + [r.value]);
          BulkVisitsOnce(w, tx, s1, entity, fields, ids[1..]);
          UpdatedThenRest(s.log, s1.log, BulkUpdate(w, tx, s1, entity, fields, ids[1..]).s.log, key);
        }
      }
    }
  }

  lemma {:induction false} NoneUpdated(log: seq<Event>)
    ensures UpdatedSince(log, |log|) == []
  {
  }

  lemma {:induction false} FreshStep(entity: string, ids: seq<Id>, targeted: set<Key>)
    ensures ids == [] ==> Fresh(entity, ids, targeted) == []
    ensures ids != [] ==> var key := Key(entity, ids[0]);
      Fresh(entity, ids, targeted) == if key in targeted then Fresh(entity, ids[1..], targeted)
        else [key] + Fresh(entity, ids[1..], targeted + {key})
  {
  }

  lemma {:induction false} BulkStep(w: World, tx: bool, s: State, entity: string, fields: Fields, ids: seq<Id>)
    ensures ids == [] ==> BulkUpdate(w, tx, s, entity, fields, ids) == Done(s, ())
    ensures ids != [] ==> var key := Key(entity, ids[0]);
      var done := Execute(w, tx, s.(targeted := s.targeted + {key}), Update, entity, Some(ids[0]), fields);
      BulkUpdate(w, tx, s, entity, fields, ids) ==
        if key in s.targeted then BulkUpdate(w, tx, s, entity, fields, ids[1..])
        else if done.Thrown? then Thrown(done.s)
        else BulkUpdate(w, tx, done.s.(results := done.s.results + [done.value]), entity, fields, ids[1..])
  {
    hide Execute;
  }

  // ----- confirmed creations -----

  /** The operation asks, under one of the names of the relation, for the creation of a record with that title. */
  predicate AsksFor(fields: Fields, x: Relation, title: string) {
    exists n :: n in [x.fk] + x.names && n in fields && fields[n] == Create(title)
  }

  lemma {:induction false} ChosenNameIs(fields: Fields, names: seq<string>)
    ensures var r := ChosenName(fields, names);
      && (r.None? <==> forall n :: n in names && n in fields ==> !fields[n].Create?)
      && (r.Some? ==> r.value in names && r.value in fields && fields[r.value].Create?)
  {
    if names != [] {
      ChosenNameIs(fields, names[1..]);
      assert names == [names[0]] + names[1..];
    }
  }

  /** Each creation asked for is one of the choices of the operation, once by relation, and there are no others. */
  lemma {:induction false} ChoicesAreAsked(fields: Fields, relations: seq<Relation>, x: Relation)
    ensures (exists c :: c in Choices(fields, relations) && c.relation == x)
      <==> x in relations && exists title :: AsksFor(fields, x, title)
    ensures forall c :: c in Choices(fields, relations) ==> AsksFor(fields, c.relation, c.title)
    ensures |Choices(fields, relations)| <= |relations|
  {
    hide ChosenName;
    if relations != [] {
      var r := relations[0];
      var names := [r.fk] + r.names;
      ChosenNameIs(fields, names);
      ChoicesAreAsked(fields, relations[1..], x);
      assert relations == [r] + relations[1..];
      var first := ChosenName(fields, names);
      if first.Some? {
        var c := Choice(r, fields[first.value].title);
        assert AsksFor(fields, r, c.title);
        assert Choices(fields, relations) == [c] + Choices(fields, relations[1..]);
        assert c in Choices(fields, relations);
      } else {
        assert forall title :: !AsksFor(fields, r, title);
        assert Choices(fields, relations) == [] + Choices(fields, relations[1..]);
      }
    }
  }

  /** Two operations of a run that ask for the same creation share one row, made once. */
  lemma {:induction false} ChoicesAreShared(w: World, tx: bool, db: Db, before: seq<Operation>, entity: string,
          c: Choice, m: Materialized)
    requires RunOperations(w, tx, Init(db), before).Done? && OnlyChoices(m.made)
    ensures var s := RunOperations(w, tx, Init(db), before).s;
      var r := MaterializeOne(w, tx, s, entity, c, m);
      && ChoicesMadeOnce(r.s)
      && (r.Done? ==>
            var (_, extra) := w.prepareChoice(entity, c.relation.fk, m.fields).value;
            var choice := ChoiceKey(c.relation.table, w.labelKey(c.title), extra);
            && choice in r.s.choices && c.relation.fk in r.value.fields
            && r.value.fields[c.relation.fk] == Value(Num(r.s.choices[choice]))
            && (choice in s.choices ==> r.s == s))
  {
    StartFlow(db);
    RunFlow(w, tx, Init(db), before);
    MaterializeOneFlow(w, tx, RunOperations(w, tx, Init(db), before).s, entity, c, m);
  }
}
