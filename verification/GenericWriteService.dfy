/**
 The service itself (generic-write.service.ts): its loops over the operations, the confirmed
 creations, the matching records, the rows to clean up and the deferred actions, changing one
 plan's state in place. Each method does what the function of the same name says.
 */
module GenericWriteService {
  import opened Wrappers
  import opened WritePlan

  function ValueOf<T>(r: Step<T>): Option<T> {
    match r
    case Thrown(_) => None
    case Done(_, v) => Some(v)
  }

  class PlanRun {
    var db: Db
    var tx: Db
    var results: seq<Result>
    var createdEntities: map<string, Row>
    var targetedIds: set<Key>
    var latestByEntity: map<string, Produced>
    var handlerCreations: seq<Key>
    var createdChoices: map<ChoiceKey, Id>
    var produced: seq<Produced>
    var failed: seq<Key>
    var log: seq<Event>

    constructor (db: Db)
      ensures Snapshot() == Init(db)
    {
      this.db, tx := db, map[];
      results, createdEntities, targetedIds, latestByEntity := [], map[], {}, map[];
      handlerCreations, createdChoices, produced, failed, log := [], map[], [], [], [];
    }

    ghost function Snapshot(): State
      reads this
    {
      State(db, tx, results, createdEntities, targetedIds, latestByEntity, handlerCreations,
            createdChoices, produced, failed, log)
    }

    method Store(transaction: bool, byHandler: bool, key: Key, row: Row, e: Event)
      modifies this`db, this`tx, this`log
      ensures Snapshot() == (var s := Put(transaction, old(Snapshot()), byHandler, key, row); s.(log := s.log + [e]))
    {
      if byHandler || !transaction { db := db[key := row]; } else { tx := tx[key := row]; }
      log := log + [e];
    }

    method InsertRow(w: World, transaction: bool, entity: string, fields: Fields) returns (r: Option<Result>)
      modifies this
      ensures Snapshot() == DoInsert(w, transaction, old(Snapshot()), entity, fields).s
      ensures r == ValueOf(DoInsert(w, transaction, old(Snapshot()), entity, fields))
    {
      var h := entity in w.handlers;
      var seen := if h then db else db + tx;
      var effect := if h then w.handlers[entity].insert(fields, seen) else w.genericInsert(entity, fields, seen);
      match effect {
        case InsertThrows => return None;
        case Finds(id) =>
          var key := Key(entity, id);
          if key !in seen { return None; }
          return Some(Result(Insert, entity, id, 0, Some(seen[key]), false, true));
        case Inserts(id, row, deferred) =>
          var key := Key(entity, id);
          if key in db || key in tx || !(row.refs <= seen.Keys) { return None; }
          Store(transaction, h, key, row, Inserted(key, h));
          return Some(Result(Insert, entity, id, 1, Some(row), deferred, true));
      }
    }

    method UpdateRow(w: World, transaction: bool, entity: string, id: Id, fields: Fields) returns (r: Option<Result>)
      modifies this
      ensures Snapshot() == DoUpdate(w, transaction, old(Snapshot()), entity, id, fields).s
      ensures r == ValueOf(DoUpdate(w, transaction, old(Snapshot()), entity, id, fields))
    {
      var h := entity in w.handlers;
      var seen, key := if h then db else db + tx, Key(entity, id);
      if key !in seen { return None; }
      var effect := if h then w.handlers[entity].update(id, fields, seen)
        else w.genericUpdate(entity, id, fields, seen);
      if effect.UpdateThrows? || !(effect.row.refs <= seen.Keys) { return None; }
      Store(transaction, h, key, effect.row, Updated(key, h, effect.row, handlerCreations));
      return Some(Result(Update, entity, id, 1, Some(effect.row), false, true));
    }

    method ExecuteOperation(w: World, transaction: bool, kind: Kind, entity: string, id: Option<Id>, fields: Fields)
      returns (r: Option<Result>)
      modifies this
      ensures Snapshot() == Execute(w, transaction, old(Snapshot()), kind, entity, id, fields).s
      ensures r == ValueOf(Execute(w, transaction, old(Snapshot()), kind, entity, id, fields))
    {
      hide DoInsert, DoUpdate;
      var h := entity in w.handlers;
      var safe := if h then fields else map k | k in fields && k !in PROTECTED :: fields[k];
      if !h && safe == map[] { return None; }
      if kind.Insert? {
        r := InsertRow(w, transaction, entity, safe);
      } else if kind.Update? && id.Some? {
        r := UpdateRow(w, transaction, entity, id.value, safe);
      } else {
        return None;
      }
    }

    /** The row for a choice made for the first time in this plan. */
    method CreateChoice(w: World, transaction: bool, relation: Relation, choice: ChoiceKey, title: string,
            m: Materialized)
      returns (r: Option<Materialized>)
      modifies this
      ensures Snapshot() == MakeChoice(w, transaction, old(Snapshot()), relation, choice, title, m).s
      ensures r == ValueOf(MakeChoice(w, transaction, old(Snapshot()), relation, choice, title, m))
    {
      hide DoInsert;
      var table := relation.table;
      var result := InsertRow(w, transaction, table, w.creationFields(table, title, choice.extra));
      if result.None? { return None; }
      var id, row := result.value.id, result.value.row;
      createdChoices := createdChoices[choice := id];
      if result.value.affected != 0 { handlerCreations := handlerCreations + [Key(table, id)]; }
      log := log + [Chosen(choice, id)];
      var made := if row.Some? then m.made + [Produced(Some(w.autoName(table, id)), table, id, row.value, false)]
        else m.made;
      return Some(Materialized(Link(m.fields, relation, id), made));
    }

    /** One confirmed creation: linked to the row made earlier for the same choice, or to a new one. */
    method MaterializeChoice(w: World, transaction: bool, entity: string, c: Choice,
            m: Materialized) returns (r: Option<Materialized>)
      modifies this
      ensures Snapshot() == MaterializeOne(w, transaction, old(Snapshot()), entity, c, m).s
      ensures r == ValueOf(MaterializeOne(w, transaction, old(Snapshot()), entity, c, m))
    {
      hide MakeChoice;
      var prepared := w.prepareChoice(entity, c.relation.fk, m.fields);
      if prepared.None? { return None; }
      var (out, extra) := prepared.value;
      var table := c.relation.table;
      var choice := ChoiceKey(table, w.labelKey(c.title), extra);
      if choice in createdChoices { return Some(m.(fields := Link(out, c.relation, createdChoices[choice]))); }
      if !w.mayCreate(table) { return None; }
      r := CreateChoice(w, transaction, c.relation, choice, c.title, m.(fields := out));
    }

    method MaterializeCreateChoices(w: World, transaction: bool, entity: string, choices: seq<Choice>, fields: Fields)
      returns (r: Option<Materialized>)
      modifies this
      ensures Snapshot() == Materialize(w, transaction, old(Snapshot()), entity, choices, Materialized(fields, [])).s
      ensures r == ValueOf(Materialize(w, transaction, old(Snapshot()), entity, choices, Materialized(fields, [])))
    {
      hide MaterializeOne;
      var m := Materialized(fields, []);
      var i := 0;
      while i < |choices|
        invariant 0 <= i <= |choices|
        invariant Materialize(w, transaction, Snapshot(), entity, choices[i..], m)
               == Materialize(w, transaction, old(Snapshot()), entity, choices, Materialized(fields, []))
      {
        assert choices[i..][0] == choices[i] && choices[i..][1..] == choices[i + 1..];
        var next := MaterializeChoice(w, transaction, entity, choices[i], m);
        if next.None? { return None; }
        m := next.value;
        i := i + 1;
      }
      return Some(m);
    }

    method UpdateAll(w: World, transaction: bool, entity: string, fields: Fields, ids: seq<Id>) returns (ok: bool)
      modifies this
      ensures Snapshot() == BulkUpdate(w, transaction, old(Snapshot()), entity, fields, ids).s
      ensures ok == BulkUpdate(w, transaction, old(Snapshot()), entity, fields, ids).Done?
    {
      hide Execute;
      var i := 0;
      while i < |ids|
        invariant 0 <= i <= |ids|
        invariant BulkUpdate(w, transaction, Snapshot(), entity, fields, ids[i..])
               == BulkUpdate(w, transaction, old(Snapshot()), entity, fields, ids)
      {
        assert ids[i..][0] == ids[i] && ids[i..][1..] == ids[i + 1..];
        var key := Key(entity, ids[i]);
        if key !in targetedIds {
          targetedIds := targetedIds + {key};
          var result := ExecuteOperation(w, transaction, Update, entity, Some(ids[i]), fields);
          if result.None? { return false; }
          results := results + [result.value];
        }
        i := i + 1;
      }
      return true;
    }

    method Propagate(made: seq<Produced>)
      modifies this`createdEntities, this`produced
      ensures Snapshot() == ProduceAll(old(Snapshot()), made)
    {
      var i := 0;
      while i < |made|
        invariant 0 <= i <= |made|
        invariant ProduceAll(Snapshot(), made[i..]) == ProduceAll(old(Snapshot()), made)
      {
        assert made[i..][0] == made[i] && made[i..][1..] == made[i + 1..];
        if made[i].temp.Some? { createdEntities := createdEntities[made[i].temp.value := made[i].row]; }
        produced := produced + [made[i]];
        i := i + 1;
      }
    }

    method RememberResult(w: World, op: Operation, result: Result, made: seq<Produced>)
      modifies this
      ensures Snapshot() == Remember(w, old(Snapshot()), op, result, made)
    {
      hide ProduceAll, Note;
      NoteResult(w, op, result);
      Propagate(made);
    }

    method NoteResult(w: World, op: Operation, result: Result)
      modifies this
      ensures Snapshot() == Note(w, old(Snapshot()), op, result)
    {
      results := results + [result];
      if result.kind.Insert? && result.affected != 0 && result.row.Some? && op.entity in w.handlers {
        handlerCreations := handlerCreations + [Key(op.entity, result.id)];
      }
      if result.row.Some? {
        var p := Produced(op.tempId, op.entity, result.id, result.row.value, true);
        latestByEntity := latestByEntity[op.entity := p];
        if op.tempId.Some? { createdEntities := createdEntities[op.tempId.value := p.row]; }
        produced := produced + [p];
      }
    }

    method PrepareActionAt(w: World, op: Operation, fields: Fields) returns (ok: bool)
      modifies this`results
      ensures Snapshot() == PrepareAction(w, old(Snapshot()), op, fields).s
      ensures ok == PrepareAction(w, old(Snapshot()), op, fields).Done?
    {
      var table := w.actionTable(op.action, op.entity);
      if table.None? { return false; }
      var target := op.entityId;
      if target.None? && op.criteria.Some? {
        target := w.oneTarget(table.value, op.criteria.value, {}, db);
        if target.None? { return false; }
      }
      if target.None? && table.value in latestByEntity { target := Some(latestByEntity[table.value].id); }
      if target.None? || !w.prepare(op.action, target.value, fields) { return false; }
      results := results + [Result(Action, table.value, target.value, 0, None, true, true)];
      return true;
    }

    method WriteOne(w: World, transaction: bool, op: Operation, id: Option<Id>, m: Materialized) returns (ok: bool)
      modifies this
      ensures Snapshot() == RunOne(w, transaction, old(Snapshot()), op, id, m).s
      ensures ok == RunOne(w, transaction, old(Snapshot()), op, id, m).Done?
    {
      if op.kind.Update? && id.Some? { targetedIds := targetedIds + {Key(op.entity, id.value)}; }
      var done := ExecuteOperation(w, transaction, op.kind, op.entity, id, m.fields);
      if done.None? { return false; }
      RememberResult(w, op, done.value, m.made);
      return true;
    }

    method Write(w: World, transaction: bool, op: Operation, m: Materialized) returns (ok: bool)
      modifies this
      ensures Snapshot() == RunWrite(w, transaction, old(Snapshot()), op, m).s
      ensures ok == RunWrite(w, transaction, old(Snapshot()), op, m).Done?
    {
      var search := op.kind.Update? && op.entityId.None? && op.criteria.Some?;
      if search && op.all {
        var ids := w.allTargets(op.entity, op.criteria.value, db);
        if ids.None? || |ids.value| > MAX_BULK_UPDATE { return false; }
        ok := UpdateAll(w, transaction, op.entity, m.fields, ids.value);
        return;
      }
      var id := op.entityId;
      if search {
        id := w.oneTarget(op.entity, op.criteria.value, targetedIds, db);
        if id.None? { return false; }
      }
      ok := WriteOne(w, transaction, op, id, m);
    }

    /** Executes one operation of the plan; false when it throws. */
    method Run(w: World, transaction: bool, op: Operation) returns (ok: bool)
      modifies this
      ensures Snapshot() == RunOperation(w, transaction, old(Snapshot()), op).s
      ensures ok == RunOperation(w, transaction, old(Snapshot()), op).Done?
    {
      var fields := AutoInject(w, op, Resolve(w, op.fields, createdEntities), latestByEntity);
      if op.kind.Action? {
        ok := PrepareActionAt(w, op, fields);
      } else {
        var m := MaterializeCreateChoices(w, transaction, op.entity, Choices(fields, Relations(w, op.entity)), fields);
        if m.None? { return false; }
        ok := Write(w, transaction, op, m.value);
      }
    }

    method RunAll(w: World, transaction: bool, ops: seq<Operation>) returns (ok: bool)
      modifies this
      ensures Snapshot() == RunOperations(w, transaction, old(Snapshot()), ops).s
      ensures ok == RunOperations(w, transaction, old(Snapshot()), ops).Done?
    {
      hide RunOperation;
      var i := 0;
      while i < |ops|
        invariant 0 <= i <= |ops|
        invariant RunOperations(w, transaction, Snapshot(), ops[i..])
          == RunOperations(w, transaction, old(Snapshot()), ops)
      {
        assert ops[i..][0] == ops[i] && ops[i..][1..] == ops[i + 1..];
        ok := Run(w, transaction, ops[i]);
        if !ok { return; }
        i := i + 1;
      }
      return true;
    }

    /** One recorded row: deleted, trashed or reported. */
    method UndoEntity(w: World, key: Key)
      modifies this`db, this`failed, this`log
      ensures Snapshot() == UndoOne(w, old(Snapshot()), key)
    {
      var fate := UndoOutcome(w, State(db, tx, results, createdEntities, targetedIds, latestByEntity, handlerCreations,
                                       createdChoices, produced, failed, log), key);
      match fate {
        case Deletes => db := db - {key}; log := log + [Undone(key)];
        case Trashes =>
          if key in db { db := db[key := db[key].(trashed := true)]; }
          log := log + [Trashed(key)];
        case Fails => failed := failed + [key];
      }
    }

    method CleanupHandlerEntities(w: World)
      modifies this
      ensures Snapshot() == Cleanup(w, old(Snapshot()), old(handlerCreations), |old(handlerCreations)|)
    {
      hide UndoOne;
      var i := |handlerCreations|;
      while i > 0
        invariant 0 <= i <= |handlerCreations| && handlerCreations == old(handlerCreations)
        invariant Cleanup(w, Snapshot(), handlerCreations, i)
          == Cleanup(w, old(Snapshot()), handlerCreations, |handlerCreations|)
      {
        i := i - 1;
        UndoEntity(w, handlerCreations[i]);
      }
    }

    method RunAfterCommit(w: World)
      modifies this`results, this`log
      ensures Snapshot() == RunDeferred(w, old(Snapshot()), 0)
    {
      var i := 0;
      while i < |results|
        invariant 0 <= i <= |results|
        invariant RunDeferred(w, Snapshot(), i) == RunDeferred(w, old(Snapshot()), 0)
      {
        if results[i].deferred {
          var r := results[i].(deferred := false);
          results := results[i := r.(success := r.success && (!r.kind.Action? || w.runs(r)))];
          log := log + [Ran(i)];
        }
        i := i + 1;
      }
    }

    /** False when the commit throws: nothing is written. */
    method CommitTransaction(w: World) returns (ok: bool)
      modifies this`db, this`tx, this`log
      ensures ok == w.commits(old(db), old(tx))
      ensures Snapshot() == if ok then Commit(old(Snapshot())) else old(Snapshot())
    {
      ok := w.commits(db, tx);
      if ok { db, tx, log := db + tx, map[], log + [Committed]; }
    }

    method RollbackTransaction()
      modifies this`tx, this`log
      ensures Snapshot() == Rollback(old(Snapshot()))
    {
      tx, log := map[], log + [RolledBack];
    }

    /** The whole plan; false when it throws, once its creations are cleaned up. */
    method ExecuteAll(w: World, plan: Plan) returns (ok: bool)
      requires Snapshot() == Init(db)
      modifies this
      ensures Snapshot() == ExecutePlan(w, old(db), plan).s
      ensures ok == ExecutePlan(w, old(db), plan).Done?
    {
      ok := RunAll(w, plan.transaction, plan.operations);
      if ok && plan.transaction { ok := CommitTransaction(w); }
      if ok {
        RunAfterCommit(w);
      } else {
        if plan.transaction { RollbackTransaction(); }
        CleanupHandlerEntities(w);
      }
    }
  }
}
