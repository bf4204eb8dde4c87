/** What every run of a write plan keeps, and what a failed one leaves behind. */
module WritePlanSafety {
  import opened Wrappers
  import opened WritePlan

  // ----- the invariant of a run -----

  predicate WriteEvent(e: Event) {
    e.Inserted? || e.Updated? || e.Chosen?
  }

  /** The row already stood as it is, or the plan updated it outside the transaction. */
  ghost predicate Accounted(tx: bool, base: Db, s: State, k: Key)
    requires k in base && k in s.db
  {
    s.db[k] == base[k] || exists e :: e in s.log && e.Updated? && e.key == k && (e.byHandler || !tx)
  }

  /** The update of a handler makes no recorded row depend on a row recorded after it. */
  ghost predicate PointsBack(e: Event) {
    e.Updated? && e.byHandler ==>
      forall i :: 0 <= i < |e.recorded| && e.recorded[i] in e.row.refs ==>
        exists j :: i <= j < |e.recorded| && e.recorded[j] == e.key
  }

  ghost predicate UpdatesPointBack(log: seq<Event>) {
    forall e :: e in log ==> PointsBack(e)
  }

  /** Only rows recorded later point to a recorded row. */
  ghost predicate RefsBack(db: Db, recorded: seq<Key>) {
    forall k, i :: k in db && 0 <= i < |recorded| && recorded[i] in db[k].refs ==>
      exists j :: i <= j < |recorded| && recorded[j] == k
  }

  ghost predicate Sound(db: Db) {
    forall k :: k in db ==> db[k].refs <= db.Keys
  }

  ghost predicate GoodRows(tx: bool, base: Db, s: State) {
    && base.Keys <= s.db.Keys && Sound(s.db)
    && (forall i, j :: 0 <= i < j < |s.recorded| ==> s.recorded[i] != s.recorded[j])
    && (forall k :: k in s.recorded ==> k !in base && (k in s.db || k in s.tx))
    && (if tx then forall k :: k in s.db ==> k in base || k in s.recorded else s.tx == map[])
  }

  ghost predicate GoodTrace(tx: bool, base: Db, s: State) {
    && base.Keys <= s.db.Keys
    && (forall k :: k in base ==> Accounted(tx, base, s, k))
    && (forall e :: e in s.log ==> WriteEvent(e)) && s.failed == []
  }

  ghost predicate Good(tx: bool, base: Db, s: State) {
    GoodRows(tx, base, s) && GoodTrace(tx, base, s) && (tx && UpdatesPointBack(s.log) ==> RefsBack(s.db, s.recorded))
  }

  lemma {:induction false} RefsBackAdd(db: Db, recorded: seq<Key>, key: Key, row: Row, stored: bool)
    requires RefsBack(db, recorded) && Sound(db) && key !in db
    ensures RefsBack(if stored then db[key := row] else db, recorded + [key])
  {
    var more, db' := recorded + [key], if stored then db[key := row] else db;
    hide RefsBack, Sound;
    forall k, i | k in db' && 0 <= i < |more| && more[i] in db'[k].refs
      ensures exists j :: i <= j < |more| && more[j] == k
    {
      if k == key {
        assert more[|recorded|] == k;
      } else {
        var j := OldRef(db, recorded, key, k, i);
        assert more[j] == k;
      }
    }
    assert RefsBack(db', more) by { IsRefsBack(db', more); }
  }

  /** A row there before points to rows there before, so it was recorded later than the one it points to. */
  lemma {:induction false} OldRef(db: Db, recorded: seq<Key>, key: Key, k: Key, i: nat) returns (j: nat)
    requires RefsBack(db, recorded) && Sound(db) && key !in db && k in db
    requires i <= |recorded| && (recorded + [key])[i] in db[k].refs
    ensures i <= j < |recorded| && recorded[j] == k
  {
    assert db[k].refs <= db.Keys;
    assert i < |recorded|;
    j :| i <= j < |recorded| && recorded[j] == k;
  }

  lemma {:induction false} IsRefsBack(db: Db, recorded: seq<Key>)
    requires forall k, i :: k in db && 0 <= i < |recorded| && recorded[i] in db[k].refs ==>
      exists j :: i <= j < |recorded| && recorded[j] == k
    ensures RefsBack(db, recorded)
  {
  }

  lemma {:induction false} NewRowStored(tx: bool, base: Db, s: State, t: State, key: Key, row: Row, h: bool)
    requires GoodRows(tx, base, s) && key !in s.db && key !in s.tx && row.refs <= View(s, h).Keys && (h || !tx)
    requires t.db == s.db[key := row] && t.tx == s.tx
    requires t.recorded == s.recorded + [key] || (t.recorded == s.recorded && !tx)
    ensures GoodRows(tx, base, t)
  {
    assert key !in s.recorded;
    assert !tx ==> s.db + s.tx == s.db;
  }

  lemma {:induction false} NewRowPending(tx: bool, base: Db, s: State, t: State, key: Key, row: Row)
    requires GoodRows(tx, base, s) && key !in s.db && key !in s.tx && tx
    requires t.db == s.db && t.tx == s.tx[key := row] && (t.recorded == s.recorded + [key] || t.recorded == s.recorded)
    ensures GoodRows(tx, base, t)
  {
    assert key !in s.recorded;
  }

  lemma {:induction false} TraceGrows(tx: bool, base: Db, s: State, t: State, e0: Event)
    requires GoodTrace(tx, base, s) && t.failed == s.failed && t.log == s.log + [e0] && WriteEvent(e0)
    requires base.Keys <= t.db.Keys
    requires forall k :: k in base ==> t.db[k] == s.db[k] || (e0.Updated? && e0.key == k && (e0.byHandler || !tx))
    ensures GoodTrace(tx, base, t)
    ensures UpdatesPointBack(t.log) ==> UpdatesPointBack(s.log) && PointsBack(e0)
  {
    assert e0 in t.log && forall e :: e in s.log ==> e in t.log;
    forall k | k in base ensures Accounted(tx, base, t, k) { assert Accounted(tx, base, s, k); }
  }

  lemma {:induction false} NewRow(tx: bool, base: Db, s: State, s1: State, key: Key, row: Row, h: bool)
    requires Good(tx, base, s) && key !in s.db && key !in s.tx && row.refs <= View(s, h).Keys
    requires s1 == Put(tx, s, h, key, row).(log := s.log + [Inserted(key, h)])
    ensures Good(tx, base, s1.(recorded := s.recorded + [key]))
    ensures !h ==> Good(tx, base, s1)
  {
    var stored := h || !tx;
    var t := s1.(recorded := s.recorded + [key]);
    if stored {
      NewRowStored(tx, base, s, t, key, row, h);
      if !h { NewRowStored(tx, base, s, s1, key, row, h); }
    } else {
      NewRowPending(tx, base, s, t, key, row);
      NewRowPending(tx, base, s, s1, key, row);
    }
    TraceGrows(tx, base, s, t, Inserted(key, h));
    TraceGrows(tx, base, s, s1, Inserted(key, h));
    if tx && UpdatesPointBack(s1.log) { RefsBackAdd(s.db, s.recorded, key, row, stored); }
  }

  lemma {:induction false} InsertGood(w: World, tx: bool, base: Db, s: State, entity: string, fields: Fields)
    requires Good(tx, base, s)
    ensures var r := DoInsert(w, tx, s, entity, fields);
      && (r.Thrown? ==> r.s == s)
      && (r.Done? && r.value.affected == 0 ==> r.s == s)
      && (r.Done? ==> r.value.kind.Insert? && r.value.row.Some?)
      && (r.Done? && r.value.affected != 0 ==>
            && Good(tx, base, r.s.(recorded := s.recorded + [Key(entity, r.value.id)]))
            && (entity !in w.handlers ==> Good(tx, base, r.s)) && r.s.recorded == s.recorded)
  {
    var r := DoInsert(w, tx, s, entity, fields);
    if r.Done? && r.value.affected != 0 {
      NewRow(tx, base, s, r.s, Key(entity, r.value.id), r.value.row.value, entity in w.handlers);
    }
  }

  lemma {:induction false} ChangedRow(tx: bool, base: Db, s: State, s1: State, key: Key, row: Row, h: bool)
    requires Good(tx, base, s) && key in View(s, h) && row.refs <= View(s, h).Keys
    requires s1 == Put(tx, s, h, key, row).(log := s.log + [Updated(key, h, row, s.recorded)])
    ensures Good(tx, base, s1)
  {
    assert View(s, h).Keys == if h || !tx then s.db.Keys else s.db.Keys + s.tx.Keys;
    assert GoodRows(tx, base, s1);
    TraceGrows(tx, base, s, s1, Updated(key, h, row, s.recorded));
  }

  lemma {:induction false} UpdateGood(w: World, tx: bool, base: Db, s: State, entity: string, id: Id, fields: Fields)
    requires Good(tx, base, s)
    ensures var r := DoUpdate(w, tx, s, entity, id, fields);
      && Good(tx, base, r.s) && (r.Thrown? ==> r.s == s)
      && (r.Done? ==> r.value.kind.Update? && r.s.recorded == s.recorded)
  {
    var r := DoUpdate(w, tx, s, entity, id, fields);
    if r.Done? { ChangedRow(tx, base, s, r.s, Key(entity, id), r.value.row.value, entity in w.handlers); }
  }

  lemma {:induction false} ExecuteGood(w: World, tx: bool, base: Db, s: State, kind: Kind, entity: string,
          id: Option<Id>, fields: Fields)
    requires Good(tx, base, s)
    ensures var r := Execute(w, tx, s, kind, entity, id, fields);
      && (r.Thrown? ==> r.s == s)
      && (r.Done? ==> r.s.recorded == s.recorded && r.value.kind == kind)
      && (r.Done? && r.value.kind.Insert? && r.value.affected != 0 && entity in w.handlers ==>
            r.value.row.Some? && Good(tx, base, r.s.(recorded := s.recorded + [Key(entity, r.value.id)])))
      && (r.Done? && !(r.value.kind.Insert? && r.value.affected != 0 && entity in w.handlers) ==> Good(tx, base, r.s))
  {
    hide DoInsert, DoUpdate, Good;
    var safe := if entity in w.handlers then fields else map k | k in fields && k !in PROTECTED :: fields[k];
    InsertGood(w, tx, base, s, entity, safe);
    if id.Some? { UpdateGood(w, tx, base, s, entity, id.value, safe); }
  }

  lemma {:induction false} MakeChoiceGood(w: World, tx: bool, base: Db, s: State, r: Relation, choice: ChoiceKey,
          title: string, m: Materialized)
    requires Good(tx, base, s)
    ensures Good(tx, base, MakeChoice(w, tx, s, r, choice, title, m).s)
  {
    var fields := w.creationFields(r.table, title, choice.extra);
    InsertGood(w, tx, base, s, r.table, fields);
    var done := DoInsert(w, tx, s, r.table, fields);
    if done.Done? {
      var s2 := MakeChoice(w, tx, s, r, choice, title, m).s;
      ChosenKeepsGood(tx, base, done.s.(recorded := s2.recorded), s2, Chosen(choice, done.value.id));
    }
  }

  lemma {:induction false} MaterializeGood(w: World, tx: bool, base: Db, s: State, entity: string, choices: seq<Choice>,
          m: Materialized)
    requires Good(tx, base, s)
    ensures Good(tx, base, Materialize(w, tx, s, entity, choices, m).s)
    decreases |choices|
  {
    hide MakeChoice;
    if choices != [] {
      var c := choices[0];
      var prepared := w.prepareChoice(entity, c.relation.fk, m.fields);
      if prepared.Some? {
        var (fields, extra) := prepared.value;
        MakeChoiceGood(w, tx, base, s, c.relation, ChoiceKey(c.relation.table, w.labelKey(c.title), extra), c.title,
                       m.(fields := fields));
      }
      var r := MaterializeOne(w, tx, s, entity, c, m);
      if r.Done? { MaterializeGood(w, tx, base, r.s, entity, choices[1..], r.value); }
    }
  }

  /** Notes that change no row. */
  lemma {:induction false} ChosenKeepsGood(tx: bool, base: Db, s: State, t: State, e: Event)
    requires Good(tx, base, s) && e.Chosen?
    requires t.db == s.db && t.tx == s.tx && t.recorded == s.recorded && t.failed == s.failed && t.log == s.log + [e]
    ensures Good(tx, base, t)
  {
    hide GoodTrace, UpdatesPointBack, RefsBack;
    TraceGrows(tx, base, s, t, e) by { GoodTraceParts(tx, base, s); }
  }

  lemma {:induction false} GoodTraceParts(tx: bool, base: Db, s: State)
    requires GoodTrace(tx, base, s)
    ensures base.Keys <= s.db.Keys
  {
  }

  lemma {:induction false} SameRowsGood(tx: bool, base: Db, s: State, t: State)
    requires Good(tx, base, s)
    requires t.db == s.db && t.tx == s.tx && t.recorded == s.recorded && t.failed == s.failed && t.log == s.log
    ensures Good(tx, base, t)
  {
    forall k | k in base ensures Accounted(tx, base, t, k) { assert Accounted(tx, base, s, k); }
  }

  lemma {:induction false} BulkGood(w: World, tx: bool, base: Db, s: State, entity: string, fields: Fields,
          ids: seq<Id>)
    requires Good(tx, base, s)
    ensures Good(tx, base, BulkUpdate(w, tx, s, entity, fields, ids).s)
    decreases |ids|
  {
    hide Execute;
    if ids != [] {
      var key := Key(entity, ids[0]);
      if key in s.targeted {
        BulkGood(w, tx, base, s, entity, fields, ids[1..]);
      } else {
        var s0 := s.(targeted := s.targeted + {key});
        SameRowsGood(tx, base, s, s0);
        ExecuteGood(w, tx, base, s0, Update, entity, Some(ids[0]), fields);
        var r := Execute(w, tx, s0, Update, entity, Some(ids[0]), fields);
        if r.Done? {
          SameRowsGood(tx, base, r.s, r.s.(results := r.s.results + [r.value]));
          BulkGood(w, tx, base, r.s.(results := r.s.results + [r.value]), entity, fields, ids[1..]);
        }
      }
    }
  }

  lemma {:induction false} ProduceAllSame(s: State, ps: seq<Produced>)
    ensures var t := ProduceAll(s, ps);
      && t.db == s.db && t.tx == s.tx && t.recorded == s.recorded && t.failed == s.failed && t.log == s.log
      && t.results == s.results && t.targeted == s.targeted && t.latest == s.latest && t.choices == s.choices
    decreases |ps|
  {
    if ps != [] { ProduceAllSame(Produce(s, ps[0]), ps[1..]); }
  }

  lemma {:induction false} OneGood(w: World, tx: bool, base: Db, s: State, op: Operation, id: Option<Id>,
          m: Materialized)
    requires Good(tx, base, s)
    ensures Good(tx, base, RunOne(w, tx, s, op, id, m).s)
  {
    hide Execute;
    var s2 := if op.kind.Update? && id.Some? then s.(targeted := s.targeted + {Key(op.entity, id.value)}) else s;
    SameRowsGood(tx, base, s, s2);
    ExecuteGood(w, tx, base, s2, op.kind, op.entity, id, m.fields);
    var done := Execute(w, tx, s2, op.kind, op.entity, id, m.fields);
    if done.Done? { RememberGood(w, tx, base, s2, done.s, op, done.value, m.made); }
  }

  lemma {:induction false} WriteGood(w: World, tx: bool, base: Db, s: State, op: Operation, m: Materialized)
    requires Good(tx, base, s)
    ensures Good(tx, base, RunWrite(w, tx, s, op, m).s)
  {
    var search := op.kind.Update? && op.entityId.None? && op.criteria.Some?;
    if search && op.all {
      var ids := w.allTargets(op.entity, op.criteria.value, s.db);
      if ids.Some? { BulkGood(w, tx, base, s, op.entity, m.fields, ids.value); }
    } else {
      OneGood(w, tx, base, s, op,
              if search then w.oneTarget(op.entity, op.criteria.value, s.targeted, s.db) else op.entityId, m);
    }
  }

  lemma {:induction false} OperationGood(w: World, tx: bool, base: Db, s: State, op: Operation)
    requires Good(tx, base, s)
    ensures Good(tx, base, RunOperation(w, tx, s, op).s)
  {
    var fields := AutoInject(w, op, Resolve(w, op.fields, s.created), s.latest);
    if op.kind.Action? {
      SameRowsGood(tx, base, s, RunOperation(w, tx, s, op).s);
    } else {
      var choices := Choices(fields, Relations(w, op.entity));
      MaterializeGood(w, tx, base, s, op.entity, choices, Materialized(fields, []));
      var r := Materialize(w, tx, s, op.entity, choices, Materialized(fields, []));
      if r.Done? { WriteGood(w, tx, base, r.s, op, r.value); }
    }
  }

  lemma {:induction false} RememberGood(w: World, tx: bool, base: Db, s: State, s1: State, op: Operation,
          result: Result, made: seq<Produced>)
    requires s1.recorded == s.recorded
    requires var create := result.kind.Insert? && result.affected != 0 && op.entity in w.handlers;
      if create then result.row.Some? && Good(tx, base, s1.(recorded := s.recorded + [Key(op.entity, result.id)]))
      else Good(tx, base, s1)
    ensures Good(tx, base, Remember(w, s1, op, result, made))
  {
    hide Good, ProduceAll;
    var create := result.kind.Insert? && result.affected != 0 && op.entity in w.handlers;
    var good := if create then s1.(recorded := s1.recorded + [Key(op.entity, result.id)]) else s1;
    var s2 := good.(results := s1.results + [result]);
    var s3 := if result.row.Some?
              then
                var p := Produced(op.tempId, op.entity, result.id, result.row.value, true);
                Produce(s2.(latest := s2.latest[op.entity := p]), p)
              else s2;
    ProduceAllSame(s3, made);
    SameRowsGood(tx, base, good, Remember(w, s1, op, result, made));
  }

  lemma {:induction false} RunGood(w: World, tx: bool, base: Db, s: State, ops: seq<Operation>)
    requires Good(tx, base, s)
    ensures Good(tx, base, RunOperations(w, tx, s, ops).s)
    decreases |ops|
  {
    hide RunOperation;
    if ops != [] {
      OperationGood(w, tx, base, s, ops[0]);
      var r := RunOperation(w, tx, s, ops[0]);
      if r.Done? { RunGood(w, tx, base, r.s, ops[1..]); }
    }
  }

  // ----- a failed plan -----

  /** Nothing but a referencing row can prevent the deletion: the table is known, or the handler's own undo works. */
  ghost predicate Undoable(w: World, key: Key) {
    if key.entity in w.handlers && w.handlers[key.entity].undo.Some?
    then forall db :: w.handlers[key.entity].undo.value(key, db)
    else key.entity in w.tables
  }

  function UndoneInReverse(keys: seq<Key>, n: nat): seq<Event>
    requires n <= |keys|
  {
    if n == 0 then [] else [Undone(keys[n - 1])] + UndoneInReverse(keys, n - 1)
  }

  function Members(keys: seq<Key>): set<Key> {
    set k | k in keys
  }

  /** Among the rows left, only `keys[i]` to `keys[n - 1]` point to `keys[i]`. */
  ghost predicate PointedFromLater(db: Db, keys: seq<Key>, n: nat)
    requires n <= |keys|
  {
    forall k, i :: k in db && 0 <= i < n && keys[i] in db[k].refs ==> k in keys[i..n]
  }

  lemma {:induction false} LastIsFree(w: World, s: State, keys: seq<Key>, n: nat)
    requires 0 < n <= |keys| && s.tx == map[] && PointedFromLater(s.db, keys, n) && Undoable(w, keys[n - 1])
    ensures UndoOutcome(w, s, keys[n - 1]) == Deletes
    ensures PointedFromLater(s.db - {keys[n - 1]}, keys, n - 1)
  {
    var key, left := keys[n - 1], s.db - {keys[n - 1]};
    assert s.db + s.tx == s.db && keys[n - 1..n] == [key];
    forall k, i | k in left && 0 <= i < n - 1 && keys[i] in left[k].refs ensures k in keys[i..n - 1] {
      assert k in keys[i..n] && keys[i..n] == keys[i..n - 1] + [key];
    }
  }

  /** Deleting from the last recorded row to the first is never blocked. */
  lemma {:induction false} CleanupDeletesAll(w: World, s: State, keys: seq<Key>, n: nat)
    requires n <= |keys| && s.tx == map[] && PointedFromLater(s.db, keys, n)
    requires forall i :: 0 <= i < n ==> Undoable(w, keys[i])
    ensures var t := Cleanup(w, s, keys, n);
      && t.db == s.db - Members(keys[..n]) && t.failed == s.failed
      && t.log == s.log + UndoneInReverse(keys, n)
    decreases n
  {
    hide Undoable, PointedFromLater, UndoOutcome, Members, UndoneInReverse;
    if n > 0 {
      var s1 := UndoAs(s, keys[n - 1], Deletes);
      LastIsFree(w, s, keys, n);
      CleanupDeletesAll(w, s1, keys, n - 1);
      DeletedOneMore(s.db, s.log, keys, n);
    } else {
      NothingDeleted(s.db, s.log, keys);
    }
  }

  lemma {:induction false} DeletedOneMore(db: Db, log: seq<Event>, keys: seq<Key>, n: nat)
    requires 0 < n <= |keys|
    ensures db - {keys[n - 1]} - Members(keys[..n - 1]) == db - Members(keys[..n])
    ensures log + [Undone(keys[n - 1])] + UndoneInReverse(keys, n - 1) == log + UndoneInReverse(keys, n)
  {
    assert keys[..n] == keys[..n - 1] + [keys[n - 1]];
    assert Members(keys[..n]) == Members(keys[..n - 1]) + {keys[n - 1]};
  }

  lemma {:induction false} NothingDeleted(db: Db, log: seq<Event>, keys: seq<Key>)
    ensures db - Members(keys[..0]) == db && log + UndoneInReverse(keys, 0) == log
  {
  }

  lemma {:induction false} UndoTouchesOne(s: State, key: Key, outcome: Undo)
    ensures var t := UndoAs(s, key, outcome);
      && (t.failed == s.failed || t.failed == s.failed + [key])
      && (t.db == s.db || t.db == s.db - {key} || (key in s.db && t.db == s.db[key := s.db[key].(trashed := true)]))
      && (key in t.db ==> t.failed == s.failed + [key] || t.db[key].trashed)
  {
  }

  /** Whatever fails during the cleanup, only recorded rows are touched. */
  lemma {:induction false} CleanupTouchesRecordedOnly(w: World, s: State, keys: seq<Key>, n: nat, k: Key)
    requires n <= |keys| && k !in keys[..n]
    ensures var t := Cleanup(w, s, keys, n);
      && (k in t.db <==> k in s.db) && (k in s.db ==> t.db[k] == s.db[k]) && (k in s.failed ==> k in t.failed)
    decreases n
  {
    if n > 0 {
      assert keys[..n] == keys[..n - 1] + [keys[n - 1]];
      UndoTouchesOne(s, keys[n - 1], UndoOutcome(w, s, keys[n - 1]));
      var s1 := UndoOne(w, s, keys[n - 1]);
      CleanupTouchesRecordedOnly(w, s1, keys, n - 1, k);
    }
  }

  /** And each of them is deleted, trashed or reported. */
  lemma {:induction false} CleanupForgetsNothing(w: World, s: State, keys: seq<Key>, n: nat, i: nat)
    requires i < n <= |keys| && NoneTwice(keys)
    ensures var t := Cleanup(w, s, keys, n); keys[i] in t.db ==> keys[i] in t.failed || t.db[keys[i]].trashed
    decreases n
  {
    var s1 := UndoOne(w, s, keys[n - 1]);
    UndoTouchesOne(s, keys[n - 1], UndoOutcome(w, s, keys[n - 1]));
    if i < n - 1 {
      CleanupForgetsNothing(w, s1, keys, n - 1, i);
    } else {
      CleanupTouchesRecordedOnly(w, s1, keys, n - 1, keys[i]);
    }
  }

  /** The state when the turn of `keys[i]` comes: the rows recorded after it have been dealt with. */
  function TurnOf(w: World, s: State, keys: seq<Key>, n: nat, i: nat): State
    requires i < n <= |keys|
    decreases n
  {
    if n == i + 1 then s else TurnOf(w, UndoOne(w, s, keys[n - 1]), keys, n - 1, i)
  }

  predicate HasUndo(w: World, key: Key) {
    key.entity in w.handlers && w.handlers[key.entity].undo.Some?
  }

  predicate PointedTo(s: State, key: Key) {
    exists k :: k in s.db && k != key && key in s.db[k].refs
  }

  /** The undo of its handler works; or its handler has none, its table is known and no row points to it. */
  predicate IsDeleted(w: World, s: State, key: Key) {
    if HasUndo(w, key) then w.handlers[key.entity].undo.value(key, s.db)
    else key.entity in w.tables && !PointedTo(s, key)
  }

  /** Without an undo, in a known table with a trash, a row points to it. */
  predicate IsTrashed(w: World, s: State, key: Key) {
    !HasUndo(w, key) && key.entity in w.tables && key.entity in w.softDelete && PointedTo(s, key)
  }

  lemma {:induction false} UndoneNow(w: World, s: State, key: Key)
    requires s.tx == map[] && key in s.db && key !in s.failed
    ensures var t := UndoOne(w, s, key);
      && (key !in t.db <==> IsDeleted(w, s, key)) && (IsDeleted(w, s, key) ==> Undone(key) in t.log)
      && (IsTrashed(w, s, key) ==> key in t.db && t.db[key] == s.db[key].(trashed := true) && Trashed(key) in t.log)
      && (key in t.failed <==> !IsDeleted(w, s, key) && !IsTrashed(w, s, key))
      && (key in t.failed ==> key in t.db && t.db[key] == s.db[key])
  {
    assert s.db + s.tx == s.db;
    assert Blocked(s, key) <==> PointedTo(s, key);
  }

  lemma {:induction false} CleanupAddsLog(w: World, s: State, keys: seq<Key>, n: nat, e: Event)
    requires n <= |keys| && e in s.log
    ensures e in Cleanup(w, s, keys, n).log
    decreases n
  {
    hide UndoOutcome;
    if n > 0 { CleanupAddsLog(w, UndoOne(w, s, keys[n - 1]), keys, n - 1, e); }
  }

  lemma {:induction false} OtherAs(s: State, key: Key, k: Key, outcome: Undo)
    requires k != key
    ensures var t := UndoAs(s, key, outcome);
      && (k in t.db <==> k in s.db) && (k in s.db ==> t.db[k] == s.db[k]) && (k in t.failed <==> k in s.failed)
      && t.tx == s.tx
  {
    match outcome
    case Deletes => assert k in s.db - {key} <==> k in s.db;
    case Trashes =>
    case Fails =>
  }

  lemma {:induction false} OtherUntouched(w: World, s: State, key: Key, k: Key)
    requires k != key
    ensures var t := UndoOne(w, s, key);
      && (k in t.db <==> k in s.db) && (k in s.db ==> t.db[k] == s.db[k]) && (k in t.failed <==> k in s.failed)
      && t.tx == s.tx
  {
    hide UndoOutcome, UndoAs;
    OtherAs(s, key, k, UndoOutcome(w, s, key));
  }

  lemma {:induction false} NotReported(w: World, s: State, keys: seq<Key>, n: nat, k: Key)
    requires n <= |keys| && k !in keys[..n]
    ensures k in Cleanup(w, s, keys, n).failed <==> k in s.failed
    decreases n
  {
    hide UndoOne;
    if n > 0 {
      assert keys[..n] == keys[..n - 1] + [keys[n - 1]];
      OtherUntouched(w, s, keys[n - 1], k);
      NotReported(w, UndoOne(w, s, keys[n - 1]), keys, n - 1, k);
    }
  }

  /**
   What the clean-up makes of a recorded row is decided when its turn comes: it is deleted, or trashed, or stays
   as it is and is reported, each exactly in its case.
   */
  lemma {:induction false} EachRowIsUndone(w: World, s: State, keys: seq<Key>, n: nat, i: nat)
    requires i < n <= |keys| && NoneTwice(keys) && s.tx == map[] && keys[i] in s.db && keys[i] !in s.failed
    ensures var k, t, u := keys[i], Cleanup(w, s, keys, n), TurnOf(w, s, keys, n, i);
      && (k !in t.db <==> IsDeleted(w, u, k)) && (IsDeleted(w, u, k) ==> Undone(k) in t.log)
      && (IsTrashed(w, u, k) ==> k in t.db && t.db[k] == s.db[k].(trashed := true) && Trashed(k) in t.log)
      && (k in t.failed <==> !IsDeleted(w, u, k) && !IsTrashed(w, u, k))
      && (k in t.failed ==> k in t.db && t.db[k] == s.db[k])
    decreases n
  {
    hide UndoOne, UndoOutcome, IsDeleted, IsTrashed, NoneTwice;
    var k, last := keys[i], keys[n - 1];
    var s1 := UndoOne(w, s, last);
    NotBefore(keys, i, n);
    if i == n - 1 {
      UndoneNow(w, s, k);
      CleanupTouchesRecordedOnly(w, s1, keys, n - 1, k);
      NotReported(w, s1, keys, n - 1, k);
      if Undone(k) in s1.log { CleanupAddsLog(w, s1, keys, n - 1, Undone(k)); }
      if Trashed(k) in s1.log { CleanupAddsLog(w, s1, keys, n - 1, Trashed(k)); }
    } else {
      OtherUntouched(w, s, last, k);
      EachRowIsUndone(w, s1, keys, n - 1, i);
    }
  }

  /** The row is deleted by its table, not by an undo of its handler. */
  predicate Plain(w: World, key: Key) {
    key.entity in w.tables && !(key.entity in w.handlers && w.handlers[key.entity].undo.Some?)
  }

  ghost predicate NoneTwice(keys: seq<Key>) {
    forall a, b :: 0 <= a < b < |keys| ==> keys[a] != keys[b]
  }

  lemma {:induction false} NotBefore(keys: seq<Key>, i: nat, n: nat)
    requires NoneTwice(keys) && i <= n <= |keys| && i < |keys|
    ensures keys[i] !in keys[..i] && (i < n ==> n > 0 && (i < n - 1 ==> keys[i] != keys[n - 1]))
  {
  }

  lemma {:induction false} BlockedIsLeft(w: World, s: State, key: Key, k: Key)
    requires s.tx == map[] && Plain(w, key) && key in s.db && k in s.db && k != key && key in s.db[k].refs
    ensures key in UndoOne(w, s, key).db
  {
    assert s.db + s.tx == s.db;
    assert Blocked(s, key);
  }

  /** A row that a row left behind points to stays. */
  lemma {:induction false} PointedStays(w: World, s: State, keys: seq<Key>, n: nat, i: nat, k: Key)
    requires i < n <= |keys| && NoneTwice(keys) && s.tx == map[] && Plain(w, keys[i])
    requires keys[i] in s.db && k in s.db && keys[i] in s.db[k].refs && k !in keys[i..n]
    ensures keys[i] in Cleanup(w, s, keys, n).db
    decreases n
  {
    hide UndoOne, UndoOutcome, Plain, NoneTwice;
    var last := keys[n - 1];
    NotBefore(keys, i, n);
    assert keys[i..n] == keys[i..n - 1] + [last];
    UndoTouchesOne(s, last, UndoOutcome(w, s, last));
    var s1 := UndoOne(w, s, last);
    assert s1 == UndoAs(s, last, UndoOutcome(w, s, last)) by { UndoIs(w, s, last); }
    if i == n - 1 {
      BlockedIsLeft(w, s, last, k);
      CleanupTouchesRecordedOnly(w, s1, keys, n - 1, keys[i]);
    } else {
      PointedStays(w, s1, keys, n - 1, i, k);
    }
  }

  lemma {:induction false} UndoIs(w: World, s: State, key: Key)
    ensures UndoOne(w, s, key) == UndoAs(s, key, UndoOutcome(w, s, key)) && UndoOne(w, s, key).tx == s.tx
  {
  }

  /** For rows deleted by their tables, the clean-up deletes all of them exactly when no row left points to one. */
  lemma {:induction false} CleanupDeletesAllIff(w: World, s: State, keys: seq<Key>, n: nat)
    requires n <= |keys| && s.tx == map[] && Sound(s.db) && NoneTwice(keys)
    requires forall i :: 0 <= i < n ==> Plain(w, keys[i])
    ensures Cleanup(w, s, keys, n).db == s.db - Members(keys[..n]) <==> PointedFromLater(s.db, keys, n)
  {
    hide Plain, NoneTwice, Cleanup;
    if PointedFromLater(s.db, keys, n) {
      forall i | 0 <= i < n ensures Undoable(w, keys[i]) { PlainIsUndoable(w, keys[i]); }
      CleanupDeletesAll(w, s, keys, n);
    } else {
      var k, i :| k in s.db && 0 <= i < n && keys[i] in s.db[k].refs && k !in keys[i..n];
      assert keys[i] in s.db;
      PointedStays(w, s, keys, n, i, k);
      assert keys[..n][i] == keys[i] && keys[i] in Members(keys[..n]);
    }
  }

  lemma {:induction false} PlainIsUndoable(w: World, key: Key)
    requires Plain(w, key)
    ensures Undoable(w, key)
  {
  }

  /** The state a failed plan of this run reached when an operation, or the commit, threw. */
  function AtFailure(w: World, db: Db, plan: Plan): State {
    RunOperations(w, plan.transaction, Init(db), plan.operations).s
  }

  lemma {:induction false} StartGood(tx: bool, db: Db)
    requires Sound(db)
    ensures Good(tx, db, Init(db))
  {
    forall k | k in db ensures Accounted(tx, db, Init(db), k) {}
  }

  lemma {:induction false} InSlice(keys: seq<Key>, from: nat, j: nat)
    requires from <= j < |keys|
    ensures keys[j] in keys[from..|keys|]
  {
    assert keys[from..|keys|][j - from] == keys[j];
  }

  lemma {:induction false} LaterRef(db: Db, keys: seq<Key>, k: Key, i: nat) returns (j: nat)
    requires RefsBack(db, keys) && k in db && i < |keys| && keys[i] in db[k].refs
    ensures i <= j < |keys| && keys[j] == k
  {
    j :| i <= j < |keys| && keys[j] == k;
  }

  lemma {:induction false} LaterRefs(db: Db, keys: seq<Key>)
    requires RefsBack(db, keys)
    ensures PointedFromLater(db, keys, |keys|)
  {
    hide RefsBack;
    forall k, i | k in db && 0 <= i < |keys| && keys[i] in db[k].refs ensures k in keys[i..|keys|] {
      var j := LaterRef(db, keys, k, i);
      InSlice(keys, i, j);
    }
  }

  lemma {:induction false} AbortLeavesNoInsert(w: World, base: Db, s: State)
    requires Good(true, base, s) && UpdatesPointBack(s.log) && forall k :: k in s.recorded ==> Undoable(w, k)
    ensures var t := Abort(w, true, s);
      && t.db.Keys == base.Keys && t.tx == map[] && t.failed == []
      && t.log == s.log + [RolledBack] + UndoneInReverse(s.recorded, |s.recorded|)
      && (forall k :: k in base ==> t.db[k] == s.db[k])
  {
    hide Undoable, Cleanup, UndoneInReverse, UpdatesPointBack, Accounted, RefsBack, PointedFromLater;
    var s1, keys := Rollback(s), s.recorded;
    LaterRefs(s.db, keys);
    CleanupDeletesAll(w, s1, keys, |keys|);
    CleanupKeepsTx(w, s1, keys, |keys|);
    assert keys[..|keys|] == keys;
  }

  /**
   A failed transactional plan leaves no insert behind: the transaction is rolled back first, then
   each recorded row is deleted once, the last one first, and the table keys are what they were.
   */
  lemma {:induction false} FailedPlanLeavesNoInsert(w: World, db: Db, plan: Plan)
    requires Sound(db) && plan.transaction && ExecutePlan(w, db, plan).Thrown?
    requires UpdatesPointBack(AtFailure(w, db, plan).log)
    requires forall k :: k in AtFailure(w, db, plan).recorded ==> Undoable(w, k)
    ensures var s, t := AtFailure(w, db, plan), ExecutePlan(w, db, plan).s;
      && t.db.Keys == db.Keys && t.tx == map[] && t.failed == []
      && t.log == s.log + [RolledBack] + UndoneInReverse(s.recorded, |s.recorded|)
      && (forall k :: k in db && t.db[k] != db[k] ==> exists e :: e in s.log && e.Updated? && e.key == k && e.byHandler)
  {
    hide RunOperation;
    StartGood(true, db);
    RunGood(w, true, db, Init(db), plan.operations);
    var s, t := AtFailure(w, db, plan), ExecutePlan(w, db, plan).s;
    AbortLeavesNoInsert(w, db, s);
    forall k | k in db && t.db[k] != db[k] ensures exists e :: e in s.log && e.Updated? && e.key == k && e.byHandler {
      assert Accounted(true, db, s, k);
    }
  }

  lemma {:induction false} CleanupKeepsTx(w: World, s: State, keys: seq<Key>, n: nat)
    requires n <= |keys|
    ensures Cleanup(w, s, keys, n).tx == s.tx && Cleanup(w, s, keys, n).recorded == s.recorded
    decreases n
  {
    hide UndoOutcome, UndoAs;
    if n > 0 {
      UndoKeepsTx(s, keys[n - 1], UndoOutcome(w, s, keys[n - 1]));
      CleanupKeepsTx(w, UndoOne(w, s, keys[n - 1]), keys, n - 1);
    }
  }

  lemma {:induction false} UndoKeepsTx(s: State, key: Key, outcome: Undo)
    ensures UndoAs(s, key, outcome).tx == s.tx && UndoAs(s, key, outcome).recorded == s.recorded
  {
  }

  /** Without an update through a handler the tables are exactly what they were. */
  lemma {:induction false} FailedPlanRestoresTables(w: World, db: Db, plan: Plan)
    requires Sound(db) && plan.transaction && ExecutePlan(w, db, plan).Thrown?
    requires forall e :: e in AtFailure(w, db, plan).log ==> !(e.Updated? && e.byHandler)
    requires forall k :: k in AtFailure(w, db, plan).recorded ==> Undoable(w, k)
    ensures ExecutePlan(w, db, plan).s.db == db
  {
    FailedPlanLeavesNoInsert(w, db, plan);
  }

  /** In every failed plan existing rows stay; with a transaction, whatever else remains is reported or trashed. */
  lemma {:induction false} FailedPlanKeepsExistingRows(w: World, db: Db, plan: Plan)
    requires Sound(db) && ExecutePlan(w, db, plan).Thrown?
    ensures var t := ExecutePlan(w, db, plan).s;
      && db.Keys <= t.db.Keys
      && (plan.transaction ==> forall k :: k in t.db && k !in db ==> k in t.failed || t.db[k].trashed)
  {
    var tx, s := plan.transaction, AtFailure(w, db, plan);
    StartGood(tx, db);
    RunGood(w, tx, db, Init(db), plan.operations);
    var s1, keys := if tx then Rollback(s) else s, s.recorded;
    var t := Cleanup(w, s1, keys, |keys|);
    assert keys[..|keys|] == keys;
    forall k | k in db ensures k in t.db { CleanupTouchesRecordedOnly(w, s1, keys, |keys|, k); }
    forall k | tx && k in t.db && k !in db ensures k in t.failed || t.db[k].trashed {
      if k in keys {
        var i :| 0 <= i < |keys| && keys[i] == k;
        CleanupForgetsNothing(w, s1, keys, |keys|, i);
      } else {
        CleanupTouchesRecordedOnly(w, s1, keys, |keys|, k);
      }
    }
  }

  // ----- deferred actions -----

  function RanInOrder(results: seq<Result>, i: nat): seq<Event>
    requires i <= |results|
    decreases |results| - i
  {
    if i == |results| then [] else (if results[i].deferred then [Ran(i)] else []) + RanInOrder(results, i + 1)
  }

  lemma {:induction false} RanInOrderTail(a: seq<Result>, b: seq<Result>, i: nat)
    requires |a| == |b| && i <= |a| && a[i..] == b[i..]
    ensures RanInOrder(a, i) == RanInOrder(b, i)
    decreases |a| - i
  {
    if i < |a| {
      assert a[i] == a[i..][0] && b[i] == b[i..][0] && a[i + 1..] == a[i..][1..] && b[i + 1..] == b[i..][1..];
      RanInOrderTail(a, b, i + 1);
    }
  }

  /** The outcome a result reports once its deferred action ran. */
  function Reported(w: World, r: Result): Result {
    if !r.deferred then r
    else
      var ran := r.(deferred := false);
      ran.(success := r.success && (!r.kind.Action? || w.runs(ran)))
  }

  lemma {:induction false} LogOnce(log: seq<Event>, e: Event, rest: seq<Event>)
    ensures log + [e] + rest == log + ([e] + rest)
  {
  }

  lemma {:induction false} DeferredLogs(w: World, s: State, i: nat)
    requires i <= |s.results|
    ensures var t := RunDeferred(w, s, i);
      t == s.(results := t.results, log := t.log) && t.log == s.log + RanInOrder(s.results, i)
    decreases |s.results| - i
  {
    hide RunDeferred, RanInOrder, Reported;
    DeferredStep(w, s, i);
    RanStep(s.results, i);
    if i < |s.results| {
      var r := s.results[i];
      if !r.deferred {
        DeferredLogs(w, s, i + 1);
        assert [] + RanInOrder(s.results, i + 1) == RanInOrder(s.results, i + 1);
      } else {
        var s1 := s.(results := s.results[i := Reported(w, r)], log := s.log + [Ran(i)]);
        DeferredLogs(w, s1, i + 1);
        assert s.results[i + 1..] == s1.results[i + 1..];
        RanInOrderTail(s.results, s1.results, i + 1);
        LogOnce(s.log, Ran(i), RanInOrder(s.results, i + 1));
      }
    } else {
      assert s.log + [] == s.log;
    }
  }

  lemma {:induction false} DeferredAt(w: World, s: State, i: nat, k: nat)
    requires i <= |s.results| && k < |s.results|
    ensures var t := RunDeferred(w, s, i);
      && |t.results| == |s.results|
      && t.results[k] == if k < i then s.results[k] else Reported(w, s.results[k])
    decreases |s.results| - i
  {
    hide RunDeferred, Reported;
    DeferredStep(w, s, i);
    if i < |s.results| {
      var r := s.results[i];
      ReportedStays(w, r);
      if !r.deferred {
        DeferredAt(w, s, i + 1, k);
      } else {
        DeferredAt(w, s.(results := s.results[i := Reported(w, r)], log := s.log + [Ran(i)]), i + 1, k);
      }
    }
  }

  lemma {:induction false} DeferredRunOnce(w: World, s: State, i: nat)
    requires i <= |s.results|
    ensures var t := RunDeferred(w, s, i);
      && t == s.(results := t.results, log := t.log) && t.log == s.log + RanInOrder(s.results, i)
      && |t.results| == |s.results|
      && forall k :: 0 <= k < |s.results| ==> t.results[k] == if k < i then s.results[k] else Reported(w, s.results[k])
  {
    hide RunDeferred, RanInOrder, Reported;
    DeferredLogs(w, s, i);
    forall k | 0 <= k < |s.results|
      ensures var t := RunDeferred(w, s, i);
        |t.results| == |s.results| && t.results[k] == if k < i then s.results[k] else Reported(w, s.results[k])
    {
      DeferredAt(w, s, i, k);
    }
    if s.results == [] { DeferredStep(w, s, i); } else { DeferredAt(w, s, i, 0); }
  }

  lemma {:induction false} DeferredStep(w: World, s: State, i: nat)
    requires i <= |s.results|
    ensures RunDeferred(w, s, i) ==
      if i == |s.results| then s
      else if !s.results[i].deferred then RunDeferred(w, s, i + 1)
      else RunDeferred(w, s.(results := s.results[i := Reported(w, s.results[i])], log := s.log + [Ran(i)]), i + 1)
  {
  }

  lemma {:induction false} RanStep(results: seq<Result>, i: nat)
    requires i <= |results|
    ensures RanInOrder(results, i)
      == if i == |results| then [] else (if results[i].deferred then [Ran(i)] else []) + RanInOrder(results, i + 1)
  {
  }

  lemma {:induction false} ReportedStays(w: World, r: Result)
    ensures !r.deferred ==> Reported(w, r) == r
  {
  }

  /**
   No deferred action runs unless the whole plan finished and was committed; then each prepared one
   runs once, in the order of the results, and its failure changes nothing but its own report.
   */
  lemma {:induction false} ActionsRunAfterCommit(w: World, db: Db, plan: Plan)
    requires Sound(db)
    ensures var r := ExecutePlan(w, db, plan);
      var s := AtFailure(w, db, plan);
      && (forall e :: e in s.log ==> !e.Ran?)
      && (r.Thrown? ==> forall e :: e in r.s.log ==> !e.Ran?)
      && (r.Done? ==>
            && r.s.log == s.log + (if plan.transaction then [Committed] else []) + RanInOrder(s.results, 0)
            && r.s.db == s.db + s.tx && r.s.tx == map[] && r.s.recorded == s.recorded && |r.s.results| == |s.results|
            && forall k :: 0 <= k < |s.results| ==> r.s.results[k] == Reported(w, s.results[k]))
  {
    hide RunOperation, RunDeferred, Cleanup, RanInOrder, Reported;
    var tx, s := plan.transaction, AtFailure(w, db, plan);
    StartGood(tx, db);
    RunGood(w, tx, db, Init(db), plan.operations);
    var r := ExecutePlan(w, db, plan);
    if r.Done? {
      DeferredRunOnce(w, if tx then Commit(s) else s, 0);
      assert !tx ==> s.db + s.tx == s.db && s.log + [] == s.log;
    } else {
      var s1 := if tx then Rollback(s) else s;
      CleanupRunsNothing(w, s1, s.recorded, |s.recorded|);
    }
  }

  lemma {:induction false} UndoRunsNothing(w: World, s: State, key: Key)
    ensures forall e :: e in UndoOne(w, s, key).log && e !in s.log ==> !e.Ran?
  {
    hide UndoOutcome;
  }

  lemma {:induction false} CleanupRunsNothing(w: World, s: State, keys: seq<Key>, n: nat)
    requires n <= |keys| && forall e :: e in s.log ==> !e.Ran?
    ensures forall e :: e in Cleanup(w, s, keys, n).log ==> !e.Ran?
    decreases n
  {
    hide UndoOne;
    if n > 0 {
      UndoRunsNothing(w, s, keys[n - 1]);
      CleanupRunsNothing(w, UndoOne(w, s, keys[n - 1]), keys, n - 1);
    }
  }
}
