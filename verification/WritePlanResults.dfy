/** What a plan that succeeds has done: each operation, in order, to the record it names, once. */
module WritePlanResults {
  import opened Wrappers
  import opened WritePlan
  import opened WritePlanSafety
  import opened WritePlanFlow

  // ----- what a later state keeps of an earlier one -----

  /** The rows the plan will leave: the tables, and what waits for the commit. */
  function All(s: State): Db {
    s.db + s.tx
  }

  /** Handlers write to the tables at once; the row of a confirmed creation is there. */
  ghost predicate Standing(w: World, tx: bool, s: State) {
    && (forall k :: k in s.tx ==> k.entity !in w.handlers) && (!tx ==> s.tx == map[])
    && (forall c :: c in s.choices ==> Key(c.table, s.choices[c]) in All(s) && Chosen(c, s.choices[c]) in s.log)
  }

  predicate UpdatedFrom(log: seq<Event>, n: nat, k: Key) {
    exists i :: n <= i < |log| && log[i].Updated? && log[i].key == k
  }

  /** Rows stay, as they are unless updated; results and events are only added. */
  ghost predicate Keeps(s: State, t: State) {
    && s.log <= t.log && s.results <= t.results
    && (forall k :: k in All(s) ==> k in All(t) && (All(t)[k] == All(s)[k] || UpdatedFrom(t.log, |s.log|, k)))
  }

  lemma {:induction false} KeepsOn(s: State, t: State, u: State)
    requires Keeps(s, t) && Keeps(t, u)
    ensures Keeps(s, u)
  {
    forall k | k in All(s) && All(u)[k] != All(s)[k] ensures UpdatedFrom(u.log, |s.log|, k) {
      if All(t)[k] != All(s)[k] {
        var i :| |s.log| <= i < |t.log| && t.log[i].Updated? && t.log[i].key == k;
        assert u.log[i] == t.log[i];
      }
    }
  }

  lemma {:induction false} KeepsSame(s: State, t: State)
    requires t.db == s.db && t.tx == s.tx && t.log == s.log && s.results <= t.results
    ensures Keeps(s, t)
  {
  }

  lemma {:induction false} StandingSame(w: World, tx: bool, s: State, t: State)
    requires Standing(w, tx, s) && t.db == s.db && t.tx == s.tx && t.choices == s.choices && s.log <= t.log
    ensures Standing(w, tx, t)
  {
  }

  lemma {:induction false} PutAll(w: World, tx: bool, s: State, key: Key, row: Row)
    requires Standing(w, tx, s)
    ensures var t := Put(tx, s, key.entity in w.handlers, key, row);
      All(t) == All(s)[key := row] && Standing(w, tx, t) && t == s.(db := t.db, tx := t.tx)
  {
  }

  // ----- one write -----

  /** What only an event and a row change: the rest of the state. */
  ghost predicate SameRest(s: State, t: State) {
    t == s.(db := t.db, tx := t.tx, log := t.log)
  }

  /** The fields a write is given: the generic path drops the protected ones. */
  ghost predicate Safe(w: World, entity: string, fields: Fields, safe: Fields) {
    if entity in w.handlers then safe == fields
    else safe.Keys == fields.Keys - PROTECTED && safe != map[] && forall k :: k in safe ==> safe[k] == fields[k]
  }

  /** The row its handler, or the generic path, makes of the fields; or the row that is already there. */
  ghost predicate InsertDone(w: World, s: State, t: State, entity: string, fields: Fields, r: Result) {
    var h := entity in w.handlers;
    var key := Key(entity, r.id);
    && r.kind.Insert? && r.entity == entity && r.success && r.row.Some? && key in All(t)
    && match (if h then w.handlers[entity].insert(fields, s.db) else w.genericInsert(entity, fields, All(s)))
       case InsertThrows => false
       case Finds(id) =>
         && r.id == id && r.affected == 0 && !r.deferred && All(t) == All(s) && t.log == s.log
         && key in View(s, h) && r.row.value == View(s, h)[key]
       case Inserts(id, row, deferred) =>
         && r.id == id && r.affected == 1 && r.deferred == deferred && r.row.value == row
         && key !in All(s) && All(t) == All(s)[key := row] && t.log == s.log + [Inserted(key, h)]
  }

  /** The row its handler, or the generic path, makes of a record that is there. */
  ghost predicate UpdateDone(w: World, s: State, t: State, entity: string, id: Id, fields: Fields, r: Result) {
    var h := entity in w.handlers;
    var key := Key(entity, id);
    && key in All(s) && r.row.Some? && r == Result(Update, entity, id, 1, r.row, false, true)
    && (if h then w.handlers[entity].update(id, fields, s.db) else w.genericUpdate(entity, id, fields, All(s)))
       == Updates(r.row.value)
    && All(t) == All(s)[key := r.row.value] && t.log == s.log + [Updated(key, h, r.row.value, s.recorded)]
  }

  lemma {:induction false} LogKeeps(s: State, t: State, e: Event, key: Key, row: Row)
    requires t.log == s.log + [e] && t.results == s.results && All(t) == All(s)[key := row]
    requires key !in All(s) || (e.Updated? && e.key == key)
    ensures Keeps(s, t)
  {
    assert t.log[|s.log|] == e;
  }

  lemma {:induction false} InsertStep(w: World, tx: bool, s: State, entity: string, fields: Fields)
    requires Standing(w, tx, s) && DoInsert(w, tx, s, entity, fields).Done?
    ensures var d := DoInsert(w, tx, s, entity, fields);
      Standing(w, tx, d.s) && Keeps(s, d.s) && SameRest(s, d.s) && InsertDone(w, s, d.s, entity, fields, d.value)
  {
    hide DoInsert, Standing, Keeps, InsertDone;
    var d := DoInsert(w, tx, s, entity, fields);
    InsertCases(w, tx, s, entity, fields);
    if d.s == s {
      KeepsSame(s, d.s);
    } else {
      var key, row := Key(entity, d.value.id), d.value.row.value;
      PutAll(w, tx, s, key, row);
      LogKeeps(s, d.s, Inserted(key, entity in w.handlers), key, row);
      StandingSame(w, tx, Put(tx, s, entity in w.handlers, key, row), d.s);
    }
  }

  lemma {:induction false} InsertCases(w: World, tx: bool, s: State, entity: string, fields: Fields)
    requires Standing(w, tx, s) && DoInsert(w, tx, s, entity, fields).Done?
    ensures var d := DoInsert(w, tx, s, entity, fields);
      && InsertDone(w, s, d.s, entity, fields, d.value) && SameRest(s, d.s)
      && var h, key := entity in w.handlers, Key(entity, d.value.id);
         d.s == s || (d.value.row.Some? && key !in All(s)
                      && d.s == Put(tx, s, h, key, d.value.row.value).(log := s.log + [Inserted(key, h)]))
  {
    hide Standing, Put;
    var h := entity in w.handlers;
    var seen := View(s, h);
    var effect := if h then w.handlers[entity].insert(fields, seen) else w.genericInsert(entity, fields, seen);
    if effect.Inserts? {
      var key := Key(entity, effect.id);
      PutAll(w, tx, s, key, effect.row);
      PutRest(tx, s, h, key, effect.row);
    }
  }

  lemma {:induction false} PutRest(tx: bool, s: State, h: bool, key: Key, row: Row)
    ensures var t := Put(tx, s, h, key, row); t == s.(db := t.db, tx := t.tx)
  {
  }

  lemma {:induction false} UpdateStep(w: World, tx: bool, s: State, entity: string, id: Id, fields: Fields)
    requires Standing(w, tx, s) && DoUpdate(w, tx, s, entity, id, fields).Done?
    ensures var d := DoUpdate(w, tx, s, entity, id, fields);
      Standing(w, tx, d.s) && Keeps(s, d.s) && SameRest(s, d.s) && UpdateDone(w, s, d.s, entity, id, fields, d.value)
  {
    hide Standing, Keeps;
    var d, key := DoUpdate(w, tx, s, entity, id, fields), Key(entity, id);
    var t := Put(tx, s, entity in w.handlers, key, d.value.row.value);
    PutAll(w, tx, s, key, d.value.row.value);
    LogKeeps(s, d.s, Updated(key, entity in w.handlers, d.value.row.value, s.recorded), key, d.value.row.value);
    StandingSame(w, tx, t, d.s);
  }

  /** A write is an insertion, or the update of a given record. */
  ghost predicate WriteDone(w: World, s: State, t: State, kind: Kind, entity: string, id: Option<Id>, fields: Fields,
                            r: Result) {
    exists safe :: Safe(w, entity, fields, safe) &&
                   if kind.Insert? then InsertDone(w, s, t, entity, safe, r)
                   else kind.Update? && id.Some? && UpdateDone(w, s, t, entity, id.value, safe, r)
  }

  lemma {:induction false} ExecuteStep(w: World, tx: bool, s: State, kind: Kind, entity: string, id: Option<Id>,
          fields: Fields)
    requires Standing(w, tx, s) && Execute(w, tx, s, kind, entity, id, fields).Done?
    ensures var d := Execute(w, tx, s, kind, entity, id, fields);
      && Standing(w, tx, d.s) && Keeps(s, d.s) && SameRest(s, d.s)
      && WriteDone(w, s, d.s, kind, entity, id, fields, d.value)
  {
    hide Standing, Keeps, SameRest, InsertDone, UpdateDone, DoInsert, DoUpdate;
    var safe := if entity in w.handlers then fields else map k | k in fields && k !in PROTECTED :: fields[k];
    assert Safe(w, entity, fields, safe);
    if kind.Insert? { InsertStep(w, tx, s, entity, safe); }
    if kind.Update? { UpdateStep(w, tx, s, entity, id.value, safe); }
  }

  // ----- confirmed creations -----

  /** The creation was made, or had been, and its row is there. */
  ghost predicate ChoiceStands(w: World, s: State, c: Choice) {
    exists k: ChoiceKey, id: Id :: ChosenAs(w, s, c, k, id)
  }

  predicate ChosenAs(w: World, s: State, c: Choice, k: ChoiceKey, id: Id) {
    && k.table == c.relation.table && k.title == w.labelKey(c.title)
    && Chosen(k, id) in s.log && Key(k.table, id) in All(s)
  }

  lemma {:induction false} ChoiceLater(w: World, s: State, t: State, c: Choice)
    requires ChoiceStands(w, s, c) && Keeps(s, t)
    ensures ChoiceStands(w, t, c)
  {
    var k: ChoiceKey, id: Id :| ChosenAs(w, s, c, k, id);
    assert ChosenAs(w, t, c, k, id);
  }

  lemma {:induction false} ChoiceThere(w: World, tx: bool, s: State, c: Choice, k: ChoiceKey)
    requires Standing(w, tx, s) && k in s.choices && k.table == c.relation.table && k.title == w.labelKey(c.title)
    ensures ChoiceStands(w, s, c)
  {
    assert ChosenAs(w, s, c, k, s.choices[k]);
  }

  /** Later operations can refer to each row created from event `n` on, under a name of its own. */
  ghost predicate MadeKnown(w: World, s: State, n: nat, made: seq<Produced>) {
    forall i :: n <= i < |s.log| && s.log[i].Chosen? ==> Referable(w, s.log[i].choice, s.log[i].id, made)
  }

  ghost predicate Referable(w: World, choice: ChoiceKey, id: Id, made: seq<Produced>) {
    exists p :: p in made && p.temp == Some(w.autoName(choice.table, id)) && p.entity == choice.table && p.id == id
  }

  lemma {:induction false} KnownStays(w: World, s: State, t: State, n: nat, made: seq<Produced>, more: seq<Produced>)
    requires MadeKnown(w, s, n, made) && made <= more && s.log <= t.log
    requires forall i :: |s.log| <= i < |t.log| && t.log[i].Chosen? ==> Referable(w, t.log[i].choice, t.log[i].id, more)
    ensures MadeKnown(w, t, n, more)
  {
    forall i | n <= i < |s.log| && t.log[i].Chosen? ensures Referable(w, t.log[i].choice, t.log[i].id, more) {
      assert t.log[i] == s.log[i];
      var p :| p in made && p.temp == Some(w.autoName(s.log[i].choice.table, s.log[i].id))
        && p.entity == s.log[i].choice.table && p.id == s.log[i].id;
      assert p in more;
    }
  }

  lemma {:induction false} MakeChoiceKnown(w: World, tx: bool, s: State, r: Relation, choice: ChoiceKey, title: string,
          m: Materialized)
    requires Standing(w, tx, s) && choice.table == r.table && MakeChoice(w, tx, s, r, choice, title, m).Done?
    ensures var d := MakeChoice(w, tx, s, r, choice, title, m);
      && s.log <= d.s.log && m.made <= d.value.made
      && forall i :: |s.log| <= i < |d.s.log| && d.s.log[i].Chosen? ==>
           Referable(w, d.s.log[i].choice, d.s.log[i].id, d.value.made)
  {
    hide DoInsert, Standing, Keeps;
    var fields := w.creationFields(r.table, title, choice.extra);
    var i, d := DoInsert(w, tx, s, r.table, fields), MakeChoice(w, tx, s, r, choice, title, m);
    InsertStep(w, tx, s, r.table, fields);
    var p := Produced(Some(w.autoName(r.table, i.value.id)), r.table, i.value.id, i.value.row.value, false);
    assert d.value.made == m.made + [p] && p in d.value.made;
    assert Referable(w, choice, i.value.id, d.value.made);
  }

  lemma {:induction false} MaterializeKnown(w: World, tx: bool, s: State, n: nat, entity: string,
          choices: seq<Choice>, m: Materialized)
    requires Standing(w, tx, s) && n <= |s.log| && MadeKnown(w, s, n, m.made)
    requires Materialize(w, tx, s, entity, choices, m).Done?
    ensures var d := Materialize(w, tx, s, entity, choices, m); MadeKnown(w, d.s, n, d.value.made)
    decreases |choices|
  {
    hide MakeChoice, Standing, Keeps, MadeKnown, Referable;
    if choices != [] {
      var c := choices[0];
      var (fields, extra) := w.prepareChoice(entity, c.relation.fk, m.fields).value;
      var choice := ChoiceKey(c.relation.table, w.labelKey(c.title), extra);
      var d := MaterializeOne(w, tx, s, entity, c, m);
      if choice !in s.choices {
        MakeChoiceKnown(w, tx, s, c.relation, choice, c.title, m.(fields := fields));
      }
      KnownStays(w, s, d.s, n, m.made, d.value.made);
      MaterializeOneStep(w, tx, s, entity, c, m);
      KeepsLog(s, d.s);
      MaterializeKnown(w, tx, d.s, n, entity, choices[1..], d.value);
    }
  }

  lemma {:induction false} KeepsLog(s: State, t: State)
    requires Keeps(s, t)
    ensures s.log <= t.log
  {
  }

  /** What creations leave alone. */
  ghost predicate SamePlan(s: State, t: State) {
    && t.results == s.results && t.targeted == s.targeted && t.produced == s.produced && t.created == s.created
    && t.latest == s.latest && (forall c :: c in s.choices ==> c in t.choices)
  }

  lemma {:induction false} ChoiceAdded(w: World, tx: bool, s: State, t: State, choice: ChoiceKey, id: Id)
    requires Standing(w, tx, s) && t.db == s.db && t.tx == s.tx && t.choices == s.choices[choice := id]
    requires Key(choice.table, id) in All(s) && t.log == s.log + [Chosen(choice, id)]
    ensures Standing(w, tx, t)
  {
  }

  lemma {:induction false} MakeChoiceStep(w: World, tx: bool, s: State, r: Relation, choice: ChoiceKey, title: string,
          m: Materialized)
    requires Standing(w, tx, s) && choice.table == r.table && MakeChoice(w, tx, s, r, choice, title, m).Done?
    ensures var t := MakeChoice(w, tx, s, r, choice, title, m).s;
      Standing(w, tx, t) && Keeps(s, t) && SamePlan(s, t) && choice in t.choices
  {
    hide DoInsert, Standing, Keeps;
    var fields := w.creationFields(r.table, title, choice.extra);
    var d, t := DoInsert(w, tx, s, r.table, fields), MakeChoice(w, tx, s, r, choice, title, m).s;
    InsertStep(w, tx, s, r.table, fields);
    ChoiceAdded(w, tx, d.s, t, choice, d.value.id);
    NoteKeeps(d.s, t, Chosen(choice, d.value.id));
    KeepsOn(s, d.s, t);
  }

  lemma {:induction false} NoteKeeps(s: State, t: State, e: Event)
    requires t.db == s.db && t.tx == s.tx && t.log == s.log + [e] && t.results == s.results
    ensures Keeps(s, t)
  {
  }

  lemma {:induction false} MaterializeOneStep(w: World, tx: bool, s: State, entity: string, c: Choice,
          m: Materialized)
    requires Standing(w, tx, s) && MaterializeOne(w, tx, s, entity, c, m).Done?
    ensures var t := MaterializeOne(w, tx, s, entity, c, m).s;
      Standing(w, tx, t) && Keeps(s, t) && SamePlan(s, t) && ChoiceStands(w, t, c)
  {
    hide MakeChoice, Standing, Keeps;
    var (fields, extra) := w.prepareChoice(entity, c.relation.fk, m.fields).value;
    var choice := ChoiceKey(c.relation.table, w.labelKey(c.title), extra);
    if choice in s.choices {
      KeepsSame(s, s);
    } else {
      MakeChoiceStep(w, tx, s, c.relation, choice, c.title, m.(fields := fields));
    }
    ChoiceThere(w, tx, MaterializeOne(w, tx, s, entity, c, m).s, c, choice);
  }

  lemma {:induction false} MaterializeStep(w: World, tx: bool, s: State, entity: string, choices: seq<Choice>,
          m: Materialized)
    requires Standing(w, tx, s) && Materialize(w, tx, s, entity, choices, m).Done?
    ensures var t := Materialize(w, tx, s, entity, choices, m).s;
      && Standing(w, tx, t) && Keeps(s, t) && SamePlan(s, t)
      && forall c :: c in choices ==> ChoiceStands(w, t, c)
    decreases |choices|
  {
    hide MaterializeOne, Standing, Keeps;
    if choices == [] {
      KeepsSame(s, s);
    } else {
      var d := MaterializeOne(w, tx, s, entity, choices[0], m);
      var t := Materialize(w, tx, d.s, entity, choices[1..], d.value).s;
      MaterializeOneStep(w, tx, s, entity, choices[0], m);
      MaterializeStep(w, tx, d.s, entity, choices[1..], d.value);
      KeepsOn(s, d.s, t);
      ChoiceLater(w, d.s, t, choices[0]);
      assert choices == [choices[0]] + choices[1..];
    }
  }

  // ----- what an operation leaves -----

  /** The result of a write of one record, and what later operations can use of it. */
  ghost predicate OneDone(w: World, s: State, t: State, op: Operation, id: Option<Id>, m: Materialized, r: Result) {
    && t.results == s.results + [r] && WriteDone(w, s, t, op.kind, op.entity, id, m.fields, r) && r.row.Some?
    && t.produced == s.produced + [Produced(op.tempId, op.entity, r.id, r.row.value, true)] + m.made
  }

  lemma {:induction false} ProduceAllAdds(s: State, ps: seq<Produced>)
    ensures ProduceAll(s, ps).produced == s.produced + ps
    decreases |ps|
  {
    if ps == [] {
      assert s.produced + ps == s.produced;
    } else {
      ProduceAllAdds(Produce(s, ps[0]), ps[1..]);
      assert s.produced + [ps[0]] + ps[1..] == s.produced + ps;
    }
  }

  lemma {:induction false} RememberStep(w: World, tx: bool, s: State, op: Operation, r: Result, made: seq<Produced>)
    requires Standing(w, tx, s) && r.row.Some?
    ensures var t := Remember(w, s, op, r, made);
      && Standing(w, tx, t) && Keeps(s, t) && All(t) == All(s) && t.results == s.results + [r] && t.log == s.log
      && t.produced == s.produced + [Produced(op.tempId, op.entity, r.id, r.row.value, true)] + made
  {
    hide Standing, Keeps, ProduceAll, Note;
    var noted := Note(w, s, op, r);
    NoteStep(w, s, op, r);
    ProduceAllSame(noted, made);
    ProduceAllAdds(noted, made);
    var t := Remember(w, s, op, r, made);
    StandingSame(w, tx, s, t);
    KeepsSame(s, t);
  }

  lemma {:induction false} NoteStep(w: World, s: State, op: Operation, r: Result)
    requires r.row.Some?
    ensures var t := Note(w, s, op, r);
      && t == s.(results := s.results + [r], recorded := t.recorded, created := t.created, latest := t.latest,
                 produced := s.produced + [Produced(op.tempId, op.entity, r.id, r.row.value, true)])
  {
  }

  lemma {:induction false} DoneLater(w: World, s: State, s1: State, t: State, u: State, kind: Kind, entity: string,
          id: Option<Id>, fields: Fields, r: Result)
    requires WriteDone(w, s1, t, kind, entity, id, fields, r)
    requires s1.db == s.db && s1.tx == s.tx && s1.log == s.log && s1.recorded == s.recorded
    requires All(u) == All(t) && u.log == t.log
    ensures WriteDone(w, s, u, kind, entity, id, fields, r) && r.row.Some?
  {
    hide Safe, InsertDone, UpdateDone;
    var safe :| Safe(w, entity, fields, safe) &&
      if kind.Insert? then InsertDone(w, s1, t, entity, safe, r)
      else kind.Update? && id.Some? && UpdateDone(w, s1, t, entity, id.value, safe, r);
    if kind.Insert? {
      InsertDoneLater(w, s, s1, t, u, entity, safe, r);
    } else {
      UpdateDoneLater(w, s, s1, t, u, entity, id.value, safe, r);
    }
  }

  lemma {:induction false} InsertDoneLater(w: World, s: State, s1: State, t: State, u: State, entity: string,
          fields: Fields, r: Result)
    requires InsertDone(w, s1, t, entity, fields, r)
    requires s1.db == s.db && s1.tx == s.tx && s1.log == s.log && All(u) == All(t) && u.log == t.log
    ensures InsertDone(w, s, u, entity, fields, r) && r.row.Some?
  {
  }

  lemma {:induction false} UpdateDoneLater(w: World, s: State, s1: State, t: State, u: State, entity: string, id: Id,
          fields: Fields, r: Result)
    requires UpdateDone(w, s1, t, entity, id, fields, r)
    requires s1.db == s.db && s1.tx == s.tx && s1.log == s.log && s1.recorded == s.recorded
    requires All(u) == All(t) && u.log == t.log
    ensures UpdateDone(w, s, u, entity, id, fields, r) && r.row.Some?
  {
  }

  lemma {:induction false} OneStep(w: World, tx: bool, s: State, op: Operation, id: Option<Id>, m: Materialized)
    requires Standing(w, tx, s) && RunOne(w, tx, s, op, id, m).Done?
    ensures var t := RunOne(w, tx, s, op, id, m).s;
      Standing(w, tx, t) && Keeps(s, t) && exists r :: OneDone(w, s, t, op, id, m, r)
  {
    hide Standing, Keeps, Execute, WriteDone, Remember;
    var s1 := if op.kind.Update? && id.Some? then s.(targeted := s.targeted + {Key(op.entity, id.value)}) else s;
    var d, t := Execute(w, tx, s1, op.kind, op.entity, id, m.fields), RunOne(w, tx, s, op, id, m).s;
    StandingSame(w, tx, s, s1);
    KeepsSame(s, s1);
    ExecuteStep(w, tx, s1, op.kind, op.entity, id, m.fields);
    KeepsOn(s, s1, d.s);
    DoneLater(w, s, s1, d.s, d.s, op.kind, op.entity, id, m.fields, d.value);
    RememberStep(w, tx, d.s, op, d.value, m.made);
    KeepsOn(s, d.s, t);
    DoneLater(w, s, s, d.s, t, op.kind, op.entity, id, m.fields, d.value);
    assert OneDone(w, s, t, op, id, m, d.value);
  }

  /** One result for each record, in order. */
  ghost predicate EachUpdated(w: World, fields: Fields, s: State, t: State, keys: seq<Key>) {
    && |t.results| == |s.results| + |keys|
    && forall j :: 0 <= j < |keys| ==> UpdatedTo(w, fields, t, |s.results| + j, keys[j])
  }

  /** The row the handler, or the generic path, made of the fields and of the tables it saw. */
  ghost predicate MadeFrom(w: World, key: Key, fields: Fields, seen: Db, row: Row) {
    exists safe :: Safe(w, key.entity, fields, safe)
      && (if key.entity in w.handlers then w.handlers[key.entity].update(key.id, safe, seen)
          else w.genericUpdate(key.entity, key.id, safe, seen)) == Updates(row)
  }

  /** Result `k` is the update of that record, and the record has its row, unless it was updated again. */
  ghost predicate UpdatedTo(w: World, fields: Fields, t: State, k: nat, key: Key) {
    && k < |t.results| && t.results[k].row.Some?
    && t.results[k] == Result(Update, key.entity, key.id, 1, t.results[k].row, false, true)
    && (exists seen :: MadeFrom(w, key, fields, seen, t.results[k].row.value))
    && exists n: nat :: WroteAt(t, n, key, t.results[k].row.value)
  }

  /** Event `n` wrote that row, and it is the row there is, unless a later event updated it. */
  ghost predicate WroteAt(t: State, n: nat, key: Key, row: Row) {
    && n < |t.log| && t.log[n].Updated? && t.log[n].key == key && t.log[n].row == row && key in All(t)
    && (All(t)[key] == row || UpdatedFrom(t.log, n + 1, key))
  }

  lemma {:induction false} UpdatedToLater(w: World, fields: Fields, s: State, t: State, k: nat, key: Key)
    requires UpdatedTo(w, fields, s, k, key) && Keeps(s, t)
    ensures UpdatedTo(w, fields, t, k, key)
  {
    hide MadeFrom;
    var row := s.results[k].row.value;
    var n: nat :| WroteAt(s, n, key, row);
    assert t.results[k] == s.results[k] && t.log[n] == s.log[n];
    WroteLater(s, t, n, key, row);
  }

  lemma {:induction false} WroteLater(s: State, t: State, n: nat, key: Key, row: Row)
    requires WroteAt(s, n, key, row) && Keeps(s, t)
    ensures WroteAt(t, n, key, row)
  {
    assert t.log[n] == s.log[n];
    if All(t)[key] != row {
      if All(s)[key] == row {
        var i :| |s.log| <= i < |t.log| && t.log[i].Updated? && t.log[i].key == key;
      } else {
        var i :| n + 1 <= i < |s.log| && s.log[i].Updated? && s.log[i].key == key;
        assert t.log[i] == s.log[i];
      }
    }
  }

  lemma {:induction false} NowUpdated(w: World, s: State, t: State, s1: State, key: Key, fields: Fields, r: Result)
    requires WriteDone(w, s, t, Update, key.entity, Some(key.id), fields, r)
    requires s1 == t.(results := t.results + [r])
    ensures UpdatedTo(w, fields, s1, |t.results|, key)
  {
    hide Safe, MadeFrom, WroteAt;
    var safe :| Safe(w, key.entity, fields, safe) && UpdateDone(w, s, t, key.entity, key.id, safe, r);
    NowWrote(w, s, t, s1, key, safe, r);
    NowMade(w, s, t, key, fields, safe, r);
  }

  lemma {:induction false} NowWrote(w: World, s: State, t: State, s1: State, key: Key, safe: Fields, r: Result)
    requires UpdateDone(w, s, t, key.entity, key.id, safe, r) && s1.db == t.db && s1.tx == t.tx && s1.log == t.log
    ensures WroteAt(s1, |s.log|, key, r.row.value)
  {
  }

  lemma {:induction false} NowMade(w: World, s: State, t: State, key: Key, fields: Fields, safe: Fields, r: Result)
    requires Safe(w, key.entity, fields, safe) && UpdateDone(w, s, t, key.entity, key.id, safe, r)
    ensures MadeFrom(w, key, fields, if key.entity in w.handlers then s.db else All(s), r.row.value)
  {
    hide Safe;
  }

  lemma {:induction false} EachOneMore(w: World, fields: Fields, s: State, s1: State, t: State, key: Key,
          rest: seq<Key>)
    requires |s1.results| == |s.results| + 1 && UpdatedTo(w, fields, s1, |s.results|, key) && Keeps(s1, t)
    requires EachUpdated(w, fields, s1, t, rest)
    ensures EachUpdated(w, fields, s, t, [key] + rest)
  {
    hide UpdatedTo, Keeps;
    UpdatedToLater(w, fields, s1, t, |s.results|, key);
    forall j | 0 <= j < |rest| + 1 ensures UpdatedTo(w, fields, t, |s.results| + j, ([key] + rest)[j]) {
      if j > 0 { assert UpdatedTo(w, fields, t, |s1.results| + (j - 1), rest[j - 1]); }
    }
  }

  lemma {:induction false} BulkDone(w: World, tx: bool, s: State, entity: string, fields: Fields, ids: seq<Id>)
    requires Standing(w, tx, s) && BulkUpdate(w, tx, s, entity, fields, ids).Done?
    ensures var t := BulkUpdate(w, tx, s, entity, fields, ids).s;
      Standing(w, tx, t) && Keeps(s, t) && EachUpdated(w, fields, s, t, Fresh(entity, ids, s.targeted))
    decreases |ids|
  {
    hide Standing, Keeps, Execute, WriteDone, UpdatedTo, EachUpdated, SameRest;
    FreshStep(entity, ids, s.targeted);
    if ids == [] {
      KeepsSame(s, s);
      NoneUpdatedHere(w, fields, s);
    } else {
      hide Fresh;
      var key := Key(entity, ids[0]);
      if key in s.targeted {
        BulkDone(w, tx, s, entity, fields, ids[1..]);
      } else {
        var s0 := s.(targeted := s.targeted + {key});
        var d := Execute(w, tx, s0, Update, entity, Some(ids[0]), fields);
        var s1 := d.s.(results := d.s.results + [d.value]);
        StandingSame(w, tx, s, s0);
        KeepsSame(s, s0);
        ExecuteStep(w, tx, s0, Update, entity, Some(ids[0]), fields);
        UpdateLeaves(w, s0, d.s);
        KeepsOn(s, s0, d.s);
        StandingSame(w, tx, d.s, s1);
        KeepsSame(d.s, s1);
        KeepsOn(s, d.s, s1);
        NowUpdated(w, s0, d.s, s1, key, fields, d.value);
        var t := BulkUpdate(w, tx, s1, entity, fields, ids[1..]).s;
        BulkDone(w, tx, s1, entity, fields, ids[1..]);
        KeepsOn(s, s1, t);
        EachOneMore(w, fields, s, s1, t, key, Fresh(entity, ids[1..], s.targeted + {key}));
      }
    }
  }

  lemma {:induction false} UpdateLeaves(w: World, s: State, t: State)
    requires SameRest(s, t)
    ensures t.results == s.results && t.targeted == s.targeted
  {
  }

  lemma {:induction false} NoneUpdatedHere(w: World, fields: Fields, s: State)
    ensures EachUpdated(w, fields, s, s, [])
  {
  }

  // ----- what an operation has done -----

  /** The fields of an operation: its references filled, and the keys it lacks taken from the plan. */
  function FieldsOf(w: World, s: State, op: Operation): Fields {
    AutoInject(w, op, Resolve(w, op.fields, s.created), s.latest)
  }

  /** The record an action is for: the one given, the one that matches, or the last one of the plan in its table. */
  function Pointed(w: World, s: State, op: Operation, table: string): Option<Id> {
    if op.entityId.Some? then op.entityId
    else if op.criteria.Some? then w.oneTarget(table, op.criteria.value, {}, s.db)
    else
      var last := LastOf(s.produced, table);
      if last.Some? then Some(last.value.id) else None
  }

  /** An action adds its result, to run later, and nothing else. */
  ghost predicate ActionDone(w: World, s: State, t: State, op: Operation) {
    var table := w.actionTable(op.action, op.entity);
    && table.Some? && Pointed(w, s, op, table.value).Some?
    && var id := Pointed(w, s, op, table.value).value;
       w.prepare(op.action, id, FieldsOf(w, s, op))
       && t == s.(results := s.results + [Result(Action, table.value, id, 0, None, true, true)])
  }

  predicate Bulk(op: Operation) {
    op.kind.Update? && op.entityId.None? && op.criteria.Some? && op.all
  }

  /** The record a write is for: the one that matches when it is searched for, or the one given. */
  function Target(w: World, s: State, op: Operation): Option<Id> {
    if op.kind.Update? && op.entityId.None? && op.criteria.Some?
    then w.oneTarget(op.entity, op.criteria.value, s.targeted, s.db) else op.entityId
  }

  /** The state once the confirmed creations of the operation are made, and its fields linked to them. */
  function Made(w: World, tx: bool, s: State, op: Operation): Step<Materialized> {
    var fields := FieldsOf(w, s, op);
    Materialize(w, tx, s, op.entity, Choices(fields, Relations(w, op.entity)), Materialized(fields, []))
  }

  ghost predicate WritesDone(w: World, tx: bool, s: State, t: State, op: Operation) {
    var made := Made(w, tx, s, op);
    && made.Done? && made.s.results == s.results && made.s.targeted == s.targeted
    && (forall c :: c in Choices(FieldsOf(w, s, op), Relations(w, op.entity)) ==> ChoiceStands(w, t, c))
    && MadeKnown(w, made.s, |s.log|, made.value.made)
    && (if Bulk(op) then
          var ids := w.allTargets(op.entity, op.criteria.value, made.s.db);
          ids.Some? && EachUpdated(w, made.value.fields, s, t, Fresh(op.entity, ids.value, s.targeted))
        else exists r :: OneDone(w, made.s, t, op, Target(w, made.s, op), made.value, r))
  }

  ghost predicate OperationDone(w: World, tx: bool, s: State, t: State, op: Operation) {
    if op.kind.Action? then ActionDone(w, s, t, op)
    else (op.kind.Insert? || op.kind.Update?) && WritesDone(w, tx, s, t, op)
  }

  lemma {:induction false} WriteStep(w: World, tx: bool, s: State, s1: State, op: Operation, m: Materialized)
    requires Standing(w, tx, s1) && s1.results == s.results && s1.targeted == s.targeted
    requires RunWrite(w, tx, s1, op, m).Done?
    ensures var t := RunWrite(w, tx, s1, op, m).s;
      && Standing(w, tx, t) && Keeps(s1, t)
      && (if Bulk(op) then
            var ids := w.allTargets(op.entity, op.criteria.value, s1.db);
            ids.Some? && EachUpdated(w, m.fields, s, t, Fresh(op.entity, ids.value, s.targeted))
          else exists r :: OneDone(w, s1, t, op, Target(w, s1, op), m, r))
  {
    hide Standing, Keeps, RunOne, BulkUpdate, OneDone, Fresh, UpdatedTo;
    if Bulk(op) {
      BulkDone(w, tx, s1, op.entity, m.fields, w.allTargets(op.entity, op.criteria.value, s1.db).value);
    } else {
      OneStep(w, tx, s1, op, Target(w, s1, op), m);
    }
  }

  lemma {:induction false} ActionStep(w: World, tx: bool, s: State, op: Operation)
    requires Flow(s) && op.kind.Action? && RunOperation(w, tx, s, op).Done?
    ensures ActionDone(w, s, RunOperation(w, tx, s, op).s, op)
  {
    hide ChoicesMadeOnce, UpdatesTargeted, LastOf, AutoInject, Resolve;
    var table := w.actionTable(op.action, op.entity).value;
    assert Latest(s.latest, table) == LastOf(s.produced, table);
  }

  lemma {:induction false} OneKind(w: World, s: State, t: State, op: Operation, id: Option<Id>, m: Materialized)
    requires exists r :: OneDone(w, s, t, op, id, m, r)
    ensures op.kind.Insert? || op.kind.Update?
  {
  }

  lemma {:induction false} OperationStep(w: World, tx: bool, s: State, op: Operation)
    requires Standing(w, tx, s) && Flow(s) && RunOperation(w, tx, s, op).Done?
    ensures var t := RunOperation(w, tx, s, op).s;
      Standing(w, tx, t) && Keeps(s, t) && OperationDone(w, tx, s, t, op)
  {
    hide Standing, Keeps, Flow, ActionDone, Materialize, RunWrite, OneDone, EachUpdated, ChoiceStands, FieldsOf, Target;
    hide MadeKnown, Choices;
    var t := RunOperation(w, tx, s, op).s;
    if op.kind.Action? {
      ActionStep(w, tx, s, op);
      ActionKeeps(w, tx, s, t, op);
    } else {
      var made := Made(w, tx, s, op);
      FieldsAre(w, s, op);
      MaterializeStep(w, tx, s, op.entity, Choices(FieldsOf(w, s, op), Relations(w, op.entity)),
                      Materialized(FieldsOf(w, s, op), []));
      MaterializeKnown(w, tx, s, |s.log|, op.entity, Choices(FieldsOf(w, s, op), Relations(w, op.entity)),
                       Materialized(FieldsOf(w, s, op), [])) by { NoneMade(w, s); }
      WriteStep(w, tx, s, made.s, op, made.value);
      KeepsOn(s, made.s, t);
      forall c | c in Choices(FieldsOf(w, s, op), Relations(w, op.entity)) ensures ChoiceStands(w, t, c) {
        ChoiceLater(w, made.s, t, c);
      }
      if !Bulk(op) { OneKind(w, made.s, t, op, Target(w, made.s, op), made.value); }
    }
  }

  lemma {:induction false} NoneMade(w: World, s: State)
    ensures MadeKnown(w, s, |s.log|, [])
  {
  }

  lemma {:induction false} FieldsAre(w: World, s: State, op: Operation)
    ensures FieldsOf(w, s, op) == AutoInject(w, op, Resolve(w, op.fields, s.created), s.latest)
  {
  }

  lemma {:induction false} ActionKeeps(w: World, tx: bool, s: State, t: State, op: Operation)
    requires Standing(w, tx, s) && ActionDone(w, s, t, op)
    ensures Standing(w, tx, t) && Keeps(s, t)
  {
    hide Standing, Keeps;
    StandingSame(w, tx, s, t);
    KeepsSame(s, t);
  }

  // ----- over a whole plan -----

  /** The run just before operation `i`. */
  function Before(w: World, db: Db, plan: Plan, i: nat): State
    requires i <= |plan.operations|
  {
    RunOperations(w, plan.transaction, Init(db), plan.operations[..i]).s
  }

  lemma {:induction false} RunSplit(w: World, tx: bool, s: State, a: seq<Operation>, b: seq<Operation>)
    requires RunOperations(w, tx, s, a + b).Done?
    ensures RunOperations(w, tx, s, a).Done?
    ensures RunOperations(w, tx, s, a + b) == RunOperations(w, tx, RunOperations(w, tx, s, a).s, b)
    decreases |a|
  {
    hide RunOperation;
    if a == [] {
      assert a + b == b;
    } else {
      assert (a + b)[0] == a[0] && (a + b)[1..] == a[1..] + b;
      RunSplit(w, tx, RunOperation(w, tx, s, a[0]).s, a[1..], b);
    }
  }

  lemma {:induction false} RunOneOperation(w: World, tx: bool, s: State, op: Operation)
    requires RunOperations(w, tx, s, [op]).Done?
    ensures RunOperation(w, tx, s, op).Done? && RunOperations(w, tx, s, [op]).s == RunOperation(w, tx, s, op).s
  {
    hide RunOperation;
    assert [op][1..] == [];
  }

  lemma {:induction false} RunsKeep(w: World, tx: bool, s: State, ops: seq<Operation>)
    requires Standing(w, tx, s) && Flow(s) && RunOperations(w, tx, s, ops).Done?
    ensures var t := RunOperations(w, tx, s, ops).s; Standing(w, tx, t) && Keeps(s, t)
    decreases |ops|
  {
    hide Standing, Keeps, Flow, RunOperation, Continues, OperationDone;
    if ops == [] {
      KeepsSame(s, s);
    } else {
      var t := RunOperation(w, tx, s, ops[0]).s;
      OperationStep(w, tx, s, ops[0]);
      OperationFlow(w, tx, s, ops[0]);
      RunsKeep(w, tx, t, ops[1..]);
      KeepsOn(s, t, RunOperations(w, tx, t, ops[1..]).s);
    }
  }

  lemma {:induction false} StartStands(w: World, tx: bool, db: Db)
    ensures Standing(w, tx, Init(db))
  {
  }

  /** Operation `i` of a plan that succeeds did what it says, and the operations after it keep that. */
  lemma {:induction false} OperationOfPlan(w: World, db: Db, plan: Plan, i: nat)
    requires i < |plan.operations| && ExecutePlan(w, db, plan).Done?
    ensures var s, t := Before(w, db, plan, i), Before(w, db, plan, i + 1);
      && OperationDone(w, plan.transaction, s, t, plan.operations[i]) && Keeps(s, t)
      && Keeps(t, AtFailure(w, db, plan)) && Standing(w, plan.transaction, s) && Flow(s)
  {
    hide Standing, Keeps, Flow, RunOperation, RunOperations, OperationDone, Continues, Finish, Abort;
    var tx, ops, start := plan.transaction, plan.operations, Init(db);
    var a, b := ops[..i], ops[i + 1..];
    assert ops == a + ([ops[i]] + b) && ops == (a + [ops[i]]) + b && ops[..i + 1] == a + [ops[i]];
    RunSplit(w, tx, start, a, [ops[i]] + b);
    RunSplit(w, tx, start, a + [ops[i]], b);
    RunSplit(w, tx, start, a, [ops[i]]);
    var s, t := Before(w, db, plan, i), Before(w, db, plan, i + 1);
    RunOneOperation(w, tx, s, ops[i]);
    StartStands(w, tx, db);
    StartFlow(db);
    RunsKeep(w, tx, start, a);
    RunFlow(w, tx, start, a);
    OperationStep(w, tx, s, ops[i]);
    OperationFlow(w, tx, s, ops[i]);
    RunsKeep(w, tx, t, b);
  }

  function Times(log: seq<Event>, e: Event): nat {
    multiset(log)[e]
  }

  lemma {:induction false} RanTimes(results: seq<Result>, i: nat, k: nat)
    requires i <= |results| && k < |results|
    ensures Times(RanInOrder(results, i), Ran(k)) == if k >= i && results[k].deferred then 1 else 0
    decreases |results| - i
  {
    hide RanInOrder, Times;
    RanStep(results, i);
    if i < |results| {
      var first := if results[i].deferred then [Ran(i)] else [];
      RanTimes(results, i + 1, k);
      TimesAdd(first, RanInOrder(results, i + 1), Ran(k));
      RanOnce(i, k, results[i].deferred);
    } else {
      NoTimes(Ran(k));
    }
  }

  lemma {:induction false} TimesAdd(a: seq<Event>, b: seq<Event>, e: Event)
    ensures Times(a + b, e) == Times(a, e) + Times(b, e)
  {
  }

  lemma {:induction false} NoTimes(e: Event)
    ensures Times([], e) == 0
  {
  }

  lemma {:induction false} RanOnce(i: nat, k: nat, deferred: bool)
    ensures Times(if deferred then [Ran(i)] else [], Ran(k)) == if deferred && i == k then 1 else 0
  {
  }

  /** What a result of a plan that succeeds becomes: its deferred action runs once, and is noted. */
  lemma {:induction false} ResultOfPlan(w: World, db: Db, plan: Plan, k: nat)
    requires Sound(db) && ExecutePlan(w, db, plan).Done? && k < |AtFailure(w, db, plan).results|
    ensures var f, r := ExecutePlan(w, db, plan).s, AtFailure(w, db, plan).results[k];
      && |f.results| == |AtFailure(w, db, plan).results| && f.results[k] == WritePlanSafety.Reported(w, r)
      && Times(f.log, Ran(k)) == (if r.deferred then 1 else 0) && f.db == All(AtFailure(w, db, plan))
  {
    hide RunOperations, RunDeferred, RanInOrder, WritePlanSafety.Reported, Finish, Abort;
    ActionsRunAfterCommit(w, db, plan);
    var s := AtFailure(w, db, plan);
    RanTimes(s.results, 0, k);
    assert Ran(k) !in s.log;
  }

  /** Where the results of operation `i` begin. */
  function Place(w: World, db: Db, plan: Plan, i: nat): nat
    requires i <= |plan.operations|
  {
    |Before(w, db, plan, i).results|
  }

  /**
   In a plan that succeeds each ACTION has a result in its place: on the record given, the one that matches, or
   the last one of the plan in its table; it ran exactly once, and reports how it ended.
   */
  lemma {:induction false} ActionsAreRun(w: World, db: Db, plan: Plan, i: nat)
    requires Sound(db) && ExecutePlan(w, db, plan).Done? && i < |plan.operations| && plan.operations[i].kind.Action?
    ensures var s, f, k, op := Before(w, db, plan, i), ExecutePlan(w, db, plan).s, Place(w, db, plan, i),
        plan.operations[i];
      var table := w.actionTable(op.action, op.entity);
      && Place(w, db, plan, i + 1) == k + 1 && k < |f.results| && Times(f.log, Ran(k)) == 1
      && table.Some? && f.results[k].kind.Action? && f.results[k].entity == table.value
      && Pointed(w, s, op, table.value) == Some(f.results[k].id)
      && w.prepare(op.action, f.results[k].id, FieldsOf(w, s, op))
      && f.results[k].success == w.runs(Result(Action, table.value, f.results[k].id, 0, None, false, true))
  {
    hide RunOperations, ExecutePlan, RunOperation, Pointed, FieldsOf, Standing, Flow, LastOf;
    var k := Place(w, db, plan, i);
    OperationOfPlan(w, db, plan, i);
    assert AtFailure(w, db, plan).results[k] == Before(w, db, plan, i + 1).results[k];
    ResultOfPlan(w, db, plan, k);
  }

  /** The result of a write of one record, in its place, and what is in the tables at the end. */
  lemma {:induction false} OneOfPlan(w: World, db: Db, plan: Plan, i: nat) returns (r: Result)
    requires Sound(db) && ExecutePlan(w, db, plan).Done? && i < |plan.operations|
    requires !plan.operations[i].kind.Action? && !Bulk(plan.operations[i])
    ensures var s, f, k, op := Before(w, db, plan, i), ExecutePlan(w, db, plan).s, Place(w, db, plan, i),
        plan.operations[i];
      var made, t := Made(w, plan.transaction, s, op), Before(w, db, plan, i + 1);
      && made.Done? && OneDone(w, made.s, t, op, Target(w, made.s, op), made.value, r)
      && MadeKnown(w, made.s, |s.log|, made.value.made)
      && Place(w, db, plan, i + 1) == k + 1 && k < |f.results| && f.results[k] == r.(deferred := false)
      && Times(f.log, Ran(k)) == (if r.deferred then 1 else 0)
      && Keeps(t, AtFailure(w, db, plan)) && f.db == All(AtFailure(w, db, plan))
  {
    hide RunOperations, ExecutePlan, RunOperation, Made, Target, Standing, Flow, WriteDone, EachUpdated, ChoiceStands;
    var s, k, op := Before(w, db, plan, i), Place(w, db, plan, i), plan.operations[i];
    var made, t := Made(w, plan.transaction, s, op), Before(w, db, plan, i + 1);
    OperationOfPlan(w, db, plan, i);
    r :| OneDone(w, made.s, t, op, Target(w, made.s, op), made.value, r);
    assert AtFailure(w, db, plan).results[k] == t.results[k] == r;
    OneSucceeds(w, made.s, t, op, Target(w, made.s, op), made.value, r);
    ResultOfPlan(w, db, plan, k);
  }

  lemma {:induction false} OneSucceeds(w: World, s: State, t: State, op: Operation, id: Option<Id>, m: Materialized,
          r: Result)
    requires OneDone(w, s, t, op, id, m, r)
    ensures r.success && !r.kind.Action?
  {
  }

  /** The final row of a record: the one written, unless an event from `n` on updated it. */
  ghost predicate EndsAs(f: State, key: Key, row: Row, n: nat) {
    key in f.db && (f.db[key] == row || UpdatedFrom(f.log, n, key))
  }

  /**
   Each INSERT has one result, in its place, for a row that is in the tables at the end: the one its handler, or
   the generic path, made of its fields, unless it was updated later, or one that was there. What the handler put
   off ran exactly once, and nothing else did; what later operations can use of it is that row.
   */
  lemma {:induction false} InsertsAreDone(w: World, db: Db, plan: Plan, i: nat) returns (safe: Fields)
    requires Sound(db) && ExecutePlan(w, db, plan).Done? && i < |plan.operations| && plan.operations[i].kind.Insert?
    ensures var s, f, k, op := Before(w, db, plan, i), ExecutePlan(w, db, plan).s, Place(w, db, plan, i),
        plan.operations[i];
      var made, t, h := Made(w, plan.transaction, s, op), Before(w, db, plan, i + 1), op.entity in w.handlers;
      && made.Done? && Safe(w, op.entity, made.value.fields, safe)
      && MadeKnown(w, made.s, |s.log|, made.value.made)
      && Place(w, db, plan, i + 1) == k + 1 && k < |f.results|
      && f.results[k].kind.Insert? && f.results[k].entity == op.entity && f.results[k].row.Some?
      && t.produced == made.s.produced + [Produced(op.tempId, op.entity, f.results[k].id, f.results[k].row.value, true)]
                       + made.value.made
      && match (if h then w.handlers[op.entity].insert(safe, made.s.db)
                else w.genericInsert(op.entity, safe, All(made.s)))
         case InsertThrows => false
         case Finds(id) =>
           && f.results[k].id == id && f.results[k].affected == 0 && Times(f.log, Ran(k)) == 0
           && Key(op.entity, id) in f.db
         case Inserts(id, row, deferred) =>
           && f.results[k].id == id && f.results[k].affected == 1 && f.results[k].row.value == row
           && Key(op.entity, id) !in All(made.s) && EndsAs(f, Key(op.entity, id), row, |t.log|)
           && Times(f.log, Ran(k)) == if deferred then 1 else 0
  {
    hide RunOperations, ExecutePlan, RunOperation, Made, Target, Safe, Materialize;
    var r := OneOfPlan(w, db, plan, i);
    var op, t := plan.operations[i], Before(w, db, plan, i + 1);
    var made := Made(w, plan.transaction, Before(w, db, plan, i), op);
    safe :| Safe(w, op.entity, made.value.fields, safe) && InsertDone(w, made.s, t, op.entity, safe, r);
    LogOfPlan(w, db, plan);
    RowEnds(AtFailure(w, db, plan), ExecutePlan(w, db, plan).s, t, Key(op.entity, r.id));
  }

  lemma {:induction false} LogOfPlan(w: World, db: Db, plan: Plan)
    requires Sound(db) && ExecutePlan(w, db, plan).Done?
    ensures AtFailure(w, db, plan).log <= ExecutePlan(w, db, plan).s.log
    ensures ExecutePlan(w, db, plan).s.db == All(AtFailure(w, db, plan))
  {
    hide RunOperations, RunDeferred, RanInOrder, WritePlanSafety.Reported;
    ActionsRunAfterCommit(w, db, plan);
  }

  lemma {:induction false} RowEnds(s: State, f: State, t: State, key: Key)
    requires Keeps(t, s) && s.log <= f.log && f.db == All(s) && key in All(t)
    ensures EndsAs(f, key, All(t)[key], |t.log|)
  {
    if f.db[key] != All(t)[key] {
      var i :| |t.log| <= i < |s.log| && s.log[i].Updated? && s.log[i].key == key;
      assert f.log[i] == s.log[i];
    }
  }

  /**
   Each UPDATE of one record has one result, in its place, on the record given or the one that matches; that
   record has at the end the row its handler, or the generic path, made of the fields, unless it was updated later.
   */
  lemma {:induction false} UpdatesAreDone(w: World, db: Db, plan: Plan, i: nat) returns (safe: Fields)
    requires Sound(db) && ExecutePlan(w, db, plan).Done? && i < |plan.operations|
    requires plan.operations[i].kind.Update? && !Bulk(plan.operations[i])
    ensures var s, f, k, op := Before(w, db, plan, i), ExecutePlan(w, db, plan).s, Place(w, db, plan, i),
        plan.operations[i];
      var made, t := Made(w, plan.transaction, s, op), Before(w, db, plan, i + 1);
      && made.Done? && Safe(w, op.entity, made.value.fields, safe)
      && Place(w, db, plan, i + 1) == k + 1 && k < |f.results| && f.results[k].row.Some?
      && f.results[k] == Result(Update, op.entity, f.results[k].id, 1, f.results[k].row, false, true)
      && Target(w, made.s, op) == Some(f.results[k].id)
      && (if op.entity in w.handlers then w.handlers[op.entity].update(f.results[k].id, safe, made.s.db)
          else w.genericUpdate(op.entity, f.results[k].id, safe, All(made.s))) == Updates(f.results[k].row.value)
      && EndsAs(f, Key(op.entity, f.results[k].id), f.results[k].row.value, |t.log|)
  {
    hide RunOperations, ExecutePlan, RunOperation, Made, Target, Safe, Materialize;
    var r := OneOfPlan(w, db, plan, i);
    var op, t := plan.operations[i], Before(w, db, plan, i + 1);
    var made := Made(w, plan.transaction, Before(w, db, plan, i), op);
    safe :| Safe(w, op.entity, made.value.fields, safe)
            && UpdateDone(w, made.s, t, op.entity, Target(w, made.s, op).value, safe, r);
    LogOfPlan(w, db, plan);
    RowEnds(AtFailure(w, db, plan), ExecutePlan(w, db, plan).s, t, Key(op.entity, r.id));
  }

  /** Event `n` wrote the row, and the record ends with it, unless it was updated later. */
  ghost predicate Written(f: State, n: nat, key: Key, row: Row) {
    n < |f.log| && f.log[n].Updated? && f.log[n].key == key && f.log[n].row == row && EndsAs(f, key, row, n + 1)
  }

  /** Result `k` is the update of that record, with a row made of the fields; it ends with it unless updated later. */
  ghost predicate Reports(w: World, fields: Fields, f: State, k: nat, key: Key) {
    && k < |f.results| && f.results[k].row.Some?
    && f.results[k] == Result(Update, key.entity, key.id, 1, f.results[k].row, false, true)
    && (exists seen :: MadeFrom(w, key, fields, seen, f.results[k].row.value))
    && exists n: nat :: Written(f, n, key, f.results[k].row.value)
  }

  lemma {:induction false} ReportedUpdate(w: World, fields: Fields, db: Db, plan: Plan, k: nat, key: Key)
    requires Sound(db) && ExecutePlan(w, db, plan).Done? && UpdatedTo(w, fields, AtFailure(w, db, plan), k, key)
    ensures Reports(w, fields, ExecutePlan(w, db, plan).s, k, key)
  {
    hide RunOperations, ExecutePlan, MadeFrom, UpdatedFrom;
    var s, f := AtFailure(w, db, plan), ExecutePlan(w, db, plan).s;
    ResultOfPlan(w, db, plan, k);
    LogOfPlan(w, db, plan);
    var row := s.results[k].row.value;
    var n: nat :| WroteAt(s, n, key, row);
    assert f.log[n] == s.log[n];
    if f.db[key] != row { LaterUpdate(s.log, f.log, n + 1, key); }
    assert Written(f, n, key, row);
  }

  lemma {:induction false} LaterUpdate(a: seq<Event>, b: seq<Event>, n: nat, key: Key)
    requires a <= b && UpdatedFrom(a, n, key)
    ensures UpdatedFrom(b, n, key)
  {
    var i :| n <= i < |a| && a[i].Updated? && a[i].key == key;
    assert b[i] == a[i];
  }

  /** A bulk UPDATE has a result for each matching record no earlier one targeted, in order, with its row. */
  lemma {:induction false} BulkUpdatesAreDone(w: World, db: Db, plan: Plan, i: nat)
    requires Sound(db) && ExecutePlan(w, db, plan).Done? && i < |plan.operations| && Bulk(plan.operations[i])
    ensures var s, f, k, op := Before(w, db, plan, i), ExecutePlan(w, db, plan).s, Place(w, db, plan, i),
        plan.operations[i];
      var made := Made(w, plan.transaction, s, op);
      made.Done? && (var ids := w.allTargets(op.entity, op.criteria.value, made.s.db);
                     ids.Some? && (var keys := Fresh(op.entity, ids.value, s.targeted);
                                   && Place(w, db, plan, i + 1) == k + |keys|
                                   && forall j :: 0 <= j < |keys| ==> Reports(w, made.value.fields, f, k + j, keys[j])))
  {
    hide RunOperations, ExecutePlan, RunOperation, Made, Standing, Flow, Fresh, UpdatedTo, Reports;
    var s, t, op, k := Before(w, db, plan, i), Before(w, db, plan, i + 1), plan.operations[i], Place(w, db, plan, i);
    OperationOfPlan(w, db, plan, i);
    var made := Made(w, plan.transaction, s, op);
    var keys := Fresh(op.entity, w.allTargets(op.entity, op.criteria.value, made.s.db).value, s.targeted);
    forall j | 0 <= j < |keys|
      ensures Reports(w, made.value.fields, ExecutePlan(w, db, plan).s, k + j, keys[j])
    {
      assert UpdatedTo(w, made.value.fields, t, |s.results| + j, keys[j]);
      UpdatedToLater(w, made.value.fields, t, AtFailure(w, db, plan), k + j, keys[j]);
      ReportedUpdate(w, made.value.fields, db, plan, k + j, keys[j]);
    }
  }

  lemma {:induction false} ChosenFor(w: World, s: State, c: Choice) returns (choice: ChoiceKey, id: Id)
    requires ChoiceStands(w, s, c)
    ensures ChosenAs(w, s, c, choice, id)
  {
    hide ChosenAs;
    choice, id :| ChosenAs(w, s, c, choice, id);
  }

  /** Every creation an operation asks for was made, and its row is in the tables at the end. */
  lemma {:induction false} ChoicesAreMade(w: World, db: Db, plan: Plan, i: nat, x: Relation, asked: string)
      returns (title: string, choice: ChoiceKey, id: Id)
    requires Sound(db) && ExecutePlan(w, db, plan).Done? && i < |plan.operations| && !plan.operations[i].kind.Action?
    requires x in Relations(w, plan.operations[i].entity)
    requires AsksFor(FieldsOf(w, Before(w, db, plan, i), plan.operations[i]), x, asked)
    ensures AsksFor(FieldsOf(w, Before(w, db, plan, i), plan.operations[i]), x, title)
    ensures choice.table == x.table && choice.title == w.labelKey(title)
    ensures var f := ExecutePlan(w, db, plan).s; Chosen(choice, id) in f.log && Key(choice.table, id) in f.db
  {
    hide RunOperations, ExecutePlan, RunOperation, Choices, Made, Keeps, FieldsOf, AsksFor;
    var fields := FieldsOf(w, Before(w, db, plan, i), plan.operations[i]);
    OperationOfPlan(w, db, plan, i);
    LogOfPlan(w, db, plan);
    ChoicesAreAsked(fields, Relations(w, plan.operations[i].entity), x);
    var c :| c in Choices(fields, Relations(w, plan.operations[i].entity)) && c.relation == x;
    ChoiceLater(w, Before(w, db, plan, i + 1), AtFailure(w, db, plan), c);
    title := c.title;
    choice, id := ChosenFor(w, AtFailure(w, db, plan), c);
  }

  // ----- which plans succeed -----

  /** The handler, or the generic path, finds a row that is there, or makes a new one whose foreign keys are there. */
  predicate InsertOk(w: World, s: State, entity: string, fields: Fields) {
    var h := entity in w.handlers;
    match (if h then w.handlers[entity].insert(fields, s.db) else w.genericInsert(entity, fields, All(s)))
    case InsertThrows => false
    case Finds(id) => Key(entity, id) in View(s, h)
    case Inserts(id, row, _) => Key(entity, id) !in All(s) && row.refs <= View(s, h).Keys
  }

  /** The record is there, and so are the foreign keys of its new row. */
  predicate UpdateOk(w: World, s: State, entity: string, id: Id, fields: Fields) {
    var h := entity in w.handlers;
    && Key(entity, id) in View(s, h)
    && match (if h then w.handlers[entity].update(id, fields, s.db) else w.genericUpdate(entity, id, fields, All(s)))
       case UpdateThrows => false
       case Updates(row) => row.refs <= View(s, h).Keys
  }

  ghost predicate WriteOk(w: World, s: State, kind: Kind, entity: string, id: Option<Id>, fields: Fields) {
    exists safe :: Safe(w, entity, fields, safe) &&
                   if kind.Insert? then InsertOk(w, s, entity, safe)
                   else kind.Update? && id.Some? && UpdateOk(w, s, entity, id.value, safe)
  }

  lemma {:induction false} InsertSucceedsIff(w: World, tx: bool, s: State, entity: string, fields: Fields)
    ensures DoInsert(w, tx, s, entity, fields).Done? <==> InsertOk(w, s, entity, fields)
  {
    hide Put;
    assert forall k :: k in All(s) <==> k in s.db || k in s.tx;
  }

  lemma {:induction false} UpdateSucceedsIff(w: World, tx: bool, s: State, entity: string, id: Id, fields: Fields)
    ensures DoUpdate(w, tx, s, entity, id, fields).Done? <==> UpdateOk(w, s, entity, id, fields)
  {
    hide Put;
  }

  lemma {:induction false} WriteSucceedsIff(w: World, tx: bool, s: State, kind: Kind, entity: string, id: Option<Id>,
          fields: Fields)
    ensures Execute(w, tx, s, kind, entity, id, fields).Done? <==> WriteOk(w, s, kind, entity, id, fields)
  {
    hide DoInsert, DoUpdate, InsertOk, UpdateOk;
    var safe := if entity in w.handlers then fields else map k | k in fields && k !in PROTECTED :: fields[k];
    assert entity in w.handlers || safe != map[] ==> Safe(w, entity, fields, safe);
    forall other | Safe(w, entity, fields, other) ensures other == safe {}
    InsertSucceedsIff(w, tx, s, entity, safe);
    if id.Some? { UpdateSucceedsIff(w, tx, s, entity, id.value, safe); }
  }

  /** The creation is known of the plan, or may be made and its row is accepted. */
  predicate ChoiceOk(w: World, s: State, entity: string, c: Choice, fields: Fields) {
    var prepared := w.prepareChoice(entity, c.relation.fk, fields);
    && prepared.Some?
    && var (_, extra) := prepared.value;
       || ChoiceKey(c.relation.table, w.labelKey(c.title), extra) in s.choices
       || (w.mayCreate(c.relation.table)
           && InsertOk(w, s, c.relation.table, w.creationFields(c.relation.table, c.title, extra)))
  }

  lemma {:induction false} ChoiceSucceedsIff(w: World, tx: bool, s: State, entity: string, c: Choice,
          m: Materialized)
    ensures MaterializeOne(w, tx, s, entity, c, m).Done? <==> ChoiceOk(w, s, entity, c, m.fields)
  {
    hide DoInsert, InsertOk;
    var prepared := w.prepareChoice(entity, c.relation.fk, m.fields);
    if prepared.Some? {
      var (_, extra) := prepared.value;
      InsertSucceedsIff(w, tx, s, c.relation.table, w.creationFields(c.relation.table, c.title, extra));
    }
  }

  /** Each matching record not targeted yet is accepted, in turn. */
  ghost predicate BulkOk(w: World, tx: bool, s: State, entity: string, fields: Fields, ids: seq<Id>)
    decreases |ids|
  {
    ids == []
    || (var key := Key(entity, ids[0]);
        if key in s.targeted then BulkOk(w, tx, s, entity, fields, ids[1..])
        else
          && WriteOk(w, s, Update, entity, Some(ids[0]), fields)
          && BulkOk(w, tx, Execute(w, tx, s.(targeted := s.targeted + {key}), Update, entity, Some(ids[0]), fields).s,
                    entity, fields, ids[1..]))
  }

  lemma {:induction false} WriteOkSame(w: World, s: State, t: State, kind: Kind, entity: string, id: Option<Id>,
          fields: Fields)
    requires t.db == s.db && t.tx == s.tx
    ensures WriteOk(w, s, kind, entity, id, fields) <==> WriteOk(w, t, kind, entity, id, fields)
  {
    hide Safe;
    forall safe ensures InsertOk(w, s, entity, safe) <==> InsertOk(w, t, entity, safe) {}
    if id.Some? {
      forall safe ensures UpdateOk(w, s, entity, id.value, safe) <==> UpdateOk(w, t, entity, id.value, safe) {}
    }
  }

  /** The results noted on the way decide nothing. */
  lemma {:induction false} BulkSame(w: World, tx: bool, s: State, t: State, entity: string, fields: Fields,
          ids: seq<Id>)
    requires t == s.(results := t.results)
    ensures BulkOk(w, tx, s, entity, fields, ids) <==> BulkOk(w, tx, t, entity, fields, ids)
    decreases |ids|
  {
    hide Execute, WriteOk;
    if ids != [] {
      var key := Key(entity, ids[0]);
      WriteOkSame(w, s, t, Update, entity, Some(ids[0]), fields);
      if key in s.targeted {
        BulkSame(w, tx, s, t, entity, fields, ids[1..]);
      } else {
        var s1, t1 := s.(targeted := s.targeted + {key}), t.(targeted := t.targeted + {key});
        ExecuteSame(w, tx, s1, t1, entity, ids[0], fields);
        BulkSame(w, tx, Execute(w, tx, s1, Update, entity, Some(ids[0]), fields).s,
                 Execute(w, tx, t1, Update, entity, Some(ids[0]), fields).s, entity, fields, ids[1..]);
      }
    }
  }

  lemma {:induction false} ExecuteSame(w: World, tx: bool, s: State, t: State, entity: string, id: Id, fields: Fields)
    requires t == s.(results := t.results)
    ensures Execute(w, tx, t, Update, entity, Some(id), fields).s
         == Execute(w, tx, s, Update, entity, Some(id), fields).s.(results := t.results)
  {
  }

  lemma {:induction false} BulkSucceedsIff(w: World, tx: bool, s: State, entity: string, fields: Fields, ids: seq<Id>)
    ensures BulkUpdate(w, tx, s, entity, fields, ids).Done? <==> BulkOk(w, tx, s, entity, fields, ids)
    decreases |ids|
  {
    hide Execute, WriteOk;
    if ids != [] {
      var key := Key(entity, ids[0]);
      if key in s.targeted {
        BulkSucceedsIff(w, tx, s, entity, fields, ids[1..]);
      } else {
        var s0 := s.(targeted := s.targeted + {key});
        var d := Execute(w, tx, s0, Update, entity, Some(ids[0]), fields);
        WriteSucceedsIff(w, tx, s0, Update, entity, Some(ids[0]), fields);
        WriteOkSame(w, s, s0, Update, entity, Some(ids[0]), fields);
        if d.Done? {
          BulkSucceedsIff(w, tx, d.s.(results := d.s.results + [d.value]), entity, fields, ids[1..]);
          BulkSame(w, tx, d.s, d.s.(results := d.s.results + [d.value]), entity, fields, ids[1..]);
        }
      }
    }
  }

  /** What an operation needs: a known and possible action, or creations, a record and fields that are accepted. */
  ghost predicate OperationOk(w: World, tx: bool, s: State, op: Operation) {
    if op.kind.Action? then
      var table := w.actionTable(op.action, op.entity);
      && table.Some? && Pointed(w, s, op, table.value).Some?
      && w.prepare(op.action, Pointed(w, s, op, table.value).value, FieldsOf(w, s, op))
    else
      var made := Made(w, tx, s, op);
      && made.Done?
      && if Bulk(op) then
           var ids := w.allTargets(op.entity, op.criteria.value, made.s.db);
           ids.Some? && |ids.value| <= MAX_BULK_UPDATE
           && BulkOk(w, tx, made.s, op.entity, made.value.fields, ids.value)
         else WriteOk(w, made.s, op.kind, op.entity, Target(w, made.s, op), made.value.fields)
  }

  lemma {:induction false} ActionSucceedsIff(w: World, tx: bool, s: State, op: Operation)
    requires Flow(s) && op.kind.Action?
    ensures RunOperation(w, tx, s, op).Done? <==> OperationOk(w, tx, s, op)
  {
    hide ChoicesMadeOnce, UpdatesTargeted, LastOf, AutoInject, Resolve;
    var table := w.actionTable(op.action, op.entity);
    if table.Some? { assert Latest(s.latest, table.value) == LastOf(s.produced, table.value); }
  }

  lemma {:induction false} NoRecord(w: World, s: State, op: Operation, fields: Fields)
    requires op.kind.Update?
    ensures !WriteOk(w, s, op.kind, op.entity, None, fields)
  {
  }

  lemma {:induction false} OperationSucceedsIff(w: World, tx: bool, s: State, op: Operation)
    requires Flow(s)
    ensures RunOperation(w, tx, s, op).Done? <==> OperationOk(w, tx, s, op)
  {
    hide Flow, Materialize, FieldsOf, Execute, WriteOk, BulkOk, BulkUpdate, Remember;
    if op.kind.Action? {
      ActionSucceedsIff(w, tx, s, op);
    } else {
      FieldsAre(w, s, op);
      var made := Made(w, tx, s, op);
      if made.Done? {
        var m, id := made.value, Target(w, made.s, op);
        if Bulk(op) {
          var ids := w.allTargets(op.entity, op.criteria.value, made.s.db);
          if ids.Some? { BulkSucceedsIff(w, tx, made.s, op.entity, m.fields, ids.value); }
        } else {
          var s1 := if op.kind.Update? && id.Some?
            then made.s.(targeted := made.s.targeted + {Key(op.entity, id.value)}) else made.s;
          WriteSucceedsIff(w, tx, s1, op.kind, op.entity, id, m.fields);
          WriteOkSame(w, made.s, s1, op.kind, op.entity, id, m.fields);
          if op.kind.Update? { NoRecord(w, made.s, op, m.fields); }
        }
      }
    }
  }

  lemma {:induction false} RunStops(w: World, tx: bool, s: State, a: seq<Operation>, b: seq<Operation>)
    requires RunOperations(w, tx, s, a).Thrown?
    ensures RunOperations(w, tx, s, a + b).Thrown?
    decreases |a|
  {
    hide RunOperation;
    assert (a + b)[0] == a[0] && (a + b)[1..] == a[1..] + b;
    if RunOperation(w, tx, s, a[0]).Done? { RunStops(w, tx, RunOperation(w, tx, s, a[0]).s, a[1..], b); }
  }

  lemma {:induction false} RunGoesOn(w: World, tx: bool, s: State, a: seq<Operation>, op: Operation)
    requires RunOperations(w, tx, s, a).Done?
    ensures RunOperations(w, tx, s, a + [op]).Done? <==> RunOperation(w, tx, RunOperations(w, tx, s, a).s, op).Done?
    decreases |a|
  {
    hide RunOperation;
    if a == [] {
      assert a + [op] == [op] && [op][1..] == [];
    } else {
      assert (a + [op])[0] == a[0] && (a + [op])[1..] == a[1..] + [op];
      RunGoesOn(w, tx, RunOperation(w, tx, s, a[0]).s, a[1..], op);
    }
  }

  lemma {:induction false} PrefixSucceedsIff(w: World, db: Db, plan: Plan, n: nat)
    requires n <= |plan.operations|
    ensures RunOperations(w, plan.transaction, Init(db), plan.operations[..n]).Done? <==>
            forall i :: 0 <= i < n ==> OperationOk(w, plan.transaction, Before(w, db, plan, i), plan.operations[i])
    decreases n
  {
    hide RunOperation, RunOperations, OperationOk, Flow, Continues;
    var tx, ops, start := plan.transaction, plan.operations, Init(db);
    if n == 0 {
      NoOperation(w, tx, start);
      assert ops[..0] == [];
    } else {
      PrefixSucceedsIff(w, db, plan, n - 1);
      assert ops[..n] == ops[..n - 1] + [ops[n - 1]];
      if RunOperations(w, tx, start, ops[..n - 1]).Done? {
        RunGoesOn(w, tx, start, ops[..n - 1], ops[n - 1]);
        StartFlow(db);
        RunFlow(w, tx, start, ops[..n - 1]);
        OperationSucceedsIff(w, tx, Before(w, db, plan, n - 1), ops[n - 1]);
      } else {
        RunStops(w, tx, start, ops[..n - 1], [ops[n - 1]]);
      }
    }
  }

  lemma {:induction false} NoOperation(w: World, tx: bool, s: State)
    ensures RunOperations(w, tx, s, []) == Done(s, ())
  {
  }

  /** A plan succeeds exactly when each operation has what it needs when its turn comes, and the commit works. */
  lemma {:induction false} PlanSucceedsIff(w: World, db: Db, plan: Plan)
    ensures ExecutePlan(w, db, plan).Done? <==>
            && (forall i :: 0 <= i < |plan.operations| ==>
                  OperationOk(w, plan.transaction, Before(w, db, plan, i), plan.operations[i]))
            && (plan.transaction ==>
                  w.commits(Before(w, db, plan, |plan.operations|).db, Before(w, db, plan, |plan.operations|).tx))
  {
    hide RunOperation, RunOperations, OperationOk, Abort, Finish;
    var n := |plan.operations|;
    PrefixSucceedsIff(w, db, plan, n);
    assert plan.operations[..n] == plan.operations;
  }
}
