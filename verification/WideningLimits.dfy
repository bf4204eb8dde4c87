/**
 Widening at its limits: for every shape of query that OuterJoinFallback.Widenable excludes, a query of that shape
 whose widened form loses a row or is refused, on one table of one row.
 */
module WideningLimits {
  import opened Wrappers
  import opened Relational
  import opened Subqueries
  import opened Agreement
  import opened OuterJoinFallback

  const ONE_ROW: Record := map["x" := Int(1)]
  const ONE_TABLE: Db := map["t" := [ONE_ROW]]
  const YES := Lit(Int(1))

  /** A name for each number, none of them `b`. */
  function Alias(n: nat): (r: string)
    ensures |r| == n + 1 && r[0] == 'j'
  {
    if n == 0 then "j" else "j" + Alias(n - 1)
  }

  function Always(s: Shape, n: nat): Join {
    Join(s.kind, "t", Alias(n), if s.on then Some(YES) else None)
  }

  function Never(s: Shape, n: nat): Join {
    Join(s.kind, "t", Alias(n), Some(Lit(Int(0))))
  }

  /** Joins of the given shapes to the one-row table, each with its alias, with a true ON. */
  function AllMatch(shapes: seq<Shape>): (r: seq<Join>)
    ensures Shapes(r) == shapes
  {
    if shapes == [] then [] else [Always(shapes[0], |shapes|)] + AllMatch(shapes[1..])
  }

  /** The same, except that ON is false at position `miss`. */
  function OneMisses(shapes: seq<Shape>, miss: nat): (r: seq<Join>)
    requires miss < |shapes| && shapes[miss].on
    ensures Shapes(r) == shapes
  {
    if miss == 0 then [Never(shapes[0], |shapes|)] + AllMatch(shapes[1..])
    else [Always(shapes[0], |shapes|)] + OneMisses(shapes[1..], miss - 1)
  }


  // ----- aliases -----

  predicate NotUsed(used: set<string>, n: nat) {
    forall k :: 0 <= k <= n ==> Alias(k) !in used
  }

  lemma {:induction false} NotUsedLess(used: set<string>, n: nat)
    requires NotUsed(used, n + 1)
    ensures NotUsed(used + {Alias(n + 1)}, n)
  {
    forall k | 0 <= k <= n ensures Alias(k) !in used + {Alias(n + 1)} { assert |Alias(k)| != |Alias(n + 1)|; }
  }

  lemma {:induction false} NewAlias(used: set<string>, j: Join, js: seq<Join>)
    requires j.alias !in used && NewAliases(used + {j.alias}, js)
    ensures NewAliases(used, [j] + js)
  {
    assert ([j] + js)[1..] == js;
  }

  lemma {:induction false} MatchAliases(used: set<string>, shapes: seq<Shape>)
    requires NotUsed(used, |shapes|)
    ensures NewAliases(used, AllMatch(shapes))
    decreases |shapes|
  {
    hide Alias;
    if shapes != [] {
      var n := |shapes|;
      NotUsedLess(used, n - 1);
      MatchAliases(used + {Alias(n)}, shapes[1..]);
      NewAlias(used, Always(shapes[0], n), AllMatch(shapes[1..]));
    }
  }

  lemma {:induction false} MatchFirst(shapes: seq<Shape>)
    ensures shapes != [] ==> AllMatch(shapes) == [Always(shapes[0], |shapes|)] + AllMatch(shapes[1..])
  {
  }

  lemma {:induction false} MissFirst(shapes: seq<Shape>)
    requires shapes != [] && shapes[0].on
    ensures OneMisses(shapes, 0) == [Never(shapes[0], |shapes|)] + AllMatch(shapes[1..])
  {
  }

  lemma {:induction false} MissLater(shapes: seq<Shape>, miss: nat)
    requires 0 < miss < |shapes| && shapes[miss].on
    ensures OneMisses(shapes, miss) == [Always(shapes[0], |shapes|)] + OneMisses(shapes[1..], miss - 1)
  {
  }

  lemma {:induction false} MissAliases(used: set<string>, shapes: seq<Shape>, miss: nat)
    requires miss < |shapes| && shapes[miss].on && NotUsed(used, |shapes|)
    ensures NewAliases(used, OneMisses(shapes, miss))
    decreases |shapes|
  {
    hide Alias, NewAliases, OneMisses, AllMatch;
    var n := |shapes|;
    NotUsedLess(used, n - 1);
    if miss == 0 {
      MissFirst(shapes);
      MatchAliases(used + {Alias(n)}, shapes[1..]);
      NewAlias(used, Never(shapes[0], n), AllMatch(shapes[1..]));
    } else {
      MissLater(shapes, miss);
      MissAliases(used + {Alias(n)}, shapes[1..], miss - 1);
      NewAlias(used, Always(shapes[0], n), OneMisses(shapes[1..], miss - 1));
    }
  }

  /** The outer joins have an ON clause. */
  predicate OuterHaveOn(shapes: seq<Shape>) {
    forall s :: s in shapes ==> Outer(s.kind) ==> s.on
  }

  lemma {:induction false} BaseIsNotUsed(n: nat)
    ensures NotUsed({"b"}, n)
  {
    forall k | 0 <= k <= n ensures Alias(k) !in {"b"} { assert Alias(k)[0] == 'j'; }
  }

  /** Joins of the witnesses are accepted when their outer joins have an ON clause. */
  lemma {:induction false} WitnessAccepted(joins: seq<Join>)
    requires NewAliases({"b"}, joins) && OuterHaveOn(Shapes(joins))
    ensures JoinsAccepted("b", joins)
  {
    hide NewAliases;
    forall j | j in joins ensures HasItsOn(j) {
      var i :| 0 <= i < |joins| && joins[i] == j;
      assert Shapes(joins)[i] in Shapes(joins);
    }
  }

  lemma {:induction false} AllMatchAccepted(shapes: seq<Shape>)
    requires OuterHaveOn(shapes)
    ensures JoinsAccepted("b", AllMatch(shapes))
  {
    hide NewAliases, NotUsed, OuterHaveOn, JoinsAccepted, AllMatch;
    BaseIsNotUsed(|shapes|);
    MatchAliases({"b"}, shapes);
    WitnessAccepted(AllMatch(shapes));
  }

  lemma {:induction false} OneMissesAccepted(shapes: seq<Shape>, miss: nat)
    requires OuterHaveOn(shapes) && miss < |shapes| && shapes[miss].on
    ensures JoinsAccepted("b", OneMisses(shapes, miss))
  {
    hide NewAliases, NotUsed, OuterHaveOn, JoinsAccepted, OneMisses;
    BaseIsNotUsed(|shapes|);
    MissAliases({"b"}, shapes, miss);
    WitnessAccepted(OneMisses(shapes, miss));
  }

  // ----- rows of the joins -----

  lemma {:induction false} StepsCons(f: Functions, outer: Env, envs: seq<Env>, j: Join, js: seq<Join>)
    ensures Steps(f, ONE_TABLE, outer, envs, [j] + js)
      == Steps(f, ONE_TABLE, outer, Step(f, ONE_TABLE, outer, envs, j), js)
    ensures Steps(f, ONE_TABLE, outer, envs, WidenJoins([j] + js))
         == Steps(f, ONE_TABLE, outer, Step(f, ONE_TABLE, outer, envs, WidenJoin(j)), WidenJoins(js))
  {
    hide Step, ONE_TABLE;
    assert ([j] + js)[1..] == js && WidenJoins([j] + js) == [WidenJoin(j)] + WidenJoins(js);
    assert ([WidenJoin(j)] + WidenJoins(js))[1..] == WidenJoins(js);
  }

  lemma {:induction false} OneRowStep(f: Functions, outer: Env, env: Env, s: Shape, n: nat)
    ensures Step(f, ONE_TABLE, outer, [env], Always(s, n)) == [env[Alias(n) := ONE_ROW]]
    ensures Step(f, ONE_TABLE, outer, [env], WidenJoin(Always(s, n))) == [env[Alias(n) := ONE_ROW]]
  {
    hide Alias;
    var rows, j, bound := Rows(ONE_TABLE, "t"), Always(s, n), env[Alias(n) := ONE_ROW];
    assert rows == [ONE_ROW] && rows[1..] == [] && [env][1..] == [];
    if s.kind.Right? {
      assert LeftMatches(f, ONE_ROW, [env], j) == [bound] + LeftMatches(f, ONE_ROW, [], j) == [bound];
      assert RightBlocks(f, outer, rows, [env], j) == [bound] + RightBlocks(f, outer, [], [env], j);
    } else {
      MatchesWidened(f, rows, env, j);
      assert Matches(f, rows, env, j) == [bound] + Matches(f, [], env, j);
      assert Blocks(f, rows, [env], j) == Block(f, rows, env, j) + Blocks(f, rows, [], j);
      assert Blocks(f, rows, [env], WidenJoin(j))
          == Block(f, rows, env, WidenJoin(j)) + Blocks(f, rows, [], WidenJoin(j));
    }
  }

  ghost predicate SingleRow(envs: seq<Env>, base: Record) {
    |envs| == 1 && RowOf(envs[0], "b") == base
  }

  lemma {:induction false} OtherAlias(env: Env, n: nat, r: Record)
    ensures RowOf(env[Alias(n) := r], "b") == RowOf(env, "b")
  {
    assert Alias(n)[0] == 'j';
  }

  /** Joins that always match keep the single row and what it says of the base table. */
  lemma {:induction false} MatchingSteps(f: Functions, outer: Env, env: Env, shapes: seq<Shape>)
    ensures SingleRow(Steps(f, ONE_TABLE, outer, [env], AllMatch(shapes)), RowOf(env, "b"))
    ensures SingleRow(Steps(f, ONE_TABLE, outer, [env], WidenJoins(AllMatch(shapes))), RowOf(env, "b"))
    decreases |shapes|
  {
    hide Step, Always, Alias, RowOf, ONE_TABLE, ONE_ROW;
    if shapes != [] {
      hide Steps, SingleRow, WidenJoins, AllMatch;
      var n := |shapes|;
      MatchFirst(shapes);
      StepsCons(f, outer, [env], Always(shapes[0], n), AllMatch(shapes[1..]));
      OneRowStep(f, outer, env, shapes[0], n);
      OtherAlias(env, n, ONE_ROW);
      MatchingSteps(f, outer, env[Alias(n) := ONE_ROW], shapes[1..]);
    }
  }

  predicate HasRight(shapes: seq<Shape>) {
    shapes != [] && (shapes[0].kind.Right? || HasRight(shapes[1..]))
  }

  lemma {:induction false} EmptyStep(f: Functions, outer: Env, s: Shape, n: nat)
    ensures Step(f, ONE_TABLE, outer, [], Always(s, n)) == if s.kind.Right? then [outer[Alias(n) := ONE_ROW]] else []
  {
    hide Alias;
    var j, rows, alone := Always(s, n), Rows(ONE_TABLE, "t"), outer[Alias(n) := ONE_ROW];
    if s.kind.Right? {
      assert rows == [ONE_ROW] && rows[1..] == [];
      assert RightBlocks(f, outer, rows, [], j) == [alone] + RightBlocks(f, outer, [], [], j);
    }
  }

  lemma {:induction false} NoBase(outer: Env, n: nat)
    requires "b" !in outer
    ensures RowOf(outer[Alias(n) := ONE_ROW], "b") == map[]
  {
    assert Alias(n)[0] == 'j';
  }

  /** Either there are no rows, or the first RIGHT JOIN has added its own, without the base table. */
  ghost predicate Baseless(rows: seq<Env>, right: bool) {
    if right then SingleRow(rows, map[]) else rows == []
  }

  lemma {:induction false} EmptySteps(f: Functions, outer: Env, shapes: seq<Shape>)
    requires "b" !in outer
    ensures Baseless(Steps(f, ONE_TABLE, outer, [], AllMatch(shapes)), HasRight(shapes))
    decreases |shapes|
  {
    hide Step, Always, RowOf, Alias, ONE_TABLE, ONE_ROW, SingleRow;
    if shapes != [] {
      hide Steps, AllMatch;
      var n, tail := |shapes|, shapes[1..];
      MatchFirst(shapes);
      StepsCons(f, outer, [], Always(shapes[0], n), AllMatch(tail));
      EmptyStep(f, outer, shapes[0], n);
      if shapes[0].kind.Right? {
        NoBase(outer, n);
        MatchingSteps(f, outer, outer[Alias(n) := ONE_ROW], tail);
      } else {
        EmptySteps(f, outer, tail);
      }
    }
  }

  lemma {:induction false} MissStep(f: Functions, outer: Env, env: Env, j: Join)
    requires j.kind.Inner? && j.table == "t" && j.on == Some(Lit(Int(0)))
    ensures Step(f, ONE_TABLE, outer, [env], j) == []
    ensures Step(f, ONE_TABLE, outer, [env], WidenJoin(j)) == [env[j.alias := map[]]]
  {
    var rows, unmatched := Rows(ONE_TABLE, "t"), env[j.alias := map[]];
    MatchesWidened(f, rows, env, j);
    assert rows[1..] == [] && Matches(f, rows, env, j) == [] + Matches(f, [], env, j);
    assert [env][1..] == [] && Step(f, ONE_TABLE, outer, [env], j) == [] + Blocks(f, rows, [], j);
    assert Step(f, ONE_TABLE, outer, [env], WidenJoin(j)) == [unmatched] + Blocks(f, rows, [], WidenJoin(j));
  }

  /** The inner join at `miss` finds nothing: the base row is lost, unless the join was widened. */
  ghost predicate MissLoses(f: Functions, outer: Env, env: Env, shapes: seq<Shape>, miss: nat)
    requires miss < |shapes| && shapes[miss].on
  {
    && Baseless(Steps(f, ONE_TABLE, outer, [env], OneMisses(shapes, miss)), HasRight(shapes[miss + 1..]))
    && SingleRow(Steps(f, ONE_TABLE, outer, [env], WidenJoins(OneMisses(shapes, miss))), RowOf(env, "b"))
  }

  lemma {:induction false} MissNow(f: Functions, outer: Env, env: Env, shapes: seq<Shape>)
    requires "b" !in outer && shapes != [] && shapes[0] == Shape(Inner, true)
    ensures MissLoses(f, outer, env, shapes, 0)
  {
    hide Step, Steps, AllMatch, RowOf, SingleRow, WidenJoins, Alias, OneMisses, ONE_TABLE, ONE_ROW, Baseless, HasRight;
    var n := |shapes|;
    MissFirst(shapes);
    StepsCons(f, outer, [env], Never(shapes[0], n), AllMatch(shapes[1..]));
    MissStep(f, outer, env, Never(shapes[0], n));
    OtherAlias(env, n, map[]);
    EmptySteps(f, outer, shapes[1..]);
    MatchingSteps(f, outer, env[Alias(n) := map[]], shapes[1..]);
  }

  lemma {:induction false} MissMoves(f: Functions, outer: Env, env: Env, shapes: seq<Shape>, miss: nat)
    requires 0 < miss < |shapes| && shapes[miss].on
    requires MissLoses(f, outer, env[Alias(|shapes|) := ONE_ROW], shapes[1..], miss - 1)
    ensures MissLoses(f, outer, env, shapes, miss)
  {
    hide Step, Steps, Always, OneMisses, WidenJoins, SingleRow, AllMatch, RowOf, Alias, ONE_TABLE, ONE_ROW, Baseless;
    hide HasRight;
    var n := |shapes|;
    MissLater(shapes, miss);
    OtherAlias(env, n, ONE_ROW);
    StepsCons(f, outer, [env], Always(shapes[0], n), OneMisses(shapes[1..], miss - 1));
    OneRowStep(f, outer, env, shapes[0], n);
    assert shapes[1..][miss..] == shapes[miss + 1..];
  }

  lemma {:induction false} MissSteps(f: Functions, outer: Env, env: Env, shapes: seq<Shape>, miss: nat)
    requires "b" !in outer && miss < |shapes| && shapes[miss] == Shape(Inner, true)
    ensures MissLoses(f, outer, env, shapes, miss)
    decreases |shapes|
  {
    hide MissLoses, Alias, ONE_ROW;
    if miss == 0 {
      MissNow(f, outer, env, shapes);
    } else {
      MissSteps(f, outer, env[Alias(|shapes|) := ONE_ROW], shapes[1..], miss - 1);
      MissMoves(f, outer, env, shapes, miss);
    }
  }

  // ----- conditions of a given shape that never change -----

  const PRESENT := Cmp(NullSafeEq, Col("b", "x"), YES)
  const ABSENT := Cmp(NullSafeEq, Col("b", "x"), Lit(Null))

  /** A condition of that shape that is always `v`. */
  function Const(c: CondShape, v: bool): Cond {
    match c
    case TestShape => Test(Lit(Bool(v)))
    case BothShape(l, r) => Both(Const(l, v), Const(r, v))
    case EitherShape(l, r) => Either(Const(l, v), Const(r, v))
    case OppositeShape(x) => Opposite(Const(x, !v))
    case InShape(s) => In(YES, PRESENT, ConstSub(s, v))
  }

  /** A subquery of that shape with one row, or none. */
  function ConstSub(s: SubShape, v: bool): Subquery {
    Subquery("t", "b", AllMatch(s.joins), Const(s.where, v))
  }

  lemma {:induction false} ConstShape(c: CondShape, v: bool)
    ensures ShapeOfCond(Const(c, v)) == c
  {
    match c {
      case TestShape =>
      case BothShape(l, r) => ConstShape(l, v); ConstShape(r, v);
      case EitherShape(l, r) => ConstShape(l, v); ConstShape(r, v);
      case OppositeShape(x) => ConstShape(x, !v);
      case InShape(s) => ConstShape(s.where, v);
    }
  }

  // ----- rows of the subqueries -----

  predicate OnTable(s: Subquery) {
    s.table == "t" && s.alias == "b"
  }

  lemma {:induction false} BaseOfOne(outer: Env)
    ensures Base(outer, "b", Rows(ONE_TABLE, "t")) == [outer["b" := ONE_ROW]]
    ensures RowOf(outer["b" := ONE_ROW], "b") == ONE_ROW
  {
    var rows := Rows(ONE_TABLE, "t");
    assert rows == [ONE_ROW] && rows[1..] == [];
    assert Base(outer, "b", rows) == [outer["b" := ONE_ROW]] + Base(outer, "b", []);
  }

  lemma {:induction false} JoinedAll(f: Functions, s: Subquery, shapes: seq<Shape>, env: Env)
    requires OnTable(s) && s.joins == AllMatch(shapes)
    ensures SingleRow(JoinedRows(f, ONE_TABLE, s, env), ONE_ROW)
    ensures SingleRow(JoinedRows(f, ONE_TABLE, WidenSub(s), env), ONE_ROW)
  {
    hide Given, Steps, Base, AllMatch, WidenJoins, WidenCond, SingleRow, ONE_TABLE, ONE_ROW;
    var outer := env - Given(s);
    SameGiven(s);
    BaseOfOne(outer);
    MatchingSteps(f, outer, outer["b" := ONE_ROW], shapes);
  }

  lemma {:induction false} JoinedMiss(f: Functions, s: Subquery, shapes: seq<Shape>, miss: nat, env: Env)
    requires miss < |shapes| && shapes[miss] == Shape(Inner, true)
    requires OnTable(s) && s.joins == OneMisses(shapes, miss)
    ensures Baseless(JoinedRows(f, ONE_TABLE, s, env), HasRight(shapes[miss + 1..]))
    ensures SingleRow(JoinedRows(f, ONE_TABLE, WidenSub(s), env), ONE_ROW)
  {
    hide Steps, Base, OneMisses, WidenJoins, WidenCond, SingleRow, ONE_TABLE, ONE_ROW, Baseless;
    var outer := env - Given(s);
    assert "b" in Given(s);
    SameGiven(s);
    BaseOfOne(outer);
    MissSteps(f, outer, outer["b" := ONE_ROW], shapes, miss);
  }

  lemma {:induction false} FilterOne(f: Functions, db: Db, c: Cond, env: Env)
    ensures Filter(f, db, c, [env]) == (if IsTrue(CondValue(f, db, c, env)) then [env] else [])
    ensures Filter(f, db, c, []) == []
  {
    hide CondValue;
    assert [env][1..] == [];
  }

  /** Of one row at most, a condition that is always `v` keeps it, or not. */
  lemma {:induction false} FilterConst(f: Functions, db: Db, c: Cond, v: bool, rows: seq<Env>)
    requires |rows| <= 1 && forall e :: CondValue(f, db, c, e) == Bool(v)
    ensures Filter(f, db, c, rows) == if v then rows else []
  {
    hide CondValue, Filter;
    if rows == [] {
      FilterOne(f, db, c, map[]);
    } else {
      assert rows == [rows[0]] && CondValue(f, db, c, rows[0]) == Bool(v);
      FilterOne(f, db, c, rows[0]);
    }
  }

  lemma {:induction false} AmongNone(f: Functions, item: Expr)
    ensures Among(f, Int(1), item, []) == Bool(false)
  {
  }

  /** Whether the base row is there, and whether it is missing, on a single row. */
  lemma {:induction false} AmongOne(f: Functions, rows: seq<Env>, base: Record)
    requires SingleRow(rows, base) && (base == ONE_ROW || base == map[])
    ensures Among(f, Int(1), PRESENT, rows) == Bool(base == ONE_ROW)
    ensures Among(f, Int(1), ABSENT, rows) == Bool(base == map[])
  {
    hide Among, Disjunction, Compare;
    assert rows[..1] == rows && rows[1..] == [];
    AmongNone(f, PRESENT);
    AmongNone(f, ABSENT);
    PresentValue(f, rows, base);
    AmongFirst(f, PRESENT, rows, base == ONE_ROW);
    AmongFirst(f, ABSENT, rows, base == map[]);
  }

  lemma {:induction false} PresentValue(f: Functions, rows: seq<Env>, base: Record)
    requires SingleRow(rows, base) && (base == ONE_ROW || base == map[])
    ensures Eval(f, PRESENT, rows) == Bool(base == ONE_ROW) && Eval(f, ABSENT, rows) == Bool(base == map[])
  {
  }

  lemma {:induction false} AmongFirst(f: Functions, item: Expr, rows: seq<Env>, v: bool)
    requires |rows| == 1 && Eval(f, item, rows) == Bool(v)
    ensures Among(f, Int(1), item, rows) == Bool(v)
  {
    hide Eval;
    assert rows[..1] == rows && rows[1..] == [];
    assert Among(f, Int(1), item, rows) == Disjunction(Compare(f, Eq, Int(1), Bool(v)), Among(f, Int(1), item, []));
  }

  lemma {:induction false} ConstValue(f: Functions, c: CondShape, v: bool, env: Env)
    ensures CondValue(f, ONE_TABLE, Const(c, v), env) == Bool(v)
    ensures CondValue(f, ONE_TABLE, WidenCond(Const(c, v)), env) == Bool(v)
    decreases c, 0
  {
    hide SubRows, Among, ONE_TABLE, AllMatch;
    match c {
      case TestShape =>
      case BothShape(l, r) => ConstValue(f, l, v, env); ConstValue(f, r, v, env);
      case EitherShape(l, r) => ConstValue(f, l, v, env); ConstValue(f, r, v, env);
      case OppositeShape(x) => ConstValue(f, x, !v, env);
      case InShape(s) => ConstRows(f, s, v, env); ConstIn(f, s, v, env);
    }
  }

  ghost predicate OneIf(rows: seq<Env>, v: bool) {
    if v then SingleRow(rows, ONE_ROW) else rows == []
  }

  lemma {:induction false} ConstRows(f: Functions, s: SubShape, v: bool, env: Env)
    ensures OneIf(SubRows(f, ONE_TABLE, ConstSub(s, v), env), v)
    ensures OneIf(SubRows(f, ONE_TABLE, WidenSub(ConstSub(s, v)), env), v)
    decreases s, 1
  {
    hide CondValue, Filter, JoinedRows, ONE_TABLE, ONE_ROW, WidenCond, AllMatch, WidenJoins, RowOf;
    var sub := ConstSub(s, v);
    JoinedAll(f, sub, s.joins, env);
    forall e
      ensures CondValue(f, ONE_TABLE, sub.where, e) == CondValue(f, ONE_TABLE, WidenCond(sub.where), e) == Bool(v)
    {
      ConstValue(f, s.where, v, e);
    }
    FilterConst(f, ONE_TABLE, sub.where, v, JoinedRows(f, ONE_TABLE, sub, env));
    FilterConst(f, ONE_TABLE, WidenCond(sub.where), v, JoinedRows(f, ONE_TABLE, WidenSub(sub), env));
  }

  lemma {:induction false} InValue(f: Functions, e: Expr, item: RowExpr, s: Subquery, env: Env)
    requires e == YES
    ensures CondValue(f, ONE_TABLE, In(e, item, s), env) == Among(f, Int(1), item, SubRows(f, ONE_TABLE, s, env))
  {
    hide SubRows, Among;
  }

  lemma {:induction false} AmongIf(f: Functions, rows: seq<Env>, v: bool)
    requires OneIf(rows, v)
    ensures Among(f, Int(1), PRESENT, rows) == Bool(v)
  {
    hide Among, SingleRow, PRESENT, ABSENT;
    if v { AmongOne(f, rows, ONE_ROW); } else { AmongNone(f, PRESENT); }
  }

  lemma {:induction false} ConstIn(f: Functions, s: SubShape, v: bool, env: Env)
    requires OneIf(SubRows(f, ONE_TABLE, ConstSub(s, v), env), v)
    requires OneIf(SubRows(f, ONE_TABLE, WidenSub(ConstSub(s, v)), env), v)
    ensures CondValue(f, ONE_TABLE, Const(InShape(s), v), env) == Bool(v)
    ensures CondValue(f, ONE_TABLE, WidenCond(Const(InShape(s), v)), env) == Bool(v)
  {
    hide CondValue, SubRows, ConstSub, WidenSub, OneIf, ONE_TABLE, Among;
    var sub := ConstSub(s, v);
    AmongIf(f, SubRows(f, ONE_TABLE, sub, env), v);
    AmongIf(f, SubRows(f, ONE_TABLE, WidenSub(sub), env), v);
    InValue(f, YES, PRESENT, sub, env);
    InValue(f, YES, PRESENT, WidenSub(sub), env);
  }

  // ----- conditions and subqueries that widening changes -----

  lemma {:induction false} HasRightIff(shapes: seq<Shape>)
    ensures HasRight(shapes) <==> exists k :: 0 <= k < |shapes| && shapes[k].kind.Right?
  {
    if shapes != [] {
      HasRightIff(shapes[1..]);
      if k :| 0 <= k < |shapes| && shapes[k].kind.Right? {
        if k > 0 { assert shapes[1..][k - 1] == shapes[k]; }
      }
    }
  }

  lemma {:induction false} RightAfterFirst(shapes: seq<Shape>)
    requires !NoRightAfterInner(shapes)
    ensures shapes != [] && ((shapes[0].kind.Inner? && HasRight(shapes[1..])) || !NoRightAfterInner(shapes[1..]))
  {
    var i, k :| 0 <= i < k < |shapes| && shapes[i].kind.Inner? && shapes[k].kind.Right?;
    if i == 0 {
      HasRightIff(shapes[1..]);
      assert shapes[1..][k - 1] == shapes[k];
    } else {
      assert shapes[1..][i - 1] == shapes[i] && shapes[1..][k - 1] == shapes[k];
    }
  }

  /** An inner join with a RIGHT JOIN after it. */
  function InnerBeforeRight(shapes: seq<Shape>): (miss: nat)
    requires !NoRightAfterInner(shapes)
    ensures miss < |shapes| && shapes[miss].kind.Inner? && HasRight(shapes[miss + 1..])
  {
    RightAfterFirst(shapes);
    if shapes[0].kind.Inner? && HasRight(shapes[1..]) then 0
    else
      var later := InnerBeforeRight(shapes[1..]);
      assert shapes[1..][later + 1..] == shapes[later + 2..];
      1 + later
  }

  function FirstInner(shapes: seq<Shape>): (miss: nat)
    requires !NoInner(shapes)
    ensures miss < |shapes| && shapes[miss].kind.Inner?
  {
    assert shapes != [] && shapes == [shapes[0]] + shapes[1..];
    if shapes[0].kind.Inner? then 0 else 1 + FirstInner(shapes[1..])
  }

  lemma {:induction false} HasOn(shapes: seq<Shape>, k: nat)
    requires AllExplicit(shapes) && k < |shapes| && shapes[k].kind.Inner?
    ensures shapes[k] == Shape(Inner, true)
  {
    assert shapes[k] in shapes;
  }

  /** A condition of that shape, true until it is widened. */
  function Falling(c: CondShape): Cond
    requires !Rises(c) && ExplicitCond(c)
  {
    match c
    case BothShape(l, r) => if !Rises(l) then Both(Falling(l), Const(r, true)) else Both(Const(l, true), Falling(r))
    case EitherShape(l, r) => if !Rises(l) then Either(Falling(l), Const(r, false))
      else Either(Const(l, false), Falling(r))
    case OppositeShape(x) => Opposite(Rising(x))
    case InShape(s) => In(YES, LostItem(s), Losing(s))
  }

  /** A condition of that shape, false until it is widened. */
  function Rising(c: CondShape): Cond
    requires !Falls(c) && ExplicitCond(c)
  {
    match c
    case BothShape(l, r) => if !Falls(l) then Both(Rising(l), Const(r, true)) else Both(Const(l, true), Rising(r))
    case EitherShape(l, r) => if !Falls(l) then Either(Rising(l), Const(r, false))
      else Either(Const(l, false), Rising(r))
    case OppositeShape(x) => Opposite(Falling(x))
    case InShape(s) => In(YES, PRESENT, Gaining(s))
  }

  /** What the row that widening takes away is recognised by. */
  function LostItem(s: SubShape): RowExpr {
    if NoRightAfterInner(s.joins) then PRESENT else ABSENT
  }

  function Losing(s: SubShape): Subquery
    requires !Adds(s) && ExplicitSub(s)
  {
    if NoRightAfterInner(s.joins) then Subquery("t", "b", AllMatch(s.joins), Falling(s.where))
    else
      var miss := InnerBeforeRight(s.joins);
      HasOn(s.joins, miss);
      Subquery("t", "b", OneMisses(s.joins, miss), Const(s.where, true))
  }

  function Gaining(s: SubShape): Subquery
    requires !Loses(s) && ExplicitSub(s)
  {
    if NoInner(s.joins) then Subquery("t", "b", AllMatch(s.joins), Rising(s.where))
    else
      var miss := FirstInner(s.joins);
      HasOn(s.joins, miss);
      Subquery("t", "b", OneMisses(s.joins, miss), Const(s.where, true))
  }

  lemma {:induction false} ShapeOfBoth(l: Cond, r: Cond)
    ensures ShapeOfCond(Both(l, r)) == BothShape(ShapeOfCond(l), ShapeOfCond(r))
    ensures ShapeOfCond(Either(l, r)) == EitherShape(ShapeOfCond(l), ShapeOfCond(r))
    ensures ShapeOfCond(Opposite(l)) == OppositeShape(ShapeOfCond(l))
  {
    hide ShapeOfSub;
  }

  lemma {:induction false} FallingShape(c: CondShape)
    requires !Rises(c) && ExplicitCond(c)
    ensures ShapeOfCond(Falling(c)) == c
  {
    hide Const, Losing, Rising, ShapeOfCond, Adds, ExplicitSub;
    match c {
      case BothShape(l, r) =>
        ConstShape(l, true);
        ConstShape(r, true);
        ShapeOfBoth(Falling(c).left, Falling(c).right);
        if !Rises(l) { FallingShape(l); } else { FallingShape(r); }
      case EitherShape(l, r) =>
        ConstShape(l, false);
        ConstShape(r, false);
        ShapeOfBoth(Falling(c).left, Falling(c).right);
        if !Rises(l) { FallingShape(l); } else { FallingShape(r); }
      case OppositeShape(x) =>
        ShapeOfBoth(Rising(x), Rising(x));
        RisingShape(x);
      case InShape(s) =>
        ShapeOfIn(LostItem(s), Losing(s));
        LosingShape(s);
    }
  }

  lemma {:induction false} ShapeOfIn(item: RowExpr, s: Subquery)
    ensures ShapeOfCond(In(YES, item, s)) == InShape(ShapeOfSub(s))
  {
  }

  lemma {:induction false} RisingShape(c: CondShape)
    requires !Falls(c) && ExplicitCond(c)
    ensures ShapeOfCond(Rising(c)) == c
  {
    hide Const, Gaining, Falling, ShapeOfCond, Loses, ExplicitSub;
    match c {
      case BothShape(l, r) =>
        ConstShape(l, true);
        ConstShape(r, true);
        ShapeOfBoth(Rising(c).left, Rising(c).right);
        if !Falls(l) { RisingShape(l); } else { RisingShape(r); }
      case EitherShape(l, r) =>
        ConstShape(l, false);
        ConstShape(r, false);
        ShapeOfBoth(Rising(c).left, Rising(c).right);
        if !Falls(l) { RisingShape(l); } else { RisingShape(r); }
      case OppositeShape(x) =>
        ShapeOfBoth(Falling(x), Falling(x));
        FallingShape(x);
      case InShape(s) =>
        ShapeOfIn(PRESENT, Gaining(s));
        GainingShape(s);
    }
  }

  lemma {:induction false} LosingShape(s: SubShape)
    requires !Adds(s) && ExplicitSub(s)
    ensures ShapeOfSub(Losing(s)) == s && OnTable(Losing(s))
  {
    ConstShape(s.where, true);
    if NoRightAfterInner(s.joins) { FallingShape(s.where); }
  }

  lemma {:induction false} GainingShape(s: SubShape)
    requires !Loses(s) && ExplicitSub(s)
    ensures ShapeOfSub(Gaining(s)) == s && OnTable(Gaining(s))
  {
    ConstShape(s.where, true);
    if NoInner(s.joins) { RisingShape(s.where); }
  }

  /** The value of a condition, before and after widening. */
  ghost predicate Turns(f: Functions, c: Cond, env: Env, before: bool, after: bool) {
    CondValue(f, ONE_TABLE, c, env) == Bool(before) && CondValue(f, ONE_TABLE, WidenCond(c), env) == Bool(after)
  }

  lemma {:induction false} BothTurns(f: Functions, l: Cond, r: Cond, env: Env, x: bool, y: bool, z: bool, t: bool)
    requires Turns(f, l, env, x, y) && Turns(f, r, env, z, t)
    ensures Turns(f, Both(l, r), env, x && z, y && t)
  {
    hide ONE_TABLE;
  }

  lemma {:induction false} EitherTurns(f: Functions, l: Cond, r: Cond, env: Env, x: bool, y: bool, z: bool, t: bool)
    requires Turns(f, l, env, x, y) && Turns(f, r, env, z, t)
    ensures Turns(f, Either(l, r), env, x || z, y || t)
  {
    hide ONE_TABLE;
  }

  lemma {:induction false} OppositeTurns(f: Functions, c: Cond, env: Env, x: bool, y: bool)
    requires Turns(f, c, env, x, y)
    ensures Turns(f, Opposite(c), env, !x, !y)
  {
    hide ONE_TABLE;
  }

  lemma {:induction false} ConstTurns(f: Functions, c: CondShape, v: bool, env: Env)
    ensures Turns(f, Const(c, v), env, v, v)
  {
    hide CondValue, Const, WidenCond;
    ConstValue(f, c, v, env);
  }

  lemma {:induction false} FallingTurns(f: Functions, c: CondShape, env: Env)
    requires !Rises(c) && ExplicitCond(c)
    ensures Turns(f, Falling(c), env, true, false)
    decreases c, 0
  {
    hide Turns;
    match c {
      case BothShape(l, r) =>
        ConstTurns(f, l, true, env);
        ConstTurns(f, r, true, env);
        if !Rises(l) {
          FallingTurns(f, l, env);
          BothTurns(f, Falling(l), Const(r, true), env, true, false, true, true);
        } else {
          FallingTurns(f, r, env);
          BothTurns(f, Const(l, true), Falling(r), env, true, true, true, false);
        }
      case EitherShape(l, r) =>
        ConstTurns(f, l, false, env);
        ConstTurns(f, r, false, env);
        if !Rises(l) {
          FallingTurns(f, l, env);
          EitherTurns(f, Falling(l), Const(r, false), env, true, false, false, false);
        } else {
          FallingTurns(f, r, env);
          EitherTurns(f, Const(l, false), Falling(r), env, false, false, true, false);
        }
      case OppositeShape(x) =>
        RisingTurns(f, x, env);
        OppositeTurns(f, Rising(x), env, false, true);
      case InShape(s) =>
        LosingRows(f, s, env);
        InTurns(f, LostItem(s), Losing(s), env, true, false);
    }
  }

  lemma {:induction false} RisingTurns(f: Functions, c: CondShape, env: Env)
    requires !Falls(c) && ExplicitCond(c)
    ensures Turns(f, Rising(c), env, false, true)
    decreases c, 0
  {
    hide Turns;
    match c {
      case BothShape(l, r) =>
        ConstTurns(f, l, true, env);
        ConstTurns(f, r, true, env);
        if !Falls(l) {
          RisingTurns(f, l, env);
          BothTurns(f, Rising(l), Const(r, true), env, false, true, true, true);
        } else {
          RisingTurns(f, r, env);
          BothTurns(f, Const(l, true), Rising(r), env, true, true, false, true);
        }
      case EitherShape(l, r) =>
        ConstTurns(f, l, false, env);
        ConstTurns(f, r, false, env);
        if !Falls(l) {
          RisingTurns(f, l, env);
          EitherTurns(f, Rising(l), Const(r, false), env, false, true, false, false);
        } else {
          RisingTurns(f, r, env);
          EitherTurns(f, Const(l, false), Rising(r), env, false, false, false, true);
        }
      case OppositeShape(x) =>
        FallingTurns(f, x, env);
        OppositeTurns(f, Falling(x), env, true, false);
      case InShape(s) =>
        GainingRows(f, s, env);
        InTurns(f, PRESENT, Gaining(s), env, false, true);
    }
  }

  ghost predicate RowTurns(f: Functions, item: Expr, s: Subquery, env: Env, before: bool, after: bool) {
    && Among(f, Int(1), item, SubRows(f, ONE_TABLE, s, env)) == Bool(before)
    && Among(f, Int(1), item, SubRows(f, ONE_TABLE, WidenSub(s), env)) == Bool(after)
  }

  lemma {:induction false} InTurns(f: Functions, item: RowExpr, s: Subquery, env: Env, before: bool, after: bool)
    requires RowTurns(f, item, s, env, before, after)
    ensures Turns(f, In(YES, item, s), env, before, after)
  {
    hide SubRows, Among, WidenSub;
    InValue(f, YES, item, s, env);
    InValue(f, YES, item, WidenSub(s), env);
    assert WidenCond(In(YES, item, s)) == In(YES, item, WidenSub(s));
  }

  /** The base row is in the rows of the subquery, missing from its row, or there is no row. */
  datatype Seen = Shown | Blank | Nothing

  ghost predicate Sees(rows: seq<Env>, seen: Seen) {
    match seen
    case Shown => SingleRow(rows, ONE_ROW)
    case Blank => SingleRow(rows, map[])
    case Nothing => rows == []
  }

  lemma {:induction false} AmongSeen(f: Functions, rows: seq<Env>, seen: Seen)
    requires Sees(rows, seen)
    ensures Among(f, Int(1), PRESENT, rows) == Bool(seen.Shown?) && Among(f, Int(1), ABSENT, rows) == Bool(seen.Blank?)
  {
    hide Among, SingleRow;
    assert "x" in ONE_ROW;
    match seen {
      case Shown => AmongOne(f, rows, ONE_ROW);
      case Blank => AmongOne(f, rows, map[]);
      case Nothing =>
        AmongNone(f, PRESENT);
        AmongNone(f, ABSENT);
    }
  }

  /** What a losing or a gaining subquery shows before and after. */
  ghost predicate Shows(f: Functions, s: Subquery, env: Env, before: Seen, after: Seen) {
    Sees(SubRows(f, ONE_TABLE, s, env), before) && Sees(SubRows(f, ONE_TABLE, WidenSub(s), env), after)
  }

  /** All joins match: the condition decides whether the row is there. */
  lemma {:induction false} TurningRows(f: Functions, s: Subquery, shapes: seq<Shape>, env: Env, before: bool,
          after: bool)
    requires OnTable(s) && s.joins == AllMatch(shapes) && forall e :: Turns(f, s.where, e, before, after)
    ensures Shows(f, s, env, if before then Shown else Nothing, if after then Shown else Nothing)
  {
    hide CondValue, Filter, JoinedRows, ONE_TABLE, ONE_ROW, WidenCond, AllMatch, WidenJoins, RowOf;
    JoinedAll(f, s, shapes, env);
    forall e
      ensures CondValue(f, ONE_TABLE, s.where, e) == Bool(before)
      ensures CondValue(f, ONE_TABLE, WidenCond(s.where), e) == Bool(after)
    {
      assert Turns(f, s.where, e, before, after);
    }
    FilterConst(f, ONE_TABLE, s.where, before, JoinedRows(f, ONE_TABLE, s, env));
    FilterConst(f, ONE_TABLE, WidenCond(s.where), after, JoinedRows(f, ONE_TABLE, WidenSub(s), env));
  }

  /** An inner join finds nothing: the base row is back when it is widened. */
  lemma {:induction false} MissingRows(f: Functions, s: Subquery, shape: SubShape, miss: nat, env: Env)
    requires miss < |shape.joins| && shape.joins[miss] == Shape(Inner, true)
    requires OnTable(s) && s.joins == OneMisses(shape.joins, miss) && s.where == Const(shape.where, true)
    ensures Shows(f, s, env, if HasRight(shape.joins[miss + 1..]) then Blank else Nothing, Shown)
  {
    hide CondValue, Filter, JoinedRows, ONE_TABLE, ONE_ROW, WidenCond, OneMisses, WidenJoins, RowOf, Const, HasRight;
    JoinedMiss(f, s, shape.joins, miss, env);
    forall e
      ensures CondValue(f, ONE_TABLE, s.where, e) == CondValue(f, ONE_TABLE, WidenCond(s.where), e) == Bool(true)
    {
      ConstValue(f, shape.where, true, e);
    }
    FilterConst(f, ONE_TABLE, s.where, true, JoinedRows(f, ONE_TABLE, s, env));
    FilterConst(f, ONE_TABLE, WidenCond(s.where), true, JoinedRows(f, ONE_TABLE, WidenSub(s), env));
  }

  function LosingBefore(s: SubShape): Seen {
    if NoRightAfterInner(s.joins) then Shown else Blank
  }

  function LosingAfter(s: SubShape): Seen {
    if NoRightAfterInner(s.joins) then Nothing else Shown
  }

  lemma {:induction false} LosingShows(f: Functions, s: SubShape, env: Env)
    requires !Adds(s) && ExplicitSub(s)
    ensures Shows(f, Losing(s), env, LosingBefore(s), LosingAfter(s))
    decreases s, 1
  {
    hide Shows, Turns, AllMatch, OneMisses, Const, Falling, HasRight;
    if NoRightAfterInner(s.joins) {
      var sub := Losing(s);
      assert sub.where == Falling(s.where);
      forall e ensures Turns(f, sub.where, e, true, false) { FallingTurns(f, s.where, e); }
      TurningRows(f, sub, s.joins, env, true, false);
    } else {
      var miss := InnerBeforeRight(s.joins);
      HasOn(s.joins, miss);
      MissingRows(f, Losing(s), s, miss, env);
    }
  }

  lemma {:induction false} LosingRows(f: Functions, s: SubShape, env: Env)
    requires !Adds(s) && ExplicitSub(s)
    ensures RowTurns(f, LostItem(s), Losing(s), env, true, false)
    decreases s, 2
  {
    hide Among, SubRows, Sees, Losing, NoRightAfterInner;
    LosingShows(f, s, env);
    AmongSeen(f, SubRows(f, ONE_TABLE, Losing(s), env), LosingBefore(s));
    AmongSeen(f, SubRows(f, ONE_TABLE, WidenSub(Losing(s)), env), LosingAfter(s));
  }

  lemma {:induction false} GainingShows(f: Functions, s: SubShape, env: Env)
    requires !Loses(s) && ExplicitSub(s)
    ensures exists before :: before != Shown && Shows(f, Gaining(s), env, before, Shown)
    decreases s, 1
  {
    hide Shows, Turns, AllMatch, OneMisses, Const, Rising, HasRight;
    if NoInner(s.joins) {
      var sub := Gaining(s);
      assert sub.where == Rising(s.where);
      forall e ensures Turns(f, sub.where, e, false, true) { RisingTurns(f, s.where, e); }
      TurningRows(f, sub, s.joins, env, false, true);
      assert Shows(f, Gaining(s), env, Nothing, Shown);
    } else {
      var miss := FirstInner(s.joins);
      HasOn(s.joins, miss);
      MissingRows(f, Gaining(s), s, miss, env);
      var before := if HasRight(s.joins[miss + 1..]) then Blank else Nothing;
      assert Shows(f, Gaining(s), env, before, Shown);
    }
  }

  lemma {:induction false} GainingRows(f: Functions, s: SubShape, env: Env)
    requires !Loses(s) && ExplicitSub(s)
    ensures RowTurns(f, PRESENT, Gaining(s), env, false, true)
    decreases s, 2
  {
    hide Among, SubRows, Sees, Gaining;
    GainingShows(f, s, env);
    var before :| before != Shown && Shows(f, Gaining(s), env, before, Shown);
    AmongSeen(f, SubRows(f, ONE_TABLE, Gaining(s), env), before);
    AmongSeen(f, SubRows(f, ONE_TABLE, WidenSub(Gaining(s)), env), Shown);
  }

  // ----- what MySQL accepts -----

  /** The outer joins have their ON clause, at every depth. */
  predicate OuterOnCond(c: CondShape) {
    match c
    case TestShape => true
    case BothShape(l, r) => OuterOnCond(l) && OuterOnCond(r)
    case EitherShape(l, r) => OuterOnCond(l) && OuterOnCond(r)
    case OppositeShape(x) => OuterOnCond(x)
    case InShape(s) => OuterOnSub(s)
  }

  predicate OuterOnSub(s: SubShape) {
    OuterHaveOn(s.joins) && OuterOnCond(s.where)
  }

  predicate OuterOnNested(n: NestedShape) {
    OuterHaveOn(n.joins) && OuterOnCond(n.cond) && forall s :: s in n.scalars ==> OuterOnSub(s)
  }

  lemma {:induction false} ConstAccepted(c: CondShape, v: bool)
    requires OuterOnCond(c)
    ensures CondAccepted(Const(c, v))
  {
    hide JoinsAccepted, OuterHaveOn, AllMatch;
    match c {
      case TestShape =>
      case BothShape(l, r) => ConstAccepted(l, v); ConstAccepted(r, v);
      case EitherShape(l, r) => ConstAccepted(l, v); ConstAccepted(r, v);
      case OppositeShape(x) => ConstAccepted(x, !v);
      case InShape(s) => ConstSubAccepted(s, v);
    }
  }

  lemma {:induction false} ConstSubAccepted(s: SubShape, v: bool)
    requires OuterOnSub(s)
    ensures SubAccepted(ConstSub(s, v))
  {
    hide JoinsAccepted, OuterHaveOn, AllMatch;
    AllMatchAccepted(s.joins);
    ConstAccepted(s.where, v);
  }

  lemma {:induction false} FallingAccepted(c: CondShape)
    requires !Rises(c) && ExplicitCond(c) && OuterOnCond(c)
    ensures CondAccepted(Falling(c))
  {
    hide Const, Losing, Rising, Adds, ExplicitSub, OuterOnSub, SubAccepted;
    match c {
      case BothShape(l, r) =>
        ConstAccepted(l, true);
        ConstAccepted(r, true);
        if !Rises(l) { FallingAccepted(l); } else { FallingAccepted(r); }
      case EitherShape(l, r) =>
        ConstAccepted(l, false);
        ConstAccepted(r, false);
        if !Rises(l) { FallingAccepted(l); } else { FallingAccepted(r); }
      case OppositeShape(x) => RisingAccepted(x);
      case InShape(s) => LosingAccepted(s);
    }
  }

  lemma {:induction false} RisingAccepted(c: CondShape)
    requires !Falls(c) && ExplicitCond(c) && OuterOnCond(c)
    ensures CondAccepted(Rising(c))
  {
    hide Const, Gaining, Falling, Loses, ExplicitSub, OuterOnSub, SubAccepted;
    match c {
      case BothShape(l, r) =>
        ConstAccepted(l, true);
        ConstAccepted(r, true);
        if !Falls(l) { RisingAccepted(l); } else { RisingAccepted(r); }
      case EitherShape(l, r) =>
        ConstAccepted(l, false);
        ConstAccepted(r, false);
        if !Falls(l) { RisingAccepted(l); } else { RisingAccepted(r); }
      case OppositeShape(x) => FallingAccepted(x);
      case InShape(s) => GainingAccepted(s);
    }
  }

  lemma {:induction false} LosingAccepted(s: SubShape)
    requires !Adds(s) && ExplicitSub(s) && OuterOnSub(s)
    ensures SubAccepted(Losing(s))
  {
    hide JoinsAccepted, OuterHaveOn, AllMatch, OneMisses, Const, Falling, NoRightAfterInner;
    if NoRightAfterInner(s.joins) {
      AllMatchAccepted(s.joins);
      FallingAccepted(s.where);
    } else {
      var miss := InnerBeforeRight(s.joins);
      HasOn(s.joins, miss);
      OneMissesAccepted(s.joins, miss);
      ConstAccepted(s.where, true);
    }
  }

  lemma {:induction false} GainingAccepted(s: SubShape)
    requires !Loses(s) && ExplicitSub(s) && OuterOnSub(s)
    ensures SubAccepted(Gaining(s))
  {
    hide JoinsAccepted, OuterHaveOn, AllMatch, OneMisses, Const, Rising, NoInner;
    if NoInner(s.joins) {
      AllMatchAccepted(s.joins);
      RisingAccepted(s.where);
    } else {
      var miss := FirstInner(s.joins);
      HasOn(s.joins, miss);
      OneMissesAccepted(s.joins, miss);
      ConstAccepted(s.where, true);
    }
  }

  // ----- counts -----

  function ScalarOf(sub: Subquery, i: nat): Scalar {
    Scalar(Alias(i), "count", Col("b", "x"), sub)
  }

  /** A subquery of that shape whose count widening changes. */
  function Changed(s: SubShape): Subquery
    requires !Untouched(s) && ExplicitSub(s)
  {
    UntouchedIff(s);
    if !Adds(s) then Losing(s) else Gaining(s)
  }

  function CountBefore(s: SubShape): int {
    if !Adds(s) && NoRightAfterInner(s.joins) then 1 else 0
  }

  lemma {:induction false} CountSeen(f: Functions, rows: seq<Env>, seen: Seen)
    requires Sees(rows, seen)
    ensures CountValues(EvalEach(f, Col("b", "x"), rows)) == if seen.Shown? then 1 else 0
  {
    if rows != [] {
      assert rows[1..] == [] && rows[..1] == rows;
      var v := Eval(f, Col("b", "x"), rows);
      assert v.Null? <==> seen.Blank?;
      assert EvalEach(f, Col("b", "x"), rows) == [v] + EvalEach(f, Col("b", "x"), []) == [v];
      assert CountValues([v]) == (if v.Null? then 0 else 1) + CountValues([v][1..]);
    }
  }

  lemma {:induction false} CountIs(f: Functions, sub: Subquery, i: nat, env: Env, seen: Seen)
    requires Sees(SubRows(f, ONE_TABLE, sub, env), seen)
    ensures ScalarValue(f, ONE_TABLE, ScalarOf(sub, i), env) == Int(if seen.Shown? then 1 else 0)
  {
    hide SubRows, Sees, Alias, ONE_TABLE, CountValues;
    CountSeen(f, SubRows(f, ONE_TABLE, sub, env), seen);
  }

  /** One row is counted before and none after, or none before and one after. */
  lemma {:induction false} ChangedCounts(f: Functions, s: SubShape, i: nat, env: Env)
    requires !Untouched(s) && ExplicitSub(s)
    ensures ScalarValue(f, ONE_TABLE, ScalarOf(Changed(s), i), env) == Int(CountBefore(s))
    ensures ScalarValue(f, ONE_TABLE, ScalarOf(WidenSub(Changed(s)), i), env) == Int(1 - CountBefore(s))
  {
    hide ScalarValue, Sees, SubRows, Losing, Gaining, WidenSub, ONE_TABLE, NoRightAfterInner, Alias, Untouched;
    hide ExplicitSub, Adds, Loses;
    UntouchedIff(s);
    var sub := Changed(s);
    if !Adds(s) {
      LosingShows(f, s, env);
      CountIs(f, sub, i, env, LosingBefore(s));
      CountIs(f, WidenSub(sub), i, env, LosingAfter(s));
    } else {
      GainingShows(f, s, env);
      var before :| before != Shown && Shows(f, sub, env, before, Shown);
      CountIs(f, sub, i, env, before);
      CountIs(f, WidenSub(sub), i, env, Shown);
    }
  }

  /** Scalars of the given shapes, all of them constant but the one at `changed`. */
  function Counts(shapes: seq<SubShape>, changed: int): (r: seq<Scalar>)
    requires 0 <= changed < |shapes| ==> !Untouched(shapes[changed]) && ExplicitSub(shapes[changed])
    ensures |r| == |shapes|
  {
    if shapes == [] then []
    else
      [ScalarOf(if changed == 0 then Changed(shapes[0]) else ConstSub(shapes[0], true), |shapes|)]
      + Counts(shapes[1..], changed - 1)
  }

  lemma {:induction false} ChangedShape(s: SubShape)
    requires !Untouched(s) && ExplicitSub(s)
    ensures ShapeOfSub(Changed(s)) == s
  {
    UntouchedIff(s);
    if !Adds(s) { LosingShape(s); } else { GainingShape(s); }
  }

  /** The subquery of the first of them. */
  function FirstCounted(shapes: seq<SubShape>, changed: int): Subquery
    requires shapes != [] && (changed == 0 ==> !Untouched(shapes[0]) && ExplicitSub(shapes[0]))
  {
    if changed == 0 then Changed(shapes[0]) else ConstSub(shapes[0], true)
  }

  lemma {:induction false} CountsFirst(shapes: seq<SubShape>, changed: int)
    requires shapes != []
    requires 0 <= changed < |shapes| ==> !Untouched(shapes[changed]) && ExplicitSub(shapes[changed])
    ensures Counts(shapes, changed)
      == [ScalarOf(FirstCounted(shapes, changed), |shapes|)] + Counts(shapes[1..], changed - 1)
  {
    hide Changed, ConstSub, Alias, Untouched, ExplicitSub;
  }

  lemma {:induction false} ShapesFirst(s: Scalar, rest: seq<Scalar>)
    ensures ShapesOfScalars([s] + rest) == [ShapeOfSub(s.sub)] + ShapesOfScalars(rest)
  {
    hide ShapeOfSub;
    assert ([s] + rest)[1..] == rest;
  }

  lemma {:induction false} FirstCountedShape(shapes: seq<SubShape>, changed: int)
    requires shapes != [] && (changed == 0 ==> !Untouched(shapes[0]) && ExplicitSub(shapes[0]))
    ensures ShapeOfSub(FirstCounted(shapes, changed)) == shapes[0]
  {
    hide Changed, ConstSub, ShapeOfSub, Untouched, ExplicitSub;
    if changed == 0 { ChangedShape(shapes[0]); } else { ConstSubShape(shapes[0]); }
  }

  lemma {:induction false} CountsShape(shapes: seq<SubShape>, changed: int)
    requires 0 <= changed < |shapes| ==> !Untouched(shapes[changed]) && ExplicitSub(shapes[changed])
    ensures ShapesOfScalars(Counts(shapes, changed)) == shapes
  {
    hide Counts, FirstCounted, ShapeOfSub, ShapesOfScalars, Untouched, ExplicitSub, Alias;
    if shapes == [] {
      NoCounts(changed);
    } else {
      var rest := Counts(shapes[1..], changed - 1);
      CountsFirst(shapes, changed);
      FirstCountedShape(shapes, changed);
      CountsShape(shapes[1..], changed - 1);
      ShapesFirst(ScalarOf(FirstCounted(shapes, changed), |shapes|), rest);
      assert shapes == [shapes[0]] + shapes[1..];
    }
  }

  lemma {:induction false} NoCounts(changed: int)
    ensures Counts([], changed) == [] && ShapesOfScalars([]) == []
  {
  }

  lemma {:induction false} ConstSubShape(s: SubShape)
    ensures ShapeOfSub(ConstSub(s, true)) == s
  {
    ConstShape(s.where, true);
  }

  lemma {:induction false} CountsAccepted(shapes: seq<SubShape>, changed: int)
    requires 0 <= changed < |shapes| ==> !Untouched(shapes[changed]) && ExplicitSub(shapes[changed])
    requires forall s :: s in shapes ==> OuterOnSub(s)
    ensures forall s :: s in Counts(shapes, changed) ==> SubAccepted(s.sub)
  {
    hide Counts, Changed, ConstSub, SubAccepted, Untouched, ExplicitSub, OuterOnSub, Alias;
    if shapes == [] {
      NoCounts(changed);
    } else {
      assert OuterOnSub(shapes[0]);
      if changed == 0 { ChangedAccepted(shapes[0]); } else { ConstSubAccepted(shapes[0], true); }
      CountsFirst(shapes, changed);
      CountsAccepted(shapes[1..], changed - 1);
    }
  }

  lemma {:induction false} ChangedAccepted(s: SubShape)
    requires !Untouched(s) && ExplicitSub(s) && OuterOnSub(s)
    ensures SubAccepted(Changed(s))
  {
    UntouchedIff(s);
    if !Adds(s) { LosingAccepted(s); } else { GainingAccepted(s); }
  }

  // ----- the row with its counts -----

  function OneScalar(f: Functions, s: Scalar, env: Env): Env {
    env["" := RowOf(env, "")[s.name := ScalarValue(f, ONE_TABLE, s, env)]]
  }

  lemma {:induction false} FirstScalar(f: Functions, s: Scalar, rest: seq<Scalar>, env: Env)
    ensures WithScalars(f, ONE_TABLE, [s] + rest, env) == WithScalars(f, ONE_TABLE, rest, OneScalar(f, s, env))
    ensures WithScalars(f, ONE_TABLE, [], env) == env
    ensures Field(RowOf(OneScalar(f, s, env), ""), s.name) == ScalarValue(f, ONE_TABLE, s, env)
    ensures RowOf(OneScalar(f, s, env), "b") == RowOf(env, "b")
    ensures forall n :: n != s.name ==> Field(RowOf(OneScalar(f, s, env), ""), n) == Field(RowOf(env, ""), n)
  {
    hide ScalarValue, ONE_TABLE;
    assert ([s] + rest)[1..] == rest;
  }

  predicate Numbered(scalars: seq<Scalar>) {
    forall i :: 0 <= i < |scalars| ==> scalars[i].name == Alias(|scalars| - i)
  }

  /** Scalars do not touch the base table, nor a name that none of them has. */
  lemma {:induction false} OtherScalars(f: Functions, scalars: seq<Scalar>, n: nat, env: Env)
    requires Numbered(scalars) && n > |scalars|
    ensures var e := WithScalars(f, ONE_TABLE, scalars, env);
      RowOf(e, "b") == RowOf(env, "b") && Field(RowOf(e, ""), Alias(n)) == Field(RowOf(env, ""), Alias(n))
    decreases |scalars|
  {
    hide WithScalars, ScalarValue, ONE_TABLE, RowOf, Field, OneScalar, Alias;
    if scalars == [] {
      FirstScalar(f, ScalarOf(Subquery("t", "b", [], Test(YES)), 0), [], env);
    } else {
      var s, rest := scalars[0], scalars[1..];
      assert scalars == [s] + rest;
      FirstScalar(f, s, rest, env);
      NamedRest(scalars);
      OtherName(n, |scalars|);
      OtherScalars(f, rest, n, OneScalar(f, s, env));
    }
  }

  lemma {:induction false} NamedRest(scalars: seq<Scalar>)
    requires Numbered(scalars) && scalars != []
    ensures Numbered(scalars[1..]) && scalars[0].name == Alias(|scalars|)
  {
    hide Alias;
    forall i | 0 <= i < |scalars| - 1 ensures scalars[1..][i].name == Alias(|scalars| - 1 - i) {
      assert scalars[1..][i] == scalars[i + 1];
    }
  }

  lemma {:induction false} OtherName(n: nat, m: nat)
    requires n != m
    ensures Alias(n) != Alias(m)
  {
    assert |Alias(n)| != |Alias(m)|;
  }

  lemma {:induction false} NumberedCons(s: Scalar, rest: seq<Scalar>)
    requires Numbered(rest) && s.name == Alias(|rest| + 1)
    ensures Numbered([s] + rest)
  {
    hide Alias;
    var all := [s] + rest;
    forall i | 0 <= i < |all| ensures all[i].name == Alias(|all| - i) { if i > 0 { assert all[i] == rest[i - 1]; } }
  }

  lemma {:induction false} CountsNumbered(shapes: seq<SubShape>, changed: int)
    requires 0 <= changed < |shapes| ==> !Untouched(shapes[changed]) && ExplicitSub(shapes[changed])
    ensures Numbered(Counts(shapes, changed)) && Numbered(WidenScalars(Counts(shapes, changed)))
  {
    hide FirstCounted, Untouched, ExplicitSub, Alias, Counts, WidenSub, Numbered, WidenScalars;
    if shapes == [] {
      NoneNumbered(changed);
    } else {
      var rest, s := Counts(shapes[1..], changed - 1), ScalarOf(FirstCounted(shapes, changed), |shapes|);
      CountsFirst(shapes, changed);
      CountsNumbered(shapes[1..], changed - 1);
      NumberedCons(s, rest);
      WidenFirst(s, rest);
      NumberedCons(s.(sub := WidenSub(s.sub)), WidenScalars(rest));
    }
  }

  lemma {:induction false} NoneNumbered(changed: int)
    ensures Numbered(Counts([], changed)) && Numbered(WidenScalars(Counts([], changed)))
  {
  }

  /** A scalar that widening makes another one, at the head of scalars that do not touch its column. */
  lemma {:induction false} FirstColumn(f: Functions, s: Scalar, rest: seq<Scalar>, env: Env)
    requires Numbered(rest) && s.name == Alias(|rest| + 1)
    ensures Field(RowOf(WithScalars(f, ONE_TABLE, [s] + rest, env), ""), s.name) == ScalarValue(f, ONE_TABLE, s, env)
  {
    hide WithScalars, ScalarValue, ONE_TABLE, RowOf, Field, OneScalar, Alias, Numbered;
    FirstScalar(f, s, rest, env);
    OtherScalars(f, rest, |rest| + 1, OneScalar(f, s, env));
  }

  lemma {:induction false} CountsParts(shapes: seq<SubShape>, changed: int)
    requires shapes != []
    requires 0 <= changed < |shapes| ==> !Untouched(shapes[changed]) && ExplicitSub(shapes[changed])
    ensures var s, rest := ScalarOf(FirstCounted(shapes, changed), |shapes|), Counts(shapes[1..], changed - 1);
      && Counts(shapes, changed) == [s] + rest && Numbered(rest) && Numbered(WidenScalars(rest))
        && |rest| == |shapes| - 1
      && WidenScalars(Counts(shapes, changed)) == [s.(sub := WidenSub(s.sub))] + WidenScalars(rest)
  {
    hide Counts, Alias, FirstCounted, Untouched, ExplicitSub, WidenSub, Numbered, WidenScalars;
    CountsFirst(shapes, changed);
    CountsNumbered(shapes[1..], changed - 1);
    WidenFirst(ScalarOf(FirstCounted(shapes, changed), |shapes|), Counts(shapes[1..], changed - 1));
  }

  /** The count at `changed`, before and after widening, in the row with all counts. */
  ghost predicate CountShows(f: Functions, shapes: seq<SubShape>, changed: nat, a: Env, b: Env)
    requires changed < |shapes| && !Untouched(shapes[changed]) && ExplicitSub(shapes[changed])
  {
    var counts, name := Counts(shapes, changed), Alias(|shapes| - changed);
    && Field(RowOf(WithScalars(f, ONE_TABLE, counts, a), ""), name) == Int(CountBefore(shapes[changed]))
    && Field(RowOf(WithScalars(f, ONE_TABLE, WidenScalars(counts), b), ""), name)
      == Int(1 - CountBefore(shapes[changed]))
  }

  lemma {:induction false} CountNow(f: Functions, shapes: seq<SubShape>, a: Env, b: Env)
    requires shapes != [] && !Untouched(shapes[0]) && ExplicitSub(shapes[0])
    ensures CountShows(f, shapes, 0, a, b)
  {
    hide Changed, Losing, Gaining, ConstSub, Counts, WithScalars, ScalarValue, ONE_TABLE, RowOf, Field, Alias;
    hide FirstCounted, Untouched, ExplicitSub, CountBefore, WidenSub, Numbered, WidenScalars;
    var rest := Counts(shapes[1..], -1);
    var s := ScalarOf(FirstCounted(shapes, 0), |shapes|);
    CountsParts(shapes, 0);
    FirstIsChanged(shapes);
    ChangedCounts(f, shapes[0], |shapes|, a);
    ChangedCounts(f, shapes[0], |shapes|, b);
    FirstColumn(f, s, rest, a);
    FirstColumn(f, s.(sub := WidenSub(s.sub)), WidenScalars(rest), b);
  }

  lemma {:induction false} CountLater(f: Functions, shapes: seq<SubShape>, changed: nat, a: Env, b: Env)
    requires 0 < changed < |shapes| && !Untouched(shapes[changed]) && ExplicitSub(shapes[changed])
    requires var s := ScalarOf(FirstCounted(shapes, changed), |shapes|); var t := s.(sub := WidenSub(s.sub));
      CountShows(f, shapes[1..], changed - 1, OneScalar(f, s, a), OneScalar(f, t, b))
    ensures CountShows(f, shapes, changed, a, b)
  {
    hide Counts, WithScalars, ScalarValue, ONE_TABLE, RowOf, Field, OneScalar, Alias, FirstCounted, Untouched;
    hide ExplicitSub, CountBefore, WidenSub, Numbered, WidenScalars;
    var rest := Counts(shapes[1..], changed - 1);
    var s := ScalarOf(FirstCounted(shapes, changed), |shapes|);
    CountsParts(shapes, changed);
    FirstScalar(f, s, rest, a);
    FirstScalar(f, s.(sub := WidenSub(s.sub)), WidenScalars(rest), b);
    assert shapes[1..][changed - 1] == shapes[changed];
  }

  lemma {:induction false} CountColumn(f: Functions, shapes: seq<SubShape>, changed: nat, a: Env, b: Env)
    requires changed < |shapes| && !Untouched(shapes[changed]) && ExplicitSub(shapes[changed])
    ensures CountShows(f, shapes, changed, a, b)
    decreases changed
  {
    hide CountShows, FirstCounted, Untouched, ExplicitSub, WidenSub, OneScalar, Alias;
    if changed == 0 {
      CountNow(f, shapes, a, b);
    } else {
      var s := ScalarOf(FirstCounted(shapes, changed), |shapes|);
      assert shapes[1..][changed - 1] == shapes[changed];
      CountColumn(f, shapes[1..], changed - 1, OneScalar(f, s, a), OneScalar(f, s.(sub := WidenSub(s.sub)), b));
      CountLater(f, shapes, changed, a, b);
    }
  }

  lemma {:induction false} WidenFirst(s: Scalar, rest: seq<Scalar>)
    ensures WidenScalars([s] + rest) == [s.(sub := WidenSub(s.sub))] + WidenScalars(rest)
  {
    hide WidenSub;
    assert ([s] + rest)[1..] == rest;
  }

  lemma {:induction false} FirstIsChanged(shapes: seq<SubShape>)
    requires shapes != [] && !Untouched(shapes[0]) && ExplicitSub(shapes[0])
    ensures FirstCounted(shapes, 0) == Changed(shapes[0])
  {
    hide Changed;
  }

  // ----- the queries -----

  /** `SELECT <item> FROM t b <joins> WHERE <cond>` */
  function Witness(joins: seq<Join>, item: Expr, cond: Cond, scalars: seq<Scalar>): Nested {
    Nested(Query(false, [Item(item, Unnamed)], "t", "b", joins, YES, Ungrouped, YES, [], None), cond, scalars)
  }

  lemma {:induction false} WitnessIsQualified(f: Functions, joins: seq<Join>, item: Expr, cond: Cond,
          scalars: seq<Scalar>)
    requires item.Col? && forall j :: j in joins ==> OnNames(j) == {}
    ensures var q := Witness(joins, item, cond, scalars).q; Resolves(f, q) && Qualified(f, q) == q && Plain(q)
  {
    hide OnNames, Resolves, Qualified, Plain;
    var q := Witness(joins, item, cond, scalars).q;
    assert q.items[1..] == [] && ItemNames(q.items) == {} + ItemNames([]);
    PlainWitness(joins, item, cond, scalars);
    assert GroupKeys(q.grouping) == [] && UnqualifiedAll([]) == {} && OrderExprs([]) == [];
    NothingChanges(f, q);
  }

  predicate LiteralOns(joins: seq<Join>) {
    forall j :: j in joins && j.on.Some? ==> j.on.value.Lit?
  }

  lemma {:induction false} NoNamesInOns(joins: seq<Join>)
    requires LiteralOns(joins)
    ensures forall j :: j in joins ==> OnNames(j) == {}
  {
  }

  lemma {:induction false} LiteralCons(j: Join, js: seq<Join>)
    requires LiteralOns(js) && (j.on.Some? ==> j.on.value.Lit?)
    ensures LiteralOns([j] + js)
  {
  }

  lemma {:induction false} LiteralMatches(shapes: seq<Shape>)
    ensures LiteralOns(AllMatch(shapes))
  {
    hide LiteralOns, Alias;
    if shapes == [] {
      assert LiteralOns([]) by { NoLiteral(); }
    } else {
      LiteralMatches(shapes[1..]);
      LiteralCons(Always(shapes[0], |shapes|), AllMatch(shapes[1..]));
    }
  }

  lemma {:induction false} NoLiteral()
    ensures LiteralOns([])
  {
  }

  lemma {:induction false} LiteralMisses(shapes: seq<Shape>, miss: nat)
    requires miss < |shapes| && shapes[miss].on
    ensures LiteralOns(OneMisses(shapes, miss))
  {
    hide LiteralOns, Alias, OneMisses, AllMatch;
    if miss == 0 {
      MissFirst(shapes);
      LiteralMatches(shapes[1..]);
      LiteralCons(Never(shapes[0], |shapes|), AllMatch(shapes[1..]));
    } else {
      MissLater(shapes, miss);
      LiteralMisses(shapes[1..], miss - 1);
      LiteralCons(Always(shapes[0], |shapes|), OneMisses(shapes[1..], miss - 1));
    }
  }

  lemma {:induction false} LiteralWidened(joins: seq<Join>)
    requires LiteralOns(joins)
    ensures LiteralOns(WidenJoins(joins))
  {
    forall j | j in WidenJoins(joins) && j.on.Some? ensures j.on.value.Lit? {
      var i :| 0 <= i < |joins| && WidenJoins(joins)[i] == j;
      assert joins[i] in joins;
    }
  }

  lemma {:induction false} BagOfOne(f: Functions, q: Query, env: Env)
    requires q.having == YES && |q.items| == 1 && q.items[0].Item?
    ensures Bag(f, q, [env]) == multiset{[One(Eval(f, q.items[0].e, [env]))]} && Bag(f, q, []) == multiset{}
  {
    var envs, row := [env], [One(Eval(f, q.items[0].e, [env]))];
    assert envs == envs[..1] && envs[1..] == [] && q.items[1..] == [];
    assert Cells(f, q.items, envs) == row + Cells(f, [], envs) == row;
    assert IsTrue(Eval(f, q.having, envs));
    assert Bag(f, q, envs) == multiset{row} + Bag(f, q, []);
  }

  lemma {:induction false} EachOfOne(f: Functions, scalars: seq<Scalar>, env: Env)
    ensures EachWithScalars(f, ONE_TABLE, scalars, [env]) == [WithScalars(f, ONE_TABLE, scalars, env)]
  {
    hide WithScalars, ONE_TABLE;
    assert [env][1..] == [];
  }

  /** The rows of the witness, from those of its joins. */
  lemma {:induction false} WitnessSource(f: Functions, n: Nested, env: Env, v: bool)
    requires n.q.where == YES && n.q.alias == "b" && n.q.table == "t"
    requires forall e :: CondValue(f, ONE_TABLE, n.cond, e) == Bool(v)
    requires Steps(f, ONE_TABLE, map[], [map["b" := ONE_ROW]], n.q.joins) == [env]
    ensures NestedSource(f, ONE_TABLE, n.q, n.cond, n.scalars) == if v then [WithScalars(f, ONE_TABLE, n.scalars, env)]
      else []
  {
    hide CondValue, Steps, Base, WithScalars, ONE_TABLE, Filter, Where;
    BaseOfOne(map[]);
    var e := WithScalars(f, ONE_TABLE, n.scalars, env);
    EachOfOne(f, n.scalars, env);
    WhereAgain(f, [e]);
    FilterConst(f, ONE_TABLE, n.cond, v, [e]);
    assert Base(map[], n.q.alias, Rows(ONE_TABLE, n.q.table)) == [map["b" := ONE_ROW]];
  }

  lemma {:induction false} WitnessResult(f: Functions, n: Nested, joins: seq<Join>, item: Expr, env: Env, v: bool)
    requires n == Witness(joins, item, n.cond, n.scalars) && item.Col? && NestedAccepted(n)
    requires LiteralOns(joins)
    requires forall e :: CondValue(f, ONE_TABLE, n.cond, e) == Bool(v)
    requires Steps(f, ONE_TABLE, map[], [map["b" := ONE_ROW]], joins) == [env]
    ensures NestedResult(f, ONE_TABLE, n).Some?
    ensures multiset(NestedResult(f, ONE_TABLE, n).value)
         == if v then multiset{[One(Eval(f, item, [WithScalars(f, ONE_TABLE, n.scalars, env)]))]} else multiset{}
  {
    hide CondValue, Steps, WithScalars, ONE_TABLE, NestedAccepted, Resolves, Qualified, NestedSource, Bag, OnNames;
    hide NestedRows;
    NoNamesInOns(joins);
    WitnessIsQualified(f, joins, item, n.cond, n.scalars);
    SomeResult(f, n);
    PlainResult(f, ONE_TABLE, n);
    NestedBag(f, ONE_TABLE, n.q, n.cond, n.scalars);
    WitnessSource(f, n, env, v);
    BagOfOne(f, n.q, WithScalars(f, ONE_TABLE, n.scalars, env));
  }

  lemma {:induction false} SomeResult(f: Functions, n: Nested)
    requires NestedAccepted(n) && Resolves(f, n.q)
    ensures NestedResult(f, ONE_TABLE, n).Some?
  {
    hide NestedAccepted, Resolves, Qualified, NestedSource, Project, Sort, Having, Groups, Distinct, Take;
  }

  /** The widened query has each row of the original at least as often: MySQL does not refuse it. */
  ghost predicate KeepsRows(f: Functions, db: Db, n: Nested)
    requires NestedResult(f, db, n).Some?
  {
    var w := NestedResult(f, db, Widened(n));
    w.Some? && multiset(NestedResult(f, db, n).value) <= multiset(w.value)
  }

  lemma {:induction false} SingleIs(envs: seq<Env>, base: Record)
    requires SingleRow(envs, base)
    ensures envs == [envs[0]] && RowOf(envs[0], "b") == base
  {
  }

  /** A witness with all its joins matching: its row before and after. */
  lemma {:induction false} MatchingRows(f: Functions, shapes: seq<Shape>) returns (a: Env, b: Env)
    ensures Steps(f, ONE_TABLE, map[], [map["b" := ONE_ROW]], AllMatch(shapes)) == [a] && RowOf(a, "b") == ONE_ROW
    ensures Steps(f, ONE_TABLE, map[], [map["b" := ONE_ROW]], WidenJoins(AllMatch(shapes))) == [b]
    ensures RowOf(b, "b") == ONE_ROW
  {
    hide Steps, AllMatch, WidenJoins, SingleRow, ONE_TABLE;
    var start := map["b" := ONE_ROW];
    assert RowOf(start, "b") == ONE_ROW;
    MatchingSteps(f, map[], start, shapes);
    var before := Steps(f, ONE_TABLE, map[], [start], AllMatch(shapes));
    var after := Steps(f, ONE_TABLE, map[], [start], WidenJoins(AllMatch(shapes)));
    SingleIs(before, ONE_ROW);
    SingleIs(after, ONE_ROW);
    a, b := before[0], after[0];
  }

  lemma {:induction false} MissingRow(f: Functions, shapes: seq<Shape>, miss: nat) returns (a: Env, b: Env)
    requires miss < |shapes| && shapes[miss] == Shape(Inner, true) && HasRight(shapes[miss + 1..])
    ensures Steps(f, ONE_TABLE, map[], [map["b" := ONE_ROW]], OneMisses(shapes, miss)) == [a] && RowOf(a, "b") == map[]
    ensures Steps(f, ONE_TABLE, map[], [map["b" := ONE_ROW]], WidenJoins(OneMisses(shapes, miss))) == [b]
    ensures RowOf(b, "b") == ONE_ROW
  {
    hide Steps, OneMisses, WidenJoins, SingleRow, ONE_TABLE, HasRight;
    var start := map["b" := ONE_ROW];
    assert RowOf(start, "b") == ONE_ROW;
    MissSteps(f, map[], start, shapes, miss);
    var joins := OneMisses(shapes, miss);
    var before := Steps(f, ONE_TABLE, map[], [start], joins);
    var after := Steps(f, ONE_TABLE, map[], [start], WidenJoins(joins));
    SingleIs(before, map[]);
    SingleIs(after, ONE_ROW);
    a, b := before[0], after[0];
  }

  lemma {:induction false} BaseColumn(f: Functions, scalars: seq<Scalar>, env: Env)
    requires Numbered(scalars)
    ensures Eval(f, Col("b", "x"), [WithScalars(f, ONE_TABLE, scalars, env)]) == Field(RowOf(env, "b"), "x")
  {
    hide WithScalars, Numbered, RowOf;
    OtherScalars(f, scalars, |scalars| + 1, env);
  }

  predicate IsCounts(scalars: seq<Scalar>, shapes: seq<SubShape>) {
    && Numbered(scalars) && Numbered(WidenScalars(scalars)) && ShapesOfScalars(scalars) == shapes
    && forall s :: s in scalars ==> SubAccepted(s.sub)
  }

  lemma {:induction false} CountsAre(shapes: seq<SubShape>, changed: int)
    requires 0 <= changed < |shapes| ==> !Untouched(shapes[changed]) && ExplicitSub(shapes[changed])
    requires forall s :: s in shapes ==> OuterOnSub(s)
    ensures IsCounts(Counts(shapes, changed), shapes)
  {
    hide Counts, Numbered, SubAccepted, ShapesOfScalars, Untouched, ExplicitSub, OuterOnSub, WidenScalars;
    CountsNumbered(shapes, changed);
    CountsShape(shapes, changed);
    CountsAccepted(shapes, changed);
  }

  /** The shape of a witness, and that MySQL accepts it. */
  lemma {:induction false} WitnessFits(n: NestedShape, joins: seq<Join>, item: Expr, cond: Cond, scalars: seq<Scalar>)
    requires Shapes(joins) == n.joins && JoinsAccepted("b", joins) && ShapeOfCond(cond) == n.cond && CondAccepted(cond)
    requires IsCounts(scalars, n.scalars)
    ensures var w := Witness(joins, item, cond, scalars);
      ShapeOfNested(w) == n && NestedAccepted(w) && (NestedAccepted(Widened(w)) <==> ExplicitNested(n))
  {
    hide JoinsAccepted, CondAccepted, SubAccepted, Shapes, ShapeOfCond, ShapesOfScalars, ExplicitNested, Widened;
    hide Numbered;
    var w := Witness(joins, item, cond, scalars);
    AcceptedJoins(w.q);
    WidenedIsAccepted(w);
  }

  /** An inner join without ON becomes a LEFT JOIN without ON, at any depth: MySQL refuses the query. */
  lemma {:induction false} NoOnIsRefused(f: Functions, n: NestedShape) returns (w: Nested)
    requires OuterOnNested(n) && !ExplicitNested(n)
    ensures Plain(w.q) && ShapeOfNested(w) == n && NestedResult(f, ONE_TABLE, w).Some?
    ensures NestedResult(f, ONE_TABLE, Widened(w)).None?
  {
    hide JoinsAccepted, CondAccepted, IsCounts, Shapes, ShapeOfCond, AllMatch, Const, Counts, NestedAccepted, Resolves;
    hide ExplicitNested, Qualified;
    hide ShapeOfNested, Widened, OuterHaveOn, OuterOnCond, OuterOnSub, OnNames;
    var joins, item := AllMatch(n.joins), Col("b", "x");
    AllMatchAccepted(n.joins);
    ConstAccepted(n.cond, true);
    ConstShape(n.cond, true);
    CountsAre(n.scalars, -1);
    WitnessFits(n, joins, item, Const(n.cond, true), Counts(n.scalars, -1));
    w := Witness(joins, item, Const(n.cond, true), Counts(n.scalars, -1));
    LiteralMatches(n.joins);
    NoNamesInOns(joins);
    WitnessIsQualified(f, joins, item, w.cond, w.scalars);
    SomeResult(f, w);
    RefusedResult(f, Widened(w));
  }

  lemma {:induction false} RefusedResult(f: Functions, n: Nested)
    requires !NestedAccepted(n)
    ensures NestedResult(f, ONE_TABLE, n).None?
  {
    hide NestedAccepted;
  }

  lemma {:induction false} WidenedWitness(joins: seq<Join>, item: Expr, cond: Cond, scalars: seq<Scalar>)
    ensures Widened(Witness(joins, item, cond, scalars))
      == Witness(WidenJoins(joins), item, WidenCond(cond), WidenScalars(scalars))
  {
    hide WidenJoins, WidenCond, WidenScalars;
  }

  /** A RIGHT JOIN after an inner join: the row without the base table is lost. */
  lemma {:induction false} RightJoinLosesRows(f: Functions, n: NestedShape) returns (w: Nested)
    requires OuterOnNested(n) && ExplicitNested(n) && !NoRightAfterInner(n.joins)
    ensures Plain(w.q) && ShapeOfNested(w) == n && NestedResult(f, ONE_TABLE, w).Some? && !KeepsRows(f, ONE_TABLE, w)
  {
    hide JoinsAccepted, CondAccepted, Shapes, ShapeOfCond, OneMisses, Const, Counts, NestedAccepted, Numbered;
    hide SubAccepted, ShapesOfScalars, CondValue;
    hide ShapeOfNested, OuterHaveOn, OuterOnCond, OuterOnSub, NestedResult, WidenJoins, WidenCond, WidenScalars;
    hide AllExplicit, ExplicitCond, ExplicitSub;
    hide HasRight, WithScalars, Steps, RowOf, Widened, ONE_TABLE, Plain;
    var miss, item := InnerBeforeRight(n.joins), Col("b", "x");
    HasOn(n.joins, miss);
    var joins, cond, counts := OneMisses(n.joins, miss), Const(n.cond, true), Counts(n.scalars, -1);
    OneMissesAccepted(n.joins, miss);
    ConstAccepted(n.cond, true);
    ConstShape(n.cond, true);
    CountsAre(n.scalars, -1);
    WitnessFits(n, joins, item, cond, counts);
    w := Witness(joins, item, cond, counts);
    PlainWitness(joins, item, cond, counts);
    WidenedWitness(joins, item, cond, counts);
    forall e
      ensures CondValue(f, ONE_TABLE, cond, e) == CondValue(f, ONE_TABLE, WidenCond(cond), e) == Bool(true)
    {
      ConstValue(f, n.cond, true, e);
    }
    LiteralMisses(n.joins, miss);
    LiteralWidened(joins);
    var a, b := MissingRow(f, n.joins, miss);
    WitnessResult(f, w, joins, item, a, true);
    WitnessResult(f, Widened(w), WidenJoins(joins), item, b, true);
    BaseColumn(f, counts, a);
    BaseColumn(f, WidenScalars(counts), b);
    OneRowDiffers(One(Null), One(Int(1)));
  }

  lemma {:induction false} PlainWitness(joins: seq<Join>, item: Expr, cond: Cond, scalars: seq<Scalar>)
    requires item.Col?
    ensures Plain(Witness(joins, item, cond, scalars).q)
  {
    var q := Witness(joins, item, cond, scalars).q;
    assert q.items == [q.items[0]] && !ItemsAggregate(q.items);
    assert OrderExprs(q.order) == [];
  }

  lemma {:induction false} OneRowDiffers(x: Cell, y: Cell)
    requires x != y
    ensures !(multiset{[x]} <= multiset{[y]}) && !(multiset{[x]} <= multiset{})
    ensures Field(map[], "x") == Null && Field(ONE_ROW, "x") == Int(1)
  {
    assert [x][0] != [y][0];
    assert multiset{[x]}[[x]] == 1 && multiset{[y]}[[x]] == 0;
  }

  /** A condition that widening turns false: the row is lost. */
  lemma {:induction false} NotInLosesRows(f: Functions, n: NestedShape) returns (w: Nested)
    requires OuterOnNested(n) && ExplicitNested(n) && !Rises(n.cond)
    ensures Plain(w.q) && ShapeOfNested(w) == n && NestedResult(f, ONE_TABLE, w).Some? && !KeepsRows(f, ONE_TABLE, w)
  {
    hide JoinsAccepted, CondAccepted, Shapes, ShapeOfCond, AllMatch, Falling, Counts, NestedAccepted, Numbered;
    hide SubAccepted, ShapesOfScalars, CondValue;
    hide ShapeOfNested, OuterHaveOn, OuterOnCond, OuterOnSub, NestedResult, WidenJoins, WidenCond, WidenScalars;
    hide AllExplicit, ExplicitCond, ExplicitSub;
    hide WithScalars, Steps, RowOf, Widened, ONE_TABLE, Plain, Rises;
    var item, joins, cond, counts := Col("b", "x"), AllMatch(n.joins), Falling(n.cond), Counts(n.scalars, -1);
    AllMatchAccepted(n.joins);
    FallingAccepted(n.cond);
    FallingShape(n.cond);
    CountsAre(n.scalars, -1);
    WitnessFits(n, joins, item, cond, counts);
    w := Witness(joins, item, cond, counts);
    PlainWitness(joins, item, cond, counts);
    WidenedWitness(joins, item, cond, counts);
    forall e
      ensures CondValue(f, ONE_TABLE, cond, e) == Bool(true)
      ensures CondValue(f, ONE_TABLE, WidenCond(cond), e) == Bool(false)
    {
      FallingTurns(f, n.cond, e);
    }
    LiteralMatches(n.joins);
    LiteralWidened(joins);
    var a, b := MatchingRows(f, n.joins);
    WitnessResult(f, w, joins, item, a, true);
    WitnessResult(f, Widened(w), WidenJoins(joins), item, b, false);
    BaseColumn(f, counts, a);
    OneRowDiffers(One(Int(1)), One(Null));
  }

  /** A count that widening changes: the row is another one. */
  lemma {:induction false} CountChangesRows(f: Functions, n: NestedShape, changed: nat) returns (w: Nested)
    requires OuterOnNested(n) && ExplicitNested(n) && changed < |n.scalars| && !Untouched(n.scalars[changed])
    ensures Plain(w.q) && ShapeOfNested(w) == n && NestedResult(f, ONE_TABLE, w).Some? && !KeepsRows(f, ONE_TABLE, w)
  {
    hide JoinsAccepted, CondAccepted, Shapes, ShapeOfCond, AllMatch, Const, Counts, NestedAccepted, Numbered;
    hide SubAccepted, ShapesOfScalars, CondValue;
    hide ShapeOfNested, OuterHaveOn, OuterOnCond, OuterOnSub, NestedResult, WidenJoins, WidenCond, WidenScalars;
    hide AllExplicit, ExplicitCond, ExplicitSub;
    hide WithScalars, Steps, RowOf, Widened, ONE_TABLE, Plain, Untouched, Alias, CountBefore, Field;
    assert n.scalars[changed] in n.scalars;
    var joins, cond, counts := AllMatch(n.joins), Const(n.cond, true), Counts(n.scalars, changed);
    var item := Col("", Alias(|n.scalars| - changed));
    AllMatchAccepted(n.joins);
    ConstAccepted(n.cond, true);
    ConstShape(n.cond, true);
    CountsAre(n.scalars, changed);
    WitnessFits(n, joins, item, cond, counts);
    w := Witness(joins, item, cond, counts);
    PlainWitness(joins, item, cond, counts);
    WidenedWitness(joins, item, cond, counts);
    forall e
      ensures CondValue(f, ONE_TABLE, cond, e) == CondValue(f, ONE_TABLE, WidenCond(cond), e) == Bool(true)
    {
      ConstValue(f, n.cond, true, e);
    }
    LiteralMatches(n.joins);
    LiteralWidened(joins);
    var a, b := MatchingRows(f, n.joins);
    WitnessResult(f, w, joins, item, a, true);
    WitnessResult(f, Widened(w), WidenJoins(joins), item, b, true);
    CountColumn(f, n.scalars, changed, a, b);
    var before := CountBefore(n.scalars[changed]);
    OneRowDiffers(One(Int(before)), One(Int(1 - before)));
  }

  /**
   Exactly the queries without a RIGHT JOIN after an inner join, without an IN that an inner join can take from
   true to false, without an inner join in a counted subquery, and without an inner join that has no ON clause,
   at any depth, are safe to widen, whatever the query MySQL accepts and the data.
   */
  lemma {:induction false} WideningIsSafeExactlyFor(f: Functions, shape: NestedShape)
    requires OuterOnNested(shape)
    ensures Widenable(shape) <==>
            forall db, n: Nested ::
                Plain(n.q) && ShapeOfNested(n) == shape && NestedResult(f, db, n).Some? ==> KeepsRows(f, db, n)
  {
    hide NestedResult, OuterOnNested, ShapeOfNested, Widened, Plain, ExplicitNested, Rises, NoRightAfterInner;
    hide Untouched;
    if Widenable(shape) {
      forall db, n: Nested | Plain(n.q) && ShapeOfNested(n) == shape && NestedResult(f, db, n).Some?
        ensures KeepsRows(f, db, n)
      {
        WideningOnlyAddsRows(f, db, n);
      }
    } else if !ExplicitNested(shape) {
      var n := NoOnIsRefused(f, shape);
    } else if !NoRightAfterInner(shape.joins) {
      var n := RightJoinLosesRows(f, shape);
    } else if !Rises(shape.cond) {
      var n := NotInLosesRows(f, shape);
    } else {
      var s :| s in shape.scalars && !Untouched(s);
      var changed :| 0 <= changed < |shape.scalars| && shape.scalars[changed] == s;
      var n := CountChangesRows(f, shape, changed);
    }
  }
}
