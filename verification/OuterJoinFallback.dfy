/**
 The retry of an empty read query with its inner joins turned into LEFT JOINs, those of its subqueries too
 (outer-join-fallback.ts): when it can only add rows.
 */
module OuterJoinFallback {
  import opened Wrappers
  import opened Relational
  import opened Subqueries
  import opened Agreement

  function WidenJoin(j: Join): Join {
    if j.kind.Inner? then j.(kind := Left) else j
  }

  function WidenJoins(joins: seq<Join>): (r: seq<Join>)
    ensures |r| == |joins| && forall i :: 0 <= i < |r| ==> r[i] == WidenJoin(joins[i])
  {
    if joins == [] then [] else [WidenJoin(joins[0])] + WidenJoins(joins[1..])
  }

  function WidenCond(c: Cond): Cond {
    match c
    case Test(_) => c
    case Both(l, r) => Both(WidenCond(l), WidenCond(r))
    case Either(l, r) => Either(WidenCond(l), WidenCond(r))
    case Opposite(x) => Opposite(WidenCond(x))
    case In(e, item, s) => In(e, item, WidenSub(s))
  }

  function WidenSub(s: Subquery): Subquery {
    s.(joins := WidenJoins(s.joins), where := WidenCond(s.where))
  }

  function WidenScalars(scalars: seq<Scalar>): (r: seq<Scalar>)
    ensures |r| == |scalars| && forall i :: 0 <= i < |r| ==> r[i] == scalars[i].(sub := WidenSub(scalars[i].sub))
  {
    if scalars == [] then [] else [scalars[0].(sub := WidenSub(scalars[0].sub))] + WidenScalars(scalars[1..])
  }

  function Widened(n: Nested): Nested {
    Nested(n.q.(joins := WidenJoins(n.q.joins)), WidenCond(n.cond), WidenScalars(n.scalars))
  }

  /** `None` when there is nothing to widen. */
  function Widen(n: Nested): Option<Nested> {
    if Widened(n) == n then None else Some(Widened(n))
  }

  // ----- shapes -----

  /** A kind of join, with or without ON. */
  datatype Shape = Shape(kind: JoinKind, on: bool)

  function ShapeOf(j: Join): Shape {
    Shape(j.kind, j.on.Some?)
  }

  function Shapes(joins: seq<Join>): (r: seq<Shape>)
    ensures |r| == |joins| && forall i :: 0 <= i < |r| ==> r[i] == ShapeOf(joins[i])
  {
    if joins == [] then [] else [ShapeOf(joins[0])] + Shapes(joins[1..])
  }

  /** No RIGHT JOIN comes after an inner join. */
  predicate NoRightAfterInner(shapes: seq<Shape>) {
    forall i, k :: 0 <= i < k < |shapes| && shapes[i].kind.Inner? ==> !shapes[k].kind.Right?
  }

  /** An inner join has its ON clause: MySQL allows it to have none. */
  predicate Explicit(s: Shape) {
    s.kind.Inner? ==> s.on
  }

  predicate AllExplicit(shapes: seq<Shape>) {
    forall s :: s in shapes ==> Explicit(s)
  }

  datatype CondShape =
    | TestShape
    | BothShape(left: CondShape, right: CondShape)
    | EitherShape(left: CondShape, right: CondShape)
    | OppositeShape(c: CondShape)
    | InShape(sub: SubShape)

  datatype SubShape = SubShape(joins: seq<Shape>, where: CondShape)

  datatype NestedShape = NestedShape(joins: seq<Shape>, cond: CondShape, scalars: seq<SubShape>)

  function ShapeOfCond(c: Cond): CondShape {
    match c
    case Test(_) => TestShape
    case Both(l, r) => BothShape(ShapeOfCond(l), ShapeOfCond(r))
    case Either(l, r) => EitherShape(ShapeOfCond(l), ShapeOfCond(r))
    case Opposite(x) => OppositeShape(ShapeOfCond(x))
    case In(_, _, s) => InShape(ShapeOfSub(s))
  }

  function ShapeOfSub(s: Subquery): SubShape {
    SubShape(Shapes(s.joins), ShapeOfCond(s.where))
  }

  function ShapesOfScalars(scalars: seq<Scalar>): (r: seq<SubShape>)
    ensures |r| == |scalars| && forall i :: 0 <= i < |r| ==> r[i] == ShapeOfSub(scalars[i].sub)
  {
    if scalars == [] then [] else [ShapeOfSub(scalars[0].sub)] + ShapesOfScalars(scalars[1..])
  }

  function ShapeOfNested(n: Nested): NestedShape {
    NestedShape(Shapes(n.q.joins), ShapeOfCond(n.cond), ShapesOfScalars(n.scalars))
  }

  predicate NoInner(shapes: seq<Shape>) {
    forall s :: s in shapes ==> !s.kind.Inner?
  }

  // ----- what widening can do to a condition and to a subquery -----

  /** Widening makes the condition true where it was not, or leaves it. */
  predicate Rises(c: CondShape) {
    match c
    case TestShape => true
    case BothShape(l, r) => Rises(l) && Rises(r)
    case EitherShape(l, r) => Rises(l) && Rises(r)
    case OppositeShape(x) => Falls(x)
    case InShape(s) => Adds(s)
  }

  /** Widening makes the condition false where it was not, or leaves it. */
  predicate Falls(c: CondShape) {
    match c
    case TestShape => true
    case BothShape(l, r) => Falls(l) && Falls(r)
    case EitherShape(l, r) => Falls(l) && Falls(r)
    case OppositeShape(x) => Rises(x)
    case InShape(s) => Loses(s)
  }

  predicate Adds(s: SubShape) {
    NoRightAfterInner(s.joins) && Rises(s.where)
  }

  predicate Loses(s: SubShape) {
    NoInner(s.joins) && Falls(s.where)
  }

  /** No inner join at any depth. */
  predicate UntouchedCond(c: CondShape) {
    match c
    case TestShape => true
    case BothShape(l, r) => UntouchedCond(l) && UntouchedCond(r)
    case EitherShape(l, r) => UntouchedCond(l) && UntouchedCond(r)
    case OppositeShape(x) => UntouchedCond(x)
    case InShape(s) => Untouched(s)
  }

  predicate Untouched(s: SubShape) {
    NoInner(s.joins) && UntouchedCond(s.where)
  }

  predicate AllUntouched(shapes: seq<SubShape>) {
    forall s :: s in shapes ==> Untouched(s)
  }

  /** Each inner join has its ON clause, at every depth. */
  predicate ExplicitCond(c: CondShape) {
    match c
    case TestShape => true
    case BothShape(l, r) => ExplicitCond(l) && ExplicitCond(r)
    case EitherShape(l, r) => ExplicitCond(l) && ExplicitCond(r)
    case OppositeShape(x) => ExplicitCond(x)
    case InShape(s) => ExplicitSub(s)
  }

  predicate ExplicitSub(s: SubShape) {
    AllExplicit(s.joins) && ExplicitCond(s.where)
  }

  predicate AllExplicitSubs(shapes: seq<SubShape>) {
    forall s :: s in shapes ==> ExplicitSub(s)
  }

  predicate ExplicitNested(n: NestedShape) {
    AllExplicit(n.joins) && ExplicitCond(n.cond) && AllExplicitSubs(n.scalars)
  }

  /**
   No RIGHT JOIN after an inner join, an IN that only rises, or falls under NOT, and no inner join in the
   subqueries that give a value; each inner join with its ON clause.
   */
  predicate Widenable(n: NestedShape) {
    && NoRightAfterInner(n.joins) && Rises(n.cond) && AllUntouched(n.scalars)
    && ExplicitNested(n)
  }

  // ----- what widening changes -----

  /** Inner joins are LEFT JOINs now; everything else is as it was. */
  predicate WidenedKinds(before: seq<Join>, after: seq<Join>) {
    && |after| == |before|
    && (forall i :: 0 <= i < |before| ==> after[i].(kind := before[i].kind) == before[i])
    && (forall i :: 0 <= i < |before| ==> after[i].kind == if before[i].kind.Inner? then Left else before[i].kind)
  }

  predicate UntouchedNested(n: NestedShape) {
    NoInner(n.joins) && UntouchedCond(n.cond) && AllUntouched(n.scalars)
  }

  lemma {:induction false} WidensKinds(joins: seq<Join>)
    ensures WidenedKinds(joins, WidenJoins(joins))
  {
  }

  lemma {:induction false} NoInnerAt(joins: seq<Join>)
    ensures NoInner(Shapes(joins)) <==> forall i :: 0 <= i < |joins| ==> !joins[i].kind.Inner?
  {
    var shapes := Shapes(joins);
    if NoInner(shapes) {
      forall i | 0 <= i < |joins| ensures !joins[i].kind.Inner? { assert shapes[i] in shapes; }
    }
    if forall i :: 0 <= i < |joins| ==> !joins[i].kind.Inner? {
      forall s | s in shapes ensures !s.kind.Inner? { var i :| 0 <= i < |shapes| && shapes[i] == s; }
    }
  }

  lemma {:induction false} WidensJoins(joins: seq<Join>)
    ensures NoInner(Shapes(WidenJoins(joins)))
    ensures WidenJoins(joins) == joins <==> NoInner(Shapes(joins))
  {
    hide Shapes, NoInner;
    var w := WidenJoins(joins);
    NoInnerAt(joins);
    NoInnerAt(w);
    forall i | 0 <= i < |joins| ensures !w[i].kind.Inner? && (w[i] == joins[i] <==> !joins[i].kind.Inner?) {
      assert w[i] == WidenJoin(joins[i]);
    }
  }

  lemma {:induction false} WidensCond(c: Cond)
    ensures WidenCond(c) == c <==> UntouchedCond(ShapeOfCond(c))
    ensures UntouchedCond(ShapeOfCond(WidenCond(c)))
  {
    hide WidenSub, Untouched, ShapeOfSub;
    match c {
      case Test(_) =>
      case Both(l, r) => WidensCond(l); WidensCond(r);
      case Either(l, r) => WidensCond(l); WidensCond(r);
      case Opposite(x) => WidensCond(x);
      case In(_, _, s) => WidensSub(s);
    }
  }

  lemma {:induction false} WidensSub(s: Subquery)
    ensures WidenSub(s) == s <==> Untouched(ShapeOfSub(s))
    ensures Untouched(ShapeOfSub(WidenSub(s)))
  {
    hide WidenCond, WidenJoins, UntouchedCond, ShapeOfCond, Shapes, NoInner;
    WidensJoins(s.joins);
    WidensCond(s.where);
  }

  lemma {:induction false} SameCons<T>(x: T, xs: seq<T>, y: T, ys: seq<T>)
    ensures [x] + xs == [y] + ys <==> x == y && xs == ys
  {
    assert ([x] + xs)[0] == x && ([x] + xs)[1..] == xs && ([y] + ys)[0] == y && ([y] + ys)[1..] == ys;
  }

  lemma {:induction false} UntouchedCons(s: SubShape, rest: seq<SubShape>)
    ensures AllUntouched([s] + rest) <==> Untouched(s) && AllUntouched(rest)
  {
    hide Untouched;
    assert ([s] + rest)[0] == s && forall x :: x in [s] + rest <==> x == s || x in rest;
  }

  lemma {:induction false} ScalarsCons(scalars: seq<Scalar>)
    requires scalars != []
    ensures var s, rest := scalars[0], scalars[1..];
      && ShapesOfScalars(scalars) == [ShapeOfSub(s.sub)] + ShapesOfScalars(rest) && scalars == [s] + rest
      && WidenScalars(scalars) == [s.(sub := WidenSub(s.sub))] + WidenScalars(rest)
  {
    hide ShapeOfSub, WidenSub;
  }

  lemma {:induction false} WidensScalars(scalars: seq<Scalar>)
    ensures WidenScalars(scalars) == scalars <==> AllUntouched(ShapesOfScalars(scalars))
    ensures AllUntouched(ShapesOfScalars(WidenScalars(scalars)))
  {
    hide Untouched, ShapeOfSub, WidenSub;
    if scalars != [] {
      hide WidenScalars, ShapesOfScalars, AllUntouched;
      var s, rest := scalars[0], scalars[1..];
      var t := s.(sub := WidenSub(s.sub));
      ScalarsCons(scalars);
      WidensSub(s.sub);
      WidensScalars(rest);
      SameCons(t, WidenScalars(rest), s, rest);
      UntouchedCons(ShapeOfSub(s.sub), ShapesOfScalars(rest));
      var w := [t] + WidenScalars(rest);
      ScalarsCons(w);
      assert w[0] == t && w[1..] == WidenScalars(rest);
      UntouchedCons(ShapeOfSub(t.sub), ShapesOfScalars(WidenScalars(rest)));
    }
  }

  /** Nothing to do exactly without an inner join, at any depth; otherwise each one is a LEFT JOIN, and none is left. */
  lemma {:induction false} WidensInnerJoins(n: Nested)
    ensures Widen(n).None? <==> UntouchedNested(ShapeOfNested(n))
    ensures Widen(n).Some? ==> var w := Widen(n).value;
      && w.q.(joins := n.q.joins) == n.q && WidenedKinds(n.q.joins, w.q.joins)
      && UntouchedNested(ShapeOfNested(w)) && Widen(w).None?
  {
    hide WidenCond, WidenJoins, UntouchedCond, ShapeOfCond, AllUntouched, NoInner, WidenedKinds;
    WidensKinds(n.q.joins);
    WidensJoins(n.q.joins);
    WidensCond(n.cond);
    WidensScalars(n.scalars);
    var w := Widened(n);
    WidensJoins(w.q.joins);
    WidensCond(w.cond);
    WidensScalars(w.scalars);
  }

  // ----- rows that are added -----

  /** `b` is what remains of `a` after removing some elements. */
  predicate Sub<T(==)>(b: seq<T>, a: seq<T>)
    decreases |a|
  {
    if b == [] then true
    else if a == [] then false
    else if b[0] == a[0] then Sub(b[1..], a[1..])
    else Sub(b, a[1..])
  }

  lemma {:induction false} SubTail<T>(b: seq<T>, a: seq<T>)
    requires b != [] && Sub(b, a)
    ensures Sub(b[1..], a)
    decreases |a|, 0
  {
    if b[0] != a[0] { SubTail(b, a[1..]); }
    SubCons(b[1..], a[0], a[1..]);
    assert a == [a[0]] + a[1..];
  }

  lemma {:induction false} SubCons<T>(b: seq<T>, x: T, a: seq<T>)
    requires Sub(b, a)
    ensures Sub(b, [x] + a)
    decreases |a|, 1
  {
    assert ([x] + a)[1..] == a;
    if b != [] && b[0] == x { SubTail(b, a); }
  }

  lemma {:induction false} SubPrepend<T>(b: seq<T>, pre: seq<T>, a: seq<T>)
    requires Sub(b, a)
    ensures Sub(b, pre + a)
  {
    if pre == [] {
      assert pre + a == a;
    } else {
      SubPrepend(b, pre[1..], a);
      SubCons(b, pre[0], pre[1..] + a);
      assert pre + a == [pre[0]] + (pre[1..] + a);
    }
  }

  lemma {:induction false} SubAppend<T>(b: seq<T>, a: seq<T>, d: seq<T>, c: seq<T>)
    requires Sub(b, a) && Sub(d, c)
    ensures Sub(b + d, a + c)
    decreases |a|
  {
    if b == [] {
      assert b + d == d;
      SubPrepend(d, a, c);
    } else {
      assert (a + c)[1..] == a[1..] + c && (b + d)[1..] == b[1..] + d;
      if b[0] == a[0] { SubAppend(b[1..], a[1..], d, c); } else { SubAppend(b, a[1..], d, c); }
    }
  }

  lemma {:induction false} SubSelf<T>(a: seq<T>)
    ensures Sub(a, a)
  {
    if a != [] { SubSelf(a[1..]); }
  }

  // ----- joins -----

  lemma {:induction false} MatchesWidened(f: Functions, rows: seq<Record>, env: Env, j: Join)
    ensures Matches(f, rows, env, WidenJoin(j)) == Matches(f, rows, env, j)
  {
    if rows != [] { MatchesWidened(f, rows[1..], env, j); }
  }

  lemma {:induction false} BlocksWidened(f: Functions, rows: seq<Record>, b: seq<Env>, a: seq<Env>, j: Join)
    requires Sub(b, a)
    ensures Sub(Blocks(f, rows, b, j), Blocks(f, rows, a, WidenJoin(j)))
    decreases |a|
  {
    if b != [] {
      var wide := Block(f, rows, a[0], WidenJoin(j));
      if b[0] == a[0] {
        BlocksWidened(f, rows, b[1..], a[1..], j);
        MatchesWidened(f, rows, a[0], j);
        SubSelf(wide);
        SubAppend(Block(f, rows, b[0], j), wide, Blocks(f, rows, b[1..], j), Blocks(f, rows, a[1..], WidenJoin(j)));
      } else {
        BlocksWidened(f, rows, b, a[1..], j);
        SubPrepend(Blocks(f, rows, b, j), wide, Blocks(f, rows, a[1..], WidenJoin(j)));
      }
    }
  }

  lemma {:induction false} StepsWithoutRight(f: Functions, db: Db, outer: Env, b: seq<Env>, a: seq<Env>,
          joins: seq<Join>)
    requires Sub(b, a) && forall j :: j in joins ==> !j.kind.Right?
    ensures Sub(Steps(f, db, outer, b, joins), Steps(f, db, outer, a, WidenJoins(joins)))
    decreases |joins|
  {
    if joins != [] {
      var j := joins[0];
      BlocksWidened(f, Rows(db, j.table), b, a, j);
      StepsWithoutRight(f, db, outer, Step(f, db, outer, b, j), Step(f, db, outer, a, WidenJoin(j)), joins[1..]);
      assert WidenJoins(joins)[1..] == WidenJoins(joins[1..]);
    }
  }

  lemma {:induction false} StepsWidened(f: Functions, db: Db, outer: Env, envs: seq<Env>, joins: seq<Join>)
    requires NoRightAfterInner(Shapes(joins))
    ensures Sub(Steps(f, db, outer, envs, joins), Steps(f, db, outer, envs, WidenJoins(joins)))
    decreases |joins|
  {
    if joins == [] {
      SubSelf(envs);
    } else if joins[0].kind.Inner? {
      forall j | j in joins ensures !j.kind.Right? {
        var i :| 0 <= i < |joins| && joins[i] == j;
        assert Shapes(joins)[i].kind == j.kind && Shapes(joins)[0].kind.Inner?;
      }
      SubSelf(envs);
      StepsWithoutRight(f, db, outer, envs, envs, joins);
    } else {
      assert Shapes(joins)[1..] == Shapes(joins[1..]);
      StepsWidened(f, db, outer, Step(f, db, outer, envs, joins[0]), joins[1..]);
      assert WidenJoins(joins)[1..] == WidenJoins(joins[1..]);
    }
  }

  // ----- conditions and subqueries -----

  /** False, unknown, true. */
  function Rank(v: Value): int {
    if IsTrue(v) then 2 else if IsFalse(v) then 0 else 1
  }

  lemma {:induction false} RankOf(a: Value, b: Value)
    ensures Rank(Conjunction(a, b)) == if Rank(a) <= Rank(b) then Rank(a) else Rank(b)
    ensures Rank(Disjunction(a, b)) == if Rank(a) >= Rank(b) then Rank(a) else Rank(b)
    ensures Rank(Negation(a)) == 2 - Rank(a)
  {
  }

  /** More rows make IN truer. */
  lemma {:induction false} AmongSub(f: Functions, v: Value, item: Expr, b: seq<Env>, a: seq<Env>)
    requires Sub(b, a)
    ensures Rank(Among(f, v, item, b)) <= Rank(Among(f, v, item, a))
    decreases |a|
  {
    hide Eval, Compare, Disjunction, Rank;
    RankBounds();
    if b == [] {
      NothingAmong(f, v, item, Among(f, v, item, a));
    } else {
      var x := Compare(f, Eq, v, Eval(f, item, a[..1]));
      RankOf(x, Among(f, v, item, a[1..]));
      if b[0] == a[0] {
        AmongSub(f, v, item, b[1..], a[1..]);
        assert b[..1] == a[..1];
        RankOf(x, Among(f, v, item, b[1..]));
      } else {
        AmongSub(f, v, item, b, a[1..]);
      }
    }
  }

  lemma {:induction false} RankBounds()
    ensures forall v :: 0 <= Rank(v) <= 2
  {
  }

  lemma {:induction false} NothingAmong(f: Functions, v: Value, item: Expr, other: Value)
    ensures Rank(Among(f, v, item, [])) == 0 <= Rank(other)
  {
  }

  /** A condition that becomes truer keeps at least the rows it kept. */
  lemma {:induction false} FilterRises(f: Functions, db: Db, c: Cond, d: Cond, b: seq<Env>, a: seq<Env>)
    requires Sub(b, a)
    requires forall e :: Rank(CondValue(f, db, c, e)) <= Rank(CondValue(f, db, d, e))
    ensures Sub(Filter(f, db, c, b), Filter(f, db, d, a))
    decreases |a|
  {
    hide CondValue;
    if b != [] {
      var after := if IsTrue(CondValue(f, db, d, a[0])) then [a[0]] else [];
      if b[0] == a[0] {
        FilterRises(f, db, c, d, b[1..], a[1..]);
        var before := if IsTrue(CondValue(f, db, c, b[0])) then [b[0]] else [];
        assert Rank(CondValue(f, db, c, b[0])) <= Rank(CondValue(f, db, d, b[0]));
        assert Sub(before, after);
        SubAppend(before, after, Filter(f, db, c, b[1..]), Filter(f, db, d, a[1..]));
      } else {
        FilterRises(f, db, c, d, b, a[1..]);
        SubPrepend(Filter(f, db, c, b), after, Filter(f, db, d, a[1..]));
      }
    }
  }

  lemma {:induction false} CondRises(f: Functions, db: Db, c: Cond, env: Env)
    requires Rises(ShapeOfCond(c))
    ensures Rank(CondValue(f, db, c, env)) <= Rank(CondValue(f, db, WidenCond(c), env))
    decreases c, 0
  {
    hide Rank, Conjunction, Disjunction, Negation, Eval, Among, SubRows;
    var w := WidenCond(c);
    match c {
      case Test(_) =>
      case Both(l, r) =>
        CondRises(f, db, l, env);
        CondRises(f, db, r, env);
        RankOf(CondValue(f, db, l, env), CondValue(f, db, r, env));
        RankOf(CondValue(f, db, w.left, env), CondValue(f, db, w.right, env));
      case Either(l, r) =>
        CondRises(f, db, l, env);
        CondRises(f, db, r, env);
        RankOf(CondValue(f, db, l, env), CondValue(f, db, r, env));
        RankOf(CondValue(f, db, w.left, env), CondValue(f, db, w.right, env));
      case Opposite(x) =>
        CondFalls(f, db, x, env);
        RankOf(CondValue(f, db, x, env), Null);
        RankOf(CondValue(f, db, w.c, env), Null);
      case In(e, item, s) =>
        SubAdds(f, db, s, env);
        AmongSub(f, Eval(f, e, [env]), item, SubRows(f, db, s, env), SubRows(f, db, WidenSub(s), env));
    }
  }

  lemma {:induction false} CondFalls(f: Functions, db: Db, c: Cond, env: Env)
    requires Falls(ShapeOfCond(c))
    ensures Rank(CondValue(f, db, WidenCond(c), env)) <= Rank(CondValue(f, db, c, env))
    decreases c, 0
  {
    hide Rank, Conjunction, Disjunction, Negation, Eval, Among, SubRows;
    var w := WidenCond(c);
    match c {
      case Test(_) =>
      case Both(l, r) =>
        CondFalls(f, db, l, env);
        CondFalls(f, db, r, env);
        RankOf(CondValue(f, db, l, env), CondValue(f, db, r, env));
        RankOf(CondValue(f, db, w.left, env), CondValue(f, db, w.right, env));
      case Either(l, r) =>
        CondFalls(f, db, l, env);
        CondFalls(f, db, r, env);
        RankOf(CondValue(f, db, l, env), CondValue(f, db, r, env));
        RankOf(CondValue(f, db, w.left, env), CondValue(f, db, w.right, env));
      case Opposite(x) =>
        CondRises(f, db, x, env);
        RankOf(CondValue(f, db, x, env), Null);
        RankOf(CondValue(f, db, w.c, env), Null);
      case In(e, item, s) =>
        SubLoses(f, db, s, env);
        AmongSub(f, Eval(f, e, [env]), item, SubRows(f, db, WidenSub(s), env), SubRows(f, db, s, env));
    }
  }

  lemma {:induction false} SameGiven(s: Subquery)
    ensures Given(WidenSub(s)) == Given(s)
  {
    var w := WidenJoins(s.joins);
    forall x | x in Given(s) ensures x in Given(WidenSub(s)) {
      if x != s.alias {
        var j :| j in s.joins && j.alias == x;
        var i :| 0 <= i < |s.joins| && s.joins[i] == j;
        assert w[i] in w && w[i].alias == x;
      }
    }
    forall x | x in Given(WidenSub(s)) ensures x in Given(s) {
      if x != s.alias {
        var j :| j in w && j.alias == x;
        var i :| 0 <= i < |w| && w[i] == j;
        assert s.joins[i] in s.joins && s.joins[i].alias == x;
      }
    }
  }

  /** Its joins keep at least the rows they gave. */
  lemma {:induction false} JoinedAdds(f: Functions, db: Db, s: Subquery, env: Env)
    requires NoRightAfterInner(Shapes(s.joins))
    ensures Sub(JoinedRows(f, db, s, env), JoinedRows(f, db, WidenSub(s), env))
  {
    hide Sub, Steps, Base, WidenJoins, Given, WidenCond;
    SameGiven(s);
    var outer := env - Given(s);
    StepsWidened(f, db, outer, Base(outer, s.alias, Rows(db, s.table)), s.joins);
  }

  lemma {:induction false} JoinedSame(f: Functions, db: Db, s: Subquery, env: Env)
    requires NoInner(Shapes(s.joins))
    ensures JoinedRows(f, db, WidenSub(s), env) == JoinedRows(f, db, s, env)
  {
    hide Steps, Base, WidenJoins, Given, WidenCond;
    SameGiven(s);
    WidensJoins(s.joins);
  }

  lemma {:induction false} SubAdds(f: Functions, db: Db, s: Subquery, env: Env)
    requires Adds(ShapeOfSub(s))
    ensures Sub(SubRows(f, db, s, env), SubRows(f, db, WidenSub(s), env))
    decreases s, 1
  {
    hide Sub, Filter, CondValue, JoinedRows, Rank;
    JoinedAdds(f, db, s, env);
    forall e ensures Rank(CondValue(f, db, s.where, e)) <= Rank(CondValue(f, db, WidenCond(s.where), e)) {
      CondRises(f, db, s.where, e);
    }
    FilterRises(f, db, s.where, WidenCond(s.where), JoinedRows(f, db, s, env), JoinedRows(f, db, WidenSub(s), env));
  }

  lemma {:induction false} SubLoses(f: Functions, db: Db, s: Subquery, env: Env)
    requires Loses(ShapeOfSub(s))
    ensures Sub(SubRows(f, db, WidenSub(s), env), SubRows(f, db, s, env))
    decreases s, 1
  {
    hide Sub, Filter, CondValue, JoinedRows, Rank;
    JoinedSame(f, db, s, env);
    forall e ensures Rank(CondValue(f, db, WidenCond(s.where), e)) <= Rank(CondValue(f, db, s.where, e)) {
      CondFalls(f, db, s.where, e);
    }
    SubSelf(JoinedRows(f, db, s, env));
    FilterRises(f, db, WidenCond(s.where), s.where, JoinedRows(f, db, WidenSub(s), env), JoinedRows(f, db, s, env));
  }

  lemma {:induction false} UntouchedIsStill(c: CondShape)
    requires UntouchedCond(c)
    ensures Rises(c) && Falls(c)
  {
    match c {
      case TestShape =>
      case BothShape(l, r) => UntouchedIsStill(l); UntouchedIsStill(r);
      case EitherShape(l, r) => UntouchedIsStill(l); UntouchedIsStill(r);
      case OppositeShape(x) => UntouchedIsStill(x);
      case InShape(s) => UntouchedIsStill(s.where);
    }
  }

  lemma {:induction false} StillIsUntouched(c: CondShape)
    requires Rises(c) && Falls(c)
    ensures UntouchedCond(c)
  {
    match c {
      case TestShape =>
      case BothShape(l, r) => StillIsUntouched(l); StillIsUntouched(r);
      case EitherShape(l, r) => StillIsUntouched(l); StillIsUntouched(r);
      case OppositeShape(x) => StillIsUntouched(x);
      case InShape(s) => StillIsUntouched(s.where);
    }
  }

  /** The rows of a subquery never change exactly when there is no inner join in it, at any depth. */
  lemma {:induction false} UntouchedIff(s: SubShape)
    ensures Untouched(s) <==> Adds(s) && Loses(s)
  {
    if UntouchedCond(s.where) { UntouchedIsStill(s.where); }
    if Rises(s.where) && Falls(s.where) { StillIsUntouched(s.where); }
  }

  // ----- names -----

  lemma {:induction false} WidenedOwners(f: Functions, joins: seq<Join>, n: string)
    ensures JoinOwners(f, WidenJoins(joins), n) == JoinOwners(f, joins, n)
  {
    if joins != [] {
      WidenedOwners(f, joins[1..], n);
      assert WidenJoins(joins)[1..] == WidenJoins(joins[1..]);
    }
  }

  lemma {:induction false} WidenedColumn(f: Functions, q: Query, w: Query, joins: seq<Join>, n: string)
    requires w.table == q.table && w.alias == q.alias
    ensures Column(f, w, WidenJoins(joins), n) == Column(f, q, joins, n)
    ensures Owners(f, w, WidenJoins(joins), n) == Owners(f, q, joins, n)
  {
    hide JoinOwners;
    WidenedOwners(f, joins, n);
  }

  lemma {:induction false} WidenAppend(a: seq<Join>, b: seq<Join>)
    ensures WidenJoins(a + b) == WidenJoins(a) + WidenJoins(b)
  {
  }

  /** The ON clauses say the same, in the widened joins. */
  lemma {:induction false} WidenedOns(f: Functions, q: Query, w: Query, before: seq<Join>, joins: seq<Join>)
    requires w.table == q.table && w.alias == q.alias
    ensures JoinsResolve(f, w, WidenJoins(before), WidenJoins(joins)) == JoinsResolve(f, q, before, joins)
    ensures QualifyJoins(f, w, WidenJoins(before), WidenJoins(joins)) == WidenJoins(QualifyJoins(f, q, before, joins))
    decreases |joins|
  {
    hide Column, Unqualified, Qualify;
    if joins != [] {
      var j, v, seen := joins[0], WidenJoin(joins[0]), before + [joins[0]];
      assert WidenJoins(joins) == [v] + WidenJoins(joins[1..]) && WidenJoins(joins)[1..] == WidenJoins(joins[1..]);
      WidenAppend(before, [j]);
      assert WidenJoins([j]) == [v];
      var s, t := ColumnScope(f, w, WidenJoins(seen)), ColumnScope(f, q, seen);
      forall n ensures s(n) == t(n) { WidenedColumn(f, q, w, seen, n); }
      if j.on.Some? { QualifySame(s, t, j.on.value); }
      WidenedOns(f, q, w, seen, joins[1..]);
      var rest := QualifyJoins(f, q, seen, joins[1..]);
      var first := if j.on.Some? then j.(on := Some(Qualify(t, j.on.value))) else j;
      assert QualifyJoins(f, q, before, joins) == [first] + rest;
      WidenAppend([first], rest);
      assert WidenJoins([first]) == [WidenJoin(first)];
    }
  }

  lemma {:induction false} WidenedNames(f: Functions, q: Query)
    ensures var w := q.(joins := WidenJoins(q.joins));
      && (forall n :: Column(f, w, w.joins, n) == Column(f, q, q.joins, n))
      && (forall n :: GroupName(f, w, n) == GroupName(f, q, n) && ResultName(f, w, n) == ResultName(f, q, n))
  {
    hide Column, Owners, Named, WidenJoins;
    var w := q.(joins := WidenJoins(q.joins));
    var s, t := ColumnScope(f, w, w.joins), ColumnScope(f, q, q.joins);
    forall n
      ensures s(n) == t(n) && Column(f, w, w.joins, n) == Column(f, q, q.joins, n)
    {
      WidenedColumn(f, q, w, q.joins, n);
    }
    forall n ensures GroupName(f, w, n) == GroupName(f, q, n) && ResultName(f, w, n) == ResultName(f, q, n) {
      NamedSame(s, t, q.items, n);
      WidenedColumn(f, q, w, q.joins, n);
    }
  }

  lemma {:induction false} WidenedHaving(f: Functions, q: Query)
    ensures var w := q.(joins := WidenJoins(q.joins));
      && (forall n :: HavingName(f, w, n) == HavingName(f, q, n))
      && (forall x :: HavingRefers(f, w, x) == HavingRefers(f, q, x))
  {
    hide Column, GroupName, ResultName, WidenJoins, QualifyItems, QualifyAll, Named, Owners, Selected, StarColumns;
    hide ColumnsNamed, InSelection, HavingChoice;
    var w := q.(joins := WidenJoins(q.joins));
    var s, t := ColumnScope(f, w, w.joins), ColumnScope(f, q, q.joins);
    WidenedNames(f, q);
    assert forall n :: s(n) == t(n) && GroupScope(f, w)(n) == GroupScope(f, q)(n);
    NamedSame(s, t, q.items, "");
    QualifyAllSame(GroupScope(f, w), GroupScope(f, q), GroupKeys(q.grouping));
    forall n ensures HavingName(f, w, n) == HavingName(f, q, n) {
      NamedSame(s, t, q.items, n);
      WidenedColumn(f, q, w, q.joins, n);
    }
  }

  /** Widening changes no name, so it commutes with qualifying them. */
  lemma {:induction false} QualifiedWidened(f: Functions, q: Query)
    ensures var w, o := q.(joins := WidenJoins(q.joins)), Qualified(f, q);
      && Resolves(f, w) == Resolves(f, q) && Qualified(f, w) == o.(joins := WidenJoins(o.joins))
  {
    hide Column, GroupName, ResultName, WidenJoins, QualifyItems, QualifyJoins, Qualify, QualifyAll, QualifyOrder;
    hide Unqualified, UnqualifiedAll, ItemNames, OrderExprs, JoinsResolve, HavingName, HavingRefers, References, Inside;
    hide QualifyHaving;
    WidenedHaving(f, q);
    var w := q.(joins := WidenJoins(q.joins));
    WidenedNames(f, q);
    WidenedOns(f, q, w, [], q.joins);
    NoJoinsWidened();
    var s, t := ColumnScope(f, w, w.joins), ColumnScope(f, q, q.joins);
    var g, h := GroupScope(f, w), GroupScope(f, q);
    var x, y := ResultScope(f, w), ResultScope(f, q);
    var u, v := HavingScope(f, w), HavingScope(f, q);
    assert forall n :: s(n) == t(n) && g(n) == h(n) && x(n) == y(n) && u(n) == v(n);
    NamedSame(s, t, q.items, "");
    QualifySame(s, t, q.where);
    QualifyAllSame(g, h, GroupKeys(q.grouping));
    HavingSame(u, s, v, t, q.having);
    NamesOfOrder(x, y, q.order);
  }

  lemma {:induction false} NoJoinsWidened()
    ensures WidenJoins([]) == []
  {
  }

  // ----- WHERE, HAVING, projection, order -----

  lemma {:induction false} WhereSub(f: Functions, e: Expr, b: seq<Env>, a: seq<Env>)
    requires Sub(b, a)
    ensures Sub(Where(f, e, b), Where(f, e, a))
    decreases |a|
  {
    if b != [] {
      var kept := if Holds(f, e, a[0]) then [a[0]] else [];
      SubSelf(kept);
      if b[0] == a[0] {
        WhereSub(f, e, b[1..], a[1..]);
        SubAppend(kept, kept, Where(f, e, b[1..]), Where(f, e, a[1..]));
      } else {
        WhereSub(f, e, b, a[1..]);
        SubPrepend(Where(f, e, b), kept, Where(f, e, a[1..]));
      }
    }
  }

  /** The result rows of a query without grouping, as a multiset. */
  function Bag(f: Functions, q: Query, envs: seq<Env>): multiset<seq<Cell>> {
    if envs == [] then multiset{}
    else (if IsTrue(Eval(f, q.having, envs[..1])) then multiset{Cells(f, q.items, envs[..1])} else multiset{})
         + Bag(f, q, envs[1..])
  }

  lemma {:induction false} BagSub(f: Functions, q: Query, b: seq<Env>, a: seq<Env>)
    requires Sub(b, a)
    ensures Bag(f, q, b) <= Bag(f, q, a)
    decreases |a|
  {
    if b != [] {
      if b[0] == a[0] { assert b[..1] == a[..1]; BagSub(f, q, b[1..], a[1..]); } else { BagSub(f, q, b, a[1..]); }
    }
  }

  lemma {:induction false} ProjectCons(f: Functions, items: seq<Item>, g: seq<Env>, groups: seq<seq<Env>>)
    ensures multiset(Project(f, items, [g] + groups))
      == multiset{Cells(f, items, g)} + multiset(Project(f, items, groups))
  {
    assert ([g] + groups)[1..] == groups;
  }

  lemma {:induction false} ProjectInsert(f: Functions, items: seq<Item>, keys: seq<Expr>, dirs: seq<bool>, g: seq<Env>,
          sorted: seq<seq<Env>>)
    ensures multiset(Project(f, items, Insert(f, keys, dirs, g, sorted)))
         == multiset{Cells(f, items, g)} + multiset(Project(f, items, sorted))
  {
    hide Project, Cells, EvalAll;
    if sorted == [] || Insert(f, keys, dirs, g, sorted) == [g] + sorted {
      assert [g] + [] == [g];
      ProjectCons(f, items, g, sorted);
    } else {
      var first, rest := sorted[0], sorted[1..];
      ProjectInsert(f, items, keys, dirs, g, rest);
      ProjectCons(f, items, first, Insert(f, keys, dirs, g, rest));
      ProjectCons(f, items, first, rest);
      assert sorted == [first] + rest;
    }
  }

  lemma {:induction false} ProjectSort(f: Functions, items: seq<Item>, keys: seq<Expr>, dirs: seq<bool>,
          groups: seq<seq<Env>>)
    ensures multiset(Project(f, items, Sort(f, keys, dirs, groups))) == multiset(Project(f, items, groups))
  {
    if groups != [] {
      ProjectSort(f, items, keys, dirs, groups[1..]);
      ProjectInsert(f, items, keys, dirs, groups[0], Sort(f, keys, dirs, groups[1..]));
    }
  }

  lemma {:induction false} ProjectSingles(f: Functions, q: Query, envs: seq<Env>)
    ensures multiset(Project(f, q.items, Having(f, q.having, Singles(envs)))) == Bag(f, q, envs)
  {
    if envs != [] {
      ProjectSingles(f, q, envs[1..]);
      var rest := Having(f, q.having, Singles(envs[1..]));
      assert Singles(envs)[1..] == Singles(envs[1..]);
      if IsTrue(Eval(f, q.having, envs[..1])) {
        assert Having(f, q.having, Singles(envs)) == [envs[..1]] + rest;
        ProjectCons(f, q.items, envs[..1], rest);
      } else {
        assert Having(f, q.having, Singles(envs)) == rest;
      }
    }
  }

  lemma {:induction false} RowsOf(f: Functions, o: Query, keys: seq<Expr>, dirs: seq<bool>, envs: seq<Env>)
    requires o.grouping.Ungrouped? && !Aggregates(o)
    ensures multiset(Project(f, o.items, Sort(f, keys, dirs, Having(f, o.having, Groups(f, o, envs)))))
      == Bag(f, o, envs)
  {
    hide Sort, Project, Having, Bag, Aggregates;
    ProjectSort(f, o.items, keys, dirs, Having(f, o.having, Singles(envs)));
    ProjectSingles(f, o, envs);
  }

  lemma {:induction false} AddOne<T>(m: multiset<T>, n: multiset<T>, x: T)
    requires m <= n && x !in m && x in n
    ensures m + multiset{x} <= n
  {
  }

  /** The rows there are, once each. */
  lemma {:induction false} DistinctIsMonotone<T>(b: seq<T>, a: seq<T>)
    requires forall x :: x in b ==> x in a
    ensures multiset(Distinct(b)) <= multiset(Distinct(a))
  {
    if b != [] {
      var init, last := b[..|b| - 1], b[|b| - 1];
      DistinctIsMonotone(init, a);
      DistinctMembers(a, last);
      if last !in Distinct(init) { AddOne(multiset(Distinct(init)), multiset(Distinct(a)), last); }
    }
  }

  lemma {:induction false} WidenedAliases(used: set<string>, joins: seq<Join>)
    ensures NewAliases(used, WidenJoins(joins)) == NewAliases(used, joins)
    decreases |joins|
  {
    if joins != [] {
      assert WidenJoins(joins)[1..] == WidenJoins(joins[1..]);
      WidenedAliases(used + {joins[0].alias}, joins[1..]);
    }
  }

  lemma {:induction false} BagSame(f: Functions, q: Query, w: Query, envs: seq<Env>)
    requires q.items == w.items && q.having == w.having
    ensures Bag(f, q, envs) == Bag(f, w, envs)
  {
    if envs != [] { BagSame(f, q, w, envs[1..]); }
  }

  // ----- what MySQL accepts -----

  lemma {:induction false} WidenedJoinsAccepted(alias: string, joins: seq<Join>)
    requires JoinsAccepted(alias, joins)
    ensures JoinsAccepted(alias, WidenJoins(joins)) <==> AllExplicit(Shapes(joins))
  {
    hide NewAliases;
    var w, shapes := WidenJoins(joins), Shapes(joins);
    WidenedAliases({alias}, joins);
    if AllExplicit(shapes) {
      forall j | j in w ensures HasItsOn(j) {
        var i :| 0 <= i < |w| && w[i] == j;
        assert joins[i] in joins && shapes[i] in shapes;
      }
    }
    if JoinsAccepted(alias, w) {
      forall s | s in shapes ensures Explicit(s) {
        var i :| 0 <= i < |shapes| && shapes[i] == s;
        assert w[i] in w && HasItsOn(w[i]);
      }
    }
  }

  lemma {:induction false} WidenedCondAccepted(c: Cond)
    requires CondAccepted(c)
    ensures CondAccepted(WidenCond(c)) <==> ExplicitCond(ShapeOfCond(c))
  {
    match c {
      case Test(_) =>
      case Both(l, r) => WidenedCondAccepted(l); WidenedCondAccepted(r);
      case Either(l, r) => WidenedCondAccepted(l); WidenedCondAccepted(r);
      case Opposite(x) => WidenedCondAccepted(x);
      case In(_, _, s) => WidenedSubAccepted(s);
    }
  }

  lemma {:induction false} WidenedSubAccepted(s: Subquery)
    requires SubAccepted(s)
    ensures SubAccepted(WidenSub(s)) <==> ExplicitSub(ShapeOfSub(s))
  {
    hide JoinsAccepted, AllExplicit, WidenJoins, Shapes;
    WidenedJoinsAccepted(s.alias, s.joins);
    WidenedCondAccepted(s.where);
  }

  predicate AllAccepted(scalars: seq<Scalar>) {
    forall s :: s in scalars ==> SubAccepted(s.sub)
  }

  lemma {:induction false} AcceptedCons(s: Scalar, rest: seq<Scalar>)
    ensures AllAccepted([s] + rest) <==> SubAccepted(s.sub) && AllAccepted(rest)
  {
    hide SubAccepted;
    assert ([s] + rest)[0] == s && forall x :: x in [s] + rest <==> x == s || x in rest;
  }

  lemma {:induction false} ExplicitCons(s: SubShape, rest: seq<SubShape>)
    ensures AllExplicitSubs([s] + rest) <==> ExplicitSub(s) && AllExplicitSubs(rest)
  {
    hide ExplicitSub;
    assert ([s] + rest)[0] == s && forall x :: x in [s] + rest <==> x == s || x in rest;
  }

  lemma {:induction false} WidenedScalarsAccepted(scalars: seq<Scalar>)
    requires AllAccepted(scalars)
    ensures AllAccepted(WidenScalars(scalars)) <==> AllExplicitSubs(ShapesOfScalars(scalars))
  {
    hide SubAccepted, ExplicitSub, ShapeOfSub, WidenSub;
    if scalars != [] {
      hide WidenScalars, ShapesOfScalars, AllAccepted, AllExplicitSubs;
      var s, rest := scalars[0], scalars[1..];
      ScalarsCons(scalars);
      AcceptedCons(s, rest);
      WidenedSubAccepted(s.sub);
      WidenedScalarsAccepted(rest);
      AcceptedCons(s.(sub := WidenSub(s.sub)), WidenScalars(rest));
      ExplicitCons(ShapeOfSub(s.sub), ShapesOfScalars(rest));
    }
  }

  /** MySQL still accepts the widened query exactly when each inner join, of a subquery or not, has an ON clause. */
  lemma {:induction false} WidenedIsAccepted(n: Nested)
    requires NestedAccepted(n)
    ensures NestedAccepted(Widened(n)) <==> ExplicitNested(ShapeOfNested(n))
  {
    hide WidenJoins, Shapes, AllExplicit, CondAccepted, ExplicitCond, SubAccepted, ExplicitSub, WidenCond, ShapeOfCond;
    hide JoinsAccepted;
    AcceptedJoins(n.q);
    AcceptedJoins(Widened(n).q);
    WidenedJoinsAccepted(n.q.alias, n.q.joins);
    WidenedCondAccepted(n.cond);
    WidenedScalarsAccepted(n.scalars);
  }

  lemma {:induction false} AcceptedJoins(q: Query)
    ensures Accepted(q) <==> JoinsAccepted(q.alias, q.joins)
  {
  }

  // ----- widening only adds rows -----

  /** No GROUP BY, no aggregate and no LIMIT; DISTINCT or not. */
  predicate Plain(q: Query) {
    q.grouping.Ungrouped? && !Aggregates(q) && q.limit.None?
  }

  lemma {:induction false} EachSub(f: Functions, db: Db, scalars: seq<Scalar>, b: seq<Env>, a: seq<Env>)
    requires Sub(b, a)
    ensures Sub(EachWithScalars(f, db, scalars, b), EachWithScalars(f, db, scalars, a))
    decreases |a|
  {
    hide WithScalars;
    if b != [] {
      var rest := EachWithScalars(f, db, scalars, a[1..]);
      var first := WithScalars(f, db, scalars, a[0]);
      if b[0] == a[0] {
        EachSub(f, db, scalars, b[1..], a[1..]);
        SubSelf([first]);
        SubAppend([first], [first], EachWithScalars(f, db, scalars, b[1..]), rest);
      } else {
        EachSub(f, db, scalars, b, a[1..]);
        SubPrepend(EachWithScalars(f, db, scalars, b), [first], rest);
      }
    }
  }

  lemma {:induction false} QualifiedShapes(f: Functions, q: Query, before: seq<Join>, joins: seq<Join>)
    ensures Shapes(QualifyJoins(f, q, before, joins)) == Shapes(joins)
    decreases |joins|
  {
    hide Qualify, ColumnScope;
    if joins != [] {
      var rest := QualifyJoins(f, q, before + [joins[0]], joins[1..]);
      QualifiedShapes(f, q, before + [joins[0]], joins[1..]);
      assert QualifyJoins(f, q, before, joins)[1..] == rest;
      assert Shapes(joins)[1..] == Shapes(joins[1..]);
    }
  }

  lemma {:induction false} SourceWidened(f: Functions, db: Db, o: Query, cond: Cond, scalars: seq<Scalar>)
    requires NoRightAfterInner(Shapes(o.joins)) && Rises(ShapeOfCond(cond))
    requires AllUntouched(ShapesOfScalars(scalars))
    ensures Sub(NestedSource(f, db, o, cond, scalars),
                NestedSource(f, db, o.(joins := WidenJoins(o.joins)), WidenCond(cond), WidenScalars(scalars)))
  {
    hide Sub, Steps, Base, Where, Filter, EachWithScalars, WidenJoins, Shapes, CondValue, Rank, NoRightAfterInner;
    hide AllUntouched;
    var base := Base(map[], o.alias, Rows(db, o.table));
    var b, a := Steps(f, db, map[], base, o.joins), Steps(f, db, map[], base, WidenJoins(o.joins));
    WidensScalars(scalars);
    StepsWidened(f, db, map[], base, o.joins);
    EachSub(f, db, scalars, b, a);
    var x, y := EachWithScalars(f, db, scalars, b), EachWithScalars(f, db, scalars, a);
    WhereSub(f, o.where, x, y);
    forall e
      ensures Rank(CondValue(f, db, cond, e)) <= Rank(CondValue(f, db, WidenCond(cond), e))
    {
      CondRises(f, db, cond, e);
    }
    FilterRises(f, db, cond, WidenCond(cond), Where(f, o.where, x), Where(f, o.where, y));
  }

  /** The rows of the result, before DISTINCT. */
  function NestedRows(f: Functions, db: Db, o: Query, cond: Cond, scalars: seq<Scalar>): seq<seq<Cell>> {
    Project(f, o.items, Sort(f, OrderExprs(o.order), Directions(o.order),
                             Having(f, o.having, Groups(f, o, NestedSource(f, db, o, cond, scalars)))))
  }

  lemma {:induction false} PlainResult(f: Functions, db: Db, n: Nested)
    requires Plain(n.q) && NestedResult(f, db, n).Some?
    ensures var rows := NestedRows(f, db, Qualified(f, n.q), n.cond, n.scalars);
      NestedResult(f, db, n).value == if n.q.distinct then Distinct(rows) else rows
  {
    hide NestedAccepted, Resolves, Qualified, NestedSource, Project, Sort, Having, Groups, Distinct;
  }

  lemma {:induction false} NestedBag(f: Functions, db: Db, o: Query, cond: Cond, scalars: seq<Scalar>)
    requires o.grouping.Ungrouped? && !Aggregates(o)
    ensures multiset(NestedRows(f, db, o, cond, scalars)) == Bag(f, o, NestedSource(f, db, o, cond, scalars))
  {
    hide NestedSource, Project, Sort, Having, Groups, Bag;
    RowsOf(f, o, OrderExprs(o.order), Directions(o.order), NestedSource(f, db, o, cond, scalars));
  }

  lemma {:induction false} RowsWidened(f: Functions, db: Db, o: Query, cond: Cond, scalars: seq<Scalar>)
    requires NoRightAfterInner(Shapes(o.joins)) && Rises(ShapeOfCond(cond)) && AllUntouched(ShapesOfScalars(scalars))
    requires o.grouping.Ungrouped? && !Aggregates(o)
    ensures multiset(NestedRows(f, db, o, cond, scalars))
         <= multiset(NestedRows(f, db, o.(joins := WidenJoins(o.joins)), WidenCond(cond), WidenScalars(scalars)))
  {
    hide Sub, NestedRows, NestedSource, Bag, WidenJoins, WidenCond, WidenScalars, Shapes, ShapeOfCond, Rises;
    hide ShapesOfScalars, AllUntouched;
    var w := o.(joins := WidenJoins(o.joins));
    SourceWidened(f, db, o, cond, scalars);
    var b, a := NestedSource(f, db, o, cond, scalars), NestedSource(f, db, w, WidenCond(cond), WidenScalars(scalars));
    BagSub(f, o, b, a);
    BagSame(f, o, w, a);
    NestedBag(f, db, o, cond, scalars);
    NestedBag(f, db, w, WidenCond(cond), WidenScalars(scalars));
  }

  lemma {:induction false} PlainQualified(f: Functions, q: Query)
    ensures Shapes(Qualified(f, q).joins) == Shapes(q.joins)
    ensures Plain(Qualified(f, q)) == Plain(q)
  {
    hide ColumnScope, GroupScope, ResultScope, Shapes, QualifyJoins, QualifyItems, QualifyOrder, Aggregates;
    AggregatesQualified(f, q);
    QualifiedShapes(f, q, [], q.joins);
  }

  /** Widening only adds rows: each row occurs at least as often as before. */
  lemma {:induction false} WideningOnlyAddsRows(f: Functions, db: Db, n: Nested)
    requires Plain(n.q) && Widenable(ShapeOfNested(n)) && NestedResult(f, db, n).Some?
    ensures NestedResult(f, db, Widened(n)).Some?
    ensures multiset(NestedResult(f, db, n).value) <= multiset(NestedResult(f, db, Widened(n)).value)
  {
    hide NestedAccepted, Resolves, Qualified, NestedRows, Distinct, WidenJoins, WidenCond, WidenScalars, Shapes;
    hide ShapeOfCond, ShapesOfScalars;
    hide Rises, AllUntouched, ExplicitNested, NoRightAfterInner, NestedSource, Project, Sort, Having, Groups;
    WidenedIsAccepted(n);
    QualifiedWidened(f, n.q);
    PlainQualified(f, n.q);
    var o, w := Qualified(f, n.q), Widened(n);
    RowsWidened(f, db, o, n.cond, n.scalars);
    PlainResult(f, db, n);
    PlainResult(f, db, w);
    var before := NestedRows(f, db, o, n.cond, n.scalars);
    var after := NestedRows(f, db, Qualified(f, w.q), w.cond, w.scalars);
    forall row | row in before ensures row in after { assert row in multiset(before) && row in multiset(after); }
    DistinctIsMonotone(before, after);
  }
}
