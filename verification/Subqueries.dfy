/**
 Queries with subqueries: conditions `e IN (SELECT item FROM ...)` combined with AND, OR and NOT, and counts
 `(SELECT COUNT(item) FROM ...)` read as columns. A subquery has joins and its own conditions, at any depth,
 and sees the row outside. `EXISTS (SELECT ...)` is `1 IN (SELECT 1 ...)`.
 */
module Subqueries {
  import opened Wrappers
  import opened Relational

  /** An expression with a value for each row: an aggregate would make one group of the subquery. */
  type RowExpr = e: Expr | !HasAggregate(e) witness Lit(Null)

  datatype Cond =
    | Test(e: Expr)
    | Both(left: Cond, right: Cond)
    | Either(left: Cond, right: Cond)
    | Opposite(c: Cond)
    | In(e: Expr, item: RowExpr, sub: Subquery)

  datatype Subquery = Subquery(table: string, alias: string, joins: seq<Join>, where: Cond)

  /** A subquery with one value: `COUNT(item)`, or another aggregate of `item`. */
  datatype Scalar = Scalar(name: string, aggregate: string, item: RowExpr, sub: Subquery)

  /** The rows of `q` that satisfy `cond` too; the scalars are its columns, without an alias. */
  datatype Nested = Nested(q: Query, cond: Cond, scalars: seq<Scalar>)

  /** The aliases a subquery gives, which hide those outside. */
  function Given(s: Subquery): set<string> {
    {s.alias} + set j | j in s.joins :: j.alias
  }

  /** `v IN (...)`: whether one of the values is `v`. */
  function Among(f: Functions, v: Value, item: Expr, rows: seq<Env>): Value {
    if rows == [] then Bool(false)
    else Disjunction(Compare(f, Eq, v, Eval(f, item, rows[..1])), Among(f, v, item, rows[1..]))
  }

  function CondValue(f: Functions, db: Db, c: Cond, env: Env): Value
    decreases c, 0
  {
    match c
    case Test(e) => Eval(f, e, [env])
    case Both(l, r) => Conjunction(CondValue(f, db, l, env), CondValue(f, db, r, env))
    case Either(l, r) => Disjunction(CondValue(f, db, l, env), CondValue(f, db, r, env))
    case Opposite(x) => Negation(CondValue(f, db, x, env))
    case In(e, item, s) => Among(f, Eval(f, e, [env]), item, SubRows(f, db, s, env))
  }

  /** The rows of a subquery for the row `env` outside. */
  function SubRows(f: Functions, db: Db, s: Subquery, env: Env): seq<Env>
    decreases s, 0
  {
    Filter(f, db, s.where, JoinedRows(f, db, s, env))
  }

  function JoinedRows(f: Functions, db: Db, s: Subquery, env: Env): seq<Env> {
    var outer := env - Given(s);
    Steps(f, db, outer, Base(outer, s.alias, Rows(db, s.table)), s.joins)
  }

  function Filter(f: Functions, db: Db, c: Cond, envs: seq<Env>): seq<Env>
    decreases c, 1, |envs|
  {
    if envs == [] then []
    else (if IsTrue(CondValue(f, db, c, envs[0])) then [envs[0]] else []) + Filter(f, db, c, envs[1..])
  }

  function CountValues(vs: seq<Value>): nat {
    if vs == [] then 0 else (if vs[0].Null? then 0 else 1) + CountValues(vs[1..])
  }

  function ScalarValue(f: Functions, db: Db, s: Scalar, env: Env): Value {
    var vs := EvalEach(f, s.item, SubRows(f, db, s.sub, env));
    if s.aggregate == "count" then Int(CountValues(vs)) else f.aggregate(s.aggregate, vs)
  }

  /** The row with the values of the scalars. */
  function WithScalars(f: Functions, db: Db, scalars: seq<Scalar>, env: Env): Env {
    if scalars == [] then env
    else
      var s := scalars[0];
      WithScalars(f, db, scalars[1..], env["" := RowOf(env, "")[s.name := ScalarValue(f, db, s, env)]])
  }

  function EachWithScalars(f: Functions, db: Db, scalars: seq<Scalar>, envs: seq<Env>): seq<Env> {
    if envs == [] then [] else [WithScalars(f, db, scalars, envs[0])] + EachWithScalars(f, db, scalars, envs[1..])
  }

  /** FROM, joins and the conditions, for a query whose names are qualified. */
  function NestedSource(f: Functions, db: Db, o: Query, cond: Cond, scalars: seq<Scalar>): seq<Env> {
    var joined := Steps(f, db, map[], Base(map[], o.alias, Rows(db, o.table)), o.joins);
    Filter(f, db, cond, Where(f, o.where, EachWithScalars(f, db, scalars, joined)))
  }

  predicate JoinsAccepted(alias: string, joins: seq<Join>) {
    NewAliases({alias}, joins) && forall j :: j in joins ==> HasItsOn(j)
  }

  predicate CondAccepted(c: Cond) {
    match c
    case Test(_) => true
    case Both(l, r) => CondAccepted(l) && CondAccepted(r)
    case Either(l, r) => CondAccepted(l) && CondAccepted(r)
    case Opposite(x) => CondAccepted(x)
    case In(_, _, s) => SubAccepted(s)
  }

  predicate SubAccepted(s: Subquery) {
    JoinsAccepted(s.alias, s.joins) && CondAccepted(s.where)
  }

  predicate NestedAccepted(n: Nested) {
    Accepted(n.q) && CondAccepted(n.cond) && forall s :: s in n.scalars ==> SubAccepted(s.sub)
  }

  /** Result rows, `None` when MySQL refuses the query. */
  function NestedResult(f: Functions, db: Db, n: Nested): Option<seq<seq<Cell>>> {
    if !NestedAccepted(n) || !Resolves(f, n.q) then None
    else
      var o := Qualified(f, n.q);
      var groups := Having(f, o.having, Groups(f, o, NestedSource(f, db, o, n.cond, n.scalars)));
      var rows := Project(f, o.items, Sort(f, OrderExprs(o.order), Directions(o.order), groups));
      Some(Take(n.q.limit, if n.q.distinct then Distinct(rows) else rows))
  }

  // ----- a query without subqueries is a query -----

  lemma {:induction false} FilterTest(f: Functions, db: Db, e: Expr, envs: seq<Env>)
    ensures Filter(f, db, Test(e), envs) == Where(f, e, envs)
  {
    hide Eval;
    if envs != [] { FilterTest(f, db, e, envs[1..]); }
  }

  lemma {:induction false} NoScalars(f: Functions, db: Db, envs: seq<Env>)
    ensures EachWithScalars(f, db, [], envs) == envs
  {
    if envs != [] {
      NoScalars(f, db, envs[1..]);
      assert envs == [envs[0]] + envs[1..];
    }
  }

  lemma {:induction false} WhereAgain(f: Functions, envs: seq<Env>)
    ensures Where(f, Lit(Int(1)), envs) == envs
  {
    hide Holds;
    if envs != [] {
      OneHolds(f, envs[0]);
      WhereAgain(f, envs[1..]);
      assert envs == [envs[0]] + envs[1..];
    }
  }

  lemma {:induction false} OneHolds(f: Functions, env: Env)
    ensures Holds(f, Lit(Int(1)), env)
  {
  }

  lemma {:induction false} WithoutSubqueries(f: Functions, db: Db, q: Query)
    ensures NestedResult(f, db, Nested(q, Test(Lit(Int(1))), [])) == Result(f, db, q)
  {
    hide Accepted, Resolves, Qualified, Steps, Where, Filter, Having, Groups, Sort, Project, Distinct, Take;
    hide EachWithScalars;
    var o := Qualified(f, q);
    var joined := Steps(f, db, map[], Base(map[], o.alias, Rows(db, o.table)), o.joins);
    NoScalars(f, db, joined);
    FilterTest(f, db, Lit(Int(1)), Where(f, o.where, joined));
    WhereAgain(f, Where(f, o.where, joined));
    var n := Nested(q, Test(Lit(Int(1))), []);
    assert NestedSource(f, db, o, n.cond, n.scalars) == Source(f, db, o);
    assert NestedAccepted(n) <==> Accepted(q);
  }
}
