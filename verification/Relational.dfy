/**
 Meaning of the read queries the assistant produces: a chain of joins over row sequences,
 WHERE, grouping, HAVING, ORDER BY, projection, DISTINCT and LIMIT, with SQL's NULL.
 Scalar functions, aggregates, the ordering of keys and the columns of each table are parameters
 (`Functions`). Identifiers are in lower case.
 */
module Relational {
  import opened Wrappers

  datatype Value = Null | Int(n: int) | Text(s: string)

  type Record = map<string, Value>

  /** The row bound to each alias; an alias without a row stands for a row of NULLs. */
  type Env = map<string, Record>

  type Db = map<string, seq<Record>>

  /** `Ne` is written `<>`, `BangEq` is written `!=`. */
  datatype CmpOp = Eq | Ne | BangEq | Lt | Le | Gt | Ge | NullSafeEq

  /** `Name` is an unqualified name: of a column, or of a selected expression. */
  datatype Expr =
    | Col(alias: string, column: string)
    | Name(name: string)
    | Lit(v: Value)
    | Cmp(op: CmpOp, left: Expr, right: Expr)
    | And(left: Expr, right: Expr)
    | Or(left: Expr, right: Expr)
    | Not(e: Expr)
    | Paren(e: Expr)
    | Fn(name: string, args: seq<Expr>)
    | Agg(name: string, arg: Expr)

  datatype JoinKind = Inner | Cross | Left | Right

  datatype Join = Join(kind: JoinKind, table: string, alias: string, on: Option<Expr>)

  /** `AS x`, a bare `x`, or nothing after the selected expression. */
  datatype Naming = Unnamed | As(name: string) | Bare(name: string)

  datatype Item =
    | Star
    | TableStar(alias: string)
    | Item(e: Expr, naming: Naming)

  datatype OrderKey = OrderKey(e: Expr, desc: bool)

  datatype Grouping = Ungrouped | By(keys: seq<Expr>)

  datatype Query = Query(
    distinct: bool,
    items: seq<Item>,
    table: string,
    alias: string,
    joins: seq<Join>,
    where: Expr,
    grouping: Grouping,
    having: Expr,
    order: seq<OrderKey>,
    limit: Option<nat>)

  datatype Functions = Functions(
    scalar: (string, seq<Value>) -> Value,
    aggregate: (string, seq<Value>) -> Value,
    less: (Value, Value) -> bool,
    before: (seq<Value>, seq<Value>, seq<bool>) -> bool,
    columns: string -> set<string>)

  datatype Cell = One(v: Value) | Row(r: Record) | Everything(env: Env)

  // ----- expressions -----

  function RowOf(env: Env, alias: string): Record {
    if alias in env then env[alias] else map[]
  }

  function Field(r: Record, column: string): Value {
    if column in r then r[column] else Null
  }

  function Bool(b: bool): Value {
    Int(if b then 1 else 0)
  }

  predicate IsTrue(v: Value) {
    v.Int? && v.n != 0
  }

  predicate IsFalse(v: Value) {
    v.Int? && v.n == 0
  }

  function Compare(f: Functions, op: CmpOp, a: Value, b: Value): Value {
    if op.NullSafeEq? then Bool(a == b)
    else if a.Null? || b.Null? then Null
    else match op
      case Eq => Bool(a == b)
      case Ne => Bool(a != b)
      case BangEq => Bool(a != b)
      case Lt => Bool(f.less(a, b))
      case Le => Bool(f.less(a, b) || a == b)
      case Gt => Bool(f.less(b, a))
      case _ => Bool(f.less(b, a) || a == b)
  }

  function Conjunction(a: Value, b: Value): Value {
    if IsFalse(a) || IsFalse(b) then Bool(false) else if IsTrue(a) && IsTrue(b) then Bool(true) else Null
  }

  function Disjunction(a: Value, b: Value): Value {
    if IsTrue(a) || IsTrue(b) then Bool(true) else if IsFalse(a) && IsFalse(b) then Bool(false) else Null
  }

  function Negation(a: Value): Value {
    if IsTrue(a) then Bool(false) else if IsFalse(a) then Bool(true) else Null
  }

  /** Value of `e` over a group of rows; a plain column reads the group's first row. */
  function Eval(f: Functions, e: Expr, group: seq<Env>): Value
    decreases e, 0
  {
    match e
    case Col(a, c) => if group == [] then Null else Field(RowOf(group[0], a), c)
    case Name(_) => Null
    case Lit(v) => v
    case Cmp(op, l, r) => Compare(f, op, Eval(f, l, group), Eval(f, r, group))
    case And(l, r) => Conjunction(Eval(f, l, group), Eval(f, r, group))
    case Or(l, r) => Disjunction(Eval(f, l, group), Eval(f, r, group))
    case Not(x) => Negation(Eval(f, x, group))
    case Paren(x) => Eval(f, x, group)
    case Fn(name, args) => f.scalar(name, EvalAll(f, args, group))
    case Agg(name, arg) => f.aggregate(name, EvalEach(f, arg, group))
  }

  function EvalAll(f: Functions, es: seq<Expr>, group: seq<Env>): (vs: seq<Value>)
    decreases es, 0
  {
    if es == [] then [] else [Eval(f, es[0], group)] + EvalAll(f, es[1..], group)
  }

  /** The values an aggregate ranges over: its argument on each row of the group. */
  function EvalEach(f: Functions, e: Expr, group: seq<Env>): seq<Value>
    decreases e, 1, |group|
  {
    if group == [] then [] else [Eval(f, e, group[..1])] + EvalEach(f, e, group[1..])
  }

  predicate Holds(f: Functions, e: Expr, env: Env) {
    IsTrue(Eval(f, e, [env]))
  }

  // ----- joins -----

  /** Without ON, every pair of rows. */
  predicate Accepts(f: Functions, j: Join, env: Env) {
    j.on.None? || Holds(f, j.on.value, env)
  }

  predicate NewAliases(used: set<string>, joins: seq<Join>)
    decreases |joins|
  {
    joins == [] || (joins[0].alias !in used && NewAliases(used + {joins[0].alias}, joins[1..]))
  }

  predicate Outer(kind: JoinKind) {
    kind.Left? || kind.Right?
  }

  predicate HasItsOn(j: Join) {
    Outer(j.kind) ==> j.on.Some?
  }

  /** MySQL refuses two tables with one alias, and an outer join without ON. */
  predicate Accepted(q: Query) {
    NewAliases({q.alias}, q.joins) && forall j :: j in q.joins ==> HasItsOn(j)
  }

  function Rows(db: Db, table: string): seq<Record> {
    if table in db then db[table] else []
  }

  /** The rows of the joined table that satisfy ON for the row `env` of the left side. */
  function Matches(f: Functions, rows: seq<Record>, env: Env, j: Join): seq<Env> {
    if rows == [] then []
    else
      var bound := env[j.alias := rows[0]];
      (if Accepts(f, j, bound) then [bound] else []) + Matches(f, rows[1..], env, j)
  }

  function Block(f: Functions, rows: seq<Record>, env: Env, j: Join): seq<Env> {
    var m := Matches(f, rows, env, j);
    if m == [] && j.kind.Left? then [env[j.alias := map[]]] else m
  }

  function Blocks(f: Functions, rows: seq<Record>, envs: seq<Env>, j: Join): seq<Env> {
    if envs == [] then [] else Block(f, rows, envs[0], j) + Blocks(f, rows, envs[1..], j)
  }

  /** RIGHT JOIN: the left rows that match the row `r` of the joined table. */
  function LeftMatches(f: Functions, r: Record, envs: seq<Env>, j: Join): seq<Env> {
    if envs == [] then []
    else
      var bound := envs[0][j.alias := r];
      (if Accepts(f, j, bound) then [bound] else []) + LeftMatches(f, r, envs[1..], j)
  }

  /** `outer` is what the rows have besides the tables joined: in a subquery, the row outside. */
  function RightBlock(f: Functions, outer: Env, r: Record, envs: seq<Env>, j: Join): seq<Env> {
    var m := LeftMatches(f, r, envs, j);
    if m == [] then [outer[j.alias := r]] else m
  }

  function RightBlocks(f: Functions, outer: Env, rows: seq<Record>, envs: seq<Env>, j: Join): seq<Env> {
    if rows == [] then [] else RightBlock(f, outer, rows[0], envs, j) + RightBlocks(f, outer, rows[1..], envs, j)
  }

  function Step(f: Functions, db: Db, outer: Env, envs: seq<Env>, j: Join): seq<Env> {
    if j.kind.Right? then RightBlocks(f, outer, Rows(db, j.table), envs, j)
    else Blocks(f, Rows(db, j.table), envs, j)
  }

  function Steps(f: Functions, db: Db, outer: Env, envs: seq<Env>, joins: seq<Join>): seq<Env>
    decreases |joins|
  {
    if joins == [] then envs else Steps(f, db, outer, Step(f, db, outer, envs, joins[0]), joins[1..])
  }

  function Base(outer: Env, alias: string, rows: seq<Record>): seq<Env> {
    if rows == [] then [] else [outer[alias := rows[0]]] + Base(outer, alias, rows[1..])
  }

  function Where(f: Functions, e: Expr, envs: seq<Env>): seq<Env> {
    if envs == [] then []
    else (if Holds(f, e, envs[0]) then [envs[0]] else []) + Where(f, e, envs[1..])
  }

  /** FROM, joins and WHERE. */
  function Source(f: Functions, db: Db, q: Query): seq<Env> {
    Where(f, q.where, Steps(f, db, map[], Base(map[], q.alias, Rows(db, q.table)), q.joins))
  }

  // ----- grouping, ordering, projection -----

  function WithKey(f: Functions, keys: seq<Expr>, k: seq<Value>, same: bool, envs: seq<Env>): (r: seq<Env>)
    ensures |r| <= |envs|
  {
    if envs == [] then []
    else (if (EvalAll(f, keys, envs[..1]) == k) == same then [envs[0]] else [])
         + WithKey(f, keys, k, same, envs[1..])
  }

  function GroupBy(f: Functions, keys: seq<Expr>, envs: seq<Env>): seq<seq<Env>>
    decreases |envs|
  {
    if envs == [] then []
    else
      var k := EvalAll(f, keys, envs[..1]);
      [[envs[0]] + WithKey(f, keys, k, true, envs[1..])]
      + GroupBy(f, keys, WithKey(f, keys, k, false, envs[1..]))
  }

  function Singles(envs: seq<Env>): seq<seq<Env>> {
    if envs == [] then [] else [envs[..1]] + Singles(envs[1..])
  }

  predicate HasAggregate(e: Expr)
    decreases e, 0
  {
    match e
    case Col(_, _) => false
    case Name(_) => false
    case Lit(_) => false
    case Cmp(_, l, r) => HasAggregate(l) || HasAggregate(r)
    case And(l, r) => HasAggregate(l) || HasAggregate(r)
    case Or(l, r) => HasAggregate(l) || HasAggregate(r)
    case Not(x) => HasAggregate(x)
    case Paren(x) => HasAggregate(x)
    case Fn(_, args) => AnyAggregate(args)
    case Agg(_, _) => true
  }

  predicate AnyAggregate(es: seq<Expr>)
    decreases es, 0
  {
    es != [] && (HasAggregate(es[0]) || AnyAggregate(es[1..]))
  }

  predicate ItemsAggregate(items: seq<Item>) {
    exists c :: c in items && c.Item? && HasAggregate(c.e)
  }

  /** An aggregate is written in SELECT, HAVING or ORDER BY. */
  predicate Aggregates(q: Query) {
    ItemsAggregate(q.items) || HasAggregate(q.having) || AnyAggregate(OrderExprs(q.order))
  }

  /** Without GROUP BY, an aggregate alone makes one group of all rows, even of none. */
  function Groups(f: Functions, q: Query, envs: seq<Env>): seq<seq<Env>> {
    match q.grouping
    case By(keys) => GroupBy(f, keys, envs)
    case Ungrouped => if Aggregates(q) then [envs] else Singles(envs)
  }

  function Having(f: Functions, e: Expr, groups: seq<seq<Env>>): seq<seq<Env>> {
    if groups == [] then []
    else (if IsTrue(Eval(f, e, groups[0])) then [groups[0]] else []) + Having(f, e, groups[1..])
  }

  function OrderExprs(order: seq<OrderKey>): (r: seq<Expr>)
    ensures |r| == |order| && forall i :: 0 <= i < |r| ==> r[i] == order[i].e
  {
    if order == [] then [] else [order[0].e] + OrderExprs(order[1..])
  }

  function Directions(order: seq<OrderKey>): seq<bool> {
    if order == [] then [] else [order[0].desc] + Directions(order[1..])
  }

  function Insert(f: Functions, keys: seq<Expr>, dirs: seq<bool>, g: seq<Env>, sorted: seq<seq<Env>>): seq<seq<Env>> {
    if sorted == [] then [g]
    else if f.before(EvalAll(f, keys, sorted[0]), EvalAll(f, keys, g), dirs)
    then [sorted[0]] + Insert(f, keys, dirs, g, sorted[1..])
    else [g] + sorted
  }

  function Sort(f: Functions, keys: seq<Expr>, dirs: seq<bool>, groups: seq<seq<Env>>): seq<seq<Env>> {
    if groups == [] then [] else Insert(f, keys, dirs, groups[0], Sort(f, keys, dirs, groups[1..]))
  }

  function CellOf(f: Functions, item: Item, g: seq<Env>): Cell {
    match item
    case Star => if g == [] then Everything(map[]) else Everything(g[0])
    case TableStar(a) => if g == [] then Row(map[]) else Row(RowOf(g[0], a))
    case Item(e, _) => One(Eval(f, e, g))
  }

  function Cells(f: Functions, items: seq<Item>, g: seq<Env>): (r: seq<Cell>)
    ensures |r| == |items|
  {
    if items == [] then [] else [CellOf(f, items[0], g)] + Cells(f, items[1..], g)
  }

  function Project(f: Functions, items: seq<Item>, groups: seq<seq<Env>>): (r: seq<seq<Cell>>)
    ensures |r| == |groups|
    ensures forall i :: 0 <= i < |r| ==> |r[i]| == |items|
  {
    if groups == [] then [] else [Cells(f, items, groups[0])] + Project(f, items, groups[1..])
  }

  /** First occurrences only, in order. */
  function Distinct<T(==)>(rows: seq<T>): seq<T> {
    if rows == [] then []
    else
      var before := Distinct(rows[..|rows| - 1]);
      var last := rows[|rows| - 1];
      if last in before then before else before + [last]
  }

  lemma {:induction false} DistinctMembers<T>(xs: seq<T>, x: T)
    ensures x in Distinct(xs) <==> x in xs
  {
    if xs != [] {
      var init := xs[..|xs| - 1];
      DistinctMembers(init, x);
      DistinctMembers(init, xs[|xs| - 1]);
      assert xs == init + [xs[|xs| - 1]];
    }
  }

  function Take<T>(limit: Option<nat>, rows: seq<T>): seq<T> {
    if limit.Some? && limit.value < |rows| then rows[..limit.value] else rows
  }

  function Sorted(f: Functions, db: Db, q: Query): seq<seq<Env>> {
    Sort(f, OrderExprs(q.order), Directions(q.order), Having(f, q.having, Groups(f, q, Source(f, db, q))))
  }

  /** The rows before DISTINCT and LIMIT, once every name is qualified. */
  function AllRows(f: Functions, db: Db, q: Query): seq<seq<Cell>> {
    Project(f, q.items, Sorted(f, db, q))
  }

  // ----- what a name stands for -----

  /** What a name stands for in a clause; `None` when it stands for nothing, or for several things. */
  type Scope = string -> Option<Expr>

  /** The unqualified names in an expression. */
  function Unqualified(e: Expr): set<string>
    decreases e, 0
  {
    match e
    case Col(_, _) => {}
    case Name(n) => {n}
    case Lit(_) => {}
    case Cmp(_, l, r) => Unqualified(l) + Unqualified(r)
    case And(l, r) => Unqualified(l) + Unqualified(r)
    case Or(l, r) => Unqualified(l) + Unqualified(r)
    case Not(x) => Unqualified(x)
    case Paren(x) => Unqualified(x)
    case Fn(_, args) => UnqualifiedAll(args)
    case Agg(_, x) => Unqualified(x)
  }

  function UnqualifiedAll(es: seq<Expr>): set<string>
    decreases es, 0
  {
    if es == [] then {} else Unqualified(es[0]) + UnqualifiedAll(es[1..])
  }

  predicate Found(s: Scope, names: set<string>) {
    forall n :: n in names ==> s(n).Some?
  }

  /** The expression with its names replaced by what they stand for. */
  function Qualify(s: Scope, e: Expr): Expr
    decreases e, 0
  {
    match e
    case Col(_, _) => e
    case Name(n) => if s(n).Some? then s(n).value else e
    case Lit(_) => e
    case Cmp(op, l, r) => Cmp(op, Qualify(s, l), Qualify(s, r))
    case And(l, r) => And(Qualify(s, l), Qualify(s, r))
    case Or(l, r) => Or(Qualify(s, l), Qualify(s, r))
    case Not(x) => Not(Qualify(s, x))
    case Paren(x) => Paren(Qualify(s, x))
    case Fn(name, args) => Fn(name, QualifyAll(s, args))
    case Agg(name, x) => Agg(name, Qualify(s, x))
  }

  function QualifyAll(s: Scope, es: seq<Expr>): seq<Expr>
    decreases es, 0
  {
    if es == [] then [] else [Qualify(s, es[0])] + QualifyAll(s, es[1..])
  }

  /** The joined tables that have a column `n`. */
  function JoinOwners(f: Functions, joins: seq<Join>, n: string): seq<string> {
    if joins == [] then []
    else (if n in f.columns(joins[0].table) then [joins[0].alias] else []) + JoinOwners(f, joins[1..], n)
  }

  function Owners(f: Functions, q: Query, joins: seq<Join>, n: string): seq<string> {
    (if n in f.columns(q.table) then [q.alias] else []) + JoinOwners(f, joins, n)
  }

  /** A name that one table has as a column is that column. */
  function Column(f: Functions, q: Query, joins: seq<Join>, n: string): Option<Expr> {
    var owners := Owners(f, q, joins, n);
    if |owners| == 1 then Some(Col(owners[0], n)) else None
  }

  /** SELECT, WHERE, and ON for the tables joined so far. */
  function ColumnScope(f: Functions, q: Query, joins: seq<Join>): Scope {
    n => Column(f, q, joins, n)
  }

  /** The name a selected expression has in the result. */
  function ItemName(item: Item): Option<string> {
    if !item.Item? then None
    else if !item.naming.Unnamed? then Some(item.naming.name)
    else match item.e
      case Col(_, c) => Some(c)
      case Name(n) => Some(n)
      case _ => None
  }

  /** The selected expressions of that name, qualified. */
  function Named(s: Scope, items: seq<Item>, n: string): seq<Expr> {
    if items == [] then []
    else
      (if ItemName(items[0]) == Some(n) && items[0].Item? then [Qualify(s, items[0].e)] else [])
      + Named(s, items[1..], n)
  }

  predicate OneMeaning(es: seq<Expr>) {
    es != [] && forall e :: e in es ==> e == es[0]
  }

  /** GROUP BY looks for a column first, then for a selected expression. */
  function GroupName(f: Functions, q: Query, n: string): Option<Expr> {
    var named := Named(ColumnScope(f, q, q.joins), q.items, n);
    if Owners(f, q, q.joins, n) != [] then Column(f, q, q.joins, n)
    else if OneMeaning(named) then Some(named[0]) else None
  }

  /** ORDER BY looks for a selected expression first, then for a column. */
  function ResultName(f: Functions, q: Query, n: string): Option<Expr> {
    var named := Named(ColumnScope(f, q, q.joins), q.items, n);
    if named == [] then Column(f, q, q.joins, n)
    else if OneMeaning(named) then Some(named[0]) else None
  }

  function GroupScope(f: Functions, q: Query): Scope {
    n => GroupName(f, q, n)
  }

  function ResultScope(f: Functions, q: Query): Scope {
    n => ResultName(f, q, n)
  }

  function GroupKeys(g: Grouping): seq<Expr> {
    if g.By? then g.keys else []
  }

  function QualifyItems(s: Scope, items: seq<Item>): (r: seq<Item>)
    ensures |r| == |items|
  {
    if items == [] then []
    else [if items[0].Item? then items[0].(e := Qualify(s, items[0].e)) else items[0]] + QualifyItems(s, items[1..])
  }

  // ----- what HAVING can name -----

  /** The names and columns an expression uses outside its aggregates. */
  function References(e: Expr): set<Expr>
    decreases e, 0
  {
    match e
    case Col(_, _) => {e}
    case Name(_) => {e}
    case Lit(_) => {}
    case Cmp(_, l, r) => References(l) + References(r)
    case And(l, r) => References(l) + References(r)
    case Or(l, r) => References(l) + References(r)
    case Not(x) => References(x)
    case Paren(x) => References(x)
    case Fn(_, args) => ReferencesAll(args)
    case Agg(_, _) => {}
  }

  function ReferencesAll(es: seq<Expr>): set<Expr>
    decreases es, 0
  {
    if es == [] then {} else References(es[0]) + ReferencesAll(es[1..])
  }

  /** The unqualified names inside its aggregates. */
  function Inside(e: Expr): set<string>
    decreases e, 0
  {
    match e
    case Col(_, _) => {}
    case Name(_) => {}
    case Lit(_) => {}
    case Cmp(_, l, r) => Inside(l) + Inside(r)
    case And(l, r) => Inside(l) + Inside(r)
    case Or(l, r) => Inside(l) + Inside(r)
    case Not(x) => Inside(x)
    case Paren(x) => Inside(x)
    case Fn(_, args) => InsideAll(args)
    case Agg(_, x) => Unqualified(x)
  }

  function InsideAll(es: seq<Expr>): set<string>
    decreases es, 0
  {
    if es == [] then {} else Inside(es[0]) + InsideAll(es[1..])
  }

  /** The names outside aggregates stand for what `s` says, those inside for what `t` says. */
  function QualifyHaving(s: Scope, t: Scope, e: Expr): Expr
    decreases e, 0
  {
    match e
    case Col(_, _) => e
    case Name(n) => if s(n).Some? then s(n).value else e
    case Lit(_) => e
    case Cmp(op, l, r) => Cmp(op, QualifyHaving(s, t, l), QualifyHaving(s, t, r))
    case And(l, r) => And(QualifyHaving(s, t, l), QualifyHaving(s, t, r))
    case Or(l, r) => Or(QualifyHaving(s, t, l), QualifyHaving(s, t, r))
    case Not(x) => Not(QualifyHaving(s, t, x))
    case Paren(x) => Paren(QualifyHaving(s, t, x))
    case Fn(name, args) => Fn(name, QualifyHavingAll(s, t, args))
    case Agg(name, x) => Agg(name, Qualify(t, x))
  }

  function QualifyHavingAll(s: Scope, t: Scope, es: seq<Expr>): seq<Expr>
    decreases es, 0
  {
    if es == [] then [] else [QualifyHaving(s, t, es[0])] + QualifyHavingAll(s, t, es[1..])
  }

  /** The columns of that name among the expressions. */
  function ColumnsNamed(es: seq<Expr>, n: string): seq<Expr> {
    if es == [] then []
    else (if es[0].Col? && es[0].column == n then [es[0]] else []) + ColumnsNamed(es[1..], n)
  }

  function ColumnsOf(owners: seq<string>, n: string): seq<Expr> {
    if owners == [] then [] else [Col(owners[0], n)] + ColumnsOf(owners[1..], n)
  }

  /** The columns of that name that `*` and `table.*` select. */
  function StarColumns(items: seq<Item>, owners: seq<string>, n: string): seq<Expr> {
    if items == [] then []
    else
      var rest := StarColumns(items[1..], owners, n);
      match items[0]
      case Star => ColumnsOf(owners, n) + rest
      case TableStar(a) => if a in owners then [Col(a, n)] + rest else rest
      case Item(_, _) => rest
  }

  function Selected(items: seq<Item>): seq<Expr> {
    if items == [] then [] else (if items[0].Item? then [items[0].e] else []) + Selected(items[1..])
  }

  /** What a name stands for in HAVING: `found` in SELECT, or the grouping keys of that name, which come first. */
  function HavingChoice(found: seq<Expr>, keys: seq<Expr>): Option<Expr> {
    if found != [] && !OneMeaning(found) then None
    else if keys != [] then if OneMeaning(keys) then Some(keys[0]) else None
    else if found != [] then Some(found[0]) else None
  }

  /** The selected expressions of that name in the result, otherwise the selected columns of that name. */
  function InSelection(shown: seq<Expr>, items: seq<Item>, n: string): seq<Expr> {
    if shown != [] then shown else ColumnsNamed(Selected(items), n)
  }

  /** The grouping keys, qualified. */
  function Keys(f: Functions, q: Query): seq<Expr> {
    QualifyAll(GroupScope(f, q), GroupKeys(q.grouping))
  }

  /** What SELECT shows under that name. */
  function Shown(f: Functions, q: Query, n: string): seq<Expr> {
    Named(ColumnScope(f, q, q.joins), q.items, n) + StarColumns(q.items, Owners(f, q, q.joins, n), n)
  }

  /** HAVING looks at the grouping keys and at SELECT, not at the other columns of the tables. */
  function HavingName(f: Functions, q: Query, n: string): Option<Expr> {
    var items := QualifyItems(ColumnScope(f, q, q.joins), q.items);
    HavingChoice(InSelection(Shown(f, q, n), items, n), ColumnsNamed(Keys(f, q), n))
  }

  function HavingScope(f: Functions, q: Query): Scope {
    n => HavingName(f, q, n)
  }

  /** Outside an aggregate HAVING can use a column that is selected or a grouping key. */
  predicate HavingColumn(items: seq<Item>, keys: seq<Expr>, x: Expr)
    requires x.Col?
  {
    x in keys || x in Selected(items) || Star in items || TableStar(x.alias) in items
  }

  predicate HavingRefers(f: Functions, q: Query, x: Expr) {
    match x
    case Name(n) => HavingName(f, q, n).Some?
    case Col(_, _) => HavingColumn(QualifyItems(ColumnScope(f, q, q.joins), q.items), Keys(f, q), x)
    case _ => true
  }

  predicate HavingResolves(f: Functions, q: Query) {
    && Found(ColumnScope(f, q, q.joins), Inside(q.having))
    && forall x :: x in References(q.having) ==> HavingRefers(f, q, x)
  }

  function ItemNames(items: seq<Item>): set<string> {
    if items == [] then {}
    else (if items[0].Item? then Unqualified(items[0].e) else {}) + ItemNames(items[1..])
  }

  function OnNames(j: Join): set<string> {
    if j.on.Some? then Unqualified(j.on.value) else {}
  }

  predicate JoinsResolve(f: Functions, q: Query, before: seq<Join>, joins: seq<Join>)
    decreases |joins|
  {
    joins == [] || (Found(ColumnScope(f, q, before + [joins[0]]), OnNames(joins[0]))
                    && JoinsResolve(f, q, before + [joins[0]], joins[1..]))
  }

  /** Every name stands for something. */
  predicate Resolves(f: Functions, q: Query) {
    && Found(ColumnScope(f, q, q.joins), ItemNames(q.items)) && Found(ColumnScope(f, q, q.joins), Unqualified(q.where))
    && JoinsResolve(f, q, [], q.joins)
    && Found(GroupScope(f, q), UnqualifiedAll(GroupKeys(q.grouping)))
    && HavingResolves(f, q) && Found(ResultScope(f, q), UnqualifiedAll(OrderExprs(q.order)))
  }

  function QualifyJoins(f: Functions, q: Query, before: seq<Join>, joins: seq<Join>): (r: seq<Join>)
    ensures |r| == |joins|
    decreases |joins|
  {
    if joins == [] then []
    else
      var j, seen := joins[0], before + [joins[0]];
      [if j.on.Some? then j.(on := Some(Qualify(ColumnScope(f, q, seen), j.on.value))) else j]
      + QualifyJoins(f, q, seen, joins[1..])
  }

  function QualifyOrder(s: Scope, order: seq<OrderKey>): (r: seq<OrderKey>)
    ensures |r| == |order|
  {
    if order == [] then [] else [order[0].(e := Qualify(s, order[0].e))] + QualifyOrder(s, order[1..])
  }

  function QualifyGrouping(s: Scope, g: Grouping): Grouping {
    if g.By? then By(QualifyAll(s, g.keys)) else g
  }

  /** The query with every name qualified. */
  function Qualified(f: Functions, q: Query): Query {
    var columns := ColumnScope(f, q, q.joins);
    q.(items := QualifyItems(columns, q.items), joins := QualifyJoins(f, q, [], q.joins),
       where := Qualify(columns, q.where),
       grouping := QualifyGrouping(GroupScope(f, q), q.grouping),
       having := QualifyHaving(HavingScope(f, q), columns, q.having), order := QualifyOrder(ResultScope(f, q), q.order))
  }

  /** Result rows, `None` when MySQL refuses the query. */
  function Result(f: Functions, db: Db, q: Query): Option<seq<seq<Cell>>> {
    if !Accepted(q) || !Resolves(f, q) then None
    else
      var rows := AllRows(f, db, Qualified(f, q));
      Some(Take(q.limit, if q.distinct then Distinct(rows) else rows))
  }
}
