/**
 Where the tests that denied-join-pruning.ts makes on the text of a query are not enough: joins that find
 several rows, names lost with their column, and DISTINCT with LIMIT.
 */
module PruningLimits {
  import opened Wrappers
  import opened Relational
  import opened Agreement
  import opened DeniedJoinPruning

  const TRUE := Lit(Int(1))

  // ----- queries without conditions -----

  lemma {:induction false} HoldsTrue(f: Functions, env: Env)
    ensures Holds(f, TRUE, env)
  {
  }

  lemma {:induction false} WhereTrue(f: Functions, envs: seq<Env>)
    ensures Where(f, TRUE, envs) == envs
  {
    hide Holds;
    if envs != [] {
      WhereTrue(f, envs[1..]);
      HoldsTrue(f, envs[0]);
      assert envs == [envs[0]] + envs[1..];
    }
  }

  lemma {:induction false} HavingTrue(f: Functions, groups: seq<seq<Env>>)
    ensures Having(f, TRUE, groups) == groups
  {
    if groups != [] {
      HavingTrue(f, groups[1..]);
      assert IsTrue(Eval(f, TRUE, groups[0])) && groups == [groups[0]] + groups[1..];
    }
  }

  lemma {:induction false} InsertSize(f: Functions, keys: seq<Expr>, dirs: seq<bool>, g: seq<Env>,
          sorted: seq<seq<Env>>)
    ensures |Insert(f, keys, dirs, g, sorted)| == |sorted| + 1
  {
    if sorted != [] { InsertSize(f, keys, dirs, g, sorted[1..]); }
  }

  lemma {:induction false} SortSize(f: Functions, keys: seq<Expr>, dirs: seq<bool>, groups: seq<seq<Env>>)
    ensures |Sort(f, keys, dirs, groups)| == |groups|
  {
    if groups != [] {
      SortSize(f, keys, dirs, groups[1..]);
      InsertSize(f, keys, dirs, groups[0], Sort(f, keys, dirs, groups[1..]));
    }
  }

  predicate Simple(q: Query) {
    q.where == TRUE && q.having == TRUE && q.grouping.Ungrouped? && !Aggregates(q)
  }

  /** The rows of FROM with its joins. */
  function Joined(f: Functions, db: Db, q: Query): seq<Env> {
    Steps(f, db, map[], Base(map[], q.alias, Rows(db, q.table)), q.joins)
  }

  lemma {:induction false} SimpleSorted(f: Functions, db: Db, q: Query)
    requires Simple(q)
    ensures Sorted(f, db, q) == Sort(f, OrderExprs(q.order), Directions(q.order), Singles(Joined(f, db, q)))
  {
    hide Where, Having, Steps, Sort, OrderExprs, Directions, Aggregates;
    WhereTrue(f, Joined(f, db, q));
    HavingTrue(f, Singles(Joined(f, db, q)));
  }

  lemma {:induction false} SinglesSize(envs: seq<Env>)
    ensures |Singles(envs)| == |envs| && forall i :: 0 <= i < |envs| ==> Singles(envs)[i] == [envs[i]]
  {
    if envs != [] { SinglesSize(envs[1..]); }
  }

  lemma {:induction false} QualifiedIsSimple(f: Functions, q: Query)
    requires Simple(q)
    ensures Simple(Qualified(f, q))
  {
    hide ColumnScope, HavingScope, QualifyItems, QualifyJoins, Aggregates;
    AggregatesQualified(f, q);
  }

  /** Neither DISTINCT nor LIMIT, nor any condition: as many rows as the joins give. */
  lemma {:induction false} SimpleSize(f: Functions, db: Db, q: Query)
    requires Simple(q) && !q.distinct && q.limit.None? && Result(f, db, q).Some?
    ensures |Result(f, db, q).value| == |Joined(f, db, Qualified(f, q))|
  {
    hide Qualified, Accepted, Resolves, Joined, Sort, Singles, Distinct, OrderExprs, Directions, Simple;
    var o := Qualified(f, q);
    QualifiedIsSimple(f, q);
    SimpleSorted(f, db, o);
    SinglesSize(Joined(f, db, o));
    SortSize(f, OrderExprs(o.order), Directions(o.order), Singles(Joined(f, db, o)));
  }

  // ----- a removed join has to find one row at most -----

  lemma {:induction false} EachOnceParts(f: Functions, rows: seq<Record>, envs: seq<Env>, j: Join)
    requires envs != []
    ensures EachOnce(f, rows, envs, j) <==> |Matches(f, rows, envs[0], j)| <= 1 && EachOnce(f, rows, envs[1..], j)
  {
    hide Matches;
    assert envs == [envs[0]] + envs[1..];
  }

  lemma {:induction false} BlockSize(f: Functions, rows: seq<Record>, env: Env, j: Join)
    requires j.kind.Left?
    ensures |Block(f, rows, env, j)| >= 1 && (|Block(f, rows, env, j)| == 1 <==> |Matches(f, rows, env, j)| <= 1)
    ensures Agree(Block(f, rows, env, j)[0], env, {j.alias})
  {
    MatchesBind(f, rows, env, j);
    hide Matches;
  }

  /** A LEFT JOIN gives as many rows as it is given exactly when none of them has two matches. */
  lemma {:induction false} BlocksSize(f: Functions, rows: seq<Record>, envs: seq<Env>, j: Join)
    requires j.kind.Left?
    ensures |Blocks(f, rows, envs, j)| >= |envs|
    ensures |Blocks(f, rows, envs, j)| == |envs| <==> EachOnce(f, rows, envs, j)
  {
    hide Block, Matches;
    if envs != [] {
      hide EachOnce, Agree;
      BlocksSize(f, rows, envs[1..], j);
      BlockSize(f, rows, envs[0], j);
      EachOnceParts(f, rows, envs, j);
    }
  }

  /** Some of the rows `a`, in order, agree with the rows `b`. */
  ghost predicate Covers(a: seq<Env>, b: seq<Env>, off: set<string>)
    decreases |a|
  {
    b == [] || (a != [] && ((Agree(a[0], b[0], off) && Covers(a[1..], b[1..], off)) || Covers(a[1..], b, off)))
  }

  lemma {:induction false} CoversMore(pre: seq<Env>, a: seq<Env>, b: seq<Env>, off: set<string>)
    requires Covers(a, b, off)
    ensures Covers(pre + a, b, off)
  {
    hide Agree;
    if pre == [] {
      assert pre + a == a;
    } else {
      CoversMore(pre[1..], a, b, off);
      assert (pre + a)[1..] == pre[1..] + a;
    }
  }

  lemma {:induction false} CoversBoth(a: seq<Env>, b: seq<Env>, c: seq<Env>, d: seq<Env>, off: set<string>)
    requires AgreeAll(a, b, off) && Covers(c, d, off)
    ensures Covers(a + c, b + d, off)
  {
    hide Agree;
    if a == [] {
      assert a + c == c && b + d == d;
    } else {
      CoversBoth(a[1..], b[1..], c, d, off);
      assert (a + c)[1..] == a[1..] + c && (b + d)[1..] == b[1..] + d;
    }
  }

  /** A removed join keeps what the rows cover. */
  lemma {:induction false} RemovedCovers(f: Functions, rows: seq<Record>, a: seq<Env>, b: seq<Env>, j: Join,
          off: set<string>)
    requires Covers(a, b, off) && j.kind.Left? && j.alias in off
    ensures Covers(Blocks(f, rows, a, j), b, off)
    decreases |a|
  {
    hide Block, Agree, AgreeAll;
    if b != [] {
      var block, rest := Block(f, rows, a[0], j), Blocks(f, rows, a[1..], j);
      if Agree(a[0], b[0], off) && Covers(a[1..], b[1..], off) {
        RemovedCovers(f, rows, a[1..], b[1..], j, off);
        BlockSize(f, rows, a[0], j);
        FirstAgrees(block[0], a[0], b[0], j.alias, off);
        CoversMore(block[1..], rest, b[1..], off);
        CoversBoth([block[0]], [b[0]], block[1..] + rest, b[1..], off);
        assert block + rest == [block[0]] + (block[1..] + rest) && b == [b[0]] + b[1..];
      } else {
        RemovedCovers(f, rows, a[1..], b, j, off);
        CoversMore(block, rest, b, off);
      }
    }
  }

  lemma {:induction false} FirstAgrees(x: Env, a: Env, b: Env, alias: string, off: set<string>)
    requires Agree(x, a, {alias}) && Agree(a, b, off) && alias in off
    ensures AgreeAll([x], [b], off)
  {
  }

  /** A kept LEFT JOIN does too, and gives at least a row for each row not covered. */
  lemma {:induction false} KeptCovers(f: Functions, rows: seq<Record>, a: seq<Env>, b: seq<Env>, j: Join,
          off: set<string>)
    requires Covers(a, b, off) && j.kind.Left? && (j.on.None? || Aliases(j.on.value) !! off)
    ensures Covers(Blocks(f, rows, a, j), Blocks(f, rows, b, j), off)
    ensures |Blocks(f, rows, a, j)| - |Blocks(f, rows, b, j)| >= |a| - |b|
    decreases |a|
  {
    hide Block, Agree, Aliases;
    if b == [] {
      BlocksSize(f, rows, a, j);
    } else {
      var block, rest := Block(f, rows, a[0], j), Blocks(f, rows, a[1..], j);
      if Agree(a[0], b[0], off) && Covers(a[1..], b[1..], off) {
        KeptCovers(f, rows, a[1..], b[1..], j, off);
        BlockAgree(f, rows, a[0], b[0], j, off);
        CoversBoth(block, Block(f, rows, b[0], j), rest, Blocks(f, rows, b[1..], j), off);
      } else {
        KeptCovers(f, rows, a[1..], b, j, off);
        BlockSize(f, rows, a[0], j);
        CoversMore(block, rest, Blocks(f, rows, b, j), off);
      }
    }
  }

  predicate AllLeft(joins: seq<Join>) {
    forall j :: j in joins ==> j.kind.Left?
  }

  /** The removed joins bind aliases of `off` only, and the kept ones do not read them. */
  ghost predicate Apart(joins: seq<Join>, denied: set<string>, off: set<string>) {
    && (forall j :: j in joins && Denied(j, denied) ==> j.alias in off)
    && (forall j :: j in joins && !Denied(j, denied) && j.on.Some? ==> Aliases(j.on.value) !! off)
  }

  lemma {:induction false} StepsCover(f: Functions, db: Db, a: seq<Env>, b: seq<Env>, joins: seq<Join>,
          denied: set<string>, off: set<string>)
    requires Covers(a, b, off) && AllLeft(joins) && Apart(joins, denied, off)
    ensures |Steps(f, db, map[], a, joins)| - |Steps(f, db, map[], b, KeptJoins(joins, denied))| >= |a| - |b|
    decreases |joins|
  {
    hide Covers, Blocks, EachOnce, Aliases;
    if joins != [] {
      var j, rows := joins[0], Rows(db, joins[0].table);
      KeptFirst(joins, denied);
      if Denied(j, denied) {
        RemovedCovers(f, rows, a, b, j, off);
        BlocksSize(f, rows, a, j);
        StepsCover(f, db, Blocks(f, rows, a, j), b, joins[1..], denied, off);
      } else {
        KeptCovers(f, rows, a, b, j, off);
        StepsCover(f, db, Blocks(f, rows, a, j), Blocks(f, rows, b, j), joins[1..], denied, off);
      }
    }
  }

  lemma {:induction false} AgreeCovers(a: seq<Env>, b: seq<Env>, off: set<string>)
    requires AgreeAll(a, b, off)
    ensures Covers(a, b, off)
  {
    hide Agree;
    if a != [] { AgreeCovers(a[1..], b[1..], off); }
  }

  /** A removed join that finds two rows adds rows that no later join takes away. */
  lemma {:induction false} TwoMatchesShow(f: Functions, db: Db, a: seq<Env>, b: seq<Env>, joins: seq<Join>,
          denied: set<string>, off: set<string>)
    requires AgreeAll(a, b, off) && AllLeft(joins) && Apart(joins, denied, off)
    requires !ReachedOnce(f, db, a, joins, denied)
    ensures |Steps(f, db, map[], a, joins)| > |Steps(f, db, map[], b, KeptJoins(joins, denied))|
    decreases |joins|
  {
    hide AgreeAll, Covers, Blocks, EachOnce, Aliases;
    var j, rows := joins[0], Rows(db, joins[0].table);
    KeptFirst(joins, denied);
    if !Denied(j, denied) {
      StepAgree(f, db, a, b, j, off);
      TwoMatchesShow(f, db, Blocks(f, rows, a, j), Blocks(f, rows, b, j), joins[1..], denied, off);
    } else if EachOnce(f, rows, a, j) {
      LookupKeepsRows(f, rows, a, b, j, off);
      TwoMatchesShow(f, db, Blocks(f, rows, a, j), b, joins[1..], denied, off);
    } else {
      SameSize(a, b, off);
      AgreeCovers(a, b, off);
      RemovedCovers(f, rows, a, b, j, off);
      BlocksSize(f, rows, a, j);
      StepsCover(f, db, Blocks(f, rows, a, j), b, joins[1..], denied, off);
    }
  }

  lemma {:induction false} SameSize(a: seq<Env>, b: seq<Env>, off: set<string>)
    requires AgreeAll(a, b, off)
    ensures |a| == |b|
  {
  }

  lemma {:induction false} QualifiedShape(f: Functions, q: Query, before: seq<Join>, joins: seq<Join>)
    requires AllLeft(joins)
    ensures AllLeft(QualifyJoins(f, q, before, joins))
    decreases |joins|
  {
    hide Qualify, ColumnScope;
    if joins != [] { QualifiedShape(f, q, before + [joins[0]], joins[1..]); }
  }

  /** The joins of both queries, qualified. */
  lemma {:induction false} QualifiedJoins(f: Functions, q: Query, denied: set<string>)
    requires Prune(q, denied).Some? && Resolves(f, q) && Resolves(f, Prune(q, denied).value)
    ensures Removed(q.joins, denied).Some?
    ensures var p, o := Qualified(f, Prune(q, denied).value), Qualified(f, q);
      && p.joins == KeptJoins(o.joins, denied) && p.table == o.table == q.table && p.alias == o.alias == q.alias
      && Apart(o.joins, denied, RemovedNames(q, denied))
  {
    hide Prune, Removed, Names, KeptItems, KeptJoins, QualifyItems, QualifyJoins, JoinsResolve, Qualify, LosesName;
    hide GroupScope, ResultScope, QualifyOrder, QualifyGrouping, Resolves, Aliases, AliasesAll, ItemAvoids;
    PrunedParts(q, denied);
    PrunedResolves(f, q, denied);
    NothingLost(f, q, denied);
    NoJoinsKept(denied);
    ResolvesJoins(f, q);
    OnsKept(f, q, denied, [], q.joins);
    QualifiedJoinsRemoved(f, q, [], q.joins, denied);
    PrunedIsClean(f, q, denied);
    var o := Qualified(f, q);
    forall j | j in o.joins && !Denied(j, denied) && j.on.Some? ensures Aliases(j.on.value) !! RemovedNames(q, denied) {
      KeptJoinsMembers(o.joins, denied, j);
      assert JoinAvoids(j, RemovedNames(q, denied));
    }
  }

  lemma {:induction false} PrunedIsSimple(q: Query, denied: set<string>)
    requires Prune(q, denied).Some? && Simple(q)
    ensures Simple(Prune(q, denied).value)
  {
    hide Prune, Removed, KeptItems, HasAggregate, OrderExprs;
    PrunedParts(q, denied);
    forall c | c in KeptQueryItems(q, denied) ensures c in q.items {
      KeptItemsMembers(q.items, RemovedNames(q, denied), c);
    }
  }

  /**
   A query of LEFT JOINs without conditions: pruning keeps the number of rows exactly when each removed join
   finds one row at most for each row that reaches it, whatever the tables and the other joins.
   */
  lemma {:induction false} PrunedKeepsNumberIff(f: Functions, db: Db, q: Query, denied: set<string>)
    requires Prune(q, denied).Some? && Simple(q) && AllLeft(q.joins) && !q.distinct && q.limit.None?
    requires Result(f, db, q).Some? && Result(f, db, Prune(q, denied).value).Some?
    ensures |Result(f, db, Prune(q, denied).value).value| == |Result(f, db, q).value|
      <==> RemovesLookups(f, db, q, denied)
  {
    hide Prune, Accepted, Resolves, AllRows, Distinct, Take, Steps, ReachedOnce, KeptJoins, Agree, Simple, Base;
    hide Removed, Names;
    hide QualifyItems, QualifyJoins, QualifyOrder, QualifyGrouping, Qualify, ColumnScope, GroupScope, ResultScope;
    var p := Prune(q, denied).value;
    PrunedParts(q, denied);
    PrunedIsSimple(q, denied);
    SimpleSize(f, db, q);
    SimpleSize(f, db, p);
    QualifiedJoins(f, q, denied);
    QualifiedShape(f, q, [], q.joins);
    var base, joins, names := Base(map[], q.alias, Rows(db, q.table)), Qualified(f, q).joins, RemovedNames(q, denied);
    AgreeSelf(base, names);
    if RemovesLookups(f, db, q, denied) {
      JoinsAgree(f, db, base, base, joins, denied, names);
      SameSize(Steps(f, db, map[], base, joins), Steps(f, db, map[], base, KeptJoins(joins, denied)), names);
    } else {
      TwoMatchesShow(f, db, base, base, joins, denied, names);
    }
  }

  // ----- names and values for the examples -----

  /** `before` leaves the rows as they come. */
  const NUMBERS := Functions((n, vs) => Null, (n, vs) => Null,
                             (a: Value, b: Value) => a.Int? && b.Int? && a.n < b.n, (a, b, d) => false, PressColumns)

  function PressColumns(table: string): set<string> {
    if table == "a" then {"title", "x"} else if table == "user" then {"id", "boss", "name"} else {}
  }

  const TITLE := Item(Col("a", "title"), Unnamed)

  // ----- ON clauses that only look like a key lookup -----

  /** `SELECT a.title FROM a LEFT JOIN user u ON <on>` */
  function Lookup(on: Expr): Query {
    Query(false, [TITLE], "a", "a", [Join(Left, "user", "u", Some(on))], TRUE, Ungrouped, TRUE, [], None)
  }

  lemma {:induction false} NewAliasOf(j: Join)
    requires j.alias != "a" && HasItsOn(j)
    ensures NewAliases({"a"}, [j]) && NewAliases({"a"}, []) && forall x :: x in [j] ==> HasItsOn(x)
  {
    assert [j][1..] == [];
  }

  lemma {:induction false} LookupIsQualified(f: Functions, on: Expr)
    requires Unqualified(on) == {}
    ensures var q := Lookup(on);
      && var w := q.(joins := []);
      && Accepted(q) && Accepted(w) && Resolves(f, q) && Resolves(f, w) && Qualified(f, q) == q && Qualified(f, w) == w
  {
    var q := Lookup(on);
    NewAliasOf(q.joins[0]);
    assert [TITLE][1..] == [] && ItemNames([TITLE]) == {};
    forall j | j in q.joins ensures OnNames(j) == {} { assert j == q.joins[0]; }
    NothingChanges(f, q);
    NothingChanges(f, q.(joins := []));
  }

  lemma {:induction false} BaseRows(alias: string, rows: seq<Record>)
    ensures |Base(map[], alias, rows)| == |rows| && forall i ::
        0 <= i < |rows| ==> Base(map[], alias, rows)[i] == map[alias := rows[i]]
  {
    if rows != [] { BaseRows(alias, rows[1..]); }
  }

  lemma {:induction false} OneStep(f: Functions, db: Db, envs: seq<Env>, j: Join)
    requires !j.kind.Right?
    ensures Steps(f, db, map[], envs, [j]) == Blocks(f, Rows(db, j.table), envs, j)
    ensures Steps(f, db, map[], envs, []) == envs
  {
    hide Blocks;
    assert [j][1..] == [];
  }

  lemma {:induction false} LookupSizes(f: Functions, db: Db, on: Expr)
    requires Unqualified(on) == {}
    ensures var q := Lookup(on);
      && var w := q.(joins := []);
      && Result(f, db, q).Some? && Result(f, db, w).Some?
      && |Result(f, db, q).value| == |Blocks(f, Rows(db, "user"), Base(map[], "a", Rows(db, "a")), q.joins[0])|
      && |Result(f, db, w).value| == |Rows(db, "a")|
  {
    hide Blocks, Steps, AllRows, NewAliases, Resolves, Qualified;
    var q := Lookup(on);
    var w, envs := q.(joins := []), Base(map[], "a", Rows(db, "a"));
    LookupIsQualified(f, on);
    OneStep(f, db, envs, q.joins[0]);
    BaseRows("a", Rows(db, "a"));
    SimpleSize(f, db, q);
    SimpleSize(f, db, w);
  }

  const STAFF: Db := map[
    "a" := [map["title" := Text("t"), "x" := Int(2)]],
    "user" := [map["id" := Int(0), "boss" := Int(0)], map["id" := Int(1), "boss" := Int(1)]]]

  /** Order comparisons, a disjunction, a comparison of the joined row with itself. */
  const MISLEADING := [
    Cmp(Ge, Col("a", "x"), Col("u", "id")),
    Cmp(BangEq, Col("a", "x"), Col("u", "id")),
    Or(Cmp(Eq, Col("u", "id"), Col("a", "x")), Cmp(Eq, Lit(Int(1)), Lit(Int(1)))),
    Cmp(Eq, Col("u", "id"), Col("u", "boss"))]

  lemma {:induction false} TitleItem()
    ensures ItemTokens(TITLE) == [Word("a"), Sym("."), Word("title")] && !MentionsAny(TITLE, {"u", "user"})
  {
    assert forall t :: t in ItemTokens(TITLE) ==> t != Word("u") && t != Word("user");
  }

  lemma {:induction false} NotThere(ts: seq<Token>)
    requires Word("u") !in ts && Word("user") !in ts
    ensures Words(ts) !! {"u", "user"}
  {
    forall x | x in Words(ts) ensures x != "u" && x != "user" { var t :| t in ts && t.Word? && t.s == x; }
  }

  lemma {:induction false} OneDenied(j: Join)
    requires j.kind.Left? && j.table == "user" && j.alias == "u" && j.on.Some? && ComparesKey(Tokens(j.on.value), "u")
    ensures Removed([j], {"user"}) == Some([j]) && KeptJoins([j], {"user"}) == [] && Names([j]) == {"u", "user"}
  {
    hide ComparesKey, Tokens;
    assert [j][1..] == [] && [j] + [] == [j] && j in [j];
    assert Removed([j][1..], {"user"}) == Some([]);
  }

  lemma {:induction false} TitleTokens(on: Expr)
    ensures Words(QueryTokens(Lookup(on).(joins := []))) !! {"u", "user"}
  {
    var w := Lookup(on).(joins := []);
    assert [TITLE][1..] == [] && ItemsTokens(w.items) == ItemTokens(TITLE) + ItemsTokens([]);
    var all := [Word("a"), Sym("."), Word("title"), Word("a"), Word("a"), Sym("?"), Sym("?")];
    assert QueryTokens(w) == all;
    NotThere(all);
  }

  lemma {:induction false} PruneLookup(on: Expr)
    requires ComparesKey(Tokens(on), "u")
    ensures Prune(Lookup(on), {"user"}) == Some(Lookup(on).(joins := []))
  {
    hide ComparesKey, Tokens, MentionsAny, QueryTokens, Words, Removed, Names, KeptJoins;
    var q, names := Lookup(on), {"u", "user"};
    OneDenied(q.joins[0]);
    TitleItem();
    TitleTokens(on);
    assert q.items[1..] == [] && KeptItems(q.items, names) == q.items;
    assert DroppedNames(q.items, names) == {};
  }

  lemma {:induction false} TwoMatches(on: Expr)
    requires Holds(NUMBERS, on, map["a" := STAFF["a"][0], "u" := STAFF["user"][0]])
    requires Holds(NUMBERS, on, map["a" := STAFF["a"][0], "u" := STAFF["user"][1]])
    ensures |Matches(NUMBERS, STAFF["user"], map["a" := STAFF["a"][0]], Lookup(on).joins[0])| == 2
  {
    hide Eval;
    var env, j, rows := map["a" := STAFF["a"][0]], Lookup(on).joins[0], STAFF["user"];
    var one, two := env["u" := rows[0]], env["u" := rows[1]];
    assert one == map["a" := STAFF["a"][0], "u" := rows[0]] && two == map["a" := STAFF["a"][0], "u" := rows[1]];
    assert rows[1..] == [rows[1]] && rows[1..][1..] == [];
    assert Matches(NUMBERS, rows[1..], env, j) == [two];
    assert Matches(NUMBERS, rows, env, j) == [one, two];
  }

  lemma {:induction false} MisleadingHolds(i: nat, k: nat)
    requires i < |MISLEADING| && k < 2
    ensures Holds(NUMBERS, MISLEADING[i], map["a" := STAFF["a"][0], "u" := STAFF["user"][k]])
  {
    hide RowOf, Field;
    var env := map["a" := STAFF["a"][0], "u" := STAFF["user"][k]];
    StaffFields(k);
    assert [env][0] == env;
  }

  lemma {:induction false} StaffFields(k: nat)
    requires k < 2
    ensures var env := map["a" := STAFF["a"][0], "u" := STAFF["user"][k]];
      && Field(RowOf(env, "a"), "x") == Int(2)
      && Field(RowOf(env, "u"), "id") == Field(RowOf(env, "u"), "boss") == Int(k)
  {
  }

  lemma {:induction false} MisleadingPasses(i: nat)
    requires i < |MISLEADING|
    ensures ComparesKey(Tokens(MISLEADING[i]), "u") && !KeyLookup(MISLEADING[i], "u")
    ensures Unqualified(MISLEADING[i]) == {}
  {
    var ts := Tokens(MISLEADING[i]);
    assert KeyAt(ts, if i <= 1 then 4 else 0, "u");
  }

  /**
   The program recognises a key lookup by `alias.id` next to a `=` in the text of ON. Each of
   these ON clauses passes, though two users match: pruning turns two rows into one.
   */
  lemma {:induction false} TextTestIsNotEnough(i: nat)
    requires i < |MISLEADING|
    ensures var q := Lookup(MISLEADING[i]);
      && Prune(q, {"user"}) == Some(q.(joins := []))
      && Result(NUMBERS, STAFF, q).Some? && |Result(NUMBERS, STAFF, q).value| == 2
      && Result(NUMBERS, STAFF, q.(joins := [])).Some? && |Result(NUMBERS, STAFF, q.(joins := [])).value| == 1
  {
    hide Holds, Tokens, ComparesKey, KeyLookup, Result, Prune, Matches, Unqualified;
    var on := MISLEADING[i];
    MisleadingPasses(i);
    MisleadingHolds(i, 0);
    MisleadingHolds(i, 1);
    PruneLookup(on);
    TwoMatches(on);
    LookupSizes(NUMBERS, STAFF, on);
    BaseRows("a", STAFF["a"]);
    var envs, env := Base(map[], "a", STAFF["a"]), map["a" := STAFF["a"][0]];
    assert envs == [env] && envs[1..] == [];
    assert Blocks(NUMBERS, STAFF["user"], envs, Lookup(on).joins[0])
        == Block(NUMBERS, STAFF["user"], env, Lookup(on).joins[0]);
  }

  // ----- names that go with the removed table -----

  const AUTHOR := Join(Left, "user", "u", Some(Cmp(Eq, Col("u", "id"), Col("a", "x"))))
  const NAME := Item(Col("u", "name"), Bare("n"))

  /** Where a query uses a name without its table. */
  datatype Use = InSelect | InWhere | InGroupBy | InHaving | InOrderBy

  function UsedItem(use: Use): Item {
    if use.InSelect? then Item(Name("name"), Unnamed) else NAME
  }

  /**
   `SELECT a.title, u.name n FROM a LEFT JOIN user u ON u.id = a.x`, with `GROUP BY n`, `HAVING n = 1` or
   `ORDER BY n`, or with `WHERE name = 1`, or with `name` alone for the second column.
   */
  function Using(use: Use): Query {
    var name, n := Cmp(Eq, Name("name"), TRUE), Cmp(Eq, Name("n"), TRUE);
    Query(false, [TITLE, UsedItem(use)], "a", "a", [AUTHOR], if use.InWhere? then name else TRUE,
          if use.InGroupBy? then By([Name("n")]) else Ungrouped, if use.InHaving? then n else TRUE,
          if use.InOrderBy? then [OrderKey(Name("n"), false)] else [], None)
  }

  function UsedKept(use: Use): seq<Item> {
    if use.InSelect? then [TITLE, UsedItem(use)] else [TITLE]
  }

  lemma {:induction false} AuthorKey()
    ensures ComparesKey(Tokens(AUTHOR.on.value), "u") && KeyLookup(AUTHOR.on.value, "u")
  {
    assert KeyAt(Tokens(AUTHOR.on.value), 0, "u");
  }

  lemma {:induction false} NameMentions()
    ensures MentionsAny(NAME, {"u", "user"}) && !MentionsAny(UsedItem(InSelect), {"u", "user"})
  {
    assert ItemTokens(NAME)[0] == Word("u") && "u" in Words(ItemTokens(NAME));
    NotThere(ItemTokens(UsedItem(InSelect)));
  }

  lemma {:induction false} UsedItems(use: Use)
    ensures KeptItems([TITLE, UsedItem(use)], {"u", "user"}) == UsedKept(use)
    ensures DroppedNames([TITLE, UsedItem(use)], {"u", "user"}) == {}
  {
    hide MentionsAny;
    var names, item := {"u", "user"}, UsedItem(use);
    NameMentions();
    TitleItem();
    assert [TITLE, item][1..] == [item] && [item][1..] == [];
    assert KeptItems([item], names) == if use.InSelect? then [item] else [];
    assert DroppedNames([item], names) == {};
  }

  lemma {:induction false} TokensOf(n: string)
    ensures Tokens(TRUE) == [Sym("?")] && Tokens(Cmp(Eq, Name(n), TRUE)) == [Word(n), Sym("="), Sym("?")]
    ensures TokensAll([Name(n)]) == [Word(n), Sym(",")] && OrderTokens([OrderKey(Name(n), false)]) == [Word(n)]
  {
    assert [Name(n)][1..] == [] && [OrderKey(Name(n), false)][1..] == [];
  }

  lemma {:induction false} OneItemTokens(item: Item)
    ensures ItemsTokens([item]) == ItemTokens(item)
  {
    hide ItemTokens;
    assert [item][1..] == [] && ItemsTokens([item]) == ItemTokens(item) + ItemsTokens([]);
  }

  lemma {:induction false} UsedItemTokens(use: Use)
    ensures Word("u") !in ItemsTokens(UsedKept(use)) && Word("user") !in ItemsTokens(UsedKept(use))
  {
    hide ItemsTokens;
    OneItemTokens(TITLE);
    var item := UsedItem(InSelect);
    OneItemTokens(item);
    assert ItemTokens(TITLE) == [Word("a"), Sym("."), Word("title")] && ItemTokens(item) == [Word("name")];
    if use.InSelect? { TwoItemTokens(TITLE, item); }
  }

  lemma {:induction false} TwoItemTokens(a: Item, b: Item)
    ensures ItemsTokens([a, b]) == ItemTokens(a) + ItemTokens(b)
  {
    hide ItemTokens;
    OneItemTokens(b);
    assert [a, b][1..] == [b] && ItemsTokens([a, b]) == ItemTokens(a) + ItemsTokens([b]);
  }

  lemma {:induction false} UsedTokens(use: Use)
    ensures Words(QueryTokens(Using(use).(items := UsedKept(use), joins := []))) !! {"u", "user"}
  {
    hide ItemsTokens, Tokens, TokensAll, OrderTokens, Words;
    var p := Using(use).(items := UsedKept(use), joins := []);
    UsedItemTokens(use);
    TokensOf("n");
    TokensOf("name");
    assert GroupingTokens(p.grouping) == if use.InGroupBy? then [Word("n"), Sym(",")] else [];
    NoTokens();
    assert OrderTokens(p.order) == if use.InOrderBy? then [Word("n")] else [];
    assert JoinsTokens(p.joins) == [];
    NotThere(QueryTokens(p));
  }

  lemma {:induction false} NoTokens()
    ensures OrderTokens([]) == [] && ItemsTokens([]) == []
  {
  }

  lemma {:induction false} PruneUsing(use: Use)
    ensures Prune(Using(use), {"user"}) == Some(Using(use).(items := UsedKept(use), joins := []))
    ensures Removed(Using(use).joins, {"user"}).Some? && RemovedNames(Using(use), {"user"}) == {"u", "user"}
  {
    hide MentionsAny, QueryTokens, Words, Removed, Names, KeptJoins, KeptItems, DroppedNames, ComparesKey, Tokens;
    AuthorKey();
    OneDenied(AUTHOR);
    UsedItems(use);
    UsedTokens(use);
    assert Using(use).items == [TITLE, UsedItem(use)];
  }

  lemma {:induction false} PressOwners(f: Functions, q: Query, n: string)
    requires q.table == q.alias == "a" && q.joins == [AUTHOR]
    ensures Owners(f, q, q.joins, n)
         == (if n in f.columns("a") then ["a"] else []) + (if n in f.columns("user") then ["u"] else [])
    ensures KeptOwners(f, q, {"user"}, q.joins, n) == if n in f.columns("a") then ["a"] else []
  {
    assert [AUTHOR][1..] == [] && KeptJoins([AUTHOR], {"user"}) == [] + KeptJoins([], {"user"}) == [];
    assert JoinOwners(f, [AUTHOR], n) == (if n in f.columns("user") then ["u"] else []) + JoinOwners(f, [], n);
  }

  /** The user alone has a column `name`, and, unless it is HAVING that uses it, neither table has a column `n`. */
  predicate PressNames(f: Functions, use: Use) {
    && "name" in f.columns("user") && "name" !in f.columns("a")
    && (use.InHaving? || ("n" !in f.columns("user") && "n" !in f.columns("a")))
  }

  lemma {:induction false} UsedNames(use: Use)
    ensures var q := Using(use);
      && ItemNames(q.items) == (if use.InSelect? then {"name"} else {})
        && ItemNames(UsedKept(use)) == ItemNames(q.items)
      && Unqualified(q.where) == (if use.InWhere? then {"name"} else {}) && OnNames(AUTHOR) == {}
      && GroupNames(q) == (if use.InGroupBy? then {"n"} else {})
      && References(q.having) == (if use.InHaving? then {Name("n")} else {}) && Inside(q.having) == {}
      && OrderNames(q) == if use.InOrderBy? then {"n"} else {}
  {
    var q, order := Using(use), [OrderKey(Name("n"), false)];
    assert q.items[1..] == [UsedItem(use)] && [UsedItem(use)][1..] == [] && [TITLE][1..] == [];
    assert ItemNames([UsedItem(use)]) == Unqualified(UsedItem(use).e) + ItemNames([]);
    assert ItemNames(q.items) == Unqualified(TITLE.e) + ItemNames([UsedItem(use)]);
    assert [Name("n")][1..] == [] && UnqualifiedAll([Name("n")]) == {"n"};
    assert order[1..] == [] && OrderExprs(order) == [Name("n")];
    assert OrderExprs([]) == [] && UnqualifiedAll([]) == {};
  }

  lemma {:induction false} UsedMeaning(s: Scope, use: Use)
    requires !use.InSelect?
    ensures Named(s, Using(use).items, "n") == [Col("u", "name")] && Named(s, [TITLE], "n") == []
  {
    assert [TITLE, NAME][1..] == [NAME] && [NAME][1..] == [] && [TITLE][1..] == [];
    assert Named(s, [NAME], "n") == [Col("u", "name")] + Named(s, [], "n");
  }

  lemma {:induction false} UsedStars(use: Use, owners: seq<string>)
    ensures StarColumns(Using(use).items, owners, "n") == [] && StarColumns([TITLE], owners, "n") == []
  {
    assert [TITLE, UsedItem(use)][1..] == [UsedItem(use)] && [UsedItem(use)][1..] == [] && [TITLE][1..] == [];
    assert StarColumns([UsedItem(use)], owners, "n") == StarColumns([], owners, "n");
  }

  /** HAVING finds the dropped column by its name, and nothing once it is dropped. */
  lemma {:induction false} UsedInHaving(f: Functions)
    ensures var q := Using(InHaving);
      && HavingRefers(f, q, Name("n"))
      && Removed(q.joins, {"user"}).Some? && HavingLost(f, q, {"user"}, Name("n"))
  {
    hide Removed, Shown, KeptShown, KeptSelection, Selected, ColumnsNamed, HavingRefers, HavingLost;
    UsedShown(f);
    ShownOnce(f, Using(InHaving), {"user"}, "n", Col("u", "name"));
  }

  /** Without grouping keys HAVING finds what is shown once, and nothing when it is shown no more. */
  lemma {:induction false} ShownOnce(f: Functions, q: Query, denied: set<string>, n: string, e: Expr)
    requires Removed(q.joins, denied).Some? && q.grouping.Ungrouped? && Shown(f, q, n) == [e]
    requires KeptShown(f, q, denied, n) == [] && ColumnsNamed(Selected(KeptSelection(f, q, denied)), n) == []
    ensures HavingRefers(f, q, Name(n)) && HavingLost(f, q, denied, Name(n))
  {
    hide Removed, Shown, KeptShown, KeptSelection, Selected, GroupScope, KeptGroupScope, QualifyItems, ColumnScope;
    assert Keys(f, q) == [] && KeptKeys(f, q, denied) == [];
  }

  lemma {:induction false} UsedShown(f: Functions)
    ensures var q := Using(InHaving);
      && q.grouping.Ungrouped?
      && Removed(q.joins, {"user"}).Some? && Shown(f, q, "n") == [Col("u", "name")]
      && KeptShown(f, q, {"user"}, "n") == []
      && ColumnsNamed(Selected(KeptSelection(f, q, {"user"})), "n") == []
  {
    hide Named, Owners, StarColumns, KeptItems, Removed, ColumnScope, QualifyItems, Names, Selected, ColumnsNamed;
    var q := Using(InHaving);
    var s := ColumnScope(f, q, q.joins);
    PruneUsing(InHaving);
    UsedItems(InHaving);
    UsedMeaning(s, InHaving);
    UsedStars(InHaving, Owners(f, q, q.joins, "n"));
    UsedStars(InHaving, KeptOwners(f, q, {"user"}, q.joins, "n"));
    OneSelected(s);
    assert KeptQueryItems(q, {"user"}) == [TITLE];
  }

  lemma {:induction false} OneSelected(s: Scope)
    ensures ColumnsNamed(Selected(QualifyItems(s, [TITLE])), "n") == []
  {
    assert [TITLE][1..] == [] && QualifyItems(s, [TITLE]) == [TITLE];
    assert Selected([TITLE]) == [TITLE.e] + Selected([]) && [TITLE.e][1..] == [];
  }

  lemma {:induction false} UsedScopes(f: Functions, use: Use)
    requires PressNames(f, use)
    ensures var q := Using(use);
      && ColumnScope(f, q, q.joins)("name").Some?
      && (!use.InSelect? && !use.InHaving? ==> GroupScope(f, q)("n").Some? && ResultScope(f, q)("n").Some?)
  {
    hide Named, Owners;
    var q := Using(use);
    PressOwners(f, q, "name");
    PressOwners(f, q, "n");
    if !use.InSelect? { UsedMeaning(ColumnScope(f, q, q.joins), use); }
  }

  lemma {:induction false} AuthorResolves(f: Functions, q: Query)
    requires q.joins == [AUTHOR]
    ensures JoinsResolve(f, q, [], q.joins)
  {
    assert [AUTHOR][1..] == [] && JoinsResolve(f, q, [] + [AUTHOR], []);
  }

  lemma {:induction false} UsedHavingResolves(f: Functions, use: Use)
    requires PressNames(f, use)
    ensures HavingResolves(f, Using(use))
  {
    hide HavingRefers, References, Inside, ColumnScope, GroupName, ResultName, Unqualified, UnqualifiedAll, ItemNames;
    hide OrderExprs, OnNames;
    UsedInHaving(f);
    UsedNames(use);
  }

  lemma {:induction false} UsingResolves(f: Functions, use: Use)
    requires PressNames(f, use)
    ensures Resolves(f, Using(use)) && Accepted(Using(use))
  {
    hide ItemNames, Unqualified, UnqualifiedAll, OrderExprs, HavingResolves, References, Inside, JoinsResolve, Using;
    hide ColumnScope, GroupScope, ResultScope, PressNames, NewAliases;
    var q := Using(use);
    UsedHavingResolves(f, use);
    UsedNames(use);
    UsedScopes(f, use);
    UsingJoins(use);
    AuthorResolves(f, q);
    NewAliasOf(AUTHOR);
  }

  lemma {:induction false} UsingJoins(use: Use)
    ensures Using(use).joins == [AUTHOR] && Using(use).alias == "a"
  {
  }

  /** Each of these queries is pruned, and MySQL refuses what is left: the name went with its table. */
  lemma {:induction false} BareNameIsLost(f: Functions, db: Db, use: Use)
    requires PressNames(f, use)
    ensures var q := Using(use);
      && Result(f, db, q).Some? && Prune(q, {"user"}).Some? && Result(f, db, Prune(q, {"user"}).value).None?
  {
    hide Prune, Accepted, Resolves, AllRows, Qualified, Take, Distinct, Named, KeptItems, Owners, ItemNames;
    hide Unqualified, UnqualifiedAll, OrderExprs, HavingLost, References, Inside;
    var q := Using(use);
    UsedInHaving(f);
    PruneUsing(use);
    UsingResolves(f, use);
    PrunedQueryResolves(f, db, q, {"user"});
    UsedNames(use);
    UsedItems(use);
    PressOwners(f, q, "name");
    PressOwners(f, q, "n");
    if use.InSelect? || use.InWhere? {
      assert "name" in ColumnNames(q, {"user"});
    } else if !use.InHaving? {
      UsedMeaning(ColumnScope(f, q, q.joins), use);
      NoMeaning();
      assert "n" in GroupNames(q) + OrderNames(q);
      assert GroupNameLost(f, q, {"user"}, "n") && ResultNameLost(f, q, {"user"}, "n");
    }
  }

  // ----- a name that stands for something else -----

  /** `SELECT a.x name FROM a LEFT JOIN user u ON u.id = a.x GROUP BY name` */
  const BY_NAME := Query(false, [Item(Col("a", "x"), Bare("name"))], "a", "a", [AUTHOR], TRUE,
                         By([Name("name")]), TRUE, [], None)

  const NAMESAKES: Db := map[
    "a" := [map["x" := Int(1)], map["x" := Int(2)]],
    "user" := [map["id" := Int(1), "name" := Text("n")], map["id" := Int(2), "name" := Text("n")]]]

  function Paired(i: nat): Env
    requires i < 2
  {
    map["a" := NAMESAKES["a"][i], "u" := NAMESAKES["user"][i]]
  }

  lemma {:induction false} ByNameTokens()
    ensures Words(QueryTokens(BY_NAME.(joins := []))) !! {"u", "user"} && !MentionsAny(BY_NAME.items[0], {"u", "user"})
  {
    hide ItemsTokens, Tokens, TokensAll, OrderTokens, Words, MentionsAny;
    var p, item := BY_NAME.(joins := []), BY_NAME.items[0];
    OneItemTokens(item);
    TokensOf("name");
    NoTokens();
    ByNameItem();
    NoMention(item);
    assert JoinsTokens([]) == [];
    NotThere(QueryTokens(p));
  }

  lemma {:induction false} ByNameItem()
    ensures ItemTokens(BY_NAME.items[0]) == [Word("a"), Sym("."), Word("x"), Word("name")]
  {
  }

  lemma {:induction false} KeptOnly(item: Item, names: set<string>)
    requires !MentionsAny(item, names)
    ensures KeptItems([item], names) == [item] && DroppedNames([item], names) == {}
  {
    hide MentionsAny;
    assert [item][1..] == [];
  }

  lemma {:induction false} PruneByName()
    ensures Prune(BY_NAME, {"user"}) == Some(BY_NAME.(joins := []))
    ensures Removed(BY_NAME.joins, {"user"}).Some? && RemovedNames(BY_NAME, {"user"}) == {"u", "user"}
  {
    hide Removed, Names, KeptJoins, ComparesKey, Words, MentionsAny, QueryTokens, KeptItems, DroppedNames, Tokens;
    AuthorKey();
    OneDenied(AUTHOR);
    ByNameTokens();
    assert BY_NAME.items == [BY_NAME.items[0]];
    KeptOnly(BY_NAME.items[0], {"u", "user"});
  }

  lemma {:induction false} NoMention(item: Item)
    requires Word("u") !in ItemTokens(item) && Word("user") !in ItemTokens(item)
    ensures !MentionsAny(item, {"u", "user"})
  {
    NotThere(ItemTokens(item));
  }

  lemma {:induction false} ByNameGroups()
    ensures GroupName(NUMBERS, BY_NAME, "name") == Some(Col("u", "name"))
    ensures GroupNameMoves(NUMBERS, BY_NAME, {"user"}, "name")
    ensures GroupName(NUMBERS, BY_NAME.(joins := []), "name") == Some(Col("a", "x"))
  {
    hide Owners, Named;
    var q, p := BY_NAME, BY_NAME.(joins := []);
    PressOwners(NUMBERS, q, "name");
    NoOwner(p, "name");
    NamedOnce(ColumnScope(NUMBERS, p, p.joins), p.items[0], "name");
    assert [Col("a", "x")][0] == Col("a", "x");
  }

  lemma {:induction false} ByNameNames()
    ensures ItemNames(BY_NAME.items) == {} && OnNames(AUTHOR) == {}
    ensures GroupKeys(BY_NAME.grouping) == [Name("name")] && UnqualifiedAll([Name("name")]) == {"name"}
    ensures OrderExprs([]) == [] && UnqualifiedAll([]) == {}
  {
    assert BY_NAME.items[1..] == [] && [Name("name")][1..] == [];
  }

  lemma {:induction false} OneKey(s: Scope, n: string)
    ensures QualifyAll(s, [Name(n)]) == [Qualify(s, Name(n))]
  {
    assert [Name(n)][1..] == [];
  }

  lemma {:induction false} ByNameQualified(q: Query, e: Expr)
    requires q == BY_NAME || q == BY_NAME.(joins := [])
    requires GroupName(NUMBERS, q, "name") == Some(e)
    ensures Accepted(q) && Resolves(NUMBERS, q) && Qualified(NUMBERS, q) == q.(grouping := By([e]))
  {
    hide Owners, Named, ItemNames, UnqualifiedAll, OrderExprs, GroupName, Column, QualifyItems, QualifyAll;
    hide QualifyJoins, OnNames, ResultName, JoinsResolve;
    NewAliasOf(AUTHOR);
    ByNameNames();
    OneKey(GroupScope(NUMBERS, q), "name");
    ItemsQualifiedAlready(ColumnScope(NUMBERS, q, q.joins), q.items);
    forall j | j in q.joins ensures OnNames(j) == {} { assert j == AUTHOR; }
    JoinsQualifiedAlready(NUMBERS, q, [], q.joins);
    assert q.where == q.having == TRUE && q.order == [];
  }

  lemma {:induction false} NoOwner(p: Query, n: string)
    requires p.table == "a" && p.joins == [] && n == "name"
    ensures Owners(NUMBERS, p, p.joins, n) == []
  {
  }

  lemma {:induction false} NamedOnce(s: Scope, item: Item, n: string)
    requires item.Item? && ItemName(item) == Some(n) && Unqualified(item.e) == {}
    ensures Named(s, [item], n) == [item.e]
  {
    QualifiedAlready(s, item.e);
    assert [item][1..] == [] && Named(s, [item], n) == [item.e] + Named(s, [], n);
  }

  lemma {:induction false} PairedRows()
    ensures Blocks(NUMBERS, NAMESAKES["user"], Base(map[], "a", NAMESAKES["a"]), AUTHOR) == [Paired(0), Paired(1)]
    ensures Base(map[], "a", NAMESAKES["a"]) == [map["a" := NAMESAKES["a"][0]], map["a" := NAMESAKES["a"][1]]]
  {
    hide Block;
    var base := Base(map[], "a", NAMESAKES["a"]);
    BaseRows("a", NAMESAKES["a"]);
    PairedBlock(0);
    PairedBlock(1);
    assert base[1..] == [base[1]] && base[1..][1..] == [];
    assert Blocks(NUMBERS, NAMESAKES["user"], base[1..], AUTHOR)
        == [Paired(1)] + Blocks(NUMBERS, NAMESAKES["user"], [], AUTHOR);
  }

  lemma {:induction false} PairedBlock(i: nat)
    requires i < 2
    ensures Block(NUMBERS, NAMESAKES["user"], map["a" := NAMESAKES["a"][i]], AUTHOR) == [Paired(i)]
  {
    var env, users := map["a" := NAMESAKES["a"][i]], NAMESAKES["user"];
    assert users[1..] == [users[1]] && users[1..][1..] == [];
    var one, two := env["u" := users[0]], env["u" := users[1]];
    assert RowOf(one, "u") == users[0] && RowOf(two, "u") == users[1];
    assert RowOf(one, "a") == RowOf(two, "a") == NAMESAKES["a"][i];
    assert Accepts(NUMBERS, AUTHOR, one) <==> i == 0;
    assert Accepts(NUMBERS, AUTHOR, two) <==> i == 1;
    assert Matches(NUMBERS, users[1..], env, AUTHOR) == if i == 1 then [two] else [];
    assert (if i == 0 then one else two) == Paired(i);
  }

  lemma {:induction false} TwoGroups(f: Functions, keys: seq<Expr>, a: Env, b: Env)
    ensures |GroupBy(f, keys, [a, b])| == if EvalAll(f, keys, [a]) == EvalAll(f, keys, [b]) then 1 else 2
  {
    hide EvalAll;
    assert [a, b][..1] == [a] && [a, b][1..] == [b] && [b][..1] == [b] && [b][1..] == [];
    var k := EvalAll(f, keys, [a]);
    assert WithKey(f, keys, k, false, [b])
        == (if EvalAll(f, keys, [b]) == k then [] else [b]) + WithKey(f, keys, k, false, []);
    assert |GroupBy(f, keys, [b])| == 1 + |GroupBy(f, keys, WithKey(f, keys, EvalAll(f, keys, [b]), false, []))| == 1;
  }

  lemma {:induction false} GroupedSize(f: Functions, db: Db, q: Query, a: Env, b: Env)
    requires q.where == q.having == TRUE && q.grouping.By? && Joined(f, db, q) == [a, b]
    ensures |AllRows(f, db, q)| == if EvalAll(f, q.grouping.keys, [a]) == EvalAll(f, q.grouping.keys, [b]) then 1 else 2
  {
    hide Sort, Project, Having, GroupBy, Where, EvalAll;
    WhereTrue(f, [a, b]);
    TwoGroups(f, q.grouping.keys, a, b);
    var groups := GroupBy(f, q.grouping.keys, [a, b]);
    HavingTrue(f, groups);
    SortSize(f, OrderExprs(q.order), Directions(q.order), groups);
  }

  lemma {:induction false} ByNameRows()
    ensures var q := BY_NAME.(grouping := By([Col("u", "name")]));
      var p := BY_NAME.(joins := [], grouping := By([Col("a", "x")]));
      |AllRows(NUMBERS, NAMESAKES, q)| == 1 && |AllRows(NUMBERS, NAMESAKES, p)| == 2
  {
    hide Blocks, Steps, Base, AllRows, EvalAll;
    var q, p := BY_NAME.(grouping := By([Col("u", "name")])), BY_NAME.(joins := [], grouping := By([Col("a", "x")]));
    var base := Base(map[], "a", NAMESAKES["a"]);
    PairedRows();
    OneStep(NUMBERS, NAMESAKES, base, AUTHOR);
    GroupedSize(NUMBERS, NAMESAKES, q, Paired(0), Paired(1));
    GroupedSize(NUMBERS, NAMESAKES, p, base[0], base[1]);
    NameKeys();
  }

  lemma {:induction false} ByNameLookup()
    requires Qualified(NUMBERS, BY_NAME).joins == [AUTHOR]
    ensures RemovesLookups(NUMBERS, NAMESAKES, BY_NAME, {"user"})
  {
    hide Qualified, KeyLookup, RemovesLookups;
    AuthorKey();
    LookupsAreRemovable(NUMBERS, NAMESAKES, BY_NAME, {"user"});
  }

  lemma {:induction false} ResultSize(f: Functions, db: Db, q: Query, o: Query)
    requires Accepted(q) && Resolves(f, q) && Qualified(f, q) == o && !q.distinct && q.limit.None?
    ensures Result(f, db, q).Some? && |Result(f, db, q).value| == |AllRows(f, db, o)|
  {
    hide Accepted, Resolves, Qualified, AllRows;
  }

  /** The original groups by the name of the user, the pruned query by the column it selects under that name. */
  lemma {:induction false} NameChangesMeaning()
    ensures Prune(BY_NAME, {"user"}) == Some(BY_NAME.(joins := []))
    ensures RemovesLookups(NUMBERS, NAMESAKES, BY_NAME, {"user"})
    ensures Removed(BY_NAME.joins, {"user"}).Some? && !KeepsNames(NUMBERS, BY_NAME, {"user"})
    ensures Result(NUMBERS, NAMESAKES, BY_NAME).Some? && |Result(NUMBERS, NAMESAKES, BY_NAME).value| == 1
    ensures Result(NUMBERS, NAMESAKES, BY_NAME.(joins := [])).Some?
    ensures |Result(NUMBERS, NAMESAKES, BY_NAME.(joins := [])).value| == 2
  {
    hide Prune, Removed, KeepsNames, GroupNameMoves, GroupName, Accepted, Resolves, Qualified, RemovesLookups, AllRows;
    hide Result;
    PruneByName();
    ByNameGroups();
    ByNameQualified(BY_NAME, Col("u", "name"));
    ByNameQualified(BY_NAME.(joins := []), Col("a", "x"));
    ByNameLookup();
    ByNameRows();
    NameMoves();
    ResultSize(NUMBERS, NAMESAKES, BY_NAME, BY_NAME.(grouping := By([Col("u", "name")])));
    ResultSize(NUMBERS, NAMESAKES, BY_NAME.(joins := []), BY_NAME.(joins := [], grouping := By([Col("a", "x")])));
  }

  lemma {:induction false} NameMoves()
    requires Removed(BY_NAME.joins, {"user"}).Some? && GroupNameMoves(NUMBERS, BY_NAME, {"user"}, "name")
    ensures !KeepsNames(NUMBERS, BY_NAME, {"user"})
  {
    hide GroupNameMoves, Removed;
    ByNameNames();
    assert "name" in GroupNames(BY_NAME);
  }

  lemma {:induction false} NameKeys()
    ensures EvalAll(NUMBERS, [Col("u", "name")], [Paired(0)]) == EvalAll(NUMBERS, [Col("u", "name")], [Paired(1)])
    ensures EvalAll(NUMBERS, [Col("a", "x")], [map["a" := NAMESAKES["a"][0]]])
      != EvalAll(NUMBERS, [Col("a", "x")], [map["a" := NAMESAKES["a"][1]]])
  {
    assert EvalAll(NUMBERS, [Col("a", "x")], [map["a" := NAMESAKES["a"][0]]])[0] == Int(1);
    assert EvalAll(NUMBERS, [Col("a", "x")], [map["a" := NAMESAKES["a"][1]]])[0] == Int(2);
    assert [Col("u", "name")][1..] == [];
  }

  // ----- the last aggregate -----

  lemma {:induction false} SortedSize(f: Functions, db: Db, q: Query)
    requires q.having == TRUE
    ensures |AllRows(f, db, q)| == |Groups(f, q, Source(f, db, q))|
  {
    hide Sort, Project, Having, Groups, Source, OrderExprs, Directions;
    var groups := Groups(f, q, Source(f, db, q));
    HavingTrue(f, groups);
    SortSize(f, OrderExprs(q.order), Directions(q.order), groups);
  }

  lemma {:induction false} QualifiedHaving(f: Functions, q: Query)
    requires q.having == TRUE
    ensures Qualified(f, q).having == TRUE && Qualified(f, q).grouping.Ungrouped? == q.grouping.Ungrouped?
  {
    hide QualifyItems, QualifyJoins, QualifyOrder, Qualify, ColumnScope, HavingScope;
  }

  lemma {:induction false} AggregateIsDropped(q: Query, denied: set<string>)
    requires Prune(q, denied).Some? && Removed(q.joins, denied).Some? && !KeepsAggregate(q, denied)
    ensures SingleGroup(q) && !SingleGroup(Prune(q, denied).value) && Prune(q, denied).value.grouping.Ungrouped?
  {
    hide Prune, Removed, ItemsAggregate, HasAggregate, AnyAggregate, OrderExprs, KeptItems;
    PrunedParts(q, denied);
  }

  lemma {:induction false} SourceSize(f: Functions, db: Db, q: Query, denied: set<string>)
    requires Prune(q, denied).Some? && RemovesLookups(f, db, q, denied)
    requires Resolves(f, q) && Resolves(f, Prune(q, denied).value)
    requires Removed(q.joins, denied).Some? && KeepsNames(f, q, denied)
    ensures |Source(f, db, Qualified(f, Prune(q, denied).value))| == |Source(f, db, Qualified(f, q))|
  {
    hide Prune, Removed, Names, Resolves, KeepsNames, ReachedOnce, Source, QualifyItems, QualifyJoins, QualifyOrder;
    hide QualifyGrouping, Qualify, QualifyHaving, HavingScope, KeptItems, KeptJoins, ColumnScope, GroupScope;
    hide ResultScope, ItemAvoids, JoinAvoids, Agree;
    QualifiedParts(f, q, denied);
    PrunedIsClean(f, q, denied);
    QualifiedJoinsRemoved(f, q, [], q.joins, denied);
    SourceAgree(f, db, Qualified(f, q), Qualified(f, Prune(q, denied).value), denied, RemovedNames(q, denied));
  }

  lemma {:induction false} ResultRows(f: Functions, db: Db, q: Query)
    requires !q.distinct && q.limit.None? && Result(f, db, q).Some?
    ensures Resolves(f, q) && Result(f, db, q).value == AllRows(f, db, Qualified(f, q))
  {
    hide Accepted, Resolves, Qualified, AllRows;
  }

  lemma {:induction false} DroppedSizes(f: Functions, db: Db, q: Query, denied: set<string>)
    requires Prune(q, denied).Some? && q.having == TRUE && Removed(q.joins, denied).Some?
    requires !KeepsAggregate(q, denied)
    ensures var p, o := Qualified(f, Prune(q, denied).value), Qualified(f, q);
      |AllRows(f, db, o)| == 1 && |AllRows(f, db, p)| == |Source(f, db, p)|
  {
    hide Prune, Removed, Qualified, KeepsAggregate, AllRows, Source, Singles, Aggregates;
    var w := Prune(q, denied).value;
    var p, o := Qualified(f, w), Qualified(f, q);
    PrunedParts(q, denied);
    AggregateIsDropped(q, denied);
    AggregatesQualified(f, q);
    AggregatesQualified(f, w);
    QualifiedHaving(f, q);
    QualifiedHaving(f, w);
    SortedSize(f, db, o);
    SortedSize(f, db, p);
    SinglesSize(Source(f, db, p));
  }

  /**
   A query without HAVING, DISTINCT nor LIMIT whose names keep their meaning: pruning keeps the number of rows
   exactly when there are grouping keys, no aggregate, or one left, or when there is one row to aggregate.
   Otherwise the single row becomes as many rows as were aggregated.
   */
  lemma {:induction false} KeepsNumberIff(f: Functions, db: Db, q: Query, denied: set<string>)
    requires Prune(q, denied).Some? && RemovesLookups(f, db, q, denied)
    requires q.having == TRUE && !q.distinct && q.limit.None?
    requires Result(f, db, q).Some? && Result(f, db, Prune(q, denied).value).Some?
    requires Removed(q.joins, denied).Some? && KeepsNames(f, q, denied)
    ensures var before, after := |Result(f, db, q).value|, |Result(f, db, Prune(q, denied).value).value|;
      var rows := |Source(f, db, Qualified(f, q))|;
      && (after == before <==> KeepsAggregate(q, denied) || rows == 1)
      && (!KeepsAggregate(q, denied) ==> before == 1 && after == rows)
  {
    hide Prune, Removed, Names, Resolves, KeepsNames, KeepsAggregate, Result, Source, Qualified, RemovesLookups;
    hide AllRows, KeptCells;
    PrunedParts(q, denied);
    ResultRows(f, db, q);
    ResultRows(f, db, Prune(q, denied).value);
    if KeepsAggregate(q, denied) {
      PruneKeepsResult(f, db, q, denied);
    } else {
      SourceSize(f, db, q, denied);
      DroppedSizes(f, db, q, denied);
    }
  }

  const LABEL := Item(Lit(Text("Actions")), As("libelle"))
  const TOTAL := Item(Agg("count", Col("u", "id")), As("total"))

  /** `SELECT 'Actions' AS libelle, COUNT(u.id) AS total FROM a LEFT JOIN user u ON u.id = a.x` */
  const COUNTED := Query(false, [LABEL, TOTAL], "a", "a", [AUTHOR], TRUE, Ungrouped, TRUE, [], None)

  lemma {:induction false} CountedItems()
    ensures KeptItems([LABEL, TOTAL], {"u", "user"}) == [LABEL]
    ensures DroppedNames([LABEL, TOTAL], {"u", "user"}) == {"total"}
  {
    hide MentionsAny;
    var names := {"u", "user"};
    LabelAndTotal();
    NoMention(LABEL);
    assert [LABEL, TOTAL][1..] == [TOTAL];
    TotalIsDropped(names);
  }

  lemma {:induction false} TotalIsDropped(names: set<string>)
    requires MentionsAny(TOTAL, names)
    ensures KeptItems([TOTAL], names) == [] && DroppedNames([TOTAL], names) == {"total"}
  {
    hide MentionsAny;
    assert [TOTAL][1..] == [] && DroppedNames([], names) == {} && KeptItems([], names) == [];
    assert [TOTAL][0] == TOTAL && TOTAL.naming.name == "total";
  }

  lemma {:induction false} LabelAndTotal()
    ensures ItemTokens(LABEL) == [Sym("?"), Sym("as"), Word("libelle")] && MentionsAny(TOTAL, {"u", "user"})
  {
    assert ItemTokens(TOTAL)[2] == Word("u") && "u" in Words(ItemTokens(TOTAL));
  }

  lemma {:induction false} CountedTokens()
    ensures Words(QueryTokens(COUNTED.(items := [LABEL], joins := []))) !! {"u", "user"} + {"total"}
  {
    hide ItemsTokens, Tokens, OrderTokens, Words;
    var p := COUNTED.(items := [LABEL], joins := []);
    OneItemTokens(LABEL);
    LabelAndTotal();
    TokensOf("n");
    NoTokens();
    assert JoinsTokens([]) == [];
    var ts := QueryTokens(p);
    var all := [Sym("?"), Sym("as"), Word("libelle"), Word("a"), Word("a"), Sym("?"), Sym("?")];
    assert ts == all;
    NoneOfThem(all);
  }

  lemma {:induction false} NoneOfThem(ts: seq<Token>)
    requires ts == [Sym("?"), Sym("as"), Word("libelle"), Word("a"), Word("a"), Sym("?"), Sym("?")]
    ensures Words(ts) !! {"u", "user"} + {"total"}
  {
    hide Words;
    WordsIn(ts);
    assert forall x :: Word(x) in ts ==> x == "libelle" || x == "a";
  }

  lemma {:induction false} WordsIn(ts: seq<Token>)
    ensures forall x :: x in Words(ts) <==> Word(x) in ts
  {
  }

  lemma {:induction false} PruneCounted()
    ensures Prune(COUNTED, {"user"}) == Some(COUNTED.(items := [LABEL], joins := []))
    ensures Removed(COUNTED.joins, {"user"}).Some? && RemovedNames(COUNTED, {"user"}) == {"u", "user"}
  {
    hide Removed, Names, KeptJoins, ComparesKey, Words, MentionsAny, QueryTokens, KeptItems, DroppedNames, Tokens;
    AuthorKey();
    OneDenied(AUTHOR);
    CountedItems();
    CountedTokens();
  }

  lemma {:induction false} CountedNames()
    ensures ItemNames([LABEL]) == {} && ItemNames([LABEL, TOTAL]) == {} && OnNames(AUTHOR) == {}
    ensures OrderExprs([]) == [] && UnqualifiedAll([]) == {} && References(TRUE) == {} && Inside(TRUE) == {}
  {
    assert [LABEL, TOTAL][1..] == [TOTAL] && [TOTAL][1..] == [] && [LABEL][1..] == [];
    assert ItemNames([TOTAL]) == Unqualified(TOTAL.e) + ItemNames([]);
  }

  lemma {:induction false} CountedQualified(f: Functions)
    ensures var q, p := COUNTED, COUNTED.(items := [LABEL], joins := []);
      && Accepted(q) && Accepted(p) && Resolves(f, q) && Resolves(f, p) && Qualified(f, q) == q && Qualified(f, p) == p
      && Removed(q.joins, {"user"}).Some? && KeepsNames(f, q, {"user"})
  {
    hide ItemNames, Resolves, Qualified, OnNames, Removed, References, Inside, OrderExprs, UnqualifiedAll;
    CountedNames();
    NewAliasOf(AUTHOR);
    forall j | j in COUNTED.joins ensures OnNames(j) == {} { assert j == AUTHOR; }
    NothingChanges(f, COUNTED);
    NothingChanges(f, COUNTED.(items := [LABEL], joins := []));
    PruneCounted();
  }

  lemma {:induction false} CountedAggregates()
    ensures Removed(COUNTED.joins, {"user"}).Some? && !KeepsAggregate(COUNTED, {"user"})
    ensures Simple(COUNTED.(items := [LABEL], joins := []))
  {
    hide Removed, Names, KeptItems, HasAggregate, ItemsAggregate, OrderExprs, AnyAggregate;
    PruneCounted();
    CountedItems();
    LabelCounts();
    assert KeptQueryItems(COUNTED, {"user"}) == [LABEL];
  }

  lemma {:induction false} LabelCounts()
    ensures ItemsAggregate([LABEL, TOTAL]) && !ItemsAggregate([LABEL])
    ensures OrderExprs([]) == [] && !AnyAggregate([]) && !HasAggregate(TRUE)
  {
    assert TOTAL in [LABEL, TOTAL] && HasAggregate(TOTAL.e) && !HasAggregate(LABEL.e);
    assert forall c :: c in [LABEL] ==> c == LABEL;
  }

  /** One row before, one for each row of `a` once COUNT is dropped, in every database whose users have distinct ids. */
  lemma {:induction false} LastAggregateIsDropped(f: Functions, db: Db)
    requires KeyUnique(Rows(db, "user"))
    ensures var q, p := COUNTED, COUNTED.(items := [LABEL], joins := []);
      && Prune(q, {"user"}) == Some(p) && RemovesLookups(f, db, q, {"user"})
      && Removed(q.joins, {"user"}).Some? && KeepsNames(f, q, {"user"}) && !KeepsAggregate(q, {"user"})
      && Result(f, db, q).Some? && |Result(f, db, q).value| == 1
      && Result(f, db, p).Some? && |Result(f, db, p).value| == |Rows(db, "a")|
  {
    hide Prune, Removed, KeepsNames, KeepsAggregate, Accepted, Resolves, Qualified, RemovesLookups, AllRows, KeyLookup;
    hide KeyUnique, Rows, Simple, Steps;
    var q, p := COUNTED, COUNTED.(items := [LABEL], joins := []);
    PruneCounted();
    CountedQualified(f);
    CountedAggregates();
    AuthorKey();
    LookupsAreRemovable(f, db, q, {"user"});
    KeepsNumberIff(f, db, q, {"user"});
    SimpleSize(f, db, p);
    BaseRows("a", Rows(db, "a"));
    OneStep(f, db, Base(map[], "a", Rows(db, "a")), AUTHOR);
  }

  // ----- DISTINCT and LIMIT -----

  predicate NoRepeat<T(==)>(rows: seq<T>) {
    forall i, j :: 0 <= i < j < |rows| ==> rows[i] != rows[j]
  }

  lemma {:induction false} NoRepeatPrefix<T>(rows: seq<T>, n: nat)
    requires NoRepeat(rows) && n <= |rows|
    ensures NoRepeat(rows[..n])
  {
  }

  lemma {:induction false} DistinctSame<T>(rows: seq<T>)
    requires NoRepeat(rows)
    ensures Distinct(rows) == rows
  {
    if rows != [] {
      var init, last := rows[..|rows| - 1], rows[|rows| - 1];
      NoRepeatPrefix(rows, |rows| - 1);
      DistinctSame(init);
      DistinctSnoc(init, last);
      assert init + [last] == rows;
    }
  }

  lemma {:induction false} DistinctOne<T>(row: T)
    ensures Distinct([row]) == [row]
  {
    assert [row][..0] == [];
  }

  /** A first row that comes again goes. */
  lemma {:induction false} DistinctTwice<T>(rows: seq<T>)
    requires rows != [] && NoRepeat(rows)
    ensures Distinct([rows[0]] + rows) == rows
  {
    hide Distinct;
    var init, last := rows[..|rows| - 1], rows[|rows| - 1];
    var twice := [rows[0]] + init;
    assert rows == init + [last] && [rows[0]] + rows == twice + [last];
    DistinctSnoc(twice, last);
    if init == [] {
      DistinctOne(last);
      assert twice == [last] && rows == [last];
    } else {
      NoRepeatPrefix(rows, |rows| - 1);
      DistinctTwice(init);
      assert init[0] == rows[0] && last !in init;
    }
  }

  /** Two rows that differ on the dropped columns only take two of the places of LIMIT, or one. */
  lemma {:induction false} DistinctLimitDiffers(items: seq<Item>, rows: seq<seq<Cell>>, names: set<string>, n: nat)
    requires n >= 2 && |rows| == n + 1 && NoRepeat(rows)
    requires var kept := KeptRows(items, rows, names); kept[0] == kept[1] && NoRepeat(kept[1..])
    ensures |Distinct(KeptRows(items, Take(Some(n), Distinct(rows)), names))| == n - 1
    ensures |Take(Some(n), Distinct(KeptRows(items, rows, names)))| == n
  {
    hide KeptRows, NoRepeat, Distinct;
    var kept := KeptRows(items, rows, names);
    var tail := kept[1..];
    DistinctSame(rows);
    KeptTake(items, Some(n), rows, names);
    assert kept == [tail[0]] + tail && kept[..n] == [tail[..n - 1][0]] + tail[..n - 1];
    DistinctTwice(tail);
    NoRepeatPrefix(tail, n - 1);
    DistinctTwice(tail[..n - 1]);
  }

  /** A row with `a` in the kept columns and `b` in the others. */
  function Filled(items: seq<Item>, names: set<string>, a: Cell, b: Cell): (r: seq<Cell>)
    ensures |r| == |items|
  {
    if items == [] then [] else [if MentionsAny(items[0], names) then b else a] + Filled(items[1..], names, a, b)
  }

  predicate SomeKept(items: seq<Item>, names: set<string>) {
    exists c :: c in items && !MentionsAny(c, names)
  }

  predicate SomeDropped(items: seq<Item>, names: set<string>) {
    exists c :: c in items && MentionsAny(c, names)
  }

  /** What the dropped columns hold does not show. */
  lemma {:induction false} FilledHides(items: seq<Item>, names: set<string>, a: Cell, b: Cell, b2: Cell)
    ensures KeptCells(items, Filled(items, names, a, b), names) == KeptCells(items, Filled(items, names, a, b2), names)
  {
    hide Filled, KeptCells, MentionsAny;
    if items != [] {
      FilledHides(items[1..], names, a, b, b2);
      FilledStep(items, names, a, b);
      FilledStep(items, names, a, b2);
    } else {
      assert Filled([], names, a, b) == Filled([], names, a, b2);
    }
  }

  lemma {:induction false} FilledShows(items: seq<Item>, names: set<string>, a: Cell, b: Cell, a2: Cell, b2: Cell)
    requires SomeKept(items, names) && a != a2
    ensures KeptCells(items, Filled(items, names, a, b), names) != KeptCells(items, Filled(items, names, a2, b2), names)
  {
    hide Filled, KeptCells, MentionsAny;
    FilledStep(items, names, a, b);
    FilledStep(items, names, a2, b2);
    if MentionsAny(items[0], names) {
      assert items == [items[0]] + items[1..];
      FilledShows(items[1..], names, a, b, a2, b2);
      assert forall s: seq<Cell> :: [] + s == s;
    } else {
      var x := KeptCells(items[1..], Filled(items[1..], names, a, b), names);
      var y := KeptCells(items[1..], Filled(items[1..], names, a2, b2), names);
      assert ([a] + x)[0] != ([a2] + y)[0];
    }
  }

  lemma {:induction false} FilledDiffers(items: seq<Item>, names: set<string>, a: Cell, b: Cell, a2: Cell, b2: Cell)
    requires SomeDropped(items, names) && b != b2
    ensures Filled(items, names, a, b) != Filled(items, names, a2, b2)
  {
    hide Filled, KeptCells, MentionsAny;
    FilledStep(items, names, a, b);
    FilledStep(items, names, a2, b2);
    if !MentionsAny(items[0], names) {
      assert items == [items[0]] + items[1..];
      FilledDiffers(items[1..], names, a, b, a2, b2);
    }
  }

  lemma {:induction false} FilledStep(items: seq<Item>, names: set<string>, a: Cell, b: Cell)
    requires items != []
    ensures var row, rest := Filled(items, names, a, b), items[1..];
      && row[0] == (if MentionsAny(items[0], names) then b else a) && row[1..] == Filled(rest, names, a, b)
      && KeptCells(items, row, names)
         == (if MentionsAny(items[0], names) then [] else [a]) + KeptCells(rest, Filled(rest, names, a, b), names)
  {
    hide MentionsAny;
    assert Filled(items, names, a, b)[1..] == Filled(items[1..], names, a, b);
  }

  /** `Int(0)` with `b`, then `Int(0)`, `Int(1)` and so on with NULL. */
  function Spread(items: seq<Item>, names: set<string>, n: nat): (r: seq<seq<Cell>>)
    ensures |r| == n + 1
  {
    [Filled(items, names, One(Int(0)), One(Int(1)))]
      + seq(n, i requires 0 <= i < n => Filled(items, names, One(Int(i)), One(Null)))
  }

  lemma {:induction false} SpreadAt(items: seq<Item>, names: set<string>, n: nat, i: nat)
    requires i <= n
    ensures Spread(items, names, n)[i]
      == if i == 0 then Filled(items, names, One(Int(0)), One(Int(1)))
         else Filled(items, names, One(Int(i - 1)), One(Null))
  {
    hide Filled;
  }

  lemma {:induction false} SpreadStarts(items: seq<Item>, names: set<string>, n: nat)
    requires n > 0
    ensures var kept := KeptRows(items, Spread(items, names, n), names); kept[0] == kept[1]
  {
    hide Filled, KeptCells, Spread;
    SpreadAt(items, names, n, 0);
    SpreadAt(items, names, n, 1);
    FilledHides(items, names, One(Int(0)), One(Int(1)), One(Null));
  }

  lemma {:induction false} SpreadDiffers(items: seq<Item>, names: set<string>, n: nat, i: nat, j: nat)
    requires i < j <= n && SomeKept(items, names) && SomeDropped(items, names)
    ensures var rows := Spread(items, names, n);
      rows[i] != rows[j] && (i > 0 ==> KeptCells(items, rows[i], names) != KeptCells(items, rows[j], names))
  {
    hide Filled, KeptCells, SomeKept, SomeDropped, Spread;
    SpreadAt(items, names, n, i);
    SpreadAt(items, names, n, j);
    if i > 0 {
      FilledShows(items, names, One(Int(i - 1)), One(Null), One(Int(j - 1)), One(Null));
    } else {
      FilledDiffers(items, names, One(Int(0)), One(Int(1)), One(Int(j - 1)), One(Null));
    }
  }

  lemma {:induction false} SpreadRows(items: seq<Item>, names: set<string>, n: nat)
    requires n > 0 && SomeKept(items, names) && SomeDropped(items, names)
    ensures var rows := Spread(items, names, n);
      var kept := KeptRows(items, rows, names);
      NoRepeat(rows) && kept[0] == kept[1] && NoRepeat(kept[1..])
  {
    hide Spread, KeptRows;
    var rows := Spread(items, names, n);
    var kept := KeptRows(items, rows, names);
    SpreadStarts(items, names, n);
    forall i, j | 0 <= i < j <= n ensures rows[i] != rows[j] && (i > 0 ==> kept[i] != kept[j]) {
      SpreadDiffers(items, names, n, i, j);
    }
    forall i, j | 0 <= i < j < n ensures kept[1..][i] != kept[1..][j] {
      assert kept[1..][i] == kept[i + 1] && kept[1..][j] == kept[j + 1];
    }
  }

  /**
   When pruning drops a column and keeps one, DISTINCT and LIMIT give the same rows on the kept columns,
   whatever the rows, exactly when LIMIT leaves at most one of them or there is none.
   */
  lemma {:induction false} DistinctLimitAgreesIff(items: seq<Item>, names: set<string>, limit: Option<nat>)
    requires SomeKept(items, names) && SomeDropped(items, names)
    ensures (limit.None? || limit.value <= 1) <==>
            forall rows :: Distinct(KeptRows(items, Take(limit, Distinct(rows)), names))
              == Take(limit, Distinct(KeptRows(items, rows, names)))
  {
    hide Distinct, KeptRows, Take, SomeKept, SomeDropped, NoRepeat, Spread;
    if limit.None? || limit.value <= 1 {
      forall rows
        ensures Distinct(KeptRows(items, Take(limit, Distinct(rows)), names))
          == Take(limit, Distinct(KeptRows(items, rows, names)))
      {
        DistinctTake(items, limit, rows, names);
      }
    } else {
      var rows := Spread(items, names, limit.value);
      SpreadRows(items, names, limit.value);
      DistinctLimitDiffers(items, rows, names, limit.value);
    }
  }

  // ----- the same on a query -----

  /** With the order of `NUMBERS`, no row is before another. */
  lemma {:induction false} SortSame(keys: seq<Expr>, dirs: seq<bool>, groups: seq<seq<Env>>)
    ensures Sort(NUMBERS, keys, dirs, groups) == groups
  {
    hide EvalAll;
    if groups != [] {
      SortSame(keys, dirs, groups[1..]);
      assert Insert(NUMBERS, keys, dirs, groups[0], groups[1..]) == [groups[0]] + groups[1..] == groups;
    }
  }

  /** A title with an author, then `n` titles without one, the first of them the same. */
  function Articles(i: nat, n: nat): (r: seq<Record>)
    ensures |r| == n && forall k :: 0 <= k < n ==> r[k] == map["title" := Int(i + k), "x" := Int(0)]
    decreases n
  {
    if n == 0 then [] else [map["title" := Int(i), "x" := Int(0)]] + Articles(i + 1, n - 1)
  }

  const PERSON: Record := map["id" := Int(1), "name" := Text("x")]
  const SIGNED: Record := map["title" := Int(0), "x" := Int(1)]

  function Press(n: nat): (db: Db)
    ensures "a" in db
  {
    map["a" := [SIGNED] + Articles(0, n), "user" := [PERSON]]
  }

  function AuthorOf(r: Record): Record {
    if Field(r, "x") == Int(1) then PERSON else map[]
  }

  lemma {:induction false} AuthorBlock(r: Record)
    requires r == SIGNED || Field(r, "x") == Int(0)
    ensures Block(NUMBERS, [PERSON], map["a" := r], AUTHOR) == [map["a" := r, "u" := AuthorOf(r)]]
  {
    var env, bound := map["a" := r], map["a" := r, "u" := PERSON];
    assert env["u" := PERSON] == bound && [PERSON][1..] == [];
    assert RowOf(bound, "u") == PERSON && RowOf(bound, "a") == r;
    assert Matches(NUMBERS, [PERSON], env, AUTHOR)
        == (if Accepts(NUMBERS, AUTHOR, bound) then [bound] else []) + Matches(NUMBERS, [], env, AUTHOR);
    assert env["u" := map[]] == map["a" := r, "u" := map[]];
  }

  function Signed(rows: seq<Record>): (r: seq<seq<Cell>>)
    ensures |r| == |rows|
    ensures forall i :: 0 <= i < |r| ==> r[i] == SignedRow(rows[i])
  {
    if rows == [] then [] else [SignedRow(rows[0])] + Signed(rows[1..])
  }

  function SignedRow(r: Record): seq<Cell> {
    [One(Field(r, "title")), One(if Field(r, "x") == Int(1) then Text("x") else Null)]
  }

  lemma {:induction false} AuthorCells(r: Record)
    ensures Cells(NUMBERS, [TITLE, NAME], [map["a" := r, "u" := AuthorOf(r)]])
         == SignedRow(r)
  {
    var items, g := [TITLE, NAME], [map["a" := r, "u" := AuthorOf(r)]];
    assert items[1..] == [NAME] && items[1..][1..] == [];
    assert RowOf(g[0], "a") == r && RowOf(g[0], "u") == AuthorOf(r);
    assert Cells(NUMBERS, items[1..], g) == [CellOf(NUMBERS, NAME, g)] + Cells(NUMBERS, [], g);
  }

  /** The rows of the query, one for each article. */
  lemma {:induction false} AuthorRows(rows: seq<Record>)
    requires forall r :: r in rows ==> r == SIGNED || Field(r, "x") == Int(0)
    ensures Project(NUMBERS, [TITLE, NAME], Singles(Blocks(NUMBERS, [PERSON], Base(map[], "a", rows), AUTHOR)))
      == Signed(rows)
  {
    hide Block, Cells, Field;
    if rows != [] {
      var base, items, bound := Base(map[], "a", rows), [TITLE, NAME], map["a" := rows[0], "u" := AuthorOf(rows[0])];
      AuthorRows(rows[1..]);
      AuthorBlock(rows[0]);
      AuthorCells(rows[0]);
      var tail := Blocks(NUMBERS, [PERSON], Base(map[], "a", rows[1..]), AUTHOR);
      assert base[0] == map["a" := rows[0]] && base[1..] == Base(map[], "a", rows[1..]);
      assert Blocks(NUMBERS, [PERSON], base, AUTHOR) == [bound] + tail;
      assert ([bound] + tail)[..1] == [bound] && ([bound] + tail)[1..] == tail;
      assert Singles([bound] + tail) == [[bound]] + Singles(tail);
      assert ([[bound]] + Singles(tail))[1..] == Singles(tail);
    }
  }

  lemma {:induction false} PressRow(n: nat, i: nat)
    requires i <= n
    ensures Signed(Press(n)["a"])[i] == if i == 0 then [One(Int(0)), One(Text("x"))] else [One(Int(i - 1)), One(Null)]
    ensures KeptRows([TITLE, NAME], Signed(Press(n)["a"]), {"u", "user"})[i] == [One(Int(if i == 0 then 0 else i - 1))]
  {
    hide KeptCells, MentionsAny, Articles;
    var r := Press(n)["a"][i];
    assert r == if i == 0 then SIGNED else map["title" := Int(i - 1), "x" := Int(0)];
    CutToTitle(SignedRow(r));
  }

  lemma {:induction false} PressRows(n: nat)
    requires n > 0
    ensures var rows, items, names := Signed(Press(n)["a"]), [TITLE, NAME], {"u", "user"};
      var kept := KeptRows(items, rows, names);
      |rows| == n + 1 && NoRepeat(rows) && kept[0] == kept[1] && NoRepeat(kept[1..])
  {
    hide Signed, KeptRows, Press;
    PressSize(n);
    var rows := Signed(Press(n)["a"]);
    var kept := KeptRows([TITLE, NAME], rows, {"u", "user"});
    PressRow(n, 0);
    PressRow(n, 1);
    forall i, j | 0 <= i < j <= n ensures rows[i] != rows[j] && (i > 0 ==> kept[i] != kept[j]) {
      PressRow(n, i);
      PressRow(n, j);
    }
    forall i, j | 0 <= i < j < n
      ensures kept[1..][i] != kept[1..][j]
    {
      assert kept[1..][i] == kept[i + 1] && kept[1..][j] == kept[j + 1];
    }
  }

  lemma {:induction false} PressSize(n: nat)
    ensures |Press(n)["a"]| == n + 1
  {
  }

  lemma {:induction false} CutToTitle(row: seq<Cell>)
    requires |row| == 2
    ensures KeptCells([TITLE, NAME], row, {"u", "user"}) == [row[0]]
  {
    hide MentionsAny;
    var items, names := [TITLE, NAME], {"u", "user"};
    TitleItem();
    NameMentions();
    assert items[1..] == [items[1]] && row[1..] == [row[1]] && [items[1]][1..] == [];
    assert KeptCells([items[1]], [row[1]], names) == [] + KeptCells([], [row[1]][1..], names) == [];
  }

  /** `SELECT DISTINCT a.title, u.name FROM a LEFT JOIN user u ON u.id = a.x LIMIT n` */
  function Titles(n: nat): Query {
    Query(true, [TITLE, NAME], "a", "a", [AUTHOR], TRUE, Ungrouped, TRUE, [], Some(n))
  }

  lemma {:induction false} TitlesPruned(n: nat)
    ensures Prune(Titles(n), {"user"}) == Some(Titles(n).(items := [TITLE], joins := []))
    ensures Removed([AUTHOR], {"user"}).Some? && RemovedNames(Titles(n), {"user"}) == {"u", "user"}
  {
    hide MentionsAny, Words, Removed, Names, KeptJoins, KeptItems, DroppedNames, ComparesKey, Tokens, ItemsTokens;
    hide GroupingTokens, OrderTokens, JoinsTokens;
    var p, on := Titles(n).(items := [TITLE], joins := []), AUTHOR.on.value;
    AuthorKey();
    OneDenied(AUTHOR);
    UsedItems(InOrderBy);
    TitleTokens(on);
    assert QueryTokens(p) == QueryTokens(Lookup(on).(joins := []));
  }

  lemma {:induction false} TitleNames()
    ensures ItemNames([TITLE]) == {} && ItemNames([TITLE, NAME]) == {}
  {
    hide ItemNames;
    FirstItemNames(TITLE, [NAME]);
    FirstItemNames(TITLE, []);
    FirstItemNames(NAME, []);
    assert [TITLE] + [] == [TITLE] && [NAME] + [] == [NAME] && [TITLE] + [NAME] == [TITLE, NAME];
  }

  lemma {:induction false} FirstItemNames(item: Item, items: seq<Item>)
    ensures ItemNames([item] + items) == (if item.Item? then Unqualified(item.e) else {}) + ItemNames(items)
    ensures ItemNames([]) == {}
  {
    hide Unqualified;
    assert ([item] + items)[1..] == items;
  }

  lemma {:induction false} TitlesQualified(n: nat)
    ensures var q := Titles(n);
      && var p := q.(items := [TITLE], joins := []);
      && Accepted(q) && Accepted(p) && Resolves(NUMBERS, q) && Resolves(NUMBERS, p)
      && Qualified(NUMBERS, q) == q && Qualified(NUMBERS, p) == p && GroupNames(q) == ResultNames(q) == {}
  {
    hide ItemNames, Resolves, Qualified, OnNames;
    var q := Titles(n);
    NewAliasOf(AUTHOR);
    TitleNames();
    ByNameNames();
    forall j | j in q.joins ensures OnNames(j) == {} { assert j == AUTHOR; }
    NothingChanges(NUMBERS, q);
    NothingChanges(NUMBERS, q.(items := [TITLE], joins := []));
  }

  lemma {:induction false} TitlesRows(n: nat)
    ensures AllRows(NUMBERS, Press(n), Titles(n)) == Signed(Press(n)["a"])
  {
    hide Project, Singles, Blocks, Base, Steps, Sort, Signed, Press;
    var q, db, base := Titles(n), Press(n), Base(map[], "a", Press(n)["a"]);
    SimpleSorted(NUMBERS, db, q);
    OneStep(NUMBERS, db, base, AUTHOR);
    PressUsers(n);
    SortSame(OrderExprs(q.order), Directions(q.order), Singles(Blocks(NUMBERS, [PERSON], base, AUTHOR)));
    AuthorRows(db["a"]);
  }

  lemma {:induction false} PressUsers(n: nat)
    ensures Rows(Press(n), "user") == [PERSON] && Rows(Press(n), "a") == Press(n)["a"] && KeyUnique([PERSON])
    ensures forall r :: r in Press(n)["a"] ==> r == SIGNED || Field(r, "x") == Int(0)
  {
    forall r | r in Press(n)["a"] ensures r == SIGNED || Field(r, "x") == Int(0) {
      var i :| 0 <= i < |Press(n)["a"]| && Press(n)["a"][i] == r;
    }
  }

  /** From two on, the pruned query returns a title more than the original showed. */
  lemma {:induction false} DistinctLimitGainsRows(n: nat)
    requires n >= 2
    ensures var q, db := Titles(n), Press(n);
      var p := Prune(q, {"user"});
      && p.Some? && RemovesLookups(NUMBERS, db, q, {"user"})
      && Result(NUMBERS, db, q).Some? && Result(NUMBERS, db, p.value).Some?
      && |Distinct(KeptRows(q.items, Result(NUMBERS, db, q).value, {"u", "user"}))| == n - 1
      && |Result(NUMBERS, db, p.value).value| == n
  {
    hide Accepted, Prune, Removed, Distinct, Take, KeptRows, AllRows, KeyLookup, KeyUnique, NoRepeat, Signed, Press;
    hide Resolves, Qualified;
    hide RemovesLookups, OrderExprs, UnqualifiedAll;
    var q, db := Titles(n), Press(n);
    TitlesPruned(n);
    TitlesQualified(n);
    AuthorKey();
    PressUsers(n);
    LookupsAreRemovable(NUMBERS, db, q, {"user"});
    PrunedResult(NUMBERS, db, q, {"user"});
    TitlesRows(n);
    PressRows(n);
    DistinctLimitDiffers(q.items, Signed(db["a"]), {"u", "user"}, n);
  }
}
