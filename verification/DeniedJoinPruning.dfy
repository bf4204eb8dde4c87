/**
 Removal of the LEFT JOINs to tables the user may not read (denied-join-pruning.ts) and the
 permission check around it (ai-database-permission.service.ts), on parsed queries.
 The program tests the text of the query; here the same tests run on its tokens.
 */
module DeniedJoinPruning {
  import opened Wrappers
  import opened Relational
  import opened Agreement

  // ----- the text of a query, as tokens -----

  /** A word (`\w+`) or a symbol. String literals are masked, so they contribute no word. */
  datatype Token = Word(s: string) | Sym(s: string)

  function OpText(op: CmpOp): string {
    match op
    case Eq => "="
    case Ne => "<>"
    case BangEq => "!="
    case Lt => "<"
    case Le => "<="
    case Gt => ">"
    case Ge => ">="
    case NullSafeEq => "<=>"
  }

  function Tokens(e: Expr): seq<Token>
    decreases e, 0
  {
    match e
    case Col(a, c) => [Word(a), Sym("."), Word(c)]
    case Name(n) => [Word(n)]
    case Lit(_) => [Sym("?")]
    case Cmp(op, l, r) => Tokens(l) + [Sym(OpText(op))] + Tokens(r)
    case And(l, r) => Tokens(l) + [Sym("and")] + Tokens(r)
    case Or(l, r) => Tokens(l) + [Sym("or")] + Tokens(r)
    case Not(x) => [Sym("not")] + Tokens(x)
    case Paren(x) => [Sym("(")] + Tokens(x) + [Sym(")")]
    case Fn(name, args) => [Word(name), Sym("(")] + TokensAll(args) + [Sym(")")]
    case Agg(name, x) => [Word(name), Sym("(")] + Tokens(x) + [Sym(")")]
  }

  function TokensAll(es: seq<Expr>): seq<Token>
    decreases es, 0
  {
    if es == [] then [] else Tokens(es[0]) + [Sym(",")] + TokensAll(es[1..])
  }

  function Words(ts: seq<Token>): set<string> {
    set t | t in ts && t.Word? :: t.s
  }

  function NamingTokens(n: Naming): seq<Token> {
    match n
    case Unnamed => []
    case As(x) => [Sym("as"), Word(x)]
    case Bare(x) => [Word(x)]
  }

  function ItemTokens(item: Item): seq<Token> {
    match item
    case Star => [Sym("*")]
    case TableStar(a) => [Word(a), Sym("."), Sym("*")]
    case Item(e, n) => Tokens(e) + NamingTokens(n)
  }

  function ItemsTokens(items: seq<Item>): seq<Token> {
    if items == [] then [] else ItemTokens(items[0]) + ItemsTokens(items[1..])
  }

  function JoinTokens(j: Join): seq<Token> {
    [Word(j.table), Word(j.alias)] + if j.on.Some? then Tokens(j.on.value) else []
  }

  function JoinsTokens(js: seq<Join>): seq<Token> {
    if js == [] then [] else JoinTokens(js[0]) + JoinsTokens(js[1..])
  }

  function OrderTokens(keys: seq<OrderKey>): seq<Token> {
    if keys == [] then [] else Tokens(keys[0].e) + OrderTokens(keys[1..])
  }

  function GroupingTokens(g: Grouping): seq<Token> {
    match g
    case By(keys) => TokensAll(keys)
    case _ => []
  }

  function QueryTokens(q: Query): seq<Token> {
    ItemsTokens(q.items) + [Word(q.table), Word(q.alias)] + JoinsTokens(q.joins)
    + Tokens(q.where) + GroupingTokens(q.grouping) + Tokens(q.having) + OrderTokens(q.order)
  }

  // ----- the pruning -----

  /** `alias.id` directly followed by `=`, or directly preceded by a symbol that ends with `=`. */
  predicate ComparesKey(ts: seq<Token>, alias: string) {
    exists i :: 0 <= i < |ts| && KeyAt(ts, i, alias)
  }

  predicate KeyAt(ts: seq<Token>, i: int, alias: string)
    requires 0 <= i < |ts|
  {
    && i + 3 <= |ts| && ts[i..i + 3] == [Word(alias), Sym("."), Word("id")]
    && (|| (i + 3 < |ts| && ts[i + 3] == Sym("="))
        || (i > 0 && ts[i - 1] in {Sym("="), Sym("<="), Sym(">="), Sym("!=")}))
  }

  /** A join with an ON clause to a denied table; the program does not see the others. */
  predicate Denied(j: Join, denied: set<string>) {
    j.table in denied && j.on.Some?
  }

  /** The joins to drop, in order; `None` when one of them may change the other rows. */
  function Removed(joins: seq<Join>, denied: set<string>): Option<seq<Join>> {
    if joins == [] then Some([])
    else if !Denied(joins[0], denied) then Removed(joins[1..], denied)
    else if !joins[0].kind.Left? then None
    else if !ComparesKey(Tokens(joins[0].on.value), joins[0].alias) then None
    else
      var rest := Removed(joins[1..], denied);
      if rest.None? then None else Some([joins[0]] + rest.value)
  }

  function KeptJoins(joins: seq<Join>, denied: set<string>): seq<Join> {
    if joins == [] then []
    else (if Denied(joins[0], denied) then [] else [joins[0]]) + KeptJoins(joins[1..], denied)
  }

  /** Aliases and tables of the dropped joins. */
  function Names(removed: seq<Join>): set<string> {
    (set j | j in removed :: j.alias) + (set j | j in removed :: j.table)
  }

  predicate MentionsAny(item: Item, names: set<string>) {
    !(Words(ItemTokens(item)) !! names)
  }

  function KeptItems(items: seq<Item>, names: set<string>): seq<Item> {
    if items == [] then []
    else (if MentionsAny(items[0], names) then [] else [items[0]]) + KeptItems(items[1..], names)
  }

  /** Names given with AS to the dropped columns. */
  function DroppedNames(items: seq<Item>, names: set<string>): set<string> {
    if items == [] then {}
    else
      (if MentionsAny(items[0], names) && items[0].Item? && items[0].naming.As? then {items[0].naming.name} else {})
      + DroppedNames(items[1..], names)
  }

  function Prune(q: Query, denied: set<string>): Option<Query> {
    var removed := Removed(q.joins, denied);
    if removed.None? || removed.value == [] then None
    else
      var names := Names(removed.value);
      if Star in q.items then None
      else
        var kept := KeptItems(q.items, names);
        if kept == [] then None
        else
          var p := q.(items := kept, joins := KeptJoins(q.joins, denied));
          if Words(QueryTokens(p)) !! names + DroppedNames(q.items, names) then Some(p) else None
  }

  // ----- when a removed join is a lookup by primary key -----

  /** ON is a conjunction that contains `alias.id = e` with `e` independent of the joined row. */
  predicate KeyLookup(on: Expr, alias: string) {
    match on
    case And(l, r) => KeyLookup(l, alias) || KeyLookup(r, alias)
    case Paren(e) => KeyLookup(e, alias)
    case Cmp(Eq, l, r) =>
      || (l == Col(alias, "id") && alias !in Aliases(r))
      || (r == Col(alias, "id") && alias !in Aliases(l))
    case _ => false
  }

  ghost predicate KeyUnique(rows: seq<Record>) {
    forall i, j :: 0 <= i < j < |rows| && Field(rows[i], "id") != Null
                   ==> Field(rows[i], "id") != Field(rows[j], "id")
  }

  /** Each of the rows is joined with one row at most. */
  ghost predicate EachOnce(f: Functions, rows: seq<Record>, envs: seq<Env>, j: Join) {
    forall e :: e in envs ==> |Matches(f, rows, e, j)| <= 1
  }

  /** Each removed join finds one row at most for each of the rows that reach it. */
  ghost predicate ReachedOnce(f: Functions, db: Db, envs: seq<Env>, joins: seq<Join>, denied: set<string>)
    decreases |joins|
  {
    joins == []
    || ((Denied(joins[0], denied) ==> EachOnce(f, Rows(db, joins[0].table), envs, joins[0]))
        && ReachedOnce(f, db, Step(f, db, map[], envs, joins[0]), joins[1..], denied))
  }

  ghost predicate RemovesLookups(f: Functions, db: Db, q: Query, denied: set<string>) {
    ReachedOnce(f, db, Base(map[], q.alias, Rows(db, q.table)), Qualified(f, q).joins, denied)
  }

  /** The value the key is compared with. */
  ghost function KeyValue(f: Functions, on: Expr, alias: string, env: Env): Value
    requires KeyLookup(on, alias)
  {
    match on
    case And(l, r) => if KeyLookup(l, alias) then KeyValue(f, l, alias, env) else KeyValue(f, r, alias, env)
    case Paren(e) => KeyValue(f, e, alias, env)
    case Cmp(_, l, r) =>
      if l == Col(alias, "id") && alias !in Aliases(r) then Eval(f, r, [env]) else Eval(f, l, [env])
  }

  lemma {:induction false} MatchHasKey(f: Functions, on: Expr, alias: string, env: Env, r: Record)
    requires KeyLookup(on, alias) && Holds(f, on, env[alias := r])
    ensures Field(r, "id") == KeyValue(f, on, alias, env) != Null
  {
    var bound := env[alias := r];
    match on {
      case And(l, x) =>
        if KeyLookup(l, alias) {
          MatchHasKey(f, l, alias, env, r);
        } else {
          MatchHasKey(f, x, alias, env, r);
        }
      case Paren(e) => MatchHasKey(f, e, alias, env, r);
      case Cmp(_, l, x) =>
        assert Agree(bound, env, {alias});
        assert Eval(f, Col(alias, "id"), [bound]) == Field(r, "id");
        if l == Col(alias, "id") && alias !in Aliases(x) {
          EvalAgree(f, x, [bound], [env], {alias});
        } else {
          EvalAgree(f, l, [bound], [env], {alias});
        }
    }
  }

  lemma {:induction false} NoOtherMatch(f: Functions, rows: seq<Record>, env: Env, j: Join, k: Value)
    requires j.on.Some? && KeyLookup(j.on.value, j.alias) && k == KeyValue(f, j.on.value, j.alias, env)
    requires forall i :: 0 <= i < |rows| ==> Field(rows[i], "id") != k || k == Null
    ensures Matches(f, rows, env, j) == []
  {
    if rows != [] {
      if Holds(f, j.on.value, env[j.alias := rows[0]]) { MatchHasKey(f, j.on.value, j.alias, env, rows[0]); }
      NoOtherMatch(f, rows[1..], env, j, k);
    }
  }

  /** A lookup by primary key finds one row at most. */
  lemma {:induction false} LookupMatchesOnce(f: Functions, rows: seq<Record>, env: Env, j: Join)
    requires j.on.Some? && KeyLookup(j.on.value, j.alias) && KeyUnique(rows)
    ensures |Matches(f, rows, env, j)| <= 1
  {
    if rows != [] {
      var k := KeyValue(f, j.on.value, j.alias, env);
      if Holds(f, j.on.value, env[j.alias := rows[0]]) {
        MatchHasKey(f, j.on.value, j.alias, env, rows[0]);
        NoOtherMatch(f, rows[1..], env, j, k);
      } else {
        LookupMatchesOnce(f, rows[1..], env, j);
      }
    }
  }

  lemma {:induction false} LookupsReachOnce(f: Functions, db: Db, envs: seq<Env>, joins: seq<Join>, denied: set<string>)
    requires forall j ::
        j in joins && Denied(j, denied) ==> KeyLookup(j.on.value, j.alias) && KeyUnique(Rows(db, j.table))
    ensures ReachedOnce(f, db, envs, joins, denied)
    decreases |joins|
  {
    hide Matches, Step, KeyUnique, KeyLookup;
    if joins != [] {
      var j := joins[0];
      if Denied(j, denied) {
        forall e | e in envs
          ensures |Matches(f, Rows(db, j.table), e, j)| <= 1
        {
          LookupMatchesOnce(f, Rows(db, j.table), e, j);
        }
      }
      LookupsReachOnce(f, db, Step(f, db, map[], envs, j), joins[1..], denied);
    }
  }

  /** What the program takes for granted: the joins it drops are lookups by primary key. */
  lemma {:induction false} LookupsAreRemovable(f: Functions, db: Db, q: Query, denied: set<string>)
    requires forall j :: j in Qualified(f, q).joins && Denied(j, denied)
               ==> KeyLookup(j.on.value, j.alias) && KeyUnique(Rows(db, j.table))
    ensures RemovesLookups(f, db, q, denied)
  {
    hide Qualified;
    LookupsReachOnce(f, db, Base(map[], q.alias, Rows(db, q.table)), Qualified(f, q).joins, denied);
  }

  lemma {:induction false} MatchesBind(f: Functions, rows: seq<Record>, env: Env, j: Join)
    ensures forall e :: e in Matches(f, rows, env, j) ==> Agree(e, env, {j.alias})
  {
    if rows != [] { MatchesBind(f, rows[1..], env, j); }
  }

  /** Dropping a LEFT JOIN that finds one row at most keeps every row, once and in place. */
  lemma {:induction false} LookupKeepsRows(f: Functions, rows: seq<Record>, a: seq<Env>, b: seq<Env>, j: Join,
          off: set<string>)
    requires j.kind.Left? && EachOnce(f, rows, a, j)
    requires j.alias in off && AgreeAll(a, b, off)
    ensures AgreeAll(Blocks(f, rows, a, j), b, off)
  {
    hide Agree, AgreeAll, Block;
    if a == [] {
      NoneAgree(a, b, off);
    } else {
      AgreeParts(a, b, off);
      OnceKeepsRow(f, rows, a[0], b[0], j, off);
      LookupKeepsRows(f, rows, a[1..], b[1..], j, off);
      AgreeAppend(Block(f, rows, a[0], j), [b[0]], Blocks(f, rows, a[1..], j), b[1..], off);
      assert b == [b[0]] + b[1..];
    }
  }

  lemma {:induction false} OnceKeepsRow(f: Functions, rows: seq<Record>, a: Env, b: Env, j: Join, off: set<string>)
    requires j.kind.Left? && |Matches(f, rows, a, j)| <= 1 && j.alias in off && Agree(a, b, off)
    ensures AgreeAll(Block(f, rows, a, j), [b], off)
  {
    MatchesBind(f, rows, a, j);
    hide Matches;
    var block := Block(f, rows, a, j);
    assert |block| == 1 && Agree(block[0], a, {j.alias});
  }

  lemma {:induction false} JoinsAgree(f: Functions, db: Db, a: seq<Env>, b: seq<Env>, joins: seq<Join>,
          denied: set<string>, off: set<string>)
    requires AgreeAll(a, b, off) && ReachedOnce(f, db, a, joins, denied)
    requires forall j :: j in joins && Denied(j, denied) ==> j.kind.Left? && j.alias in off
    requires forall j :: j in joins && !Denied(j, denied) && j.on.Some? ==> Aliases(j.on.value) !! off
    ensures AgreeAll(Steps(f, db, map[], a, joins), Steps(f, db, map[], b, KeptJoins(joins, denied)), off)
    decreases |joins|
  {
    hide AgreeAll, Blocks, RightBlocks, EachOnce, Aliases;
    if joins != [] {
      var j, rest := joins[0], joins[1..];
      KeptFirst(joins, denied);
      if Denied(j, denied) {
        LookupKeepsRows(f, Rows(db, j.table), a, b, j, off);
        JoinsAgree(f, db, Step(f, db, map[], a, j), b, rest, denied, off);
      } else {
        StepAgree(f, db, a, b, j, off);
        JoinsAgree(f, db, Step(f, db, map[], a, j), Step(f, db, map[], b, j), rest, denied, off);
      }
    }
  }

  lemma {:induction false} KeptFirst(joins: seq<Join>, denied: set<string>)
    requires joins != []
    ensures var kept, rest := KeptJoins(joins, denied), KeptJoins(joins[1..], denied);
      if Denied(joins[0], denied) then kept == rest else kept != [] && kept[0] == joins[0] && kept[1..] == rest
  {
  }

  // ----- the pruned query mentions no removed name -----

  lemma {:induction false} AliasesAreWords(e: Expr)
    ensures Aliases(e) <= Words(Tokens(e)) && Unqualified(e) <= Words(Tokens(e))
    decreases e, 0
  {
    match e {
      case Col(_, _) => assert Tokens(e)[0] == Word(e.alias);
      case Name(_) => assert Tokens(e)[0] == Word(e.name);
      case Lit(_) =>
      case Cmp(_, l, r) => AliasesAreWords(l); AliasesAreWords(r);
      case And(l, r) => AliasesAreWords(l); AliasesAreWords(r);
      case Or(l, r) => AliasesAreWords(l); AliasesAreWords(r);
      case Not(x) => AliasesAreWords(x);
      case Paren(x) => AliasesAreWords(x);
      case Fn(_, args) => AllAliasesAreWords(args);
      case Agg(_, x) => AliasesAreWords(x);
    }
  }

  lemma {:induction false} AllAliasesAreWords(es: seq<Expr>)
    ensures AliasesAll(es) <= Words(TokensAll(es)) && UnqualifiedAll(es) <= Words(TokensAll(es))
    decreases es, 0
  {
    if es != [] { AliasesAreWords(es[0]); AllAliasesAreWords(es[1..]); }
  }

  lemma {:induction false} JoinsWords(js: seq<Join>, j: Join)
    requires j in js
    ensures j.alias in Words(JoinsTokens(js)) && (j.on.Some? ==> Aliases(j.on.value) <= Words(JoinsTokens(js)))
  {
    hide Aliases, Tokens;
    if j == js[0] {
      assert JoinTokens(j)[1] == Word(j.alias);
      if j.on.Some? { AliasesAreWords(j.on.value); }
    } else {
      JoinsWords(js[1..], j);
    }
  }

  lemma {:induction false} ItemWords(items: seq<Item>, item: Item)
    requires item in items
    ensures Words(ItemTokens(item)) <= Words(ItemsTokens(items))
  {
    if item != items[0] { ItemWords(items[1..], item); }
  }

  lemma {:induction false} ItemIsAvoided(item: Item, off: set<string>)
    requires Words(ItemTokens(item)) !! off && !item.Star?
    ensures ItemAvoids(item, off)
  {
    match item {
      case TableStar(x) => assert ItemTokens(item)[0] == Word(x);
      case Item(e, _) => AliasesAreWords(e);
    }
  }

  lemma {:induction false} OrderWords(order: seq<OrderKey>)
    ensures AliasesAll(OrderExprs(order)) + UnqualifiedAll(OrderExprs(order)) <= Words(OrderTokens(order))
  {
    if order != [] {
      var rest := OrderExprs(order[1..]);
      OrderWords(order[1..]);
      AliasesAreWords(order[0].e);
      assert OrderExprs(order)[1..] == rest;
    }
  }

  lemma {:induction false} KeptJoinsMembers(joins: seq<Join>, denied: set<string>, j: Join)
    ensures j in KeptJoins(joins, denied) <==> j in joins && !Denied(j, denied)
  {
    if joins != [] { KeptJoinsMembers(joins[1..], denied, j); }
  }

  lemma {:induction false} RemovedMembers(joins: seq<Join>, denied: set<string>, j: Join)
    requires Removed(joins, denied).Some?
    ensures j in Removed(joins, denied).value <==> j in joins && Denied(j, denied)
    ensures j in joins && Denied(j, denied) ==> j.kind.Left?
  {
    if joins != [] { RemovedMembers(joins[1..], denied, j); }
  }

  lemma {:induction false} KeptFirstItem(items: seq<Item>, names: set<string>)
    requires items != []
    ensures var kept, rest := KeptItems(items, names), KeptItems(items[1..], names);
      if MentionsAny(items[0], names) then kept == rest else kept != [] && kept[0] == items[0] && kept[1..] == rest
  {
    hide MentionsAny;
  }

  lemma {:induction false} NoKeptItem(names: set<string>)
    ensures KeptItems([], names) == []
  {
  }

  lemma {:induction false} KeptItemsMembers(items: seq<Item>, names: set<string>, c: Item)
    ensures c in KeptItems(items, names) <==> c in items && !MentionsAny(c, names)
  {
    if items != [] { KeptItemsMembers(items[1..], names, c); }
  }

  lemma {:induction false} PrunedParts(q: Query, denied: set<string>)
    requires Prune(q, denied).Some?
    ensures Removed(q.joins, denied).Some? && Star !in q.items
    ensures var p := Prune(q, denied).value;
      p == q.(items := KeptItems(q.items, RemovedNames(q, denied)), joins := KeptJoins(q.joins, denied))
  {
    hide Removed, Words, KeptItems, KeptJoins, DroppedNames, QueryTokens;
  }

  function RemovedNames(q: Query, denied: set<string>): set<string>
    requires Removed(q.joins, denied).Some?
  {
    Names(Removed(q.joins, denied).value)
  }

  lemma {:induction false} QueryWords(q: Query)
    ensures var all := Words(QueryTokens(q));
      && Words(ItemsTokens(q.items)) <= all && q.alias in all && Words(JoinsTokens(q.joins)) <= all
      && Words(Tokens(q.where)) <= all && Words(GroupingTokens(q.grouping)) <= all
      && Words(Tokens(q.having)) <= all && Words(OrderTokens(q.order)) <= all
  {
    hide ItemsTokens, JoinsTokens, Tokens, GroupingTokens, OrderTokens;
    assert Word(q.alias) in QueryTokens(q);
  }

  lemma {:induction false} GroupingWords(g: Grouping)
    ensures AliasesAll(GroupKeys(g)) + UnqualifiedAll(GroupKeys(g)) <= Words(GroupingTokens(g))
  {
    AllAliasesAreWords(GroupKeys(g));
  }

  /** A query without the words of `off` avoids them as aliases. */
  lemma {:induction false} WordsAvoid(q: Query, off: set<string>)
    requires Words(QueryTokens(q)) !! off && Star !in q.items
    ensures Avoids(q, off)
  {
    hide Words, QueryTokens, Aliases, AliasesAll, ItemAvoids;
    QueryWords(q);
    AliasesAreWords(q.where);
    AliasesAreWords(q.having);
    GroupingWords(q.grouping);
    OrderWords(q.order);
    forall j | j in q.joins ensures JoinAvoids(j, off) { JoinsWords(q.joins, j); }
    forall c | c in q.items ensures ItemAvoids(c, off) {
      ItemWords(q.items, c);
      ItemIsAvoided(c, off);
    }
  }

  lemma {:induction false} PrunedWords(q: Query, denied: set<string>)
    requires Prune(q, denied).Some?
    ensures Removed(q.joins, denied).Some?
    ensures var names, p := RemovedNames(q, denied), Prune(q, denied).value;
      Words(QueryTokens(p)) !! names && Words(QueryTokens(p)) !! DroppedNames(q.items, names) && Star !in p.items
  {
    hide Removed, Words, KeptItems, KeptJoins, DroppedNames, QueryTokens;
    KeptItemsMembers(q.items, RemovedNames(q, denied), Star);
  }

  /** What the last check of the program gives: once its names are resolved, the pruned query reads no removed row. */
  lemma {:induction false} PrunedIsClean(f: Functions, q: Query, denied: set<string>)
    requires Prune(q, denied).Some?
    ensures Removed(q.joins, denied).Some?
    ensures Avoids(Qualified(f, Prune(q, denied).value), RemovedNames(q, denied))
  {
    hide *;
    PrunedWords(q, denied);
    WordsAvoid(Prune(q, denied).value, RemovedNames(q, denied));
    QualifiedAvoids(f, Prune(q, denied).value, RemovedNames(q, denied));
  }

  // ----- which comparisons pass for a key lookup -----

  lemma {:induction false} CompareTokens(op: CmpOp, l: Expr, r: Expr)
    requires l.Col? && r.Col?
    ensures Tokens(Cmp(op, l, r))
         == [Word(l.alias), Sym("."), Word(l.column), Sym(OpText(op)), Word(r.alias), Sym("."), Word(r.column)]
  {
    hide OpText;
    assert Tokens(l) == [Word(l.alias), Sym("."), Word(l.column)];
    assert Tokens(r) == [Word(r.alias), Sym("."), Word(r.column)];
    assert Tokens(Cmp(op, l, r)) == Tokens(l) + [Sym(OpText(op))] + Tokens(r);
  }

  lemma {:induction false} KeyLeft(op: CmpOp, alias: string, other: Expr)
    requires other.Col? && other != Col(alias, "id")
    ensures ComparesKey(Tokens(Cmp(op, Col(alias, "id"), other)), alias) <==> op.Eq?
  {
    hide Tokens;
    var ts := Tokens(Cmp(op, Col(alias, "id"), other));
    CompareTokens(op, Col(alias, "id"), other);
    if op.Eq? { assert KeyAt(ts, 0, alias); }
    forall i | 0 <= i < |ts| && KeyAt(ts, i, alias) ensures i == 0 {
      assert ts[i..i + 3][0] == ts[i] && ts[i..i + 3][2] == ts[i + 2] && ts[i..i + 3][1] == ts[i + 1];
    }
  }

  lemma {:induction false} KeyAfterSign(op: CmpOp, other: Expr, alias: string)
    requires other.Col? && op in {Eq, Le, Ge, BangEq}
    ensures var start := [Word(other.alias), Sym("."), Word(other.column), Sym(OpText(op))];
      KeyAt(start + [Word(alias), Sym("."), Word("id")], 4, alias)
  {
    var start := [Word(other.alias), Sym("."), Word(other.column), Sym(OpText(op))];
    var ts := start + [Word(alias), Sym("."), Word("id")];
    assert ts[4..7] == [Word(alias), Sym("."), Word("id")] && ts[3] == Sym(OpText(op));
  }

  lemma {:induction false} KeyRight(op: CmpOp, alias: string, other: Expr)
    requires other.Col? && other != Col(alias, "id")
    ensures ComparesKey(Tokens(Cmp(op, other, Col(alias, "id"))), alias) <==> op in {Eq, Le, Ge, BangEq}
  {
    hide Tokens;
    var ts := Tokens(Cmp(op, other, Col(alias, "id")));
    CompareTokens(op, other, Col(alias, "id"));
    if op in {Eq, Le, Ge, BangEq} {
      KeyAfterSign(op, other, alias);
      assert ts == [Word(other.alias), Sym("."), Word(other.column), Sym(OpText(op))]
                   + [Word(alias), Sym("."), Word("id")];
    }
    forall i | 0 <= i < |ts| && KeyAt(ts, i, alias) ensures i == 4 {
      assert ts[i..i + 3][0] == ts[i] && ts[i..i + 3][2] == ts[i + 2] && ts[i..i + 3][1] == ts[i + 1];
    }
  }

  /** The key on the left passes with `=` alone; on the right also with `<=`, `>=` and `!=`, which find other rows. */
  lemma {:induction false} KeyTestIff(op: CmpOp, alias: string, other: Expr)
    requires other.Col? && other.alias != alias
    ensures ComparesKey(Tokens(Cmp(op, Col(alias, "id"), other)), alias)
      <==> KeyLookup(Cmp(op, Col(alias, "id"), other), alias)
    ensures ComparesKey(Tokens(Cmp(op, other, Col(alias, "id"))), alias)
      <==> KeyLookup(Cmp(op, other, Col(alias, "id")), alias) || op in {Le, Ge, BangEq}
  {
    hide ComparesKey, Tokens;
    KeyLeft(op, alias, other);
    KeyRight(op, alias, other);
  }

  // ----- which queries are pruned -----

  /** `x` is the alias or the table of a denied join. */
  predicate DeniedName(q: Query, denied: set<string>, x: string) {
    exists j :: j in q.joins && Denied(j, denied) && (x == j.alias || x == j.table)
  }

  /** A selected expression that names one. */
  predicate NamesDenied(q: Query, denied: set<string>, item: Item) {
    exists x :: x in Words(ItemTokens(item)) && DeniedName(q, denied, x)
  }

  /** A word that may not be left: the name of a denied join, or one given with AS to an expression that names one. */
  predicate Forbidden(q: Query, denied: set<string>, x: string) {
    DeniedName(q, denied, x)
    || exists c :: c in q.items && NamesDenied(q, denied, c) && c.Item? && c.naming == As(x)
  }

  /** A word of FROM, of the other joins, of the other selected expressions, or of a clause after them. */
  predicate Left(q: Query, denied: set<string>, x: string) {
    || x == q.table || x == q.alias
    || (exists c :: c in q.items && !NamesDenied(q, denied, c) && x in Words(ItemTokens(c)))
    || (exists j :: j in q.joins && !Denied(j, denied) && x in Words(JoinTokens(j)))
    || x in Words(Tokens(q.where)) || x in Words(GroupingTokens(q.grouping)) || x in Words(Tokens(q.having))
    || x in Words(OrderTokens(q.order))
  }

  ghost predicate Prunable(q: Query, denied: set<string>) {
    && (exists j :: j in q.joins && Denied(j, denied))
    && (forall j :: j in q.joins && Denied(j, denied) ==> j.kind.Left? && ComparesKey(Tokens(j.on.value), j.alias))
    && Star !in q.items && (exists c :: c in q.items && !NamesDenied(q, denied, c))
    && (forall x :: Left(q, denied, x) ==> !Forbidden(q, denied, x))
  }

  lemma {:induction false} RemovedIff(joins: seq<Join>, denied: set<string>)
    ensures Removed(joins, denied).Some? <==> forall j ::
        j in joins && Denied(j, denied) ==> j.kind.Left? && ComparesKey(Tokens(j.on.value), j.alias)
    ensures Removed(joins, denied).Some?
      ==> (Removed(joins, denied).value != [] <==> exists j :: j in joins && Denied(j, denied))
  {
    hide ComparesKey, Tokens;
    if joins != [] {
      RemovedIff(joins[1..], denied);
      assert joins == [joins[0]] + joins[1..];
      if Removed(joins, denied).Some? && Removed(joins, denied).value != [] {
        var r := Removed(joins, denied).value;
        RemovedMembers(joins, denied, r[0]);
      }
    }
  }

  lemma {:induction false} DeniedNames(q: Query, denied: set<string>, x: string)
    requires Removed(q.joins, denied).Some?
    ensures x in RemovedNames(q, denied) <==> DeniedName(q, denied, x)
  {
    hide Removed;
    var removed := Removed(q.joins, denied).value;
    forall j ensures j in removed <==> j in q.joins && Denied(j, denied) { RemovedMembers(q.joins, denied, j); }
  }

  lemma {:induction false} MentionsDenied(q: Query, denied: set<string>, item: Item)
    requires Removed(q.joins, denied).Some?
    ensures MentionsAny(item, RemovedNames(q, denied)) <==> NamesDenied(q, denied, item)
  {
    hide Removed, Names, Words, ItemTokens, DeniedName;
    forall x ensures x in RemovedNames(q, denied) <==> DeniedName(q, denied, x) { DeniedNames(q, denied, x); }
  }

  lemma {:induction false} DroppedNamesAre(items: seq<Item>, names: set<string>, x: string)
    ensures x in DroppedNames(items, names)
      <==> exists c :: c in items && MentionsAny(c, names) && c.Item? && c.naming == As(x)
  {
    hide MentionsAny;
    if items != [] {
      DroppedNamesAre(items[1..], names, x);
      assert items == [items[0]] + items[1..];
    }
  }

  lemma {:induction false} ForbiddenWords(q: Query, denied: set<string>, x: string)
    requires Removed(q.joins, denied).Some?
    ensures x in RemovedNames(q, denied) + DroppedNames(q.items, RemovedNames(q, denied)) <==> Forbidden(q, denied, x)
  {
    hide Removed, Names, MentionsAny, NamesDenied, DeniedName, DroppedNames;
    DeniedNames(q, denied, x);
    DroppedNamesAre(q.items, RemovedNames(q, denied), x);
    forall c ensures MentionsAny(c, RemovedNames(q, denied)) <==> NamesDenied(q, denied, c) {
      MentionsDenied(q, denied, c);
    }
  }

  lemma {:induction false} WordsOfItems(items: seq<Item>, x: string)
    ensures x in Words(ItemsTokens(items)) <==> exists c :: c in items && x in Words(ItemTokens(c))
  {
    hide ItemTokens;
    if items != [] {
      WordsOfItems(items[1..], x);
      WordsAdd(ItemTokens(items[0]), ItemsTokens(items[1..]));
      hide Words;
      assert items == [items[0]] + items[1..];
    }
  }

  lemma {:induction false} WordsAdd(a: seq<Token>, b: seq<Token>)
    ensures Words(a + b) == Words(a) + Words(b)
  {
    assert forall t :: t in a + b <==> t in a || t in b;
  }

  lemma {:induction false} WordsOfJoins(joins: seq<Join>, x: string)
    ensures x in Words(JoinsTokens(joins)) <==> exists j :: j in joins && x in Words(JoinTokens(j))
  {
    hide JoinTokens;
    if joins != [] {
      WordsOfJoins(joins[1..], x);
      WordsAdd(JoinTokens(joins[0]), JoinsTokens(joins[1..]));
      hide Words;
      assert joins == [joins[0]] + joins[1..];
    }
  }

  lemma {:induction false} WordsOfQuery(q: Query, x: string)
    ensures x in Words(QueryTokens(q)) <==>
            || x == q.table || x == q.alias || x in Words(ItemsTokens(q.items)) || x in Words(JoinsTokens(q.joins))
            || x in Words(Tokens(q.where)) || x in Words(GroupingTokens(q.grouping)) || x in Words(Tokens(q.having))
            || x in Words(OrderTokens(q.order))
  {
    hide ItemsTokens, JoinsTokens, Tokens, GroupingTokens, OrderTokens;
    var from := [Word(q.table), Word(q.alias)];
    assert from[0] == Word(q.table) && from[1] == Word(q.alias);
    assert x in Words(from) <==> x == q.table || x == q.alias;
    var a := ItemsTokens(q.items) + from + JoinsTokens(q.joins);
    var b := Tokens(q.where) + GroupingTokens(q.grouping) + Tokens(q.having) + OrderTokens(q.order);
    assert QueryTokens(q) == a + b;
    WordsAdd(a, b);
    WordsAdd(ItemsTokens(q.items) + from, JoinsTokens(q.joins));
    WordsAdd(ItemsTokens(q.items), from);
    WordsAdd(Tokens(q.where) + GroupingTokens(q.grouping) + Tokens(q.having), OrderTokens(q.order));
    WordsAdd(Tokens(q.where) + GroupingTokens(q.grouping), Tokens(q.having));
    WordsAdd(Tokens(q.where), GroupingTokens(q.grouping));
  }

  lemma {:induction false} LeftWords(q: Query, denied: set<string>, x: string)
    requires Removed(q.joins, denied).Some?
    ensures var p := q.(items := KeptQueryItems(q, denied), joins := KeptJoins(q.joins, denied));
      x in Words(QueryTokens(p)) <==> Left(q, denied, x)
  {
    hide Removed, Names, Words, ItemTokens, JoinTokens, Tokens, GroupingTokens, OrderTokens, QueryTokens, KeptItems;
    hide KeptJoins, NamesDenied, MentionsAny, Denied;
    var p := q.(items := KeptQueryItems(q, denied), joins := KeptJoins(q.joins, denied));
    WordsOfQuery(p, x);
    WordsOfItems(p.items, x);
    WordsOfJoins(p.joins, x);
    forall c ensures c in p.items <==> c in q.items && !NamesDenied(q, denied, c) {
      KeptItemsMembers(q.items, RemovedNames(q, denied), c);
      MentionsDenied(q, denied, c);
    }
    forall j ensures j in p.joins <==> j in q.joins && !Denied(j, denied) { KeptJoinsMembers(q.joins, denied, j); }
  }

  /**
   A query is pruned exactly when a join with ON is to a denied table, each such join is LEFT and compares its
   key, there is no `*`, a selected expression names none of them, and no word that is left is a name that goes.
   */
  lemma {:induction false} PrunedIff(q: Query, denied: set<string>)
    ensures Prune(q, denied).Some? <==> Prunable(q, denied)
  {
    hide Removed, Words, ItemTokens, QueryTokens, KeptItems, KeptJoins, DroppedNames, Left, Forbidden;
    hide ComparesKey, Tokens, Denied;
    RemovedIff(q.joins, denied);
    if Removed(q.joins, denied).Some? {
      hide Names, NamesDenied, MentionsAny;
      var names, kept := RemovedNames(q, denied), KeptQueryItems(q, denied);
      var p := q.(items := kept, joins := KeptJoins(q.joins, denied));
      forall c ensures c in kept <==> c in q.items && !NamesDenied(q, denied, c) {
        KeptItemsMembers(q.items, names, c);
        MentionsDenied(q, denied, c);
      }
      if kept != [] { assert kept[0] in kept; }
      forall x
        ensures x in Words(QueryTokens(p)) <==> Left(q, denied, x)
        ensures x in names + DroppedNames(q.items, names) <==> Forbidden(q, denied, x)
      {
        LeftWords(q, denied, x);
        ForbiddenWords(q, denied, x);
      }
      PruneIs(q, denied);
    }
  }

  lemma {:induction false} PruneIs(q: Query, denied: set<string>)
    requires Removed(q.joins, denied).Some?
    ensures var p := q.(items := KeptQueryItems(q, denied), joins := KeptJoins(q.joins, denied));
      var names := RemovedNames(q, denied);
      Prune(q, denied).Some? <==> Removed(q.joins, denied).value != [] && Star !in q.items && p.items != []
                                  && Words(QueryTokens(p)) !! names + DroppedNames(q.items, names)
  {
    hide Removed, Words, QueryTokens, KeptItems, KeptJoins, DroppedNames;
  }

  // ----- columns -----

  /** The cells of the kept columns. */
  function KeptCells(items: seq<Item>, row: seq<Cell>, names: set<string>): seq<Cell> {
    if items == [] || row == [] then []
    else (if MentionsAny(items[0], names) then [] else [row[0]]) + KeptCells(items[1..], row[1..], names)
  }

  function KeptRows(items: seq<Item>, rows: seq<seq<Cell>>, names: set<string>): (r: seq<seq<Cell>>)
    ensures |r| == |rows| && forall i :: 0 <= i < |r| ==> r[i] == KeptCells(items, rows[i], names)
  {
    if rows == [] then [] else [KeptCells(items, rows[0], names)] + KeptRows(items, rows[1..], names)
  }

  lemma {:induction false} CellAgree(f: Functions, item: Item, a: seq<Env>, b: seq<Env>, off: set<string>)
    requires AgreeAll(a, b, off) && ItemAvoids(item, off)
    ensures CellOf(f, item, a) == CellOf(f, item, b)
  {
    if item.Item? { EvalAgree(f, item.e, a, b, off); }
  }

  function QualifyItem(s: Scope, item: Item): Item {
    if item.Item? then item.(e := Qualify(s, item.e)) else item
  }

  lemma {:induction false} ItemsFirst(s: Scope, items: seq<Item>)
    requires items != []
    ensures QualifyItems(s, items) == [QualifyItem(s, items[0])] + QualifyItems(s, items[1..])
  {
  }

  lemma {:induction false} CellsFirst(f: Functions, item: Item, items: seq<Item>, g: seq<Env>)
    ensures Cells(f, [item] + items, g) == [CellOf(f, item, g)] + Cells(f, items, g)
  {
    assert ([item] + items)[1..] == items;
  }

  lemma {:induction false} KeptFirstCell(items: seq<Item>, cell: Cell, row: seq<Cell>, names: set<string>)
    requires items != []
    ensures KeptCells(items, [cell] + row, names)
         == (if MentionsAny(items[0], names) then [] else [cell]) + KeptCells(items[1..], row, names)
  {
    hide MentionsAny;
    assert ([cell] + row)[1..] == row;
  }

  lemma {:induction false} CellsAgree(f: Functions, s: Scope, items: seq<Item>, a: seq<Env>, b: seq<Env>,
          names: set<string>)
    requires AgreeAll(a, b, names)
    requires forall c :: c in QualifyItems(s, KeptItems(items, names)) ==> ItemAvoids(c, names)
    ensures KeptCells(items, Cells(f, QualifyItems(s, items), a), names)
      == Cells(f, QualifyItems(s, KeptItems(items, names)), b)
  {
    hide AgreeAll, MentionsAny, KeptCells, KeptItems, Cells, QualifyItems, ItemAvoids;
    if items == [] {
      NoCells(f, s, a, b, names);
    } else {
      var first, rest := QualifyItem(s, items[0]), items[1..];
      ItemsFirst(s, items);
      CellsFirst(f, first, QualifyItems(s, rest), a);
      KeptFirstCell(items, CellOf(f, first, a), Cells(f, QualifyItems(s, rest), a), names);
      KeptFirstItem(items, names);
      if !MentionsAny(items[0], names) {
        var kept := KeptItems(items, names);
        ItemsFirst(s, kept);
        assert first in QualifyItems(s, kept);
        CellAgree(f, first, a, b, names);
        CellsFirst(f, first, QualifyItems(s, KeptItems(rest, names)), b);
        CellsAgree(f, s, rest, a, b, names);
      } else {
        CellsAgree(f, s, rest, a, b, names);
      }
    }
  }

  lemma {:induction false} NoCells(f: Functions, s: Scope, a: seq<Env>, b: seq<Env>, names: set<string>)
    ensures KeptCells([], Cells(f, QualifyItems(s, []), a), names) == Cells(f, QualifyItems(s, KeptItems([], names)), b)
  {
  }

  lemma {:induction false} ProjectAgree(f: Functions, s: Scope, items: seq<Item>, a: seq<seq<Env>>, b: seq<seq<Env>>,
          names: set<string>)
    requires AgreeGroups(a, b, names)
    requires forall c :: c in QualifyItems(s, KeptItems(items, names)) ==> ItemAvoids(c, names)
    ensures KeptRows(items, Project(f, QualifyItems(s, items), a), names)
      == Project(f, QualifyItems(s, KeptItems(items, names)), b)
  {
    hide AgreeAll, KeptCells, Cells, QualifyItems, KeptItems, ItemAvoids;
    if a != [] {
      CellsAgree(f, s, items, a[0], b[0], names);
      ProjectAgree(f, s, items, a[1..], b[1..], names);
      assert Project(f, QualifyItems(s, items), a)[1..] == Project(f, QualifyItems(s, items), a[1..]);
    }
  }

  // ----- the names of the pruned query -----

  /** The tables that have a column `n`, among the kept ones of `joins`. */
  function KeptOwners(f: Functions, q: Query, denied: set<string>, joins: seq<Join>, n: string): seq<string> {
    Owners(f, q, KeptJoins(joins, denied), n)
  }

  lemma {:induction false} NoOwners(f: Functions, denied: set<string>, n: string)
    ensures JoinOwners(f, [], n) == [] && KeptJoins([], denied) == []
  {
  }

  lemma {:induction false} OwnersFirst(f: Functions, joins: seq<Join>, n: string)
    requires joins != []
    ensures JoinOwners(f, joins, n)
      == (if n in f.columns(joins[0].table) then [joins[0].alias] else []) + JoinOwners(f, joins[1..], n)
  {
  }

  /** A name that stands for a column stands for the same one, or for none. */
  lemma {:induction false} KeptJoinOwners(f: Functions, joins: seq<Join>, denied: set<string>, n: string)
    ensures var all, kept := JoinOwners(f, joins, n), JoinOwners(f, KeptJoins(joins, denied), n);
      |kept| <= |all| && (|all| == 1 && kept != [] ==> kept == all)
  {
    hide KeptJoins, JoinOwners;
    if joins == [] {
      NoOwners(f, denied, n);
    } else {
      var kept := KeptJoins(joins, denied);
      KeptJoinOwners(f, joins[1..], denied, n);
      KeptFirst(joins, denied);
      OwnersFirst(f, joins, n);
      if kept != [] { OwnersFirst(f, kept, n); }
    }
  }

  lemma {:induction false} ColumnKept(f: Functions, q: Query, joins: seq<Join>, denied: set<string>, n: string)
    ensures |KeptOwners(f, q, denied, joins, n)| <= |Owners(f, q, joins, n)|
    ensures Column(f, q, joins, n).Some?
      ==> Column(f, q, KeptJoins(joins, denied), n)
          == if KeptOwners(f, q, denied, joins, n) == [] then None else Column(f, q, joins, n)
  {
    hide JoinOwners, KeptJoins;
    KeptJoinOwners(f, joins, denied, n);
  }

  /** Only the table, its alias and the joins decide what is a column. */
  lemma {:induction false} PrunedColumn(f: Functions, q: Query, denied: set<string>, joins: seq<Join>, n: string)
    requires Prune(q, denied).Some?
    ensures Owners(f, Prune(q, denied).value, joins, n) == Owners(f, q, joins, n)
    ensures Column(f, Prune(q, denied).value, joins, n) == Column(f, q, joins, n)
  {
    hide JoinOwners, Prune;
    PrunedParts(q, denied);
  }

  function KeptQueryItems(q: Query, denied: set<string>): seq<Item>
    requires Removed(q.joins, denied).Some?
  {
    KeptItems(q.items, RemovedNames(q, denied))
  }

  function GroupNames(q: Query): set<string> {
    UnqualifiedAll(GroupKeys(q.grouping))
  }

  function OrderNames(q: Query): set<string> {
    UnqualifiedAll(OrderExprs(q.order))
  }

  /** The names of HAVING and ORDER BY. */
  function ResultNames(q: Query): set<string> {
    Unqualified(q.having) + OrderNames(q)
  }

  /** The names of columns: in the kept expressions, in WHERE, and in the aggregates of HAVING. */
  function ColumnNames(q: Query, denied: set<string>): set<string>
    requires Removed(q.joins, denied).Some?
  {
    ItemNames(KeptQueryItems(q, denied)) + Unqualified(q.where) + Inside(q.having)
  }

  /** The selected expressions of that name. */
  function SelectedAs(f: Functions, q: Query, items: seq<Item>, n: string): seq<Expr> {
    Named(ColumnScope(f, q, q.joins), items, n)
  }

  /** A kept expression, WHERE or an aggregate of HAVING uses a column that no kept table has. */
  predicate LosesColumn(f: Functions, q: Query, denied: set<string>)
    requires Removed(q.joins, denied).Some?
  {
    exists n :: n in ColumnNames(q, denied) && KeptOwners(f, q, denied, q.joins, n) == []
  }

  /** The ON clause of a kept join does, among the tables joined so far. */
  predicate LosesOnColumn(f: Functions, q: Query, denied: set<string>, before: seq<Join>, joins: seq<Join>)
    decreases |joins|
  {
    joins != []
    && (|| (!Denied(joins[0], denied)
            && exists n :: n in OnNames(joins[0]) && KeptOwners(f, q, denied, before + [joins[0]], n) == [])
        || LosesOnColumn(f, q, denied, before + [joins[0]], joins[1..]))
  }

  /** No kept table has the column, and the kept expressions of that name are none, or differ. */
  predicate GroupNameLost(f: Functions, q: Query, denied: set<string>, n: string)
    requires Removed(q.joins, denied).Some?
  {
    KeptOwners(f, q, denied, q.joins, n) == [] && !OneMeaning(SelectedAs(f, q, KeptQueryItems(q, denied), n))
  }

  /** No kept expression has the name, and no kept table has the column, or several have. */
  predicate ResultNameLost(f: Functions, q: Query, denied: set<string>, n: string)
    requires Removed(q.joins, denied).Some?
  {
    SelectedAs(f, q, KeptQueryItems(q, denied), n) == [] && |KeptOwners(f, q, denied, q.joins, n)| != 1
  }

  /** What a name of GROUP BY stands for among the kept tables and expressions. */
  function KeptGroupName(f: Functions, q: Query, denied: set<string>, n: string): Option<Expr>
    requires Removed(q.joins, denied).Some?
  {
    var named := SelectedAs(f, q, KeptQueryItems(q, denied), n);
    if KeptOwners(f, q, denied, q.joins, n) != [] then Column(f, q, KeptJoins(q.joins, denied), n)
    else if OneMeaning(named) then Some(named[0]) else None
  }

  function KeptGroupScope(f: Functions, q: Query, denied: set<string>): Scope
    requires Removed(q.joins, denied).Some?
  {
    n => KeptGroupName(f, q, denied, n)
  }

  /** The grouping keys, when their names stand for that. */
  function KeptKeys(f: Functions, q: Query, denied: set<string>): seq<Expr>
    requires Removed(q.joins, denied).Some?
  {
    QualifyAll(KeptGroupScope(f, q, denied), GroupKeys(q.grouping))
  }

  function KeptSelection(f: Functions, q: Query, denied: set<string>): seq<Item>
    requires Removed(q.joins, denied).Some?
  {
    QualifyItems(ColumnScope(f, q, q.joins), KeptQueryItems(q, denied))
  }

  /** What the kept expressions show under that name. */
  function KeptShown(f: Functions, q: Query, denied: set<string>, n: string): seq<Expr>
    requires Removed(q.joins, denied).Some?
  {
    var items := KeptQueryItems(q, denied);
    SelectedAs(f, q, items, n) + StarColumns(items, KeptOwners(f, q, denied, q.joins, n), n)
  }

  /**
   A name of HAVING is that of no kept expression, or of several that differ, and of no grouping key; or
   a column of HAVING is neither a kept expression nor a grouping key.
   */
  predicate HavingLost(f: Functions, q: Query, denied: set<string>, x: Expr)
    requires Removed(q.joins, denied).Some?
  {
    match x
    case Name(n) =>
      var found := InSelection(KeptShown(f, q, denied, n), KeptSelection(f, q, denied), n);
      var keys := ColumnsNamed(KeptKeys(f, q, denied), n);
      (found == [] && keys == []) || (found != [] && !OneMeaning(found)) || (keys != [] && !OneMeaning(keys))
    case Col(_, _) => !HavingColumn(KeptSelection(f, q, denied), KeptKeys(f, q, denied), x)
    case _ => false
  }

  predicate LosesName(f: Functions, q: Query, denied: set<string>)
    requires Removed(q.joins, denied).Some?
  {
    || LosesColumn(f, q, denied)
    || LosesOnColumn(f, q, denied, [], q.joins)
    || (exists n :: n in GroupNames(q) && GroupNameLost(f, q, denied, n))
    || (exists x :: x in References(q.having) && HavingLost(f, q, denied, x))
    || (exists n :: n in OrderNames(q) && ResultNameLost(f, q, denied, n))
  }

  lemma {:induction false} KeptItemNames(items: seq<Item>, names: set<string>)
    ensures ItemNames(KeptItems(items, names)) <= ItemNames(items)
  {
    hide MentionsAny, Unqualified, KeptItems;
    if items == [] {
      NoKeptItem(names);
    } else {
      KeptFirstItem(items, names);
      KeptItemNames(items[1..], names);
    }
  }

  lemma {:induction false} KeptNamed(s: Scope, items: seq<Item>, names: set<string>, n: string)
    ensures forall e :: e in Named(s, KeptItems(items, names), n) ==> e in Named(s, items, n)
  {
    hide MentionsAny, Qualify, KeptItems;
    if items == [] {
      NoKeptItem(names);
    } else {
      KeptFirstItem(items, names);
      KeptNamed(s, items[1..], names, n);
    }
  }

  lemma {:induction false} OneMeaningOf(some: seq<Expr>, all: seq<Expr>)
    requires OneMeaning(all) && forall e :: e in some ==> e in all
    ensures some != [] ==> OneMeaning(some) && some[0] == all[0]
  {
    if some != [] { assert some[0] in some; }
  }

  lemma {:induction false} KeptQueryNames(q: Query, denied: set<string>)
    requires Removed(q.joins, denied).Some?
    ensures ItemNames(KeptQueryItems(q, denied)) <= ItemNames(q.items)
  {
    KeptItemNames(q.items, RemovedNames(q, denied));
  }

  /** The columns in the kept expressions, in WHERE and in the aggregates of HAVING. */
  lemma {:induction false} KeptColumns(f: Functions, q: Query, denied: set<string>, n: string)
    requires Prune(q, denied).Some? && Resolves(f, q)
    ensures Removed(q.joins, denied).Some?
    ensures n in ColumnNames(q, denied)
      ==> ColumnScope(f, Prune(q, denied).value, KeptJoins(q.joins, denied))(n)
          == if KeptOwners(f, q, denied, q.joins, n) == [] then None else ColumnScope(f, q, q.joins)(n)
  {
    hide Prune, Column, KeptOwners, KeptItems, ItemNames, Unqualified, JoinsResolve, Inside, References, HavingRefers;
    PrunedParts(q, denied);
    KeptItemNames(q.items, RemovedNames(q, denied));
    ColumnKept(f, q, q.joins, denied, n);
    PrunedColumn(f, q, denied, KeptJoins(q.joins, denied), n);
    if n in ColumnNames(q, denied) {
      assert n in ItemNames(q.items) + Unqualified(q.where) + Inside(q.having);
      assert ColumnScope(f, q, q.joins)(n).Some?;
    }
  }

  /** What the kept expressions, WHERE and the aggregates of HAVING say of the original, when no column is lost. */
  lemma {:induction false} KeptExpressions(f: Functions, q: Query, denied: set<string>)
    requires Prune(q, denied).Some? && Resolves(f, q)
    ensures Removed(q.joins, denied).Some?
    ensures var s := ColumnScope(f, Prune(q, denied).value, KeptJoins(q.joins, denied));
      Found(s, ItemNames(KeptQueryItems(q, denied))) && Found(s, Unqualified(q.where)) && Found(s, Inside(q.having))
      <==> !LosesColumn(f, q, denied)
    ensures var s, t := ColumnScope(f, Prune(q, denied).value, KeptJoins(q.joins, denied)), ColumnScope(f, q, q.joins);
      !LosesColumn(f, q, denied)
      ==> && (forall n :: Named(s, KeptQueryItems(q, denied), n) == SelectedAs(f, q, KeptQueryItems(q, denied), n))
          && QualifyItems(s, KeptQueryItems(q, denied)) == QualifyItems(t, KeptQueryItems(q, denied))
          && Qualify(s, q.where) == Qualify(t, q.where) && (forall n :: n in Inside(q.having) ==> s(n) == t(n))
  {
    hide Prune, Column, ColumnScope, KeptOwners, KeptQueryItems, ItemNames, Unqualified, Named, QualifyItems, Qualify;
    hide Removed, Inside;
    PrunedParts(q, denied);
    var items, s := KeptQueryItems(q, denied), ColumnScope(f, Prune(q, denied).value, KeptJoins(q.joins, denied));
    var t := ColumnScope(f, q, q.joins);
    forall n | n in ColumnNames(q, denied)
      ensures s(n) == if KeptOwners(f, q, denied, q.joins, n) == [] then None else t(n)
      ensures t(n).Some?
    {
      KeptColumns(f, q, denied, n);
      KeptQueryNames(q, denied);
    }
    if !LosesColumn(f, q, denied) {
      forall n ensures Named(s, items, n) == Named(t, items, n) { NamedSame(s, t, items, n); }
      NamedSame(s, t, items, "");
      QualifySame(s, t, q.where);
    }
  }

  lemma {:induction false} KeptAppend(a: seq<Join>, b: seq<Join>, denied: set<string>)
    ensures KeptJoins(a + b, denied) == KeptJoins(a, denied) + KeptJoins(b, denied)
  {
    if a == [] {
      assert a + b == b;
    } else {
      assert (a + b)[1..] == a[1..] + b;
      KeptAppend(a[1..], b, denied);
    }
  }

  /** The tables joined so far, when one more join is kept or dropped. */
  lemma {:induction false} KeptSeen(before: seq<Join>, j: Join, denied: set<string>)
    ensures KeptJoins(before + [j], denied) == KeptJoins(before, denied) + (if Denied(j, denied) then [] else [j])
  {
    KeptAppend(before, [j], denied);
    assert [j][1..] == [];
    assert KeptJoins([j], denied) == (if Denied(j, denied) then [] else [j]) + KeptJoins([], denied);
  }

  lemma {:induction false} OnKept(f: Functions, q: Query, denied: set<string>, seen: seq<Join>, j: Join)
    requires Prune(q, denied).Some? && Found(ColumnScope(f, q, seen), OnNames(j))
    ensures var s, t := ColumnScope(f, Prune(q, denied).value, KeptJoins(seen, denied)), ColumnScope(f, q, seen);
      && (Found(s, OnNames(j)) <==> forall n :: n in OnNames(j) ==> KeptOwners(f, q, denied, seen, n) != [])
      && (Found(s, OnNames(j)) && j.on.Some? ==> Qualify(s, j.on.value) == Qualify(t, j.on.value))
  {
    hide Prune, Column, KeptOwners, Unqualified, Qualify;
    var s, t := ColumnScope(f, Prune(q, denied).value, KeptJoins(seen, denied)), ColumnScope(f, q, seen);
    forall n | n in OnNames(j) ensures s(n) == if KeptOwners(f, q, denied, seen, n) == [] then None else t(n) {
      ColumnKept(f, q, seen, denied, n);
      PrunedColumn(f, q, denied, KeptJoins(seen, denied), n);
    }
    if Found(s, OnNames(j)) && j.on.Some? { QualifySame(s, t, j.on.value); }
  }

  lemma {:induction false} LosesOnFirst(f: Functions, q: Query, denied: set<string>, before: seq<Join>,
          joins: seq<Join>)
    requires joins != []
    ensures var j, seen := joins[0], before + [joins[0]];
      LosesOnColumn(f, q, denied, before, joins)
      <==> (!Denied(j, denied) && exists n :: n in OnNames(j) && KeptOwners(f, q, denied, seen, n) == [])
           || LosesOnColumn(f, q, denied, seen, joins[1..])
  {
    hide KeptOwners, OnNames;
  }

  lemma {:induction false} JoinsResolveFirst(f: Functions, q: Query, before: seq<Join>, joins: seq<Join>)
    requires joins != []
    ensures var j, seen := joins[0], before + [joins[0]];
      && (JoinsResolve(f, q, before, joins)
        <==> Found(ColumnScope(f, q, seen), OnNames(j)) && JoinsResolve(f, q, seen, joins[1..]))
      && QualifyJoins(f, q, before, joins)
        == [QualifyJoin(ColumnScope(f, q, seen), j)] + QualifyJoins(f, q, seen, joins[1..])
  {
    hide Found, OnNames, Qualify;
  }

  function QualifyJoin(s: Scope, j: Join): Join {
    if j.on.Some? then j.(on := Some(Qualify(s, j.on.value))) else j
  }

  /** The kept joins find their columns unless one is lost, and then they are the kept ones of the original. */
  lemma {:induction false} OnsKept(f: Functions, q: Query, denied: set<string>, before: seq<Join>, joins: seq<Join>)
    requires Prune(q, denied).Some? && JoinsResolve(f, q, before, joins)
    ensures var p := Prune(q, denied).value;
      && (JoinsResolve(f, p, KeptJoins(before, denied), KeptJoins(joins, denied))
        <==> !LosesOnColumn(f, q, denied, before, joins))
      && (!LosesOnColumn(f, q, denied, before, joins)
          ==> (QualifyJoins(f, p, KeptJoins(before, denied), KeptJoins(joins, denied))
               == KeptJoins(QualifyJoins(f, q, before, joins), denied)))
    decreases |joins|
  {
    hide Prune, Found, OnNames, Qualify, KeptOwners, ColumnScope, LosesOnColumn, JoinsResolve, QualifyJoins, KeptJoins;
    var p := Prune(q, denied).value;
    if joins == [] {
      NoOns(f, q, p, denied, before);
    } else {
      var j, seen, rest := joins[0], before + [joins[0]], joins[1..];
      JoinsResolveFirst(f, q, before, joins);
      LosesOnFirst(f, q, denied, before, joins);
      OnsKept(f, q, denied, seen, rest);
      KeptFirst(joins, denied);
      KeptSeen(before, j, denied);
      var qualified := QualifyJoin(ColumnScope(f, q, seen), j);
      KeptFirst([qualified] + QualifyJoins(f, q, seen, rest), denied);
      assert ([qualified] + QualifyJoins(f, q, seen, rest))[1..] == QualifyJoins(f, q, seen, rest);
      if Denied(j, denied) {
        assert KeptJoins(before, denied) + [] == KeptJoins(before, denied);
      } else {
        OnKept(f, q, denied, seen, j);
        JoinsResolveFirst(f, p, KeptJoins(before, denied), KeptJoins(joins, denied));
      }
    }
  }

  lemma {:induction false} NoOns(f: Functions, q: Query, p: Query, denied: set<string>, before: seq<Join>)
    ensures JoinsResolve(f, p, KeptJoins(before, denied), KeptJoins([], denied))
    ensures !LosesOnColumn(f, q, denied, before, [])
    ensures QualifyJoins(f, p, KeptJoins(before, denied), KeptJoins([], denied))
      == KeptJoins(QualifyJoins(f, q, before, []), denied)
  {
  }

  /** Only tables that pruning removes have the column: GROUP BY takes a kept expression of that name instead. */
  predicate GroupNameMoves(f: Functions, q: Query, denied: set<string>, n: string) {
    Owners(f, q, q.joins, n) != [] && KeptOwners(f, q, denied, q.joins, n) == []
  }

  /** It is no grouping key, and only dropped columns show it: HAVING takes a kept column with another name instead. */
  predicate HavingNameMoves(f: Functions, q: Query, denied: set<string>, n: string)
    requires Removed(q.joins, denied).Some?
  {
    ColumnsNamed(Keys(f, q), n) == [] && Shown(f, q, n) != [] && KeptShown(f, q, denied, n) == []
  }

  /** Only dropped expressions have the name: ORDER BY takes a column instead. */
  predicate ResultNameMoves(f: Functions, q: Query, denied: set<string>, n: string)
    requires Removed(q.joins, denied).Some?
  {
    SelectedAs(f, q, q.items, n) != [] && SelectedAs(f, q, KeptQueryItems(q, denied), n) == []
  }

  /** No name of GROUP BY, HAVING and ORDER BY stands for something else without the removed joins. */
  predicate KeepsNames(f: Functions, q: Query, denied: set<string>)
    requires Removed(q.joins, denied).Some?
  {
    && (forall n :: n in GroupNames(q) ==> !GroupNameMoves(f, q, denied, n))
    && (forall x :: x in References(q.having) && x.Name? ==> !HavingNameMoves(f, q, denied, x.name))
    && (forall n :: n in OrderNames(q) ==> !ResultNameMoves(f, q, denied, n))
  }

  /** There are grouping keys, or no aggregate, or one is left: without keys, aggregates make all rows one group. */
  predicate KeepsAggregate(q: Query, denied: set<string>)
    requires Removed(q.joins, denied).Some?
  {
    q.grouping.By? || !Aggregates(q) || Aggregates(q.(items := KeptQueryItems(q, denied)))
  }

  /** GROUP BY, HAVING and ORDER BY mean the same without the removed joins, and so does a lack of GROUP BY. */
  predicate KeepsMeaning(f: Functions, q: Query, denied: set<string>)
    requires Removed(q.joins, denied).Some?
  {
    KeepsNames(f, q, denied) && KeepsAggregate(q, denied)
  }

  lemma {:induction false} SelectedKept(f: Functions, q: Query, denied: set<string>, n: string)
    requires Prune(q, denied).Some? && Resolves(f, q) && !LosesColumn(f, q, denied)
    ensures Removed(q.joins, denied).Some?
    ensures var p := Prune(q, denied).value;
      SelectedAs(f, p, p.items, n) == SelectedAs(f, q, KeptQueryItems(q, denied), n)
    ensures forall e :: e in SelectedAs(f, q, KeptQueryItems(q, denied), n) ==> e in SelectedAs(f, q, q.items, n)
    ensures SelectedAs(f, q, q.items, n) == [] ==> SelectedAs(f, q, KeptQueryItems(q, denied), n) == []
  {
    hide Prune, Named, ColumnScope, KeptItems, Resolves, LosesColumn;
    PrunedParts(q, denied);
    KeptExpressions(f, q, denied);
    KeptNamed(ColumnScope(f, q, q.joins), q.items, RemovedNames(q, denied), n);
    var kept := SelectedAs(f, q, KeptQueryItems(q, denied), n);
    if kept != [] { assert kept[0] in kept; }
  }

  /** A removed table has the column: the name then stands for something else, if for anything. */
  lemma {:induction false} RemovedOwner(f: Functions, joins: seq<Join>, denied: set<string>, n: string)
    ensures forall o | o in JoinOwners(f, joins, n) && o !in JoinOwners(f, KeptJoins(joins, denied), n) ::
              exists j :: j in joins && Denied(j, denied) && j.alias == o
  {
    if joins != [] {
      RemovedOwner(f, joins[1..], denied, n);
      KeptFirst(joins, denied);
    }
  }

  lemma {:induction false} RemovedColumn(f: Functions, q: Query, denied: set<string>, n: string)
    requires Removed(q.joins, denied).Some?
    requires GroupNameMoves(f, q, denied, n) && Column(f, q, q.joins, n).Some?
    ensures !(Aliases(Column(f, q, q.joins, n).value) !! RemovedNames(q, denied))
  {
    hide JoinOwners, KeptJoins, Removed;
    var o := Owners(f, q, q.joins, n)[0];
    RemovedOwner(f, q.joins, denied, n);
    assert o in JoinOwners(f, q.joins, n);
    var j :| j in q.joins && Denied(j, denied) && j.alias == o;
    RemovedMembers(q.joins, denied, j);
    assert o in Aliases(Column(f, q, q.joins, n).value) && o in RemovedNames(q, denied);
  }

  lemma {:induction false} PrunedScopesAvoid(f: Functions, q: Query, denied: set<string>)
    requires Prune(q, denied).Some?
    ensures Removed(q.joins, denied).Some?
    ensures ScopeAvoids(GroupScope(f, Prune(q, denied).value), RemovedNames(q, denied))
    ensures ScopeAvoids(ResultScope(f, Prune(q, denied).value), RemovedNames(q, denied))
  {
    hide *;
    PrunedWords(q, denied);
    WordsAvoid(Prune(q, denied).value, RemovedNames(q, denied));
    ScopesAvoid(f, Prune(q, denied).value, RemovedNames(q, denied));
  }

  lemma {:induction false} GroupNameKept(f: Functions, q: Query, denied: set<string>, n: string)
    requires Prune(q, denied).Some? && Resolves(f, q) && !LosesColumn(f, q, denied) && n in GroupNames(q)
    ensures Removed(q.joins, denied).Some? && GroupName(f, q, n).Some?
    ensures var p := Prune(q, denied).value;
      && (GroupName(f, p, n).Some? <==> !GroupNameLost(f, q, denied, n))
      && (GroupName(f, p, n).Some? ==> (GroupName(f, p, n) == GroupName(f, q, n) <==> !GroupNameMoves(f, q, denied, n)))
  {
    hide Prune, Named, ColumnScope, KeptQueryItems, LosesColumn, JoinOwners, KeptJoins, OneMeaning, Removed;
    hide JoinsResolve;
    PrunedParts(q, denied);
    SelectedKept(f, q, denied, n);
    ColumnKept(f, q, q.joins, denied, n);
    PrunedColumn(f, q, denied, KeptJoins(q.joins, denied), n);
    assert GroupScope(f, q)(n).Some?;
    var all, kept := SelectedAs(f, q, q.items, n), SelectedAs(f, q, KeptQueryItems(q, denied), n);
    if Owners(f, q, q.joins, n) == [] {
      if kept != [] { OneMeaningOf(kept, all); } else { NoMeaning(); }
    } else if GroupNameMoves(f, q, denied, n) && GroupName(f, Prune(q, denied).value, n).Some? {
      RemovedColumn(f, q, denied, n);
      PrunedScopesAvoid(f, q, denied);
      assert GroupScope(f, Prune(q, denied).value)(n).Some?;
    }
  }

  lemma {:induction false} NoMeaning()
    ensures !OneMeaning([])
  {
  }

  predicate IsNamed(c: Item, n: string) {
    c.Item? && ItemName(c) == Some(n)
  }

  lemma {:induction false} NamedItem(s: Scope, items: seq<Item>, n: string, e: Expr) returns (c: Item)
    requires e in Named(s, items, n)
    ensures c in items && IsNamed(c, n) && Qualify(s, c.e) == e
  {
    hide Qualify, ItemName;
    if IsNamed(items[0], n) && Qualify(s, items[0].e) == e {
      c := items[0];
    } else {
      c := NamedItem(s, items[1..], n, e);
    }
  }

  lemma {:induction false} ItemIsNamed(s: Scope, items: seq<Item>, c: Item, n: string)
    requires c in items && IsNamed(c, n)
    ensures Named(s, items, n) != []
  {
    hide Qualify, ItemName;
    if c != items[0] { ItemIsNamed(s, items[1..], c, n); }
  }

  /** `x.n`, or a bare `n`, whatever follows it, has no other word than `x` and `n`. */
  lemma {:induction false} ColumnItemWords(c: Item, x: string, n: string)
    requires IsNamed(c, n) && (c.e == Col(x, n) || c.e == Name(n))
    ensures Words(ItemTokens(c)) <= {x, n}
  {
    assert Tokens(c.e) == if c.e.Col? then [Word(x), Sym("."), Word(n)] else [Word(n)];
    assert c.naming.Unnamed? || c.naming.name == n;
  }

  /** A dropped expression is not the kept column of that name. */
  lemma {:induction false} DroppedIsNoColumn(f: Functions, q: Query, denied: set<string>, n: string, e: Expr, x: string)
    requires Removed(q.joins, denied).Some?
    requires e in SelectedAs(f, q, q.items, n) && ResultNameMoves(f, q, denied, n)
    requires n !in RemovedNames(q, denied) && x !in RemovedNames(q, denied)
    ensures e != Col(x, n)
  {
    hide Named, Owners, ItemTokens, Words, Removed, Names;
    var names := RemovedNames(q, denied);
    var s := ColumnScope(f, q, q.joins);
    var c := NamedItem(s, q.items, n, e);
    if !MentionsAny(c, names) {
      KeptItemsMembers(q.items, names, c);
      ItemIsNamed(s, KeptQueryItems(q, denied), c, n);
      assert false;
    }
    if e == Col(x, n) {
      assert c.e == Col(x, n) || c.e == Name(n);
      ColumnItemWords(c, x, n);
      assert false;
    }
  }

  lemma {:induction false} ResultNameIsWord(q: Query, denied: set<string>, n: string)
    requires Prune(q, denied).Some? && n in ResultNames(q)
    ensures Removed(q.joins, denied).Some? && n !in RemovedNames(q, denied)
    ensures n !in DroppedNames(q.items, RemovedNames(q, denied))
  {
    hide Prune, Removed, Words, Tokens, OrderTokens, QueryTokens, Unqualified, UnqualifiedAll, Aliases, AliasesAll;
    hide Names, DroppedNames;
    var p := Prune(q, denied).value;
    PrunedParts(q, denied);
    PrunedWords(q, denied);
    QueryWords(p);
    AliasesAreWords(q.having);
    OrderWords(q.order);
    assert n in Words(QueryTokens(p));
  }

  lemma {:induction false} KeptOwnerIsClean(f: Functions, q: Query, denied: set<string>, n: string)
    requires Prune(q, denied).Some?
    ensures Removed(q.joins, denied).Some?
    ensures forall o :: o in KeptOwners(f, q, denied, q.joins, n) ==> o !in RemovedNames(q, denied)
  {
    hide Prune, Removed, Names, Words, QueryTokens, JoinOwners, Aliases, ItemAvoids;
    PrunedParts(q, denied);
    PrunedWords(q, denied);
    WordsAvoid(Prune(q, denied).value, RemovedNames(q, denied));
    JoinOwnersAvoid(f, KeptJoins(q.joins, denied), n, RemovedNames(q, denied));
  }

  lemma {:induction false} ResultNameKept(f: Functions, q: Query, denied: set<string>, n: string)
    requires Prune(q, denied).Some? && Resolves(f, q) && !LosesColumn(f, q, denied) && n in OrderNames(q)
    ensures Removed(q.joins, denied).Some? && ResultName(f, q, n).Some?
    ensures var p := Prune(q, denied).value;
      && (ResultName(f, p, n).Some? <==> !ResultNameLost(f, q, denied, n))
      && (ResultName(f, p, n).Some?
        ==> (ResultName(f, p, n) == ResultName(f, q, n) <==> !ResultNameMoves(f, q, denied, n)))
  {
    hide Prune, Named, ColumnScope, KeptQueryItems, LosesColumn, JoinOwners, KeptJoins, OneMeaning, Removed;
    hide JoinsResolve;
    PrunedParts(q, denied);
    SelectedKept(f, q, denied, n);
    ColumnKept(f, q, q.joins, denied, n);
    PrunedColumn(f, q, denied, KeptJoins(q.joins, denied), n);
    NoMeaning();
    assert ResultScope(f, q)(n).Some?;
    var all, kept := SelectedAs(f, q, q.items, n), SelectedAs(f, q, KeptQueryItems(q, denied), n);
    if all == [] {
    } else if kept != [] {
      OneMeaningOf(kept, all);
    } else if |KeptOwners(f, q, denied, q.joins, n)| == 1 {
      var x := KeptOwners(f, q, denied, q.joins, n)[0];
      ResultNameIsWord(q, denied, n);
      KeptOwnerIsClean(f, q, denied, n);
      DroppedIsNoColumn(f, q, denied, n, all[0], x);
    }
  }

  // ----- HAVING of the pruned query -----

  /** The pruned query looks for its names among the kept tables and expressions. */
  lemma {:induction false} PrunedKeys(f: Functions, q: Query, denied: set<string>)
    requires Prune(q, denied).Some? && Resolves(f, q) && !LosesColumn(f, q, denied)
    ensures Removed(q.joins, denied).Some? && Keys(f, Prune(q, denied).value) == KeptKeys(f, q, denied)
  {
    hide Prune, Named, ColumnScope, KeptQueryItems, Resolves, LosesColumn, Column, Removed, OneMeaning, QualifyAll;
    hide Owners;
    var p := Prune(q, denied).value;
    PrunedParts(q, denied);
    var s := KeptGroupScope(f, q, denied);
    forall n
      ensures GroupScope(f, p)(n) == s(n)
    {
      SelectedKept(f, q, denied, n);
      PrunedColumn(f, q, denied, KeptJoins(q.joins, denied), n);
    }
    QualifyAllSame(GroupScope(f, p), s, GroupKeys(q.grouping));
  }

  lemma {:induction false} PrunedSelection(f: Functions, q: Query, denied: set<string>)
    requires Prune(q, denied).Some? && Resolves(f, q) && !LosesColumn(f, q, denied)
    ensures Removed(q.joins, denied).Some?
    ensures var p := Prune(q, denied).value;
      && QualifyItems(ColumnScope(f, p, p.joins), p.items) == KeptSelection(f, q, denied)
      && (forall n :: Shown(f, p, n) == KeptShown(f, q, denied, n))
  {
    hide Prune, Named, ColumnScope, KeptItems, Resolves, LosesColumn, Removed, Owners, QualifyItems, StarColumns;
    PrunedParts(q, denied);
    KeptExpressions(f, q, denied);
    var p := Prune(q, denied).value;
    forall n
      ensures Shown(f, p, n) == KeptShown(f, q, denied, n)
    {
      PrunedColumn(f, q, denied, KeptJoins(q.joins, denied), n);
    }
  }

  lemma {:induction false} PrunedHaving(f: Functions, q: Query, denied: set<string>, x: Expr)
    requires Prune(q, denied).Some? && Resolves(f, q) && !LosesColumn(f, q, denied)
    ensures Removed(q.joins, denied).Some?
    ensures HavingRefers(f, Prune(q, denied).value, x) <==> !HavingLost(f, q, denied, x)
  {
    hide Prune, Named, ColumnScope, Resolves, LosesColumn, Removed, Keys, KeptKeys, QualifyItems, KeptSelection;
    hide Shown, KeptShown, InSelection, ColumnsNamed, OneMeaning, Selected, HavingColumn;
    PrunedKeys(f, q, denied);
    PrunedSelection(f, q, denied);
  }

  lemma {:induction false} KeptOwnersAre(f: Functions, joins: seq<Join>, denied: set<string>, n: string)
    ensures forall o :: o in JoinOwners(f, KeptJoins(joins, denied), n) ==> o in JoinOwners(f, joins, n)
  {
    hide JoinOwners, KeptJoins;
    if joins == [] {
      NoOwners(f, denied, n);
    } else {
      var kept := KeptJoins(joins, denied);
      KeptOwnersAre(f, joins[1..], denied, n);
      KeptFirst(joins, denied);
      OwnersFirst(f, joins, n);
      if kept != [] { OwnersFirst(f, kept, n); }
    }
  }

  /** What is shown under a name is a part of what was. */
  lemma {:induction false} ShownKept(f: Functions, q: Query, denied: set<string>, n: string)
    requires Prune(q, denied).Some?
    ensures Removed(q.joins, denied).Some?
    ensures forall e :: e in KeptShown(f, q, denied, n) ==> e in Shown(f, q, n)
  {
    hide Prune, Named, ColumnScope, Removed, JoinOwners, StarColumns, KeptItems, KeptJoins, Names;
    PrunedParts(q, denied);
    KeptNamed(ColumnScope(f, q, q.joins), q.items, RemovedNames(q, denied), n);
    KeptOwnersAre(f, q.joins, denied, n);
    StarColumnsAre(KeptQueryItems(q, denied), KeptOwners(f, q, denied, q.joins, n), n);
    StarColumnsAre(q.items, Owners(f, q, q.joins, n), n);
    forall c | c in KeptQueryItems(q, denied) ensures c in q.items {
      KeptItemsMembers(q.items, RemovedNames(q, denied), c);
    }
  }

  lemma {:induction false} KeptItemsQualified(s: Scope, items: seq<Item>, names: set<string>)
    ensures forall c :: c in QualifyItems(s, KeptItems(items, names)) ==> c in QualifyItems(s, items)
  {
    hide MentionsAny, Qualify, KeptItems, QualifyItems;
    if items == [] {
      NoKeptItem(names);
    } else {
      KeptFirstItem(items, names);
      KeptItemsQualified(s, items[1..], names);
      ItemsFirst(s, items);
      var kept := KeptItems(items, names);
      if kept != [] { ItemsFirst(s, kept); }
    }
  }

  /** The kept columns of that name are a part of the selected ones, and of tables that stay. */
  lemma {:induction false} SelectionKept(f: Functions, q: Query, denied: set<string>, n: string)
    requires Prune(q, denied).Some? && Resolves(f, q) && !LosesColumn(f, q, denied)
    ensures Removed(q.joins, denied).Some?
    ensures var items := QualifyItems(ColumnScope(f, q, q.joins), q.items);
      forall e | e in ColumnsNamed(Selected(KeptSelection(f, q, denied)), n) ::
        e in ColumnsNamed(Selected(items), n) && e.Col? && e.column == n && e.alias !in RemovedNames(q, denied)
  {
    hide Prune, ColumnScope, Removed, QualifyItems, KeptItems, Names, Selected, ColumnsNamed, Resolves, LosesColumn;
    hide Aliases, AliasesAll, ItemAvoids, JoinAvoids, QualifyJoins, QualifyOrder, QualifyGrouping, QualifyHaving;
    hide HavingScope, GroupScope, ResultScope;
    PrunedParts(q, denied);
    var s, names, kept := ColumnScope(f, q, q.joins), RemovedNames(q, denied), KeptSelection(f, q, denied);
    var items := QualifyItems(s, q.items);
    KeptItemsQualified(s, q.items, names);
    SelectedAre(kept);
    SelectedAre(items);
    ColumnsNamedAre(Selected(kept), n);
    ColumnsNamedAre(Selected(items), n);
    PrunedIsClean(f, q, denied);
    PrunedSelection(f, q, denied);
    assert Qualified(f, Prune(q, denied).value).items == kept;
    SelectedAvoid(kept, names);
    forall e | e in ColumnsNamed(Selected(kept), n) ensures e.Col? && e.alias !in names { ColumnAvoids(e, names); }
  }

  lemma {:induction false} TableStarWords(a: string)
    ensures Words(ItemTokens(TableStar(a))) == {a}
  {
    var ts := ItemTokens(TableStar(a));
    assert ts == [Word(a), Sym("."), Sym("*")] && ts[0] == Word(a);
  }

  /** A column that `table.*` no longer shows is one of a removed table. */
  lemma {:induction false} StarDropped(f: Functions, q: Query, denied: set<string>, n: string, e: Expr)
    requires Prune(q, denied).Some?
    requires e in StarColumns(q.items, Owners(f, q, q.joins, n), n)
    ensures Removed(q.joins, denied).Some?
    ensures KeptShown(f, q, denied, n) == [] ==> e.Col? && e.alias in RemovedNames(q, denied)
  {
    hide Prune, Named, ColumnScope, Removed, JoinOwners, StarColumns, KeptItems, KeptJoins, ItemTokens, Words;
    PrunedParts(q, denied);
    StarColumnsAre(q.items, Owners(f, q, q.joins, n), n);
    var names, o := RemovedNames(q, denied), e.alias;
    if o !in names {
      TableStarWords(o);
      KeptItemsMembers(q.items, names, TableStar(o));
      RemovedOwner(f, q.joins, denied, n);
      if o in JoinOwners(f, q.joins, n) && o !in JoinOwners(f, KeptJoins(q.joins, denied), n) {
        var j :| j in q.joins && Denied(j, denied) && j.alias == o;
        RemovedMembers(q.joins, denied, j);
        assert false;
      }
      StarColumnsAre(KeptQueryItems(q, denied), KeptOwners(f, q, denied, q.joins, n), n);
      assert e in StarColumns(KeptQueryItems(q, denied), KeptOwners(f, q, denied, q.joins, n), n);
    }
  }

  /** A dropped expression is not the kept column that HAVING takes instead. */
  lemma {:induction false} HavingMovesAway(f: Functions, q: Query, denied: set<string>, n: string, e: Expr, x: string)
    requires Prune(q, denied).Some? && Removed(q.joins, denied).Some?
    requires e in Shown(f, q, n) && KeptShown(f, q, denied, n) == []
    requires n !in RemovedNames(q, denied) && x !in RemovedNames(q, denied)
    ensures e != Col(x, n)
  {
    hide Prune, Removed, Named, StarColumns, Names, Owners, ColumnScope;
    if e in SelectedAs(f, q, q.items, n) {
      DroppedIsNoColumn(f, q, denied, n, e, x);
    } else {
      StarDropped(f, q, denied, n, e);
    }
  }

  lemma {:induction false} HavingNameKept(f: Functions, q: Query, denied: set<string>, n: string)
    requires Prune(q, denied).Some? && Resolves(f, q) && !LosesColumn(f, q, denied) && n in Unqualified(q.having)
    requires Keys(f, Prune(q, denied).value) == Keys(f, q)
    requires HavingName(f, q, n).Some? && HavingName(f, Prune(q, denied).value, n).Some?
    ensures Removed(q.joins, denied).Some?
    ensures HavingName(f, Prune(q, denied).value, n) == HavingName(f, q, n) <==> !HavingNameMoves(f, q, denied, n)
  {
    hide Prune, Removed, Resolves, LosesColumn, Keys, Shown, KeptShown, QualifyItems, Selected, ColumnsNamed;
    hide OneMeaning, KeptSelection, ColumnScope, Names, Unqualified;
    PrunedParts(q, denied);
    PrunedSelection(f, q, denied);
    ShownKept(f, q, denied, n);
    SelectionKept(f, q, denied, n);
    NoMeaning();
    var all, kept := Shown(f, q, n), KeptShown(f, q, denied, n);
    var columns := ColumnsNamed(Selected(QualifyItems(ColumnScope(f, q, q.joins), q.items)), n);
    var left := ColumnsNamed(Selected(KeptSelection(f, q, denied)), n);
    if ColumnsNamed(Keys(f, q), n) != [] {
    } else if kept != [] {
      assert kept[0] in kept;
      OneMeaningOf(kept, all);
    } else if all == [] {
      OneMeaningOf(left, columns);
    } else {
      ResultNameIsWord(q, denied, n);
      assert left[0] in left && all[0] in all;
      HavingMovesAway(f, q, denied, n, all[0], left[0].alias);
    }
  }

  // ----- when MySQL refuses the pruned query, and when a name changes its meaning -----

  /** Each name of the pruned query stands for something exactly when no name is lost. */
  lemma {:induction false} PrunedResolves(f: Functions, q: Query, denied: set<string>)
    requires Prune(q, denied).Some? && Resolves(f, q)
    ensures Removed(q.joins, denied).Some?
    ensures Resolves(f, Prune(q, denied).value) <==> !LosesName(f, q, denied)
  {
    hide Prune, Removed, KeptItems, KeptJoins, ItemNames, Unqualified, UnqualifiedAll, LosesColumn, LosesOnColumn;
    hide GroupNameLost, ResultNameLost, GroupName, ResultName, Column, JoinsResolve, QualifyItems, QualifyJoins;
    hide Qualify, Named, HavingRefers, HavingLost, References, Inside, OrderExprs;
    PrunedParts(q, denied);
    KeptExpressions(f, q, denied);
    OnsKept(f, q, denied, [], q.joins);
    NoJoinsKept(denied);
    if !LosesColumn(f, q, denied) {
      var p := Prune(q, denied).value;
      forall n | n in GroupNames(q)
        ensures GroupScope(f, p)(n).Some? <==> !GroupNameLost(f, q, denied, n)
      {
        GroupNameKept(f, q, denied, n);
      }
      forall n | n in OrderNames(q)
        ensures ResultScope(f, p)(n).Some? <==> !ResultNameLost(f, q, denied, n)
      {
        ResultNameKept(f, q, denied, n);
      }
      forall x | x in References(q.having)
        ensures HavingRefers(f, p, x) <==> !HavingLost(f, q, denied, x)
      {
        PrunedHaving(f, q, denied, x);
      }
    }
  }

  lemma {:induction false} NoJoinsKept(denied: set<string>)
    ensures KeptJoins([], denied) == []
  {
  }

  lemma {:induction false} KeptAliases(used: set<string>, fewer: set<string>, joins: seq<Join>, denied: set<string>)
    requires NewAliases(used, joins) && fewer <= used
    ensures NewAliases(fewer, KeptJoins(joins, denied))
    decreases |joins|
  {
    if joins != [] {
      var j, rest := joins[0], KeptJoins(joins[1..], denied);
      if Denied(j, denied) {
        KeptAliases(used + {j.alias}, fewer, joins[1..], denied);
        assert KeptJoins(joins, denied) == rest;
      } else {
        KeptAliases(used + {j.alias}, fewer + {j.alias}, joins[1..], denied);
        assert KeptJoins(joins, denied) == [j] + rest && ([j] + rest)[1..] == rest;
      }
    }
  }

  lemma {:induction false} PrunedIsAccepted(q: Query, denied: set<string>)
    requires Prune(q, denied).Some? && Accepted(q)
    ensures Accepted(Prune(q, denied).value)
  {
    hide NewAliases;
    KeptAliases({q.alias}, {q.alias}, q.joins, denied);
    forall j | j in KeptJoins(q.joins, denied) ensures HasItsOn(j) { KeptJoinsMembers(q.joins, denied, j); }
  }

  /**
   MySQL refuses the pruned query exactly when one of its names is lost: a column of the removed tables used
   without its table, or a name that only dropped expressions had.
   */
  lemma {:induction false} PrunedQueryResolves(f: Functions, db: Db, q: Query, denied: set<string>)
    requires Prune(q, denied).Some? && Result(f, db, q).Some?
    ensures Removed(q.joins, denied).Some?
    ensures Result(f, db, Prune(q, denied).value).None? <==> LosesName(f, q, denied)
  {
    hide Prune, Removed, LosesName, Accepted, Resolves, AllRows, Qualified, Take, Distinct;
    PrunedIsAccepted(q, denied);
    PrunedResolves(f, q, denied);
  }

  /** GROUP BY, HAVING and ORDER BY name the same things. */
  predicate SameNames(f: Functions, q: Query, denied: set<string>)
    requires Prune(q, denied).Some?
  {
    var p, o := Qualified(f, Prune(q, denied).value), Qualified(f, q);
    p.grouping == o.grouping && p.having == o.having && p.order == o.order
  }

  /** And the rows make one group of both queries, or of neither. */
  predicate SameClauses(f: Functions, q: Query, denied: set<string>)
    requires Prune(q, denied).Some?
  {
    && SameNames(f, q, denied)
    && SingleGroup(Qualified(f, Prune(q, denied).value)) == SingleGroup(Qualified(f, q))
  }

  lemma {:induction false} GroupingDiffers(s: Scope, t: Scope, g: Grouping, n: string)
    requires n in UnqualifiedAll(GroupKeys(g)) && s(n).Some? && t(n).Some? && s(n) != t(n)
    ensures QualifyGrouping(s, g) != QualifyGrouping(t, g)
  {
    QualifyAllDiffers(s, t, GroupKeys(g), n);
  }

  predicate GroupNamesStay(f: Functions, q: Query, denied: set<string>) {
    forall n :: n in GroupNames(q) ==> !GroupNameMoves(f, q, denied, n)
  }

  lemma {:induction false} GroupingKept(f: Functions, q: Query, denied: set<string>)
    requires Prune(q, denied).Some? && Resolves(f, q) && Resolves(f, Prune(q, denied).value)
    ensures Qualified(f, Prune(q, denied).value).grouping == Qualified(f, q).grouping <==> GroupNamesStay(f, q, denied)
    ensures GroupNamesStay(f, q, denied) ==> Keys(f, Prune(q, denied).value) == Keys(f, q)
  {
    hide Prune, Removed, GroupName, Qualify, QualifyAll, QualifyOrder, UnqualifiedAll, OrderExprs, GroupNameMoves;
    hide QualifyItems, QualifyJoins, Resolves, LosesName, GroupNameLost, ResultScope, HavingScope, QualifyHaving;
    var p := Prune(q, denied).value;
    PrunedParts(q, denied);
    PrunedResolves(f, q, denied);
    NothingLost(f, q, denied);
    var g, h := GroupScope(f, q), GroupScope(f, p);
    forall n | n in GroupNames(q)
      ensures g(n).Some? && h(n).Some? && (h(n) == g(n) <==> !GroupNameMoves(f, q, denied, n))
    {
      GroupNameKept(f, q, denied, n);
    }
    if GroupNamesStay(f, q, denied) {
      QualifyAllSame(h, g, GroupKeys(q.grouping));
    } else {
      var n :| n in GroupNames(q) && GroupNameMoves(f, q, denied, n);
      GroupingDiffers(h, g, q.grouping, n);
    }
  }

  lemma {:induction false} OrderKept(f: Functions, q: Query, denied: set<string>)
    requires Prune(q, denied).Some? && Resolves(f, q) && Resolves(f, Prune(q, denied).value)
    ensures Removed(q.joins, denied).Some?
    ensures Qualified(f, Prune(q, denied).value).order == Qualified(f, q).order
      <==> forall n :: n in OrderNames(q) ==> !ResultNameMoves(f, q, denied, n)
  {
    hide Prune, Removed, ResultName, Qualify, QualifyAll, QualifyOrder, UnqualifiedAll, OrderExprs, ResultNameMoves;
    hide QualifyItems, QualifyJoins, Resolves, LosesName, ResultNameLost, GroupScope, HavingScope, QualifyHaving;
    var p := Prune(q, denied).value;
    PrunedParts(q, denied);
    PrunedResolves(f, q, denied);
    NothingLost(f, q, denied);
    var r, s := ResultScope(f, q), ResultScope(f, p);
    forall n | n in OrderNames(q)
      ensures r(n).Some? && s(n).Some? && (s(n) == r(n) <==> !ResultNameMoves(f, q, denied, n))
    {
      ResultNameKept(f, q, denied, n);
    }
    NamesOfOrder(s, r, q.order);
  }

  /** With the same grouping keys, HAVING says the same exactly when none of its names moves. */
  lemma {:induction false} HavingKept(f: Functions, q: Query, denied: set<string>)
    requires Prune(q, denied).Some? && Resolves(f, q) && Resolves(f, Prune(q, denied).value)
    requires Keys(f, Prune(q, denied).value) == Keys(f, q)
    ensures Removed(q.joins, denied).Some?
    ensures Qualified(f, Prune(q, denied).value).having == Qualified(f, q).having
      <==> forall x :: x in References(q.having) && x.Name? ==> !HavingNameMoves(f, q, denied, x.name)
  {
    hide Prune, Removed, HavingName, QualifyHaving, QualifyAll, QualifyOrder, References, Inside, HavingNameMoves;
    hide QualifyItems, QualifyJoins, Resolves, LosesName, Keys, GroupScope, ResultScope, Unqualified, ColumnScope;
    var p := Prune(q, denied).value;
    PrunedParts(q, denied);
    PrunedResolves(f, q, denied);
    NothingLost(f, q, denied);
    KeptExpressions(f, q, denied);
    ReferencesAreNames(q.having);
    var s, t := HavingScope(f, p), HavingScope(f, q);
    forall n | Name(n) in References(q.having)
      ensures s(n).Some? && t(n).Some? && (s(n) == t(n) <==> !HavingNameMoves(f, q, denied, n))
    {
      HavingNames(f, q, n);
      HavingNames(f, p, n);
      HavingNameKept(f, q, denied, n);
    }
    var c, d := ColumnScope(f, p, p.joins), ColumnScope(f, q, q.joins);
    if forall x :: x in References(q.having) && x.Name? ==> !HavingNameMoves(f, q, denied, x.name) {
      HavingSame(s, c, t, d, q.having);
    } else {
      var x :| x in References(q.having) && x.Name? && HavingNameMoves(f, q, denied, x.name);
      HavingDiffers(s, c, t, d, q.having, x.name);
    }
  }

  lemma {:induction false} HavingNames(f: Functions, q: Query, n: string)
    requires Resolves(f, q) && Name(n) in References(q.having)
    ensures HavingName(f, q, n).Some?
  {
    hide HavingName, JoinsResolve, References, Column;
    assert HavingRefers(f, q, Name(n));
  }

  /** The pruned query names the same things exactly when no name moves. */
  lemma {:induction false} NamesKept(f: Functions, q: Query, denied: set<string>)
    requires Prune(q, denied).Some? && Resolves(f, q) && Resolves(f, Prune(q, denied).value)
    ensures Removed(q.joins, denied).Some?
    ensures SameNames(f, q, denied) <==> KeepsNames(f, q, denied)
  {
    hide Prune, Removed, Qualified, Keys, Resolves, GroupNames, OrderNames, GroupNameMoves, ResultNameMoves;
    hide HavingNameMoves, References;
    PrunedParts(q, denied);
    GroupingKept(f, q, denied);
    OrderKept(f, q, denied);
    if GroupNamesStay(f, q, denied) { HavingKept(f, q, denied); }
  }

  lemma {:induction false} AggregatesLeft(f: Functions, q: Query, denied: set<string>)
    requires Prune(q, denied).Some?
    ensures Removed(q.joins, denied).Some?
    ensures SingleGroup(Qualified(f, Prune(q, denied).value)) == SingleGroup(Qualified(f, q))
      <==> KeepsAggregate(q, denied)
  {
    hide Prune, Removed, HasAggregate, AnyAggregate, OrderExprs, KeptItems;
    hide QualifyItems, QualifyJoins, QualifyOrder, QualifyAll, QualifyHaving;
    var p := Prune(q, denied).value;
    PrunedParts(q, denied);
    AggregatesQualified(f, q);
    AggregatesQualified(f, p);
    forall c | c in KeptQueryItems(q, denied) ensures c in q.items {
      KeptItemsMembers(q.items, RemovedNames(q, denied), c);
    }
  }

  /** The pruned query groups and orders alike exactly when no name moves and the last aggregate is not dropped. */
  lemma {:induction false} NamesKeepMeaningIff(f: Functions, q: Query, denied: set<string>)
    requires Prune(q, denied).Some? && Resolves(f, q) && Resolves(f, Prune(q, denied).value)
    ensures Removed(q.joins, denied).Some?
    ensures SameClauses(f, q, denied) <==> KeepsMeaning(f, q, denied)
  {
    hide *;
    NamesKept(f, q, denied);
    AggregatesLeft(f, q, denied);
    MeaningIs(f, q, denied);
  }

  lemma {:induction false} MeaningIs(f: Functions, q: Query, denied: set<string>)
    requires Prune(q, denied).Some? && Removed(q.joins, denied).Some?
    ensures KeepsMeaning(f, q, denied) <==> KeepsNames(f, q, denied) && KeepsAggregate(q, denied)
    ensures var p, o := Qualified(f, Prune(q, denied).value), Qualified(f, q);
      SameClauses(f, q, denied) <==> SameNames(f, q, denied) && SingleGroup(p) == SingleGroup(o)
  {
    hide Prune, Removed, KeepsNames, KeepsAggregate, SameNames, Qualified;
  }

  lemma {:induction false} NothingLost(f: Functions, q: Query, denied: set<string>)
    requires Removed(q.joins, denied).Some? && !LosesName(f, q, denied)
    ensures !LosesColumn(f, q, denied) && !LosesOnColumn(f, q, denied, [], q.joins)
    ensures forall n :: n in GroupNames(q) ==> !GroupNameLost(f, q, denied, n)
    ensures forall x :: x in References(q.having) ==> !HavingLost(f, q, denied, x)
    ensures forall n :: n in OrderNames(q) ==> !ResultNameLost(f, q, denied, n)
  {
    hide HavingLost, ResultNameLost, GroupNameLost, KeptOwners;
  }

  // ----- the rows of the pruned query -----

  /** The parts of the pruned query, with every name qualified. */
  lemma {:induction false} QualifiedParts(f: Functions, q: Query, denied: set<string>)
    requires Prune(q, denied).Some? && Resolves(f, q) && Resolves(f, Prune(q, denied).value) && KeepsNames(f, q, denied)
    ensures Removed(q.joins, denied).Some?
    ensures var p, o := Qualified(f, Prune(q, denied).value), Qualified(f, q);
      && o.items == QualifyItems(ColumnScope(f, q, q.joins), q.items)
      && p.items == QualifyItems(ColumnScope(f, q, q.joins), KeptQueryItems(q, denied))
      && o.(items := p.items, joins := p.joins) == p && p.joins == KeptJoins(o.joins, denied)
  {
    hide Prune, Removed, KeptItems, KeptJoins, QualifyItems, QualifyJoins, JoinsResolve, Qualify, LosesColumn;
    hide LosesOnColumn, LosesName, HavingScope, QualifyHaving;
    hide GroupScope, ResultScope, QualifyOrder, QualifyGrouping, Resolves, KeepsNames;
    PrunedParts(q, denied);
    PrunedResolves(f, q, denied);
    NothingLost(f, q, denied);
    NamesKept(f, q, denied);
    KeptExpressions(f, q, denied);
    NoJoinsKept(denied);
    assert JoinsResolve(f, q, [], q.joins) by { ResolvesJoins(f, q); }
    OnsKept(f, q, denied, [], q.joins);
  }

  lemma {:induction false} ResolvesJoins(f: Functions, q: Query)
    requires Resolves(f, q)
    ensures JoinsResolve(f, q, [], q.joins)
  {
  }

  lemma {:induction false} QualifiedJoinsRemoved(f: Functions, q: Query, before: seq<Join>, joins: seq<Join>,
          denied: set<string>)
    requires Removed(joins, denied).Some?
    ensures forall j | j in QualifyJoins(f, q, before, joins) && Denied(j, denied) ::
              j.kind.Left? && j.alias in Names(Removed(joins, denied).value)
    decreases |joins|
  {
    hide ComparesKey, Qualify, ColumnScope;
    if joins != [] { QualifiedJoinsRemoved(f, q, before + [joins[0]], joins[1..], denied); }
  }

  /** The rows of both, before grouping, agree on everything the pruned one reads. */
  lemma {:induction false} SourceAgree(f: Functions, db: Db, o: Query, p: Query, denied: set<string>, off: set<string>)
    requires Avoids(p, off) && o.(items := p.items, joins := p.joins) == p && p.joins == KeptJoins(o.joins, denied)
    requires ReachedOnce(f, db, Base(map[], o.alias, Rows(db, o.table)), o.joins, denied)
    requires forall j :: j in o.joins && Denied(j, denied) ==> j.kind.Left? && j.alias in off
    ensures AgreeAll(Source(f, db, o), Source(f, db, p), off)
  {
    hide Agree, ReachedOnce, Aliases, AliasesAll, KeptJoins, ItemAvoids, Steps, Where, Base, OrderExprs;
    var base := Base(map[], o.alias, Rows(db, o.table));
    forall j | j in o.joins && !Denied(j, denied) && j.on.Some? ensures Aliases(j.on.value) !! off {
      KeptJoinsMembers(o.joins, denied, j);
      assert JoinAvoids(j, off);
    }
    var a, b := Steps(f, db, map[], base, o.joins), Steps(f, db, map[], base, p.joins);
    assert AgreeAll(base, base, off) by { AgreeSelf(base, off); }
    JoinsAgree(f, db, base, base, o.joins, denied, off);
    WhereAgree(f, o.where, a, b, off);
  }

  /** The sorted rows of both queries agree on everything the pruned one reads. */
  lemma {:induction false} SortedAgree(f: Functions, db: Db, o: Query, p: Query, denied: set<string>, off: set<string>)
    requires Avoids(p, off) && o.(items := p.items, joins := p.joins) == p && p.joins == KeptJoins(o.joins, denied)
    requires ReachedOnce(f, db, Base(map[], o.alias, Rows(db, o.table)), o.joins, denied)
    requires forall j :: j in o.joins && Denied(j, denied) ==> j.kind.Left? && j.alias in off
    requires SingleGroup(o) == SingleGroup(p)
    ensures AgreeGroups(Sorted(f, db, o), Sorted(f, db, p), off)
  {
    hide AgreeAll, AgreeGroups, ReachedOnce, Aliases, AliasesAll, KeptJoins, ItemAvoids, JoinAvoids, Source, Groups;
    hide Having, Sort, Base, OrderExprs, SingleGroup;
    SourceAgree(f, db, o, p, denied, off);
    var x, y := Source(f, db, o), Source(f, db, p);
    GroupsAgree(f, o, p, x, y, off);
    HavingAgree(f, o.having, Groups(f, o, x), Groups(f, p, y), off);
    SortAgree(f, OrderExprs(o.order), Directions(o.order), Having(f, o.having, Groups(f, o, x)),
              Having(f, o.having, Groups(f, p, y)), off);
  }

  lemma {:induction false} AgreeSelf(a: seq<Env>, off: set<string>)
    ensures AgreeAll(a, a, off)
  {
  }

  /** Before DISTINCT and LIMIT, the pruned query has the original's rows, in order, on the kept columns. */
  lemma {:induction false} PrunedRows(f: Functions, db: Db, q: Query, denied: set<string>)
    requires Prune(q, denied).Some? && RemovesLookups(f, db, q, denied)
    requires Resolves(f, q) && Resolves(f, Prune(q, denied).value) && KeepsMeaning(f, q, denied)
    ensures Removed(q.joins, denied).Some?
    ensures AllRows(f, db, Qualified(f, Prune(q, denied).value))
         == KeptRows(q.items, AllRows(f, db, Qualified(f, q)), RemovedNames(q, denied))
  {
    hide Prune, Removed, Names, Resolves, KeepsNames, ReachedOnce, Sorted, Project, QualifyItems, QualifyJoins;
    hide QualifyOrder, QualifyGrouping, Qualify, QualifyHaving, HavingScope, SingleGroup, KeepsAggregate;
    hide KeptItems, KeptJoins, KeptRows, AgreeGroups, ColumnScope, GroupScope, ResultScope, ItemAvoids, JoinAvoids;
    QualifiedParts(f, q, denied);
    AggregatesLeft(f, q, denied);
    var o, p, names := Qualified(f, q), Qualified(f, Prune(q, denied).value), RemovedNames(q, denied);
    PrunedIsClean(f, q, denied);
    QualifiedJoinsRemoved(f, q, [], q.joins, denied);
    SortedAgree(f, db, o, p, denied, names);
    ProjectAgree(f, ColumnScope(f, q, q.joins), q.items, Sorted(f, db, o), Sorted(f, db, p), names);
  }

  // ----- DISTINCT -----

  lemma {:induction false} DistinctPrefix<T>(xs: seq<T>, n: nat)
    requires n <= |xs|
    ensures Distinct(xs[..n]) <= Distinct(xs) && |Distinct(xs[..n])| <= n
  {
    if n == |xs| {
      assert xs[..n] == xs;
      if n > 0 { DistinctPrefix(xs[..n - 1], n - 1); assert xs[..n - 1][..n - 1] == xs[..n - 1]; }
    } else {
      var init := xs[..|xs| - 1];
      DistinctPrefix(init, n);
      assert init[..n] == xs[..n];
    }
  }

  lemma {:induction false} DistinctSnoc<T>(xs: seq<T>, x: T)
    ensures Distinct(xs + [x]) == if x in Distinct(xs) then Distinct(xs) else Distinct(xs) + [x]
  {
    assert (xs + [x])[..|xs|] == xs;
  }

  lemma {:induction false} KeptSnoc(items: seq<Item>, rows: seq<seq<Cell>>, row: seq<Cell>, names: set<string>)
    ensures KeptRows(items, rows + [row], names) == KeptRows(items, rows, names) + [KeptCells(items, row, names)]
  {
  }

  lemma {:induction false} KeptMember(items: seq<Item>, rows: seq<seq<Cell>>, row: seq<Cell>, names: set<string>)
    requires row in rows
    ensures KeptCells(items, row, names) in KeptRows(items, rows, names)
  {
    hide KeptCells;
    var i :| 0 <= i < |rows| && rows[i] == row;
    assert KeptRows(items, rows, names)[i] == KeptCells(items, row, names);
  }

  lemma {:induction false} DistinctKept(items: seq<Item>, rows: seq<seq<Cell>>, names: set<string>)
    ensures Distinct(KeptRows(items, Distinct(rows), names)) == Distinct(KeptRows(items, rows, names))
  {
    hide KeptRows, KeptCells, Distinct;
    if rows == [] {
      NothingDistinct(items, names);
    } else {
      var init, last := rows[..|rows| - 1], rows[|rows| - 1];
      assert rows == init + [last];
      DistinctKept(items, init, names);
      var d, cut := Distinct(init), KeptCells(items, last, names);
      KeptSnoc(items, init, last, names);
      DistinctSnoc(KeptRows(items, init, names), cut);
      DistinctSnoc(init, last);
      if last in d {
        KeptMember(items, d, last, names);
        DistinctMembers(KeptRows(items, d, names), cut);
      } else {
        KeptSnoc(items, d, last, names);
        DistinctSnoc(KeptRows(items, d, names), cut);
      }
    }
  }

  lemma {:induction false} NothingDistinct(items: seq<Item>, names: set<string>)
    ensures Distinct(KeptRows(items, Distinct([]), names)) == Distinct(KeptRows(items, [], names))
  {
  }

  // ----- main results -----

  lemma {:induction false} KeptTake(items: seq<Item>, limit: Option<nat>, rows: seq<seq<Cell>>, names: set<string>)
    ensures KeptRows(items, Take(limit, rows), names) == Take(limit, KeptRows(items, rows, names))
  {
  }

  /** LIMIT and DISTINCT on the same rows, cut to the kept columns. */
  lemma {:induction false} PrunedResult(f: Functions, db: Db, q: Query, denied: set<string>)
    requires Prune(q, denied).Some? && RemovesLookups(f, db, q, denied)
    requires Result(f, db, q).Some? && Result(f, db, Prune(q, denied).value).Some?
    requires Removed(q.joins, denied).Some? && KeepsMeaning(f, q, denied)
    ensures var rows := AllRows(f, db, Qualified(f, q));
      var kept := KeptRows(q.items, rows, RemovedNames(q, denied));
      && Result(f, db, q) == Some(Take(q.limit, if q.distinct then Distinct(rows) else rows))
      && Result(f, db, Prune(q, denied).value) == Some(Take(q.limit, if q.distinct then Distinct(kept) else kept))
  {
    hide Prune, Removed, Names, Accepted, Resolves, KeepsMeaning, Take, Distinct, AllRows, KeptRows, Qualified;
    hide RemovesLookups;
    PrunedParts(q, denied);
    PrunedRows(f, db, q, denied);
  }

  /** Without DISTINCT the pruned query returns the same rows, in the same order and number, on the kept columns. */
  lemma {:induction false} PruneKeepsResult(f: Functions, db: Db, q: Query, denied: set<string>)
    requires Prune(q, denied).Some? && RemovesLookups(f, db, q, denied) && !q.distinct
    requires Result(f, db, q).Some? && Result(f, db, Prune(q, denied).value).Some?
    requires Removed(q.joins, denied).Some? && KeepsMeaning(f, q, denied)
    ensures Result(f, db, Prune(q, denied).value)
         == Some(KeptRows(q.items, Result(f, db, q).value, RemovedNames(q, denied)))
  {
    hide *;
    PrunedResult(f, db, q, denied);
    KeptTake(q.items, q.limit, AllRows(f, db, Qualified(f, q)), RemovedNames(q, denied));
  }

  /** What LIMIT after DISTINCT leaves of the rows cut to the kept columns. */
  lemma {:induction false} DistinctTake(items: seq<Item>, limit: Option<nat>, rows: seq<seq<Cell>>, names: set<string>)
    ensures var original := Distinct(KeptRows(items, Take(limit, Distinct(rows)), names));
      var pruned := Take(limit, Distinct(KeptRows(items, rows, names)));
      original <= pruned && (limit.None? || limit.value <= 1 ==> original == pruned)
  {
    hide Distinct, KeptRows;
    var d := Distinct(rows);
    var kept := KeptRows(items, d, names);
    var n := |Take(limit, d)|;
    DistinctKept(items, rows, names);
    KeptTake(items, limit, d, names);
    assert Take(limit, kept) == kept[..n];
    DistinctPrefix(kept, n);
    DistinctNotEmpty(kept[..n]);
    DistinctNotEmpty(kept);
  }

  lemma {:induction false} DistinctNotEmpty<T>(rows: seq<T>)
    ensures Distinct(rows) == [] <==> rows == []
  {
    if rows != [] { DistinctMembers(rows, rows[0]); }
  }

  /**
   With DISTINCT the kept columns of the original's rows, without repetitions, begin the pruned
   result; they are all of it without LIMIT, and when LIMIT leaves one row at most.
   */
  lemma {:induction false} PruneKeepsDistinctResult(f: Functions, db: Db, q: Query, denied: set<string>)
    requires Prune(q, denied).Some? && RemovesLookups(f, db, q, denied) && q.distinct
    requires Result(f, db, q).Some? && Result(f, db, Prune(q, denied).value).Some?
    requires Removed(q.joins, denied).Some? && KeepsMeaning(f, q, denied)
    ensures var original := Distinct(KeptRows(q.items, Result(f, db, q).value, RemovedNames(q, denied)));
      var pruned := Result(f, db, Prune(q, denied).value).value;
      original <= pruned && (q.limit.None? || q.limit.value <= 1 ==> original == pruned)
  {
    hide *;
    PrunedResult(f, db, q, denied);
    DistinctTake(q.items, q.limit, AllRows(f, db, Qualified(f, q)), RemovedNames(q, denied));
  }

  // ----- the permission check around it -----

  /** `AI_TABLE_PERMISSIONS` for READ, and the permissions of a user. */
  datatype Access = Access(full: bool, codes: set<string>, required: map<string, string>)

  predicate MayRead(a: Access, table: string) {
    a.full || (table in a.required && a.required[table] in a.codes)
  }

  function Tables(q: Query): set<string> {
    {q.table} + set j | j in q.joins :: j.table
  }

  function Missing(a: Access, q: Query): set<string> {
    set t | t in Tables(q) && !MayRead(a, t)
  }

  function PruneUnreadable(a: Access, q: Query): Query {
    var missing := Missing(a, q);
    if missing == {} then q
    else
      var p := Prune(q, missing);
      if p.None? || !(Tables(p.value) !! missing) then q else p.value
  }

  lemma {:induction false} KeptTables(q: Query, denied: set<string>, t: string)
    requires Prune(q, denied).Some? && t in Tables(Prune(q, denied).value)
    ensures t in Tables(q)
  {
    var p := Prune(q, denied).value;
    if t != q.table {
      var j :| j in p.joins && j.table == t;
      KeptJoinsMembers(q.joins, denied, j);
    }
  }

  /** A changed query reads permitted tables only, among those of the original. */
  lemma {:induction false} PruneUnreadableIsSafe(a: Access, q: Query)
    requires PruneUnreadable(a, q) != q
    ensures forall t :: t in Tables(PruneUnreadable(a, q)) ==> t in Tables(q) && MayRead(a, t)
    ensures Prune(q, Missing(a, q)) == Some(PruneUnreadable(a, q))
  {
    var missing := Missing(a, q);
    forall t | t in Tables(PruneUnreadable(a, q)) ensures t in Tables(q) && MayRead(a, t) {
      KeptTables(q, missing, t);
      assert t !in missing;
    }
  }

  /**
   A query of a user is changed exactly when it is prunable of the tables the user may not read, and these
   are only joined, with ON.
   */
  lemma {:induction false} PrunedForUserIff(a: Access, q: Query)
    ensures PruneUnreadable(a, q) != q <==>
            && Prunable(q, Missing(a, q)) && MayRead(a, q.table)
            && (forall j :: j in q.joins && !MayRead(a, j.table) ==> j.on.Some?)
  {
    hide Prune, Prunable, MayRead;
    var missing := Missing(a, q);
    PrunedIff(q, missing);
    assert q.table in Tables(q);
    forall j | j in q.joins ensures j.table in Tables(q) && (j.table in missing <==> !MayRead(a, j.table)) {}
    if Prune(q, missing).Some? {
      var p := Prune(q, missing).value;
      PrunedDiffers(q, missing);
      PrunedParts(q, missing);
      TablesLeft(q, missing);
    }
  }

  lemma {:induction false} PrunedDiffers(q: Query, denied: set<string>)
    requires Prune(q, denied).Some?
    ensures Prune(q, denied).value != q && exists j :: j in q.joins && j.table in denied
  {
    hide Prune, Removed, KeptItems, KeptJoins, Left, Forbidden, NamesDenied, ComparesKey, Tokens;
    PrunedIff(q, denied);
    PrunedParts(q, denied);
    var j :| j in q.joins && Denied(j, denied);
    KeptJoinsMembers(q.joins, denied, j);
  }

  lemma {:induction false} TablesLeft(q: Query, denied: set<string>)
    requires Prune(q, denied).Some?
    ensures Tables(Prune(q, denied).value) !! denied
      <==> q.table !in denied && forall j :: j in q.joins && j.table in denied ==> j.on.Some?
  {
    hide Prune, Removed, KeptItems, KeptJoins;
    PrunedParts(q, denied);
    var p := Prune(q, denied).value;
    forall j ensures j in p.joins <==> j in q.joins && !Denied(j, denied) { KeptJoinsMembers(q.joins, denied, j); }
    if exists j :: j in q.joins && j.table in denied && j.on.None? {
      var j :| j in q.joins && j.table in denied && j.on.None?;
      assert j in p.joins && j.table in Tables(p);
    }
  }
}
