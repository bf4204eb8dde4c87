/**
 What an expression reads: on rows that agree on the aliases it mentions it has one value, so joins, WHERE,
 grouping, HAVING and ORDER BY give rows that agree. Qualifying its names adds what the names stand for.
 */
module Agreement {
  import opened Wrappers
  import opened Relational

  // ----- what an expression refers to -----

  /** Aliases whose row the expression reads. */
  function Aliases(e: Expr): set<string>
    decreases e, 0
  {
    match e
    case Col(a, _) => {a}
    case Name(_) => {}
    case Lit(_) => {}
    case Cmp(_, l, r) => Aliases(l) + Aliases(r)
    case And(l, r) => Aliases(l) + Aliases(r)
    case Or(l, r) => Aliases(l) + Aliases(r)
    case Not(x) => Aliases(x)
    case Paren(x) => Aliases(x)
    case Fn(_, args) => AliasesAll(args)
    case Agg(_, x) => Aliases(x)
  }

  function AliasesAll(es: seq<Expr>): set<string>
    decreases es, 0
  {
    if es == [] then {} else Aliases(es[0]) + AliasesAll(es[1..])
  }

  /** Two rows that differ only on the aliases `off`. */
  ghost predicate Agree(a: Env, b: Env, off: set<string>) {
    forall x :: x !in off ==> RowOf(a, x) == RowOf(b, x)
  }

  ghost predicate AgreeAll(a: seq<Env>, b: seq<Env>, off: set<string>) {
    |a| == |b| && forall i :: 0 <= i < |a| ==> Agree(a[i], b[i], off)
  }

  ghost predicate AgreeGroups(a: seq<seq<Env>>, b: seq<seq<Env>>, off: set<string>) {
    |a| == |b| && forall i :: 0 <= i < |a| ==> AgreeAll(a[i], b[i], off)
  }

  lemma {:induction false} EvalAgree(f: Functions, e: Expr, a: seq<Env>, b: seq<Env>, off: set<string>)
    requires AgreeAll(a, b, off) && Aliases(e) !! off
    ensures Eval(f, e, a) == Eval(f, e, b)
    decreases e, 0
  {
    match e {
      case Col(_, _) =>
        assert e.alias in Aliases(e);
      case Name(_) =>
      case Lit(_) =>
      case Cmp(_, l, r) => EvalAgree(f, l, a, b, off); EvalAgree(f, r, a, b, off);
      case And(l, r) => EvalAgree(f, l, a, b, off); EvalAgree(f, r, a, b, off);
      case Or(l, r) => EvalAgree(f, l, a, b, off); EvalAgree(f, r, a, b, off);
      case Not(x) => EvalAgree(f, x, a, b, off);
      case Paren(x) => EvalAgree(f, x, a, b, off);
      case Fn(_, args) => EvalAllAgree(f, args, a, b, off);
      case Agg(_, x) => EvalEachAgree(f, x, a, b, off);
    }
  }

  lemma {:induction false} EvalAllAgree(f: Functions, es: seq<Expr>, a: seq<Env>, b: seq<Env>, off: set<string>)
    requires AgreeAll(a, b, off) && AliasesAll(es) !! off
    ensures EvalAll(f, es, a) == EvalAll(f, es, b)
    decreases es, 0
  {
    if es != [] {
      EvalAgree(f, es[0], a, b, off);
      EvalAllAgree(f, es[1..], a, b, off);
    }
  }

  lemma {:induction false} EvalEachAgree(f: Functions, e: Expr, a: seq<Env>, b: seq<Env>, off: set<string>)
    requires AgreeAll(a, b, off) && Aliases(e) !! off
    ensures EvalEach(f, e, a) == EvalEach(f, e, b)
    decreases e, 1, |a|
  {
    if a != [] {
      EvalAgree(f, e, a[..1], b[..1], off);
      EvalEachAgree(f, e, a[1..], b[1..], off);
    }
  }

  // ----- a join acts alike on both -----

  lemma {:induction false} AgreeAppend(a: seq<Env>, b: seq<Env>, c: seq<Env>, d: seq<Env>, off: set<string>)
    requires AgreeAll(a, b, off) && AgreeAll(c, d, off)
    ensures AgreeAll(a + c, b + d, off)
  {
    hide Agree;
  }

  lemma {:induction false} AgreeParts(a: seq<Env>, b: seq<Env>, off: set<string>)
    requires AgreeAll(a, b, off) && a != []
    ensures b != [] && Agree(a[0], b[0], off) && AgreeAll(a[1..], b[1..], off) && AgreeAll([a[0]], [b[0]], off)
    ensures AgreeAll(a[..1], b[..1], off) && a[..1] == [a[0]] && b[..1] == [b[0]]
  {
    hide Agree;
  }

  lemma {:induction false} NoneAgree(a: seq<Env>, b: seq<Env>, off: set<string>)
    requires a == []
    ensures AgreeAll(a, b, off) <==> b == []
  {
  }

  lemma {:induction false} BoundAgree(a: Env, b: Env, alias: string, r: Record, off: set<string>)
    requires Agree(a, b, off)
    ensures Agree(a[alias := r], b[alias := r], off)
  {
  }

  lemma {:induction false} AcceptsAgree(f: Functions, j: Join, x: Env, y: Env, off: set<string>)
    requires Agree(x, y, off) && (j.on.None? || Aliases(j.on.value) !! off)
    ensures Accepts(f, j, x) == Accepts(f, j, y)
  {
    hide Agree, Aliases, Eval;
    if j.on.Some? {
      OneAgrees(true, x, y, off);
      EvalAgree(f, j.on.value, [x], [y], off);
    }
  }

  lemma {:induction false} OneAgrees(kept: bool, x: Env, y: Env, off: set<string>)
    requires Agree(x, y, off)
    ensures AgreeAll(if kept then [x] else [], if kept then [y] else [], off)
  {
    hide Agree;
  }

  lemma {:induction false} MatchesAgree(f: Functions, rows: seq<Record>, a: Env, b: Env, j: Join, off: set<string>)
    requires Agree(a, b, off) && (j.on.None? || Aliases(j.on.value) !! off)
    ensures AgreeAll(Matches(f, rows, a, j), Matches(f, rows, b, j), off)
  {
    hide Agree, AgreeAll, Accepts, Aliases;
    if rows != [] {
      var x, y := a[j.alias := rows[0]], b[j.alias := rows[0]];
      var kept := Accepts(f, j, x);
      BoundAgree(a, b, j.alias, rows[0], off);
      AcceptsAgree(f, j, x, y, off);
      OneAgrees(kept, x, y, off);
      MatchesAgree(f, rows[1..], a, b, j, off);
      AgreeAppend(if kept then [x] else [], if kept then [y] else [], Matches(f, rows[1..], a, j),
                  Matches(f, rows[1..], b, j), off);
    } else {
      NoneAgree([], [], off);
    }
  }

  lemma {:induction false} BlockAgree(f: Functions, rows: seq<Record>, a: Env, b: Env, j: Join, off: set<string>)
    requires Agree(a, b, off) && (j.on.None? || Aliases(j.on.value) !! off)
    ensures AgreeAll(Block(f, rows, a, j), Block(f, rows, b, j), off)
  {
    hide Matches;
    MatchesAgree(f, rows, a, b, j, off);
    assert Agree(a[j.alias := map[]], b[j.alias := map[]], off);
  }

  lemma {:induction false} BlocksAgree(f: Functions, rows: seq<Record>, a: seq<Env>, b: seq<Env>, j: Join,
          off: set<string>)
    requires AgreeAll(a, b, off) && (j.on.None? || Aliases(j.on.value) !! off)
    ensures AgreeAll(Blocks(f, rows, a, j), Blocks(f, rows, b, j), off)
  {
    hide Agree, Block, AgreeAll;
    if a != [] {
      AgreeParts(a, b, off);
      BlockAgree(f, rows, a[0], b[0], j, off);
      BlocksAgree(f, rows, a[1..], b[1..], j, off);
      AgreeAppend(Block(f, rows, a[0], j), Block(f, rows, b[0], j), Blocks(f, rows, a[1..], j),
                  Blocks(f, rows, b[1..], j), off);
    } else {
      NoneAgree(a, b, off);
    }
  }

  lemma {:induction false} LeftMatchesAgree(f: Functions, r: Record, a: seq<Env>, b: seq<Env>, j: Join,
          off: set<string>)
    requires AgreeAll(a, b, off) && (j.on.None? || Aliases(j.on.value) !! off)
    ensures AgreeAll(LeftMatches(f, r, a, j), LeftMatches(f, r, b, j), off)
  {
    hide Agree, AgreeAll, Accepts, Aliases;
    if a != [] {
      AgreeParts(a, b, off);
      var x, y := a[0][j.alias := r], b[0][j.alias := r];
      var kept := Accepts(f, j, x);
      BoundAgree(a[0], b[0], j.alias, r, off);
      AcceptsAgree(f, j, x, y, off);
      OneAgrees(kept, x, y, off);
      LeftMatchesAgree(f, r, a[1..], b[1..], j, off);
      AgreeAppend(if kept then [x] else [], if kept then [y] else [], LeftMatches(f, r, a[1..], j),
                  LeftMatches(f, r, b[1..], j), off);
    } else {
      NoneAgree(a, b, off);
    }
  }

  lemma {:induction false} RightBlockAgree(f: Functions, outer: Env, r: Record, a: seq<Env>, b: seq<Env>, j: Join,
          off: set<string>)
    requires AgreeAll(a, b, off) && (j.on.None? || Aliases(j.on.value) !! off)
    ensures AgreeAll(RightBlock(f, outer, r, a, j), RightBlock(f, outer, r, b, j), off)
  {
    hide LeftMatches;
    LeftMatchesAgree(f, r, a, b, j, off);
  }

  lemma {:induction false} RightBlocksAgree(f: Functions, outer: Env, rows: seq<Record>, a: seq<Env>, b: seq<Env>,
          j: Join, off: set<string>)
    requires AgreeAll(a, b, off) && (j.on.None? || Aliases(j.on.value) !! off)
    ensures AgreeAll(RightBlocks(f, outer, rows, a, j), RightBlocks(f, outer, rows, b, j), off)
  {
    hide Agree, RightBlock, AgreeAll;
    if rows != [] {
      RightBlockAgree(f, outer, rows[0], a, b, j, off);
      RightBlocksAgree(f, outer, rows[1..], a, b, j, off);
      AgreeAppend(RightBlock(f, outer, rows[0], a, j), RightBlock(f, outer, rows[0], b, j),
                  RightBlocks(f, outer, rows[1..], a, j), RightBlocks(f, outer, rows[1..], b, j), off);
    } else {
      NoneAgree([], [], off);
    }
  }

  lemma {:induction false} StepAgree(f: Functions, db: Db, a: seq<Env>, b: seq<Env>, j: Join, off: set<string>)
    requires AgreeAll(a, b, off) && (j.on.None? || Aliases(j.on.value) !! off)
    ensures AgreeAll(Step(f, db, map[], a, j), Step(f, db, map[], b, j), off)
  {
    hide AgreeAll, Blocks, RightBlocks;
    var rows := Rows(db, j.table);
    if j.kind.Right? { RightBlocksAgree(f, map[], rows, a, b, j, off); } else { BlocksAgree(f, rows, a, b, j, off); }
  }

  // ----- and so do WHERE, grouping, HAVING, ORDER BY -----

  lemma {:induction false} WhereAgree(f: Functions, e: Expr, a: seq<Env>, b: seq<Env>, off: set<string>)
    requires AgreeAll(a, b, off) && Aliases(e) !! off
    ensures AgreeAll(Where(f, e, a), Where(f, e, b), off)
  {
    hide Agree, AgreeAll, Aliases, Eval;
    if a != [] {
      AgreeParts(a, b, off);
      var kept := Holds(f, e, a[0]);
      EvalAgree(f, e, [a[0]], [b[0]], off);
      OneAgrees(kept, a[0], b[0], off);
      WhereAgree(f, e, a[1..], b[1..], off);
      AgreeAppend(if kept then [a[0]] else [], if kept then [b[0]] else [], Where(f, e, a[1..]), Where(f, e, b[1..]),
                  off);
    } else {
      NoneAgree(a, b, off);
    }
  }

  lemma {:induction false} WithKeyAgree(f: Functions, keys: seq<Expr>, k: seq<Value>, same: bool, a: seq<Env>,
          b: seq<Env>, off: set<string>)
    requires AgreeAll(a, b, off) && AliasesAll(keys) !! off
    ensures AgreeAll(WithKey(f, keys, k, same, a), WithKey(f, keys, k, same, b), off)
  {
    hide Agree, AgreeAll, AliasesAll, EvalAll;
    if a != [] {
      AgreeParts(a, b, off);
      var kept := (EvalAll(f, keys, a[..1]) == k) == same;
      EvalAllAgree(f, keys, a[..1], b[..1], off);
      OneAgrees(kept, a[0], b[0], off);
      WithKeyAgree(f, keys, k, same, a[1..], b[1..], off);
      AgreeAppend(if kept then [a[0]] else [], if kept then [b[0]] else [], WithKey(f, keys, k, same, a[1..]),
                  WithKey(f, keys, k, same, b[1..]), off);
    } else {
      NoneAgree(a, b, off);
    }
  }

  lemma {:induction false} GroupByAgree(f: Functions, keys: seq<Expr>, a: seq<Env>, b: seq<Env>, off: set<string>)
    requires AgreeAll(a, b, off) && AliasesAll(keys) !! off
    ensures AgreeGroups(GroupBy(f, keys, a), GroupBy(f, keys, b), off)
    decreases |a|
  {
    hide Agree, AgreeAll, AgreeGroups, EvalAll, WithKey, AliasesAll;
    if a != [] {
      var k := EvalAll(f, keys, a[..1]);
      AgreeParts(a, b, off);
      EvalAllAgree(f, keys, a[..1], b[..1], off);
      WithKeyAgree(f, keys, k, true, a[1..], b[1..], off);
      WithKeyAgree(f, keys, k, false, a[1..], b[1..], off);
      AgreeAppend([a[0]], [b[0]], WithKey(f, keys, k, true, a[1..]), WithKey(f, keys, k, true, b[1..]), off);
      GroupByAgree(f, keys, WithKey(f, keys, k, false, a[1..]), WithKey(f, keys, k, false, b[1..]), off);
      GroupsCons([a[0]] + WithKey(f, keys, k, true, a[1..]), [b[0]] + WithKey(f, keys, k, true, b[1..]),
                 GroupBy(f, keys, WithKey(f, keys, k, false, a[1..])),
                 GroupBy(f, keys, WithKey(f, keys, k, false, b[1..])), off);
    } else {
      NoneAgree(a, b, off);
      NoGroup(off);
    }
  }

  lemma {:induction false} GroupsCons(g: seq<Env>, h: seq<Env>, a: seq<seq<Env>>, b: seq<seq<Env>>, off: set<string>)
    requires AgreeAll(g, h, off) && AgreeGroups(a, b, off)
    ensures AgreeGroups([g] + a, [h] + b, off)
  {
    hide AgreeAll;
  }

  lemma {:induction false} NoGroup(off: set<string>)
    ensures AgreeGroups([], [], off)
  {
  }

  lemma {:induction false} SinglesAgree(a: seq<Env>, b: seq<Env>, off: set<string>)
    requires AgreeAll(a, b, off)
    ensures AgreeGroups(Singles(a), Singles(b), off)
  {
    if a != [] { SinglesAgree(a[1..], b[1..], off); }
  }

  /** Without GROUP BY, an aggregate makes all rows one group. */
  predicate SingleGroup(q: Query) {
    q.grouping.Ungrouped? && Aggregates(q)
  }

  lemma {:induction false} GroupsAgree(f: Functions, o: Query, p: Query, a: seq<Env>, b: seq<Env>, off: set<string>)
    requires AgreeAll(a, b, off) && AliasesAll(GroupKeys(o.grouping)) !! off
    requires o.grouping == p.grouping && SingleGroup(o) == SingleGroup(p)
    ensures AgreeGroups(Groups(f, o, a), Groups(f, p, b), off)
  {
    hide Agree, Aggregates;
    match o.grouping {
      case By(keys) => GroupByAgree(f, keys, a, b, off);
      case Ungrouped => if !Aggregates(o) { SinglesAgree(a, b, off); }
    }
  }

  lemma {:induction false} HavingAgree(f: Functions, e: Expr, a: seq<seq<Env>>, b: seq<seq<Env>>, off: set<string>)
    requires AgreeGroups(a, b, off) && Aliases(e) !! off
    ensures AgreeGroups(Having(f, e, a), Having(f, e, b), off)
  {
    if a != [] {
      EvalAgree(f, e, a[0], b[0], off);
      HavingAgree(f, e, a[1..], b[1..], off);
    }
  }

  lemma {:induction false} InsertAgree(f: Functions, keys: seq<Expr>, dirs: seq<bool>, g: seq<Env>, h: seq<Env>,
                                       a: seq<seq<Env>>, b: seq<seq<Env>>, off: set<string>)
    requires AgreeAll(g, h, off) && AgreeGroups(a, b, off) && AliasesAll(keys) !! off
    ensures AgreeGroups(Insert(f, keys, dirs, g, a), Insert(f, keys, dirs, h, b), off)
  {
    hide AgreeAll, AgreeGroups, EvalAll, AliasesAll;
    if a != [] {
      GroupParts(a, b, off);
      EvalAllAgree(f, keys, g, h, off);
      EvalAllAgree(f, keys, a[0], b[0], off);
      InsertAgree(f, keys, dirs, g, h, a[1..], b[1..], off);
      GroupsCons(a[0], b[0], Insert(f, keys, dirs, g, a[1..]), Insert(f, keys, dirs, h, b[1..]), off);
      GroupsCons(g, h, a, b, off);
    } else {
      NoGroups(b, off, a);
      NoGroup(off);
      GroupsCons(g, h, [], [], off);
      assert [g] + [] == [g] && [h] + [] == [h];
    }
  }

  lemma {:induction false} GroupParts(a: seq<seq<Env>>, b: seq<seq<Env>>, off: set<string>)
    requires AgreeGroups(a, b, off) && a != []
    ensures b != [] && AgreeAll(a[0], b[0], off) && AgreeGroups(a[1..], b[1..], off)
  {
    hide AgreeAll;
  }

  lemma {:induction false} NoGroups(b: seq<seq<Env>>, off: set<string>, a: seq<seq<Env>>)
    requires AgreeGroups(a, b, off) && a == []
    ensures b == []
  {
  }

  lemma {:induction false} SortAgree(f: Functions, keys: seq<Expr>, dirs: seq<bool>, a: seq<seq<Env>>, b: seq<seq<Env>>,
          off: set<string>)
    requires AgreeGroups(a, b, off) && AliasesAll(keys) !! off
    ensures AgreeGroups(Sort(f, keys, dirs, a), Sort(f, keys, dirs, b), off)
  {
    hide AgreeAll, AgreeGroups, Insert, AliasesAll;
    if a == [] {
      NoGroups(b, off, a);
      NoGroup(off);
    } else {
      GroupParts(a, b, off);
      SortAgree(f, keys, dirs, a[1..], b[1..], off);
      InsertAgree(f, keys, dirs, a[0], b[0], Sort(f, keys, dirs, a[1..]), Sort(f, keys, dirs, b[1..]), off);
    }
  }

  // ----- qualified expressions -----

  lemma {:induction false} QualifySame(s: Scope, t: Scope, e: Expr)
    requires forall n :: n in Unqualified(e) ==> s(n) == t(n)
    ensures Qualify(s, e) == Qualify(t, e)
    decreases e, 0
  {
    match e {
      case Col(_, _) =>
      case Name(n) => assert n in Unqualified(e);
      case Lit(_) =>
      case Cmp(_, l, r) => QualifySame(s, t, l); QualifySame(s, t, r);
      case And(l, r) => QualifySame(s, t, l); QualifySame(s, t, r);
      case Or(l, r) => QualifySame(s, t, l); QualifySame(s, t, r);
      case Not(x) => QualifySame(s, t, x);
      case Paren(x) => QualifySame(s, t, x);
      case Fn(_, args) => QualifyAllSame(s, t, args);
      case Agg(_, x) => QualifySame(s, t, x);
    }
  }

  lemma {:induction false} QualifyAllSame(s: Scope, t: Scope, es: seq<Expr>)
    requires forall n :: n in UnqualifiedAll(es) ==> s(n) == t(n)
    ensures QualifyAll(s, es) == QualifyAll(t, es)
    decreases es, 0
  {
    if es != [] {
      QualifySame(s, t, es[0]);
      QualifyAllSame(s, t, es[1..]);
    }
  }

  /** What HAVING names, outside its aggregates and inside, are names in it. */
  lemma {:induction false} ReferencesAreNames(e: Expr)
    ensures (forall n :: Name(n) in References(e) ==> n in Unqualified(e)) && Inside(e) <= Unqualified(e)
    decreases e, 0
  {
    match e {
      case Col(_, _) =>
      case Name(_) =>
      case Lit(_) =>
      case Cmp(_, l, r) => ReferencesAreNames(l); ReferencesAreNames(r);
      case And(l, r) => ReferencesAreNames(l); ReferencesAreNames(r);
      case Or(l, r) => ReferencesAreNames(l); ReferencesAreNames(r);
      case Not(x) => ReferencesAreNames(x);
      case Paren(x) => ReferencesAreNames(x);
      case Fn(_, args) => AllReferencesAreNames(args);
      case Agg(_, _) =>
    }
  }

  lemma {:induction false} AllReferencesAreNames(es: seq<Expr>)
    ensures forall n :: Name(n) in ReferencesAll(es) ==> n in UnqualifiedAll(es)
    ensures InsideAll(es) <= UnqualifiedAll(es)
    decreases es, 0
  {
    if es != [] {
      ReferencesAreNames(es[0]);
      AllReferencesAreNames(es[1..]);
    }
  }

  lemma {:induction false} HavingSame(s: Scope, t: Scope, s2: Scope, t2: Scope, e: Expr)
    requires forall n :: Name(n) in References(e) ==> s(n) == s2(n)
    requires forall n :: n in Inside(e) ==> t(n) == t2(n)
    ensures QualifyHaving(s, t, e) == QualifyHaving(s2, t2, e)
    decreases e, 0
  {
    match e {
      case Col(_, _) =>
      case Name(n) => assert Name(n) in References(e);
      case Lit(_) =>
      case Cmp(_, l, r) => HavingSame(s, t, s2, t2, l); HavingSame(s, t, s2, t2, r);
      case And(l, r) => HavingSame(s, t, s2, t2, l); HavingSame(s, t, s2, t2, r);
      case Or(l, r) => HavingSame(s, t, s2, t2, l); HavingSame(s, t, s2, t2, r);
      case Not(x) => HavingSame(s, t, s2, t2, x);
      case Paren(x) => HavingSame(s, t, s2, t2, x);
      case Fn(_, args) => HavingAllSame(s, t, s2, t2, args);
      case Agg(_, x) => QualifySame(t, t2, x);
    }
  }

  lemma {:induction false} HavingAllSame(s: Scope, t: Scope, s2: Scope, t2: Scope, es: seq<Expr>)
    requires forall n :: Name(n) in ReferencesAll(es) ==> s(n) == s2(n)
    requires forall n :: n in InsideAll(es) ==> t(n) == t2(n)
    ensures QualifyHavingAll(s, t, es) == QualifyHavingAll(s2, t2, es)
    decreases es, 0
  {
    if es != [] {
      HavingSame(s, t, s2, t2, es[0]);
      HavingAllSame(s, t, s2, t2, es[1..]);
    }
  }

  /** A name that stands for two things makes two expressions. */
  lemma {:induction false} QualifyDiffers(s: Scope, t: Scope, e: Expr, n: string)
    requires n in Unqualified(e) && s(n).Some? && t(n).Some? && s(n) != t(n)
    ensures Qualify(s, e) != Qualify(t, e)
    decreases e, 0
  {
    match e {
      case Col(_, _) =>
      case Name(_) =>
      case Lit(_) =>
      case Cmp(_, l, r) => if n in Unqualified(l) { QualifyDiffers(s, t, l, n); } else { QualifyDiffers(s, t, r, n); }
      case And(l, r) => if n in Unqualified(l) { QualifyDiffers(s, t, l, n); } else { QualifyDiffers(s, t, r, n); }
      case Or(l, r) => if n in Unqualified(l) { QualifyDiffers(s, t, l, n); } else { QualifyDiffers(s, t, r, n); }
      case Not(x) => QualifyDiffers(s, t, x, n);
      case Paren(x) => QualifyDiffers(s, t, x, n);
      case Fn(_, args) => QualifyAllDiffers(s, t, args, n);
      case Agg(_, x) => QualifyDiffers(s, t, x, n);
    }
  }

  lemma {:induction false} QualifyAllDiffers(s: Scope, t: Scope, es: seq<Expr>, n: string)
    requires n in UnqualifiedAll(es) && s(n).Some? && t(n).Some? && s(n) != t(n)
    ensures QualifyAll(s, es) != QualifyAll(t, es)
    decreases es, 0
  {
    var a, b := QualifyAll(s, es), QualifyAll(t, es);
    assert a[0] == Qualify(s, es[0]) && a[1..] == QualifyAll(s, es[1..]);
    assert b[0] == Qualify(t, es[0]) && b[1..] == QualifyAll(t, es[1..]);
    if n in Unqualified(es[0]) { QualifyDiffers(s, t, es[0], n); } else { QualifyAllDiffers(s, t, es[1..], n); }
  }

  lemma {:induction false} HavingDiffers(s: Scope, t: Scope, s2: Scope, t2: Scope, e: Expr, n: string)
    requires Name(n) in References(e) && s(n).Some? && s2(n).Some? && s(n) != s2(n)
    ensures QualifyHaving(s, t, e) != QualifyHaving(s2, t2, e)
    decreases e, 0
  {
    var x := Name(n);
    match e {
      case Col(_, _) =>
      case Name(_) =>
      case Lit(_) =>
      case Cmp(_, l, r) => HavingDiffers(s, t, s2, t2, if x in References(l) then l else r, n);
      case And(l, r) => HavingDiffers(s, t, s2, t2, if x in References(l) then l else r, n);
      case Or(l, r) => HavingDiffers(s, t, s2, t2, if x in References(l) then l else r, n);
      case Not(y) => HavingDiffers(s, t, s2, t2, y, n);
      case Paren(y) => HavingDiffers(s, t, s2, t2, y, n);
      case Fn(_, args) => HavingAllDiffers(s, t, s2, t2, args, n);
      case Agg(_, _) =>
    }
  }

  lemma {:induction false} HavingAllDiffers(s: Scope, t: Scope, s2: Scope, t2: Scope, es: seq<Expr>, n: string)
    requires Name(n) in ReferencesAll(es) && s(n).Some? && s2(n).Some? && s(n) != s2(n)
    ensures QualifyHavingAll(s, t, es) != QualifyHavingAll(s2, t2, es)
    decreases es, 0
  {
    var a, b := QualifyHavingAll(s, t, es), QualifyHavingAll(s2, t2, es);
    assert a[0] == QualifyHaving(s, t, es[0]) && a[1..] == QualifyHavingAll(s, t, es[1..]);
    assert b[0] == QualifyHaving(s2, t2, es[0]) && b[1..] == QualifyHavingAll(s2, t2, es[1..]);
    if Name(n) in References(es[0]) {
      HavingDiffers(s, t, s2, t2, es[0], n);
    } else {
      HavingAllDiffers(s, t, s2, t2, es[1..], n);
    }
  }

  lemma {:induction false} NamedSame(s: Scope, t: Scope, items: seq<Item>, n: string)
    requires forall x :: x in ItemNames(items) ==> s(x) == t(x)
    ensures Named(s, items, n) == Named(t, items, n) && QualifyItems(s, items) == QualifyItems(t, items)
  {
    hide Qualify, Unqualified;
    if items != [] {
      if items[0].Item? { QualifySame(s, t, items[0].e); }
      NamedSame(s, t, items[1..], n);
    }
  }

  lemma {:induction false} NamesOfOrder(s: Scope, t: Scope, order: seq<OrderKey>)
    ensures (forall n :: n in UnqualifiedAll(OrderExprs(order)) ==> s(n) == t(n))
      ==> QualifyOrder(s, order) == QualifyOrder(t, order)
    ensures forall n | n in UnqualifiedAll(OrderExprs(order)) && s(n).Some? && t(n).Some? && s(n) != t(n) ::
              QualifyOrder(s, order) != QualifyOrder(t, order)
  {
    hide Qualify, Unqualified, QualifyOrder;
    if order == [] {
      NoOrder(s, t);
    } else {
      var rest := OrderExprs(order)[1..];
      assert rest == OrderExprs(order[1..]);
      OrderFirst(s, order);
      OrderFirst(t, order);
      NamesOfOrder(s, t, order[1..]);
      if forall n :: n in UnqualifiedAll(OrderExprs(order)) ==> s(n) == t(n) { QualifySame(s, t, order[0].e); }
      forall n | n in Unqualified(order[0].e) && s(n).Some? && t(n).Some? && s(n) != t(n)
        ensures Qualify(s, order[0].e) != Qualify(t, order[0].e)
      {
        QualifyDiffers(s, t, order[0].e, n);
      }
    }
  }

  lemma {:induction false} NoOrder(s: Scope, t: Scope)
    ensures QualifyOrder(s, []) == QualifyOrder(t, [])
  {
  }

  lemma {:induction false} OrderFirst(s: Scope, order: seq<OrderKey>)
    requires order != []
    ensures var r := QualifyOrder(s, order);
      r != [] && r[0] == order[0].(e := Qualify(s, order[0].e)) && r[1..] == QualifyOrder(s, order[1..])
  {
    hide Qualify;
  }

  ghost predicate ScopeAvoids(s: Scope, off: set<string>) {
    forall n :: s(n).Some? ==> Aliases(s(n).value) !! off
  }

  lemma {:induction false} QualifyAvoids(s: Scope, e: Expr, off: set<string>)
    requires ScopeAvoids(s, off) && Aliases(e) !! off
    ensures Aliases(Qualify(s, e)) !! off
    decreases e, 0
  {
    match e {
      case Col(_, _) =>
      case Name(n) =>
      case Lit(_) =>
      case Cmp(_, l, r) => QualifyAvoids(s, l, off); QualifyAvoids(s, r, off);
      case And(l, r) => QualifyAvoids(s, l, off); QualifyAvoids(s, r, off);
      case Or(l, r) => QualifyAvoids(s, l, off); QualifyAvoids(s, r, off);
      case Not(x) => QualifyAvoids(s, x, off);
      case Paren(x) => QualifyAvoids(s, x, off);
      case Fn(_, args) => QualifyAllAvoids(s, args, off);
      case Agg(_, x) => QualifyAvoids(s, x, off);
    }
  }

  lemma {:induction false} QualifyAllAvoids(s: Scope, es: seq<Expr>, off: set<string>)
    requires ScopeAvoids(s, off) && AliasesAll(es) !! off
    ensures AliasesAll(QualifyAll(s, es)) !! off
    decreases es, 0
  {
    if es != [] {
      QualifyAvoids(s, es[0], off);
      QualifyAllAvoids(s, es[1..], off);
      QualifyAllFirst(s, es);
    }
  }

  lemma {:induction false} HavingAvoids(s: Scope, t: Scope, e: Expr, off: set<string>)
    requires ScopeAvoids(s, off) && ScopeAvoids(t, off) && Aliases(e) !! off
    ensures Aliases(QualifyHaving(s, t, e)) !! off
    decreases e, 0
  {
    match e {
      case Col(_, _) =>
      case Name(n) =>
      case Lit(_) =>
      case Cmp(_, l, r) => HavingAvoids(s, t, l, off); HavingAvoids(s, t, r, off);
      case And(l, r) => HavingAvoids(s, t, l, off); HavingAvoids(s, t, r, off);
      case Or(l, r) => HavingAvoids(s, t, l, off); HavingAvoids(s, t, r, off);
      case Not(x) => HavingAvoids(s, t, x, off);
      case Paren(x) => HavingAvoids(s, t, x, off);
      case Fn(_, args) => HavingAllAvoids(s, t, args, off);
      case Agg(_, x) => QualifyAvoids(t, x, off);
    }
  }

  lemma {:induction false} HavingAllAvoids(s: Scope, t: Scope, es: seq<Expr>, off: set<string>)
    requires ScopeAvoids(s, off) && ScopeAvoids(t, off) && AliasesAll(es) !! off
    ensures AliasesAll(QualifyHavingAll(s, t, es)) !! off
    decreases es, 0
  {
    if es != [] {
      HavingAvoids(s, t, es[0], off);
      HavingAllAvoids(s, t, es[1..], off);
      var all := QualifyHavingAll(s, t, es);
      assert all[0] == QualifyHaving(s, t, es[0]) && all[1..] == QualifyHavingAll(s, t, es[1..]);
    }
  }

  lemma {:induction false} QualifyAllFirst(s: Scope, es: seq<Expr>)
    requires es != []
    ensures QualifyAll(s, es) != [] && QualifyAll(s, es)[0] == Qualify(s, es[0])
    ensures QualifyAll(s, es)[1..] == QualifyAll(s, es[1..])
  {
  }

  lemma {:induction false} OrderIsQualified(s: Scope, order: seq<OrderKey>)
    ensures OrderExprs(QualifyOrder(s, order)) == QualifyAll(s, OrderExprs(order))
    ensures Directions(QualifyOrder(s, order)) == Directions(order)
  {
    if order != [] {
      OrderIsQualified(s, order[1..]);
      assert QualifyOrder(s, order)[1..] == QualifyOrder(s, order[1..]);
      assert OrderExprs(order)[1..] == OrderExprs(order[1..]);
    }
  }

  // ----- aggregates -----

  ghost predicate NoAggregate(s: Scope) {
    forall n :: s(n).Some? ==> !HasAggregate(s(n).value)
  }

  /** A name adds an aggregate only if it stands for one. */
  lemma {:induction false} QualifyAggregate(s: Scope, e: Expr)
    ensures HasAggregate(e) ==> HasAggregate(Qualify(s, e))
    ensures NoAggregate(s) && HasAggregate(Qualify(s, e)) ==> HasAggregate(e)
    decreases e, 0
  {
    match e {
      case Col(_, _) =>
      case Name(_) =>
      case Lit(_) =>
      case Cmp(_, l, r) => QualifyAggregate(s, l); QualifyAggregate(s, r);
      case And(l, r) => QualifyAggregate(s, l); QualifyAggregate(s, r);
      case Or(l, r) => QualifyAggregate(s, l); QualifyAggregate(s, r);
      case Not(x) => QualifyAggregate(s, x);
      case Paren(x) => QualifyAggregate(s, x);
      case Fn(_, args) => QualifyAnyAggregate(s, args);
      case Agg(_, _) =>
    }
  }

  lemma {:induction false} QualifyAnyAggregate(s: Scope, es: seq<Expr>)
    ensures AnyAggregate(es) ==> AnyAggregate(QualifyAll(s, es))
    ensures NoAggregate(s) && AnyAggregate(QualifyAll(s, es)) ==> AnyAggregate(es)
    decreases es, 0
  {
    hide NoAggregate;
    if es != [] {
      QualifyAggregate(s, es[0]);
      QualifyAnyAggregate(s, es[1..]);
      QualifyAllFirst(s, es);
    }
  }

  lemma {:induction false} HavingAggregate(s: Scope, t: Scope, e: Expr)
    ensures HasAggregate(e) ==> HasAggregate(QualifyHaving(s, t, e))
    ensures NoAggregate(s) && HasAggregate(QualifyHaving(s, t, e)) ==> HasAggregate(e)
    decreases e, 0
  {
    match e {
      case Col(_, _) =>
      case Name(_) =>
      case Lit(_) =>
      case Cmp(_, l, r) => HavingAggregate(s, t, l); HavingAggregate(s, t, r);
      case And(l, r) => HavingAggregate(s, t, l); HavingAggregate(s, t, r);
      case Or(l, r) => HavingAggregate(s, t, l); HavingAggregate(s, t, r);
      case Not(x) => HavingAggregate(s, t, x);
      case Paren(x) => HavingAggregate(s, t, x);
      case Fn(_, args) => HavingAnyAggregate(s, t, args);
      case Agg(_, _) =>
    }
  }

  lemma {:induction false} HavingAnyAggregate(s: Scope, t: Scope, es: seq<Expr>)
    ensures AnyAggregate(es) ==> AnyAggregate(QualifyHavingAll(s, t, es))
    ensures NoAggregate(s) && AnyAggregate(QualifyHavingAll(s, t, es)) ==> AnyAggregate(es)
    decreases es, 0
  {
    hide NoAggregate;
    if es != [] {
      HavingAggregate(s, t, es[0]);
      HavingAnyAggregate(s, t, es[1..]);
      var all := QualifyHavingAll(s, t, es);
      assert all[0] == QualifyHaving(s, t, es[0]) && all[1..] == QualifyHavingAll(s, t, es[1..]);
    }
  }

  lemma {:induction false} ColumnsAreNoAggregates(f: Functions, q: Query, joins: seq<Join>)
    ensures NoAggregate(ColumnScope(f, q, joins))
  {
    hide Owners;
  }

  lemma {:induction false} ItemsAggregateFirst(item: Item, items: seq<Item>)
    ensures ItemsAggregate([item] + items) <==> (item.Item? && HasAggregate(item.e)) || ItemsAggregate(items)
    ensures !ItemsAggregate([])
  {
    hide HasAggregate;
    var all := [item] + items;
    assert all[0] == item && forall c :: c in all <==> c == item || c in items;
  }

  lemma {:induction false} QualifyItemsAggregate(s: Scope, items: seq<Item>)
    requires NoAggregate(s)
    ensures ItemsAggregate(QualifyItems(s, items)) <==> ItemsAggregate(items)
  {
    hide NoAggregate, HasAggregate, Qualify, ItemsAggregate;
    if items != [] {
      var first := if items[0].Item? then items[0].(e := Qualify(s, items[0].e)) else items[0];
      ItemsAggregateFirst(items[0], items[1..]);
      ItemsAggregateFirst(first, QualifyItems(s, items[1..]));
      assert items == [items[0]] + items[1..];
      if items[0].Item? { QualifyAggregate(s, items[0].e); }
      QualifyItemsAggregate(s, items[1..]);
    }
  }

  lemma {:induction false} NamedAggregates(s: Scope, items: seq<Item>, n: string)
    requires NoAggregate(s) && !ItemsAggregate(items)
    ensures forall e :: e in Named(s, items, n) ==> !HasAggregate(e)
  {
    hide NoAggregate, HasAggregate, Qualify, ItemsAggregate, ItemName;
    if items != [] {
      ItemsAggregateFirst(items[0], items[1..]);
      assert items == [items[0]] + items[1..];
      if items[0].Item? { QualifyAggregate(s, items[0].e); }
      NamedAggregates(s, items[1..], n);
    }
  }

  lemma {:induction false} ColumnsOfAre(owners: seq<string>, n: string)
    ensures forall e :: e in ColumnsOf(owners, n) <==> e.Col? && e.column == n && e.alias in owners
  {
    if owners != [] {
      ColumnsOfAre(owners[1..], n);
      assert owners == [owners[0]] + owners[1..];
    }
  }

  lemma {:induction false} ColumnsNamedAre(es: seq<Expr>, n: string)
    ensures forall e :: e in ColumnsNamed(es, n) <==> e in es && e.Col? && e.column == n
  {
    if es != [] {
      ColumnsNamedAre(es[1..], n);
      assert es == [es[0]] + es[1..];
    }
  }

  lemma {:induction false} StarColumnsAre(items: seq<Item>, owners: seq<string>, n: string)
    ensures forall e :: e in StarColumns(items, owners, n) <==>
                        e.Col? && e.column == n && e.alias in owners && (Star in items || TableStar(e.alias) in items)
  {
    if items != [] {
      StarColumnsAre(items[1..], owners, n);
      ColumnsOfAre(owners, n);
      assert items == [items[0]] + items[1..];
    }
  }

  lemma {:induction false} SelectedAre(items: seq<Item>)
    ensures forall e :: e in Selected(items) <==> exists c :: c in items && c.Item? && c.e == e
  {
    if items != [] {
      SelectedAre(items[1..]);
      assert items == [items[0]] + items[1..];
    }
  }

  /** HAVING takes what SELECT shows, or a column. */
  lemma {:induction false} HavingNameIs(f: Functions, q: Query, n: string)
    requires HavingName(f, q, n).Some?
    ensures var e := HavingName(f, q, n).value;
      || e in Named(ColumnScope(f, q, q.joins), q.items, n)
      || (e.Col? && e.alias in Owners(f, q, q.joins, n))
      || (e.Col? && e in Keys(f, q))
      || (e.Col? && e in Selected(QualifyItems(ColumnScope(f, q, q.joins), q.items)))
  {
    hide Named, Owners, ColumnScope, QualifyItems, Keys, StarColumns, ColumnsNamed, Selected;
    var s := ColumnScope(f, q, q.joins);
    StarColumnsAre(q.items, Owners(f, q, q.joins, n), n);
    ColumnsNamedAre(Keys(f, q), n);
    ColumnsNamedAre(Selected(QualifyItems(s, q.items)), n);
  }

  /** HAVING and ORDER BY take an aggregate from SELECT only. */
  lemma {:induction false} ResultsAggregate(f: Functions, q: Query)
    requires !ItemsAggregate(q.items)
    ensures NoAggregate(ResultScope(f, q)) && NoAggregate(HavingScope(f, q))
  {
    hide ItemsAggregate, Named, Owners, HavingName, ColumnScope;
    ColumnsAreNoAggregates(f, q, q.joins);
    forall n
      ensures ResultName(f, q, n).Some? ==> !HasAggregate(ResultName(f, q, n).value)
      ensures HavingName(f, q, n).Some? ==> !HasAggregate(HavingName(f, q, n).value)
    {
      NamedAggregates(ColumnScope(f, q, q.joins), q.items, n);
      if HavingName(f, q, n).Some? { HavingNameIs(f, q, n); }
    }
  }

  /** It is the text that says whether a query aggregates: what its names stand for changes nothing. */
  lemma {:induction false} AggregatesQualified(f: Functions, q: Query)
    ensures Aggregates(Qualified(f, q)) <==> Aggregates(q)
  {
    hide ItemsAggregate, AnyAggregate, HasAggregate, ColumnScope, ResultScope, GroupScope, HavingScope, NoAggregate;
    hide QualifyHaving;
    hide QualifyItems, QualifyJoins, QualifyOrder, QualifyGrouping, QualifyAll, Qualify, OrderExprs;
    ColumnsAreNoAggregates(f, q, q.joins);
    QualifyItemsAggregate(ColumnScope(f, q, q.joins), q.items);
    if !ItemsAggregate(q.items) {
      ResultsAggregate(f, q);
      HavingAggregate(HavingScope(f, q), ColumnScope(f, q, q.joins), q.having);
      QualifyAnyAggregate(ResultScope(f, q), OrderExprs(q.order));
      OrderIsQualified(ResultScope(f, q), q.order);
    }
  }

  // ----- a query without unqualified names -----

  predicate NothingToQualify(q: Query) {
    && ItemNames(q.items) == {} && (forall j :: j in q.joins ==> OnNames(j) == {}) && Unqualified(q.where) == {}
    && UnqualifiedAll(GroupKeys(q.grouping)) == {} && References(q.having) == {} && Inside(q.having) == {}
    && UnqualifiedAll(OrderExprs(q.order)) == {}
  }

  lemma {:induction false} QualifiedAlready(s: Scope, e: Expr)
    requires Unqualified(e) == {}
    ensures Qualify(s, e) == e
    decreases e, 0
  {
    match e {
      case Col(_, _) =>
      case Name(_) => assert false;
      case Lit(_) =>
      case Cmp(_, l, r) => NoNameInEither(l, r); QualifiedAlready(s, l); QualifiedAlready(s, r);
      case And(l, r) => NoNameInEither(l, r); QualifiedAlready(s, l); QualifiedAlready(s, r);
      case Or(l, r) => NoNameInEither(l, r); QualifiedAlready(s, l); QualifiedAlready(s, r);
      case Not(x) => QualifiedAlready(s, x);
      case Paren(x) => QualifiedAlready(s, x);
      case Fn(_, args) => AllQualifiedAlready(s, args);
      case Agg(_, x) => QualifiedAlready(s, x);
    }
  }

  lemma {:induction false} HavingQualifiedAlready(s: Scope, t: Scope, e: Expr)
    requires References(e) == {} && Inside(e) == {}
    ensures QualifyHaving(s, t, e) == e
    decreases e, 0
  {
    match e {
      case Col(_, _) => assert false;
      case Name(_) => assert false;
      case Lit(_) =>
      case Cmp(_, l, r) => NoReferenceInEither(l, r); HavingQualifiedAlready(s, t, l); HavingQualifiedAlready(s, t, r);
      case And(l, r) => NoReferenceInEither(l, r); HavingQualifiedAlready(s, t, l); HavingQualifiedAlready(s, t, r);
      case Or(l, r) => NoReferenceInEither(l, r); HavingQualifiedAlready(s, t, l); HavingQualifiedAlready(s, t, r);
      case Not(x) => HavingQualifiedAlready(s, t, x);
      case Paren(x) => HavingQualifiedAlready(s, t, x);
      case Fn(_, args) => AllHavingQualifiedAlready(s, t, args);
      case Agg(_, x) => QualifiedAlready(t, x);
    }
  }

  lemma {:induction false} AllHavingQualifiedAlready(s: Scope, t: Scope, es: seq<Expr>)
    requires ReferencesAll(es) == {} && InsideAll(es) == {}
    ensures QualifyHavingAll(s, t, es) == es
    decreases es, 0
  {
    if es != [] {
      assert References(es[0]) <= ReferencesAll(es) && ReferencesAll(es[1..]) <= ReferencesAll(es);
      assert Inside(es[0]) <= InsideAll(es) && InsideAll(es[1..]) <= InsideAll(es);
      HavingQualifiedAlready(s, t, es[0]);
      AllHavingQualifiedAlready(s, t, es[1..]);
      assert es == [es[0]] + es[1..];
    }
  }

  lemma {:induction false} NoReferenceInEither(l: Expr, r: Expr)
    requires References(l) + References(r) == {} && Inside(l) + Inside(r) == {}
    ensures References(l) == {} && References(r) == {} && Inside(l) == {} && Inside(r) == {}
  {
    assert References(l) <= References(l) + References(r) && References(r) <= References(l) + References(r);
    assert Inside(l) <= Inside(l) + Inside(r) && Inside(r) <= Inside(l) + Inside(r);
  }

  lemma {:induction false} NoNameInEither(l: Expr, r: Expr)
    requires Unqualified(l) + Unqualified(r) == {}
    ensures Unqualified(l) == {} && Unqualified(r) == {}
  {
    assert Unqualified(l) <= Unqualified(l) + Unqualified(r) && Unqualified(r) <= Unqualified(l) + Unqualified(r);
  }

  lemma {:induction false} AllQualifiedAlready(s: Scope, es: seq<Expr>)
    requires UnqualifiedAll(es) == {}
    ensures QualifyAll(s, es) == es
    decreases es, 0
  {
    if es != [] {
      assert Unqualified(es[0]) <= UnqualifiedAll(es) && UnqualifiedAll(es[1..]) <= UnqualifiedAll(es);
      QualifiedAlready(s, es[0]);
      AllQualifiedAlready(s, es[1..]);
      assert es == [es[0]] + es[1..];
    }
  }

  lemma {:induction false} ItemsQualifiedAlready(s: Scope, items: seq<Item>)
    requires ItemNames(items) == {}
    ensures QualifyItems(s, items) == items
  {
    if items != [] {
      assert ItemNames(items[1..]) <= ItemNames(items);
      if items[0].Item? {
        assert Unqualified(items[0].e) <= ItemNames(items);
        QualifiedAlready(s, items[0].e);
      }
      ItemsQualifiedAlready(s, items[1..]);
      assert items == [items[0]] + items[1..];
    }
  }

  lemma {:induction false} JoinsQualifiedAlready(f: Functions, q: Query, before: seq<Join>, joins: seq<Join>)
    requires forall j :: j in joins ==> OnNames(j) == {}
    ensures JoinsResolve(f, q, before, joins) && QualifyJoins(f, q, before, joins) == joins
    decreases |joins|
  {
    hide Qualify, ColumnScope;
    if joins != [] {
      assert OnNames(joins[0]) == {};
      if joins[0].on.Some? { QualifiedAlready(ColumnScope(f, q, before + [joins[0]]), joins[0].on.value); }
      JoinsQualifiedAlready(f, q, before + [joins[0]], joins[1..]);
      assert joins == [joins[0]] + joins[1..];
    }
  }

  lemma {:induction false} OrderQualifiedAlready(s: Scope, order: seq<OrderKey>)
    requires UnqualifiedAll(OrderExprs(order)) == {}
    ensures QualifyOrder(s, order) == order
  {
    if order != [] {
      var all := OrderExprs(order);
      assert Unqualified(all[0]) <= UnqualifiedAll(all) && UnqualifiedAll(all[1..]) <= UnqualifiedAll(all);
      assert all[1..] == OrderExprs(order[1..]);
      QualifiedAlready(s, order[0].e);
      OrderQualifiedAlready(s, order[1..]);
      assert order == [order[0]] + order[1..];
    }
  }

  /** A query whose columns all have their table, with no column in HAVING, is what it is. */
  lemma {:induction false} NothingChanges(f: Functions, q: Query)
    requires NothingToQualify(q)
    ensures Resolves(f, q) && Qualified(f, q) == q
  {
    hide Qualify, QualifyItems, QualifyOrder, Unqualified, UnqualifiedAll, ItemNames, OnNames, OrderExprs, ColumnScope;
    hide GroupScope, ResultScope, HavingScope, References, Inside, QualifyHaving, HavingRefers;
    ItemsQualifiedAlready(ColumnScope(f, q, q.joins), q.items);
    JoinsQualifiedAlready(f, q, [], q.joins);
    QualifiedAlready(ColumnScope(f, q, q.joins), q.where);
    AllQualifiedAlready(GroupScope(f, q), GroupKeys(q.grouping));
    HavingQualifiedAlready(HavingScope(f, q), ColumnScope(f, q, q.joins), q.having);
    OrderQualifiedAlready(ResultScope(f, q), q.order);
  }

  // ----- a query that does not mention some aliases -----

  ghost predicate ItemAvoids(item: Item, off: set<string>) {
    match item
    case Star => false
    case TableStar(a) => a !in off
    case Item(e, _) => Aliases(e) !! off
  }

  ghost predicate JoinAvoids(j: Join, off: set<string>) {
    j.alias !in off && (j.on.Some? ==> Aliases(j.on.value) !! off)
  }

  /** No part of the query mentions an alias of `off`, and none selects every column. */
  ghost predicate Avoids(q: Query, off: set<string>) {
    && q.alias !in off
    && (forall j :: j in q.joins ==> JoinAvoids(j, off))
    && (forall c :: c in q.items ==> ItemAvoids(c, off))
    && Aliases(q.where) !! off && AliasesAll(GroupKeys(q.grouping)) !! off
    && Aliases(q.having) !! off && AliasesAll(OrderExprs(q.order)) !! off
  }

  lemma {:induction false} JoinOwnersAvoid(f: Functions, joins: seq<Join>, n: string, off: set<string>)
    requires forall j :: j in joins ==> j.alias !in off
    ensures forall o :: o in JoinOwners(f, joins, n) ==> o !in off
  {
    if joins != [] { JoinOwnersAvoid(f, joins[1..], n, off); }
  }

  lemma {:induction false} ColumnsAvoid(f: Functions, q: Query, joins: seq<Join>, off: set<string>)
    requires q.alias !in off && forall j :: j in joins ==> j.alias !in off
    ensures ScopeAvoids(ColumnScope(f, q, joins), off)
  {
    forall n | Column(f, q, joins, n).Some? ensures Aliases(Column(f, q, joins, n).value) !! off {
      JoinOwnersAvoid(f, joins, n, off);
      assert Owners(f, q, joins, n)[0] in Owners(f, q, joins, n);
    }
  }

  lemma {:induction false} NamedAvoids(s: Scope, items: seq<Item>, n: string, off: set<string>)
    requires ScopeAvoids(s, off) && forall c :: c in items ==> ItemAvoids(c, off)
    ensures forall e :: e in Named(s, items, n) ==> Aliases(e) !! off
  {
    hide ScopeAvoids, Aliases, Qualify;
    if items != [] {
      assert ItemAvoids(items[0], off);
      if items[0].Item? { QualifyAvoids(s, items[0].e, off); }
      NamedAvoids(s, items[1..], n, off);
    }
  }

  lemma {:induction false} ScopesAvoid(f: Functions, q: Query, off: set<string>)
    requires Avoids(q, off)
    ensures ScopeAvoids(ColumnScope(f, q, q.joins), off)
    ensures ScopeAvoids(GroupScope(f, q), off) && ScopeAvoids(ResultScope(f, q), off)
  {
    hide Aliases, AliasesAll, Named, Column, Owners;
    var columns := ColumnScope(f, q, q.joins);
    ColumnsAvoid(f, q, q.joins, off);
    forall n ensures Column(f, q, q.joins, n).Some? ==> Aliases(Column(f, q, q.joins, n).value) !! off {
      assert columns(n) == Column(f, q, q.joins, n);
    }
    forall n
      ensures forall e :: e in Named(columns, q.items, n) ==> Aliases(e) !! off
    {
      NamedAvoids(columns, q.items, n, off);
    }
  }

  lemma {:induction false} AliasesAllAvoid(es: seq<Expr>, off: set<string>)
    requires AliasesAll(es) !! off
    ensures forall e :: e in es ==> Aliases(e) !! off
  {
    hide Aliases;
    if es != [] {
      AliasesAllAvoid(es[1..], off);
      assert es == [es[0]] + es[1..];
    }
  }

  lemma {:induction false} SelectedAvoid(items: seq<Item>, off: set<string>)
    requires forall c :: c in items ==> ItemAvoids(c, off)
    ensures forall e :: e in Selected(items) ==> Aliases(e) !! off
  {
    hide Aliases;
    if items != [] {
      assert ItemAvoids(items[0], off);
      SelectedAvoid(items[1..], off);
    }
  }

  lemma {:induction false} HavingScopeAvoids(f: Functions, q: Query, off: set<string>)
    requires Avoids(q, off)
    ensures ScopeAvoids(HavingScope(f, q), off)
  {
    hide Aliases, AliasesAll, Named, Column, Owners, HavingName, ItemAvoids, JoinAvoids, Selected, QualifyItems;
    hide ColumnScope, GroupScope, ScopeAvoids;
    var s := ColumnScope(f, q, q.joins);
    ScopesAvoid(f, q, off);
    QualifyItemsAvoid(s, q.items, off);
    SelectedAvoid(QualifyItems(s, q.items), off);
    QualifyAllAvoids(GroupScope(f, q), GroupKeys(q.grouping), off);
    AliasesAllAvoid(Keys(f, q), off);
    forall n | HavingName(f, q, n).Some?
      ensures Aliases(HavingName(f, q, n).value) !! off
    {
      HavingNameIs(f, q, n);
      NamedAvoids(s, q.items, n, off);
      OwnersAvoid(f, q, n, off);
      ColumnAvoids(HavingName(f, q, n).value, off);
    }
    ScopeOf(f, q, off);
  }

  lemma {:induction false} OwnersAvoid(f: Functions, q: Query, n: string, off: set<string>)
    requires Avoids(q, off)
    ensures forall o :: o in Owners(f, q, q.joins, n) ==> o !in off
  {
    hide Aliases, AliasesAll, ItemAvoids;
    JoinOwnersAvoid(f, q.joins, n, off);
  }

  lemma {:induction false} ColumnAvoids(e: Expr, off: set<string>)
    ensures e.Col? ==> (Aliases(e) !! off <==> e.alias !in off)
  {
  }

  lemma {:induction false} ScopeOf(f: Functions, q: Query, off: set<string>)
    requires forall n :: HavingName(f, q, n).Some? ==> Aliases(HavingName(f, q, n).value) !! off
    ensures ScopeAvoids(HavingScope(f, q), off)
  {
    hide HavingName, Aliases;
  }

  lemma {:induction false} QualifyItemsAvoid(s: Scope, items: seq<Item>, off: set<string>)
    requires ScopeAvoids(s, off) && forall c :: c in items ==> ItemAvoids(c, off)
    ensures forall c :: c in QualifyItems(s, items) ==> ItemAvoids(c, off)
  {
    hide ScopeAvoids, Aliases, Qualify;
    if items != [] {
      assert ItemAvoids(items[0], off);
      if items[0].Item? { QualifyAvoids(s, items[0].e, off); }
      QualifyItemsAvoid(s, items[1..], off);
    }
  }

  lemma {:induction false} QualifyJoinsAvoid(f: Functions, q: Query, before: seq<Join>, joins: seq<Join>,
          off: set<string>)
    requires q.alias !in off && forall j :: j in before + joins ==> JoinAvoids(j, off)
    ensures forall j :: j in QualifyJoins(f, q, before, joins) ==> JoinAvoids(j, off)
    decreases |joins|
  {
    hide ScopeAvoids, Aliases, Qualify, ColumnScope;
    if joins != [] {
      var j, seen := joins[0], before + [joins[0]];
      assert seen + joins[1..] == before + joins && j in before + joins;
      forall x | x in seen ensures x.alias !in off { assert x in before + joins; }
      ColumnsAvoid(f, q, seen, off);
      if j.on.Some? { QualifyAvoids(ColumnScope(f, q, seen), j.on.value, off); }
      QualifyJoinsAvoid(f, q, seen, joins[1..], off);
    }
  }

  /** The names of such a query do not stand for any of these aliases either. */
  lemma {:induction false} QualifiedAvoids(f: Functions, q: Query, off: set<string>)
    requires Avoids(q, off)
    ensures Avoids(Qualified(f, q), off)
  {
    hide ScopeAvoids, Aliases, AliasesAll, JoinAvoids, ItemAvoids, ColumnScope, GroupScope, ResultScope, HavingScope;
    HavingScopeAvoids(f, q, off);
    ScopesAvoid(f, q, off);
    QualifyItemsAvoid(ColumnScope(f, q, q.joins), q.items, off);
    QualifyJoinsAvoid(f, q, [], q.joins, off);
    QualifyAvoids(ColumnScope(f, q, q.joins), q.where, off);
    QualifyAllAvoids(GroupScope(f, q), GroupKeys(q.grouping), off);
    HavingAvoids(HavingScope(f, q), ColumnScope(f, q, q.joins), q.having, off);
    QualifyAllAvoids(ResultScope(f, q), OrderExprs(q.order), off);
    OrderIsQualified(ResultScope(f, q), q.order);
  }
}
