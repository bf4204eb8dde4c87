/**
 `coalesceSums` of inclusive-query.ts: each `SUM(x)` becomes `COALESCE(SUM(x), 0)`. The calls are found
 on the query cut in tokens, where strings and comments are blanks, as in the masked query of the program;
 the text is changed at character positions, from right to left. The positions are those of the query as
 it was, so the end of a call that holds another one is out of date.
 */
module InclusiveQuery {
  import opened Wrappers

  /**
   Each token with the characters it is written with. Blanks, strings and comments belong to the opening
   parenthesis they follow, or to the word or the opening parenthesis they come before; elsewhere, and before
   SUM, they are in a token of their own: `SUM(x) /* c */ OVER ()` goes on with `OVER`, and is left as it is.
   */
  datatype Tok = Open(text: string) | Close | Word(w: string, text: string) | Other(text: string)

  function Text(t: Tok): string {
    if t.Close? then ")" else t.text
  }

  function Print(ts: seq<Tok>): string {
    if ts == [] then "" else Text(ts[0]) + Print(ts[1..])
  }

  const BEFORE := "COALESCE("
  const AFTER := ", 0)"

  // ----- what the code looks at -----

  predicate IsSum(t: Tok) {
    t.Word? && t.w == "SUM"
  }

  predicate SumAt(ts: seq<Tok>, i: nat) {
    i + 1 < |ts| && IsSum(ts[i]) && ts[i + 1].Open?
  }

  predicate GuardWord(t: Tok) {
    t.Word? && t.w in {"COALESCE", "IFNULL", "NVL"}
  }

  /** The text ends inside a call that already stands for NULL. */
  predicate EndsGuarded(before: seq<Tok>) {
    |before| >= 2 && before[|before| - 1].Open? && GuardWord(before[|before| - 2])
  }

  predicate Starts(ts: seq<Tok>, words: seq<string>) {
    |words| <= |ts| && forall k :: 0 <= k < |words| ==> ts[k].Word? && ts[k].w == words[k]
  }

  /** The text goes on as a window or a test of NULL. */
  predicate StartsGuarded(after: seq<Tok>) {
    Starts(after, ["OVER"]) || Starts(after, ["IS", "NULL"]) || Starts(after, ["IS", "NOT", "NULL"])
  }

  predicate Wraps(before: seq<Tok>, after: seq<Tok>) {
    !EndsGuarded(before) && !StartsGuarded(after)
  }

  /** The parenthesis that brings the depth back to zero, from `i` on. */
  function Closing(ts: seq<Tok>, i: nat, depth: nat): (r: Option<nat>)
    ensures r.Some? ==> i <= r.value < |ts|
    decreases |ts| - i
  {
    if i >= |ts| then None
    else if ts[i].Open? then Closing(ts, i + 1, depth + 1)
    else if ts[i].Close? then (if depth <= 1 then Some(i) else Closing(ts, i + 1, depth - 1))
    else Closing(ts, i + 1, depth)
  }

  /** A call to wrap, from its first character to the one after its parenthesis. */
  datatype Edit = Edit(start: nat, end: nat)

  function EditAt(ts: seq<Tok>, i: nat): seq<Edit> {
    if !SumAt(ts, i) then []
    else
      var c := Closing(ts, i + 1, 0);
      if c.Some? && Wraps(ts[..i], ts[c.value + 1..]) then [Edit(|Print(ts[..i])|, |Print(ts[..c.value + 1])|)] else []
  }

  function EditsOf(ts: seq<Tok>, i: nat): seq<Edit>
    decreases |ts| - i
  {
    if i >= |ts| then [] else EditAt(ts, i) + EditsOf(ts, i + 1)
  }

  predicate Between(edits: seq<Edit>, low: nat, high: nat) {
    forall e :: e in edits ==> low <= e.start < e.end <= high
  }

  function Wrap(sql: string, e: Edit): (r: string)
    requires e.start < e.end <= |sql|
    ensures |r| == |sql| + |BEFORE| + |AFTER|
  {
    sql[..e.start] + BEFORE + sql[e.start..e.end] + AFTER + sql[e.end..]
  }

  /** The last edit is made first; none of the positions is brought up to date. */
  function Spliced(sql: string, edits: seq<Edit>): (r: string)
    requires Between(edits, 0, |sql|)
    ensures |r| >= |sql|
  {
    if edits == [] then sql else Wrap(Spliced(sql, edits[1..]), edits[0])
  }

  lemma {:induction false} PrintFirst(t: Tok, ts: seq<Tok>)
    ensures Print([t] + ts) == Text(t) + Print(ts)
  {
    hide Text;
    assert ([t] + ts)[1..] == ts;
  }

  lemma {:induction false} PrintAppend(a: seq<Tok>, b: seq<Tok>)
    ensures Print(a + b) == Print(a) + Print(b)
  {
    hide Print, Text;
    if a == [] {
      PrintNothing();
      assert a + b == b;
    } else {
      PrintAppend(a[1..], b);
      PrintFirst(a[0], a[1..]);
      PrintFirst(a[0], a[1..] + b);
      assert a == [a[0]] + a[1..] && a + b == [a[0]] + (a[1..] + b);
      Assoc(Text(a[0]), Print(a[1..]), Print(b));
    }
  }

  lemma {:induction false} PrintOne(t: Tok)
    ensures Print([t]) == Text(t)
  {
    assert [t][1..] == [];
  }

  lemma {:induction false} PrintNothing()
    ensures Print([]) == ""
  {
  }

  lemma {:induction false} Assoc<T>(a: seq<T>, b: seq<T>, c: seq<T>)
    ensures (a + b) + c == a + (b + c)
  {
  }

  lemma {:induction false} PrintGrows(ts: seq<Tok>, i: nat, j: nat)
    requires i <= j <= |ts|
    ensures |Print(ts[..i])| <= |Print(ts[..j])|
  {
    hide Print;
    assert ts[..j] == ts[..i] + ts[i..j];
    PrintAppend(ts[..i], ts[i..j]);
  }

  lemma {:induction false} PrintClose(ts: seq<Tok>, n: nat)
    requires n < |ts| && ts[n].Close?
    ensures |Print(ts[..n + 1])| == |Print(ts[..n])| + 1
  {
    hide Print;
    assert ts[..n + 1] == ts[..n] + [ts[n]];
    PrintAppend(ts[..n], [ts[n]]);
    PrintOne(ts[n]);
  }

  /** The end found is a character later than the start. */
  lemma {:induction false} EditInText(ts: seq<Tok>, i: nat)
    requires i < |ts|
    ensures Between(EditAt(ts, i), 0, |Print(ts)|)
  {
    hide Print, Wraps, Closing, SumAt;
    var c := Closing(ts, i + 1, 0);
    if SumAt(ts, i) && c.Some? {
      ClosingIsClose(ts, i + 1, 0);
      PrintGrows(ts, i, c.value);
      PrintClose(ts, c.value);
      PrintGrows(ts, c.value + 1, |ts|);
      assert ts[..|ts|] == ts;
    }
  }

  lemma {:induction false} ClosingIsClose(ts: seq<Tok>, i: nat, depth: nat)
    requires Closing(ts, i, depth).Some?
    ensures ts[Closing(ts, i, depth).value].Close?
    decreases |ts| - i
  {
    if ts[i].Open? {
      ClosingIsClose(ts, i + 1, depth + 1);
    } else if !ts[i].Close? {
      ClosingIsClose(ts, i + 1, depth);
    } else if depth > 1 {
      ClosingIsClose(ts, i + 1, depth - 1);
    }
  }

  lemma {:induction false} EditsInText(ts: seq<Tok>, i: nat)
    ensures Between(EditsOf(ts, i), 0, |Print(ts)|)
    decreases |ts| - i
  {
    hide Print, EditAt;
    if i < |ts| {
      EditInText(ts, i);
      EditsInText(ts, i + 1);
    }
  }

  /** `closingParen` */
  method ClosingParen(ts: seq<Tok>, open: nat) returns (r: Option<nat>)
    requires open < |ts| && ts[open].Open?
    ensures r == Closing(ts, open, 0)
  {
    var depth := 0;
    for i := open to |ts|
      invariant depth >= 0 && (i > open ==> depth > 0)
      invariant Closing(ts, i, depth) == Closing(ts, open, 0)
    {
      if ts[i].Open? {
        depth := depth + 1;
      } else if ts[i].Close? {
        depth := depth - 1;
        if depth == 0 { return Some(i); }
      }
    }
    r := None;
  }

  method CoalesceSums(ts: seq<Tok>) returns (out: string)
    ensures Between(EditsOf(ts, 0), 0, |Print(ts)|)
    ensures out == Spliced(Print(ts), EditsOf(ts, 0))
  {
    hide Closing, Wraps, Wrap, Spliced, Print, EditsOf;
    EditsInText(ts, 0);
    var edits := FindCalls(ts);
    out := Print(ts);
    SplicedStep(out, edits, |edits|);
    for k := |edits| downto 0
      invariant out == Spliced(Print(ts), edits[k..])
    {
      var e := edits[k];
      SplicedStep(Print(ts), edits, k);
      SplicedWrap(out, e);
      out := out[..e.start] + BEFORE + out[e.start..e.end] + AFTER + out[e.end..];
    }
    assert edits[0..] == edits;
  }

  method FindCalls(ts: seq<Tok>) returns (edits: seq<Edit>)
    ensures edits == EditsOf(ts, 0)
  {
    hide Closing, Wraps, EditsOf, EditAt, Print;
    edits := [];
    for i := 0 to |ts|
      invariant edits + EditsOf(ts, i) == EditsOf(ts, 0)
    {
      EditsStep(ts, i);
      Assoc(edits, EditAt(ts, i), EditsOf(ts, i + 1));
      EditAtIs(ts, i);
      var own: seq<Edit> := [];
      if SumAt(ts, i) {
        var end := ClosingParen(ts, i + 1);
        if end.Some? && Wraps(ts[..i], ts[end.value + 1..]) {
          own := [Edit(|Print(ts[..i])|, |Print(ts[..end.value + 1])|)];
        }
      }
      edits := edits + own;
    }
    EditsStep(ts, |ts|);
  }

  lemma {:induction false} EditAtIs(ts: seq<Tok>, i: nat)
    requires i < |ts|
    ensures !SumAt(ts, i) ==> EditAt(ts, i) == []
    ensures SumAt(ts, i) ==> var c := Closing(ts, i + 1, 0);
      EditAt(ts, i) == if c.Some? && Wraps(ts[..i], ts[c.value + 1..])
        then [Edit(|Print(ts[..i])|, |Print(ts[..c.value + 1])|)] else []
  {
    hide Print, Wraps;
  }

  lemma {:induction false} EditsStep(ts: seq<Tok>, i: nat)
    requires i <= |ts|
    ensures EditsOf(ts, i) == if i < |ts| then EditAt(ts, i) + EditsOf(ts, i + 1) else []
  {
  }

  lemma {:induction false} SplicedStep(sql: string, edits: seq<Edit>, k: nat)
    requires k <= |edits| && Between(edits, 0, |sql|)
    ensures Between(edits[k..], 0, |sql|)
    ensures k < |edits|
      ==> Between(edits[k + 1..], 0, |sql|) && edits[k].start < edits[k].end <= |Spliced(sql, edits[k + 1..])|
    ensures Spliced(sql, edits[k..]) == if k < |edits| then Wrap(Spliced(sql, edits[k + 1..]), edits[k]) else sql
  {
    if k < |edits| { assert edits[k..][1..] == edits[k + 1..]; }
  }

  lemma {:induction false} SplicedWrap(sql: string, e: Edit)
    requires e.start < e.end <= |sql|
    ensures Wrap(sql, e) == sql[..e.start] + BEFORE + sql[e.start..e.end] + AFTER + sql[e.end..]
  {
  }

  predicate WordAt(ts: seq<Tok>, k: int, words: set<string>) {
    0 <= k < |ts| && ts[k].Word? && ts[k].w in words
  }

  /**
   A call is wrapped exactly when it has its closing parenthesis, is not all that follows the parenthesis of
   COALESCE, IFNULL or NVL, and is not followed by OVER, IS NULL or IS NOT NULL.
   */
  lemma {:induction false} WrappedIff(ts: seq<Tok>, i: nat)
    requires SumAt(ts, i)
    ensures var c := Closing(ts, i + 1, 0);
      EditAt(ts, i) != [] <==>
        && c.Some?
        && !(i > 0 && ts[i - 1].Open? && WordAt(ts, i - 2, {"COALESCE", "IFNULL", "NVL"}))
        && !WordAt(ts, c.value + 1, {"OVER"})
        && !(WordAt(ts, c.value + 1, {"IS"}) && WordAt(ts, c.value + 2, {"NULL"}))
        && !(WordAt(ts, c.value + 1, {"IS"}) && WordAt(ts, c.value + 2, {"NOT"}) && WordAt(ts, c.value + 3, {"NULL"}))
  {
    hide Closing, Print;
    var c := Closing(ts, i + 1, 0);
    if c.Some? {
      GuardBefore(ts, i);
      GuardAfter(ts, c.value + 1);
    }
  }

  lemma {:induction false} GuardBefore(ts: seq<Tok>, i: nat)
    requires i <= |ts|
    ensures EndsGuarded(ts[..i]) <==> i > 0 && ts[i - 1].Open? && WordAt(ts, i - 2, {"COALESCE", "IFNULL", "NVL"})
  {
  }

  lemma {:induction false} GuardAfter(ts: seq<Tok>, k: nat)
    requires k <= |ts|
    ensures StartsGuarded(ts[k..]) <==>
            || WordAt(ts, k, {"OVER"})
            || (WordAt(ts, k, {"IS"}) && WordAt(ts, k + 1, {"NULL"}))
            || (WordAt(ts, k, {"IS"}) && WordAt(ts, k + 1, {"NOT"}) && WordAt(ts, k + 2, {"NULL"}))
  {
    var rest := ts[k..];
    StartsWith(rest, ["OVER"]);
    StartsWith(rest, ["IS", "NULL"]);
    StartsWith(rest, ["IS", "NOT", "NULL"]);
    assert forall m :: 0 <= m < |rest| ==> rest[m] == ts[k + m];
  }

  lemma {:induction false} StartsWith(ts: seq<Tok>, words: seq<string>)
    requires 1 <= |words| <= 3
    ensures Starts(ts, words) <==>
            && WordAt(ts, 0, {words[0]}) && (|words| > 1 ==> WordAt(ts, 1, {words[1]}))
            && (|words| > 2 ==> WordAt(ts, 2, {words[2]}))
  {
  }

  // ----- a query with its calls -----

  /** A balanced query: tokens, and parentheses after `head`, which is `(` or `SUM (`. */
  datatype Query = End | Leaf(t: Tok, rest: Query) | Group(head: seq<Tok>, body: Query, rest: Query)

  predicate IsHead(head: seq<Tok>) {
    (|head| == 1 && head[0].Open?) || (|head| == 2 && IsSum(head[0]) && head[1].Open?)
  }

  predicate IsCall(head: seq<Tok>) {
    |head| == 2
  }

  /** Leaves are not parentheses, and SUM before a parenthesis is a call. */
  predicate Valid(q: Query) {
    match q
    case End => true
    case Leaf(t, rest) => !t.Open? && !t.Close? && !(IsSum(t) && rest.Group? && !IsCall(rest.head)) && Valid(rest)
    case Group(head, body, rest) => IsHead(head) && Valid(body) && Valid(rest)
  }

  function Size(q: Query): nat {
    match q
    case End => 0
    case Leaf(_, rest) => 1 + Size(rest)
    case Group(_, body, rest) => 1 + Size(body) + Size(rest)
  }

  function Flat(q: Query): seq<Tok> {
    match q
    case End => []
    case Leaf(t, rest) => [t] + Flat(rest)
    case Group(head, body, rest) => head + Flat(body) + [Close] + Flat(rest)
  }

  /** The text of a query. */
  function Show(q: Query): string {
    match q
    case End => ""
    case Leaf(t, rest) => Text(t) + Show(rest)
    case Group(head, body, rest) => Print(head) + Show(body) + ")" + Show(rest)
  }

  /** What surrounds the inside of a parenthesis, and what is before the rest. */
  function Inner(rest: Query, s: seq<Tok>): seq<Tok> {
    [Close] + Flat(rest) + s
  }

  function Past(head: seq<Tok>, body: Query, p: seq<Tok>): seq<Tok> {
    p + head + Flat(body) + [Close]
  }

  /** A call to wrap, between `p` and `s`. */
  predicate ToWrap(head: seq<Tok>, rest: Query, p: seq<Tok>, s: seq<Tok>) {
    IsCall(head) && Wraps(p, Flat(rest) + s)
  }

  function OwnEdit(head: seq<Tok>, body: Query, rest: Query, p: seq<Tok>, s: seq<Tok>): seq<Edit> {
    if ToWrap(head, rest, p, s) then [Edit(|Print(p)|, |Print(p)| + |Print(head)| + |Show(body)| + 1)] else []
  }

  /** The calls to wrap, in order; `p` and `s` are the tokens before and after. */
  function Edits(q: Query, p: seq<Tok>, s: seq<Tok>): seq<Edit> {
    match q
    case End => []
    case Leaf(t, rest) => Edits(rest, p + [t], s)
    case Group(head, body, rest) =>
      OwnEdit(head, body, rest, p, s) + (Edits(body, p + head, Inner(rest, s)) + Edits(rest, Past(head, body, p), s))
  }

  /** All the calls wrapped at once. */
  function Wrapped(q: Query, p: seq<Tok>, s: seq<Tok>): string {
    match q
    case End => ""
    case Leaf(t, rest) => Text(t) + Wrapped(rest, p + [t], s)
    case Group(head, body, rest) =>
      var call := Print(head) + Wrapped(body, p + head, Inner(rest, s)) + ")";
      (if ToWrap(head, rest, p, s) then BEFORE + call + AFTER else call) + Wrapped(rest, Past(head, body, p), s)
  }

  /** Wrapped where the call used to end. */
  function WrapAt(call: string, n: nat): string
    requires n <= |call|
  {
    BEFORE + call[..n] + AFTER + call[n..]
  }

  /** What the splice makes of a query. */
  function Stale(q: Query, p: seq<Tok>, s: seq<Tok>): (r: string)
    ensures |r| >= |Show(q)|
  {
    match q
    case End => ""
    case Leaf(t, rest) => Text(t) + Stale(rest, p + [t], s)
    case Group(head, body, rest) =>
      var call := Print(head) + Stale(body, p + head, Inner(rest, s)) + ")";
      (if ToWrap(head, rest, p, s) then WrapAt(call, |Print(head)| + |Show(body)| + 1) else call)
        + Stale(rest, Past(head, body, p), s)
  }

  // ----- the tokens of a query, cut in different ways -----

  lemma {:induction false} FlatOf(q: Query)
    ensures match q
      case End => Flat(q) == []
      case Leaf(t, rest) => Flat(q) == [t] + Flat(rest)
      case Group(head, body, rest) => Flat(q) == head + Flat(body) + [Close] + Flat(rest)
  {
  }

  lemma {:induction false} ShowIsPrint(q: Query)
    ensures Print(Flat(q)) == Show(q)
  {
    hide Flat, Print;
    FlatOf(q);
    match q {
      case End => PrintNothing();
      case Leaf(t, rest) =>
        ShowIsPrint(rest);
        PrintAppend([t], Flat(rest));
        PrintOne(t);
      case Group(head, body, rest) =>
        ShowIsPrint(body);
        ShowIsPrint(rest);
        PrintAppend(head + Flat(body) + [Close], Flat(rest));
        PrintAppend(head + Flat(body), [Close]);
        PrintAppend(head, Flat(body));
        PrintOne(Close);
    }
  }

  lemma {:induction false} PrintPast(head: seq<Tok>, body: Query, p: seq<Tok>)
    ensures Print(p + head) == Print(p) + Print(head)
    ensures Print(Past(head, body, p)) == Print(p) + Print(head) + Show(body) + ")"
  {
    hide Flat, Print;
    PrintAppend(p, head);
    PrintAppend(p + head, Flat(body));
    PrintAppend(p + head + Flat(body), [Close]);
    PrintOne(Close);
    ShowIsPrint(body);
  }

  /** A text in parentheses, seen from the inside and from what follows. */
  lemma {:induction false} Parens<T>(p: seq<T>, a: seq<T>, b: seq<T>, c: seq<T>, d: seq<T>, s: seq<T>)
    ensures p + (a + b + c + d) + s == p + a + b + (c + d + s)
    ensures p + (a + b + c + d) + s == (p + a + b + c) + d + s
  {
    Assoc(p, a + b + c + d, s);
    Assoc(a + b + c, d, s);
    Assoc(a + b, c, d + s);
    Assoc(a, b, c + (d + s));
    Assoc(p, a, b + (c + (d + s)));
    Assoc(p + a, b, c + (d + s));
    Assoc(c, d, s);
    Assoc(p + a + b, c, d + s);
    Assoc(p + a + b + c, d, s);
  }

  lemma {:induction false} LeafShape(t: Tok, rest: Query, p: seq<Tok>, s: seq<Tok>)
    ensures var ts := p + Flat(Leaf(t, rest)) + s;
      ts == (p + [t]) + Flat(rest) + s && ts == p + [t] + (Flat(rest) + s)
  {
    hide Flat;
    FlatOf(Leaf(t, rest));
    Assoc(p, [t], Flat(rest));
    Assoc(p + [t], Flat(rest), s);
  }

  lemma {:induction false} GroupShape(head: seq<Tok>, body: Query, rest: Query, p: seq<Tok>, s: seq<Tok>)
    ensures var ts := p + Flat(Group(head, body, rest)) + s;
      ts == p + head + Flat(body) + Inner(rest, s) && ts == Past(head, body, p) + Flat(rest) + s
  {
    hide Flat;
    FlatOf(Group(head, body, rest));
    Parens(p, head, Flat(body), [Close], Flat(rest), s);
  }

  lemma {:induction false} Sizes(q: Query)
    ensures match q
      case End => |Flat(q)| == 0
      case Leaf(t, rest) => |Flat(q)| == 1 + |Flat(rest)|
      case Group(head, body, rest) => |Flat(q)| == |head| + 1 + |Flat(body)| + |Flat(rest)|
  {
  }

  // ----- the scan finds the calls of the query -----

  lemma {:induction false} ClosingStep(ts: seq<Tok>, i: nat, depth: nat)
    requires i < |ts|
    ensures Closing(ts, i, depth) ==
      if ts[i].Open? then Closing(ts, i + 1, depth + 1)
      else if ts[i].Close? then (if depth <= 1 then Some(i) else Closing(ts, i + 1, depth - 1))
      else Closing(ts, i + 1, depth)
  {
  }

  /** Past the tokens that open a parenthesis, the depth is one more. */
  lemma {:induction false} HeadOpens(ts: seq<Tok>, i: nat, head: seq<Tok>, depth: nat)
    requires IsHead(head) && i + |head| <= |ts| && ts[i..i + |head|] == head
    ensures Closing(ts, i, depth) == Closing(ts, i + |head|, depth + 1)
  {
    hide Closing;
    assert ts[i] == ts[i..i + |head|][0] == head[0];
    ClosingStep(ts, i, depth);
    if |head| == 2 {
      assert ts[i + 1] == ts[i..i + |head|][1] == head[1];
      ClosingStep(ts, i + 1, depth);
    }
  }

  lemma {:induction false} At<T>(p: seq<T>, a: seq<T>, s: seq<T>)
    ensures var ts := p + a + s; ts[|p|..|p| + |a|] == a && ts[..|p|] == p && ts[|p| + |a|..] == s
  {
  }

  /** A balanced text leaves the depth as it is. */
  lemma {:induction false} ClosingSkips(q: Query, p: seq<Tok>, s: seq<Tok>, depth: nat)
    requires Valid(q) && depth >= 1
    ensures Closing(p + Flat(q) + s, |p|, depth) == Closing(p + Flat(q) + s, |p| + |Flat(q)|, depth)
    decreases Size(q), 1
  {
    hide Closing, Flat;
    var ts := p + Flat(q) + s;
    Sizes(q);
    match q {
      case End =>
      case Leaf(t, rest) =>
        LeafShape(t, rest, p, s);
        ClosingStep(ts, |p|, depth);
        ClosingSkips(rest, p + [t], s, depth);
      case Group(head, body, rest) =>
        GroupShape(head, body, rest, p, s);
        hide IsHead, Inner;
        Assoc(p + head, Flat(body), Inner(rest, s));
        At(p, head, Flat(body) + Inner(rest, s));
        HeadOpens(ts, |p|, head, depth);
        ClosingSkips(body, p + head, Inner(rest, s), depth + 1);
        CloseNext(p + head + Flat(body), rest, s, depth);
        ClosingSkips(rest, Past(head, body, p), s, depth);
    }
  }

  lemma {:induction false} CloseNext(p: seq<Tok>, rest: Query, s: seq<Tok>, depth: nat)
    requires depth >= 1
    ensures Closing(p + Inner(rest, s), |p|, depth + 1) == Closing(p + Inner(rest, s), |p| + 1, depth)
  {
    hide Closing, Flat;
    ClosingStep(p + Inner(rest, s), |p|, depth + 1);
  }

  lemma {:induction false} NoParenthesisNext(q: Query, s: seq<Tok>)
    requires Valid(q) && !(q.Group? && !IsCall(q.head)) && (s == [] || !s[0].Open?)
    ensures Flat(q) + s == [] || !(Flat(q) + s)[0].Open?
  {
  }

  lemma {:induction false} Landmarks<T>(p: seq<T>, head: seq<T>, b: seq<T>, s: seq<T>)
    requires |head| == 2 && s != []
    ensures var ts := p + head + b + s;
      && |ts| == |p| + 2 + |b| + |s| && ts[|p| + 1] == head[1]
      && ts[|p| + 2 + |b|] == s[0]
  {
  }

  /** Two parentheses with a balanced text between them. */
  lemma {:induction false} ClosesAt(ts: seq<Tok>, next: nat, end: nat)
    requires 0 < next <= end < |ts| && ts[next - 1].Open? && ts[end].Close?
    requires Closing(ts, next, 1) == Closing(ts, end, 1)
    ensures Closing(ts, next - 1, 0) == Some(end)
  {
  }

  /** The parenthesis found is the one that closes the call. */
  lemma {:induction false} CallCloses(head: seq<Tok>, body: Query, p: seq<Tok>, s: seq<Tok>)
    requires IsHead(head) && IsCall(head) && Valid(body) && s != [] && s[0].Close?
    ensures Closing(p + head + Flat(body) + s, |p| + 1, 0) == Some(|p| + 2 + |Flat(body)|)
  {
    assert |head| == 2 && head[1].Open?;
    hide *;
    var ts, next := p + head + Flat(body) + s, |p + head|;
    ClosingSkips(body, p + head, s, 1);
    Landmarks(p, head, Flat(body), s);
    ClosesAt(ts, next, next + |Flat(body)|);
  }

  lemma {:induction false} SumHere(head: seq<Tok>, p: seq<Tok>, s: seq<Tok>)
    requires IsHead(head) && IsCall(head)
    ensures SumAt(p + head + s, |p|)
  {
    var ts := p + head + s;
    assert ts[|p|] == head[0] && ts[|p| + 1] == head[1];
  }

  /** The edit of a SUM call. */
  lemma {:induction false} CallEdit(head: seq<Tok>, body: Query, rest: Query, p: seq<Tok>, s: seq<Tok>)
    requires IsHead(head) && IsCall(head) && Valid(body)
    ensures EditAt(p + Flat(Group(head, body, rest)) + s, |p|) == OwnEdit(head, body, rest, p, s)
  {
    hide Closing, Flat, Wraps, EditAt, Print, Show, IsHead, Valid, SumAt;
    var ts := p + Flat(Group(head, body, rest)) + s;
    GroupShape(head, body, rest, p, s);
    CallCloses(head, body, p, Inner(rest, s));
    Assoc(p + head, Flat(body), Inner(rest, s));
    SumHere(head, p, Flat(body) + Inner(rest, s));
    At(p, head, Flat(body) + Inner(rest, s));
    Assoc(Past(head, body, p), Flat(rest), s);
    At([], Past(head, body, p), Flat(rest) + s);
    assert [] + Past(head, body, p) + (Flat(rest) + s) == ts;
    PrintPast(head, body, p);
    EditIs(ts, |p|, |p| + 2 + |Flat(body)|);
  }

  lemma {:induction false} EditIs(ts: seq<Tok>, i: nat, end: nat)
    requires SumAt(ts, i) && end < |ts| && Closing(ts, i + 1, 0) == Some(end)
    ensures EditAt(ts, i) == if Wraps(ts[..i], ts[end + 1..]) then [Edit(|Print(ts[..i])|, |Print(ts[..end + 1])|)]
      else []
  {
    hide Print;
  }

  lemma {:induction false} NotACall(ts: seq<Tok>, i: nat)
    requires i < |ts| && (!IsSum(ts[i]) || i + 1 == |ts| || !ts[i + 1].Open?)
    ensures EditAt(ts, i) == []
  {
  }

  lemma {:induction false} ScanOne(ts: seq<Tok>, i: nat)
    requires i < |ts| && EditAt(ts, i) == []
    ensures EditsOf(ts, i) == [] + EditsOf(ts, i + 1)
  {
    hide EditAt, EditsOf;
    EditsStep(ts, i);
  }

  lemma {:induction false} ScanTwo(ts: seq<Tok>, i: nat, own: seq<Edit>)
    requires i + 1 < |ts| && EditAt(ts, i) == own && EditAt(ts, i + 1) == []
    ensures EditsOf(ts, i) == own + EditsOf(ts, i + 2)
  {
    hide EditAt, EditsOf;
    EditsStep(ts, i);
    EditsStep(ts, i + 1);
    assert [] + EditsOf(ts, i + 2) == EditsOf(ts, i + 2);
  }

  /** The tokens of the head, where they are. */
  lemma {:induction false} HeadTokens(head: seq<Tok>, p: seq<Tok>, rest: seq<Tok>)
    requires |head| == 1 || |head| == 2
    ensures var ts := p + head + rest;
      |p| + |head| <= |ts| && ts[|p|] == head[0] && (|head| == 2 ==> ts[|p| + 1] == head[1])
  {
  }

  /** The scan at the tokens that open a parenthesis. */
  lemma {:induction false} HeadEdit(head: seq<Tok>, body: Query, rest: Query, p: seq<Tok>, s: seq<Tok>)
    requires IsHead(head) && Valid(body)
    ensures var ts := p + Flat(Group(head, body, rest)) + s;
      EditsOf(ts, |p|)
      == OwnEdit(head, body, rest, p, s) + EditsOf(ts, |p| + |head|)
  {
    hide EditsOf, EditAt, Flat, Print, Wraps, Show, Valid;
    var ts := p + Flat(Group(head, body, rest)) + s;
    var own := OwnEdit(head, body, rest, p, s);
    GroupShape(head, body, rest, p, s);
    Assoc(p + head, Flat(body), Inner(rest, s));
    HeadTokens(head, p, Flat(body) + Inner(rest, s));
    if |head| == 2 {
      CallEdit(head, body, rest, p, s);
      NotACall(ts, |p| + 1);
      ScanTwo(ts, |p|, own);
    } else {
      NotACall(ts, |p|);
      ScanOne(ts, |p|);
    }
  }

  /** The scan finds the SUM calls to wrap, in order. */
  lemma {:induction false} FindsCalls(q: Query, p: seq<Tok>, s: seq<Tok>)
    requires Valid(q) && (s == [] || !s[0].Open?)
    ensures EditsOf(p + Flat(q) + s, |p|) == Edits(q, p, s) + EditsOf(p + Flat(q) + s, |p| + |Flat(q)|)
    decreases Size(q), 1
  {
    hide EditsOf, EditAt, Flat, Wraps, Print, OwnEdit, Show;
    var ts := p + Flat(q) + s;
    Sizes(q);
    match q {
      case End =>
        assert [] + EditsOf(ts, |p|) == EditsOf(ts, |p|);
      case Leaf(t, rest) =>
        LeafShape(t, rest, p, s);
        LeafIsNoCall(t, rest, p, s);
        ScanOne(ts, |p|);
        FindsCalls(rest, p + [t], s);
        assert [] + EditsOf(ts, |p| + 1) == EditsOf(ts, |p| + 1);
      case Group(head, body, rest) =>
        FindsCallsInGroup(head, body, rest, p, s);
    }
  }

  lemma {:induction false} FindsCallsInGroup(head: seq<Tok>, body: Query, rest: Query, p: seq<Tok>, s: seq<Tok>)
    requires Valid(Group(head, body, rest)) && (s == [] || !s[0].Open?)
    ensures var q := Group(head, body, rest); var ts := p + Flat(q) + s;
      EditsOf(ts, |p|) == Edits(q, p, s) + EditsOf(ts, |p| + |Flat(q)|)
    decreases Size(Group(head, body, rest)), 0
  {
    hide EditsOf, EditAt, Flat, Wraps, Print, OwnEdit, Show;
    var q := Group(head, body, rest);
    var ts, n := p + Flat(q) + s, |p| + |head| + |Flat(body)|;
    Sizes(q);
    GroupShape(head, body, rest, p, s);
    HeadEdit(head, body, rest, p, s);
    FindsCalls(body, p + head, Inner(rest, s));
    CloseIsNoCall(p + head + Flat(body), rest, s);
    FindsCalls(rest, Past(head, body, p), s);
    assert |p + head| == |p| + |head| && |p + head + Flat(body)| == n && |Past(head, body, p)| == n + 1;
    Chained(OwnEdit(head, body, rest, p, s), Edits(body, p + head, Inner(rest, s)),
            Edits(rest, Past(head, body, p), s), EditsOf(ts, n + 1 + |Flat(rest)|));
  }

  lemma {:induction false} Chained<T>(a: seq<T>, b: seq<T>, c: seq<T>, d: seq<T>)
    ensures a + (b + (c + d)) == a + (b + c) + d
  {
  }

  lemma {:induction false} LeafIsNoCall(t: Tok, rest: Query, p: seq<Tok>, s: seq<Tok>)
    requires Valid(Leaf(t, rest)) && (s == [] || !s[0].Open?)
    ensures EditAt(p + Flat(Leaf(t, rest)) + s, |p|) == []
  {
    hide EditAt, Flat;
    LeafShape(t, rest, p, s);
    var ts, after := p + Flat(Leaf(t, rest)) + s, Flat(rest) + s;
    assert ts[|p|] == t;
    if IsSum(t) {
      NoParenthesisNext(rest, s);
      assert |p| + 1 < |ts| ==> ts[|p| + 1] == after[0];
    }
    NotACall(ts, |p|);
  }

  lemma {:induction false} CloseIsNoCall(p: seq<Tok>, rest: Query, s: seq<Tok>)
    ensures var ts := p + Inner(rest, s); EditsOf(ts, |p|) == EditsOf(ts, |p| + 1)
  {
    hide EditsOf, EditAt, Flat;
    var ts := p + Inner(rest, s);
    EditsStep(ts, |p|);
    assert ts[|p|] == Close;
    NotACall(ts, |p|);
  }

  // ----- what the splice makes -----

  lemma {:induction false} EditsInside(q: Query, p: seq<Tok>, s: seq<Tok>)
    ensures Between(Edits(q, p, s), |Print(p)|, |Print(p)| + |Show(q)|)
    decreases Size(q), 1
  {
    hide Flat, Wraps, Print, Between;
    match q {
      case End => NothingBetween(|Print(p)|, |Print(p)|);
      case Leaf(t, rest) =>
        EditsInside(rest, p + [t], s);
        PrintAppend(p, [t]);
        PrintOne(t);
        Wider(Edits(rest, p + [t], s), |Print(p)| + |Text(t)|, |Print(p)|, |Print(p)| + |Text(t)| + |Show(rest)|);
      case Group(head, body, rest) => InsideGroup(head, body, rest, p, s);
    }
  }

  lemma {:induction false} InsideGroup(head: seq<Tok>, body: Query, rest: Query, p: seq<Tok>, s: seq<Tok>)
    ensures var q := Group(head, body, rest); Between(Edits(q, p, s), |Print(p)|, |Print(p)| + |Show(q)|)
    decreases Size(body) + Size(rest), 2
  {
    hide Flat, Wraps, Print, Between, Show, OwnEdit, Edits, Inner, Past, Stale;
    var low, n := |Print(p)|, |Print(head)| + |Show(body)| + 1;
    var high := |Print(p)| + |Print(head)| + |Show(body)| + 1 + |Show(rest)|;
    var b, r := Edits(body, p + head, Inner(rest, s)), Edits(rest, Past(head, body, p), s);
    EditsInside(body, p + head, Inner(rest, s));
    EditsInside(rest, Past(head, body, p), s);
    PrintPast(head, body, p);
    OwnBetween(head, body, rest, p, s);
    BetweenParts(b, r, low + |Print(head)|, low + n - 1, low + n, high);
    BetweenParts(OwnEdit(head, body, rest, p, s), b + r, low, low + n, low + |Print(head)|, high);
    PartsOf(head, body, rest, p, s);
  }

  lemma {:induction false} OwnBetween(head: seq<Tok>, body: Query, rest: Query, p: seq<Tok>, s: seq<Tok>)
    ensures Between(OwnEdit(head, body, rest, p, s), |Print(p)|, |Print(p)| + |Print(head)| + |Show(body)| + 1)
  {
    hide Flat, Wraps, Print, Show;
  }

  lemma {:induction false} Wider(a: seq<Edit>, low: nat, low2: nat, high: nat)
    requires Between(a, low, high) && low2 <= low
    ensures Between(a, low2, high)
  {
  }

  lemma {:induction false} BetweenParts(a: seq<Edit>, b: seq<Edit>, low: nat, mid: nat, mid2: nat, high: nat)
    requires Between(a, low, mid) && Between(b, mid2, high) && mid <= high && low <= mid2
    ensures Between(a + b, low, high)
  {
  }

  lemma {:induction false} NothingBetween(low: nat, high: nat)
    ensures Between([], low, high)
  {
  }

  lemma {:induction false} SplicedAppend(sql: string, a: seq<Edit>, b: seq<Edit>)
    requires Between(a, 0, |sql|) && Between(b, 0, |sql|)
    ensures Spliced(sql, a + b) == Spliced(Spliced(sql, b), a)
  {
    hide Wrap;
    if a == [] {
      assert a + b == b;
    } else {
      assert (a + b)[1..] == a[1..] + b;
      SplicedAppend(sql, a[1..], b);
    }
  }

  /** Of a query in the middle of a text, the splice makes `Stale`, whatever was made of what follows. */
  lemma {:induction false} SpliceIsStale(q: Query, p: seq<Tok>, s: seq<Tok>, made: string)
    ensures Between(Edits(q, p, s), 0, |Print(p) + Show(q) + made|)
    ensures Spliced(Print(p) + Show(q) + made, Edits(q, p, s)) == Print(p) + Stale(q, p, s) + made
    decreases Size(q), 1
  {
    hide Flat, Wraps, Spliced, Print;
    EditsInside(q, p, s);
    match q {
      case End => SplicedStep(Print(p) + Show(q) + made, [], 0);
      case Leaf(t, rest) =>
        PrintAppend(p, [t]);
        PrintOne(t);
        SpliceIsStale(rest, p + [t], s, made);
        Assoc(Print(p), Text(t), Show(rest));
        Assoc(Print(p), Text(t), Stale(rest, p + [t], s));
      case Group(head, body, rest) => StaleGroup(head, body, rest, p, s, made);
    }
  }

  /** The rest first, then what is between the parentheses, then the call itself. */
  lemma {:induction false} StaleGroup(head: seq<Tok>, body: Query, rest: Query, p: seq<Tok>, s: seq<Tok>, made: string)
    requires Between(Edits(Group(head, body, rest), p, s), 0, |Print(p) + Show(Group(head, body, rest)) + made|)
    ensures var q := Group(head, body, rest);
      Spliced(Print(p) + Show(q) + made, Edits(q, p, s))
      == Print(p) + Stale(q, p, s) + made
    decreases Size(body) + Size(rest), 3
  {
    hide Flat, Wraps, Spliced, Stale, Show, Print, Edits, WrapAt, OwnEdit;
    var h, b, r := Print(head), Stale(body, p + head, Inner(rest, s)), Stale(rest, Past(head, body, p), s);
    var sql := Print(p) + Show(Group(head, body, rest)) + made;
    var inside := Edits(body, p + head, Inner(rest, s)) + Edits(rest, Past(head, body, p), s);
    StaleInside(head, body, rest, p, s, made);
    PartsOf(head, body, rest, p, s);
    ParensOf(Print(p), h, Show(body), Show(rest), made);
    ParensOf(Print(p), h, b, r, made);
    WrapFirst(sql, inside, ToWrap(head, rest, p, s), Print(p), h + b + ")", r, made, |h| + |Show(body)| + 1);
  }

  lemma {:induction false} PartsOf(head: seq<Tok>, body: Query, rest: Query, p: seq<Tok>, s: seq<Tok>)
    ensures var q, h := Group(head, body, rest), Print(head);
      var b, n := Stale(body, p + head, Inner(rest, s)), |h| + |Show(body)| + 1;
      && |b| >= |Show(body)| && Show(q) == h + Show(body) + ")" + Show(rest)
      && Stale(q, p, s) == (if ToWrap(head, rest, p, s) then WrapAt(h + b + ")", n) else h + b + ")")
        + Stale(rest, Past(head, body, p), s)
      && OwnEdit(head, body, rest, p, s)
        == (if ToWrap(head, rest, p, s) then [Edit(|Print(p)|, |Print(p)| + n)] else [])
      && Edits(q, p, s) == OwnEdit(head, body, rest, p, s)
        + (Edits(body, p + head, Inner(rest, s)) + Edits(rest, Past(head, body, p), s))
  {
    hide Flat, Wraps, Print, WrapAt;
  }

  lemma {:induction false} ParensOf(p: string, h: string, b: string, r: string, made: string)
    ensures p + (h + b + ")" + r) + made == p + h + b + (")" + r + made)
    ensures p + (h + b + ")" + r) + made == p + h + b + ")" + r + made
    ensures p + (h + b + ")" + r) + made == p + (h + b + ")") + (r + made)
  {
    Parens(p, h, b, ")", r, made);
    Assoc(p, h + b + ")", r);
    Assoc(p + (h + b + ")"), r, made);
  }

  lemma {:induction false} StaleInside(head: seq<Tok>, body: Query, rest: Query, p: seq<Tok>, s: seq<Tok>, made: string)
    ensures var sql := Print(p) + (Print(head) + Show(body) + ")" + Show(rest)) + made;
      var b, r := Stale(body, p + head, Inner(rest, s)), Stale(rest, Past(head, body, p), s);
      var inside := Edits(body, p + head, Inner(rest, s)) + Edits(rest, Past(head, body, p), s);
      Between(inside, 0, |sql|) && Spliced(sql, inside) == Print(p) + (Print(head) + b + ")" + r) + made
    decreases Size(body) + Size(rest), 2
  {
    hide Flat, Wraps, Spliced, Stale, Print, Show, Edits;
    var h, b, r := Print(head), Stale(body, p + head, Inner(rest, s)), Stale(rest, Past(head, body, p), s);
    var sql := Print(p) + (h + Show(body) + ")" + Show(rest)) + made;
    PrintPast(head, body, p);
    ParensOf(Print(p), h, Show(body), Show(rest), made);
    ParensOf(Print(p), h, Show(body), r, made);
    ParensOf(Print(p), h, b, r, made);
    SpliceIsStale(rest, Past(head, body, p), s, made);
    SpliceIsStale(body, p + head, Inner(rest, s), ")" + r + made);
    EditsInside(body, p + head, Inner(rest, s));
    assert Print(p) + h + Show(body) + ")" + Show(rest) + made == sql;
    SplicedAppend(sql, Edits(body, p + head, Inner(rest, s)), Edits(rest, Past(head, body, p), s));
  }

  /** The edit of the call itself is made last, at the end it had at first. */
  lemma {:induction false} WrapFirst(sql: string, edits: seq<Edit>, wraps: bool, p: string, call: string, r: string,
          made: string, n: nat)
    requires 0 < n <= |call| && |p| + n <= |sql| && Between(edits, 0, |sql|)
    requires Spliced(sql, edits) == p + call + (r + made)
    ensures var all := (if wraps then [Edit(|p|, |p| + n)] else []) + edits;
      Between(all, 0, |sql|) && Spliced(sql, all) == p + ((if wraps then WrapAt(call, n) else call) + r) + made
  {
    hide Spliced, WrapAt, Wrap;
    if wraps {
      var e := Edit(|p|, |p| + n);
      var all := [e] + edits;
      assert all[0..] == all && all[1..] == edits;
      SplicedStep(sql, all, 0);
      WrapShape(p, call, r + made, n);
      Regroup(p, WrapAt(call, n), r, made);
    } else {
      assert [] + edits == edits;
      Regroup(p, call, r, made);
    }
  }

  lemma {:induction false} Regroup<T>(a: seq<T>, b: seq<T>, c: seq<T>, d: seq<T>)
    ensures a + b + (c + d) == a + (b + c) + d
  {
    Assoc(a + b, c, d);
    Assoc(a, b, c);
  }

  lemma {:induction false} WrapShape(p: string, call: string, tail: string, n: nat)
    requires 0 < n <= |call|
    ensures Wrap(p + call + tail, Edit(|p|, |p| + n)) == p + WrapAt(call, n) + tail
  {
    var sql := p + call + tail;
    assert sql[..|p|] == p && sql[|p|..|p| + n] == call[..n] && sql[|p| + n..] == call[n..] + tail;
    assert p + BEFORE + call[..n] + AFTER + (call[n..] + tail) == p + (BEFORE + call[..n] + AFTER + call[n..]) + tail;
  }

  /** What `coalesceSums` returns on a query. */
  lemma {:induction false} CoalesceSumsIsStale(q: Query)
    requires Valid(q)
    ensures Print(Flat(q)) == Show(q) && EditsOf(Flat(q), 0) == Edits(q, [], [])
    ensures Between(Edits(q, [], []), 0, |Show(q)|)
    ensures Spliced(Show(q), Edits(q, [], [])) == Stale(q, [], [])
  {
    hide Flat, EditsOf, Edits, Stale, Spliced, Show, Print;
    ShowIsPrint(q);
    FindsCalls(q, [], []);
    assert [] + Flat(q) + [] == Flat(q);
    EditsStep(Flat(q), |Flat(q)|);
    PrintNothing();
    SpliceIsStale(q, [], [], []);
    assert "" + Show(q) + "" == Show(q) && "" + Stale(q, [], []) + "" == Stale(q, [], []);
  }

  // ----- when that is wrapping all the calls at once -----

  /** Two calls to wrap, one in the other. */
  predicate Nested(q: Query, p: seq<Tok>, s: seq<Tok>) {
    match q
    case End => false
    case Leaf(t, rest) => Nested(rest, p + [t], s)
    case Group(head, body, rest) =>
      || (ToWrap(head, rest, p, s) && Edits(body, p + head, Inner(rest, s)) != [])
      || Nested(body, p + head, Inner(rest, s)) || Nested(rest, Past(head, body, p), s)
  }

  predicate EndsWith(text: string, tail: string) {
    |text| >= |tail| && text[|text| - |tail|..] == tail
  }

  /** No SUM has `, 0` at its end: SUM has one argument. */
  predicate OneArgument(q: Query) {
    match q
    case End => true
    case Leaf(_, rest) => OneArgument(rest)
    case Group(head, body, rest) =>
      !(IsCall(head) && EndsWith(Show(body), ", 0")) && OneArgument(body) && OneArgument(rest)
  }

  /** The two texts have the same length: each call adds the thirteen characters of its wrapping. */
  lemma {:induction false} StaleSize(q: Query, p: seq<Tok>, s: seq<Tok>)
    ensures |Stale(q, p, s)| == |Wrapped(q, p, s)| == |Show(q)| + 13 * |Edits(q, p, s)|
    decreases Size(q)
  {
    hide Wraps, Flat, Print;
    match q {
      case End =>
      case Leaf(t, rest) => StaleSize(rest, p + [t], s);
      case Group(head, body, rest) =>
        StaleSize(body, p + head, Inner(rest, s));
        StaleSize(rest, Past(head, body, p), s);
    }
  }

  lemma {:induction false} NoEditsNoChange(q: Query, p: seq<Tok>, s: seq<Tok>)
    requires Edits(q, p, s) == []
    ensures Stale(q, p, s) == Wrapped(q, p, s) == Show(q) && !Nested(q, p, s)
    decreases Size(q)
  {
    hide Wraps, Flat, Print;
    match q {
      case End =>
      case Leaf(t, rest) => NoEditsNoChange(rest, p + [t], s);
      case Group(head, body, rest) =>
        NoEditsNoChange(body, p + head, Inner(rest, s));
        NoEditsNoChange(rest, Past(head, body, p), s);
    }
  }

  lemma {:induction false} WrapWhole(call: string)
    ensures WrapAt(call, |call|) == BEFORE + call + AFTER
  {
    assert call[..|call|] == call && call[|call|..] == "";
  }

  lemma {:induction false} FlatCallsAreWrapped(q: Query, p: seq<Tok>, s: seq<Tok>)
    requires !Nested(q, p, s)
    ensures Stale(q, p, s) == Wrapped(q, p, s)
    decreases Size(q)
  {
    hide Wraps, Flat, Print, WrapAt;
    match q {
      case End =>
      case Leaf(t, rest) => FlatCallsAreWrapped(rest, p + [t], s);
      case Group(head, body, rest) =>
        FlatCallsAreWrapped(body, p + head, Inner(rest, s));
        FlatCallsAreWrapped(rest, Past(head, body, p), s);
        if ToWrap(head, rest, p, s) {
          NoEditsNoChange(body, p + head, Inner(rest, s));
          WrapWhole(Print(head) + Show(body) + ")");
        }
    }
  }

  /** A call holding another one is cut before its end: its text is not the one with the call wrapped. */
  lemma {:induction false} CutIsWrong(stale: string, wrapped: string, n: nat)
    requires |stale| == |wrapped| >= n + |AFTER| && !EndsWith(stale, AFTER)
    ensures WrapAt(stale, n) != BEFORE + wrapped + AFTER
  {
    var a, b, k := WrapAt(stale, n), BEFORE + wrapped + AFTER, |AFTER|;
    assert EndsWith(b, AFTER);
    assert a[|a| - k..] == stale[|stale| - k..];
  }

  // ----- how a text ends -----

  predicate NoClose(text: string) {
    ')' !in text
  }

  lemma {:induction false} EndOfParts(a: string, b: string, tail: string)
    requires EndsWith(a + b, tail)
    ensures |b| >= |tail| ==> EndsWith(b, tail)
    ensures |b| < |tail| ==> EndsWith(tail, b) && (a != "" ==> a[|a| - 1] in tail)
  {
    var t := a + b;
    if |b| >= |tail| {
      assert t[|t| - |tail|..] == b[|b| - |tail|..];
    } else {
      var k := |tail| - |b|;
      assert b == t[|t| - |b|..] == t[|t| - |tail|..][k..];
      if a != "" { assert t[|t| - |tail|..][k - 1] == a[|a| - 1]; }
    }
  }

  lemma {:induction false} EndAfter(a: string, b: string, tail: string)
    requires EndsWith(b, tail)
    ensures EndsWith(a + b, tail)
  {
    assert (a + b)[|a + b| - |tail|..] == b[|b| - |tail|..];
  }

  /** Without a closing parenthesis in what is made of it, a query has no call. */
  lemma {:induction false} NoCloseNoCall(q: Query, p: seq<Tok>, s: seq<Tok>)
    requires NoClose(Stale(q, p, s))
    ensures Stale(q, p, s) == Show(q)
    decreases Size(q)
  {
    hide Wraps, Flat, Print;
    match q {
      case End =>
      case Leaf(t, rest) => NoCloseNoCall(rest, p + [t], s);
      case Group(head, body, rest) =>
        MadeEnds(head, body, rest, p, s);
        var made := Made(head, body, rest, p, s);
        CloseInside(made, Stale(rest, Past(head, body, p), s));
    }
  }

  /** What is made of a parenthesis. */
  function Made(head: seq<Tok>, body: Query, rest: Query, p: seq<Tok>, s: seq<Tok>): string {
    var call := Print(head) + Stale(body, p + head, Inner(rest, s)) + ")";
    if ToWrap(head, rest, p, s) then WrapAt(call, |Print(head)| + |Show(body)| + 1) else call
  }

  lemma {:induction false} MadeEnds(head: seq<Tok>, body: Query, rest: Query, p: seq<Tok>, s: seq<Tok>)
    ensures var made := Made(head, body, rest, p, s);
      made != "" && made[|made| - 1] == ')'
        && Stale(Group(head, body, rest), p, s) == made + Stale(rest, Past(head, body, p), s)
  {
    hide Wraps, Flat, Print, Show, Stale, WrapAt, ToWrap, OwnEdit, Edits;
    PartsOf(head, body, rest, p, s);
    WrapEnds(Print(head) + Stale(body, p + head, Inner(rest, s)), |Print(head)| + |Show(body)| + 1);
  }

  lemma {:induction false} WrapEnds(open: string, n: nat)
    requires n <= |open| + 1
    ensures var w := WrapAt(open + ")", n); w != "" && w[|w| - 1] == ')'
  {
    var call := open + ")";
    if n < |call| { assert call[n..][|call| - n - 1] == ')'; } else { WrapWhole(call); }
  }

  lemma {:induction false} CloseInside(made: string, rest: string)
    requires made != "" && made[|made| - 1] == ')'
    ensures !NoClose(made + rest)
  {
    assert (made + rest)[|made| - 1] == ')';
  }

  /** A call to wrap never adds an end without a closing parenthesis. */
  lemma {:induction false} StaleEnds(q: Query, p: seq<Tok>, s: seq<Tok>, tail: string)
    requires EndsWith(Stale(q, p, s), tail) && NoClose(tail) && tail != ""
    ensures EndsWith(Show(q), tail)
    decreases Size(q)
  {
    hide Wraps, Flat, Print, EndsWith, Made;
    match q {
      case End => EndsNothing(tail);
      case Leaf(t, rest) =>
        var r := Stale(rest, p + [t], s);
        EndOfParts(Text(t), r, tail);
        if |r| >= |tail| {
          StaleEnds(rest, p + [t], s, tail);
          EndAfter(Text(t), Show(rest), tail);
        } else {
          EndHasNoClose(tail, r);
          NoCloseNoCall(rest, p + [t], s);
        }
      case Group(head, body, rest) =>
        var made, r := Made(head, body, rest, p, s), Stale(rest, Past(head, body, p), s);
        MadeEnds(head, body, rest, p, s);
        EndOfParts(made, r, tail);
        StaleEnds(rest, Past(head, body, p), s, tail);
        EndAfter(Print(head) + Show(body) + ")", Show(rest), tail);
    }
  }

  lemma {:induction false} EndsNothing(tail: string)
    requires tail != ""
    ensures !EndsWith("", tail)
  {
  }

  lemma {:induction false} EndHasNoClose(text: string, tail: string)
    requires EndsWith(text, tail) && NoClose(text)
    ensures NoClose(tail)
  {
    forall k | 0 <= k < |tail| ensures tail[k] != ')' { assert tail[k] == text[|text| - |tail|..][k]; }
  }

  lemma {:induction false} HeadsDiffer<T>(a: seq<T>, b: seq<T>, c: seq<T>, d: seq<T>)
    requires |a| == |c| && (a != c || b != d)
    ensures a + b != c + d
  {
    assert a == (a + b)[..|a|] && b == (a + b)[|a|..];
    assert c == (c + d)[..|a|] && d == (c + d)[|a|..];
  }

  /** With a call to wrap in another one, the splice gives something else. */
  lemma {:induction false} NestedCallsGoWrong(q: Query, p: seq<Tok>, s: seq<Tok>)
    requires Nested(q, p, s) && OneArgument(q)
    ensures Stale(q, p, s) != Wrapped(q, p, s)
    decreases Size(q), 1
  {
    hide Wraps, EndsWith, WrapAt, Flat, Print, Show;
    match q {
      case Leaf(t, rest) =>
        NestedCallsGoWrong(rest, p + [t], s);
        HeadsDiffer(Text(t), Stale(rest, p + [t], s), Text(t), Wrapped(rest, p + [t], s));
      case Group(head, body, rest) => NestedGroup(head, body, rest, p, s);
    }
  }

  lemma {:induction false} NestedGroup(head: seq<Tok>, body: Query, rest: Query, p: seq<Tok>, s: seq<Tok>)
    requires Nested(Group(head, body, rest), p, s) && OneArgument(Group(head, body, rest))
    ensures Stale(Group(head, body, rest), p, s) != Wrapped(Group(head, body, rest), p, s)
    decreases Size(body) + Size(rest), 2
  {
    hide Wraps, EndsWith, Stale, Wrapped, WrapAt, Edits, Flat, Print, Show;
    var inner, after, wraps := Inner(rest, s), Past(head, body, p), ToWrap(head, rest, p, s);
    var b, w := Stale(body, p + head, inner), Wrapped(body, p + head, inner);
    var stale, right, n := Print(head) + b + ")", Print(head) + w + ")", |Print(head)| + |Show(body)| + 1;
    PartsOf(head, body, rest, p, s);
    WrappedOf(head, body, rest, p, s);
    StaleSize(body, p + head, inner);
    WrapSize(stale, n);
    if wraps && Edits(body, p + head, inner) != [] {
      CallEnds(Print(head), body, p + head, inner);
      CutIsWrong(stale, right, n);
    } else if Nested(body, p + head, inner) {
      if wraps { NoEditsNoChange(body, p + head, inner); }
      NestedCallsGoWrong(body, p + head, inner);
      CallsDiffer(Print(head), b, w);
    } else {
      NestedCallsGoWrong(rest, after, s);
    }
    HeadsDiffer(if wraps then WrapAt(stale, n) else stale, Stale(rest, after, s),
                if wraps then BEFORE + right + AFTER else right, Wrapped(rest, after, s));
  }

  lemma {:induction false} WrapSize(call: string, n: nat)
    requires n <= |call|
    ensures |WrapAt(call, n)| == |call| + |BEFORE| + |AFTER|
  {
  }

  lemma {:induction false} CallsDiffer(head: string, b: string, w: string)
    requires |b| == |w| && b != w
    ensures head + b + ")" != head + w + ")"
  {
    HeadsDiffer(head, b, head, w);
    HeadsDiffer(head + b, ")", head + w, ")");
  }

  lemma {:induction false} WrappedOf(head: seq<Tok>, body: Query, rest: Query, p: seq<Tok>, s: seq<Tok>)
    ensures var call := Print(head) + Wrapped(body, p + head, Inner(rest, s)) + ")";
      Wrapped(Group(head, body, rest), p, s)
        == (if ToWrap(head, rest, p, s) then BEFORE + call + AFTER else call) + Wrapped(rest, Past(head, body, p), s)
  {
    hide Wraps, Flat, Print;
  }

  /** The text of a call with one argument does not end like a wrapped one. */
  lemma {:induction false} CallEnds(head: string, body: Query, p: seq<Tok>, s: seq<Tok>)
    requires !EndsWith(Show(body), ", 0") && |Stale(body, p, s)| >= 3
    ensures !EndsWith(head + Stale(body, p, s) + ")", AFTER)
  {
    hide Show, Stale, EndsWith;
    var b := Stale(body, p, s);
    if EndsWith(head + b + ")", AFTER) {
      EndBeforeClose(head, b);
      StaleEnds(body, p, s, ", 0");
      assert false;
    }
  }

  lemma {:induction false} EndBeforeClose(head: string, b: string)
    requires EndsWith(head + b + ")", AFTER) && |b| >= 3
    ensures EndsWith(b, ", 0")
  {
    var t := head + b + ")";
    assert t[|t| - 4..][..3] == b[|b| - 3..];
  }

  /** No call to wrap runs into another one. */
  predicate Disjoint(edits: seq<Edit>) {
    forall i, j :: 0 <= i < j < |edits| ==> edits[i].end <= edits[j].start
  }

  lemma {:induction false} DisjointAppend(a: seq<Edit>, b: seq<Edit>, low: nat, mid: nat, high: nat)
    requires Between(a, low, mid) && Between(b, mid, high)
    ensures Disjoint(a + b) <==> Disjoint(a) && Disjoint(b)
  {
    var c := a + b;
    assert forall i :: 0 <= i < |a| ==> c[i] == a[i];
    assert forall i :: 0 <= i < |b| ==> c[|a| + i] == b[i];
    if Disjoint(a) && Disjoint(b) {
      forall i, j | 0 <= i < j < |c| ensures c[i].end <= c[j].start {
        if j < |a| {} else if i >= |a| {
          assert b[i - |a|].end <= b[j - |a|].start;
        } else {
          assert a[i] in a && b[j - |a|] in b;
        }
      }
    }
  }

  lemma {:induction false} NothingOverlaps(e: Edit)
    ensures Disjoint([]) && Disjoint([e])
  {
  }

  /** A call that ends before the one it is in runs into it. */
  lemma {:induction false} HeadOverlaps(e: Edit, inside: seq<Edit>)
    requires e.start < e.end && Between(inside, e.start, e.end)
    ensures Disjoint([e] + inside) <==> inside == []
  {
    var c := [e] + inside;
    if inside != [] {
      assert c[0] == e && c[1] == inside[0] && inside[0] in inside;
      assert c[0].end > c[1].start;
    } else {
      assert c == [e];
    }
  }

  /** The calls to wrap run into each other exactly when one is in another. */
  lemma {:induction false} NestedIffOverlap(q: Query, p: seq<Tok>, s: seq<Tok>)
    ensures Nested(q, p, s) <==> !Disjoint(Edits(q, p, s))
    decreases Size(q), 1
  {
    hide Wraps, Flat, Disjoint, Print, Show;
    match q {
      case End => NothingOverlaps(Edit(0, 0));
      case Leaf(t, rest) => NestedIffOverlap(rest, p + [t], s);
      case Group(head, body, rest) => GroupOverlap(head, body, rest, p, s);
    }
  }

  lemma {:induction false} GroupOverlap(head: seq<Tok>, body: Query, rest: Query, p: seq<Tok>, s: seq<Tok>)
    ensures Nested(Group(head, body, rest), p, s) <==> !Disjoint(Edits(Group(head, body, rest), p, s))
    decreases Size(body) + Size(rest), 2
  {
    hide Wraps, Flat, Disjoint, Print, Show, Edits, Between, OwnEdit, Stale, WrapAt;
    var low, n := |Print(p)|, |Print(head)| + |Show(body)| + 1;
    var b, r := Edits(body, p + head, Inner(rest, s)), Edits(rest, Past(head, body, p), s);
    NestedIffOverlap(body, p + head, Inner(rest, s));
    NestedIffOverlap(rest, Past(head, body, p), s);
    EditsInside(body, p + head, Inner(rest, s));
    EditsInside(rest, Past(head, body, p), s);
    PrintPast(head, body, p);
    PartsOf(head, body, rest, p, s);
    InCall(b, low + |Print(head)|, low + n - 1, low, low + n);
    var own := OwnEdit(head, body, rest, p, s);
    Assoc(own, b, r);
    if ToWrap(head, rest, p, s) {
      var e := Edit(low, low + n);
      HeadOverlaps(e, b) by { InCall(b, low, low + n, low, low + n); }
      NothingOverlaps(e);
      HeadInCall(e, b);
      DisjointAppend([e] + b, r, low, low + n, low + n + |Show(rest)|);
    } else {
      assert [] + b == b;
      DisjointAppend(b, r, low, low + n, low + n + |Show(rest)|);
    }
  }

  lemma {:induction false} InCall(b: seq<Edit>, low: nat, high: nat, low2: nat, high2: nat)
    requires Between(b, low, high) && low2 <= low && high <= high2
    ensures Between(b, low2, high2)
  {
  }

  lemma {:induction false} HeadInCall(e: Edit, b: seq<Edit>)
    requires e.start < e.end && Between(b, e.start, e.end)
    ensures Between([e] + b, e.start, e.end)
  {
  }

  /**
   `coalesceSums` wraps every call at once exactly when no call to wrap holds another one; SUM has one
   argument.
   */
  lemma {:induction false} WrapsAllIffDisjoint(q: Query)
    requires Valid(q) && OneArgument(q)
    ensures Between(EditsOf(Flat(q), 0), 0, |Print(Flat(q))|)
    ensures Spliced(Print(Flat(q)), EditsOf(Flat(q), 0)) == Wrapped(q, [], []) <==> Disjoint(EditsOf(Flat(q), 0))
  {
    hide Flat, EditsOf, Edits, Stale, Spliced, Nested, Disjoint, Wrapped, OneArgument, Print, Show;
    CoalesceSumsIsStale(q);
    NestedIffOverlap(q, [], []);
    if Nested(q, [], []) { NestedCallsGoWrong(q, [], []); } else { FlatCallsAreWrapped(q, [], []); }
  }

  const SUM := [Word("SUM", "SUM"), Open("(")]
  const X := Leaf(Word("X", "x"), End)
  const SUM_OF_X := Group(SUM, X, End)

  /** `SUM(SUM(x))`: the end of the outer call falls in the middle of the word put before the inner one. */
  lemma {:induction false} SumOfSumIsBroken()
    ensures var ts := Flat(Group(SUM, SUM_OF_X, End));
      && Print(ts) == "SUM(SUM(x))" && Between(EditsOf(ts, 0), 0, |Print(ts)|)
      && Spliced(Print(ts), EditsOf(ts, 0)) == "COALESCE(SUM(COALESC, 0)E(SUM(x), 0))"
  {
    hide Wraps, Flat, Print, Stale, Show, WrapAt, Inner, Spliced, EditsOf, Edits, Between;
    var q := Group(SUM, SUM_OF_X, End);
    OuterCall();
    assert Valid(SUM_OF_X);
    CoalesceSumsIsStale(q);
  }

  lemma {:induction false} OuterTexts()
    ensures "SUM(" + "SUM(x)" + ")" == "SUM(SUM(x))"
    ensures "SUM(" + "COALESCE(SUM(x), 0)" + ")" == "SUM(COALESCE(SUM(x), 0))"
  {
  }

  lemma {:induction false} OuterCall()
    ensures var q := Group(SUM, SUM_OF_X, End);
      Show(q) == "SUM(SUM(x))" && Stale(q, [], []) == "COALESCE(SUM(COALESC, 0)E(SUM(x), 0))"
  {
    hide Wraps, Flat, Print, Stale, Show, WrapAt, Inner;
    PrintSum();
    InnerCall();
    ShowCall(SUM, SUM_OF_X);
    OuterTexts();
    OneCall(SUM, SUM_OF_X, [], []);
    assert [] + SUM == SUM;
    CutInWord();
  }

  lemma {:induction false} PrintSum()
    ensures Print(SUM) == "SUM("
  {
    hide Print;
    assert SUM == [SUM[0]] + [SUM[1]];
    PrintAppend([SUM[0]], [SUM[1]]);
    PrintOne(SUM[0]);
    PrintOne(SUM[1]);
  }

  lemma {:induction false} InnerCall()
    ensures Show(SUM_OF_X) == "SUM(x)" && Stale(SUM_OF_X, SUM, Inner(End, [])) == "COALESCE(SUM(x), 0)"
  {
    hide Wraps, Flat, Print, Stale, Show, WrapAt;
    var s := Inner(End, []);
    PrintSum();
    XMade(SUM + SUM, Inner(End, s));
    ShowCall(SUM, X);
    OneCall(SUM, X, SUM, s);
    assert "SUM(" + "x" + ")" == "SUM(x)";
    WrapWhole("SUM(x)");
    assert BEFORE + "SUM(x)" + AFTER == "COALESCE(SUM(x), 0)";
  }

  lemma {:induction false} CutInWord()
    ensures WrapAt("SUM(COALESCE(SUM(x), 0))", 11) == "COALESCE(SUM(COALESC, 0)E(SUM(x), 0))"
  {
    hide WrapAt, BEFORE, AFTER;
    WordIsCut();
    WrapParts("SUM(COALESC", "E(SUM(x), 0))");
    WrappedWord();
  }

  lemma {:induction false} WordIsCut()
    ensures "SUM(COALESC" + "E(SUM(x), 0))" == "SUM(COALESCE(SUM(x), 0))" && |"SUM(COALESC"| == 11
  {
  }

  lemma {:induction false} WrappedWord()
    ensures BEFORE + "SUM(COALESC" + AFTER + "E(SUM(x), 0))" == "COALESCE(SUM(COALESC, 0)E(SUM(x), 0))"
  {
  }

  lemma {:induction false} WrapParts(a: string, b: string)
    ensures WrapAt(a + b, |a|) == BEFORE + a + AFTER + b
  {
    hide BEFORE, AFTER;
    assert (a + b)[..|a|] == a && (a + b)[|a|..] == b;
  }

  lemma {:induction false} ShowCall(head: seq<Tok>, body: Query)
    ensures Show(Group(head, body, End)) == Print(head) + Show(body) + ")"
  {
    hide Print;
    assert Show(Group(head, body, End)) == Print(head) + Show(body) + ")" + Show(End);
  }

  lemma {:induction false} XMade(p: seq<Tok>, s: seq<Tok>)
    ensures Show(X) == "x" && Stale(X, p, s) == "x"
  {
    assert Show(X) == "x" + Show(End);
    assert Stale(X, p, s) == "x" + Stale(End, p + [X.t], s);
  }

  lemma {:induction false} OneCall(head: seq<Tok>, body: Query, p: seq<Tok>, s: seq<Tok>)
    requires |head| == 2 && !EndsGuarded(p) && (s == [] || s[0].Close?)
    ensures var n := |Print(head)| + |Show(body)| + 1;
      var call := Print(head) + Stale(body, p + head, Inner(End, s))
      + ")";
      n <= |call| && Stale(Group(head, body, End), p, s) == WrapAt(call, n)
  {
    hide Flat, Print, Show, Stale, WrapAt, EndsGuarded, StartsGuarded;
    PartsOf(head, body, End, p, s);
    FlatOf(End);
    NotFollowed(s);
    assert Flat(End) + s == s;
    assert Stale(End, Past(head, body, p), s) == "" by { NothingMade(Past(head, body, p), s); }
  }

  lemma {:induction false} NothingMade(p: seq<Tok>, s: seq<Tok>)
    ensures Stale(End, p, s) == ""
  {
  }

  lemma {:induction false} NotFollowed(s: seq<Tok>)
    requires s == [] || s[0].Close?
    ensures !StartsGuarded(s)
  {
    assert ["OVER"][0] != "" && ["IS", "NULL"][0] != "" && ["IS", "NOT", "NULL"][0] != "";
  }

  // ----- once more -----

  const COALESCE := Word("COALESCE", "COALESCE")

  /** The query with its calls wrapped. */
  function Rewritten(q: Query, p: seq<Tok>, s: seq<Tok>): Query {
    match q
    case End => End
    case Leaf(t, rest) => Leaf(t, Rewritten(rest, p + [t], s))
    case Group(head, body, rest) =>
      var b, r := Rewritten(body, p + head, Inner(rest, s)), Rewritten(rest, Past(head, body, p), s);
      if ToWrap(head, rest, p, s) then Leaf(COALESCE, Group([Open("(")], Group(head, b, Leaf(Other(", 0"), End)), r))
        else Group(head, b, r)
  }

  /** The wrapped text is that of a balanced query. */
  lemma {:induction false} RewrittenIsWrapped(q: Query, p: seq<Tok>, s: seq<Tok>)
    requires Valid(q)
    ensures Show(Rewritten(q, p, s)) == Wrapped(q, p, s) && Valid(Rewritten(q, p, s))
    ensures Rewritten(q, p, s).Group? ==> q.Group? && Rewritten(q, p, s).head == q.head
    decreases Size(q)
  {
    hide Wraps, Flat, Print;
    match q {
      case End =>
      case Leaf(t, rest) => RewrittenIsWrapped(rest, p + [t], s);
      case Group(head, body, rest) =>
        var b, r := Rewritten(body, p + head, Inner(rest, s)), Rewritten(rest, Past(head, body, p), s);
        RewrittenIsWrapped(body, p + head, Inner(rest, s));
        RewrittenIsWrapped(rest, Past(head, body, p), s);
        CoalesceShape(head, b, r);
        assert Valid(Leaf(Other(", 0"), End));
        assert Valid(Group(head, b, Leaf(Other(", 0"), End)));
    }
  }

  lemma {:induction false} CoalesceShape(head: seq<Tok>, b: Query, r: Query)
    ensures Show(Leaf(COALESCE, Group([Open("(")], Group(head, b, Leaf(Other(", 0"), End)), r)))
      == BEFORE + (Print(head) + Show(b) + ")") + AFTER + Show(r)
  {
    hide Print;
    var zero, open := Leaf(Other(", 0"), End), [Open("(")];
    PrintOne(open[0]);
    assert Show(zero) == ", 0" + Show(End) == ", 0";
    var group := Group(head, b, zero);
    assert Show(group) == Print(head) + Show(b) + ")" + ", 0";
    assert Show(Group(open, group, r)) == "(" + Show(group) + ")" + Show(r);
    CoalesceParts(Print(head) + Show(b) + ")", Show(r));
  }

  lemma {:induction false} CoalesceParts(call: string, tail: string)
    ensures "COALESCE" + ("(" + (call + ", 0") + ")" + tail) == BEFORE + call + AFTER + tail
  {
  }

  predicate EndsWord(before: seq<Tok>) {
    before != [] && GuardWord(before[|before| - 1])
  }

  /** What stood for NULL before a call still does. */
  predicate AsGuarded(p: seq<Tok>, p2: seq<Tok>) {
    (EndsGuarded(p) ==> EndsGuarded(p2)) && (EndsWord(p) ==> EndsWord(p2))
  }

  predicate Outer(s: seq<Tok>) {
    s == [] || s[0].Close?
  }

  /** Words that follow a call still do: they are not calls. */
  lemma {:induction false} WordsStay(q: Query, p: seq<Tok>, s: seq<Tok>, s2: seq<Tok>, words: seq<string>)
    requires Valid(q) && Outer(s) && Starts(Flat(q) + s, words) && "SUM" !in words
    ensures Starts(Flat(Rewritten(q, p, s)) + s2, words)
  {
    hide Wraps, Flat, Starts;
    if words == [] {
      NoWord(Flat(Rewritten(q, p, s)) + s2);
    } else {
      match q {
        case Leaf(t, rest) =>
          var r := Rewritten(rest, p + [t], s);
          FlatOf(q);
          FlatOf(Leaf(t, r));
          WordsStep(t, Flat(rest), s, words);
          WordsStay(rest, p + [t], s, s2, words[1..]);
          WordsStep(t, Flat(r), s2, words);
        case _ => OnlySumStarts(q, s, words);
      }
    }
  }

  lemma {:induction false} NoWord(ts: seq<Tok>)
    ensures Starts(ts, [])
  {
  }

  lemma {:induction false} WordsStep(t: Tok, a: seq<Tok>, b: seq<Tok>, words: seq<string>)
    requires words != []
    ensures Starts([t] + a + b, words) <==> t.Word? && t.w == words[0] && Starts(a + b, words[1..])
  {
    var ts, rest := [t] + a + b, words[1..];
    assert ts[0] == t && ts[1..] == a + b;
    if Starts(ts, words) {
      forall k | 0 <= k < |rest|
        ensures (a + b)[k].Word? && (a + b)[k].w == rest[k]
      {
        assert ts[k + 1] == (a + b)[k] && words[k + 1] == rest[k];
      }
    }
    if t.Word? && t.w == words[0] && Starts(a + b, rest) {
      forall k | 0 <= k < |words|
        ensures ts[k].Word? && ts[k].w == words[k]
      {
        if k > 0 { assert ts[k] == (a + b)[k - 1] && words[k] == rest[k - 1]; }
      }
    }
  }

  /** The only word before a parenthesis of a query is SUM. */
  lemma {:induction false} OnlySumStarts(q: Query, s: seq<Tok>, words: seq<string>)
    requires Valid(q) && !q.Leaf? && Outer(s) && words != [] && Starts(Flat(q) + s, words)
    ensures "SUM" in words
  {
    hide Flat;
    FlatOf(q);
    var first := (Flat(q) + s)[0];
    assert first.Word? && first.w == words[0] && words[0] in words;
    if q.Group? { assert first == q.head[0]; }
  }

  lemma {:induction false} StillFollowed(rest: Query, p: seq<Tok>, s: seq<Tok>, s2: seq<Tok>)
    requires Valid(rest) && Outer(s) && StartsGuarded(Flat(rest) + s)
    ensures StartsGuarded(Flat(Rewritten(rest, p, s)) + s2)
  {
    hide Wraps, Flat, Starts, Rewritten;
    if Starts(Flat(rest) + s, ["OVER"]) {
      WordsStay(rest, p, s, s2, ["OVER"]);
    } else if Starts(Flat(rest) + s, ["IS", "NULL"]) {
      WordsStay(rest, p, s, s2, ["IS", "NULL"]);
    } else {
      WordsStay(rest, p, s, s2, ["IS", "NOT", "NULL"]);
    }
  }

  lemma {:induction false} GuardedAfter(p: seq<Tok>, t: Tok)
    ensures EndsWord(p + [t]) == GuardWord(t) && EndsGuarded(p + [t]) == (t.Open? && EndsWord(p))
  {
  }

  /** Inside a parenthesis, the text before is as guarded as it was. */
  lemma {:induction false} HeadGuards(head: seq<Tok>, p: seq<Tok>, p2: seq<Tok>)
    requires IsHead(head) && AsGuarded(p, p2)
    ensures AsGuarded(p + head, p2 + head)
  {
    hide EndsWord, EndsGuarded;
    if |head| == 1 {
      assert head == [head[0]];
      GuardedAfter(p, head[0]);
      GuardedAfter(p2, head[0]);
    } else {
      assert p + head == (p + [head[0]]) + [head[1]] && p2 + head == (p2 + [head[0]]) + [head[1]];
      GuardedAfter(p, head[0]);
      GuardedAfter(p + [head[0]], head[1]);
    }
  }

  lemma {:induction false} PastGuards(head: seq<Tok>, body: Query, p: seq<Tok>, p2: seq<Tok>)
    ensures AsGuarded(Past(head, body, p), p2)
  {
    hide Flat;
    GuardedAfter(p + head + Flat(body), Close);
  }

  /** Nothing is left to wrap. */
  lemma {:induction false} NothingLeft(q: Query, p: seq<Tok>, s: seq<Tok>, p2: seq<Tok>, s2: seq<Tok>)
    requires Valid(q) && Outer(s) && Outer(s2) && AsGuarded(p, p2)
    ensures Edits(Rewritten(q, p, s), p2, s2) == []
    decreases Size(q), 1
  {
    hide EndsGuarded, StartsGuarded, Flat, Print, Show;
    match q {
      case End =>
      case Leaf(t, rest) =>
        GuardedAfter(p, t);
        GuardedAfter(p2, t);
        NothingLeft(rest, p + [t], s, p2 + [t], s2);
      case Group(head, body, rest) =>
        if ToWrap(head, rest, p, s) {
          NothingLeftWrapped(head, body, rest, p, s, p2, s2);
        } else {
          NothingLeftInGroup(head, body, rest, p, s, p2, s2);
        }
    }
  }

  lemma {:induction false} NothingLeftInGroup(head: seq<Tok>, body: Query, rest: Query, p: seq<Tok>, s: seq<Tok>,
          p2: seq<Tok>, s2: seq<Tok>)
    requires Valid(Group(head, body, rest)) && Outer(s) && Outer(s2) && AsGuarded(p, p2) && !ToWrap(head, rest, p, s)
    ensures Edits(Rewritten(Group(head, body, rest), p, s), p2, s2) == []
    decreases Size(body) + Size(rest), 2
  {
    hide EndsGuarded, StartsGuarded, Flat, Print, Show;
    var b, r := Rewritten(body, p + head, Inner(rest, s)), Rewritten(rest, Past(head, body, p), s);
    HeadGuards(head, p, p2);
    PastGuards(head, body, p, Past(head, b, p2));
    NothingLeft(body, p + head, Inner(rest, s), p2 + head, Inner(r, s2));
    NothingLeft(rest, Past(head, body, p), s, Past(head, b, p2), s2);
    if IsCall(head) && !EndsGuarded(p) { StillFollowed(rest, Past(head, body, p), s, s2); }
    assert OwnEdit(head, b, r, p2, s2) == [];
  }

  /** A wrapped call is in a call of COALESCE now. */
  lemma {:induction false} NothingLeftWrapped(head: seq<Tok>, body: Query, rest: Query, p: seq<Tok>, s: seq<Tok>,
          p2: seq<Tok>, s2: seq<Tok>)
    requires Valid(Group(head, body, rest)) && Outer(s) && Outer(s2) && AsGuarded(p, p2) && ToWrap(head, rest, p, s)
    ensures Edits(Rewritten(Group(head, body, rest), p, s), p2, s2) == []
    decreases Size(body) + Size(rest), 2
  {
    hide EndsGuarded, StartsGuarded, Flat, Print, Show, AsGuarded, Valid;
    var b, r := Rewritten(body, p + head, Inner(rest, s)), Rewritten(rest, Past(head, body, p), s);
    var zero, open := Leaf(Other(", 0"), End), [Open("(")];
    var p3 := p2 + [COALESCE];
    var p4, s4 := p3 + open, Inner(r, s2);
    var group := Group(head, b, zero);
    assert IsHead(head) && Valid(body) && Valid(rest) by { ValidParts(head, body, rest); }
    GuardedAfter(p2, COALESCE);
    GuardedAfter(p3, open[0]);
    assert EndsGuarded(p4);
    CallGuards(head, p, p4);
    PastGuards(head, body, p, Past(open, group, p3));
    NothingLeft(body, p + head, Inner(rest, s), p4 + head, Inner(zero, s4));
    NothingLeft(rest, Past(head, body, p), s, Past(open, group, p3), s2);
    assert Edits(zero, Past(head, b, p4), s4) == [];
    assert OwnEdit(head, b, zero, p4, s4) == [];
    assert Edits(group, p4, s4) == [];
    assert OwnEdit(open, group, r, p3, s2) == [];
    assert Edits(Group(open, group, r), p3, s2) == [];
  }

  lemma {:induction false} ValidParts(head: seq<Tok>, body: Query, rest: Query)
    requires Valid(Group(head, body, rest))
    ensures IsHead(head) && Valid(body) && Valid(rest)
  {
  }

  /** Just after SUM and its parenthesis, nothing stands for NULL. */
  lemma {:induction false} CallGuards(head: seq<Tok>, p: seq<Tok>, p2: seq<Tok>)
    requires IsHead(head) && IsCall(head)
    ensures AsGuarded(p + head, p2 + head)
  {
    hide EndsWord, EndsGuarded;
    assert p + head == (p + [head[0]]) + [head[1]];
    GuardedAfter(p, head[0]);
    GuardedAfter(p + [head[0]], head[1]);
  }

  /** The result, read as a query again, has nothing left to wrap: a second time changes nothing. */
  lemma {:induction false} SecondTimeChangesNothing(q: Query)
    requires Valid(q) && OneArgument(q) && Disjoint(EditsOf(Flat(q), 0))
    ensures Between(EditsOf(Flat(q), 0), 0, |Print(Flat(q))|)
    ensures var once, q2 := Spliced(Print(Flat(q)), EditsOf(Flat(q), 0)), Rewritten(q, [], []);
      Valid(q2) && Print(Flat(q2)) == once && EditsOf(Flat(q2), 0) == [] && Spliced(once, EditsOf(Flat(q2), 0)) == once
  {
    hide Flat, EditsOf, Edits, Spliced, Disjoint, Wrapped, OneArgument, Rewritten, Valid, Print, Show;
    var q2 := Rewritten(q, [], []);
    WrapsAllIffDisjoint(q);
    RewrittenIsWrapped(q, [], []);
    NothingLeft(q, [], [], [], []);
    CoalesceSumsIsStale(q2);
    SplicedStep(Print(Flat(q2)), [], 0);
  }

  // ----- values -----

  /** SUM of a column: NULL without any value. */
  function SumOf(values: seq<Option<int>>): Option<int> {
    if values == [] then None
    else
      var before, v := SumOf(values[..|values| - 1]), values[|values| - 1];
      if v.None? then before else if before.None? then v else Some(before.value + v.value)
  }

  function Coalesce(v: Option<int>, otherwise: Option<int>): Option<int> {
    if v.Some? then v else otherwise
  }

  /** The values there are, added up. */
  function Total(values: seq<Option<int>>): int {
    if values == [] then 0
    else Total(values[..|values| - 1]) + if values[|values| - 1].Some? then values[|values| - 1].value else 0
  }

  /** A wrapped sum is never NULL: it is the total, and the sum itself when there was one. */
  lemma {:induction false} WrappedSumIsTotal(values: seq<Option<int>>)
    ensures Coalesce(SumOf(values), Some(0)) == Some(Total(values))
    ensures SumOf(values).Some? ==> SumOf(values) == Some(Total(values))
    ensures SumOf(values).None? <==> forall i :: 0 <= i < |values| ==> values[i].None?
  {
    if values != [] { WrappedSumIsTotal(values[..|values| - 1]); }
  }
}
