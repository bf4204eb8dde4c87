/**
 `quoteNumericEnumLiterals` of numeric-enum-literals.ts: the edits are found in the masked query and
 made in the query itself. No string and no comment changes.
 */
module NumericEnumLiterals {
  import opened Basics
  import opened EditSplice
  import opened LiteralMask

  // ----- the edits -----

  /** An integer of the masked query is put between quotes. */
  predicate Quoting(e: Edit, masked: string) {
    && e.start < e.end <= |masked| && e.text == "'" + masked[e.start..e.end] + "'"
    && forall k :: e.start <= k < e.end ==> masked[k] == '-' || Digit(masked[k])
  }

  const CAST := "CAST("
  const AS_CHAR := " AS CHAR)"

  predicate NameChar(c: char) {
    WordChar(c) || c == '`'
  }

  /** A reference to a column, with blanks around its point perhaps, is cast; its text is that of the query. */
  predicate Casting(e: Edit, sql: string, masked: string) {
    && e.start < e.end <= |masked| == |sql| && e.text == CAST + sql[e.start..e.end] + AS_CHAR
    && NameChar(masked[e.start]) && NameChar(masked[e.end - 1])
    && forall k :: e.start <= k < e.end ==> !Quote(masked[k])
  }

  predicate Found(edits: seq<Edit>, sql: string) {
    forall e :: e in edits ==> Quoting(e, Mask(sql)) || Casting(e, sql, Mask(sql))
  }

  // ----- where the characters of the query go -----

  /** Not covered by the edit, or in the text it keeps. */
  predicate Spares(e: Edit, sql: string, a: nat, b: nat) {
    e.end <= a || b <= e.start
      || (e.start <= a && b <= e.end <= |sql| && e.text == CAST + sql[e.start..e.end] + AS_CHAR)
  }

  /** How far the edits move a character they keep. */
  function Offset(edits: seq<Edit>, k: nat): int {
    Shift(edits, k) + if Touched(edits, k) then |CAST| else 0
  }

  lemma {:induction false} SliceOfEnd(a: string, b: string, c: string, from: nat, n: nat)
    requires from + n <= |c|
    ensures (a + b + c)[|a| + |b| + from..|a| + |b| + from + n] == c[from..from + n]
  {
  }

  lemma {:induction false} SliceOfSlice(s: string, low: nat, high: nat, a: nat, b: nat)
    requires low <= a <= b <= high <= |s|
    ensures s[low..high][a - low..b - low] == s[a..b]
  {
    var t := s[low..high];
    assert forall k :: a <= k < b ==> t[k - low] == s[k];
  }

  /** The stretch of the query from `a` to `b` is in the result, whole. */
  ghost predicate Survives(sql: string, edits: seq<Edit>, limit: nat, a: nat, b: nat)
    requires a <= b <= limit <= |sql| && Apart(edits, limit)
  {
    var out, at := Rebuilt(sql, edits, limit), a + Offset(edits, a);
    0 <= at && at + b - a <= |out| && out[at..at + b - a] == sql[a..b]
  }

  lemma {:induction false} SpanSurvives(sql: string, edits: seq<Edit>, limit: nat, a: nat, b: nat)
    requires a < b <= limit <= |sql| && Apart(edits, limit) && forall e :: e in edits ==> Spares(e, sql, a, b)
    ensures Survives(sql, edits, limit, a, b)
    decreases |edits|
  {
    hide Spares, Rebuilt, Offset, Survives;
    if edits == [] {
      SpanOfAll(sql, limit, a, b);
    } else if b <= edits[0].start {
      SpanSurvives(sql, edits[1..], edits[0].start, a, b);
      SpanOnLeft(sql, edits, limit, a, b);
    } else {
      SpanOnRight(sql, edits, limit, a, b);
    }
  }

  lemma {:induction false} SpanOfAll(sql: string, limit: nat, a: nat, b: nat)
    requires a < b <= limit <= |sql|
    ensures Survives(sql, [], limit, a, b)
  {
    SliceOfSlice(sql, 0, limit, a, b);
  }

  lemma {:induction false} SpanOnLeft(sql: string, edits: seq<Edit>, limit: nat, a: nat, b: nat)
    requires a < b <= limit <= |sql| && edits != [] && Apart(edits, limit) && b <= edits[0].start
    requires Survives(sql, edits[1..], edits[0].start, a, b)
    ensures Survives(sql, edits, limit, a, b)
  {
    hide Touched, Shift, Rebuilt;
    var e, rest := edits[0], edits[1..];
    TouchedStep(edits, a);
    ShiftStep(edits, a);
    RebuiltStep(sql, edits, limit);
    SliceOfPrefix(Rebuilt(sql, rest, e.start), e.text, sql[e.end..limit], a + Offset(rest, a), b - a);
  }

  /** The edit on the right leaves the stretch after it, or keeps it. */
  lemma {:induction false} SpanOnRight(sql: string, edits: seq<Edit>, limit: nat, a: nat, b: nat)
    requires a < b <= limit <= |sql| && edits != [] && Apart(edits, limit) && edits[0].start < b
    requires Spares(edits[0], sql, a, b)
    ensures Survives(sql, edits, limit, a, b)
  {
    hide Touched, Shift, Rebuilt;
    var e, rest := edits[0], edits[1..];
    TouchedStep(edits, a);
    ShiftStep(edits, a);
    RebuiltStep(sql, edits, limit);
    Grown(sql, rest, e.start);
    ShiftPast(rest, e.start, a);
    NotTouchedPast(rest, e.start, a);
    SpanOfLast(sql, Rebuilt(sql, rest, e.start), e, limit, a, b);
  }

  /** The stretch `part` is in `out` from `at` on. */
  predicate StandsAt(out: string, at: int, part: string) {
    0 <= at && at + |part| <= |out| && out[at..at + |part|] == part
  }

  lemma {:induction false} SpanAfter(sql: string, left: string, text: string, from: nat, limit: nat, a: nat, b: nat)
    requires from <= a < b <= limit <= |sql|
    ensures StandsAt(left + text + sql[from..limit], |left| + |text| + a - from, sql[a..b])
  {
    SliceOfSlice(sql, from, limit, a, b);
    SliceOfEnd(left, text, sql[from..limit], a - from, b - a);
  }

  lemma {:induction false} SpanKept(sql: string, left: string, right: string, from: nat, end: nat, a: nat, b: nat)
    requires from <= a < b <= end <= |sql|
    ensures StandsAt(left + (CAST + sql[from..end] + AS_CHAR) + right, |left| + |CAST| + a - from, sql[a..b])
  {
    SliceOfSlice(sql, from, end, a, b);
    SliceOfMiddle(CAST, sql[from..end], AS_CHAR, a - from, b - a);
    SliceOfMiddle(left, CAST + sql[from..end] + AS_CHAR, right, |CAST| + a - from, b - a);
  }

  lemma {:induction false} SpanOfLast(sql: string, left: string, e: Edit, limit: nat, a: nat, b: nat)
    requires e.start <= e.end <= limit <= |sql| && e.start < b && a < b <= limit && Spares(e, sql, a, b)
    ensures StandsAt(left + e.text + sql[e.end..limit],
                     |left| + if e.end <= a then |e.text| + a - e.end else |CAST| + a - e.start, sql[a..b])
  {
    hide StandsAt;
    if e.end <= a {
      SpanAfter(sql, left, e.text, e.end, limit, a, b);
    } else {
      SpanKept(sql, left, sql[e.end..limit], e.start, e.end, a, b);
    }
  }

  // ----- strings and comments -----

  lemma {:induction false} PrintSplit(ts: seq<Token>, i: nat)
    requires i < |ts|
    ensures Print(ts) == Print(ts[..i]) + PrintToken(ts[i]) + Print(ts[i + 1..])
  {
    hide PrintToken, BlankToken, Print, Blank;
    PrintFirst(ts);
    if i > 0 {
      PrintSplit(ts[1..], i - 1);
      PrintFirst(ts[..i]);
      SlicesOfTail(ts, i);
      Regroup(PrintToken(ts[0]), Print(ts[..i][1..]), PrintToken(ts[i]), Print(ts[i + 1..]));
    } else {
      assert ts[..0] == [];
      PrintFirst([]);
    }
  }

  lemma {:induction false} BlankSplit(ts: seq<Token>, i: nat)
    requires i < |ts|
    ensures Blank(ts) == Blank(ts[..i]) + BlankToken(ts[i]) + Blank(ts[i + 1..])
  {
    hide PrintToken, BlankToken, Print, Blank;
    PrintFirst(ts);
    if i > 0 {
      BlankSplit(ts[1..], i - 1);
      PrintFirst(ts[..i]);
      SlicesOfTail(ts, i);
      Regroup(BlankToken(ts[0]), Blank(ts[..i][1..]), BlankToken(ts[i]), Blank(ts[i + 1..]));
    } else {
      assert ts[..0] == [];
      PrintFirst([]);
    }
  }

  lemma {:induction false} SameLength(ts: seq<Token>)
    ensures |Print(ts)| == |Blank(ts)|
  {
    hide PrintToken, BlankToken, Print, Blank;
    PrintFirst(ts);
    if ts != [] {
      TokenOnlyBlanks(ts[0]);
      SameLength(ts[1..]);
    }
  }

  lemma {:induction false} SlicesOfTail(ts: seq<Token>, i: nat)
    requires 0 < i < |ts|
    ensures ts[..i] != [] && ts[..i][0] == ts[0] && ts[1..][..i - 1] == ts[..i][1..]
    ensures ts[1..][i - 1] == ts[i] && ts[1..][i..] == ts[i + 1..]
  {
  }

  lemma {:induction false} PrintFirst(ts: seq<Token>)
    ensures Print(ts) == if ts == [] then "" else PrintToken(ts[0]) + Print(ts[1..])
    ensures Blank(ts) == if ts == [] then "" else BlankToken(ts[0]) + Blank(ts[1..])
  {
    hide PrintToken, BlankToken;
  }

  lemma {:induction false} Regroup(a: string, b: string, c: string, d: string)
    ensures a + (b + c + d) == a + b + c + d
  {
  }

  /** Where a token of the query begins. */
  function At(sql: string, i: nat): nat
    requires i < |Lex(sql)|
  {
    |Print(Lex(sql)[..i])|
  }

  lemma {:induction false} TokenAt(sql: string, i: nat)
    requires i < |Lex(sql)|
    ensures var a, t := At(sql, i), Lex(sql)[i]; var b := a + |PrintToken(t)|;
      b <= |sql| == |Mask(sql)| && sql[a..b] == PrintToken(t) && Mask(sql)[a..b] == BlankToken(t)
  {
    hide PrintToken, BlankToken, Print, Blank, Lex;
    var ts := Lex(sql);
    LexIsFaithful(sql);
    MaskOnlyBlanks(sql);
    PrintSplit(ts, i);
    BlankSplit(ts, i);
    SameLength(ts[..i]);
    TokenOnlyBlanks(ts[i]);
    SliceOfMiddle(Print(ts[..i]), PrintToken(ts[i]), Print(ts[i + 1..]), 0, |PrintToken(ts[i])|);
    SliceOfMiddle(Blank(ts[..i]), BlankToken(ts[i]), Blank(ts[i + 1..]), 0, |BlankToken(ts[i])|);
  }

  predicate Literal(t: Token) {
    t.Text? || t.Note?
  }

  /** A string begins with its quote; all else in it, and all a comment, is a quote or blank. */
  lemma {:induction false} LiteralIsBlank(s: string, i: nat)
    requires i < |Lex(s)| && Literal(Lex(s)[i])
    ensures var t := Lex(s)[i]; var m := BlankToken(t);
      m != [] && (t.Text? ==> Quote(m[0])) && forall k :: 0 <= k < |m| ==> Quote(m[k]) || m[k] == ' '
    decreases |s|
  {
    hide PrintToken;
    LexHead(s);
    var n := |PrintToken(Lex(s)[0])|;
    if i > 0 {
      assert Lex(s)[i] == Lex(s)[1..][i - 1];
      LiteralIsBlank(s[n..], i - 1);
    } else {
      FirstIsBlank(s);
    }
  }

  lemma {:induction false} FirstIsBlank(s: string)
    requires s != [] && Literal(Lex(s)[0])
    ensures var t := Lex(s)[0]; var m := BlankToken(t);
      m != [] && (t.Text? ==> Quote(m[0])) && forall k :: 0 <= k < |m| ==> Quote(m[k]) || m[k] == ' '
  {
    LexHead(s);
    if Lex(s)[0].Text? { TextIs(s); }
  }

  predicate Blanked(m: string, a: nat, b: nat) {
    a < b <= |m| && forall k :: a <= k < b ==> Quote(m[k]) || m[k] == ' '
  }

  /** An integer found in the masked query is outside. */
  lemma {:induction false} QuotingSpares(e: Edit, m: string, a: nat, b: nat)
    requires Quoting(e, m) && Blanked(m, a, b)
    ensures e.end <= a || b <= e.start
  {
    var k := if e.start < a then a else e.start;
    assert a <= k < b ==> Quote(m[k]) || m[k] == ' ';
    assert e.start <= k < e.end ==> m[k] == '-' || Digit(m[k]);
  }

  /** A reference is outside, or goes round a comment. */
  lemma {:induction false} CastingSpares(e: Edit, sql: string, m: string, a: nat, b: nat)
    requires Casting(e, sql, m) && Blanked(m, a, b)
    ensures e.end <= a || b <= e.start || (e.start < a && b < e.end && !Quote(m[a]))
  {
  }

  /** An edit found in the masked query keeps clear of a string, and of a comment or keeps it. */
  lemma {:induction false} LiteralIsSpared(sql: string, e: Edit, i: nat)
    requires i < |Lex(sql)| && Literal(Lex(sql)[i]) && (Quoting(e, Mask(sql)) || Casting(e, sql, Mask(sql)))
    ensures Spares(e, sql, At(sql, i), At(sql, i) + |PrintToken(Lex(sql)[i])|)
  {
    hide PrintToken, Lex, Mask, At, BlankToken, Quoting, Blanked;
    var a, m := At(sql, i), Mask(sql);
    var b := a + |PrintToken(Lex(sql)[i])|;
    LiteralBlanked(sql, i);
    if Quoting(e, m) { QuotingSpares(e, m, a, b); } else { CastingSpares(e, sql, m, a, b); }
  }

  lemma {:induction false} LiteralBlanked(sql: string, i: nat)
    requires i < |Lex(sql)| && Literal(Lex(sql)[i])
    ensures Blanked(Mask(sql), At(sql, i), At(sql, i) + |PrintToken(Lex(sql)[i])|)
  {
    hide PrintToken, Lex, Mask, At, BlankToken;
    var a, t, m := At(sql, i), Lex(sql)[i], Mask(sql);
    var b := a + |PrintToken(t)|;
    TokenAt(sql, i);
    LiteralIsBlank(sql, i);
    var blank := BlankToken(t);
    forall k | a <= k < b ensures Quote(m[k]) || m[k] == ' ' { assert m[k] == m[a..b][k - a] == blank[k - a]; }
  }

  /**
   No string and no comment of the query changes: each is in the result, whole, moved by the edits on its
   left.
   */
  lemma {:induction false} LiteralsAreKept(sql: string, edits: seq<Edit>, i: nat)
    requires Found(edits, sql) && i < |Lex(sql)| && Literal(Lex(sql)[i])
    ensures Inside(edits, |sql|) && Apart(Kept(SortEdits(edits), |sql|), |sql|)
    ensures var kept := Kept(SortEdits(edits), |sql|);
      var out, at, literal := Rebuilt(sql, kept, |sql|), At(sql, i) + Offset(kept, At(sql, i)), PrintToken(Lex(sql)[i]);
      0 <= at && at + |literal| <= |out| && out[at..at + |literal|] == literal
  {
    hide Lex, Mask, At, PrintToken, SortEdits, Rebuilt, Apart, Spares, Kept, Offset, Quoting, Casting;
    var sorted, a := SortEdits(edits), At(sql, i);
    var b := a + |PrintToken(Lex(sql)[i])|;
    FoundInside(sql, edits);
    SortedEdits(edits);
    KeptApart(sorted, |sql|);
    var kept := Kept(sorted, |sql|);
    TokenAt(sql, i);
    LiteralIsLong(sql, i);
    forall e | e in kept ensures Spares(e, sql, a, b) { LiteralIsSpared(sql, e, i); }
    SpanSurvives(sql, kept, |sql|, a, b);
  }

  lemma {:induction false} LiteralIsLong(sql: string, i: nat)
    requires i < |Lex(sql)| && Literal(Lex(sql)[i])
    ensures |PrintToken(Lex(sql)[i])| > 0
  {
    hide Lex, PrintToken;
    LiteralIsBlank(sql, i);
    TokenOnlyBlanks(Lex(sql)[i]);
  }

  lemma {:induction false} FoundInside(sql: string, edits: seq<Edit>)
    requires Found(edits, sql)
    ensures Inside(edits, |sql|)
    ensures var sorted := SortEdits(edits); forall i :: 0 <= i < |sorted| ==> sorted[i].start <= sorted[i].end
  {
    hide Mask, SortEdits;
    MaskOnlyBlanks(sql);
    SortedEdits(edits);
    forall i | 0 <= i < |edits| ensures edits[i].start <= edits[i].end <= |sql| { assert edits[i] in edits; }
    var sorted := SortEdits(edits);
    forall i | 0 <= i < |sorted| ensures sorted[i].start <= sorted[i].end { assert sorted[i] in edits; }
  }
}
