/**
 `maskLiterals` of numeric-enum-literals.ts: the contents of strings and comments are blanked, so that
 what is searched afterwards is never quoted text. The index loops are proved against a lexer.
 */
module LiteralMask {

  /** A query as MySQL cuts it: code, a quoted text, a comment. */
  datatype Token = Code(c: char) | Text(quote: char, body: string, closed: bool) | Note(text: string)

  predicate Quote(c: char) { c == '\'' || c == '"' }

  /** Length of a text up to the quote that closes it: doubled quotes and escaped characters are part of it. */
  function BodyLength(s: string, quote: char): (n: nat)
    ensures n <= |s| && (n < |s| ==> s[n] == quote && !(n + 1 < |s| && s[n + 1] == quote))
  {
    if s == [] then 0
    else if s[0] == '\\' && |s| > 1 then 2 + BodyLength(s[2..], quote)
    else if s[0] == quote then (if |s| > 1 && s[1] == quote then 2 + BodyLength(s[2..], quote) else 0)
    else 1 + BodyLength(s[1..], quote)
  }

  /** Length of a line. */
  function LineLength(s: string): (n: nat)
    ensures n <= |s| && (n < |s| ==> s[n] == '\n') && forall k :: 0 <= k < n ==> s[k] != '\n'
  {
    if s == [] || s[0] == '\n' then 0 else 1 + LineLength(s[1..])
  }

  /** Position after the first end of comment from `i`, or the length of the text. */
  function CommentStop(s: string, i: nat): (n: nat)
    requires i <= |s|
    ensures i <= n <= |s| && (n == |s| || (i + 2 <= n && s[n - 2..n] == "*/"))
    ensures forall k :: i <= k < n - 2 ==> !(s[k] == '*' && s[k + 1] == '/')
    decreases |s| - i
  {
    if i + 1 >= |s| then |s| else if s[i] == '*' && s[i + 1] == '/' then i + 2 else CommentStop(s, i + 1)
  }

  predicate LineNote(s: string) {
    s != [] && (s[0] == '#' || (s[0] == '-' && |s| > 1 && s[1] == '-'))
  }

  predicate BlockNote(s: string) {
    |s| > 1 && s[0] == '/' && s[1] == '*'
  }

  function Lex(s: string): seq<Token>
    decreases |s|
  {
    if s == [] then []
    else if Quote(s[0]) then
      var n := BodyLength(s[1..], s[0]);
      if n + 1 < |s| then [Text(s[0], s[1..n + 1], true)] + Lex(s[n + 2..]) else [Text(s[0], s[1..], false)]
    else if LineNote(s) then [Note(s[..LineLength(s)])] + Lex(s[LineLength(s)..])
    else if BlockNote(s) then [Note(s[..CommentStop(s, 2)])] + Lex(s[CommentStop(s, 2)..])
    else [Code(s[0])] + Lex(s[1..])
  }

  function Blanks(n: nat): (r: string)
    ensures |r| == n
  {
    seq(n, i => ' ')
  }

  function PrintToken(t: Token): string {
    match t
    case Code(c) => [c]
    case Text(quote, body, closed) => [quote] + body + if closed then [quote] else []
    case Note(text) => text
  }

  /** The quotes stay; the contents are blank. */
  function BlankToken(t: Token): string {
    match t
    case Code(c) => [c]
    case Text(quote, body, closed) => [quote] + Blanks(|body|) + if closed then [quote] else []
    case Note(text) => Blanks(|text|)
  }

  function Print(ts: seq<Token>): string {
    if ts == [] then [] else PrintToken(ts[0]) + Print(ts[1..])
  }

  function Blank(ts: seq<Token>): string {
    if ts == [] then [] else BlankToken(ts[0]) + Blank(ts[1..])
  }

  function Mask(s: string): string {
    Blank(Lex(s))
  }

  /** Cutting a query loses nothing. */
  lemma {:induction false} LexIsFaithful(s: string)
    ensures Print(Lex(s)) == s
    decreases |s|
  {
    hide PrintToken;
    if s != [] {
      LexHead(s);
      hide Lex;
      var n := |PrintToken(Lex(s)[0])|;
      LexIsFaithful(s[n..]);
      assert s == s[..n] + s[n..];
    } else {
      NoToken();
    }
  }

  /** The rest of a query after its first token. */
  lemma {:induction false} LexHead(s: string)
    requires s != []
    ensures Lex(s) != [] && var n := |PrintToken(Lex(s)[0])|;
      0 < n <= |s| && s[..n] == PrintToken(Lex(s)[0]) && Lex(s)[1..] == Lex(s[n..])
  {
    if Quote(s[0]) { TextHead(s); } else { OtherHead(s); }
  }

  lemma {:induction false} TextHead(s: string)
    requires s != [] && Quote(s[0])
    ensures Lex(s) != [] && var n := |PrintToken(Lex(s)[0])|;
      0 < n <= |s| && s[..n] == PrintToken(Lex(s)[0]) && Lex(s)[1..] == Lex(s[n..])
  {
    hide Lex, BodyLength;
    var n := BodyLength(s[1..], s[0]);
    if n + 1 < |s| {
      ClosedToken(s, n);
      assert s[..n + 2] == [s[0]] + s[1..n + 1] + [s[n + 1]];
    } else {
      OpenToken(s);
      NothingToLex();
      assert s == [s[0]] + s[1..] && s[|s|..] == [] && s[..|s|] == s;
    }
  }

  lemma {:induction false} NothingToLex()
    ensures Lex([]) == []
  {
  }

  lemma {:induction false} OtherHead(s: string)
    requires s != [] && !Quote(s[0])
    ensures Lex(s) != [] && var n := |PrintToken(Lex(s)[0])|;
      0 < n <= |s| && s[..n] == PrintToken(Lex(s)[0]) && Lex(s)[1..] == Lex(s[n..])
  {
    hide BodyLength, LineLength, CommentStop;
  }

  lemma {:induction false} MaskHead(s: string)
    requires s != []
    ensures Lex(s) != []
    ensures var n := |PrintToken(Lex(s)[0])|; 0 < n <= |s| && Mask(s) == BlankToken(Lex(s)[0]) + Mask(s[n..])
  {
    LexHead(s);
  }

  /** Same length; each character is kept or blank. */
  lemma {:induction false} MaskOnlyBlanks(s: string)
    ensures |Mask(s)| == |s| && forall i :: 0 <= i < |s| ==> Mask(s)[i] == s[i] || Mask(s)[i] == ' '
    decreases |s|
  {
    hide Mask, Lex, PrintToken, BlankToken;
    if s != [] {
      LexHead(s);
      MaskHead(s);
      var t := Lex(s)[0];
      var n := |PrintToken(t)|;
      MaskOnlyBlanks(s[n..]);
      TokenOnlyBlanks(t);
      forall i | 0 <= i < |s| ensures Mask(s)[i] == s[i] || Mask(s)[i] == ' ' {
        if i < n { assert s[i] == s[..n][i]; } else { assert s[i] == s[n..][i - n]; }
      }
    } else {
      MaskOfNothing();
    }
  }

  lemma {:induction false} MaskOfNothing()
    ensures Mask([]) == []
  {
  }

  lemma {:induction false} TokenOnlyBlanks(t: Token)
    ensures |BlankToken(t)| == |PrintToken(t)|
    ensures forall i :: 0 <= i < |BlankToken(t)| ==> BlankToken(t)[i] == PrintToken(t)[i] || BlankToken(t)[i] == ' '
  {
  }

  // ----- masking twice -----

  lemma {:induction false} BlankStep(s: string, quote: char)
    requires s != [] && s[0] == ' ' && Quote(quote)
    ensures BodyLength(s, quote) == 1 + BodyLength(s[1..], quote)
  {
  }

  lemma {:induction false} BlankBody(n: nat, rest: string, quote: char)
    requires Quote(quote) && BodyLength(rest, quote) == 0
    ensures BodyLength(Blanks(n) + rest, quote) == n
  {
    hide BodyLength;
    var s := Blanks(n) + rest;
    if n > 0 {
      BlankBody(n - 1, rest, quote);
      assert s[1..] == Blanks(n - 1) + rest;
      BlankStep(s, quote);
    } else {
      assert s == rest;
    }
  }

  lemma {:induction false} LoneQuote(rest: string, quote: char)
    requires Quote(quote) && (rest != [] ==> rest[0] != quote)
    ensures BodyLength([quote] + rest, quote) == 0
  {
  }

  lemma {:induction false} EmptyBody(quote: char)
    ensures BodyLength([], quote) == 0
  {
  }

  /** The token of a quoted text. */
  lemma {:induction false} ClosedToken(s: string, n: nat)
    requires s != [] && Quote(s[0]) && BodyLength(s[1..], s[0]) == n && n + 1 < |s|
    ensures s[n + 1] == s[0] && Lex(s) == [Text(s[0], s[1..n + 1], true)] + Lex(s[n + 2..])
  {
    assert s[1..][n] == s[0];
  }

  lemma {:induction false} OpenToken(s: string)
    requires s != [] && Quote(s[0]) && BodyLength(s[1..], s[0]) == |s| - 1
    ensures Lex(s) == [Text(s[0], s[1..], false)]
  {
  }

  lemma {:induction false} SpaceToken(s: string)
    requires s != [] && s[0] == ' '
    ensures Mask(s) == [' '] + Mask(s[1..])
  {
    hide BodyLength, LineLength, CommentStop;
    assert Lex(s)[0] == Code(' ');
    MaskHead(s);
  }

  lemma {:induction false} BlankCode(n: nat, rest: string)
    ensures Mask(Blanks(n) + rest) == Blanks(n) + Mask(rest)
  {
    hide Mask;
    var s := Blanks(n) + rest;
    if n > 0 {
      BlankCode(n - 1, rest);
      assert s[1..] == Blanks(n - 1) + rest;
      SpaceToken(s);
      assert Blanks(n) == [' '] + Blanks(n - 1);
    } else {
      assert s == rest;
    }
  }

  /** A masked query has nothing left to mask. */
  lemma {:induction false} MaskIsStable(s: string)
    ensures Mask(Mask(s)) == Mask(s)
    decreases |s|
  {
    if s != [] {
      var t := Lex(s)[0];
      var n := |PrintToken(t)|;
      LexHead(s);
      MaskHead(s);
      MaskIsStable(s[n..]);
      MaskOnlyBlanks(s[n..]);
      var m := Mask(s[n..]);
      match t {
        case Code(c) => StableCode(s, m);
        case Text(quote, body, closed) => StableText(s, m);
        case Note(text) => BlankCode(|text|, m);
      }
    }
  }

  lemma {:induction false} StableCode(s: string, m: string)
    requires s != [] && Lex(s)[0].Code? && Mask(m) == m
    requires |m| == |s| - 1 && (m != [] ==> m[0] == s[1] || m[0] == ' ')
    ensures Mask(BlankToken(Lex(s)[0]) + m) == BlankToken(Lex(s)[0]) + m
  {
    var r := [s[0]] + m;
    assert r[1..] == m;
    assert Lex(r)[0] == Code(s[0]);
    MaskHead(r);
  }

  lemma {:induction false} StableText(s: string, m: string)
    requires s != [] && Lex(s)[0].Text? && Mask(m) == m
    requires |PrintToken(Lex(s)[0])| <= |s| && |m| == |s| - |PrintToken(Lex(s)[0])|
    requires m != [] ==> m[0] == s[|PrintToken(Lex(s)[0])|] || m[0] == ' '
    ensures Mask(BlankToken(Lex(s)[0]) + m) == BlankToken(Lex(s)[0]) + m
  {
    var t := Lex(s)[0];
    TextIs(s);
    if t.closed { StableClosed(t, m); } else { StableOpen(t, m); }
  }

  /** A closing quote is not followed by another one. */
  lemma {:induction false} TextIs(s: string)
    requires s != [] && Lex(s)[0].Text?
    ensures var t := Lex(s)[0]; var n := |PrintToken(t)|;
      Quote(t.quote) && n <= |s| && (if t.closed then n < |s| ==> s[n] != t.quote else n == |s|)
  {
    LexHead(s);
    var n := BodyLength(s[1..], s[0]);
    if n + 1 < |s| {
      assert n + 2 < |s| ==> s[1..][n + 1] == s[n + 2];
    }
  }

  lemma {:induction false} Shape(quote: char, k: nat, m: string)
    ensures var r := [quote] + Blanks(k) + [quote] + m;
      |r| == k + 2 + |m| && r[0] == quote && r[1..] == Blanks(k) + ([quote] + m) && r[1..k + 1] == Blanks(k)
        && r[k + 2..] == m
  {
  }

  lemma {:induction false} StableClosed(t: Token, m: string)
    requires t.Text? && t.closed && Quote(t.quote) && Mask(m) == m && (m != [] ==> m[0] != t.quote)
    ensures Mask(BlankToken(t) + m) == BlankToken(t) + m
  {
    hide Lex, BodyLength, Mask, Blanks;
    var r, k := BlankToken(t) + m, |t.body|;
    Shape(t.quote, k, m);
    LoneQuote(m, t.quote);
    BlankBody(k, [t.quote] + m, t.quote);
    ClosedToken(r, k);
    assert Lex(r)[0] == Text(t.quote, Blanks(k), true);
    MaskHead(r);
  }

  lemma {:induction false} StableOpen(t: Token, m: string)
    requires t.Text? && !t.closed && Quote(t.quote) && m == []
    ensures Mask(BlankToken(t) + m) == BlankToken(t) + m
  {
    hide Lex, BodyLength;
    var r, k := BlankToken(t) + m, |t.body|;
    assert r[1..] == Blanks(k) + [] && r[1..] == Blanks(k);
    EmptyBody(t.quote);
    BlankBody(k, [], t.quote);
    OpenToken(r);
    MaskHead(r);
    NoToken();
    assert r[|r|..] == [];
  }

  lemma {:induction false} NoToken()
    ensures Lex([]) == []
  {
  }

  // ----- the loops -----

  /** The text up to `i` is masked, the rest is not yet. */
  ghost predicate MaskedTo(sql: string, out: seq<char>, i: nat) {
    && |out| == |sql|
    && if i <= |sql| then out[..i] + Mask(sql[i..]) == Mask(sql) && out[i..] == sql[i..] else out == Mask(sql)
  }

  lemma {:induction false} MaskedOn(sql: string, before: seq<char>, after: seq<char>, i: nat)
    requires i < |sql| && MaskedTo(sql, before, i) && |after| == |sql| && after[..i] == before[..i]
    ensures Lex(sql[i..]) != [] && var t := Lex(sql[i..])[0]; var n := i + |PrintToken(t)|;
      n <= |sql| && (after[i..n] == BlankToken(t) && after[n..] == sql[n..] ==> MaskedTo(sql, after, n))
  {
    hide Mask, Lex, PrintToken, BlankToken;
    MaskHead(sql[i..]);
    var t := Lex(sql[i..])[0];
    var n := i + |PrintToken(t)|;
    assert sql[i..][n - i..] == sql[n..];
    if after[i..n] == BlankToken(t) && after[n..] == sql[n..] {
      assert after[..n] == after[..i] + after[i..n];
      assert after[..n] + Mask(sql[n..]) == after[..i] + (BlankToken(t) + Mask(sql[n..]));
    }
  }

  method MaskLiterals(sql: string) returns (masked: string)
    ensures masked == Mask(sql)
  {
    hide Mask, MaskedTo, Lex;
    var out := new char[|sql|](i requires 0 <= i < |sql| => sql[i]);
    assert out[..] == sql;
    Start(sql);
    var i := 0;
    while i < |sql|
      invariant i <= |sql| + 1 && MaskedTo(sql, out[..], i)
    {
      var c := sql[i];
      if Quote(c) {
        i := MaskText(sql, out, i);
      } else if c == '-' && i + 1 < |sql| && sql[i + 1] == '-' {
        i := MaskLine(sql, out, i);
      } else if c == '#' {
        i := MaskLine(sql, out, i);
      } else if c == '/' && i + 1 < |sql| && sql[i + 1] == '*' {
        i := MaskBlock(sql, out, i);
      } else {
        IsCode(sql, out[..], i);
        i := i + 1;
      }
    }
    Done(sql, out[..], i);
    return out[..];
  }

  lemma {:induction false} Start(sql: string)
    ensures MaskedTo(sql, sql, 0)
  {
    assert sql[0..] == sql;
  }

  lemma {:induction false} Done(sql: string, out: seq<char>, i: nat)
    requires MaskedTo(sql, out, i) && i >= |sql|
    ensures out == Mask(sql)
  {
  }

  lemma {:induction false} CodeToken(s: string)
    requires s != [] && !Quote(s[0]) && !LineNote(s) && !BlockNote(s)
    ensures Lex(s) == [Code(s[0])] + Lex(s[1..])
  {
  }

  lemma {:induction false} IsCode(sql: string, out: seq<char>, i: nat)
    requires MaskedTo(sql, out, i) && i < |sql| && !Quote(sql[i]) && !LineNote(sql[i..]) && !BlockNote(sql[i..])
    ensures MaskedTo(sql, out, i + 1)
  {
    hide MaskedTo;
    Untouched(sql, out, i);
    MaskedOn(sql, out, out, i);
    assert Lex(sql[i..])[0] == Code(sql[i]) by { CodeToken(sql[i..]); }
    assert out[i..i + 1] == [sql[i]];
  }

  /** Blank from `from` to `i`, as before on the left and as in the query on the right. */
  ghost predicate BlankedFrom(sql: string, before: seq<char>, out: seq<char>, from: nat, i: nat) {
    && from <= i <= |sql| == |out| == |before|
    && out[..from] == before[..from] && (forall k :: from <= k < i ==> out[k] == ' ') && out[i..] == sql[i..]
  }

  lemma {:induction false} BlankOne(sql: string, before: seq<char>, out: seq<char>, from: nat, i: nat)
    requires BlankedFrom(sql, before, out, from, i) && i < |sql|
    ensures BlankedFrom(sql, before, out[i := ' '], from, i + 1)
  {
    assert out[i..][1..] == out[i + 1..] && sql[i..][1..] == sql[i + 1..];
    assert out[i := ' '][i + 1..] == out[i + 1..];
  }

  lemma {:induction false} StartBlank(sql: string, out: seq<char>, i: nat)
    requires i <= |sql| == |out| && out[i..] == sql[i..]
    ensures BlankedFrom(sql, out, out, i, i)
  {
  }

  /** The contents of the text that starts at `from`, up to the quote that closes it. */
  method MaskText(sql: string, out: array<char>, from: nat) returns (i: nat)
    requires from < |sql| && Quote(sql[from]) && MaskedTo(sql, out[..], from)
    modifies out
    ensures from < i <= |sql| + 1 && MaskedTo(sql, out[..], i)
  {
    hide MaskedTo, Mask, Lex, BodyLength, BlankedFrom;
    ghost var before := out[..];
    var ch := sql[from];
    StartBlank(sql, before, from + 1) by { Untouched(sql, before, from); }
    i := from + 1;
    while i < |sql|
      invariant from < i <= |sql| == out.Length
      invariant BlankedFrom(sql, before, out[..], from + 1, i)
      invariant BodyLength(sql[from + 1..], ch) == i - from - 1 + BodyLength(sql[i..], ch)
    {
      BodyStep(sql, i, ch);
      BlankOne(sql, before, out[..], from + 1, i);
      if i + 1 < |sql| { BlankOne(sql, before, out[..][i := ' '], from + 1, i + 1); }
      if sql[i] == '\\' && i + 1 < |sql| {
        out[i], out[i + 1] := ' ', ' ';
        i := i + 2;
      } else if sql[i] == ch {
        if i + 1 < |sql| && sql[i + 1] == ch {
          out[i], out[i + 1] := ' ', ' ';
          i := i + 2;
        } else {
          break;
        }
      } else {
        out[i] := ' ';
        i := i + 1;
      }
    }
    assert BodyLength(sql[from + 1..], ch) == i - from - 1 by { BodyEnd(sql, i, ch); }
    IsText(sql, before, out[..], from, i);
    i := i + 1;
  }

  lemma {:induction false} Untouched(sql: string, out: seq<char>, i: nat)
    requires MaskedTo(sql, out, i) && i < |sql|
    ensures |out| == |sql| && out[i..] == sql[i..] && out[i + 1..] == sql[i + 1..] && out[i] == sql[i]
  {
    assert out[i + 1..] == out[i..][1..] && sql[i + 1..] == sql[i..][1..];
    assert out[i] == out[i..][0];
  }

  lemma {:induction false} BodyStep(sql: string, i: nat, quote: char)
    requires i < |sql|
    ensures BodyLength(sql[i..], quote) ==
      if sql[i] == '\\' && i + 1 < |sql| then 2 + BodyLength(sql[i + 2..], quote)
      else if sql[i] == quote
        then (if i + 1 < |sql| && sql[i + 1] == quote then 2 + BodyLength(sql[i + 2..], quote) else 0)
      else 1 + BodyLength(sql[i + 1..], quote)
  {
    assert sql[i..][1..] == sql[i + 1..];
    if i + 1 < |sql| { assert sql[i..][2..] == sql[i + 2..]; }
  }

  lemma {:induction false} BodyEnd(sql: string, i: nat, quote: char)
    requires i <= |sql| && (i < |sql| ==> sql[i] == quote && quote != '\\' && !(i + 1 < |sql| && sql[i + 1] == quote))
    ensures BodyLength(sql[i..], quote) == 0
  {
  }

  lemma {:induction false} BlankRun(s: seq<char>, from: nat, i: nat)
    requires from < i <= |s| && forall k :: from < k < i ==> s[k] == ' '
    ensures s[from..i] == [s[from]] + Blanks(i - from - 1)
    ensures i < |s| ==> s[from..i + 1] == [s[from]] + Blanks(i - from - 1) + [s[i]]
  {
    var run, blanks := s[from..i], [s[from]] + Blanks(i - from - 1);
    forall k | 0 <= k < i - from ensures run[k] == blanks[k] { assert run[k] == s[from + k]; }
    assert run == blanks;
    if i < |s| { assert s[from..i + 1] == run + [s[i]]; }
  }

  /** The parts of the query once the text that starts at `from` is blank. */
  lemma {:induction false} TextParts(sql: string, before: seq<char>, after: seq<char>, from: nat, i: nat)
    requires from < i <= |sql| == |before| == |after| && MaskedTo(sql, before, from)
    requires BlankedFrom(sql, before, after, from + 1, i)
    ensures after[..from] == before[..from] && after[from] == sql[from]
    ensures after[from..i] == [sql[from]] + Blanks(i - from - 1)
    ensures i < |sql|
      ==> after[from..i + 1] == [sql[from]] + Blanks(i - from - 1) + [sql[i]] && after[i + 1..] == sql[i + 1..]
  {
    hide MaskedTo;
    Untouched(sql, before, from);
    assert after[..from] == after[..from + 1][..from] && before[..from] == before[..from + 1][..from];
    assert after[from] == after[..from + 1][from] && before[from] == before[..from + 1][from];
    BlankRun(after, from, i);
    if i < |sql| {
      assert after[i] == after[i..][0] == sql[i] && after[i + 1..] == after[i..][1..] == sql[i..][1..] == sql[i + 1..];
    }
  }

  lemma {:induction false} IsClosedText(sql: string, before: seq<char>, after: seq<char>, from: nat, i: nat)
    requires from < i < |sql| == |before| == |after| && Quote(sql[from]) && MaskedTo(sql, before, from)
    requires BodyLength(sql[from + 1..], sql[from]) == i - from - 1
    requires BlankedFrom(sql, before, after, from + 1, i)
    ensures MaskedTo(sql, after, i + 1)
  {
    hide Lex, BodyLength, MaskedTo, BlankedFrom;
    var s, n := sql[from..], i - from - 1;
    assert s[0] == sql[from] && s[1..] == sql[from + 1..] && |s| == |sql| - from;
    TextParts(sql, before, after, from, i);
    MaskedOn(sql, before, after, from);
    ClosedToken(s, n);
    assert Lex(s)[0] == Text(s[0], s[1..n + 1], true);
  }

  lemma {:induction false} IsOpenText(sql: string, before: seq<char>, after: seq<char>, from: nat)
    requires from < |sql| == |before| == |after| && Quote(sql[from]) && MaskedTo(sql, before, from)
    requires BodyLength(sql[from + 1..], sql[from]) == |sql| - from - 1
    requires BlankedFrom(sql, before, after, from + 1, |sql|)
    ensures MaskedTo(sql, after, |sql| + 1)
  {
    hide Lex, BodyLength, MaskedTo, BlankedFrom;
    var s := sql[from..];
    assert s[0] == sql[from] && s[1..] == sql[from + 1..] && |s| == |sql| - from;
    TextParts(sql, before, after, from, |sql|);
    MaskedOn(sql, before, after, from);
    OpenToken(s);
    assert Lex(s)[0] == Text(s[0], s[1..], false);
    assert after[|sql|..] == sql[|sql|..] == [];
    AtTheEnd(sql, after);
  }

  lemma {:induction false} IsText(sql: string, before: seq<char>, after: seq<char>, from: nat, i: nat)
    requires from < i <= |sql| == |before| == |after| && Quote(sql[from]) && MaskedTo(sql, before, from)
    requires BodyLength(sql[from + 1..], sql[from]) == i - from - 1
    requires BlankedFrom(sql, before, after, from + 1, i)
    ensures MaskedTo(sql, after, i + 1)
  {
    hide BodyLength, MaskedTo, BlankedFrom;
    if i < |sql| { IsClosedText(sql, before, after, from, i); } else { IsOpenText(sql, before, after, from); }
  }

  lemma {:induction false} AtTheEnd(sql: string, out: seq<char>)
    requires MaskedTo(sql, out, |sql|)
    ensures MaskedTo(sql, out, |sql| + 1)
  {
    assert out[..|sql|] == out && sql[|sql|..] == [];
  }

  lemma {:induction false} IsNote(sql: string, before: seq<char>, after: seq<char>, from: nat, i: nat)
    requires from < i <= |sql| == |before| == |after| && !Quote(sql[from]) && MaskedTo(sql, before, from)
    requires Lex(sql[from..])[..1] == [Note(sql[from..i])]
    requires BlankedFrom(sql, before, after, from, i)
    ensures MaskedTo(sql, after, i)
  {
    hide Lex, Mask, MaskedTo;
    MaskedOn(sql, before, after, from);
    assert Lex(sql[from..])[0] == Lex(sql[from..])[..1][0];
    assert after[from..i] == Blanks(i - from);
  }

  method MaskLine(sql: string, out: array<char>, from: nat) returns (i: nat)
    requires from < |sql| && LineNote(sql[from..]) && MaskedTo(sql, out[..], from)
    modifies out
    ensures from < i <= |sql| && MaskedTo(sql, out[..], i)
  {
    hide MaskedTo, Mask, Lex;
    ghost var before := out[..];
    Untouched(sql, before, from);
    i := from;
    while i < |sql| && sql[i] != '\n'
      invariant from <= i <= |sql| == out.Length
      invariant BlankedFrom(sql, before, out[..], from, i)
      invariant LineLength(sql[from..]) == i - from + LineLength(sql[i..])
    {
      BlankOne(sql, before, out[..], from, i);
      assert sql[i..][1..] == sql[i + 1..];
      out[i] := ' ';
      i := i + 1;
    }
    LineIsNote(sql, from, i);
    IsNote(sql, before, out[..], from, i);
  }

  lemma {:induction false} LineIsNote(sql: string, from: nat, i: nat)
    requires from <= i <= |sql| && LineNote(sql[from..]) && LineLength(sql[from..]) == i - from
    ensures from < i && !Quote(sql[from]) && Lex(sql[from..])[..1] == [Note(sql[from..i])]
  {
    assert sql[from..][..i - from] == sql[from..i];
  }

  method MaskBlock(sql: string, out: array<char>, from: nat) returns (i: nat)
    requires from < |sql| && BlockNote(sql[from..]) && MaskedTo(sql, out[..], from)
    modifies out
    ensures from < i <= |sql| && MaskedTo(sql, out[..], i)
  {
    hide MaskedTo, Mask, Lex;
    ghost var before := out[..];
    Untouched(sql, before, from);
    var stop := CommentStop(sql, from + 2);
    i := from;
    while i < stop
      invariant from <= i <= stop <= |sql| == out.Length
      invariant BlankedFrom(sql, before, out[..], from, i)
    {
      BlankOne(sql, before, out[..], from, i);
      assert sql[i..][1..] == sql[i + 1..];
      out[i] := ' ';
      i := i + 1;
    }
    BlockIsNote(sql, from);
    IsNote(sql, before, out[..], from, i);
  }

  lemma {:induction false} StopShift(sql: string, from: nat, i: nat)
    requires from + i <= |sql|
    ensures CommentStop(sql, from + i) == from + CommentStop(sql[from..], i)
    decreases |sql| - i
  {
    if from + i + 1 < |sql| && !(sql[from + i] == '*' && sql[from + i + 1] == '/') {
      StopShift(sql, from, i + 1);
    }
  }

  lemma {:induction false} BlockToken(s: string)
    requires BlockNote(s)
    ensures !Quote(s[0]) && Lex(s)[..1] == [Note(s[..CommentStop(s, 2)])]
  {
  }

  lemma {:induction false} BlockIsNote(sql: string, from: nat)
    requires from < |sql| && BlockNote(sql[from..])
    ensures var stop := CommentStop(sql, from + 2);
      && from < stop <= |sql| && !Quote(sql[from])
      && Lex(sql[from..])[..1] == [Note(sql[from..stop])]
  {
    hide CommentStop;
    var s := sql[from..];
    StopShift(sql, from, 2);
    var stop := CommentStop(sql, from + 2);
    BlockToken(s);
    assert s[..stop - from] == sql[from..stop];
    assert s[0] == sql[from];
  }
}
