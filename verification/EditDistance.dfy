/** Edit distance between two codes (no-results-answer.ts), with one row of the table kept. */
module EditDistance {
  import opened Basics
  import opened Decimals
  import opened Sorting
  import opened Wrappers

  function Lev(a: string, b: string): nat
    decreases |a| + |b|
  {
    if a == [] then |b|
    else if b == [] then |a|
    else
      var x, y := a[..|a| - 1], b[..|b| - 1];
      if a[|a| - 1] == b[|b| - 1] then Lev(x, y) else 1 + Min(Lev(x, y), Min(Lev(x, b), Lev(a, y)))
  }

  /** A cell of the table comes from the three before it. */
  lemma {:induction false} Cell(a: string, b: string, i: nat, j: nat)
    requires 1 <= i <= |a| && 1 <= j <= |b|
    ensures var diagonal, above, left := Lev(a[..i - 1], b[..j - 1]), Lev(a[..i - 1], b[..j]), Lev(a[..i], b[..j - 1]);
      Lev(a[..i], b[..j]) == if a[i - 1] == b[j - 1] then diagonal else 1 + Min(diagonal, Min(above, left))
  {
    assert a[..i][..i - 1] == a[..i - 1] && b[..j][..j - 1] == b[..j - 1];
  }

  lemma {:induction false} Edges(a: string, b: string)
    ensures Lev([], b) == |b| && Lev(a, []) == |a|
  {
  }

  method Levenshtein(a: string, b: string) returns (d: nat)
    ensures d == Lev(a, b)
  {
    hide Lev;
    var previous := new nat[|b| + 1](i requires i >= 0 => i);
    forall k | 0 <= k <= |b| ensures previous[k] == Lev(a[..0], b[..k]) { Edges([], b[..k]); }
    for i := 1 to |a| + 1
      invariant forall k :: 0 <= k <= |b| ==> previous[k] == Lev(a[..i - 1], b[..k])
    {
      var diagonal := previous[0];
      previous[0] := i;
      Edges(a[..i], []);
      for j := 1 to |b| + 1
        invariant diagonal == Lev(a[..i - 1], b[..j - 1])
        invariant forall k :: 0 <= k < j ==> previous[k] == Lev(a[..i], b[..k])
        invariant forall k :: j <= k <= |b| ==> previous[k] == Lev(a[..i - 1], b[..k])
      {
        var above := previous[j];
        Cell(a, b, i, j);
        previous[j] := if a[i - 1] == b[j - 1] then diagonal else 1 + Min(diagonal, Min(previous[j], previous[j - 1]));
        diagonal := above;
      }
    }
    assert a[..|a|] == a && b[..|b|] == b;
    d := previous[|b|];
  }

  // ----- the recurrence, with every choice allowed -----

  /** One character more on one side changes the distance by at most one. */
  lemma {:induction false} LevClose(a: string, b: string, c: char)
    ensures Lev(a, b) <= 1 + Lev(a + [c], b) && Lev(a + [c], b) <= 1 + Lev(a, b)
    ensures Lev(a, b) <= 1 + Lev(a, b + [c]) && Lev(a, b + [c]) <= 1 + Lev(a, b)
    decreases |a| + |b|
  {
    hide Lev;
    Edges(a, b);
    Edges(a + [c], b + [c]);
    if b != [] {
      var y, d := b[..|b| - 1], b[|b| - 1];
      assert y + [d] == b;
      LevClose(a, y, d);
      LevClose(a, y, c);
      LastStep(a, c, y, d);
    }
    if a != [] {
      var x, d := a[..|a| - 1], a[|a| - 1];
      assert x + [d] == a;
      LevClose(x, b, d);
      LevClose(x, b, c);
      LastStep(x, d, b, c);
    }
  }

  lemma {:induction false} LastStep(a: string, c: char, b: string, d: char)
    ensures Lev(a + [c], b + [d]) == if c == d then Lev(a, b)
      else 1 + Min(Lev(a, b), Min(Lev(a, b + [d]), Lev(a + [c], b)))
  {
    assert (a + [c])[..|a|] == a && (b + [d])[..|b|] == b;
  }

  /** Taking the diagonal on a match is optimal: no choice does better than `Lev`. */
  lemma {:induction false} LevIsLeast(a: string, b: string)
    requires a != [] && b != []
    ensures var x, y := a[..|a| - 1], b[..|b| - 1];
      Lev(a, b) <= 1 + Lev(x, b) && Lev(a, b) <= 1 + Lev(a, y)
        && Lev(a, b) <= Lev(x, y) + if a[|a| - 1] == b[|b| - 1] then 0 else 1
  {
    var x, y := a[..|a| - 1], b[..|b| - 1];
    assert x + [a[|a| - 1]] == a && y + [b[|b| - 1]] == b;
    LevClose(x, b, a[|a| - 1]);
    LevClose(a, y, b[|b| - 1]);
  }

  lemma {:induction false} LevSymmetric(a: string, b: string)
    ensures Lev(a, b) == Lev(b, a)
    decreases |a| + |b|
  {
    if a != [] && b != [] {
      LevSymmetric(a[..|a| - 1], b[..|b| - 1]);
      LevSymmetric(a[..|a| - 1], b);
      LevSymmetric(a, b[..|b| - 1]);
    }
  }

  lemma {:induction false} LevBounds(a: string, b: string)
    ensures Lev(a, b) <= (if |a| <= |b| then |b| else |a|)
    ensures |a| <= |b| + Lev(a, b) && |b| <= |a| + Lev(a, b)
    decreases |a| + |b|
  {
    if a != [] && b != [] {
      LevBounds(a[..|a| - 1], b[..|b| - 1]);
      LevBounds(a[..|a| - 1], b);
      LevBounds(a, b[..|b| - 1]);
    }
  }

  lemma {:induction false} LevZero(a: string, b: string)
    ensures Lev(a, b) == 0 <==> a == b
    decreases |a| + |b|
  {
    if a != [] && b != [] {
      LevZero(a[..|a| - 1], b[..|b| - 1]);
      assert a == a[..|a| - 1] + [a[|a| - 1]] && b == b[..|b| - 1] + [b[|b| - 1]];
    }
  }

  lemma {:induction false} LevTriangle(a: string, b: string, c: string)
    ensures Lev(a, c) <= Lev(a, b) + Lev(b, c)
    decreases |a| + |b| + |c|
  {
    if a == [] {
      LevBounds(b, c);
    } else if c == [] {
      LevBounds(a, b);
    } else if b == [] {
      LevBounds(a, c);
    } else {
      TriangleStep(a, b, c);
    }
  }

  /** The last step of either distance is a step of the third one. */
  lemma {:induction false} TriangleStep(a: string, b: string, c: string)
    requires a != [] && b != [] && c != []
    ensures Lev(a, c) <= Lev(a, b) + Lev(b, c)
    decreases |a| + |b| + |c|, 0
  {
    var x, y, z := a[..|a| - 1], b[..|b| - 1], c[..|c| - 1];
    LevIsLeast(a, c);
    LevIsLeast(a, b);
    LevIsLeast(b, c);
    LevTriangle(x, b, c);
    LevTriangle(a, b, z);
    LevTriangle(a, y, c);
    LevTriangle(x, y, z);
    LevTriangle(x, y, c);
    LevTriangle(a, y, z);
  }

  // ----- edit scripts -----

  datatype Edit = Insert(at: nat, c: char) | Delete(at: nat) | Substitute(at: nat, c: char)

  predicate Fits(e: Edit, s: string) {
    match e
    case Insert(at, _) => at <= |s|
    case Delete(at) => at < |s|
    case Substitute(at, _) => at < |s|
  }

  function Apply(e: Edit, s: string): string
    requires Fits(e, s)
  {
    match e
    case Insert(at, c) => s[..at] + [c] + s[at..]
    case Delete(at) => s[..at] + s[at + 1..]
    case Substitute(at, c) => s[..at] + [c] + s[at + 1..]
  }

  predicate Turns(script: seq<Edit>, a: string, b: string) {
    if script == [] then a == b else Fits(script[0], a) && Turns(script[1..], Apply(script[0], a), b)
  }

  lemma {:induction false} SplitLast(a: string, s: string)
    requires s != []
    ensures a + s == (a + s[..|s| - 1]) + [s[|s| - 1]]
  {
  }

  lemma {:induction false} NothingAdded(a: string)
    ensures a + [] == a
  {
  }

  lemma {:induction false} LevSuffix(a: string, b: string, s: string)
    ensures Lev(a + s, b + s) == Lev(a, b)
  {
    hide Lev;
    if s == [] {
      NothingAdded(a);
      NothingAdded(b);
    } else {
      var t, c := s[..|s| - 1], s[|s| - 1];
      LevSuffix(a, b, t);
      LevLast(a + t, b + t, c);
      SplitLast(a, s);
      SplitLast(b, s);
    }
  }

  lemma {:induction false} LevLast(a: string, b: string, c: char)
    ensures Lev(a + [c], b + [c]) == Lev(a, b)
  {
    var x, y := a + [c], b + [c];
    assert x[..|x| - 1] == a && y[..|y| - 1] == b;
  }

  /** One edit, one step of distance. */
  lemma {:induction false} EditIsOne(a: string, e: Edit)
    requires Fits(e, a)
    ensures Lev(a, Apply(e, a)) <= 1
  {
    var p := a[..e.at];
    LevZero(p, p);
    match e {
      case Insert(at, c) =>
        assert a == p + a[at..];
        LevSuffix(p, p + [c], a[at..]);
        LevClose(p, p, c);
      case Delete(at) =>
        assert a == (p + [a[at]]) + a[at + 1..];
        LevSuffix(p + [a[at]], p, a[at + 1..]);
        LevClose(p, p, a[at]);
      case Substitute(at, c) =>
        var d := a[at];
        assert a == (p + [d]) + a[at + 1..];
        LevSuffix(p + [d], p + [c], a[at + 1..]);
        LevIsLeast(p + [d], p + [c]);
        assert (p + [d])[..|p|] == p && (p + [c])[..|p|] == p;
    }
  }

  /** No script is shorter than the distance. */
  lemma {:induction false} NoShorterScript(script: seq<Edit>, a: string, b: string)
    requires Turns(script, a, b)
    ensures Lev(a, b) <= |script|
  {
    if script == [] {
      LevZero(a, b);
    } else {
      var next := Apply(script[0], a);
      NoShorterScript(script[1..], next, b);
      EditIsOne(a, script[0]);
      LevTriangle(a, next, b);
    }
  }

  /** A script for a beginning works the same with an ending after it. */
  lemma {:induction false} TurnsWith(script: seq<Edit>, a: string, b: string, s: string)
    requires Turns(script, a, b)
    ensures Turns(script, a + s, b + s)
  {
    hide Fits, Apply;
    if script != [] {
      var e := script[0];
      TurnsWith(script[1..], Apply(e, a), b, s);
      ApplyWith(e, a, s);
    }
  }

  lemma {:induction false} ApplyWith(e: Edit, a: string, s: string)
    requires Fits(e, a)
    ensures Fits(e, a + s) && Apply(e, a + s) == Apply(e, a) + s
  {
    CutBefore(a, s, e.at);
    match e {
      case Insert(at, c) => Regroup(a[..at], [c], a[at..], s);
      case Delete(at) => CutBefore(a, s, at + 1); Regroup(a[..at], [], a[at + 1..], s);
      case Substitute(at, c) => CutBefore(a, s, at + 1); Regroup(a[..at], [c], a[at + 1..], s);
    }
  }

  lemma {:induction false} CutBefore(a: string, s: string, at: nat)
    requires at <= |a|
    ensures (a + s)[..at] == a[..at] && (a + s)[at..] == a[at..] + s
  {
  }

  lemma {:induction false} Regroup(a: string, b: string, c: string, s: string)
    ensures a + b + (c + s) == (a + b + c) + s
    ensures b == [] ==> a + b == a
  {
  }

  lemma {:induction false} TurnsThen(script: seq<Edit>, e: Edit, a: string, b: string)
    requires Turns(script, a, b) && Fits(e, b)
    ensures Turns(script + [e], a, Apply(e, b))
  {
    if script == [] {
      assert ([e])[1..] == [];
    } else {
      TurnsThen(script[1..], e, Apply(script[0], a), b);
      assert (script + [e])[1..] == script[1..] + [e];
    }
  }

  lemma {:induction false} ThenInsert(script: seq<Edit>, a: string, b: string)
    requires b != [] && Turns(script, a, b[..|b| - 1])
    ensures Turns(script + [Insert(|b| - 1, b[|b| - 1])], a, b)
  {
    var y, e := b[..|b| - 1], Insert(|b| - 1, b[|b| - 1]);
    TurnsThen(script, e, a, y);
    assert Apply(e, y) == b;
  }

  lemma {:induction false} FirstDelete(script: seq<Edit>, a: string, b: string)
    requires a != [] && Turns(script, a[..|a| - 1], b)
    ensures Turns([Delete(|a| - 1)] + script, a, b)
  {
    assert Apply(Delete(|a| - 1), a) == a[..|a| - 1];
    assert ([Delete(|a| - 1)] + script)[1..] == script;
  }

  lemma {:induction false} ThenSame(script: seq<Edit>, a: string, b: string)
    requires a != [] && b != [] && a[|a| - 1] == b[|b| - 1] && Turns(script, a[..|a| - 1], b[..|b| - 1])
    ensures Turns(script, a, b)
  {
    hide Turns;
    var c := a[|a| - 1];
    TurnsWith(script, a[..|a| - 1], b[..|b| - 1], [c]);
    assert a[..|a| - 1] + [c] == a && b[..|b| - 1] + [c] == b;
  }

  lemma {:induction false} ThenSubstitute(script: seq<Edit>, a: string, b: string)
    requires a != [] && b != [] && Turns(script, a[..|a| - 1], b[..|b| - 1])
    ensures Turns(script + [Substitute(|b| - 1, b[|b| - 1])], a, b)
  {
    hide Turns;
    var c, y, e := a[|a| - 1], b[..|b| - 1], Substitute(|b| - 1, b[|b| - 1]);
    TurnsWith(script, a[..|a| - 1], y, [c]);
    assert a[..|a| - 1] + [c] == a;
    TurnsThen(script, e, a, y + [c]);
    assert Apply(e, y + [c]) == b;
  }

  /** There is a script as long as the distance. */
  lemma {:induction false} ShortestScript(a: string, b: string) returns (script: seq<Edit>)
    ensures Turns(script, a, b) && |script| == Lev(a, b)
    decreases |a| + |b|
  {
    if a == [] && b == [] {
      script := [];
    } else {
      hide Turns;
      if a == [] || (b != [] && a[|a| - 1] != b[|b| - 1] && Lev(a, b) == 1 + Lev(a, b[..|b| - 1])) {
        var before := ShortestScript(a, b[..|b| - 1]);
        ThenInsert(before, a, b);
        script := before + [Insert(|b| - 1, b[|b| - 1])];
      } else if b == [] || (a[|a| - 1] != b[|b| - 1] && Lev(a, b) == 1 + Lev(a[..|a| - 1], b)) {
        var after := ShortestScript(a[..|a| - 1], b);
        FirstDelete(after, a, b);
        script := [Delete(|a| - 1)] + after;
      } else {
        var before := ShortestScript(a[..|a| - 1], b[..|b| - 1]);
        if a[|a| - 1] == b[|b| - 1] {
          ThenSame(before, a, b);
          script := before;
        } else {
          ThenSubstitute(before, a, b);
          script := before + [Substitute(|b| - 1, b[|b| - 1])];
        }
      }
    }
  }

  // ----- similarity of two codes -----

  predicate CodeChar(c: char) {
    'A' <= c <= 'Z' || Digit(c)
  }

  /** Letters without accent and digits, in upper case. */
  function NormalizeCode(value: string): string {
    if value == [] then []
      else (if CodeChar(Upper(value[0])) then [Upper(value[0])] else []) + NormalizeCode(value[1..])
  }

  /** The numbers written in a text, in order; `run` is the one being read. */
  function NumbersFrom(value: string, run: int): seq<nat>
    requires run >= -1
    decreases |value|
  {
    var flushed: seq<nat> := if run >= 0 then [run] else [];
    if value == [] then flushed
    else if Digit(value[0])
      then NumbersFrom(value[1..], (if run >= 0 then 10 * run else 0) + (value[0] as int - '0' as int))
    else flushed + NumbersFrom(value[1..], -1)
  }

  function NumbersOf(value: string): seq<nat> {
    NumbersFrom(value, -1)
  }

  predicate SameNumbers(reference: string, candidate: string) {
    NumbersOf(reference) != [] && forall n :: n in NumbersOf(reference) ==> n in NumbersOf(candidate)
  }

  function CodeSimilarity(reference: string, candidate: string): real {
    var a, b := NormalizeCode(reference), NormalizeCode(candidate);
    if a == [] || b == [] then 0.0
    else if a == b then 1.0
    else
      var longer := if |a| <= |b| then |b| else |a|;
      var textual := 1.0 - Lev(a, b) as real / longer as real;
      if SameNumbers(reference, candidate) then 0.8 + 0.2 * textual else textual
  }

  const LETTERS := "ABCDEFGHIJKLMNOPQRSTUVWXYZ"

  lemma {:induction false} Letters(c: char)
    ensures CodeChar(c) <==> c in LETTERS || Digit(c)
  {
    if 'A' <= c <= 'Z' { assert LETTERS[c as int - 'A' as int] == c; }
  }

  /** What a character leaves in a code: it is in upper case, or dropped when it is neither letter nor digit. */
  function CodeOf(c: char): string {
    if Upper(c) in LETTERS || Digit(c) then [Upper(c)] else []
  }

  lemma {:induction false} UpperDigit(c: char)
    ensures Digit(Upper(c)) <==> Digit(c)
  {
  }

  lemma {:induction false} CodeStep(c: char, rest: string)
    ensures NormalizeCode([c] + rest) == CodeOf(c) + NormalizeCode(rest)
  {
    hide Upper, CodeChar, Digit;
    Letters(Upper(c));
    UpperDigit(c);
    assert ([c] + rest)[1..] == rest;
  }

  /** A code is made character by character. */
  lemma {:induction false} NormalizedAt(a: string, c: char, b: string)
    ensures NormalizeCode(a + [c] + b) == NormalizeCode(a) + CodeOf(c) + NormalizeCode(b)
  {
    hide NormalizeCode, CodeOf;
    if a == [] {
      assert a + [c] + b == [c] + b;
      CodeStep(c, b);
      assert NormalizeCode([]) == [] by { NoCode(); }
    } else {
      NormalizedAt(a[1..], c, b);
      CodeStep(a[0], a[1..] + [c] + b);
      CodeStep(a[0], a[1..]);
      assert [a[0]] + (a[1..] + [c] + b) == a + [c] + b && [a[0]] + a[1..] == a;
    }
  }

  lemma {:induction false} NoCode()
    ensures NormalizeCode([]) == []
  {
  }

  /** While a number is read, with the digits `done` behind. */
  lemma {:induction false} NumberRead(done: string, digits: string, b: string)
    requires DigitsOnly(done) && (forall k :: 0 <= k < |digits| ==> Digit(digits[k]))
    requires b == [] || !Digit(b[0])
    ensures NumbersFrom(digits + b, NatValue(done)) == [NatValue(done + digits)] + NumbersOf(b)
    decreases |digits|
  {
    hide NatValue;
    if digits == [] {
      assert digits + b == b && done + digits == done;
    } else {
      assert (digits + b)[1..] == digits[1..] + b && done + digits == done + [digits[0]] + digits[1..];
      ValueMore(done, digits[0]);
      NumberRead(done + [digits[0]], digits[1..], b);
    }
  }

  /** What is read next, and the number that ends there. */
  lemma {:induction false} NumbersStep(c: char, rest: string, run: int) returns (ended: seq<nat>, next: int)
    requires run >= -1
    ensures next >= -1 && (!Digit(c) ==> next == -1)
    ensures forall t :: NumbersFrom([c] + rest + t, run) == ended + NumbersFrom(rest + t, next)
    ensures NumbersFrom([c] + rest, run) == ended + NumbersFrom(rest, next)
  {
    ended := if !Digit(c) && run >= 0 then [run] else [];
    next := if Digit(c) then (if run >= 0 then 10 * run else 0) + DigitValue(c) else -1;
    forall t ensures NumbersFrom([c] + rest + t, run) == ended + NumbersFrom(rest + t, next) {
      assert ([c] + rest + t)[1..] == rest + t;
    }
    assert ([c] + rest)[1..] == rest;
  }

  lemma {:induction false} NumberFirst(digits: string, b: string)
    requires DigitsOnly(digits) && (b == [] || !Digit(b[0]))
    ensures NumbersOf(digits + b) == [NatValue(digits)] + NumbersOf(b)
  {
    hide NatValue;
    ValueMore([], digits[0]);
    assert (digits + b)[1..] == digits[1..] + b;
    assert [] + [digits[0]] == digits[..1] && digits[..1] + digits[1..] == digits;
    NumberRead(digits[..1], digits[1..], b);
  }

  lemma {:induction false} NumberAfter(a: string, run: int, digits: string, b: string)
    requires run >= -1 && (if a == [] then run == -1 else !Digit(a[|a| - 1]))
    requires DigitsOnly(digits) && (b == [] || !Digit(b[0]))
    ensures NumbersFrom(a + digits + b, run) == NumbersFrom(a, run) + [NatValue(digits)] + NumbersOf(b)
  {
    hide NatValue, NumbersFrom, Digit;
    if a == [] {
      assert a + digits + b == digits + b;
      NumberFirst(digits, b);
      NoMore();
    } else {
      var ended, next := NumbersStep(a[0], a[1..], run);
      NumberAfter(a[1..], next, digits, b);
      assert [a[0]] + a[1..] == a && a + digits + b == a + (digits + b) && a[1..] + digits + b == a[1..] + (digits + b);
    }
  }

  lemma {:induction false} NoMore()
    ensures NumbersFrom([], -1) == []
  {
  }

  /** Each number of a text, whole, is read with its value, between those on its left and those on its right. */
  lemma {:induction false} NumberIsRead(a: string, digits: string, b: string)
    requires DigitsOnly(digits) && (a == [] || !Digit(a[|a| - 1])) && (b == [] || !Digit(b[0]))
    ensures NumbersOf(a + digits + b) == NumbersOf(a) + [NatValue(digits)] + NumbersOf(b)
  {
    NumberAfter(a, -1, digits, b);
  }

  lemma {:induction false} NoDigitNoNumber(value: string)
    requires forall k :: 0 <= k < |value| ==> !Digit(value[k])
    ensures NumbersOf(value) == []
  {
    if value != [] { NoDigitNoNumber(value[1..]); }
  }

  /**
   What a pair of codes loses is one share of the longer code for each edit, and a fifth of that when the
   second has the numbers of the first.
   */
  lemma {:induction false} SimilarityLost(reference: string, candidate: string, longer: nat)
    requires var a, b := NormalizeCode(reference), NormalizeCode(candidate);
      && a != [] && b != [] && |a| <= longer && |b| <= longer && longer in {|a|, |b|}
    ensures (1.0 - CodeSimilarity(reference, candidate)) * longer as real
      == Lev(NormalizeCode(reference), NormalizeCode(candidate)) as real
      * if SameNumbers(reference, candidate) then 0.2 else 1.0
  {
    hide NormalizeCode, SameNumbers, Lev;
    var a, b := NormalizeCode(reference), NormalizeCode(candidate);
    LevZero(a, b);
    ShareBack(Lev(a, b), longer);
  }

  lemma {:induction false} ShareBack(d: nat, n: nat)
    requires n > 0
    ensures (d as real / n as real) * n as real == d as real
  {
  }

  lemma {:induction false} Fraction(d: nat, n: nat)
    requires d <= n && n > 0
    ensures 0.0 <= d as real / n as real <= 1.0
    ensures d > 0 ==> d as real / n as real > 0.0
  {
  }

  /** The similarity is a share, whole exactly for two codes that are the same and not empty. */
  lemma {:induction false} SimilarityIsShare(reference: string, candidate: string)
    ensures 0.0 <= CodeSimilarity(reference, candidate) <= 1.0
    ensures CodeSimilarity(reference, candidate) == 1.0 <==> NormalizeCode(reference) == NormalizeCode(candidate) != []
  {
    var a, b := NormalizeCode(reference), NormalizeCode(candidate);
    if a != [] && b != [] && a != b {
      LevBounds(a, b);
      LevZero(a, b);
      Fraction(Lev(a, b), if |a| <= |b| then |b| else |a|);
    }
  }

  /** Same numbers are worth at least four fifths, whatever the letters. */
  lemma {:induction false} SameNumbersAreClose(reference: string, candidate: string)
    requires SameNumbers(reference, candidate) && NormalizeCode(reference) != [] && NormalizeCode(candidate) != []
    ensures CodeSimilarity(reference, candidate) >= 0.8
  {
    var a, b := NormalizeCode(reference), NormalizeCode(candidate);
    if a != b {
      LevBounds(a, b);
      Fraction(Lev(a, b), if |a| <= |b| then |b| else |a|);
    }
  }

  // ----- the records closest to a reference -----

  /** A record; a missing alias is the empty text. */
  datatype NearbyRecord = NearbyRecord(code: string, aliases: seq<string>)

  datatype RankedRecord = RankedRecord(record: NearbyRecord, score: real, matchedAlias: Option<string>)

  predicate ExactAlias(reference: string, alias: string) {
    alias != [] && NormalizeCode(alias) == NormalizeCode(reference)
  }

  /** The first alias that is the reference, if there is one. */
  function FindAlias(reference: string, aliases: seq<string>): (r: Option<string>)
    ensures r.Some? ==> r.value in aliases && ExactAlias(reference, r.value)
    ensures r.None? ==> forall alias :: alias in aliases ==> !ExactAlias(reference, alias)
  {
    if aliases == [] then None
    else if ExactAlias(reference, aliases[0]) then Some(aliases[0])
    else FindAlias(reference, aliases[1..])
  }

  function BestOf(reference: string, aliases: seq<string>, best: real): (r: real)
    ensures r >= best && forall alias :: alias in aliases ==> r >= CodeSimilarity(reference, alias)
    ensures r == best || exists alias :: alias in aliases && r == CodeSimilarity(reference, alias)
  {
    if aliases == [] then best
    else
      var s := CodeSimilarity(reference, aliases[0]);
      BestOf(reference, aliases[1..], if s > best then s else best)
  }

  function Score(reference: string, record: NearbyRecord): RankedRecord {
    var alias := FindAlias(reference, record.aliases);
    RankedRecord(record, if alias.Some? then 1.0
      else BestOf(reference, record.aliases, CodeSimilarity(reference, record.code)), alias)
  }

  /** A record scores one exactly when its code, not empty, or one of its aliases is the reference. */
  lemma {:induction false} ScoreIsWholeIff(reference: string, record: NearbyRecord)
    ensures 0.0 <= Score(reference, record).score <= 1.0
    ensures Score(reference, record).score == 1.0 <==>
      (NormalizeCode(record.code) == NormalizeCode(reference) != []) || exists alias ::
          alias in record.aliases && alias != [] && NormalizeCode(alias) == NormalizeCode(reference)
  {
    hide CodeSimilarity, NormalizeCode;
    SimilarityIsShare(reference, record.code);
    forall alias | alias in record.aliases
      ensures 0.0 <= CodeSimilarity(reference, alias) <= 1.0
      ensures CodeSimilarity(reference, alias) == 1.0 ==> ExactAlias(reference, alias)
    {
      SimilarityIsShare(reference, alias);
      NothingFromNothing(alias);
    }
  }

  lemma {:induction false} NothingFromNothing(value: string)
    ensures NormalizeCode(value) != [] ==> value != []
  {
  }

  /**
   An alias without any letter or digit is the same as a reference without any: the score is one, although the
   similarity is zero.
   */
  lemma {:induction false} BlankAliasMatches()
    ensures Score("--", NearbyRecord("A-1", ["##"])).score == 1.0 && CodeSimilarity("--", "##") == 0.0
  {
    assert NormalizeCode("--") == [] by { assert NormalizeCode("--"[1..]) == []; }
    assert NormalizeCode("##") == [] by { assert NormalizeCode("##"[1..]) == []; }
  }

  function Scored(reference: string, records: seq<NearbyRecord>, minScore: real): seq<RankedRecord> {
    if records == [] then []
    else
      var before, r := Scored(reference, records[..|records| - 1], minScore), Score(reference, records[|records| - 1]);
      if r.score >= minScore then before + [r] else before
  }

  const BY_SCORE := (r: RankedRecord) => -r.score

  function RankNearbyRecords(reference: string, records: seq<NearbyRecord>, limit: nat,
          minScore: real): seq<RankedRecord> {
    var sorted := StableSort(Scored(reference, records, minScore), BY_SCORE);
    sorted[..if limit <= |sorted| then limit else |sorted|]
  }

  lemma {:induction false} ScoredAreGood(reference: string, records: seq<NearbyRecord>, minScore: real)
    ensures forall r :: r in Scored(reference, records, minScore) <==>
      r.record in records && r == Score(reference, r.record) && r.score >= minScore
  {
    hide Score;
    if records != [] {
      var init, last := records[..|records| - 1], records[|records| - 1];
      ScoredAreGood(reference, init, minScore);
      ScoreKeepsRecord(reference, last);
      assert forall x :: x in records <==> x in init || x == last by { assert records == init + [last]; }
    }
  }

  /**
   The records kept are scored, good enough and best first; a good enough record that is left out means
   that the list is full, of records at least as close.
   */
  lemma {:induction false} RankingIsBest(reference: string, records: seq<NearbyRecord>, limit: nat, minScore: real)
    ensures var r := RankNearbyRecords(reference, records, limit, minScore);
      && |r| <= limit
      && (forall i ::
          0 <= i < |r| ==> r[i].record in records && r[i] == Score(reference, r[i].record) && r[i].score >= minScore)
      && (forall i, j :: 0 <= i < j < |r| ==> r[i].score >= r[j].score)
      && (forall x :: x in records && Score(reference, x).score >= minScore && Score(reference, x) !in r
            ==> |r| == limit && forall i :: 0 <= i < |r| ==> r[i].score >= Score(reference, x).score)
  {
    hide Score, Scored, StableSort;
    var scored := Scored(reference, records, minScore);
    var sorted := StableSort(scored, BY_SCORE);
    ScoredAreGood(reference, records, minScore);
    SortIsStable(scored, BY_SCORE);
    var r := RankNearbyRecords(reference, records, limit, minScore);
    forall i | 0 <= i < |sorted| ensures sorted[i] in scored { assert sorted[i] in multiset(sorted); }
    forall i, j | 0 <= i < j < |sorted|
      ensures sorted[i].score >= sorted[j].score
    {
      assert BY_SCORE(sorted[i]) <= BY_SCORE(sorted[j]);
    }
    forall x | x in records && Score(reference, x).score >= minScore && Score(reference, x) !in r
      ensures |r| == limit && forall i :: 0 <= i < |r| ==> r[i].score >= Score(reference, x).score
    {
      assert Score(reference, x) in scored by { ScoreKeepsRecord(reference, x); }
      assert Score(reference, x) in multiset(sorted);
      var k :| 0 <= k < |sorted| && sorted[k] == Score(reference, x);
      assert k >= |r|;
    }
  }

  lemma {:induction false} ScoreKeepsRecord(reference: string, record: NearbyRecord)
    ensures Score(reference, record).record == record
  {
  }
}
