/** Blanks, trimming, words and case of a text. */
module Strings {

  predicate Space(c: char) {
    c == ' ' || c == '\t' || c == '\n' || c == '\r'
  }

  function TrimStart(s: string): (r: string)
    ensures |r| <= |s| && (r != [] ==> !Space(r[0])) && (s != [] && Space(s[0]) ==> |r| < |s|)
  {
    if s != [] && Space(s[0]) then TrimStart(s[1..]) else s
  }

  function TrimEnd(s: string): (r: string)
    ensures |r| <= |s| && (r != [] ==> !Space(r[|r| - 1]))
  {
    if s != [] && Space(s[|s| - 1]) then TrimEnd(s[..|s| - 1]) else s
  }

  function Trim(s: string): string {
    TrimStart(TrimEnd(s))
  }

  /** Runs of blanks become one space. */
  function Collapse(s: string): string
    decreases |s|
  {
    if s == [] then []
    else if Space(s[0]) then [' '] + Collapse(TrimStart(s))
    else [s[0]] + Collapse(s[1..])
  }

  function WordLength(s: string): (n: nat)
    ensures n <= |s| && (s != [] && !Space(s[0]) ==> n > 0)
  {
    if s == [] || Space(s[0]) then 0 else 1 + WordLength(s[1..])
  }

  /** The runs of characters that are not blank. */
  function Words(s: string): seq<string>
    decreases |s|
  {
    var t := TrimStart(s);
    if t == [] then [] else [t[..WordLength(t)]] + Words(t[WordLength(t)..])
  }

  function Join(words: seq<string>): string {
    if words == [] then [] else if |words| == 1 then words[0] else words[0] + [' '] + Join(words[1..])
  }

  function LowerAll(lower: string -> string, words: seq<string>): (r: seq<string>)
    ensures |r| == |words| && forall i :: 0 <= i < |words| ==> r[i] == lower(words[i])
  {
    if words == [] then [] else [lower(words[0])] + LowerAll(lower, words[1..])
  }

  // ----- lower case -----

  predicate Word(w: string) {
    w != [] && forall i :: 0 <= i < |w| ==> !Space(w[i])
  }

  /**
   What `toLowerCase` does, accented letters included: it is done word by word, makes a word of a word, and
   changes nothing the second time.
   */
  ghost predicate Lowering(lower: string -> string) {
    && lower([]) == []
    && (forall w :: Word(w) ==> Word(lower(w)) && lower(lower(w)) == lower(w))
    && (forall a, b :: lower(Spaced(a, b)) == Spaced(lower(a), lower(b)))
  }

  function Spaced(a: string, b: string): string {
    a + [' '] + b
  }

  // ----- cutting in words -----

  lemma {:induction false} WordLengthIs(s: string, i: nat)
    ensures i < WordLength(s) ==> !Space(s[i])
    ensures WordLength(s) < |s| ==> Space(s[WordLength(s)])
  {
    if s != [] && !Space(s[0]) { WordLengthIs(s[1..], if i > 0 then i - 1 else 0); }
  }

  /** A word, then a text that does not go on with it. */
  lemma {:induction false} WordThen(w: string, rest: string)
    requires (forall i :: 0 <= i < |w| ==> !Space(w[i])) && (rest != [] ==> Space(rest[0]))
    ensures WordLength(w + rest) == |w| && (w + rest)[..|w|] == w && (w + rest)[|w|..] == rest
  {
    if w == [] {
      assert w + rest == rest;
    } else {
      assert (w + rest)[1..] == w[1..] + rest;
      WordThen(w[1..], rest);
    }
  }

  lemma {:induction false} WordsOfWordThen(w: string, rest: string)
    requires Word(w) && (rest != [] ==> Space(rest[0]))
    ensures Words(w + rest) == [w] + Words(rest)
  {
    WordThen(w, rest);
    assert (w + rest)[0] == w[0] && TrimStart(w + rest) == w + rest;
  }

  lemma {:induction false} BlankFirst(s: string)
    requires s != [] && Space(s[0])
    ensures Words(s) == Words(s[1..])
  {
  }

  /** A text that does not start with a blank is a word and the rest. */
  lemma {:induction false} FirstWord(s: string) returns (w: string, rest: string)
    requires s != [] && !Space(s[0])
    ensures s == w + rest && Word(w) && (rest != [] ==> Space(rest[0]))
  {
    var n := WordLength(s);
    w, rest := s[..n], s[n..];
    forall i | 0 <= i < n ensures !Space(s[i]) { WordLengthIs(s, i); }
    WordLengthIs(s, 0);
  }

  lemma {:induction false} WordsAreWords(s: string)
    ensures forall i :: 0 <= i < |Words(s)| ==> Word(Words(s)[i])
    decreases |s|
  {
    hide Words, Word;
    if s == [] {
      NoWords();
    } else if Space(s[0]) {
      BlankFirst(s);
      WordsAreWords(s[1..]);
    } else {
      var w, rest := FirstWord(s);
      assert |w| > 0 by { NotEmpty(w); }
      WordsOfWordThen(w, rest);
      WordsAreWords(rest);
    }
  }

  lemma {:induction false} NoWords()
    ensures Words([]) == []
  {
  }

  lemma {:induction false} NotEmpty(w: string)
    requires Word(w)
    ensures w != []
  {
  }

  lemma {:induction false} WordsOfTrimStart(s: string)
    ensures Words(TrimStart(s)) == Words(s)
  {
    hide Words;
    if s != [] && Space(s[0]) {
      WordsOfTrimStart(s[1..]);
      BlankFirst(s);
    }
  }

  lemma {:induction false} BlankLast(s: string, c: char)
    requires Space(c)
    ensures Words(s + [c]) == Words(s)
    decreases |s|
  {
    hide Words, Word;
    if s == [] {
      BlankFirst([c]);
      assert [] + [c] == [c] && [c][1..] == [];
    } else if Space(s[0]) {
      BlankFirst(s);
      BlankFirst(s + [c]);
      assert (s + [c])[1..] == s[1..] + [c];
      BlankLast(s[1..], c);
    } else {
      var w, rest := FirstWord(s);
      NotEmpty(w);
      assert s + [c] == w + (rest + [c]);
      WordsOfWordThen(w, rest);
      WordsOfWordThen(w, rest + [c]);
      BlankLast(rest, c);
    }
  }

  lemma {:induction false} WordsOfTrim(s: string)
    ensures Words(TrimEnd(s)) == Words(s) && Words(Trim(s)) == Words(s)
    decreases |s|
  {
    hide Words;
    if s != [] && Space(s[|s| - 1]) {
      WordsOfTrim(s[..|s| - 1]);
      BlankLast(s[..|s| - 1], s[|s| - 1]);
      assert s == s[..|s| - 1] + [s[|s| - 1]];
    }
    WordsOfTrimStart(TrimEnd(s));
  }

  // ----- the normal form -----

  lemma {:induction false} CollapseChar(c: char, s: string)
    requires !Space(c)
    ensures Collapse([c] + s) == [c] + Collapse(s)
  {
    assert ([c] + s)[1..] == s;
  }

  lemma {:induction false} CollapseWord(w: string, rest: string)
    requires forall i :: 0 <= i < |w| ==> !Space(w[i])
    ensures Collapse(w + rest) == w + Collapse(rest)
  {
    hide Collapse;
    if w == [] {
      assert w + rest == rest && w + Collapse(rest) == Collapse(rest);
    } else {
      CollapseWord(w[1..], rest);
      CollapseChar(w[0], w[1..] + rest);
      assert w + rest == [w[0]] + (w[1..] + rest);
      assert w + Collapse(rest) == [w[0]] + (w[1..] + Collapse(rest));
    }
  }

  predicate EndsInWord(s: string) {
    s != [] ==> !Space(s[|s| - 1])
  }

  lemma {:induction false} TrimStartKeepsEnd(s: string)
    requires s != [] && EndsInWord(s)
    ensures TrimStart(s) != [] && EndsInWord(TrimStart(s))
  {
    if Space(s[0]) { TrimStartKeepsEnd(s[1..]); }
  }

  lemma {:induction false} CollapseBlanks(s: string)
    requires s != [] && Space(s[0])
    ensures Collapse(s) == [' '] + Collapse(TrimStart(s))
  {
  }

  /** A text without blanks at its end, once collapsed: its words, and a space for the blanks before the first. */
  lemma {:induction false} CollapseIsWords(s: string)
    requires EndsInWord(s)
    ensures Collapse(s) == (if s != [] && Space(s[0]) then [' '] else []) + Join(Words(s))
    ensures s != [] ==> Words(s) != []
    decreases |s|
  {
    hide Words, Word, Collapse, TrimStart;
    if s == [] {
      NoWords();
      assert Collapse([]) == [] by { NothingToCollapse(); }
    } else if Space(s[0]) {
      TrimStartKeepsEnd(s);
      CollapseIsWords(TrimStart(s));
      WordsOfTrimStart(s);
      CollapseBlanks(s);
    } else {
      var w, rest := FirstWord(s);
      NotEmpty(w);
      assert EndsInWord(rest) by { if rest != [] { assert rest[|rest| - 1] == s[|s| - 1]; } }
      WordsOfWordThen(w, rest);
      WordHasNoBlank(w);
      CollapseWord(w, rest);
      CollapseIsWords(rest);
      if rest == [] { NoWords(); }
      JoinCons(w, Words(rest));
    }
  }

  lemma {:induction false} NothingToCollapse()
    ensures Collapse([]) == []
  {
  }

  lemma {:induction false} WordHasNoBlank(w: string)
    requires Word(w)
    ensures forall i :: 0 <= i < |w| ==> !Space(w[i])
  {
  }

  lemma {:induction false} JoinCons(w: string, words: seq<string>)
    ensures Join([w] + words) == if words == [] then w else w + [' '] + Join(words)
  {
    assert ([w] + words)[1..] == words;
  }

  /** Trimmed, with single spaces, in lower case. */
  function Normal(lower: string -> string, s: string): string {
    lower(Collapse(Trim(s)))
  }

  lemma {:induction false} LowerAllFirst(lower: string -> string, w: string, words: seq<string>)
    ensures LowerAll(lower, [w] + words) == [lower(w)] + LowerAll(lower, words) && LowerAll(lower, []) == []
  {
    assert ([w] + words)[1..] == words;
  }

  lemma {:induction false} LowerJoin(lower: string -> string, words: seq<string>)
    requires Lowering(lower)
    ensures lower(Join(words)) == Join(LowerAll(lower, words))
  {
    hide Join, LowerAll, Word;
    if words == [] {
      NothingJoined();
      LowerAllFirst(lower, [], []);
    } else {
      var w, rest := words[0], words[1..];
      assert words == [w] + rest;
      LowerAllFirst(lower, w, rest);
      JoinCons(w, rest);
      JoinCons(lower(w), LowerAll(lower, rest));
      if rest != [] {
        LowerJoin(lower, rest);
        assert Join(words) == Spaced(w, Join(rest));
      }
    }
  }

  lemma {:induction false} NothingJoined()
    ensures Join([]) == []
  {
  }

  lemma {:induction false} NormalIsWords(lower: string -> string, s: string)
    requires Lowering(lower)
    ensures Normal(lower, s) == Join(LowerAll(lower, Words(s)))
  {
    hide Words, Collapse, LowerAll, Join, Lowering;
    WordsOfTrim(s);
    if TrimEnd(s) != [] { TrimStartKeepsEnd(TrimEnd(s)); }
    CollapseIsWords(Trim(s));
    LowerJoin(lower, Words(s));
    assert Collapse(Trim(s)) == Join(Words(s));
  }

  lemma {:induction false} WordsOfJoin(words: seq<string>)
    requires forall i :: 0 <= i < |words| ==> Word(words[i])
    ensures Words(Join(words)) == words
  {
    hide Words, Word;
    if words == [] {
      NoWords();
    } else {
      var w, others := words[0], words[1..];
      assert words == [w] + others;
      JoinCons(w, others);
      WordsOfJoin(others);
      if others == [] {
        WordsOfWordThen(w, []);
        assert w + [] == w;
        NoWords();
      } else {
        var rest := [' '] + Join(others);
        assert w + [' '] + Join(others) == w + rest;
        WordsOfWordThen(w, rest);
        BlankFirst(rest);
        assert rest[1..] == Join(others);
      }
    }
  }

  lemma {:induction false} LowerWords(lower: string -> string, words: seq<string>)
    requires Lowering(lower) && forall i :: 0 <= i < |words| ==> Word(words[i])
    ensures forall i :: 0 <= i < |words| ==> Word(LowerAll(lower, words)[i])
    ensures LowerAll(lower, LowerAll(lower, words)) == LowerAll(lower, words)
  {
    hide LowerAll, Word, Spaced;
  }

  /** Two texts are the same in normal form exactly when they have the same words, whatever their case. */
  lemma {:induction false} NormalIsWordsIff(lower: string -> string, s: string, t: string)
    requires Lowering(lower)
    ensures Normal(lower, s) == Normal(lower, t) <==> LowerAll(lower, Words(s)) == LowerAll(lower, Words(t))
  {
    hide Words, Join, LowerAll, Normal, Word, Lowering;
    NormalIsWords(lower, s);
    NormalIsWords(lower, t);
    WordsAreWords(s);
    WordsAreWords(t);
    LowerWords(lower, Words(s));
    LowerWords(lower, Words(t));
    WordsOfJoin(LowerAll(lower, Words(s)));
    WordsOfJoin(LowerAll(lower, Words(t)));
  }

  lemma {:induction false} NormalTwice(lower: string -> string, s: string)
    requires Lowering(lower)
    ensures Normal(lower, Normal(lower, s)) == Normal(lower, s)
  {
    hide Words, Join, LowerAll, Normal, Word, Lowering;
    NormalIsWords(lower, s);
    NormalIsWords(lower, Normal(lower, s));
    WordsAreWords(s);
    LowerWords(lower, Words(s));
    WordsOfJoin(LowerAll(lower, Words(s)));
  }

  // ----- the alphabet -----

  function LowerChar(c: char): char {
    if 'A' <= c <= 'Z' then (c as int + 32) as char else c
  }

  function Lower(s: string): (r: string)
    ensures |r| == |s| && forall i :: 0 <= i < |s| ==> r[i] == LowerChar(s[i])
  {
    if s == [] then [] else [LowerChar(s[0])] + Lower(s[1..])
  }

  lemma {:induction false} LowerWord(w: string)
    ensures Lower(Lower(w)) == Lower(w) && (Word(w) ==> Word(Lower(w)))
  {
    hide Lower;
    var once, twice := Lower(w), Lower(Lower(w));
    forall i | 0 <= i < |w| ensures twice[i] == once[i] {}
  }

  lemma {:induction false} LowerSpaced(a: string, b: string)
    ensures Lower(Spaced(a, b)) == Spaced(Lower(a), Lower(b))
  {
    hide Lower;
    var all, apart := Lower(Spaced(a, b)), Spaced(Lower(a), Lower(b));
    assert LowerChar(' ') == ' ';
    forall i | 0 <= i < |all| ensures all[i] == apart[i] {}
  }

  /** The letters of the alphabet alone are such a lower case. */
  lemma {:induction false} AlphabetLowers()
    ensures Lowering(Lower)
  {
    hide LowerChar, Word, Spaced;
    forall w | Word(w) ensures Word(Lower(w)) && Lower(Lower(w)) == Lower(w) { LowerWord(w); }
    forall a, b ensures Lower(Spaced(a, b)) == Spaced(Lower(a), Lower(b)) { LowerSpaced(a, b); }
  }
}
