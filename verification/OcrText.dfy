/**
 Reassembly of the text a page gives (ocr-text.ts, without masking): fragments of a line are put
 back together in two passes, then the lines are put in reading order.
 Coordinates are exact numbers.
 */
module OcrText {
  import opened Basics
  import opened Sorting
  import opened Strings
  import opened Wrappers

  datatype Box = Box(x0: real, y0: real, x1: real, y1: real)

  /** A line as it was recognised, with the block and paragraph it came from. */
  datatype Recognised = Recognised(text: string, box: Box, block: nat, paragraph: nat)

  /** Which recognised lines a line is made of, and how they were joined. */
  datatype Origin = One(order: nat) | Joined(left: Origin, separator: string, right: Origin)

  /** A line of the page; `origin` is what the line is made of. */
  datatype Line = Line(text: string, box: Box, block: nat, paragraph: nat, order: nat, merged: bool, origin: Origin)

  // ----- text -----

  /** The characters that are not blank. */
  function Ink(s: string): string {
    if s == [] then [] else (if Space(s[0]) then [] else [s[0]]) + Ink(s[1..])
  }

  lemma {:induction false} InkCons(c: char, s: string)
    ensures Ink([c] + s) == (if Space(c) then [] else [c]) + Ink(s)
  {
    assert ([c] + s)[1..] == s;
  }

  lemma {:induction false} Regroup<T>(a: seq<T>, b: seq<T>, c: seq<T>)
    ensures a + (b + c) == a + b + c
  {
  }

  lemma {:induction false} InkAppend(a: string, b: string)
    ensures Ink(a + b) == Ink(a) + Ink(b)
  {
    if a == [] {
      assert a + b == b && Ink(a) == [];
    } else {
      hide Ink;
      var first, rest := a[0], a[1..];
      InkAppend(rest, b);
      InkCons(first, rest);
      InkCons(first, rest + b);
      Regroup([first], rest, b);
      assert a == [first] + rest;
      Regroup(if Space(first) then [] else [first], Ink(rest), Ink(b));
    }
  }

  lemma {:induction false} InkTrimStart(s: string)
    ensures Ink(TrimStart(s)) == Ink(s)
  {
    if s != [] && Space(s[0]) { InkTrimStart(s[1..]); }
  }

  lemma {:induction false} InkTrimEnd(s: string)
    ensures Ink(TrimEnd(s)) == Ink(s)
  {
    if s != [] && Space(s[|s| - 1]) {
      InkTrimEnd(s[..|s| - 1]);
      InkAppend(s[..|s| - 1], s[|s| - 1..]);
      assert s == s[..|s| - 1] + s[|s| - 1..];
      assert s[|s| - 1..][1..] == [];
    }
  }

  // ----- what a line is made of -----

  /** How many times recognised line `k` is in it. */
  function Uses(o: Origin, k: nat): nat {
    match o
    case One(j) => if j == k then 1 else 0
    case Joined(l, _, r) => Uses(l, k) + Uses(r, k)
  }

  predicate Within(o: Origin, n: nat) {
    match o
    case One(k) => k < n
    case Joined(l, _, r) => Within(l, n) && Within(r, n)
  }

  function TextOf(o: Origin, base: seq<Line>): string
    requires Within(o, |base|)
  {
    match o
    case One(k) => base[k].text
    case Joined(l, s, r) => TextOf(l, base) + s + TrimStart(TextOf(r, base))
  }

  function Union(a: Box, b: Box): Box {
    Box(Lesser(a.x0, b.x0), Lesser(a.y0, b.y0), Greater(a.x1, b.x1), Greater(a.y1, b.y1))
  }

  function BoxOf(o: Origin, base: seq<Line>): Box
    requires Within(o, |base|)
  {
    match o
    case One(k) => base[k].box
    case Joined(l, _, r) => Union(BoxOf(l, base), BoxOf(r, base))
  }

  function First(o: Origin): nat {
    match o
    case One(k) => k
    case Joined(l, _, r) => if First(r) < First(l) then First(r) else First(l)
  }

  /** The ink of a joined line is that of its fragments, with the separators' between them. */
  function InkOf(o: Origin, base: seq<Line>): string
    requires Within(o, |base|)
  {
    match o
    case One(k) => Ink(base[k].text)
    case Joined(l, s, r) => InkOf(l, base) + Ink(s) + InkOf(r, base)
  }

  predicate UsualSeparators(o: Origin) {
    match o
    case One(_) => true
    case Joined(l, s, r) => s in {"", " ", " | "} && UsualSeparators(l) && UsualSeparators(r)
  }

  lemma {:induction false} NothingInvented(o: Origin, base: seq<Line>)
    requires Within(o, |base|)
    ensures Ink(TextOf(o, base)) == InkOf(o, base)
  {
    match o {
      case One(_) =>
      case Joined(l, s, r) =>
        NothingInvented(l, base);
        NothingInvented(r, base);
        InkAppend(TextOf(l, base) + s, TrimStart(TextOf(r, base)));
        InkAppend(TextOf(l, base), s);
        InkTrimStart(TextOf(r, base));
    }
  }

  lemma {:induction false} FirstIsLeast(o: Origin, k: nat)
    requires Uses(o, k) > 0
    ensures Uses(o, First(o)) > 0 && First(o) <= k
  {
    match o {
      case One(_) =>
      case Joined(l, _, r) =>
        HasFirst(l);
        HasFirst(r);
        if Uses(l, k) > 0 { FirstIsLeast(l, k); } else { FirstIsLeast(r, k); }
    }
  }

  lemma {:induction false} HasFirst(o: Origin)
    ensures Uses(o, First(o)) > 0
  {
    match o {
      case One(_) =>
      case Joined(l, _, r) => HasFirst(l); HasFirst(r);
    }
  }

  /** A line that agrees with what it is made of: text, box, and the place of its first fragment. */
  predicate Faithful(line: Line, base: seq<Line>) {
    && Within(line.origin, |base|) && UsualSeparators(line.origin)
    && line.text == TextOf(line.origin, base) && line.box == BoxOf(line.origin, base)
    && line.order == First(line.origin)
    && line.order < |base| && line.block == base[line.order].block && line.paragraph == base[line.order].paragraph
  }

  function Share(line: Line, k: nat): nat {
    if line.merged then 0 else Uses(line.origin, k)
  }

  /** How many times recognised line `k` is in the lines still standing. */
  function Standing(lines: seq<Line>, k: nat): nat {
    if lines == [] then 0 else Standing(lines[..|lines| - 1], k) + Share(lines[|lines| - 1], k)
  }

  function Alive(line: Line): nat {
    if line.merged then 0 else 1
  }

  function Count(lines: seq<Line>): nat {
    if lines == [] then 0 else Count(lines[..|lines| - 1]) + Alive(lines[|lines| - 1])
  }

  lemma {:induction false} StandingUpdate(lines: seq<Line>, i: nat, line: Line, k: nat)
    requires i < |lines|
    ensures Standing(lines[i := line], k) + Share(lines[i], k) == Standing(lines, k) + Share(line, k)
  {
    hide Share;
    var n, after := |lines| - 1, lines[i := line];
    if i == n {
      assert after[..n] == lines[..n];
    } else {
      StandingUpdate(lines[..n], i, line, k);
      assert after[..n] == lines[..n][i := line];
    }
  }

  lemma {:induction false} CountUpdate(lines: seq<Line>, i: nat, line: Line)
    requires i < |lines|
    ensures Count(lines[i := line]) + Alive(lines[i]) == Count(lines) + Alive(line)
  {
    hide Alive;
    var n, after := |lines| - 1, lines[i := line];
    if i == n {
      assert after[..n] == lines[..n];
    } else {
      CountUpdate(lines[..n], i, line);
      assert after[..n] == lines[..n][i := line];
    }
  }

  // ----- the page -----

  function Base(raws: seq<Recognised>): seq<Line> {
    if raws == [] then []
    else
      var before, r := Base(raws[..|raws| - 1]), raws[|raws| - 1];
      if Trim(r.text) == "" then before
      else before + [Line(TrimEnd(r.text), r.box, r.block, r.paragraph, |before|, false, One(|before|))]
  }

  function Written(raws: seq<Recognised>): seq<Recognised> {
    if raws == [] then []
    else
      var before, r := Written(raws[..|raws| - 1]), raws[|raws| - 1];
      if Trim(r.text) == "" then before else before + [r]
  }

  /** Every line of `base` is in the lines still standing exactly once. */
  ghost predicate Conserved(lines: seq<Line>, base: seq<Line>) {
    forall k: nat :: Standing(lines, k) == if k < |base| then 1 else 0
  }

  ghost predicate AllFaithful(lines: seq<Line>, base: seq<Line>) {
    forall i :: 0 <= i < |lines| && !lines[i].merged ==> Faithful(lines[i], base)
  }

  ghost predicate Page(lines: seq<Line>, base: seq<Line>) {
    |lines| == |base| && Conserved(lines, base) && AllFaithful(lines, base)
  }

  lemma {:induction false} StandingSnoc(lines: seq<Line>, line: Line, k: nat)
    ensures Standing(lines + [line], k) == Standing(lines, k) + Share(line, k)
  {
    hide Share;
    assert (lines + [line])[..|lines|] == lines;
  }

  lemma {:induction false} FaithfulStays(line: Line, base: seq<Line>, more: Line)
    requires Faithful(line, base) && line.origin.One?
    ensures Faithful(line, base + [more])
  {
  }

  /** One line more, made of itself. */
  lemma {:induction false} PageSnoc(b: seq<Line>, line: Line)
    requires Page(b, b) && (forall k :: 0 <= k < |b| ==> !b[k].merged && b[k].origin == One(k))
    requires line.origin == One(|b|) && line.order == |b| && !line.merged
    ensures Page(b + [line], b + [line])
  {
    hide Faithful, Standing;
    var more := b + [line];
    forall k: nat ensures Standing(more, k) == if k < |more| then 1 else 0 { StandingSnoc(b, line, k); }
    forall k | 0 <= k < |b| ensures Faithful(more[k], more) { FaithfulStays(b[k], b, line); }
    LastIsFaithful(b, line);
  }

  lemma {:induction false} LastIsFaithful(b: seq<Line>, line: Line)
    requires line.origin == One(|b|) && line.order == |b|
    ensures Faithful(line, b + [line])
  {
  }

  lemma {:induction false} NoPage()
    ensures Page([], [])
  {
  }

  /** The lines that start the reassembly are the written ones, in order, each made of itself. */
  lemma {:induction false} BaseIsPage(raws: seq<Recognised>)
    ensures var b, w := Base(raws), Written(raws);
      && |b| == |w| && Page(b, b)
      && forall k | 0 <= k < |b| ::
           b[k].text == TrimEnd(w[k].text) && b[k].box == w[k].box && !b[k].merged && b[k].origin == One(k)
  {
    hide Page, Trim, TrimEnd;
    if raws == [] {
      NoPage();
    } else {
      var before, r := Base(raws[..|raws| - 1]), raws[|raws| - 1];
      BaseIsPage(raws[..|raws| - 1]);
      if Trim(r.text) != "" {
        PageSnoc(before, Line(TrimEnd(r.text), r.box, r.block, r.paragraph, |before|, false, One(|before|)));
      }
    }
  }

  predicate Horizontal(l: Line) {
    l.box.x1 - l.box.x0 > l.box.y1 - l.box.y0
  }

  function HeightOf(l: Line): real {
    l.box.y1 - l.box.y0
  }

  predicate SameRow(a: Line, b: Line) {
    Lesser(a.box.y1, b.box.y1) - Greater(a.box.y0, b.box.y0) >= 0.5 * Lesser(HeightOf(a), HeightOf(b))
  }

  /** Line `j` may continue line `i`: to its right on the same row, not too far, and accepted. */
  predicate Candidate(lines: seq<Line>, i: nat, j: nat, maxGap: real, accept: Line -> bool)
    requires i < |lines| && j < |lines|
  {
    var line, other := lines[i], lines[j];
    && j != i && !other.merged && Horizontal(other) && SameRow(line, other) && accept(other)
    && -0.5 * HeightOf(line) <= other.box.x0 - line.box.x1 <= maxGap
  }

  /** `best` is the leftmost candidate among the first `n` lines, the first one of them; `None` if there is none. */
  predicate Nearest(lines: seq<Line>, i: nat, n: nat, maxGap: real, accept: Line -> bool, best: Option<nat>)
    requires i < |lines| && n <= |lines|
  {
    if best.None? then forall j :: 0 <= j < n ==> !Candidate(lines, i, j, maxGap, accept)
    else
      && best.value < n && Candidate(lines, i, best.value, maxGap, accept)
      && forall j :: 0 <= j < n && Candidate(lines, i, j, maxGap, accept) ==>
           lines[best.value].box.x0 < lines[j].box.x0
             || (lines[best.value].box.x0 == lines[j].box.x0 && best.value <= j)
  }

  /** The neighbour to the right of line `i`, among the first `n` lines. */
  function Rightward(lines: seq<Line>, i: nat, n: nat, maxGap: real, accept: Line -> bool): (best: Option<nat>)
    requires i < |lines| && n <= |lines|
    ensures Nearest(lines, i, n, maxGap, accept, best)
  {
    if n == 0 then None
    else
      var best := Rightward(lines, i, n - 1, maxGap, accept);
      if Candidate(lines, i, n - 1, maxGap, accept)
        && (best.None? || lines[n - 1].box.x0 < lines[best.value].box.x0) then Some(n - 1) else best
  }

  method RightNeighbour(lines: seq<Line>, i: nat, maxGap: real, accept: Line -> bool) returns (best: Option<nat>)
    requires i < |lines|
    ensures best == Rightward(lines, i, |lines|, maxGap, accept)
    ensures Nearest(lines, i, |lines|, maxGap, accept, best)
  {
    hide Nearest;
    best := None;
    for k := 0 to |lines|
      invariant best == Rightward(lines, i, k, maxGap, accept)
    {
      BestIsThere(lines, i, k, maxGap, accept, best);
      if Candidate(lines, i, k, maxGap, accept) && (best.None? || lines[k].box.x0 < lines[best.value].box.x0) {
        best := Some(k);
      }
    }
  }

  lemma {:induction false} BestIsThere(lines: seq<Line>, i: nat, n: nat, maxGap: real, accept: Line -> bool,
          best: Option<nat>)
    requires i < |lines| && n <= |lines| && Nearest(lines, i, n, maxGap, accept, best)
    ensures best.Some? ==> best.value < n && best.value != i && !lines[best.value].merged
  {
  }

  function Merge(line: Line, next: Line, separator: string): Line {
    var joined := line.(text := line.text + separator + TrimStart(next.text), box := Union(line.box, next.box),
                        origin := Joined(line.origin, separator, next.origin));
    if next.order < line.order then joined.(order := next.order, block := next.block, paragraph := next.paragraph)
      else joined
  }

  lemma {:induction false} MergeIsFaithful(a: Line, b: Line, separator: string, base: seq<Line>)
    requires Faithful(a, base) && Faithful(b, base) && separator in {"", " ", " | "}
    ensures Faithful(Merge(a, b, separator), base)
  {
  }

  function Join(lines: seq<Line>, i: nat, j: nat, separator: string): seq<Line>
    requires i < |lines| && j < |lines|
  {
    lines[i := Merge(lines[i], lines[j], separator)][j := lines[j].(merged := true)]
  }

  lemma {:induction false} JoinConserves(lines: seq<Line>, i: nat, j: nat, separator: string, k: nat)
    requires i < |lines| && j < |lines| && i != j && !lines[i].merged && !lines[j].merged
    ensures Standing(Join(lines, i, j, separator), k) == Standing(lines, k)
  {
    hide Standing;
    var joined, gone := Merge(lines[i], lines[j], separator), lines[j].(merged := true);
    StandingUpdate(lines, i, joined, k);
    StandingUpdate(lines[i := joined], j, gone, k);
  }

  lemma {:induction false} JoinCounts(lines: seq<Line>, i: nat, j: nat, separator: string)
    requires i < |lines| && j < |lines| && i != j && !lines[i].merged && !lines[j].merged
    ensures Count(Join(lines, i, j, separator)) < Count(lines)
  {
    hide Count;
    var joined, gone := Merge(lines[i], lines[j], separator), lines[j].(merged := true);
    CountUpdate(lines, i, joined);
    CountUpdate(lines[i := joined], j, gone);
  }

  /** Joining two lines keeps the page whole, with one line less. */
  lemma {:induction false} JoinKeepsPage(lines: seq<Line>, base: seq<Line>, i: nat, j: nat, separator: string)
    requires Page(lines, base) && i < |lines| && j < |lines| && i != j && !lines[i].merged && !lines[j].merged
    requires separator in {"", " ", " | "}
    ensures Page(Join(lines, i, j, separator), base) && Count(Join(lines, i, j, separator)) < Count(lines)
  {
    hide Faithful, Standing, Count;
    JoinCounts(lines, i, j, separator);
    MergeIsFaithful(lines[i], lines[j], separator, base);
    forall k: nat ensures Standing(Join(lines, i, j, separator), k) == if k < |base| then 1 else 0 {
      JoinConserves(lines, i, j, separator, k);
    }
    assert AllFaithful(Join(lines, i, j, separator), base) by { hide Conserved; }
  }

  // ----- the passes -----

  /** What a pass joins, and with what between. */
  datatype Pass = Pass(maxGap: Line -> real, accept: Line -> Line -> bool, separator: (Line, Line) -> string)

  ghost predicate Usual(pass: Pass) {
    forall a, b :: pass.separator(a, b) in {"", " ", " | "}
  }

  /** Line `i` takes in its neighbour to the right until there is none. */
  ghost function Absorbed(lines: seq<Line>, i: nat, pass: Pass): (r: seq<Line>)
    requires i < |lines|
    ensures |r| == |lines|
    decreases Count(lines)
  {
    var line := lines[i];
    var next := Rightward(lines, i, |lines|, pass.maxGap(line), pass.accept(line));
    if line.merged || next.None? then lines
    else
      JoinCounts(lines, i, next.value, pass.separator(line, lines[next.value]));
      Absorbed(Join(lines, i, next.value, pass.separator(line, lines[next.value])), i, pass)
  }

  /** The lines of `order`, one after the other, take in what they can. */
  ghost function Rejoined(lines: seq<Line>, order: seq<int>, pass: Pass): (r: seq<Line>)
    requires forall k :: 0 <= k < |order| ==> 0 <= order[k] < |lines|
    ensures |r| == |lines|
  {
    if order == [] then lines
    else
      var before, i := Rejoined(lines, order[..|order| - 1], pass), order[|order| - 1];
      if !before[i].merged && Horizontal(before[i]) then Absorbed(before, i, pass) else before
  }

  /** A line that took in what it could has no neighbour left to take in, and the page is whole. */
  lemma {:induction false} AbsorbedIsClosed(lines: seq<Line>, base: seq<Line>, i: nat, pass: Pass)
    requires i < |lines| && !lines[i].merged && Page(lines, base) && Usual(pass)
    ensures var r := Absorbed(lines, i, pass);
      Page(r, base) && !r[i].merged && Nearest(r, i, |r|, pass.maxGap(r[i]), pass.accept(r[i]), None)
    decreases Count(lines)
  {
    hide Conserved, AllFaithful, Count, Merge;
    var line := lines[i];
    var next := Rightward(lines, i, |lines|, pass.maxGap(line), pass.accept(line));
    if next.Some? {
      var j, separator := next.value, pass.separator(line, lines[next.value]);
      BestIsThere(lines, i, |lines|, pass.maxGap(line), pass.accept(line), next);
      JoinKeepsPage(lines, base, i, j, separator);
      MergeStands(line, lines[j], separator);
      AbsorbedIsClosed(Join(lines, i, j, separator), base, i, pass);
    }
  }

  lemma {:induction false} RejoinedKeepsPage(lines: seq<Line>, base: seq<Line>, order: seq<int>, pass: Pass)
    requires Page(lines, base) && Usual(pass) && forall k :: 0 <= k < |order| ==> 0 <= order[k] < |lines|
    ensures Page(Rejoined(lines, order, pass), base)
  {
    hide Conserved, AllFaithful, Absorbed;
    if order != [] {
      var before, i := Rejoined(lines, order[..|order| - 1], pass), order[|order| - 1];
      RejoinedKeepsPage(lines, base, order[..|order| - 1], pass);
      if !before[i].merged && Horizontal(before[i]) { AbsorbedIsClosed(before, base, i, pass); }
    }
  }

  method Absorb(lines: seq<Line>, i: nat, pass: Pass) returns (r: seq<Line>)
    requires i < |lines| && !lines[i].merged
    ensures r == Absorbed(lines, i, pass)
  {
    hide Count, Merge;
    r := lines;
    while true
      invariant |r| == |lines| && !r[i].merged && Absorbed(r, i, pass) == Absorbed(lines, i, pass)
      decreases Count(r)
    {
      var line := r[i];
      var next := RightNeighbour(r, i, pass.maxGap(line), pass.accept(line));
      if next.None? { return; }
      var j := next.value;
      BestIsThere(r, i, |r|, pass.maxGap(line), pass.accept(line), next);
      JoinCounts(r, i, j, pass.separator(line, r[j]));
      MergeStands(line, r[j], pass.separator(line, r[j]));
      r := Join(r, i, j, pass.separator(line, r[j]));
    }
  }

  lemma {:induction false} MergeStands(line: Line, next: Line, separator: string)
    ensures Merge(line, next, separator).merged == line.merged
  {
  }

  predicate IsLabel(text: string) {
    var t := Trim(text); t != "" && t[|t| - 1] in {':', '\U{FF1A}'}
  }

  predicate IsNumber(text: string) {
    var t := Trim(text);
    t != "" && forall i ::
        0 <= i < |t| ==> '0' <= t[i] <= '9' || Space(t[i]) || t[i] in {'.', ',', '/', ':', '%', '\U{20AC}', '-'}
  }

  predicate IsShort(text: string) {
    |Trim(text)| <= 24
  }

  lemma {:induction false} TrimLast(s: string, c: char)
    requires !Space(c)
    ensures Trim(s + [c]) != "" && Trim(s + [c])[|Trim(s + [c])| - 1] == c
  {
    var all := s + [c];
    assert TrimEnd(all) == all;
    TrimStartLast(all);
  }

  lemma {:induction false} TrimStartLast(s: string)
    requires s != [] && !Space(s[|s| - 1])
    ensures var t := TrimStart(s); t != [] && t[|t| - 1] == s[|s| - 1]
  {
    if Space(s[0]) { TrimStartLast(s[1..]); }
  }

  /** A label is a text whose last character that is not blank is a colon. */
  lemma {:induction false} LabelIff(s: string, c: char, blanks: string)
    requires !Space(c) && forall i :: 0 <= i < |blanks| ==> Space(blanks[i])
    ensures IsLabel(s + [c] + blanks) <==> c == ':' || c == '\U{FF1A}'
  {
    TrimEndBlanks(s + [c], blanks);
    TrimLast(s, c);
    assert TrimEnd(s + [c]) == s + [c];
  }

  lemma {:induction false} TrimEndBlanks(s: string, blanks: string)
    requires forall i :: 0 <= i < |blanks| ==> Space(blanks[i])
    ensures TrimEnd(s + blanks) == TrimEnd(s)
  {
    if blanks == [] {
      assert s + blanks == s;
    } else {
      var n := |blanks| - 1;
      TrimEndBlanks(s, blanks[..n]);
      assert (s + blanks)[..|s| + n] == s + blanks[..n];
    }
  }

  predicate NumberSign(c: char) {
    '0' <= c <= '9' || c in ".,/:%\U{20AC}-"
  }

  /** A number, a date or an hour: no character but digits, blanks and the usual signs, and not blanks alone. */
  lemma {:induction false} NumberIff(s: string)
    ensures IsNumber(s) <==>
            && (forall i :: 0 <= i < |s| ==> NumberSign(s[i]) || Space(s[i]))
            && (exists i :: 0 <= i < |s| && NumberSign(s[i]))
  {
    TrimKeepsShown(s);
    var t := Trim(s);
    assert forall c :: NumberSign(c) <==> '0' <= c <= '9' || c in {'.', ',', '/', ':', '%', '\U{20AC}', '-'};
    if exists i :: 0 <= i < |s| && NumberSign(s[i]) {
      var i :| 0 <= i < |s| && NumberSign(s[i]);
      assert s[i] in t;
    }
    if IsNumber(s) {
      forall i | 0 <= i < |s| && !Space(s[i]) ensures NumberSign(s[i]) {
        assert s[i] in t;
        var j :| 0 <= j < |t| && t[j] == s[i];
      }
      TrimShows(s);
      assert t[0] in s;
    }
  }

  lemma {:induction false} TrimShows(s: string)
    ensures Trim(s) != "" ==> !Space(Trim(s)[0])
  {
  }

  /** Trimming removes blanks only. */
  lemma {:induction false} TrimKeepsShown(s: string)
    ensures forall c :: c in Trim(s) ==> c in s
    ensures forall c :: c in s && !Space(c) ==> c in Trim(s)
  {
    TrimEndKeeps(s);
    TrimStartKeeps(TrimEnd(s));
  }

  lemma {:induction false} TrimEndKeeps(s: string)
    ensures forall c :: c in TrimEnd(s) ==> c in s
    ensures forall c :: c in s && !Space(c) ==> c in TrimEnd(s)
  {
    if s != [] && Space(s[|s| - 1]) {
      TrimEndKeeps(s[..|s| - 1]);
      assert s == s[..|s| - 1] + [s[|s| - 1]];
    }
  }

  lemma {:induction false} TrimStartKeeps(s: string)
    ensures forall c :: c in TrimStart(s) ==> c in s
    ensures forall c :: c in s && !Space(c) ==> c in TrimStart(s)
  {
    if s != [] && Space(s[0]) {
      TrimStartKeeps(s[1..]);
      assert s == [s[0]] + s[1..];
    }
  }

  /** First pass: a line cut in two blocks by a slanted photo; no space inside a word. */
  const CUT_LINES := Pass(line => 1.5 * HeightOf(line), (line: Line) => (other: Line) => other.block != line.block,
                         (line: Line, next: Line) => if next.box.x0 - line.box.x1 < 0.25 * HeightOf(line) then ""
                           else " ")

  predicate CellAccepts(line: Line, other: Line) {
    IsLabel(line.text) || IsNumber(line.text) || (IsShort(line.text) && |Trim(other.text)| <= 40)
  }

  /** Second pass: the cells of a form or a table. */
  function Cells(pageWidth: real): Pass {
    Pass(line => 0.6 * pageWidth, line => other => CellAccepts(line, other),
         (line: Line, next: Line) => if IsLabel(line.text) then " " else " | ")
  }

  lemma {:induction false} PassesAreUsual(pageWidth: real)
    ensures Usual(CUT_LINES) && Usual(Cells(pageWidth))
  {
  }

  function MinX(lines: seq<Line>): real
    requires lines != []
  {
    var x := Lesser(lines[0].box.x0, lines[0].box.x1);
    if |lines| == 1 then x else Lesser(x, MinX(lines[1..]))
  }

  function MaxX(lines: seq<Line>): real
    requires lines != []
  {
    var x := Greater(lines[0].box.x0, lines[0].box.x1);
    if |lines| == 1 then x else Greater(x, MaxX(lines[1..]))
  }

  function PageWidth(lines: seq<Line>): real {
    if lines == [] then 0.0 else MaxX(lines) - MinX(lines)
  }

  /** A side of the box of a line of the page. */
  predicate Side(lines: seq<Line>, x: real) {
    exists i :: 0 <= i < |lines| && (x == lines[i].box.x0 || x == lines[i].box.x1)
  }

  lemma {:induction false} SideCons(line: Line, rest: seq<Line>, x: real)
    ensures Side([line] + rest, x) <==> x == line.box.x0 || x == line.box.x1 || Side(rest, x)
  {
    var all := [line] + rest;
    assert all[0] == line && forall i :: 0 <= i < |rest| ==> all[i + 1] == rest[i];
    if Side(all, x) {
      var i :| 0 <= i < |all| && (x == all[i].box.x0 || x == all[i].box.x1);
      assert i > 0 ==> all[i] == rest[i - 1];
    }
  }

  lemma {:induction false} SidesBetween(lines: seq<Line>)
    requires lines != []
    ensures Side(lines, MinX(lines)) && Side(lines, MaxX(lines))
    ensures forall x :: Side(lines, x) ==> MinX(lines) <= x <= MaxX(lines)
  {
    hide Side;
    var rest := lines[1..];
    assert lines == [lines[0]] + rest;
    forall x ensures Side(lines, x) <==> x == lines[0].box.x0 || x == lines[0].box.x1 || Side(rest, x) {
      SideCons(lines[0], rest, x);
    }
    if rest == [] { NoSide(); } else { SidesBetween(rest); }
  }

  lemma {:induction false} NoSide()
    ensures forall x :: !Side([], x)
  {
  }

  /** The width of the page is the greatest distance between two sides of its lines. */
  lemma {:induction false} PageWidthIsGreatest(lines: seq<Line>)
    ensures lines == [] ==> PageWidth(lines) == 0.0
    ensures forall x, y :: Side(lines, x) && Side(lines, y) ==> x - y <= PageWidth(lines)
    ensures lines != [] ==> Side(lines, MaxX(lines)) && Side(lines, MinX(lines))
                            && PageWidth(lines) == MaxX(lines) - MinX(lines)
  {
    if lines != [] { SidesBetween(lines); }
  }

  /** The lines by their left edge, as it was when the pass began. */
  function FromTheLeft(lines: seq<Line>): seq<int> {
    StableSort(seq(|lines|, i => i), (i: int) => if 0 <= i < |lines| then lines[i].box.x0 else 0.0)
  }

  lemma {:induction false} FromTheLeftIsAll(lines: seq<Line>)
    ensures var order := FromTheLeft(lines); multiset(order) == multiset(seq(|lines|, i => i)) && forall k ::
        0 <= k < |order| ==> 0 <= order[k] < |lines|
  {
    var order := FromTheLeft(lines);
    SortIsStable(seq(|lines|, i => i), (i: int) => if 0 <= i < |lines| then lines[i].box.x0 else 0.0);
    forall k | 0 <= k < |order| ensures 0 <= order[k] < |lines| {
      assert order[k] in multiset(order);
    }
  }

  function AsRead(lines: seq<Line>): seq<int> {
    seq(|lines|, i => i)
  }

  /** A pass over the lines in some order. */
  method Rejoin(lines: seq<Line>, order: seq<int>, pass: Pass) returns (r: seq<Line>)
    requires forall k :: 0 <= k < |order| ==> 0 <= order[k] < |lines|
    ensures r == Rejoined(lines, order, pass)
  {
    hide Absorbed;
    r := lines;
    for k := 0 to |order|
      invariant r == Rejoined(lines, order[..k], pass)
    {
      assert order[..k + 1][..k] == order[..k];
      var i := order[k];
      if !r[i].merged && Horizontal(r[i]) {
        r := Absorb(r, i, pass);
      }
    }
    assert order[..|order|] == order;
  }

  /** Both passes. */
  ghost function BothPasses(lines: seq<Line>): seq<Line> {
    var cut := Rejoined(lines, AsRead(lines), CUT_LINES);
    FromTheLeftIsAll(cut);
    Rejoined(cut, FromTheLeft(cut), Cells(PageWidth(cut)))
  }

  // ----- what is joined -----

  /** Line `i` has a neighbour to take in. */
  predicate Joins(lines: seq<Line>, i: nat, pass: Pass)
    requires i < |lines|
  {
    && !lines[i].merged && Horizontal(lines[i])
    && exists j :: 0 <= j < |lines| && Candidate(lines, i, j, pass.maxGap(lines[i]), pass.accept(lines[i]))
  }

  predicate JoinsAny(lines: seq<Line>, pass: Pass) {
    exists i :: 0 <= i < |lines| && Joins(lines, i, pass)
  }

  lemma {:induction false} AbsorbedCounts(lines: seq<Line>, i: nat, pass: Pass)
    requires i < |lines|
    ensures Count(Absorbed(lines, i, pass)) <= Count(lines)
    ensures Joins(lines, i, pass) ==> Count(Absorbed(lines, i, pass)) < Count(lines)
    ensures !lines[i].merged && Horizontal(lines[i]) && !Joins(lines, i, pass) ==> Absorbed(lines, i, pass) == lines
    decreases Count(lines)
  {
    hide Count, Merge, Candidate;
    var line := lines[i];
    var next := Rightward(lines, i, |lines|, pass.maxGap(line), pass.accept(line));
    if !line.merged && next.Some? {
      var separator := pass.separator(line, lines[next.value]);
      BestIsThere(lines, i, |lines|, pass.maxGap(line), pass.accept(line), next);
      JoinCounts(lines, i, next.value, separator);
      AbsorbedCounts(Join(lines, i, next.value, separator), i, pass);
    }
  }

  lemma {:induction false} RejoinedCounts(lines: seq<Line>, order: seq<int>, pass: Pass)
    requires forall k :: 0 <= k < |order| ==> 0 <= order[k] < |lines|
    ensures Count(Rejoined(lines, order, pass)) <= Count(lines)
    ensures (exists k :: 0 <= k < |order| && Joins(lines, order[k], pass))
      ==> Count(Rejoined(lines, order, pass)) < Count(lines)
    ensures (forall k :: 0 <= k < |order| ==> !Joins(lines, order[k], pass)) ==> Rejoined(lines, order, pass) == lines
  {
    hide Count, Joins, Absorbed;
    if order != [] {
      var init, i := order[..|order| - 1], order[|order| - 1];
      var before := Rejoined(lines, init, pass);
      RejoinedCounts(lines, init, pass);
      AbsorbedCounts(before, i, pass);
      if Joins(lines, i, pass) { assert !lines[i].merged && Horizontal(lines[i]) by { JoiningLine(lines, i, pass); } }
      assert forall k :: 0 <= k < |init| ==> init[k] == order[k];
    }
  }

  lemma {:induction false} JoiningLine(lines: seq<Line>, i: nat, pass: Pass)
    requires i < |lines| && Joins(lines, i, pass)
    ensures !lines[i].merged && Horizontal(lines[i])
  {
  }

  /** A pass over all lines changes nothing exactly when no line has a neighbour to take in. */
  lemma {:induction false} PassJoinsIff(lines: seq<Line>, order: seq<int>, pass: Pass)
    requires (forall k :: 0 <= k < |order| ==> 0 <= order[k] < |lines|) && multiset(order) == multiset(AsRead(lines))
    ensures Count(Rejoined(lines, order, pass)) <= Count(lines)
    ensures if JoinsAny(lines, pass) then Count(Rejoined(lines, order, pass)) < Count(lines)
            else Rejoined(lines, order, pass) == lines
  {
    hide Count, Joins, Rejoined;
    RejoinedCounts(lines, order, pass);
    if JoinsAny(lines, pass) {
      var i :| 0 <= i < |lines| && Joins(lines, i, pass);
      assert AsRead(lines)[i] == i && i in multiset(AsRead(lines));
      assert i in multiset(order);
      var k :| 0 <= k < |order| && order[k] == i;
    }
  }

  /** No line of the page has a neighbour to take in, in either pass. */
  predicate NothingToJoin(lines: seq<Line>) {
    !JoinsAny(lines, CUT_LINES) && !JoinsAny(lines, Cells(PageWidth(lines)))
  }

  lemma {:induction false} BothPassesJoinIff(lines: seq<Line>)
    ensures if NothingToJoin(lines) then BothPasses(lines) == lines else Count(BothPasses(lines)) < Count(lines)
  {
    hide Count, JoinsAny, Rejoined, FromTheLeft, Cells, PageWidth;
    var cut := Rejoined(lines, AsRead(lines), CUT_LINES);
    PassJoinsIff(lines, AsRead(lines), CUT_LINES);
    FromTheLeftIsAll(cut);
    PassJoinsIff(cut, FromTheLeft(cut), Cells(PageWidth(cut)));
  }

  // ----- two fragments -----

  /** `r` is on the row of `l`, begins about where `l` ends, no farther than `reach`, and both are wider than tall. */
  predicate Beside(l: Line, r: Line, reach: real) {
    && l.box.x1 - l.box.x0 > l.box.y1 - l.box.y0 && r.box.x1 - r.box.x0 > r.box.y1 - r.box.y0
    && Lesser(l.box.y1, r.box.y1) - Greater(l.box.y0, r.box.y0) >= Lesser(HeightOf(l), HeightOf(r)) / 2.0
    && -HeightOf(l) / 2.0 <= r.box.x0 - l.box.x1 <= reach
  }

  /** What goes between `l` and `r` when they are one line of a page that wide, `None` when they are not. */
  function Between(l: Line, r: Line, width: real): Option<string> {
    var gap, height := r.box.x0 - l.box.x1, l.box.y1 - l.box.y0;
    if l.block != r.block && Beside(l, r, 1.5 * height) then Some(if gap < height / 4.0 then "" else " ")
    else if !Beside(l, r, 0.6 * width) then None
    else if IsLabel(l.text) then Some(" ")
    else if IsNumber(l.text) || (|Trim(l.text)| <= 24 && |Trim(r.text)| <= 40) then Some(" | ")
    else None
  }

  lemma {:induction false} OneWayOnly(a: Line, b: Line, reach: real, back: real)
    requires HeightOf(a) >= 0.0 && HeightOf(b) >= 0.0
    ensures !(Beside(a, b, reach) && Beside(b, a, back))
  {
  }

  lemma {:induction false} CandidateIs(lines: seq<Line>, i: nat, j: nat, reach: real, accept: Line -> bool)
    requires i < |lines| && j < |lines| && i != j && !lines[j].merged
    ensures Horizontal(lines[i]) && Candidate(lines, i, j, reach, accept)
      <==> Beside(lines[i], lines[j], reach) && accept(lines[j])
  {
  }

  lemma {:induction false} CandidateBeside(lines: seq<Line>, i: nat, j: nat, pass: Pass)
    requires |lines| == 2 && {i, j} == {0, 1} && !lines[0].merged && !lines[1].merged
    ensures Joins(lines, i, pass)
      <==> Beside(lines[i], lines[j], pass.maxGap(lines[i])) && pass.accept(lines[i])(lines[j])
  {
    assert i < 2 && j < 2 && i != j by { assert i in {0, 1} && j in {0, 1} && 0 in {i, j} && 1 in {i, j}; }
    CandidateIs(lines, i, j, pass.maxGap(lines[i]), pass.accept(lines[i]));
    forall k | 0 <= k < 2 && Candidate(lines, i, k, pass.maxGap(lines[i]), pass.accept(lines[i])) ensures k == j {}
  }

  /** The only other line is already in. */
  lemma {:induction false} NoneLeft(lines: seq<Line>, i: nat, pass: Pass)
    requires |lines| == 2 && (lines[0].merged || lines[1].merged) && i < 2
    ensures Absorbed(lines, i, pass) == lines
  {
    forall k | 0 <= k < 2 && !lines[i].merged
      ensures !Candidate(lines, i, k, pass.maxGap(lines[i]), pass.accept(lines[i])) {}
  }

  lemma {:induction false} OneIsTaken(lines: seq<Line>, i: nat, j: nat, pass: Pass)
    requires |lines| == 2 && i < 2 && j < 2 && i != j && !lines[0].merged && !lines[1].merged && Joins(lines, i, pass)
    ensures Absorbed(lines, i, pass) == Join(lines, i, j, pass.separator(lines[i], lines[j]))
  {
    hide Merge;
    var line := lines[i];
    var next := Rightward(lines, i, 2, pass.maxGap(line), pass.accept(line));
    BestIsThere(lines, i, 2, pass.maxGap(line), pass.accept(line), next);
    assert next == Some(j);
    NoneLeft(Join(lines, i, j, pass.separator(line, lines[j])), i, pass);
  }

  lemma {:induction false} RejoinedMore(lines: seq<Line>, order: seq<int>, i: nat, pass: Pass)
    requires i < |lines| && forall k :: 0 <= k < |order| ==> 0 <= order[k] < |lines|
    ensures Rejoined(lines, [], pass) == lines
    ensures var before := Rejoined(lines, order, pass);
      Rejoined(lines, order + [i], pass)
      == if !before[i].merged && Horizontal(before[i]) then Absorbed(before, i, pass) else before
  {
    hide Absorbed;
    assert (order + [i])[..|order|] == order;
  }

  lemma {:induction false} PassOfTwo(lines: seq<Line>, order: seq<int>, pass: Pass)
    requires |lines| == 2 && (order == [0] + [1] || order == [1] + [0])
    requires lines[0].merged || lines[1].merged || !(Joins(lines, 0, pass) && Joins(lines, 1, pass))
    ensures Rejoined(lines, order, pass)
         == if lines[0].merged || lines[1].merged then lines
            else if Joins(lines, 0, pass) then Join(lines, 0, 1, pass.separator(lines[0], lines[1]))
            else if Joins(lines, 1, pass) then Join(lines, 1, 0, pass.separator(lines[1], lines[0]))
            else lines
  {
    hide Absorbed, Merge, Candidate, Joins, Rejoined;
    var i, j := order[0], order[1];
    RejoinedMore(lines, [], i, pass);
    RejoinedMore(lines, [i], j, pass);
    assert [] + [i] == [i] && [i] + [j] == order;
    if lines[0].merged || lines[1].merged {
      NoneLeft(lines, i, pass);
      NoneLeft(lines, j, pass);
    } else {
      AbsorbedCounts(lines, i, pass);
      AbsorbedCounts(lines, j, pass);
      if Joins(lines, i, pass) { OneIsTaken(lines, i, j, pass); JoiningLine(lines, i, pass); }
      if Joins(lines, j, pass) { OneIsTaken(lines, j, i, pass); JoiningLine(lines, j, pass); }
    }
  }

  lemma {:induction false} OrdersOfTwo(order: seq<int>, lines: seq<Line>)
    requires |lines| == 2 && multiset(order) == multiset(seq(|lines|, i => i))
    ensures order == [0] + [1] || order == [1] + [0]
  {
    assert seq(|lines|, i => i) == [0, 1];
    assert |order| == |multiset(order)| == 2;
    assert order == [order[0], order[1]];
    assert order[0] in multiset(order) && order[1] in multiset(order);
    assert multiset(order)[0] == 1 && multiset(order)[1] == 1;
  }

  /** What becomes of two lines that are each wider than tall, or not. */
  lemma {:induction false} TwoLines(lines: seq<Line>)
    requires |lines| == 2 && !lines[0].merged && !lines[1].merged
    requires HeightOf(lines[0]) >= 0.0 && HeightOf(lines[1]) >= 0.0
    ensures var w := PageWidth(lines);
      var there, back := Between(lines[0], lines[1], w), Between(lines[1], lines[0], w);
      && (there.None? || back.None?)
      && BothPasses(lines) == if there.Some? then Join(lines, 0, 1, there.value)
                              else if back.Some? then Join(lines, 1, 0, back.value) else lines
  {
    hide Merge, Rejoined, FromTheLeft, PageWidth, Joins, Cells, Between;
    var cut := Rejoined(lines, AsRead(lines), CUT_LINES);
    BetweenIs(lines, 0, 1);
    BetweenIs(lines, 1, 0);
    OneWay(lines);
    OrdersOfTwo(AsRead(lines), lines);
    PassOfTwo(lines, AsRead(lines), CUT_LINES);
    FromTheLeftIsAll(cut);
    OrdersOfTwo(FromTheLeft(cut), cut);
    PassOfTwo(cut, FromTheLeft(cut), Cells(PageWidth(cut)));
  }

  /** The passes, in turn. */
  lemma {:induction false} BetweenIs(lines: seq<Line>, i: nat, j: nat)
    requires |lines| == 2 && {i, j} == {0, 1} && !lines[0].merged && !lines[1].merged
    ensures i < 2 && j < 2
    ensures var w := PageWidth(lines);
      Between(lines[i], lines[j], w)
      == if Joins(lines, i, CUT_LINES) then Some(CUT_LINES.separator(lines[i], lines[j]))
         else if Joins(lines, i, Cells(w)) then Some(Cells(w).separator(lines[i], lines[j])) else None
  {
    hide PageWidth, Joins, IsLabel, IsNumber, Trim, Beside;
    assert i in {0, 1} && j in {0, 1};
    CandidateBeside(lines, i, j, CUT_LINES);
    CandidateBeside(lines, i, j, Cells(PageWidth(lines)));
  }

  lemma {:induction false} OneWay(lines: seq<Line>)
    requires |lines| == 2 && !lines[0].merged && !lines[1].merged
    requires HeightOf(lines[0]) >= 0.0 && HeightOf(lines[1]) >= 0.0
    ensures var w := PageWidth(lines);
      && !((Joins(lines, 0, CUT_LINES) || Joins(lines, 0, Cells(w)))
           && (Joins(lines, 1, CUT_LINES) || Joins(lines, 1, Cells(w))))
  {
    hide PageWidth, Joins, CellAccepts, Beside;
    var a, b, w := lines[0], lines[1], PageWidth(lines);
    OneWayOnly(a, b, 1.5 * HeightOf(a), 1.5 * HeightOf(b));
    OneWayOnly(a, b, 0.6 * w, 0.6 * w);
    OneWayOnly(a, b, 1.5 * HeightOf(a), 0.6 * w);
    OneWayOnly(a, b, 0.6 * w, 1.5 * HeightOf(b));
    CandidateBeside(lines, 0, 1, CUT_LINES);
    CandidateBeside(lines, 1, 0, CUT_LINES);
    CandidateBeside(lines, 0, 1, Cells(w));
    CandidateBeside(lines, 1, 0, Cells(w));
  }

  // ----- reading order -----

  function KeptLines(lines: seq<Line>): seq<Line> {
    if lines == [] then []
    else KeptLines(lines[..|lines| - 1]) + if lines[|lines| - 1].merged then [] else [lines[|lines| - 1]]
  }

  /** How many times recognised line `k` is in some lines. */
  function Content(lines: seq<Line>, k: nat): nat {
    if lines == [] then 0 else Content(lines[..|lines| - 1], k) + Uses(lines[|lines| - 1].origin, k)
  }

  lemma {:induction false} ContentAppend(a: seq<Line>, b: seq<Line>, k: nat)
    ensures Content(a + b, k) == Content(a, k) + Content(b, k)
  {
    hide Uses;
    if b == [] {
      assert a + b == a;
    } else {
      var n := |b| - 1;
      ContentAppend(a, b[..n], k);
      assert (a + b)[..|a| + n] == a + b[..n];
    }
  }

  lemma {:induction false} ContentPermutes(a: seq<Line>, b: seq<Line>, k: nat)
    requires multiset(a) == multiset(b)
    ensures Content(a, k) == Content(b, k)
    decreases |a|
  {
    if a == [] {
      assert |multiset(b)| == 0;
    } else {
      var n := |a| - 1;
      var last := a[n];
      assert a == a[..n] + [last];
      assert last in multiset(b);
      var i :| 0 <= i < |b| && b[i] == last;
      assert b == b[..i] + [last] + b[i + 1..];
      PermutedRest(a[..n], b[..i], b[i + 1..], last);
      ContentPermutes(a[..n], b[..i] + b[i + 1..], k);
      ContentAppend(b[..i] + [last], b[i + 1..], k);
      ContentAppend(b[..i], [last], k);
      ContentAppend(b[..i], b[i + 1..], k);
      assert [last][..0] == [];
    }
  }

  lemma {:induction false} PermutedRest<T>(a: seq<T>, b: seq<T>, c: seq<T>, x: T)
    requires multiset(a + [x]) == multiset(b + [x] + c)
    ensures multiset(a) == multiset(b + c)
  {
    assert multiset(a) + multiset{x} == multiset(b) + multiset{x} + multiset(c);
    forall y ensures multiset(a)[y] == multiset(b + c)[y] {
      assert (multiset(a) + multiset{x})[y] == (multiset(b) + multiset{x} + multiset(c))[y];
    }
  }

  lemma {:induction false} KeptAreStanding(lines: seq<Line>, k: nat)
    ensures Content(KeptLines(lines), k) == Standing(lines, k)
  {
    hide Uses;
    if lines != [] {
      var init, last := lines[..|lines| - 1], lines[|lines| - 1];
      KeptAreStanding(init, k);
      ContentAppend(KeptLines(init), if last.merged then [] else [last], k);
      assert [last][..0] == [];
    }
  }

  lemma {:induction false} KeptAreThere(lines: seq<Line>)
    ensures forall l :: l in KeptLines(lines) ==> l in lines && !l.merged
  {
    if lines != [] { KeptAreThere(lines[..|lines| - 1]); }
  }

  lemma {:induction false} KeptCount(lines: seq<Line>)
    ensures |KeptLines(lines)| == Count(lines) <= |lines|
    ensures (forall i :: 0 <= i < |lines| ==> !lines[i].merged) ==> KeptLines(lines) == lines
  {
    if lines != [] {
      KeptCount(lines[..|lines| - 1]);
      assert lines == lines[..|lines| - 1] + [lines[|lines| - 1]];
    }
  }

  /** As many lines are kept as there were exactly when nothing is joined. */
  lemma {:induction false} KeptIff(raws: seq<Recognised>)
    ensures var base := Base(raws);
      var kept := KeptLines(BothPasses(base));
      && |kept| <= |base| && (|kept| == |base| <==> NothingToJoin(base)) && (NothingToJoin(base) ==> kept == base)
  {
    hide KeptLines, Count, NothingToJoin, BothPasses, Page;
    BaseIsPage(raws);
    BothPassesJoinIff(Base(raws));
    KeptCount(Base(raws));
    KeptCount(BothPasses(Base(raws)));
  }

  /** Two lines, of a box that is not upside down. */
  predicate Two(lines: seq<Line>) {
    |lines| == 2 && HeightOf(lines[0]) >= 0.0 && HeightOf(lines[1]) >= 0.0
  }

  lemma {:induction false} KeptOne(lines: seq<Line>, line: Line)
    requires !line.merged && |lines| == 2
    ensures lines[0] == line && lines[1].merged ==> KeptLines(lines) == [line]
    ensures lines[1] == line && lines[0].merged ==> KeptLines(lines) == [line]
  {
    KeptMore([], lines[0]);
    KeptMore([lines[0]], lines[1]);
    assert [] + [lines[0]] == [lines[0]] && [lines[0]] + [lines[1]] == lines;
  }

  lemma {:induction false} KeptMore(lines: seq<Line>, line: Line)
    ensures KeptLines([]) == [] && KeptLines(lines + [line]) == KeptLines(lines) + if line.merged then [] else [line]
  {
    assert (lines + [line])[..|lines|] == lines;
  }

  lemma {:induction false} TwoKept(raws: seq<Recognised>)
    requires Two(Base(raws))
    ensures var base, w := Base(raws), PageWidth(Base(raws));
      var there, back := Between(base[0], base[1], w), Between(base[1], base[0], w);
      && (there.Some? ==> KeptLines(BothPasses(base)) == [Merge(base[0], base[1], there.value)])
      && (back.Some? ==> KeptLines(BothPasses(base)) == [Merge(base[1], base[0], back.value)])
      && (there.None? && back.None? ==> KeptLines(BothPasses(base)) == base)
  {
    hide BothPasses, PageWidth, Between, Page, Merge, KeptLines;
    var base, w := Base(raws), PageWidth(Base(raws));
    BaseIsPage(raws);
    TwoLines(base);
    KeptCount(base);
    var there, back := Between(base[0], base[1], w), Between(base[1], base[0], w);
    if there.Some? {
      MergeStands(base[0], base[1], there.value);
      KeptOne(Join(base, 0, 1, there.value), Merge(base[0], base[1], there.value));
    }
    if back.Some? {
      MergeStands(base[1], base[0], back.value);
      KeptOne(Join(base, 1, 0, back.value), Merge(base[1], base[0], back.value));
    }
  }

  predicate Overlaps(a: Line, b: Line) {
    Lesser(a.box.y1, b.box.y1) - Greater(a.box.y0, b.box.y0) > 0.3 * Lesser(HeightOf(a), HeightOf(b))
  }

  predicate Prose(l: Line) {
    |Trim(l.text)| > 40
  }

  predicate TextColumns(lines: seq<Line>) {
    exists i, j :: 0 <= i < |lines| && 0 <= j < |lines| && i != j && Prose(lines[i]) && Prose(lines[j])
      && Overlaps(lines[i], lines[j])
  }

  function Vertical(lines: seq<Line>): nat {
    if lines == [] then 0 else (if Horizontal(lines[0]) then 0 else 1) + Vertical(lines[1..])
  }

  predicate KeepsTesseractOrder(lines: seq<Line>) {
    TextColumns(lines) || 2 * Vertical(lines) > |lines|
  }

  /**
   Lines `start` to `end` of `out` are those of `sorted` at the same places, which share a row with its first
   line, from left to right.
   */
  ghost predicate IsRow(sorted: seq<Line>, out: seq<Line>, start: nat, end: nat) {
    && start < end <= |sorted| == |out|
    && out[start..end] == StableSort(sorted[start..end], LEFT)
    && (forall k :: start < k < end ==> Overlaps(sorted[start], sorted[k]))
    && (end < |sorted| ==> !Overlaps(sorted[start], sorted[end]))
  }

  /** `out` is cut in rows up to the last cut. */
  ghost predicate Rows(sorted: seq<Line>, out: seq<Line>, cuts: seq<nat>) {
    && |cuts| > 0 && cuts[0] == 0
    && forall c :: 1 <= c < |cuts| ==> IsRow(sorted, out, cuts[c - 1], cuts[c])
  }

  const TOP := (l: Line) => l.box.y0
  const LEFT := (l: Line) => l.box.x0

  lemma {:induction false} CutsRise(sorted: seq<Line>, out: seq<Line>, cuts: seq<nat>, c: nat)
    requires Rows(sorted, out, cuts) && c < |cuts|
    ensures cuts[c] <= cuts[|cuts| - 1]
    decreases |cuts| - c
  {
    if c + 1 < |cuts| {
      CutsRise(sorted, out, cuts, c + 1);
      assert IsRow(sorted, out, cuts[c], cuts[c + 1]);
    }
  }

  function Replace(out: seq<Line>, start: nat, end: nat, row: seq<Line>): seq<Line>
    requires start <= end <= |out|
  {
    out[..start] + row + out[end..]
  }

  /** The rows before the one put in order stay, and that one is a row. */
  lemma {:induction false} RowsGrow(sorted: seq<Line>, out: seq<Line>, cuts: seq<nat>, end: nat, row: seq<Line>)
    requires Rows(sorted, out, cuts) && var start := cuts[|cuts| - 1]; start < end <= |out| == |sorted|
    requires |row| == end - cuts[|cuts| - 1]
    requires IsRow(sorted, Replace(out, cuts[|cuts| - 1], end, row), cuts[|cuts| - 1], end)
    ensures Rows(sorted, Replace(out, cuts[|cuts| - 1], end, row), cuts + [end])
  {
    hide StableSort, Overlaps;
    var start := cuts[|cuts| - 1];
    var r := Replace(out, start, end, row);
    forall c | 1 <= c < |cuts| ensures IsRow(sorted, r, cuts[c - 1], cuts[c]) {
      CutsRise(sorted, out, cuts, c);
      assert IsRow(sorted, out, cuts[c - 1], cuts[c]);
      assert r[cuts[c - 1]..cuts[c]] == out[cuts[c - 1]..cuts[c]];
    }
  }

  lemma {:induction false} ReplacePermutes(out: seq<Line>, start: nat, end: nat, row: seq<Line>)
    requires start <= end <= |out| && multiset(row) == multiset(out[start..end])
    ensures |row| == end - start
    ensures multiset(Replace(out, start, end, row)) == multiset(out)
  {
    assert |multiset(row)| == |row| && |multiset(out[start..end])| == end - start;
    assert out == out[..start] + out[start..end] + out[end..];
  }

  lemma {:induction false} SameTail(a: seq<Line>, b: seq<Line>, start: nat, end: nat)
    requires start <= end <= |a| == |b| && a[start..] == b[start..]
    ensures a[start..end] == b[start..end] && a[end..] == b[end..]
  {
    assert a[start..end] == a[start..][..end - start] && b[start..end] == b[start..][..end - start];
    assert a[end..] == a[start..][end - start..] && b[end..] == b[start..][end - start..];
  }

  lemma {:induction false} ReplacedParts(out: seq<Line>, start: nat, end: nat, row: seq<Line>)
    requires start <= end <= |out| && |row| == end - start
    ensures var r := Replace(out, start, end, row); |r| == |out| && r[start..end] == row && r[end..] == out[end..]
  {
  }

  /** The row that begins at the last cut is put in order. */
  lemma {:induction false} RowDone(sorted: seq<Line>, out: seq<Line>, cuts: seq<nat>, end: nat)
    requires |cuts| > 0 && Rows(sorted, out, cuts) && cuts[|cuts| - 1] < end <= |sorted| == |out|
    requires var start := cuts[|cuts| - 1];
      && out[start..] == sorted[start..] && (forall k :: start < k < end ==> Overlaps(sorted[start], sorted[k]))
      && (end < |sorted| ==> !Overlaps(sorted[start], sorted[end]))
    ensures var start := cuts[|cuts| - 1];
      var next := Replace(out, start, end, StableSort(out[start..end], LEFT));
      |next| == |out| && next[end..] == sorted[end..] && multiset(next) == multiset(out)
        && Rows(sorted, next, cuts + [end])
  {
    hide Ordered, Overlaps, StableSort, Rows, Replace;
    var start := cuts[|cuts| - 1];
    var row := StableSort(out[start..end], LEFT);
    SortIsStable(out[start..end], LEFT);
    ReplacePermutes(out, start, end, row);
    ReplacedParts(out, start, end, row);
    SameTail(out, sorted, start, end);
    assert IsRow(sorted, Replace(out, start, end, row), start, end);
    RowsGrow(sorted, out, cuts, end, row);
  }

  lemma {:induction false} NoRow(sorted: seq<Line>)
    ensures Rows(sorted, sorted, [0])
  {
  }

  /** The rows of a page from top to bottom, each from left to right. */
  method OrderRows(lines: seq<Line>) returns (out: seq<Line>, ghost cuts: seq<nat>)
    ensures multiset(out) == multiset(lines)
    ensures |cuts| > 0 && Rows(StableSort(lines, TOP), out, cuts) && cuts[|cuts| - 1] == |lines| == |out|
  {
    hide Ordered, Overlaps, StableSort, Rows, Replace;
    var sorted := StableSort(lines, TOP);
    SortIsStable(lines, TOP);
    NoRow(sorted);
    out, cuts := sorted, [0];
    var start := 0;
    while start < |sorted|
      invariant start <= |sorted| == |out| && out[start..] == sorted[start..] && multiset(out) == multiset(lines)
      invariant |cuts| > 0 && Rows(sorted, out, cuts) && cuts[|cuts| - 1] == start
    {
      var end := start + 1;
      while end < |sorted| && Overlaps(sorted[start], sorted[end])
        invariant start < end <= |sorted|
        invariant forall k :: start < k < end ==> Overlaps(sorted[start], sorted[k])
      {
        end := end + 1;
      }
      RowDone(sorted, out, cuts, end);
      out := Replace(out, start, end, StableSort(out[start..end], LEFT));
      cuts, start := cuts + [end], end;
    }
  }

  const READ_ORDER := (l: Line) => l.order as real

  /** Columns of text and turned pages keep the order of the recogniser; other pages are read row by row. */
  ghost predicate InReadingOrder(kept: seq<Line>, out: seq<Line>) {
    if KeepsTesseractOrder(kept) then out == StableSort(kept, READ_ORDER)
    else exists cuts :: Rows(StableSort(kept, TOP), out, cuts) && cuts[|cuts| - 1] == |kept|
  }

  // ----- paragraphs -----

  /** The space between each line and the next. */
  function Gaps(lines: seq<Line>): seq<real> {
    if |lines| < 2 then [] else [lines[1].box.y0 - lines[0].box.y1] + Gaps(lines[1..])
  }

  function Heights(lines: seq<Line>): seq<real> {
    if lines == [] then [] else [HeightOf(lines[0])] + Heights(lines[1..])
  }

  const SIZE := (x: real) => x

  /** The lower median of the spaces, not below zero. */
  function UsualGap(lines: seq<Line>): real {
    var gaps := StableSort(Gaps(lines), SIZE);
    if gaps == [] then 0.0 else Greater(0.0, gaps[(|gaps| - 1) / 2])
  }

  /** The upper median of the heights. */
  function LineHeight(lines: seq<Line>): real {
    var heights := StableSort(Heights(lines), SIZE);
    if heights == [] then 0.0 else heights[|heights| / 2]
  }

  /** A paragraph begins after a space clearly larger than the usual one. */
  predicate WideGap(before: Line, line: Line, widest: real) {
    line.box.y0 - before.box.y1 > widest
  }

  predicate NewParagraph(before: Line, line: Line) {
    before.block != line.block || before.paragraph != line.paragraph
  }

  /** Where a paragraph begins: by the recogniser, or by the spaces between the lines. */
  function Breaks(kept: seq<Line>, out: seq<Line>): (Line, Line) -> bool {
    if KeepsTesseractOrder(kept) then NewParagraph
    else
      var widest := Greater(1.6 * UsualGap(out), 0.5 * LineHeight(out));
      (before, line) => WideGap(before, line, widest)
  }

  /** `x` is at rank `rank` among the values, the least of them being at rank 0. */
  ghost predicate Ranked(values: seq<real>, rank: nat, x: real) {
    exists low: seq<real>, high: seq<real> ::
      && multiset(values) == multiset(low) + multiset{x} + multiset(high) && |low| == rank
      && (forall v :: v in low ==> v <= x) && (forall v :: v in high ==> x <= v)
  }

  lemma {:induction false} InOrder(low: seq<real>, x: real, high: seq<real>)
    requires Ordered(low + [x] + high, SIZE)
    ensures forall v :: v in low ==> v <= x
    ensures forall v :: v in high ==> x <= v
  {
    var all, n := low + [x] + high, |low|;
    forall v | v in low ensures v <= x {
      var k :| 0 <= k < n && v == low[k];
      assert SIZE(all[k]) <= SIZE(all[n]);
    }
    forall v | v in high ensures x <= v {
      var k :| 0 <= k < |high| && v == high[k];
      assert SIZE(all[n]) <= SIZE(all[n + 1 + k]) && all[n + 1 + k] == high[k];
    }
  }

  lemma {:induction false} SortedIsRanked(values: seq<real>, rank: nat)
    requires rank < |values|
    ensures |StableSort(values, SIZE)| == |values| && Ranked(values, rank, StableSort(values, SIZE)[rank])
  {
    hide StableSort, Ordered;
    var sorted := StableSort(values, SIZE);
    SortIsStable(values, SIZE);
    assert |multiset(values)| == |values| && |multiset(sorted)| == |sorted|;
    var low, x, high := sorted[..rank], sorted[rank], sorted[rank + 1..];
    assert sorted == low + [x] + high;
    InOrder(low, x, high);
    assert multiset(low + [x] + high) == multiset(low) + multiset{x} + multiset(high);
  }

  lemma {:induction false} GapsAt(lines: seq<Line>)
    requires lines != []
    ensures |Gaps(lines)| == |lines| - 1
    ensures forall k :: 0 <= k < |lines| - 1 ==> Gaps(lines)[k] == lines[k + 1].box.y0 - lines[k].box.y1
  {
    if |lines| > 1 {
      GapsAt(lines[1..]);
      forall k | 0 <= k < |lines| - 1 ensures Gaps(lines)[k] == lines[k + 1].box.y0 - lines[k].box.y1 {
        if k > 0 { assert Gaps(lines)[k] == Gaps(lines[1..])[k - 1]; }
      }
    }
  }

  lemma {:induction false} HeightsAt(lines: seq<Line>)
    ensures |Heights(lines)| == |lines|
    ensures forall k :: 0 <= k < |lines| ==> Heights(lines)[k] == HeightOf(lines[k])
  {
    hide HeightOf;
    if lines != [] {
      HeightsAt(lines[1..]);
      forall k | 0 <= k < |lines| ensures Heights(lines)[k] == HeightOf(lines[k]) {
        if k > 0 { assert Heights(lines)[k] == Heights(lines[1..])[k - 1]; }
      }
    }
  }

  /**
   A paragraph begins where the recogniser says so, when its order is kept; otherwise exactly where the space
   above a line is more than 1.6 times the lower median of the spaces and more than half the upper median of
   the heights.
   */
  lemma {:induction false} ParagraphsIff(kept: seq<Line>, out: seq<Line>, i: nat)
    returns (gaps: seq<real>, heights: seq<real>, usual: real, height: real)
    requires 1 <= i < |out|
    ensures |gaps| == |out| - 1 && forall k :: 0 <= k < |gaps| ==> gaps[k] == out[k + 1].box.y0 - out[k].box.y1
    ensures |heights| == |out| && forall k :: 0 <= k < |out| ==> heights[k] == HeightOf(out[k])
    ensures Ranked(gaps, (|gaps| - 1) / 2, usual) && Ranked(heights, |heights| / 2, height)
    ensures Breaks(kept, out)(out[i - 1], out[i]) <==>
            if KeepsTesseractOrder(kept) then
              out[i - 1].block != out[i].block || out[i - 1].paragraph != out[i].paragraph
            else gaps[i - 1] > 0.0 && gaps[i - 1] > 1.6 * usual && gaps[i - 1] > height / 2.0
  {
    hide StableSort, Ranked, KeepsTesseractOrder, Gaps, Heights;
    gaps, heights := Gaps(out), Heights(out);
    GapsAt(out);
    HeightsAt(out);
    SortedIsRanked(gaps, (|gaps| - 1) / 2);
    SortedIsRanked(heights, |heights| / 2);
    usual, height := StableSort(gaps, SIZE)[(|gaps| - 1) / 2], StableSort(heights, SIZE)[|heights| / 2];
  }

  /** One line under the other, with a blank line before each paragraph. */
  function Printed(lines: seq<Line>, breaks: (Line, Line) -> bool): string {
    if lines == [] then ""
    else if |lines| == 1 then lines[0].text
    else
      var n := |lines| - 1;
      Printed(lines[..n], breaks) + (if breaks(lines[n - 1], lines[n]) then "\n\n" else "\n") + lines[n].text
  }

  function InkOfAll(lines: seq<Line>): string {
    if lines == [] then "" else InkOfAll(lines[..|lines| - 1]) + Ink(lines[|lines| - 1].text)
  }

  /** The text has the visible characters of the lines, in order, and no others. */
  lemma {:induction false} PrintedKeepsInk(lines: seq<Line>, breaks: (Line, Line) -> bool)
    ensures Ink(Printed(lines, breaks)) == InkOfAll(lines)
  {
    hide Ink;
    NoInk();
    if |lines| == 1 {
      assert lines[..0] == [] && InkOfAll(lines) == "" + Ink(lines[0].text);
    } else if lines != [] {
      var n := |lines| - 1;
      var before, between := Printed(lines[..n], breaks), if breaks(lines[n - 1], lines[n]) then "\n\n" else "\n";
      PrintedKeepsInk(lines[..n], breaks);
      InkAppend(before + between, lines[n].text);
      InkAppend(before, between);
      assert Ink(before) + "" == Ink(before);
    }
  }

  lemma {:induction false} NoInk()
    ensures Ink("") == Ink("\n") == Ink("\n\n") == ""
  {
    assert "\n"[1..] == "" && "\n\n"[1..] == "\n";
  }

  /** Two texts, one above the other or in the order they were read, when they are not one line. */
  function Apart(a: Line, b: Line): string {
    var shared := Lesser(a.box.y1, b.box.y1) - Greater(a.box.y0, b.box.y0);
    var beside := shared > 3.0 * Lesser(HeightOf(a), HeightOf(b)) / 10.0;
    var columns := beside && |Trim(a.text)| >= 41 && |Trim(b.text)| >= 41;
    var turned := a.box.x1 - a.box.x0 <= a.box.y1 - a.box.y0 && b.box.x1 - b.box.x0 <= b.box.y1 - b.box.y0;
    if columns || turned then
      a.text + (if a.block == b.block && a.paragraph == b.paragraph then "\n" else "\n\n") + b.text
    else
      var top, other := if b.box.y0 < a.box.y0 then b else a, if b.box.y0 < a.box.y0 then a else b;
      if beside && other.box.x0 < top.box.x0 then other.text + "\n" + top.text else top.text + "\n" + other.text
  }

  /** The text of two lines: one after the other on one line, as they stand, or two lines. */
  ghost predicate TwoFragments(base: seq<Line>, text: string)
    requires |base| == 2
  {
    var a, b, w := base[0], base[1], PageWidth(base);
    var there, back := Between(a, b, w), Between(b, a, w);
    text == if there.Some? then a.text + there.value + TrimStart(b.text)
            else if back.Some? then b.text + back.value + TrimStart(a.text)
            else Apart(a, b)
  }

  lemma {:induction false} TwoJoined(raws: seq<Recognised>, out: seq<Line>, text: string)
    requires Two(Base(raws)) && multiset(out) == multiset(KeptLines(BothPasses(Base(raws))))
    requires InReadingOrder(KeptLines(BothPasses(Base(raws))), out)
    requires text == Printed(out, Breaks(KeptLines(BothPasses(Base(raws))), out))
    ensures TwoFragments(Base(raws), text)
  {
    hide BothPasses, PageWidth, Between, KeptLines, Breaks, Printed, Base, InReadingOrder, Apart;
    var kept, base := KeptLines(BothPasses(Base(raws))), Base(raws);
    TwoKept(raws);
    if |kept| == 1 {
      OnePrinted(out, kept[0], Breaks(kept, out)) by { assert kept == [kept[0]]; }
    } else {
      TwoOrders(raws);
      TwoPrinted(base, out);
    }
  }

  lemma {:induction false} TwoOrders(raws: seq<Recognised>)
    requires |Base(raws)| == 2
    ensures Base(raws)[0].order == 0 && Base(raws)[1].order == 1
  {
    hide Trim, TrimEnd, First;
    BaseIsPage(raws);
    var base := Base(raws);
    assert Faithful(base[0], base) && Faithful(base[1], base);
    assert First(One(0)) == 0 && First(One(1)) == 1 by { FirstOfOne(0); FirstOfOne(1); }
  }

  lemma {:induction false} FirstOfOne(k: nat)
    ensures First(One(k)) == k
  {
  }

  lemma {:induction false} OneRowOfTwo(a: Line, b: Line, out: seq<Line>)
    requires IsRow([a] + [b], out, 0, 2)
    ensures Overlaps(a, b) && out == if b.box.x0 < a.box.x0 then [b] + [a] else [a] + [b]
  {
    hide StableSort, Overlaps;
    var sorted := [a] + [b];
    assert sorted[0..2] == sorted && out == out[0..2];
    assert Overlaps(sorted[0], sorted[1]);
    assert LEFT(a) == a.box.x0 && LEFT(b) == b.box.x0;
    SortTwo(a, b, LEFT);
  }

  lemma {:induction false} TwoRowsOfOne(a: Line, b: Line, out: seq<Line>)
    requires IsRow([a] + [b], out, 0, 1) && IsRow([a] + [b], out, 1, 2)
    ensures !Overlaps(a, b) && out == [a] + [b]
  {
    hide StableSort, Overlaps;
    var sorted := [a] + [b];
    assert !Overlaps(sorted[0], sorted[1]);
    assert sorted[0..1] == [a] && sorted[1..2] == [b] && out == out[0..1] + out[1..2];
    SortTwo(a, b, LEFT);
    SortTwo(b, a, LEFT);
  }

  lemma {:induction false} RowsOfTwo(a: Line, b: Line, out: seq<Line>, cuts: seq<nat>)
    requires Rows([a] + [b], out, cuts) && |cuts| > 0 && cuts[|cuts| - 1] == 2
    ensures out == if Overlaps(a, b) && b.box.x0 < a.box.x0 then [b] + [a] else [a] + [b]
  {
    hide Overlaps, IsRow;
    var sorted := [a] + [b];
    assert |cuts| > 1 && IsRow(sorted, out, 0, cuts[1]);
    RowWithin(sorted, out, 0, cuts[1]);
    if cuts[1] == 1 {
      assert |cuts| > 2 && IsRow(sorted, out, 1, cuts[2]);
      RowWithin(sorted, out, 1, cuts[2]);
      TwoRowsOfOne(a, b, out);
    } else {
      OneRowOfTwo(a, b, out);
    }
  }

  lemma {:induction false} RowWithin(sorted: seq<Line>, out: seq<Line>, start: nat, end: nat)
    requires IsRow(sorted, out, start, end)
    ensures start < end <= |sorted| == |out|
  {
  }

  lemma {:induction false} TwoPrintedAs(a: Line, b: Line, breaks: (Line, Line) -> bool)
    ensures Printed([a] + [b], breaks) == a.text + (if breaks(a, b) then "\n\n" else "\n") + b.text
  {
    assert ([a] + [b])[..1] == [a];
    assert Printed([a], breaks) == a.text;
  }

  /** The usual space is that of the only one, and it is not wide. */
  lemma {:induction false} NoWideGap(a: Line, b: Line)
    requires HeightOf(a) >= 0.0 && HeightOf(b) >= 0.0
    ensures var out := [a] + [b];
      !WideGap(a, b, Greater(1.6 * UsualGap(out), 0.5 * LineHeight(out)))
  {
    var out, gap := [a] + [b], b.box.y0 - a.box.y1;
    assert out[1..] == [b] && Gaps(out) == [gap] + Gaps([b]) == [gap];
    SortTwo(gap, gap, SIZE);
    assert UsualGap(out) == Greater(0.0, gap);
    assert Heights(out) == [HeightOf(a)] + Heights([b]) && Heights([b]) == [HeightOf(b)] + Heights([b][1..]);
    SortTwo(HeightOf(a), HeightOf(b), SIZE);
  }

  lemma {:induction false} TwoAsRead(lines: seq<Line>, out: seq<Line>)
    requires Two(lines) && lines[0].order == 0 && lines[1].order == 1 && InReadingOrder(lines, out)
    requires KeepsTesseractOrder(lines)
    ensures Printed(out, Breaks(lines, out)) == lines[0].text
      + (if lines[0].block == lines[1].block && lines[0].paragraph == lines[1].paragraph then "\n" else "\n\n")
      + lines[1].text
  {
    hide StableSort, Printed, Rows, KeepsTesseractOrder, HeightOf;
    var a, b := lines[0], lines[1];
    assert lines == [a] + [b];
    assert READ_ORDER(a) == 0.0 && READ_ORDER(b) == 1.0;
    SortTwo(a, b, READ_ORDER);
    TwoPrintedAs(a, b, Breaks(lines, out));
  }

  lemma {:induction false} NoBreak(lines: seq<Line>, a: Line, b: Line)
    requires !KeepsTesseractOrder(lines) && HeightOf(a) >= 0.0 && HeightOf(b) >= 0.0
    ensures Printed([a] + [b], Breaks(lines, [a] + [b])) == a.text + "\n" + b.text
  {
    hide Printed, KeepsTesseractOrder, HeightOf, WideGap, UsualGap, LineHeight, Greater;
    NoWideGap(a, b);
    TwoPrintedAs(a, b, Breaks(lines, [a] + [b]));
  }

  lemma {:induction false} TwoByPlace(lines: seq<Line>, out: seq<Line>)
    requires Two(lines) && InReadingOrder(lines, out) && !KeepsTesseractOrder(lines)
    ensures var a, b := lines[0], lines[1];
      var top, other := if b.box.y0 < a.box.y0 then b else a, if b.box.y0 < a.box.y0 then a else b;
      Printed(out, Breaks(lines, out)) == if Overlaps(top, other) && other.box.x0 < top.box.x0
        then other.text + "\n" + top.text else top.text + "\n" + other.text
  {
    hide StableSort, Printed, Rows, KeepsTesseractOrder, HeightOf, Overlaps, Breaks, InReadingOrder;
    var a, b := lines[0], lines[1];
    var top, other := if b.box.y0 < a.box.y0 then b else a, if b.box.y0 < a.box.y0 then a else b;
    assert lines == [a] + [b];
    assert TOP(a) == a.box.y0 && TOP(b) == b.box.y0;
    SortTwo(a, b, TOP);
    assert HeightOf(a) >= 0.0 && HeightOf(b) >= 0.0;
    NoBreak(lines, top, other);
    NoBreak(lines, other, top);
    var cuts := CutsOf(lines, out);
    RowsOfTwo(top, other, out, cuts);
  }

  /** Two lines kept: in the order read when they are columns of text, or turned; otherwise by their place. */
  lemma {:induction false} TwoPrinted(lines: seq<Line>, out: seq<Line>)
    requires Two(lines) && lines[0].order == 0 && lines[1].order == 1 && InReadingOrder(lines, out)
    ensures Printed(out, Breaks(lines, out)) == Apart(lines[0], lines[1])
  {
    hide Printed, Breaks, Trim, KeepsTesseractOrder, InReadingOrder;
    ModeOfTwo(lines);
    OverlapsBoth(lines[0], lines[1]);
    if KeepsTesseractOrder(lines) { TwoAsRead(lines, out); } else { TwoByPlace(lines, out); }
  }

  lemma {:induction false} CutsOf(lines: seq<Line>, out: seq<Line>) returns (cuts: seq<nat>)
    requires lines != [] && InReadingOrder(lines, out) && !KeepsTesseractOrder(lines)
    ensures |cuts| > 0 && Rows(StableSort(lines, TOP), out, cuts) && cuts[|cuts| - 1] == |lines|
    ensures |out| == |lines|
  {
    hide StableSort, KeepsTesseractOrder, Overlaps;
    cuts :| Rows(StableSort(lines, TOP), out, cuts) && cuts[|cuts| - 1] == |lines|;
    SortIsStable(lines, TOP);
    assert |multiset(lines)| == |lines| && |multiset(StableSort(lines, TOP))| == |StableSort(lines, TOP)|;
    assert |cuts| > 1 && IsRow(StableSort(lines, TOP), out, cuts[0], cuts[1]);
  }

  lemma {:induction false} ModeOfTwo(lines: seq<Line>)
    requires |lines| == 2
    ensures KeepsTesseractOrder(lines) <==>
            || (Prose(lines[0]) && Prose(lines[1]) && Overlaps(lines[0], lines[1]))
            || (!Horizontal(lines[0]) && !Horizontal(lines[1]))
  {
    hide Prose, Horizontal, Overlaps;
    OverlapsBoth(lines[0], lines[1]);
    assert lines[1..][0] == lines[1];
    assert Vertical(lines[1..]) == (if Horizontal(lines[1]) then 0 else 1) + Vertical(lines[1..][1..]);
    if TextColumns(lines) {
      var i, j :| 0 <= i < 2 && 0 <= j < 2 && i != j && Prose(lines[i]) && Prose(lines[j])
        && Overlaps(lines[i], lines[j]);
    }
  }

  lemma {:induction false} OverlapsBoth(a: Line, b: Line)
    ensures Overlaps(a, b) == Overlaps(b, a)
  {
  }

  lemma {:induction false} JoinedWhen(raws: seq<Recognised>, out: seq<Line>, text: string)
    requires multiset(out) == multiset(KeptLines(BothPasses(Base(raws))))
    requires InReadingOrder(KeptLines(BothPasses(Base(raws))), out)
    requires text == Printed(out, Breaks(KeptLines(BothPasses(Base(raws))), out))
    ensures |out| <= |Base(raws)| && (|out| == |Base(raws)| <==> NothingToJoin(Base(raws)))
    ensures NothingToJoin(Base(raws)) ==> multiset(out) == multiset(Base(raws))
    ensures Two(Base(raws)) ==> TwoFragments(Base(raws), text)
  {
    hide NothingToJoin, TwoFragments, Two, BothPasses, Base, Breaks, Printed, InReadingOrder;
    var kept := KeptLines(BothPasses(Base(raws)));
    KeptIff(raws);
    assert |multiset(out)| == |out| && |multiset(kept)| == |kept|;
    if Two(Base(raws)) { TwoJoined(raws, out, text); }
  }

  lemma {:induction false} OnePrinted(out: seq<Line>, line: Line, breaks: (Line, Line) -> bool)
    requires multiset(out) == multiset([line])
    ensures Printed(out, breaks) == line.text
  {
    assert |multiset(out)| == |out| == |multiset([line])| == 1;
    assert out[0] in multiset(out);
    assert out == [line];
  }

  /**
   `assembleOcrText`. Each recognised line that is not blank is in exactly one line of the result, once;
   each line of the result is the faithful union of its fragments; the text is these lines, one under the
   other, with a blank line before each paragraph. Nothing is joined exactly when no line has a neighbour to
   take in; two lines on one row are joined by what `Between` says.
   */
  method Assemble(raws: seq<Recognised>) returns (text: string, out: seq<Line>)
    ensures text == Printed(out, Breaks(KeptLines(BothPasses(Base(raws))), out))
    ensures Ink(text) == InkOfAll(out)
    ensures forall k: nat :: Content(out, k) == if k < |Written(raws)| then 1 else 0
    ensures forall l :: l in out ==> Faithful(l, Base(raws))
    ensures multiset(out) == multiset(KeptLines(BothPasses(Base(raws))))
    ensures InReadingOrder(KeptLines(BothPasses(Base(raws))), out)
    ensures |out| <= |Base(raws)| && (|out| == |Base(raws)| <==> NothingToJoin(Base(raws)))
    ensures NothingToJoin(Base(raws)) ==> multiset(out) == multiset(Base(raws))
    ensures Two(Base(raws)) ==> TwoFragments(Base(raws), text)
  {
    hide NothingToJoin, TwoFragments, Two, Base, InkOfAll;
    hide Faithful, Cells, PageWidth, KeepsTesseractOrder, Breaks, Printed, Ink, Rows, StableSort, Ordered, Content;
    hide KeptLines, Rejoined, FromTheLeft;
    ghost var base := Base(raws);
    BaseIsPage(raws);
    var lines := Base(raws);
    RejoinedKeepsPage(lines, base, AsRead(lines), CUT_LINES) by { PassesAreUsual(0.0); }
    lines := Rejoin(lines, AsRead(lines), CUT_LINES);
    FromTheLeftIsAll(lines);
    var pass := Cells(PageWidth(lines));
    RejoinedKeepsPage(lines, base, FromTheLeft(lines), pass) by { PassesAreUsual(PageWidth(lines)); }
    lines := Rejoin(lines, FromTheLeft(lines), pass);
    var kept := KeptLines(lines);
    if KeepsTesseractOrder(kept) {
      out := StableSort(kept, READ_ORDER);
      SortIsStable(kept, READ_ORDER);
    } else {
      ghost var cuts;
      out, cuts := OrderRows(kept);
    }
    text := Printed(out, Breaks(kept, out));
    JoinedWhen(raws, out, text);
    PrintedKeepsInk(out, Breaks(kept, out));
    forall k: nat ensures Content(out, k) == if k < |Written(raws)| then 1 else 0 {
      KeptAreStanding(lines, k);
      ContentPermutes(out, kept, k);
    }
    KeptAreThere(lines);
    forall l | l in out ensures Faithful(l, base) {
      assert l in multiset(out);
      assert l in multiset(kept);
    }
  }
}
