/**
 The character loops of denied-join-pruning.ts over a masked query (strings and comments blanked):
 the end of an ON clause, the selected columns, and the text left once joins are cut out.
 */
module SqlScan {
  import opened Basics
  import opened Wrappers

  predicate WordStart(text: string, i: nat)
    requires i < |text|
  {
    i == 0 || !WordChar(text[i - 1])
  }

  /** `word` is written at `i`, in any case, and ends there. */
  predicate WordAt(text: string, i: nat, word: string) {
    && i + |word| <= |text|
    && (forall k :: 0 <= k < |word| ==> Upper(text[i + k]) == word[k])
    && (i + |word| == |text| || !WordChar(text[i + |word|]))
  }

  const CLAUSES := ["LEFT", "RIGHT", "FULL", "INNER", "CROSS", "NATURAL", "STRAIGHT_JOIN", "JOIN", "WHERE", "GROUP",
                    "ORDER", "HAVING", "LIMIT", "UNION", "WINDOW", "FOR", "LOCK", "INTO"]

  predicate ClauseAt(text: string, i: nat)
    requires i < |text|
  {
    WordStart(text, i) && exists w :: w in CLAUSES && WordAt(text, i, w)
  }

  predicate FromAt(text: string, i: nat)
    requires i < |text|
  {
    WordStart(text, i) && WordAt(text, i, "FROM")
  }

  /** Parentheses open between `from` and `i`, negative when more are closed. */
  function Depth(text: string, from: nat, i: nat): int
    requires from <= i <= |text|
    decreases i
  {
    if i == from then 0
    else
      Depth(text, from, i - 1) + (if text[i - 1] == '(' then 1 else if text[i - 1] == ')' then -1 else 0)
  }

  /** A character where an ON clause that starts at `from` ends. */
  predicate ClauseEnds(text: string, from: nat, i: nat)
    requires from <= i < |text|
  {
    Depth(text, from, i) == 0 && text[i] != '(' && (text[i] == ')' || text[i] == ';' || ClauseAt(text, i))
  }

  /** `onClauseEnd`: the first such character, or the end of the text. */
  method OnClauseEnd(masked: string, from: nat) returns (end: nat)
    requires from <= |masked|
    ensures from <= end <= |masked|
    ensures end < |masked| ==> ClauseEnds(masked, from, end)
    ensures forall i :: from <= i < end ==> !ClauseEnds(masked, from, i)
  {
    var depth := 0;
    var index := from;
    while index < |masked|
      invariant from <= index <= |masked|
      invariant depth == Depth(masked, from, index) >= 0
      invariant forall i :: from <= i < index ==> !ClauseEnds(masked, from, i)
    {
      var c := masked[index];
      if c == '(' {
        depth := depth + 1;
      } else if c == ')' {
        if depth == 0 { return index; }
        depth := depth - 1;
      } else if depth == 0 {
        if c == ';' { return index; }
        if ClauseAt(masked, index) { return index; }
      }
      index := index + 1;
    }
    return |masked|;
  }

  /** The clause found closes every parenthesis it opens. */
  lemma {:induction false} OnClauseIsBalanced(text: string, from: nat, end: nat, i: nat)
    requires from <= i <= end < |text| && ClauseEnds(text, from, end)
    requires forall k :: from <= k < end ==> !ClauseEnds(text, from, k)
    ensures Depth(text, from, i) >= 0 && Depth(text, from, end) == 0
  {
    if i > from {
      OnClauseIsBalanced(text, from, end, i - 1);
      assert !ClauseEnds(text, from, i - 1);
    }
  }

  datatype Span = Span(start: nat, end: nat)

  predicate Comma(text: string, from: nat, i: nat)
    requires from <= i < |text|
  {
    Depth(text, from, i) == 0 && text[i] == ','
  }

  predicate ListEnds(text: string, from: nat, i: nat)
    requires from <= i < |text|
  {
    Depth(text, from, i) == 0 && text[i] != '(' && text[i] != ')' && text[i] != ',' && FromAt(text, i)
  }

  /** The text from `from` to `stop`, cut at its commas outside parentheses. */
  function Cut(text: string, from: nat, stop: nat): (r: seq<Span>)
    requires from <= stop <= |text|
    ensures |r| > 0
    decreases stop
  {
    if stop == from then [Span(from, from)]
    else
      var before := Cut(text, from, stop - 1);
      var n := |before| - 1;
      if Comma(text, from, stop - 1) then before + [Span(stop, stop)]
      else before[..n] + [Span(before[n].start, stop)]
  }

  /** Item `k` follows the comma of the one before, ends at a comma or at `stop`, and holds no comma. */
  predicate ItemAt(text: string, from: nat, stop: nat, r: seq<Span>, k: nat)
    requires from <= stop <= |text| && k < |r|
  {
    && from <= r[k].start <= r[k].end <= stop
    && r[k].start == (if k == 0 then from else r[k - 1].end + 1)
    && (if k < |r| - 1 then r[k].end < stop && Comma(text, from, r[k].end) else r[k].end == stop)
    && (forall i :: r[k].start <= i < r[k].end ==> !Comma(text, from, i))
  }

  lemma {:induction false} CutIsFaithful(text: string, from: nat, stop: nat)
    requires from <= stop <= |text|
    ensures forall k :: 0 <= k < |Cut(text, from, stop)| ==> ItemAt(text, from, stop, Cut(text, from, stop), k)
    decreases stop
  {
    if stop > from {
      CutIsFaithful(text, from, stop - 1);
      var before, r := Cut(text, from, stop - 1), Cut(text, from, stop);
      forall k | 0 <= k < |r| ensures ItemAt(text, from, stop, r, k) {
        if k < |before| { assert ItemAt(text, from, stop - 1, before, k); }
        if k == |before| { assert ItemAt(text, from, stop - 1, before, k - 1); }
      }
    }
  }

  /** `selectItems`: the selected columns and the position of the outermost FROM, `None` without FROM. */
  method SelectItems(masked: string, listStart: nat) returns (r: Option<(seq<Span>, nat)>)
    requires listStart <= |masked|
    ensures r.None? ==> forall i :: listStart <= i < |masked| ==> !ListEnds(masked, listStart, i)
    ensures r.Some? ==>
      && listStart <= r.value.1 < |masked| && ListEnds(masked, listStart, r.value.1)
      && (forall i :: listStart <= i < r.value.1 ==> !ListEnds(masked, listStart, i))
      && r.value.0 == Cut(masked, listStart, r.value.1)
  {
    var items: seq<Span> := [];
    var depth, itemStart, index := 0, listStart, listStart;
    while index < |masked|
      invariant listStart <= itemStart <= index <= |masked|
      invariant depth == Depth(masked, listStart, index)
      invariant forall i :: listStart <= i < index ==> !ListEnds(masked, listStart, i)
      invariant items + [Span(itemStart, index)] == Cut(masked, listStart, index)
    {
      var c := masked[index];
      ghost var open := items + [Span(itemStart, index)];
      assert open[..|open| - 1] == items;
      if c == '(' {
        depth := depth + 1;
      } else if c == ')' {
        depth := depth - 1;
      } else if depth == 0 {
        if c == ',' {
          items := items + [Span(itemStart, index)];
          itemStart := index + 1;
        } else if FromAt(masked, index) {
          items := items + [Span(itemStart, index)];
          return Some((items, index));
        }
      }
      index := index + 1;
    }
    return None;
  }

  // ----- what is left of the query -----

  /** The ranges are in order and do not overlap. */
  predicate Ordered(spans: seq<Span>, from: nat, size: nat) {
    && (forall k :: 0 <= k < |spans| ==> from <= spans[k].start <= spans[k].end <= size)
    && (forall k :: 0 <= k < |spans| - 1 ==> spans[k].end <= spans[k + 1].start)
  }

  predicate Covered(spans: seq<Span>, i: nat) {
    exists k :: 0 <= k < |spans| && spans[k].start <= i < spans[k].end
  }

  /** The characters from `from` to `stop` that no range covers. */
  function Uncovered(text: string, from: nat, stop: nat, spans: seq<Span>): string
    requires from <= stop <= |text|
    decreases stop
  {
    if from == stop then ""
    else Uncovered(text, from, stop - 1, spans) + (if Covered(spans, stop - 1) then "" else [text[stop - 1]])
  }

  lemma {:induction false} UncoveredRun(text: string, from: nat, mid: nat, stop: nat, spans: seq<Span>, covered: bool)
    requires from <= mid <= stop <= |text|
    requires forall i :: mid <= i < stop ==> Covered(spans, i) == covered
    ensures Uncovered(text, from, stop, spans) == Uncovered(text, from, mid, spans) + if covered then ""
      else text[mid..stop]
    decreases stop
  {
    if stop > mid {
      UncoveredRun(text, from, mid, stop - 1, spans, covered);
      assert text[mid..stop] == text[mid..stop - 1] + [text[stop - 1]];
    }
  }

  /** The end of the query without the removed joins: every other character is kept, in order. */
  method TailWithout(sql: string, fromAt: nat, removed: seq<Span>) returns (tail: string)
    requires fromAt <= |sql| && Ordered(removed, fromAt, |sql|)
    ensures tail == Uncovered(sql, fromAt, |sql|, removed)
  {
    tail := "";
    var cursor := fromAt;
    for k := 0 to |removed|
      invariant fromAt <= cursor <= |sql|
      invariant cursor == if k == 0 then fromAt else removed[k - 1].end
      invariant tail == Uncovered(sql, fromAt, cursor, removed)
    {
      OrderedApart(removed, fromAt, |sql|, k);
      UncoveredRun(sql, fromAt, cursor, removed[k].start, removed, false);
      UncoveredRun(sql, fromAt, removed[k].start, removed[k].end, removed, true);
      tail := tail + sql[cursor..removed[k].start];
      cursor := removed[k].end;
    }
    if |removed| > 0 { OrderedApart(removed, fromAt, |sql|, |removed| - 1); }
    UncoveredRun(sql, fromAt, cursor, |sql|, removed, false);
    tail := tail + sql[cursor..];
  }

  /** Nothing is covered between a range and the one before it, nor after the last. */
  lemma {:induction false} OrderedApart(spans: seq<Span>, from: nat, size: nat, k: nat)
    requires Ordered(spans, from, size) && k < |spans|
    ensures forall i :: (if k == 0 then from else spans[k - 1].end) <= i < spans[k].start ==> !Covered(spans, i)
    ensures (if k == 0 then from else spans[k - 1].end) <= spans[k].start
    ensures k == |spans| - 1 ==> forall i :: spans[k].end <= i < size ==> !Covered(spans, i)
  {
    forall a, b | 0 <= a < b < |spans| ensures spans[a].end <= spans[b].start { EndsBefore(spans, from, size, a, b); }
  }

  lemma {:induction false} EndsBefore(spans: seq<Span>, from: nat, size: nat, a: nat, b: nat)
    requires Ordered(spans, from, size) && a < b < |spans|
    ensures spans[a].end <= spans[b].start
    decreases b
  {
    if a < b - 1 { EndsBefore(spans, from, size, a, b - 1); }
  }
}
