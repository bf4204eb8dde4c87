/**
 The splice that ends the rewriting of numeric-enum-literals.ts: the edits, sorted, are made from right
 to left, skipping those that run into one already made. Proved equal to making them all at once.
 */
module EditSplice {
  import opened Sorting

  // ----- the splice -----

  datatype Edit = Edit(start: nat, end: nat, text: string)

  predicate Inside(edits: seq<Edit>, size: nat) {
    forall i :: 0 <= i < |edits| ==> edits[i].start <= edits[i].end <= size
  }

  const FROM_THE_RIGHT := (e: Edit) => -(e.start as real)
  const LONGEST_FIRST := (e: Edit) => -(e.end as real)

  /** By decreasing start, then by decreasing end. */
  function SortEdits(edits: seq<Edit>): seq<Edit> {
    StableSort(StableSort(edits, LONGEST_FIRST), FROM_THE_RIGHT)
  }

  /** The edits that are made, from right to left: those that end before the one made last begins. */
  function Kept(edits: seq<Edit>, limit: nat): seq<Edit> {
    if edits == [] then []
    else if edits[0].end > limit then Kept(edits[1..], limit)
    else [edits[0]] + Kept(edits[1..], edits[0].start)
  }

  /** From right to left, each inside the text and ending where the one before begins, or earlier. */
  predicate Apart(edits: seq<Edit>, limit: nat) {
    edits == [] || (edits[0].start <= edits[0].end <= limit && Apart(edits[1..], edits[0].start))
  }

  /** All the edits made at once on the text up to `limit`. */
  function Rebuilt(sql: string, edits: seq<Edit>, limit: nat): string
    requires limit <= |sql| && Apart(edits, limit)
    decreases |edits|
  {
    if edits == [] then sql[..limit]
    else Rebuilt(sql, edits[1..], edits[0].start) + edits[0].text + sql[edits[0].end..limit]
  }

  lemma {:induction false} KeptApart(edits: seq<Edit>, limit: nat)
    requires forall i :: 0 <= i < |edits| ==> edits[i].start <= edits[i].end
    ensures Apart(Kept(edits, limit), limit)
    ensures forall e :: e in Kept(edits, limit) ==> e in edits
  {
    if edits != [] {
      KeptApart(edits[1..], if edits[0].end > limit then limit else edits[0].start);
    }
  }

  /** The text from `limit` on is rebuilt; the one before is as it was. */
  ghost predicate RebuiltFrom(sql: string, kept: seq<Edit>, out: string, limit: nat, whole: string) {
    && limit <= |sql| && limit <= |out| && out[..limit] == sql[..limit] && Apart(kept, limit)
    && Rebuilt(sql, kept, limit) + out[limit..] == whole
  }

  lemma {:induction false} RebuiltOne(sql: string, kept: seq<Edit>, out: string, limit: nat, whole: string)
    requires RebuiltFrom(sql, kept, out, limit, whole) && kept != []
    ensures var e := kept[0];
      && e.start <= e.end <= |out|
      && RebuiltFrom(sql, kept[1..], out[..e.start] + e.text + out[e.end..], e.start, whole)
  {
    var e := kept[0];
    var next := out[..e.start] + e.text + out[e.end..];
    assert out[e.end..] == out[..limit][e.end..] + out[limit..];
    assert next[e.start..] == e.text + sql[e.end..limit] + out[limit..];
    assert next[..e.start] == out[..limit][..e.start] == sql[..limit][..e.start] == sql[..e.start];
    var r := Rebuilt(sql, kept[1..], e.start);
    assert (r + e.text + sql[e.end..limit]) + out[limit..] == r + (e.text + sql[e.end..limit] + out[limit..]);
  }

  lemma {:induction false} RebuiltStart(sql: string, sorted: seq<Edit>)
    requires Inside(sorted, |sql|)
    ensures var kept := Kept(sorted, |sql|);
      && Apart(kept, |sql|)
      && RebuiltFrom(sql, kept, sql, |sql|, Rebuilt(sql, kept, |sql|))
  {
    KeptApart(sorted, |sql|);
    assert sql[..|sql|] == sql;
  }

  method Splice(sql: string, edits: seq<Edit>) returns (out: string)
    requires Inside(edits, |sql|)
    ensures forall e :: e in SortEdits(edits) <==> e in edits
    ensures Apart(Kept(SortEdits(edits), |sql|), |sql|)
    ensures out == Rebuilt(sql, Kept(SortEdits(edits), |sql|), |sql|)
  {
    hide RebuiltFrom, Rebuilt, SortEdits, Apart;
    var sorted := SortEdits(edits);
    SortedEdits(edits);
    assert Inside(sorted, |sql|) by {
      forall i | 0 <= i < |sorted| ensures sorted[i].start <= sorted[i].end <= |sql| { assert sorted[i] in edits; }
    }
    RebuiltStart(sql, sorted);
    ghost var whole := Rebuilt(sql, Kept(sorted, |sql|), |sql|);
    out := sql;
    var limit: nat := |sql|;
    assert sorted[0..] == sorted;
    for k := 0 to |sorted|
      invariant RebuiltFrom(sql, Kept(sorted[k..], limit), out, limit, whole)
    {
      var e := sorted[k];
      assert sorted[k..][1..] == sorted[k + 1..];
      if e.end > limit { continue; }
      assert Kept(sorted[k..], limit)[1..] == Kept(sorted[k + 1..], e.start);
      RebuiltOne(sql, Kept(sorted[k..], limit), out, limit, whole);
      out := out[..e.start] + e.text + out[e.end..];
      limit := e.start;
    }
    RebuiltAll(sql, out, limit, whole);
  }

  lemma {:induction false} RebuiltAll(sql: string, out: string, limit: nat, whole: string)
    requires RebuiltFrom(sql, [], out, limit, whole)
    ensures out == whole
  {
    assert out == out[..limit] + out[limit..];
  }

  lemma {:induction false} SortedEdits(edits: seq<Edit>)
    ensures var sorted := SortEdits(edits);
      (forall e :: e in sorted <==> e in edits)
        && (forall i, j :: 0 <= i < j < |sorted| ==> sorted[i].start >= sorted[j].start)
  {
    var first, sorted := StableSort(edits, LONGEST_FIRST), SortEdits(edits);
    SortIsStable(edits, LONGEST_FIRST);
    SortIsStable(first, FROM_THE_RIGHT);
    forall e ensures e in sorted <==> e in edits { assert e in multiset(sorted) <==> e in multiset(edits); }
    forall i, j | 0 <= i < j < |sorted|
      ensures sorted[i].start >= sorted[j].start
    {
      assert FROM_THE_RIGHT(sorted[i]) <= FROM_THE_RIGHT(sorted[j]);
    }
  }

  /** How far the edits to the left of position `k` move it. */
  function Shift(edits: seq<Edit>, k: nat): int {
    if edits == [] then 0
    else (if edits[0].end <= k then |edits[0].text| - (edits[0].end - edits[0].start) else 0) + Shift(edits[1..], k)
  }

  predicate Touched(edits: seq<Edit>, k: nat) {
    exists i :: 0 <= i < |edits| && edits[i].start <= k < edits[i].end
  }

  lemma {:induction false} Grown(sql: string, edits: seq<Edit>, limit: nat)
    requires limit <= |sql| && Apart(edits, limit)
    ensures |Rebuilt(sql, edits, limit)| == limit + Shift(edits, limit)
    decreases |edits|
  {
    if edits != [] {
      Grown(sql, edits[1..], edits[0].start);
      ShiftPast(edits[1..], edits[0].start, limit);
    }
  }

  lemma {:induction false} ShiftPast(edits: seq<Edit>, limit: nat, k: nat)
    requires Apart(edits, limit) && limit <= k
    ensures Shift(edits, k) == Shift(edits, limit)
    decreases |edits|
  {
    if edits != [] {
      ShiftPast(edits[1..], edits[0].start, k);
      ShiftPast(edits[1..], edits[0].start, limit);
    }
  }

  lemma {:induction false} TouchedStep(edits: seq<Edit>, k: nat)
    requires edits != []
    ensures Touched(edits, k) <==> edits[0].start <= k < edits[0].end || Touched(edits[1..], k)
  {
    var rest := edits[1..];
    assert forall i :: 0 < i < |edits| ==> edits[i] == rest[i - 1];
    assert forall i :: 0 <= i < |rest| ==> rest[i] == edits[i + 1];
  }

  lemma {:induction false} NotTouchedPast(edits: seq<Edit>, limit: nat, k: nat)
    requires Apart(edits, limit) && limit <= k
    ensures !Touched(edits, k)
    decreases |edits|
  {
    if edits != [] {
      NotTouchedPast(edits[1..], edits[0].start, k);
      TouchedStep(edits, k);
    }
  }

  /** A character that no edit covers is in the result, moved by the edits on its left only. */
  lemma {:induction false} OthersUnchanged(sql: string, edits: seq<Edit>, limit: nat, k: nat)
    requires limit <= |sql| && Apart(edits, limit) && k < limit && !Touched(edits, k)
    ensures 0 <= k + Shift(edits, k) < |Rebuilt(sql, edits, limit)|
    ensures Rebuilt(sql, edits, limit)[k + Shift(edits, k)] == sql[k]
    decreases |edits|
  {
    if edits != [] {
      var e, rest := edits[0], edits[1..];
      Grown(sql, rest, e.start);
      if k < e.start {
        TouchedStep(edits, k);
        OthersUnchanged(sql, rest, e.start, k);
      } else {
        assert edits[0].start <= k;
        ShiftPast(rest, e.start, k);
      }
    }
  }

  lemma {:induction false} SliceOfPrefix(a: string, b: string, c: string, at: nat, n: nat)
    requires at + n <= |a|
    ensures (a + b + c)[at..at + n] == a[at..at + n]
  {
  }

  lemma {:induction false} RebuiltStep(sql: string, edits: seq<Edit>, limit: nat)
    requires limit <= |sql| && edits != [] && Apart(edits, limit)
    ensures var e, rest := edits[0], edits[1..];
      e.start <= e.end <= limit && Apart(rest, e.start)
      && Rebuilt(sql, edits, limit) == Rebuilt(sql, rest, e.start) + e.text + sql[e.end..limit]
  {
  }

  lemma {:induction false} ShiftStep(edits: seq<Edit>, k: nat)
    requires edits != []
    ensures Shift(edits, k)
      == (if edits[0].end <= k then |edits[0].text| - (edits[0].end - edits[0].start) else 0) + Shift(edits[1..], k)
  {
  }

  lemma {:induction false} SliceOfMiddle(a: string, b: string, c: string, from: nat, n: nat)
    requires from + n <= |b|
    ensures (a + b + c)[|a| + from..|a| + from + n] == b[from..from + n]
  {
  }

  /** The text of each edit is in the result, in place of what it covers. */
  lemma {:induction false} EditsAreMade(sql: string, edits: seq<Edit>, limit: nat, i: nat)
    requires limit <= |sql| && Apart(edits, limit) && i < |edits|
    ensures var e := edits[i]; var at := e.start + Shift(edits[i + 1..], e.start);
      0 <= at && at + |e.text| <= |Rebuilt(sql, edits, limit)|
        && Rebuilt(sql, edits, limit)[at..at + |e.text|] == e.text
    decreases |edits|
  {
    hide Rebuilt, Shift, Apart;
    RebuiltStep(sql, edits, limit);
    var last, rest := edits[0], edits[1..];
    var left := Rebuilt(sql, rest, last.start);
    Grown(sql, rest, last.start);
    if i > 0 {
      EditsAreMade(sql, rest, last.start, i - 1);
      assert rest[i - 1] == edits[i] && rest[i..] == edits[i + 1..];
      var at := edits[i].start + Shift(edits[i + 1..], edits[i].start);
      SliceOfPrefix(left, last.text, sql[last.end..limit], at, |edits[i].text|);
    } else {
      SliceOfMiddle(left, last.text, sql[last.end..limit], 0, |last.text|);
      assert last.text[0..|last.text|] == last.text;
    }
  }

  /** An edit is left out only for one that was made on its right and begins before its end. */
  lemma {:induction false} LeftOutOnlyForOverlap(edits: seq<Edit>, limit: nat, e: Edit)
    requires e in edits && e !in Kept(edits, limit)
    ensures e.end > limit || exists k :: k in Kept(edits, limit) && k.start < e.end
  {
    if edits[0] == e {
    } else if edits[0].end > limit {
      LeftOutOnlyForOverlap(edits[1..], limit, e);
    } else {
      LeftOutOnlyForOverlap(edits[1..], edits[0].start, e);
      assert edits[0] in Kept(edits, limit);
    }
  }

  /** Edits that are not empty and do not overlap, unless they are the same, are all made. */
  lemma {:induction false} NothingIsLeftOut(edits: seq<Edit>, size: nat, e: Edit)
    requires Inside(edits, size) && e in edits
    requires forall a, b :: a in edits && b in edits && a != b ==> a.end <= b.start || b.end <= a.start
    requires forall a :: a in edits ==> a.start < a.end
    ensures e in Kept(SortEdits(edits), size)
  {
    var sorted := SortEdits(edits);
    SortedEdits(edits);
    AllMade(sorted, size, e);
  }

  lemma {:induction false} AllMade(sorted: seq<Edit>, limit: nat, e: Edit)
    requires e in sorted && (forall a :: a in sorted ==> a.start < a.end)
    requires forall i, j :: 0 <= i < j < |sorted| ==> sorted[i].start >= sorted[j].start
    requires forall a, b :: a in sorted && b in sorted && a != b ==> a.end <= b.start || b.end <= a.start
    requires e.end <= limit
    ensures e in Kept(sorted, limit)
  {
    var first, rest := sorted[0], sorted[1..];
    if first != e {
      assert e in rest;
      assert e.start <= first.start by { var j :| 0 <= j < |sorted| && sorted[j] == e; }
      assert e.end <= first.start;
      AllMade(rest, if first.end > limit then limit else first.start, e);
    }
  }
}
