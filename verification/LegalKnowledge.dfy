/** Cutting a legal text in overlapping chunks (legal-knowledge.ts). */
module LegalKnowledge {
  import opened Basics
  import opened Strings

  datatype Window = Window(start: nat, end: nat)

  /** A pattern of two characters. */
  predicate At(s: string, pattern: string, i: int)
    ensures At(s, pattern, i) <==> |pattern| == 2 && 0 <= i <= |s| - 2 && s[i..i + 2] == pattern
  {
    |pattern| == 2 && 0 <= i && i + 2 <= |s| && s[i] == pattern[0] && s[i + 1] == pattern[1]
  }

  /** The last place of a pattern up to `i`, -1 without any. */
  function LastFrom(s: string, pattern: string, i: int): (k: int)
    requires -1 <= i
    ensures k == -1 || At(s, pattern, k)
    ensures -1 <= k <= i && forall j :: k < j <= i ==> !At(s, pattern, j)
  {
    if i < 0 then -1 else if At(s, pattern, i) then i else LastFrom(s, pattern, i - 1)
  }

  function LastIndexOf(s: string, pattern: string): (k: int)
    ensures k == -1 || At(s, pattern, k)
    ensures forall j :: k < j ==> !At(s, pattern, j)
  {
    LastFrom(s, pattern, |s|)
  }

  /** The end of a paragraph, of a sentence or of a clause that comes last. */
  function Boundary(s: string): (k: int)
    ensures -1 <= k && (k >= 0 ==> k + 2 <= |s|)
  {
    Max(LastIndexOf(s, "\n\n"), Max(LastIndexOf(s, ". "), LastIndexOf(s, "; ")))
  }

  /** At most `maxChars` characters, cut after a boundary when there is one in the last part of them. */
  function WindowEnd(text: string, cursor: nat, maxChars: nat): (end: nat)
    requires cursor < |text| && maxChars > 0
    ensures cursor < end <= |text| && end <= cursor + maxChars
  {
    if cursor + maxChars >= |text| then |text|
    else
      var boundary := Boundary(text[cursor..cursor + maxChars]);
      if boundary >= maxChars * 55 / 100 then cursor + boundary + 1 else cursor + maxChars
  }

  predicate BoundaryAt(s: string, k: int) {
    At(s, "\n\n", k) || At(s, ". ", k) || At(s, "; ", k)
  }

  lemma {:induction false} BoundaryIsLast(s: string)
    ensures Boundary(s) == -1 || BoundaryAt(s, Boundary(s))
    ensures forall k :: Boundary(s) < k ==> !BoundaryAt(s, k)
  {
  }

  /**
   Before the end of the text, a window is full, without a boundary in its last part, or it ends just
   after the first character of the last boundary in it.
   */
  lemma {:induction false} CutsAfterBoundary(text: string, cursor: nat, maxChars: nat)
    requires maxChars > 0 && cursor + maxChars < |text|
    ensures var s, n := text[cursor..cursor + maxChars], WindowEnd(text, cursor, maxChars) - cursor;
      && (n < maxChars ==> BoundaryAt(s, n - 1) && n - 1 >= maxChars * 55 / 100 && forall k ::
          n <= k ==> !BoundaryAt(s, k))
      && (n == maxChars ==> forall k :: maxChars * 55 / 100 <= k ==> !BoundaryAt(s, k))
  {
    BoundaryIsLast(text[cursor..cursor + maxChars]);
  }

  function NextCursor(cursor: nat, end: nat, overlap: nat): (next: nat)
    ensures cursor < next
  {
    Max(cursor + 1, end - overlap)
  }

  function Windows(text: string, cursor: nat, maxChars: nat, overlap: nat): seq<Window>
    requires maxChars > 0
    decreases |text| - cursor
  {
    if cursor >= |text| then []
    else
      var end := WindowEnd(text, cursor, maxChars);
      [Window(cursor, end)] + if end >= |text| then []
        else Windows(text, NextCursor(cursor, end, overlap), maxChars, overlap)
  }

  function ChunkOf(text: string, w: Window): seq<string>
    requires w.start <= w.end <= |text|
  {
    var chunk := Trim(text[w.start..w.end]);
    if chunk == [] then [] else [chunk]
  }

  predicate Inside(text: string, windows: seq<Window>) {
    forall i :: 0 <= i < |windows| ==> windows[i].start <= windows[i].end <= |text|
  }

  function Chunks(text: string, windows: seq<Window>): seq<string>
    requires Inside(text, windows)
  {
    if windows == [] then [] else ChunkOf(text, windows[0]) + Chunks(text, windows[1..])
  }

  /** From `cursor` to the end of the text, each window starting in the one before or where it ends. */
  predicate Chained(text: string, windows: seq<Window>, cursor: nat, maxChars: nat) {
    && windows != [] && windows[0].start == cursor && windows[|windows| - 1].end == |text|
    && (forall i | 0 <= i < |windows| ::
          windows[i].start < windows[i].end <= |text| && windows[i].end - windows[i].start <= maxChars)
    && (forall i :: 1 <= i < |windows| ==> windows[i - 1].start < windows[i].start <= windows[i - 1].end)
  }

  lemma {:induction false} WindowsStep(text: string, cursor: nat, maxChars: nat, overlap: nat)
    requires maxChars > 0
    ensures Windows(text, cursor, maxChars, overlap) ==
      if cursor >= |text| then []
      else
        var end := WindowEnd(text, cursor, maxChars);
        if end >= |text| then [Window(cursor, end)]
        else [Window(cursor, end)] + Windows(text, NextCursor(cursor, end, overlap), maxChars, overlap)
  {
    hide WindowEnd;
  }

  lemma {:induction false} ChainedCons(text: string, w: Window, rest: seq<Window>, next: nat, maxChars: nat)
    requires Chained(text, rest, next, maxChars)
    requires w.start < next <= w.end <= |text| && w.end - w.start <= maxChars
    ensures Chained(text, [w] + rest, w.start, maxChars)
  {
    var all := [w] + rest;
    assert all[0] == w && forall i :: 1 <= i < |all| ==> all[i] == rest[i - 1];
    forall i | 0 <= i < |all| ensures all[i].start < all[i].end <= |text| && all[i].end - all[i].start <= maxChars {
      if i > 0 { assert all[i] == rest[i - 1]; }
    }
    forall i | 1 <= i < |all| ensures all[i - 1].start < all[i].start <= all[i - 1].end {
      assert all[i] == rest[i - 1];
      if i > 1 { assert all[i - 1] == rest[i - 2]; }
    }
  }

  lemma {:induction false} WindowsAreChained(text: string, cursor: nat, maxChars: nat, overlap: nat)
    requires maxChars > 0 && cursor < |text|
    ensures Chained(text, Windows(text, cursor, maxChars, overlap), cursor, maxChars)
    decreases |text| - cursor
  {
    var end := WindowEnd(text, cursor, maxChars);
    hide WindowEnd, Windows;
    WindowsStep(text, cursor, maxChars, overlap);
    if end < |text| {
      var next := NextCursor(cursor, end, overlap);
      WindowsAreChained(text, next, maxChars, overlap);
      ChainedCons(text, Window(cursor, end), Windows(text, next, maxChars, overlap), next, maxChars);
    }
  }

  /** `chunkLegalText` on a text already cleaned. */
  method ChunkLegalText(text: string, maxChars: nat, overlap: nat) returns (chunks: seq<string>)
    requires maxChars > 0
    ensures var windows := Windows(text, 0, maxChars, overlap);
      (text != [] ==> Chained(text, windows, 0, maxChars)) && Inside(text, windows) && chunks == Chunks(text, windows)
  {
    hide WindowEnd, Windows, Chunks, Chained, Trim, NextCursor, Inside;
    ghost var windows := [];
    chunks := [];
    NoChunk(text);
    WindowsStep(text, 0, maxChars, overlap);
    if text == [] { return; }
    WindowsAreChained(text, 0, maxChars, overlap);
    var cursor: nat := 0;
    while cursor < |text|
      invariant windows + Windows(text, cursor, maxChars, overlap) == Windows(text, 0, maxChars, overlap)
      invariant cursor >= |text| ==> Windows(text, cursor, maxChars, overlap) == []
      invariant Inside(text, windows) && chunks == Chunks(text, windows)
      decreases |text| - cursor
    {
      WindowsStep(text, cursor, maxChars, overlap);
      var end := WindowEnd(text, cursor, maxChars);
      var chunk := Trim(text[cursor..end]);
      ChunksAppend(text, windows, Window(cursor, end));
      windows := windows + [Window(cursor, end)];
      if chunk != [] { chunks := chunks + [chunk]; }
      if end >= |text| {
        assert windows == Windows(text, 0, maxChars, overlap);
        break;
      }
      cursor := NextCursor(cursor, end, overlap);
      WindowsStep(text, cursor, maxChars, overlap);
    }
    assert windows == Windows(text, 0, maxChars, overlap);
  }

  lemma {:induction false} NoChunk(text: string)
    ensures Inside(text, []) && Chunks(text, []) == []
  {
  }

  lemma {:induction false} ChunksAppend(text: string, windows: seq<Window>, w: Window)
    requires w.start <= w.end <= |text| && Inside(text, windows)
    ensures Inside(text, windows + [w]) && Chunks(text, windows + [w]) == Chunks(text, windows) + ChunkOf(text, w)
  {
    hide ChunkOf;
    if windows == [] {
      assert [] + [w] == [w] && [w][1..] == [];
    } else {
      assert (windows + [w])[1..] == windows[1..] + [w];
      ChunksAppend(text, windows[1..], w);
    }
  }

  /** A trimmed slice is a slice, with only blanks around. */
  lemma {:induction false} TrimmedSlice(text: string, w: Window) returns (a: nat, b: nat)
    requires w.start <= w.end <= |text|
    ensures w.start <= a <= b <= w.end && Trim(text[w.start..w.end]) == text[a..b]
    ensures forall k :: w.start <= k < a || b <= k < w.end ==> Space(text[k])
  {
    hide TrimStart, TrimEnd;
    var s := text[w.start..w.end];
    var n := TrimEndLength(s);
    var m := TrimStartLength(s[..n]);
    a, b := w.start + m, w.start + n;
    SliceOfSlice(text, w, m, n);
    forall k | w.start <= k < a || b <= k < w.end ensures Space(text[k]) {
      assert text[k] == s[k - w.start];
      if k < a { assert s[k - w.start] == s[..n][k - w.start]; }
    }
  }

  lemma {:induction false} SliceOfSlice(text: string, w: Window, m: nat, n: nat)
    requires w.start <= w.end <= |text| && m <= n <= w.end - w.start
    ensures text[w.start..w.end][..n][m..] == text[w.start + m..w.start + n]
  {
    var s := text[w.start..w.end];
    assert s[..n] == text[w.start..w.start + n];
  }

  lemma {:induction false} TrimEndLength(s: string) returns (n: nat)
    ensures n <= |s| && TrimEnd(s) == s[..n] && forall k :: n <= k < |s| ==> Space(s[k])
  {
    if s != [] && Space(s[|s| - 1]) { n := TrimEndLength(s[..|s| - 1]); } else { n := |s|; }
  }

  lemma {:induction false} TrimStartLength(s: string) returns (n: nat)
    ensures n <= |s| && TrimStart(s) == s[n..] && forall k :: 0 <= k < n ==> Space(s[k])
  {
    if s != [] && Space(s[0]) {
      var m := TrimStartLength(s[1..]);
      n := m + 1;
      assert forall k :: 1 <= k < n ==> s[k] == s[1..][k - 1];
    } else {
      n := 0;
    }
  }

  lemma {:induction false} WindowAt(text: string, windows: seq<Window>, cursor: nat, maxChars: nat, k: nat,
          from: nat) returns (i: nat)
    requires Chained(text, windows, cursor, maxChars) && from < |windows| && windows[from].start <= k < |text|
    ensures i < |windows| && windows[i].start <= k < windows[i].end
    decreases |windows| - from
  {
    if k < windows[from].end { i := from; } else { i := WindowAt(text, windows, cursor, maxChars, k, from + 1); }
  }

  /** Where the chunk of a window is. */
  lemma {:induction false} ChunkIsKept(text: string, windows: seq<Window>, i: nat)
    requires Inside(text, windows)
    requires i < |windows| && Trim(text[windows[i].start..windows[i].end]) != []
    ensures Trim(text[windows[i].start..windows[i].end]) in Chunks(text, windows)
  {
    if i > 0 { ChunkIsKept(text, windows[1..], i - 1); }
  }

  /** Every character that is not blank is in a chunk, at its place in the text. */
  lemma {:induction false} NothingIsLost(text: string, maxChars: nat, overlap: nat, k: nat) returns (a: nat, b: nat)
    requires maxChars > 0 && k < |text| && !Space(text[k])
    ensures var windows := Windows(text, 0, maxChars, overlap);
      && Chained(text, windows, 0, maxChars)
      && a <= k < b <= |text| && text[a..b] in Chunks(text, windows)
  {
    hide Chunks, Windows;
    var windows := Windows(text, 0, maxChars, overlap);
    WindowsAreChained(text, 0, maxChars, overlap);
    var i := WindowAt(text, windows, 0, maxChars, k, 0);
    a, b := TrimmedSlice(text, windows[i]);
    ChunkIsKept(text, windows, i);
  }

  /** Every chunk is a slice of the text, neither empty nor longer than allowed, with no blank at its ends. */
  lemma {:induction false} ChunksAreSlices(text: string, windows: seq<Window>, maxChars: nat)
    requires Inside(text, windows) && forall i :: 0 <= i < |windows| ==> windows[i].end - windows[i].start <= maxChars
    ensures forall c :: c in Chunks(text, windows) ==> c != [] && |c| <= maxChars && Trim(c) == c && exists a ::
        IsSliceAt(text, c, a)
  {
    if windows != [] {
      hide Trim, IsSliceAt;
      ChunksAreSlices(text, windows[1..], maxChars);
      var a, b := TrimmedSlice(text, windows[0]);
      SliceAt(text, a, b);
      TrimTwice(text[windows[0].start..windows[0].end]);
    }
  }

  predicate IsSliceAt(text: string, c: string, a: nat) {
    a + |c| <= |text| && text[a..a + |c|] == c
  }

  lemma {:induction false} SliceAt(text: string, a: nat, b: nat)
    requires a <= b <= |text|
    ensures IsSliceAt(text, text[a..b], a)
  {
  }

  lemma {:induction false} TrimTwice(s: string)
    ensures Trim(Trim(s)) == Trim(s)
  {
    var e := TrimEnd(s);
    var t := TrimStart(e);
    if e != [] { TrimStartKeepsEnd(e); }
    assert TrimEnd(t) == t;
  }
}
