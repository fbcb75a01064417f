/** How often a stream of bytes scrolls each grid, and what that says about sharing and snapshots. */
module ScreenScrolls {
  import opened Texts
  import opened Screen
  import opened ScreenLaws
  import opened ScreenSnapshot

  predicate OnMain(s: Screen) {
    !(s.useAlt && s.alt.Some?)
  }

  /** The cursor leaves the bottom row. */
  predicate LeavesBottom(s: Screen) {
    Wrap64(s.curY + 1) >= s.rows
  }

  /** Writing the first token of p scrolls the shown grid: a line feed, or a glyph in the last column, on the bottom
      row or below. */
  predicate Scrolls(s: Screen, p: Bytes)
    requires p != []
  {
    && CsiFinal(p).None? && LeavesBottom(s)
    && (p[0] == 0x0a || (p[0] >= SPACE && Wrap64(s.curX + 1) >= s.cols))
  }

  predicate ScrollsMain(s: Screen, p: Bytes)
    requires p != []
  {
    OnMain(s) && Scrolls(s, p)
  }

  /** The first token of p is the sequence that shows a new alternate grid. */
  predicate EntersAlt(p: Bytes)
    requires p != []
  {
    match CsiFinal(p) case None => false case Some(j) => p[j] == 'h' as int && ContainsText(p[2..j], ALT_SCREEN)
  }

  /** The scrolls of the main grid along the tokens of p. */
  function MainScrolls(s: Screen, p: Bytes): nat
    requires Fits(s)
    decreases |p|
  {
    if p == [] then 0
    else (if ScrollsMain(s, p) then 1 else 0) + MainScrolls(WriteToken(s, p), p[Token(p)..])
  }

  lemma ScrollStep(s: Screen, p: Bytes)
    requires Fits(s) && p != []
    ensures var r := WriteToken(s, p);
      r.rows == s.rows && r.main.shared == if ScrollsMain(s, p) then Min(s.main.shared + 1, s.rows) else s.main.shared
  {
    hide FreshGrid, Split, ContainsText, Blank, ParamInt, SkipRange;
  }

  /** After any bytes the bottom min(j + n, rows) rows are one row, where j were before and n is the number of
      scrolls. */
  lemma {:induction false} SharedCountsScrolls(s: Screen, p: Bytes)
    requires Fits(s)
    ensures Written(s, p).rows == s.rows && Written(s, p).main.shared == Min(s.main.shared + MainScrolls(s, p), s.rows)
    decreases |p|
  {
    hide *;
    SharedFits(s);
    if p == [] {
      NothingScrolls(s, p);
    } else {
      var r, rest := WriteToken(s, p), p[Token(p)..];
      ScrollStep(s, p);
      Unfolded(s, p, r, rest);
      SharedCountsScrolls(r, rest);
    }
    Capped(s.main.shared, if p == [] then 0 else MainScrolls(WriteToken(s, p), p[Token(p)..]), s.rows);
  }

  lemma SharedFits(s: Screen)
    requires Fits(s)
    ensures s.main.shared <= s.rows
  {
  }

  lemma NothingScrolls(s: Screen, p: Bytes)
    requires Fits(s) && p == []
    ensures Written(s, p) == s && MainScrolls(s, p) == 0
  {
  }

  lemma Capped(shared: nat, n: nat, rows: nat)
    requires shared <= rows
    ensures Min(shared + n, rows) <= rows && Min(Min(shared + 1, rows) + n, rows) == Min(shared + (1 + n), rows)
    ensures Min(shared + (0 + n), rows) == Min(shared + n, rows) && Min(shared, rows) == shared
      && Min(shared + 0, rows) == shared
  {
  }

  lemma Unfolded(s: Screen, p: Bytes, r: Screen, rest: Bytes)
    requires Fits(s) && p != [] && r == WriteToken(s, p) && rest == p[Token(p)..]
    ensures Written(s, p) == Written(r, rest)
    ensures MainScrolls(s, p) == (if ScrollsMain(s, p) then 1 else 0) + MainScrolls(r, rest)
  {
    hide WriteToken, ScrollsMain, Token, Fits;
  }

  /** The scrolls of the alternate grid since it was last made, along the tokens of p; n is their number so far. */
  function AltScrolls(s: Screen, p: Bytes, n: nat): nat
    requires Fits(s)
    decreases |p|
  {
    if p == [] then n
    else
      AltScrolls(WriteToken(s, p), p[Token(p)..],
                 if EntersAlt(p) then 0 else if !OnMain(s) && Scrolls(s, p) then n + 1 else n)
  }

  predicate AltShares(s: Screen, n: nat) {
    !OnMain(s) ==> s.alt.value.shared == Min(1 + n, s.rows)
  }

  lemma AltStep(s: Screen, p: Bytes, n: nat)
    requires Fits(s) && p != [] && AltShares(s, n)
    ensures WriteToken(s, p).rows == s.rows
    ensures AltShares(WriteToken(s, p), if EntersAlt(p) then 0 else if !OnMain(s) && Scrolls(s, p) then n + 1 else n)
  {
    hide Split, ContainsText, Blank, ParamInt, SkipRange;
  }

  /** The same count for the alternate grid while it is shown: its bottom min(1 + n, rows) rows are one row, where n is
      the number of its scrolls since it was last made. */
  lemma {:induction false} AltCountsScrolls(s: Screen, p: Bytes, n: nat)
    requires Fits(s) && AltShares(s, n)
    ensures Written(s, p).rows == s.rows && AltShares(Written(s, p), AltScrolls(s, p, n))
    decreases |p|
  {
    hide AltShares, WriteToken, Fits, Scrolls, EntersAlt;
    if p == [] {
      assert Written(s, p) == s;
    } else {
      AltStep(s, p, n);
      AltCountsScrolls(WriteToken(s, p), p[Token(p)..],
                       if EntersAlt(p) then 0 else if !OnMain(s) && Scrolls(s, p) then n + 1 else n);
    }
  }

  lemma NewIsUnscrolled(cols: int, rows: int)
    requires rows <= MAX_INT
    ensures var s := NewScreen(cols, rows); Fits(s) && ScreenSevenBit(s) && s.main.shared == 1 && s.rows <= MAX_INT
  {
  }

  /** A 7-bit screen on its main grid, with the sharing its scrolls made. */
  lemma SharedDecides(s: Screen, n: nat, t: Screen)
    requires Fits(s) && !s.useAlt && GridSevenBit(s.main) && s.rows <= MAX_INT && s.main.shared == Min(1 + n, s.rows)
    ensures Fits(Restored(t, SnapshotOf(s)))
    ensures Indistinguishable(s, Restored(t, SnapshotOf(s))) <==> n == 0 || s.rows == 1
  {
    RestoreSimulatesIff(s, t);
    hide SnapshotOf, Restored, Indistinguishable;
  }

  /** Whatever was written to a new screen, as long as it was 7-bit and the main grid is shown: the restored screen
      gives the same snapshots for ever if and only if the main grid was never scrolled, or has a single row. */
  lemma UnscrolledQualifies(cols: int, rows: int, p: Bytes, t: Screen)
    requires SevenBit(p) && rows <= MAX_INT && !Written(NewScreen(cols, rows), p).useAlt
    ensures var first := NewScreen(cols, rows);
      var s := Written(first, p);
      && Fits(Restored(t, SnapshotOf(s)))
      && (Indistinguishable(s, Restored(t, SnapshotOf(s))) <==> MainScrolls(first, p) == 0 || s.rows == 1)
  {
    hide NewScreen, Written, SnapshotOf, Restored, MainScrolls, Fits, GridSevenBit, SevenBit, Indistinguishable;
    var first := NewScreen(cols, rows);
    NewIsUnscrolled(cols, rows);
    SevenBitWritten(first, p);
    SharedCountsScrolls(first, p);
    var s := Written(first, p);
    SharedDecides(s, MainScrolls(first, p), t);
  }
}
