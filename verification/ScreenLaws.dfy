/** Laws of the screen: chunking, what scrolling keeps, and what a snapshot restores. */
module ScreenLaws {
  import opened Texts
  import opened Wrappers
  import opened Screen

  /** No token of p ends inside an escape: neither a trailing ESC nor a sequence without its final byte. */
  predicate Settled(p: Bytes)
    decreases |p|
  {
    p == [] ||
    ((p[0] == ESC ==> |p| >= 2 && (p[1] == '[' as int ==> CsiFinal(p).Some?)) && Settled(p[Token(p)..]))
  }

  lemma {:induction false} SkipAppend(p: Bytes, q: Bytes, i: nat, lo: nat, hi: nat)
    requires i <= |p| && SkipRange(p, i, lo, hi) < |p|
    ensures SkipRange(p + q, i, lo, hi) == SkipRange(p, i, lo, hi)
    decreases |p| - i
  {
    if i < |p| && lo <= p[i] <= hi {
      SkipAppend(p, q, i + 1, lo, hi);
    }
  }

  lemma SettledToken(p: Bytes, q: Bytes)
    requires p != [] && Settled(p)
    ensures CsiFinal(p + q) == CsiFinal(p)
  {
    if CsiFinal(p).Some? {
      SkipAppend(p, q, 2, 0x30, 0x3f);
      SkipAppend(p, q, SkipRange(p, 2, 0x30, 0x3f), 0x20, 0x2f);
    }
  }

  /** Chunk homomorphism: writing p then q is writing p + q, whenever p ends between tokens. */
  lemma {:induction false} WriteInChunks(s: Screen, p: Bytes, q: Bytes)
    requires Fits(s) && Settled(p)
    ensures Written(s, p + q) == Written(Written(s, p), q)
    decreases |p|
  {
    if p == [] {
      assert p + q == q;
    } else {
      SettledToken(p, q);
      var n := Token(p);
      assert (p + q)[n..] == p[n..] + q;
      assert WriteToken(s, p + q) == WriteToken(s, p) by {
        if CsiFinal(p).Some? {
          assert (p + q)[2..n - 1] == p[2..n - 1];
        }
      }
      WriteInChunks(WriteToken(s, p), p[n..], q);
    }
  }

  /** The condition is needed: a cut after ESC shows the rest of the sequence as text. */
  lemma CutAfterEscape(s: Screen)
    requires s == NewScreen(4, 2)
    ensures !Settled([ESC])
    ensures Written(s, [ESC] + ['[' as int, 'H' as int]) != Written(Written(s, [ESC]), ['[' as int, 'H' as int])
  {
    WholeHome(s);
    assert [ESC] + ['[' as int, 'H' as int] == [ESC, '[' as int, 'H' as int];
    OneByte(s, ESC);
    PlainPair(s, '[' as int, 'H' as int);
  }

  /** So does a cut before the final byte. */
  lemma CutInsideSequence(s: Screen)
    requires s == NewScreen(4, 2)
    ensures !Settled([ESC, '[' as int])
      && Written(s, [ESC, '[' as int] + ['H' as int]) != Written(Written(s, [ESC, '[' as int]), ['H' as int])
  {
    WholeHome(s);
    assert [ESC, '[' as int] + ['H' as int] == [ESC, '[' as int, 'H' as int];
    PlainPair(s, ESC, '[' as int);
    OneByte(WriteByte(s, '[' as int), 'H' as int);
  }

  lemma WholeHome(s: Screen)
    requires Fits(s)
    ensures Written(s, [ESC, '[' as int, 'H' as int]) == s.(curX := 0, curY := 0)
  {
    var whole: Bytes := [ESC, '[' as int, 'H' as int];
    assert CsiFinal(whole) == Some(2) && whole[2..2] == [] && whole[3..] == [];
    assert Split([], ';' as int) == [[]];
    WrapSmall(0);
    assert WriteToken(s, whole) == MoveCursor(s, [[]]);
  }

  lemma WrapSmall(n: int)
    requires -MAX_INT - 1 <= n <= MAX_INT
    ensures Wrap64(n) == n
  {
  }

  lemma OneByte(s: Screen, b: nat)
    requires Fits(s)
    ensures Written(s, [b]) == WriteByte(s, b)
  {
    assert [b][1..] == [] && CsiFinal([b]).None?;
  }

  lemma PlainPair(s: Screen, a: nat, b: nat)
    requires Fits(s)
    ensures Fits(WriteByte(s, a)) && Written(s, [a, b]) == WriteByte(WriteByte(s, a), b)
  {
    ByteFits(s, a);
    var p := [a, b];
    assert p[1..] == [b] && CsiFinal(p).None?;
    OneByte(WriteByte(s, a), b);
  }

  /** A scroll is the usual one (lines move up, the last goes blank) exactly when the bottom line was blank or
      there is a single line: the line that leaves the bottom row is lost. */
  lemma ScrollKeepsBottomIff(g: Grid, rows: nat, cols: nat)
    requires GridFits(g, rows, cols)
    ensures ScrolledGrid(g, cols).lines == g.lines[1..] + [Blank(cols)] <==>
      rows == 1 || g.lines[rows - 1] == Blank(cols)
  {
    var r := ScrolledGrid(g, cols);
    var usual := g.lines[1..] + [Blank(cols)];
    if rows > 1 {
      assert r.lines[rows - 2] == Blank(cols) && usual[rows - 2] == g.lines[rows - 1];
      if g.lines[rows - 1] == Blank(cols) {
        forall y | 0 <= y < rows
          ensures r.lines[y] == usual[y]
        {
          if y < rows - 1 {
            assert usual[y] == g.lines[y + 1];
          }
        }
      }
    }
  }

  function Scrolls(g: Grid, cols: nat, n: nat): Grid {
    if n == 0 then g else ScrolledGrid(Scrolls(g, cols, n - 1), cols)
  }

  function Min(a: nat, b: nat): nat {
    if a <= b then a else b
  }

  /** The unshared lines are the ones `n` rows further down, everything else is blank. */
  predicate ShiftedUp(g: Grid, r: Grid, cols: nat, n: nat) {
    |r.lines| == |g.lines| && forall y :: 0 <= y < |r.lines| ==>
      r.lines[y] == if y < |r.lines| - r.shared && y + n < |g.lines| then g.lines[y + n] else Blank(cols)
  }

  lemma ScrolledShifts(g: Grid, r: Grid, cols: nat)
    requires r == ScrolledGrid(g, cols)
    ensures ShiftedUp(g, r, cols, 1)
  {
  }

  lemma {:induction false} ScrollsFit(g: Grid, rows: nat, cols: nat, n: nat)
    requires GridFits(g, rows, cols)
    ensures GridFits(Scrolls(g, cols, n), rows, cols) && Scrolls(g, cols, n).shared == Min(g.shared + n, rows)
  {
    if n == 0 {
    } else {
      ScrollsFit(g, rows, cols, n - 1);
      ScrollFits(Scrolls(g, cols, n - 1), rows, cols);
    }
  }

  lemma {:induction false} ScrollsShift(g: Grid, rows: nat, cols: nat, n: nat)
    requires GridFits(g, rows, cols) && n > 0
    ensures ShiftedUp(g, Scrolls(g, cols, n), cols, n)
  {
    var before, after := Scrolls(g, cols, n - 1), Scrolls(g, cols, n);
    ScrolledShifts(before, after, cols);
    if n <= 1 {
    } else {
      ScrollsShift(g, rows, cols, n - 1);
      ScrollsFit(g, rows, cols, n - 1);
      ShiftsAdd(g, before, after, cols, n - 1);
    }
  }

  /** n > 0 scrolls of a grid with j shared rows share min(j + n, rows) of them, keep the unshared lines n rows
      up, and leave everything else blank. */
  lemma ScrollTimes(g: Grid, rows: nat, cols: nat, n: nat)
    requires GridFits(g, rows, cols) && n > 0
    ensures var r := Scrolls(g, cols, n);
      GridFits(r, rows, cols) && r.shared == Min(g.shared + n, rows) && ShiftedUp(g, r, cols, n)
  {
    ScrollsFit(g, rows, cols, n);
    ScrollsShift(g, rows, cols, n);
  }

  lemma ShiftsAdd(g: Grid, h: Grid, r: Grid, cols: nat, n: nat)
    requires ShiftedUp(g, h, cols, n) && r == ScrolledGrid(h, cols)
    requires ShiftedUp(h, r, cols, 1)
    ensures ShiftedUp(g, r, cols, n + 1)
  {
    forall y | 0 <= y < |r.lines|
      ensures r.lines[y] == if y < |r.lines| - r.shared && y + (n + 1) < |g.lines| then g.lines[y + (n + 1)]
        else Blank(cols)
    {
      if y < |r.lines| - r.shared && y + 1 < |h.lines| {
        assert r.lines[y] == h.lines[y + 1];
        assert y + 1 + n == y + (n + 1);
      }
    }
  }

  /** Two grids nobody can tell apart: the same sharing, and cells equal up to unwritten and space. */
  predicate GridsAlike(g: Grid, h: Grid) {
    && g.shared == h.shared && |g.lines| == |h.lines|
    && forall y :: 0 <= y < |g.lines| ==> VisibleLine(g.lines[y]) == VisibleLine(h.lines[y])
  }

  predicate Alike(s: Screen, t: Screen) {
    && s.cols == t.cols && s.rows == t.rows && s.curX == t.curX && s.curY == t.curY && s.useAlt == t.useAlt
    && GridsAlike(s.main, t.main)
    && (s.useAlt ==> (s.alt.Some? <==> t.alt.Some?) && (s.alt.Some? ==> GridsAlike(s.alt.value, t.alt.value)))
  }

  lemma AlikePut(g: Grid, h: Grid, rows: nat, cols: nat, y: nat, x: nat, r: Rune)
    requires GridsAlike(g, h) && GridFits(g, rows, cols) && GridFits(h, rows, cols) && y < rows && x < cols
    ensures GridsAlike(PutCell(g, y, x, r), PutCell(h, y, x, r))
  {
    var a, b := PutCell(g, y, x, r), PutCell(h, y, x, r);
    forall z | 0 <= z < rows
      ensures VisibleLine(a.lines[z]) == VisibleLine(b.lines[z])
    {
      assert VisibleLine(g.lines[z]) == VisibleLine(h.lines[z]);
      if SameRow(g, z, y) {
        assert VisibleLine(g.lines[z][x := r]) == VisibleLine(g.lines[z])[x := Visible(r)];
        assert VisibleLine(h.lines[z][x := r]) == VisibleLine(h.lines[z])[x := Visible(r)];
      }
    }
  }

  lemma AlikeScroll(g: Grid, h: Grid, rows: nat, cols: nat)
    requires GridsAlike(g, h) && GridFits(g, rows, cols) && GridFits(h, rows, cols)
    ensures GridsAlike(ScrolledGrid(g, cols), ScrolledGrid(h, cols))
  {
    var a, b := ScrolledGrid(g, cols), ScrolledGrid(h, cols);
    forall y | 0 <= y < rows
      ensures VisibleLine(a.lines[y]) == VisibleLine(b.lines[y])
    {
      if y < rows - a.shared {
        assert a.lines[y] == g.lines[y + 1] && b.lines[y] == h.lines[y + 1];
        assert VisibleLine(g.lines[y + 1]) == VisibleLine(h.lines[y + 1]);
      }
    }
  }

  lemma AlikeNextLine(s: Screen, t: Screen)
    requires Alike(s, t) && Fits(s) && Fits(t)
    ensures Alike(NextLine(s), NextLine(t))
  {
    AlikeScroll(ActiveGrid(s), ActiveGrid(t), s.rows, s.cols);
  }

  lemma AlikeByte(s: Screen, t: Screen, b: nat)
    requires Alike(s, t) && Fits(s) && Fits(t)
    ensures Alike(WriteByte(s, b), WriteByte(t, b))
  {
    if b == 0x0a {
      AlikeNextLine(s, t);
    } else if b >= SPACE {
      var s1, t1 := s, t;
      if 0 <= s.curY < s.rows && 0 <= s.curX < s.cols {
        AlikePut(ActiveGrid(s), ActiveGrid(t), s.rows, s.cols, s.curY, s.curX, b);
        PutFits(ActiveGrid(s), s.rows, s.cols, s.curY, s.curX, b);
        PutFits(ActiveGrid(t), s.rows, s.cols, s.curY, s.curX, b);
        s1 := WithActive(s, PutCell(ActiveGrid(s), s.curY, s.curX, b));
        t1 := WithActive(t, PutCell(ActiveGrid(t), s.curY, s.curX, b));
      }
      AlikeNextLine(s1.(curX := 0), t1.(curX := 0));
    }
  }

  lemma AlikeCsi(s: Screen, t: Screen, cmd: nat, params: Bytes)
    requires Alike(s, t) && Fits(s) && Fits(t)
    ensures Alike(ApplyCsi(s, cmd, params), ApplyCsi(t, cmd, params))
  {
  }

  /** Whatever is written next, screens that look alike keep looking alike. */
  lemma {:induction false} AlikeForever(s: Screen, t: Screen, p: Bytes)
    requires Alike(s, t) && Fits(s) && Fits(t)
    ensures Alike(Written(s, p), Written(t, p))
    decreases |p|
  {
    if p == [] {
    } else {
      match CsiFinal(p) {
        case Some(j) => AlikeCsi(s, t, p[j], p[2..j]);
        case None => AlikeByte(s, t, p[0]);
      }
      AlikeForever(WriteToken(s, p), WriteToken(t, p), p[Token(p)..]);
    }
  }

  lemma AlikeSnapshots(s: Screen, t: Screen)
    requires Alike(s, t) && Fits(s) && Fits(t)
    ensures SnapshotOf(s) == SnapshotOf(t)
  {
    var g, h := ActiveGrid(s), ActiveGrid(t);
    forall y | 0 <= y < |g.lines|
      ensures SnapshotOf(s).cells[y] == SnapshotOf(t).cells[y]
    {
      assert VisibleLine(g.lines[y]) == VisibleLine(h.lines[y]);
    }
    assert SnapshotOf(s).cells == SnapshotOf(t).cells;
  }

  predicate SevenBit(t: seq<Rune>) {
    forall i :: 0 <= i < |t| ==> t[i] < 0x80
  }

  predicate GridSevenBit(g: Grid) {
    forall y :: 0 <= y < |g.lines| ==> SevenBit(g.lines[y])
  }

  predicate ScreenSevenBit(s: Screen) {
    GridSevenBit(s.main) && (s.alt.Some? ==> GridSevenBit(s.alt.value))
  }

  lemma SevenBitByte(s: Screen, b: nat)
    requires Fits(s) && ScreenSevenBit(s) && b < 0x80
    ensures ScreenSevenBit(WriteByte(s, b))
  {
    var g := ActiveGrid(s);
    SevenBitScroll(g, s.rows, s.cols);
    if b >= SPACE && 0 <= s.curY < s.rows && 0 <= s.curX < s.cols {
      PutFits(g, s.rows, s.cols, s.curY, s.curX, b);
      SevenBitPut(g, s.rows, s.cols, s.curY, s.curX, b);
      SevenBitScroll(PutCell(g, s.curY, s.curX, b), s.rows, s.cols);
    }
  }

  lemma SevenBitScroll(g: Grid, rows: nat, cols: nat)
    requires GridFits(g, rows, cols) && GridSevenBit(g)
    ensures GridSevenBit(ScrolledGrid(g, cols))
  {
    var r := ScrolledGrid(g, cols);
    forall y | 0 <= y < rows
      ensures SevenBit(r.lines[y])
    {
      if y < rows - r.shared {
        assert r.lines[y] == g.lines[y + 1];
        assert SevenBit(g.lines[y + 1]);
      } else {
        assert r.lines[y] == Blank(cols);
      }
    }
  }

  lemma SevenBitPut(g: Grid, rows: nat, cols: nat, y: nat, x: nat, r: Rune)
    requires GridFits(g, rows, cols) && GridSevenBit(g) && y < rows && x < cols && r < 0x80
    ensures GridSevenBit(PutCell(g, y, x, r))
  {
    forall z | 0 <= z < rows
      ensures SevenBit(PutCell(g, y, x, r).lines[z])
    {
      assert SevenBit(g.lines[z]);
    }
  }

  /** Writing only 7-bit bytes to a 7-bit screen keeps it 7-bit. */
  lemma {:induction false} SevenBitWritten(s: Screen, p: Bytes)
    requires Fits(s) && ScreenSevenBit(s) && SevenBit(p)
    ensures ScreenSevenBit(Written(s, p))
    decreases |p|
  {
    if p == [] {
    } else {
      match CsiFinal(p) {
        case Some(j) => SevenBitCsi(s, p[j], p[2..j]);
        case None => SevenBitByte(s, p[0]);
      }
      SevenBitWritten(WriteToken(s, p), p[Token(p)..]);
    }
  }

  lemma SevenBitCsi(s: Screen, cmd: nat, params: Bytes)
    requires Fits(s) && ScreenSevenBit(s)
    ensures ScreenSevenBit(ApplyCsi(s, cmd, params))
  {
  }
}
