/** What each byte and control sequence does to the cursor and the cells of a screen. */
module ScreenEffects {
  import opened Texts
  import opened Wrappers
  import opened Screen
  import opened ScreenControls
  import opened ScreenLaws

  /** The cursor is a pair of the code's 64-bit integers. */
  predicate InInt(s: Screen) {
    -MAX_INT - 1 <= s.curX <= MAX_INT && -MAX_INT - 1 <= s.curY <= MAX_INT
  }

  /** The cell a viewer sees: of the alternate grid while it is shown, else of the main one. */
  function Cell(s: Screen, y: int, x: int): Rune
    requires Fits(s) && 0 <= y < s.rows && 0 <= x < s.cols
  {
    if s.useAlt && s.alt.Some? then s.alt.value.lines[y][x] else s.main.lines[y][x]
  }

  function Shared(s: Screen): nat {
    if s.useAlt && s.alt.Some? then s.alt.value.shared else s.main.shared
  }

  /** Two rows of the shown grid are one row. */
  predicate OneRow(s: Screen, y: int, z: int) {
    y == z || (s.rows - Shared(s) <= y && s.rows - Shared(s) <= z)
  }

  /** The same size and the same grid shown; the grid not shown is as it was. */
  predicate SameFrame(s: Screen, r: Screen) {
    && r.cols == s.cols && r.rows == s.rows && r.useAlt == s.useAlt && (r.alt.Some? <==> s.alt.Some?)
    && (if s.useAlt && s.alt.Some? then r.main == s.main else r.alt == s.alt)
  }

  predicate SameCells(s: Screen, r: Screen)
    requires Fits(s) && Fits(r) && r.rows == s.rows && r.cols == s.cols
  {
    forall y, x :: 0 <= y < s.rows && 0 <= x < s.cols ==> Cell(r, y, x) == Cell(s, y, x)
  }

  /** A new screen has the given size, or 80 columns or 24 rows where none is given, and shows nothing. */
  lemma NewScreenIs(cols: int, rows: int)
    ensures var s := NewScreen(cols, rows);
      && Fits(s) && s.cols == (if cols > 0 then cols else 80) && s.rows == (if rows > 0 then rows else 24)
      && s.curX == 0 && s.curY == 0 && !s.useAlt && s.alt.None? && s.main.shared == 1
      && forall y, x :: 0 <= y < s.rows && 0 <= x < s.cols ==> Cell(s, y, x) == 0
  {
  }

  /** A carriage return goes to the first column; any other control byte but tab and line feed does nothing. */
  lemma ControlBytes(s: Screen, b: nat)
    requires Fits(s) && b < SPACE && b != 0x09 && b != 0x0a
    ensures Written(s, [b]) == if b == 0x0d then s.(curX := 0) else s
  {
    OneByte(s, b);
  }

  /** The code's integers wrap around at their ends. */
  lemma WrapIs(n: int)
    requires -MAX_INT - 1 <= n <= MAX_INT + 1
    ensures Wrap64(n) == if n > MAX_INT then -MAX_INT - 1 else n
  {
  }

  lemma TabStop(c: int, x: int)
    requires x % 8 == 0 && (if c >= 0 then c < x <= c + 8 else c + 8 <= x < c + 16)
    ensures (TruncDiv(c, 8) + 1) * 8 == x
  {
    var k := x / 8;
    assert x == 8 * k;
    if c >= 0 {
      assert c / 8 == k - 1;
    } else {
      assert (-c) / 8 == 1 - k;
    }
  }

  /** A tab goes to the next column that is a multiple of 8, or to the last one if there is none; the sum wraps around
      as an integer of the code, and left of the grid the count of columns is cut toward 0. */
  lemma TabGoes(s: Screen, x: int)
    requires Fits(s) && InInt(s) && x % 8 == 0
    requires if s.curX >= 0 then s.curX < x <= s.curX + 8 else s.curX + 8 <= x < s.curX + 16
    ensures Written(s, [0x09])
      == s.(curX := if x > MAX_INT then -MAX_INT - 1 else if x >= s.cols then s.cols - 1 else x)
  {
    OneByte(s, 0x09);
    TabStop(s.curX, x);
    WrapIs(x);
    hide Written, TruncDiv, Wrap64, Fits;
  }

  /** Every line shows what the one below it did, but the bottom lines, which are now one row more, show nothing. */
  predicate MovedUp(s: Screen, r: Screen)
    requires Fits(s) && Fits(r) && r.rows == s.rows && r.cols == s.cols
  {
    && Shared(r) == (if Shared(s) < s.rows then Shared(s) + 1 else s.rows)
    && forall y, x :: 0 <= y < s.rows && 0 <= x < s.cols ==>
         Cell(r, y, x) == if y < s.rows - Shared(r) then Cell(s, y + 1, x) else 0
  }

  lemma ScrollMoves(s: Screen)
    requires Fits(s)
    ensures var r := ScrollUp(s);
      Fits(r) && SameFrame(s, r) && r.curX == s.curX && r.curY == s.rows - 1 && MovedUp(s, r)
  {
    var g, u := ActiveGrid(s), ScrollUp(s);
    ScrollFits(g, s.rows, s.cols);
    forall y, x | 0 <= y < s.rows && 0 <= x < s.cols
      ensures Cell(u, y, x) == if y < s.rows - Shared(u) then Cell(s, y + 1, x) else 0
    {
      assert ScrolledGrid(g, s.cols).lines[y] == if y < s.rows - Shared(u) then g.lines[y + 1] else Blank(s.cols);
    }
  }

  /** A line feed goes down one row; at the last row the lines move up instead. */
  lemma LineFeedGoes(s: Screen)
    requires Fits(s) && InInt(s)
    ensures var r := Written(s, [0x0a]);
      && SameFrame(s, r) && r.curX == s.curX
      && (s.curY + 1 < s.rows && s.curY < MAX_INT ==> r == s.(curY := s.curY + 1))
      && (s.curY + 1 >= s.rows && s.curY < MAX_INT ==> r.curY == s.rows - 1 && MovedUp(s, r))
      && (s.curY == MAX_INT ==> r == s.(curY := -MAX_INT - 1))
  {
    hide Written, Wrap64, ScrollUp, MovedUp, WriteByte, GridFits, SameFrame;
    var down := Below(s);
    if down.curY >= s.rows {
      ScrollMoves(down);
      SameMove(s, down, ScrollUp(down));
    } else {
      Unmoved(s, down);
    }
  }

  /** The cursor one row down, wrapped around, and whether the lines have to move. */
  lemma Below(s: Screen) returns (down: Screen)
    requires Fits(s) && InInt(s)
    ensures down == s.(curY := if s.curY == MAX_INT then -MAX_INT - 1 else s.curY + 1) && Fits(down)
    ensures Written(s, [0x0a]) == if down.curY >= s.rows then ScrollUp(down) else down
  {
    OneByte(s, 0x0a);
    WrapIs(s.curY + 1);
    hide Written, Wrap64, ScrollUp, GridFits;
    down := s.(curY := if s.curY == MAX_INT then -MAX_INT - 1 else s.curY + 1);
  }

  lemma Unmoved(s: Screen, down: Screen)
    requires down == s.(curY := down.curY)
    ensures SameFrame(s, down)
  {
  }

  lemma SameMove(s: Screen, u: Screen, r: Screen)
    requires Fits(u) && Fits(r) && u == s.(curY := u.curY) && r.rows == u.rows && r.cols == u.cols && MovedUp(u, r)
    ensures Fits(s) && MovedUp(s, r) && (SameFrame(u, r) ==> SameFrame(s, r))
  {
    assert forall y, x :: 0 <= y < s.rows && 0 <= x < s.cols ==> Cell(s, y, x) == Cell(u, y, x);
  }

  /** The rune shows at the cursor, in every line that is that row, and nowhere else; outside the grid it shows
      nowhere. */
  predicate Puts(s: Screen, r: Screen, b: nat)
    requires Fits(s) && Fits(r) && r.rows == s.rows && r.cols == s.cols
  {
    && Shared(r) == Shared(s)
    && forall y, x :: 0 <= y < s.rows && 0 <= x < s.cols ==>
         Cell(r, y, x) == if 0 <= s.curY < s.rows && x == s.curX && OneRow(s, y, s.curY) then b else Cell(s, y, x)
  }

  lemma CellPuts(s: Screen, b: nat) returns (put: Screen)
    requires Fits(s) && 0 <= s.curY < s.rows && 0 <= s.curX < s.cols
    ensures put == WithActive(s, PutCell(ActiveGrid(s), s.curY, s.curX, b))
    ensures Fits(put) && SameFrame(s, put) && Puts(s, put, b) && put.curY == s.curY && put.curX == s.curX
  {
    PutFits(ActiveGrid(s), s.rows, s.cols, s.curY, s.curX, b);
    put := WithActive(s, PutCell(ActiveGrid(s), s.curY, s.curX, b));
  }

  lemma PutsAnyway(s: Screen, put: Screen, r: Screen, b: nat)
    requires Fits(s) && Fits(put) && SameFrame(s, put) && Puts(s, put, b) && r == put.(curX := r.curX)
    ensures Fits(r) && SameFrame(s, r) && Puts(s, r, b)
  {
    assert forall y, x :: 0 <= y < s.rows && 0 <= x < s.cols ==> Cell(r, y, x) == Cell(put, y, x);
  }

  lemma PutsNothing(s: Screen, b: nat)
    requires Fits(s) && !(0 <= s.curY < s.rows && 0 <= s.curX < s.cols)
    ensures SameFrame(s, s) && Puts(s, s, b)
  {
  }

  /** A printable byte shows at the cursor, which then goes right; past the last column it goes to the first one and on
      as a line feed does. */
  lemma GlyphShows(s: Screen, b: nat) returns (put: Screen)
    requires Fits(s) && InInt(s) && b >= SPACE
    ensures Fits(put) && SameFrame(s, put) && Puts(s, put, b) && put.curY == s.curY
    ensures s.curX + 1 < s.cols && s.curX < MAX_INT ==> put.curX == s.curX + 1 && Written(s, [b]) == put
    ensures s.curX + 1 >= s.cols && s.curX < MAX_INT ==> put.curX == 0 && Written(s, [b]) == Written(put, [0x0a])
    ensures s.curX == MAX_INT ==> put.curX == -MAX_INT - 1 && Written(s, [b]) == put
  {
    hide Fits, Puts, SameFrame, Written, NextLine;
    var before, right := Inked(s, b);
    put := if right.curX >= s.cols then before.(curX := 0) else right;
    PutsAnyway(s, before, put, b);
    if right.curX >= s.cols {
      OneByte(put, 0x0a);
    }
  }

  /** The rune put, and the cursor gone right. */
  lemma Inked(s: Screen, b: nat) returns (before: Screen, right: Screen)
    requires Fits(s) && InInt(s) && b >= SPACE
    ensures Fits(before) && SameFrame(s, before) && Puts(s, before, b) && before.curY == s.curY
    ensures right == before.(curX := if s.curX == MAX_INT then -MAX_INT - 1 else s.curX + 1)
    ensures Written(s, [b]) == if right.curX >= s.cols then NextLine(right.(curX := 0)) else right
  {
    OneByte(s, b);
    WrapIs(s.curX + 1);
    hide Puts, SameFrame, PutCell, WithActive, Wrap64, Written, NextLine;
    before := s;
    if 0 <= s.curY < s.rows && 0 <= s.curX < s.cols {
      before := CellPuts(s, b);
    } else {
      PutsNothing(s, b);
    }
    right := before.(curX := if s.curX == MAX_INT then -MAX_INT - 1 else s.curX + 1);
  }

  /** Erasing with parameter 2 leaves no rune on the shown grid and brings the cursor home; rows stay one row or
      distinct, and the other grid stays. Any other parameter does nothing. */
  lemma EraseShowsNothing(s: Screen, n: nat)
    requires Fits(s) && n <= MAX_INT
    ensures var r := Written(s, Control(Itoa(n), 'J' as int));
      && (n != 2 ==> r == s)
      && (n == 2 ==>
            && SameFrame(s, r) && Shared(r) == Shared(s) && r.curX == 0 && r.curY == 0
            && forall y, x :: 0 <= y < s.rows && 0 <= x < s.cols ==> Cell(r, y, x) == 0)
  {
    hide Itoa, Control;
    EraseAllOnly(s, n);
  }

  const ENTER := ['?' as int, '1' as int, '0' as int, '4' as int, '9' as int]

  /** Entering the alternate grid shows one without a rune and with distinct rows; the main grid and the cursor stay. */
  lemma EntersAlternate(s: Screen)
    requires Fits(s)
    ensures var r := Written(s, Control(ENTER, 'h' as int));
      && r == s.(useAlt := true, alt := r.alt) && r.alt.Some? && r.alt.value.shared == 1
      && forall y, x :: 0 <= y < s.rows && 0 <= x < s.cols ==> Cell(r, y, x) == 0
  {
    ControlApplies(s, ENTER, 'h' as int);
    assert ENTER[..5] == ALT_SCREEN;
    hide Split, Control;
  }

  /** Leaving it shows the main grid again; the cursor stays. */
  lemma LeavesAlternate(s: Screen)
    requires Fits(s)
    ensures Written(s, Control(ENTER, 'l' as int)) == s.(useAlt := false, alt := None)
  {
    ControlApplies(s, ENTER, 'l' as int);
    assert ENTER[..5] == ALT_SCREEN;
    hide Split, Control;
  }

  /** Without parameters H and f go home and J does nothing; a sequence that ends otherwise does nothing. */
  lemma BareControls(s: Screen, params: Bytes, cmd: nat)
    requires Fits(s) && InRange(params, 0x30, 0x3f) && cmd >= 0x40
    ensures params == [] && (cmd == 'H' as int || cmd == 'f' as int) ==>
      Written(s, Control(params, cmd)) == s.(curX := 0, curY := 0)
    ensures params == [] && cmd == 'J' as int ==> Written(s, Control(params, cmd)) == s
    ensures cmd != 'H' as int && cmd != 'f' as int && cmd != 'J' as int && cmd != 'h' as int && cmd != 'l' as int ==>
      Written(s, Control(params, cmd)) == s
  {
    ControlApplies(s, params, cmd);
    hide Control, Written;
    if params == [] {
      assert Split(params, SEMICOLON) == [[]];
    }
  }

  /** f addresses the cursor as H does. */
  lemma BothAddress(s: Screen, params: Bytes)
    requires Fits(s) && InRange(params, 0x30, 0x3f)
    ensures Written(s, Control(params, 'f' as int)) == Written(s, Control(params, 'H' as int))
  {
    ControlApplies(s, params, 'f' as int);
    ControlApplies(s, params, 'H' as int);
    hide Control, Written, MoveCursor;
  }

  /** The text of a snapshot's row is what the shown line shows, a space for an empty cell, up to its last other
      rune. */
  lemma SnapshotShows(s: Screen, y: int)
    requires Fits(s) && 0 <= y < s.rows
    ensures var snap := SnapshotOf(s);
      && snap.cols == s.cols && snap.rows == s.rows && snap.curX == s.curX && snap.curY == s.curY
      && snap.useAlt == s.useAlt && |snap.cells| == s.rows && |snap.cells[y]| == s.cols
      && var t := snap.cells[y][0];
      && |t| <= s.cols && (t != [] ==> t[|t| - 1] != SPACE)
      && (forall x :: 0 <= x < |t| ==> t[x] == if Cell(s, y, x) == 0 then SPACE else Cell(s, y, x))
      && (forall x :: |t| <= x < s.cols ==> Cell(s, y, x) == 0 || Cell(s, y, x) == SPACE)
  {
    var line := VisibleLine(ActiveGrid(s).lines[y]);
    TrimmedIs(line);
    assert SnapshotOf(s).cells[y][0] == TrimSpaces(line);
    assert forall x :: 0 <= x < s.cols ==> line[x] == if Cell(s, y, x) == 0 then SPACE else Cell(s, y, x);
    hide TrimSpaces;
  }

  lemma {:induction false} TrimmedIs(t: seq<Rune>)
    ensures var r := TrimSpaces(t);
      && r == t[..|r|] && (r != [] ==> r[|r| - 1] != SPACE) && forall x :: |r| <= x < |t| ==> t[x] == SPACE
  {
    if t == [] || t[|t| - 1] != SPACE {
      assert t[..|t|] == t;
    } else {
      TrimmedIs(t[..|t| - 1]);
    }
  }

  /** How many bytes of UTF-8 stand before the k-th rune of a text. */
  function Offset(text: seq<Rune>, k: nat): nat
    requires k <= |text|
  {
    if k == 0 then 0 else RuneLength(text[0]) + Offset(text[1..], k - 1)
  }

  lemma RuneBytes(r: Rune)
    ensures 1 <= RuneLength(r) <= 4
    ensures (RuneLength(r) <= 1 <==> r < 128) && (RuneLength(r) <= 2 <==> r < 2048)
    ensures RuneLength(r) <= 3 <==> r < 65536
  {
  }

  lemma {:induction false} PlacedElse(line: seq<Rune>, text: seq<Rune>, x: nat, c: nat)
    requires c < |line| && forall k :: 0 <= k < |text| ==> c != x + Offset(text, k)
    ensures Placed(line, text, x)[c] == line[c]
    decreases |text|
  {
    if text == [] || x >= |line| {
    } else {
      assert Offset(text, 0) == 0;
      var next := x + RuneLength(text[0]);
      forall k | 0 <= k < |text[1..]|
        ensures c != next + Offset(text[1..], k)
      {
        assert Offset(text, k + 1) == RuneLength(text[0]) + Offset(text[1..], k);
      }
      PlacedElse(line[x := text[0]], text[1..], next, c);
    }
  }

  lemma {:induction false} PlacedAt(line: seq<Rune>, text: seq<Rune>, x: nat, k: nat)
    requires k < |text| && x + Offset(text, k) < |line|
    ensures Placed(line, text, x)[x + Offset(text, k)] == text[k]
    decreases k
  {
    hide RuneLength;
    var next := x + RuneLength(text[0]);
    if k == 0 {
      PlacedElse(line[x := text[0]], text[1..], next, x);
    } else {
      PlacedAt(line[x := text[0]], text[1..], next, k - 1);
    }
  }

  /** The text a snapshot keeps for a row of a screen with so many columns: the first of the row's list. */
  function RowText(snap: Snapshot, y: nat): seq<Rune> {
    if y < |snap.cells| && snap.cells[y] != [] then snap.cells[y][0] else []
  }

  /** A restored screen has the snapshot's sizes and cursor, and shows on its main grid each rune of a row's text at the
      rune's byte offset, as far as the columns go, and nothing else; no row of the grid is shared, and the alternate
      grid stays. */
  lemma RestoredShows(s: Screen, snap: Snapshot, y: nat, c: nat)
    requires snap.cols >= 0 && snap.rows >= 0 && y < snap.rows && c < snap.cols
    ensures var r := Restored(s, snap);
      var text := RowText(snap, y);
      && r.cols == snap.cols && r.rows == snap.rows && r.curX == snap.curX && r.curY == snap.curY
      && r.useAlt == snap.useAlt && r.alt == s.alt && r.main.shared == 1 && |r.main.lines| == snap.rows
      && |r.main.lines[y]| == snap.cols
      && (forall k :: 0 <= k < |text| && c == Offset(text, k) ==> r.main.lines[y][c] == text[k])
      && ((forall k :: 0 <= k < |text| ==> c != Offset(text, k)) ==> r.main.lines[y][c] == 0)
  {
    var text := RowText(snap, y);
    var blank := Blank(snap.cols);
    assert Restored(s, snap).main.lines[y] == Placed(blank, text, 0);
    if k :| 0 <= k < |text| && c == Offset(text, k) {
      forall k | 0 <= k < |text| && c == Offset(text, k)
        ensures Placed(blank, text, 0)[c] == text[k]
      {
        PlacedAt(blank, text, 0, k);
      }
    } else {
      PlacedElse(blank, text, 0, c);
    }
  }
}
