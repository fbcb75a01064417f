/** The terminal screen on the heap (terminal_store.go): a grid is an array of references to row arrays, and
    scrolling copies the references. Every operation is proved to do to the heap what Screen says of the value. */
module AnsiScreens {
  import opened Texts
  import opened Wrappers
  import opened S = Screen

  function Lines(rows: seq<array<Rune>>): (lines: seq<seq<Rune>>)
    reads rows
  {
    seq(|rows|, y requires 0 <= y < |rows| reads rows => rows[y][..])
  }

  /** The bottom `shared` entries are one row, all others are rows of their own. */
  predicate Shape(rows: seq<array<Rune>>, shared: nat) {
    && 1 <= shared <= |rows|
    && forall y, z :: 0 <= y < |rows| && 0 <= z < |rows| ==>
      (rows[y] == rows[z] <==> y == z || (|rows| - shared <= y && |rows| - shared <= z))
  }

  ghost function GridOf(g: array<array<Rune>>, shared: nat): Grid
    reads g, g[..]
  {
    Grid(Lines(g[..]), shared)
  }

  ghost function RowSet(rows: seq<array<Rune>>): set<object> {
    set y | 0 <= y < |rows| :: rows[y] as object
  }

  predicate Apart(a: seq<array<Rune>>, b: seq<array<Rune>>) {
    forall y, z :: 0 <= y < |a| && 0 <= z < |b| ==> a[y] != b[z]
  }

  method AllocGrid(rows: nat, cols: nat) returns (g: array<array<Rune>>)
    ensures fresh(g) && g.Length == rows && (forall y :: 0 <= y < rows ==> fresh(g[y]))
    ensures (rows >= 1 ==> Shape(g[..], 1)) && GridOf(g, 1) == FreshGrid(rows, cols)
  {
    var none := new Rune[0];
    g := new array<Rune>[rows](_ => none);
    var y := 0;
    while y < rows
      invariant 0 <= y <= rows
      invariant fresh(g) && forall z :: 0 <= z < rows ==> fresh(g[z])
      invariant forall z :: 0 <= z < y ==> g[z].Length == cols && g[z][..] == Blank(cols)
      invariant forall z, w :: 0 <= z < w < y ==> g[z] != g[w]
    {
      var row := new Rune[cols](_ => 0);
      assert row[..] == Blank(cols);
      g[y] := row;
      y := y + 1;
    }
    assert Lines(g[..]) == FreshGrid(rows, cols).lines;
  }

  method BlankRow(row: array<Rune>, cols: nat)
    requires row.Length == cols
    modifies row
    ensures row[..] == Blank(cols)
  {
    var x := 0;
    while x < cols
      invariant 0 <= x <= cols
      invariant forall w :: 0 <= w < x ==> row[w] == 0
    {
      row[x] := 0;
      x := x + 1;
    }
  }

  method PutRune(g: array<array<Rune>>, y: nat, x: nat, r: Rune, rows: nat, cols: nat, ghost shared: nat)
    requires g.Length == rows && Shape(g[..], shared) && GridFits(GridOf(g, shared), rows, cols)
    requires y < rows && x < cols && x < g[y].Length
    modifies g[y]
    ensures g[..] == old(g[..])
    ensures GridOf(g, shared) == PutCell(old(GridOf(g, shared)), y, x, r)
  {
    ghost var before := GridOf(g, shared);
    g[y][x] := r;
    ghost var after := PutCell(before, y, x, r);
    assert GridOf(g, shared) == after by {
      forall z | 0 <= z < rows
        ensures g[z][..] == after.lines[z]
      {
        assert before.lines[z] == old(g[z][..]);
        assert g[..][z] == g[z] && g[..][y] == g[y];
        if SameRow(before, z, y) {
          assert g[z] == g[y];
          assert before.lines[z] == before.lines[y];
        } else {
          assert g[z] != g[y];
        }
      }
    }
  }

  method ScrollGrid(g: array<array<Rune>>, rows: nat, cols: nat, ghost shared: nat)
    requires g.Length == rows && Shape(g[..], shared) && GridFits(GridOf(g, shared), rows, cols)
    modifies g, g[rows - 1]
    ensures Shape(g[..], ScrolledGrid(old(GridOf(g, shared)), cols).shared)
    ensures forall y :: 0 <= y < rows ==> g[y] in old(g[..])
    ensures GridOf(g, ScrolledGrid(old(GridOf(g, shared)), cols).shared) == ScrolledGrid(old(GridOf(g, shared)), cols)
  {
    ghost var before := GridOf(g, shared);
    ghost var refs := g[..];
    ghost var after := ScrolledGrid(before, cols);
    forall y | 0 <= y < rows - 1 {
      g[y] := g[y + 1];
    }
    assert forall y :: 0 <= y < rows - 1 ==> g[..][y] == refs[y + 1];
    assert g[..][rows - 1] == refs[rows - 1];
    assert Shape(g[..], after.shared);
    assert g[rows - 1].Length == cols by {
      assert |before.lines[rows - 1]| == cols;
    }
    BlankRow(g[rows - 1], cols);
    assert Lines(g[..]) == after.lines by {
      forall y | 0 <= y < rows
        ensures g[y][..] == after.lines[y]
      {
        if y < rows - after.shared {
          assert g[..][y] == refs[y + 1] && refs[y + 1] != refs[rows - 1];
          assert before.lines[y + 1] == old(g[y + 1][..]);
        } else {
          assert g[..][y] == g[..][rows - 1];
        }
      }
    }
  }

  method BlankGrid(g: array<array<Rune>>, rows: nat, cols: nat, ghost shared: nat)
    requires g.Length == rows && Shape(g[..], shared) && GridFits(GridOf(g, shared), rows, cols)
    modifies g[..]
    ensures g[..] == old(g[..])
    ensures GridOf(g, shared) == BlankedGrid(old(GridOf(g, shared)), cols)
  {
    ghost var before := GridOf(g, shared);
    assert forall z :: 0 <= z < rows ==> g[z].Length == |before.lines[z]|;
    var y := 0;
    while y < rows
      invariant 0 <= y <= rows && g[..] == old(g[..])
      invariant forall z :: 0 <= z < rows ==> g[z].Length == cols
      invariant forall z :: 0 <= z < y ==> g[z][..] == Blank(cols)
    {
      BlankRow(g[y], cols);
      y := y + 1;
    }
    assert Lines(g[..]) == BlankedGrid(before, cols).lines;
  }

  class AnsiScreen {
    var cols: nat
    var rows: nat
    var curX: int
    var curY: int
    var cells: array<array<Rune>>
    var alt: array?<array<Rune>>
    var useAlt: bool
    ghost var mainShared: nat
    ghost var altShared: nat

    ghost function Repr(): (r: set<object>)
      reads this, cells, alt
      ensures this in r
    {
      {this, cells} + RowSet(cells[..]) + (if alt == null then {} else {alt} + RowSet(alt[..]))
    }

    ghost function Value(): S.Screen
      reads Repr()
    {
      S.Screen(cols, rows, curX, curY, GridOf(cells, mainShared),
             if alt == null then None else Some(GridOf(alt, altShared)), useAlt)
    }

    /** No two rows of the screen are the same array, except the shared bottom rows of each grid. */
    ghost predicate Shaped()
      reads Repr()
    {
      && (cells.Length > 0 ==> Shape(cells[..], mainShared))
      && (alt != null ==> alt != cells && (alt.Length > 0 ==> Shape(alt[..], altShared)) && Apart(cells[..], alt[..]))
    }

    /** And the grids have the screen's size: what writing needs. */
    ghost predicate Valid()
      reads Repr()
      ensures Valid() ==> Fits(Value())
    {
      Fits(Value()) && Shaped()
    }

    constructor (columns: int, lines: int)
      ensures Valid() && fresh(Repr()) && Value() == NewScreen(columns, lines)
    {
      var c := if columns <= 0 then 80 else columns;
      var r := if lines <= 0 then 24 else lines;
      var g := AllocGrid(r, c);
      cols, rows, curX, curY, useAlt := c, r, 0, 0, false;
      cells, alt, mainShared, altShared := g, null, 1, 1;
    }

    method SetCursor(x: int, y: int)
      requires Valid()
      modifies this`curX, this`curY
      ensures Valid() && Repr() == old(Repr())
      ensures Value() == old(Value()).(curX := x, curY := y)
    {
      curX, curY := x, y;
    }

    method ScrollMain()
      requires Valid() && (useAlt ==> alt == null)
      modifies Repr()
      ensures Valid() && Repr() <= old(Repr())
      ensures Value() == old(Value()).(main := ScrolledGrid(old(Value()).main, old(cols)))
    {
      ScrollFits(Value().main, rows, cols);
      ScrollGrid(cells, rows, cols, mainShared);
      mainShared := ScrolledGrid(old(GridOf(cells, mainShared)), cols).shared;
      assert alt != null ==> alt[..] == old(alt[..]) && GridOf(alt, altShared) == old(GridOf(alt, altShared));
      assert RowSet(cells[..]) <= old(RowSet(cells[..]));
    }

    method ScrollAlt()
      requires Valid() && useAlt && alt != null
      modifies Repr()
      ensures Valid() && Repr() <= old(Repr())
      ensures Value() == old(Value()).(alt := Some(ScrolledGrid(old(Value()).alt.value, old(cols))))
    {
      ScrollFits(Value().alt.value, rows, cols);
      ScrollGrid(alt, rows, cols, altShared);
      altShared := ScrolledGrid(old(GridOf(alt, altShared)), cols).shared;
      assert cells[..] == old(cells[..]) && GridOf(cells, mainShared) == old(GridOf(cells, mainShared));
      assert RowSet(alt[..]) <= old(RowSet(alt[..]));
    }

    method ScrollUp()
      requires Valid()
      modifies Repr()
      ensures Valid() && fresh(Repr() - old(Repr()))
      ensures Value() == S.ScrollUp(old(Value()))
    {
      if useAlt && alt != null {
        ScrollAlt();
      } else {
        ScrollMain();
      }
      SetCursor(curX, rows - 1);
    }

    method MoveDown()
      requires Valid()
      modifies Repr()
      ensures Valid() && fresh(Repr() - old(Repr()))
      ensures Value() == NextLine(old(Value()))
    {
      SetCursor(curX, Wrap64(curY + 1));
      if curY >= rows {
        ScrollUp();
      }
    }

    /** Handles a byte below SPACE, and says whether it was one. */
    method WriteControlByte(b: nat) returns (control: bool)
      requires Valid()
      modifies Repr()
      ensures Valid() && fresh(Repr() - old(Repr()))
      ensures control <==> b < SPACE
      ensures Value() == if control then WriteByte(old(Value()), b) else old(Value())
    {
      control := b < SPACE;
      if b == 0x0d {
        curX := 0;
      } else if b == 0x0a {
        MoveDown();
      } else if b == 0x09 {
        curX := Wrap64((TruncDiv(curX, 8) + 1) * 8);
        if curX >= cols {
          curX := cols - 1;
        }
      }
    }

    method PutAtCursor(b: nat)
      requires Valid() && 0 <= curY < rows && 0 <= curX < cols
      modifies Repr()
      ensures Valid() && Repr() == old(Repr())
      ensures Value() == WithActive(old(Value()), PutCell(ActiveGrid(old(Value())), old(curY), old(curX), b))
    {
      PutFits(ActiveGrid(Value()), rows, cols, curY, curX, b);
      if useAlt && alt != null {
        assert |GridOf(alt, altShared).lines[curY]| == cols;
        PutRune(alt, curY, curX, b, rows, cols, altShared);
      } else {
        assert |GridOf(cells, mainShared).lines[curY]| == cols;
        PutRune(cells, curY, curX, b, rows, cols, mainShared);
      }
    }

    method MoveRight()
      requires Valid()
      modifies Repr()
      ensures Valid() && fresh(Repr() - old(Repr()))
      ensures var right := old(Value()).(curX := Wrap64(old(curX) + 1));
        Value() == if right.curX >= right.cols then NextLine(right.(curX := 0)) else right
    {
      hide Valid, NextLine;
      SetCursor(Wrap64(curX + 1), curY);
      if curX >= cols {
        SetCursor(0, curY);
        MoveDown();
      }
    }

    method WriteGlyph(b: nat)
      requires Valid()
      modifies Repr()
      ensures Valid() && fresh(Repr() - old(Repr()))
      ensures Value() == S.WriteGlyph(old(Value()), b)
    {
      hide Valid, NextLine, PutCell, WriteByte, Fits, GridFits, GridOf;
      if 0 <= curY < rows && 0 <= curX < cols {
        PutAtCursor(b);
      }
      MoveRight();
    }

    method EraseAll()
      requires Valid()
      modifies Repr()
      ensures Valid() && Repr() == old(Repr())
      ensures Value()
        == WithActive(old(Value()), BlankedGrid(ActiveGrid(old(Value())), old(cols))).(curX := 0, curY := 0)
    {
      if useAlt && alt != null {
        BlankGrid(alt, rows, cols, altShared);
        assert cells[..] == old(cells[..]) && GridOf(cells, mainShared) == old(GridOf(cells, mainShared));
      } else {
        BlankGrid(cells, rows, cols, mainShared);
        assert alt != null ==> alt[..] == old(alt[..]) && GridOf(alt, altShared) == old(GridOf(alt, altShared));
      }
      SetCursor(0, 0);
    }

    method ApplyAltScreen(cmd: nat, params: Bytes)
      requires Valid()
      modifies this
      ensures Valid() && fresh(Repr() - old(Repr()))
      ensures Value() == SwitchGrid(old(Value()), cmd, params)
    {
      hide GridFits, FreshGrid, ContainsText;
      if ContainsText(params, ALT_SCREEN) {
        if cmd == 'h' as int {
          var g := AllocGrid(rows, cols);
          FreshGridFits(rows, cols);
          useAlt, alt, altShared := true, g, 1;
        } else {
          useAlt, alt := false, null;
        }
      }
    }

    method ApplyControl(cmd: nat, params: Bytes)
      requires Valid()
      modifies Repr()
      ensures Valid() && fresh(Repr() - old(Repr()))
      ensures Value() == ApplyCsi(old(Value()), cmd, params)
    {
      var parts := Split(params, ';' as int);
      if cmd == 'H' as int || cmd == 'f' as int {
        curY, curX := Max(Wrap64(ParamInt(parts, 0, 1) - 1), 0), Max(Wrap64(ParamInt(parts, 1, 1) - 1), 0);
      } else if cmd == 'J' as int {
        if ParamInt(parts, 0, 0) == 2 {
          EraseAll();
        }
      } else if cmd == 'h' as int || cmd == 'l' as int {
        ApplyAltScreen(cmd, params);
      }
    }

    /** Applies the control sequence at position i, if a whole one is there, and says where it ends. */
    method TryWriteCsi(p: Bytes, i: nat) returns (next: nat, whole: bool)
      requires Valid() && i < |p|
      modifies Repr()
      ensures Valid() && fresh(Repr() - old(Repr()))
      ensures whole <==> CsiFinal(p[i..]).Some?
      ensures whole ==> next == i + Token(p[i..]) && Value() == WriteToken(old(Value()), p[i..])
      ensures !whole ==> next == i && Value() == old(Value())
    {
      hide Valid, Value, ApplyCsi, SkipRange;
      if p[i] != ESC || i + 1 >= |p| || p[i + 1] != '[' as int {
        return i, false;
      }
      var j := FinalByte(p, i);
      if j >= |p| {
        return i, false;
      }
      assert p[i..][2..j - i] == p[i + 2..j];
      ApplyControl(p[j], p[i + 2..j]);
      return j + 1, true;
    }

    method WriteNext(p: Bytes, i: nat) returns (next: nat)
      requires Valid() && i < |p|
      modifies Repr()
      ensures Valid() && fresh(Repr() - old(Repr()))
      ensures next == i + Token(p[i..]) && Value() == WriteToken(old(Value()), p[i..])
    {
      hide Valid, Value, S.WriteGlyph, NextLine, ApplyCsi;
      var whole;
      next, whole := TryWriteCsi(p, i);
      if whole {
        return;
      }
      next := i + 1;
      var control := WriteControlByte(p[i]);
      if !control {
        WriteGlyph(p[i]);
      }
    }

    /** The loop over the bytes, one token at a time. */
    method Write(p: Bytes)
      requires Valid()
      modifies Repr()
      ensures Valid() && fresh(Repr() - old(Repr()))
      ensures Value() == Written(old(Value()), p)
    {
      hide Written, WriteToken, Valid, Value;
      ghost var before := Value();
      assert p[0..] == p;
      var i := 0;
      while i < |p|
        invariant 0 <= i <= |p|
        invariant Valid() && fresh(Repr() - old(Repr()))
        invariant Written(Value(), p[i..]) == Written(before, p)
      {
        ghost var r := Repr();
        WrittenStep(Value(), p, i);
        i := WriteNext(p, i);
        assert Repr() - old(Repr()) <= (Repr() - r) + (r - old(Repr()));
      }
      WrittenNothing(Value(), p[i..]);
    }

    method Capture() returns (snap: Snapshot)
      requires Valid()
      ensures snap == SnapshotOf(Value())
    {
      var grid := cells;
      if useAlt && alt != null {
        grid := alt;
      }
      ghost var g := ActiveGrid(Value());
      var lines: seq<seq<seq<Rune>>> := [];
      var y := 0;
      while y < rows
        invariant 0 <= y <= rows && |lines| == y
        invariant forall z :: 0 <= z < y ==> lines[z] == SnapshotOf(Value()).cells[z]
      {
        assert g.lines[y] == grid[y][..];
        var text := VisibleText(grid[y], cols);
        lines := lines + [seq(cols, x => if x == 0 then TrimSpaces(text) else [])];
        y := y + 1;
      }
      snap := Snapshot(cols, rows, curX, curY, useAlt, lines);
      assert lines == SnapshotOf(Value()).cells;
    }

    method SetSizes(columns: nat, lines: nat, x: int, y: int, alternate: bool)
      requires Shaped()
      modifies this`cols, this`rows, this`curX, this`curY, this`useAlt
      ensures Shaped() && Repr() == old(Repr())
      ensures Value() == old(Value()).(cols := columns, rows := lines, curX := x, curY := y, useAlt := alternate)
    {
      hide Shape, GridOf, Apart;
      cols, rows, curX, curY, useAlt := columns, lines, x, y, alternate;
    }

    /** A new main grid, none of whose rows the screen has. */
    method ShowGrid(g: array<array<Rune>>)
      requires Shaped() && g !in Repr() && g != alt && RowSet(g[..]) !! Repr() && (g.Length >= 1 ==> Shape(g[..], 1))
      modifies this`cells, this`mainShared
      ensures Shaped() && Repr() <= old(Repr()) + {g} + RowSet(g[..]) && Value() == old(Value()).(main := GridOf(g, 1))
    {
      hide Shape, GridOf;
      ghost var other := if alt == null then [] else alt[..];
      assert forall y :: 0 <= y < g.Length ==> g[..][y] in RowSet(g[..]);
      assert forall z :: 0 <= z < |other| ==> other[z] in Repr();
      NewRowsApart(g[..], other);
      hide Apart;
      cells, mainShared := g, 1;
    }

    /** Puts a snapshot on a fresh main grid; the alternate grid is left as it is. The screen can be written
        afterwards exactly when the snapshot has rows and columns, and the alternate grid, if shown, its size. */
    method Restore(snap: Snapshot)
      requires Shaped() && snap.cols >= 0 && snap.rows >= 0
      modifies this
      ensures Shaped() && fresh(Repr() - old(Repr()))
      ensures Value() == Restored(old(Value()), snap)
      ensures Valid() <==>
        snap.cols >= 1 && snap.rows >= 1 &&
        (snap.useAlt && old(alt) != null ==> GridFits(old(Value()).alt.value, snap.rows, snap.cols))
    {
      hide RestoredGrid, GridFits, Shape, Apart, Fits, GridOf;
      var g := GridFromSnapshot(snap);
      ShowGrid(g);
      SetSizes(snap.cols, snap.rows, snap.curX, snap.curY, snap.useAlt);
      RestoredFitsIff(old(Value()), snap);
    }
  }

  lemma WrittenNothing(s: S.Screen, p: Bytes)
    requires p == [] && Fits(s)
    ensures Written(s, p) == s
  {
  }

  lemma WrittenStep(s: S.Screen, p: Bytes, i: nat)
    requires i < |p| && Fits(s)
    ensures Written(s, p[i..]) == Written(WriteToken(s, p[i..]), p[i + Token(p[i..])..])
  {
    assert p[i..][Token(p[i..])..] == p[i + Token(p[i..])..];
  }

  lemma FreshGridFits(rows: nat, cols: nat)
    requires rows >= 1
    ensures GridFits(FreshGrid(rows, cols), rows, cols)
  {
  }

  lemma RestoredGridFits(snap: Snapshot)
    requires snap.cols >= 1 && snap.rows >= 1
    ensures GridFits(RestoredGrid(snap), snap.rows, snap.cols)
  {
  }

  /** The restored main grid fits; the alternate one is as it was. */
  lemma RestoredFitsIff(s: S.Screen, snap: Snapshot)
    requires snap.cols >= 0 && snap.rows >= 0
    ensures Fits(Restored(s, snap)) <==>
      snap.cols >= 1 && snap.rows >= 1 && (snap.useAlt && s.alt.Some? ==> GridFits(s.alt.value, snap.rows, snap.cols))
  {
    hide RestoredGrid, GridFits;
    if snap.cols >= 1 && snap.rows >= 1 {
      RestoredGridFits(snap);
    }
  }

  lemma NewRowsApart(a: seq<array<Rune>>, b: seq<array<Rune>>)
    requires forall y :: 0 <= y < |a| ==> a[y] !in b
    ensures Apart(a, b)
  {
  }

  method GridFromSnapshot(snap: Snapshot) returns (g: array<array<Rune>>)
    requires snap.cols >= 0 && snap.rows >= 0
    ensures fresh(g) && g.Length == snap.rows && (forall y :: 0 <= y < g.Length ==> fresh(g[y]))
    ensures (snap.rows >= 1 ==> Shape(g[..], 1)) && GridOf(g, 1) == RestoredGrid(snap)
  {
    g := AllocGrid(snap.rows, snap.cols);
    ghost var all, blank, wanted := g[..], GridOf(g, 1).lines, RestoredGrid(snap).lines;
    var y := 0;
    while y < |snap.cells| && y < snap.rows
      invariant 0 <= y <= snap.rows && g[..] == all
      invariant forall z :: 0 <= z < y ==> all[z][..] == wanted[z]
      invariant forall z :: y <= z < snap.rows ==> all[z][..] == blank[z]
      modifies all
    {
      var row := g[y];
      assert all[y] == row && row[..] == Blank(snap.cols);
      if snap.cells[y] != [] {
        PlaceText(row, snap.cells[y][0]);
      }
      assert forall z :: 0 <= z < snap.rows && z != y ==> all[z] != row;
      y := y + 1;
    }
    assert Lines(all) == wanted;
  }

  /** Scans from an escape at i over parameter and intermediate bytes. */
  method FinalByte(p: Bytes, i: nat) returns (j: nat)
    requires i + 1 < |p| && p[i] == ESC && p[i + 1] == '[' as int
    ensures i + 2 <= j <= |p|
    ensures CsiFinal(p[i..]) == if j < |p| then Some(j - i) else None
  {
    ghost var q := p[i..];
    j := i + 2;
    while j < |p| && 0x30 <= p[j] <= 0x3f
      invariant i + 2 <= j <= |p|
      invariant SkipRange(q, 2, 0x30, 0x3f) == SkipRange(q, j - i, 0x30, 0x3f)
    {
      assert q[j - i] == p[j];
      j := j + 1;
    }
    ghost var k := j - i;
    assert SkipRange(q, 2, 0x30, 0x3f) == k;
    while j < |p| && 0x20 <= p[j] <= 0x2f
      invariant i + k <= j <= |p|
      invariant SkipRange(q, k, 0x20, 0x2f) == SkipRange(q, j - i, 0x20, 0x2f)
    {
      assert q[j - i] == p[j];
      j := j + 1;
    }
  }

  method VisibleText(row: array<Rune>, cols: nat) returns (text: seq<Rune>)
    requires row.Length == cols
    ensures text == VisibleLine(row[..])
  {
    text := [];
    var x := 0;
    while x < cols
      invariant 0 <= x <= cols && |text| == x
      invariant forall w :: 0 <= w < x ==> text[w] == Visible(row[w])
    {
      text := text + [if row[x] == 0 then SPACE else row[x]];
      x := x + 1;
    }
  }

  /** Ranges over a text: x is the byte offset of each rune. */
  method PlaceText(row: array<Rune>, text: seq<Rune>)
    modifies row
    ensures row[..] == Placed(old(row[..]), text, 0)
  {
    var x, k := 0, 0;
    while k < |text| && x < row.Length
      invariant 0 <= k <= |text| && 0 <= x
      invariant Placed(row[..], text[k..], x) == Placed(old(row[..]), text, 0)
    {
      assert text[k..][0] == text[k] && text[k..][1..] == text[k + 1..];
      ghost var line := row[..];
      row[x] := text[k];
      assert row[..] == line[x := text[k]];
      x := x + RuneLength(text[k]);
      k := k + 1;
    }
  }
}
