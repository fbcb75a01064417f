/** What a screen restored from a snapshot shows, now and after anything written later. */
module ScreenSnapshot {
  import opened Texts
  import opened Wrappers
  import opened Screen
  import opened ScreenLaws

  lemma {:induction false} TrimKeeps(t: seq<Rune>)
    ensures TrimSpaces(t) == t[..|TrimSpaces(t)|]
    ensures forall i :: |TrimSpaces(t)| <= i < |t| ==> t[i] == SPACE
  {
    if t == [] || t[|t| - 1] != SPACE {
    } else {
      TrimKeeps(t[..|t| - 1]);
    }
  }

  lemma TrimDecides(a: seq<Rune>, b: seq<Rune>)
    requires |a| == |b| && TrimSpaces(a) == TrimSpaces(b)
    ensures a == b
  {
    TrimKeeps(a);
    TrimKeeps(b);
    forall i | 0 <= i < |a|
      ensures a[i] == b[i]
    {
      if i < |TrimSpaces(a)| {
        assert a[i] == TrimSpaces(a)[i] == TrimSpaces(b)[i] == b[i];
      }
    }
  }

  /** A 7-bit text lands one rune per column. */
  lemma {:induction false} PlacedSevenBit(line: seq<Rune>, text: seq<Rune>, x: nat)
    requires SevenBit(text) && x + |text| <= |line|
    ensures Placed(line, text, x) == line[..x] + text + line[x + |text|..]
    decreases |text|
  {
    if text == [] {
      assert line[..x] + line[x..] == line;
    } else {
      PlacedSevenBit(line[x := text[0]], text[1..], x + 1);
      OnePlaced(line, text, x);
    }
  }

  lemma OnePlaced(line: seq<Rune>, text: seq<Rune>, x: nat)
    requires text != [] && x + |text| <= |line|
    ensures var next := line[x := text[0]];
      next[..x + 1] + text[1..] + next[x + |text|..] == line[..x] + text + line[x + |text|..]
  {
    var next := line[x := text[0]];
    assert next[..x + 1] == line[..x] + [text[0]] && next[x + |text|..] == line[x + |text|..];
    assert [text[0]] + text[1..] == text;
    assert line[..x] + [text[0]] + text[1..] == line[..x] + ([text[0]] + text[1..]);
  }

  lemma RestoredLine(line: seq<Rune>)
    requires SevenBit(line)
    ensures var text := TrimSpaces(VisibleLine(line));
      VisibleLine(Placed(Blank(|line|), text, 0)) == VisibleLine(line)
  {
    var v := VisibleLine(line);
    var text := TrimSpaces(v);
    TrimKeeps(v);
    assert SevenBit(text) by {
      forall i | 0 <= i < |text|
        ensures text[i] < 0x80
      {
        assert text[i] == v[..|text|][i] == v[i];
      }
    }
    PlacedSevenBit(Blank(|line|), text, 0);
    var back := Placed(Blank(|line|), text, 0);
    forall x | 0 <= x < |line|
      ensures Visible(back[x]) == v[x]
    {
      if x < |text| {
        assert back[x] == text[x] == v[..|text|][x] == v[x];
      } else {
        assert back[x] == 0;
      }
    }
  }

  lemma RestoredFits(s: Screen, t: Screen)
    requires Fits(s) && !s.useAlt
    ensures Fits(Restored(t, SnapshotOf(s)))
  {
    var snap := SnapshotOf(s);
    var r := Restored(t, snap);
    forall y | 0 <= y < r.rows
      ensures |r.main.lines[y]| == r.cols
    {
      assert snap.cells[y] != [];
    }
  }

  /** The restored grid shows what the snapshot was taken of. */
  lemma RestoredLines(s: Screen, t: Screen)
    requires Fits(s) && !s.useAlt && GridSevenBit(s.main)
    ensures var r := Restored(t, SnapshotOf(s));
      |r.main.lines| == s.rows &&
      forall y :: 0 <= y < s.rows ==> VisibleLine(r.main.lines[y]) == VisibleLine(s.main.lines[y])
  {
    var snap := SnapshotOf(s);
    var r := Restored(t, snap);
    forall y | 0 <= y < s.rows
      ensures VisibleLine(r.main.lines[y]) == VisibleLine(s.main.lines[y])
    {
      assert SevenBit(s.main.lines[y]);
      RestoredLine(s.main.lines[y]);
      assert snap.cells[y][0] == TrimSpaces(VisibleLine(s.main.lines[y]));
    }
  }

  /** No later writing tells the screen and the one restored from its snapshot apart. */
  ghost predicate Indistinguishable(s: Screen, t: Screen)
    requires Fits(s) && Fits(t)
  {
    forall p :: SnapshotOf(Written(s, p)) == SnapshotOf(Written(t, p))
  }

  lemma RestoredSimulates(s: Screen, t: Screen)
    requires Fits(s) && !s.useAlt && GridSevenBit(s.main) && s.main.shared == 1
    requires Fits(Restored(t, SnapshotOf(s)))
    ensures Indistinguishable(s, Restored(t, SnapshotOf(s)))
  {
    var r := Restored(t, SnapshotOf(s));
    RestoredLines(s, t);
    assert Alike(s, r);
    forall p
      ensures SnapshotOf(Written(s, p)) == SnapshotOf(Written(r, p))
    {
      AlikeForever(s, r, p);
      AlikeSnapshots(Written(s, p), Written(r, p));
    }
  }

  const HOME: Bytes := [ESC, '[' as int, 'H' as int]

  /** A byte that starts no sequence is written on its own. */
  lemma FirstByte(s: Screen, p: Bytes)
    requires Fits(s) && p != [] && p[0] != ESC
    ensures Fits(WriteByte(s, p[0])) && Written(s, p) == Written(WriteByte(s, p[0]), p[1..])
  {
    ByteFits(s, p[0]);
    assert CsiFinal(p).None?;
  }

  function Feeds(k: nat): Bytes {
    if k == 0 then [] else [0x0a] + Feeds(k - 1)
  }

  lemma {:induction false} FeedsSettled(k: nat)
    ensures Settled(Feeds(k))
  {
    if k == 0 {
    } else {
      var p := Feeds(k);
      assert p[0] == 0x0a && p[1..] == Feeds(k - 1) && CsiFinal(p).None?;
      FeedsSettled(k - 1);
    }
  }

  lemma FeedMovesDown(s: Screen)
    requires 0 <= s.curY && s.curY + 1 < s.rows <= MAX_INT
    ensures NextLine(s) == s.(curY := s.curY + 1)
  {
    WrapSmall(s.curY + 1);
  }

  /** Line feeds above the bottom row only move the cursor. */
  lemma {:induction false} FeedsMoveDown(s: Screen, k: nat)
    requires Fits(s) && 0 <= s.curY && s.curY + k < s.rows <= MAX_INT
    ensures Written(s, Feeds(k)) == s.(curY := s.curY + k)
    decreases k
  {
    if k == 0 {
    } else {
      var p := Feeds(k);
      assert p[0] == 0x0a && p[1..] == Feeds(k - 1);
      FirstByte(s, p);
      FeedMovesDown(s);
      FeedsMoveDown(s.(curY := s.curY + 1), k - 1);
    }
  }

  lemma HomeSettled()
    ensures Settled(HOME)
  {
    assert CsiFinal(HOME) == Some(2) && HOME[3..] == [];
  }

  lemma GlyphAtStart(s: Screen, b: nat)
    requires Fits(s) && !s.useAlt && s.curX == 0 && 0 <= s.curY && s.curY + 1 < s.rows <= MAX_INT && b >= SPACE
    ensures var r := WriteByte(s, b);
      r.main == PutCell(s.main, s.curY, 0, b) && !r.useAlt && r.cols == s.cols
  {
    WrapSmall(1);
    WrapSmall(s.curY + 1);
    var put := s.(main := PutCell(s.main, s.curY, 0, b));
    if s.cols == 1 {
      assert WriteGlyph(s, b) == NextLine(put.(curX := 0)) == put.(curX := 0, curY := s.curY + 1);
    } else {
      assert WriteGlyph(s, b) == put.(curX := 1);
    }
  }

  /** The bytes that write a glyph at the start of row y. */
  function GlyphAtRow(y: nat, b: nat): Bytes {
    HOME + (Feeds(y) + [b])
  }

  lemma Then(s: Screen, p: Bytes, q: Bytes, t: Screen)
    requires Fits(s) && Settled(p) && t == Written(s, p)
    ensures Written(s, p + q) == Written(t, q)
  {
    WriteInChunks(s, p, q);
  }

  lemma WrittenAfter(s: Screen, home: Screen, at: Screen, h: Bytes, f: Bytes, b: nat)
    requires Fits(s) && Settled(h) && home == Written(s, h) && Settled(f) && at == Written(home, f)
    ensures Written(s, h + (f + [b])) == WriteByte(at, b)
  {
    Then(s, h, f + [b], home);
    Then(home, f, [b], at);
    OneByte(at, b);
  }

  /** A glyph at the start of row y, above the bottom row, changes exactly the lines that are the same row. */
  lemma WrittenAt(s: Screen, y: nat, b: nat)
    requires Fits(s) && !s.useAlt && y + 1 < s.rows <= MAX_INT && b >= SPACE
    ensures var r := Written(s, GlyphAtRow(y, b));
      r.main == PutCell(s.main, y, 0, b) && !r.useAlt && r.cols == s.cols
  {
    var home := s.(curX := 0, curY := 0);
    var at := home.(curY := y);
    HomeSettled();
    WholeHome(s);
    FeedsSettled(y);
    FeedsMoveDown(home, y);
    WrittenAfter(s, home, at, HOME, Feeds(y), b);
    GlyphAtStart(at, b);
  }

  lemma SharedRowsShow(s: Screen, t: Screen)
    requires Fits(s) && !s.useAlt && GridSevenBit(s.main) && s.main.shared > 1 && s.rows <= MAX_INT
    requires Fits(Restored(t, SnapshotOf(s)))
    ensures !Indistinguishable(s, Restored(t, SnapshotOf(s)))
  {
    var r := Restored(t, SnapshotOf(s));
    var y, bottom := s.rows - s.main.shared, s.rows - 1;
    RestoredLines(s, t);
    var shown := Visible(s.main.lines[bottom][0]);
    assert VisibleLine(r.main.lines[bottom])[0] == VisibleLine(s.main.lines[bottom])[0];
    var b := if shown == 'A' as int then 'B' as int else 'A' as int;
    var p := GlyphAtRow(y, b);
    WrittenAt(s, y, b);
    WrittenAt(r, y, b);
    var a, c := Written(s, p), Written(r, p);
    BottomDiffers(a, c, bottom);
    assert SnapshotOf(Written(s, p)) != SnapshotOf(Written(r, p));
  }

  lemma BottomDiffers(a: Screen, c: Screen, y: nat)
    requires Fits(a) && Fits(c) && !a.useAlt && !c.useAlt && y < a.rows && y < c.rows
    requires a.cols == c.cols && Visible(a.main.lines[y][0]) != Visible(c.main.lines[y][0])
    ensures SnapshotOf(a) != SnapshotOf(c)
  {
    var u, v := VisibleLine(a.main.lines[y]), VisibleLine(c.main.lines[y]);
    assert u[0] != v[0];
    if TrimSpaces(u) == TrimSpaces(v) {
      TrimDecides(u, v);
    }
    assert SnapshotOf(a).cells[y][0] == TrimSpaces(u) && SnapshotOf(c).cells[y][0] == TrimSpaces(v);
  }

  /** Snapshot and restore: for a screen on its main grid that shows 7-bit text, the restored screen gives the
      same snapshot after every further sequence of bytes if and only if its rows are still distinct. */
  lemma RestoreSimulatesIff(s: Screen, t: Screen)
    requires Fits(s) && !s.useAlt && GridSevenBit(s.main) && s.rows <= MAX_INT
    ensures Fits(Restored(t, SnapshotOf(s)))
    ensures Indistinguishable(s, Restored(t, SnapshotOf(s))) <==> s.main.shared == 1
  {
    RestoredFits(s, t);
    if s.main.shared == 1 {
      RestoredSimulates(s, t);
    } else {
      SharedRowsShow(s, t);
    }
  }
}
