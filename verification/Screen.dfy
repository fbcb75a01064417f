/** The terminal screen by value (terminal_store.go). A grid's rows are references in the code: scrolling makes
    its bottom rows one shared row, which the value keeps as a count next to the lines. */
module Screen {
  import opened Texts
  import opened Wrappers

  type Rune = nat

  const ESC := 0x1b
  const SPACE := 0x20

  /** Wrap-around of the code's 64-bit integers. */
  function Wrap64(n: int): int {
    (n + MAX_INT + 1) % (2 * (MAX_INT + 1)) - (MAX_INT + 1)
  }

  /** Division truncated toward zero. */
  function TruncDiv(n: int, d: int): int
    requires d > 0
  {
    if n >= 0 then n / d else -((-n) / d)
  }

  /** The lines of a grid; its bottom `shared` lines are one row. */
  datatype Grid = Grid(lines: seq<seq<Rune>>, shared: nat)

  datatype Screen = Screen(
    cols: nat, rows: nat, curX: int, curY: int, main: Grid, alt: Option<Grid>, useAlt: bool)

  predicate GridFits(g: Grid, rows: nat, cols: nat) {
    && |g.lines| == rows && 1 <= g.shared <= rows
    && (forall y :: 0 <= y < rows ==> |g.lines[y]| == cols)
    && (forall y :: rows - g.shared <= y < rows ==> g.lines[y] == g.lines[rows - 1])
  }

  predicate Fits(s: Screen) {
    && s.cols >= 1 && s.rows >= 1 && GridFits(s.main, s.rows, s.cols)
    && (s.useAlt && s.alt.Some? ==> GridFits(s.alt.value, s.rows, s.cols))
  }

  function Blank(cols: nat): seq<Rune> {
    seq(cols, _ => 0)
  }

  function FreshGrid(rows: nat, cols: nat): Grid {
    Grid(seq(rows, _ => Blank(cols)), 1)
  }

  function NewScreen(cols: int, rows: int): Screen {
    var c := if cols <= 0 then 80 else cols;
    var r := if rows <= 0 then 24 else rows;
    Screen(c, r, 0, 0, FreshGrid(r, c), None, false)
  }

  function ActiveGrid(s: Screen): Grid {
    if s.useAlt && s.alt.Some? then s.alt.value else s.main
  }

  function WithActive(s: Screen, g: Grid): Screen {
    if s.useAlt && s.alt.Some? then s.(alt := Some(g)) else s.(main := g)
  }

  /** Two rows of a grid are the same row. */
  predicate SameRow(g: Grid, y: int, z: int) {
    y == z || (|g.lines| - g.shared <= y && |g.lines| - g.shared <= z)
  }

  /** Writing a cell shows in every line that is the same row. */
  function PutCell(g: Grid, y: nat, x: nat, r: Rune): Grid
    requires y < |g.lines| && forall z :: 0 <= z < |g.lines| ==> x < |g.lines[z]|
  {
    g.(lines := seq(|g.lines|, z requires 0 <= z < |g.lines| =>
      if SameRow(g, z, y) then g.lines[z][x := r] else g.lines[z]))
  }

  /** A scroll moves the unshared rows up, shares one row more, and blanks the shared ones. */
  function ScrolledGrid(g: Grid, cols: nat): Grid {
    var rows := |g.lines|;
    var shared := if g.shared + 1 <= rows then g.shared + 1 else rows;
    Grid(seq(rows, y requires 0 <= y < rows =>
      if y >= rows - shared || y + 1 >= rows then Blank(cols) else g.lines[y + 1]), shared)
  }

  function ScrollUp(s: Screen): Screen {
    WithActive(s, ScrolledGrid(ActiveGrid(s), s.cols)).(curY := s.rows - 1)
  }

  function NextLine(s: Screen): Screen {
    var down := s.(curY := Wrap64(s.curY + 1));
    if down.curY >= s.rows then ScrollUp(down) else down
  }

  function Tab(s: Screen): Screen {
    var x := Wrap64((TruncDiv(s.curX, 8) + 1) * 8);
    s.(curX := if x >= s.cols then s.cols - 1 else x)
  }

  function WriteGlyph(s: Screen, b: nat): Screen
    requires Fits(s)
  {
    var g := ActiveGrid(s);
    var put := if 0 <= s.curY < s.rows && 0 <= s.curX < s.cols then WithActive(s, PutCell(g, s.curY, s.curX, b)) else s;
    var right := put.(curX := Wrap64(s.curX + 1));
    if right.curX >= s.cols then NextLine(right.(curX := 0)) else right
  }

  /** A byte outside a control sequence. */
  function WriteByte(s: Screen, b: nat): Screen
    requires Fits(s)
  {
    if b == 0x0d then s.(curX := 0)
    else if b == 0x0a then NextLine(s)
    else if b == 0x09 then Tab(s)
    else if b < SPACE then s
    else WriteGlyph(s, b)
  }

  /** The first position from i on whose byte is outside lo..hi. */
  function SkipRange(p: Bytes, i: nat, lo: nat, hi: nat): (j: nat)
    requires i <= |p|
    ensures i <= j <= |p|
    decreases |p| - i
  {
    if i < |p| && lo <= p[i] <= hi then SkipRange(p, i + 1, lo, hi) else i
  }

  /** The position of the final byte, if p starts with a whole control sequence (section 5.4 of ECMA-48). */
  function CsiFinal(p: Bytes): (j: Option<nat>)
    ensures j.Some? ==> 2 <= j.value < |p|
  {
    if |p| < 2 || p[0] != ESC || p[1] != '[' as int then None
    else
      var j := SkipRange(p, SkipRange(p, 2, 0x30, 0x3f), 0x20, 0x2f);
      if j >= |p| then None else Some(j)
  }

  function Split(p: Bytes, separator: nat): (parts: seq<Bytes>)
    ensures parts != []
  {
    if p == [] then [[]]
    else
      var rest := Split(p[1..], separator);
      if p[0] == separator then [[]] + rest else [[p[0]] + rest[0]] + rest[1..]
  }

  function ParamInt(parts: seq<Bytes>, index: nat, default: int): int {
    if index >= |parts| || parts[index] == [] then default
    else
      var n := Atoi(parts[index]);
      if n.valid then n.value else default
  }

  predicate ContainsText(p: Bytes, t: Bytes) {
    |t| <= |p| && (p[..|t|] == t || (p != [] && ContainsText(p[1..], t)))
  }

  const ALT_SCREEN: Bytes := ['?' as int, '1' as int, '0' as int, '4' as int, '9' as int]

  function Max(a: int, b: int): int {
    if a >= b then a else b
  }

  function MoveCursor(s: Screen, parts: seq<Bytes>): Screen {
    s.(curY := Max(Wrap64(ParamInt(parts, 0, 1) - 1), 0), curX := Max(Wrap64(ParamInt(parts, 1, 1) - 1), 0))
  }

  function BlankedGrid(g: Grid, cols: nat): Grid {
    g.(lines := seq(|g.lines|, _ => Blank(cols)))
  }

  function Erase(s: Screen, parts: seq<Bytes>): Screen {
    if ParamInt(parts, 0, 0) != 2 then s
    else WithActive(s, BlankedGrid(ActiveGrid(s), s.cols)).(curX := 0, curY := 0)
  }

  function SwitchGrid(s: Screen, cmd: nat, params: Bytes): Screen {
    if !ContainsText(params, ALT_SCREEN) then s
    else if cmd == 'h' as int then s.(useAlt := true, alt := Some(FreshGrid(s.rows, s.cols)))
    else s.(useAlt := false, alt := None)
  }

  function ApplyCsi(s: Screen, cmd: nat, params: Bytes): Screen {
    var parts := Split(params, ';' as int);
    if cmd == 'H' as int || cmd == 'f' as int then MoveCursor(s, parts)
    else if cmd == 'J' as int then Erase(s, parts)
    else if cmd == 'h' as int || cmd == 'l' as int then SwitchGrid(s, cmd, params)
    else s
  }

  lemma PutFits(g: Grid, rows: nat, cols: nat, y: nat, x: nat, r: Rune)
    requires GridFits(g, rows, cols) && y < rows && x < cols
    ensures GridFits(PutCell(g, y, x, r), rows, cols)
  {
  }

  lemma ScrollFits(g: Grid, rows: nat, cols: nat)
    requires GridFits(g, rows, cols)
    ensures GridFits(ScrolledGrid(g, cols), rows, cols)
  {
    var r := ScrolledGrid(g, cols);
    forall y | 0 <= y < rows
      ensures |r.lines[y]| == cols
    {
      if y < rows - r.shared {
        assert r.lines[y] == g.lines[y + 1] && |g.lines[y + 1]| == cols;
      } else {
        assert r.lines[y] == Blank(cols);
      }
    }
  }

  lemma NextLineFits(s: Screen)
    requires Fits(s)
    ensures Fits(NextLine(s))
  {
    ScrollFits(ActiveGrid(s), s.rows, s.cols);
  }

  lemma ByteFits(s: Screen, b: nat)
    requires Fits(s)
    ensures Fits(WriteByte(s, b))
  {
    if b == 0x0a {
      NextLineFits(s);
    } else if b >= SPACE {
      var put := s;
      if 0 <= s.curY < s.rows && 0 <= s.curX < s.cols {
        PutFits(ActiveGrid(s), s.rows, s.cols, s.curY, s.curX, b);
        put := WithActive(s, PutCell(ActiveGrid(s), s.curY, s.curX, b));
      }
      NextLineFits(put.(curX := 0));
    }
  }

  lemma CsiFits(s: Screen, cmd: nat, params: Bytes)
    requires Fits(s)
    ensures Fits(ApplyCsi(s, cmd, params))
  {
  }

  /** Consuming one token: a whole control sequence, or one byte. */
  function Token(p: Bytes): (n: nat)
    requires p != []
    ensures 1 <= n <= |p|
  {
    match CsiFinal(p) case Some(j) => j + 1 case None => 1
  }

  function WriteToken(s: Screen, p: Bytes): (r: Screen)
    requires p != [] && Fits(s)
    ensures Fits(r)
  {
    match CsiFinal(p)
    case Some(j) => CsiFits(s, p[j], p[2..j]); ApplyCsi(s, p[j], p[2..j])
    case None => ByteFits(s, p[0]); WriteByte(s, p[0])
  }

  /** What a Write of p does. */
  function Written(s: Screen, p: Bytes): (r: Screen)
    requires Fits(s)
    ensures Fits(r)
    decreases |p|
  {
    if p == [] then s else Written(WriteToken(s, p), p[Token(p)..])
  }

  /** A snapshot keeps, per row, a list of texts of which only the first is used. */
  datatype Snapshot = Snapshot(cols: int, rows: int, curX: int, curY: int, useAlt: bool, cells: seq<seq<seq<Rune>>>)

  function Visible(r: Rune): Rune {
    if r == 0 then SPACE else r
  }

  function VisibleLine(line: seq<Rune>): seq<Rune> {
    seq(|line|, x requires 0 <= x < |line| => Visible(line[x]))
  }

  function TrimSpaces(t: seq<Rune>): (r: seq<Rune>)
    ensures |r| <= |t|
  {
    if t != [] && t[|t| - 1] == SPACE then TrimSpaces(t[..|t| - 1]) else t
  }

  function SnapshotOf(s: Screen): Snapshot {
    var g := ActiveGrid(s);
    Snapshot(s.cols, s.rows, s.curX, s.curY, s.useAlt,
             seq(|g.lines|, y requires 0 <= y < |g.lines| =>
               seq(s.cols, x => if x == 0 then TrimSpaces(VisibleLine(g.lines[y])) else [])))
  }

  /** The bytes a rune takes in the snapshot's text. */
  function RuneLength(r: Rune): (n: nat)
    ensures n >= 1
  {
    if r < 0x80 then 1 else if r < 0x800 then 2 else if r < 0x1_0000 then 3 else 4
  }

  /** Places a text on a line, each rune at its byte offset, up to the line's end. */
  function Placed(line: seq<Rune>, text: seq<Rune>, x: nat): (r: seq<Rune>)
    ensures |r| == |line|
    decreases |text|
  {
    if text == [] || x >= |line| then line
    else Placed(line[x := text[0]], text[1..], x + RuneLength(text[0]))
  }

  function RestoredGrid(snap: Snapshot): Grid
    requires snap.rows >= 0 && snap.cols >= 0
  {
    Grid(seq(snap.rows, y requires 0 <= y < snap.rows =>
           if y < |snap.cells| && snap.cells[y] != [] then Placed(Blank(snap.cols), snap.cells[y][0], 0)
             else Blank(snap.cols)), 1)
  }

  function Restored(s: Screen, snap: Snapshot): Screen
    requires snap.rows >= 0 && snap.cols >= 0
  {
    Screen(snap.cols, snap.rows, snap.curX, snap.curY, RestoredGrid(snap), s.alt, snap.useAlt)
  }
}
