/** Exactly where a stream of bytes may be cut: writing in chunks is writing at once for every screen and every
    continuation if and only if no token before the cut ends inside an escape. */
module ScreenChunks {
  import opened Texts
  import opened Wrappers
  import opened Screen
  import opened ScreenLaws

  /** A cut after p shows on no screen, whatever is written next. */
  ghost predicate ChunksAgree(p: Bytes) {
    forall s, q :: Fits(s) ==> Written(s, p + q) == Written(Written(s, p), q)
  }

  /** The first token of p is whole, or no escape. */
  predicate TokenWhole(p: Bytes)
    requires p != []
  {
    p[0] == ESC ==> |p| >= 2 && (p[1] == '[' as int ==> CsiFinal(p).Some?)
  }

  lemma WholeToken(s: Screen, p: Bytes, q: Bytes)
    requires Fits(s) && p != [] && TokenWhole(p)
    ensures Written(s, p + q) == Written(WriteToken(s, p), p[Token(p)..] + q)
    ensures Written(s, p) == Written(WriteToken(s, p), p[Token(p)..])
  {
    if CsiFinal(p).Some? {
      SkipAppend(p, q, 2, 0x30, 0x3f);
      SkipAppend(p, q, SkipRange(p, 2, 0x30, 0x3f), 0x20, 0x2f);
    }
    assert CsiFinal(p + q) == CsiFinal(p);
    var n := Token(p);
    assert (p + q)[n..] == p[n..] + q;
    if CsiFinal(p).Some? {
      assert (p + q)[2..n - 1] == p[2..n - 1];
    }
    hide SkipRange, CsiFinal, ApplyCsi, WriteByte;
  }

  /** The column after k glyphs on a screen of the given width. */
  function Column(x: int, cols: nat, k: nat): int
    decreases k
  {
    if k == 0 then x
    else
      var right := Wrap64(x + 1);
      Column(if right >= cols then 0 else right, cols, k - 1)
  }

  predicate Fits64(x: int) {
    -MAX_INT - 1 <= x <= MAX_INT
  }

  /** Fewer glyphs than the screen is wide never bring the cursor back to its column. */
  lemma {:induction false} ColumnIs(x: int, cols: nat, k: nat)
    requires Fits64(x) && k < cols <= MAX_INT
    ensures Column(x, cols, k) ==
      if x < 0 || x + k < cols then x + k
      else if x < cols then x + k - cols
      else if k == 0 then x
      else if x == MAX_INT then -MAX_INT - 1 + (k - 1)
      else k - 1
    decreases k
  {
    if k == 0 {
    } else {
      if x < MAX_INT {
        WrapSmall(x + 1);
      } else {
        assert Wrap64(MAX_INT + 1) == -MAX_INT - 1;
      }
      var right := Wrap64(x + 1);
      ColumnIs(if right >= cols then 0 else right, cols, k - 1);
    }
  }

  lemma GlyphMoves(s: Screen, b: nat)
    requires Fits(s) && b >= SPACE
    ensures var r := WriteByte(s, b); r.cols == s.cols && r.curX == Column(s.curX, s.cols, 1)
  {
    hide PutCell, ScrolledGrid, Wrap64;
    var right := Wrap64(s.curX + 1);
    var x := if right >= s.cols then 0 else right;
    assert Column(x, s.cols, 0) == x;
    assert Column(s.curX, s.cols, 1) == Column(x, s.cols, 0);
  }

  lemma {:induction false} ColumnsAdd(x: int, cols: nat, j: nat, k: nat)
    ensures Column(Column(x, cols, j), cols, k) == Column(x, cols, j + k)
    decreases j
  {
    if j == 0 {
    } else {
      var right := Wrap64(x + 1);
      ColumnsAdd(if right >= cols then 0 else right, cols, j - 1, k);
    }
  }

  /** Bytes that are all glyphs move the column once each. */
  lemma {:induction false} GlyphsMove(s: Screen, t: Bytes)
    requires Fits(s) && forall i :: 0 <= i < |t| ==> t[i] >= SPACE
    ensures Written(s, t).cols == s.cols && Written(s, t).curX == Column(s.curX, s.cols, |t|)
    decreases |t|
  {
    if t == [] {
    } else {
      ByteFits(s, t[0]);
      GlyphMoves(s, t[0]);
      assert CsiFinal(t).None?;
      var r := WriteByte(s, t[0]);
      assert Written(s, t) == Written(r, t[1..]);
      GlyphsMove(r, t[1..]);
      ColumnsAdd(s.curX, s.cols, 1, |t| - 1);
    }
  }

  /** A token keeps the width, and a 64-bit column a 64-bit one. */
  lemma TokenKeeps(s: Screen, p: Bytes)
    requires Fits(s) && p != [] && Fits64(s.curX) && s.cols <= MAX_INT
    ensures var r := WriteToken(s, p); r.cols == s.cols && Fits64(r.curX)
  {
    hide PutCell, ScrolledGrid, BlankedGrid, FreshGrid, Split, ContainsText, ParamInt;
  }

  const LETTER_M: nat := 'm' as int

  /** The parameter bytes of an open sequence are glyphs. */
  lemma {:induction false} SkippedBytes(p: Bytes, i: nat, lo: nat, hi: nat, k: nat)
    requires i <= |p| && i <= k < SkipRange(p, i, lo, hi)
    ensures lo <= p[k] <= hi
    decreases |p| - i
  {
    if k == i {
    } else {
      SkippedBytes(p, i + 1, lo, hi, k);
    }
  }

  lemma {:induction false} SkipTo(p: Bytes, q: Bytes, i: nat, lo: nat, hi: nat)
    requires i <= |p| && SkipRange(p, i, lo, hi) == |p| && q != [] && !(lo <= q[0] <= hi)
    ensures SkipRange(p + q, i, lo, hi) == |p|
    decreases |p| - i
  {
    if i >= |p| {
    } else {
      SkipTo(p, q, i + 1, lo, hi);
    }
  }

  /** An open sequence is closed by an "m", which then does nothing. */
  lemma OpenCloses(p: Bytes)
    requires |p| >= 2 && p[0] == ESC && p[1] == '[' as int && CsiFinal(p).None?
    ensures CsiFinal(p + [LETTER_M]) == Some(|p|)
    ensures forall i :: 1 <= i < |p| ==> SPACE <= p[i] < LETTER_M
  {
    var q := [LETTER_M];
    var j := SkipRange(p, 2, 0x30, 0x3f);
    if j < |p| {
      SkipAppend(p, q, 2, 0x30, 0x3f);
    } else {
      SkipTo(p, q, 2, 0x30, 0x3f);
      assert (p + q)[|p|] == LETTER_M && SkipRange(p + q, |p|, 0x20, 0x2f) == |p|;
    }
    if j < |p| {
      SkipTo(p, q, j, 0x20, 0x2f);
    }
    forall i | 1 <= i < |p|
      ensures SPACE <= p[i] < LETTER_M
    {
      if 2 <= i < j {
        SkippedBytes(p, 2, 0x30, 0x3f, i);
      } else if i >= j {
        SkippedBytes(p, j, 0x20, 0x2f, i);
      }
    }
  }

  lemma OpenDiffers(s: Screen, p: Bytes)
    requires Fits(s) && Fits64(s.curX) && |p| + 1 < s.cols <= MAX_INT
    requires |p| >= 2 && p[0] == ESC && p[1] == '[' as int && CsiFinal(p).None?
    ensures Written(s, p + [LETTER_M]) != Written(Written(s, p), [LETTER_M])
  {
    var q := [LETTER_M];
    OpenCloses(p);
    assert (p + q)[|p| + 1..] == [] && (p + q)[|p|] == LETTER_M;
    assert WriteToken(s, p + q) == s && Written(s, p + q) == s;
    assert WriteByte(s, ESC) == s && Written(s, p) == Written(s, p[1..]);
    GlyphsMove(s, p[1..]);
    GlyphsMove(Written(s, p), q);
    ColumnsAdd(s.curX, s.cols, |p| - 1, 1);
    ColumnIs(s.curX, s.cols, |p|);
  }

  lemma TrailingDiffers(s: Screen)
    requires Fits(s) && Fits64(s.curX) && 2 < s.cols <= MAX_INT
    ensures Written(s, [ESC] + ['[' as int, LETTER_M]) != Written(Written(s, [ESC]), ['[' as int, LETTER_M])
  {
    var q := ['[' as int, LETTER_M];
    var p := [ESC] + q;
    assert p[0] == ESC && p[1] == '[' as int && p[2] == LETTER_M;
    assert CsiFinal(p) == Some(2) && p[3..] == [];
    assert WriteToken(s, p) == s && Written(s, p) == s;
    OneByte(s, ESC);
    assert WriteByte(s, ESC) == s;
    GlyphsMove(s, q);
    ColumnIs(s.curX, s.cols, 2);
  }

  /** After bytes that end inside an escape, on any screen wide enough, some continuation tells the two apart. */
  lemma {:induction false} UnsettledDiffers(s: Screen, p: Bytes) returns (q: Bytes)
    requires !Settled(p) && Fits(s) && Fits64(s.curX) && |p| + 2 <= s.cols <= MAX_INT
    ensures Written(s, p + q) != Written(Written(s, p), q)
    decreases |p|
  {
    if TokenWhole(p) {
      var r, rest := WriteToken(s, p), p[Token(p)..];
      TokenKeeps(s, p);
      q := UnsettledDiffers(r, rest);
      WholeToken(s, p, q);
    } else if |p| == 1 {
      q := ['[' as int, LETTER_M];
      assert p == [ESC];
      TrailingDiffers(s);
    } else {
      q := [LETTER_M];
      OpenDiffers(s, p);
    }
  }

  /** The exact condition. The bound on p says no more than that such a screen has a 64-bit width. */
  lemma SettledIff(p: Bytes)
    requires |p| + 2 <= MAX_INT
    ensures Settled(p) <==> ChunksAgree(p)
  {
    if Settled(p) {
      forall s, q | Fits(s)
        ensures Written(s, p + q) == Written(Written(s, p), q)
      {
        WriteInChunks(s, p, q);
      }
    } else {
      var s := NewScreen(|p| + 2, 1);
      var q := UnsettledDiffers(s, p);
      assert Fits(s);
    }
  }
}
