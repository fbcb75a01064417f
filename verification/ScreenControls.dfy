/** What control sequences do to a screen: cursor addressing, erasing, and the alternate grid. */
module ScreenControls {
  import opened Texts
  import opened Wrappers
  import opened Screen
  import opened ScreenLaws

  const SEMICOLON := 0x3b

  predicate InRange(t: Bytes, lo: nat, hi: nat) {
    forall i :: 0 <= i < |t| ==> lo <= t[i] <= hi
  }

  lemma {:induction false} SkipsRun(p: Bytes, i: nat, n: nat, lo: nat, hi: nat)
    requires i + n <= |p| && InRange(p[i..i + n], lo, hi) && (i + n < |p| ==> !(lo <= p[i + n] <= hi))
    ensures SkipRange(p, i, lo, hi) == i + n
    decreases n
  {
    if n == 0 {
    } else {
      assert p[i..i + n][0] == p[i];
      assert p[i + 1..i + 1 + (n - 1)] == p[i..i + n][1..];
      SkipsRun(p, i + 1, n - 1, lo, hi);
    }
  }

  /** The bytes of a control sequence with the given parameters. */
  function Control(params: Bytes, cmd: nat): Bytes {
    [ESC, '[' as int] + params + [cmd]
  }

  /** A sequence whose parameter bytes are parameters is one token. */
  lemma ControlApplies(s: Screen, params: Bytes, cmd: nat)
    requires Fits(s) && InRange(params, 0x30, 0x3f) && cmd >= 0x40
    ensures Written(s, Control(params, cmd)) == ApplyCsi(s, cmd, params)
  {
    var p := Control(params, cmd);
    assert p[2..2 + |params|] == params && p[2 + |params|] == cmd;
    SkipsRun(p, 2, |params|, 0x30, 0x3f);
    assert CsiFinal(p) == Some(2 + |params|);
    assert p[3 + |params|..] == [];
    CsiFits(s, cmd, params);
    assert WriteToken(s, p) == ApplyCsi(s, cmd, params);
  }

  predicate Lacks(t: Bytes, separator: nat) {
    forall i :: 0 <= i < |t| ==> t[i] != separator
  }

  lemma {:induction false} SplitNone(t: Bytes, separator: nat)
    requires Lacks(t, separator)
    ensures Split(t, separator) == [t]
  {
    if t == [] {
    } else {
      SplitNone(t[1..], separator);
      assert [t[0]] + t[1..] == t;
    }
  }

  lemma {:induction false} SplitTwo(a: Bytes, b: Bytes, separator: nat)
    requires Lacks(a, separator) && Lacks(b, separator)
    ensures Split(a + [separator] + b, separator) == [a, b]
  {
    var t := a + [separator] + b;
    if a == [] {
      assert t[0] == separator && t[1..] == b;
      SplitNone(b, separator);
    } else {
      assert t[0] == a[0] && t[1..] == a[1..] + [separator] + b;
      SplitTwo(a[1..], b, separator);
      assert [a[0]] + a[1..] == a;
    }
  }

  lemma DigitsLack(n: nat)
    ensures Lacks(Itoa(n), SEMICOLON) && InRange(Itoa(n), 0x30, 0x39)
  {
    ItoaDigits(n);
  }

  lemma Moves(s: Screen, a: Bytes, b: Bytes, row: nat, col: nat)
    requires row < MAX_INT && col < MAX_INT && a != [] && b != []
    requires Atoi(a) == Parsed(row + 1, true) && Atoi(b) == Parsed(col + 1, true)
    ensures MoveCursor(s, [a, b]) == s.(curY := row, curX := col)
  {
    hide Atoi;
    WrapSmall(row);
    WrapSmall(col);
  }

  lemma Addresses(a: Bytes, b: Bytes)
    requires Lacks(a, SEMICOLON) && Lacks(b, SEMICOLON) && InRange(a, 0x30, 0x39) && InRange(b, 0x30, 0x39)
    ensures var params := a + [SEMICOLON] + b; InRange(params, 0x30, 0x3f) && Split(params, SEMICOLON) == [a, b]
  {
    SplitTwo(a, b, SEMICOLON);
  }

  /** Addressing the cursor by row and column, each counted from 1 in the sequence. */
  lemma CursorGoes(s: Screen, row: nat, col: nat)
    requires Fits(s) && row < MAX_INT && col < MAX_INT
    ensures Written(s, Control(Itoa(row + 1) + [SEMICOLON] + Itoa(col + 1), 'H' as int)) == s.(curY := row, curX := col)
  {
    var a, b := Itoa(row + 1), Itoa(col + 1);
    DigitsLack(row + 1);
    DigitsLack(col + 1);
    AtoiItoa(row + 1);
    AtoiItoa(col + 1);
    Addresses(a, b);
    Moves(s, a, b, row, col);
    hide Itoa, Atoi, Split, Written, MoveCursor, Control;
    ControlApplies(s, a + [SEMICOLON] + b, 'H' as int);
  }

  /** Erasing with parameter 2 blanks the shown grid and brings the cursor home; nothing else of J does anything. */
  lemma EraseAllOnly(s: Screen, n: nat)
    requires Fits(s) && n <= MAX_INT
    ensures Written(s, Control(Itoa(n), 'J' as int)) ==
      if n == 2 then WithActive(s, BlankedGrid(ActiveGrid(s), s.cols)).(curX := 0, curY := 0) else s
  {
    DigitsLack(n);
    ControlApplies(s, Itoa(n), 'J' as int);
    SplitNone(Itoa(n), SEMICOLON);
    AtoiItoa(n);
  }

  /** No token of p is the sequence that leaves the alternate grid. */
  predicate NeverLeaves(p: Bytes)
    decreases |p|
  {
    p == [] ||
    ((match CsiFinal(p) case None => true case Some(j) => !(p[j] == 'l' as int && ContainsText(p[2..j], ALT_SCREEN)))
     && NeverLeaves(p[Token(p)..]))
  }

  /** Nothing written on the alternate grid touches the main one, however it scrolls or erases. */
  lemma {:induction false} AlternateKeepsMain(s: Screen, p: Bytes)
    requires Fits(s) && s.useAlt && s.alt.Some? && NeverLeaves(p)
    ensures var r := Written(s, p); r.main == s.main && r.useAlt && r.alt.Some? && r.cols == s.cols && r.rows == s.rows
    decreases |p|
  {
    if p == [] {
    } else {
      AlternateStep(s, p);
      AlternateKeepsMain(WriteToken(s, p), p[Token(p)..]);
    }
  }

  lemma AlternateStep(s: Screen, p: Bytes)
    requires Fits(s) && s.useAlt && s.alt.Some? && p != [] && NeverLeaves(p)
    ensures var r := WriteToken(s, p);
      r.main == s.main && r.useAlt && r.alt.Some? && r.cols == s.cols && r.rows == s.rows
  {
    hide PutCell, ScrolledGrid, BlankedGrid, FreshGrid, Split, ContainsText;
  }

  /** Writing never makes rows of the main grid distinct again: only a grid that is new starts with one shared row. */
  lemma {:induction false} MainSharingGrows(s: Screen, p: Bytes)
    requires Fits(s)
    ensures Written(s, p).main.shared >= s.main.shared
    decreases |p|
  {
    if p == [] {
    } else {
      SharingStep(s, p);
      MainSharingGrows(WriteToken(s, p), p[Token(p)..]);
    }
  }

  lemma SharingStep(s: Screen, p: Bytes)
    requires Fits(s) && p != []
    ensures WriteToken(s, p).main.shared >= s.main.shared
  {
    hide FreshGrid, Split, ContainsText, Blank;
  }
}
