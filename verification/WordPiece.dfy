/** The WordPiece tokenizer (tokenizer.go), from words already split and lowered. */
module WordPiece {
  import opened Wrappers

  type Rune = nat
  type Word = seq<Rune>

  const HASHES: Word := ['#' as int, '#' as int]

  /** Token ids are line numbers of the vocabulary file. */
  type Vocab = map<Word, nat>

  /** The vocabulary entry asked for: a piece after the first carries two hashes. */
  function Piece(word: Word, start: nat, end: nat): Word
    requires start <= end <= |word|
  {
    (if start > 0 then HASHES else []) + word[start..end]
  }

  /** The longest piece from start that ends at `end` or before, if there is one. */
  function Longest(vocab: Vocab, word: Word, start: nat, end: nat): (r: Option<nat>)
    requires start <= end <= |word|
    ensures r.Some? ==> start < r.value <= end
    decreases end
  {
    if end == start then None
    else if Piece(word, start, end) in vocab then Some(end)
    else Longest(vocab, word, start, end - 1)
  }

  /** Where the greedy pieces from start end, unless it finds none at some position. */
  function Ends(vocab: Vocab, word: Word, start: nat): (r: Option<seq<nat>>)
    requires start <= |word|
    decreases |word| - start
  {
    if start == |word| then Some([])
    else
      match Longest(vocab, word, start, |word|)
      case None => None
      case Some(end) =>
        (match Ends(vocab, word, end) case None => None case Some(later) => Some([end] + later))
  }

  /** Cut points that leave no piece empty and reach the end of the word. */
  predicate Cuts(word: Word, start: nat, ends: seq<nat>)
    decreases |ends|
  {
    if ends == [] then start == |word| else start < ends[0] <= |word| && Cuts(word, ends[0], ends[1..])
  }

  /** The pieces between cut points, without hashes. */
  function Parts(word: Word, start: nat, ends: seq<nat>): seq<Word>
    requires Cuts(word, start, ends)
    decreases |ends|
  {
    if ends == [] then [] else [word[start..ends[0]]] + Parts(word, ends[0], ends[1..])
  }

  function Joined(parts: seq<Word>): Word {
    if parts == [] then [] else parts[0] + Joined(parts[1..])
  }

  /** Every piece is in the vocabulary, and no longer one is at its position. */
  ghost predicate Greedy(vocab: Vocab, word: Word, start: nat, ends: seq<nat>)
    requires Cuts(word, start, ends)
    decreases |ends|
  {
    ends != [] ==>
      && Piece(word, start, ends[0]) in vocab
      && (forall end :: ends[0] < end <= |word| ==> Piece(word, start, end) !in vocab)
      && Greedy(vocab, word, ends[0], ends[1..])
  }

  function Ids(vocab: Vocab, word: Word, start: nat, ends: seq<nat>): seq<nat>
    requires Cuts(word, start, ends) && AllKnown(vocab, word, start, ends)
    decreases |ends|
  {
    if ends == [] then [] else [vocab[Piece(word, start, ends[0])]] + Ids(vocab, word, ends[0], ends[1..])
  }

  predicate AllKnown(vocab: Vocab, word: Word, start: nat, ends: seq<nat>)
    requires Cuts(word, start, ends)
    decreases |ends|
  {
    ends == [] || (Piece(word, start, ends[0]) in vocab && AllKnown(vocab, word, ends[0], ends[1..]))
  }

  lemma {:induction false} LongestIs(vocab: Vocab, word: Word, start: nat, end: nat)
    requires start <= end <= |word|
    ensures var r := Longest(vocab, word, start, end);
      && (r.Some? ==> Piece(word, start, r.value) in vocab)
      && forall e :: (if r.Some? then r.value else start) < e <= end ==> Piece(word, start, e) !in vocab
    decreases end
  {
    if end == start || Piece(word, start, end) in vocab {
    } else {
      LongestIs(vocab, word, start, end - 1);
    }
  }

  lemma {:induction false} EndsAreKnown(vocab: Vocab, word: Word, start: nat)
    requires start <= |word| && Ends(vocab, word, start).Some?
    ensures var ends := Ends(vocab, word, start).value; Cuts(word, start, ends) && AllKnown(vocab, word, start, ends)
    decreases |word| - start
  {
    if start >= |word| {
    } else {
      LongestIs(vocab, word, start, |word|);
      EndsAreKnown(vocab, word, Longest(vocab, word, start, |word|).value);
    }
  }

  /** What tokenizing one word gives. */
  function Tokens(vocab: Vocab, unk: nat, word: Word): seq<nat> {
    if word in vocab then [vocab[word]]
    else if Ends(vocab, word, 0).None? then [unk]
    else
      EndsAreKnown(vocab, word, 0);
      Ids(vocab, word, 0, Ends(vocab, word, 0).value)
  }

  /** The result is the greedy cut, and there is exactly one such cut. */
  lemma {:induction false} GreedyIff(vocab: Vocab, word: Word, start: nat, ends: seq<nat>)
    requires Cuts(word, start, ends) && start <= |word|
    ensures Greedy(vocab, word, start, ends) <==> Ends(vocab, word, start) == Some(ends)
    decreases |ends|
  {
    if start >= |word| {
    } else {
      LongestIs(vocab, word, start, |word|);
      GreedyIff(vocab, word, ends[0], ends[1..]);
      assert ends == [ends[0]] + ends[1..];
    }
  }

  lemma {:induction false} PartsJoin(word: Word, start: nat, ends: seq<nat>)
    requires Cuts(word, start, ends) && start <= |word|
    ensures Joined(Parts(word, start, ends)) == word[start..]
    decreases |ends|
  {
    if ends == [] {
    } else {
      PartsJoin(word, ends[0], ends[1..]);
      assert word[start..] == word[start..ends[0]] + word[ends[0]..];
    }
  }

  /** Unless it gives up, the pieces without hashes make up the word, and each is the longest match at its place. */
  lemma PiecesMakeTheWord(vocab: Vocab, word: Word)
    requires Ends(vocab, word, 0).Some?
    ensures var ends := Ends(vocab, word, 0).value;
      Cuts(word, 0, ends) && Greedy(vocab, word, 0, ends) && Joined(Parts(word, 0, ends)) == word
  {
    EndsAreKnown(vocab, word, 0);
    var ends := Ends(vocab, word, 0).value;
    GreedyIff(vocab, word, 0, ends);
    PartsJoin(word, 0, ends);
    assert word[0..] == word;
  }

  /** A cut of the whole word whose every piece is known and the longest at its place. */
  ghost predicate GreedyCut(vocab: Vocab, word: Word, ends: seq<nat>) {
    Cuts(word, 0, ends) && Greedy(vocab, word, 0, ends)
  }

  /** The loop gives up exactly on the words that have no such cut, whatever other cuts they have. */
  lemma GivesUpIff(vocab: Vocab, word: Word)
    ensures Ends(vocab, word, 0).None? <==> forall ends :: !GreedyCut(vocab, word, ends)
  {
    if Ends(vocab, word, 0).Some? {
      PiecesMakeTheWord(vocab, word);
      assert GreedyCut(vocab, word, Ends(vocab, word, 0).value);
    }
    forall ends | GreedyCut(vocab, word, ends)
      ensures Ends(vocab, word, 0).Some?
    {
      GreedyIff(vocab, word, 0, ends);
    }
  }

  /** The whole-word shortcut gives what the greedy loop would. */
  lemma ShortcutAgrees(vocab: Vocab, word: Word)
    requires word in vocab && word != []
    ensures Ends(vocab, word, 0) == Some([|word|]) && Ids(vocab, word, 0, [|word|]) == [vocab[word]]
  {
    assert Piece(word, 0, |word|) == word;
    assert Longest(vocab, word, 0, |word|) == Some(|word|) && Ends(vocab, word, |word|) == Some([]);
    assert [|word|] + [] == [|word|] && [|word|][1..] == [];
  }

  /** Taking the longest piece first can miss a cut that exists. */
  lemma GreedyCanMissACut(a: Rune, b: Rune, c: Rune)
    ensures var vocab: Vocab := map[[a] := 0, [a, b] := 1, HASHES + [b, c] := 2];
      a != b && a != c && b != c && '#' as int !in {a, b, c} ==>
        Ends(vocab, [a, b, c], 0) == None && Cuts([a, b, c], 0, [1, 3]) && AllKnown(vocab, [a, b, c], 0, [1, 3])
  {
    var vocab: Vocab := map[[a] := 0, [a, b] := 1, HASHES + [b, c] := 2];
    var word: Word := [a, b, c];
    if a != b && a != c && b != c && '#' as int !in {a, b, c} {
      assert Piece(word, 0, 3) == word && word[1] != '#' as int && word[0] != '#' as int;
      assert |[a]| == 1 && |[a, b]| == 2 && |HASHES + [b, c]| == 4;
      assert word !in vocab;
      assert Piece(word, 0, 2) == [a, b] && Piece(word, 0, 1) == [a] && Piece(word, 1, 3) == HASHES + [b, c];
      assert Longest(vocab, word, 0, 3) == Some(2);
      assert |Piece(word, 2, 3)| == 3;
      assert Longest(vocab, word, 2, 3) == None;
      assert [1, 3][1..] == [3] && [3][1..] == [];
    }
  }

  class Tokenizer {
    const vocab: Vocab
    const unk: nat
    const cls: nat
    const sep: nat
    const pad: nat

    constructor (v: Vocab, u: nat, c: nat, s: nat, p: nat)
      ensures vocab == v && unk == u && cls == c && sep == s && pad == p
    {
      vocab, unk, cls, sep, pad := v, u, c, s, p;
    }

    /** The greedy longest-match loop. */
    method WordPiece(word: Word) returns (ids: seq<nat>)
      ensures ids == Tokens(vocab, unk, word)
    {
      if word in vocab {
        return [vocab[word]];
      }
      var start := 0;
      ids := [];
      while start < |word|
        invariant 0 <= start <= |word|
        invariant Ends(vocab, word, 0).Some? <==> Ends(vocab, word, start).Some?
        invariant Ends(vocab, word, 0).Some? ==> Tokens(vocab, unk, word) == ids + Rest(vocab, word, start)
        decreases |word| - start
      {
        var end := |word|;
        var found: int := -1;
        while end > start
          invariant start <= end <= |word| && found == -1
          invariant Longest(vocab, word, start, |word|) == Longest(vocab, word, start, end)
        {
          var sub := Piece(word, start, end);
          if sub in vocab {
            found := vocab[sub];
            break;
          }
          end := end - 1;
        }
        if found < 0 {
          return [unk];
        }
        if Ends(vocab, word, start).Some? {
          assert ids + ([found] + Rest(vocab, word, end)) == ids + [found] + Rest(vocab, word, end);
        }
        ids := ids + [found];
        start := end;
      }
    }

    /** The ids of a text's words between CLS and SEP, cut to the length with SEP last, and padded. */
    method Encode(words: seq<Word>, maxLen: int) returns (ids: array<nat>, mask: array<nat>, types: array<nat>)
      ensures fresh(ids) && fresh(mask) && fresh(types)
      ensures ids.Length == mask.Length == types.Length == Length(maxLen)
      ensures ids[..] == Padded(vocab, unk, cls, sep, pad, words, Length(maxLen))
      ensures mask[..] == Mask(Min(|Whole(vocab, unk, cls, sep, words)|, Length(maxLen)), Length(maxLen))
      ensures forall i :: 0 <= i < types.Length ==> types[i] == 0
    {
      hide Tokens;
      var n := if maxLen < 4 then 4 else maxLen;
      var tokens := [cls];
      var i := 0;
      while i < |words|
        invariant 0 <= i <= |words|
        invariant tokens == [cls] + AllTokens(vocab, unk, words[..i])
      {
        var more := WordPiece(words[i]);
        AllTokensGrow(vocab, unk, words, i);
        tokens := tokens + more;
        i := i + 1;
      }
      assert words[..i] == words;
      tokens := tokens + [sep];
      hide AllTokens;
      if |tokens| > n {
        tokens := tokens[..n];
        tokens := tokens[n - 1 := sep];
      }
      ids, mask, types := Fill(tokens, n);
      assert ids[..] == Padded(vocab, unk, cls, sep, pad, words, n);
    }

    method Fill(tokens: seq<nat>, n: nat) returns (ids: array<nat>, mask: array<nat>, types: array<nat>)
      requires |tokens| <= n
      ensures fresh(ids) && fresh(mask) && fresh(types) && ids.Length == mask.Length == types.Length == n
      ensures ids[..] == tokens + seq(n - |tokens|, _ => pad)
      ensures mask[..] == Mask(|tokens|, n) && forall i :: 0 <= i < n ==> types[i] == 0
    {
      ids, mask, types := new nat[n](_ => 0), new nat[n](_ => 0), new nat[n](_ => 0);
      var i := 0;
      while i < n
        invariant 0 <= i <= n
        invariant forall k :: 0 <= k < i ==> ids[k] == if k < |tokens| then tokens[k] else pad
        invariant forall k :: 0 <= k < i ==> mask[k] == if k < |tokens| then 1 else 0
        invariant forall k :: 0 <= k < n ==> types[k] == 0
      {
        if i < |tokens| {
          ids[i] := tokens[i];
          mask[i] := 1;
        } else {
          ids[i] := pad;
          mask[i] := 0;
        }
        i := i + 1;
      }
      assert ids[..] == tokens + seq(n - |tokens|, _ => pad);
      assert mask[..] == Mask(|tokens|, n);
    }
  }

  function Rest(vocab: Vocab, word: Word, start: nat): seq<nat>
    requires start <= |word| && Ends(vocab, word, start).Some?
  {
    EndsAreKnown(vocab, word, start);
    Ids(vocab, word, start, Ends(vocab, word, start).value)
  }

  function Min(a: nat, b: nat): nat {
    if a <= b then a else b
  }

  function Length(maxLen: int): nat {
    if maxLen < 4 then 4 else maxLen
  }

  function AllTokens(vocab: Vocab, unk: nat, words: seq<Word>): seq<nat> {
    if words == [] then [] else Tokens(vocab, unk, words[0]) + AllTokens(vocab, unk, words[1..])
  }

  lemma {:induction false} AllTokensGrow(vocab: Vocab, unk: nat, words: seq<Word>, i: nat)
    requires i < |words|
    ensures AllTokens(vocab, unk, words[..i + 1]) == AllTokens(vocab, unk, words[..i]) + Tokens(vocab, unk, words[i])
  {
    assert words[..i + 1][0] == words[0] && words[..i + 1][1..] == words[1..][..i];
    if i > 0 {
      assert words[..i][1..] == words[1..][..i - 1];
      AllTokensGrow(vocab, unk, words[1..], i - 1);
    } else {
      assert words[1..][..0] == [] && words[..0] == [];
    }
  }

  function Whole(vocab: Vocab, unk: nat, cls: nat, sep: nat, words: seq<Word>): seq<nat> {
    [cls] + AllTokens(vocab, unk, words) + [sep]
  }

  function Padded(vocab: Vocab, unk: nat, cls: nat, sep: nat, pad: nat, words: seq<Word>, n: nat): seq<nat>
    requires n >= 4
  {
    var whole := Whole(vocab, unk, cls, sep, words);
    if |whole| > n then whole[..n - 1] + [sep] else whole + seq(n - |whole|, _ => pad)
  }

  function Mask(ones: nat, n: nat): seq<nat>
    requires ones <= n
  {
    seq(ones, _ => 1) + seq(n - ones, _ => 0)
  }

  /** Ones first, zeros after. */
  lemma MaskIs(ones: nat, n: nat, i: nat)
    requires ones <= n && i < n
    ensures |Mask(ones, n)| == n && Mask(ones, n)[i] == if i < ones then 1 else 0
  {
  }

  /** Whatever the text, the ids start with CLS, the last one the mask covers is SEP, and the rest is padding; a text
      that fits keeps all its tokens, and a longer one keeps as many as fit before SEP. */
  lemma EncodingShape(vocab: Vocab, unk: nat, cls: nat, sep: nat, pad: nat, words: seq<Word>, n: nat)
    requires n >= 4
    ensures var ids := Padded(vocab, unk, cls, sep, pad, words, n);
      var all := AllTokens(vocab, unk, words);
      var k := Min(|all| + 2, n);
      && k == Min(|Whole(vocab, unk, cls, sep, words)|, n)
      && |ids| == n && 2 <= k <= n && ids[0] == cls && ids[k - 1] == sep
      && ids[1..k - 1] == all[..k - 2] && forall i :: k <= i < n ==> ids[i] == pad
  {
    hide AllTokens;
    var all, ids := AllTokens(vocab, unk, words), Padded(vocab, unk, cls, sep, pad, words, n);
    var whole := [cls] + all + [sep];
    var k := Min(|all| + 2, n);
    assert whole[1..k - 1] == all[..k - 2];
    assert ids[1..k - 1] == whole[1..k - 1];
  }
}
