/** What the tokenizer's ids stand for and what pooling averages, told without the loops that compute them. */
module TextEffects {
  import opened WordPiece
  import opened Pooling

  /** The first piece of a word is looked up as it stands, any other behind two hashes. */
  lemma PieceIs(word: Word, start: nat, end: nat)
    requires start <= end <= |word|
    ensures Piece(word, start, end)
      == if start == 0 then word[..end] else ['#' as int, '#' as int] + word[start..end]
  {
    assert start == 0 ==> [] + word[0..end] == word[..end];
  }

  /** The ends rise to the end of the word. */
  ghost predicate Rises(word: Word, ends: seq<nat>) {
    && (forall k :: 0 <= k < |ends| ==> ends[k] <= |word| && (if k == 0 then 0 else ends[k - 1]) < ends[k])
    && (if ends == [] then word == [] else ends[|ends| - 1] == |word|)
  }

  /** Where piece k of a cut from start begins. */
  function From(start: nat, ends: seq<nat>, k: nat): nat
    requires k < |ends|
  {
    if k == 0 then start else ends[k - 1]
  }

  /** The piece is known, and none that begins there and is longer is. */
  ghost predicate LongestFrom(vocab: Vocab, word: Word, from: nat, end: nat) {
    && from < end <= |word| && Piece(word, from, end) in vocab
    && forall e :: end < e <= |word| ==> Piece(word, from, e) !in vocab
  }

  /** Every piece is the longest known one at its place. */
  ghost predicate LongestKnown(vocab: Vocab, word: Word, ends: seq<nat>) {
    forall k :: 0 <= k < |ends| ==> LongestFrom(vocab, word, From(0, ends, k), ends[k])
  }

  lemma {:induction false} CutsRise(word: Word, start: nat, ends: seq<nat>)
    requires start <= |word|
    ensures Cuts(word, start, ends) <==>
      && (forall k :: 0 <= k < |ends| ==> From(start, ends, k) < ends[k] <= |word|)
      && (if ends == [] then start else ends[|ends| - 1]) == |word|
    decreases |ends|
  {
    if ends == [] {
    } else {
      var rest := ends[1..];
      assert From(start, ends, 0) == start;
      assert forall k :: 0 < k < |ends| ==>
        ends[k] == rest[k - 1] && From(start, ends, k) == From(ends[0], rest, k - 1);
      if start < ends[0] <= |word| {
        CutsRise(word, ends[0], rest);
        forall k | 0 <= k < |rest|
          ensures rest[k] == ends[k + 1] && From(ends[0], rest, k) == From(start, ends, k + 1)
        {
        }
      }
    }
  }

  lemma {:induction false} IdsAre(vocab: Vocab, word: Word, start: nat, ends: seq<nat>, k: nat)
    requires start <= |word| && Cuts(word, start, ends) && AllKnown(vocab, word, start, ends) && k < |ends|
    ensures |Ids(vocab, word, start, ends)| == |ends|
    ensures var from := From(start, ends, k);
      && from < ends[k] <= |word| && Piece(word, from, ends[k]) in vocab
      && Ids(vocab, word, start, ends)[k] == vocab[Piece(word, from, ends[k])]
    decreases |ends|
  {
    var rest := ends[1..];
    if rest == [] {
    } else {
      IdsAre(vocab, word, ends[0], rest, if k == 0 then 0 else k - 1);
    }
  }

  lemma {:induction false} GreedyAt(vocab: Vocab, word: Word, start: nat, ends: seq<nat>)
    requires start <= |word| && Cuts(word, start, ends)
    ensures Greedy(vocab, word, start, ends) <==>
      forall k :: 0 <= k < |ends| ==> LongestFrom(vocab, word, From(start, ends, k), ends[k])
    decreases |ends|
  {
    if ends == [] {
    } else {
      var rest := ends[1..];
      GreedyAt(vocab, word, ends[0], rest);
      assert From(start, ends, 0) == start;
      forall k | 0 <= k < |rest|
        ensures rest[k] == ends[k + 1] && From(ends[0], rest, k) == From(start, ends, k + 1)
      {
      }
      assert (forall k :: 0 <= k < |ends| ==> LongestFrom(vocab, word, From(start, ends, k), ends[k])) <==>
        LongestFrom(vocab, word, start, ends[0])
        && forall k :: 0 <= k < |rest| ==> LongestFrom(vocab, word, From(ends[0], rest, k), rest[k]) by {
        assert forall k :: 0 < k < |ends| ==>
          ends[k] == rest[k - 1] && From(start, ends, k) == From(ends[0], rest, k - 1);
      }
    }
  }

  lemma CutIs(vocab: Vocab, word: Word, ends: seq<nat>)
    ensures GreedyCut(vocab, word, ends) <==> Rises(word, ends) && LongestKnown(vocab, word, ends)
  {
    CutsRise(word, 0, ends);
    if Cuts(word, 0, ends) {
      GreedyAt(vocab, word, 0, ends);
    }
    hide Piece, Cuts, Greedy;
  }

  /** A word that is known as a whole is its own id. Any other gives the ids of its pieces, if it has a cut whose every
      piece is known and the longest at its place, and the unknown id alone if it has none. */
  lemma TokensAre(vocab: Vocab, unk: nat, word: Word)
    ensures word in vocab ==> Tokens(vocab, unk, word) == [vocab[word]]
    ensures word !in vocab ==> forall ends :: Rises(word, ends) && LongestKnown(vocab, word, ends) ==>
      && |Tokens(vocab, unk, word)| == |ends|
      && forall k :: 0 <= k < |ends| ==> Tokens(vocab, unk, word)[k] == vocab[Piece(word, From(0, ends, k), ends[k])]
    ensures word !in vocab && (forall ends :: Rises(word, ends) ==> !LongestKnown(vocab, word, ends)) ==>
      Tokens(vocab, unk, word) == [unk]
  {
    forall ends
      ensures GreedyCut(vocab, word, ends) <==> Rises(word, ends) && LongestKnown(vocab, word, ends)
    {
      CutIs(vocab, word, ends);
    }
    GivesUpIff(vocab, word);
    if word !in vocab {
      forall ends | GreedyCut(vocab, word, ends)
        ensures |Tokens(vocab, unk, word)| == |ends|
        ensures forall k :: 0 <= k < |ends| ==>
          Tokens(vocab, unk, word)[k] == vocab[Piece(word, From(0, ends, k), ends[k])]
      {
        CutTokens(vocab, unk, word, ends);
      }
    }
    hide Tokens, Ends;
    if word !in vocab && forall ends :: Rises(word, ends) ==> !LongestKnown(vocab, word, ends) {
      NoTokens(vocab, unk, word);
    }
    if word in vocab {
      WholeToken(vocab, unk, word);
    }
  }

  lemma NoTokens(vocab: Vocab, unk: nat, word: Word)
    requires word !in vocab && Ends(vocab, word, 0).None?
    ensures Tokens(vocab, unk, word) == [unk]
  {
  }

  lemma WholeToken(vocab: Vocab, unk: nat, word: Word)
    requires word in vocab
    ensures Tokens(vocab, unk, word) == [vocab[word]]
  {
  }

  lemma CutTokens(vocab: Vocab, unk: nat, word: Word, ends: seq<nat>)
    requires word !in vocab && GreedyCut(vocab, word, ends)
    ensures Rises(word, ends) && LongestKnown(vocab, word, ends)
    ensures |Tokens(vocab, unk, word)| == |ends|
    ensures forall k :: 0 <= k < |ends| ==> Tokens(vocab, unk, word)[k] == vocab[Piece(word, From(0, ends, k), ends[k])]
  {
    CutIs(vocab, word, ends);
    GreedyIff(vocab, word, 0, ends);
    EndsAreKnown(vocab, word, 0);
    assert Tokens(vocab, unk, word) == Ids(vocab, word, 0, ends);
    hide Tokens, Ids, Ends, Greedy, Cuts;
    if ends == [] {
      NoIds(vocab, word);
    }
    forall k | 0 <= k < |ends|
      ensures |Tokens(vocab, unk, word)| == |ends|
      ensures Tokens(vocab, unk, word)[k] == vocab[Piece(word, From(0, ends, k), ends[k])]
    {
      IdsAre(vocab, word, 0, ends, k);
    }
  }

  lemma NoIds(vocab: Vocab, word: Word)
    requires Cuts(word, 0, []) && AllKnown(vocab, word, 0, [])
    ensures Ids(vocab, word, 0, []) == []
  {
  }

  /** A text gives the ids of its words one after the other. */
  lemma {:induction false} WordsInTurn(vocab: Vocab, unk: nat, a: seq<Word>, b: seq<Word>)
    ensures AllTokens(vocab, unk, a + b) == AllTokens(vocab, unk, a) + AllTokens(vocab, unk, b)
  {
    hide Tokens;
    if a == [] {
      assert a + b == b;
    } else {
      WordsInTurn(vocab, unk, a[1..], b);
      assert (a + b)[1..] == a[1..] + b;
    }
  }

  lemma OneWord(vocab: Vocab, unk: nat, word: Word)
    ensures AllTokens(vocab, unk, [word]) == Tokens(vocab, unk, word)
  {
    hide Tokens;
    var none: seq<Word> := [];
    assert [word][1..] == none && AllTokens(vocab, unk, none) == [];
  }

  function Total(xs: seq<real>): real {
    if xs == [] then 0.0 else Total(xs[..|xs| - 1]) + xs[|xs| - 1]
  }

  /** The rows the mask keeps, in order. */
  ghost predicate KeptRows(mask: seq<int>, seqLen: nat, rows: seq<nat>) {
    && (forall k :: 0 <= k < |rows| ==> rows[k] < seqLen && rows[k] < |mask| && mask[rows[k]] != 0)
    && (forall k, l :: 0 <= k < l < |rows| ==> rows[k] < rows[l])
    && (forall s :: 0 <= s < seqLen && s < |mask| && mask[s] != 0 ==> s in rows)
  }

  /** The entry of one row and column. */
  function Entry(hidden: seq<real>, seqLen: nat, dim: nat, s: nat, d: nat): real
    requires s < seqLen && d < dim && |hidden| >= seqLen * dim
  {
    InRow(s, d, seqLen, dim);
    hidden[s * dim + d]
  }

  /** The entries of one column in those rows. */
  function Entries(hidden: seq<real>, seqLen: nat, dim: nat, rows: seq<nat>, d: nat): (xs: seq<real>)
    requires d < dim && |hidden| >= seqLen * dim && forall k :: 0 <= k < |rows| ==> rows[k] < seqLen
  {
    seq(|rows|, k requires 0 <= k < |rows| => Entry(hidden, seqLen, dim, rows[k], d))
  }

  lemma LastKept(mask: seq<int>, n: nat, rows: seq<nat>)
    requires n > 0 && KeptRows(mask, n, rows)
    ensures if n - 1 < |mask| && mask[n - 1] != 0
      then rows != [] && rows[|rows| - 1] == n - 1 && KeptRows(mask, n - 1, rows[..|rows| - 1])
      else KeptRows(mask, n - 1, rows)
  {
    if n - 1 < |mask| && mask[n - 1] != 0 {
      forall j | 0 <= j < |rows| - 1
        ensures rows[j] < n - 1
      {
        assert rows[j] < rows[j + 1];
      }
      var k :| 0 <= k < |rows| && rows[k] == n - 1;
      var front := rows[..|rows| - 1];
      forall s | 0 <= s < n - 1 && s < |mask| && mask[s] != 0
        ensures s in front
      {
        var i :| 0 <= i < |rows| && rows[i] == s;
        assert front[i] == s;
      }
    } else {
      assert forall k :: 0 <= k < |rows| ==> rows[k] != n - 1;
    }
  }

  lemma ColumnStep(hidden: seq<real>, mask: seq<int>, seqLen: nat, dim: nat, n: nat, d: nat)
    requires 0 < n <= seqLen && d < dim && |hidden| >= seqLen * dim
    ensures Column(hidden, mask, seqLen, dim, n, d) == Column(hidden, mask, seqLen, dim, n - 1, d)
      + if n - 1 < |mask| && mask[n - 1] != 0 then Entry(hidden, seqLen, dim, n - 1, d) else 0.0
  {
    InRow(n - 1, d, seqLen, dim);
  }

  lemma {:induction false} ColumnIs(hidden: seq<real>, mask: seq<int>, seqLen: nat, dim: nat, n: nat, rows: seq<nat>,
      d: nat)
    requires n <= seqLen && d < dim && |hidden| >= seqLen * dim && KeptRows(mask, n, rows)
    ensures Column(hidden, mask, seqLen, dim, n, d) == Total(Entries(hidden, seqLen, dim, rows, d))
    decreases n
  {
    hide *;
    KeptBelow(mask, n, rows);
    if n == 0 {
      NothingKept(hidden, mask, seqLen, dim, d);
    } else {
      ColumnStep(hidden, mask, seqLen, dim, n, d);
      LastKept(mask, n, rows);
      if n - 1 < |mask| && mask[n - 1] != 0 {
        var front := rows[..|rows| - 1];
        KeptBelow(mask, n - 1, front);
        ColumnIs(hidden, mask, seqLen, dim, n - 1, front, d);
        LastEntry(hidden, seqLen, dim, rows, d);
      } else {
        ColumnIs(hidden, mask, seqLen, dim, n - 1, rows, d);
      }
    }
  }

  lemma KeptBelow(mask: seq<int>, n: nat, rows: seq<nat>)
    requires KeptRows(mask, n, rows)
    ensures (forall k :: 0 <= k < |rows| ==> rows[k] < n) && (n == 0 ==> rows == [])
  {
    if rows != [] {
      assert rows[0] < n;
    }
  }

  lemma NothingKept(hidden: seq<real>, mask: seq<int>, seqLen: nat, dim: nat, d: nat)
    requires d < dim && |hidden| >= seqLen * dim
    ensures Column(hidden, mask, seqLen, dim, 0, d) == 0.0 == Total(Entries(hidden, seqLen, dim, [], d))
  {
  }

  lemma LastEntry(hidden: seq<real>, seqLen: nat, dim: nat, rows: seq<nat>, d: nat)
    requires d < dim && |hidden| >= seqLen * dim && rows != []
    requires forall k :: 0 <= k < |rows| ==> rows[k] < seqLen
    ensures Total(Entries(hidden, seqLen, dim, rows, d))
      == Total(Entries(hidden, seqLen, dim, rows[..|rows| - 1], d))
         + Entry(hidden, seqLen, dim, rows[|rows| - 1], d)
  {
    hide Entry;
    var xs := Entries(hidden, seqLen, dim, rows, d);
    assert xs[..|xs| - 1] == Entries(hidden, seqLen, dim, rows[..|rows| - 1], d);
  }

  lemma {:induction false} KeptIs(mask: seq<int>, n: nat, rows: seq<nat>)
    requires KeptRows(mask, n, rows)
    ensures Kept(mask, n) == |rows|
    decreases n
  {
    if n == 0 {
      assert rows == [];
    } else {
      LastKept(mask, n, rows);
      if n - 1 < |mask| && mask[n - 1] != 0 {
        KeptIs(mask, n - 1, rows[..|rows| - 1]);
      } else {
        KeptIs(mask, n - 1, rows);
      }
    }
  }

  /** Each entry of the mean is the sum of its column over the kept rows, divided by their number. */
  lemma MeansAre(hidden: seq<real>, mask: seq<int>, seqLen: nat, dim: nat, rows: seq<nat>, d: nat)
    requires d < dim && |hidden| >= seqLen * dim && KeptRows(mask, seqLen, rows) && rows != []
    ensures Kept(mask, seqLen) == |rows| && |Means(hidden, mask, seqLen, dim)| == dim
    ensures Means(hidden, mask, seqLen, dim)[d] == Total(Entries(hidden, seqLen, dim, rows, d)) / |rows| as real
  {
    hide Column, Total, Entries, KeptRows, Kept;
    KeptIs(mask, seqLen, rows);
    ColumnIs(hidden, mask, seqLen, dim, seqLen, rows, d);
    TimesInverse(Column(hidden, mask, seqLen, dim, seqLen, d), |rows| as real);
  }

  lemma TimesInverse(x: real, n: real)
    requires n > 0.0
    ensures x * (1.0 / n) == x / n
  {
  }

  /** The pooled vector is the mean if that is zero, and otherwise the mean divided by the computed root of its squared
      length: the same direction, entry by entry. */
  lemma PooledIs(hidden: seq<real>, mask: seq<int>, seqLen: nat, dim: nat, d: nat)
    requires d < dim && Pooled(hidden, mask, seqLen, dim).Some?
    ensures var out, means := Pooled(hidden, mask, seqLen, dim).value, Means(hidden, mask, seqLen, dim);
      var norm := SquaredLength(means);
      && |out| == dim
      && (if norm > 0.0 then out[d] * Root(norm) == means[d] else out == means)
  {
    var means := Means(hidden, mask, seqLen, dim);
    var norm := SquaredLength(means);
    if norm > 0.0 {
      BackAgain(means[d], Root(norm));
    }
    hide Column, Kept, SquaredLength, Root;
  }

  lemma BackAgain(x: real, n: real)
    requires n > 0.0
    ensures x * (1.0 / n) * n == x
  {
    assert (1.0 / n) * n == 1.0;
  }
}
