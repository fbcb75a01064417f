/** Mean pooling to unit length (tokenizer.go), over exact reals. */
module Pooling {
  import opened Wrappers

  /** One Newton step toward the square root. */
  function Halfway(x: real, v: real): real
    requires x > 0.0
  {
    0.5 * (x + v / x)
  }

  /** The value after n steps from v itself. */
  function Newton(v: real, n: nat): (x: real)
    requires v > 0.0
    ensures x > 0.0
  {
    if n == 0 then v
    else
      StepPositive(Newton(v, n - 1), v);
      Halfway(Newton(v, n - 1), v)
  }

  const STEPS := 12

  function Root(v: real): (x: real)
    ensures v > 0.0 ==> x > 0.0
  {
    if v <= 0.0 then 0.0 else Newton(v, STEPS)
  }

  lemma StepPositive(x: real, v: real)
    requires x > 0.0 && v > 0.0
    ensures Halfway(x, v) > 0.0
  {
    assert v / x > 0.0;
  }

  method Sqrt64(v: real) returns (x: real)
    ensures x == Root(v)
  {
    if v <= 0.0 {
      return 0.0;
    }
    x := v;
    for i := 0 to 12
      invariant x > 0.0 && x == Newton(v, i)
    {
      x := 0.5 * (x + v / x);
    }
  }

  lemma ProductIs(v: real, a: real, b: real)
    requires a > 0.0 && b > 0.0 && v == a * b
    ensures v > 0.0
  {
  }

  /** The error after a step, for a root s of v: the square of the error before it over twice the value. */
  lemma StepError(v: real, x: real, s: real, square: real)
    requires x > 0.0 && s > 0.0 && v == s * s && square == (x - s) * (x - s)
    ensures square >= 0.0 && Halfway(x, v) - s == square / (2.0 * x) && square / (2.0 * x) >= 0.0
  {
    var q := v / x;
    assert q * x == v;
    assert square == x * x - 2.0 * x * s + v;
    assert (Halfway(x, v) - s) * (2.0 * x) == x * x + q * x - 2.0 * s * x;
    DivIs(Halfway(x, v) - s, square, 2.0 * x);
    DivPositive(square, 2.0 * x);
  }

  lemma DivIs(a: real, n: real, d: real)
    requires d > 0.0 && a * d == n
    ensures a == n / d
  {
    assert (n / d) * d == n;
    assert (a - n / d) * d == 0.0;
  }

  lemma DivPositive(n: real, d: real)
    requires n >= 0.0 && d > 0.0
    ensures n / d >= 0.0
  {
  }

  lemma DivAtMost(n: real, d: real, b: real)
    requires d > 0.0 && n <= b * d
    ensures n / d <= b
  {
    assert (n / d) * d == n;
    Cancel(n / d, b, d);
  }

  lemma Cancel(a: real, b: real, d: real)
    requires d > 0.0 && a * d <= b * d
    ensures a <= b
  {
  }

  lemma ProductGrows(a: real, b: real)
    requires a > 0.0 && b > 0.0
    ensures a * b > 0.0
  {
  }

  /** From a value that is not below the root, a step at least halves the error. */
  lemma StepHalves(v: real, x: real, s: real)
    requires x >= s > 0.0 && v == s * s
    ensures 0.0 <= Halfway(x, v) - s <= 0.5 * (x - s)
  {
    var square := (x - s) * (x - s);
    StepError(v, x, s, square);
    SquareAtMost(x - s, s, x, square);
    DivAtMost(square, 2.0 * x, 0.5 * (x - s));
  }

  lemma SquareAtMost(e: real, s: real, x: real, square: real)
    requires e >= 0.0 && s > 0.0 && x == e + s && square == e * e
    ensures square <= 0.5 * e * (2.0 * x)
  {
    assert e * s >= 0.0;
    assert 0.5 * e * (2.0 * x) == e * x;
    assert e * x == square + e * s;
  }

  function Half(k: nat): (p: real)
    ensures p > 0.0
  {
    if k == 0 then 1.0 else 0.5 * Half(k - 1)
  }

  lemma FirstError(v: real, s: real)
    requires s > 0.0 && v == s * s && v > 0.0
    ensures Halfway(v, v) - s == (s - 1.0) * (s - 1.0) / 2.0
  {
    assert v / v == 1.0;
    assert (s - 1.0) * (s - 1.0) == v - 2.0 * s + 1.0;
  }

  /** After the first step the value is never below the root s, and its error is at most `first`, the error of the
      first step, halved by every further step. */
  lemma {:induction false} NewtonError(v: real, s: real, first: real, n: nat)
    requires s > 0.0 && v == s * s && v > 0.0 && n >= 1
    requires first == Newton(v, 1) - s >= 0.0
    ensures 0.0 <= Newton(v, n) - s <= first * Half(n - 1)
  {
    if n == 1 {
      assert Half(0) == 1.0;
    } else {
      NewtonError(v, s, first, n - 1);
      StepHalves(v, Newton(v, n - 1), s);
      hide Halfway;
      assert Newton(v, n) == Halfway(Newton(v, n - 1), v);
      HalfOf(first, n - 1);
    }
  }

  lemma HalfOf(b: real, k: nat)
    requires k >= 1
    ensures b * Half(k) == 0.5 * (b * Half(k - 1))
  {
  }

  lemma HalfEleven()
    ensures Half(11) == 1.0 / 2048.0
  {
    assert Half(2) == 0.25;
    assert Half(4) == 0.0625;
    assert Half(6) == 0.015625;
    assert Half(8) == 0.00390625;
    assert Half(10) == 0.0009765625;
  }

  /** The computed root never falls below the root s, and is within (s - 1)^2 / 2 / 2^11 of it. */
  lemma RootError(v: real, s: real)
    requires s > 0.0 && v == s * s
    ensures v > 0.0 && 0.0 <= Root(v) - s <= (s - 1.0) * (s - 1.0) / 2.0 / 2048.0
  {
    ProductIs(v, s, s);
    var first := (s - 1.0) * (s - 1.0) / 2.0;
    assert Newton(v, 0) == v && Newton(v, 1) == Halfway(v, v);
    FirstError(v, s);
    assert (s - 1.0) * (s - 1.0) >= 0.0;
    NewtonError(v, s, first, STEPS);
    HalfEleven();
    hide Newton, Half;
    assert first * (1.0 / 2048.0) == first / 2048.0;
  }

  /** Without naming the root: the square of the computed one is at least the value. */
  lemma RootSquared(v: real)
    requires v > 0.0
    ensures Root(v) * Root(v) >= v
  {
    var y := Newton(v, STEPS - 1);
    var q := v / y;
    assert q * y == v;
    var x := 0.5 * (y + q);
    assert x == Newton(v, STEPS);
    SquareAbove(y, q);
  }

  lemma SquareAbove(y: real, q: real)
    ensures (0.5 * (y + q)) * (0.5 * (y + q)) >= q * y
  {
    var d := 0.5 * (y - q);
    assert d * d >= 0.0;
    assert (0.5 * (y + q)) * (0.5 * (y + q)) == q * y + d * d;
  }

  /** The rows the mask keeps. */
  function Kept(mask: seq<int>, rows: nat): nat {
    if rows == 0 then 0 else Kept(mask, rows - 1) + if rows - 1 < |mask| && mask[rows - 1] != 0 then 1 else 0
  }

  lemma InRow(s: nat, d: nat, seqLen: nat, dim: nat)
    requires s < seqLen && d < dim
    ensures 0 <= s * dim + d < seqLen * dim
  {
    assert (s + 1) * dim <= seqLen * dim;
  }

  /** The sum of one column over the kept rows. */
  function Column(hidden: seq<real>, mask: seq<int>, seqLen: nat, dim: nat, rows: nat, d: nat): real
    requires rows <= seqLen && d < dim && |hidden| >= seqLen * dim
  {
    if rows == 0 then 0.0
    else
      InRow(rows - 1, d, seqLen, dim);
      Column(hidden, mask, seqLen, dim, rows - 1, d)
        + if rows - 1 < |mask| && mask[rows - 1] != 0 then hidden[(rows - 1) * dim + d] else 0.0
  }

  function SquaredLength(x: seq<real>): real {
    if x == [] then 0.0 else SquaredLength(x[..|x| - 1]) + x[|x| - 1] * x[|x| - 1]
  }

  function Means(hidden: seq<real>, mask: seq<int>, seqLen: nat, dim: nat): seq<real>
    requires |hidden| >= seqLen * dim && Kept(mask, seqLen) > 0
  {
    seq(dim, d requires 0 <= d < dim =>
      Column(hidden, mask, seqLen, dim, seqLen, d) * (1.0 / Kept(mask, seqLen) as real))
  }

  function Scaled(x: seq<real>, k: real): seq<real> {
    seq(|x|, d requires 0 <= d < |x| => x[d] * k)
  }

  lemma ScaledPrefix(x: seq<real>, k: real, n: nat)
    requires n <= |x|
    ensures Scaled(x, k)[..n] == Scaled(x[..n], k)
  {
    forall d | 0 <= d < n
      ensures Scaled(x, k)[d] == Scaled(x[..n], k)[d]
    {
      assert x[..n][d] == x[d];
    }
  }

  lemma {:induction false} ScaledLength(x: seq<real>, k: real)
    ensures SquaredLength(Scaled(x, k)) == SquaredLength(x) * (k * k)
  {
    if x == [] {
    } else {
      var n := |x| - 1;
      ScaledLength(x[..n], k);
      ScaledPrefix(x, k, n);
      assert (x[n] * k) * (x[n] * k) == (x[n] * x[n]) * (k * k);
      Distributes(SquaredLength(x[..n]), x[n] * x[n], k * k);
    }
  }

  lemma Distributes(a: real, b: real, c: real)
    ensures (a + b) * c == a * c + b * c
  {
  }

  lemma {:induction false} LengthNotNegative(x: seq<real>)
    ensures SquaredLength(x) >= 0.0
  {
    if x == [] {
    } else {
      LengthNotNegative(x[..|x| - 1]);
      assert x[|x| - 1] * x[|x| - 1] >= 0.0;
    }
  }

  function Normalized(means: seq<real>): seq<real> {
    var norm := SquaredLength(means);
    if norm > 0.0 then Scaled(means, 1.0 / Root(norm)) else means
  }

  /** Nothing when the rows are missing or none is kept; otherwise the mean, scaled by the computed root. */
  function Pooled(hidden: seq<real>, mask: seq<int>, seqLen: nat, dim: nat): Option<seq<real>> {
    if |hidden| < seqLen * dim || Kept(mask, seqLen) == 0 then None
    else Some(Normalized(Means(hidden, mask, seqLen, dim)))
  }

  /** A normalized vector has squared length at most 1, and 0 only when the vector it came from is zero. */
  lemma NormalizedLength(means: seq<real>)
    ensures 0.0 <= SquaredLength(Normalized(means)) <= 1.0
    ensures SquaredLength(Normalized(means)) == 0.0 <==> SquaredLength(means) == 0.0
  {
    var norm := SquaredLength(means);
    LengthNotNegative(means);
    if norm > 0.0 {
      var r := Root(norm);
      ScaledLength(means, 1.0 / r);
      RootSquared(norm);
      UnitAtMost(norm, r);
    }
  }

  /** What pooling returns, when it returns a vector, has squared length at most 1. */
  lemma PooledLength(hidden: seq<real>, mask: seq<int>, seqLen: nat, dim: nat)
    ensures Pooled(hidden, mask, seqLen, dim).Some? <==> |hidden| >= seqLen * dim && Kept(mask, seqLen) > 0
    ensures Pooled(hidden, mask, seqLen, dim).Some? ==>
      0.0 <= SquaredLength(Pooled(hidden, mask, seqLen, dim).value) <= 1.0
  {
    hide SquaredLength, Normalized, Column;
    if Pooled(hidden, mask, seqLen, dim).Some? {
      NormalizedLength(Means(hidden, mask, seqLen, dim));
    }
  }

  lemma UnitAtMost(norm: real, r: real)
    requires norm > 0.0 && r > 0.0 && r * r >= norm
    ensures 0.0 < norm * ((1.0 / r) * (1.0 / r)) <= 1.0
  {
    var i := 1.0 / r;
    assert i * r == 1.0;
    ProductGrows(i, i);
    ProductGrows(norm, i * i);
    assert (r * r) * (i * i) == (i * r) * (i * r) == 1.0;
    ProductOrdered(norm, r * r, i * i);
  }

  lemma ProductOrdered(a: real, b: real, c: real)
    requires a <= b && c > 0.0
    ensures a * c <= b * c
  {
    assert (b - a) * c >= 0.0;
  }

  /** How far below 1 the squared length can be: for a mean of length s, no further than the error of the root. */
  lemma NormalizedNearUnit(means: seq<real>, s: real, most: real, square: real)
    requires s > 0.0 && SquaredLength(means) == s * s
    requires most == s + (s - 1.0) * (s - 1.0) / 2.0 / 2048.0 && square == most * most
    ensures SquaredLength(Normalized(means)) * square >= SquaredLength(means)
  {
    var norm := SquaredLength(means);
    ProductIs(norm, s, s);
    RootError(norm, s);
    var i := 1.0 / Root(norm);
    var ii := i * i;
    ScaledLength(means, i);
    hide SquaredLength, Root;
    LengthBelow(norm, Root(norm), most, i, ii, square, SquaredLength(Normalized(means)));
  }

  lemma LengthBelow(norm: real, r: real, most: real, i: real, ii: real, mm: real, length: real)
    requires norm > 0.0 && 0.0 < r <= most && i == 1.0 / r && ii == i * i && mm == most * most && length == norm * ii
    ensures length * mm >= norm
  {
    var t := i * most;
    var square := t * t;
    assert i * r == 1.0;
    ProductOrdered(r, most, i);
    ProductOrdered(1.0, t, t);
    ProductOrdered(1.0, square, norm);
    assert ii * mm == square;
    assert length * mm == norm * (ii * mm);
  }

  /** Accumulates, averages and scales in one buffer. */
  method MeanPoolL2(hidden: seq<real>, mask: seq<int>, seqLen: nat, dim: nat) returns (out: array?<real>)
    ensures out == null <==> Pooled(hidden, mask, seqLen, dim).None?
    ensures out != null ==> fresh(out) && out[..] == Pooled(hidden, mask, seqLen, dim).value
  {
    if |hidden| < seqLen * dim {
      return null;
    }
    var buffer := new real[dim](_ => 0.0);
    var count := 0.0;
    var s := 0;
    while s < seqLen
      invariant 0 <= s <= seqLen && count == Kept(mask, s) as real
      invariant forall d :: 0 <= d < dim ==> buffer[d] == Column(hidden, mask, seqLen, dim, s, d)
    {
      if s < |mask| && mask[s] != 0 {
        count := count + 1.0;
        var d := 0;
        while d < dim
          invariant 0 <= d <= dim
          invariant forall k :: 0 <= k < d ==> buffer[k] == Column(hidden, mask, seqLen, dim, s + 1, k)
          invariant forall k :: d <= k < dim ==> buffer[k] == Column(hidden, mask, seqLen, dim, s, k)
        {
          InRow(s, d, seqLen, dim);
          buffer[d] := buffer[d] + hidden[s * dim + d];
          d := d + 1;
        }
      }
      s := s + 1;
    }
    if count == 0.0 {
      return null;
    }
    Normalize(buffer, count, Means(hidden, mask, seqLen, dim));
    out := buffer;
  }

  method Average(out: array<real>, inv: real, ghost means: seq<real>) returns (norm: real)
    requires |means| == out.Length
    requires forall d :: 0 <= d < out.Length ==> means[d] == out[d] * inv
    modifies out
    ensures out[..] == means && norm == SquaredLength(means)
  {
    norm := 0.0;
    var d := 0;
    while d < out.Length
      invariant 0 <= d <= out.Length && norm == SquaredLength(means[..d])
      invariant forall k :: 0 <= k < d ==> out[k] == means[k]
      invariant forall k :: d <= k < out.Length ==> out[k] == old(out[k])
    {
      out[d] := out[d] * inv;
      assert out[d] == means[d];
      assert means[..d + 1][..d] == means[..d];
      norm := norm + out[d] * out[d];
      d := d + 1;
    }
    assert means[..d] == means;
  }

  method Scale(out: array<real>, k: real)
    modifies out
    ensures out[..] == Scaled(old(out[..]), k)
  {
    ghost var before := out[..];
    var d := 0;
    while d < out.Length
      invariant 0 <= d <= out.Length
      invariant forall i :: 0 <= i < d ==> out[i] == Scaled(before, k)[i]
      invariant forall i :: d <= i < out.Length ==> out[i] == before[i]
    {
      out[d] := out[d] * k;
      d := d + 1;
    }
  }

  method Normalize(out: array<real>, count: real, ghost means: seq<real>)
    requires count > 0.0 && |means| == out.Length
    requires forall d :: 0 <= d < out.Length ==> means[d] == out[d] * (1.0 / count)
    modifies out
    ensures out[..] == Normalized(means)
  {
    var norm := Average(out, 1.0 / count, means);
    if norm > 0.0 {
      var root := Sqrt64(norm);
      Scale(out, 1.0 / root);
    }
  }
}
