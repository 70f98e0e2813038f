/**
 The packed matrix library behind a quantized operator (`vendor/rten-gemm/src/kernels/x86_64.rs`), one row against one
 column: products are added in pairs, which some kernels saturate at sixteen bits, then summed in wrapping 32-bit
 lanes and corrected for the zero point.
 */
module PackedGemm {
  import opened Base
  import opened DotKernels

  /** Saturation at sixteen bits (`vpmaddubsw`). */
  function Saturated(x: int): (s: int)
    ensures -0x8000 <= s < 0x8000
    ensures s == x <==> -0x8000 <= x < 0x8000
  {
    Max(-0x8000, Min(0x7FFF, x))
  }

  /** The product of unsigned activation and weight at `i`; padding is zero. */
  function RawTerm(a: seq<Activation>, w: seq<I8>, i: nat): int
    requires |a| <= |w|
  {
    if i < |a| then a[i] * w[i] else 0
  }

  function RawPair(a: seq<Activation>, w: seq<I8>, p: nat): int
    requires |a| <= |w|
  {
    RawTerm(a, w, 2 * p) + RawTerm(a, w, 2 * p + 1)
  }

  /** The first `m` pairs, each saturated if the kernel does that. */
  function PairTotal(saturates: bool, a: seq<Activation>, w: seq<I8>, m: nat): int
    requires |a| <= |w|
  {
    if m == 0 then 0
    else PairTotal(saturates, a, w, m - 1) + if saturates then Saturated(RawPair(a, w, m - 1)) else RawPair(a, w, m - 1)
  }

  function WeightTotal(w: seq<I8>, n: nat): (total: int)
    requires n <= |w|
    ensures 0 - 128 * n <= total <= 127 * n
  {
    if n == 0 then 0 else WeightTotal(w, n - 1) + w[n - 1]
  }

  function Pairs(n: nat): nat {
    (n + 1) / 2
  }

  /** One accumulator of the library. */
  function LibraryDot(saturates: bool, a: seq<Activation>, w: seq<I8>): I32
    requires |a| == |w|
  {
    Wrap32(PairTotal(saturates, a, w, Pairs(|a|)) - ACTIVATION_ZERO_POINT * WeightTotal(w, |w|))
  }

  // ---------------------------------------------------------------------------------- without saturation

  /** The first `n` raw products. */
  ghost function RawTotal(a: seq<Activation>, w: seq<I8>, n: nat): int
    requires |a| <= |w|
  {
    if n == 0 then 0 else RawTotal(a, w, n - 1) + RawTerm(a, w, n - 1)
  }

  lemma {:induction false} PairsAreRaw(a: seq<Activation>, w: seq<I8>, m: nat)
    requires |a| <= |w|
    ensures PairTotal(false, a, w, m) == RawTotal(a, w, 2 * m)
  {
    if m > 0 {
      PairsAreRaw(a, w, m - 1);
      assert RawTotal(a, w, 2 * m) == RawTotal(a, w, 2 * m - 1) + RawTerm(a, w, 2 * m - 1);
      assert RawTotal(a, w, 2 * m - 1) == RawTotal(a, w, 2 * m - 2) + RawTerm(a, w, 2 * m - 2);
    }
  }

  /** The zero point is subtracted from every activation by subtracting it from the weights' total. */
  lemma {:induction false} ZeroPointMoves(a: seq<Activation>, w: seq<I8>, n: nat)
    requires n <= |a| <= |w|
    ensures RawTotal(a, w, n) == Dot(a, w, 0, n) + ACTIVATION_ZERO_POINT * WeightTotal(w, n)
  {
    if n > 0 {
      ZeroPointMoves(a, w, n - 1);
      assert Term(a[n - 1], w[n - 1]) == a[n - 1] * w[n - 1] - ACTIVATION_ZERO_POINT * w[n - 1];
    }
  }

  lemma PlainTotal(a: seq<Activation>, w: seq<I8>)
    requires |a| == |w|
    ensures PairTotal(false, a, w, Pairs(|a|)) - ACTIVATION_ZERO_POINT * WeightTotal(w, |w|) == Dot(a, w, 0, |a|)
  {
    var n := |a|;
    PairsAreRaw(a, w, Pairs(n));
    ZeroPointMoves(a, w, n);
    if n % 2 == 1 { assert RawTotal(a, w, n + 1) == RawTotal(a, w, n) + RawTerm(a, w, n); }
  }

  // ---------------------------------------------------------------------------------- when saturation is harmless

  function WeightAt(w: seq<I8>, i: nat): int {
    if i < |w| then w[i] else 0
  }

  /** What a pair of weights can reach with activations from 0 to 254. */
  function Highest(w: seq<I8>, p: nat): int {
    254 * Max(WeightAt(w, 2 * p), 0) + 254 * Max(WeightAt(w, 2 * p + 1), 0)
  }

  function Lowest(w: seq<I8>, p: nat): int {
    254 * Min(WeightAt(w, 2 * p), 0) + 254 * Min(WeightAt(w, 2 * p + 1), 0)
  }

  /** No pair of weights can leave sixteen bits. */
  predicate PairsSafe(w: seq<I8>) {
    forall p :: 0 <= p < Pairs(|w|) ==> -0x8000 <= Lowest(w, p) && Highest(w, p) < 0x8000
  }

  lemma TermWithin(a: Activation, w: I8)
    ensures 254 * Min(w, 0) <= a * w <= 254 * Max(w, 0)
  {
    if w >= 0 {
      Scaled(a, 254, w);
    } else {
      Scaled(a, 254, 0 - w);
      assert a * w == 0 - a * (0 - w);
    }
  }

  lemma PairWithin(a: seq<Activation>, w: seq<I8>, p: nat)
    requires |a| == |w|
    ensures Lowest(w, p) <= RawPair(a, w, p) <= Highest(w, p)
  {
    if 2 * p < |a| { TermWithin(a[2 * p], w[2 * p]); }
    if 2 * p + 1 < |a| { TermWithin(a[2 * p + 1], w[2 * p + 1]); }
  }

  lemma {:induction false} SafeTotal(a: seq<Activation>, w: seq<I8>, m: nat)
    requires |a| == |w| && PairsSafe(w) && m <= Pairs(|w|)
    ensures PairTotal(true, a, w, m) == PairTotal(false, a, w, m)
  {
    if m > 0 {
      SafeTotal(a, w, m - 1);
      PairWithin(a, w, m - 1);
    }
  }

  lemma DotFits(a: seq<Activation>, w: seq<I8>)
    requires |a| == |w| <= ELEMENTS_END
    ensures Wrap32(Dot(a, w, 0, |a|)) == Dot(a, w, 0, |a|)
  {
  }

  /** The library computes the plain sum if it does not saturate, or if the weights cannot make it saturate. */
  lemma LibraryIsExact(saturates: bool, a: seq<Activation>, w: seq<I8>)
    requires |a| == |w| <= ELEMENTS_END && (saturates ==> PairsSafe(w))
    ensures LibraryDot(saturates, a, w) == Dot(a, w, 0, |a|)
  {
    PlainTotal(a, w);
    DotFits(a, w);
    if saturates { SafeTotal(a, w, Pairs(|a|)); }
  }

  /** Weights of seven bits. */
  predicate Narrow(w: seq<I8>) {
    forall i :: 0 <= i < |w| ==> -64 <= w[i] <= 63
  }

  lemma NarrowIsSafe(w: seq<I8>)
    requires Narrow(w)
    ensures PairsSafe(w)
  {
    forall p | 0 <= p < Pairs(|w|) ensures -0x8000 <= Lowest(w, p) && Highest(w, p) < 0x8000 {
      assert -64 <= WeightAt(w, 2 * p) <= 63 && -64 <= WeightAt(w, 2 * p + 1) <= 63;
    }
  }

  // ---------------------------------------------------------------------------------- when it is not

  /** Activations that drive pair `p` to its limit, and leave every other pair at zero. */
  function Driving(w: seq<I8>, p: nat, up: bool): (a: seq<Activation>)
    ensures |a| == |w|
  {
    seq(|w|, i requires 0 <= i < |w| => if i / 2 == p && (if up then w[i] > 0 else w[i] < 0) then 254 else 0)
  }

  lemma DrivenPair(w: seq<I8>, p: nat, up: bool, q: nat)
    ensures RawPair(Driving(w, p, up), w, q) == if q == p then (if up then Highest(w, p) else Lowest(w, p)) else 0
  {
    assert 2 * q / 2 == q && (2 * q + 1) / 2 == q;
  }

  lemma {:induction false} DrivenTotal(w: seq<I8>, p: nat, up: bool, m: nat)
    ensures var a, x := Driving(w, p, up), if up then Highest(w, p) else Lowest(w, p);
            PairTotal(true, a, w, m) == PairTotal(false, a, w, m) - if p < m then x - Saturated(x) else 0
  {
    if m > 0 {
      DrivenTotal(w, p, up, m - 1);
      DrivenPair(w, p, up, m - 1);
    }
  }

  lemma GapShows(exact: int, gap: int)
    requires -0x8000_0000 <= exact < 0x8000_0000 && gap != 0 && -0x8_0000 <= gap <= 0x8_0000
    ensures Wrap32(exact - gap) != exact
  {
  }

  lemma LimitsAreSmall(w: seq<I8>, p: nat)
    ensures -0x8_0000 <= Lowest(w, p) <= 0 <= Highest(w, p) <= 0x8_0000
  {
  }

  /** A saturating kernel is wrong for some activations, unless the weights cannot make it saturate. */
  lemma UnsafeDiffers(w: seq<I8>) returns (a: seq<Activation>)
    requires |w| <= ELEMENTS_END && !PairsSafe(w)
    ensures |a| == |w| && LibraryDot(true, a, w) != Dot(a, w, 0, |a|)
  {
    var p: nat :| p < Pairs(|w|) && !(-0x8000 <= Lowest(w, p) && Highest(w, p) < 0x8000);
    var up := Highest(w, p) >= 0x8000;
    a := Driving(w, p, up);
    PlainTotal(a, w);
    DrivenTotal(w, p, up, Pairs(|w|));
    LimitsAreSmall(w, p);
    var x := if up then Highest(w, p) else Lowest(w, p);
    GapShows(Dot(a, w, 0, |a|), x - Saturated(x));
  }
}
