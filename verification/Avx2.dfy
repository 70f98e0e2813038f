/**
 The AVX2 kernel for unsigned activations and signed weights (`crates/marian-cpu/src/q8_avx2.rs`), lane by lane
 with wrapping 16- and 32-bit arithmetic: the flush interval keeps every lane exact.
 */
module Avx2 {
  import opened Base
  import opened Layout

  type I8 = x: int | -128 <= x < 128
  type I32 = x: int | -0x8000_0000 <= x < 0x8000_0000
  type I64 = x: int | -0x8000_0000_0000_0000 <= x < 0x8000_0000_0000_0000

  const VECTOR_BLOCKS_PER_FLUSH: nat := 16_384
  const LARGEST_TERM: int := 32_640
  const LARGEST_PAIR: int := 65_280

  /** Inner sizes whose dot products fit 64 bits, whatever the values. */
  const INNER_END: nat := 0x1_0000_0000_0000

  // ---------------------------------------------------------------------------------- the plain product

  function Term(activation: Byte, zero: Byte, weight: I8): (t: int)
    ensures -LARGEST_TERM <= t <= LARGEST_TERM
  {
    TermBound(activation - zero, weight);
    (activation - zero) * weight
  }

  lemma TermBound(a: int, w: I8)
    requires -255 <= a <= 255
    ensures -LARGEST_TERM <= a * w <= LARGEST_TERM
  {
    if a >= 0 {
      Scaled(-128, w, a);
      Scaled(w, 127, a);
    } else {
      Scaled(-128, w, 0 - a);
      Scaled(w, 127, 0 - a);
      assert a * w == 0 - (0 - a) * w;
    }
  }

  lemma Scaled(x: int, y: int, c: nat)
    requires x <= y
    ensures x * c <= y * c && x * c == c * x && y * c == c * y
  {
  }

  /** The sum over the first `n` elements. */
  function Dot(activations: seq<Byte>, weights: seq<I8>, zero: Byte, n: nat): (d: int)
    requires n <= |activations| <= |weights|
    ensures 0 - n * LARGEST_TERM <= d <= n * LARGEST_TERM
  {
    if n == 0 then 0 else Dot(activations, weights, zero, n - 1) + Term(activations[n - 1], zero, weights[n - 1])
  }

  // ---------------------------------------------------------------------------------- vectors

  function Wrap16(x: int): int {
    (x + 0x8000) % 0x1_0000 - 0x8000
  }

  function Wrap32(x: int): (w: I32) {
    (x + 0x8000_0000) % 0x1_0000_0000 - 0x8000_0000
  }

  type Lanes16 = v: seq<int> | |v| == 16 witness seq(16, _ => 0)
  type Lanes32 = v: seq<I32> | |v| == 8 witness seq(8, _ => 0)

  /** Widened activations minus the zero point, in wrapping 16-bit lanes. */
  function Centered(activations: seq<Byte>, zero: Byte): Lanes16
    requires |activations| == 16
  {
    seq(16, i requires 0 <= i < 16 => Wrap16(activations[i] - zero))
  }

  function Widened(weights: seq<I8>): Lanes16
    requires |weights| == 16
  {
    seq(16, i requires 0 <= i < 16 => weights[i])
  }

  /** Products of neighbouring lanes, added in pairs. */
  function PairSums(a: Lanes16, b: Lanes16): Lanes32 {
    seq(8, k requires 0 <= k < 8 => Wrap32(a[2 * k] * b[2 * k] + a[2 * k + 1] * b[2 * k + 1]))
  }

  function AddLanes(a: Lanes32, b: Lanes32): Lanes32 {
    seq(8, k requires 0 <= k < 8 => (var x: int, y: int := a[k], b[k]; Wrap32(x + y)))
  }

  function ZeroLanes(): Lanes32 {
    seq(8, _ => 0)
  }

  function SumTo(v: Lanes32, n: nat): int
    requires n <= 8
  {
    if n == 0 then 0 else SumTo(v, n - 1) + v[n - 1]
  }

  ghost predicate Bounded(v: Lanes32, bound: int) {
    forall k :: 0 <= k < 8 ==> -bound <= v[k] <= bound
  }

  /** `horizontal_sum_i32x8`. */
  method HorizontalSum(v: Lanes32) returns (total: int)
    ensures total == SumTo(v, 8)
  {
    total := 0;
    for k := 0 to 8
      invariant total == SumTo(v, k)
    {
      total := total + v[k];
    }
  }

  lemma {:induction false} ZeroSum(n: nat)
    requires n <= 8
    ensures SumTo(ZeroLanes(), n) == 0
  {
    if n > 0 { ZeroSum(n - 1); }
  }

  /** Bounded lanes add without wrapping. */
  lemma {:induction false} AddExact(a: Lanes32, b: Lanes32, n: nat, bound: int)
    requires n <= 8 && Bounded(a, bound) && Bounded(b, LARGEST_PAIR) && bound + LARGEST_PAIR < 0x8000_0000
    ensures SumTo(AddLanes(a, b), n) == SumTo(a, n) + SumTo(b, n) && Bounded(AddLanes(a, b), bound + LARGEST_PAIR)
  {
    if n > 0 { AddExact(a, b, n - 1, bound); }
  }

  /** One block of sixteen elements. */
  function BlockPairs(activations: seq<Byte>, weights: seq<I8>, zero: Byte, index: nat): Lanes32
    requires index + 16 <= |activations| <= |weights|
  {
    PairSums(Centered(activations[index..index + 16], zero), Widened(weights[index..index + 16]))
  }

  lemma PairExact(activations: seq<Byte>, weights: seq<I8>, zero: Byte, index: nat, k: nat)
    requires index + 16 <= |activations| <= |weights| && k < 8
    ensures BlockPairs(activations, weights, zero, index)[k]
            == Term(activations[index + 2 * k], zero, weights[index + 2 * k])
               + Term(activations[index + 2 * k + 1], zero, weights[index + 2 * k + 1])
  {
    var a, b := Centered(activations[index..index + 16], zero), Widened(weights[index..index + 16]);
    assert a[2 * k] == activations[index + 2 * k] - zero && a[2 * k + 1] == activations[index + 2 * k + 1] - zero;
    assert b[2 * k] == weights[index + 2 * k] && b[2 * k + 1] == weights[index + 2 * k + 1];
  }

  /** The pair sums of a block add up to the block's share of the product, and stay within one pair. */
  lemma {:induction false} BlockExact(activations: seq<Byte>, weights: seq<I8>, zero: Byte, index: nat, n: nat)
    requires index + 16 <= |activations| <= |weights| && n <= 8
    ensures SumTo(BlockPairs(activations, weights, zero, index), n)
            == Dot(activations, weights, zero, index + 2 * n) - Dot(activations, weights, zero, index)
  {
    if n > 0 {
      BlockExact(activations, weights, zero, index, n - 1);
      PairExact(activations, weights, zero, index, n - 1);
      var last := index + 2 * n;
      assert Dot(activations, weights, zero, last) == Dot(activations, weights, zero, last - 1) + Term(activations[last - 1], zero, weights[last - 1]);
      assert Dot(activations, weights, zero, last - 1) == Dot(activations, weights, zero, last - 2) + Term(activations[last - 2], zero, weights[last - 2]);
    }
  }

  lemma BlockBounded(activations: seq<Byte>, weights: seq<I8>, zero: Byte, index: nat)
    requires index + 16 <= |activations| <= |weights|
    ensures Bounded(BlockPairs(activations, weights, zero, index), LARGEST_PAIR)
  {
    forall k: nat | k < 8
      ensures -LARGEST_PAIR <= BlockPairs(activations, weights, zero, index)[k] <= LARGEST_PAIR
    {
      PairExact(activations, weights, zero, index, k);
    }
  }

  // ---------------------------------------------------------------------------------- one column

  /** Between two flushes: the lanes hold what lies between `start` and `index`, and none has come near its limit. */
  ghost predicate Flushing(activations: seq<Byte>, weights: seq<I8>, zero: Byte, start: nat, index: nat, v: Lanes32) {
    && start <= index <= |activations| <= |weights| && (index - start) % 16 == 0
    && (index - start) / 16 <= VECTOR_BLOCKS_PER_FLUSH
    && SumTo(v, 8) == Dot(activations, weights, zero, index) - Dot(activations, weights, zero, start)
    && Bounded(v, (index - start) / 16 * LARGEST_PAIR)
  }

  lemma FlushStarts(activations: seq<Byte>, weights: seq<I8>, zero: Byte, start: nat)
    requires start <= |activations| <= |weights|
    ensures Flushing(activations, weights, zero, start, start, ZeroLanes())
  {
    ZeroSum(8);
  }

  lemma FlushAdvances(activations: seq<Byte>, weights: seq<I8>, zero: Byte, start: nat, index: nat, v: Lanes32)
    requires Flushing(activations, weights, zero, start, index, v)
    requires index + 16 <= |activations| && (index - start) / 16 < VECTOR_BLOCKS_PER_FLUSH
    ensures Flushing(activations, weights, zero, start, index + 16, AddLanes(v, BlockPairs(activations, weights, zero, index)))
  {
    BlockExact(activations, weights, zero, index, 8);
    BlockBounded(activations, weights, zero, index);
    AddExact(v, BlockPairs(activations, weights, zero, index), 8, (index - start) / 16 * LARGEST_PAIR);
  }

  lemma DotFits(activations: seq<Byte>, weights: seq<I8>, zero: Byte, n: nat)
    requires n <= |activations| <= |weights| && |activations| < INNER_END
    ensures -0x8000_0000_0000_0000 <= Dot(activations, weights, zero, n) < 0x8000_0000_0000_0000
  {
    assert n * LARGEST_TERM <= INNER_END * LARGEST_TERM;
  }

  /** Up to a flush's worth of blocks from `start` on. */
  method FlushOnce(activations: seq<Byte>, weights: seq<I8>, zero: Byte, start: nat) returns (share: int, index: nat)
    requires |activations| == |weights| && start + 16 <= |activations|
    ensures start < index <= |activations|
    ensures share == Dot(activations, weights, zero, index) - Dot(activations, weights, zero, start)
  {
    var blocks: nat := Min((|activations| - start) / 16, VECTOR_BLOCKS_PER_FLUSH);
    var blockEnd := start + blocks * 16;
    var accumulator := ZeroLanes();
    index := start;
    FlushStarts(activations, weights, zero, start);
    while index < blockEnd
      invariant start <= index <= blockEnd && Flushing(activations, weights, zero, start, index, accumulator)
    {
      BlockLeft(start, index, blocks);
      FlushAdvances(activations, weights, zero, start, index, accumulator);
      var centered := Centered(activations[index..index + 16], zero);
      var pairs := PairSums(centered, Widened(weights[index..index + 16]));
      accumulator := AddLanes(accumulator, pairs);
      index := index + 16;
    }
    share := HorizontalSum(accumulator);
  }

  /** `dot_i64_avx2`. */
  method DotKernel(activations: seq<Byte>, weights: seq<I8>, zero: Byte) returns (total: I64)
    requires |activations| == |weights| < INNER_END
    ensures total == Dot(activations, weights, zero, |activations|)
  {
    var index: nat := 0;
    total := 0;
    while index + 16 <= |activations|
      invariant index <= |activations| && total == Dot(activations, weights, zero, index)
      decreases |activations| - index
    {
      var share, end := FlushOnce(activations, weights, zero, index);
      DotFits(activations, weights, zero, end);
      total := total + share;
      index := end;
    }
    while index < |activations|
      invariant index <= |activations| && total == Dot(activations, weights, zero, index)
    {
      DotFits(activations, weights, zero, index + 1);
      total := total + Term(activations[index], zero, weights[index]);
      index := index + 1;
    }
  }

  // ---------------------------------------------------------------------------------- four columns at once

  /** The block of row `r` at `index`, as loaded from the flat rows. */
  lemma RowBlock(weights: seq<I8>, inner: nat, count: nat, r: nat, index: nat)
    requires |weights| == count * inner && r < count && index + 16 <= inner
    ensures 0 <= r * inner + index && r * inner + index + 16 <= |weights|
    ensures weights[r * inner + index..r * inner + index + 16] == Block(weights, inner, count, r)[index..index + 16]
  {
    RowFits(r, count, inner);
    SliceOfSlice(weights, r * inner, r * inner + inner, index, index + 16);
  }

  /** The accumulator of row `r` between two flushes. */
  ghost predicate RowFlushing(activations: seq<Byte>, weights: seq<I8>, zero: Byte, start: nat, index: nat, v: Lanes32, r: nat)
    requires |weights| == 4 * |activations| && r < 4
  {
    Flushing(activations, Block(weights, |activations|, 4, r), zero, start, index, v)
  }

  ghost predicate FourFlushing(activations: seq<Byte>, weights: seq<I8>, zero: Byte, start: nat, index: nat, vs: seq<Lanes32>)
    requires |weights| == 4 * |activations|
  {
    |vs| == 4 && forall r: nat :: r < 4 ==> RowFlushing(activations, weights, zero, start, index, vs[r], r)
  }

  /** One block of all four rows, against the same widened activations. */
  method FourBlock(activations: seq<Byte>, weights: seq<I8>, zero: Byte, ghost start: nat, index: nat, vs: seq<Lanes32>)
    returns (next: seq<Lanes32>, end: nat)
    requires |weights| == 4 * |activations| && FourFlushing(activations, weights, zero, start, index, vs)
    requires index + 16 <= |activations| && (index - start) / 16 < VECTOR_BLOCKS_PER_FLUSH
    ensures end == index + 16 && FourFlushing(activations, weights, zero, start, end, next)
  {
    var centered := Centered(activations[index..index + 16], zero);
    next := vs;
    end := index + 16;
    for r := 0 to 4
      invariant |next| == 4
      invariant forall q: nat :: q < r ==> RowFlushing(activations, weights, zero, start, end, next[q], q)
      invariant forall q: nat :: r <= q < 4 ==> RowFlushing(activations, weights, zero, start, index, next[q], q)
    {
      var weightIndex := r * |activations| + index;
      RowBlock(weights, |activations|, 4, r, index);
      assert RowFlushing(activations, weights, zero, start, index, next[r], r);
      FlushAdvances(activations, Block(weights, |activations|, 4, r), zero, start, index, next[r]);
      var pairs := PairSums(centered, Widened(weights[weightIndex..weightIndex + 16]));
      next := next[r := AddLanes(next[r], pairs)];
    }
  }

  /** Inside a flush, a whole block is left before its end. */
  lemma BlockLeft(start: nat, index: nat, blocks: nat)
    requires (index - start) % 16 == 0 && start <= index < start + blocks * 16 && blocks <= VECTOR_BLOCKS_PER_FLUSH
    ensures (index - start) / 16 < VECTOR_BLOCKS_PER_FLUSH && index + 16 <= start + blocks * 16
  {
  }

  method FourFlush(activations: seq<Byte>, weights: seq<I8>, zero: Byte, start: nat) returns (vs: seq<Lanes32>, index: nat)
    requires |weights| == 4 * |activations| && start + 16 <= |activations|
    ensures start < index <= |activations| && FourFlushing(activations, weights, zero, start, index, vs)
  {
    var blocks: nat := Min((|activations| - start) / 16, VECTOR_BLOCKS_PER_FLUSH);
    var blockEnd := start + blocks * 16;
    vs := [ZeroLanes(), ZeroLanes(), ZeroLanes(), ZeroLanes()];
    index := start;
    forall r: nat | r < 4 ensures RowFlushing(activations, weights, zero, start, start, vs[r], r) {
      FlushStarts(activations, Block(weights, |activations|, 4, r), zero, start);
    }
    while index < blockEnd
      invariant start <= index <= blockEnd && (index - start) % 16 == 0 && FourFlushing(activations, weights, zero, start, index, vs)
    {
      BlockLeft(start, index, blocks);
      vs, index := FourBlock(activations, weights, zero, start, index, vs);
    }
  }

  ghost predicate FourDots(activations: seq<Byte>, weights: seq<I8>, zero: Byte, n: nat, totals: seq<I64>)
    requires |weights| == 4 * |activations| && n <= |activations|
  {
    |totals| == 4 && forall r: nat :: r < 4 ==> totals[r] == Dot(activations, Block(weights, |activations|, 4, r), zero, n)
  }

  /** Adds the flushed lanes of all four rows. */
  method AddFour(activations: seq<Byte>, weights: seq<I8>, zero: Byte, start: nat, index: nat, vs: seq<Lanes32>, before: seq<I64>)
    returns (totals: seq<I64>)
    requires |weights| == 4 * |activations| && |activations| < INNER_END && start <= index <= |activations|
    requires FourFlushing(activations, weights, zero, start, index, vs) && FourDots(activations, weights, zero, start, before)
    ensures FourDots(activations, weights, zero, index, totals)
  {
    totals := before;
    for r := 0 to 4
      invariant |totals| == 4
      invariant forall q: nat :: q < r ==> totals[q] == Dot(activations, Block(weights, |activations|, 4, q), zero, index)
      invariant forall q: nat :: r <= q < 4 ==> totals[q] == before[q]
    {
      var share := HorizontalSum(vs[r]);
      assert RowFlushing(activations, weights, zero, start, index, vs[r], r);
      DotFits(activations, Block(weights, |activations|, 4, r), zero, index);
      totals := totals[r := totals[r] + share];
    }
  }

  /** One element of the tail, for all four rows. */
  method TailFour(activations: seq<Byte>, weights: seq<I8>, zero: Byte, index: nat, before: seq<I64>) returns (totals: seq<I64>, next: nat)
    requires |weights| == 4 * |activations| && |activations| < INNER_END && index < |activations|
    requires FourDots(activations, weights, zero, index, before)
    ensures next == index + 1 && FourDots(activations, weights, zero, next, totals)
  {
    totals := before;
    next := index + 1;
    for r := 0 to 4
      invariant |totals| == 4
      invariant forall q: nat :: q < r ==> totals[q] == Dot(activations, Block(weights, |activations|, 4, q), zero, next)
      invariant forall q: nat :: r <= q < 4 ==> totals[q] == before[q]
    {
      RowFits(r, 4, |activations|);
      DotFits(activations, Block(weights, |activations|, 4, r), zero, next);
      totals := totals[r := totals[r] + Term(activations[index], zero, weights[r * |activations| + index])];
    }
  }

  /** `dot4_i64_avx2`: four dot products that share the widened activations. */
  method FourKernel(activations: seq<Byte>, weights: seq<I8>, zero: Byte) returns (totals: seq<I64>)
    requires |weights| == 4 * |activations| && |activations| < INNER_END
    ensures FourDots(activations, weights, zero, |activations|, totals)
  {
    var index: nat := 0;
    totals := [0, 0, 0, 0];
    while index + 16 <= |activations|
      invariant index <= |activations| && FourDots(activations, weights, zero, index, totals)
      decreases |activations| - index
    {
      var vs, end := FourFlush(activations, weights, zero, index);
      totals := AddFour(activations, weights, zero, index, end, vs, totals);
      index := end;
    }
    while index < |activations|
      invariant index <= |activations| && FourDots(activations, weights, zero, index, totals)
    {
      totals, index := TailFour(activations, weights, zero, index, totals);
    }
  }

  // ---------------------------------------------------------------------------------- the whole product

  datatype Error = InvalidShape | Unavailable | AccumulatorOverflow(value: int)

  predicate FitsI32(x: int) {
    -0x8000_0000 <= x < 0x8000_0000
  }

  /** One row of the product, one value per column. */
  function Products(row: seq<Byte>, weights: seq<I8>, columns: nat, zero: Byte): (values: seq<int>)
    requires |weights| == columns * |row|
    ensures |values| == columns
  {
    seq(columns, c requires 0 <= c < columns => Dot(row, Block(weights, |row|, columns, c), zero, |row|))
  }

  /** The first `n` values of a row are stored from `base` on, and all fit. */
  ghost predicate Stored(output: array<int>, base: nat, values: seq<int>, n: nat)
    reads output
  {
    && n <= |values| && base + |values| <= output.Length
    && forall c :: 0 <= c < n ==> FitsI32(values[c]) && output[base + c] == values[c]
  }

  /** Nothing outside the row has changed. */
  twostate predicate OnlyRow(output: array<int>, base: nat, count: nat)
    reads output
  {
    forall i :: 0 <= i < output.Length && !(base <= i < base + count) ==> output[i] == old(output[i])
  }

  method Store(output: array<int>, base: nat, ghost values: seq<int>, column: nat, value: int) returns (r: Result<(), Error>)
    requires column < |values| && value == values[column] && Stored(output, base, values, column)
    modifies output
    ensures r.Ok? <==> FitsI32(value)
    ensures r.Ok? ==> Stored(output, base, values, column + 1)
    ensures r.Err? ==> r.error == AccumulatorOverflow(value)
    ensures OnlyRow(output, base, |values|)
  {
    if !FitsI32(value) { return Err(AccumulatorOverflow(value)); }
    output[base + column] := value;
    return Ok(());
  }

  /** Four consecutive rows of the weights. */
  lemma FourRows(weights: seq<I8>, inner: nat, columns: nat, column: nat, r: nat)
    requires |weights| == columns * inner && column + 4 <= columns && r < 4
    ensures 0 <= column * inner && column * inner + 4 * inner <= |weights|
    ensures |weights[column * inner..column * inner + 4 * inner]| == 4 * inner
    ensures Block(weights[column * inner..column * inner + 4 * inner], inner, 4, r) == Block(weights, inner, columns, column + r)
  {
    RowFits(column, columns, inner);
    RowFits(column + r, columns, inner);
    RowFits(column + 3, columns, inner);
    RowFits(r, 4, inner);
    assert (column + 3) * inner == column * inner + 3 * inner;
    assert (column + r) * inner == column * inner + r * inner;
    SliceOfSlice(weights, column * inner, column * inner + 4 * inner, r * inner, r * inner + inner);
  }

  /** A group of four columns. */
  method FourColumns(row: seq<Byte>, weights: seq<I8>, columns: nat, zero: Byte, output: array<int>, base: nat, column: nat)
    returns (r: Result<(), Error>, next: nat)
    requires |row| < INNER_END && |weights| == columns * |row| && column + 4 <= columns
    requires Stored(output, base, Products(row, weights, columns, zero), column)
    modifies output
    ensures next == column + 4 && OnlyRow(output, base, columns)
    ensures r.Ok? ==> Stored(output, base, Products(row, weights, columns, zero), next)
    ensures r.Err? ==> Overflows(Products(row, weights, columns, zero), r.error)
  {
    ghost var values := Products(row, weights, columns, zero);
    next := column + 4;
    FourRows(weights, |row|, columns, column, 0);
    var rows := weights[column * |row|..column * |row| + 4 * |row|];
    var totals := FourKernel(row, rows, zero);
    for k := 0 to 4
      invariant Stored(output, base, values, column + k) && OnlyRow(output, base, columns)
    {
      FourRows(weights, |row|, columns, column, k);
      r := Store(output, base, values, column + k, totals[k]);
      if r.Err? { return; }
    }
    return Ok(()), next;
  }

  /** The reported value is a dot product that does not fit. */
  ghost predicate Overflows(values: seq<int>, e: Error) {
    exists c :: 0 <= c < |values| && !FitsI32(values[c]) && e == AccumulatorOverflow(values[c])
  }

  /** One row of the output: groups of four columns, then the rest one by one. */
  method EvaluateRow(row: seq<Byte>, weights: seq<I8>, columns: nat, zero: Byte, output: array<int>, base: nat)
    returns (r: Result<(), Error>)
    requires |row| < INNER_END && |weights| == columns * |row| && base + columns <= output.Length
    modifies output
    ensures OnlyRow(output, base, columns)
    ensures r.Ok? ==> Stored(output, base, Products(row, weights, columns, zero), columns)
    ensures r.Err? ==> Overflows(Products(row, weights, columns, zero), r.error)
  {
    ghost var values := Products(row, weights, columns, zero);
    var column: nat := 0;
    while column + 4 <= columns
      invariant column <= columns && Stored(output, base, values, column) && OnlyRow(output, base, columns)
      decreases columns - column
    {
      r, column := FourColumns(row, weights, columns, zero, output, base, column);
      if r.Err? { return; }
    }
    while column < columns
      invariant column <= columns && Stored(output, base, values, column) && OnlyRow(output, base, columns)
    {
      RowFits(column, columns, |row|);
      var accumulator := DotKernel(row, weights[column * |row|..column * |row| + |row|], zero);
      r := Store(output, base, values, column, accumulator);
      if r.Err? { return; }
      column := column + 1;
    }
    return Ok(());
  }

  /** The naive product, row by row. */
  ghost function Product(activations: seq<Byte>, weights: seq<I8>, rows: nat, inner: nat, columns: nat, zero: Byte): (product: seq<seq<int>>)
    requires |activations| == rows * inner && |weights| == columns * inner
    ensures |product| == rows && Wide(product, columns)
  {
    seq(rows, r requires 0 <= r < rows => Products(Block(activations, inner, rows, r), weights, columns, zero))
  }

  ghost predicate AllFit(product: seq<seq<int>>, n: nat)
    requires n <= |product|
  {
    forall r, c :: 0 <= r < n && 0 <= c < |product[r]| ==> FitsI32(product[r][c])
  }

  /** The first `n` rows stand in the output, one after another. */
  ghost predicate RowsStored(output: seq<int>, product: seq<seq<int>>, n: nat, base: nat) {
    && n <= |product| && base == |FlatTo(product, n)| <= |output|
    && forall i :: 0 <= i < base ==> output[i] == FlatTo(product, n)[i]
  }

  lemma RowStored(before: seq<int>, after: seq<int>, product: seq<seq<int>>, n: nat, base: nat, columns: nat)
    requires n < |product| && |product[n]| == columns && RowsStored(before, product, n, base) && |after| == |before|
    requires base + columns <= |after| && forall i :: 0 <= i < base ==> after[i] == before[i]
    requires forall c :: 0 <= c < columns ==> after[base + c] == product[n][c]
    ensures RowsStored(after, product, n + 1, base + columns)
  {
    forall i | 0 <= i < base + columns ensures after[i] == FlatTo(product, n + 1)[i] {
      if i >= base { assert after[base + (i - base)] == product[n][i - base]; }
    }
  }

  /** One more row; `base` moves on by its columns. */
  method NextRow(activations: seq<Byte>, weights: seq<I8>, rows: nat, inner: nat, columns: nat, zero: Byte, output: array<int>,
                 ghost product: seq<seq<int>>, row: nat, base: nat)
    returns (r: Result<(), Error>, next: nat, end: nat)
    requires inner < INNER_END && |activations| == rows * inner && |weights| == columns * inner && row < rows
    requires product == Product(activations, weights, rows, inner, columns, zero)
    requires RowsStored(output[..], product, row, base) && base + columns <= output.Length && AllFit(product, row)
    modifies output
    ensures next == row + 1 && end == base + columns
    ensures r.Ok? ==> RowsStored(output[..], product, next, end) && AllFit(product, next)
    ensures r.Err? ==> Overflows(product[row], r.error)
  {
    RowFits(row, rows, inner);
    var values := activations[row * inner..row * inner + inner];
    assert product[row] == Products(values, weights, columns, zero);
    ghost var before := output[..];
    r := EvaluateRow(values, weights, columns, zero, output, base);
    next, end := row + 1, base + columns;
    if r.Ok? { RowStored(before, output[..], product, row, base, columns); }
  }

  /** `gemm_u8_i8_into`: the naive product, exactly when all of it fits 32 bits. */
  method Gemm(activations: seq<Byte>, weights: seq<I8>, rows: nat, inner: nat, columns: nat, zero: Byte, available: bool, output: array<int>)
    returns (r: Result<(), Error>)
    requires inner < INNER_END
    modifies output
    ensures r == Err(InvalidShape) <==> |activations| != rows * inner || |weights| != columns * inner || output.Length != rows * columns
    ensures r == Err(Unavailable) <==> r != Err(InvalidShape) && !available
    ensures |activations| == rows * inner && |weights| == columns * inner && output.Length == rows * columns && available ==>
              var product := Product(activations, weights, rows, inner, columns, zero);
              && (r.Ok? <==> AllFit(product, rows))
              && (r.Ok? ==> output[..] == Flat(product))
              && (r.Err? ==> exists i :: 0 <= i < rows && Overflows(product[i], r.error))
  {
    if |activations| != rows * inner || |weights| != columns * inner || output.Length != rows * columns { return Err(InvalidShape); }
    if !available { return Err(Unavailable); }
    ghost var product := Product(activations, weights, rows, inner, columns, zero);
    FlatLength(product, columns);
    var row: nat, base: nat := 0, 0;
    while row < rows
      invariant row <= rows && RowsStored(output[..], product, row, base) && AllFit(product, row)
    {
      FlatToLength(product, columns, row);
      RowFits(row, rows, columns);
      r, row, base := NextRow(activations, weights, rows, inner, columns, zero, output, product, row, base);
      if r.Err? { return; }
    }
    assert output[..] == Flat(product);
    return Ok(());
  }
}
