/**
 The dense tensor kernels of the FP32 executor (`crates/marian-cpu/src/tensor.rs`).

 Scalars are opaque and their operations are arbitrary deterministic functions, so nothing here depends on
 rounding. Specifications speak of rows; the methods work on flat row-major buffers, as the source does.
 */
module Tensor {
  import opened Base
  import opened Layout

  type Scalar(==, !new)
  type Vec = seq<Scalar>

  /** The f32 operations, and one output cell of `sgemm`: a function of its own left row only. */
  datatype Arithmetic = Arithmetic(
    zero: Scalar,
    one: Scalar,
    negativeInfinity: Scalar,
    epsilon: Scalar,
    embeddingScale: Scalar,
    add: (Scalar, Scalar) -> Scalar,
    sub: (Scalar, Scalar) -> Scalar,
    mul: (Scalar, Scalar) -> Scalar,
    div: (Scalar, Scalar) -> Scalar,
    negate: Scalar -> Scalar,
    exp: Scalar -> Scalar,
    sqrt: Scalar -> Scalar,
    max: (Scalar, Scalar) -> Scalar,
    greater: (Scalar, Scalar) -> bool,
    fromNat: nat -> Scalar,
    gemmCell: (Vec, Vec, nat) -> Scalar)

  datatype Matrix = Matrix(values: Vec, rows: nat, cols: nat) {
    ghost predicate Valid() { |values| == rows * cols }

    ghost predicate Has(r: nat, c: nat) { Valid() && rows == r && cols == c }
  }

  datatype ShapeError = InnerMismatch | ShapeMismatch | HeadsMismatch | LengthsMismatch | EmptyCandidates | CandidateOutOfRange

  // ---------------------------------------------------------------------------------- row functions

  function Zeros(a: Arithmetic, n: nat): (v: Vec)
    ensures |v| == n
  {
    seq(n, _ => a.zero)
  }

  function AddRows(a: Arithmetic, x: Vec, y: Vec): (z: Vec)
    requires |x| == |y|
    ensures |z| == |x|
  {
    seq(|x|, i requires 0 <= i < |x| => a.add(x[i], y[i]))
  }

  function Relu(a: Arithmetic, x: Vec): (z: Vec)
    ensures |z| == |x|
  {
    seq(|x|, i requires 0 <= i < |x| => a.max(x[i], a.zero))
  }

  function Sum(a: Arithmetic, x: Vec): Scalar {
    if x == [] then a.zero else a.add(Sum(a, x[..|x| - 1]), x[|x| - 1])
  }

  function Dot(a: Arithmetic, x: Vec, y: Vec): Scalar
    requires |x| == |y|
  {
    Sum(a, seq(|x|, i requires 0 <= i < |x| => a.mul(x[i], y[i])))
  }

  function MaxOf(a: Arithmetic, x: Vec): Scalar {
    if x == [] then a.negativeInfinity else a.max(MaxOf(a, x[..|x| - 1]), x[|x| - 1])
  }

  function GemmRow(a: Arithmetic, x: Vec, w: Matrix): (z: Vec)
    ensures |z| == w.cols
  {
    seq(w.cols, j requires 0 <= j < w.cols => a.gemmCell(x, w.values, j))
  }

  function Affine(a: Arithmetic, w: Matrix, bias: Option<Matrix>, x: Vec): (z: Vec)
    requires bias.Some? ==> |bias.value.values| == w.cols
    ensures |z| == w.cols
  {
    if bias.Some? then AddRows(a, GemmRow(a, x, w), bias.value.values) else GemmRow(a, x, w)
  }

  function Mean(a: Arithmetic, x: Vec): Scalar {
    a.div(Sum(a, x), a.fromNat(|x|))
  }

  function Squares(a: Arithmetic, x: Vec, mean: Scalar): (z: Vec)
    ensures |z| == |x|
  {
    seq(|x|, i requires 0 <= i < |x| => a.mul(a.sub(x[i], mean), a.sub(x[i], mean)))
  }

  function InverseStd(a: Arithmetic, x: Vec): Scalar {
    a.div(a.one, a.sqrt(a.add(a.div(Sum(a, Squares(a, x, Mean(a, x))), a.fromNat(|x|)), a.epsilon)))
  }

  function Normalize(a: Arithmetic, scale: Vec, bias: Vec, x: Vec): (z: Vec)
    requires |scale| == |bias| == |x|
    ensures |z| == |x|
  {
    var mean, inverse := Mean(a, x), InverseStd(a, x);
    seq(|x|, i requires 0 <= i < |x| => a.add(a.mul(a.mul(a.sub(x[i], mean), inverse), scale[i]), bias[i]))
  }

  function Exponentials(a: Arithmetic, x: Vec, maximum: Scalar): (z: Vec)
    ensures |z| == |x|
  {
    seq(|x|, i requires 0 <= i < |x| => a.exp(a.sub(x[i], maximum)))
  }

  function Softmax(a: Arithmetic, x: Vec): (z: Vec)
    ensures |z| == |x|
  {
    var e := Exponentials(a, x, MaxOf(a, x));
    var inverse := a.div(a.one, Sum(a, e));
    seq(|x|, i requires 0 <= i < |x| => a.mul(e[i], inverse))
  }

  // ---------------------------------------------------------------------------------- in-place helpers

  ghost predicate RowIn(buffer: array<Scalar>, base: nat, row: Vec)
    reads buffer
  {
    base + |row| <= buffer.Length && forall j :: 0 <= j < |row| ==> buffer[base + j] == row[j]
  }

  method LargestScore(a: Arithmetic, scores: array<Scalar>, active: nat, ghost row: Vec) returns (maximum: Scalar)
    requires |row| == active && RowIn(scores, 0, row)
    ensures maximum == MaxOf(a, row)
  {
    maximum := a.negativeInfinity;
    for i := 0 to active
      invariant maximum == MaxOf(a, row[..i])
    {
      assert row[..i + 1][..i] == row[..i];
      maximum := a.max(maximum, scores[i]);
    }
    assert row[..active] == row;
  }

  method ExponentiateInPlace(a: Arithmetic, scores: array<Scalar>, active: nat, maximum: Scalar, ghost row: Vec) returns (sum: Scalar)
    requires |row| == active && RowIn(scores, 0, row)
    modifies scores
    ensures RowIn(scores, 0, Exponentials(a, row, maximum)) && sum == Sum(a, Exponentials(a, row, maximum))
    ensures forall j :: active <= j < scores.Length ==> scores[j] == old(scores[j])
  {
    ghost var e := Exponentials(a, row, maximum);
    sum := a.zero;
    for i := 0 to active
      invariant forall j :: i <= j < scores.Length ==> scores[j] == old(scores[j])
      invariant forall j :: 0 <= j < i ==> scores[j] == e[j]
      invariant sum == Sum(a, e[..i])
    {
      assert scores[0 + i] == row[i];
      scores[i] := a.exp(a.sub(scores[i], maximum));
      sum := a.add(sum, scores[i]);
      assert e[..i + 1][..i] == e[..i];
    }
    assert e[..active] == e;
  }

  /** `softmax_in_place` on the first `active` scores; whatever lies behind them is neither read nor written. */
  method SoftmaxInPlace(a: Arithmetic, scores: array<Scalar>, active: nat)
    requires active <= scores.Length
    modifies scores
    ensures scores[..active] == Softmax(a, old(scores[..active]))
    ensures scores[active..] == old(scores[active..])
  {
    ghost var row := scores[..active];
    var maximum := LargestScore(a, scores, active, row);
    ghost var e := Exponentials(a, row, maximum);
    var sum := ExponentiateInPlace(a, scores, active, maximum, row);
    var inverse := a.div(a.one, sum);
    for i := 0 to active
      invariant forall j :: 0 <= j < i ==> scores[j] == Softmax(a, row)[j]
      invariant forall j :: i <= j < active ==> scores[j] == e[j]
      invariant forall j :: active <= j < scores.Length ==> scores[j] == old(scores[j])
    {
      scores[i] := a.mul(scores[i], inverse);
    }
  }

  method SumRow(a: Arithmetic, buffer: array<Scalar>, base: nat, dim: nat, ghost row: Vec) returns (sum: Scalar)
    requires |row| == dim && RowIn(buffer, base, row)
    ensures sum == Sum(a, row)
  {
    sum := a.zero;
    for i := 0 to dim
      invariant sum == Sum(a, row[..i])
    {
      assert row[..i + 1][..i] == row[..i];
      sum := a.add(sum, buffer[base + i]);
    }
    assert row[..dim] == row;
  }

  method SumSquares(a: Arithmetic, buffer: array<Scalar>, base: nat, dim: nat, mean: Scalar, ghost row: Vec) returns (squares: Scalar)
    requires |row| == dim && RowIn(buffer, base, row)
    ensures squares == Sum(a, Squares(a, row, mean))
  {
    squares := a.zero;
    ghost var sq := Squares(a, row, mean);
    for i := 0 to dim
      invariant squares == Sum(a, sq[..i])
    {
      assert sq[..i + 1][..i] == sq[..i];
      var centered := a.sub(buffer[base + i], mean);
      squares := a.add(squares, a.mul(centered, centered));
    }
    assert sq[..dim] == sq;
  }

  method ScaleRow(a: Arithmetic, buffer: array<Scalar>, base: nat, scale: Vec, bias: Vec, mean: Scalar, inverse: Scalar, ghost row: Vec)
    requires |scale| == |bias| == |row| && RowIn(buffer, base, row)
    modifies buffer
    ensures forall j :: 0 <= j < buffer.Length && !(base <= j < base + |row|) ==> buffer[j] == old(buffer[j])
    ensures forall j :: base <= j < base + |row| ==>
              buffer[j] == a.add(a.mul(a.mul(a.sub(row[j - base], mean), inverse), scale[j - base]), bias[j - base])
  {
    for i := 0 to |scale|
      invariant forall j :: 0 <= j < buffer.Length && !(base <= j < base + i) ==> buffer[j] == old(buffer[j])
      invariant forall j :: base <= j < base + i ==>
                  buffer[j] == a.add(a.mul(a.mul(a.sub(row[j - base], mean), inverse), scale[j - base]), bias[j - base])
    {
      assert buffer[base + i] == row[i];
      buffer[base + i] := a.add(a.mul(a.mul(a.sub(buffer[base + i], mean), inverse), scale[i]), bias[i]);
    }
  }

  /** `normalize_row` on one chunk of a flat buffer. */
  method NormalizeRow(a: Arithmetic, buffer: array<Scalar>, base: nat, scale: Vec, bias: Vec, ghost row: Vec)
    requires |scale| == |bias| && base + |scale| <= buffer.Length
    modifies buffer
    requires |row| == |scale| && forall j :: base <= j < base + |row| ==> buffer[j] == row[j - base]
    ensures forall j :: 0 <= j < buffer.Length && !(base <= j < base + |scale|) ==> buffer[j] == old(buffer[j])
    ensures forall j :: base <= j < base + |scale| ==> buffer[j] == Normalize(a, scale, bias, row)[j - base]
  {
    var dim := |scale|;
    var sum := SumRow(a, buffer, base, dim, row);
    var mean := a.div(sum, a.fromNat(dim));
    var squares := SumSquares(a, buffer, base, dim, mean, row);
    var inverse := a.div(a.one, a.sqrt(a.add(a.div(squares, a.fromNat(dim)), a.epsilon)));
    assert mean == Mean(a, row) && inverse == InverseStd(a, row);
    ScaleRow(a, buffer, base, scale, bias, mean, inverse, row);
  }

  // ---------------------------------------------------------------------------------- matmul

  /** What `sgemm` leaves behind: each output row is computed from its own left row. */
  ghost function AffineRows(a: Arithmetic, w: Matrix, bias: Option<Matrix>, rows: seq<Vec>): (z: seq<Vec>)
    requires bias.Some? ==> |bias.value.values| == w.cols
    ensures |z| == |rows| && Wide(z, w.cols)
  {
    seq(|rows|, i requires 0 <= i < |rows| => Affine(a, w, bias, rows[i]))
  }

  function Sgemm(a: Arithmetic, lhs: Vec, w: Matrix, rows: nat, inner: nat): Vec
    requires |lhs| == rows * inner
  {
    Flat(seq(rows, i requires 0 <= i < rows => GemmRow(a, Block(lhs, inner, rows, i), w)))
  }

  method MatMul(a: Arithmetic, lhs: Vec, rhs: Matrix, rows: nat, inner: nat, bias: Option<Matrix>)
    returns (r: Result<Vec, ShapeError>)
    requires rhs.Valid() && (bias.Some? ==> bias.value.Valid())
    ensures r.Ok? <==> rhs.rows == inner && |lhs| == rows * inner
                       && (bias.Some? ==> bias.value.rows == 1 && bias.value.cols == rhs.cols)
    ensures r.Ok? ==> r.value == Flat(AffineRows(a, rhs, bias, Blocks(lhs, inner, rows)))
    ensures r.Ok? ==> |r.value| == rows * rhs.cols
  {
    if rhs.rows != inner { return Err(InnerMismatch); }
    if |lhs| != rows * inner { return Err(ShapeMismatch); }
    if bias.Some? && (bias.value.rows != 1 || bias.value.cols != rhs.cols) { return Err(ShapeMismatch); }
    ghost var spec := AffineRows(a, rhs, bias, Blocks(lhs, inner, rows));
    FlatLength(spec, rhs.cols);
    var product := Sgemm(a, lhs, rhs, rows, inner);
    ghost var gemm := seq(rows, i requires 0 <= i < rows => GemmRow(a, Block(lhs, inner, rows, i), rhs));
    FlatLength(gemm, rhs.cols);
    if bias.None? {
      assert gemm == spec;
      return Ok(product);
    }
    var output := AddBias(a, product, bias.value.values, rows, rhs.cols, gemm, spec);
    return Ok(output);
  }

  /** The bias is added row by row. */
  method AddBias(a: Arithmetic, product: Vec, bias: Vec, rows: nat, cols: nat, ghost gemm: seq<Vec>, ghost spec: seq<Vec>)
    returns (output: Vec)
    requires |gemm| == |spec| == rows && |bias| == cols && Wide(gemm, cols) && product == Flat(gemm) && |product| == rows * cols
    requires forall i :: 0 <= i < rows ==> spec[i] == AddRows(a, gemm[i], bias)
    ensures output == Flat(spec)
  {
    output := [];
    for row := 0 to rows
      invariant output == FlatTo(spec, row)
    {
      FlatBlock(gemm, cols, row);
      output := output + AddRows(a, Block(product, cols, rows, row), bias);
    }
  }

  // ---------------------------------------------------------------------------------- residual layer norm

  function ResidualNorm(a: Arithmetic, scale: Matrix, bias: Matrix, x: Vec, residual: Vec): (z: Vec)
    requires |x| == |residual| == |scale.values| == |bias.values|
    ensures |z| == |x|
  {
    Normalize(a, scale.values, bias.values, AddRows(a, x, residual))
  }

  ghost function ResidualNormRows(a: Arithmetic, scale: Matrix, bias: Matrix, xs: seq<Vec>, residuals: seq<Vec>): (z: seq<Vec>)
    requires |scale.values| == |bias.values| && |xs| == |residuals|
    requires Wide(xs, |scale.values|) && Wide(residuals, |scale.values|)
    ensures |z| == |xs| && Wide(z, |scale.values|)
  {
    seq(|xs|, i requires 0 <= i < |xs| => ResidualNorm(a, scale, bias, xs[i], residuals[i]))
  }

  ghost function NormalizeRows(a: Arithmetic, scale: Vec, bias: Vec, rows: seq<Vec>): (z: seq<Vec>)
    requires |scale| == |bias| && Wide(rows, |scale|)
    ensures |z| == |rows| && Wide(z, |scale|)
  {
    seq(|rows|, i requires 0 <= i < |rows| => Normalize(a, scale, bias, rows[i]))
  }

  /** A buffer filled up to `base` with `done`, and still as at the start behind it. */
  ghost predicate Staged(buffer: array<Scalar>, start: Vec, done: Vec, base: nat)
    reads buffer
  {
    && buffer.Length == |start| && |done| == base <= |start|
    && (forall i :: 0 <= i < base ==> buffer[i] == done[i])
    && (forall i :: base <= i < |start| ==> buffer[i] == start[i])
  }

  /** After `row` rows: the buffer holds the finished rows, then the untouched ones. */
  ghost predicate ChunksUpTo(buffer: array<Scalar>, input: seq<Vec>, spec: seq<Vec>, row: nat, width: nat, base: nat)
    reads buffer
  {
    && row <= |input| == |spec| && Wide(input, width) && Wide(spec, width)
    && base == Offset(row, width)
    && Staged(buffer, Flat(input), FlatTo(spec, row), base)
  }

  /** Normalizing chunk by chunk turns a buffer of rows into the buffer of normalized rows. */
  method NormalizeChunks(a: Arithmetic, output: array<Scalar>, scale: Vec, bias: Vec, rows: nat, ghost input: seq<Vec>)
    requires |scale| == |bias| && |input| == rows && Wide(input, |scale|)
    requires output[..] == Flat(input)
    modifies output
    ensures output[..] == Flat(NormalizeRows(a, scale, bias, input))
  {
    var dim := |scale|;
    ghost var spec := NormalizeRows(a, scale, bias, input);
    var base := 0;
    for row := 0 to rows
      invariant ChunksUpTo(output, input, spec, row, dim, base)
    {
      base := NormalizeChunkAt(a, output, base, scale, bias, row, input);
    }
    ChunksDone(output, input, spec, base, dim);
  }

  method NormalizeChunkAt(a: Arithmetic, output: array<Scalar>, base: nat, scale: Vec, bias: Vec, ghost row: nat, ghost input: seq<Vec>)
    returns (next: nat)
    requires |scale| == |bias| && row < |input| && Wide(input, |scale|)
    requires ChunksUpTo(output, input, NormalizeRows(a, scale, bias, input), row, |scale|, base)
    modifies output
    ensures ChunksUpTo(output, input, NormalizeRows(a, scale, bias, input), row + 1, |scale|, next)
  {
    FlatRowAt(input, |scale|, row, base);
    ghost var done := FlatTo(NormalizeRows(a, scale, bias, input), row);
    NormalizeRow(a, output, base, scale, bias, input[row]);
    next := base + |scale|;
    assert Staged(output, Flat(input), done + Normalize(a, scale, bias, input[row]), next);
  }

  lemma FlatRowAt(rows: seq<Vec>, width: nat, row: nat, base: nat)
    requires Wide(rows, width) && row < |rows| && base == Offset(row, width)
    ensures base + width <= |Flat(rows)|
    ensures forall j :: base <= j < base + width ==> Flat(rows)[j] == rows[row][j - base]
  {
    OffsetIsProduct(row, width);
    FlatBlock(rows, width, row);
    RowFits(row, |rows|, width);
    forall j | base <= j < base + width ensures Flat(rows)[j] == rows[row][j - base] {
      assert Block(Flat(rows), width, |rows|, row)[j - base] == Flat(rows)[j];
    }
  }

  lemma ChunksDone(now: array<Scalar>, input: seq<Vec>, spec: seq<Vec>, base: nat, width: nat)
    requires ChunksUpTo(now, input, spec, |input|, width, base)
    ensures now[..] == Flat(spec)
  {
    OffsetIsProduct(|input|, width);
    FlatLength(input, width);
  }

  method ResidualLayerNorm(a: Arithmetic, input: Vec, residual: Vec, scale: Matrix, bias: Matrix, rows: nat, dim: nat)
    returns (r: Result<Vec, ShapeError>)
    requires scale.Valid() && bias.Valid()
    ensures r.Ok? <==> |input| == |residual| == rows * dim
                       && scale.rows == 1 && scale.cols == dim && bias.rows == 1 && bias.cols == dim
    ensures r.Ok? ==> r.value == Flat(ResidualNormRows(a, scale, bias, Blocks(input, dim, rows), Blocks(residual, dim, rows)))
    ensures r.Ok? ==> |r.value| == rows * dim
  {
    if |input| != rows * dim || |residual| != rows * dim { return Err(ShapeMismatch); }
    if scale.rows != 1 || scale.cols != dim || bias.rows != 1 || bias.cols != dim { return Err(ShapeMismatch); }
    var output := new Scalar[rows * dim](_ => a.zero);
    for i := 0 to rows * dim
      invariant forall j :: 0 <= j < i ==> output[j] == a.add(input[j], residual[j])
    {
      output[i] := a.add(input[i], residual[i]);
    }
    ghost var xs, residuals := Blocks(input, dim, rows), Blocks(residual, dim, rows);
    ghost var sums := seq(rows, i requires 0 <= i < rows => AddRows(a, xs[i], residuals[i]));
    AddedBlocks(a, input, residual, output[..], dim, rows);
    assert Blocks(output[..], dim, rows) == sums;
    FlatOfBlocks(output[..], dim, rows);
    NormalizeChunks(a, output, scale.values, bias.values, rows, sums);
    ghost var spec := ResidualNormRows(a, scale, bias, xs, residuals);
    assert spec == NormalizeRows(a, scale.values, bias.values, sums);
    FlatLength(spec, dim);
    return Ok(output[..]);
  }

  lemma AddedBlocks(a: Arithmetic, x: Vec, y: Vec, z: Vec, dim: nat, rows: nat)
    requires |x| == |y| == |z| == rows * dim
    requires forall j :: 0 <= j < |z| ==> z[j] == a.add(x[j], y[j])
    ensures forall i: nat :: i < rows ==> Block(z, dim, rows, i) == AddRows(a, Block(x, dim, rows, i), Block(y, dim, rows, i))
  {
    forall i: nat | i < rows ensures Block(z, dim, rows, i) == AddRows(a, Block(x, dim, rows, i), Block(y, dim, rows, i)) {
      RowFits(i, rows, dim);
    }
  }

  // ---------------------------------------------------------------------------------- SSRU cell

  function Gate(a: Arithmetic, forget: Scalar): Scalar {
    a.div(a.one, a.add(a.one, a.exp(a.negate(forget))))
  }

  function SsruCell(a: Arithmetic, candidate: Scalar, forget: Scalar, state: Scalar): Scalar {
    a.add(a.mul(Gate(a, forget), state), a.mul(a.sub(a.one, Gate(a, forget)), candidate))
  }

  /** The recurrent state of one row after one step. */
  function SsruState(a: Arithmetic, candidate: Vec, forget: Vec, state: Vec): (z: Vec)
    requires |candidate| == |forget| == |state|
    ensures |z| == |state|
  {
    seq(|state|, i requires 0 <= i < |state| => SsruCell(a, candidate[i], forget[i], state[i]))
  }

  /** The layer output of one row, from its new state. */
  function SsruOutput(a: Arithmetic, scale: Matrix, bias: Matrix, state: Vec, residual: Vec): (z: Vec)
    requires |state| == |residual| == |scale.values| == |bias.values|
    ensures |z| == |state|
  {
    Normalize(a, scale.values, bias.values, AddRows(a, Relu(a, state), residual))
  }

  lemma SsruBlocks(a: Arithmetic, candidate: Vec, forget: Vec, before: Vec, after: Vec, residual: Vec, sums: Vec, dim: nat, rows: nat)
    requires |candidate| == |forget| == |before| == |after| == |residual| == |sums| == rows * dim
    requires forall j :: 0 <= j < |after| ==> after[j] == SsruCell(a, candidate[j], forget[j], before[j])
    requires forall j :: 0 <= j < |sums| ==> sums[j] == a.add(a.max(after[j], a.zero), residual[j])
    ensures forall i: nat :: i < rows ==>
              Block(after, dim, rows, i) == SsruState(a, Block(candidate, dim, rows, i), Block(forget, dim, rows, i), Block(before, dim, rows, i))
    ensures forall i: nat :: i < rows ==>
              Block(sums, dim, rows, i) == AddRows(a, Relu(a, Block(after, dim, rows, i)), Block(residual, dim, rows, i))
  {
    forall i: nat | i < rows
      ensures Block(after, dim, rows, i) == SsruState(a, Block(candidate, dim, rows, i), Block(forget, dim, rows, i), Block(before, dim, rows, i))
    {
      RowFits(i, rows, dim);
    }
    forall i: nat | i < rows
      ensures Block(sums, dim, rows, i) == AddRows(a, Relu(a, Block(after, dim, rows, i)), Block(residual, dim, rows, i))
    {
      RowFits(i, rows, dim);
    }
  }

  method SsruUpdateLayerNorm(a: Arithmetic, candidate: Vec, forget: Vec, state: array<Scalar>, residual: Vec,
                             scale: Matrix, bias: Matrix, rows: nat, dim: nat)
    returns (r: Result<Vec, ShapeError>)
    requires scale.Valid() && bias.Valid()
    modifies state
    ensures r.Ok? <==> |candidate| == |forget| == state.Length == |residual| == rows * dim
                       && scale.rows == 1 && scale.cols == dim && bias.rows == 1 && bias.cols == dim
    ensures r.Err? ==> state[..] == old(state[..])
    ensures r.Ok? ==> |r.value| == rows * dim
    ensures r.Ok? ==> forall i: nat :: i < rows ==>
              Block(state[..], dim, rows, i)
              == SsruState(a, Block(candidate, dim, rows, i), Block(forget, dim, rows, i), Block(old(state[..]), dim, rows, i))
    ensures r.Ok? ==> forall i: nat :: i < rows ==>
              Block(r.value, dim, rows, i)
              == SsruOutput(a, scale, bias, Block(state[..], dim, rows, i), Block(residual, dim, rows, i))
  {
    if |candidate| != rows * dim || |forget| != rows * dim || state.Length != rows * dim || |residual| != rows * dim {
      return Err(ShapeMismatch);
    }
    if scale.rows != 1 || scale.cols != dim || bias.rows != 1 || bias.cols != dim { return Err(ShapeMismatch); }
    ghost var before := state[..];
    UpdateState(a, candidate, forget, state);
    var output := ReluResidual(a, state, residual);
    ghost var sums := Blocks(output[..], dim, rows);
    SsruBlocks(a, candidate, forget, before, state[..], residual, output[..], dim, rows);
    FlatOfBlocks(output[..], dim, rows);
    NormalizeChunks(a, output, scale.values, bias.values, rows, sums);
    NormalizedBlocks(a, scale.values, bias.values, sums, output[..], dim, rows);
    return Ok(output[..]);
  }

  method UpdateState(a: Arithmetic, candidate: Vec, forget: Vec, state: array<Scalar>)
    requires |candidate| == |forget| == state.Length
    modifies state
    ensures forall j :: 0 <= j < state.Length ==> state[j] == SsruCell(a, candidate[j], forget[j], old(state[j]))
  {
    for i := 0 to state.Length
      invariant forall j :: i <= j < state.Length ==> state[j] == old(state[j])
      invariant forall j :: 0 <= j < i ==> state[j] == SsruCell(a, candidate[j], forget[j], old(state[j]))
    {
      var gate := a.div(a.one, a.add(a.one, a.exp(a.negate(forget[i]))));
      state[i] := a.add(a.mul(gate, state[i]), a.mul(a.sub(a.one, gate), candidate[i]));
    }
  }

  method ReluResidual(a: Arithmetic, state: array<Scalar>, residual: Vec) returns (output: array<Scalar>)
    requires |residual| == state.Length
    ensures fresh(output) && output.Length == state.Length
    ensures forall j :: 0 <= j < state.Length ==> output[j] == a.add(a.max(state[j], a.zero), residual[j])
  {
    output := new Scalar[state.Length](_ => a.zero);
    for i := 0 to state.Length
      invariant forall j :: 0 <= j < i ==> output[j] == a.add(a.max(state[j], a.zero), residual[j])
    {
      output[i] := a.add(a.max(state[i], a.zero), residual[i]);
    }
  }

  lemma NormalizedBlocks(a: Arithmetic, scale: Vec, bias: Vec, sums: seq<Vec>, output: Vec, dim: nat, rows: nat)
    requires |scale| == |bias| == dim && |sums| == rows && Wide(sums, dim)
    requires output == Flat(NormalizeRows(a, scale, bias, sums))
    ensures |output| == rows * dim
    ensures forall i: nat :: i < rows ==> Block(output, dim, rows, i) == Normalize(a, scale, bias, sums[i])
  {
    var spec := NormalizeRows(a, scale, bias, sums);
    FlatLength(spec, dim);
    forall i: nat | i < rows ensures Block(output, dim, rows, i) == Normalize(a, scale, bias, sums[i]) {
      FlatBlock(spec, dim, i);
    }
  }
}
