/**
 The integer part of a quantized linear operator (`crates/marian-cpu/src/q8_gemm.rs`): whichever path the constructor
 chooses, the accumulators are the same naive product. An operator restored from packed words skips that choice, and
 is exact just when its kernel does not saturate or its weights cannot make it.
 */
module Q8Linear {
  import opened Base
  import opened Layout
  import opened DotKernels
  import opened PackedGemm
  import Avx2

  datatype Path = Rten | ExactAvx2 | ScalarSaturationFallback

  /** What the program was built for, and what its processor supports. */
  datatype Target = Arm(dotProduct: bool) | Wasm(relaxed: bool) | Other

  datatype Error = ZeroRows | InputLength | NotFinite(index: nat) | GemmFailed

  /** An input value: scaled and rounded to an integer (beyond the clamp, if scaling overflows), or not finite. */
  datatype Value = Rounded(scaled: int) | Nonfinite

  /** `Q8Linear`, as far as the accumulators need it. A restored operator keeps only its packed words. */
  datatype Operator = Operator(path: Path, restored: bool, weights: seq<I8>, inner: nat, columns: nat) {
    ghost predicate Valid() {
      0 < inner <= ELEMENTS_END && 0 < columns && |weights| == columns * inner
    }
  }

  /** The kernel that the packed library chose. */
  datatype Executor = Executor(maySaturate: bool)

  /** The path that the constructor chooses. */
  function PathFor(executor: Executor, available: bool, weights: seq<I8>): Path {
    if !executor.maySaturate || Narrow(weights) then Rten
    else if available then ExactAvx2
    else ScalarSaturationFallback
  }

  ghost function Naive(a: seq<Activation>, o: Operator, rows: nat): (product: seq<seq<int>>)
    requires o.Valid() && |a| == rows * o.inner
    ensures |product| == rows && Wide(product, o.columns)
  {
    Avx2.Product(a, o.weights, rows, o.inner, o.columns, ACTIVATION_ZERO_POINT)
  }

  /** The weights of one column. */
  function ColumnOf(o: Operator, column: nat): (w: seq<I8>)
    requires |o.weights| == o.columns * o.inner && column < o.columns
    ensures |w| == o.inner
  {
    Layout.Block(o.weights, o.inner, o.columns, column)
  }

  function LibraryRow(executor: Executor, row: seq<Activation>, o: Operator): (values: seq<int>)
    requires |o.weights| == o.columns * o.inner && |row| == o.inner
    ensures |values| == o.columns
  {
    seq(o.columns, c requires 0 <= c < o.columns => LibraryDot(executor.maySaturate, row, ColumnOf(o, c)))
  }

  /** What the packed library computes. */
  function Library(executor: Executor, a: seq<Activation>, o: Operator, rows: nat): (product: seq<seq<int>>)
    requires |o.weights| == o.columns * o.inner && |a| == rows * o.inner
    ensures |product| == rows && forall r :: 0 <= r < rows ==> |product[r]| == o.columns
  {
    seq(rows, r requires 0 <= r < rows => LibraryRow(executor, Layout.Block(a, o.inner, rows, r), o))
  }

  /** No column can make a saturating kernel saturate. */
  ghost predicate Safe(o: Operator) {
    o.Valid() && forall c :: 0 <= c < o.columns ==> PairsSafe(ColumnOf(o, c))
  }

  /** How an operator was made: by the constructor, or restored from packed words, which always run in the library. */
  ghost predicate Built(executor: Executor, available: bool, o: Operator) {
    o.Valid() && o.path == (if o.restored then Rten else PathFor(executor, available, o.weights))
  }

  lemma NarrowOperatorIsSafe(o: Operator)
    requires o.Valid() && Narrow(o.weights)
    ensures Safe(o)
  {
    forall c | 0 <= c < o.columns ensures PairsSafe(ColumnOf(o, c)) {
      RowFits(c, o.columns, o.inner);
      NarrowIsSafe(ColumnOf(o, c));
    }
  }

  lemma LibraryRowIsNaive(executor: Executor, row: seq<Activation>, o: Operator)
    requires o.Valid() && |row| == o.inner && (executor.maySaturate ==> Safe(o))
    ensures LibraryRow(executor, row, o) == Avx2.Products(row, o.weights, o.columns, ACTIVATION_ZERO_POINT)
  {
    forall c | 0 <= c < o.columns
      ensures LibraryRow(executor, row, o)[c] == Avx2.Products(row, o.weights, o.columns, ACTIVATION_ZERO_POINT)[c]
    {
      LibraryIsExact(executor.maySaturate, row, ColumnOf(o, c));
      DotsAgree(row, ColumnOf(o, c), o.inner);
    }
  }

  /** The library is exact when its kernel does not saturate, or the weights are safe. */
  lemma LibraryIsNaive(executor: Executor, a: seq<Activation>, o: Operator, rows: nat)
    requires o.Valid() && |a| == rows * o.inner && (executor.maySaturate ==> Safe(o))
    ensures Library(executor, a, o, rows) == Naive(a, o, rows)
  {
    forall r | 0 <= r < rows ensures Library(executor, a, o, rows)[r] == Naive(a, o, rows)[r] {
      RowFits(r, rows, o.inner);
      LibraryRowIsNaive(executor, Layout.Block(a, o.inner, rows, r), o);
    }
  }

  /** `dot_u8_i8`. */
  method DotRow(target: Target, a: seq<Activation>, w: seq<I8>) returns (sum: I32)
    requires |a| == |w| <= ELEMENTS_END
    ensures sum == Dot(a, w, 0, |a|)
  {
    if target.Arm? && target.dotProduct {
      sum := SdotKernel(a, w);
    } else if target.Wasm? {
      if target.relaxed { sum := RelaxedKernel(a, w, Wrap16); } else { sum := StableKernel(a, w); }
    } else {
      sum := ScalarDot(a, w, 0);
    }
  }

  /** The two plain sums are the same. */
  lemma {:induction false} DotsAgree(a: seq<Activation>, w: seq<I8>, n: nat)
    requires n <= |a| <= |w|
    ensures Avx2.Dot(a, w, ACTIVATION_ZERO_POINT, n) == Dot(a, w, 0, n)
  {
    if n > 0 { DotsAgree(a, w, n - 1); }
  }

  /** Every accumulator fits 32 bits. */
  lemma NaiveFits(a: seq<Activation>, o: Operator, rows: nat)
    requires o.Valid() && |a| == rows * o.inner
    ensures Avx2.AllFit(Naive(a, o, rows), rows)
  {
    forall r, c | 0 <= r < rows && 0 <= c < o.columns ensures Avx2.FitsI32(Naive(a, o, rows)[r][c]) {
      RowFits(r, rows, o.inner);
      RowFits(c, o.columns, o.inner);
      DotsAgree(Layout.Block(a, o.inner, rows, r), Layout.Block(o.weights, o.inner, o.columns, c), o.inner);
    }
  }

  /** One row of accumulators, column by column. */
  method DotColumns(target: Target, o: Operator, row: seq<Activation>, output: array<int>, base: nat)
    requires o.Valid() && |row| == o.inner && base + o.columns <= output.Length
    modifies output
    ensures Avx2.OnlyRow(output, base, o.columns)
    ensures Avx2.Stored(output, base, Avx2.Products(row, o.weights, o.columns, ACTIVATION_ZERO_POINT), o.columns)
  {
    ghost var values := Avx2.Products(row, o.weights, o.columns, ACTIVATION_ZERO_POINT);
    for column := 0 to o.columns
      invariant Avx2.Stored(output, base, values, column) && Avx2.OnlyRow(output, base, o.columns)
    {
      RowFits(column, o.columns, o.inner);
      var weights := o.weights[column * o.inner..column * o.inner + o.inner];
      DotsAgree(row, weights, o.inner);
      output[base + column] := DotRow(target, row, weights);
    }
  }

  method DotNextRow(target: Target, o: Operator, a: seq<Activation>, rows: nat, output: array<int>, ghost product: seq<seq<int>>,
                    row: nat, base: nat)
    returns (next: nat, end: nat)
    requires o.Valid() && |a| == rows * o.inner && row < rows && product == Naive(a, o, rows)
    requires Avx2.RowsStored(output[..], product, row, base) && base + o.columns <= output.Length
    modifies output
    ensures next == row + 1 && end == base + o.columns && Avx2.RowsStored(output[..], product, next, end)
  {
    RowFits(row, rows, o.inner);
    var values := a[row * o.inner..row * o.inner + o.inner];
    assert product[row] == Avx2.Products(values, o.weights, o.columns, ACTIVATION_ZERO_POINT);
    ghost var before := output[..];
    DotColumns(target, o, values, output, base);
    next, end := row + 1, base + o.columns;
    Avx2.RowStored(before, output[..], product, row, base, o.columns);
  }

  /** Row by row with the dot kernel: small batches on Arm, and the scalar fallback. */
  method DotRows(target: Target, o: Operator, a: seq<Activation>, rows: nat, output: array<int>)
    requires o.Valid() && |a| == rows * o.inner && output.Length == rows * o.columns
    modifies output
    ensures output[..] == Flat(Naive(a, o, rows))
  {
    ghost var product := Naive(a, o, rows);
    FlatLength(product, o.columns);
    var row: nat, base: nat := 0, 0;
    while row < rows
      invariant row <= rows && Avx2.RowsStored(output[..], product, row, base)
    {
      FlatToLength(product, o.columns, row);
      RowFits(row, rows, o.columns);
      row, base := DotNextRow(target, o, a, rows, output, product, row, base);
    }
  }

  /** `run_rten_into`: at most three rows are left to the dot kernel on Arm, if the weights were kept. */
  method RunRten(target: Target, executor: Executor, o: Operator, a: seq<Activation>, rows: nat, output: array<int>)
    requires o.Valid() && |a| == rows * o.inner && output.Length == rows * o.columns
    modifies output
    ensures o.restored ==> output[..] == Flat(Library(executor, a, o, rows))
    ensures !executor.maySaturate || Safe(o) ==> output[..] == Flat(Naive(a, o, rows))
  {
    if !executor.maySaturate || Safe(o) { LibraryIsNaive(executor, a, o, rows); }
    if target.Arm? && rows <= 3 && !o.restored {
      DotRows(target, o, a, rows, output);
    } else {
      var result := Flat(Library(executor, a, o, rows));
      FlatLength(Library(executor, a, o, rows), o.columns);
      forall i | 0 <= i < output.Length { output[i] := result[i]; }
      assert output[..] == result;
    }
  }

  /** The activations of finite inputs. */
  function Quantize(rounded: seq<int>): (a: seq<Activation>)
    ensures |a| == |rounded| && forall i :: 0 <= i < |a| ==> a[i] == Quantized(rounded[i])
  {
    seq(|rounded|, i requires 0 <= i < |rounded| => Quantized(rounded[i]))
  }

  predicate AllFinite(input: seq<Value>) {
    forall i :: 0 <= i < |input| ==> input[i].Rounded?
  }

  function Integers(input: seq<Value>): (rounded: seq<int>)
    requires AllFinite(input)
    ensures |rounded| == |input|
  {
    seq(|input|, i requires 0 <= i < |input| => input[i].scaled)
  }

  /** `quantize_symmetric_u8_into`: the first value that is not finite is reported. */
  method QuantizeInto(input: seq<Value>) returns (r: Result<seq<Activation>, Error>)
    ensures r.Ok? <==> AllFinite(input)
    ensures r.Ok? ==> r.value == Quantize(Integers(input))
    ensures r.Err? ==> r.error.NotFinite? && r.error.index < |input| && input[r.error.index].Nonfinite? && AllFinite(input[..r.error.index])
  {
    var output: seq<Activation> := [];
    for i := 0 to |input|
      invariant |output| == i && AllFinite(input[..i]) && forall k :: 0 <= k < i ==> output[k] == Quantized(input[k].scaled)
    {
      if input[i].Nonfinite? { return Err(NotFinite(i)); }
      output := output + [Quantized(input[i].scaled)];
    }
    assert input[..|input|] == input;
    return Ok(output);
  }

  /** The guard that a caller can check: a restored operator needs a kernel that does not saturate, or safe weights. */
  ghost predicate Reliable(executor: Executor, o: Operator) {
    o.restored && executor.maySaturate ==> Safe(o)
  }

  /** The accumulators of a batch whose shape is right. */
  method Accumulate(target: Target, available: bool, executor: Executor, o: Operator, a: seq<Activation>, rows: nat)
    returns (r: Result<seq<int>, Error>)
    requires Built(executor, available, o) && |a| == rows * o.inner
    ensures Reliable(executor, o) ==> r == Ok(Flat(Naive(a, o, rows)))
    ensures o.restored ==> r == Ok(Flat(Library(executor, a, o, rows)))
  {
    var output := new int[rows * o.columns];
    if Narrow(o.weights) { NarrowOperatorIsSafe(o); }
    if o.path.Rten? {
      RunRten(target, executor, o, a, rows, output);
    } else if o.path.ScalarSaturationFallback? {
      DotRows(Other, o, a, rows, output);
    } else {
      var done := Avx2.Gemm(a, o.weights, rows, o.inner, o.columns, ACTIVATION_ZERO_POINT, available, output);
      NaiveFits(a, o, rows);
      if done.Err? { return Err(GemmFailed); }
    }
    return Ok(output[..]);
  }

  /** `run_into`, up to the accumulators: the naive product on every reliable path, whatever the scratch buffer held before. */
  method RunInto(target: Target, available: bool, executor: Executor, o: Operator, input: seq<Value>, rows: nat)
    returns (r: Result<seq<int>, Error>)
    requires Built(executor, available, o)
    ensures r == Err(ZeroRows) <==> rows == 0 && input != []
    ensures r == Err(InputLength) <==> rows > 0 && |input| != rows * o.inner
    ensures |input| == rows * o.inner ==> (AllFinite(input) <==> r.Ok?)
    ensures |input| == rows * o.inner && r.Err? ==>
              r.error.NotFinite? && r.error.index < |input| && input[r.error.index].Nonfinite? && AllFinite(input[..r.error.index])
    ensures |input| == rows * o.inner && AllFinite(input) && Reliable(executor, o) ==>
              r == Ok(Flat(Naive(Quantize(Integers(input)), o, rows)))
    ensures |input| == rows * o.inner && AllFinite(input) && o.restored ==>
              r == Ok(Flat(Library(executor, Quantize(Integers(input)), o, rows)))
  {
    if rows == 0 {
      if input == [] { return Ok([]); }
      return Err(ZeroRows);
    }
    if |input| != rows * o.inner { return Err(InputLength); }
    var a := QuantizeInto(input);
    if a.Err? { return Err(a.error); }
    r := Accumulate(target, available, executor, o, a.value, rows);
  }

  lemma FlatOfOne(rows: seq<seq<int>>)
    requires |rows| == 1
    ensures Flat(rows) == rows[0]
  {
    assert Flat(rows) == FlatTo(rows, 0) + rows[0];
  }

  /** For one row, the two products differ in a column in which the two sums do. */
  lemma RowDiffers(executor: Executor, o: Operator, a: seq<Activation>, c: nat)
    requires o.Valid() && |a| == o.inner && c < o.columns
    requires LibraryDot(executor.maySaturate, a, ColumnOf(o, c)) != Dot(a, ColumnOf(o, c), 0, |a|)
    ensures |a| == 1 * o.inner && Library(executor, a, o, 1)[0][c] != Naive(a, o, 1)[0][c]
  {
    assert Layout.Block(a, o.inner, 1, 0) == a;
    DotsAgree(a, ColumnOf(o, c), o.inner);
  }

  /** The operator that `RunInto` computes for one row, if it is restored, differs from the naive product on this input. */
  lemma UnreliableDiffers(executor: Executor, o: Operator) returns (rounded: seq<int>)
    requires o.Valid() && !Reliable(executor, o)
    ensures |rounded| == o.inner
    ensures |Quantize(rounded)| == 1 * o.inner && Flat(Library(executor, Quantize(rounded), o, 1)) != Flat(Naive(Quantize(rounded), o, 1))
  {
    var c: nat :| c < o.columns && !PairsSafe(ColumnOf(o, c));
    var a := UnsafeDiffers(ColumnOf(o, c));
    rounded := seq(|a|, i requires 0 <= i < |a| => a[i] - ACTIVATION_ZERO_POINT);
    assert Quantize(rounded) == a;
    RowDiffers(executor, o, a, c);
    FlatOfOne(Library(executor, a, o, 1));
    FlatOfOne(Naive(a, o, 1));
  }

  /** A restored operator gives the naive product on every input exactly when it is reliable. */
  lemma ReliableExactly(executor: Executor, o: Operator)
    requires o.Valid() && o.restored
    ensures Reliable(executor, o)
            <==> forall rounded: seq<int>, rows: nat :: |rounded| == rows * o.inner ==>
                   Flat(Library(executor, Quantize(rounded), o, rows)) == Flat(Naive(Quantize(rounded), o, rows))
  {
    if Reliable(executor, o) {
      forall rounded: seq<int>, rows: nat | |rounded| == rows * o.inner
        ensures Flat(Library(executor, Quantize(rounded), o, rows)) == Flat(Naive(Quantize(rounded), o, rows))
      {
        LibraryIsNaive(executor, Quantize(rounded), o, rows);
      }
    } else {
      var rounded := UnreliableDiffers(executor, o);
      assert |rounded| == 1 * o.inner;
    }
  }

  const FULL_RANGE: Operator := Operator(Rten, true, [127, 127], 2, 1)

  lemma TwoProducts(a: seq<Activation>, w: seq<I8>)
    requires a == [254, 254] && w == [127, 127]
    ensures LibraryDot(true, a, w) == 509 && Dot(a, w, 0, 2) == 32_258 && !PairsSafe(w)
  {
    assert RawPair(a, w, 0) == 64_516 == Highest(w, 0);
    assert PairTotal(true, a, w, 1) == PairTotal(true, a, w, 0) + Saturated(RawPair(a, w, 0));
    assert WeightTotal(w, 2) == WeightTotal(w, 1) + 127 == WeightTotal(w, 0) + 127 + 127;
    assert Dot(a, w, 0, 2) == Dot(a, w, 0, 1) + 127 * 127 == Dot(a, w, 0, 0) + 127 * 127 + 127 * 127;
  }

  /** One row, one column. */
  lemma OneByOne(executor: Executor, a: seq<Activation>, o: Operator)
    requires o.Valid() && o.columns == 1 && |a| == o.inner
    ensures Library(executor, a, o, 1) == [[LibraryDot(executor.maySaturate, a, o.weights)]]
    ensures Naive(a, o, 1) == [[Dot(a, o.weights, 0, o.inner)]] && ColumnOf(o, 0) == o.weights
  {
    assert Layout.Block(a, o.inner, 1, 0) == a && ColumnOf(o, 0) == o.weights;
    assert Library(executor, a, o, 1)[0] == [LibraryDot(executor.maySaturate, a, o.weights)];
    DotsAgree(a, o.weights, o.inner);
    assert Naive(a, o, 1)[0] == [Dot(a, o.weights, 0, o.inner)];
  }

  /** An instance: two full-range weights, restored on a saturating kernel. */
  lemma FullRangeDiffers()
    ensures Built(Executor(true), true, FULL_RANGE) && !Reliable(Executor(true), FULL_RANGE)
    ensures Library(Executor(true), Quantize([127, 127]), FULL_RANGE, 1) == [[509]]
    ensures Naive(Quantize([127, 127]), FULL_RANGE, 1) == [[32_258]]
  {
    var a := Quantize([127, 127]);
    assert a == [254, 254];
    TwoProducts(a, [127, 127]);
    OneByOne(Executor(true), a, FULL_RANGE);
  }
}
