/**
 Masked multi-head attention over a padded batch (`attention_into`, `crates/marian-cpu/src/tensor.rs`).

 `AttendSentence` sees one sentence and its active keys only. `Attention` works on the flat buffers of a
 whole batch, and its contract says that it computes exactly that, sentence by sentence.
 */
module AttentionKernel {
  import opened Base
  import opened Layout
  import opened Tensor

  /** Lanes `head * headDim ..` of every row. */
  function HeadLanes(rows: seq<Vec>, headDim: nat, heads: nat, head: nat): (z: seq<Vec>)
    requires Wide(rows, heads * headDim) && head < heads
    ensures |z| == |rows| && Wide(z, headDim)
  {
    seq(|rows|, i requires 0 <= i < |rows| => Block(rows[i], headDim, heads, head))
  }

  function Scores(a: Arithmetic, scale: Scalar, q: Vec, keys: seq<Vec>): (z: Vec)
    requires Wide(keys, |q|)
    ensures |z| == |keys|
  {
    seq(|keys|, k requires 0 <= k < |keys| => a.mul(Dot(a, q, keys[k]), scale))
  }

  function AddScaled(a: Arithmetic, x: Vec, y: Vec, weight: Scalar): (z: Vec)
    requires |x| == |y|
    ensures |z| == |x|
  {
    seq(|x|, i requires 0 <= i < |x| => a.add(x[i], a.mul(y[i], weight)))
  }

  function WeightedSum(a: Arithmetic, weights: Vec, values: seq<Vec>, width: nat): (z: Vec)
    requires |weights| == |values| && Wide(values, width)
    ensures |z| == width
  {
    if weights == [] then Zeros(a, width)
    else
      var last := |weights| - 1;
      AddScaled(a, WeightedSum(a, weights[..last], values[..last], width), values[last], weights[last])
  }

  function AttendHead(a: Arithmetic, scale: Scalar, q: Vec, keys: seq<Vec>, values: seq<Vec>): (z: Vec)
    requires Wide(keys, |q|) && Wide(values, |q|) && |keys| == |values|
    ensures |z| == |q|
  {
    WeightedSum(a, Softmax(a, Scores(a, scale, q, keys)), values, |q|)
  }

  function AttentionScale(a: Arithmetic, headDim: nat): Scalar {
    a.div(a.one, a.sqrt(a.fromNat(headDim)))
  }

  /** The heads of one query row. */
  function AttendHeads(a: Arithmetic, heads: nat, headDim: nat, q: Vec, keys: seq<Vec>, values: seq<Vec>): (z: seq<Vec>)
    requires |q| == heads * headDim && |keys| == |values|
    requires Wide(keys, heads * headDim) && Wide(values, heads * headDim)
    ensures |z| == heads && Wide(z, headDim)
  {
    seq(heads, h requires 0 <= h < heads =>
      AttendHead(a, AttentionScale(a, headDim), Block(q, headDim, heads, h),
                 HeadLanes(keys, headDim, heads, h), HeadLanes(values, headDim, heads, h)))
  }

  function AttendRow(a: Arithmetic, heads: nat, headDim: nat, q: Vec, keys: seq<Vec>, values: seq<Vec>): (z: Vec)
    requires |q| == heads * headDim && |keys| == |values|
    requires Wide(keys, heads * headDim) && Wide(values, heads * headDim)
    ensures |z| == heads * headDim
  {
    FlatLength(AttendHeads(a, heads, headDim, q, keys, values), headDim);
    Flat(AttendHeads(a, heads, headDim, q, keys, values))
  }

  function AttendSentence(a: Arithmetic, heads: nat, headDim: nat, qs: seq<Vec>, keys: seq<Vec>, values: seq<Vec>): (z: seq<Vec>)
    requires |keys| == |values|
    requires Wide(qs, heads * headDim) && Wide(keys, heads * headDim) && Wide(values, heads * headDim)
    ensures |z| == |qs| && Wide(z, heads * headDim)
  {
    seq(|qs|, i requires 0 <= i < |qs| => AttendRow(a, heads, headDim, qs[i], keys, values))
  }

  /** A `batch x length x dim` buffer as sentences of rows. */
  function Tensor3(flat: Vec, batch: nat, length: nat, dim: nat): (z: seq<seq<Vec>>)
    requires |flat| == batch * length * dim
    ensures |z| == batch && Wide(z, length)
    ensures forall b :: 0 <= b < batch ==> Wide(z[b], dim)
  {
    var rows := Blocks(flat, dim, batch * length);
    var z := Blocks(rows, length, batch);
    assert forall b: nat :: b < batch ==> Wide(z[b], dim) by {
      forall b: nat, i: nat | b < batch && i < length ensures |z[b][i]| == dim {
        RowFits(b, batch, length);
        assert z[b][i] == rows[b * length + i];
      }
    }
    z
  }

  lemma Tensor3At(flat: Vec, batch: nat, length: nat, dim: nat, b: nat, i: nat)
    requires |flat| == batch * length * dim && b < batch && i < length
    ensures 0 <= b * length + i < batch * length
    ensures 0 <= (b * length + i) * dim <= (b * length + i) * dim + dim <= |flat|
    ensures Tensor3(flat, batch, length, dim)[b][i] == flat[(b * length + i) * dim..(b * length + i) * dim + dim]
  {
    RowFits(b, batch, length);
    RowFits(b * length + i, batch * length, dim);
  }

  function AttendBatch(a: Arithmetic, heads: nat, headDim: nat, lengths: seq<nat>,
                       qs: seq<seq<Vec>>, keys: seq<seq<Vec>>, values: seq<seq<Vec>>): (z: seq<seq<Vec>>)
    requires |lengths| == |qs| == |keys| == |values|
    requires forall b :: 0 <= b < |lengths| ==>
               lengths[b] <= |keys[b]| == |values[b]|
               && Wide(qs[b], heads * headDim) && Wide(keys[b], heads * headDim) && Wide(values[b], heads * headDim)
    ensures |z| == |qs|
    ensures forall b :: 0 <= b < |z| ==> |z[b]| == |qs[b]| && Wide(z[b], heads * headDim)
  {
    seq(|qs|, b requires 0 <= b < |qs| =>
      (WidePrefix(keys[b], heads * headDim, lengths[b]);
       WidePrefix(values[b], heads * headDim, lengths[b]);
       AttendSentence(a, heads, headDim, qs[b], keys[b][..lengths[b]], values[b][..lengths[b]])))
  }

  // ---------------------------------------------------------------------------------- one head, in place

  /** `rows[k]` lies in the flat buffer at `bases[k]`. */
  ghost predicate RowsAt(flat: Vec, bases: seq<nat>, rows: seq<Vec>, width: nat) {
    && |bases| == |rows| && Wide(rows, width)
    && forall k :: 0 <= k < |bases| ==> bases[k] + width <= |flat| && flat[bases[k]..bases[k] + width] == rows[k]
  }

  /** Where a head of a row lives in the flat buffer. */
  lemma HeadAt(flat: Vec, row: Vec, base: nat, headDim: nat, heads: nat, head: nat, lane: nat)
    requires |row| == heads * headDim && head < heads && base + |row| <= |flat| && lane == Offset(head, headDim)
    requires flat[base..base + |row|] == row
    ensures lane + headDim <= |row|
    ensures flat[base + lane..base + lane + headDim] == Block(row, headDim, heads, head)
  {
    OffsetIsProduct(head, headDim);
    RowFits(head, heads, headDim);
    SliceOfSlice(flat, base, base + |row|, lane, lane + headDim);
  }

  /** The scores of one head against the active keys; scratch behind them is left alone. */
  method ScoreHead(a: Arithmetic, q: Vec, key: Vec, scale: Scalar, scores: array<Scalar>, bases: seq<nat>, ghost keys: seq<Vec>)
    requires |bases| <= scores.Length && RowsAt(key, bases, keys, |q|)
    modifies scores
    ensures scores[..|bases|] == Softmax(a, Scores(a, scale, q, keys))
  {
    for k := 0 to |bases|
      invariant forall j :: 0 <= j < k ==> scores[j] == a.mul(Dot(a, q, keys[j]), scale)
    {
      scores[k] := a.mul(Dot(a, q, key[bases[k]..bases[k] + |q|]), scale);
    }
    assert scores[..|bases|] == Scores(a, scale, q, keys);
    SoftmaxInPlace(a, scores, |bases|);
  }

  /** Outside `from..to`, the buffer is as it was. */
  twostate predicate OnlyChanged(buffer: array<Scalar>, from: nat, to: nat)
    reads buffer
  {
    forall j :: 0 <= j < buffer.Length && !(from <= j < to) ==> buffer[j] == old(buffer[j])
  }

  ghost predicate Holds(buffer: array<Scalar>, base: nat, row: Vec)
    reads buffer
  {
    base + |row| <= buffer.Length && forall j :: base <= j < base + |row| ==> buffer[j] == row[j - base]
  }

  /** `weighted_add_in_place` for every active key, into a chunk of the output that is still zero. */
  method WeightHead(a: Arithmetic, output: array<Scalar>, base: nat, width: nat, weights: array<Scalar>, value: Vec,
                    bases: seq<nat>, ghost values: seq<Vec>)
    requires weights != output && |bases| <= weights.Length && RowsAt(value, bases, values, width)
    requires Holds(output, base, Zeros(a, width))
    modifies output
    ensures OnlyChanged(output, base, base + width)
    ensures Holds(output, base, WeightedSum(a, weights[..|bases|], values, width))
  {
    ghost var w := weights[..|bases|];
    for k := 0 to |bases|
      invariant OnlyChanged(output, base, base + width)
      invariant Holds(output, base, WeightedSum(a, w[..k], values[..k], width))
    {
      AddScaledInPlace(a, output, base, WeightedSum(a, w[..k], values[..k], width), values[k], value, bases[k], weights[k], width);
      assert w[..k + 1][..k] == w[..k] && values[..k + 1][..k] == values[..k];
    }
    assert values[..|bases|] == values && w[..|bases|] == w;
  }

  method AddScaledInPlace(a: Arithmetic, output: array<Scalar>, base: nat, ghost before: Vec, ghost row: Vec,
                          value: Vec, from: nat, weight: Scalar, width: nat)
    requires |row| == |before| == width && from + width <= |value| && value[from..from + width] == row
    requires Holds(output, base, before)
    modifies output
    ensures OnlyChanged(output, base, base + width)
    ensures Holds(output, base, AddScaled(a, before, row, weight))
  {
    for i := 0 to width
      invariant forall j :: 0 <= j < output.Length && !(base <= j < base + i) ==> output[j] == old(output[j])
      invariant forall j :: base <= j < base + i ==> output[j] == a.add(before[j - base], a.mul(row[j - base], weight))
    {
      assert value[from + i] == row[i];
      output[base + i] := a.add(output[base + i], a.mul(value[from + i], weight));
    }
  }

  // ---------------------------------------------------------------------------------- one row

  /** One head: score, normalize, then add the weighted values. */
  method AttendHeadInto(a: Arithmetic, output: array<Scalar>, base: nat, scores: array<Scalar>, scale: Scalar, q: Vec, width: nat,
                        key: Vec, value: Vec, bases: seq<nat>, ghost keys: seq<Vec>, ghost values: seq<Vec>)
    requires output != scores && |bases| <= scores.Length && |q| == width
    requires RowsAt(key, bases, keys, width) && RowsAt(value, bases, values, width)
    requires Holds(output, base, Zeros(a, width))
    modifies output, scores
    ensures OnlyChanged(output, base, base + width)
    ensures Holds(output, base, AttendHead(a, scale, q, keys, values))
  {
    ScoreHead(a, q, key, scale, scores, bases, keys);
    WeightHead(a, output, base, width, scores, value, bases, values);
  }

  /** The finished rows of a batch, then the finished heads of the current row, then zeros. */
  ghost predicate HeadsUpTo(a: Arithmetic, buffer: array<Scalar>, done: Vec, spec: seq<Vec>, head: nat, headDim: nat, lane: nat)
    reads buffer
  {
    && head <= |spec| && Wide(spec, headDim) && lane == Offset(head, headDim)
    && Filled(a, buffer, done + FlatTo(spec, head))
  }

  /** `done` at the front, zeros behind. */
  ghost predicate Filled(a: Arithmetic, buffer: array<Scalar>, done: Vec)
    reads buffer
  {
    && |done| <= buffer.Length
    && (forall i :: 0 <= i < |done| ==> buffer[i] == done[i])
    && (forall i :: |done| <= i < buffer.Length ==> buffer[i] == a.zero)
  }

  lemma FlatNext(done: Vec, rows: seq<Vec>, n: nat)
    requires n < |rows|
    ensures done + FlatTo(rows, n) + rows[n] == done + FlatTo(rows, n + 1)
  {
  }

  /** One head, appended to what is filled. */
  method AttendHeadOf(a: Arithmetic, output: array<Scalar>, at: nat, scores: array<Scalar>, scale: Scalar, q: Vec, width: nat,
                      key: Vec, value: Vec, bases: seq<nat>, ghost keys: seq<Vec>, ghost values: seq<Vec>, ghost filled: Vec)
    requires output != scores && |bases| <= scores.Length && |q| == width && |filled| == at && at + width <= output.Length
    requires RowsAt(key, bases, keys, width) && RowsAt(value, bases, values, width)
    requires Filled(a, output, filled)
    modifies output, scores
    ensures Filled(a, output, filled + AttendHead(a, scale, q, keys, values))
  {
    AttendHeadInto(a, output, at, scores, scale, q, width, key, value, bases, keys, values);
  }

  /** The lanes of a head, behind each row. */
  function Shifted(bases: seq<nat>, lane: nat): (shifted: seq<nat>)
    ensures |shifted| == |bases|
  {
    seq(|bases|, k requires 0 <= k < |bases| => bases[k] + lane)
  }

  lemma HeadSlices(query: Vec, key: Vec, value: Vec, keyBases: seq<nat>, q: Vec, keys: seq<Vec>, values: seq<Vec>,
                   base: nat, lane: nat, heads: nat, headDim: nat, head: nat)
    requires |q| == heads * headDim && head < heads && lane == Offset(head, headDim)
    requires base + |q| <= |query| && query[base..base + |q|] == q
    requires RowsAt(key, keyBases, keys, heads * headDim) && RowsAt(value, keyBases, values, heads * headDim)
    ensures lane + headDim <= |q| && query[base + lane..base + lane + headDim] == Block(q, headDim, heads, head)
    ensures RowsAt(key, Shifted(keyBases, lane), HeadLanes(keys, headDim, heads, head), headDim)
    ensures RowsAt(value, Shifted(keyBases, lane), HeadLanes(values, headDim, heads, head), headDim)
  {
    OffsetIsProduct(head, headDim);
    RowFits(head, heads, headDim);
    HeadAt(query, q, base, headDim, heads, head, lane);
    HeadsAt(key, keyBases, keys, headDim, heads, head, lane, Shifted(keyBases, lane));
    HeadsAt(value, keyBases, values, headDim, heads, head, lane, Shifted(keyBases, lane));
  }

  lemma FilledLength(spec: seq<Vec>, done: Vec, head: nat, headDim: nat, lane: nat)
    requires head <= |spec| && Wide(spec, headDim) && lane == Offset(head, headDim)
    ensures |done + FlatTo(spec, head)| == |done| + lane
  {
    FlatToLength(spec, headDim, head);
    OffsetIsProduct(head, headDim);
  }

  /** One step of the head loop. */
  method AttendHeadAt(a: Arithmetic, output: array<Scalar>, scores: array<Scalar>, base: nat, lane: nat, scale: Scalar,
                      query: Vec, key: Vec, value: Vec, keyBases: seq<nat>, headDim: nat, head: nat,
                      ghost headRow: Vec, ghost headKeys: seq<Vec>, ghost headValues: seq<Vec>, ghost done: Vec, ghost spec: seq<Vec>)
    returns (next: nat, nextHead: nat)
    requires output != scores && |keyBases| <= scores.Length && |done| == base
    requires base + lane + headDim <= output.Length && base + lane + headDim <= |query|
    requires query[base + lane..base + lane + headDim] == headRow
    requires RowsAt(key, Shifted(keyBases, lane), headKeys, headDim) && RowsAt(value, Shifted(keyBases, lane), headValues, headDim)
    requires head < |spec| && spec[head] == AttendHead(a, scale, headRow, headKeys, headValues)
    requires HeadsUpTo(a, output, done, spec, head, headDim, lane)
    modifies output, scores
    ensures nextHead == head + 1 && HeadsUpTo(a, output, done, spec, nextHead, headDim, next)
  {
    FilledLength(spec, done, head, headDim, lane);
    var bases := Shifted(keyBases, lane);
    var headQuery := query[base + lane..base + lane + headDim];
    AttendHeadOf(a, output, base + lane, scores, scale, headQuery, headDim, key, value, bases, headKeys, headValues,
                 done + FlatTo(spec, head));
    next, nextHead := lane + headDim, head + 1;
    FlatNext(done, spec, head);
  }

  /** All heads of one query row. The score scratch is shared and never cleared in between. */
  method AttendRowInto(a: Arithmetic, output: array<Scalar>, scores: array<Scalar>, base: nat,
                       query: Vec, key: Vec, value: Vec, keyBases: seq<nat>, heads: nat, headDim: nat,
                       ghost q: Vec, ghost keys: seq<Vec>, ghost values: seq<Vec>, ghost done: Vec)
    requires output != scores && |keyBases| <= scores.Length && |q| == heads * headDim
    requires |done| == base && base + |q| <= output.Length && base + |q| <= |query| && query[base..base + |q|] == q
    requires RowsAt(key, keyBases, keys, heads * headDim) && RowsAt(value, keyBases, values, heads * headDim)
    requires Filled(a, output, done)
    modifies output, scores
    ensures Filled(a, output, done + AttendRow(a, heads, headDim, q, keys, values))
  {
    ghost var spec := AttendHeads(a, heads, headDim, q, keys, values);
    var scale := a.div(a.one, a.sqrt(a.fromNat(headDim)));
    var lane: nat, head: nat := 0, 0;
    assert done + FlatTo(spec, 0) == done;
    while head < heads
      invariant head <= heads && HeadsUpTo(a, output, done, spec, head, headDim, lane)
    {
      HeadSlices(query, key, value, keyBases, q, keys, values, base, lane, heads, headDim, head);
      lane, head := AttendHeadAt(a, output, scores, base, lane, scale, query, key, value, keyBases, headDim, head,
                                 Block(q, headDim, heads, head), HeadLanes(keys, headDim, heads, head),
                                 HeadLanes(values, headDim, heads, head), done, spec);
    }
  }

  lemma HeadsAt(flat: Vec, rowBases: seq<nat>, rows: seq<Vec>, headDim: nat, heads: nat, head: nat, lane: nat, bases: seq<nat>)
    requires RowsAt(flat, rowBases, rows, heads * headDim) && head < heads && lane == Offset(head, headDim)
    requires |bases| == |rowBases| && forall k :: 0 <= k < |bases| ==> bases[k] == rowBases[k] + lane
    ensures RowsAt(flat, bases, HeadLanes(rows, headDim, heads, head), headDim)
  {
    forall k | 0 <= k < |bases|
      ensures bases[k] + headDim <= |flat| && flat[bases[k]..bases[k] + headDim] == HeadLanes(rows, headDim, heads, head)[k]
    {
      HeadAt(flat, rows[k], rowBases[k], headDim, heads, head, lane);
    }
  }

  // ---------------------------------------------------------------------------------- the batch

  ghost predicate Attendable(query: Vec, key: Vec, value: Vec, lengths: seq<nat>, batch: nat, queryLength: nat,
                             keyLength: nat, dim: nat, heads: nat) {
    && heads != 0 && dim % heads == 0
    && |lengths| == batch && (forall b :: 0 <= b < batch ==> 0 < lengths[b] <= keyLength)
    && |query| == batch * queryLength * dim
    && |key| == |value| == batch * keyLength * dim
  }

  lemma HeadsCover(dim: nat, heads: nat)
    requires heads != 0 && dim % heads == 0
    ensures heads * (dim / heads) == dim
  {
  }

  /** What the whole call computes: every sentence attends over its own active keys. */
  ghost function AttentionSpec(a: Arithmetic, query: Vec, key: Vec, value: Vec, lengths: seq<nat>, batch: nat, queryLength: nat,
                               keyLength: nat, dim: nat, heads: nat): (z: seq<seq<Vec>>)
    requires Attendable(query, key, value, lengths, batch, queryLength, keyLength, dim, heads)
    ensures |z| == batch && Wide(z, queryLength)
    ensures forall b :: 0 <= b < batch ==> Wide(z[b], dim)
  {
    HeadsCover(dim, heads);
    AttendBatch(a, heads, dim / heads, lengths, Tensor3(query, batch, queryLength, dim),
                Tensor3(key, batch, keyLength, dim), Tensor3(value, batch, keyLength, dim))
  }

  /** The active keys of sentence `b` in the flat key (or value) buffer. */
  lemma ActiveKeysAt(flat: Vec, bases: seq<nat>, batch: nat, keyLength: nat, dim: nat, b: nat, active: nat)
    requires |flat| == batch * keyLength * dim && b < batch && active <= keyLength
    requires |bases| == active && forall k :: 0 <= k < active ==> bases[k] == (b * keyLength + k) * dim
    ensures RowsAt(flat, bases, Tensor3(flat, batch, keyLength, dim)[b][..active], dim)
  {
    forall k: nat | k < active
      ensures bases[k] + dim <= |flat| && flat[bases[k]..bases[k] + dim] == Tensor3(flat, batch, keyLength, dim)[b][..active][k]
    {
      Tensor3At(flat, batch, keyLength, dim, b, k);
    }
  }

  /** Rows of a three-dimensional tensor, once the outer level is flattened. */
  lemma FlatRows(z: seq<seq<Vec>>, length: nat, dim: nat)
    requires Wide(z, length) && forall b :: 0 <= b < |z| ==> Wide(z[b], dim)
    ensures |Flat(z)| == |z| * length && Wide(Flat(z), dim)
    ensures |Flat(Flat(z))| == |z| * length * dim
    ensures Tensor3(Flat(Flat(z)), |z|, length, dim) == z
  {
    FlatLength(z, length);
    FlatWide(z, length, dim, |z|);
    FlatLength(Flat(z), dim);
    BlocksOfFlat(Flat(z), dim);
    BlocksOfFlat(z, length);
  }

  lemma {:induction false} FlatWide(z: seq<seq<Vec>>, length: nat, dim: nat, n: nat)
    requires Wide(z, length) && n <= |z| && forall b :: 0 <= b < |z| ==> Wide(z[b], dim)
    ensures Wide(FlatTo(z, n), dim)
  {
    if n > 0 {
      FlatWide(z, length, dim, n - 1);
      assert Wide(z[n - 1], dim);
    }
  }

  lemma FlatRowOf(z: seq<seq<Vec>>, length: nat, b: nat, i: nat)
    requires Wide(z, length) && b < |z| && i < length
    ensures b * length + i < |Flat(z)| && Flat(z)[b * length + i] == z[b][i]
  {
    FlatLength(z, length);
    RowFits(b, |z|, length);
    FlatBlock(z, length, b);
    assert Block(Flat(z), length, |z|, b)[i] == Flat(z)[b * length + i];
  }

  /** Sentences before `b` and the first `queryIndex` rows of `b` are finished: `n` rows in all. */
  ghost predicate QueriesUpTo(a: Arithmetic, buffer: array<Scalar>, rows: seq<Vec>, queryLength: nat, b: nat, queryIndex: nat, n: nat)
    reads buffer
  {
    n <= |rows| && n == Offset(b, queryLength) + queryIndex && Filled(a, buffer, FlatTo(rows, n))
  }

  function KeyBases(b: nat, keyLength: nat, dim: nat, active: nat): seq<nat> {
    seq(active, k requires 0 <= k < active => (b * keyLength + k) * dim)
  }

  /** Where one query row and its active keys lie. */
  lemma QueryInputs(query: Vec, key: Vec, value: Vec, batch: nat, queryLength: nat, keyLength: nat, dim: nat,
                    b: nat, queryIndex: nat, active: nat, n: nat)
    requires |query| == batch * queryLength * dim && |key| == |value| == batch * keyLength * dim
    requires b < batch && queryIndex < queryLength && active <= keyLength && n == Offset(b, queryLength) + queryIndex
    ensures 0 <= n * dim && n * dim + dim <= |query|
    ensures query[n * dim..n * dim + dim] == Tensor3(query, batch, queryLength, dim)[b][queryIndex]
    ensures RowsAt(key, KeyBases(b, keyLength, dim, active), Tensor3(key, batch, keyLength, dim)[b][..active], dim)
    ensures RowsAt(value, KeyBases(b, keyLength, dim, active), Tensor3(value, batch, keyLength, dim)[b][..active], dim)
  {
    OffsetIsProduct(b, queryLength);
    Tensor3At(query, batch, queryLength, dim, b, queryIndex);
    ActiveKeysAt(key, KeyBases(b, keyLength, dim, active), batch, keyLength, dim, b, active);
    ActiveKeysAt(value, KeyBases(b, keyLength, dim, active), batch, keyLength, dim, b, active);
  }

  /** Which row of the result a query row produces. */
  lemma QueryOutput(spec: seq<seq<Vec>>, queryLength: nat, dim: nat, b: nat, queryIndex: nat, n: nat)
    requires Wide(spec, queryLength) && forall b :: 0 <= b < |spec| ==> Wide(spec[b], dim)
    requires b < |spec| && queryIndex < queryLength && n == Offset(b, queryLength) + queryIndex
    ensures n < |Flat(spec)| && |FlatTo(Flat(spec), n)| == n * dim
    ensures FlatTo(Flat(spec), n + 1) == FlatTo(Flat(spec), n) + spec[b][queryIndex]
  {
    OffsetIsProduct(b, queryLength);
    FlatRows(spec, queryLength, dim);
    FlatRowOf(spec, queryLength, b, queryIndex);
    FlatToLength(Flat(spec), dim, n);
  }

  /** One query row of one sentence. */
  method AttendQueryAt(a: Arithmetic, output: array<Scalar>, scores: array<Scalar>, query: Vec, key: Vec, value: Vec,
                       lengths: seq<nat>, batch: nat, queryLength: nat, keyLength: nat, dim: nat, heads: nat, b: nat, queryIndex: nat,
                       n: nat, ghost rows: seq<Vec>)
    returns (next: nat)
    requires Attendable(query, key, value, lengths, batch, queryLength, keyLength, dim, heads)
    requires rows == Flat(AttentionSpec(a, query, key, value, lengths, batch, queryLength, keyLength, dim, heads))
    requires b < batch && queryIndex < queryLength && output != scores && scores.Length == keyLength
    requires output.Length == batch * queryLength * dim
    requires QueriesUpTo(a, output, rows, queryLength, b, queryIndex, n)
    modifies output, scores
    ensures QueriesUpTo(a, output, rows, queryLength, b, queryIndex + 1, next)
  {
    var headDim, active := dim / heads, lengths[b];
    HeadsCover(dim, heads);
    ghost var spec := AttentionSpec(a, query, key, value, lengths, batch, queryLength, keyLength, dim, heads);
    QueryOutput(spec, queryLength, dim, b, queryIndex, n);
    QueryInputs(query, key, value, batch, queryLength, keyLength, dim, b, queryIndex, active, n);
    AttendRowInto(a, output, scores, n * dim, query, key, value, KeyBases(b, keyLength, dim, active), heads, headDim,
                  Tensor3(query, batch, queryLength, dim)[b][queryIndex], Tensor3(key, batch, keyLength, dim)[b][..active],
                  Tensor3(value, batch, keyLength, dim)[b][..active], FlatTo(rows, n));
    next := n + 1;
  }

  /** The query rows of one sentence. */
  method AttendSentenceAt(a: Arithmetic, output: array<Scalar>, scores: array<Scalar>, query: Vec, key: Vec, value: Vec,
                          lengths: seq<nat>, batch: nat, queryLength: nat, keyLength: nat, dim: nat, heads: nat, b: nat,
                          start: nat, ghost rows: seq<Vec>)
    returns (n: nat)
    requires Attendable(query, key, value, lengths, batch, queryLength, keyLength, dim, heads)
    requires rows == Flat(AttentionSpec(a, query, key, value, lengths, batch, queryLength, keyLength, dim, heads))
    requires b < batch && output != scores && scores.Length == keyLength
    requires output.Length == batch * queryLength * dim
    requires QueriesUpTo(a, output, rows, queryLength, b, 0, start)
    modifies output, scores
    ensures QueriesUpTo(a, output, rows, queryLength, b + 1, 0, n)
  {
    n := start;
    for queryIndex := 0 to queryLength
      invariant QueriesUpTo(a, output, rows, queryLength, b, queryIndex, n)
    {
      n := AttendQueryAt(a, output, scores, query, key, value, lengths, batch, queryLength, keyLength, dim, heads, b, queryIndex, n, rows);
    }
  }

  method Attention(a: Arithmetic, query: Vec, key: Vec, value: Vec, lengths: seq<nat>, batch: nat, queryLength: nat,
                   keyLength: nat, dim: nat, heads: nat)
    returns (r: Result<Vec, ShapeError>)
    ensures r.Ok? <==> Attendable(query, key, value, lengths, batch, queryLength, keyLength, dim, heads)
    ensures r.Ok? ==> |r.value| == batch * queryLength * dim
    ensures r.Ok? ==> Tensor3(r.value, batch, queryLength, dim)
                      == AttentionSpec(a, query, key, value, lengths, batch, queryLength, keyLength, dim, heads)
  {
    if heads == 0 || dim % heads != 0 { return Err(HeadsMismatch); }
    if |lengths| != batch || exists b :: 0 <= b < batch && !(0 < lengths[b] <= keyLength) { return Err(LengthsMismatch); }
    if |query| != batch * queryLength * dim || |key| != batch * keyLength * dim || |value| != batch * keyLength * dim {
      return Err(ShapeMismatch);
    }
    ghost var spec := AttentionSpec(a, query, key, value, lengths, batch, queryLength, keyLength, dim, heads);
    var output := new Scalar[batch * queryLength * dim](_ => a.zero);
    var scores := new Scalar[keyLength](_ => a.zero);
    var n := 0;
    for b := 0 to batch
      invariant QueriesUpTo(a, output, Flat(spec), queryLength, b, 0, n)
    {
      n := AttendSentenceAt(a, output, scores, query, key, value, lengths, batch, queryLength, keyLength, dim, heads, b, n, Flat(spec));
    }
    BatchDone(a, output, spec, batch, queryLength, dim, n);
    return Ok(output[..]);
  }

  lemma BatchDone(a: Arithmetic, output: array<Scalar>, spec: seq<seq<Vec>>, batch: nat, queryLength: nat, dim: nat, n: nat)
    requires |spec| == batch && Wide(spec, queryLength) && forall b :: 0 <= b < batch ==> Wide(spec[b], dim)
    requires output.Length == batch * queryLength * dim
    requires QueriesUpTo(a, output, Flat(spec), queryLength, batch, 0, n)
    ensures Tensor3(output[..], batch, queryLength, dim) == spec
  {
    FlatRows(spec, queryLength, dim);
    OffsetIsProduct(batch, queryLength);
    assert output[..] == Flat(Flat(spec));
  }
}
