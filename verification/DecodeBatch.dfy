/**
 One decoding step of a batch (`decoder_input`, the decoder layers and `select_token` of
 `crates/marian-cpu/src/engine.rs` and `tensor.rs`). Every row advances as it would alone.
 */
module DecodeBatch {
  import opened Base
  import opened Layout
  import opened Tensor
  import opened AttentionKernel
  import opened Transformer
  import opened PackedBatch
  import opened EncodeBatch
  import opened LayerStack

  // ---------------------------------------------------------------------------------- decoder input

  ghost predicate PreviousOk(m: Model, previous: seq<int>) {
    forall r :: 0 <= r < |previous| ==> previous[r] < m.decoderEmbedding.rows
  }

  ghost function DecoderRows(m: Model, previous: seq<int>, position: nat): (rows: seq<Vec>)
    requires m.Valid() && PreviousOk(m, previous) && position < MAXIMUM_POSITION
    ensures |rows| == |previous| && Wide(rows, m.dim)
  {
    seq(|previous|, r requires 0 <= r < |previous| => DecoderRow(m, previous[r], position))
  }

  method DecoderInput(m: Model, previous: seq<int>, position: nat) returns (output: Vec)
    requires m.Valid() && PreviousOk(m, previous) && position < MAXIMUM_POSITION
    ensures Represents(output, DecoderRows(m, previous, position), |previous|, m.dim)
  {
    ghost var rows := DecoderRows(m, previous, position);
    output := [];
    for row := 0 to |previous|
      invariant output == FlatTo(rows, row)
    {
      output := output + DecoderRow(m, previous[row], position);
    }
    FlatLength(rows, m.dim);
  }

  // ---------------------------------------------------------------------------------- one decoder layer

  /** The memory of row `r` in a cross-attention cache. */
  ghost function CacheMemory(m: Model, cache: CrossCache, lengths: seq<nat>, longest: nat, r: nat): (memory: Memory)
    requires r < |lengths| && lengths[r] <= longest
    requires |cache.key| == |cache.value| == |lengths| * longest * m.dim
    ensures MemoryOk(m, memory)
  {
    var count := |lengths| * longest;
    Memory(Active(Blocks(cache.key, m.dim, count), longest, |lengths|, r, lengths[r]),
           Active(Blocks(cache.value, m.dim, count), longest, |lengths|, r, lengths[r]))
  }

  ghost predicate CacheShape(m: Model, cache: CrossCache, lengths: seq<nat>, longest: nat) {
    && |cache.key| == |cache.value| == |lengths| * longest * m.dim
    && forall r :: 0 <= r < |lengths| ==> 0 < lengths[r] <= longest
  }

  /** With a single query per sentence, row `r` attends over its own memory. */
  lemma SingleQuery(m: Model, cache: CrossCache, lengths: seq<nat>, longest: nat, qs: seq<Vec>, r: nat)
    requires m.Valid() && CacheShape(m, cache, lengths, longest) && |qs| == |lengths| && Wide(qs, m.dim) && r < |lengths|
    ensures var count := |lengths| * longest;
            var rows := AttendedRows(m, lengths, 1, longest, qs, Blocks(cache.key, m.dim, count), Blocks(cache.value, m.dim, count));
            var memory := CacheMemory(m, cache, lengths, longest, r);
            && |rows| == |lengths| && m.heads * m.HeadDim() == m.dim
            && rows[r] == AttendRow(m.a, m.heads, m.HeadDim(), qs[r], memory.keys, memory.values)
  {
    var count := |lengths| * longest;
    HeadsCover(m.dim, m.heads);
    var spec := AttendedSentences(m, lengths, 1, longest, qs, Blocks(cache.key, m.dim, count), Blocks(cache.value, m.dim, count));
    FlatLength(spec, 1);
    FlatRowOf(spec, 1, r, 0);
    assert Block(qs, 1, |lengths|, r) == [qs[r]];
  }

  /** A layer's state buffer and the rows it holds. */
  ghost predicate HoldsRows(flat: Vec, rows: seq<Vec>, width: nat) {
    |flat| == |rows| * width && Blocks(flat, width, |rows|) == rows
  }

  method RecurrentPart(m: Model, w: SsruWeights, decoder: Vec, state: array<Scalar>, batch: nat, ghost xs: seq<Vec>, ghost ss: seq<Vec>)
    returns (out: Vec, ghost ys: seq<Vec>, ghost ts: seq<Vec>)
    requires m.Valid() && w.Valid(m.dim) && Represents(decoder, xs, batch, m.dim)
    requires |ss| == batch && HoldsRows(state[..], ss, m.dim)
    modifies state
    ensures Represents(out, ys, batch, m.dim) && |ts| == batch && HoldsRows(state[..], ts, m.dim)
    ensures forall r :: 0 <= r < batch ==> ts[r] == NextState(m, w, xs[r], ss[r])
    ensures forall r :: 0 <= r < batch ==> ys[r] == SsruOutput(m.a, w.normScale, w.normBias, ts[r], xs[r])
  {
    var update := Linear(m.a, decoder, w.w, None, batch, xs);
    var forget := Linear(m.a, decoder, w.wf, Some(w.bf), batch, xs);
    ghost var updates, forgets := AffineRows(m.a, w.w, None, xs), AffineRows(m.a, w.wf, Some(w.bf), xs);
    var r := SsruUpdateLayerNorm(m.a, update, forget, state, decoder, w.normScale, w.normBias, batch, m.dim);
    out := r.value;
    ys := Blocks(out, m.dim, batch);
    ts := Blocks(state[..], m.dim, batch);
    BlocksRepresent(out, batch, m.dim);
    RepresentsBlocks(update, updates, batch, m.dim);
    RepresentsBlocks(forget, forgets, batch, m.dim);
    RepresentsBlocks(decoder, xs, batch, m.dim);
    forall i: nat | i < batch
      ensures Block(update, m.dim, batch, i) == updates[i] && Block(forget, m.dim, batch, i) == forgets[i]
              && Block(decoder, m.dim, batch, i) == xs[i] && Block(old(state[..]), m.dim, batch, i) == ss[i]
    {
      assert Blocks(update, m.dim, batch)[i] == updates[i];
      assert Blocks(forget, m.dim, batch)[i] == forgets[i];
      assert Blocks(decoder, m.dim, batch)[i] == xs[i];
      assert Blocks(old(state[..]), m.dim, batch)[i] == ss[i];
    }
  }

  method ContextPart(m: Model, layer: DecoderLayer, input: Vec, cache: CrossCache, lengths: seq<nat>, longest: nat, ghost ys: seq<Vec>)
    returns (out: Vec, ghost zs: seq<Vec>)
    requires m.Valid() && layer.context.Valid(m.dim) && layer.ffn.Valid(m.dim, m.ffnDim)
    requires CacheShape(m, cache, lengths, longest) && Represents(input, ys, |lengths|, m.dim)
    ensures Represents(out, zs, |lengths|, m.dim)
    ensures forall r: nat :: r < |lengths| ==> zs[r] == ContextRow(m, layer, CacheMemory(m, cache, lengths, longest, r), ys[r])
  {
    var w, batch := layer.context, |lengths|;
    ghost var count := batch * longest;
    var query := Linear(m.a, input, w.wq, Some(w.bq), batch, ys);
    ghost var qs := AffineRows(m.a, w.wq, Some(w.bq), ys);
    ghost var keys, values := Blocks(cache.key, m.dim, count), Blocks(cache.value, m.dim, count);
    BlocksRepresent(cache.key, count, m.dim);
    BlocksRepresent(cache.value, count, m.dim);
    var attended := Attend(m, query, cache.key, cache.value, lengths, 1, longest, qs, keys, values);
    ghost var atts := AttendedRows(m, lengths, 1, longest, qs, keys, values);
    var projected := Linear(m.a, attended, w.wo, Some(w.bo), batch, atts);
    ghost var outs := AffineRows(m.a, w.wo, Some(w.bo), atts);
    var normed := NormResidual(m.a, projected, input, w.normScale, w.normBias, batch, m.dim, outs, ys);
    ghost var ns := ResidualNormRows(m.a, w.normScale, w.normBias, outs, ys);
    out := FeedForward(m, normed, layer.ffn, batch, ns);
    zs := FeedForwardRows(m, layer.ffn, ns);
    forall r: nat | r < batch ensures zs[r] == ContextRow(m, layer, CacheMemory(m, cache, lengths, longest, r), ys[r]) {
      SingleQuery(m, cache, lengths, longest, qs, r);
    }
  }

  /** The part of a decoder layer behind the recurrent cell. */
  ghost function ContextRow(m: Model, layer: DecoderLayer, memory: Memory, y: Vec): (z: Vec)
    requires m.Valid() && layer.context.Valid(m.dim) && layer.ffn.Valid(m.dim, m.ffnDim) && MemoryOk(m, memory) && |y| == m.dim
    ensures |z| == m.dim
  {
    HeadsCover(m.dim, m.heads);
    var w := layer.context;
    var attended := AttendRow(m.a, m.heads, m.HeadDim(), Affine(m.a, w.wq, Some(w.bq), y), memory.keys, memory.values);
    FeedForwardRow(m, layer.ffn, ResidualNorm(m.a, w.normScale, w.normBias, Affine(m.a, w.wo, Some(w.bo), attended), y))
  }

  /** The memories of layer `l`, one per row, as its cache holds them. */
  ghost predicate CacheHolds(m: Model, cache: CrossCache, lengths: seq<nat>, longest: nat, memories: seq<seq<Memory>>, l: nat) {
    && CacheShape(m, cache, lengths, longest) && |memories| == |lengths|
    && forall r :: 0 <= r < |lengths| ==> l < |memories[r]| && memories[r][l] == CacheMemory(m, cache, lengths, longest, r)
  }

  /** The layer function of every row, and the memories it closes over. */
  ghost predicate LayersMatch(m: Model, fs: seq<Layer<Scalar>>, memories: seq<seq<Memory>>) {
    && m.Valid() && |fs| == |memories|
    && (forall r :: 0 <= r < |memories| ==> Transformer.MemoriesOk(m, memories[r]) && fs[r] == RowLayer(m, memories[r]))
  }

  /** Layer `n` of the batch: every row and its recurrent state move one layer on. */
  ghost predicate LayerDone(fs: seq<Layer<Scalar>>, n: nat, ys: seq<Vec>, ss: seq<Vec>, zs: seq<Vec>, ts: seq<Vec>)
    requires |ys| == |ss| == |zs| == |ts| == |fs|
  {
    forall r :: 0 <= r < |fs| ==> fs[r](n, ys[r], ss[r]) == (zs[r], ts[r])
  }

  method DecodeLayerBatch(m: Model, n: nat, decoder: Vec, state: array<Scalar>, cache: CrossCache, lengths: seq<nat>, longest: nat,
                          ghost fs: seq<Layer<Scalar>>, ghost memories: seq<seq<Memory>>, ghost ys: seq<Vec>, ghost ss: seq<Vec>)
    returns (out: Vec, ghost zs: seq<Vec>, ghost ts: seq<Vec>)
    requires n < |m.decoder| && LayersMatch(m, fs, memories) && CacheHolds(m, cache, lengths, longest, memories, n)
    requires Represents(decoder, ys, |lengths|, m.dim) && |ss| == |lengths| && HoldsRows(state[..], ss, m.dim)
    modifies state
    ensures Represents(out, zs, |lengths|, m.dim) && |ts| == |lengths| && HoldsRows(state[..], ts, m.dim)
    ensures LayerDone(fs, n, ys, ss, zs, ts)
  {
    var layer := m.decoder[n];
    var recurrent; ghost var middle;
    recurrent, middle, ts := RecurrentPart(m, layer.ssru, decoder, state, |lengths|, ys, ss);
    out, zs := ContextPart(m, layer, recurrent, cache, lengths, longest, middle);
    forall r | 0 <= r < |lengths| ensures fs[r](n, ys[r], ss[r]) == (zs[r], ts[r]) {
      assert memories[r][n] == CacheMemory(m, cache, lengths, longest, r);
      assert zs[r] == DecodeLayer(m, layer, memories[r][n], ys[r], ss[r]);
    }
  }

  // ---------------------------------------------------------------------------------- all decoder layers

  /** Row `r`'s part of every layer state. */
  ghost function Column(layers: seq<seq<Vec>>, r: nat): (states: seq<Vec>)
    requires forall l :: 0 <= l < |layers| ==> r < |layers[l]|
    ensures |states| == |layers|
  {
    seq(|layers|, l requires 0 <= l < |layers| => layers[l][r])
  }

  ghost predicate StateShape(layers: seq<seq<Vec>>, count: nat, batch: nat) {
    |layers| == count && forall l :: 0 <= l < |layers| ==> |layers[l]| == batch
  }

  /** The layer states as rows: every layer has a buffer of its own. */
  ghost predicate Hold(states: seq<array<Scalar>>, layers: seq<seq<Vec>>, width: nat)
    reads states
  {
    && |states| == |layers|
    && (forall l :: 0 <= l < |states| ==> HoldsRows(states[l][..], layers[l], width))
    && (forall k, l :: 0 <= k < l < |states| ==> states[k] != states[l])
  }

  /** Every row after `n` layers, started from its own `x` and its own states. */
  ghost predicate BatchAfter(fs: seq<Layer<Scalar>>, n: nat, xs: seq<Vec>, before: seq<seq<Vec>>, zs: seq<Vec>, after: seq<seq<Vec>>) {
    && |xs| == |zs| == |fs| && n <= |before| && StateShape(before, |before|, |fs|) && StateShape(after, |before|, |fs|)
    && forall r :: 0 <= r < |fs| ==>
         zs[r] == Through(fs[r], n, xs[r], Column(before, r)) && Column(after, r) == StatesThrough(fs[r], n, xs[r], Column(before, r))
  }

  lemma BatchStep(fs: seq<Layer<Scalar>>, n: nat, xs: seq<Vec>, before: seq<seq<Vec>>,
                  ys: seq<Vec>, middle: seq<seq<Vec>>, zs: seq<Vec>, ts: seq<Vec>, next: nat)
    requires next == n + 1
    requires n < |before| && BatchAfter(fs, n, xs, before, ys, middle)
    requires |zs| == |ts| == |fs| && LayerDone(fs, n, ys, middle[n], zs, ts)
    ensures BatchAfter(fs, next, xs, before, zs, middle[n := ts])
  {
    var after := middle[n := ts];
    forall r | 0 <= r < |fs|
      ensures zs[r] == Through(fs[r], next, xs[r], Column(before, r))
              && Column(after, r) == StatesThrough(fs[r], next, xs[r], Column(before, r))
    {
      assert Column(after, r) == Column(middle, r)[n := ts[r]];
      assert middle[n][r] == Column(middle, r)[n] == Column(before, r)[n];
      OneMore(fs[r], n, xs[r], Column(before, r), zs[r], ts[r]);
    }
  }

  lemma BatchStart(fs: seq<Layer<Scalar>>, xs: seq<Vec>, before: seq<seq<Vec>>)
    requires |xs| == |fs| && StateShape(before, |before|, |fs|)
    ensures BatchAfter(fs, 0, xs, before, xs, before)
  {
    forall r | 0 <= r < |fs| ensures Column(before, r) == StatesThrough(fs[r], 0, xs[r], Column(before, r)) {
    }
  }

  ghost predicate CachesHold(m: Model, cross: seq<CrossCache>, lengths: seq<nat>, longest: nat, memories: seq<seq<Memory>>) {
    && |cross| == |m.decoder| && |memories| == |lengths|
    && forall l :: 0 <= l < |cross| ==> CacheHolds(m, cross[l], lengths, longest, memories, l)
  }

  /** The layer loop between two layers. */
  ghost predicate LayersUpTo(out: Vec, zs: seq<Vec>, batch: nat, width: nat, states: seq<array<Scalar>>, fs: seq<Layer<Scalar>>, n: nat,
                             xs: seq<Vec>, before: seq<seq<Vec>>, after: seq<seq<Vec>>)
    reads states
  {
    Represents(out, zs, batch, width) && Hold(states, after, width) && BatchAfter(fs, n, xs, before, zs, after)
  }

  method DecodeNextLayer(m: Model, n: nat, decoder: Vec, states: seq<array<Scalar>>, cross: seq<CrossCache>, lengths: seq<nat>,
                         longest: nat, ghost fs: seq<Layer<Scalar>>, ghost memories: seq<seq<Memory>>, ghost xs: seq<Vec>,
                         ghost before: seq<seq<Vec>>, ghost ys: seq<Vec>, ghost middle: seq<seq<Vec>>)
    returns (out: Vec, next: nat, ghost zs: seq<Vec>, ghost after: seq<seq<Vec>>)
    requires LayersMatch(m, fs, memories) && CachesHold(m, cross, lengths, longest, memories) && n < |m.decoder| == |before|
    requires LayersUpTo(decoder, ys, |lengths|, m.dim, states, fs, n, xs, before, middle)
    modifies states
    ensures next == n + 1 && LayersUpTo(out, zs, |lengths|, m.dim, states, fs, next, xs, before, after)
  {
    ghost var ts;
    out, zs, ts := DecodeLayerBatch(m, n, decoder, states[n], cross[n], lengths, longest, fs, memories, ys, middle[n]);
    after, next := middle[n := ts], n + 1;
    BatchStep(fs, n, xs, before, ys, middle, zs, ts, next);
  }

  lemma LayersStart(input: Vec, batch: nat, width: nat, states: seq<array<Scalar>>, fs: seq<Layer<Scalar>>, xs: seq<Vec>, before: seq<seq<Vec>>)
    requires Represents(input, xs, batch, width) && |fs| == batch
    requires Hold(states, before, width) && StateShape(before, |before|, batch)
    ensures LayersUpTo(input, xs, batch, width, states, fs, 0, xs, before, before)
  {
    BatchStart(fs, xs, before);
  }

  method DecodeAllLayers(m: Model, input: Vec, states: seq<array<Scalar>>, cross: seq<CrossCache>, lengths: seq<nat>, longest: nat,
                         ghost fs: seq<Layer<Scalar>>, ghost memories: seq<seq<Memory>>, ghost xs: seq<Vec>, ghost before: seq<seq<Vec>>)
    returns (out: Vec, ghost zs: seq<Vec>, ghost after: seq<seq<Vec>>)
    requires LayersMatch(m, fs, memories) && CachesHold(m, cross, lengths, longest, memories)
    requires Represents(input, xs, |lengths|, m.dim)
    requires Hold(states, before, m.dim) && StateShape(before, |m.decoder|, |lengths|)
    modifies states
    ensures LayersUpTo(out, zs, |lengths|, m.dim, states, fs, |m.decoder|, xs, before, after)
  {
    out, zs, after := input, xs, before;
    LayersStart(out, |lengths|, m.dim, states, fs, xs, before);
    var n := 0;
    while n < |m.decoder|
      invariant n <= |m.decoder| && LayersUpTo(out, zs, |lengths|, m.dim, states, fs, n, xs, before, after)
    {
      out, n, zs, after := DecodeNextLayer(m, n, out, states, cross, lengths, longest, fs, memories, xs, before, zs, after);
    }
  }

  /** A full step up to the token choice: every row's hidden vector and every row's next states. */
  method DecodeStepBatch(m: Model, previous: seq<int>, step: nat, states: seq<array<Scalar>>, cross: seq<CrossCache>,
                         lengths: seq<nat>, longest: nat, ghost fs: seq<Layer<Scalar>>, ghost memories: seq<seq<Memory>>,
                         ghost before: seq<seq<Vec>>)
    returns (out: Vec, ghost zs: seq<Vec>, ghost after: seq<seq<Vec>>)
    requires LayersMatch(m, fs, memories) && CachesHold(m, cross, lengths, longest, memories) && step < MAXIMUM_POSITION
    requires |previous| == |lengths| && PreviousOk(m, previous)
    requires Hold(states, before, m.dim) && StateShape(before, |m.decoder|, |lengths|)
    modifies states
    ensures LayersUpTo(out, zs, |lengths|, m.dim, states, fs, |m.decoder|, DecoderRows(m, previous, step), before, after)
  {
    ghost var xs := DecoderRows(m, previous, step);
    out := DecoderInput(m, previous, step);
    out, zs, after := DecodeAllLayers(m, out, states, cross, lengths, longest, fs, memories, xs, before);
  }

  // ---------------------------------------------------------------------------------- token selection

  /** `select_token`: the first candidate keeps its place unless a later one is strictly greater. */
  method SelectToken(m: Model, hidden: Vec, candidates: seq<nat>) returns (r: Result<nat, ShapeError>)
    requires m.Valid() && |hidden| == m.dim
    ensures if CandidatesOk(m, candidates) then r == Ok(Select(m, hidden, candidates)) else r.Err?
  {
    var bestIndex, bestValue := 0, m.a.negativeInfinity;
    for i := 0 to |candidates|
      invariant forall k :: 0 <= k < i ==> candidates[k] < m.decoderEmbedding.rows
      invariant CandidatesOk(m, candidates) ==> BestOf(m, hidden, candidates, i) == Best(bestIndex, bestValue)
    {
      if candidates[i] >= m.decoderEmbedding.rows { return Err(CandidateOutOfRange); }
      var token := candidates[i];
      var weights := Block(m.decoderEmbedding.values, m.dim, m.decoderEmbedding.rows, token);
      var logit := m.outputBias.values[token];
      for k := 0 to m.dim
        invariant logit == LogitTo(m.a, hidden, weights, m.outputBias.values[token], k)
      {
        logit := m.a.add(logit, m.a.mul(hidden[k], weights[k]));
      }
      if m.a.greater(logit, bestValue) {
        bestIndex, bestValue := i, logit;
      }
    }
    if bestIndex >= |candidates| { return Err(EmptyCandidates); }
    return Ok(candidates[bestIndex]);
  }
}
