/** A stack of layers that carry one state each, whatever the layers compute. */
module LayerStack {
  import opened Layout

  /** Layer number, row, state -> row, state. */
  type Layer<!T> = (nat, seq<T>, seq<T>) -> (seq<T>, seq<T>)

  ghost predicate KeepsWidth<T(!new)>(f: Layer<T>, width: nat) {
    forall l: nat, x: seq<T>, s: seq<T> :: |x| == |s| == width ==> |f(l, x, s).0| == |f(l, x, s).1| == width
  }

  /** The row behind the first `n` layers. */
  ghost function Through<T>(f: Layer<T>, n: nat, x: seq<T>, before: seq<seq<T>>): seq<T>
    requires n <= |before|
  {
    if n == 0 then x else f(n - 1, Through(f, n - 1, x, before), before[n - 1]).0
  }

  /** The states once the first `n` layers have run; the others are untouched. */
  ghost function StatesThrough<T>(f: Layer<T>, n: nat, x: seq<T>, before: seq<seq<T>>): (after: seq<seq<T>>)
    requires n <= |before|
    ensures |after| == |before|
  {
    seq(|before|, l requires 0 <= l < |before| => if l < n then f(l, Through(f, l, x, before), before[l]).1 else before[l])
  }

  lemma {:induction false} ThroughWide<T(!new)>(f: Layer<T>, width: nat, n: nat, x: seq<T>, before: seq<seq<T>>)
    requires KeepsWidth(f, width) && n <= |before| && |x| == width && Wide(before, width)
    ensures |Through(f, n, x, before)| == width
    ensures Wide(StatesThrough(f, n, x, before), width)
  {
    if n > 0 {
      ThroughWide(f, width, n - 1, x, before);
      forall l | 0 <= l < |before| ensures |StatesThrough(f, n, x, before)[l]| == width {
        if l == n - 1 {
          assert |f(n - 1, Through(f, n - 1, x, before), before[n - 1]).1| == width;
        } else {
          assert StatesThrough(f, n, x, before)[l] == StatesThrough(f, n - 1, x, before)[l];
        }
      }
    }
  }

  /** One more layer. */
  lemma OneMore<T>(f: Layer<T>, n: nat, x: seq<T>, before: seq<seq<T>>, z: seq<T>, updated: seq<T>)
    requires n < |before| && f(n, Through(f, n, x, before), before[n]) == (z, updated)
    ensures z == Through(f, n + 1, x, before)
    ensures StatesThrough(f, n, x, before)[n := updated] == StatesThrough(f, n + 1, x, before)
  {
  }
}

/** Greedy decoding over any stepper, and what cutting it means. */
module Greedy {

  /** The tokens still to come from `step` on: stop after EOS (token 0) or at the limit. */
  function Cut<S>(next: (S, nat) -> (nat, S), limit: nat, step: nat, s: S): (tokens: seq<nat>)
    ensures step <= limit ==> |tokens| <= limit - step
    decreases limit - step
  {
    if step >= limit then []
    else
      var (token, s') := next(s, step);
      if token == 0 then [token] else [token] + Cut(next, limit, step + 1, s')
  }

  /** The state after `n` steps that ignore EOS and every limit. */
  ghost function FreeState<S>(next: (S, nat) -> (nat, S), start: S, n: nat): S {
    if n == 0 then start else next(FreeState(next, start, n - 1), n - 1).1
  }

  /** The `n`-th token of that endless run. */
  ghost function FreeToken<S>(next: (S, nat) -> (nat, S), start: S, n: nat): nat {
    next(FreeState(next, start, n), n).0
  }

  /** `tokens` is the endless run from step `from`, cut after the first EOS or after `room` tokens. */
  ghost predicate IsCutRun<S>(next: (S, nat) -> (nat, S), start: S, from: nat, room: nat, tokens: seq<nat>) {
    && |tokens| <= room
    && (forall i :: 0 <= i < |tokens| ==> tokens[i] == FreeToken(next, start, from + i))
    && (forall i :: 0 <= i < |tokens| - 1 ==> tokens[i] != 0)
    && (|tokens| < room ==> tokens != [] && tokens[|tokens| - 1] == 0)
  }

  lemma {:induction false} CutIsPrefix<S>(next: (S, nat) -> (nat, S), start: S, limit: nat, step: nat)
    requires step <= limit
    ensures IsCutRun(next, start, step, limit - step, Cut(next, limit, step, FreeState(next, start, step)))
    decreases limit - step
  {
    if step < limit {
      var token, rest := FreeToken(next, start, step), Cut(next, limit, step + 1, FreeState(next, start, step + 1));
      if token != 0 {
        CutIsPrefix(next, start, limit, step + 1);
        forall i | 0 < i < 1 + |rest| ensures ([token] + rest)[i] == FreeToken(next, start, step + i) {
          assert rest[i - 1] == FreeToken(next, start, step + 1 + (i - 1));
        }
      }
    }
  }
}

/**
 The Transformer-SSRU graph on one sentence, as plain functions on rows: no batch, no padding, no flat
 buffers. `Engine.TranslateTokenIds` is proved to compute this for every row of every batch.
 */
module Transformer {
  import opened Base
  import opened Layout
  import opened Tensor
  import opened AttentionKernel
  import Shortlist
  import Greedy
  import LayerStack

  const MAXIMUM_SOURCE_LENGTH: nat := 256
  const MAXIMUM_GENERATION_STEPS: nat := 256
  const MAXIMUM_ENGINE_BATCH: nat := 256
  const MAXIMUM_PADDED_ATTENTION_CELLS: nat := 65_536
  const MAXIMUM_POSITION: nat := 4_096

  datatype AttentionWeights = AttentionWeights(
    wq: Matrix, wk: Matrix, wv: Matrix, wo: Matrix, bq: Matrix, bk: Matrix, bv: Matrix, bo: Matrix,
    normScale: Matrix, normBias: Matrix)
  {
    ghost predicate Valid(dim: nat) {
      && wq.Has(dim, dim) && wk.Has(dim, dim) && wv.Has(dim, dim) && wo.Has(dim, dim)
      && bq.Has(1, dim) && bk.Has(1, dim) && bv.Has(1, dim) && bo.Has(1, dim)
      && normScale.Has(1, dim) && normBias.Has(1, dim)
    }
  }

  datatype FeedForwardWeights = FeedForwardWeights(
    w1: Matrix, w2: Matrix, b1: Matrix, b2: Matrix, normScale: Matrix, normBias: Matrix)
  {
    ghost predicate Valid(dim: nat, ffnDim: nat) {
      && w1.Has(dim, ffnDim) && w2.Has(ffnDim, dim) && b1.Has(1, ffnDim) && b2.Has(1, dim)
      && normScale.Has(1, dim) && normBias.Has(1, dim)
    }
  }

  datatype SsruWeights = SsruWeights(w: Matrix, wf: Matrix, bf: Matrix, normScale: Matrix, normBias: Matrix) {
    ghost predicate Valid(dim: nat) {
      && w.Has(dim, dim) && wf.Has(dim, dim) && bf.Has(1, dim) && normScale.Has(1, dim) && normBias.Has(1, dim)
    }
  }

  datatype EncoderLayer = EncoderLayer(attention: AttentionWeights, ffn: FeedForwardWeights)

  datatype DecoderLayer = DecoderLayer(ssru: SsruWeights, context: AttentionWeights, ffn: FeedForwardWeights)

  datatype Model = Model(
    a: Arithmetic,
    encoderEmbedding: Matrix,
    decoderEmbedding: Matrix,
    outputBias: Matrix,
    encoder: seq<EncoderLayer>,
    decoder: seq<DecoderLayer>,
    positions: Vec,
    shortlist: Shortlist.Table,
    dim: nat,
    heads: nat,
    ffnDim: nat,
    sourceVocab: nat,
    maxLengthFactor: nat)
  {
    /** What loading a model establishes. */
    ghost predicate Valid() {
      && heads != 0 && dim % heads == 0
      && sourceVocab > 2
      && encoderEmbedding.Has(sourceVocab, dim)
      && decoderEmbedding.Valid() && decoderEmbedding.cols == dim && decoderEmbedding.rows > 2
      && outputBias.Has(1, decoderEmbedding.rows)
      && (forall l :: 0 <= l < |encoder| ==> encoder[l].attention.Valid(dim) && encoder[l].ffn.Valid(dim, ffnDim))
      && (forall l :: 0 <= l < |decoder| ==>
            decoder[l].ssru.Valid(dim) && decoder[l].context.Valid(dim) && decoder[l].ffn.Valid(dim, ffnDim))
      && |positions| == MAXIMUM_POSITION * dim
      && shortlist.Valid() && shortlist.sourceVocab == sourceVocab && shortlist.targetVocab == decoderEmbedding.rows
      && maxLengthFactor > 0
    }

    function HeadDim(): nat
      requires heads != 0
    {
      dim / heads
    }
  }

  // ---------------------------------------------------------------------------------- encoder

  function EmbeddedRow(m: Model, table: Matrix, token: nat, position: nat): (x: Vec)
    requires |table.values| == table.rows * m.dim && |m.positions| == MAXIMUM_POSITION * m.dim
    requires token < table.rows && position < MAXIMUM_POSITION
    ensures |x| == m.dim
  {
    var embedded, positional := Block(table.values, m.dim, table.rows, token), Block(m.positions, m.dim, MAXIMUM_POSITION, position);
    seq(m.dim, i requires 0 <= i < m.dim => m.a.add(m.a.mul(embedded[i], m.a.embeddingScale), positional[i]))
  }

  predicate SourceTokens(m: Model, tokens: seq<int>) {
    forall i :: 0 <= i < |tokens| ==> 0 <= tokens[i] < m.sourceVocab
  }

  ghost function Embed(m: Model, tokens: seq<int>): (xs: seq<Vec>)
    requires m.Valid() && SourceTokens(m, tokens) && |tokens| <= MAXIMUM_POSITION
    ensures |xs| == |tokens| && Wide(xs, m.dim)
  {
    seq(|tokens|, i requires 0 <= i < |tokens| => EmbeddedRow(m, m.encoderEmbedding, tokens[i], i))
  }

  function FeedForwardRow(m: Model, ffn: FeedForwardWeights, x: Vec): (z: Vec)
    requires ffn.Valid(m.dim, m.ffnDim) && |x| == m.dim
    ensures |z| == m.dim
  {
    var hidden := Relu(m.a, Affine(m.a, ffn.w1, Some(ffn.b1), x));
    ResidualNorm(m.a, ffn.normScale, ffn.normBias, Affine(m.a, ffn.w2, Some(ffn.b2), hidden), x)
  }

  ghost function FeedForwardRows(m: Model, ffn: FeedForwardWeights, xs: seq<Vec>): (zs: seq<Vec>)
    requires ffn.Valid(m.dim, m.ffnDim) && Wide(xs, m.dim)
    ensures |zs| == |xs| && Wide(zs, m.dim)
  {
    seq(|xs|, i requires 0 <= i < |xs| => FeedForwardRow(m, ffn, xs[i]))
  }

  ghost function Attended(m: Model, qs: seq<Vec>, keys: seq<Vec>, values: seq<Vec>): (zs: seq<Vec>)
    requires m.Valid() && |keys| == |values| && Wide(qs, m.dim) && Wide(keys, m.dim) && Wide(values, m.dim)
    ensures |zs| == |qs| && Wide(zs, m.dim)
  {
    HeadsCover(m.dim, m.heads);
    AttendSentence(m.a, m.heads, m.HeadDim(), qs, keys, values)
  }

  /** Output projection, residual and normalization behind an attention block. */
  ghost function ProjectRows(m: Model, w: AttentionWeights, attended: seq<Vec>, residuals: seq<Vec>): (zs: seq<Vec>)
    requires w.Valid(m.dim) && |attended| == |residuals| && Wide(residuals, m.dim)
    ensures |zs| == |attended| && Wide(zs, m.dim)
  {
    ResidualNormRows(m.a, w.normScale, w.normBias, AffineRows(m.a, w.wo, Some(w.bo), attended), residuals)
  }

  ghost function EncodeLayer(m: Model, layer: EncoderLayer, xs: seq<Vec>): (zs: seq<Vec>)
    requires m.Valid() && layer.attention.Valid(m.dim) && layer.ffn.Valid(m.dim, m.ffnDim) && Wide(xs, m.dim)
    ensures |zs| == |xs| && Wide(zs, m.dim)
  {
    var w := layer.attention;
    var attended := Attended(m, AffineRows(m.a, w.wq, Some(w.bq), xs), AffineRows(m.a, w.wk, Some(w.bk), xs),
                             AffineRows(m.a, w.wv, Some(w.bv), xs));
    FeedForwardRows(m, layer.ffn, ProjectRows(m, w, attended, xs))
  }

  ghost function EncodeLayers(m: Model, n: nat, xs: seq<Vec>): (zs: seq<Vec>)
    requires m.Valid() && n <= |m.encoder| && Wide(xs, m.dim)
    ensures |zs| == |xs| && Wide(zs, m.dim)
  {
    if n == 0 then xs else EncodeLayer(m, m.encoder[n - 1], EncodeLayers(m, n - 1, xs))
  }

  ghost function EncodeSentence(m: Model, tokens: seq<int>): (zs: seq<Vec>)
    requires m.Valid() && SourceTokens(m, tokens) && |tokens| <= MAXIMUM_POSITION
    ensures |zs| == |tokens| && Wide(zs, m.dim)
  {
    EncodeLayers(m, |m.encoder|, Embed(m, tokens))
  }

  // ---------------------------------------------------------------------------------- decoder

  /** The keys and values one decoder layer attends over. */
  datatype Memory = Memory(keys: seq<Vec>, values: seq<Vec>)

  ghost predicate MemoryOk(m: Model, memory: Memory) {
    |memory.keys| == |memory.values| && Wide(memory.keys, m.dim) && Wide(memory.values, m.dim)
  }

  ghost function MemoryAt(m: Model, l: nat, encoded: seq<Vec>): (memory: Memory)
    requires m.Valid() && l < |m.decoder| && Wide(encoded, m.dim)
    ensures MemoryOk(m, memory)
  {
    var w := m.decoder[l].context;
    Memory(AffineRows(m.a, w.wk, Some(w.bk), encoded), AffineRows(m.a, w.wv, Some(w.bv), encoded))
  }

  ghost function Memories(m: Model, encoded: seq<Vec>): (memories: seq<Memory>)
    requires m.Valid() && Wide(encoded, m.dim)
    ensures |memories| == |m.decoder| && forall l :: 0 <= l < |memories| ==> MemoryOk(m, memories[l])
  {
    seq(|m.decoder|, l requires 0 <= l < |m.decoder| => MemoryAt(m, l, encoded))
  }

  /** The recurrent state of a layer after one step on input `x`. */
  function NextState(m: Model, w: SsruWeights, x: Vec, state: Vec): (z: Vec)
    requires w.Valid(m.dim) && |state| == m.dim
    ensures |z| == m.dim
  {
    SsruState(m.a, Affine(m.a, w.w, None, x), Affine(m.a, w.wf, Some(w.bf), x), state)
  }

  ghost function DecodeLayer(m: Model, layer: DecoderLayer, memory: Memory, x: Vec, state: Vec): (z: Vec)
    requires m.Valid() && layer.ssru.Valid(m.dim) && layer.context.Valid(m.dim) && layer.ffn.Valid(m.dim, m.ffnDim)
    requires MemoryOk(m, memory) && |x| == |state| == m.dim
    ensures |z| == m.dim
  {
    HeadsCover(m.dim, m.heads);
    var y := SsruOutput(m.a, layer.ssru.normScale, layer.ssru.normBias, NextState(m, layer.ssru, x, state), x);
    var w := layer.context;
    var q := Affine(m.a, w.wq, Some(w.bq), y);
    var attended := AttendRow(m.a, m.heads, m.HeadDim(), q, memory.keys, memory.values);
    var z := ResidualNorm(m.a, w.normScale, w.normBias, Affine(m.a, w.wo, Some(w.bo), attended), y);
    FeedForwardRow(m, layer.ffn, z)
  }

  ghost predicate MemoriesOk(m: Model, memories: seq<Memory>) {
    |memories| == |m.decoder| && forall l :: 0 <= l < |memories| ==> MemoryOk(m, memories[l])
  }

  /** What decoder layer `l` makes of a row and its recurrent state. */
  ghost function RowLayer(m: Model, memories: seq<Memory>): (f: LayerStack.Layer<Scalar>)
    requires m.Valid() && MemoriesOk(m, memories)
    ensures LayerStack.KeepsWidth(f, m.dim)
  {
    (l: nat, x: Vec, state: Vec) =>
      if l < |m.decoder| && |x| == |state| == m.dim
      then (DecodeLayer(m, m.decoder[l], memories[l], x, state), NextState(m, m.decoder[l].ssru, x, state))
      else (x, state)
  }

  /** The decoder input: the position alone at the start, else the previous token's embedding plus the position. */
  function DecoderRow(m: Model, previous: int, position: nat): (x: Vec)
    requires m.Valid() && previous < m.decoderEmbedding.rows && position < MAXIMUM_POSITION
    ensures |x| == m.dim
  {
    if previous < 0 then Block(m.positions, m.dim, MAXIMUM_POSITION, position)
    else EmbeddedRow(m, m.decoderEmbedding, previous, position)
  }

  // ---------------------------------------------------------------------------------- token selection

  function LogitTo(a: Arithmetic, hidden: Vec, weights: Vec, bias: Scalar, n: nat): Scalar
    requires n <= |hidden| == |weights|
  {
    if n == 0 then bias else a.add(LogitTo(a, hidden, weights, bias, n - 1), a.mul(hidden[n - 1], weights[n - 1]))
  }

  function Logit(m: Model, hidden: Vec, token: nat): Scalar
    requires m.Valid() && |hidden| == m.dim && token < m.decoderEmbedding.rows
  {
    var weights := Block(m.decoderEmbedding.values, m.dim, m.decoderEmbedding.rows, token);
    LogitTo(m.a, hidden, weights, m.outputBias.values[token], m.dim)
  }

  ghost predicate CandidatesOk(m: Model, candidates: seq<nat>) {
    candidates != [] && forall i :: 0 <= i < |candidates| ==> candidates[i] < m.decoderEmbedding.rows
  }

  datatype Best = Best(index: nat, value: Scalar)

  /** The running best of the first `n` candidates: a later one must be strictly greater. */
  ghost function BestOf(m: Model, hidden: Vec, candidates: seq<nat>, n: nat): (best: Best)
    requires m.Valid() && |hidden| == m.dim && CandidatesOk(m, candidates) && n <= |candidates|
    ensures best.index < |candidates|
  {
    if n == 0 then Best(0, m.a.negativeInfinity)
    else
      var best := BestOf(m, hidden, candidates, n - 1);
      var logit := Logit(m, hidden, candidates[n - 1]);
      if m.a.greater(logit, best.value) then Best(n - 1, logit) else best
  }

  ghost function Select(m: Model, hidden: Vec, candidates: seq<nat>): (token: nat)
    requires m.Valid() && |hidden| == m.dim && CandidatesOk(m, candidates)
    ensures token in candidates && token < m.decoderEmbedding.rows
  {
    candidates[BestOf(m, hidden, candidates, |candidates|).index]
  }

  ghost predicate StrictOrder(greater: (Scalar, Scalar) -> bool) {
    && (forall x :: !greater(x, x))
    && (forall x, y, z :: greater(x, y) && greater(y, z) ==> greater(x, z))
    && (forall x, y, z :: !greater(x, y) && !greater(y, z) ==> !greater(x, z))
  }

  lemma {:induction false} BestOfPrefix(m: Model, hidden: Vec, candidates: seq<nat>, n: nat)
    requires m.Valid() && |hidden| == m.dim && CandidatesOk(m, candidates) && 0 < n <= |candidates|
    requires StrictOrder(m.a.greater)
    requires forall i :: 0 <= i < |candidates| ==> m.a.greater(Logit(m, hidden, candidates[i]), m.a.negativeInfinity)
    ensures var best := BestOf(m, hidden, candidates, n);
            && best.index < n && best.value == Logit(m, hidden, candidates[best.index])
            && (forall i :: 0 <= i < n ==> !m.a.greater(Logit(m, hidden, candidates[i]), best.value))
            && (forall i :: 0 <= i < best.index ==> m.a.greater(best.value, Logit(m, hidden, candidates[i])))
  {
    if n > 1 {
      BestOfPrefix(m, hidden, candidates, n - 1);
      var before, now := BestOf(m, hidden, candidates, n - 1), BestOf(m, hidden, candidates, n);
      if now.index == n - 1 {
        forall i | 0 <= i < n - 1 ensures m.a.greater(now.value, Logit(m, hidden, candidates[i])) {
          assert m.a.greater(now.value, before.value) && !m.a.greater(Logit(m, hidden, candidates[i]), before.value);
        }
      }
    } else {
      assert BestOf(m, hidden, candidates, 0) == Best(0, m.a.negativeInfinity);
    }
  }

  /** Greedy decoding proper: where comparison is an order, the token has the greatest logit, the earliest on ties. */
  lemma SelectIsEarliestMaximum(m: Model, hidden: Vec, candidates: seq<nat>)
    requires m.Valid() && |hidden| == m.dim && CandidatesOk(m, candidates)
    requires StrictOrder(m.a.greater)
    requires forall i :: 0 <= i < |candidates| ==> m.a.greater(Logit(m, hidden, candidates[i]), m.a.negativeInfinity)
    ensures exists k :: 0 <= k < |candidates| && candidates[k] == Select(m, hidden, candidates)
              && (forall i :: 0 <= i < |candidates| ==> !m.a.greater(Logit(m, hidden, candidates[i]), Logit(m, hidden, candidates[k])))
              && (forall i :: 0 <= i < k ==> m.a.greater(Logit(m, hidden, candidates[k]), Logit(m, hidden, candidates[i])))
  {
    BestOfPrefix(m, hidden, candidates, |candidates|);
  }

  // ---------------------------------------------------------------------------------- one sentence, end to end

  function Limit(m: Model, length: nat, requested: nat): (limit: nat)
    ensures limit <= requested && limit <= MAXIMUM_GENERATION_STEPS && limit <= length * m.maxLengthFactor && limit <= MAXIMUM_POSITION
    ensures limit == requested || limit == length * m.maxLengthFactor || limit == MAXIMUM_GENERATION_STEPS || limit == MAXIMUM_POSITION
  {
    Min(Min(Min(requested, length * m.maxLengthFactor), MAXIMUM_GENERATION_STEPS), MAXIMUM_POSITION)
  }

  /** Where the decoder of one sentence stands: its last token (-1 at the start) and its recurrent states. */
  datatype Cursor = Cursor(previous: int, states: seq<Vec>)

  ghost predicate CursorOk(m: Model, c: Cursor) {
    m.Valid() && |c.states| == |m.decoder| && Wide(c.states, m.dim) && c.previous < m.decoderEmbedding.rows
  }

  ghost function DecodeStep(m: Model, layer: LayerStack.Layer<Scalar>, candidates: seq<nat>, c: Cursor, step: nat): (r: (nat, Cursor))
    requires CursorOk(m, c) && LayerStack.KeepsWidth(layer, m.dim) && CandidatesOk(m, candidates) && step < MAXIMUM_POSITION
    ensures CursorOk(m, r.1) && r.1.previous == r.0
  {
    var x := DecoderRow(m, c.previous, step);
    LayerStack.ThroughWide(layer, m.dim, |c.states|, x, c.states);
    var token := Select(m, LayerStack.Through(layer, |c.states|, x, c.states), candidates);
    (token, Cursor(token, LayerStack.StatesThrough(layer, |c.states|, x, c.states)))
  }

  /** The same as a total function, which is what greedy decoding iterates. */
  ghost function Stepper(m: Model, layer: LayerStack.Layer<Scalar>, candidates: seq<nat>): (Cursor, nat) -> (nat, Cursor) {
    (c: Cursor, step: nat) =>
      if CursorOk(m, c) && LayerStack.KeepsWidth(layer, m.dim) && CandidatesOk(m, candidates) && step < MAXIMUM_POSITION
      then DecodeStep(m, layer, candidates, c, step)
      else (0, c)
  }

  ghost function Start(m: Model): Cursor {
    Cursor(-1, seq(|m.decoder|, _ => Zeros(m.a, m.dim)))
  }

  ghost predicate Translatable(m: Model, tokens: seq<int>) {
    m.Valid() && SourceTokens(m, tokens) && |tokens| <= MAXIMUM_SOURCE_LENGTH
    && Shortlist.CandidatesOf(m.shortlist, tokens).Ok?
  }

  ghost function CandidateIds(m: Model, tokens: seq<int>): (ids: seq<nat>)
    requires Translatable(m, tokens)
    ensures CandidatesOk(m, ids)
  {
    var ids := Shortlist.CandidatesOf(m.shortlist, tokens).value;
    Shortlist.CandidateList(m.shortlist, tokens, ids);
    ids
  }

  ghost function StepperFor(m: Model, tokens: seq<int>): (Cursor, nat) -> (nat, Cursor)
    requires Translatable(m, tokens)
  {
    Stepper(m, RowLayer(m, Memories(m, EncodeSentence(m, tokens))), CandidateIds(m, tokens))
  }

  /** The translation of one sentence under an output budget. */
  ghost function TranslateOne(m: Model, tokens: seq<int>, requested: nat): (output: seq<nat>)
    requires Translatable(m, tokens)
    ensures |output| <= requested && |output| <= MAXIMUM_GENERATION_STEPS
  {
    Greedy.Cut(StepperFor(m, tokens), Limit(m, |tokens|, requested), 0, Start(m))
  }

  /** A translation is the endless greedy run, cut after its first EOS or at the limit, whichever is first. */
  lemma TranslationIsCutGreedyRun(m: Model, tokens: seq<int>, requested: nat)
    requires Translatable(m, tokens)
    ensures Greedy.IsCutRun(StepperFor(m, tokens), Start(m), 0, Limit(m, |tokens|, requested), TranslateOne(m, tokens, requested))
  {
    Greedy.CutIsPrefix(StepperFor(m, tokens), Start(m), Limit(m, |tokens|, requested), 0);
  }
}
