/**
 Encoding a padded batch (`encode`, `embedding` and `feed_forward` of `crates/marian-cpu/src/engine.rs`).
 Padding rows are computed like any other row; no active row ever depends on them.
 */
module EncodeBatch {
  import opened Base
  import opened Layout
  import opened Tensor
  import opened AttentionKernel
  import opened Transformer
  import opened PackedBatch

  // ---------------------------------------------------------------------------------- kernels on represented rows

  lemma RepresentsBlocks(flat: Vec, rows: seq<Vec>, count: nat, width: nat)
    requires Represents(flat, rows, count, width)
    ensures Blocks(flat, width, count) == rows
  {
    BlocksOfFlat(rows, width);
  }

  lemma BlocksRepresent(flat: Vec, count: nat, width: nat)
    requires |flat| == count * width
    ensures Represents(flat, Blocks(flat, width, count), count, width)
  {
    FlatOfBlocks(flat, width, count);
  }

  method Linear(a: Arithmetic, lhs: Vec, w: Matrix, bias: Option<Matrix>, count: nat, ghost rows: seq<Vec>) returns (out: Vec)
    requires w.Valid() && (bias.Some? ==> bias.value.Has(1, w.cols))
    requires Represents(lhs, rows, count, w.rows)
    ensures Represents(out, AffineRows(a, w, bias, rows), count, w.cols)
  {
    RepresentsBlocks(lhs, rows, count, w.rows);
    var r := MatMul(a, lhs, w, count, w.rows, bias);
    return r.value;
  }

  method NormResidual(a: Arithmetic, input: Vec, residual: Vec, scale: Matrix, bias: Matrix, count: nat, dim: nat,
                      ghost xs: seq<Vec>, ghost residuals: seq<Vec>)
    returns (out: Vec)
    requires scale.Has(1, dim) && bias.Has(1, dim)
    requires Represents(input, xs, count, dim) && Represents(residual, residuals, count, dim)
    ensures Represents(out, ResidualNormRows(a, scale, bias, xs, residuals), count, dim)
  {
    RepresentsBlocks(input, xs, count, dim);
    RepresentsBlocks(residual, residuals, count, dim);
    var r := ResidualLayerNorm(a, input, residual, scale, bias, count, dim);
    return r.value;
  }

  ghost function ReluRows(a: Arithmetic, rows: seq<Vec>): (z: seq<Vec>)
    ensures |z| == |rows| && forall width :: Wide(rows, width) ==> Wide(z, width)
  {
    seq(|rows|, i requires 0 <= i < |rows| => Relu(a, rows[i]))
  }

  lemma ReluRepresents(a: Arithmetic, flat: Vec, rows: seq<Vec>, count: nat, width: nat)
    requires Represents(flat, rows, count, width)
    ensures Represents(Relu(a, flat), ReluRows(a, rows), count, width)
  {
    RepresentsBlocks(flat, rows, count, width);
    BlocksRepresent(Relu(a, flat), count, width);
    forall i | 0 <= i < count ensures Blocks(Relu(a, flat), width, count)[i] == ReluRows(a, rows)[i] {
      RowFits(i, count, width);
      assert rows[i] == Block(flat, width, count, i);
    }
    assert Blocks(Relu(a, flat), width, count) == ReluRows(a, rows);
  }

  method FeedForward(m: Model, input: Vec, ffn: FeedForwardWeights, count: nat, ghost rows: seq<Vec>) returns (out: Vec)
    requires ffn.Valid(m.dim, m.ffnDim) && Represents(input, rows, count, m.dim)
    ensures Represents(out, FeedForwardRows(m, ffn, rows), count, m.dim)
  {
    var hidden := Linear(m.a, input, ffn.w1, Some(ffn.b1), count, rows);
    ghost var h := AffineRows(m.a, ffn.w1, Some(ffn.b1), rows);
    ReluRepresents(m.a, hidden, h, count, m.ffnDim);
    hidden := Relu(m.a, hidden);
    var output := Linear(m.a, hidden, ffn.w2, Some(ffn.b2), count, ReluRows(m.a, h));
    ghost var o := AffineRows(m.a, ffn.w2, Some(ffn.b2), ReluRows(m.a, h));
    out := NormResidual(m.a, output, input, ffn.normScale, ffn.normBias, count, m.dim, o, rows);
    assert ResidualNormRows(m.a, ffn.normScale, ffn.normBias, o, rows) == FeedForwardRows(m, ffn, rows);
  }

  // ---------------------------------------------------------------------------------- attention on represented rows

  /** The batch result of attention, as rows. */
  ghost function AttendedRows(m: Model, lengths: seq<nat>, queryLength: nat, keyLength: nat,
                              qs: seq<Vec>, keys: seq<Vec>, values: seq<Vec>): (z: seq<Vec>)
    requires m.Valid() && |qs| == |lengths| * queryLength && |keys| == |values| == |lengths| * keyLength
    requires Wide(qs, m.dim) && Wide(keys, m.dim) && Wide(values, m.dim)
    requires forall b :: 0 <= b < |lengths| ==> lengths[b] <= keyLength
  {
    Flat(AttendedSentences(m, lengths, queryLength, keyLength, qs, keys, values))
  }

  ghost function AttendedSentences(m: Model, lengths: seq<nat>, queryLength: nat, keyLength: nat,
                                   qs: seq<Vec>, keys: seq<Vec>, values: seq<Vec>): (z: seq<seq<Vec>>)
    requires m.Valid() && |qs| == |lengths| * queryLength && |keys| == |values| == |lengths| * keyLength
    requires Wide(qs, m.dim) && Wide(keys, m.dim) && Wide(values, m.dim)
    requires forall b :: 0 <= b < |lengths| ==> lengths[b] <= keyLength
    ensures |z| == |lengths| && Wide(z, queryLength) && forall b :: 0 <= b < |z| ==> Wide(z[b], m.dim)
  {
    seq(|lengths|, b requires 0 <= b < |lengths| =>
      (BlockWide(qs, queryLength, |lengths|, b, m.dim);
       BlockWide(keys, keyLength, |lengths|, b, m.dim);
       BlockWide(values, keyLength, |lengths|, b, m.dim);
       Attended(m, Block(qs, queryLength, |lengths|, b), Block(keys, keyLength, |lengths|, b)[..lengths[b]],
                Block(values, keyLength, |lengths|, b)[..lengths[b]])))
  }

  lemma BlockWide(rows: seq<Vec>, length: nat, count: nat, b: nat, dim: nat)
    requires |rows| == count * length && b < count && Wide(rows, dim)
    ensures Wide(Block(rows, length, count, b), dim)
  {
    RowFits(b, count, length);
  }

  method Attend(m: Model, query: Vec, key: Vec, value: Vec, lengths: seq<nat>, queryLength: nat, keyLength: nat,
                ghost qs: seq<Vec>, ghost keys: seq<Vec>, ghost values: seq<Vec>)
    returns (out: Vec)
    requires m.Valid() && forall b :: 0 <= b < |lengths| ==> 0 < lengths[b] <= keyLength
    requires Represents(query, qs, |lengths| * queryLength, m.dim)
    requires Represents(key, keys, |lengths| * keyLength, m.dim) && Represents(value, values, |lengths| * keyLength, m.dim)
    ensures Represents(out, AttendedRows(m, lengths, queryLength, keyLength, qs, keys, values), |lengths| * queryLength, m.dim)
  {
    var batch := |lengths|;
    RepresentsBlocks(query, qs, batch * queryLength, m.dim);
    RepresentsBlocks(key, keys, batch * keyLength, m.dim);
    RepresentsBlocks(value, values, batch * keyLength, m.dim);
    var r := Attention(m.a, query, key, value, lengths, batch, queryLength, keyLength, m.dim, m.heads);
    ghost var spec := AttendedSentences(m, lengths, queryLength, keyLength, qs, keys, values);
    assert AttentionSpec(m.a, query, key, value, lengths, batch, queryLength, keyLength, m.dim, m.heads) == spec;
    Untensor(r.value, spec, batch, queryLength, m.dim);
    return r.value;
  }

  /** A buffer whose tensor view is `spec` holds the rows of `spec`. */
  lemma Untensor(flat: Vec, spec: seq<seq<Vec>>, batch: nat, length: nat, dim: nat)
    requires |flat| == batch * length * dim && Tensor3(flat, batch, length, dim) == spec
    ensures Represents(flat, Flat(spec), batch * length, dim)
  {
    var rows := Blocks(flat, dim, batch * length);
    FlatOfBlocks(flat, dim, batch * length);
    FlatOfBlocks(rows, length, batch);
  }

  // ---------------------------------------------------------------------------------- the active rows of one sentence

  /** The first `length` rows of sentence `b`. */
  ghost function Active(rows: seq<Vec>, longest: nat, count: nat, b: nat, length: nat): (z: seq<Vec>)
    requires |rows| == count * longest && b < count && length <= longest
    ensures |z| == length
    ensures forall dim :: Wide(rows, dim) ==> Wide(z, dim)
  {
    forall dim | Wide(rows, dim) ensures Wide(Block(rows, longest, count, b)[..length], dim) {
      BlockWide(rows, longest, count, b, dim);
    }
    Block(rows, longest, count, b)[..length]
  }

  lemma ActiveAt(rows: seq<Vec>, longest: nat, count: nat, b: nat, length: nat, i: nat)
    requires |rows| == count * longest && b < count && length <= longest && i < length
    ensures 0 <= b * longest + i < |rows| && Active(rows, longest, count, b, length)[i] == rows[b * longest + i]
  {
    RowFits(b, count, longest);
  }

  lemma ActiveAffine(a: Arithmetic, w: Matrix, bias: Option<Matrix>, rows: seq<Vec>, longest: nat, count: nat, b: nat, length: nat)
    requires |rows| == count * longest && b < count && length <= longest && (bias.Some? ==> |bias.value.values| == w.cols)
    ensures Active(AffineRows(a, w, bias, rows), longest, count, b, length)
            == AffineRows(a, w, bias, Active(rows, longest, count, b, length))
  {
    forall i | 0 <= i < length
      ensures Active(AffineRows(a, w, bias, rows), longest, count, b, length)[i]
              == AffineRows(a, w, bias, Active(rows, longest, count, b, length))[i]
    {
      ActiveAt(rows, longest, count, b, length, i);
      ActiveAt(AffineRows(a, w, bias, rows), longest, count, b, length, i);
    }
  }

  lemma ActiveProject(m: Model, w: AttentionWeights, xs: seq<Vec>, residuals: seq<Vec>, longest: nat, count: nat, b: nat, length: nat)
    requires w.Valid(m.dim) && |xs| == |residuals| == count * longest && Wide(residuals, m.dim) && b < count && length <= longest
    ensures Active(ProjectRows(m, w, xs, residuals), longest, count, b, length)
            == ProjectRows(m, w, Active(xs, longest, count, b, length), Active(residuals, longest, count, b, length))
  {
    var all := ProjectRows(m, w, xs, residuals);
    forall i | 0 <= i < length
      ensures Active(all, longest, count, b, length)[i]
              == ProjectRows(m, w, Active(xs, longest, count, b, length), Active(residuals, longest, count, b, length))[i]
    {
      ActiveAt(xs, longest, count, b, length, i);
      ActiveAt(residuals, longest, count, b, length, i);
      ActiveAt(all, longest, count, b, length, i);
    }
  }

  lemma ActiveFeedForward(m: Model, ffn: FeedForwardWeights, rows: seq<Vec>, longest: nat, count: nat, b: nat, length: nat)
    requires ffn.Valid(m.dim, m.ffnDim) && Wide(rows, m.dim) && |rows| == count * longest && b < count && length <= longest
    ensures Active(FeedForwardRows(m, ffn, rows), longest, count, b, length)
            == FeedForwardRows(m, ffn, Active(rows, longest, count, b, length))
  {
    forall i | 0 <= i < length
      ensures Active(FeedForwardRows(m, ffn, rows), longest, count, b, length)[i]
              == FeedForwardRows(m, ffn, Active(rows, longest, count, b, length))[i]
    {
      ActiveAt(rows, longest, count, b, length, i);
      ActiveAt(FeedForwardRows(m, ffn, rows), longest, count, b, length, i);
    }
  }

  /** Attention of the batch, restricted to one sentence's active rows, is that sentence's own attention. */
  lemma ActiveAttended(m: Model, lengths: seq<nat>, longest: nat, qs: seq<Vec>, keys: seq<Vec>, values: seq<Vec>, b: nat)
    requires m.Valid() && |qs| == |keys| == |values| == |lengths| * longest
    requires Wide(qs, m.dim) && Wide(keys, m.dim) && Wide(values, m.dim)
    requires b < |lengths| && forall i :: 0 <= i < |lengths| ==> lengths[i] <= longest
    ensures |AttendedRows(m, lengths, longest, longest, qs, keys, values)| == |lengths| * longest
    ensures Active(AttendedRows(m, lengths, longest, longest, qs, keys, values), longest, |lengths|, b, lengths[b])
            == Attended(m, Active(qs, longest, |lengths|, b, lengths[b]), Active(keys, longest, |lengths|, b, lengths[b]),
                        Active(values, longest, |lengths|, b, lengths[b]))
  {
    var spec := AttendedSentences(m, lengths, longest, longest, qs, keys, values);
    FlatBlock(spec, longest, b);
  }

  // ---------------------------------------------------------------------------------- one encoder layer

  ghost predicate ActiveLayer(m: Model, layer: EncoderLayer, before: seq<Vec>, after: seq<Vec>, lengths: seq<nat>, longest: nat, b: nat)
    requires m.Valid() && layer.attention.Valid(m.dim) && layer.ffn.Valid(m.dim, m.ffnDim)
    requires |before| == |after| == |lengths| * longest && Wide(before, m.dim) && b < |lengths| && lengths[b] <= longest
  {
    Active(after, longest, |lengths|, b, lengths[b]) == EncodeLayer(m, layer, Active(before, longest, |lengths|, b, lengths[b]))
  }

  /** Layer isolation: the active rows of a sentence after a layer come from its own active rows before it. */
  lemma LayerIsolated(m: Model, layer: EncoderLayer, rows: seq<Vec>, lengths: seq<nat>, longest: nat, attended: seq<Vec>, b: nat)
    requires m.Valid() && layer.attention.Valid(m.dim) && layer.ffn.Valid(m.dim, m.ffnDim)
    requires |rows| == |lengths| * longest && Wide(rows, m.dim)
    requires b < |lengths| && forall i :: 0 <= i < |lengths| ==> lengths[i] <= longest
    requires attended == AttendedRows(m, lengths, longest, longest,
                                      AffineRows(m.a, layer.attention.wq, Some(layer.attention.bq), rows),
                                      AffineRows(m.a, layer.attention.wk, Some(layer.attention.bk), rows),
                                      AffineRows(m.a, layer.attention.wv, Some(layer.attention.bv), rows))
    ensures |attended| == |lengths| * longest
    ensures ActiveLayer(m, layer, rows, FeedForwardRows(m, layer.ffn, ProjectRows(m, layer.attention, attended, rows)), lengths, longest, b)
  {
    var w, n, length := layer.attention, |lengths|, lengths[b];
    ActiveAttended(m, lengths, longest, AffineRows(m.a, w.wq, Some(w.bq), rows), AffineRows(m.a, w.wk, Some(w.bk), rows),
                   AffineRows(m.a, w.wv, Some(w.bv), rows), b);
    ActiveAffine(m.a, w.wq, Some(w.bq), rows, longest, n, b, length);
    ActiveAffine(m.a, w.wk, Some(w.bk), rows, longest, n, b, length);
    ActiveAffine(m.a, w.wv, Some(w.bv), rows, longest, n, b, length);
    ActiveProject(m, w, attended, rows, longest, n, b, length);
    ActiveFeedForward(m, layer.ffn, ProjectRows(m, w, attended, rows), longest, n, b, length);
  }

  method EncodeLayerBatch(m: Model, layer: EncoderLayer, encoder: Vec, lengths: seq<nat>, longest: nat, ghost rows: seq<Vec>)
    returns (out: Vec, ghost after: seq<Vec>)
    requires m.Valid() && layer.attention.Valid(m.dim) && layer.ffn.Valid(m.dim, m.ffnDim)
    requires forall i :: 0 <= i < |lengths| ==> 0 < lengths[i] <= longest
    requires Represents(encoder, rows, |lengths| * longest, m.dim)
    ensures Represents(out, after, |lengths| * longest, m.dim)
    ensures forall b: nat :: b < |lengths| ==> ActiveLayer(m, layer, rows, after, lengths, longest, b)
  {
    var w, count := layer.attention, |lengths| * longest;
    var query := Linear(m.a, encoder, w.wq, Some(w.bq), count, rows);
    var key := Linear(m.a, encoder, w.wk, Some(w.bk), count, rows);
    var value := Linear(m.a, encoder, w.wv, Some(w.bv), count, rows);
    ghost var qs, ks := AffineRows(m.a, w.wq, Some(w.bq), rows), AffineRows(m.a, w.wk, Some(w.bk), rows);
    ghost var vs := AffineRows(m.a, w.wv, Some(w.bv), rows);
    var attended := Attend(m, query, key, value, lengths, longest, longest, qs, ks, vs);
    ghost var atts := AttendedRows(m, lengths, longest, longest, qs, ks, vs);
    var projected := Linear(m.a, attended, w.wo, Some(w.bo), count, atts);
    ghost var outs := AffineRows(m.a, w.wo, Some(w.bo), atts);
    var normed := NormResidual(m.a, projected, encoder, w.normScale, w.normBias, count, m.dim, outs, rows);
    ghost var ps := ProjectRows(m, w, atts, rows);
    out := FeedForward(m, normed, layer.ffn, count, ps);
    after := FeedForwardRows(m, layer.ffn, ps);
    forall b: nat | b < |lengths| ensures ActiveLayer(m, layer, rows, after, lengths, longest, b) {
      LayerIsolated(m, layer, rows, lengths, longest, atts, b);
    }
  }

  // ---------------------------------------------------------------------------------- padding and embedding

  ghost function PaddedRow(sentence: seq<int>, longest: nat): (row: seq<int>)
    requires |sentence| <= longest
    ensures |row| == longest
  {
    sentence + seq(longest - |sentence|, _ => 0)
  }

  ghost predicate Fits(sentences: seq<seq<int>>, longest: nat) {
    forall b :: 0 <= b < |sentences| ==> |sentences[b]| <= longest
  }

  ghost function PaddedRows(sentences: seq<seq<int>>, longest: nat): (rows: seq<seq<int>>)
    requires Fits(sentences, longest)
    ensures |rows| == |sentences| && Wide(rows, longest)
  {
    seq(|sentences|, b requires 0 <= b < |sentences| => PaddedRow(sentences[b], longest))
  }

  /** The first `n` rows are in place, zeros behind. */
  ghost predicate PaddedUpTo(buffer: array<int>, rows: seq<seq<int>>, longest: nat, n: nat, base: nat)
    reads buffer
  {
    && n <= |rows| && Wide(rows, longest) && base == Offset(n, longest)
    && |FlatTo(rows, n)| == base && buffer.Length == |Flat(rows)| && base <= buffer.Length
    && (forall i :: 0 <= i < base ==> buffer[i] == FlatTo(rows, n)[i])
    && (forall i :: base <= i < buffer.Length ==> buffer[i] == 0)
  }

  lemma PadStep(rows: seq<seq<int>>, longest: nat, n: nat)
    requires Wide(rows, longest) && n < |rows|
    ensures |FlatTo(rows, n)| == Offset(n, longest)
    ensures |FlatTo(rows, n + 1)| == Offset(n, longest) + longest <= |Flat(rows)|
  {
    FlatToLength(rows, longest, n);
    FlatToLength(rows, longest, n + 1);
    FlatLength(rows, longest);
    OffsetIsProduct(n, longest);
    RowFits(n, |rows|, longest);
  }

  method PadRow(padded: array<int>, tokens: seq<int>, start: nat, end: nat, longest: nat, base: nat, ghost n: nat, ghost rows: seq<seq<int>>)
    returns (next: nat)
    requires start <= end <= |tokens| && end - start <= longest
    requires PaddedUpTo(padded, rows, longest, n, base) && n < |rows| && rows[n] == PaddedRow(tokens[start..end], longest)
    modifies padded
    ensures PaddedUpTo(padded, rows, longest, n + 1, next)
  {
    PadStep(rows, longest, n);
    forall i | 0 <= i < end - start {
      padded[base + i] := tokens[start + i];
    }
    next := base + longest;
    forall i | base <= i < next ensures padded[i] == rows[n][i - base] {
      if i < base + (end - start) {
        assert padded[base + (i - base)] == tokens[start + (i - base)];
      }
    }
    assert FlatTo(rows, n + 1) == FlatTo(rows, n) + rows[n];
  }

  ghost predicate CutAt(tokens: seq<int>, offsets: seq<U32>, b: nat, sentence: seq<int>)
    requires b < |offsets| - 1
  {
    0 <= offsets[b] <= offsets[b + 1] <= |tokens| && sentence == tokens[offsets[b]..offsets[b + 1]]
  }

  /** The padded token matrix. */
  method Pad(tokens: seq<int>, offsets: seq<U32>, lengths: seq<nat>, longest: nat, ghost sentences: seq<seq<int>>)
    returns (padded: seq<int>)
    requires |lengths| == |sentences| == |offsets| - 1 && Fits(sentences, longest)
    requires forall b: nat :: b < |sentences| ==> CutAt(tokens, offsets, b, sentences[b])
    ensures padded == Flat(PaddedRows(sentences, longest))
  {
    ghost var rows := PaddedRows(sentences, longest);
    FlatLength(rows, longest);
    var buffer := new int[|lengths| * longest](_ => 0);
    var base := 0;
    for row := 0 to |lengths|
      invariant PaddedUpTo(buffer, rows, longest, row, base)
    {
      assert CutAt(tokens, offsets, row, sentences[row]);
      base := PadRow(buffer, tokens, offsets[row], offsets[row + 1], longest, base, row, rows);
    }
    return buffer[..];
  }

  ghost function EmbedRows(m: Model, padded: seq<int>, longest: nat): (rows: seq<Vec>)
    requires m.Valid() && SourceTokens(m, padded) && 0 < longest <= MAXIMUM_POSITION
    ensures |rows| == |padded| && Wide(rows, m.dim)
  {
    seq(|padded|, n requires 0 <= n < |padded| => EmbeddedRow(m, m.encoderEmbedding, padded[n], n % longest))
  }

  /** `embedding`: the position of a flat token is its offset modulo the padded width. */
  method Embedding(m: Model, padded: seq<int>, longest: nat) returns (output: Vec)
    requires m.Valid() && SourceTokens(m, padded) && 0 < longest <= MAXIMUM_POSITION
    ensures Represents(output, EmbedRows(m, padded, longest), |padded|, m.dim)
  {
    ghost var rows := EmbedRows(m, padded, longest);
    output := [];
    for n := 0 to |padded|
      invariant output == FlatTo(rows, n)
    {
      output := output + EmbeddedRow(m, m.encoderEmbedding, padded[n], n % longest);
    }
    FlatLength(rows, m.dim);
  }

  lemma ProductGap(p: nat, q: nat, width: nat)
    requires p < q
    ensures p * width + width <= q * width
  {
    assert (p + 1) * width <= q * width;
  }

  lemma RemainderUnique(q: nat, r: nat, quotient: nat, rest: nat, width: nat)
    requires r < width && rest < width && q * width + r == quotient * width + rest
    ensures r == rest
  {
    if q < quotient { ProductGap(q, quotient, width); }
    if quotient < q { ProductGap(quotient, q, width); }
  }

  lemma PositionOf(b: nat, longest: nat, i: nat)
    requires i < longest
    ensures (b * longest + i) % longest == i
  {
    var x := b * longest + i;
    assert x == (x / longest) * longest + x % longest;
    RemainderUnique(b, i, x / longest, x % longest, longest);
  }

  lemma PaddedTokens(m: Model, sentences: seq<seq<int>>, longest: nat)
    requires Fits(sentences, longest) && m.sourceVocab > 0
    requires forall b :: 0 <= b < |sentences| ==> SourceTokens(m, sentences[b])
    ensures SourceTokens(m, Flat(PaddedRows(sentences, longest)))
  {
    PaddedTokensTo(m, sentences, longest, |sentences|);
  }

  lemma {:induction false} PaddedTokensTo(m: Model, sentences: seq<seq<int>>, longest: nat, n: nat)
    requires Fits(sentences, longest) && m.sourceVocab > 0 && n <= |sentences|
    requires forall b :: 0 <= b < |sentences| ==> SourceTokens(m, sentences[b])
    ensures SourceTokens(m, FlatTo(PaddedRows(sentences, longest), n))
  {
    if n > 0 { PaddedTokensTo(m, sentences, longest, n - 1); }
  }

  /** A sentence's active embedding rows are its own embedding: padding shifts no position. */
  lemma EmbeddingIsolated(m: Model, sentences: seq<seq<int>>, longest: nat, b: nat)
    requires m.Valid() && Fits(sentences, longest) && 0 < longest <= MAXIMUM_POSITION && b < |sentences|
    requires forall b :: 0 <= b < |sentences| ==> SourceTokens(m, sentences[b])
    requires SourceTokens(m, Flat(PaddedRows(sentences, longest)))
    ensures |Flat(PaddedRows(sentences, longest))| == |sentences| * longest
    ensures Active(EmbedRows(m, Flat(PaddedRows(sentences, longest)), longest), longest, |sentences|, b, |sentences[b]|)
            == Embed(m, sentences[b])
  {
    var padded := Flat(PaddedRows(sentences, longest));
    FlatLength(PaddedRows(sentences, longest), longest);
    var embedded := EmbedRows(m, padded, longest);
    forall i: nat | i < |sentences[b]|
      ensures Active(embedded, longest, |sentences|, b, |sentences[b]|)[i] == Embed(m, sentences[b])[i]
    {
      ActiveAt(embedded, longest, |sentences|, b, |sentences[b]|, i);
      PaddedAt(sentences, longest, b, i, b * longest + i);
      PositionOf(b, longest, i);
    }
  }

  lemma PaddedAt(sentences: seq<seq<int>>, longest: nat, b: nat, i: nat, n: nat)
    requires Fits(sentences, longest) && b < |sentences| && i < |sentences[b]| && n == b * longest + i
    ensures n < |Flat(PaddedRows(sentences, longest))| && Flat(PaddedRows(sentences, longest))[n] == sentences[b][i]
  {
    var rows := PaddedRows(sentences, longest);
    FlatBlock(rows, longest, b);
    RowFits(b, |sentences|, longest);
    assert Block(Flat(rows), longest, |sentences|, b)[i] == Flat(rows)[n];
  }

  // ---------------------------------------------------------------------------------- the whole encoder

  datatype CrossCache = CrossCache(key: Vec, value: Vec)

  datatype EncodedBatch = EncodedBatch(sourceLength: nat, lengths: seq<nat>, cross: seq<CrossCache>)

  ghost predicate EncodedTo(m: Model, rows: seq<Vec>, sentences: seq<seq<int>>, longest: nat, n: nat, b: nat)
    requires m.Valid() && n <= |m.encoder| && |rows| == |sentences| * longest && longest <= MAXIMUM_POSITION
    requires b < |sentences| && |sentences[b]| <= longest && SourceTokens(m, sentences[b])
  {
    Active(rows, longest, |sentences|, b, |sentences[b]|) == EncodeLayers(m, n, Embed(m, sentences[b]))
  }

  ghost predicate AllEncodedTo(m: Model, rows: seq<Vec>, sentences: seq<seq<int>>, longest: nat, n: nat) {
    && SentencesOk(m, sentences, longest) && n <= |m.encoder| && |rows| == |sentences| * longest
    && forall b: nat :: b < |sentences| ==> EncodedTo(m, rows, sentences, longest, n, b)
  }

  ghost predicate SentencesOk(m: Model, sentences: seq<seq<int>>, longest: nat) {
    && m.Valid() && 0 < longest <= MAXIMUM_SOURCE_LENGTH && Fits(sentences, longest)
    && forall b :: 0 <= b < |sentences| ==> 0 < |sentences[b]| && SourceTokens(m, sentences[b])
  }

  /** The key and value rows of decoder layer `l`, and what they mean for each sentence. */
  ghost predicate CrossOk(m: Model, cache: CrossCache, l: nat, sentences: seq<seq<int>>, longest: nat)
    requires SentencesOk(m, sentences, longest) && l < |m.decoder|
  {
    && |cache.key| == |cache.value| == |sentences| * longest * m.dim
    && forall b: nat :: b < |sentences| ==> CrossRowOk(m, cache, l, sentences, longest, b)
  }

  ghost predicate CrossRowOk(m: Model, cache: CrossCache, l: nat, sentences: seq<seq<int>>, longest: nat, b: nat)
    requires SentencesOk(m, sentences, longest) && l < |m.decoder| && b < |sentences|
    requires |cache.key| == |cache.value| == |sentences| * longest * m.dim
  {
    var count := |sentences| * longest;
    Memory(Active(Blocks(cache.key, m.dim, count), longest, |sentences|, b, |sentences[b]|),
           Active(Blocks(cache.value, m.dim, count), longest, |sentences|, b, |sentences[b]|))
    == MemoryAt(m, l, EncodeSentence(m, sentences[b]))
  }

  method EncodeAll(m: Model, padded: seq<int>, lengths: seq<nat>, longest: nat, ghost sentences: seq<seq<int>>)
    returns (encoder: Vec, ghost rows: seq<Vec>)
    requires SentencesOk(m, sentences, longest) && padded == Flat(PaddedRows(sentences, longest))
    requires |lengths| == |sentences| && forall b :: 0 <= b < |lengths| ==> lengths[b] == |sentences[b]|
    ensures Represents(encoder, rows, |sentences| * longest, m.dim)
    ensures AllEncodedTo(m, rows, sentences, longest, |m.encoder|)
  {
    encoder, rows := EmbedBatch(m, padded, longest, sentences);
    var l: nat := 0;
    while l < |m.encoder|
      invariant l <= |m.encoder| && Represents(encoder, rows, |sentences| * longest, m.dim)
      invariant AllEncodedTo(m, rows, sentences, longest, l)
    {
      encoder, rows, l := EncodeNext(m, l, encoder, lengths, longest, rows, sentences);
    }
  }

  method EmbedBatch(m: Model, padded: seq<int>, longest: nat, ghost sentences: seq<seq<int>>)
    returns (encoder: Vec, ghost rows: seq<Vec>)
    requires SentencesOk(m, sentences, longest) && padded == Flat(PaddedRows(sentences, longest))
    ensures Represents(encoder, rows, |sentences| * longest, m.dim)
    ensures AllEncodedTo(m, rows, sentences, longest, 0)
  {
    PaddedTokens(m, sentences, longest);
    FlatLength(PaddedRows(sentences, longest), longest);
    encoder := Embedding(m, padded, longest);
    rows := EmbedRows(m, padded, longest);
    forall b: nat | b < |sentences| ensures EncodedTo(m, rows, sentences, longest, 0, b) {
      EmbeddingIsolated(m, sentences, longest, b);
    }
  }

  method EncodeNext(m: Model, l: nat, encoder: Vec, lengths: seq<nat>, longest: nat, ghost rows: seq<Vec>, ghost sentences: seq<seq<int>>)
    returns (out: Vec, ghost after: seq<Vec>, next: nat)
    requires SentencesOk(m, sentences, longest) && l < |m.encoder|
    requires |lengths| == |sentences| && forall b :: 0 <= b < |lengths| ==> lengths[b] == |sentences[b]|
    requires Represents(encoder, rows, |sentences| * longest, m.dim)
    requires AllEncodedTo(m, rows, sentences, longest, l)
    ensures Represents(out, after, |sentences| * longest, m.dim)
    ensures next == l + 1 && AllEncodedTo(m, after, sentences, longest, next)
  {
    out, after := EncodeLayerBatch(m, m.encoder[l], encoder, lengths, longest, rows);
    next := l + 1;
    forall b: nat | b < |sentences| ensures EncodedTo(m, after, sentences, longest, next, b) {
      assert EncodedTo(m, rows, sentences, longest, l, b);
      assert ActiveLayer(m, m.encoder[l], rows, after, lengths, longest, b);
    }
  }

  method CrossLayer(m: Model, l: nat, encoder: Vec, count: nat, longest: nat, ghost rows: seq<Vec>, ghost sentences: seq<seq<int>>)
    returns (cache: CrossCache)
    requires SentencesOk(m, sentences, longest) && l < |m.decoder| && count == |sentences| * longest
    requires Represents(encoder, rows, count, m.dim)
    requires AllEncodedTo(m, rows, sentences, longest, |m.encoder|)
    ensures CrossOk(m, cache, l, sentences, longest)
  {
    var w := m.decoder[l].context;
    var key := Linear(m.a, encoder, w.wk, Some(w.bk), count, rows);
    var value := Linear(m.a, encoder, w.wv, Some(w.bv), count, rows);
    cache := CrossCache(key, value);
    RepresentsBlocks(key, AffineRows(m.a, w.wk, Some(w.bk), rows), count, m.dim);
    RepresentsBlocks(value, AffineRows(m.a, w.wv, Some(w.bv), rows), count, m.dim);
    forall b: nat | b < |sentences| ensures CrossRowOk(m, cache, l, sentences, longest, b) {
      assert EncodedTo(m, rows, sentences, longest, |m.encoder|, b);
      ActiveAffine(m.a, w.wk, Some(w.bk), rows, longest, |sentences|, b, |sentences[b]|);
      ActiveAffine(m.a, w.wv, Some(w.bv), rows, longest, |sentences|, b, |sentences[b]|);
    }
  }

  method CrossLayers(m: Model, encoder: Vec, count: nat, longest: nat, ghost rows: seq<Vec>, ghost sentences: seq<seq<int>>)
    returns (cross: seq<CrossCache>)
    requires SentencesOk(m, sentences, longest) && count == |sentences| * longest
    requires Represents(encoder, rows, count, m.dim)
    requires AllEncodedTo(m, rows, sentences, longest, |m.encoder|)
    ensures |cross| == |m.decoder| && forall l :: 0 <= l < |m.decoder| ==> CrossOk(m, cross[l], l, sentences, longest)
  {
    cross := [];
    for l := 0 to |m.decoder|
      invariant |cross| == l
      invariant forall k :: 0 <= k < l ==> CrossOk(m, cross[k], k, sentences, longest)
    {
      var cache := CrossLayer(m, l, encoder, count, longest, rows, sentences);
      cross := cross + [cache];
    }
  }

  /** `encode`, from the packed tokens to the cross-attention caches. */
  method Encode(m: Model, tokens: seq<int>, offsets: seq<U32>, ghost limits: seq<nat>, ghost sentences: seq<seq<int>>)
    returns (encoded: EncodedBatch)
    requires Accepted(m, tokens, offsets, limits) && sentences == Sentences(m, tokens, offsets, limits)
    requires SentencesOk(m, sentences, Longest(Lengths(offsets)))
    ensures encoded.sourceLength == Longest(Lengths(offsets))
    ensures |encoded.lengths| == |sentences| && forall b :: 0 <= b < |sentences| ==> encoded.lengths[b] == |sentences[b]|
    ensures |encoded.cross| == |m.decoder|
    ensures forall l :: 0 <= l < |m.decoder| ==> CrossOk(m, encoded.cross[l], l, sentences, encoded.sourceLength)
  {
    var lengths := Lengths(offsets);
    var longest := Longest(lengths);
    forall b: nat | b < |sentences| ensures CutAt(tokens, offsets, b, sentences[b]) && lengths[b] == |sentences[b]| {
      assert IsRow(m, tokens, offsets, b, sentences[b]);
    }
    var padded := Pad(tokens, offsets, lengths, longest, sentences);
    var encoder; ghost var rows;
    encoder, rows := EncodeAll(m, padded, lengths, longest, sentences);
    var cross := CrossLayers(m, encoder, |lengths| * longest, longest, rows, sentences);
    return EncodedBatch(longest, lengths, cross);
  }
}
