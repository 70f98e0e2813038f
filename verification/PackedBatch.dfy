/**
 Packed batches of sentences (`crates/marian-cpu/src/engine.rs`): their validation, what the engine is to
 return for them, and what it means for padded rows to keep every sentence apart.
 */
module PackedBatch {
  import opened Base
  import opened Layout
  import opened Tensor
  import opened AttentionKernel
  import opened Transformer
  import Shortlist

  datatype Error = InvalidOffsets | BatchTooLarge | LimitsMismatch | EmptyInput | SourceTooLong | TooManyCells
                 | TokenOutOfVocabulary | OutputTooLong | Candidates(cause: Shortlist.Error) | Shape(shape: ShapeError)

  datatype BatchOutput = BatchOutput(tokens: seq<nat>, offsets: seq<nat>)

  // ---------------------------------------------------------------------------------- packed batches

  function Gap(offsets: seq<U32>, b: nat): int
    requires b < |offsets| - 1
  {
    var start: int, end: int := offsets[b], offsets[b + 1];
    end - start
  }

  function Lengths(offsets: seq<U32>): (lengths: seq<int>)
    ensures |offsets| > 0 ==> |lengths| == |offsets| - 1
  {
    if |offsets| == 0 then [] else seq(|offsets| - 1, b requires 0 <= b < |offsets| - 1 => Gap(offsets, b))
  }

  function Longest(lengths: seq<int>): (longest: nat)
    ensures forall b :: 0 <= b < |lengths| ==> lengths[b] <= longest
    ensures longest > 0 ==> longest in lengths
  {
    if lengths == [] then 0 else Max(Longest(lengths[..|lengths| - 1]), lengths[|lengths| - 1])
  }

  function Cells(rows: nat, longest: nat): nat {
    rows * longest * longest
  }

  predicate NonEmpty(offsets: seq<U32>, b: nat)
    requires b < |offsets| - 1
  {
    offsets[b] < offsets[b + 1]
  }

  /** `validate_batch`, check by check. */
  function Validate(m: Model, tokens: seq<int>, offsets: seq<U32>, limits: seq<nat>): Option<Error> {
    if |offsets| < 2 || offsets[0] != 0 || offsets[|offsets| - 1] != |tokens| then Some(InvalidOffsets)
    else if |offsets| - 1 > MAXIMUM_ENGINE_BATCH then Some(BatchTooLarge)
    else if |limits| != |offsets| - 1 then Some(LimitsMismatch)
    else if exists b: nat :: b < |offsets| - 1 && !NonEmpty(offsets, b) then Some(EmptyInput)
    else if Longest(Lengths(offsets)) > MAXIMUM_SOURCE_LENGTH then Some(SourceTooLong)
    else if Cells(|offsets| - 1, Longest(Lengths(offsets))) > MAXIMUM_PADDED_ATTENTION_CELLS then Some(TooManyCells)
    else if !SourceTokens(m, tokens) then Some(TokenOutOfVocabulary)
    else None
  }

  ghost predicate Accepted(m: Model, tokens: seq<int>, offsets: seq<U32>, limits: seq<nat>) {
    m.Valid() && Validate(m, tokens, offsets, limits).None?
  }

  lemma {:induction false} OffsetsIncrease(offsets: seq<U32>, i: nat, j: nat)
    requires i <= j < |offsets| && forall b: nat :: b < |offsets| - 1 ==> NonEmpty(offsets, b)
    ensures offsets[i] <= offsets[j]
  {
    if i < j {
      OffsetsIncrease(offsets, i, j - 1);
      assert NonEmpty(offsets, j - 1);
    }
  }

  lemma AcceptedOffsets(m: Model, tokens: seq<int>, offsets: seq<U32>, limits: seq<nat>, b: nat)
    requires Accepted(m, tokens, offsets, limits) && b < |offsets| - 1
    ensures 0 <= offsets[b] < offsets[b + 1] <= |tokens|
    ensures 0 < Lengths(offsets)[b] == offsets[b + 1] - offsets[b] <= Longest(Lengths(offsets)) <= MAXIMUM_SOURCE_LENGTH
  {
    OffsetsIncrease(offsets, 0, b);
    OffsetsIncrease(offsets, b + 1, |offsets| - 1);
    assert NonEmpty(offsets, b);
  }

  /** Row `b` of an accepted batch. */
  ghost predicate IsRow(m: Model, tokens: seq<int>, offsets: seq<U32>, b: nat, sentence: seq<int>)
    requires b < |offsets| - 1
  {
    && 0 <= offsets[b] < offsets[b + 1] <= |tokens| && sentence == tokens[offsets[b]..offsets[b + 1]]
    && |sentence| == Lengths(offsets)[b] <= Longest(Lengths(offsets)) <= MAXIMUM_SOURCE_LENGTH
    && SourceTokens(m, sentence)
  }

  ghost function Sentence(m: Model, tokens: seq<int>, offsets: seq<U32>, limits: seq<nat>, b: nat): (s: seq<int>)
    requires Accepted(m, tokens, offsets, limits) && b < |offsets| - 1
    ensures IsRow(m, tokens, offsets, b, s)
  {
    AcceptedOffsets(m, tokens, offsets, limits, b);
    tokens[offsets[b]..offsets[b + 1]]
  }

  /** The rows of an accepted batch. */
  ghost function Sentences(m: Model, tokens: seq<int>, offsets: seq<U32>, limits: seq<nat>): (sentences: seq<seq<int>>)
    requires Accepted(m, tokens, offsets, limits)
    ensures |sentences| == |limits| == |offsets| - 1 > 0
    ensures forall b :: 0 <= b < |sentences| ==> IsRow(m, tokens, offsets, b, sentences[b])
  {
    seq(|offsets| - 1, b requires 0 <= b < |offsets| - 1 => Sentence(m, tokens, offsets, limits, b))
  }

  function Pack(sentences: seq<seq<nat>>): BatchOutput {
    BatchOutput(Flat(sentences), seq(|sentences| + 1, i requires 0 <= i <= |sentences| => |FlatTo(sentences, i)|))
  }

  lemma {:induction false} PackedRowTo(sentences: seq<seq<nat>>, n: nat, b: nat)
    requires b < n <= |sentences|
    ensures |FlatTo(sentences, b)| <= |FlatTo(sentences, b + 1)| <= |FlatTo(sentences, n)|
    ensures FlatTo(sentences, n)[|FlatTo(sentences, b)|..|FlatTo(sentences, b + 1)|] == sentences[b]
  {
    if b + 1 < n {
      PackedRowTo(sentences, n - 1, b);
      var start, end := |FlatTo(sentences, b)|, |FlatTo(sentences, b + 1)|;
      assert FlatTo(sentences, n)[start..end] == FlatTo(sentences, n - 1)[start..end];
    }
  }

  /** The offsets of a packed output delimit its rows. */
  lemma PackedRow(sentences: seq<seq<nat>>, b: nat)
    requires b < |sentences|
    ensures var out := Pack(sentences);
            && |out.offsets| == |sentences| + 1
            && out.offsets[b] <= out.offsets[b + 1] <= |out.tokens|
            && out.tokens[out.offsets[b]..out.offsets[b + 1]] == sentences[b]
  {
    PackedRowTo(sentences, |sentences|, b);
  }

  lemma {:induction false} PackedSize(sentences: seq<seq<nat>>, n: nat, bound: nat)
    requires n <= |sentences| && forall b :: 0 <= b < |sentences| ==> |sentences[b]| <= bound
    ensures |FlatTo(sentences, n)| <= n * bound
  {
    if n > 0 {
      PackedSize(sentences, n - 1, bound);
      RowFits(n - 1, n, bound);
    }
  }

  ghost function CandidateLists(t: Shortlist.Table, sentences: seq<seq<int>>): (lists: seq<Result<seq<nat>, Shortlist.Error>>)
    requires t.Valid()
    ensures |lists| == |sentences|
  {
    seq(|sentences|, b requires 0 <= b < |sentences| => Shortlist.CandidatesOf(t, sentences[b]))
  }

  ghost predicate AllOk<T, E>(results: seq<Result<T, E>>, n: nat)
    requires n <= |results|
  {
    forall b :: 0 <= b < n ==> results[b].Ok?
  }

  /** The first sentence without a candidate list fails the whole batch. */
  ghost function FirstError<T, E>(results: seq<Result<T, E>>, n: nat): (e: Option<E>)
    requires n <= |results|
    ensures e.None? <==> AllOk(results, n)
  {
    if n == 0 then None
    else
      var e := FirstError(results, n - 1);
      if e.Some? then e else if results[n - 1].Err? then Some(results[n - 1].error) else None
  }

  /** What the engine computes: each row alone, packed. */
  ghost function Run(m: Model, tokens: seq<int>, offsets: seq<U32>, limits: seq<nat>): (r: Result<BatchOutput, Error>)
    requires m.Valid()
  {
    if Validate(m, tokens, offsets, limits).Some? then Err(Validate(m, tokens, offsets, limits).value)
    else
      var sentences := Sentences(m, tokens, offsets, limits);
      var e := FirstError(CandidateLists(m.shortlist, sentences), |sentences|);
      if e.Some? then Err(Candidates(e.value))
      else Ok(Pack(Translations(m, sentences, limits)))
  }

  ghost function Translations(m: Model, sentences: seq<seq<int>>, limits: seq<nat>): (outputs: seq<seq<nat>>)
    requires m.Valid() && |sentences| == |limits| && AllOk(CandidateLists(m.shortlist, sentences), |sentences|)
    requires forall b :: 0 <= b < |sentences| ==> SourceTokens(m, sentences[b]) && |sentences[b]| <= MAXIMUM_SOURCE_LENGTH
    ensures |outputs| == |sentences| && forall b :: 0 <= b < |outputs| ==> |outputs[b]| <= MAXIMUM_GENERATION_STEPS
  {
    var lists := CandidateLists(m.shortlist, sentences);
    assert forall b :: 0 <= b < |sentences| ==> lists[b].Ok?;
    seq(|sentences|, b requires 0 <= b < |sentences| => (assert lists[b].Ok?; TranslateOne(m, sentences[b], limits[b])))
  }

  // ---------------------------------------------------------------------------------- flat buffers and their rows

  /** A flat buffer and the rows it holds. */
  ghost predicate Represents(flat: Vec, rows: seq<Vec>, count: nat, width: nat) {
    |rows| == count && Wide(rows, width) && |flat| == count * width && flat == Flat(rows)
  }
}
