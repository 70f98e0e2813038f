/**
 The batched FP32 executor (`translate_token_ids` of `crates/marian-cpu/src/engine.rs`): all rows are encoded
 together and decoded in lock step, yet each row's output is what it would be alone.
 */
module Engine {
  import opened Base
  import opened Layout
  import opened Tensor
  import opened Transformer
  import opened PackedBatch
  import opened EncodeBatch
  import opened DecodeBatch
  import opened LayerStack
  import Greedy
  import Shortlist

  type Next = (Cursor, nat) -> (nat, Cursor)

  // ---------------------------------------------------------------------------------- one row of the step loop

  /** What a row of the loop still owes: its final output is what it has plus what greedy decoding adds. */
  ghost predicate RowOwes(next: Next, limit: nat, full: seq<nat>, step: nat, previous: int, states: seq<Vec>,
                          finished: bool, generated: seq<nat>) {
    if finished then generated == full
    else generated + Greedy.Cut(next, limit, step, Cursor(previous, states)) == full
  }

  lemma RowStops(next: Next, limit: nat, full: seq<nat>, step: nat, previous: int, states: seq<Vec>, finished: bool, generated: seq<nat>)
    requires RowOwes(next, limit, full, step, previous, states, finished, generated) && step >= limit
    ensures generated == full
  {
    assert generated + [] == generated;
  }

  lemma RowAdvances(next: Next, limit: nat, full: seq<nat>, step: nat, previous: int, states: seq<Vec>, generated: seq<nat>,
                    token: nat, after: seq<Vec>, later: nat)
    requires RowOwes(next, limit, full, step, previous, states, false, generated) && step < limit && later == step + 1
    requires next(Cursor(previous, states), step) == (token, Cursor(token, after))
    ensures RowOwes(next, limit, full, later, token, after, token == 0, generated + [token])
  {
    var rest := Greedy.Cut(next, limit, later, Cursor(token, after));
    assert generated + [token] + rest == generated + ([token] + rest);
  }

  // ---------------------------------------------------------------------------------- all rows

  /** The loop variables of a batch, as values. */
  datatype Rows = Rows(previous: seq<int>, finished: seq<bool>, generated: seq<seq<nat>>)

  ghost predicate Sized(rows: Rows, batch: nat) {
    |rows.previous| == |rows.finished| == |rows.generated| == batch
  }

  ghost predicate Owe(nexts: seq<Next>, limits: seq<nat>, fulls: seq<seq<nat>>, step: nat, rows: Rows, layers: seq<seq<Vec>>) {
    && |nexts| == |limits| == |fulls| && Sized(rows, |limits|) && StateShape(layers, |layers|, |limits|)
    && forall r :: 0 <= r < |limits| ==>
         RowOwes(nexts[r], limits[r], fulls[r], step, rows.previous[r], Column(layers, r), rows.finished[r], rows.generated[r])
  }

  /** Rows at their limit are finished before the step. */
  method MarkFinished(limits: seq<nat>, step: nat, rows: Rows) returns (marked: Rows)
    requires Sized(rows, |limits|)
    ensures Sized(marked, |limits|) && marked.previous == rows.previous && marked.generated == rows.generated
    ensures forall r :: 0 <= r < |limits| ==> (marked.finished[r] <==> rows.finished[r] || step >= limits[r])
  {
    var finished := rows.finished;
    for row := 0 to |limits|
      invariant |finished| == |limits|
      invariant forall r :: 0 <= r < row ==> (finished[r] <==> rows.finished[r] || step >= limits[r])
      invariant forall r :: row <= r < |limits| ==> finished[r] == rows.finished[r]
    {
      if !finished[row] && step >= limits[row] {
        finished := finished[row := true];
      }
    }
    return rows.(finished := finished);
  }

  lemma MarkingKeeps(nexts: seq<Next>, limits: seq<nat>, fulls: seq<seq<nat>>, step: nat, rows: Rows, marked: Rows, layers: seq<seq<Vec>>)
    requires Owe(nexts, limits, fulls, step, rows, layers) && Sized(marked, |limits|)
    requires marked.previous == rows.previous && marked.generated == rows.generated
    requires forall r :: 0 <= r < |limits| ==> (marked.finished[r] <==> rows.finished[r] || step >= limits[r])
    ensures Owe(nexts, limits, fulls, step, marked, layers)
  {
    forall r | 0 <= r < |limits|
      ensures RowOwes(nexts[r], limits[r], fulls[r], step, marked.previous[r], Column(layers, r), marked.finished[r], marked.generated[r])
    {
      if step >= limits[r] {
        RowStops(nexts[r], limits[r], fulls[r], step, rows.previous[r], Column(layers, r), rows.finished[r], rows.generated[r]);
      }
    }
  }

  /** What the choice of tokens does to each row. */
  ghost predicate Chosen(m: Model, candidates: seq<seq<nat>>, zs: seq<Vec>, rows: Rows, next: Rows)
    requires m.Valid() && Sized(rows, |candidates|) && Sized(next, |candidates|) && |zs| == |candidates|
    requires Wide(zs, m.dim) && forall r :: 0 <= r < |candidates| ==> CandidatesOk(m, candidates[r])
  {
    forall r :: 0 <= r < |candidates| ==>
      if rows.finished[r]
      then next.previous[r] == rows.previous[r] && next.finished[r] && next.generated[r] == rows.generated[r]
      else
        var token := Select(m, zs[r], candidates[r]);
        next.previous[r] == token && next.finished[r] == (token == 0) && next.generated[r] == rows.generated[r] + [token]
  }

  method ChooseTokens(m: Model, decoder: Vec, candidates: seq<seq<nat>>, rows: Rows, ghost zs: seq<Vec>) returns (next: Rows)
    requires m.Valid() && Sized(rows, |candidates|) && Represents(decoder, zs, |candidates|, m.dim)
    requires forall r :: 0 <= r < |candidates| ==> CandidatesOk(m, candidates[r])
    ensures Sized(next, |candidates|) && Chosen(m, candidates, zs, rows, next)
  {
    RepresentsBlocks(decoder, zs, |candidates|, m.dim);
    var previous, finished, generated := rows.previous, rows.finished, rows.generated;
    for row := 0 to |candidates|
      invariant |previous| == |finished| == |generated| == |candidates|
      invariant forall r :: row <= r < |candidates| ==>
                  previous[r] == rows.previous[r] && finished[r] == rows.finished[r] && generated[r] == rows.generated[r]
      invariant forall r :: 0 <= r < row ==>
                  if rows.finished[r]
                  then previous[r] == rows.previous[r] && finished[r] && generated[r] == rows.generated[r]
                  else
                    var token := Select(m, zs[r], candidates[r]);
                    previous[r] == token && finished[r] == (token == 0) && generated[r] == rows.generated[r] + [token]
    {
      if !finished[row] {
        var hidden := Block(decoder, m.dim, |candidates|, row);
        assert hidden == Blocks(decoder, m.dim, |candidates|)[row] == zs[row];
        var r := SelectToken(m, hidden, candidates[row]);
        var token := r.value;
        previous := previous[row := token];
        generated := generated[row := generated[row] + [token]];
        if token == 0 {
          finished := finished[row := true];
        }
      }
    }
    return Rows(previous, finished, generated);
  }

  // ---------------------------------------------------------------------------------- one step of the batch

  /** A stepper taken one step, spelled out. */
  lemma StepperStep(m: Model, f: Layer<Scalar>, candidates: seq<nat>, c: Cursor, step: nat, z: Vec, after: seq<Vec>)
    requires CursorOk(m, c) && KeepsWidth(f, m.dim) && CandidatesOk(m, candidates) && step < MAXIMUM_POSITION
    requires z == Through(f, |c.states|, DecoderRow(m, c.previous, step), c.states)
    requires after == StatesThrough(f, |c.states|, DecoderRow(m, c.previous, step), c.states)
    ensures |z| == m.dim
    ensures var token := Select(m, z, candidates); Stepper(m, f, candidates)(c, step) == (token, Cursor(token, after))
  {
    ThroughWide(f, m.dim, |c.states|, DecoderRow(m, c.previous, step), c.states);
    assert Stepper(m, f, candidates)(c, step) == DecodeStep(m, f, candidates, c, step);
  }

  ghost predicate Steppers(m: Model, fs: seq<Layer<Scalar>>, candidates: seq<seq<nat>>, nexts: seq<Next>) {
    && |fs| == |candidates| == |nexts|
    && forall r :: 0 <= r < |nexts| ==>
         nexts[r] == Stepper(m, fs[r], candidates[r]) && KeepsWidth(fs[r], m.dim) && CandidatesOk(m, candidates[r])
  }

  ghost predicate LayersWide(m: Model, layers: seq<seq<Vec>>) {
    |layers| == |m.decoder| && forall l :: 0 <= l < |layers| ==> Wide(layers[l], m.dim)
  }

  lemma RowKeeps(m: Model, f: Layer<Scalar>, candidates: seq<nat>, next: Next, limit: nat, full: seq<nat>, step: nat, later: nat,
                 previous: int, states: seq<Vec>, generated: seq<nat>, z: Vec, after: seq<Vec>)
    requires CursorOk(m, Cursor(previous, states)) && KeepsWidth(f, m.dim) && CandidatesOk(m, candidates)
    requires next == Stepper(m, f, candidates) && step < limit && step < MAXIMUM_POSITION && later == step + 1
    requires RowOwes(next, limit, full, step, previous, states, false, generated)
    requires z == Through(f, |states|, DecoderRow(m, previous, step), states)
    requires after == StatesThrough(f, |states|, DecoderRow(m, previous, step), states)
    ensures |z| == m.dim
    ensures var token := Select(m, z, candidates);
            RowOwes(next, limit, full, later, token, after, token == 0, generated + [token])
  {
    StepperStep(m, f, candidates, Cursor(previous, states), step, z, after);
    RowAdvances(next, limit, full, step, previous, states, generated, Select(m, z, candidates), after, later);
  }

  /** Token choice keeps the debt of every row. */
  lemma StepKeeps(m: Model, fs: seq<Layer<Scalar>>, candidates: seq<seq<nat>>, nexts: seq<Next>, limits: seq<nat>, fulls: seq<seq<nat>>,
                  step: nat, later: nat, rows: Rows, layers: seq<seq<Vec>>, zs: seq<Vec>, after: seq<seq<Vec>>, next: Rows)
    requires m.Valid() && Steppers(m, fs, candidates, nexts) && step < MAXIMUM_POSITION && later == step + 1
    requires Owe(nexts, limits, fulls, step, rows, layers) && PreviousOk(m, rows.previous) && LayersWide(m, layers)
    requires forall r :: 0 <= r < |limits| ==> rows.finished[r] || step < limits[r]
    requires BatchAfter(fs, |m.decoder|, DecoderRows(m, rows.previous, step), layers, zs, after)
    requires Wide(zs, m.dim) && Sized(next, |limits|) && Chosen(m, candidates, zs, rows, next)
    ensures Owe(nexts, limits, fulls, later, next, after) && PreviousOk(m, next.previous)
  {
    forall r | 0 <= r < |limits|
      ensures RowOwes(nexts[r], limits[r], fulls[r], later, next.previous[r], Column(after, r), next.finished[r], next.generated[r])
              && next.previous[r] < m.decoderEmbedding.rows
    {
      if !rows.finished[r] {
        RowKeeps(m, fs[r], candidates[r], nexts[r], limits[r], fulls[r], step, later, rows.previous[r], Column(layers, r),
                 rows.generated[r], zs[r], Column(after, r));
      }
    }
  }

  // ---------------------------------------------------------------------------------- the step loop

  ghost function ZeroLayers(m: Model, count: nat, batch: nat): (layers: seq<seq<Vec>>)
    ensures StateShape(layers, count, batch)
  {
    seq(count, _ => seq(batch, _ => Zeros(m.a, m.dim)))
  }

  lemma ZeroBlocks(m: Model, flat: Vec, batch: nat)
    requires |flat| == batch * m.dim && forall i :: 0 <= i < |flat| ==> flat[i] == m.a.zero
    ensures HoldsRows(flat, seq(batch, _ => Zeros(m.a, m.dim)), m.dim)
  {
    forall r: nat | r < batch ensures Block(flat, m.dim, batch, r) == Zeros(m.a, m.dim) {
      RowFits(r, batch, m.dim);
    }
  }

  /** One zeroed buffer per decoder layer. */
  method NewStates(m: Model, batch: nat) returns (states: seq<array<Scalar>>)
    ensures |states| == |m.decoder| && Hold(states, ZeroLayers(m, |m.decoder|, batch), m.dim)
    ensures forall l :: 0 <= l < |states| ==> fresh(states[l])
  {
    states := [];
    for l := 0 to |m.decoder|
      invariant |states| == l && forall k :: 0 <= k < l ==> fresh(states[k])
      invariant Hold(states, ZeroLayers(m, l, batch), m.dim)
    {
      var state := new Scalar[batch * m.dim](_ => m.a.zero);
      ZeroBlocks(m, state[..], batch);
      states := states + [state];
    }
  }

  /** The step loop between two steps. */
  ghost predicate LoopOk(m: Model, nexts: seq<Next>, limits: seq<nat>, fulls: seq<seq<nat>>, step: nat, rows: Rows,
                         states: seq<array<Scalar>>, layers: seq<seq<Vec>>)
    reads states
  {
    && Owe(nexts, limits, fulls, step, rows, layers) && PreviousOk(m, rows.previous)
    && Hold(states, layers, m.dim) && |layers| == |m.decoder|
  }

  lemma HeldIsWide(m: Model, states: seq<array<Scalar>>, layers: seq<seq<Vec>>)
    requires Hold(states, layers, m.dim) && |layers| == |m.decoder|
    ensures LayersWide(m, layers)
  {
    forall l | 0 <= l < |layers| ensures Wide(layers[l], m.dim) {
      assert layers[l] == Blocks(states[l][..], m.dim, |layers[l]|);
    }
  }

  lemma AllFinished(nexts: seq<Next>, limits: seq<nat>, fulls: seq<seq<nat>>, step: nat, rows: Rows, layers: seq<seq<Vec>>)
    requires Owe(nexts, limits, fulls, step, rows, layers)
    requires forall r :: 0 <= r < |limits| ==> rows.finished[r] || step >= limits[r]
    ensures rows.generated == fulls
  {
    forall r | 0 <= r < |limits| ensures rows.generated[r] == fulls[r] {
      if step >= limits[r] {
        RowStops(nexts[r], limits[r], fulls[r], step, rows.previous[r], Column(layers, r), rows.finished[r], rows.generated[r]);
      }
    }
  }

  method DecodeOneStep(m: Model, encoded: EncodedBatch, candidates: seq<seq<nat>>, ghost limits: seq<nat>, states: seq<array<Scalar>>,
                       step: nat, rows: Rows, ghost fs: seq<Layer<Scalar>>, ghost memories: seq<seq<Memory>>,
                       ghost nexts: seq<Next>, ghost fulls: seq<seq<nat>>, ghost layers: seq<seq<Vec>>)
    returns (next: Rows, later: nat, ghost after: seq<seq<Vec>>)
    requires LayersMatch(m, fs, memories) && CachesHold(m, encoded.cross, encoded.lengths, encoded.sourceLength, memories)
    requires Steppers(m, fs, candidates, nexts) && step < MAXIMUM_POSITION
    requires |encoded.lengths| == |candidates| == |limits|
    requires LoopOk(m, nexts, limits, fulls, step, rows, states, layers)
    requires forall r :: 0 <= r < |limits| ==> rows.finished[r] || step < limits[r]
    modifies states
    ensures later == step + 1 && LoopOk(m, nexts, limits, fulls, later, next, states, after)
  {
    HeldIsWide(m, states, layers);
    var decoder; ghost var zs;
    decoder, zs, after := DecodeStepBatch(m, rows.previous, step, states, encoded.cross, encoded.lengths, encoded.sourceLength,
                                          fs, memories, layers);
    next := ChooseTokens(m, decoder, candidates, rows, zs);
    later := step + 1;
    StepKeeps(m, fs, candidates, nexts, limits, fulls, step, later, rows, layers, zs, after, next);
  }

  method DecodeLoop(m: Model, encoded: EncodedBatch, candidates: seq<seq<nat>>, limits: seq<nat>,
                    ghost fs: seq<Layer<Scalar>>, ghost memories: seq<seq<Memory>>, ghost nexts: seq<Next>, ghost fulls: seq<seq<nat>>)
    returns (generated: seq<seq<nat>>)
    requires LayersMatch(m, fs, memories) && CachesHold(m, encoded.cross, encoded.lengths, encoded.sourceLength, memories)
    requires Steppers(m, fs, candidates, nexts)
    requires |encoded.lengths| == |candidates| == |limits| == |fulls|
    requires forall r :: 0 <= r < |limits| ==> limits[r] <= MAXIMUM_POSITION && fulls[r] == Greedy.Cut(nexts[r], limits[r], 0, Start(m))
    ensures generated == fulls
  {
    var batch := |limits|;
    var states := NewStates(m, batch);
    var rows := Rows(seq(batch, _ => -1), seq(batch, _ => false), seq(batch, _ => []));
    ghost var layers := ZeroLayers(m, |m.decoder|, batch);
    StartOwes(m, nexts, limits, fulls, rows);
    var generationLimit := Longest(limits);
    var step := 0;
    while step < generationLimit
      invariant forall l :: 0 <= l < |states| ==> fresh(states[l])
      invariant step <= generationLimit && LoopOk(m, nexts, limits, fulls, step, rows, states, layers)
    {
      var marked := MarkFinished(limits, step, rows);
      MarkingKeeps(nexts, limits, fulls, step, rows, marked, layers);
      rows := marked;
      if forall r :: 0 <= r < |limits| ==> rows.finished[r] { break; }
      rows, step, layers := DecodeOneStep(m, encoded, candidates, limits, states, step, rows, fs, memories, nexts, fulls, layers);
    }
    AllFinished(nexts, limits, fulls, step, rows, layers);
    return rows.generated;
  }

  lemma StartOwes(m: Model, nexts: seq<Next>, limits: seq<nat>, fulls: seq<seq<nat>>, rows: Rows)
    requires m.Valid() && |nexts| == |limits| == |fulls|
    requires rows == Rows(seq(|limits|, _ => -1), seq(|limits|, _ => false), seq(|limits|, _ => []))
    requires forall r :: 0 <= r < |limits| ==> fulls[r] == Greedy.Cut(nexts[r], limits[r], 0, Start(m))
    ensures Owe(nexts, limits, fulls, 0, rows, ZeroLayers(m, |m.decoder|, |limits|)) && PreviousOk(m, rows.previous)
  {
    var layers := ZeroLayers(m, |m.decoder|, |limits|);
    forall r | 0 <= r < |limits| ensures RowOwes(nexts[r], limits[r], fulls[r], 0, -1, Column(layers, r), false, []) {
      assert Column(layers, r) == Start(m).states;
    }
  }

  // ---------------------------------------------------------------------------------- the whole call

  method CandidatesAt(table: Shortlist.Table, tokens: seq<int>, start: nat, end: nat, ghost list: Result<seq<nat>, Shortlist.Error>)
    returns (r: Result<seq<nat>, Shortlist.Error>)
    requires table.Valid() && start <= end <= |tokens| && list == Shortlist.CandidatesOf(table, tokens[start..end])
    ensures r == list
  {
    r := Shortlist.Candidates(table, tokens[start..end]);
  }

  /** The lists of the first `n` sentences. */
  ghost predicate ListedTo<T, E>(results: seq<Result<T, E>>, values: seq<T>, n: nat) {
    n == |values| <= |results| && forall i :: 0 <= i < n ==> results[i] == Ok(values[i])
  }

  lemma {:induction false} NoErrorYet<T, E>(results: seq<Result<T, E>>, values: seq<T>, n: nat)
    requires ListedTo(results, values, n)
    ensures FirstError(results, n).None?
  {
    if n > 0 { NoErrorYet(results, values[..n - 1], n - 1); }
  }

  /** `prepare_candidates`: stops at the first sentence without a list. */
  method PrepareCandidates(table: Shortlist.Table, tokens: seq<int>, offsets: seq<U32>,
                           ghost sentences: seq<seq<int>>, ghost lists: seq<Result<seq<nat>, Shortlist.Error>>)
    returns (r: Result<seq<seq<nat>>, Shortlist.Error>)
    requires table.Valid() && |sentences| == |lists| == |offsets| - 1
    requires forall b: nat :: b < |sentences| ==> CutAt(tokens, offsets, b, sentences[b])
    requires forall b :: 0 <= b < |sentences| ==> lists[b] == Shortlist.CandidatesOf(table, sentences[b])
    ensures if FirstError(lists, |lists|).Some? then r == Err(FirstError(lists, |lists|).value)
            else r.Ok? && ListedTo(lists, r.value, |lists|)
  {
    var candidates := [];
    var b := 0;
    while b < |offsets| - 1
      invariant ListedTo(lists, candidates, b)
    {
      assert CutAt(tokens, offsets, b, sentences[b]);
      var list := CandidatesAt(table, tokens, offsets[b], offsets[b + 1], lists[b]);
      if list.Err? {
        NoErrorYet(lists, candidates, b);
        FirstErrorAt(lists, b, |lists|);
        return Err(list.error);
      }
      candidates := candidates + [list.value];
      b := b + 1;
    }
    NoErrorYet(lists, candidates, b);
    return Ok(candidates);
  }

  lemma {:induction false} FirstErrorAt<T, E>(results: seq<Result<T, E>>, b: nat, n: nat)
    requires b < n <= |results| && FirstError(results, b).None? && results[b].Err?
    ensures FirstError(results, n) == Some(results[b].error)
  {
    if n > b + 1 { FirstErrorAt(results, b, n - 1); }
  }

  /** The generation limit of every row. */
  function RowLimits(m: Model, lengths: seq<nat>, requested: seq<nat>): (limits: seq<nat>)
    requires |lengths| == |requested|
    ensures |limits| == |lengths| && forall r :: 0 <= r < |limits| ==> limits[r] <= MAXIMUM_GENERATION_STEPS
  {
    seq(|lengths|, r requires 0 <= r < |lengths| => Limit(m, lengths[r], requested[r]))
  }

  /** The rows one after another; their number and length keep every offset within 32 bits. */
  method PackRows(generated: seq<seq<nat>>) returns (r: Result<BatchOutput, Error>)
    requires |generated| <= MAXIMUM_ENGINE_BATCH
    requires forall b :: 0 <= b < |generated| ==> |generated[b]| <= MAXIMUM_GENERATION_STEPS
    ensures r == Ok(Pack(generated)) && forall k :: 0 <= k <= |generated| ==> r.value.offsets[k] < 0x1_0000_0000
  {
    var tokens, offsets := [], [0];
    for i := 0 to |generated|
      invariant tokens == FlatTo(generated, i)
      invariant |offsets| == i + 1 && forall k :: 0 <= k <= i ==> offsets[k] == |FlatTo(generated, k)| < 0x1_0000_0000
    {
      tokens := tokens + generated[i];
      PackedSize(generated, i + 1, MAXIMUM_GENERATION_STEPS);
      if |tokens| >= 0x1_0000_0000 { return Err(OutputTooLong); }
      offsets := offsets + [|tokens|];
    }
    assert offsets == Pack(generated).offsets;
    return Ok(BatchOutput(tokens, offsets));
  }

  ghost function MemoriesFor(m: Model, sentences: seq<seq<int>>, longest: nat): (memories: seq<seq<Memory>>)
    requires SentencesOk(m, sentences, longest)
    ensures |memories| == |sentences|
    ensures forall r :: 0 <= r < |memories| ==> Transformer.MemoriesOk(m, memories[r])
  {
    seq(|sentences|, r requires 0 <= r < |sentences| => Memories(m, EncodeSentence(m, sentences[r])))
  }

  lemma CachesFromEncoder(m: Model, encoded: EncodedBatch, sentences: seq<seq<int>>)
    requires SentencesOk(m, sentences, encoded.sourceLength)
    requires |encoded.lengths| == |sentences| && forall b :: 0 <= b < |sentences| ==> encoded.lengths[b] == |sentences[b]|
    requires |encoded.cross| == |m.decoder|
    requires forall l :: 0 <= l < |m.decoder| ==> CrossOk(m, encoded.cross[l], l, sentences, encoded.sourceLength)
    ensures CachesHold(m, encoded.cross, encoded.lengths, encoded.sourceLength, MemoriesFor(m, sentences, encoded.sourceLength))
  {
    var memories := MemoriesFor(m, sentences, encoded.sourceLength);
    forall l | 0 <= l < |encoded.cross|
      ensures CacheHolds(m, encoded.cross[l], encoded.lengths, encoded.sourceLength, memories, l)
    {
      forall r | 0 <= r < |sentences|
        ensures memories[r][l] == CacheMemory(m, encoded.cross[l], encoded.lengths, encoded.sourceLength, r)
      {
        assert CrossRowOk(m, encoded.cross[l], l, sentences, encoded.sourceLength, r);
      }
    }
  }

  /** Decodes an encoded batch: every row gets its own translation. */
  method DecodeSentences(m: Model, encoded: EncodedBatch, candidates: seq<seq<nat>>, requested: seq<nat>, ghost sentences: seq<seq<int>>)
    returns (generated: seq<seq<nat>>)
    requires SentencesOk(m, sentences, encoded.sourceLength)
    requires |encoded.lengths| == |sentences| == |candidates| == |requested|
    requires forall b :: 0 <= b < |sentences| ==> encoded.lengths[b] == |sentences[b]|
    requires |encoded.cross| == |m.decoder|
    requires forall l :: 0 <= l < |m.decoder| ==> CrossOk(m, encoded.cross[l], l, sentences, encoded.sourceLength)
    requires forall b :: 0 <= b < |sentences| ==> Shortlist.CandidatesOf(m.shortlist, sentences[b]) == Ok(candidates[b])
    ensures |generated| == |sentences|
    ensures forall b :: 0 <= b < |sentences| ==> generated[b] == TranslateOne(m, sentences[b], requested[b])
  {
    CachesFromEncoder(m, encoded, sentences);
    ghost var memories := MemoriesFor(m, sentences, encoded.sourceLength);
    ghost var fs, nexts := LayersFor(m, memories), SteppersOf(m, LayersFor(m, memories), candidates);
    SteppersTranslate(m, sentences, encoded.sourceLength, candidates, requested);
    var limits := RowLimits(m, encoded.lengths, requested);
    ghost var fulls := seq(|sentences|, r requires 0 <= r < |sentences| => Greedy.Cut(nexts[r], limits[r], 0, Start(m)));
    generated := DecodeLoop(m, encoded, candidates, limits, fs, memories, nexts, fulls);
  }

  ghost function LayersFor(m: Model, memories: seq<seq<Memory>>): (fs: seq<Layer<Scalar>>)
    requires m.Valid() && forall r :: 0 <= r < |memories| ==> Transformer.MemoriesOk(m, memories[r])
    ensures LayersMatch(m, fs, memories) && forall r :: 0 <= r < |fs| ==> KeepsWidth(fs[r], m.dim)
  {
    seq(|memories|, r requires 0 <= r < |memories| => RowLayer(m, memories[r]))
  }

  ghost function SteppersOf(m: Model, fs: seq<Layer<Scalar>>, candidates: seq<seq<nat>>): (nexts: seq<Next>)
    requires |fs| == |candidates|
    ensures |nexts| == |fs| && forall r :: 0 <= r < |fs| ==> nexts[r] == Stepper(m, fs[r], candidates[r])
  {
    seq<Next>(|fs|, r requires 0 <= r < |fs| => Stepper(m, fs[r], candidates[r]))
  }

  /** The steppers of the batch are the steppers of its sentences. */
  lemma SteppersTranslate(m: Model, sentences: seq<seq<int>>, longest: nat, candidates: seq<seq<nat>>, requested: seq<nat>)
    requires SentencesOk(m, sentences, longest) && |candidates| == |requested| == |sentences|
    requires forall b :: 0 <= b < |sentences| ==> Shortlist.CandidatesOf(m.shortlist, sentences[b]) == Ok(candidates[b])
    ensures var fs := LayersFor(m, MemoriesFor(m, sentences, longest));
            var nexts := SteppersOf(m, fs, candidates);
            && Steppers(m, fs, candidates, nexts)
            && forall b :: 0 <= b < |sentences| ==>
                 TranslateOne(m, sentences[b], requested[b])
                 == Greedy.Cut(nexts[b], Limit(m, |sentences[b]|, requested[b]), 0, Start(m))
  {
    var memories := MemoriesFor(m, sentences, longest);
    var fs := LayersFor(m, memories);
    var nexts := SteppersOf(m, fs, candidates);
    forall b | 0 <= b < |sentences|
      ensures CandidatesOk(m, candidates[b])
              && TranslateOne(m, sentences[b], requested[b])
                 == Greedy.Cut(nexts[b], Limit(m, |sentences[b]|, requested[b]), 0, Start(m))
    {
      assert candidates[b] == CandidateIds(m, sentences[b]);
      assert fs[b] == RowLayer(m, memories[b]);
    }
  }

  method TranslateTokenIds(m: Model, tokens: seq<int>, offsets: seq<U32>, requested: seq<nat>) returns (r: Result<BatchOutput, Error>)
    requires m.Valid()
    ensures r == Run(m, tokens, offsets, requested)
  {
    var invalid := Validate(m, tokens, offsets, requested);
    if invalid.Some? { return Err(invalid.value); }
    ghost var sentences := Sentences(m, tokens, offsets, requested);
    RowsAreSentences(m, tokens, offsets, requested);
    var encoded := Encode(m, tokens, offsets, requested, sentences);
    var candidates := PrepareCandidates(m.shortlist, tokens, offsets, sentences, CandidateLists(m.shortlist, sentences));
    if candidates.Err? { return Err(Candidates(candidates.error)); }
    var generated := DecodeSentences(m, encoded, candidates.value, requested, sentences);
    assert generated == Translations(m, sentences, requested);
    r := PackRows(generated);
  }

  lemma RowsAreSentences(m: Model, tokens: seq<int>, offsets: seq<U32>, requested: seq<nat>)
    requires Accepted(m, tokens, offsets, requested)
    ensures SentencesOk(m, Sentences(m, tokens, offsets, requested), Longest(Lengths(offsets)))
    ensures forall b: nat :: b < |offsets| - 1 ==> CutAt(tokens, offsets, b, Sentences(m, tokens, offsets, requested)[b])
  {
    var sentences := Sentences(m, tokens, offsets, requested);
    forall b: nat | b < |sentences|
      ensures CutAt(tokens, offsets, b, sentences[b]) && 0 < |sentences[b]| <= Longest(Lengths(offsets))
              && SourceTokens(m, sentences[b])
    {
      assert IsRow(m, tokens, offsets, b, sentences[b]);
    }
    assert 0 < |sentences[0]| <= Longest(Lengths(offsets)) <= MAXIMUM_SOURCE_LENGTH by {
      assert IsRow(m, tokens, offsets, 0, sentences[0]);
    }
  }

  // ---------------------------------------------------------------------------------- isolation, stated on the engine itself

  /** A sentence as a batch of its own. */
  ghost function Alone(m: Model, sentence: seq<int>, requested: nat): Result<BatchOutput, Error>
    requires m.Valid() && |sentence| < 0x1_0000_0000
  {
    Run(m, sentence, [0, |sentence|], [requested])
  }

  lemma SquareBound(n: nat)
    requires n <= 256
    ensures Cells(1, n) <= MAXIMUM_PADDED_ATTENTION_CELLS
  {
    assert n * n <= 256 * n;
  }

  lemma AloneLengths(length: U32)
    ensures Lengths([0, length]) == [length] && Longest(Lengths([0, length])) == length
  {
    assert Lengths([0, length]) == [length];
    assert [length][..0] == [];
  }

  lemma AloneValid(m: Model, sentence: seq<int>, requested: nat)
    requires 0 < |sentence| <= MAXIMUM_SOURCE_LENGTH && SourceTokens(m, sentence)
    ensures Validate(m, sentence, [0, |sentence|], [requested]).None?
  {
    AloneLengths(|sentence|);
    SquareBound(|sentence|);
  }

  lemma AloneAccepted(m: Model, sentence: seq<int>, requested: nat)
    requires m.Valid() && 0 < |sentence| <= MAXIMUM_SOURCE_LENGTH && SourceTokens(m, sentence)
    ensures Accepted(m, sentence, [0, |sentence|], [requested])
    ensures Sentences(m, sentence, [0, |sentence|], [requested]) == [sentence]
  {
    AloneValid(m, sentence, requested);
    var sentences := Sentences(m, sentence, [0, |sentence|], [requested]);
    assert IsRow(m, sentence, [0, |sentence|], 0, sentences[0]);
    assert sentence[0..|sentence|] == sentence;
  }

  lemma PackedAlone(row: seq<nat>)
    ensures Pack([row]) == BatchOutput(row, [0, |row|])
  {
    assert FlatTo([row], 1) == FlatTo([row], 0) + row == row;
  }

  /** A single sentence either has no candidate list or is translated; nothing else can go wrong. */
  lemma AloneResult(m: Model, sentence: seq<int>, requested: nat)
    requires m.Valid() && 0 < |sentence| <= MAXIMUM_SOURCE_LENGTH && SourceTokens(m, sentence)
    ensures var list := CandidateLists(m.shortlist, [sentence])[0];
            Alone(m, sentence, requested)
            == if list.Err? then Err(Candidates(list.error))
               else Ok(BatchOutput(TranslateOne(m, sentence, requested), [0, |TranslateOne(m, sentence, requested)|]))
  {
    AloneAccepted(m, sentence, requested);
    var lists := CandidateLists(m.shortlist, [sentence]);
    assert FirstError(lists, 0).None?;
    if lists[0].Ok? {
      var one := TranslateOne(m, sentence, requested);
      assert Translations(m, [sentence], [requested]) == [one];
      PackedAlone(one);
    }
  }

  /** Row isolation: in every accepted batch, a row's tokens are exactly those of a batch of its own. */
  lemma RowIsolation(m: Model, tokens: seq<int>, offsets: seq<U32>, requested: seq<nat>, b: nat)
    requires m.Valid() && Run(m, tokens, offsets, requested).Ok? && b < |requested|
    ensures var out := Run(m, tokens, offsets, requested).value;
            && |out.offsets| == |requested| + 1 == |offsets|
            && out.offsets[b] <= out.offsets[b + 1] <= |out.tokens|
            && 0 <= offsets[b] < offsets[b + 1] <= |tokens| && offsets[b + 1] - offsets[b] <= MAXIMUM_SOURCE_LENGTH
            && var row := out.tokens[out.offsets[b]..out.offsets[b + 1]];
            && |row| <= requested[b]
            && Alone(m, tokens[offsets[b]..offsets[b + 1]], requested[b]) == Ok(BatchOutput(row, [0, |row|]))
  {
    var sentences := Sentences(m, tokens, offsets, requested);
    assert IsRow(m, tokens, offsets, b, sentences[b]);
    assert CandidateLists(m.shortlist, sentences)[b].Ok?;
    PackedRow(Translations(m, sentences, requested), b);
    AloneResult(m, sentences[b], requested[b]);
    assert CandidateLists(m.shortlist, [sentences[b]])[0] == CandidateLists(m.shortlist, sentences)[b];
  }

  /** A batch fails only by its shape, or because one of its rows fails alone. */
  lemma BatchFailsOnlyByARow(m: Model, tokens: seq<int>, offsets: seq<U32>, requested: seq<nat>)
    requires Accepted(m, tokens, offsets, requested)
    ensures Run(m, tokens, offsets, requested).Ok?
            <==> forall b :: 0 <= b < |requested| ==> Alone(m, Sentences(m, tokens, offsets, requested)[b], requested[b]).Ok?
  {
    var sentences := Sentences(m, tokens, offsets, requested);
    var lists := CandidateLists(m.shortlist, sentences);
    forall b | 0 <= b < |requested|
      ensures |sentences[b]| <= MAXIMUM_SOURCE_LENGTH && (Alone(m, sentences[b], requested[b]).Ok? <==> lists[b].Ok?)
    {
      assert IsRow(m, tokens, offsets, b, sentences[b]);
      AloneResult(m, sentences[b], requested[b]);
      assert CandidateLists(m.shortlist, [sentences[b]])[0] == lists[b];
    }
  }
}
