/**
 The budget loop of the Metal backend (`translate_batch` in `crates/marian-metal/src/backend.rs`). It keeps its
 segments in place and sends the next one of every input at once, yet each input gets the same fold as on the CPU.
 */
module MetalPlanner {
  import opened Base
  import opened Utf8
  import opened PackedBatch
  import opened Planner
  import Segmenter

  type Error = Planner.Error

  const MAX_SOURCE_TOKENS: nat := 4_096
  const MAX_TRANSLATION_SEGMENTS: nat := 4_096

  datatype PlannedSegment = PlannedSegment(tokens: seq<int>, separator: Text, translated: Option<Text>, inputTokens: nat, outputTokens: nat)

  // ---------------------------------------------------------------------------------- one input

  /** Segment `j` once the position of its input has reached `position`. */
  ghost predicate SegmentAt(c: Context, pieces: seq<Piece>, budget: nat, position: nat, s: PlannedSegment, j: nat)
    requires j < |pieces|
  {
    var piece := pieces[j];
    var left := Left(c.row, pieces, budget, j);
    var text := PieceText(c.row, c.decode, c.eos, piece, left);
    && s.separator == piece.separator && s.inputTokens == PieceTokens(piece) <= MAX_SOURCE_TOKENS
    && if piece.tokens.None? then s.translated == Some([]) && s.outputTokens == 0
       else
         && s.tokens == piece.tokens.value && s.tokens != []
         && if j < position then
              && text.Ok? && s.translated == Some(text.value) && |Generated(c.row, piece, left)| <= left
              && s.outputTokens == |WithoutEos(Generated(c.row, piece, left), c.eos)|
            else s.translated.None? && s.outputTokens == 0
  }

  /** Everything before the position is translated, and the budget is what that left. */
  ghost predicate InputOk(c: Context, pieces: seq<Piece>, budget: nat, planned: seq<PlannedSegment>, position: nat, remaining: nat) {
    && position <= |pieces| == |planned| && remaining == Left(c.row, pieces, budget, position)
    && forall j: nat {:trigger SegmentAt(c, pieces, budget, position, planned[j], j)} :: j < |pieces| ==>
         SegmentAt(c, pieces, budget, position, planned[j], j)
  }

  function Unplanned(piece: Piece): PlannedSegment {
    PlannedSegment(if piece.tokens.None? then [] else piece.tokens.value, piece.separator,
                   if piece.tokens.None? then Some([]) else None, PieceTokens(piece), 0)
  }

  /** A segment without content needs no translation. */
  lemma PassTranslated(c: Context, pieces: seq<Piece>, budget: nat, planned: seq<PlannedSegment>, position: nat, remaining: nat)
    requires InputOk(c, pieces, budget, planned, position, remaining) && position < |planned| && planned[position].translated.Some?
    ensures InputOk(c, pieces, budget, planned, position + 1, remaining)
  {
    assert SegmentAt(c, pieces, budget, position, planned[position], position);
    forall j: nat | j < |pieces| ensures SegmentAt(c, pieces, budget, position + 1, planned[j], j) {
      assert SegmentAt(c, pieces, budget, position, planned[j], j);
    }
  }

  /** The segment at the position is translated, at the price of what its row generated. */
  lemma Advance(c: Context, pieces: seq<Piece>, budget: nat, planned: seq<PlannedSegment>, position: nat, remaining: nat,
                text: Text, spent: nat, outputTokens: nat)
    requires InputOk(c, pieces, budget, planned, position, remaining) && position < |planned|
    requires PieceText(c.row, c.decode, c.eos, pieces[position], remaining) == Ok(text)
    requires spent == |Generated(c.row, pieces[position], remaining)| <= remaining
    requires outputTokens == |WithoutEos(Generated(c.row, pieces[position], remaining), c.eos)|
    requires pieces[position].tokens.None? ==> text == []
    ensures InputOk(c, pieces, budget, planned[position := planned[position].(translated := Some(text), outputTokens := outputTokens)],
                    position + 1, remaining - spent)
  {
    var planned' := planned[position := planned[position].(translated := Some(text), outputTokens := outputTokens)];
    forall j: nat | j < |pieces| ensures SegmentAt(c, pieces, budget, position + 1, planned'[j], j) {
      assert SegmentAt(c, pieces, budget, position, planned[j], j);
    }
  }

  /** Skips what is translated; without budget, fills up the rest with empty text. */
  method PrepareInput(ghost c: Context, ghost pieces: seq<Piece>, ghost budget: nat, before: seq<PlannedSegment>, start: nat, remaining: nat)
    returns (planned: seq<PlannedSegment>, position: nat)
    requires InputOk(c, pieces, budget, before, start, remaining)
    ensures InputOk(c, pieces, budget, planned, position, remaining) && start <= position
    ensures position < |planned| ==> remaining > 0 && planned[position].translated.None?
  {
    planned, position := before, start;
    while position < |planned| && planned[position].translated.Some?
      invariant InputOk(c, pieces, budget, planned, position, remaining) && start <= position
    {
      PassTranslated(c, pieces, budget, planned, position, remaining);
      position := position + 1;
    }
    if remaining == 0 {
      while position < |planned|
        invariant InputOk(c, pieces, budget, planned, position, remaining) && start <= position
      {
        assert SegmentAt(c, pieces, budget, position, planned[position], position);
        Advance(c, pieces, budget, planned, position, 0, [], 0, 0);
        assert planned[position].outputTokens == 0;
        planned := planned[position := planned[position].(translated := Some([]))];
        position := position + 1;
      }
    }
  }

  // ---------------------------------------------------------------------------------- all inputs

  datatype State = State(planned: seq<seq<PlannedSegment>>, positions: seq<nat>, remaining: seq<nat>)

  ghost predicate InputAt(c: Context, all: seq<seq<Piece>>, budgets: seq<nat>, s: State, i: nat)
    requires i < |all| == |budgets| == |s.planned| == |s.positions| == |s.remaining|
  {
    InputOk(c, all[i], budgets[i], s.planned[i], s.positions[i], s.remaining[i])
  }

  ghost predicate AllInputs(c: Context, all: seq<seq<Piece>>, budgets: seq<nat>, s: State) {
    && |all| == |budgets| == |s.planned| == |s.positions| == |s.remaining|
    && forall i: nat {:trigger InputAt(c, all, budgets, s, i)} :: i < |all| ==> InputAt(c, all, budgets, s, i)
  }

  /** Segments not yet passed. */
  function Ahead(s: State, n: nat): int
    requires n <= |s.planned| == |s.positions|
  {
    if n == 0 then 0 else Ahead(s, n - 1) + (|s.planned[n - 1]| - s.positions[n - 1])
  }

  /** Input `i` moved on, the others stayed. */
  ghost predicate MovedOn(s: State, t: State, i: nat) {
    && i < |s.planned| == |s.positions| == |s.remaining| == |t.planned| == |t.positions| == |t.remaining|
    && |t.planned[i]| == |s.planned[i]| && s.positions[i] <= t.positions[i]
    && forall k :: 0 <= k < |s.planned| && k != i ==>
         t.planned[k] == s.planned[k] && t.positions[k] == s.positions[k] && t.remaining[k] == s.remaining[k]
  }

  lemma {:induction false} MovedAhead(s: State, t: State, i: nat, n: nat)
    requires MovedOn(s, t, i) && n <= |s.planned|
    ensures Ahead(t, n) == Ahead(s, n) - if i < n then t.positions[i] - s.positions[i] else 0
  {
    if n > 0 { MovedAhead(s, t, i, n - 1); }
  }

  lemma MovedKeeps(c: Context, all: seq<seq<Piece>>, budgets: seq<nat>, s: State, t: State, i: nat)
    requires AllInputs(c, all, budgets, s) && MovedOn(s, t, i) && InputAt(c, all, budgets, t, i)
    ensures AllInputs(c, all, budgets, t)
  {
    forall k: nat | k < |all| ensures InputAt(c, all, budgets, t, k) {
      if k != i { assert InputAt(c, all, budgets, s, k); }
    }
  }

  lemma {:induction false} AheadIsNatural(c: Context, all: seq<seq<Piece>>, budgets: seq<nat>, s: State, n: nat)
    requires AllInputs(c, all, budgets, s) && n <= |all|
    ensures Ahead(s, n) >= 0
  {
    if n > 0 {
      AheadIsNatural(c, all, budgets, s, n - 1);
      assert InputAt(c, all, budgets, s, n - 1);
    }
  }

  /** The input has a segment to send, and budget for it, or it is done. */
  ghost predicate Prepared(s: State, i: nat)
    requires i < |s.planned| == |s.positions| == |s.remaining|
  {
    s.positions[i] < |s.planned[i]| ==> s.remaining[i] > 0 && s.planned[i][s.positions[i]].translated.None?
  }

  method PrepareAll(ghost c: Context, ghost all: seq<seq<Piece>>, ghost budgets: seq<nat>, start: State) returns (s: State)
    requires AllInputs(c, all, budgets, start)
    ensures AllInputs(c, all, budgets, s) && Ahead(s, |all|) <= Ahead(start, |all|)
    ensures forall i: nat {:trigger Prepared(s, i)} :: i < |all| ==> Prepared(s, i)
  {
    s := start;
    for i := 0 to |start.planned|
      invariant AllInputs(c, all, budgets, s) && Ahead(s, |all|) <= Ahead(start, |all|)
      invariant forall k: nat {:trigger Prepared(s, k)} :: k < i ==> Prepared(s, k)
    {
      assert InputAt(c, all, budgets, s, i);
      ghost var before := s;
      var planned, position := PrepareInput(c, all[i], budgets[i], s.planned[i], s.positions[i], s.remaining[i]);
      s := State.State(s.planned[i := planned], s.positions[i := position], s.remaining);
      MovedAhead(before, s, i, |all|);
      MovedKeeps(c, all, budgets, before, s, i);
      forall k: nat | k < i + 1 ensures Prepared(s, k) {
        if k < i { assert Prepared(before, k); }
      }
    }
  }

  // ---------------------------------------------------------------------------------- one round

  /** The next segment of every input that has one, in input order. */
  ghost predicate Gathered(s: State, batch: seq<Work>, n: nat)
    requires n <= |s.planned| == |s.positions| == |s.remaining|
  {
    && |batch| <= n && (forall b :: 0 <= b < |batch| ==> batch[b].inputIndex < n && WorkHere(s, batch[b]))
    && (forall a, b :: 0 <= a < b < |batch| ==> batch[a].inputIndex < batch[b].inputIndex)
    && (batch == [] ==> forall i: nat {:trigger s.positions[i]} :: i < n ==> s.positions[i] >= |s.planned[i]|)
  }

  /** The item is what its input is waiting for. */
  ghost predicate WorkHere(s: State, w: Work)
    requires |s.planned| == |s.positions| == |s.remaining|
  {
    && w.inputIndex < |s.planned| && w.segmentIndex == s.positions[w.inputIndex] < |s.planned[w.inputIndex]|
    && w.tokens == s.planned[w.inputIndex][w.segmentIndex].tokens
    && s.planned[w.inputIndex][w.segmentIndex].translated.None? && s.remaining[w.inputIndex] > 0
  }

  method CollectWork(s: State) returns (batch: seq<Work>)
    requires |s.planned| == |s.positions| == |s.remaining|
    requires forall i: nat {:trigger Prepared(s, i)} :: i < |s.planned| ==> Prepared(s, i)
    ensures Gathered(s, batch, |s.planned|)
  {
    batch := [];
    for i := 0 to |s.planned|
      invariant Gathered(s, batch, i)
    {
      assert Prepared(s, i);
      if s.positions[i] < |s.planned[i]| {
        batch := batch + [Work(i, s.positions[i], s.planned[i][s.positions[i]].tokens)];
      }
    }
  }

  /** What the engine is called with: packed rows that are not empty, each with a positive limit. */
  ghost predicate PackedCall(tokens: seq<int>, offsets: seq<U32>, limits: seq<nat>) {
    && |offsets| >= 2 && offsets[0] == 0 && offsets[|offsets| - 1] == |tokens| && |limits| == |offsets| - 1
    && (forall b: nat :: b < |offsets| - 1 ==> NonEmpty(offsets, b))
    && (forall b :: 0 <= b < |limits| ==> limits[b] > 0)
  }

  /** Every row that the engine answers is `row` of that row alone. */
  ghost predicate AnswersRowByRow(engine: TokenEngine, row: Row) {
    forall tokens: seq<int>, offsets: seq<U32>, limits: seq<nat> {:trigger PackedCall(tokens, offsets, limits)} ::
      PackedCall(tokens, offsets, limits) ==>
        && engine.requires(tokens, offsets, limits)
        && (engine(tokens, offsets, limits).Ok? && |engine(tokens, offsets, limits).value.offsets| == |offsets| ==>
              forall b: nat :: b < |limits| ==> RowAgrees(row, tokens, offsets, limits, engine(tokens, offsets, limits).value, b))
  }

  /** The engine answers every packed call whose rows all have an answer. */
  ghost predicate AnswersAll(engine: TokenEngine, row: Row) {
    forall tokens: seq<int>, offsets: seq<U32>, limits: seq<nat> {:trigger PackedCall(tokens, offsets, limits)} ::
      PackedCall(tokens, offsets, limits) && (forall b: nat :: b < |limits| ==> RowHasAnswer(row, tokens, offsets, limits, b)) ==>
        engine.requires(tokens, offsets, limits) && WellAnswered(engine(tokens, offsets, limits), |limits|)
  }

  /** Packed rows of this many inputs cannot exceed 32 bits. */
  predicate Packable(inputs: nat) {
    inputs * MAX_SOURCE_TOKENS < 0x1_0000_0000
  }

  lemma FewRowsPackIf(rows: nat, inputs: nat)
    requires rows <= inputs
    ensures Packable(inputs) ==> Packable(rows)
  {
  }

  method Pack(batch: seq<Work>, remaining: seq<nat>) returns (r: Result<(seq<int>, seq<U32>, seq<nat>), Error>)
    requires batch != []
    requires forall k :: 0 <= k < |batch| ==> batch[k].inputIndex < |remaining| && remaining[batch[k].inputIndex] > 0
    requires forall k :: 0 <= k < |batch| ==> 0 < |batch[k].tokens| <= MAX_SOURCE_TOKENS
    ensures r.Ok? ==> PackedTo(batch, r.value.0, r.value.1, |batch|) && PackedCall(r.value.0, r.value.1, r.value.2)
    ensures r.Ok? ==> |r.value.2| == |batch| && forall k :: 0 <= k < |batch| ==> r.value.2[k] == remaining[batch[k].inputIndex]
    ensures r.Err? ==> r.error == PackedTooLong && |batch| * MAX_SOURCE_TOKENS >= 0x1_0000_0000
  {
    var tokens: seq<int> := [];
    var offsets: seq<U32> := [0];
    var limits: seq<nat> := [];
    for k := 0 to |batch|
      invariant PackedTo(batch, tokens, offsets, k) && |tokens| <= k * MAX_SOURCE_TOKENS
      invariant |limits| == k && forall j :: 0 <= j < k ==> limits[j] == remaining[batch[j].inputIndex]
    {
      var end := |tokens| + |batch[k].tokens|;
      if end >= 0x1_0000_0000 { return Err(PackedTooLong); }
      PackOne(batch, tokens, offsets, k, end);
      tokens := tokens + batch[k].tokens;
      offsets := offsets + [end];
      limits := limits + [remaining[batch[k].inputIndex]];
    }
    forall b: nat | b < |offsets| - 1 ensures NonEmpty(offsets, b) { assert RowPacked(batch, tokens, offsets, b); }
    return Ok((tokens, offsets, limits));
  }

  /** The rows from `n` on are still awaited, with the budgets that were sent. */
  ghost predicate Awaiting(s: State, batch: seq<Work>, limits: seq<nat>, n: nat) {
    && |s.planned| == |s.positions| == |s.remaining| && |limits| == |batch|
    && (forall a, b :: 0 <= a < b < |batch| ==> batch[a].inputIndex < batch[b].inputIndex)
    && forall b :: n <= b < |batch| ==> WorkHere(s, batch[b]) && limits[b] == s.remaining[batch[b].inputIndex]
  }

  /** If the segment that an input waits for has no answer within its budget that decodes, the input cannot be folded. */
  lemma NextStops(c: Context, all: seq<seq<Piece>>, budgets: seq<nat>, s: State, w: Work)
    requires AllInputs(c, all, budgets, s) && WorkHere(s, w)
    ensures var answer := c.row(w.tokens, s.remaining[w.inputIndex]);
            answer.None? || |answer.value| > s.remaining[w.inputIndex] || c.decode(WithoutEos(answer.value, c.eos)).Err? ==> Stuck(c, all, budgets)
  {
    var i, at := w.inputIndex, w.segmentIndex;
    assert InputAt(c, all, budgets, s, i);
    assert SegmentAt(c, all[i], budgets[i], at, s.planned[i][at], at);
    var answer := c.row(w.tokens, s.remaining[i]);
    if answer.None? || |answer.value| > s.remaining[i] || c.decode(WithoutEos(answer.value, c.eos)).Err? {
      assert Fold(c.row, c.decode, c.eos, all[i], budgets[i], at + 1).None?;
      FoldStops(c.row, c.decode, c.eos, all[i], budgets[i], at + 1, |all[i]|);
    }
  }

  /** Takes one row of the answer. */
  method TakeRow(ghost c: Context, ghost all: seq<seq<Piece>>, ghost budgets: seq<nat>, s: State, decode: Decoder, eos: int,
                 w: Work, out: BatchOutput, b: nat)
    returns (r: Result<State, Error>)
    requires AllInputs(c, all, budgets, s) && c.decode == decode && c.eos == eos && WorkHere(s, w) && b < |out.offsets| - 1
    requires InRange(out, b) ==> c.row(w.tokens, s.remaining[w.inputIndex]) == Some(RowTokens(out, b))
    ensures r.Ok? ==> AllInputs(c, all, budgets, r.value) && MovedOn(s, r.value, w.inputIndex)
    ensures r.Ok? ==> Ahead(r.value, |all|) == Ahead(s, |all|) - 1
    ensures r.Err? ==> RowFails(c.row, decode, out, r.error) && (InRange(out, b) ==> Stuck(c, all, budgets))
  {
    var i, at := w.inputIndex, w.segmentIndex;
    NextStops(c, all, budgets, s, w);
    if !InRange(out, b) { return Err(OffsetsOutOfRange); }
    var generated := RowTokens(out, b);
    if |generated| > s.remaining[i] { return Err(BudgetExceeded); }
    var ids := WithoutEos(generated, eos);
    var text := decode(ids);
    if text.Err? { return Err(DecodingFailed(text.error)); }
    assert InputAt(c, all, budgets, s, i);
    assert SegmentAt(c, all[i], budgets[i], s.positions[i], s.planned[i][at], at);
    Advance(c, all[i], budgets[i], s.planned[i], at, s.remaining[i], text.value, |generated|, |ids|);
    var segments := s.planned[i][at := s.planned[i][at].(translated := Some(text.value), outputTokens := |ids|)];
    var t := State.State(s.planned[i := segments], s.positions[i := at + 1], s.remaining[i := s.remaining[i] - |generated|]);
    MovedAhead(s, t, i, |all|);
    MovedKeeps(c, all, budgets, s, t, i);
    return Ok(t);
  }

  method TakeRows(ghost c: Context, ghost all: seq<seq<Piece>>, ghost budgets: seq<nat>, s: State, decode: Decoder, eos: int,
                  batch: seq<Work>, ghost limits: seq<nat>, out: BatchOutput)
    returns (r: Result<State, Error>)
    requires AllInputs(c, all, budgets, s) && c.decode == decode && c.eos == eos
    requires |batch| == |out.offsets| - 1 && Awaiting(s, batch, limits, 0)
    requires forall b: nat :: b < |batch| && InRange(out, b) ==> c.row(batch[b].tokens, limits[b]) == Some(RowTokens(out, b))
    ensures r.Ok? ==> AllInputs(c, all, budgets, r.value) && Ahead(r.value, |all|) == Ahead(s, |all|) - |batch|
    ensures r.Err? ==> RowFails(c.row, decode, out, r.error)
    ensures r.Err? && (forall b: nat :: b < |batch| ==> InRange(out, b)) ==> Stuck(c, all, budgets)
  {
    r := Ok(s);
    for b := 0 to |batch|
      invariant r.Ok? && AllInputs(c, all, budgets, r.value) && Awaiting(r.value, batch, limits, b)
      invariant Ahead(r.value, |all|) == Ahead(s, |all|) - b
    {
      ghost var before := r.value;
      r := TakeRow(c, all, budgets, r.value, decode, eos, batch[b], out, b);
      if r.Err? { return; }
    }
  }

  /** A call that was made, with this answer. */
  ghost predicate Answered(engine: TokenEngine, count: nat, answer: Result<BatchOutput, string>) {
    exists tokens: seq<int>, offsets: seq<U32>, limits: seq<nat> {:trigger PackedCall(tokens, offsets, limits)} ::
      && PackedCall(tokens, offsets, limits) && |limits| == count
      && engine.requires(tokens, offsets, limits) && engine(tokens, offsets, limits) == answer
  }

  /** The run fails only if the engine fails, answers badly, or cannot be given that many inputs. */
  ghost predicate RunFails(engine: TokenEngine, c: Context, inputs: nat, e: Error) {
    || (e == PackedTooLong && inputs * MAX_SOURCE_TOKENS >= 0x1_0000_0000)
    || exists count: nat, answer {:trigger Answered(engine, count, answer)} ::
         && Answered(engine, count, answer)
         && if answer.Err? then e == EngineFailed(answer.error)
            else if |answer.value.offsets| != count + 1 then e == MalformedOffsets
            else RowFails(c.row, c.decode, answer.value, e)
  }

  /** An engine that answers all it can answers the round well, unless an input has no answer. */
  lemma AnsweredOrStuck(c: Context, all: seq<seq<Piece>>, budgets: seq<nat>, s: State, engine: TokenEngine, batch: seq<Work>,
                        tokens: seq<int>, offsets: seq<U32>, limits: seq<nat>)
    requires AllInputs(c, all, budgets, s) && AnswersAll(engine, c.row) && Gathered(s, batch, |s.planned|)
    requires PackedCall(tokens, offsets, limits) && PackedTo(batch, tokens, offsets, |batch|) && |limits| == |batch|
    requires forall k :: 0 <= k < |batch| ==> limits[k] == s.remaining[batch[k].inputIndex]
    ensures Stuck(c, all, budgets) || (engine.requires(tokens, offsets, limits) && WellAnswered(engine(tokens, offsets, limits), |batch|))
  {
    if !Stuck(c, all, budgets) {
      forall b: nat | b < |limits| ensures RowHasAnswer(c.row, tokens, offsets, limits, b) {
        assert RowPacked(batch, tokens, offsets, b);
        NextStops(c, all, budgets, s, batch[b]);
      }
    }
  }

  method TranslateRound(ghost c: Context, ghost all: seq<seq<Piece>>, ghost budgets: seq<nat>, s: State, engine: TokenEngine,
                        decode: Decoder, eos: int, batch: seq<Work>)
    returns (r: Result<State, Error>)
    requires AllInputs(c, all, budgets, s) && c.decode == decode && c.eos == eos && AnswersRowByRow(engine, c.row)
    requires batch != [] && Gathered(s, batch, |s.planned|)
    ensures r.Ok? ==> AllInputs(c, all, budgets, r.value) && Ahead(r.value, |all|) == Ahead(s, |all|) - |batch|
    ensures r.Err? ==> RunFails(engine, c, |all|, r.error)
    ensures r.Err? && AnswersAll(engine, c.row) && Packable(|all|) ==> Stuck(c, all, budgets)
  {
    forall k | 0 <= k < |batch| ensures 0 < |batch[k].tokens| <= MAX_SOURCE_TOKENS {
      var i := batch[k].inputIndex;
      assert InputAt(c, all, budgets, s, i);
      assert SegmentAt(c, all[i], budgets[i], s.positions[i], s.planned[i][s.positions[i]], s.positions[i]);
    }
    var packed := Pack(batch, s.remaining);
    if packed.Err? { return Err(packed.error); }
    var (tokens, offsets, limits) := packed.value;
    var out := engine(tokens, offsets, limits);
    assert Answered(engine, |batch|, out);
    if AnswersAll(engine, c.row) { AnsweredOrStuck(c, all, budgets, s, engine, batch, tokens, offsets, limits); }
    if out.Err? { return Err(EngineFailed(out.error)); }
    if |out.value.offsets| != |batch| + 1 { return Err(MalformedOffsets); }
    forall b: nat | b < |batch| && InRange(out.value, b) ensures c.row(batch[b].tokens, limits[b]) == Some(RowTokens(out.value, b)) {
      assert RowPacked(batch, tokens, offsets, b);
      assert RowAgrees(c.row, tokens, offsets, limits, out.value, b);
    }
    r := TakeRows(c, all, budgets, s, decode, eos, batch, limits, out.value);
  }

  /** The loop: it ends with every segment of every input translated. */
  method RunRounds(ghost c: Context, ghost all: seq<seq<Piece>>, ghost budgets: seq<nat>, start: State, engine: TokenEngine,
                   decode: Decoder, eos: int)
    returns (r: Result<State, Error>)
    requires AllInputs(c, all, budgets, start) && c.decode == decode && c.eos == eos && AnswersRowByRow(engine, c.row)
    ensures r.Ok? ==> AllInputs(c, all, budgets, r.value)
    ensures r.Ok? ==> forall i: nat {:trigger r.value.positions[i]} :: i < |all| ==> r.value.positions[i] == |all[i]|
    ensures r.Err? ==> RunFails(engine, c, |all|, r.error)
    ensures r.Err? && AnswersAll(engine, c.row) && Packable(|all|) ==> Stuck(c, all, budgets)
  {
    var s := start;
    while true
      invariant AllInputs(c, all, budgets, s)
      decreases Ahead(s, |all|)
    {
      AheadIsNatural(c, all, budgets, s, |all|);
      var prepared := PrepareAll(c, all, budgets, s);
      var batch := CollectWork(prepared);
      if batch == [] {
        forall i: nat | i < |all| ensures prepared.positions[i] == |all[i]| { assert InputAt(c, all, budgets, prepared, i); }
        return Ok(prepared);
      }
      r := TranslateRound(c, all, budgets, prepared, engine, decode, eos, batch);
      if r.Err? { return; }
      s := r.value;
    }
  }

  // ---------------------------------------------------------------------------------- planning

  /** Planning fails only for a reason that lies in the text and the tokenizer. */
  ghost predicate PlanFails(encode: Encoder, text: Text, e: Error) {
    match e
    case InvalidInput(cause) => Segmenter.Explained(text, PieceCount(encode), MAX_SOURCE_TOKENS - 1, cause)
    case _ => false
  }

  /** So many segments with content precede the last segment of this input that it is one too many, whether it has content or not. */
  predicate CrowdedAt(cut: Cutter, inputs: seq<Input>, i: nat)
    requires i < |inputs|
  {
    var segments := cut(inputs[i].text);
    segments.Some? && TooMany(ContentTotal(cut, inputs, i), segments.value)
  }

  predicate TooMany(total: nat, segments: seq<Segmenter.Segment>) {
    segments != [] && total + Contents(segments[..|segments| - 1]) >= MAX_TRANSLATION_SEGMENTS
  }

  ghost predicate Crowded(cut: Cutter, inputs: seq<Input>) {
    exists i: nat :: i < |inputs| && CrowdedAt(cut, inputs, i)
  }

  /** What a batch is to become, if it can be translated. */
  ghost function BatchHere(translate: Translator, cut: Cutter, sourceLang: string, targetLang: string, inputs: seq<Input>): Option<seq<Output>> {
    if SameDirection(inputs, sourceLang, targetLang) && !Crowded(cut, inputs) && forall i :: 0 <= i < |inputs| ==> translate(inputs[i]).Some?
    then Some(Outputs(translate, inputs))
    else None
  }

  /** Whatever shares a batch with an input, its output is the one it would have alone. */
  lemma BatchIsolatesHere(translate: Translator, cut: Cutter, sourceLang: string, targetLang: string, inputs: seq<Input>, i: nat)
    requires i < |inputs| && BatchHere(translate, cut, sourceLang, targetLang, inputs).Some?
    ensures BatchHere(translate, cut, sourceLang, targetLang, [inputs[i]]) == Some([BatchHere(translate, cut, sourceLang, targetLang, inputs).value[i]])
  {
    var one := [inputs[i]];
    assert !CrowdedAt(cut, inputs, i);
    assert ContentTotal(cut, one, 0) == 0;
    assert Outputs(translate, one) == [Outputs(translate, inputs)[i]];
  }

  /** What an input is to become on its own; unlike the CPU, Metal does not look whether tokens are in the vocabulary. */
  ghost predicate IsFolder(translate: Translator, c: Context, encode: Encoder, cut: Cutter) {
    forall input {:trigger FoldOf(c, encode, cut, input)} :: translate(input) == FoldOf(c, encode, cut, input)
  }

  ghost function FolderFor(c: Context, encode: Encoder, cut: Cutter): (translate: Translator)
    ensures IsFolder(translate, c, encode, cut)
  {
    input => FoldOf(c, encode, cut, input)
  }

  /** A plan before anything is translated. */
  ghost predicate Fresh(pieces: seq<Piece>, planned: seq<PlannedSegment>) {
    && |planned| == |pieces|
    && forall j: nat {:trigger planned[j]} :: j < |pieces| ==>
         && planned[j] == Unplanned(pieces[j]) && PieceTokens(pieces[j]) <= MAX_SOURCE_TOKENS
         && (pieces[j].tokens.Some? ==> pieces[j].tokens.value != [])
  }

  lemma {:induction false} NothingSpent(c: Context, pieces: seq<Piece>, budget: nat, planned: seq<PlannedSegment>)
    requires Fresh(pieces, planned)
    ensures InputOk(c, pieces, budget, planned, 0, budget)
  {
    forall j: nat | j < |pieces| ensures SegmentAt(c, pieces, budget, 0, planned[j], j) {
      assert planned[j] == Unplanned(pieces[j]);
    }
  }

  method PlanSegment(encode: Encoder, eos: int, text: Text, segment: Segmenter.Segment, total: nat)
    returns (r: Result<PlannedSegment, Error>, ghost piece: Piece)
    requires Segmenter.SegmentOk(text, PieceCount(encode), MAX_SOURCE_TOKENS - 1, segment)
    ensures piece == PieceOf(encode, eos, text, segment)
    ensures r.Ok? ==> Fresh([piece], [r.value]) && total < MAX_TRANSLATION_SEGMENTS && (r.value.translated.None? <==> HasContent(segment))
    ensures r.Err? ==> r.error == TooManySegments && total >= MAX_TRANSLATION_SEGMENTS
  {
    piece := PieceOf(encode, eos, text, segment);
    if total >= MAX_TRANSLATION_SEGMENTS { return Err(TooManySegments), piece; }
    var content := text[segment.span.contentStart..segment.span.contentEnd];
    var separator := text[segment.span.separatorStart..segment.span.separatorEnd];
    if content == [] { return Ok(PlannedSegment([], separator, Some([]), 0, 0)), piece; }
    var tokens := encode(content);
    if tokens.Err? { return Err(EncodingFailed), piece; }
    if |tokens.value| != segment.pieces { return Err(PieceCountChanged), piece; }
    return Ok(PlannedSegment(tokens.value + [eos], separator, None, |tokens.value| + 1, 0)), piece;
  }

  method PlanSegments(encode: Encoder, eos: int, text: Text, total: nat, segments: seq<Segmenter.Segment>, ghost all: seq<Piece>)
    returns (r: Result<(seq<PlannedSegment>, nat), Error>)
    requires total <= MAX_TRANSLATION_SEGMENTS && |all| == |segments|
    requires forall i :: 0 <= i < |segments| ==> Segmenter.SegmentOk(text, PieceCount(encode), MAX_SOURCE_TOKENS - 1, segments[i])
    requires forall i :: 0 <= i < |segments| ==> all[i] == PieceOf(encode, eos, text, segments[i])
    ensures r.Ok? ==> Fresh(all, r.value.0) && r.value.1 == total + Contents(segments) <= MAX_TRANSLATION_SEGMENTS
    ensures r.Ok? ==> !TooMany(total, segments)
    ensures r.Err? ==> r.error == TooManySegments && TooMany(total, segments)
  {
    var planned: seq<PlannedSegment> := [];
    var count: nat, i: nat := total, 0;
    while i < |segments|
      invariant PlannedSegments(segments, all, i, total, planned, count)
      decreases |segments| - i
    {
      var segment: Result<PlannedSegment, Error>;
      ghost var piece: Piece;
      segment, piece := PlanSegment(encode, eos, text, segments[i], count);
      if segment.Err? {
        CountedBefore(segments, i);
        return Err(segment.error);
      }
      OneMoreSegment(segments, all, i, total, planned, count, segment.value);
      planned := planned + [segment.value];
      if segment.value.translated.None? { count := count + 1; }
      i := i + 1;
    }
    assert all[..|segments|] == all && segments[..|segments|] == segments;
    return Ok((planned, count));
  }

  /** The first `i` segments are planned and counted; none of them was one too many. */
  ghost predicate PlannedSegments(segments: seq<Segmenter.Segment>, all: seq<Piece>, i: nat, total: nat, planned: seq<PlannedSegment>, count: nat) {
    && i <= |segments| == |all| && Fresh(all[..i], planned) && count == total + Contents(segments[..i]) <= MAX_TRANSLATION_SEGMENTS
    && (i > 0 ==> total + Contents(segments[..i - 1]) < MAX_TRANSLATION_SEGMENTS)
  }

  lemma OneMoreSegment(segments: seq<Segmenter.Segment>, all: seq<Piece>, i: nat, total: nat, planned: seq<PlannedSegment>, count: nat,
                       segment: PlannedSegment)
    requires PlannedSegments(segments, all, i, total, planned, count) && i < |segments| && count < MAX_TRANSLATION_SEGMENTS
    requires Fresh([all[i]], [segment]) && (segment.translated.None? <==> HasContent(segments[i]))
    ensures PlannedSegments(segments, all, i + 1, total, planned + [segment], if segment.translated.None? then count + 1 else count)
  {
    FreshAppend(all[..i], planned, all[i], segment);
    ContentsGrow(segments, i);
    assert all[..i + 1] == all[..i] + [all[i]];
  }

  lemma CountedBefore(segments: seq<Segmenter.Segment>, i: nat)
    requires i < |segments|
    ensures Contents(segments[..i]) <= Contents(segments[..|segments| - 1])
  {
    ContentsOfPrefix(segments[..|segments| - 1], i);
    assert segments[..|segments| - 1][..i] == segments[..i];
  }

  method PlanInput(encode: Encoder, ghost cut: Cutter, eos: int, input: Input, total: nat, periodEnds: Segmenter.PeriodRule)
    returns (r: Result<(seq<PlannedSegment>, nat), Error>)
    requires Valid(input.text) && total <= MAX_TRANSLATION_SEGMENTS && Cuts(cut, encode, MAX_SOURCE_TOKENS - 1, periodEnds)
    ensures r.Ok? ==> PlannedAt(encode, cut, eos, input, r.value.0) && r.value.1 == total + ContentsOf(cut, input) <= MAX_TRANSLATION_SEGMENTS
    ensures r.Ok? ==> !TooMany(total, cut(input.text).value)
    ensures r.Err? ==> if r.error == TooManySegments then cut(input.text).Some? && TooMany(total, cut(input.text).value)
                       else cut(input.text).None? && PlanFails(encode, input.text, r.error)
  {
    var segmented := Segmenter.SegmentText(input.text, MAX_SOURCE_TOKENS - 1, PieceCount(encode), periodEnds);
    assert cut(input.text) == Segmenter.SegmentsOf(input.text, PieceCount(encode), MAX_SOURCE_TOKENS - 1, periodEnds);
    if segmented.Err? { return Err(InvalidInput(segmented.error)); }
    r := PlanSegments(encode, eos, input.text, total, segmented.value, PiecesOf(encode, eos, input.text, segmented.value));
  }

  lemma FreshAppend(pieces: seq<Piece>, planned: seq<PlannedSegment>, piece: Piece, segment: PlannedSegment)
    requires Fresh(pieces, planned) && Fresh([piece], [segment])
    ensures Fresh(pieces + [piece], planned + [segment])
    ensures segment.translated.None? <==> piece.tokens.Some?
  {
    assert [segment][0] == Unplanned([piece][0]);
  }

  ghost predicate PlannedAt(encode: Encoder, cut: Cutter, eos: int, input: Input, planned: seq<PlannedSegment>) {
    && cut(input.text).Some? && Segmenter.Segmentation(input.text, PieceCount(encode), MAX_SOURCE_TOKENS - 1, cut(input.text).value)
    && Fresh(PiecesOf(encode, eos, input.text, cut(input.text).value), planned)
  }

  /** The first `n` inputs are planned, go in the direction of the model, and are not too many. */
  ghost predicate PlannedTo(encode: Encoder, cut: Cutter, eos: int, inputs: seq<Input>, sourceLang: string, targetLang: string, n: nat,
                            planned: seq<seq<PlannedSegment>>)
  {
    && n <= |inputs| && |planned| == n
    && forall i: nat {:trigger planned[i]} :: i < n ==>
         && inputs[i].sourceLang == sourceLang && inputs[i].targetLang == targetLang
         && PlannedAt(encode, cut, eos, inputs[i], planned[i]) && !CrowdedAt(cut, inputs, i)
  }

  lemma OneMorePlanned(encode: Encoder, cut: Cutter, eos: int, inputs: seq<Input>, sourceLang: string, targetLang: string, n: nat,
                       planned: seq<seq<PlannedSegment>>, plan: seq<PlannedSegment>)
    requires PlannedTo(encode, cut, eos, inputs, sourceLang, targetLang, n, planned) && n < |inputs|
    requires inputs[n].sourceLang == sourceLang && inputs[n].targetLang == targetLang
    requires PlannedAt(encode, cut, eos, inputs[n], plan) && !CrowdedAt(cut, inputs, n)
    ensures PlannedTo(encode, cut, eos, inputs, sourceLang, targetLang, n + 1, planned + [plan])
  {
    var planned' := planned + [plan];
    forall i: nat | i < n + 1
      ensures inputs[i].sourceLang == sourceLang && inputs[i].targetLang == targetLang
      ensures PlannedAt(encode, cut, eos, inputs[i], planned'[i]) && !CrowdedAt(cut, inputs, i)
    {
      if i < n { assert PlannedAt(encode, cut, eos, inputs[i], planned[i]); }
    }
  }

  lemma PlannedIsRoomy(encode: Encoder, cut: Cutter, eos: int, inputs: seq<Input>, sourceLang: string, targetLang: string,
                       planned: seq<seq<PlannedSegment>>)
    requires PlannedTo(encode, cut, eos, inputs, sourceLang, targetLang, |inputs|, planned)
    ensures !Crowded(cut, inputs)
  {
    forall i: nat | i < |inputs| ensures !CrowdedAt(cut, inputs, i) { assert PlannedAt(encode, cut, eos, inputs[i], planned[i]); }
  }

  /** All texts can be cut. */
  ghost predicate AllCut(cut: Cutter, inputs: seq<Input>) {
    forall i: nat {:trigger inputs[i]} :: i < |inputs| ==> cut(inputs[i].text).Some?
  }

  /** Inputs are checked and planned one by one, so an early failure hides a later wrong direction. */
  method PlanAll(encode: Encoder, ghost cut: Cutter, eos: int, inputs: seq<Input>, sourceLang: string, targetLang: string,
                 periodEnds: Segmenter.PeriodRule)
    returns (r: Result<seq<seq<PlannedSegment>>, Error>)
    requires Cuts(cut, encode, MAX_SOURCE_TOKENS - 1, periodEnds) && forall i :: 0 <= i < |inputs| ==> Valid(inputs[i].text)
    ensures r.Ok? ==> PlannedTo(encode, cut, eos, inputs, sourceLang, targetLang, |inputs|, r.value)
    ensures r.Err? ==> match r.error
                       case UnsupportedDirection => !SameDirection(inputs, sourceLang, targetLang)
                       case TooManySegments => Crowded(cut, inputs)
                       case e => !AllCut(cut, inputs) && exists i: nat :: i < |inputs| && PlanFails(encode, inputs[i].text, e)
  {
    var planned: seq<seq<PlannedSegment>> := [];
    var total: nat := 0;
    for i := 0 to |inputs|
      invariant PlannedTo(encode, cut, eos, inputs, sourceLang, targetLang, i, planned)
      invariant total == ContentTotal(cut, inputs, i) <= MAX_TRANSLATION_SEGMENTS
    {
      if inputs[i].sourceLang != sourceLang || inputs[i].targetLang != targetLang { return Err(UnsupportedDirection); }
      var plan := PlanInput(encode, cut, eos, inputs[i], total, periodEnds);
      if plan.Err? {
        if plan.error == TooManySegments { assert CrowdedAt(cut, inputs, i); }
        return Err(plan.error);
      }
      OneMorePlanned(encode, cut, eos, inputs, sourceLang, targetLang, i, planned, plan.value.0);
      planned, total := planned + [plan.value.0], plan.value.1;
    }
    return Ok(planned);
  }

  // ---------------------------------------------------------------------------------- reassembly

  lemma AssembleOne(c: Context, pieces: seq<Piece>, budget: nat, s: PlannedSegment, j: nat)
    requires j < |pieces| && SegmentAt(c, pieces, budget, |pieces|, s, j)
    requires Fold(c.row, c.decode, c.eos, pieces, budget, j).Some?
    ensures s.translated.Some? && s.inputTokens <= MAX_SOURCE_TOKENS
    ensures var before := Fold(c.row, c.decode, c.eos, pieces, budget, j).value;
            && Fold(c.row, c.decode, c.eos, pieces, budget, j + 1)
               == Some(Output(before.text + s.translated.value + s.separator, before.inputTokens + s.inputTokens,
                              before.outputTokens + s.outputTokens))
            && before.outputTokens + s.outputTokens <= budget
  {
    FoldKeepsBudget(c.row, c.decode, c.eos, pieces, budget, j);
    FoldKeepsBudget(c.row, c.decode, c.eos, pieces, budget, j + 1);
  }

  method Assemble(ghost c: Context, ghost pieces: seq<Piece>, ghost budget: Usize, planned: seq<PlannedSegment>, ghost remaining: nat)
    returns (r: Result<Output, Error>)
    requires InputOk(c, pieces, budget, planned, |pieces|, remaining) && |pieces| <= Segmenter.MAX_SEGMENTS
    ensures r.Ok? && Fold(c.row, c.decode, c.eos, pieces, budget, |pieces|) == Some(r.value)
  {
    var text: Text := [];
    var inputTokens: nat, outputTokens: nat := 0, 0;
    for j := 0 to |planned|
      invariant Fold(c.row, c.decode, c.eos, pieces, budget, j) == Some(Output(text, inputTokens, outputTokens))
      invariant inputTokens <= j * MAX_SOURCE_TOKENS
    {
      AssembleOne(c, pieces, budget, planned[j], j);
      if planned[j].translated.None? { return Err(NoResult); }
      if inputTokens + planned[j].inputTokens >= 0x1_0000_0000 { return Err(CountOverflow); }
      if outputTokens + planned[j].outputTokens >= 0x1_0000_0000 { return Err(CountOverflow); }
      text := text + planned[j].translated.value + planned[j].separator;
      inputTokens := inputTokens + planned[j].inputTokens;
      outputTokens := outputTokens + planned[j].outputTokens;
    }
    return Ok(Output(text, inputTokens, outputTokens));
  }

  // ---------------------------------------------------------------------------------- the whole function

  lemma PlanIsOk(c: Context, encode: Encoder, cut: Cutter, inputs: seq<Input>, sourceLang: string, targetLang: string,
                 planned: seq<seq<PlannedSegment>>)
    requires PlannedTo(encode, cut, c.eos, inputs, sourceLang, targetLang, |inputs|, planned)
    ensures AllInputs(c, AllPieces(c, encode, cut, inputs), Budgets(inputs), State.State(planned, seq(|inputs|, i => 0), Budgets(inputs)))
    ensures forall i {:trigger AllPieces(c, encode, cut, inputs)[i]} :: 0 <= i < |inputs| ==>
              |AllPieces(c, encode, cut, inputs)[i]| <= Segmenter.MAX_SEGMENTS
  {
    var all := AllPieces(c, encode, cut, inputs);
    var s := State.State(planned, seq(|inputs|, i => 0), Budgets(inputs));
    forall i: nat | i < |all| ensures InputAt(c, all, Budgets(inputs), s, i) && |all[i]| <= Segmenter.MAX_SEGMENTS {
      assert PlannedAt(encode, cut, c.eos, inputs[i], planned[i]);
      NothingSpent(c, all[i], Budgets(inputs)[i], planned[i]);
    }
  }

  method AssembleAll(ghost c: Context, ghost all: seq<seq<Piece>>, ghost budgets: seq<Usize>, s: State) returns (r: Result<seq<Output>, Error>)
    requires AllInputs(c, all, budgets, s)
    requires forall i: nat {:trigger s.positions[i]} :: i < |all| ==> s.positions[i] == |all[i]| <= Segmenter.MAX_SEGMENTS
    ensures r.Ok? && |r.value| == |all|
    ensures forall i :: 0 <= i < |all| ==> Fold(c.row, c.decode, c.eos, all[i], budgets[i], |all[i]|) == Some(r.value[i])
  {
    var outputs: seq<Output> := [];
    for i := 0 to |s.planned|
      invariant |outputs| == i
      invariant forall k :: 0 <= k < i ==> Fold(c.row, c.decode, c.eos, all[k], budgets[k], |all[k]|) == Some(outputs[k])
    {
      assert InputAt(c, all, budgets, s, i) && s.positions[i] == |all[i]|;
      var output := Assemble(c, all[i], budgets[i], s.planned[i], s.remaining[i]);
      outputs := outputs + [output.value];
    }
    return Ok(outputs);
  }

  lemma FoldedIsTranslation(translate: Translator, c: Context, encode: Encoder, cut: Cutter, inputs: seq<Input>, i: nat,
                            planned: seq<PlannedSegment>, output: Output)
    requires IsFolder(translate, c, encode, cut) && i < |inputs| && PlannedAt(encode, cut, c.eos, inputs[i], planned)
    requires var pieces := AllPieces(c, encode, cut, inputs)[i];
             Fold(c.row, c.decode, c.eos, pieces, Budgets(inputs)[i], |pieces|) == Some(output)
    ensures translate(inputs[i]) == Some(output)
  {
    assert translate(inputs[i]) == FoldOf(c, encode, cut, inputs[i]);
  }

  lemma FoldedIsBatch(translate: Translator, c: Context, encode: Encoder, cut: Cutter, sourceLang: string, targetLang: string,
                      inputs: seq<Input>, planned: seq<seq<PlannedSegment>>, all: seq<seq<Piece>>, outputs: seq<Output>)
    requires IsFolder(translate, c, encode, cut) && |outputs| == |inputs| && all == AllPieces(c, encode, cut, inputs)
    requires PlannedTo(encode, cut, c.eos, inputs, sourceLang, targetLang, |inputs|, planned)
    requires forall i :: 0 <= i < |inputs| ==> Fold(c.row, c.decode, c.eos, all[i], Budgets(inputs)[i], |all[i]|) == Some(outputs[i])
    ensures BatchHere(translate, cut, sourceLang, targetLang, inputs) == Some(outputs)
  {
    forall i: nat | i < |inputs|
      ensures translate(inputs[i]) == Some(outputs[i]) && !CrowdedAt(cut, inputs, i)
      ensures inputs[i].sourceLang == sourceLang && inputs[i].targetLang == targetLang
    {
      assert PlannedAt(encode, cut, c.eos, inputs[i], planned[i]);
      FoldedIsTranslation(translate, c, encode, cut, inputs, i, planned[i], outputs[i]);
    }
    assert Outputs(translate, inputs) == outputs;
  }

  lemma StuckIsNone(translate: Translator, c: Context, encode: Encoder, cut: Cutter, sourceLang: string, targetLang: string, inputs: seq<Input>)
    requires IsFolder(translate, c, encode, cut) && Stuck(c, AllPieces(c, encode, cut, inputs), Budgets(inputs))
    ensures BatchHere(translate, cut, sourceLang, targetLang, inputs).None?
  {
    var all := AllPieces(c, encode, cut, inputs);
    var i: nat :| i < |all| && Fold(c.row, c.decode, c.eos, all[i], Budgets(inputs)[i], |all[i]|).None?;
    assert translate(inputs[i]) == FoldOf(c, encode, cut, inputs[i]);
  }

  lemma NotCutIsNone(translate: Translator, c: Context, encode: Encoder, cut: Cutter, sourceLang: string, targetLang: string, inputs: seq<Input>)
    requires IsFolder(translate, c, encode, cut) && !AllCut(cut, inputs)
    ensures BatchHere(translate, cut, sourceLang, targetLang, inputs).None?
  {
    var i: nat :| i < |inputs| && cut(inputs[i].text).None?;
    assert translate(inputs[i]) == FoldOf(c, encode, cut, inputs[i]);
  }

  /** The only ways in which a translation fails. */
  ghost predicate Fails(engine: TokenEngine, c: Context, encode: Encoder, cut: Cutter, sourceLang: string, targetLang: string,
                        inputs: seq<Input>, e: Error)
  {
    match e
    case UnsupportedDirection => !SameDirection(inputs, sourceLang, targetLang)
    case TooManySegments => Crowded(cut, inputs)
    case InvalidInput(_) => exists i: nat :: i < |inputs| && PlanFails(encode, inputs[i].text, e)
    case _ => RunFails(engine, c, |inputs|, e)
  }

  /** Everything after the plan. */
  method TranslatePlanned(engine: TokenEngine, ghost c: Context, ghost cut: Cutter, ghost translate: Translator, ghost encode: Encoder,
                          decode: Decoder, ghost sourceLang: string, ghost targetLang: string, eos: int, inputs: seq<Input>,
                          planned: seq<seq<PlannedSegment>>)
    returns (r: Result<seq<Output>, Error>)
    requires AnswersRowByRow(engine, c.row) && c.decode == decode && c.eos == eos && IsFolder(translate, c, encode, cut)
    requires PlannedTo(encode, cut, eos, inputs, sourceLang, targetLang, |inputs|, planned)
    ensures r.Ok? ==> BatchHere(translate, cut, sourceLang, targetLang, inputs) == Some(r.value)
    ensures r.Err? && AnswersAll(engine, c.row) && Packable(|inputs|) ==> BatchHere(translate, cut, sourceLang, targetLang, inputs).None?
    ensures r.Err? ==> RunFails(engine, c, |inputs|, r.error)
  {
    ghost var all := AllPieces(c, encode, cut, inputs);
    PlanIsOk(c, encode, cut, inputs, sourceLang, targetLang, planned);
    var state := State.State(planned, seq(|inputs|, i => 0), Budgets(inputs));
    var done := RunRounds(c, all, Budgets(inputs), state, engine, decode, eos);
    if done.Err? {
      if AnswersAll(engine, c.row) && Packable(|inputs|) { StuckIsNone(translate, c, encode, cut, sourceLang, targetLang, inputs); }
      return Err(done.error);
    }
    r := AssembleAll(c, all, Budgets(inputs), done.value);
    FoldedIsBatch(translate, c, encode, cut, sourceLang, targetLang, inputs, planned, all, r.value);
  }

  /** `translate_batch`: the batch becomes what its inputs alone would become, and fails only if one of them cannot. */
  method TranslateBatch(engine: TokenEngine, ghost c: Context, ghost cut: Cutter, ghost translate: Translator, encode: Encoder, decode: Decoder,
                        periodEnds: Segmenter.PeriodRule, sourceLang: string, targetLang: string, eos: int, inputs: seq<Input>)
    returns (r: Result<seq<Output>, Error>)
    requires AnswersRowByRow(engine, c.row) && c.decode == decode && c.eos == eos
    requires Cuts(cut, encode, MAX_SOURCE_TOKENS - 1, periodEnds) && IsFolder(translate, c, encode, cut)
    requires forall i :: 0 <= i < |inputs| ==> Valid(inputs[i].text)
    ensures r.Ok? ==> BatchHere(translate, cut, sourceLang, targetLang, inputs) == Some(r.value)
    ensures AnswersAll(engine, c.row) && Packable(|inputs|) ==> (r.Ok? <==> BatchHere(translate, cut, sourceLang, targetLang, inputs).Some?)
    ensures r.Err? ==> Fails(engine, c, encode, cut, sourceLang, targetLang, inputs, r.error)
    ensures SameDirection(inputs, sourceLang, targetLang) && AllCut(cut, inputs) ==> (r == Err(TooManySegments) <==> Crowded(cut, inputs))
  {
    if inputs == [] {
      assert Outputs(translate, inputs) == [];
      return Ok([]);
    }
    var plans := PlanAll(encode, cut, eos, inputs, sourceLang, targetLang, periodEnds);
    if plans.Err? {
      if !AllCut(cut, inputs) { NotCutIsNone(translate, c, encode, cut, sourceLang, targetLang, inputs); }
      return Err(plans.error);
    }
    PlannedIsRoomy(encode, cut, eos, inputs, sourceLang, targetLang, plans.value);
    r := TranslatePlanned(engine, c, cut, translate, encode, decode, sourceLang, targetLang, eos, inputs, plans.value);
  }

  // ---------------------------------------------------------------------------------- the same on both backends

  /** Every sentence fits the limit of the CPU, and the CPU knows all its tokens. */
  ghost predicate Shared(c: Context, encode: Encoder, periodEnds: Segmenter.PeriodRule, cpu: Cutter, input: Input) {
    && Segmenter.SentencesFit(input.text, PieceCount(encode), MAXIMUM_SOURCE_TOKENS - 1, periodEnds)
    && (cpu(input.text).Some? ==> KnownInput(c, encode, cpu, input))
  }

  lemma SameOnBoth(c: Context, encode: Encoder, periodEnds: Segmenter.PeriodRule, cpu: Cutter, metal: Cutter,
                   onCpu: Translator, onMetal: Translator, input: Input)
    requires Cuts(cpu, encode, MAXIMUM_SOURCE_TOKENS - 1, periodEnds) && Cuts(metal, encode, MAX_SOURCE_TOKENS - 1, periodEnds)
    requires IsTranslator(onCpu, c, encode, cpu) && IsFolder(onMetal, c, encode, metal) && Shared(c, encode, periodEnds, cpu, input)
    ensures cpu(input.text) == metal(input.text) && onCpu(input) == onMetal(input)
  {
    Segmenter.SameSegments(input.text, PieceCount(encode), MAXIMUM_SOURCE_TOKENS - 1, MAX_SOURCE_TOKENS - 1, periodEnds);
    assert onCpu(input) == TranslationOf(c, encode, cpu, input) && onMetal(input) == FoldOf(c, encode, metal, input);
  }

  /** Where Metal has room, the CPU has, too. */
  lemma {:induction false} RoomOnBoth(cpu: Cutter, metal: Cutter, inputs: seq<Input>, n: nat)
    requires n <= |inputs| && !Crowded(metal, inputs) && forall i {:trigger inputs[i]} :: 0 <= i < |inputs| ==> cpu(inputs[i].text) == metal(inputs[i].text)
    ensures ContentTotal(cpu, inputs, n) == ContentTotal(metal, inputs, n) <= MAX_TRANSLATION_SEGMENTS
  {
    if n > 0 {
      RoomOnBoth(cpu, metal, inputs, n - 1);
      assert cpu(inputs[n - 1].text) == metal(inputs[n - 1].text);
      assert !CrowdedAt(metal, inputs, n - 1);
    }
  }

  /** With one row function and one tokenizer, texts that both backends share become the same on both, as long as Metal has room. */
  lemma BackendsAgree(c: Context, encode: Encoder, periodEnds: Segmenter.PeriodRule, cpu: Cutter, metal: Cutter,
                      onCpu: Translator, onMetal: Translator, sourceLang: string, targetLang: string, inputs: seq<Input>)
    requires Cuts(cpu, encode, MAXIMUM_SOURCE_TOKENS - 1, periodEnds) && Cuts(metal, encode, MAX_SOURCE_TOKENS - 1, periodEnds)
    requires IsTranslator(onCpu, c, encode, cpu) && IsFolder(onMetal, c, encode, metal)
    requires (forall i :: 0 <= i < |inputs| ==> Shared(c, encode, periodEnds, cpu, inputs[i])) && !Crowded(metal, inputs)
    ensures BatchOf(onCpu, cpu, sourceLang, targetLang, inputs) == BatchHere(onMetal, metal, sourceLang, targetLang, inputs)
  {
    forall i | 0 <= i < |inputs| ensures cpu(inputs[i].text) == metal(inputs[i].text) && onCpu(inputs[i]) == onMetal(inputs[i]) {
      SameOnBoth(c, encode, periodEnds, cpu, metal, onCpu, onMetal, inputs[i]);
    }
    RoomOnBoth(cpu, metal, inputs, |inputs|);
    assert Outputs(onCpu, inputs) == Outputs(onMetal, inputs);
  }

  /** The same with the functions that the two backends compute. */
  lemma SameBatchOnBoth(c: Context, encode: Encoder, periodEnds: Segmenter.PeriodRule, sourceLang: string, targetLang: string, inputs: seq<Input>)
    requires var cpu, metal := CutterFor(encode, MAXIMUM_SOURCE_TOKENS - 1, periodEnds), CutterFor(encode, MAX_SOURCE_TOKENS - 1, periodEnds);
             (forall i :: 0 <= i < |inputs| ==> Shared(c, encode, periodEnds, cpu, inputs[i])) && !Crowded(metal, inputs)
    ensures var cpu, metal := CutterFor(encode, MAXIMUM_SOURCE_TOKENS - 1, periodEnds), CutterFor(encode, MAX_SOURCE_TOKENS - 1, periodEnds);
            BatchOf(TranslatorFor(c, encode, cpu), cpu, sourceLang, targetLang, inputs)
            == BatchHere(FolderFor(c, encode, metal), metal, sourceLang, targetLang, inputs)
  {
    var cpu, metal := CutterFor(encode, MAXIMUM_SOURCE_TOKENS - 1, periodEnds), CutterFor(encode, MAX_SOURCE_TOKENS - 1, periodEnds);
    BackendsAgree(c, encode, periodEnds, cpu, metal, TranslatorFor(c, encode, cpu), FolderFor(c, encode, metal), sourceLang, targetLang, inputs);
  }
}
