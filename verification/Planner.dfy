/**
 Translation of long texts with one token engine (`translate_with_engine` of `crates/marian-cpu/src/backend.rs`):
 the segments of many inputs share bounded batches, yet each input gets what translating its own segments
 from left to right would give, within its own output budget.
 */
module Planner {
  import opened Base
  import opened Layout
  import opened Utf8
  import opened PackedBatch
  import Segmenter

  const MAXIMUM_SOURCE_TOKENS: nat := 256
  const MAXIMUM_TRANSLATION_SEGMENTS: nat := 4_096
  const MAXIMUM_ENGINE_BATCH: nat := 256
  const MAXIMUM_PADDED_ATTENTION_CELLS: nat := 65_536

  /** `usize` on the smallest supported target. */
  type Usize = n: nat | n < 0x1_0000_0000

  datatype Input = Input(sourceLang: string, targetLang: string, text: Text, maxOutputTokens: Usize)

  datatype Output = Output(text: Text, inputTokens: nat, outputTokens: nat)

  datatype Error =
    | UnsupportedDirection
    | InvalidInput(cause: Segmenter.Error)
    | TooManySegments
    | EncodingFailed
    | PieceCountChanged
    | TokenOutsideVocabulary
    | SegmentTooLong
    | TranslatedTwice
    | NoBoundedBatch
    | PackedTooLong
    | EngineFailed(message: string)
    | MalformedOffsets
    | OffsetsOutOfRange
    | BudgetExceeded
    | DecodingFailed(message: string)
    | NoResult
    | CountOverflow

  /** The errors that stand for a broken invariant of the planner. */
  predicate Internal(e: Error) {
    e.EncodingFailed? || e.PieceCountChanged? || e.SegmentTooLong? || e.TranslatedTwice? || e.NoBoundedBatch? || e.PackedTooLong? || e.NoResult?
    || e.CountOverflow?
  }

  type Encoder = Text -> Result<seq<int>, string>
  type Decoder = seq<int> -> Result<Text, string>

  /** The answer to one row with its limit, if there is one. */
  type Row = (seq<int>, nat) -> Option<seq<int>>

  /** How a text is cut into segments, if it can be. */
  type Cutter = Text -> Option<seq<Segmenter.Segment>>
  type TokenEngine = (seq<int>, seq<U32>, seq<nat>) --> Result<BatchOutput, string>

  // ---------------------------------------------------------------------------------- what an input is to become

  /** A segment as planned: its tokens with EOS, unless it has no content, and its separator. */
  datatype Piece = Piece(tokens: Option<seq<int>>, separator: Text)

  function WithoutEos(tokens: seq<int>, eos: int): seq<int> {
    if tokens == [] then []
    else
      var last := tokens[|tokens| - 1];
      if last == eos then WithoutEos(tokens[..|tokens| - 1], eos) else WithoutEos(tokens[..|tokens| - 1], eos) + [last]
  }

  lemma {:induction false} WithoutEosShrinks(tokens: seq<int>, eos: int)
    ensures |WithoutEos(tokens, eos)| <= |tokens| && eos !in WithoutEos(tokens, eos)
  {
    if tokens != [] { WithoutEosShrinks(tokens[..|tokens| - 1], eos); }
  }

  function RowAnswer(row: Row, tokens: seq<int>, limit: nat): seq<int> {
    if row(tokens, limit).Some? then row(tokens, limit).value else []
  }

  /** Tokens generated for one piece with `budget` tokens left. */
  function Generated(row: Row, piece: Piece, budget: int): seq<int> {
    if piece.tokens.None? || budget <= 0 then [] else RowAnswer(row, piece.tokens.value, budget)
  }

  /** The budget left by the first `n` pieces. */
  function Left(row: Row, pieces: seq<Piece>, budget: nat, n: nat): int
    requires n <= |pieces|
  {
    if n == 0 then budget
    else
      var left := Left(row, pieces, budget, n - 1);
      left - |Generated(row, pieces[n - 1], left)|
  }

  /** The translation of one piece: empty once the budget is used up. */
  function PieceText(row: Row, decode: Decoder, eos: int, piece: Piece, budget: int): Result<Text, string> {
    if piece.tokens.None? || budget <= 0 then Ok([])
    else if row(piece.tokens.value, budget).None? then Err("no answer")
    else decode(WithoutEos(RowAnswer(row, piece.tokens.value, budget), eos))
  }

  function PieceTokens(piece: Piece): nat {
    if piece.tokens.None? then 0 else |piece.tokens.value|
  }

  /** The first `n` pieces from left to right; nothing, if a piece has no answer, overdraws the budget or does not decode. */
  function Fold(row: Row, decode: Decoder, eos: int, pieces: seq<Piece>, budget: nat, n: nat): Option<Output>
    requires n <= |pieces|
  {
    if n == 0 then Some(Output([], 0, 0))
    else
      var before := Fold(row, decode, eos, pieces, budget, n - 1);
      var left := Left(row, pieces, budget, n - 1);
      var generated := Generated(row, pieces[n - 1], left);
      var text := PieceText(row, decode, eos, pieces[n - 1], left);
      if before.None? || |generated| > left || text.Err? then None
      else Some(Output(before.value.text + text.value + pieces[n - 1].separator,
                       before.value.inputTokens + PieceTokens(pieces[n - 1]),
                       before.value.outputTokens + |WithoutEos(generated, eos)|))
  }

  /** A translated input has generated no more tokens than it was allowed. */
  lemma {:induction false} FoldKeepsBudget(row: Row, decode: Decoder, eos: int, pieces: seq<Piece>, budget: nat, n: nat)
    requires n <= |pieces| && Fold(row, decode, eos, pieces, budget, n).Some?
    ensures 0 <= Left(row, pieces, budget, n) <= budget
    ensures Fold(row, decode, eos, pieces, budget, n).value.outputTokens <= budget - Left(row, pieces, budget, n)
  {
    if n > 0 {
      FoldKeepsBudget(row, decode, eos, pieces, budget, n - 1);
      WithoutEosShrinks(Generated(row, pieces[n - 1], Left(row, pieces, budget, n - 1)), eos);
    }
  }

  /** The tokenizer of the segmenter: the number of pieces. */
  function PieceCount(encode: Encoder): Segmenter.Tokenizer {
    (text: Text) => var pieces := encode(text); if pieces.Ok? then Ok(|pieces.value|) else Err(pieces.error)
  }

  function Slice(text: Text, from: nat, to: nat): Text {
    if from <= to <= |text| then text[from..to] else []
  }

  function PieceOf(encode: Encoder, eos: int, text: Text, s: Segmenter.Segment): Piece {
    var content := Slice(text, s.span.contentStart, s.span.contentEnd);
    var separator := Slice(text, s.span.separatorStart, s.span.separatorEnd);
    var pieces := encode(content);
    if content == [] || pieces.Err? then Piece(None, separator) else Piece(Some(pieces.value + [eos]), separator)
  }

  function PiecesOf(encode: Encoder, eos: int, text: Text, segments: seq<Segmenter.Segment>): (pieces: seq<Piece>)
    ensures |pieces| == |segments|
  {
    seq(|segments|, i requires 0 <= i < |segments| => PieceOf(encode, eos, text, segments[i]))
  }

  /** All tokens but the appended EOS are in the vocabulary. */
  ghost predicate Known(vocabulary: nat, pieces: seq<Piece>) {
    forall j: nat {:trigger pieces[j]} :: j < |pieces| ==> KnownPiece(vocabulary, pieces[j])
  }

  ghost predicate KnownPiece(vocabulary: nat, piece: Piece) {
    piece.tokens.Some? ==> forall k :: 0 <= k < |piece.tokens.value| - 1 ==> 0 <= piece.tokens.value[k] < vocabulary
  }

  /** What an input is to become, by itself: its segments folded from left to right, within its own budget. */
  function FoldOf(c: Context, encode: Encoder, cut: Cutter, input: Input): Option<Output> {
    if cut(input.text).None? then None
    else
      var pieces := PiecesOf(encode, c.eos, input.text, cut(input.text).value);
      Fold(c.row, c.decode, c.eos, pieces, input.maxOutputTokens, |pieces|)
  }

  ghost predicate KnownInput(c: Context, encode: Encoder, cut: Cutter, input: Input) {
    cut(input.text).Some? && Known(c.vocabulary, PiecesOf(encode, c.eos, input.text, cut(input.text).value))
  }

  ghost function TranslationOf(c: Context, encode: Encoder, cut: Cutter, input: Input): Option<Output> {
    if KnownInput(c, encode, cut, input) then FoldOf(c, encode, cut, input) else None
  }

  predicate HasContent(s: Segmenter.Segment) {
    s.span.contentStart < s.span.contentEnd
  }

  /** How many segments have content. */
  function Contents(segments: seq<Segmenter.Segment>): nat {
    if segments == [] then 0 else Contents(segments[..|segments| - 1]) + if HasContent(segments[|segments| - 1]) then 1 else 0
  }

  function ContentsOf(cut: Cutter, input: Input): nat {
    if cut(input.text).Some? then Contents(cut(input.text).value) else 0
  }

  /** How many segments of the first `n` inputs have content. */
  function ContentTotal(cut: Cutter, inputs: seq<Input>, n: nat): nat
    requires n <= |inputs|
  {
    if n == 0 then 0 else ContentTotal(cut, inputs, n - 1) + ContentsOf(cut, inputs[n - 1])
  }

  lemma {:induction false} ContentTotalGrows(cut: Cutter, inputs: seq<Input>, m: nat, n: nat)
    requires m <= n <= |inputs|
    ensures ContentTotal(cut, inputs, m) <= ContentTotal(cut, inputs, n)
  {
    if m < n { ContentTotalGrows(cut, inputs, m, n - 1); }
  }

  function OrEmpty(output: Option<Output>): Output {
    if output.Some? then output.value else Output([], 0, 0)
  }

  /** What each input is to become, as a function of its own, so that proofs about batches need not look into it. */
  type Translator = Input -> Option<Output>

  ghost predicate IsTranslator(translate: Translator, c: Context, encode: Encoder, cut: Cutter) {
    forall input {:trigger TranslationOf(c, encode, cut, input)} :: translate(input) == TranslationOf(c, encode, cut, input)
  }

  ghost function TranslatorFor(c: Context, encode: Encoder, cut: Cutter): (translate: Translator)
    ensures IsTranslator(translate, c, encode, cut)
  {
    input => TranslationOf(c, encode, cut, input)
  }

  /** What a batch is to become, if it can be translated. */
  ghost function BatchOf(translate: Translator, cut: Cutter, sourceLang: string, targetLang: string, inputs: seq<Input>): Option<seq<Output>> {
    if SameDirection(inputs, sourceLang, targetLang) && ContentTotal(cut, inputs, |inputs|) <= MAXIMUM_TRANSLATION_SEGMENTS
       && forall i :: 0 <= i < |inputs| ==> translate(inputs[i]).Some?
    then Some(Outputs(translate, inputs))
    else None
  }

  function Outputs(translate: Translator, inputs: seq<Input>): seq<Output> {
    seq(|inputs|, i requires 0 <= i < |inputs| => OrEmpty(translate(inputs[i])))
  }

  /** Whatever shares a batch with an input, its output is the one it would have alone. */
  lemma BatchIsolates(translate: Translator, cut: Cutter, sourceLang: string, targetLang: string, inputs: seq<Input>, i: nat)
    requires i < |inputs| && BatchOf(translate, cut, sourceLang, targetLang, inputs).Some?
    ensures BatchOf(translate, cut, sourceLang, targetLang, [inputs[i]]) == Some([BatchOf(translate, cut, sourceLang, targetLang, inputs).value[i]])
  {
    var one := [inputs[i]];
    ContentTotalGrows(cut, inputs, i + 1, |inputs|);
    assert ContentTotal(cut, one, 1) == ContentTotal(cut, one, 0) + ContentsOf(cut, inputs[i]);
    assert Outputs(translate, one) == [Outputs(translate, inputs)[i]];
  }

  /** A batch can be translated exactly when each of its inputs can be, and there are few enough segments. */
  lemma BatchNeedsEach(translate: Translator, cut: Cutter, sourceLang: string, targetLang: string, inputs: seq<Input>)
    ensures BatchOf(translate, cut, sourceLang, targetLang, inputs).Some?
            <==> && ContentTotal(cut, inputs, |inputs|) <= MAXIMUM_TRANSLATION_SEGMENTS
                 && forall i :: 0 <= i < |inputs| ==> BatchOf(translate, cut, sourceLang, targetLang, [inputs[i]]).Some?
  {
    if BatchOf(translate, cut, sourceLang, targetLang, inputs).Some? {
      forall i: nat | i < |inputs| ensures BatchOf(translate, cut, sourceLang, targetLang, [inputs[i]]).Some? {
        BatchIsolates(translate, cut, sourceLang, targetLang, inputs, i);
      }
    } else {
      forall i: nat | i < |inputs|
        ensures BatchOf(translate, cut, sourceLang, targetLang, [inputs[i]]).Some? ==>
                  inputs[i].sourceLang == sourceLang && inputs[i].targetLang == targetLang && translate(inputs[i]).Some?
      {
        assert [inputs[i]][0] == inputs[i];
      }
    }
  }

  // ---------------------------------------------------------------------------------- engine calls

  /** What the engine is called with: `validate_batch` accepts it, and every row may generate something. */
  ghost predicate CallOk(vocabulary: nat, eos: int, tokens: seq<int>, offsets: seq<U32>, limits: seq<nat>) {
    && |offsets| >= 2 && offsets[0] == 0 && offsets[|offsets| - 1] == |tokens|
    && |limits| == |offsets| - 1 <= MAXIMUM_ENGINE_BATCH
    && (forall b: nat :: b < |offsets| - 1 ==> NonEmpty(offsets, b))
    && Longest(Lengths(offsets)) <= MAXIMUM_SOURCE_TOKENS
    && Cells(|offsets| - 1, Longest(Lengths(offsets))) <= MAXIMUM_PADDED_ATTENTION_CELLS
    && (forall i :: 0 <= i < |tokens| ==> 0 <= tokens[i] < vocabulary || tokens[i] == eos)
    && (forall b :: 0 <= b < |limits| ==> limits[b] > 0)
  }

  predicate InRange(out: BatchOutput, b: nat)
    requires b < |out.offsets| - 1
  {
    out.offsets[b] <= out.offsets[b + 1] <= |out.tokens|
  }

  function RowTokens(out: BatchOutput, b: nat): seq<int>
    requires b < |out.offsets| - 1 && InRange(out, b)
  {
    out.tokens[out.offsets[b]..out.offsets[b + 1]]
  }

  ghost predicate RowAgrees(row: Row, tokens: seq<int>, offsets: seq<U32>, limits: seq<nat>, out: BatchOutput, b: nat)
    requires b < |limits| == |offsets| - 1 && |out.offsets| == |offsets|
  {
    (0 <= offsets[b] <= offsets[b + 1] <= |tokens| && InRange(out, b))
    ==> row(tokens[offsets[b]..offsets[b + 1]], limits[b]) == Some(RowTokens(out, b))
  }

  /** Every row of every permitted call is `row` of that row alone. */
  ghost predicate RowIsolated(engine: TokenEngine, row: Row, vocabulary: nat, eos: int) {
    forall tokens: seq<int>, offsets: seq<U32>, limits: seq<nat> {:trigger CallOk(vocabulary, eos, tokens, offsets, limits)} ::
      CallOk(vocabulary, eos, tokens, offsets, limits) ==>
        && engine.requires(tokens, offsets, limits)
        && (engine(tokens, offsets, limits).Ok? && |engine(tokens, offsets, limits).value.offsets| == |offsets| ==>
              forall b: nat :: b < |limits| ==> RowAgrees(row, tokens, offsets, limits, engine(tokens, offsets, limits).value, b))
  }

  ghost predicate RowHasAnswer(row: Row, tokens: seq<int>, offsets: seq<U32>, limits: seq<nat>, b: nat)
    requires b < |limits| == |offsets| - 1
  {
    0 <= offsets[b] <= offsets[b + 1] <= |tokens| && row(tokens[offsets[b]..offsets[b + 1]], limits[b]).Some?
  }

  /** The engine answers every permitted call whose rows all have an answer. */
  ghost predicate Complete(engine: TokenEngine, row: Row, vocabulary: nat, eos: int) {
    forall tokens: seq<int>, offsets: seq<U32>, limits: seq<nat> {:trigger CallOk(vocabulary, eos, tokens, offsets, limits)} ::
      CallOk(vocabulary, eos, tokens, offsets, limits) && (forall b: nat :: b < |limits| ==> RowHasAnswer(row, tokens, offsets, limits, b)) ==>
        engine.requires(tokens, offsets, limits) && WellAnswered(engine(tokens, offsets, limits), |limits|)
  }

  predicate WellAnswered(answer: Result<BatchOutput, string>, count: nat) {
    answer.Ok? && |answer.value.offsets| == count + 1 && forall b: nat :: b < count ==> InRange(answer.value, b)
  }

  // ---------------------------------------------------------------------------------- what failures mean

  /** No row overruns its limit. */
  ghost predicate Obedient(row: Row) {
    forall tokens, limit: nat :: |RowAnswer(row, tokens, limit)| <= limit
  }

  predicate HasTokenOutside(tokens: Result<seq<int>, string>, vocabulary: nat) {
    tokens.Ok? && exists k :: 0 <= k < |tokens.value| && !(0 <= tokens.value[k] < vocabulary)
  }

  /** Planning fails only for a reason that lies in the text and the tokenizer. */
  ghost predicate PlanFails(encode: Encoder, vocabulary: nat, text: Text, e: Error) {
    match e
    case InvalidInput(cause) => Segmenter.Explained(text, PieceCount(encode), MAXIMUM_SOURCE_TOKENS - 1, cause)
    case TokenOutsideVocabulary =>
      exists a: nat, b: nat {:trigger text[a..b]} :: a <= b <= |text| && HasTokenOutside(encode(text[a..b]), vocabulary)
    case _ => false
  }

  /** A plan fails only for an input that has no translation, or for too many segments with content. */
  ghost predicate PlanStops(c: Context, encode: Encoder, cut: Cutter, input: Input, total: nat, e: Error) {
    match e
    case InvalidInput(_) => cut(input.text).None?
    case TooManySegments => total + ContentsOf(cut, input) > MAXIMUM_TRANSLATION_SEGMENTS
    case _ => !KnownInput(c, encode, cut, input)
  }

  /** Some input cannot be folded. */
  ghost predicate Stuck(c: Context, all: seq<seq<Piece>>, budgets: seq<nat>) {
    |all| == |budgets| && exists i: nat :: i < |all| && Fold(c.row, c.decode, c.eos, all[i], budgets[i], |all[i]|).None?
  }

  lemma {:induction false} FoldStops(row: Row, decode: Decoder, eos: int, pieces: seq<Piece>, budget: nat, m: nat, n: nat)
    requires m <= n <= |pieces| && Fold(row, decode, eos, pieces, budget, m).None?
    ensures Fold(row, decode, eos, pieces, budget, n).None?
  {
    if m < n { FoldStops(row, decode, eos, pieces, budget, m, n - 1); }
  }

  /** Taking the rows of an answer fails only if the answer, the engine or the decoder is at fault. */
  ghost predicate RowFails(row: Row, decode: Decoder, out: BatchOutput, e: Error) {
    match e
    case OffsetsOutOfRange => exists b: nat :: b < |out.offsets| - 1 && !InRange(out, b)
    case BudgetExceeded => !Obedient(row)
    case DecodingFailed(message) => exists ids :: decode(ids) == Err(message)
    case _ => false
  }

  /** A permitted call with this answer. */
  ghost predicate Answers(engine: TokenEngine, vocabulary: nat, eos: int, count: nat, answer: Result<BatchOutput, string>) {
    exists tokens: seq<int>, offsets: seq<U32>, limits: seq<nat> {:trigger CallOk(vocabulary, eos, tokens, offsets, limits)} ::
      && CallOk(vocabulary, eos, tokens, offsets, limits) && |limits| == count
      && engine.requires(tokens, offsets, limits) && engine(tokens, offsets, limits) == answer
  }

  /** A run fails only if the engine fails, or answers a permitted call badly. */
  ghost predicate RunFails(engine: TokenEngine, c: Context, e: Error) {
    exists count: nat, answer {:trigger Answers(engine, c.vocabulary, c.eos, count, answer)} ::
      && Answers(engine, c.vocabulary, c.eos, count, answer)
      && if answer.Err? then e == EngineFailed(answer.error)
         else if |answer.value.offsets| != count + 1 then e == MalformedOffsets
         else RowFails(c.row, c.decode, answer.value, e)
  }

  /** The only ways in which a translation into the right direction fails. */
  ghost predicate Fails(engine: TokenEngine, c: Context, encode: Encoder, cut: Cutter, inputs: seq<Input>, e: Error) {
    || RunFails(engine, c, e)
    || (e == TooManySegments && ContentTotal(cut, inputs, |inputs|) > MAXIMUM_TRANSLATION_SEGMENTS)
    || exists i: nat :: i < |inputs| && PlanFails(encode, c.vocabulary, inputs[i].text, e)
  }

  // ---------------------------------------------------------------------------------- progress of one input

  /** What stays fixed while a batch is translated. */
  datatype Context = Context(row: Row, decode: Decoder, vocabulary: nat, eos: int)

  datatype Work = Work(inputIndex: nat, segmentIndex: nat, tokens: seq<int>)

  datatype PlannedOutput = PlannedOutput(translated: Option<Text>, separator: Text, inputTokens: nat, outputTokens: nat)

  /** What every piece must look like to be sent to the engine. */
  ghost predicate TokensOk(c: Context, tokens: seq<int>) {
    && 0 < |tokens| <= MAXIMUM_SOURCE_TOKENS
    && forall i :: 0 <= i < |tokens| ==> 0 <= tokens[i] < c.vocabulary || tokens[i] == c.eos
  }

  /** The segment that comes next, or the number of segments. */
  function Frontier(work: seq<Work>, position: nat, count: nat): nat {
    if position < |work| then work[position].segmentIndex else count
  }

  /** No segment in the range has content. */
  ghost predicate Nothing(pieces: seq<Piece>, from: nat, to: nat) {
    from <= to <= |pieces| && forall j :: from <= j < to ==> pieces[j].tokens.None?
  }

  ghost predicate WorkAt(c: Context, pieces: seq<Piece>, work: seq<Work>, input: nat, k: nat)
    requires k < |work|
  {
    && work[k].inputIndex == input && work[k].segmentIndex < |pieces|
    && pieces[work[k].segmentIndex].tokens == Some(work[k].tokens) && TokensOk(c, work[k].tokens)
    && Nothing(pieces, work[k].segmentIndex + 1, Frontier(work, k + 1, |pieces|))
  }

  /** The work of an input lists its segments with content, in order. */
  ghost predicate WorkOk(c: Context, pieces: seq<Piece>, work: seq<Work>, input: nat) {
    && Nothing(pieces, 0, Frontier(work, 0, |pieces|))
    && forall k: nat {:trigger WorkAt(c, pieces, work, input, k)} :: k < |work| ==> WorkAt(c, pieces, work, input, k)
  }

  /** The plan of segment `j` once everything before `frontier` is translated. */
  ghost predicate PlanAt(c: Context, pieces: seq<Piece>, budget: nat, frontier: nat, planned: PlannedOutput, j: nat)
    requires j < |pieces|
  {
    var piece := pieces[j];
    var left := Left(c.row, pieces, budget, j);
    var text := PieceText(c.row, c.decode, c.eos, piece, left);
    && planned.separator == piece.separator && planned.inputTokens == PieceTokens(piece) <= MAXIMUM_SOURCE_TOKENS
    && if piece.tokens.None? then planned.translated == Some([]) && planned.outputTokens == 0
       else if j < frontier then
         && text.Ok? && planned.translated == Some(text.value) && |Generated(c.row, piece, left)| <= left
         && planned.outputTokens == |WithoutEos(Generated(c.row, piece, left), c.eos)|
       else planned.translated.None? && planned.outputTokens == 0
  }

  ghost predicate PlansOk(c: Context, pieces: seq<Piece>, budget: nat, frontier: nat, planned: seq<PlannedOutput>) {
    && |planned| == |pieces|
    && forall j: nat {:trigger PlanAt(c, pieces, budget, frontier, planned[j], j)} :: j < |pieces| ==>
         PlanAt(c, pieces, budget, frontier, planned[j], j)
  }

  ghost predicate InputOk(c: Context, pieces: seq<Piece>, budget: nat, input: nat,
                          work: seq<Work>, planned: seq<PlannedOutput>, position: nat, remaining: nat)
  {
    && WorkOk(c, pieces, work, input) && position <= |work|
    && Frontier(work, position, |pieces|) <= |pieces|
    && remaining == Left(c.row, pieces, budget, Frontier(work, position, |pieces|))
    && PlansOk(c, pieces, budget, Frontier(work, position, |pieces|), planned)
  }

  lemma {:induction false} NothingKeepsBudget(row: Row, pieces: seq<Piece>, budget: nat, from: nat, to: nat)
    requires Nothing(pieces, from, to)
    ensures Left(row, pieces, budget, to) == Left(row, pieces, budget, from)
  {
    if from < to { NothingKeepsBudget(row, pieces, budget, from, to - 1); }
  }

  /** The next item of work has no text yet. */
  lemma NotYet(c: Context, pieces: seq<Piece>, budget: nat, input: nat,
               work: seq<Work>, planned: seq<PlannedOutput>, position: nat, remaining: nat)
    requires InputOk(c, pieces, budget, input, work, planned, position, remaining) && position < |work|
    ensures var at := work[position].segmentIndex;
            && at < |planned| == |pieces| && planned[at].translated.None? && planned[at].outputTokens == 0
            && pieces[at].tokens == Some(work[position].tokens)
            && work[position].inputIndex == input && TokensOk(c, work[position].tokens)
  {
    var at := work[position].segmentIndex;
    assert WorkAt(c, pieces, work, input, position);
    assert PlanAt(c, pieces, budget, at, planned[at], at);
  }

  /** One translated segment moves its input on by one item of work. */
  lemma Advance(c: Context, pieces: seq<Piece>, budget: nat, input: nat,
                work: seq<Work>, planned: seq<PlannedOutput>, position: nat, remaining: nat,
                text: Text, outputTokens: nat, planned': seq<PlannedOutput>, remaining': nat)
    requires InputOk(c, pieces, budget, input, work, planned, position, remaining) && position < |work|
    requires work[position].segmentIndex < |planned|
    requires var at := work[position].segmentIndex;
             && PieceText(c.row, c.decode, c.eos, pieces[at], remaining) == Ok(text)
             && remaining' == remaining - |Generated(c.row, pieces[at], remaining)|
             && outputTokens == |WithoutEos(Generated(c.row, pieces[at], remaining), c.eos)|
             && planned' == planned[at := planned[at].(translated := Some(text), outputTokens := outputTokens)]
    ensures InputOk(c, pieces, budget, input, work, planned', position + 1, remaining')
  {
    var at := work[position].segmentIndex;
    assert WorkAt(c, pieces, work, input, position);
    var frontier := Frontier(work, position + 1, |pieces|);
    NothingKeepsBudget(c.row, pieces, budget, at + 1, frontier);
    forall j: nat | j < |pieces| ensures PlanAt(c, pieces, budget, frontier, planned'[j], j) {
      assert PlanAt(c, pieces, budget, at, planned[j], j);
    }
  }

  // ---------------------------------------------------------------------------------- planning

  function Unplanned(piece: Piece): PlannedOutput {
    PlannedOutput(if piece.tokens.None? then Some([]) else None, piece.separator, PieceTokens(piece), 0)
  }

  /** A plan before anything is translated. */
  ghost predicate Fresh(c: Context, pieces: seq<Piece>, input: nat, work: seq<Work>, planned: seq<PlannedOutput>) {
    && WorkOk(c, pieces, work, input) && |planned| == |pieces|
    && forall j :: 0 <= j < |pieces| ==> planned[j] == Unplanned(pieces[j]) && PieceTokens(pieces[j]) <= MAXIMUM_SOURCE_TOKENS
  }

  lemma FreshAppend(c: Context, pieces: seq<Piece>, input: nat, work: seq<Work>, planned: seq<PlannedOutput>, piece: Piece)
    requires Fresh(c, pieces, input, work, planned) && (piece.tokens.Some? ==> TokensOk(c, piece.tokens.value))
    ensures Fresh(c, pieces + [piece], input,
                  if piece.tokens.None? then work else work + [Work(input, |pieces|, piece.tokens.value)], planned + [Unplanned(piece)])
  {
    var pieces' := pieces + [piece];
    var work' := if piece.tokens.None? then work else work + [Work(input, |pieces|, piece.tokens.value)];
    forall k: nat | k < |work'| ensures WorkAt(c, pieces', work', input, k) {
      if k < |work| { assert WorkAt(c, pieces, work, input, k); }
    }
  }

  lemma FreshIsOk(c: Context, pieces: seq<Piece>, budget: nat, input: nat, work: seq<Work>, planned: seq<PlannedOutput>)
    requires Fresh(c, pieces, input, work, planned)
    ensures InputOk(c, pieces, budget, input, work, planned, 0, budget)
  {
    var frontier := Frontier(work, 0, |pieces|);
    NothingKeepsBudget(c.row, pieces, budget, 0, frontier);
    forall j: nat | j < |pieces| ensures PlanAt(c, pieces, budget, frontier, planned[j], j) {
      assert planned[j] == Unplanned(pieces[j]);
    }
  }

  /** Encodes one segment and appends EOS; the count that sized the segment is met again. */
  method SegmentTokens(encode: Encoder, ghost c: Context, vocabulary: nat, eos: int, content: Text, pieceCount: nat)
    returns (r: Result<seq<int>, Error>)
    requires c.vocabulary == vocabulary && c.eos == eos
    requires PieceCount(encode)(content) == Ok(pieceCount) && pieceCount <= MAXIMUM_SOURCE_TOKENS - 1
    ensures r.Ok? ==> encode(content).Ok? && r.value == encode(content).value + [eos] && TokensOk(c, r.value)
    ensures r.Ok? ==> !HasTokenOutside(encode(content), vocabulary)
    ensures r.Err? ==> r.error == TokenOutsideVocabulary && HasTokenOutside(encode(content), vocabulary)
  {
    var pieces := encode(content);
    if pieces.Err? { return Err(EncodingFailed); }
    if |pieces.value| != pieceCount { return Err(PieceCountChanged); }
    if exists i :: 0 <= i < |pieces.value| && !(0 <= pieces.value[i] < vocabulary) { return Err(TokenOutsideVocabulary); }
    var tokens := pieces.value + [eos];
    if |tokens| > MAXIMUM_SOURCE_TOKENS { return Err(SegmentTooLong); }
    return Ok(tokens);
  }

  lemma TokenOutsideIsUnknown(ids: seq<int>, vocabulary: nat, eos: int)
    requires HasTokenOutside(Ok(ids), vocabulary)
    ensures forall separator :: !KnownPiece(vocabulary, Piece(Some(ids + [eos]), separator))
  {
    var k :| 0 <= k < |ids| && !(0 <= ids[k] < vocabulary);
    assert (ids + [eos])[k] == ids[k];
  }

  /** One segment of the plan. */
  method PlanSegment(encode: Encoder, ghost c: Context, vocabulary: nat, eos: int, text: Text, segment: Segmenter.Segment,
                     input: nat, index: nat, total: nat)
    returns (r: Result<(PlannedOutput, Option<Work>), Error>, ghost piece: Piece)
    requires c.vocabulary == vocabulary && c.eos == eos
    requires Segmenter.SegmentOk(text, PieceCount(encode), MAXIMUM_SOURCE_TOKENS - 1, segment)
    ensures piece == PieceOf(encode, eos, text, segment)
    ensures r.Ok? ==> r.value.0 == Unplanned(piece) && (piece.tokens.Some? ==> TokensOk(c, piece.tokens.value))
    ensures r.Ok? ==> r.value.1 == if piece.tokens.None? then None else Some(Work(input, index, piece.tokens.value))
    ensures r.Ok? ==> KnownPiece(vocabulary, piece) && (r.value.1.Some? <==> HasContent(segment))
    ensures r.Ok? && r.value.1.Some? ==> total < MAXIMUM_TRANSLATION_SEGMENTS
    ensures r.Err? ==> r.error == TooManySegments || PlanFails(encode, vocabulary, text, r.error)
    ensures r.Err? ==> if r.error == TooManySegments then total >= MAXIMUM_TRANSLATION_SEGMENTS && HasContent(segment)
                       else r.error == TokenOutsideVocabulary && !KnownPiece(vocabulary, piece)
  {
    piece := PieceOf(encode, eos, text, segment);
    var content := text[segment.span.contentStart..segment.span.contentEnd];
    var separator := text[segment.span.separatorStart..segment.span.separatorEnd];
    if content == [] { return Ok((PlannedOutput(Some([]), separator, 0, 0), None)), piece; }
    if total >= MAXIMUM_TRANSLATION_SEGMENTS { return Err(TooManySegments), piece; }
    var tokens := SegmentTokens(encode, c, vocabulary, eos, content, segment.pieces);
    if tokens.Err? {
      TokenOutsideIsUnknown(encode(content).value, vocabulary, eos);
      return Err(tokens.error), piece;
    }
    return Ok((PlannedOutput(None, separator, |tokens.value|, 0), Some(Work(input, index, tokens.value)))), piece;
  }

  lemma {:induction false} ContentsOfPrefix(segments: seq<Segmenter.Segment>, i: nat)
    requires i <= |segments|
    ensures Contents(segments[..i]) <= Contents(segments)
  {
    if i < |segments| {
      ContentsOfPrefix(segments[..|segments| - 1], i);
      assert segments[..|segments| - 1][..i] == segments[..i];
    } else {
      assert segments[..i] == segments;
    }
  }

  lemma ContentsGrow(segments: seq<Segmenter.Segment>, i: nat)
    requires i < |segments|
    ensures Contents(segments[..i + 1]) == Contents(segments[..i]) + if HasContent(segments[i]) then 1 else 0
    ensures Contents(segments[..i + 1]) <= Contents(segments)
  {
    assert segments[..i + 1][..i] == segments[..i];
    ContentsOfPrefix(segments, i + 1);
  }

  method PlanSegments(encode: Encoder, ghost c: Context, vocabulary: nat, eos: int, text: Text, input: nat, total: nat,
                      segments: seq<Segmenter.Segment>, ghost all: seq<Piece>)
    returns (r: Result<(seq<PlannedOutput>, seq<Work>), Error>)
    requires c.vocabulary == vocabulary && c.eos == eos && total <= MAXIMUM_TRANSLATION_SEGMENTS && |all| == |segments|
    requires forall i :: 0 <= i < |segments| ==> Segmenter.SegmentOk(text, PieceCount(encode), MAXIMUM_SOURCE_TOKENS - 1, segments[i])
    requires forall i :: 0 <= i < |segments| ==> all[i] == PieceOf(encode, eos, text, segments[i])
    ensures r.Ok? ==> Fresh(c, all, input, r.value.1, r.value.0) && total + |r.value.1| <= MAXIMUM_TRANSLATION_SEGMENTS
    ensures r.Ok? ==> Known(vocabulary, all) && |r.value.1| == Contents(segments)
    ensures r.Err? ==> r.error == TooManySegments || PlanFails(encode, vocabulary, text, r.error)
    ensures r.Err? ==> if r.error == TooManySegments then total + Contents(segments) > MAXIMUM_TRANSLATION_SEGMENTS
                       else r.error == TokenOutsideVocabulary && !Known(vocabulary, all)
  {
    var planned: seq<PlannedOutput> := [];
    var work: seq<Work> := [];
    for i := 0 to |segments|
      invariant |planned| == i && Fresh(c, all[..i], input, work, planned) && total + |work| <= MAXIMUM_TRANSLATION_SEGMENTS
      invariant Known(vocabulary, all[..i]) && |work| == Contents(segments[..i])
    {
      ghost var piece: Piece;
      var step: Result<(PlannedOutput, Option<Work>), Error>;
      step, piece := PlanSegment(encode, c, vocabulary, eos, text, segments[i], input, |planned|, total + |work|);
      ContentsGrow(segments, i);
      if step.Err? { return Err(step.error); }
      FreshAppend(c, all[..i], input, work, planned, piece);
      assert all[..i + 1] == all[..i] + [piece];
      planned := planned + [step.value.0];
      work := if step.value.1.Some? then work + [step.value.1.value] else work;
    }
    assert all[..|segments|] == all && segments[..|segments|] == segments;
    return Ok((planned, work));
  }

  /** The segmentation of the CPU, as a function of the text alone. */
  ghost predicate Cuts(cut: Cutter, encode: Encoder, maxPieces: nat, periodEnds: Segmenter.PeriodRule) {
    forall text {:trigger Segmenter.SegmentsOf(text, PieceCount(encode), maxPieces, periodEnds)} ::
      cut(text) == Segmenter.SegmentsOf(text, PieceCount(encode), maxPieces, periodEnds)
  }

  ghost function CutterFor(encode: Encoder, maxPieces: nat, periodEnds: Segmenter.PeriodRule): (cut: Cutter)
    ensures Cuts(cut, encode, maxPieces, periodEnds)
  {
    text => Segmenter.SegmentsOf(text, PieceCount(encode), maxPieces, periodEnds)
  }

  /** All segments of one input. */
  method PlanInput(encode: Encoder, ghost c: Context, ghost cut: Cutter, vocabulary: nat, eos: int, input: Input, index: nat, total: nat,
                   periodEnds: Segmenter.PeriodRule)
    returns (r: Result<(seq<PlannedOutput>, seq<Work>), Error>)
    requires c.vocabulary == vocabulary && c.eos == eos && Valid(input.text) && total <= MAXIMUM_TRANSLATION_SEGMENTS
    requires Cuts(cut, encode, MAXIMUM_SOURCE_TOKENS - 1, periodEnds)
    ensures r.Ok? ==> PlannedAt(c, encode, cut, input, index, r.value.1, r.value.0)
    ensures r.Ok? ==> total + |r.value.1| <= MAXIMUM_TRANSLATION_SEGMENTS && |r.value.1| == ContentsOf(cut, input)
    ensures r.Err? ==> r.error == TooManySegments || PlanFails(encode, vocabulary, input.text, r.error)
    ensures r.Err? ==> PlanStops(c, encode, cut, input, total, r.error)
  {
    var segmented := Segmenter.SegmentText(input.text, MAXIMUM_SOURCE_TOKENS - 1, PieceCount(encode), periodEnds);
    assert cut(input.text) == Segmenter.SegmentsOf(input.text, PieceCount(encode), MAXIMUM_SOURCE_TOKENS - 1, periodEnds);
    if segmented.Err? { return Err(InvalidInput(segmented.error)); }
    r := PlanSegments(encode, c, vocabulary, eos, input.text, index, total, segmented.value, PiecesOf(encode, eos, input.text, segmented.value));
  }

  ghost predicate PlannedAt(c: Context, encode: Encoder, cut: Cutter, input: Input, i: nat, work: seq<Work>, planned: seq<PlannedOutput>) {
    && cut(input.text).Some? && Segmenter.Segmentation(input.text, PieceCount(encode), MAXIMUM_SOURCE_TOKENS - 1, cut(input.text).value)
    && KnownInput(c, encode, cut, input)
    && Fresh(c, PiecesOf(encode, c.eos, input.text, cut(input.text).value), i, work, planned)
  }

  // ---------------------------------------------------------------------------------- all inputs

  /** The vectors that the loop updates, one element per input. */
  datatype State = State(planned: seq<seq<PlannedOutput>>, positions: seq<nat>, remaining: seq<nat>)

  ghost predicate Sized(works: seq<seq<Work>>, state: State) {
    |state.planned| == |state.positions| == |state.remaining| == |works|
  }

  ghost predicate InputAt(c: Context, all: seq<seq<Piece>>, budgets: seq<nat>, works: seq<seq<Work>>, state: State, i: nat)
    requires Sized(works, state) && |all| == |budgets| == |works| && i < |works|
  {
    InputOk(c, all[i], budgets[i], i, works[i], state.planned[i], state.positions[i], state.remaining[i])
  }

  ghost predicate AllInputs(c: Context, all: seq<seq<Piece>>, budgets: seq<nat>, works: seq<seq<Work>>, state: State) {
    && Sized(works, state) && |all| == |budgets| == |works|
    && forall i: nat {:trigger InputAt(c, all, budgets, works, state, i)} :: i < |works| ==> InputAt(c, all, budgets, works, state, i)
  }

  predicate HasNext(works: seq<seq<Work>>, state: State, i: nat)
    requires i < |works| && |state.positions| == |works|
  {
    state.positions[i] < |works[i]|
  }

  function NextWork(works: seq<seq<Work>>, state: State, i: nat): Work
    requires i < |works| && |state.positions| == |works| && HasNext(works, state, i)
  {
    works[i][state.positions[i]]
  }

  /** Items of work not yet translated. */
  function Pending(works: seq<seq<Work>>, positions: seq<nat>, n: nat): int
    requires n <= |works| == |positions|
  {
    if n == 0 then 0 else Pending(works, positions, n - 1) + (|works[n - 1]| - positions[n - 1])
  }

  lemma {:induction false} PendingDrops(works: seq<seq<Work>>, positions: seq<nat>, positions': seq<nat>, i: nat, n: nat)
    requires i < |works| == |positions| && n <= |works| && positions' == positions[i := positions[i] + 1]
    ensures Pending(works, positions', n) == Pending(works, positions, n) - if i < n then 1 else 0
  {
    if n > 0 { PendingDrops(works, positions, positions', i, n - 1); }
  }

  lemma {:induction false} PendingIsNatural(c: Context, all: seq<seq<Piece>>, budgets: seq<nat>, works: seq<seq<Work>>, state: State, n: nat)
    requires AllInputs(c, all, budgets, works, state) && n <= |works|
    ensures Pending(works, state.positions, n) >= 0
  {
    if n > 0 {
      PendingIsNatural(c, all, budgets, works, state, n - 1);
      assert InputAt(c, all, budgets, works, state, n - 1);
    }
  }

  /** The next piece of an input. */
  ghost function NextPiece(all: seq<seq<Piece>>, works: seq<seq<Work>>, state: State, i: nat): Piece
    requires i < |works| == |state.positions| == |all| && HasNext(works, state, i)
    requires NextWork(works, state, i).segmentIndex < |all[i]|
  {
    all[i][NextWork(works, state, i).segmentIndex]
  }

  lemma NextIsReady(c: Context, all: seq<seq<Piece>>, budgets: seq<nat>, works: seq<seq<Work>>, state: State, i: nat)
    requires AllInputs(c, all, budgets, works, state) && i < |works| && HasNext(works, state, i)
    ensures var next := NextWork(works, state, i);
            && next.inputIndex == i && next.segmentIndex < |all[i]| == |state.planned[i]|
            && state.planned[i][next.segmentIndex].translated.None? && state.planned[i][next.segmentIndex].outputTokens == 0
            && NextPiece(all, works, state, i).tokens == Some(next.tokens) && TokensOk(c, next.tokens)
  {
    assert InputAt(c, all, budgets, works, state, i);
    NotYet(c, all[i], budgets[i], i, works[i], state.planned[i], state.positions[i], state.remaining[i]);
  }

  /** The state after one more segment of input `i` is translated at the price of `spent` tokens. */
  function Delivered(state: State, i: nat, at: nat, text: Text, outputTokens: nat, spent: nat): State
    requires i < |state.planned| == |state.positions| == |state.remaining| && at < |state.planned[i]| && spent <= state.remaining[i]
  {
    State(state.planned[i := state.planned[i][at := state.planned[i][at].(translated := Some(text), outputTokens := outputTokens)]],
          state.positions[i := state.positions[i] + 1], state.remaining[i := state.remaining[i] - spent])
  }

  lemma DeliveredOk(c: Context, all: seq<seq<Piece>>, budgets: seq<nat>, works: seq<seq<Work>>, state: State, i: nat,
                    at: nat, text: Text, outputTokens: nat, spent: nat)
    requires AllInputs(c, all, budgets, works, state) && i < |works| && HasNext(works, state, i)
    requires at == NextWork(works, state, i).segmentIndex < |all[i]| == |state.planned[i]| && spent <= state.remaining[i]
    requires var piece, left := NextPiece(all, works, state, i), state.remaining[i];
             && PieceText(c.row, c.decode, c.eos, piece, left) == Ok(text) && spent == |Generated(c.row, piece, left)|
             && outputTokens == |WithoutEos(Generated(c.row, piece, left), c.eos)|
    ensures AllInputs(c, all, budgets, works, Delivered(state, i, at, text, outputTokens, spent))
    ensures Pending(works, Delivered(state, i, at, text, outputTokens, spent).positions, |works|)
            == Pending(works, state.positions, |works|) - 1
  {
    var after := Delivered(state, i, at, text, outputTokens, spent);
    PendingDrops(works, state.positions, after.positions, i, |works|);
    assert InputAt(c, all, budgets, works, state, i);
    Advance(c, all[i], budgets[i], i, works[i], state.planned[i], state.positions[i], state.remaining[i],
            text, outputTokens, after.planned[i], after.remaining[i]);
    forall k: nat | k < |works| ensures InputAt(c, all, budgets, works, after, k) {
      if k != i { assert InputAt(c, all, budgets, works, state, k); }
    }
  }

  // ---------------------------------------------------------------------------------- inputs without budget

  /** Inputs without budget have nothing left to translate. */
  ghost predicate NoneExhausted(works: seq<seq<Work>>, state: State, n: nat)
    requires n <= |works| && Sized(works, state)
  {
    forall i: nat :: i < n && state.remaining[i] == 0 ==> !HasNext(works, state, i)
  }

  /** Every further segment of an input without budget becomes empty text. */
  method FillInput(ghost c: Context, ghost all: seq<seq<Piece>>, ghost budgets: seq<nat>, works: seq<seq<Work>>, state: State, i: nat)
    returns (r: Result<State, Error>)
    requires AllInputs(c, all, budgets, works, state) && i < |works| && state.remaining[i] == 0
    ensures r.Ok? && AllInputs(c, all, budgets, works, r.value) && r.value.remaining == state.remaining
    ensures Pending(works, r.value.positions, |works|) <= Pending(works, state.positions, |works|)
    ensures !HasNext(works, r.value, i)
    ensures forall k: nat :: k < |works| && k != i ==> r.value.positions[k] == state.positions[k]
  {
    var filled := state;
    while HasNext(works, filled, i)
      invariant AllInputs(c, all, budgets, works, filled) && filled.remaining == state.remaining
      invariant Pending(works, filled.positions, |works|) <= Pending(works, state.positions, |works|)
      invariant forall k: nat :: k < |works| && k != i ==> filled.positions[k] == state.positions[k]
      decreases |works[i]| - filled.positions[i]
    {
      NextIsReady(c, all, budgets, works, filled, i);
      var at := NextWork(works, filled, i).segmentIndex;
      if filled.planned[i][at].translated.Some? { return Err(TranslatedTwice); }
      DeliveredOk(c, all, budgets, works, filled, i, at, [], 0, 0);
      assert filled.remaining[i := 0] == filled.remaining;
      filled := Delivered(filled, i, at, [], filled.planned[i][at].outputTokens, 0);
    }
    return Ok(filled);
  }

  method FillExhausted(ghost c: Context, ghost all: seq<seq<Piece>>, ghost budgets: seq<nat>, works: seq<seq<Work>>, state: State)
    returns (r: Result<State, Error>)
    requires AllInputs(c, all, budgets, works, state)
    ensures r.Ok? && AllInputs(c, all, budgets, works, r.value) && r.value.remaining == state.remaining
    ensures Pending(works, r.value.positions, |works|) <= Pending(works, state.positions, |works|)
    ensures NoneExhausted(works, r.value, |works|)
  {
    r := Ok(state);
    for i := 0 to |works|
      invariant r.Ok? && AllInputs(c, all, budgets, works, r.value) && r.value.remaining == state.remaining
      invariant Pending(works, r.value.positions, |works|) <= Pending(works, state.positions, |works|)
      invariant NoneExhausted(works, r.value, i)
    {
      if r.value.remaining[i] == 0 {
        ghost var before := r.value;
        r := FillInput(c, all, budgets, works, r.value, i);
        forall k: nat | k < i && r.value.remaining[k] == 0 ensures !HasNext(works, r.value, k) {
          assert !HasNext(works, before, k);
        }
      }
    }
  }

  // ---------------------------------------------------------------------------------- batches

  /** The batch holds the next work of different inputs, in input order. */
  ghost predicate Batched(works: seq<seq<Work>>, state: State, batch: seq<Work>, n: nat)
    requires n <= |works| == |state.positions|
  {
    && (forall r :: 0 <= r < |batch| ==>
          batch[r].inputIndex < n && HasNext(works, state, batch[r].inputIndex) && batch[r] == NextWork(works, state, batch[r].inputIndex))
    && (forall q, r :: 0 <= q < r < |batch| ==> batch[q].inputIndex < batch[r].inputIndex)
  }

  /** The batch stays within the padded size that attention allows. */
  ghost predicate Fits(batch: seq<Work>, longest: nat) {
    && |batch| <= MAXIMUM_ENGINE_BATCH && longest <= MAXIMUM_SOURCE_TOKENS
    && Cells(|batch|, longest) <= MAXIMUM_PADDED_ATTENTION_CELLS
    && forall r :: 0 <= r < |batch| ==> |batch[r].tokens| <= longest
  }

  lemma CellsGrow(rows: nat, shorter: nat, longer: nat)
    requires shorter <= longer
    ensures Cells(rows, shorter) <= Cells(rows, longer)
    ensures longer <= MAXIMUM_SOURCE_TOKENS ==> Cells(1, longer) <= MAXIMUM_PADDED_ATTENTION_CELLS
  {
    assert rows * shorter <= rows * longer;
    assert rows * shorter * shorter <= rows * longer * shorter <= rows * longer * longer;
    if longer <= MAXIMUM_SOURCE_TOKENS { assert longer * longer <= MAXIMUM_SOURCE_TOKENS * longer; }
  }

  /** There is no room left for an item of this length. */
  ghost predicate NoRoom(batch: seq<Work>, longest: nat, length: nat) {
    |batch| >= MAXIMUM_ENGINE_BATCH || Cells(|batch| + 1, Max(longest, length)) > MAXIMUM_PADDED_ATTENTION_CELLS
  }

  /** Of the first `n` inputs, only those for whose next work there is no room are left out. */
  ghost predicate NothingSpared(works: seq<seq<Work>>, state: State, batch: seq<Work>, longest: nat, n: nat)
    requires n <= |works| == |state.positions|
  {
    forall k: nat {:trigger HasNext(works, state, k)} ::
      k < n && HasNext(works, state, k) && (forall r :: 0 <= r < |batch| ==> batch[r].inputIndex != k)
      ==> NoRoom(batch, longest, |NextWork(works, state, k).tokens|)
  }

  lemma RoomShrinks(rows: nat, later: nat, shorter: nat, longer: nat)
    requires rows <= later && shorter <= longer
    ensures Cells(rows, shorter) <= Cells(later, longer)
  {
    CellsGrow(rows, shorter, longer);
    assert rows * longer <= later * longer;
    assert rows * longer * longer <= later * longer * longer;
  }

  lemma TakenSparesNothing(works: seq<seq<Work>>, state: State, batch: seq<Work>, longest: nat, longer: nat, i: nat)
    requires i < |works| == |state.positions| && HasNext(works, state, i) && NextWork(works, state, i).inputIndex == i
    requires NothingSpared(works, state, batch, longest, i) && longest <= longer
    ensures NothingSpared(works, state, batch + [NextWork(works, state, i)], longer, i + 1)
  {
    var grown := batch + [NextWork(works, state, i)];
    forall k: nat | k < i + 1 && HasNext(works, state, k) && (forall r :: 0 <= r < |grown| ==> grown[r].inputIndex != k)
      ensures NoRoom(grown, longer, |NextWork(works, state, k).tokens|)
    {
      assert grown[|batch|].inputIndex == i;
      assert forall r :: 0 <= r < |batch| ==> grown[r] == batch[r];
      var length := |NextWork(works, state, k).tokens|;
      RoomShrinks(|batch| + 1, |grown| + 1, Max(longest, length), Max(longer, length));
    }
  }

  /** The first `n` inputs have been considered. */
  ghost predicate Gathered(works: seq<seq<Work>>, state: State, batch: seq<Work>, longest: nat, n: nat)
    requires n <= |works| == |state.positions|
  {
    && Batched(works, state, batch, n) && Fits(batch, longest) && NothingSpared(works, state, batch, longest, n)
    && (batch == [] ==> longest == 0 && forall k: nat {:trigger HasNext(works, state, k)} :: k < n ==> !HasNext(works, state, k))
  }

  lemma FullSparesNothing(works: seq<seq<Work>>, state: State, batch: seq<Work>, longest: nat, n: nat)
    requires n <= |works| == |state.positions| && Gathered(works, state, batch, longest, n) && |batch| >= MAXIMUM_ENGINE_BATCH
    ensures Gathered(works, state, batch, longest, |works|)
  {
  }

  /** Takes the next work of input `i`, if there is room. */
  method ConsiderInput(ghost c: Context, ghost all: seq<seq<Piece>>, ghost budgets: seq<nat>, works: seq<seq<Work>>, state: State,
                       before: seq<Work>, longest: nat, i: nat)
    returns (batch: seq<Work>, maximumLength: nat, next: nat)
    requires AllInputs(c, all, budgets, works, state) && i < |works| && HasNext(works, state, i)
    requires Gathered(works, state, before, longest, i) && |before| < MAXIMUM_ENGINE_BATCH
    ensures next == i + 1 && Gathered(works, state, batch, maximumLength, next)
  {
    next := i + 1;
    NextIsReady(c, all, budgets, works, state, i);
    var candidateLength := Max(longest, |NextWork(works, state, i).tokens|);
    CellsGrow(1, candidateLength, candidateLength);
    if Cells(|before| + 1, candidateLength) > MAXIMUM_PADDED_ATTENTION_CELLS { return before, longest, next; }
    TakenSparesNothing(works, state, before, longest, candidateLength, i);
    return before + [NextWork(works, state, i)], candidateLength, next;
  }

  /** The next work of each input, skipping what would make the batch too large, until the batch is full. */
  method BuildBatch(ghost c: Context, ghost all: seq<seq<Piece>>, ghost budgets: seq<nat>, works: seq<seq<Work>>, state: State)
    returns (batch: seq<Work>, ghost longest: nat)
    requires AllInputs(c, all, budgets, works, state)
    ensures Batched(works, state, batch, |works|) && Fits(batch, longest) && NothingSpared(works, state, batch, longest, |works|)
    ensures batch == [] ==> forall i: nat :: i < |works| ==> !HasNext(works, state, i)
  {
    batch := [];
    var maximumLength: nat, i: nat := 0, 0;
    while i < |works|
      invariant i <= |works| && Gathered(works, state, batch, maximumLength, i)
      decreases |works| - i
    {
      if !HasNext(works, state, i) {
        i := i + 1;
      } else if |batch| >= MAXIMUM_ENGINE_BATCH {
        FullSparesNothing(works, state, batch, maximumLength, i);
        i := |works|;
      } else {
        batch, maximumLength, i := ConsiderInput(c, all, budgets, works, state, batch, maximumLength, i);
      }
    }
    longest := maximumLength;
  }

  ghost predicate RowPacked(batch: seq<Work>, tokens: seq<int>, offsets: seq<U32>, b: nat)
    requires b < |batch| && b < |offsets| - 1
  {
    NonEmpty(offsets, b) && 0 <= offsets[b] && offsets[b + 1] <= |tokens| && tokens[offsets[b]..offsets[b + 1]] == batch[b].tokens
  }

  /** The rows of a call are the tokens of the batch. */
  ghost predicate PackedTo(batch: seq<Work>, tokens: seq<int>, offsets: seq<U32>, n: nat) {
    && n <= |batch| && |offsets| == n + 1 && offsets[0] == 0 && offsets[n] == |tokens|
    && forall b: nat :: b < n ==> RowPacked(batch, tokens, offsets, b)
  }

  lemma PackOne(batch: seq<Work>, tokens: seq<int>, offsets: seq<U32>, n: nat, end: U32)
    requires PackedTo(batch, tokens, offsets, n) && n < |batch| && batch[n].tokens != [] && end == |tokens| + |batch[n].tokens|
    ensures PackedTo(batch, tokens + batch[n].tokens, offsets + [end], n + 1)
  {
    var tokens', offsets' := tokens + batch[n].tokens, offsets + [end];
    forall b: nat | b < n + 1 ensures RowPacked(batch, tokens', offsets', b) {
      if b < n {
        assert RowPacked(batch, tokens, offsets, b);
        assert tokens'[offsets[b]..offsets[b + 1]] == tokens[offsets[b]..offsets[b + 1]];
      }
    }
  }

  lemma PackedCallOk(c: Context, batch: seq<Work>, tokens: seq<int>, offsets: seq<U32>, limits: seq<nat>, longest: nat)
    requires PackedTo(batch, tokens, offsets, |batch|) && batch != [] && Fits(batch, longest) && |limits| == |batch|
    requires forall i :: 0 <= i < |tokens| ==> 0 <= tokens[i] < c.vocabulary || tokens[i] == c.eos
    requires forall b :: 0 <= b < |limits| ==> limits[b] > 0
    ensures CallOk(c.vocabulary, c.eos, tokens, offsets, limits)
  {
    var lengths := Lengths(offsets);
    forall b: nat | b < |lengths| ensures lengths[b] <= longest && NonEmpty(offsets, b) {
      assert RowPacked(batch, tokens, offsets, b);
    }
    assert Longest(lengths) <= longest;
    CellsGrow(|batch|, Longest(lengths), longest);
  }

  method PackBatch(ghost c: Context, batch: seq<Work>, remaining: seq<nat>, ghost longest: nat)
    returns (r: Result<(seq<int>, seq<U32>, seq<nat>), Error>)
    requires batch != [] && Fits(batch, longest)
    requires forall k :: 0 <= k < |batch| ==> batch[k].inputIndex < |remaining| && remaining[batch[k].inputIndex] > 0
    requires forall k :: 0 <= k < |batch| ==> TokensOk(c, batch[k].tokens)
    ensures r.Ok? && PackedTo(batch, r.value.0, r.value.1, |batch|) && CallOk(c.vocabulary, c.eos, r.value.0, r.value.1, r.value.2)
    ensures |r.value.2| == |batch| && forall k :: 0 <= k < |batch| ==> r.value.2[k] == remaining[batch[k].inputIndex]
  {
    var tokens: seq<int> := [];
    var offsets: seq<U32> := [0];
    var limits: seq<nat> := [];
    for k := 0 to |batch|
      invariant PackedTo(batch, tokens, offsets, k) && |tokens| <= k * MAXIMUM_SOURCE_TOKENS
      invariant |limits| == k && forall j :: 0 <= j < k ==> limits[j] == remaining[batch[j].inputIndex]
      invariant forall i :: 0 <= i < |tokens| ==> 0 <= tokens[i] < c.vocabulary || tokens[i] == c.eos
    {
      assert TokensOk(c, batch[k].tokens);
      var end := |tokens| + |batch[k].tokens|;
      if end >= 0x1_0000_0000 { return Err(PackedTooLong); }
      PackOne(batch, tokens, offsets, k, end);
      tokens := tokens + batch[k].tokens;
      offsets := offsets + [end];
      limits := limits + [remaining[batch[k].inputIndex]];
    }
    PackedCallOk(c, batch, tokens, offsets, limits, longest);
    return Ok((tokens, offsets, limits));
  }

  // ---------------------------------------------------------------------------------- one round

  /** From row `n` on, the batch still holds the next work of its inputs, with the budgets that were sent. */
  ghost predicate Awaiting(works: seq<seq<Work>>, state: State, batch: seq<Work>, limits: seq<nat>, n: nat)
    requires |works| == |state.positions| == |state.remaining| && |limits| == |batch|
  {
    && (forall q, r :: 0 <= q < r < |batch| ==> batch[q].inputIndex < batch[r].inputIndex)
    && forall r :: n <= r < |batch| ==>
         && batch[r].inputIndex < |works| && HasNext(works, state, batch[r].inputIndex)
         && batch[r] == NextWork(works, state, batch[r].inputIndex) && limits[r] == state.remaining[batch[r].inputIndex] > 0
  }

  /** If the next piece of an input has no answer within its budget that decodes, the input cannot be folded. */
  lemma NextStops(c: Context, all: seq<seq<Piece>>, budgets: seq<nat>, works: seq<seq<Work>>, state: State, i: nat)
    requires AllInputs(c, all, budgets, works, state) && i < |works| && HasNext(works, state, i) && state.remaining[i] > 0
    ensures var answer := c.row(NextWork(works, state, i).tokens, state.remaining[i]);
            answer.None? || |answer.value| > state.remaining[i] || c.decode(WithoutEos(answer.value, c.eos)).Err? ==> Stuck(c, all, budgets)
  {
    NextIsReady(c, all, budgets, works, state, i);
    assert InputAt(c, all, budgets, works, state, i);
    var at := NextWork(works, state, i).segmentIndex;
    var answer := c.row(NextWork(works, state, i).tokens, state.remaining[i]);
    if answer.None? || |answer.value| > state.remaining[i] || c.decode(WithoutEos(answer.value, c.eos)).Err? {
      assert Fold(c.row, c.decode, c.eos, all[i], budgets[i], at + 1).None?;
      FoldStops(c.row, c.decode, c.eos, all[i], budgets[i], at + 1, |all[i]|);
    }
  }

  /** Takes one row of the engine's output. */
  method TakeRow(ghost c: Context, ghost all: seq<seq<Piece>>, ghost budgets: seq<nat>, works: seq<seq<Work>>, state: State,
                 decode: Decoder, eos: int, segment: Work, out: BatchOutput, b: nat)
    returns (r: Result<State, Error>)
    requires AllInputs(c, all, budgets, works, state) && c.decode == decode && c.eos == eos
    requires segment.inputIndex < |works| && HasNext(works, state, segment.inputIndex)
    requires segment == NextWork(works, state, segment.inputIndex) && state.remaining[segment.inputIndex] > 0
    requires b < |out.offsets| - 1
    requires InRange(out, b) ==> c.row(segment.tokens, state.remaining[segment.inputIndex]) == Some(RowTokens(out, b))
    ensures r.Ok? ==> AllInputs(c, all, budgets, works, r.value)
    ensures r.Ok? ==> Pending(works, r.value.positions, |works|) == Pending(works, state.positions, |works|) - 1
    ensures r.Ok? ==> forall k: nat :: k < |works| && k != segment.inputIndex ==>
                        r.value.positions[k] == state.positions[k] && r.value.remaining[k] == state.remaining[k]
    ensures r.Err? ==> RowFails(c.row, decode, out, r.error) && (InRange(out, b) ==> Stuck(c, all, budgets))
  {
    var i := segment.inputIndex;
    NextIsReady(c, all, budgets, works, state, i);
    NextStops(c, all, budgets, works, state, i);
    if !InRange(out, b) { return Err(OffsetsOutOfRange); }
    var generated := RowTokens(out, b);
    if |generated| > state.remaining[i] { return Err(BudgetExceeded); }
    var ids := WithoutEos(generated, eos);
    var text := decode(ids);
    if text.Err? { return Err(DecodingFailed(text.error)); }
    if state.planned[i][segment.segmentIndex].translated.Some? { return Err(TranslatedTwice); }
    DeliveredOk(c, all, budgets, works, state, i, segment.segmentIndex, text.value, |ids|, |generated|);
    return Ok(Delivered(state, i, segment.segmentIndex, text.value, |ids|, |generated|));
  }

  /** Takes all rows of the engine's output. */
  method TakeRows(ghost c: Context, ghost all: seq<seq<Piece>>, ghost budgets: seq<nat>, works: seq<seq<Work>>, state: State,
                  decode: Decoder, eos: int, batch: seq<Work>, ghost limits: seq<nat>, out: BatchOutput)
    returns (r: Result<State, Error>)
    requires AllInputs(c, all, budgets, works, state) && c.decode == decode && c.eos == eos
    requires |limits| == |batch| == |out.offsets| - 1 && Awaiting(works, state, batch, limits, 0)
    requires forall b: nat :: b < |batch| && InRange(out, b) ==> c.row(batch[b].tokens, limits[b]) == Some(RowTokens(out, b))
    ensures r.Ok? ==> AllInputs(c, all, budgets, works, r.value)
    ensures r.Ok? ==> Pending(works, r.value.positions, |works|) == Pending(works, state.positions, |works|) - |batch|
    ensures r.Err? ==> RowFails(c.row, decode, out, r.error)
    ensures r.Err? && (forall b: nat :: b < |batch| ==> InRange(out, b)) ==> Stuck(c, all, budgets)
  {
    r := Ok(state);
    for b := 0 to |batch|
      invariant r.Ok? && AllInputs(c, all, budgets, works, r.value) && Awaiting(works, r.value, batch, limits, b)
      invariant Pending(works, r.value.positions, |works|) == Pending(works, state.positions, |works|) - b
    {
      ghost var before := r.value;
      r := TakeRow(c, all, budgets, works, r.value, decode, eos, batch[b], out, b);
      if r.Err? { return; }
    }
  }

  /** A complete engine answers the batch well, unless an input has no answer. */
  lemma AnsweredOrStuck(c: Context, all: seq<seq<Piece>>, budgets: seq<nat>, works: seq<seq<Work>>, state: State, engine: TokenEngine,
                        batch: seq<Work>, tokens: seq<int>, offsets: seq<U32>, limits: seq<nat>)
    requires AllInputs(c, all, budgets, works, state) && Complete(engine, c.row, c.vocabulary, c.eos)
    requires NoneExhausted(works, state, |works|) && Batched(works, state, batch, |works|)
    requires CallOk(c.vocabulary, c.eos, tokens, offsets, limits) && PackedTo(batch, tokens, offsets, |batch|) && |limits| == |batch|
    requires forall k :: 0 <= k < |batch| ==> limits[k] == state.remaining[batch[k].inputIndex]
    ensures Stuck(c, all, budgets) || (engine.requires(tokens, offsets, limits) && WellAnswered(engine(tokens, offsets, limits), |batch|))
  {
    if !Stuck(c, all, budgets) {
      forall b: nat | b < |limits| ensures RowHasAnswer(c.row, tokens, offsets, limits, b) {
        assert RowPacked(batch, tokens, offsets, b);
        NextStops(c, all, budgets, works, state, batch[b].inputIndex);
      }
    }
  }

  /** One call of the engine and what follows from it. */
  method TranslateBatch(ghost c: Context, ghost all: seq<seq<Piece>>, ghost budgets: seq<nat>, works: seq<seq<Work>>, state: State,
                        engine: TokenEngine, decode: Decoder, eos: int, batch: seq<Work>, ghost longest: nat)
    returns (r: Result<State, Error>)
    requires AllInputs(c, all, budgets, works, state) && c.decode == decode && c.eos == eos
    requires RowIsolated(engine, c.row, c.vocabulary, eos)
    requires NoneExhausted(works, state, |works|) && batch != [] && Batched(works, state, batch, |works|) && Fits(batch, longest)
    ensures r.Ok? ==> AllInputs(c, all, budgets, works, r.value)
    ensures r.Ok? ==> Pending(works, r.value.positions, |works|) == Pending(works, state.positions, |works|) - |batch|
    ensures r.Err? ==> RunFails(engine, c, r.error)
    ensures r.Err? && Complete(engine, c.row, c.vocabulary, eos) ==> Stuck(c, all, budgets)
  {
    forall k | 0 <= k < |batch| ensures state.remaining[batch[k].inputIndex] > 0 && TokensOk(c, batch[k].tokens) {
      assert HasNext(works, state, batch[k].inputIndex);
      NextIsReady(c, all, budgets, works, state, batch[k].inputIndex);
    }
    var packed := PackBatch(c, batch, state.remaining, longest);
    var (tokens, offsets, limits) := packed.value;
    var out := engine(tokens, offsets, limits);
    assert Answers(engine, c.vocabulary, c.eos, |batch|, out);
    if Complete(engine, c.row, c.vocabulary, eos) {
      AnsweredOrStuck(c, all, budgets, works, state, engine, batch, tokens, offsets, limits);
    }
    if out.Err? { return Err(EngineFailed(out.error)); }
    if |out.value.offsets| != |batch| + 1 { return Err(MalformedOffsets); }
    forall b: nat | b < |batch| && InRange(out.value, b) ensures c.row(batch[b].tokens, limits[b]) == Some(RowTokens(out.value, b)) {
      assert RowPacked(batch, tokens, offsets, b);
      assert RowAgrees(c.row, tokens, offsets, limits, out.value, b);
    }
    r := TakeRows(c, all, budgets, works, state, decode, eos, batch, limits, out.value);
  }

  /** The loop: inputs without budget are filled up, then a batch is translated, until nothing is left. */
  method RunBatches(ghost c: Context, ghost all: seq<seq<Piece>>, ghost budgets: seq<nat>, works: seq<seq<Work>>, start: State,
                    engine: TokenEngine, decode: Decoder, eos: int)
    returns (r: Result<State, Error>)
    requires AllInputs(c, all, budgets, works, start) && c.decode == decode && c.eos == eos
    requires RowIsolated(engine, c.row, c.vocabulary, eos)
    ensures r.Ok? ==> AllInputs(c, all, budgets, works, r.value) && forall i: nat :: i < |works| ==> !HasNext(works, r.value, i)
    ensures r.Err? ==> RunFails(engine, c, r.error)
    ensures r.Err? && Complete(engine, c.row, c.vocabulary, eos) ==> Stuck(c, all, budgets)
  {
    var state := start;
    while true
      invariant AllInputs(c, all, budgets, works, state)
      decreases Pending(works, state.positions, |works|)
    {
      PendingIsNatural(c, all, budgets, works, state, |works|);
      var filled := FillExhausted(c, all, budgets, works, state);
      var batch: seq<Work>;
      ghost var longest: nat;
      batch, longest := BuildBatch(c, all, budgets, works, filled.value);
      if batch == [] {
        if exists i: nat :: i < |works| && HasNext(works, filled.value, i) { return Err(NoBoundedBatch); }
        return Ok(filled.value);
      }
      r := TranslateBatch(c, all, budgets, works, filled.value, engine, decode, eos, batch, longest);
      if r.Err? { return; }
      state := r.value;
    }
  }

  // ---------------------------------------------------------------------------------- reassembly

  method Assemble(ghost c: Context, ghost pieces: seq<Piece>, ghost budget: Usize, ghost input: nat, work: seq<Work>,
                  planned: seq<PlannedOutput>, ghost remaining: nat)
    returns (r: Result<Output, Error>)
    requires InputOk(c, pieces, budget, input, work, planned, |work|, remaining) && |pieces| <= Segmenter.MAX_SEGMENTS
    ensures r.Ok? && Fold(c.row, c.decode, c.eos, pieces, budget, |pieces|) == Some(r.value)
  {
    var text: Text := [];
    var inputTokens: nat, outputTokens: nat := 0, 0;
    for j := 0 to |planned|
      invariant Fold(c.row, c.decode, c.eos, pieces, budget, j) == Some(Output(text, inputTokens, outputTokens))
      invariant inputTokens <= j * MAXIMUM_SOURCE_TOKENS
    {
      AssembleOne(c, pieces, budget, planned[j], j);
      if planned[j].translated.None? { return Err(NoResult); }
      if inputTokens + planned[j].inputTokens >= 0x1_0000_0000 { return Err(CountOverflow); }
      if outputTokens + planned[j].outputTokens >= 0x1_0000_0000 { return Err(CountOverflow); }
      text := text + planned[j].translated.value + planned[j].separator;
      inputTokens := inputTokens + planned[j].inputTokens;
      outputTokens := outputTokens + planned[j].outputTokens;
    }
    return Ok(Output(text, inputTokens, outputTokens));
  }

  lemma AssembleOne(c: Context, pieces: seq<Piece>, budget: nat, planned: PlannedOutput, j: nat)
    requires j < |pieces| && PlanAt(c, pieces, budget, |pieces|, planned, j)
    requires Fold(c.row, c.decode, c.eos, pieces, budget, j).Some?
    ensures planned.translated.Some? && planned.inputTokens <= MAXIMUM_SOURCE_TOKENS
    ensures var before := Fold(c.row, c.decode, c.eos, pieces, budget, j).value;
            && Fold(c.row, c.decode, c.eos, pieces, budget, j + 1)
               == Some(Output(before.text + planned.translated.value + planned.separator,
                              before.inputTokens + planned.inputTokens, before.outputTokens + planned.outputTokens))
            && before.outputTokens + planned.outputTokens <= budget
  {
    FoldKeepsBudget(c.row, c.decode, c.eos, pieces, budget, j);
    FoldKeepsBudget(c.row, c.decode, c.eos, pieces, budget, j + 1);
  }

  // ---------------------------------------------------------------------------------- the whole function

  predicate SameDirection(inputs: seq<Input>, sourceLang: string, targetLang: string) {
    forall i :: 0 <= i < |inputs| ==> inputs[i].sourceLang == sourceLang && inputs[i].targetLang == targetLang
  }

  /** Plans so far. */
  ghost predicate Planned(c: Context, encode: Encoder, cut: Cutter, inputs: seq<Input>, n: nat,
                          works: seq<seq<Work>>, planned: seq<seq<PlannedOutput>>)
  {
    && n <= |inputs| && |works| == |planned| == n
    && forall i: nat {:trigger works[i]} :: i < n ==> PlannedAt(c, encode, cut, inputs[i], i, works[i], planned[i])
  }

  /** Planning stops at an input that cannot be cut into known tokens, or with too many segments with content. */
  ghost predicate NotPlanned(c: Context, encode: Encoder, cut: Cutter, inputs: seq<Input>, e: Error) {
    if e == TooManySegments then ContentTotal(cut, inputs, |inputs|) > MAXIMUM_TRANSLATION_SEGMENTS
    else !AllKnown(c, encode, cut, inputs)
  }

  ghost predicate AllKnown(c: Context, encode: Encoder, cut: Cutter, inputs: seq<Input>) {
    forall i: nat {:trigger inputs[i]} :: i < |inputs| ==> KnownInput(c, encode, cut, inputs[i])
  }

  ghost predicate Untranslated(translate: Translator, inputs: seq<Input>) {
    exists i: nat :: i < |inputs| && translate(inputs[i]).None?
  }

  lemma NotPlannedIsNone(translate: Translator, c: Context, encode: Encoder, cut: Cutter, sourceLang: string, targetLang: string,
                         inputs: seq<Input>, e: Error)
    requires IsTranslator(translate, c, encode, cut) && NotPlanned(c, encode, cut, inputs, e)
    ensures BatchOf(translate, cut, sourceLang, targetLang, inputs).None?
  {
    if e != TooManySegments {
      var i: nat :| i < |inputs| && !KnownInput(c, encode, cut, inputs[i]);
      assert translate(inputs[i]) == TranslationOf(c, encode, cut, inputs[i]);
    }
  }

  lemma PlanStopsAll(c: Context, encode: Encoder, cut: Cutter, inputs: seq<Input>, i: nat, e: Error)
    requires i < |inputs| && PlanStops(c, encode, cut, inputs[i], ContentTotal(cut, inputs, i), e)
    ensures NotPlanned(c, encode, cut, inputs, e)
  {
    ContentTotalGrows(cut, inputs, i + 1, |inputs|);
  }

  method PlanAll(encode: Encoder, ghost c: Context, ghost cut: Cutter, vocabulary: nat, eos: int, inputs: seq<Input>,
                 periodEnds: Segmenter.PeriodRule)
    returns (r: Result<(seq<seq<PlannedOutput>>, seq<seq<Work>>), Error>)
    requires c.vocabulary == vocabulary && c.eos == eos && forall i :: 0 <= i < |inputs| ==> Valid(inputs[i].text)
    requires Cuts(cut, encode, MAXIMUM_SOURCE_TOKENS - 1, periodEnds)
    ensures r.Ok? ==> Planned(c, encode, cut, inputs, |inputs|, r.value.1, r.value.0)
    ensures r.Ok? ==> ContentTotal(cut, inputs, |inputs|) <= MAXIMUM_TRANSLATION_SEGMENTS
    ensures r.Err? ==> r.error == TooManySegments || exists i: nat :: i < |inputs| && PlanFails(encode, vocabulary, inputs[i].text, r.error)
    ensures r.Err? ==> NotPlanned(c, encode, cut, inputs, r.error)
  {
    var planned: seq<seq<PlannedOutput>> := [];
    var works: seq<seq<Work>> := [];
    var total: nat := 0;
    for i := 0 to |inputs|
      invariant Planned(c, encode, cut, inputs, i, works, planned) && total == ContentTotal(cut, inputs, i) <= MAXIMUM_TRANSLATION_SEGMENTS
    {
      var plan := PlanInput(encode, c, cut, vocabulary, eos, inputs[i], i, total, periodEnds);
      if plan.Err? {
        PlanStopsAll(c, encode, cut, inputs, i, plan.error);
        return Err(plan.error);
      }
      planned, works := planned + [plan.value.0], works + [plan.value.1];
      total := total + |plan.value.1|;
    }
    return Ok((planned, works));
  }

  ghost function AllPieces(c: Context, encode: Encoder, cut: Cutter, inputs: seq<Input>): (all: seq<seq<Piece>>)
    ensures |all| == |inputs|
  {
    seq(|inputs|, i requires 0 <= i < |inputs| =>
      if cut(inputs[i].text).Some? then PiecesOf(encode, c.eos, inputs[i].text, cut(inputs[i].text).value) else [])
  }

  function Budgets(inputs: seq<Input>): (budgets: seq<nat>)
    ensures |budgets| == |inputs|
  {
    seq(|inputs|, i requires 0 <= i < |inputs| => inputs[i].maxOutputTokens)
  }

  lemma PlanIsOk(c: Context, encode: Encoder, cut: Cutter, inputs: seq<Input>, works: seq<seq<Work>>, planned: seq<seq<PlannedOutput>>)
    requires Planned(c, encode, cut, inputs, |inputs|, works, planned)
    ensures AllInputs(c, AllPieces(c, encode, cut, inputs), Budgets(inputs), works, State(planned, seq(|inputs|, i => 0), Budgets(inputs)))
    ensures forall i {:trigger AllPieces(c, encode, cut, inputs)[i]} :: 0 <= i < |inputs| ==>
              |AllPieces(c, encode, cut, inputs)[i]| <= Segmenter.MAX_SEGMENTS
  {
    var all := AllPieces(c, encode, cut, inputs);
    var state := State(planned, seq(|inputs|, i => 0), Budgets(inputs));
    forall i: nat | i < |works| ensures InputAt(c, all, Budgets(inputs), works, state, i) && |all[i]| <= Segmenter.MAX_SEGMENTS {
      assert PlannedAt(c, encode, cut, inputs[i], i, works[i], planned[i]);
      FreshIsOk(c, all[i], Budgets(inputs)[i], i, works[i], planned[i]);
    }
  }

  /** What is folded is the translation of an input. */
  lemma FoldedIsTranslation(translate: Translator, c: Context, encode: Encoder, cut: Cutter, inputs: seq<Input>, i: nat,
                            work: seq<Work>, planned: seq<PlannedOutput>, output: Output)
    requires IsTranslator(translate, c, encode, cut) && i < |inputs| && PlannedAt(c, encode, cut, inputs[i], i, work, planned)
    requires var pieces := AllPieces(c, encode, cut, inputs)[i];
             Fold(c.row, c.decode, c.eos, pieces, Budgets(inputs)[i], |pieces|) == Some(output)
    ensures translate(inputs[i]) == Some(output)
  {
    assert translate(inputs[i]) == TranslationOf(c, encode, cut, inputs[i]);
  }

  lemma FoldedIsBatch(translate: Translator, c: Context, encode: Encoder, cut: Cutter, sourceLang: string, targetLang: string,
                      inputs: seq<Input>, works: seq<seq<Work>>, planned: seq<seq<PlannedOutput>>, all: seq<seq<Piece>>, outputs: seq<Output>)
    requires IsTranslator(translate, c, encode, cut)
    requires Planned(c, encode, cut, inputs, |inputs|, works, planned) && SameDirection(inputs, sourceLang, targetLang)
    requires ContentTotal(cut, inputs, |inputs|) <= MAXIMUM_TRANSLATION_SEGMENTS && |outputs| == |inputs|
    requires all == AllPieces(c, encode, cut, inputs)
    requires forall i :: 0 <= i < |inputs| ==> Fold(c.row, c.decode, c.eos, all[i], Budgets(inputs)[i], |all[i]|) == Some(outputs[i])
    ensures BatchOf(translate, cut, sourceLang, targetLang, inputs) == Some(outputs)
  {
    forall i: nat | i < |inputs| ensures translate(inputs[i]) == Some(outputs[i]) {
      FoldedIsTranslation(translate, c, encode, cut, inputs, i, works[i], planned[i], outputs[i]);
    }
    TranslatedIsBatch(translate, cut, sourceLang, targetLang, inputs, outputs);
  }

  lemma TranslatedIsBatch(translate: Translator, cut: Cutter, sourceLang: string, targetLang: string, inputs: seq<Input>, outputs: seq<Output>)
    requires SameDirection(inputs, sourceLang, targetLang) && ContentTotal(cut, inputs, |inputs|) <= MAXIMUM_TRANSLATION_SEGMENTS
    requires |outputs| == |inputs| && forall i :: 0 <= i < |inputs| ==> translate(inputs[i]) == Some(outputs[i])
    ensures BatchOf(translate, cut, sourceLang, targetLang, inputs) == Some(outputs)
  {
    assert Outputs(translate, inputs) == outputs;
  }

  lemma StuckIsUntranslated(translate: Translator, c: Context, encode: Encoder, cut: Cutter, inputs: seq<Input>)
    requires IsTranslator(translate, c, encode, cut) && Stuck(c, AllPieces(c, encode, cut, inputs), Budgets(inputs))
    ensures Untranslated(translate, inputs)
  {
    var all := AllPieces(c, encode, cut, inputs);
    var i: nat :| i < |all| && Fold(c.row, c.decode, c.eos, all[i], Budgets(inputs)[i], |all[i]|).None?;
    assert translate(inputs[i]) == TranslationOf(c, encode, cut, inputs[i]);
  }

  /** Every output is put together from its segments. */
  method AssembleAll(ghost c: Context, ghost all: seq<seq<Piece>>, ghost budgets: seq<Usize>, works: seq<seq<Work>>, state: State)
    returns (r: Result<seq<Output>, Error>)
    requires AllInputs(c, all, budgets, works, state) && forall i: nat :: i < |works| ==> !HasNext(works, state, i)
    requires forall i :: 0 <= i < |all| ==> |all[i]| <= Segmenter.MAX_SEGMENTS
    ensures r.Ok? && |r.value| == |works|
    ensures forall i :: 0 <= i < |works| ==> Fold(c.row, c.decode, c.eos, all[i], budgets[i], |all[i]|) == Some(r.value[i])
  {
    var outputs: seq<Output> := [];
    for i := 0 to |works|
      invariant |outputs| == i
      invariant forall k :: 0 <= k < i ==> Fold(c.row, c.decode, c.eos, all[k], budgets[k], |all[k]|) == Some(outputs[k])
    {
      assert InputAt(c, all, budgets, works, state, i) && !HasNext(works, state, i);
      var output := Assemble(c, all[i], budgets[i], i, works[i], state.planned[i], state.remaining[i]);
      outputs := outputs + [output.value];
    }
    return Ok(outputs);
  }

  /** Every text is cut into segments as the segmenter promises. */
  ghost predicate CutWell(encode: Encoder, cut: Cutter, maxPieces: nat, inputs: seq<Input>) {
    forall i {:trigger inputs[i]} :: 0 <= i < |inputs| ==>
      && cut(inputs[i].text).Some? && Segmenter.Segmentation(inputs[i].text, PieceCount(encode), maxPieces, cut(inputs[i].text).value)
  }

  lemma PlannedCutWell(c: Context, encode: Encoder, cut: Cutter, inputs: seq<Input>, works: seq<seq<Work>>, planned: seq<seq<PlannedOutput>>)
    requires Planned(c, encode, cut, inputs, |inputs|, works, planned)
    ensures CutWell(encode, cut, MAXIMUM_SOURCE_TOKENS - 1, inputs)
  {
    forall i | 0 <= i < |inputs|
      ensures cut(inputs[i].text).Some?
      ensures Segmenter.Segmentation(inputs[i].text, PieceCount(encode), MAXIMUM_SOURCE_TOKENS - 1, cut(inputs[i].text).value)
    {
      assert PlannedAt(c, encode, cut, inputs[i], i, works[i], planned[i]);
    }
  }

  lemma PlanErrorFails(engine: TokenEngine, c: Context, encode: Encoder, cut: Cutter, inputs: seq<Input>, e: Error)
    requires if e == TooManySegments then ContentTotal(cut, inputs, |inputs|) > MAXIMUM_TRANSLATION_SEGMENTS
             else exists i: nat :: i < |inputs| && PlanFails(encode, c.vocabulary, inputs[i].text, e)
    ensures Fails(engine, c, encode, cut, inputs, e) && e != UnsupportedDirection && !Internal(e) && !e.BudgetExceeded?
  {
  }

  lemma RunErrorFails(engine: TokenEngine, c: Context, encode: Encoder, cut: Cutter, inputs: seq<Input>, e: Error)
    requires RunFails(engine, c, e)
    ensures Fails(engine, c, encode, cut, inputs, e) && e != UnsupportedDirection && e != TooManySegments && !Internal(e)
    ensures Obedient(c.row) ==> !e.BudgetExceeded?
  {
  }

  /** Everything after the plan. */
  method TranslatePlanned(engine: TokenEngine, ghost c: Context, ghost cut: Cutter, ghost translate: Translator, ghost encode: Encoder,
                          decode: Decoder, ghost sourceLang: string, ghost targetLang: string, eos: int, inputs: seq<Input>,
                          planned: seq<seq<PlannedOutput>>, works: seq<seq<Work>>)
    returns (r: Result<seq<Output>, Error>)
    requires RowIsolated(engine, c.row, c.vocabulary, eos) && c.decode == decode && c.eos == eos
    requires Planned(c, encode, cut, inputs, |inputs|, works, planned) && SameDirection(inputs, sourceLang, targetLang)
    requires ContentTotal(cut, inputs, |inputs|) <= MAXIMUM_TRANSLATION_SEGMENTS && IsTranslator(translate, c, encode, cut)
    ensures r.Ok? ==> BatchOf(translate, cut, sourceLang, targetLang, inputs) == Some(r.value)
    ensures r.Err? ==> RunFails(engine, c, r.error)
    ensures r.Err? && Complete(engine, c.row, c.vocabulary, eos) ==> BatchOf(translate, cut, sourceLang, targetLang, inputs).None?
  {
    ghost var all := AllPieces(c, encode, cut, inputs);
    PlanIsOk(c, encode, cut, inputs, works, planned);
    var state := State(planned, seq(|inputs|, i => 0), Budgets(inputs));
    var done := RunBatches(c, all, Budgets(inputs), works, state, engine, decode, eos);
    if done.Err? {
      if Complete(engine, c.row, c.vocabulary, eos) { StuckIsUntranslated(translate, c, encode, cut, inputs); }
      return Err(done.error);
    }
    r := AssembleAll(c, all, Budgets(inputs), works, done.value);
    FoldedIsBatch(translate, c, encode, cut, sourceLang, targetLang, inputs, works, planned, all, r.value);
  }

  /** `translate_with_engine`: the batch becomes what its inputs alone would become, and fails only if one of them cannot. */
  method TranslateWithEngine(engine: TokenEngine, ghost c: Context, ghost cut: Cutter, ghost translate: Translator, encode: Encoder,
                             vocabulary: nat, decode: Decoder, periodEnds: Segmenter.PeriodRule, sourceLang: string, targetLang: string,
                             eos: int, inputs: seq<Input>)
    returns (r: Result<seq<Output>, Error>)
    requires c.decode == decode && c.vocabulary == vocabulary && c.eos == eos
    requires RowIsolated(engine, c.row, vocabulary, eos) && forall i :: 0 <= i < |inputs| ==> Valid(inputs[i].text)
    requires Cuts(cut, encode, MAXIMUM_SOURCE_TOKENS - 1, periodEnds) && IsTranslator(translate, c, encode, cut)
    ensures r.Ok? ==> BatchOf(translate, cut, sourceLang, targetLang, inputs) == Some(r.value)
    ensures r.Ok? ==> CutWell(encode, cut, MAXIMUM_SOURCE_TOKENS - 1, inputs)
    ensures Complete(engine, c.row, vocabulary, eos) ==> (r.Ok? <==> BatchOf(translate, cut, sourceLang, targetLang, inputs).Some?)
    ensures !SameDirection(inputs, sourceLang, targetLang) <==> r == Err(UnsupportedDirection)
    ensures r.Err? && SameDirection(inputs, sourceLang, targetLang) ==> Fails(engine, c, encode, cut, inputs, r.error)
    ensures r.Err? ==> !Internal(r.error) && (Obedient(c.row) ==> !r.error.BudgetExceeded?)
    ensures SameDirection(inputs, sourceLang, targetLang) && AllKnown(c, encode, cut, inputs) ==>
              (r == Err(TooManySegments) <==> ContentTotal(cut, inputs, |inputs|) > MAXIMUM_TRANSLATION_SEGMENTS)
    ensures inputs == [] ==> r == Ok([])
  {
    if inputs == [] {
      assert Outputs(translate, inputs) == [];
      return Ok([]);
    }
    if !SameDirection(inputs, sourceLang, targetLang) { return Err(UnsupportedDirection); }
    var plans := PlanAll(encode, c, cut, vocabulary, eos, inputs, periodEnds);
    if plans.Err? {
      NotPlannedIsNone(translate, c, encode, cut, sourceLang, targetLang, inputs, plans.error);
      PlanErrorFails(engine, c, encode, cut, inputs, plans.error);
      return Err(plans.error);
    }
    var (planned, works) := plans.value;
    PlannedCutWell(c, encode, cut, inputs, works, planned);
    r := TranslatePlanned(engine, c, cut, translate, encode, decode, sourceLang, targetLang, eos, inputs, planned, works);
    if r.Err? { RunErrorFails(engine, c, encode, cut, inputs, r.error); }
  }

  // ---------------------------------------------------------------------------------- nothing lost, nothing added

  /** Segment `j` is translated to its own content. */
  ghost predicate EchoAt(c: Context, pieces: seq<Piece>, budget: nat, text: Text, span: Segmenter.Span, j: nat)
    requires j < |pieces| && Segmenter.SpanOk(text, span)
  {
    && PieceText(c.row, c.decode, c.eos, pieces[j], Left(c.row, pieces, budget, j)) == Ok(text[span.contentStart..span.contentEnd])
    && pieces[j].separator == text[span.separatorStart..span.separatorEnd]
  }

  ghost predicate Echoes(c: Context, pieces: seq<Piece>, budget: nat, text: Text, spans: seq<Segmenter.Span>) {
    && |pieces| == |spans| && Segmenter.Tiles(spans, 0, |text|)
    && (forall j: nat {:trigger spans[j]} :: j < |spans| ==> Segmenter.SpanOk(text, spans[j]))
    && (forall j: nat {:trigger EchoAt(c, pieces, budget, text, spans[j], j)} :: j < |spans| ==> EchoAt(c, pieces, budget, text, spans[j], j))
  }

  lemma EchoStep(c: Context, pieces: seq<Piece>, budget: nat, text: Text, span: Segmenter.Span, n: nat)
    requires n < |pieces| && Segmenter.SpanOk(text, span) && EchoAt(c, pieces, budget, text, span, n)
    requires Fold(c.row, c.decode, c.eos, pieces, budget, n + 1).Some?
    ensures Fold(c.row, c.decode, c.eos, pieces, budget, n).Some?
    ensures Fold(c.row, c.decode, c.eos, pieces, budget, n).value.text == text[..span.contentStart]
            ==> Fold(c.row, c.decode, c.eos, pieces, budget, n + 1).value.text == text[..span.separatorEnd]
  {
  }

  lemma {:induction false} EchoPrefix(c: Context, pieces: seq<Piece>, budget: nat, text: Text, spans: seq<Segmenter.Span>, n: nat)
    requires Echoes(c, pieces, budget, text, spans) && n <= |spans| && Fold(c.row, c.decode, c.eos, pieces, budget, n).Some?
    ensures Fold(c.row, c.decode, c.eos, pieces, budget, n).value.text == text[..if n == 0 then 0 else spans[n - 1].separatorEnd]
  {
    if n > 0 {
      Segmenter.TilesAdjacent(spans, 0, |text|, n - 1);
      assert EchoAt(c, pieces, budget, text, spans[n - 1], n - 1);
      EchoStep(c, pieces, budget, text, spans[n - 1], n - 1);
      EchoPrefix(c, pieces, budget, text, spans, n - 1);
    }
  }

  lemma EchoWhole(c: Context, pieces: seq<Piece>, budget: nat, text: Text, spans: seq<Segmenter.Span>)
    requires Echoes(c, pieces, budget, text, spans) && Fold(c.row, c.decode, c.eos, pieces, budget, |spans|).Some?
    ensures Fold(c.row, c.decode, c.eos, pieces, budget, |spans|).value.text == text
  {
    EchoPrefix(c, pieces, budget, text, spans, |spans|);
    if spans != [] { Segmenter.TilesAdjacent(spans, 0, |text|, |spans| - 1); }
  }

  /** If every segment is translated to itself, the output is the input, unless its leading whitespace is dropped. */
  lemma EchoKeepsText(c: Context, encode: Encoder, cut: Cutter, input: Input, output: Output, segments: seq<Segmenter.Segment>,
                      spans: seq<Segmenter.Span>)
    requires TranslationOf(c, encode, cut, input) == Some(output) && cut(input.text) == Some(segments) && spans == Segmenter.Spans(segments)
    requires Segmenter.Segmentation(input.text, PieceCount(encode), MAXIMUM_SOURCE_TOKENS - 1, segments)
    requires !Segmenter.Drops(input.text, PieceCount(encode), MAXIMUM_SOURCE_TOKENS - 1)
    requires forall j: nat :: j < |segments| ==>
               EchoAt(c, PiecesOf(encode, c.eos, input.text, segments), input.maxOutputTokens, input.text, spans[j], j)
    ensures output.text == input.text
  {
    EchoWhole(c, PiecesOf(encode, c.eos, input.text, segments), input.maxOutputTokens, input.text, spans);
  }
}
