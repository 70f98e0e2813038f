/**
 The engine meets what the planner asks of it: together, every translated text is the left-to-right fold of
 single-sentence translations, whatever shares its batches.
 */
module Pipeline {
  import opened Base
  import opened PackedBatch
  import opened Transformer
  import Engine
  import Planner
  import Segmenter
  import Utf8

  /** The translation of one row alone; a row without a candidate list has none. */
  ghost function RowOf(m: Model): Planner.Row {
    (tokens: seq<int>, limit: nat) => if Translatable(m, tokens) then Some(TranslateOne(m, tokens, limit)) else None
  }

  /** `CpuEngine` behind the token-engine interface. */
  ghost function EngineOf(m: Model): Planner.TokenEngine
    requires m.Valid()
  {
    (tokens: seq<int>, offsets: seq<U32>, limits: seq<nat>) =>
      var r := Run(m, tokens, offsets, limits);
      if r.Ok? then Ok(r.value) else Err("engine")
  }

  lemma CallsAreAccepted(m: Model, eos: int, tokens: seq<int>, offsets: seq<U32>, limits: seq<nat>)
    requires m.Valid() && 0 <= eos < m.sourceVocab && Planner.CallOk(m.sourceVocab, eos, tokens, offsets, limits)
    ensures Accepted(m, tokens, offsets, limits)
  {
  }

  lemma EngineRow(m: Model, eos: int, tokens: seq<int>, offsets: seq<U32>, limits: seq<nat>, b: nat)
    requires m.Valid() && Run(m, tokens, offsets, limits).Ok? && b < |limits| == |offsets| - 1
    requires |Run(m, tokens, offsets, limits).value.offsets| == |offsets|
    ensures Planner.RowAgrees(RowOf(m), tokens, offsets, limits, Run(m, tokens, offsets, limits).value, b)
  {
    Engine.RowIsolation(m, tokens, offsets, limits, b);
    var sentence := tokens[offsets[b]..offsets[b + 1]];
    assert IsRow(m, tokens, offsets, b, Sentences(m, tokens, offsets, limits)[b]);
    Engine.AloneResult(m, sentence, limits[b]);
  }

  /** The engine accepts every call of the planner and answers it row by row, never beyond a row's limit. */
  lemma EngineIsRowIsolated(m: Model, eos: int)
    requires m.Valid() && 0 <= eos < m.sourceVocab
    ensures Planner.RowIsolated(EngineOf(m), RowOf(m), m.sourceVocab, eos) && Planner.Obedient(RowOf(m))
    ensures forall tokens, offsets: seq<U32>, limits :: Planner.CallOk(m.sourceVocab, eos, tokens, offsets, limits)
              ==> Validate(m, tokens, offsets, limits).None?
  {
    forall tokens, offsets: seq<U32>, limits: seq<nat> | Planner.CallOk(m.sourceVocab, eos, tokens, offsets, limits)
      ensures Validate(m, tokens, offsets, limits).None?
      ensures Run(m, tokens, offsets, limits).Ok? && |Run(m, tokens, offsets, limits).value.offsets| == |offsets| ==>
                forall b: nat :: b < |limits| ==> Planner.RowAgrees(RowOf(m), tokens, offsets, limits, Run(m, tokens, offsets, limits).value, b)
    {
      CallsAreAccepted(m, eos, tokens, offsets, limits);
      if Run(m, tokens, offsets, limits).Ok? && |Run(m, tokens, offsets, limits).value.offsets| == |offsets| {
        forall b: nat | b < |limits|
          ensures Planner.RowAgrees(RowOf(m), tokens, offsets, limits, Run(m, tokens, offsets, limits).value, b)
        {
          EngineRow(m, eos, tokens, offsets, limits, b);
        }
      }
    }
  }

  /** If every row has an answer alone, the engine answers the call. */
  lemma RunsComplete(m: Model, eos: int, tokens: seq<int>, offsets: seq<U32>, limits: seq<nat>)
    requires m.Valid() && 0 <= eos < m.sourceVocab && Planner.CallOk(m.sourceVocab, eos, tokens, offsets, limits)
    requires forall b: nat :: b < |limits| ==> Planner.RowHasAnswer(RowOf(m), tokens, offsets, limits, b)
    ensures Run(m, tokens, offsets, limits).Ok? && Planner.WellAnswered(EngineOf(m)(tokens, offsets, limits), |limits|)
  {
    CallsAreAccepted(m, eos, tokens, offsets, limits);
    var sentences := Sentences(m, tokens, offsets, limits);
    forall b: nat | b < |limits| ensures Engine.Alone(m, sentences[b], limits[b]).Ok? {
      assert Planner.RowHasAnswer(RowOf(m), tokens, offsets, limits, b);
      assert IsRow(m, tokens, offsets, b, sentences[b]);
      Engine.AloneResult(m, sentences[b], limits[b]);
    }
    Engine.BatchFailsOnlyByARow(m, tokens, offsets, limits);
    forall b: nat | b < |limits| ensures Planner.InRange(Run(m, tokens, offsets, limits).value, b) {
      Engine.RowIsolation(m, tokens, offsets, limits, b);
    }
    Engine.RowIsolation(m, tokens, offsets, limits, 0);
  }

  lemma EngineIsComplete(m: Model, eos: int)
    requires m.Valid() && 0 <= eos < m.sourceVocab
    ensures Planner.Complete(EngineOf(m), RowOf(m), m.sourceVocab, eos)
  {
    forall tokens, offsets: seq<U32>, limits: seq<nat>
      | Planner.CallOk(m.sourceVocab, eos, tokens, offsets, limits)
        && forall b: nat :: b < |limits| ==> Planner.RowHasAnswer(RowOf(m), tokens, offsets, limits, b)
      ensures Planner.WellAnswered(EngineOf(m)(tokens, offsets, limits), |limits|)
    {
      RunsComplete(m, eos, tokens, offsets, limits);
    }
  }

  /** The engine never answers a permitted call badly: a run fails only with the engine or the decoder. */
  lemma EngineAnswersWell(m: Model, decode: Planner.Decoder, eos: int, e: Planner.Error)
    requires m.Valid() && 0 <= eos < m.sourceVocab
    requires Planner.RunFails(EngineOf(m), Planner.Context(RowOf(m), decode, m.sourceVocab, eos), e)
    ensures e.EngineFailed? || e.DecodingFailed?
  {
    var count: nat, answer :| Planner.Answers(EngineOf(m), m.sourceVocab, eos, count, answer)
      && if answer.Err? then e == Planner.EngineFailed(answer.error)
         else if |answer.value.offsets| != count + 1 then e == Planner.MalformedOffsets
         else Planner.RowFails(RowOf(m), decode, answer.value, e);
    if answer.Ok? {
      AnswerIsWellFormed(m, eos, count, answer);
      EngineIsRowIsolated(m, eos);
    }
  }

  lemma AnswerIsWellFormed(m: Model, eos: int, count: nat, answer: Result<BatchOutput, string>)
    requires m.Valid() && 0 <= eos < m.sourceVocab && answer.Ok? && Planner.Answers(EngineOf(m), m.sourceVocab, eos, count, answer)
    ensures |answer.value.offsets| == count + 1
    ensures forall b: nat :: b < count ==> Planner.InRange(answer.value, b)
  {
    var tokens: seq<int>, offsets: seq<U32>, limits: seq<nat> :|
      Planner.CallOk(m.sourceVocab, eos, tokens, offsets, limits) && |limits| == count && EngineOf(m)(tokens, offsets, limits) == answer;
    Engine.RowIsolation(m, tokens, offsets, limits, 0);
    forall b: nat | b < count ensures Planner.InRange(answer.value, b) {
      Engine.RowIsolation(m, tokens, offsets, limits, b);
    }
  }

  ghost function ContextOf(m: Model, decode: Planner.Decoder, eos: int): Planner.Context {
    Planner.Context(RowOf(m), decode, m.sourceVocab, eos)
  }

  /** How the texts of a service are cut. */
  ghost function Cut(encode: Planner.Encoder, periodEnds: Segmenter.PeriodRule): Planner.Cutter {
    Planner.CutterFor(encode, Planner.MAXIMUM_SOURCE_TOKENS - 1, periodEnds)
  }

  /** What one text is to become, as a function of it alone. */
  ghost function Translation(m: Model, encode: Planner.Encoder, decode: Planner.Decoder, periodEnds: Segmenter.PeriodRule, eos: int): Planner.Translator {
    Planner.TranslatorFor(ContextOf(m, decode, eos), encode, Cut(encode, periodEnds))
  }

  /** What a batch of texts is to become, if all of them can be translated. */
  ghost function TextsOf(m: Model, encode: Planner.Encoder, decode: Planner.Decoder, periodEnds: Segmenter.PeriodRule,
                         sourceLang: string, targetLang: string, eos: int, inputs: seq<Planner.Input>): Option<seq<Planner.Output>> {
    Planner.BatchOf(Translation(m, encode, decode, periodEnds, eos), Cut(encode, periodEnds), sourceLang, targetLang, inputs)
  }

  /**
   End to end: every text becomes the left-to-right fold of its segments, each translated as a sentence of its own with
   the budget that is left, whatever else is translated with it; and the batch fails only if one of them cannot.
   */
  method TranslateTexts(m: Model, engine: Planner.TokenEngine, encode: Planner.Encoder, decode: Planner.Decoder,
                        periodEnds: Segmenter.PeriodRule, sourceLang: string, targetLang: string, eos: int, inputs: seq<Planner.Input>)
    returns (r: Result<seq<Planner.Output>, Planner.Error>)
    requires m.Valid() && 0 <= eos < m.sourceVocab && engine == EngineOf(m)
    requires forall i :: 0 <= i < |inputs| ==> Utf8.Valid(inputs[i].text)
    ensures TextsOf(m, encode, decode, periodEnds, sourceLang, targetLang, eos, inputs) == if r.Ok? then Some(r.value) else None
    ensures r.Ok? ==> Planner.CutWell(encode, Cut(encode, periodEnds), Planner.MAXIMUM_SOURCE_TOKENS - 1, inputs)
    ensures r.Err? ==> r.error.UnsupportedDirection? || r.error.InvalidInput? || r.error.TooManySegments? || r.error.TokenOutsideVocabulary?
                       || r.error.EngineFailed? || r.error.DecodingFailed?
  {
    EngineIsRowIsolated(m, eos);
    EngineIsComplete(m, eos);
    r := Planner.TranslateWithEngine(engine, ContextOf(m, decode, eos), Cut(encode, periodEnds), Translation(m, encode, decode, periodEnds, eos),
                                     encode, m.sourceVocab, decode, periodEnds, sourceLang, targetLang, eos, inputs);
    if r.Err? && Planner.RunFails(engine, ContextOf(m, decode, eos), r.error) {
      EngineAnswersWell(m, decode, eos, r.error);
    }
  }

  /** A text that was translated among others is translated by itself, and to the same output. */
  method TranslateAlone(m: Model, engine: Planner.TokenEngine, encode: Planner.Encoder, decode: Planner.Decoder,
                        periodEnds: Segmenter.PeriodRule, sourceLang: string, targetLang: string, eos: int, inputs: seq<Planner.Input>, i: nat)
    returns (together: Result<seq<Planner.Output>, Planner.Error>, alone: Result<seq<Planner.Output>, Planner.Error>)
    requires m.Valid() && 0 <= eos < m.sourceVocab && engine == EngineOf(m) && i < |inputs|
    requires forall i :: 0 <= i < |inputs| ==> Utf8.Valid(inputs[i].text)
    ensures together.Ok? ==> i < |together.value| && alone == Ok([together.value[i]])
  {
    together := TranslateTexts(m, engine, encode, decode, periodEnds, sourceLang, targetLang, eos, inputs);
    alone := TranslateTexts(m, engine, encode, decode, periodEnds, sourceLang, targetLang, eos, [inputs[i]]);
    if together.Ok? {
      Planner.BatchIsolates(Translation(m, encode, decode, periodEnds, eos), Cut(encode, periodEnds), sourceLang, targetLang, inputs, i);
    }
  }
}
