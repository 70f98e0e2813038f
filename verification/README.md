# Marian Edge: a verified model

Marian Edge is a translation service. This project models the algorithms around its neural arithmetic and proves what
they promise. `dafny verify dfyconfig.toml` checks everything.

The model has five parts.

- **Long texts and batches** (`Tensor`, `Attention`, `Transformer`, `PackedBatch`, `EncodeBatch`, `DecodeBatch`,
  `Engine`, `Utf8`, `BreakPoints`, `Segmenter`, `Planner`, `Pipeline`). A text is cut into segments that fit the tokenizer
  limit; segments of many inputs share padded batches; the engine decodes greedily with one limit per row. The main results:
  segmentation is a function of the text and loses nothing (with the exact condition), every row of a batch is translated
  as if it were alone, every input gets what translating its own segments from left to right would give, and so a text
  that is translated among others is translated alone, too, and to the same output. Scalars are an abstract type with
  uninterpreted operations, so the results hold for any floating-point behaviour that is deterministic.
- **Scheduling** (`Wakeups`, `Scheduler`, `Admission`, `Coalescing`, `Service`). Any number of submitters and one worker
  over a bounded channel, as a step relation with an twelve-part invariant for every run: no wakeup is lost, batches
  follow the channel order, every job is answered exactly once, as its batch went, or its receiver is closed, and the
  gauges count what they name. `Service` puts the backends behind the scheduler: in every run each job of a batch that
  can be served receives the translation of its own input, and no job ever receives anything else.
- **Binary formats** (`Bytes`, `Codec`, `MarianBinary`, `WorkerBundle`, `WorkerCodec`, `Shortlist`). Parsers and writers
  are inverse in both directions; a small calculus of sections carries the proofs to any number of tensors or layers.
- **Integer kernels** (`Avx2`, `DotKernels`, `PackedGemm`, `Q8Linear`). Lane-wise wrapping arithmetic that never wraps, and a
  quantized operator whose result does not depend on the path that runs it, with the exact exception.
- **Metal host logic** (`MetalPlanner`, `MetalDecode`, `MetalCache`, `MetalArena`). The in-place budget loop yields the
  same fold as the CPU planner, and the same outputs where both backends cut a text alike; chunked decoding equals
  stepwise decoding, cached views agree with fresh ones, and arena buffers of one frame are distinct.

Code that works by changing things step by step is modelled by methods with loops, arrays and classes, each proved
against a function or predicate about which the lemmas speak. The tokenizer, the token engine, the decoder of token
ids and the Metal engine are parameters: arbitrary functions that may fail, restricted only where a contract says so
(`Planner.RowIsolated`, `Planner.Complete`, `MetalPlanner.AnswersRowByRow`, `MetalPlanner.AnswersAll`). The CPU engine meets
its restrictions (`Pipeline.EngineIsRowIsolated`, `Pipeline.EngineIsComplete`), and both backends meet what coalescing asks
(`Service.BackendsAreRowByRow`).

Where the code and a promise differ, the code is followed:

- `segment_text` is meant to be lossless. It is, exactly unless the empty text already has more pieces than allowed and
  the text is blank or starts with a line break behind whitespace only (`Segmenter.Drops`); `Segmenter.WhitespaceCanBeLost`
  gives an instance.
- `largest_fitting_scalar_prefix` need not return the largest prefix (`Segmenter.PrefixSearchIsNotMaximal`). It does, for
  every monotone tokenizer and every limit, exactly for the texts of `Segmenter.NeverStopsShort`
  (`Segmenter.PrefixIsLargestExactly`); how far it can be off is `Segmenter.ScalarPrefixIsNearLargest`.
- A quantized operator is meant to give the same accumulators on every path, and its constructor keeps weights that could
  saturate away from a saturating kernel. The constructors that restore packed words (q8_gemm.rs:178-242, 247-319) do
  not. `Q8Linear.ReliableExactly` says when a restored operator is right, and `Q8Linear.FullRangeDiffers` gives an instance.

## Model

| member | source | states |
|---|---|---|
| Engine.TranslateTokenIds | crates/marian-cpu/src/engine.rs:132-259 | the imperative batch (validation, padding, encoding, greedy loop with per-row limits, packing) returns what the batch function gives: the single-sentence translations of its rows one after another, or the first of its errors |
| Engine.RowIsolation | crates/marian-cpu/src/engine.rs:132-259 | in every accepted batch the tokens of a row are exactly those of a call with that row alone, and no more than its requested limit; padding and neighbours never matter |
| Engine.BatchFailsOnlyByARow | crates/marian-cpu/src/engine.rs:132-259 | a batch of valid shape succeeds if and only if every one of its rows succeeds alone |
| Engine.AloneResult | crates/marian-cpu/src/engine.rs:132-259 | a single valid sentence is translated unless it has no candidate list; nothing else can go wrong |
| Engine.DecodeLoop | crates/marian-cpu/src/engine.rs:161-245 | stepping all rows together until every row is finished or at its limit gives each row its own greedy run |
| Engine.MarkFinished | crates/marian-cpu/src/engine.rs:162-166 | a row is finished before a step exactly if it was, or if the step has reached its limit |
| Engine.ChooseTokens | crates/marian-cpu/src/engine.rs:228-244 | every unfinished row records its selected token, feeds it back, and is finished by EOS; finished rows are left alone |
| Engine.PrepareCandidates | crates/marian-cpu/src/engine.rs:398-406 | one candidate list per sentence, or the error of the first sentence without one |
| Engine.PackRows | crates/marian-cpu/src/engine.rs:247-259 | the outputs are packed one after another, with offsets that delimit the rows and stay below 2^32 |
| PackedBatch.PackedRow | crates/marian-cpu/src/engine.rs:247-259 | slicing the packed output at its offsets gives back each row |
| PackedBatch.AcceptedOffsets | crates/marian-cpu/src/engine.rs:262-303 | a validated batch has increasing offsets inside the tokens, and rows of at most the longest length |
| PackedBatch.Sentences | crates/marian-cpu/src/engine.rs:262-303 | the rows that the offsets of an accepted batch cut out are the sentences, one per requested limit |
| EncodeBatch.Pad | crates/marian-cpu/src/engine.rs:305-318 | the flat token matrix holds every sentence followed by pad tokens up to the longest |
| EncodeBatch.EmbeddingIsolated | crates/marian-cpu/src/engine.rs:408-434 | the position of a token is its offset modulo the padded width, so the active rows of a sentence are the embedding of that sentence alone |
| EncodeBatch.Embedding | crates/marian-cpu/src/engine.rs:408-434 | the flat embedding buffer holds, row by row, the scaled embedding of each token plus its position vector |
| EncodeBatch.LayerIsolated | crates/marian-cpu/src/engine.rs:320-370 | after an encoder layer the active rows of a sentence depend only on its own active rows before it |
| EncodeBatch.EncodeLayerBatch | crates/marian-cpu/src/engine.rs:320-370 | one encoder layer on the flat buffers is that layer on every sentence, as far as active rows go |
| EncodeBatch.FeedForward | crates/marian-cpu/src/engine.rs:471-490 | the feed-forward block on flat rows is the block on each row |
| EncodeBatch.Encode | crates/marian-cpu/src/engine.rs:305-396 | for every decoder layer the cross-attention cache holds, at the active positions of a sentence, the keys and values of that sentence encoded alone |
| DecodeBatch.DecoderInput | crates/marian-cpu/src/engine.rs:436-469 | each row gets the embedding of its own previous token (zero at the start) plus the position vector of the step |
| DecodeBatch.DecodeLayerBatch | crates/marian-cpu/src/engine.rs:172-226 | a decoder layer on flat buffers, with state updated in place, is the layer on each row with its own state and memory |
| DecodeBatch.DecodeStepBatch | crates/marian-cpu/src/engine.rs:171-226 | a whole decoder step gives every row the hidden vector and the states of that row stepping alone |
| DecodeBatch.SelectToken | crates/marian-cpu/src/tensor.rs:320-360 | the loop over candidates returns the selected token, and fails exactly for an empty list or an id outside the vocabulary |
| Transformer.SelectIsEarliestMaximum | crates/marian-cpu/src/tensor.rs:320-360 | where comparison is a strict order, the selected token has the greatest logit, the earliest one on ties |
| Transformer.TranslationIsCutGreedyRun | crates/marian-cpu/src/engine.rs:148-245 | a translation is the endless greedy run cut after its first EOS or at the limit, whichever comes first |
| Greedy.CutIsPrefix | crates/marian-cpu/src/engine.rs:161-245 | for any stepper, the recorded tokens are a prefix of the endless run, with EOS only at the end and missing only at the limit |
| LayerStack.OneMore | crates/marian-cpu/src/engine.rs:172-226 | running one more layer and storing its state gives the stack and the states of one more layer |
| AttentionKernel.Attention | crates/marian-cpu/src/tensor.rs:251-318 | masked attention over the flat batch, with one reused score buffer, is for each sentence attention over its own active keys, and fails exactly for inconsistent shapes |
| AttentionKernel.ActiveKeysAt | crates/marian-cpu/src/tensor.rs:282-316 | the flat key offsets of a sentence address exactly its own first active rows |
| AttentionKernel.ScoreHead | crates/marian-cpu/src/tensor.rs:287-303 | the scores of the active keys are their scaled products normalized; stale scratch behind them is not read |
| AttentionKernel.WeightHead | crates/marian-cpu/src/tensor.rs:304-315 | the output lanes of one head become the weighted sum of the active values, and nothing else changes |
| Tensor.SoftmaxInPlace | crates/marian-cpu/src/tensor.rs:745-754 | the first active scores become their softmax in place; the rest is untouched |
| Tensor.MatMul | crates/marian-cpu/src/tensor.rs:37-112 | on agreeing shapes every row of the result is the affine image of its own row, and any other shape is an error |
| Tensor.ResidualLayerNorm | crates/marian-cpu/src/tensor.rs:132-156 | each row of the result is the normalized sum of its input and residual rows |
| Tensor.SsruUpdateLayerNorm | crates/marian-cpu/src/tensor.rs:184-219 | each row of the state is updated from its own candidate, gate and old state before it is normalized into the output; on a shape error the state is unchanged |
| Tensor.NormalizeRow | crates/marian-cpu/src/tensor.rs:372-385 | a chunk is normalized in place and nothing outside it changes |
| Planner.TranslateWithEngine | crates/marian-cpu/src/backend.rs:107-348 | given a row-isolated engine, a successful result is, input by input, the left-to-right fold over the segments of that input's own text, cut as the segmenter cuts it, with the remaining budget; with an engine that answers every row it can answer, the batch succeeds if and only if every input has such a fold, all go in one direction, and at most 4,096 segments have content; every failure has its cause, and none of the internal errors can occur |
| Planner.BatchIsolates | crates/marian-cpu/src/backend.rs:107-348 | whatever shares a batch with an input, the input alone is accepted, too, and becomes the same |
| Planner.BatchNeedsEach | crates/marian-cpu/src/backend.rs:107-348 | a batch can be translated exactly when each of its inputs can be translated alone and at most 4,096 segments have content in all |
| Planner.NextStops | crates/marian-cpu/src/backend.rs:269-313 | if the next segment of an input has no answer, overdraws its budget or does not decode, that input has no translation at all |
| Planner.AnsweredOrStuck | crates/marian-cpu/src/backend.rs:257-277 | a complete engine answers every batch of the planner well, unless one of the inputs has no translation |
| Planner.FoldKeepsBudget | crates/marian-cpu/src/backend.rs:201-315 | a translated input never generates more tokens than its original allowance |
| Planner.EchoKeepsText | crates/marian-cpu/src/backend.rs:317-348 | if every segment is translated to itself, the output is the input text: separators are appended verbatim and nothing is lost or doubled |
| Planner.PackedCallOk | crates/marian-cpu/src/backend.rs:223-271 | every engine call has at most 256 rows, rows times longest squared at most 65,536, tokens in the vocabulary and positive limits |
| Planner.BuildBatch | crates/marian-cpu/src/backend.rs:223-256 | a batch takes the next segment of inputs in order; it leaves out only those for which there is no room, and is empty only when no work is left |
| Planner.PackBatch | crates/marian-cpu/src/backend.rs:257-267 | the batch is packed row by row with the remaining budgets as limits; the size check never fails |
| Planner.TakeRow | crates/marian-cpu/src/backend.rs:278-314 | a row is decoded without EOS, stored once, and reduces the budget of its input alone |
| Planner.TranslateBatch | crates/marian-cpu/src/backend.rs:257-314 | a round translates every row of its batch, and reduces the unprocessed segments by exactly that number |
| Planner.RunBatches | crates/marian-cpu/src/backend.rs:201-315 | the loop ends with every segment translated |
| Planner.PlanSegment | crates/marian-cpu/src/backend.rs:139-197 | a segment without content is passed through, any other becomes its tokens with EOS; the count met while segmenting is met again |
| Planner.PlanAll | crates/marian-cpu/src/backend.rs:128-199 | each input is planned from the segments of its own text; planning fails with too many segments only if more than 4,096 have content over all inputs, and otherwise only for a text that cannot be cut into known tokens |
| Planner.Assemble | crates/marian-cpu/src/backend.rs:317-348 | the stored pieces put together are the fold over all segments; no piece is missing and no count overflows |
| Pipeline.TranslateTexts | crates/marian-cpu/src/backend.rs:107-348 | end to end with the FP32 engine: the result is a function of each text, its budget and the model, and no text influences another; the batch fails exactly if some text has no translation of its own, the directions differ, or more than 4,096 segments have content; bad offsets and exceeded budgets cannot occur |
| Pipeline.TranslateAlone | crates/marian-cpu/src/backend.rs:107-348 | if a batch of texts is translated, each of them is translated alone, too, and to the same output |
| Pipeline.EngineIsComplete | crates/marian-cpu/src/engine.rs:132-259 | the FP32 engine answers every call of the planner whose rows all have a candidate list |
| Pipeline.EngineAnswersWell | crates/marian-cpu/src/backend.rs:269-299 | a run over the FP32 engine fails only if the engine or the decoder of token ids reports a failure |
| Pipeline.EngineIsRowIsolated | crates/marian-cpu/src/backend.rs:269-299 | the FP32 engine meets what the planner asks: it accepts every call the planner makes, answers each row as if alone, and never exceeds a limit |
| Segmenter.SegmentText | crates/marian-core/src/segmenter.rs:122-171 | the segments are a function of text, tokenizer, limit and period rule, in which the work limits play no part, and the call succeeds if and only if the ranges that must be counted, each once, are within the work limits, the tokenizer answers for all of them, and no scalar and no number of segments is too large; segments tile the text in order on scalar boundaries, separators are whitespace, contents hold no line break, counts are exact and at most the limit; nothing is lost if and only if leading whitespace is not dropped; no segment crosses a sentence, sentences that fit are not cut, and others are cut at their best breaks |
| Segmenter.SameSegments | crates/marian-core/src/segmenter.rs:122-171 | if every sentence fits the smaller of two limits, both limits give the same segments, or the same failure |
| Segmenter.InOneContent | crates/marian-core/src/segmenter.rs:122-171 | every scalar that is not whitespace lies in exactly one content range |
| Segmenter.ShortTextsSucceed | crates/marian-core/src/segmenter.rs:122-265 | for a short text and a tokenizer that answers within the average work limit no error can be reported |
| Segmenter.WhitespaceCanBeLost | crates/marian-core/src/segmenter.rs:143-150 | text is lost when even the empty text has more pieces than allowed: a single space is cut into no segment at all |
| Segmenter.PieceCounter.Count | crates/marian-core/src/segmenter.rs:210-264 | a range is counted by the tokenizer at most once and repeats are free; the call succeeds exactly if what has been asked for so far, with this range, is answered by the tokenizer and within the three work limits |
| Segmenter.Unaffordable | crates/marian-core/src/segmenter.rs:210-264 | what can be afforded can be stopped anywhere: a prefix of affordable questions is affordable |
| Segmenter.ShortTextHasFewRanges | crates/marian-core/src/segmenter.rs:210-264 | a text of at most 254 bytes has fewer ranges than the tokenizer may be asked for |
| Segmenter.SentenceUnits | crates/marian-core/src/segmenter.rs:267-320 | units are what the scan function gives, and tile the text; each holds one sentence, ended by terminators with closing marks before whitespace, by a line break, or by the text; only a leading line break gives an empty one |
| Segmenter.OnlyRunStart | crates/marian-core/src/segmenter.rs:539-577 | between terminators and the end of their closing marks no other run of terminators begins |
| Segmenter.SplitOversizeUnit | crates/marian-core/src/segmenter.rs:322-390 | the pieces of an oversize unit tile it, separator included, each within the limit; each is cut at the best fitting break, or between scalars if no break fits, or is the fitting rest; the loop ends because no cut reaches the end of the unit |
| Segmenter.PrefixCutIsOk | crates/marian-core/src/segmenter.rs:365-381 | a scalar prefix of a remainder that does not fit ends strictly inside it |
| Segmenter.BreakIsBest | crates/marian-core/src/segmenter.rs:350-363 | with monotone counts the selected break is preferred to every other fitting break of the unit |
| Segmenter.SelectBreak | crates/marian-core/src/segmenter.rs:350-363 | the result is that of the search function, whatever was counted before; the first priority with a fitting break wins, and with monotone counts that break is the rightmost fitting one |
| Segmenter.RightmostFittingBreak | crates/marian-core/src/segmenter.rs:392-432 | the search returns a fitting candidate of its priority, and with monotone counts no candidate behind it fits |
| Segmenter.CandidatesIncrease | crates/marian-core/src/segmenter.rs:392-432 | the candidates of one priority are strictly ordered by where their content ends |
| BreakPoints.FallbackBreakPoints | crates/marian-core/src/segmenter.rs:475-516 | the scan finds exactly the break points of the range, in order: every run of whitespace, every comma, every strong mark, and every run of dashes that stands beside a dash, whitespace or an edge; within a priority they are strictly ordered |
| BreakPoints.IsDashBoundary | crates/marian-core/src/segmenter.rs:672-679 | a dash counts beside another dash, whitespace, or an edge of the range |
| BreakPoints.DashStep | crates/marian-core/src/segmenter.rs:497-513 | a run of dashes is taken as one: nothing in it begins another break point |
| Segmenter.LargestFittingScalarPrefix | crates/marian-core/src/segmenter.rs:434-473 | the prefix that is returned fits and ends on a scalar boundary; a single scalar that does not fit is reported |
| Segmenter.ScalarPrefixIsNearLargest | crates/marian-core/src/segmenter.rs:434-473 | with monotone counts the prefix misses the largest fitting one by at most six bytes, and by none if all scalars behind the first are single bytes |
| Segmenter.PrefixIsLargestExactly | crates/marian-core/src/segmenter.rs:434-473 | the search finds the largest fitting prefix for every monotone tokenizer and every limit if and only if, on no path of its comparisons, the boundary at or before the middle is the one the comparison started from, which depends on the text alone and can be computed before the call |
| Segmenter.SingleBytesNeverStop | crates/marian-core/src/segmenter.rs:434-473 | text whose scalars behind the first are single bytes meets that condition |
| Segmenter.MissesIfShort | crates/marian-core/src/segmenter.rs:461-463 | wherever the condition fails, the tokenizer that counts bytes and some limit make the search miss a longer prefix that fits |
| Segmenter.PrefixSearchIsNotMaximal | crates/marian-core/src/segmenter.rs:461-463 | an instance: of five four-byte scalars two fit into eight pieces, one for each byte, and the search settles for one |
| Segmenter.TilesAdjacent | crates/marian-core/src/segmenter.rs:122-171 | in a tiling each range begins where its predecessor ends, and the last one ends with the text |
| Utf8.NextFacts | crates/marian-core/src/segmenter.rs:681-688 | the next scalar begins at the next boundary |
| Utf8.Previous | crates/marian-core/src/segmenter.rs:689-696 | the scalar before a boundary ends there |
| Utf8.Floor | crates/marian-core/src/segmenter.rs:697-703 | the largest boundary at or before an index, never below the minimum |
| Utf8.ConsumeWhitespace | crates/marian-core/src/segmenter.rs:579-589 | the longest run of whitespace from an index |
| Utf8.TrimTrailing | crates/marian-core/src/segmenter.rs:528-538 | everything behind the trimmed end is whitespace, and the scalar before it is not |
| Scheduler.RunsKeepInv | crates/marian-core/src/scheduler.rs:250-690 | all twelve invariants hold in every state of every run of any number of submitters and the worker |
| Scheduler.StepKeepsInv | crates/marian-core/src/scheduler.rs:250-690 | every single step of a submitter, the worker, a closing receiver or a failing backend keeps them |
| Scheduler.StepKeepsWakeups | crates/marian-core/src/scheduler.rs:453-580 | every step keeps the wakeup discipline: stuck submitters never exceed the wakeups in flight while slots are free |
| Scheduler.StuckMeansWakeupInFlight | crates/marian-core/src/scheduler.rs:453-492 | while the worker serves, a stuck submitter and a free slot imply that the worker or another submitter still carries a wakeup |
| Scheduler.NobodyStuckAtTheEnd | crates/marian-core/src/scheduler.rs:485-492 | once the worker is gone nobody waits for a wakeup |
| Scheduler.BatchesFollowTheChannel | crates/marian-core/src/scheduler.rs:502-585 | the batches one after another are the sent jobs in channel order less those whose receiver closed; each has one key and respects the row and padding bounds |
| Scheduler.StepKeepsFifo | crates/marian-core/src/scheduler.rs:502-585 | every step keeps the order of the queue, and at most one deferred command while the worker loops |
| Scheduler.EveryCommandInOnePlace | crates/marian-core/src/scheduler.rs:264-300 | a sent command is in exactly one of: dealt with, in hand, deferred, in the channel, lost with the channel |
| Scheduler.StepKeepsOnce | crates/marian-core/src/scheduler.rs:587-690 | no job is answered twice, and none is both answered and still under way |
| Scheduler.TakenIsSettled | crates/marian-core/src/scheduler.rs:587-690 | between batches every job taken from the queue is answered as its fate says: a job of a batch gets the batch's output or its refusal, a drained one its refusal, unless its receiver is closed |
| Scheduler.AnsweredOneWay | crates/marian-core/src/scheduler.rs:587-690 | nobody gets both an output and a refusal |
| Scheduler.StepKeepsOutputs | crates/marian-core/src/scheduler.rs:622-637 | every delivered job was handed one output, and a batch that counts as translated has one output for each of its jobs |
| Scheduler.AnswerHandsItsOwn | crates/marian-core/src/scheduler.rs:622-637 | answering job k of a batch hands it the k-th output of the backend, and changes neither the batch nor its outcome |
| Scheduler.ShutdownServesWhatIsAhead | crates/marian-core/src/scheduler.rs:335-355 | with a backend that stayed ready the worker ends at a shutdown command; jobs queued ahead of it were batched or had no receiver, jobs behind it were drained, and each is answered as its batch went, or refused if it was drained |
| Scheduler.StepKeepsDepth | crates/marian-core/src/scheduler.rs:264-300 | the queue-depth gauge is always the number of jobs waiting for a slot, in hand, deferred or in the channel |
| Scheduler.DepthIsNatural | crates/marian-core/src/scheduler.rs:264-300 | the gauge never underflows |
| Scheduler.GaugesAtRest | crates/marian-core/src/scheduler.rs:587-690 | between batches nothing is in flight, completed is the number of outputs and failed the number of refusals |
| Scheduler.BatchIsBounded | crates/marian-core/src/scheduler.rs:546-552 | a batch has at most 256 rows, and rows times bucket at most the configured size or one row |
| Wakeups.NotifyOneCovers | crates/marian-core/src/scheduler.rs:504-516 | handing one wakeup to the queue keeps the free slots covered with one owed wakeup less |
| Wakeups.LeaveCovers | crates/marian-core/src/scheduler.rs:474-482 | a submitter that times out passes on a wakeup it never read |
| Wakeups.SendCovers | crates/marian-core/src/scheduler.rs:468-472 | a submitter that takes a slot gives up at most one wakeup for it |
| Admission.BucketIsLeastPower | crates/marian-core/src/types.rs:28-37 | the length bucket is the least power of two that holds the text |
| Admission.OneBucketIsNarrow | crates/marian-core/src/types.rs:28-37 | texts of one bucket differ in length by less than a factor of two |
| Admission.PaddedBatchIsBounded | crates/marian-core/src/scheduler.rs:546-552 | padding a batch to any text of its bucket stays within the configured size, or within one row |
| Admission.SharesTileCapacity | crates/marian-core/src/scheduler.rs:179-226 | the workers of a pool share the whole queue capacity, each gets a slot, and no two differ by more than one |
| Coalescing.Coalesce | crates/marian-core/src/scheduler.rs:598-616 | unique inputs are the distinct ones in order of first occurrence, every job is mapped to its own input, and repetitions count the jobs mapped to each |
| Coalescing.FirstOccurrencesAreOrdered | crates/marian-core/src/scheduler.rs:598-616 | of two unique inputs the earlier one occurs first |
| Coalescing.RepetitionsAddUp | crates/marian-core/src/scheduler.rs:598-616 | repetitions are positive and add up to the batch size |
| Coalescing.RunBatch | crates/marian-core/src/scheduler.rs:598-647 | every job receives the output of its own input through coalescing and physical expansion; the batch succeeds if and only if the backend answers its physical rows with one output each |
| Coalescing.PhysicalRowsAreJobs | crates/marian-metal/src/backend.rs:331-366 | an input is a physical row exactly if a job asked for it |
| Coalescing.PhysicalRowsAreFew | crates/marian-metal/src/backend.rs:331-366 | there are never more physical rows than jobs |
| Coalescing.RowsOnce | crates/marian-core/src/backend.rs:30-38 | a backend that ignores repetitions sees each distinct input once, in order of first occurrence |
| Coalescing.TranslateWithRepetitions | crates/marian-metal/src/backend.rs:331-366 | one output per logical input, that of its first physical row; malformed repetitions are refused |
| Coalescing.ExpandedIsSmall | crates/marian-metal/src/backend.rs:331-366 | physical rows never exceed the sum of the repetitions |
| Coalescing.TranslateMany | crates/marian-core/src/scheduler.rs:306-333 | requests submitted in any order come back in the order of the caller |
| Service.BackendsAreRowByRow | crates/marian-core/src/backend.rs:20-38 | whatever rows the CPU or the Metal backend is given, each is translated for itself |
| Service.ServeOnCpu | crates/marian-core/src/scheduler.rs:587-647 | a batch of jobs on the CPU, coalesced, translated and given back, gives each job the translation of its own input, and is refused exactly when the batch function of its distinct inputs is undefined |
| Service.ServeOnMetal | crates/marian-metal/src/backend.rs:331-366 | a batch of jobs on Metal, coalesced, repeated as physical rows and given back, gives each job the translation of its own input, and with an engine that answers all it can is refused only when some row has none or the rows are too many |
| Service.CpuServes | crates/marian-core/src/scheduler.rs:587-647 | a batch is served on the CPU if and only if all its jobs go in the direction of the model, each input can be translated alone, and the distinct inputs have at most 4,096 segments with content |
| Service.MetalServes | crates/marian-core/src/scheduler.rs:587-647 | a batch is served on Metal if and only if all its jobs go in the direction of the model, each input can be translated alone, and the physical rows leave room for each of their segments |
| Service.RunsAreServed | crates/marian-core/src/scheduler.rs:250-690 | in every run in which jobs carry the key of their input and one backend answers the batches, every finished batch went as the backend decides about its inputs, every output handed to a job is the translation of its own input, and all scheduler invariants hold |
| Service.HandedIsRight | crates/marian-core/src/scheduler.rs:587-647 | in every run, whatever a job has received is the translation of its own input |
| Service.BatchIsUniform | crates/marian-core/src/scheduler.rs:546-585 | the inputs of a batch share direction and output budget, their lengths differ by less than a factor of two, and padding to any of them stays within the configured size or one row |
| Service.JobsOnCpu | crates/marian-core/src/scheduler.rs:250-690 | in every run on the CPU every job of a finished batch has received the translation of its own input, and nothing else, if all inputs of the batch have one and the distinct ones have at most 4,096 segments with content; otherwise it is refused; unless its receiver is closed |
| Service.JobsOnMetal | crates/marian-core/src/scheduler.rs:250-690 | the same in every run on Metal, with the room for physical rows instead |
| MarianBinary.ParseOfWrite | crates/marian-cpu/src/legacy_q8.rs:179-422 | parsing the serialization of any well-formed model, with any zero padding that aligns it, returns that model |
| MarianBinary.WriteOfParse | crates/marian-cpu/src/legacy_q8.rs:179-422 | every accepted byte string is the serialization of its result with the recorded padding: no byte is ignored |
| MarianBinary.WriteIsInjective | crates/marian-cpu/src/legacy_q8.rs:822-849 | two well-formed models with the same bytes are the same |
| MarianBinary.WriterIsAccepted | crates/marian-cpu/src/legacy_q8.rs:822-849 | what the repository's writer produces, with its own padding, is accepted and read back |
| MarianBinary.ParseModel | crates/marian-cpu/src/legacy_q8.rs:179-422 | the reader-driven parser agrees with the parsing function on every input, and its index finds each tensor by name |
| MarianBinary.ReadNames | crates/marian-cpu/src/legacy_q8.rs:231-256 | names are read in order through a map that refuses duplicates, as the parsing function does |
| MarianBinary.AlignUpIsLeast | crates/marian-cpu/src/legacy_q8.rs:730-737 | the aligned length is the least multiple of 256 that is not smaller |
| MarianBinary.RecordRead | crates/marian-cpu/src/legacy_q8.rs:296-413 | a tensor record that is accepted is the serialization of its values, padding included |
| MarianBinary.RecordWritten | crates/marian-cpu/src/legacy_q8.rs:296-413 | a written tensor record is read back, and leaves exactly what follows it |
| Codec.Reader.TakeBytes | crates/marian-cpu/src/legacy_q8.rs:739-768 | the reader advances by what it takes, or stays where it is |
| Codec.ReadOfWritten | crates/marian-cpu/src/legacy_q8.rs:200-229 | if each item of a section is read back, so is the whole section, whatever follows |
| Codec.WrittenOfRead | crates/marian-cpu/src/legacy_q8.rs:200-229 | if each item read is what would be written, so is the whole section |
| WorkerBundle.DecodeOfEncode | crates/marian-cpu/src/q8_engine/worker_packed.rs:23-199 | decoding an encoded model returns it, for any layer counts and vocabulary sizes |
| WorkerBundle.DenseRanges | crates/marian-cpu/src/q8_engine/worker_packed.rs:279-301 | the dense word ranges of the linear operators are consecutive, tile the dense section, and hold their words |
| WorkerBundle.SectionsTile | crates/marian-cpu/src/q8_engine/worker_packed.rs:163-199 | an accepted bundle is exactly its header and its four sections |
| WorkerBundle.SplitOfJoin | crates/marian-cpu/src/q8_engine/worker_packed.rs:163-199 | splitting gives back the four sections that were joined |
| WorkerBundle.LinearWritten | crates/marian-cpu/src/q8_engine/worker_packed.rs:481-528 | a written operator is read back with the words of its range |
| WorkerCodec.Encode | crates/marian-cpu/src/q8_engine/worker_packed.rs:23-80 | the bundle is produced exactly when every part fits its field, and is the serialization of the model |
| WorkerCodec.DecodeBundle | crates/marian-cpu/src/q8_engine/worker_packed.rs:84-161 | the reader-driven decoder agrees with the decoding function, and accepts only header plus four sections |
| WorkerCodec.RoundTrip | crates/marian-cpu/src/q8_engine/worker_packed.rs:23-161 | encoding then decoding a well-shaped model gives it back whenever it fits the format |
| WorkerCodec.Writer.LinearOp | crates/marian-cpu/src/q8_engine/worker_packed.rs:279-301 | an operator appends its description and its words, and records where they start |
| Shortlist.CandidateList | crates/marian-model/src/shortlist.rs:150-198 | a list is strictly increasing, in the vocabulary, starts with EOS, excludes ids 1 and 7 to 38, contains every unmasked listed target, pads with at most seven of the smallest absent ids from 50 on, and has a length divisible by eight unless all those ids are in |
| Shortlist.Candidates | crates/marian-model/src/shortlist.rs:150-198 | the in-place marking, masking and padding computes that list, or reports the first bad token; no table index can be out of range |
| Shortlist.ParsedIsValid | crates/marian-model/src/shortlist.rs:56-148 | whatever the bytes, an accepted table has ordered offsets within its targets, and targets within the vocabulary |
| Shortlist.ParseOfSerialize | crates/marian-model/src/shortlist.rs:56-148 | parsing a serialized table gives it back, whatever the two unused header words |
| Shortlist.SerializeOfParse | crates/marian-model/src/shortlist.rs:56-148 | every accepted payload is the serialization of its table |
| Shortlist.FromBytes | crates/marian-model/src/shortlist.rs:56-148 | the cursor-driven parser agrees with the parsing function |
| Avx2.Gemm | crates/marian-cpu/src/q8_avx2.rs:125-230 | for all shapes, zero points and full-range values the kernel succeeds exactly when every true dot product fits 32 bits, and its output is then the naive product |
| Avx2.DotKernel | crates/marian-cpu/src/q8_avx2.rs:238-290 | blocks, flushes and tail give the exact dot product, with no 16- or 32-bit lane wrapping |
| Avx2.FourKernel | crates/marian-cpu/src/q8_avx2.rs:292-358 | the four-column kernel gives the four exact dot products |
| Avx2.FlushOnce | crates/marian-cpu/src/q8_avx2.rs:253-284 | up to 16,384 blocks accumulate in 32-bit lanes without overflow, and are flushed as their exact share |
| Avx2.AddExact | crates/marian-cpu/src/q8_avx2.rs:278-280 | lanes bounded below the limit add without wrapping |
| Avx2.BlockExact | crates/marian-cpu/src/q8_avx2.rs:260-281 | the pair sums of sixteen products are their share of the dot product |
| Avx2.HorizontalSum | crates/marian-cpu/src/q8_avx2.rs:360-369 | the horizontal sum is the sum of the eight lanes |
| DotKernels.SdotKernel | crates/marian-cpu/src/q8_arm.rs:195-282 | the walk in 64s, 16s and tail with wrapping lanes equals the scalar sum |
| DotKernels.StableKernel | crates/marian-cpu/src/q8_arm.rs:61-191 | widening multiplication with four accumulators equals the scalar sum |
| DotKernels.RelaxedKernel | crates/marian-cpu/src/q8_arm.rs:92-191 | low seven bits and sign bits accumulated apart through the relaxed dot, whatever it does with pair sums that leave sixteen bits, and the correction shifted by seven, equal the scalar sum for any signed weights |
| DotKernels.PairFits | crates/marian-cpu/src/q8_arm.rs:92-191 | the sum of two centred activations times weights stays within sixteen bits, and within 32,258 for weights without sign, so the relaxed dot cannot saturate |
| DotKernels.WeightSplits | crates/marian-cpu/src/q8_arm.rs:100-113 | a signed weight is its low seven bits less 128 times its sign bit |
| DotKernels.CenteredIsExact | crates/marian-cpu/src/q8_arm.rs:10-17 | subtracting 127 in a byte lane is exact for every activation but 255, which quantization never produces |
| DotKernels.ScalarDot | crates/marian-cpu/src/q8_arm.rs:50-58 | the scalar loop never leaves 32 bits for up to 2^17 elements |
| DotKernels.Quantized | crates/marian-cpu/src/q8_gemm.rs:569-590 | a rounded value is clamped to 127 either way and shifted into 0 to 254 |
| Q8Linear.RunInto | crates/marian-cpu/src/q8_gemm.rs:380-448 | on finite inputs every execution path (packed library, small rows on Arm, exact AVX2, scalar) gives the naive product, whatever the scratch buffer held, unless the operator was restored on a saturating kernel with weights that can saturate it; then it gives what the library computes; otherwise one of the two shape errors, or the first value that is not finite, is reported |
| Q8Linear.QuantizeInto | crates/marian-cpu/src/q8_gemm.rs:569-590 | values are quantized one by one; the first that is not finite is reported |
| Q8Linear.ReliableExactly | crates/marian-cpu/src/q8_gemm.rs:178-319 | a restored operator gives the naive product on every input if and only if its kernel does not saturate or no pair of its weights can leave sixteen bits |
| Q8Linear.UnreliableDiffers | crates/marian-cpu/src/q8_gemm.rs:178-319 | otherwise there is a row of activations on which the two products differ |
| Q8Linear.FullRangeDiffers | crates/marian-cpu/src/q8_gemm.rs:178-242 | an instance: two weights of 127, restored on a saturating kernel, give 509 instead of 32,258 |
| Q8Linear.DotRows | crates/marian-cpu/src/q8_gemm.rs:539-557 | the row and column loops over a dot kernel give the naive product |
| Q8Linear.RunRten | crates/marian-cpu/src/q8_gemm.rs:450-524 | dispatching at most three rows to the Arm kernel changes no result |
| Q8Linear.NaiveFits | crates/marian-cpu/src/q8_gemm.rs:569-590 | with quantized activations no accumulator overflows |
| PackedGemm.LibraryIsExact | vendor/rten-gemm/src/kernels/x86_64.rs:664-683 | the packed library, which sums saturated pairs and corrects for the zero point, computes the plain sum if its kernel does not saturate or no pair of weights can leave sixteen bits |
| PackedGemm.UnsafeDiffers | vendor/rten-gemm/src/kernels/x86_64.rs:664-683 | if a pair of weights can leave sixteen bits, some activations make the saturating library differ from the plain sum |
| PackedGemm.NarrowIsSafe | crates/marian-cpu/src/q8_gemm.rs:137-154 | seven-bit weights never do, which is why the packed library is used for them |
| MetalPlanner.TranslateBatch | crates/marian-metal/src/backend.rs:150-329 | a successful result is, input by input, the left-to-right fold over the segments of that input's own text with the remaining budget; with an engine that answers every row it can answer, the batch succeeds if and only if every input has such a fold, all go in one direction, and no segment is preceded by 4,096 segments with content; every failure has its cause |
| MetalPlanner.BatchIsolatesHere | crates/marian-metal/src/backend.rs:150-329 | whatever shares a batch with an input, the input alone is accepted, too, and becomes the same |
| MetalPlanner.BackendsAgree | crates/marian-metal/src/backend.rs:150-329 | with one tokenizer and one row function, texts whose sentences fit the CPU and whose tokens it knows become the same on both backends, whenever Metal has room for them |
| MetalPlanner.SameBatchOnBoth | crates/marian-metal/src/backend.rs:150-329 | the same of the functions that the two backends compute |
| MetalPlanner.RunRounds | crates/marian-metal/src/backend.rs:215-296 | the rounds end with every segment of every input translated |
| MetalPlanner.PrepareInput | crates/marian-metal/src/backend.rs:221-236 | translated segments are passed over; without budget the rest becomes empty text |
| MetalPlanner.CollectWork | crates/marian-metal/src/backend.rs:237-247 | the next segment of every input that has one is sent, with a positive budget |
| MetalPlanner.TakeRow | crates/marian-metal/src/backend.rs:267-295 | a row is stored in its segment and reduces the budget and the segments ahead of its own input by exactly its share |
| MetalPlanner.PlanAll | crates/marian-metal/src/backend.rs:157-213 | inputs are checked for their direction and planned one by one, each from the segments of its own text; there are too many segments exactly if one, with or without content, is preceded by 4,096 segments with content; an early failure hides a later wrong direction |
| MetalPlanner.AssembleOne | crates/marian-metal/src/backend.rs:298-329 | a finished segment adds its text, separator and counts to the fold, within the budget |
| MetalDecode.Decode | crates/marian-metal/src/engine/decode.rs:49-171 | decoding in submissions of varying size, collected from a history buffer, gives every row its greedy sequence cut at EOS or at its own limit |
| MetalDecode.SubmissionsFit | crates/marian-metal/src/tuning.rs:53-69 | a submission has between one and the remaining number of steps, one after a completion, and otherwise as many as the row budget allows |
| MetalDecode.StepKeepsOwing | crates/marian-metal/metal/kernels.metal:566-630 | a kernel step and its collection record each token once, and nothing for a finished row |
| MetalDecode.DecodingEnds | crates/marian-metal/src/engine/decode.rs:49-171 | when no row is active or the last step is done, every row is complete |
| MetalCache.CacheAgreesWithNoCache | crates/marian-metal/src/metal_runtime.rs:285-319 | in every run of allocations, drops, address reuse, lookups and request ends, a cached lookup returns the view a fresh construction would give |
| MetalCache.RunsKeepInv | crates/marian-metal/src/metal_runtime.rs:285-319 | cached buffers stay alive, so their addresses are never reused while an entry exists |
| MetalCache.InsertBounded | crates/marian-metal/src/metal_runtime.rs:602-611 | a shape cache never exceeds 64 entries, and keeps nothing it was not given |
| MetalCache.MetalRuntime.MpsMatrix | crates/marian-metal/src/metal_runtime.rs:285-319 | the view is always that of the given buffer and shape, cached or not, and the call fails exactly if the row size is zero or overflows |
| MetalCache.MetalRuntime.MpsDescriptor | crates/marian-metal/src/metal_runtime.rs:235-257 | a descriptor has the given shape, and zero or overflowing row sizes fail, cached or not |
| MetalCache.MetalRuntime.MpsMatmulKernel | crates/marian-metal/src/metal_runtime.rs:259-283 | a kernel has the given shape, cached or not |
| MetalCache.MetalRuntime.BeginRequest | crates/marian-metal/src/metal_runtime.rs:452-457 | request views are forgotten, model views stay |
| MetalArena.BufferArena.Take | crates/marian-metal/src/workspace.rs:111-128 | the next slot is reused if it is large enough, else grown or replaced, and no other buffer changes |
| MetalArena.TakeAll | crates/marian-metal/src/workspace.rs:106-128 | buffers taken in one frame are pairwise distinct, and each is large enough |
| MetalArena.Workspace.BeginTransient | crates/marian-metal/src/workspace.rs:45-54 | a transient frame opens only if none is open, even after a failed growth, and leaves the request buffers alone |
| MetalArena.Workspace.BeginRequest | crates/marian-metal/src/workspace.rs:19-27 | both arenas are rewound, even after a failed growth, unless a transient frame is open |
| MetalArena.Workspace.TakeTransient | crates/marian-metal/src/workspace.rs:55-64 | transient buffers exist only inside a frame |

## Left out

- Segmenter.PieceCounter.Count: which of the three work limits was exceeded, and the tokenizer's own message, are not part of the error.
- Segmenter.SentenceUnits: whether a period may end a sentence (abbreviations, initials, acronyms, segmenter.rs:601-670) is an arbitrary predicate.
- Scheduler.RunsKeepInv: a submitter cancelled while it waits for a slot is not modelled; the gauge has no guard for it (scheduler.rs:268-290).
- Scheduler.TakenIsSettled: a job that reaches the channel after the final drain is lost with the channel, and gets no answer of its own.
- Scheduler.ShutdownServesWhatIsAhead: the acknowledgement of the shutdown command and a worker that ends because all senders are gone are not modelled.
- Scheduler.StepKeepsWakeups: batching window, enqueue deadline and readiness polling may expire at any time; no real time is modelled, and readiness never returns once lost.
- Scheduler.GaugesAtRest: the counters of accepted, rejected and timed-out requests and of batch sizes are not modelled.
- Admission.SharesTileCapacity: how the pool picks a worker for a request, and worker start-up, are not modelled.
- Service.JobsOnCpu: readiness checks and the counters around a batch are those of the scheduler model; the texts of error messages are not modelled.
- Coalescing.TranslateMany: the order in which requests are submitted is any permutation, not the sort by key.
- Coalescing.TranslateWithRepetitions: a backend that returns the wrong number of rows is an error, but its message is not modelled.
- DecodeBatch.SelectToken: logits are compared by an uninterpreted relation; the maximum property needs it to be a strict order, which NaN breaks.
- Tensor.MatMul: the multiplication itself is done by a library (`sgemm`) that is not part of the repository; that each row of the product depends on its own left row alone is assumed of it.
- Tensor.SoftmaxInPlace: the SIMD variants of elementwise loops are not modelled; numerical accuracy is not claimed anywhere.
- Avx2.Gemm: rows run in parallel in the original, so which overflow is reported may differ; the inner size is below 2^48 so that totals fit 64 bits.
- DotKernels.RelaxedKernel: the low parts and the sign bits are accumulated in two walks instead of one.
- Q8Linear.RunInto: scaling and rounding of inputs, the check of the multipliers, scaling of accumulators to f32, bias and the scratch buffers' reuse of capacity are not modelled.
- WorkerBundle.DecodeOfEncode: the operators of all layers are one flat list in the order in which they are written; restoring packed words is taking a slice.
- WorkerBundle.LinearWritten: that the packed words fit the kernel's layout is not checked, as the kernel is foreign code.
- MarianBinary.ParseModel: values are bit patterns, and whether bytes are UTF-8 is an arbitrary predicate; `validate_q8`, dense views and file access are not modelled.
- MetalDecode.Decode: the selection kernel's parallel reduction is taken as one step that picks the next token of a row.
- MetalCache.RunsKeepInv: Metal objects are identified by number and address; encoders and command buffers are not modelled.
- MetalArena.TakeAll: `upload` is `take` followed by a copy, and is not modelled.
- MetalPlanner.TranslateBatch: the Metal engine's own limits on rows and lengths appear only as failures of the engine.
- `q8_engine.rs` repeats the control flow of `engine.rs` with pooled buffers; the FP32 form is modelled once.
- Address arithmetic: lengths in file formats are 64-bit, planner counts 32-bit; overflow of `usize` in tensor shapes is not modelled.
- Pivot translation, HTTP, the command line, configuration, manifests, hashing, memory mapping, SentencePiece and the Wasm interface are not modelled.
