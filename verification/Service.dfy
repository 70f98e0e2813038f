/**
 The whole service (`run_batch` in `crates/marian-core/src/scheduler.rs` with the backends behind it): the jobs of one
 batch are coalesced, translated together, and every job gets what its own input becomes by itself.
 */
module Service {
  import opened Base
  import opened Coalescing
  import opened Wakeups
  import Admission
  import MetalPlanner
  import Pipeline
  import Planner
  import Scheduler
  import Segmenter
  import Transformer
  import Utf8

  type Input = Planner.Input
  type Output = Planner.Output

  // ---------------------------------------------------------------------------------- backends, row by row

  /** `translate_batch` of the CPU backend, as a function of its rows. */
  ghost function CpuBackend(translate: Planner.Translator, cut: Planner.Cutter, sourceLang: string, targetLang: string): Backend<Input, Output> {
    rows =>
      var batch := Planner.BatchOf(translate, cut, sourceLang, targetLang, rows);
      if batch.Some? then Ok(batch.value) else Err("batch")
  }

  /** `translate_batch` of the Metal backend, as a function of its rows. */
  ghost function MetalBackend(translate: Planner.Translator, cut: Planner.Cutter, sourceLang: string, targetLang: string): Backend<Input, Output> {
    rows =>
      var batch := MetalPlanner.BatchHere(translate, cut, sourceLang, targetLang, rows);
      if batch.Some? then Ok(batch.value) else Err("batch")
  }

  function Each(translate: Planner.Translator): Translation<Input, Output> {
    (input: Input) => Planner.OrEmpty(translate(input))
  }

  /** Both backends translate every row for itself. */
  lemma BackendsAreRowByRow(translate: Planner.Translator, cut: Planner.Cutter, sourceLang: string, targetLang: string)
    ensures RowByRow(CpuBackend(translate, cut, sourceLang, targetLang), Each(translate))
    ensures RowByRow(MetalBackend(translate, cut, sourceLang, targetLang), Each(translate))
  {
    var cpu, metal := CpuBackend(translate, cut, sourceLang, targetLang), MetalBackend(translate, cut, sourceLang, targetLang);
    forall rows: seq<Input> ensures Answers(cpu, rows) ==> IsImage(rows, cpu(rows).value, Each(translate)) {
      if Answers(cpu, rows) { assert cpu(rows).value == Planner.Outputs(translate, rows); }
    }
    forall rows: seq<Input> ensures Answers(metal, rows) ==> IsImage(rows, metal(rows).value, Each(translate)) {
      if Answers(metal, rows) { assert metal(rows).value == Planner.Outputs(translate, rows); }
    }
  }

  // ---------------------------------------------------------------------------------- one batch of jobs

  /** What the jobs of one batch get, if the backend answers. */
  ghost function ServedBy(backend: Backend<Input, Output>, width: nat, translate: Planner.Translator, jobs: seq<Input>): Option<seq<Output>> {
    if Answers(backend, PhysicalRows(jobs, width)) then Some(Planner.Outputs(translate, jobs)) else None
  }

  /** All jobs go in one direction, and each input can be translated. */
  ghost predicate Servable(translate: Planner.Translator, sourceLang: string, targetLang: string, jobs: seq<Input>) {
    forall x {:trigger x in jobs} :: x in jobs ==> x.sourceLang == sourceLang && x.targetLang == targetLang && translate(x).Some?
  }

  lemma ServableByIndex(translate: Planner.Translator, sourceLang: string, targetLang: string, jobs: seq<Input>)
    ensures Servable(translate, sourceLang, targetLang, jobs)
            <==> Planner.SameDirection(jobs, sourceLang, targetLang) && forall i :: 0 <= i < |jobs| ==> translate(jobs[i]).Some?
  {
    if Servable(translate, sourceLang, targetLang, jobs) {
      forall i | 0 <= i < |jobs| ensures jobs[i].sourceLang == sourceLang && jobs[i].targetLang == targetLang && translate(jobs[i]).Some? {
        assert jobs[i] in jobs;
      }
    }
  }

  lemma RowsServable(translate: Planner.Translator, sourceLang: string, targetLang: string, jobs: seq<Input>, width: nat)
    requires width > 0
    ensures Servable(translate, sourceLang, targetLang, PhysicalRows(jobs, width)) <==> Servable(translate, sourceLang, targetLang, jobs)
  {
    var rows := PhysicalRows(jobs, width);
    forall x ensures x in rows <==> x in jobs { PhysicalRowsAreJobs(jobs, width, x); }
  }

  /** On the CPU a batch is refused only for a job that cannot be translated, or if its distinct texts have too many segments. */
  lemma CpuServes(translate: Planner.Translator, cut: Planner.Cutter, sourceLang: string, targetLang: string, jobs: seq<Input>)
    ensures var unique := FirstOccurrences(jobs);
            ServedBy(CpuBackend(translate, cut, sourceLang, targetLang), 1, translate, jobs).Some?
            <==> && Servable(translate, sourceLang, targetLang, jobs)
                 && Planner.ContentTotal(cut, unique, |unique|) <= Planner.MAXIMUM_TRANSLATION_SEGMENTS
  {
    RowsOnce(jobs);
    RowsServable(translate, sourceLang, targetLang, jobs, 1);
    ServableByIndex(translate, sourceLang, targetLang, FirstOccurrences(jobs));
  }

  /** On Metal a batch is refused only for a job that cannot be translated, or if its physical rows are too many for one batch. */
  lemma MetalServes(translate: Planner.Translator, cut: Planner.Cutter, sourceLang: string, targetLang: string, jobs: seq<Input>, width: nat)
    requires width > 0
    ensures ServedBy(MetalBackend(translate, cut, sourceLang, targetLang), width, translate, jobs).Some?
            <==> Servable(translate, sourceLang, targetLang, jobs) && !MetalPlanner.Crowded(cut, PhysicalRows(jobs, width))
  {
    RowsServable(translate, sourceLang, targetLang, jobs, width);
    ServableByIndex(translate, sourceLang, targetLang, PhysicalRows(jobs, width));
  }

  /** On the CPU a batch becomes what its distinct inputs become. */
  lemma CpuOutcome(translate: Planner.Translator, cut: Planner.Cutter, sourceLang: string, targetLang: string, jobs: seq<Input>)
    ensures var batch := Planner.BatchOf(translate, cut, sourceLang, targetLang, FirstOccurrences(jobs));
            && ServedBy(CpuBackend(translate, cut, sourceLang, targetLang), 1, translate, jobs)
               == (if batch.Some? then Some(Planner.Outputs(translate, jobs)) else None)
            && (batch.Some? ==> IsImage(FirstOccurrences(jobs), batch.value, Each(translate)))
  {
    RowsOnce(jobs);
    BackendsAreRowByRow(translate, cut, sourceLang, targetLang);
  }

  lemma ImageIsOutputs(translate: Planner.Translator, jobs: seq<Input>, answers: seq<Output>)
    requires IsImage(jobs, answers, Each(translate))
    ensures answers == Planner.Outputs(translate, jobs)
  {
  }

  /** A batch of jobs on the CPU: coalesced, translated, and given back to its jobs. */
  method ServeOnCpu(m: Transformer.Model, engine: Planner.TokenEngine, encode: Planner.Encoder, decode: Planner.Decoder,
                    periodEnds: Segmenter.PeriodRule, sourceLang: string, targetLang: string, eos: int, jobs: seq<Input>)
    returns (r: Result<seq<Output>, Planner.Error>)
    requires m.Valid() && 0 <= eos < m.sourceVocab && engine == Pipeline.EngineOf(m)
    requires forall j :: 0 <= j < |jobs| ==> Utf8.Valid(jobs[j].text)
    ensures var translate, cut := Pipeline.Translation(m, encode, decode, periodEnds, eos), Pipeline.Cut(encode, periodEnds);
            ServedBy(CpuBackend(translate, cut, sourceLang, targetLang), 1, translate, jobs) == if r.Ok? then Some(r.value) else None
  {
    ghost var translate, cut := Pipeline.Translation(m, encode, decode, periodEnds, eos), Pipeline.Cut(encode, periodEnds);
    var unique, repetitions, indices := Coalesce(jobs);
    forall k | 0 <= k < |unique| ensures Utf8.Valid(unique[k].text) { assert unique[k] in jobs; }
    CpuOutcome(translate, cut, sourceLang, targetLang, jobs);
    var outputs := Pipeline.TranslateTexts(m, engine, encode, decode, periodEnds, sourceLang, targetLang, eos, unique);
    if outputs.Err? { return Err(outputs.error); }
    var answers := AnswerJobs(jobs, outputs.value, indices, unique, repetitions, Each(translate));
    ImageIsOutputs(translate, jobs, answers);
    return Ok(answers);
  }

  /** `translate_batch_with_repetitions` over the budget loop: the output of every input is that of its first physical row. */
  method RepeatOnMetal(engine: Planner.TokenEngine, ghost c: Planner.Context, ghost cut: Planner.Cutter, ghost translate: Planner.Translator,
                       encode: Planner.Encoder, decode: Planner.Decoder, periodEnds: Segmenter.PeriodRule, sourceLang: string,
                       targetLang: string, eos: int, width: nat, unique: seq<Input>, repetitions: seq<nat>)
    returns (r: Result<seq<Output>, Planner.Error>)
    requires MetalPlanner.AnswersRowByRow(engine, c.row) && c.decode == decode && c.eos == eos && width > 0
    requires Planner.Cuts(cut, encode, MetalPlanner.MAX_SOURCE_TOKENS - 1, periodEnds) && MetalPlanner.IsFolder(translate, c, encode, cut)
    requires |unique| == |repetitions| && 0 !in repetitions && forall j :: 0 <= j < |unique| ==> Utf8.Valid(unique[j].text)
    ensures r.Ok? ==> IsImage(unique, r.value, Each(translate))
    ensures r.Ok? ==> Answers(MetalBackend(translate, cut, sourceLang, targetLang), Expanded(unique, repetitions, width, |unique|))
    ensures var rows := Expanded(unique, repetitions, width, |unique|);
            MetalPlanner.AnswersAll(engine, c.row) && MetalPlanner.Packable(|rows|) ==>
              (r.Ok? <==> Answers(MetalBackend(translate, cut, sourceLang, targetLang), rows))
  {
    var rows, first := Expand(unique, repetitions, width);
    forall k | 0 <= k < |rows| ensures Utf8.Valid(rows[k].text) {
      ExpandedMember(unique, repetitions, width, |unique|, rows[k]);
      assert unique[..|unique|] == unique;
    }
    var outputs := MetalPlanner.TranslateBatch(engine, c, cut, translate, encode, decode, periodEnds, sourceLang, targetLang, eos, rows);
    if outputs.Err? { return Err(outputs.error); }
    BackendsAreRowByRow(translate, cut, sourceLang, targetLang);
    assert Answers(MetalBackend(translate, cut, sourceLang, targetLang), rows);
    FirstRowsHold(unique, repetitions, width, first, rows);
    var picked := Pick(unique, outputs.value, first, rows, Each(translate));
    return Ok(picked);
  }

  /** A batch of jobs on Metal: coalesced, repeated as physical rows, translated, and given back to its jobs. */
  method ServeOnMetal(engine: Planner.TokenEngine, ghost c: Planner.Context, ghost cut: Planner.Cutter, ghost translate: Planner.Translator,
                      encode: Planner.Encoder, decode: Planner.Decoder, periodEnds: Segmenter.PeriodRule, sourceLang: string, targetLang: string,
                      eos: int, width: nat, jobs: seq<Input>)
    returns (r: Result<seq<Output>, Planner.Error>)
    requires MetalPlanner.AnswersRowByRow(engine, c.row) && c.decode == decode && c.eos == eos && width > 0
    requires Planner.Cuts(cut, encode, MetalPlanner.MAX_SOURCE_TOKENS - 1, periodEnds) && MetalPlanner.IsFolder(translate, c, encode, cut)
    requires forall j :: 0 <= j < |jobs| ==> Utf8.Valid(jobs[j].text)
    ensures r.Ok? ==> ServedBy(MetalBackend(translate, cut, sourceLang, targetLang), width, translate, jobs) == Some(r.value)
    ensures MetalPlanner.AnswersAll(engine, c.row) && MetalPlanner.Packable(|jobs|) ==>
              (r.Ok? <==> ServedBy(MetalBackend(translate, cut, sourceLang, targetLang), width, translate, jobs).Some?)
  {
    var unique, repetitions, indices := Coalesce(jobs);
    RepetitionsAddUp(jobs, unique, repetitions, indices);
    assert repetitions == Counts(jobs, unique);
    PhysicalRowsAreFew(jobs, width);
    MetalPlanner.FewRowsPackIf(|PhysicalRows(jobs, width)|, |jobs|);
    forall k | 0 <= k < |unique| ensures Utf8.Valid(unique[k].text) { assert unique[k] in jobs; }
    var outputs := RepeatOnMetal(engine, c, cut, translate, encode, decode, periodEnds, sourceLang, targetLang, eos, width, unique, repetitions);
    if outputs.Err? { return Err(outputs.error); }
    var answers := AnswerJobs(jobs, outputs.value, indices, unique, repetitions, Each(translate));
    ImageIsOutputs(translate, jobs, answers);
    return Ok(answers);
  }

  // ---------------------------------------------------------------------------------- the key of an input

  /** `chars().count()`. */
  function Characters(text: Utf8.Text): nat {
    CharactersTo(text, |text|)
  }

  function CharactersTo(text: Utf8.Text, n: nat): nat
    requires n <= |text|
  {
    if n == 0 then 0 else CharactersTo(text, n - 1) + if Utf8.Continuation(text[n - 1]) then 0 else 1
  }

  /** `batch_key`. */
  function KeyOf(input: Input): Key {
    Key(input.sourceLang, input.targetLang, input.maxOutputTokens, Admission.Bucket(Characters(input.text)))
  }

  // ---------------------------------------------------------------------------------- runs with a backend

  /** The input of every job, by the number of its submitter. */
  type Inputs = nat -> Input

  /** What a backend makes of the jobs of a batch. */
  type Serve = seq<Input> -> Option<seq<Output>>

  function InputsOf(inputs: Inputs, batch: seq<Command>): (rows: seq<Input>)
    ensures |rows| == |batch|
  {
    seq(|batch|, i requires 0 <= i < |batch| => inputs(batch[i].id))
  }

  /** Jobs come with the key of their input, and a batch goes as the backend decides. */
  ghost predicate StepServed(s: Scheduler.State, step: Scheduler.Step, inputs: Inputs, serve: Serve) {
    match step
    case Arrive(key) => key.Some? ==> key.value == KeyOf(inputs(|s.q.submitters|))
    case Work(b) => b.Infer? ==> b.given == serve(InputsOf(inputs, s.w.batch))
    case _ => true
  }

  ghost predicate Keyed(inputs: Inputs, c: Command) {
    c.Translate? ==> c.key == KeyOf(inputs(c.id))
  }

  ghost predicate AllKeyed(inputs: Inputs, s: Scheduler.State) {
    && (forall i :: 0 <= i < |s.q.submitters| ==> Keyed(inputs, s.q.submitters[i].command))
    && (forall i :: 0 <= i < |s.sent| ==> Keyed(inputs, s.sent[i]))
  }

  /** A backend that answers gives every job the translation of its own input. */
  ghost predicate ServesRight(serve: Serve, translate: Planner.Translator) {
    forall jobs {:trigger serve(jobs)} :: serve(jobs).Some? ==>
      |serve(jobs).value| == |jobs| && forall k :: 0 <= k < |jobs| ==> translate(jobs[k]) == Some(serve(jobs).value[k])
  }

  /** Every batch went as the backend decided, and the answers at hand are those of the backend. */
  ghost predicate Decided(inputs: Inputs, serve: Serve, w: Scheduler.Worker) {
    && (w.pc.Reply? ==> if w.pc.ok then serve(InputsOf(inputs, w.batch)) == Some(w.given) else serve(InputsOf(inputs, w.batch)).None?)
    && |w.results| == |w.batches|
    && forall b :: 0 <= b < |w.batches| ==> (w.results[b] <==> serve(InputsOf(inputs, w.batches[b])).Some?)
  }

  /** Whatever was handed to a job is the translation of its own input. */
  ghost predicate HandedRight(inputs: Inputs, translate: Planner.Translator, w: Scheduler.Worker) {
    && |w.outputs| == |w.delivered|
    && forall i :: 0 <= i < |w.delivered| ==> translate(inputs(w.delivered[i].id)) == Some(w.outputs[i])
  }

  lemma StepKeepsKeyed(s: Scheduler.State, step: Scheduler.Step, inputs: Inputs, serve: Serve)
    requires AllKeyed(inputs, s) && QueueOk(s.q) && Scheduler.Enabled(s, step) && StepServed(s, step, inputs, serve)
    ensures AllKeyed(inputs, Scheduler.Apply(s, step))
  {
    match step
    case Work(b) => Scheduler.WorkKeepsCommands(s, b);
    case Submit(i, a) => Scheduler.SubmitKeepsCommands(s, i, a);
    case _ =>
  }

  /** The worker decides nothing, and finishes no batch. */
  ghost predicate NothingDecided(v: Scheduler.Worker, w: Scheduler.Worker) {
    !v.pc.Reply? && v.results == w.results && v.batches == w.batches
  }

  lemma TakingDecidesNothing(s: Scheduler.State, b: Scheduler.WorkStep)
    requires QueueOk(s.q) && Scheduler.WorkEnabled(s, b) && (b.TakeFirst? || b.Sort? || b.FailOne?)
    ensures NothingDecided(Scheduler.WorkApply(s, b).w, s.w)
  {
  }

  /** The steps that neither decide about a batch nor finish one. */
  lemma OthersDecideNothing(s: Scheduler.State, b: Scheduler.WorkStep)
    requires QueueOk(s.q) && Scheduler.WorkEnabled(s, b) && !b.Infer? && !b.Answer? && !b.EndBatch?
    ensures NothingDecided(Scheduler.WorkApply(s, b).w, s.w)
  {
    if b.TakeFirst? || b.Sort? || b.FailOne? { TakingDecidesNothing(s, b); }
  }

  lemma AnswerDecidesNothing(s: Scheduler.State)
    requires s.w.pc.Reply? && s.w.pc.k < |s.w.batch|
    ensures var t := Scheduler.ApplyAnswer(s.w, s.closed); t.results == s.w.results && t.batches == s.w.batches
  {
  }

  lemma StepKeepsDecided(s: Scheduler.State, step: Scheduler.Step, inputs: Inputs, serve: Serve, translate: Planner.Translator)
    requires Decided(inputs, serve, s.w) && QueueOk(s.q) && Scheduler.Enabled(s, step) && StepServed(s, step, inputs, serve)
    requires ServesRight(serve, translate)
    ensures Decided(inputs, serve, Scheduler.Apply(s, step).w)
  {
    match step
    case Work(b) =>
      if b.Answer? {
        AnswerDecidesNothing(s);
        Scheduler.AnswerHandsItsOwn(s.w, s.closed);
      } else if !b.Infer? && !b.EndBatch? {
        OthersDecideNothing(s, b);
      }
    case _ =>
  }

  lemma AnswerHandsRight(w: Scheduler.Worker, closed: set<nat>, inputs: Inputs, serve: Serve, translate: Planner.Translator)
    requires HandedRight(inputs, translate, w) && Decided(inputs, serve, w) && ServesRight(serve, translate)
    requires w.pc.Reply? && w.pc.k < |w.batch|
    ensures HandedRight(inputs, translate, Scheduler.ApplyAnswer(w, closed))
  {
    Scheduler.AnswerHandsItsOwn(w, closed);
    var v, k := Scheduler.ApplyAnswer(w, closed), w.pc.k;
    if v.delivered != w.delivered {
      var jobs := InputsOf(inputs, w.batch);
      assert jobs[k] == inputs(w.batch[k].id) && translate(jobs[k]) == Some(w.given[k]);
    }
  }

  lemma StepHandsRight(s: Scheduler.State, step: Scheduler.Step, inputs: Inputs, serve: Serve, translate: Planner.Translator)
    requires HandedRight(inputs, translate, s.w) && Decided(inputs, serve, s.w) && ServesRight(serve, translate)
    requires QueueOk(s.q) && Scheduler.Enabled(s, step)
    ensures HandedRight(inputs, translate, Scheduler.Apply(s, step).w)
  {
    if step.Work? {
      if step.b.Answer? {
        AnswerHandsRight(s.w, s.closed, inputs, serve, translate);
      } else if !step.b.Infer? {
        Scheduler.OthersReplyNothing(s, step.b);
      }
    }
  }

  /** A run in which jobs carry the keys of their inputs, and one backend decides about every batch. */
  ghost predicate IsServedRun(config: Scheduler.Config, trace: seq<Scheduler.State>, inputs: Inputs, serve: Serve) {
    && trace != [] && trace[0] == Scheduler.Initial(config)
    && forall i: nat, j: nat :: i + 1 == j < |trace| ==> ServedNext(trace[i], trace[j], inputs, serve)
  }

  ghost predicate ServedNext(s: Scheduler.State, t: Scheduler.State, inputs: Inputs, serve: Serve) {
    QueueOk(s.q) && exists step :: Scheduler.Enabled(s, step) && StepServed(s, step, inputs, serve) && t == Scheduler.Apply(s, step)
  }

  /** What holds in every state of such a run. */
  ghost predicate ServedOk(s: Scheduler.State, inputs: Inputs, serve: Serve, translate: Planner.Translator) {
    && Scheduler.Inv(s) && AllKeyed(inputs, s) && Decided(inputs, serve, s.w) && HandedRight(inputs, translate, s.w)
  }

  lemma StepKeepsServed(s: Scheduler.State, step: Scheduler.Step, inputs: Inputs, serve: Serve, translate: Planner.Translator)
    requires ServedOk(s, inputs, serve, translate) && ServesRight(serve, translate)
    requires QueueOk(s.q) && Scheduler.Enabled(s, step) && StepServed(s, step, inputs, serve)
    ensures ServedOk(Scheduler.Apply(s, step), inputs, serve, translate)
  {
    Scheduler.StepKeepsInv(s, step);
    StepKeepsKeyed(s, step, inputs, serve);
    StepKeepsDecided(s, step, inputs, serve, translate);
    StepHandsRight(s, step, inputs, serve, translate);
  }

  lemma InitiallyServed(config: Scheduler.Config, inputs: Inputs, serve: Serve, translate: Planner.Translator)
    requires config.Valid()
    ensures ServedOk(Scheduler.Initial(config), inputs, serve, translate)
  {
    Scheduler.InitialInv(config);
  }

  lemma {:induction false} RunsAreServed(config: Scheduler.Config, trace: seq<Scheduler.State>, inputs: Inputs, serve: Serve,
                                         translate: Planner.Translator, n: nat)
    requires config.Valid() && IsServedRun(config, trace, inputs, serve) && ServesRight(serve, translate) && n < |trace|
    ensures ServedOk(trace[n], inputs, serve, translate)
  {
    if n == 0 {
      InitiallyServed(config, inputs, serve, translate);
    } else {
      RunsAreServed(config, trace, inputs, serve, translate, n - 1);
      assert ServedNext(trace[n - 1], trace[n], inputs, serve);
      var step :| Scheduler.Enabled(trace[n - 1], step) && StepServed(trace[n - 1], step, inputs, serve)
                  && trace[n] == Scheduler.Apply(trace[n - 1], step);
      StepKeepsServed(trace[n - 1], step, inputs, serve, translate);
    }
  }

  // ---------------------------------------------------------------------------------- what every job gets

  lemma {:induction false} FlattenHas(batches: seq<seq<Command>>, b: nat, i: nat)
    requires b < |batches| && i < |batches[b]|
    ensures batches[b][i] in Scheduler.Flatten(batches)
  {
    if b < |batches| - 1 { FlattenHas(batches[..|batches| - 1], b, i); }
  }

  lemma {:induction false} BatchedIsTaken(taken: seq<Scheduler.Taken>, c: Command)
    requires c in Scheduler.BatchedOf(taken)
    ensures c in Scheduler.Commands(taken)
  {
    var front, last := taken[..|taken| - 1], taken[|taken| - 1];
    if c in Scheduler.BatchedOf(front) {
      BatchedIsTaken(front, c);
      var k :| 0 <= k < |front| && Scheduler.Commands(front)[k] == c;
      assert Scheduler.Commands(taken)[k] == c;
    } else {
      assert Scheduler.Commands(taken)[|taken| - 1] == c;
    }
  }

  lemma BatchIsSent(s: Scheduler.State, b: nat, i: nat)
    requires Scheduler.Inv(s) && b < |s.w.batches| && i < |s.w.batches[b]|
    ensures s.w.batches[b][i] in s.sent
  {
    Scheduler.BatchesFollowTheChannel(s);
    FlattenHas(s.w.batches, b, i);
    assert s.w.batches[b][i] in Scheduler.Flatten(s.w.batches) + s.w.batch;
    BatchedIsTaken(s.w.taken, s.w.batches[b][i]);
  }

  /** All jobs of a batch go in one direction with one budget, in texts of about one length that are padded within bounds. */
  lemma BatchIsUniform(s: Scheduler.State, inputs: Inputs, b: nat, i: nat, j: nat)
    requires Scheduler.Inv(s) && AllKeyed(inputs, s) && b < |s.w.batches| && i < |s.w.batches[b]| && j < |s.w.batches[b]|
    ensures var x, y := inputs(s.w.batches[b][i].id), inputs(s.w.batches[b][j].id);
            && x.sourceLang == y.sourceLang && x.targetLang == y.targetLang && x.maxOutputTokens == y.maxOutputTokens
            && Max(Characters(x.text), 1) < 2 * Max(Characters(y.text), 1)
    ensures var bucket := Admission.Bucket(Characters(inputs(s.w.batches[b][i].id).text));
            |s.w.batches[b]| * Characters(inputs(s.w.batches[b][j].id).text) <= Max(s.config.maxPaddedSourceChars, bucket)
  {
    var batch := s.w.batches[b];
    BatchIsSent(s, b, i);
    BatchIsSent(s, b, j);
    assert Scheduler.OneKey(s.config, batch) && Scheduler.SameKey(batch[i], batch[0]) && Scheduler.SameKey(batch[j], batch[0]);
    assert Keyed(inputs, batch[i]) && Keyed(inputs, batch[j]);
    Admission.OneBucketIsNarrow(Characters(inputs(batch[i].id).text), Characters(inputs(batch[j].id).text));
    Admission.PaddedBatchIsBounded(s.config, batch, Characters(inputs(batch[j].id).text));
  }

  /** The job has received this output. */
  ghost predicate HandedOut(s: Scheduler.State, job: Command, x: Output) {
    exists i {:trigger s.w.delivered[i]} :: 0 <= i < |s.w.delivered| == |s.w.outputs| && s.w.delivered[i] == job && s.w.outputs[i] == x
  }

  /** The job has the translation of its own input and nothing else, or its refusal; unless nobody waits for the answer any more. */
  ghost predicate Answered(s: Scheduler.State, inputs: Inputs, translate: Planner.Translator, job: Command, served: bool) {
    && (forall x {:trigger HandedOut(s, job, x)} :: HandedOut(s, job, x) ==> translate(inputs(job.id)) == Some(x))
    && if served then
         translate(inputs(job.id)).Some? && (job.id in s.closed || HandedOut(s, job, translate(inputs(job.id)).value))
       else job.id in s.closed || job in s.w.refused
  }

  /** In every run, whatever a job receives is the translation of its own input. */
  lemma HandedIsRight(config: Scheduler.Config, trace: seq<Scheduler.State>, inputs: Inputs, serve: Serve, translate: Planner.Translator,
                      n: nat, job: Command, x: Output)
    requires config.Valid() && IsServedRun(config, trace, inputs, serve) && ServesRight(serve, translate)
    requires n < |trace| && HandedOut(trace[n], job, x)
    ensures translate(inputs(job.id)) == Some(x)
  {
    RunsAreServed(config, trace, inputs, serve, translate, n);
  }

  lemma JobsAreAnswered(config: Scheduler.Config, trace: seq<Scheduler.State>, inputs: Inputs, serve: Serve, translate: Planner.Translator,
                        n: nat, b: nat, i: nat)
    requires config.Valid() && IsServedRun(config, trace, inputs, serve) && ServesRight(serve, translate)
    requires n < |trace| && b < |trace[n].w.batches| && i < |trace[n].w.batches[b]|
    ensures Answered(trace[n], inputs, translate, trace[n].w.batches[b][i], serve(InputsOf(inputs, trace[n].w.batches[b])).Some?)
  {
    RunsAreServed(config, trace, inputs, serve, translate, n);
    var s := trace[n];
    var job, jobs := s.w.batches[b][i], InputsOf(inputs, s.w.batches[b]);
    assert Scheduler.Settled(s, job, serve(jobs).Some?) && jobs[i] == inputs(job.id);
    if serve(jobs).Some? && job.id !in s.closed {
      var k :| 0 <= k < |s.w.delivered| && s.w.delivered[k] == job;
      assert HandedOut(s, job, s.w.outputs[k]);
    }
  }

  lemma CpuServesRight(translate: Planner.Translator, cut: Planner.Cutter, sourceLang: string, targetLang: string, jobs: seq<Input>)
    ensures var served := ServedBy(CpuBackend(translate, cut, sourceLang, targetLang), 1, translate, jobs);
            served.Some? ==> |served.value| == |jobs| && forall k :: 0 <= k < |jobs| ==> translate(jobs[k]) == Some(served.value[k])
  {
    CpuServes(translate, cut, sourceLang, targetLang, jobs);
    ServableByIndex(translate, sourceLang, targetLang, jobs);
  }

  lemma MetalServesRight(translate: Planner.Translator, cut: Planner.Cutter, sourceLang: string, targetLang: string, jobs: seq<Input>, width: nat)
    requires width > 0
    ensures var served := ServedBy(MetalBackend(translate, cut, sourceLang, targetLang), width, translate, jobs);
            served.Some? ==> |served.value| == |jobs| && forall k :: 0 <= k < |jobs| ==> translate(jobs[k]) == Some(served.value[k])
  {
    MetalServes(translate, cut, sourceLang, targetLang, jobs, width);
    ServableByIndex(translate, sourceLang, targetLang, jobs);
  }

  /**
   In every run on the CPU: if all inputs of a batch can be translated, and its distinct ones have few enough segments, each of its
   jobs receives what its own input becomes by itself, and nothing else; if not, each is refused; unless nobody waits any more.
   */
  lemma JobsOnCpu(config: Scheduler.Config, trace: seq<Scheduler.State>, inputs: Inputs, translate: Planner.Translator,
                  cut: Planner.Cutter, sourceLang: string, targetLang: string, n: nat, b: nat, i: nat)
    requires var backend := CpuBackend(translate, cut, sourceLang, targetLang);
             config.Valid() && IsServedRun(config, trace, inputs, jobs => ServedBy(backend, 1, translate, jobs))
    requires n < |trace| && b < |trace[n].w.batches| && i < |trace[n].w.batches[b]|
    ensures var jobs := InputsOf(inputs, trace[n].w.batches[b]);
            var unique := FirstOccurrences(jobs);
            Answered(trace[n], inputs, translate, trace[n].w.batches[b][i],
                     Servable(translate, sourceLang, targetLang, jobs)
                     && Planner.ContentTotal(cut, unique, |unique|) <= Planner.MAXIMUM_TRANSLATION_SEGMENTS)
  {
    var backend := CpuBackend(translate, cut, sourceLang, targetLang);
    var serve: Serve := jobs => ServedBy(backend, 1, translate, jobs);
    assert ServesRight(serve, translate) by {
      forall jobs | serve(jobs).Some?
        ensures |serve(jobs).value| == |jobs| && forall k :: 0 <= k < |jobs| ==> translate(jobs[k]) == Some(serve(jobs).value[k])
      {
        CpuServesRight(translate, cut, sourceLang, targetLang, jobs);
      }
    }
    JobsAreAnswered(config, trace, inputs, serve, translate, n, b, i);
    CpuServes(translate, cut, sourceLang, targetLang, InputsOf(inputs, trace[n].w.batches[b]));
  }

  /** The same on Metal, where the physical rows of the batch must not be too many. */
  lemma JobsOnMetal(config: Scheduler.Config, trace: seq<Scheduler.State>, inputs: Inputs, translate: Planner.Translator,
                    cut: Planner.Cutter, sourceLang: string, targetLang: string, width: nat, n: nat, b: nat, i: nat)
    requires var backend := MetalBackend(translate, cut, sourceLang, targetLang);
             config.Valid() && width > 0 && IsServedRun(config, trace, inputs, jobs => ServedBy(backend, width, translate, jobs))
    requires n < |trace| && b < |trace[n].w.batches| && i < |trace[n].w.batches[b]|
    ensures var jobs := InputsOf(inputs, trace[n].w.batches[b]);
            Answered(trace[n], inputs, translate, trace[n].w.batches[b][i],
                     Servable(translate, sourceLang, targetLang, jobs) && !MetalPlanner.Crowded(cut, PhysicalRows(jobs, width)))
  {
    var backend := MetalBackend(translate, cut, sourceLang, targetLang);
    var serve: Serve := jobs => ServedBy(backend, width, translate, jobs);
    assert ServesRight(serve, translate) by {
      forall jobs | serve(jobs).Some?
        ensures |serve(jobs).value| == |jobs| && forall k :: 0 <= k < |jobs| ==> translate(jobs[k]) == Some(serve(jobs).value[k])
      {
        MetalServesRight(translate, cut, sourceLang, targetLang, jobs, width);
      }
    }
    JobsAreAnswered(config, trace, inputs, serve, translate, n, b, i);
    MetalServes(translate, cut, sourceLang, targetLang, InputsOf(inputs, trace[n].w.batches[b]), width);
  }
}
