/**
 Duplicate requests of one batch (`crates/marian-core/src/scheduler.rs`, `crates/marian-metal/src/backend.rs`):
 identical inputs are translated once, an accelerator may repeat them as rows again, and still every job gets
 the answer to its own input.
 */
module Coalescing {
  import opened Base
  import opened Distinct
  import opened Sums

  type Translation<!Input, Output> = Input -> Output
  type Backend<!Input, Output> = seq<Input> -> Result<seq<Output>, string>

  // ---------------------------------------------------------------------------------- what coalescing must produce

  function Occurrences<Input(==, !new)>(jobs: seq<Input>, x: Input): nat {
    if jobs == [] then 0 else Occurrences(jobs[..|jobs| - 1], x) + if jobs[|jobs| - 1] == x then 1 else 0
  }

  /** The inputs in the order of their first occurrence. */
  function FirstOccurrences<Input(==, !new)>(jobs: seq<Input>): (unique: seq<Input>)
    ensures NoRepeats(unique) && |unique| <= |jobs|
    ensures forall x :: x in unique <==> x in jobs
  {
    if jobs == [] then []
    else
      var front, last := FirstOccurrences(jobs[..|jobs| - 1]), jobs[|jobs| - 1];
      if last in front then front else front + [last]
  }

  ghost predicate FirstAt<Input(!new)>(jobs: seq<Input>, x: Input, i: nat) {
    i < |jobs| && jobs[i] == x && forall j :: 0 <= j < i ==> jobs[j] != x
  }

  /** Of two unique inputs, the earlier one occurs first. */
  lemma {:induction false} FirstOccurrencesAreOrdered<Input(!new)>(jobs: seq<Input>, k: nat, l: nat) returns (i: nat, j: nat)
    requires k < l < |FirstOccurrences(jobs)|
    ensures FirstAt(jobs, FirstOccurrences(jobs)[k], i) && FirstAt(jobs, FirstOccurrences(jobs)[l], j) && i < j
  {
    var front := jobs[..|jobs| - 1];
    if l < |FirstOccurrences(front)| {
      i, j := FirstOccurrencesAreOrdered(front, k, l);
    } else {
      i := FirstIndex(front, FirstOccurrences(front)[k]);
      j := |front|;
    }
  }

  lemma {:induction false} FirstIndex<Input(!new)>(jobs: seq<Input>, x: Input) returns (i: nat)
    requires x in jobs
    ensures FirstAt(jobs, x, i)
  {
    if x in jobs[..|jobs| - 1] {
      i := FirstIndex(jobs[..|jobs| - 1], x);
    } else {
      i := |jobs| - 1;
      assert forall j :: 0 <= j < i ==> jobs[j] == jobs[..|jobs| - 1][j];
    }
  }

  /** Unique inputs, how often each occurs, and where each job finds its own. */
  ghost predicate Coalesced<Input(!new)>(jobs: seq<Input>, unique: seq<Input>, repetitions: seq<nat>, indices: seq<nat>) {
    && unique == FirstOccurrences(jobs)
    && |repetitions| == |unique| && (forall k :: 0 <= k < |unique| ==> repetitions[k] == Occurrences(jobs, unique[k]))
    && |indices| == |jobs| && (forall j :: 0 <= j < |jobs| ==> indices[j] < |unique| && unique[indices[j]] == jobs[j])
  }

  function Identity(n: nat): int {
    n
  }

  ghost function Total(counts: seq<nat>): int {
    Sum(Identity, counts)
  }

  lemma {:induction false} NoOccurrences<Input(!new)>(jobs: seq<Input>, x: Input)
    requires x !in jobs
    ensures Occurrences(jobs, x) == 0
  {
    if jobs != [] { NoOccurrences(jobs[..|jobs| - 1], x); }
  }

  lemma {:induction false} Occurs<Input(!new)>(jobs: seq<Input>, x: Input)
    requires x in jobs
    ensures Occurrences(jobs, x) > 0
  {
    if jobs[|jobs| - 1] != x { Occurs(jobs[..|jobs| - 1], x); }
  }

  /** One more job: its count goes up by one, or it is new and counted once. */
  lemma CoalesceOne<Input(!new)>(jobs: seq<Input>, job: Input, unique: seq<Input>, repetitions: seq<nat>, indices: seq<nat>, index: nat)
    requires Coalesced(jobs, unique, repetitions, indices)
    ensures index < |unique| && unique[index] == job ==>
              Coalesced(jobs + [job], unique, repetitions[index := repetitions[index] + 1], indices + [index])
    ensures job !in unique ==> Coalesced(jobs + [job], unique + [job], repetitions + [1], indices + [|unique|])
  {
    assert (jobs + [job])[..|jobs|] == jobs;
    if job !in unique { NoOccurrences(jobs, job); }
  }

  /** `unique_by_input` maps exactly the unique inputs to their positions. */
  ghost predicate Indexed<Input(!new)>(unique: seq<Input>, byInput: map<Input, nat>) {
    && (forall x :: x in byInput ==> byInput[x] < |unique| && unique[byInput[x]] == x)
    && (forall k :: 0 <= k < |unique| ==> unique[k] in byInput)
  }

  method Coalesce<Input(==, !new)>(jobs: seq<Input>) returns (unique: seq<Input>, repetitions: seq<nat>, indices: seq<nat>)
    ensures Coalesced(jobs, unique, repetitions, indices)
  {
    unique, repetitions, indices := [], [], [];
    var byInput: map<Input, nat> := map[];
    for j := 0 to |jobs|
      invariant Coalesced(jobs[..j], unique, repetitions, indices) && Indexed(unique, byInput)
    {
      var job := jobs[j];
      assert jobs[..j + 1] == jobs[..j] + [job];
      if job in byInput {
        var index := byInput[job];
        CoalesceOne(jobs[..j], job, unique, repetitions, indices, index);
        repetitions := repetitions[index := repetitions[index] + 1];
        indices := indices + [index];
      } else {
        CoalesceOne(jobs[..j], job, unique, repetitions, indices, |unique|);
        byInput := byInput[job := |unique|];
        indices := indices + [|unique|];
        unique := unique + [job];
        repetitions := repetitions + [1];
      }
    }
    assert jobs[..|jobs|] == jobs;
  }

  ghost function Counts<Input(!new)>(jobs: seq<Input>, unique: seq<Input>): (counts: seq<nat>)
    ensures |counts| == |unique|
  {
    seq(|unique|, k requires 0 <= k < |unique| => Occurrences(jobs, unique[k]))
  }

  lemma CountsOfOneMore<Input(!new)>(jobs: seq<Input>, unique: seq<Input>, job: Input)
    requires NoRepeats(unique)
    ensures forall k :: 0 <= k < |unique| && unique[k] == job ==>
              Counts(jobs + [job], unique) == Counts(jobs, unique)[k := Occurrences(jobs, job) + 1]
    ensures job !in unique && job !in jobs ==> Counts(jobs + [job], unique + [job]) == Counts(jobs, unique) + [1]
  {
    assert (jobs + [job])[..|jobs|] == jobs;
    if job !in jobs { NoOccurrences(jobs, job); }
  }

  lemma {:induction false} CountsTotal<Input(!new)>(jobs: seq<Input>)
    ensures Total(Counts(jobs, FirstOccurrences(jobs))) == |jobs|
  {
    if jobs == [] {
      assert Counts(jobs, FirstOccurrences(jobs)) == [];
    } else {
      var front, last := jobs[..|jobs| - 1], jobs[|jobs| - 1];
      var unique := FirstOccurrences(front);
      var before := Counts(front, unique);
      CountsTotal(front);
      CountsOfOneMore(front, unique, last);
      assert front + [last] == jobs;
      if last in unique {
        var k :| 0 <= k < |unique| && unique[k] == last;
        SumUpdate(Identity, before, k, before[k] + 1);
      } else {
        SumAppend(Identity, before, 1);
      }
    }
  }

  /** Repetitions are positive and add up to the batch. */
  lemma RepetitionsAddUp<Input(!new)>(jobs: seq<Input>, unique: seq<Input>, repetitions: seq<nat>, indices: seq<nat>)
    requires Coalesced(jobs, unique, repetitions, indices)
    ensures Total(repetitions) == |jobs| && 0 !in repetitions
  {
    CountsTotal(jobs);
    assert repetitions == Counts(jobs, unique);
    forall k | 0 <= k < |unique| ensures repetitions[k] > 0 { Occurs(jobs, unique[k]); }
  }

  // ---------------------------------------------------------------------------------- answers

  /** A backend that, if it returns a row for every row, translates every row for itself. */
  ghost predicate RowByRow<Input(!new), Output>(backend: Backend<Input, Output>, f: Translation<Input, Output>) {
    forall rows :: Answers(backend, rows) ==> IsImage(rows, backend(rows).value, f)
  }

  predicate Answers<Input(==, !new), Output>(backend: Backend<Input, Output>, rows: seq<Input>) {
    backend(rows).Ok? && |backend(rows).value| == |rows|
  }

  ghost predicate IsImage<Input(!new), Output>(rows: seq<Input>, outputs: seq<Output>, f: Translation<Input, Output>) {
    |outputs| == |rows| && forall i :: 0 <= i < |rows| ==> outputs[i] == f(rows[i])
  }

  /** Every job of the batch is answered from the output of its unique input. */
  method AnswerJobs<Input(==, !new), Output>(jobs: seq<Input>, outputs: seq<Output>, indices: seq<nat>, ghost unique: seq<Input>, ghost repetitions: seq<nat>,
                    ghost f: Translation<Input, Output>)
    returns (answers: seq<Output>)
    requires Coalesced(jobs, unique, repetitions, indices) && IsImage(unique, outputs, f)
    ensures IsImage(jobs, answers, f)
  {
    answers := [];
    for j := 0 to |jobs|
      invariant |answers| == j && forall i :: 0 <= i < j ==> answers[i] == f(jobs[i])
    {
      answers := answers + [outputs[indices[j]]];
    }
  }

  // ---------------------------------------------------------------------------------- physical rows

  /** Rows of the first `n` inputs, each repeated up to `width` times. */
  function Expanded<Input(==, !new)>(inputs: seq<Input>, repetitions: seq<nat>, width: nat, n: nat): seq<Input>
    requires n <= |inputs| == |repetitions|
  {
    if n == 0 then []
    else Expanded(inputs, repetitions, width, n - 1) + seq(Min(repetitions[n - 1], width), _ => inputs[n - 1])
  }

  /** No more rows than admitted jobs. */
  lemma {:induction false} ExpandedIsSmall<Input(!new)>(inputs: seq<Input>, repetitions: seq<nat>, width: nat, n: nat)
    requires n <= |inputs| == |repetitions|
    ensures |Expanded(inputs, repetitions, width, n)| <= Total(repetitions[..n])
  {
    if n > 0 {
      ExpandedIsSmall(inputs, repetitions, width, n - 1);
      SumAppend(Identity, repetitions[..n - 1], repetitions[n - 1]);
      assert repetitions[..n] == repetitions[..n - 1] + [repetitions[n - 1]];
    }
  }

  /** The first row of an input stands where the rows of its predecessors end. */
  lemma {:induction false} ExpandedAt<Input(!new)>(inputs: seq<Input>, repetitions: seq<nat>, width: nat, n: nat, k: nat)
    requires k < n <= |inputs| == |repetitions| && repetitions[k] > 0 && width > 0
    ensures |Expanded(inputs, repetitions, width, k)| < |Expanded(inputs, repetitions, width, n)|
    ensures Expanded(inputs, repetitions, width, n)[|Expanded(inputs, repetitions, width, k)|] == inputs[k]
  {
    if k < n - 1 { ExpandedAt(inputs, repetitions, width, n - 1, k); }
  }

  datatype RepetitionError = Malformed | Failed(message: string) | WrongCount

  /** The first row of every input. */
  ghost predicate FirstRows<Input(!new)>(inputs: seq<Input>, repetitions: seq<nat>, width: nat, indices: seq<nat>, n: nat)
    requires n <= |inputs| == |repetitions|
  {
    |indices| == n && forall i: nat :: i < n ==> indices[i] == |Expanded(inputs, repetitions, width, i)|
  }

  method Expand<Input(==, !new)>(inputs: seq<Input>, repetitions: seq<nat>, width: nat) returns (expanded: seq<Input>, indices: seq<nat>)
    requires |inputs| == |repetitions|
    ensures expanded == Expanded(inputs, repetitions, width, |inputs|) && FirstRows(inputs, repetitions, width, indices, |inputs|)
  {
    expanded, indices := [], [];
    for k := 0 to |inputs|
      invariant expanded == Expanded(inputs, repetitions, width, k) && FirstRows(inputs, repetitions, width, indices, k)
    {
      indices := indices + [|expanded|];
      expanded := expanded + seq(Min(repetitions[k], width), _ => inputs[k]);
    }
  }

  /** The output of every input is that of its first row. */
  method Pick<Input(==, !new), Output>(inputs: seq<Input>, physical: seq<Output>, indices: seq<nat>, ghost expanded: seq<Input>, ghost f: Translation<Input, Output>)
    returns (outputs: seq<Output>)
    requires IsImage(expanded, physical, f) && |indices| == |inputs|
    requires forall k :: 0 <= k < |inputs| ==> indices[k] < |expanded| && expanded[indices[k]] == inputs[k]
    ensures IsImage(inputs, outputs, f)
  {
    outputs := [];
    for k := 0 to |inputs|
      invariant |outputs| == k && forall i :: 0 <= i < k ==> outputs[i] == f(inputs[i])
    {
      outputs := outputs + [physical[indices[k]]];
    }
  }

  lemma FirstRowsHold<Input(!new)>(inputs: seq<Input>, repetitions: seq<nat>, width: nat, indices: seq<nat>, expanded: seq<Input>)
    requires |inputs| == |repetitions| && 0 !in repetitions && width > 0
    requires FirstRows(inputs, repetitions, width, indices, |inputs|) && expanded == Expanded(inputs, repetitions, width, |inputs|)
    ensures forall k :: 0 <= k < |inputs| ==> indices[k] < |expanded| && expanded[indices[k]] == inputs[k]
  {
    forall k: nat | k < |inputs| ensures indices[k] < |expanded| && expanded[indices[k]] == inputs[k] {
      assert repetitions[k] in repetitions;
      ExpandedAt(inputs, repetitions, width, |inputs|, k);
    }
  }

  /** `translate_batch_with_repetitions` of the Metal backend: one output per logical input. */
  method TranslateWithRepetitions<Input(==, !new), Output>(inputs: seq<Input>, repetitions: seq<nat>, width: nat, backend: Backend<Input, Output>, ghost f: Translation<Input, Output>)
    returns (r: Result<seq<Output>, RepetitionError>)
    requires width > 0 && RowByRow(backend, f)
    ensures r == Err(Malformed) <==> |inputs| != |repetitions| || 0 in repetitions
    ensures r.Ok? ==> IsImage(inputs, r.value, f)
    ensures |inputs| == |repetitions| && 0 !in repetitions ==>
              (r.Ok? <==> Answers(backend, Expanded(inputs, repetitions, width, |inputs|)))
  {
    if |inputs| != |repetitions| || 0 in repetitions { return Err(Malformed); }
    var expanded, indices := Expand(inputs, repetitions, width);
    var physical := backend(expanded);
    if physical.Err? { return Err(Failed(physical.error)); }
    if |physical.value| != |expanded| { return Err(WrongCount); }
    assert Answers(backend, expanded);
    FirstRowsHold(inputs, repetitions, width, indices, expanded);
    var outputs := Pick(inputs, physical.value, indices, expanded, f);
    return Ok(outputs);
  }

  /** The physical rows of a batch: every distinct input, up to `width` times as often as it was asked for. */
  ghost function PhysicalRows<Input(!new)>(jobs: seq<Input>, width: nat): seq<Input> {
    var unique := FirstOccurrences(jobs);
    Expanded(unique, Counts(jobs, unique), width, |unique|)
  }

  /** There are no more physical rows than jobs. */
  lemma PhysicalRowsAreFew<Input(!new)>(jobs: seq<Input>, width: nat)
    ensures |PhysicalRows(jobs, width)| <= |jobs|
  {
    var unique := FirstOccurrences(jobs);
    var counts := Counts(jobs, unique);
    ExpandedIsSmall(unique, counts, width, |unique|);
    assert counts[..|unique|] == counts;
    CountsTotal(jobs);
  }

  lemma {:induction false} ExpandedMember<Input(!new)>(inputs: seq<Input>, repetitions: seq<nat>, width: nat, n: nat, x: Input)
    requires n <= |inputs| == |repetitions| && x in Expanded(inputs, repetitions, width, n)
    ensures x in inputs[..n]
  {
    if x in Expanded(inputs, repetitions, width, n - 1) {
      ExpandedMember(inputs, repetitions, width, n - 1, x);
      assert inputs[..n - 1] <= inputs[..n];
    } else {
      assert x == inputs[n - 1] == inputs[..n][n - 1];
    }
  }

  /** The physical rows are copies of the jobs, and each job has one. */
  lemma PhysicalRowsAreJobs<Input(!new)>(jobs: seq<Input>, width: nat, x: Input)
    requires width > 0
    ensures x in PhysicalRows(jobs, width) <==> x in jobs
  {
    var unique := FirstOccurrences(jobs);
    var counts := Counts(jobs, unique);
    if x in PhysicalRows(jobs, width) {
      ExpandedMember(unique, counts, width, |unique|, x);
      assert unique[..|unique|] == unique;
    }
    if x in jobs {
      var k :| 0 <= k < |unique| && unique[k] == x;
      Occurs(jobs, x);
      ExpandedAt(unique, counts, width, |unique|, k);
    }
  }

  /** Without repetition the physical rows are the distinct inputs: the default of a backend, which ignores repetitions. */
  lemma {:induction false} ExpandedOnce<Input(!new)>(inputs: seq<Input>, repetitions: seq<nat>, n: nat)
    requires n <= |inputs| == |repetitions| && 0 !in repetitions
    ensures Expanded(inputs, repetitions, 1, n) == inputs[..n]
  {
    if n > 0 {
      ExpandedOnce(inputs, repetitions, n - 1);
      assert repetitions[n - 1] in repetitions;
      assert seq(Min(repetitions[n - 1], 1), _ => inputs[n - 1]) == [inputs[n - 1]];
    }
  }

  lemma RowsOnce<Input(!new)>(jobs: seq<Input>)
    ensures PhysicalRows(jobs, 1) == FirstOccurrences(jobs)
  {
    var unique := FirstOccurrences(jobs);
    var counts := Counts(jobs, unique);
    forall k | 0 <= k < |counts| ensures counts[k] != 0 { Occurs(jobs, unique[k]); }
    ExpandedOnce(unique, counts, |unique|);
    assert unique[..|unique|] == unique;
  }

  /** A whole batch: coalesced, expanded to physical rows, translated, and given back to its jobs; it fails only with the backend. */
  method RunBatch<Input(==, !new), Output>(jobs: seq<Input>, width: nat, backend: Backend<Input, Output>, ghost f: Translation<Input, Output>)
    returns (r: Result<seq<Output>, RepetitionError>)
    requires width > 0 && RowByRow(backend, f)
    ensures r.Ok? ==> IsImage(jobs, r.value, f)
    ensures r.Ok? <==> Answers(backend, PhysicalRows(jobs, width))
    ensures r != Err(Malformed)
  {
    var unique, repetitions, indices := Coalesce(jobs);
    RepetitionsAddUp(jobs, unique, repetitions, indices);
    assert repetitions == Counts(jobs, unique);
    var outputs := TranslateWithRepetitions(unique, repetitions, width, backend, f);
    if outputs.Err? { return Err(outputs.error); }
    var answers := AnswerJobs(jobs, outputs.value, indices, unique, repetitions, f);
    return Ok(answers);
  }

  // ---------------------------------------------------------------------------------- groups of requests

  /** Every position once: what sorting by batch key makes of the caller's order. */
  ghost predicate Permutation(order: seq<nat>, n: nat) {
    |order| == n && NoRepeats(order) && (forall k :: 0 <= k < n ==> order[k] < n) && forall i: nat {:trigger i in order} :: i < n ==> i in order
  }

  /** The first `k` submissions have succeeded, and their answers stand in the caller's order. */
  ghost predicate Ordered<Input(!new), Output>(inputs: seq<Input>, order: seq<nat>, translate: Input -> Result<Output, string>,
                          ordered: seq<Option<Output>>, k: nat)
    requires Permutation(order, |inputs|)
  {
    && k <= |order| && |ordered| == |inputs|
    && forall j :: 0 <= j < k ==> OrderedAt(inputs, order[j], translate, ordered)
  }

  ghost predicate OrderedAt<Input(!new), Output>(inputs: seq<Input>, i: nat, translate: Input -> Result<Output, string>, ordered: seq<Option<Output>>)
    requires i < |inputs| == |ordered|
  {
    ordered[i].Some? && translate(inputs[i]) == Ok(ordered[i].value)
  }

  lemma OrderOne<Input(!new), Output>(inputs: seq<Input>, order: seq<nat>, translate: Input -> Result<Output, string>,
                 ordered: seq<Option<Output>>, k: nat, output: Output)
    requires Permutation(order, |inputs|) && Ordered(inputs, order, translate, ordered, k) && k < |order|
    requires translate(inputs[order[k]]) == Ok(output)
    ensures Ordered(inputs, order, translate, ordered[order[k] := Some(output)], k + 1)
  {
    var after := ordered[order[k] := Some(output)];
    forall j | 0 <= j < k + 1 ensures OrderedAt(inputs, order[j], translate, after) {
      if j < k { assert OrderedAt(inputs, order[j], translate, ordered); }
    }
  }

  lemma AllOrdered<Input(!new), Output>(inputs: seq<Input>, order: seq<nat>, translate: Input -> Result<Output, string>, ordered: seq<Option<Output>>)
    requires Permutation(order, |inputs|) && Ordered(inputs, order, translate, ordered, |order|)
    ensures forall i :: 0 <= i < |inputs| ==> ordered[i].Some? && translate(inputs[i]) == Ok(ordered[i].value)
  {
    forall i: nat | i < |inputs| ensures ordered[i].Some? && translate(inputs[i]) == Ok(ordered[i].value) {
      assert i in order;
      var j :| 0 <= j < |order| && order[j] == i;
      assert OrderedAt(inputs, order[j], translate, ordered);
    }
  }

  /** `translate_many`: requests are submitted in key order, answers come back in the caller's order. */
  method TranslateMany<Input(==, !new), Output>(inputs: seq<Input>, order: seq<nat>, translate: Input -> Result<Output, string>)
    returns (r: Result<seq<Output>, string>)
    requires Permutation(order, |inputs|)
    ensures r.Ok? ==> |r.value| == |inputs| && forall i :: 0 <= i < |inputs| ==> translate(inputs[i]) == Ok(r.value[i])
    ensures r.Err? ==> exists i :: 0 <= i < |inputs| && translate(inputs[i]) == Err(r.error)
  {
    var ordered: seq<Option<Output>> := seq(|inputs|, _ => None);
    for k := 0 to |order|
      invariant Ordered(inputs, order, translate, ordered, k)
    {
      var result := translate(inputs[order[k]]);
      if result.Err? { return Err(result.error); }
      OrderOne(inputs, order, translate, ordered, k, result.value);
      ordered := ordered[order[k] := Some(result.value)];
    }
    AllOrdered(inputs, order, translate, ordered);
    return Ok(seq(|inputs|, i requires 0 <= i < |inputs| => ordered[i].value));
  }
}
