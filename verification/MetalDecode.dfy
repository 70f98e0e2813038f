/**
 Decoding on Metal in submissions of several steps (`crates/marian-metal/src/engine/decode.rs`,
 `crates/marian-metal/src/tuning.rs`): whatever the sizes of the submissions, every row collects its own greedy
 sequence. The selection kernel is represented by what it does to one row in one step.
 */
module MetalDecode {
  import opened Base
  import Greedy

  // ---------------------------------------------------------------------------------- sizes of submissions

  datatype Tuning = Tuning(rowBudget: nat, maximumSteps: nat) {
    /** `MetalTuning::resolve` accepts no other values. */
    predicate Valid() {
      rowBudget > 0 && 1 <= maximumSteps <= 8
    }
  }

  function SubmissionSteps(t: Tuning, activeRows: nat, remaining: nat, completionObserved: bool): nat {
    var occupancy := Max(t.rowBudget / Max(activeRows, 1), 1);
    var cap := if completionObserved then 1 else t.maximumSteps;
    Max(Min(Min(occupancy, cap), remaining), 1)
  }

  /** A submission makes progress and stays within what remains; after a completion it is a single step, else as long as the row budget allows. */
  lemma SubmissionsFit(t: Tuning, activeRows: nat, remaining: nat, completionObserved: bool)
    requires t.Valid() && remaining > 0
    ensures 1 <= SubmissionSteps(t, activeRows, remaining, completionObserved) <= Min(remaining, t.maximumSteps)
    ensures completionObserved ==> SubmissionSteps(t, activeRows, remaining, completionObserved) == 1
    ensures activeRows > 0 && SubmissionSteps(t, activeRows, remaining, completionObserved) > 1 ==>
              activeRows * SubmissionSteps(t, activeRows, remaining, completionObserved) <= t.rowBudget
    ensures !completionObserved && SubmissionSteps(t, activeRows, remaining, completionObserved) < Min(remaining, t.maximumSteps) ==>
              Max(activeRows, 1) * (SubmissionSteps(t, activeRows, remaining, completionObserved) + 1) > t.rowBudget
  {
    var steps := SubmissionSteps(t, activeRows, remaining, completionObserved);
    if activeRows > 0 && steps > 1 {
      Shares(t.rowBudget, activeRows, steps);
    }
    if !completionObserved && steps < Min(remaining, t.maximumSteps) { OneMoreIsTooMany(t.rowBudget, Max(activeRows, 1), steps); }
  }

  lemma OneMoreIsTooMany(budget: nat, rows: nat, steps: nat)
    requires rows > 0 && steps >= budget / rows
    ensures rows * (steps + 1) > budget
  {
    assert rows * (budget / rows + 1) <= rows * (steps + 1);
  }

  lemma Shares(budget: nat, rows: nat, steps: nat)
    requires rows > 0 && steps <= budget / rows
    ensures rows * steps <= budget
  {
    assert rows * steps <= rows * (budget / rows) <= budget;
  }

  // ---------------------------------------------------------------------------------- one row on the device

  /** What the device keeps for a row. */
  datatype Row<S> = Row(state: S, finished: bool)

  type Next<!S> = (S, nat) -> (nat, S)
  type Idle<!S> = (S, nat) -> S

  /** The kernel's contract: a finished row, or one at its limit, records -1; any other row records its next token. */
  function KernelStep<S>(next: Next<S>, idle: Idle<S>, limit: nat, step: nat, row: Row<S>): (r: (int, Row<S>)) {
    var nothing: int := -1;
    if row.finished || step >= limit then (nothing, Row(idle(row.state, step), true))
    else
      var (token, state) := next(row.state, step);
      var recorded: int := token;
      (recorded, Row(state, token == 0))
  }

  /** What a row still owes: its final output is what it has plus what greedy decoding adds. */
  ghost predicate Owes<S>(next: Next<S>, limit: nat, full: seq<nat>, step: nat, row: Row<S>, generated: seq<nat>) {
    if row.finished then generated == full
    else generated + Greedy.Cut(next, limit, step, row.state) == full
  }

  /** What the host appends for a recorded value. */
  function Appended(generated: seq<nat>, recorded: int): seq<nat> {
    if recorded >= 0 then generated + [recorded] else generated
  }

  /** A step on the device and its collection on the host keep what the row owes. */
  lemma StepKeepsOwing<S>(next: Next<S>, idle: Idle<S>, limit: nat, full: seq<nat>, step: nat, later: nat, row: Row<S>, generated: seq<nat>)
    requires Owes(next, limit, full, step, row, generated) && later == step + 1
    ensures var (recorded, row') := KernelStep(next, idle, limit, step, row);
            Owes(next, limit, full, later, row', Appended(generated, recorded))
  {
    if !row.finished {
      if step >= limit {
        assert generated + [] == generated;
      } else {
        var (token, state) := next(row.state, step);
        var rest := Greedy.Cut(next, limit, later, state);
        assert generated + [token] + rest == generated + ([token] + rest);
      }
    }
  }

  // ---------------------------------------------------------------------------------- all rows

  ghost predicate AllOwe<S>(nexts: seq<Next<S>>, limits: seq<nat>, fulls: seq<seq<nat>>, step: nat, rows: seq<Row<S>>, generated: seq<seq<nat>>) {
    && |nexts| == |limits| == |fulls| == |rows| == |generated|
    && forall r :: 0 <= r < |rows| ==> Owes(nexts[r], limits[r], fulls[r], step, rows[r], generated[r])
  }

  /** One step of every row on the device. */
  method DeviceStep<S>(nexts: seq<Next<S>>, idle: Idle<S>, limits: seq<nat>, step: nat, rows: seq<Row<S>>)
    returns (recorded: seq<int>, after: seq<Row<S>>)
    requires |nexts| == |limits| == |rows|
    ensures |recorded| == |after| == |rows|
    ensures forall r :: 0 <= r < |rows| ==> (recorded[r], after[r]) == KernelStep(nexts[r], idle, limits[r], step, rows[r])
  {
    recorded, after := [], [];
    for r := 0 to |rows|
      invariant |recorded| == |after| == r
      invariant forall q :: 0 <= q < r ==> (recorded[q], after[q]) == KernelStep(nexts[q], idle, limits[q], step, rows[q])
    {
      var (value, row) := KernelStep(nexts[r], idle, limits[r], step, rows[r]);
      recorded, after := recorded + [value], after + [row];
    }
  }

  /** Appends one recorded step to every row. */
  method CollectStep(history: seq<int>, start: seq<seq<nat>>) returns (generated: seq<seq<nat>>)
    requires |history| == |start|
    ensures |generated| == |start| && forall r :: 0 <= r < |start| ==> generated[r] == Appended(start[r], history[r])
  {
    generated := start;
    for r := 0 to |start|
      invariant |generated| == |start|
      invariant forall q :: 0 <= q < r ==> generated[q] == Appended(start[q], history[q])
      invariant forall q :: r <= q < |start| ==> generated[q] == start[q]
    {
      if history[r] >= 0 { generated := generated[r := generated[r] + [history[r]]]; }
    }
  }

  /** What the host would have after collecting the first `n` recorded steps. */
  ghost function Collected(history: seq<seq<int>>, start: seq<seq<nat>>, n: nat): (generated: seq<seq<nat>>)
    requires n <= |history| && forall h :: 0 <= h < |history| ==> |history[h]| == |start|
    ensures |generated| == |start|
  {
    if n == 0 then start
    else
      var before := Collected(history, start, n - 1);
      seq(|start|, r requires 0 <= r < |start| => Appended(before[r], history[n - 1][r]))
  }

  ghost predicate Rectangular(history: seq<seq<int>>, batch: nat) {
    forall h :: 0 <= h < |history| ==> |history[h]| == batch
  }

  lemma {:induction false} CollectedPrefix(history: seq<seq<int>>, more: seq<seq<int>>, start: seq<seq<nat>>, n: nat)
    requires n <= |history| && Rectangular(history, |start|) && Rectangular(more, |start|) && history <= more
    ensures Collected(more, start, n) == Collected(history, start, n)
  {
    if n > 0 { CollectedPrefix(history, more, start, n - 1); }
  }

  /** A submission: `steps` kernel steps in a row, recorded in a history that the host reads afterwards. */
  method Submit<S>(nexts: seq<Next<S>>, idle: Idle<S>, limits: seq<nat>, step: nat, steps: nat, start: seq<Row<S>>,
                   ghost fulls: seq<seq<nat>>, ghost generated: seq<seq<nat>>)
    returns (history: seq<seq<int>>, rows: seq<Row<S>>)
    requires AllOwe(nexts, limits, fulls, step, start, generated)
    ensures |history| == steps && Rectangular(history, |start|)
    ensures AllOwe(nexts, limits, fulls, step + steps, rows, Collected(history, generated, steps))
  {
    history, rows := [], start;
    var h: nat := 0;
    while h < steps
      invariant h <= steps && |history| == h && Rectangular(history, |start|)
      invariant AllOwe(nexts, limits, fulls, step + h, rows, Collected(history, generated, h))
    {
      history, rows, h := SubmitStep(nexts, idle, limits, step, h, history, rows, fulls, generated);
    }
  }

  method SubmitStep<S>(nexts: seq<Next<S>>, idle: Idle<S>, limits: seq<nat>, step: nat, h: nat, before: seq<seq<int>>, start: seq<Row<S>>,
                       ghost fulls: seq<seq<nat>>, ghost generated: seq<seq<nat>>)
    returns (history: seq<seq<int>>, rows: seq<Row<S>>, next: nat)
    requires |generated| == |start| && Rectangular(before, |generated|) && |before| == h
    requires AllOwe(nexts, limits, fulls, step + h, start, Collected(before, generated, h))
    ensures next == h + 1 == |history| && Rectangular(history, |generated|) && |rows| == |start|
    ensures AllOwe(nexts, limits, fulls, step + next, rows, Collected(history, generated, next))
  {
    var recorded;
    recorded, rows := DeviceStep(nexts, idle, limits, step + h, start);
    history := before + [recorded];
    next := h + 1;
    CollectedPrefix(before, history, generated, h);
    forall r | 0 <= r < |rows|
      ensures Owes(nexts[r], limits[r], fulls[r], step + next, rows[r], Collected(history, generated, next)[r])
    {
      StepKeepsOwing(nexts[r], idle, limits[r], fulls[r], step + h, step + next, start[r], Collected(before, generated, h)[r]);
    }
  }

  method Collect(history: seq<seq<int>>, start: seq<seq<nat>>) returns (generated: seq<seq<nat>>)
    requires Rectangular(history, |start|)
    ensures generated == Collected(history, start, |history|)
  {
    generated := start;
    for h := 0 to |history|
      invariant generated == Collected(history, start, h)
    {
      generated := CollectStep(history[h], generated);
    }
  }

  /** Unfinished rows, counted after a submission. */
  function Active<S>(rows: seq<Row<S>>): nat {
    if rows == [] then 0 else Active(rows[..|rows| - 1]) + if rows[|rows| - 1].finished then 0 else 1
  }

  lemma {:induction false} NoneActive<S>(rows: seq<Row<S>>, r: nat)
    requires Active(rows) == 0 && r < |rows|
    ensures rows[r].finished
  {
    if r < |rows| - 1 { NoneActive(rows[..|rows| - 1], r); }
  }

  function Largest(limits: seq<nat>): (largest: nat)
    ensures forall r :: 0 <= r < |limits| ==> limits[r] <= largest
  {
    if limits == [] then 0 else Max(Largest(limits[..|limits| - 1]), limits[|limits| - 1])
  }

  ghost function Steps(sizes: seq<nat>): nat {
    if sizes == [] then 0 else Steps(sizes[..|sizes| - 1]) + sizes[|sizes| - 1]
  }

  /** The greedy output of every row. */
  ghost function Greedily<S>(nexts: seq<Next<S>>, limits: seq<nat>, start: seq<S>): (fulls: seq<seq<nat>>)
    requires |nexts| == |limits| == |start|
    ensures |fulls| == |start|
  {
    seq(|start|, r requires 0 <= r < |start| => Greedy.Cut(nexts[r], limits[r], 0, start[r]))
  }

  /** Every row either finished or ran out of steps. */
  lemma DecodingEnds<S>(nexts: seq<Next<S>>, limits: seq<nat>, fulls: seq<seq<nat>>, step: nat, rows: seq<Row<S>>, generated: seq<seq<nat>>)
    requires AllOwe(nexts, limits, fulls, step, rows, generated) && (step >= Largest(limits) || Active(rows) == 0)
    ensures generated == fulls
  {
    forall r | 0 <= r < |rows| ensures generated[r] == fulls[r] {
      assert Owes(nexts[r], limits[r], fulls[r], step, rows[r], generated[r]);
      if step < Largest(limits) { NoneActive(rows, r); } else { assert generated[r] + [] == generated[r]; }
    }
  }

  lemma RowsStart<S>(nexts: seq<Next<S>>, limits: seq<nat>, start: seq<S>, rows: seq<Row<S>>, generated: seq<seq<nat>>)
    requires |nexts| == |limits| == |start| == |rows| == |generated|
    requires forall r :: 0 <= r < |rows| ==> rows[r] == Row(start[r], false) && generated[r] == []
    ensures AllOwe(nexts, limits, Greedily(nexts, limits, start), 0, rows, generated)
  {
    var fulls := Greedily(nexts, limits, start);
    forall r | 0 <= r < |rows| ensures Owes(nexts[r], limits[r], fulls[r], 0, rows[r], generated[r]) {
      assert [] + fulls[r] == fulls[r];
    }
  }

  /** One submission: sized, run on the device, read back, and collected. */
  method NextSubmission<S>(t: Tuning, nexts: seq<Next<S>>, idle: Idle<S>, limits: seq<nat>, limit: nat, step: nat, activeRows: nat,
                           completion: bool, start: seq<Row<S>>, before: seq<seq<nat>>, ghost fulls: seq<seq<nat>>)
    returns (rows: seq<Row<S>>, generated: seq<seq<nat>>, steps: nat, end: nat)
    requires t.Valid() && step < limit && AllOwe(nexts, limits, fulls, step, start, before)
    ensures 1 <= steps <= t.maximumSteps && end == step + steps <= limit
    ensures AllOwe(nexts, limits, fulls, end, rows, generated)
  {
    SubmissionsFit(t, activeRows, limit - step, completion);
    steps := SubmissionSteps(t, activeRows, limit - step, completion);
    end := step + steps;
    var history;
    history, rows := Submit(nexts, idle, limits, step, steps, start, fulls, before);
    generated := Collect(history, before);
  }

  /** The decode loop: submissions tile the steps, and every row ends with its greedy sequence. */
  method Decode<S>(t: Tuning, nexts: seq<Next<S>>, idle: Idle<S>, limits: seq<nat>, start: seq<S>)
    returns (generated: seq<seq<nat>>, ghost sizes: seq<nat>)
    requires t.Valid() && |nexts| == |limits| == |start|
    ensures generated == Greedily(nexts, limits, start)
    ensures Steps(sizes) <= Largest(limits) && forall i :: 0 <= i < |sizes| ==> 1 <= sizes[i] <= t.maximumSteps
  {
    ghost var fulls := Greedily(nexts, limits, start);
    var rows := seq(|start|, r requires 0 <= r < |start| => Row(start[r], false));
    generated := seq(|start|, r => []);
    RowsStart(nexts, limits, start, rows, generated);
    sizes := [];
    var limit := Largest(limits);
    var step: nat, activeRows: nat, completion := 0, |start|, false;
    while step < limit
      invariant step <= limit && step == Steps(sizes)
      invariant forall i :: 0 <= i < |sizes| ==> 1 <= sizes[i] <= t.maximumSteps
      invariant AllOwe(nexts, limits, fulls, step, rows, generated)
      decreases limit - step
    {
      var steps;
      rows, generated, steps, step := NextSubmission(t, nexts, idle, limits, limit, step, activeRows, completion, rows, generated, fulls);
      sizes := sizes + [steps];
      assert sizes[..|sizes| - 1] + [steps] == sizes;
      var nextActive := Active(rows);
      completion := nextActive < activeRows;
      activeRows := nextActive;
      if activeRows == 0 { break; }
    }
    DecodingEnds(nexts, limits, fulls, step, rows, generated);
  }
}
