/**
 The dynamic-batch scheduler (`crates/marian-core/src/scheduler.rs`) as a step relation: any number of
 submitters, one worker, a bounded channel, a one-slot deferred queue, a batching window, shutdown and terminal
 failure. Timers, closed receivers and the loss of readiness may happen at any time.
 */
module Scheduler {
  import opened Base
  import opened Distinct
  import opened Sums
  import opened Wakeups
  import Planner

  type Output = Planner.Output

  const MAX_BATCH_SIZE: nat := 256

  datatype Config = Config(queueCapacity: nat, maxBatchSize: nat, maxPaddedSourceChars: nat) {
    /** `validate_config`. */
    predicate Valid() {
      queueCapacity > 0 && maxBatchSize > 0 && maxPaddedSourceChars > 0 && maxBatchSize <= MAX_BATCH_SIZE
    }
  }

  /** What became of a command that left the queue. */
  datatype Fate = Skipped | Batched | Stopping | Drained

  datatype Taken = Taken(command: Command, fate: Fate)

  /** Within the answer to one job: receiver not yet checked, completion already counted, failure not yet counted. */
  datatype Stage = Check | Counted | Answered

  datatype Pc =
    | Idle
    | Received(c: Command)
    | Hand(c: Command)
    | Gather
    | GatherReceived(c: Command)
    | Classify(c: Command)
    | Run
    | Reply(k: nat, ok: bool, stage: Stage, terminal: bool)
    | Drain
    | Failing
    | Exit
    | Unplugged
    | Gone

  datatype Worker = Worker(
    pc: Pc,
    deferred: seq<Command>,
    batch: seq<Command>,
    batches: seq<seq<Command>>,
    taken: seq<Taken>,
    answers: seq<Command>,
    given: seq<Output>,
    delivered: seq<Command>,
    outputs: seq<Output>,
    refused: seq<Command>,
    results: seq<bool>,
    completed: int,
    failed: int,
    inFlight: int)

  datatype State = State(
    config: Config,
    q: Queue,
    channel: seq<Command>,
    sent: seq<Command>,
    lost: seq<Command>,
    closed: set<nat>,
    ready: bool,
    stopped: bool,
    depth: int,
    w: Worker)

  // ---------------------------------------------------------------------------------- submitters

  datatype SubmitStep = Enable | SendOk | SeeFull | SeeGone | SeeStopped | Park | Wake | Expire | GiveUp | Leave

  predicate Plugged(pc: Pc) {
    !pc.Unplugged? && !pc.Gone?
  }

  predicate SubmitEnabled(s: State, i: nat, a: SubmitStep) {
    i < |s.q.submitters| &&
    var x := s.q.submitters[i];
    match a
    case Enable => x.phase.Fresh?
    case SendOk => x.phase.Registered? && Plugged(s.w.pc) && |s.channel| < s.config.queueCapacity
    case SeeFull => x.phase.Registered? && Plugged(s.w.pc) && |s.channel| >= s.config.queueCapacity
    case SeeGone => x.phase.Registered? && !Plugged(s.w.pc)
    case SeeStopped => x.phase.Refused? && s.stopped
    case Park => x.phase.Refused? && !s.stopped
    case Wake => x.phase.Parked? && !x.flag.Waiting?
    case Expire => x.phase.Parked? && x.flag.Waiting?
    case GiveUp => x.phase.Expired?
    case Leave => x.phase.Leaving?
  }

  function SubmitApply(s: State, i: nat, a: SubmitStep): State
    requires SubmitEnabled(s, i, a) && QueueOk(s.q)
  {
    var x := s.q.submitters[i];
    match a
    case Enable => s.(q := Register(s.q, i))
    case SendOk => s.(q := Drop(s.q, i, Sent), channel := s.channel + [x.command], sent := s.sent + [x.command])
    case SeeFull => s.(q := SetSubmitter(s.q, i, x.(phase := Refused, credit := false)))
    case SeeGone => s.(q := Drop(s.q, i, Leaving(Disconnected)))
    case SeeStopped => s.(q := Drop(s.q, i, Leaving(Disconnected)))
    case Park => s.(q := SetSubmitter(s.q, i, x.(phase := Parked)))
    case Wake => s.(q := SetSubmitter(s.q, i, x.(phase := Fresh, flag := Unregistered, credit := true)))
    case Expire => s.(q := SetSubmitter(s.q, i, x.(phase := Expired)))
    case GiveUp => s.(q := Drop(s.q, i, Leaving(Full)))
    case Leave => s.(q := SetSubmitter(s.q, i, x.(phase := Left(x.phase.why))), depth := s.depth - IsJob(x.command))
  }

  // ---------------------------------------------------------------------------------- the worker

  datatype WorkStep =
    | PopDeferred
    | Receive
    | NotifyFirst
    | NoticeFailure
    | TakeFirst
    | GatherReceive
    | GatherNotify
    | Sort
    | CloseWindow
    | Infer(given: Option<seq<Output>>)
    | Answer
    | EndBatch
    | Collect
    | Collected
    | FailOne
    | Finish
    | Unplug
    | WakeAll

  /** Rows admitted to one batch: the padded source may not grow beyond the configured size, unless one row alone does. */
  function BatchLimit(config: Config, bucket: nat): nat
    requires bucket > 0
  {
    Min(config.maxBatchSize, Max(config.maxPaddedSourceChars / bucket, 1))
  }

  predicate WorkEnabled(s: State, a: WorkStep) {
    var w := s.w;
    match a
    case PopDeferred => w.pc.Idle? && w.deferred != []
    case Receive => w.pc.Idle? && w.deferred == [] && s.channel != []
    case NotifyFirst => w.pc.Received?
    case NoticeFailure => w.pc.Idle? && w.deferred == [] && !s.ready
    case TakeFirst => w.pc.Hand?
    case GatherReceive =>
      w.pc.Gather? && s.channel != [] && w.batch != [] && w.batch[0].Translate? && w.batch[0].key.bucket > 0
      && |w.batch| < BatchLimit(s.config, w.batch[0].key.bucket)
    case GatherNotify => w.pc.GatherReceived?
    case Sort => w.pc.Classify?
    case CloseWindow => w.pc.Gather?
    case Infer(_) => w.pc.Run?
    case Answer => w.pc.Reply? && w.pc.k < |w.batch|
    case EndBatch => w.pc.Reply? && w.pc.k >= |w.batch|
    case Collect => w.pc.Drain? && s.channel != []
    case Collected => w.pc.Drain? && s.channel == []
    case FailOne => w.pc.Failing? && w.deferred != []
    case Finish => w.pc.Failing? && w.deferred == []
    case Unplug => w.pc.Exit?
    case WakeAll => w.pc.Unplugged?
  }

  function Take(w: Worker, c: Command, fate: Fate): Worker {
    w.(taken := w.taken + [Taken(c, fate)])
  }

  function SameKey(c: Command, d: Command): bool {
    c.Translate? && d.Translate? && c.key == d.key
  }

  /** A job of the hand: shutdown ends the loop, a closed receiver is skipped, any other job opens a batch. */
  function ApplyTakeFirst(s: State): State
    requires s.w.pc.Hand?
  {
    var w, c := s.w, s.w.pc.c;
    if c.Shutdown? then s.(w := Take(w, c, Stopping).(pc := Drain))
    else if c.id in s.closed then s.(depth := s.depth - 1, w := Take(w, c, Skipped).(pc := Idle))
    else s.(depth := s.depth - 1, w := Take(w, c, Batched).(pc := Gather, batch := [c]))
  }

  /** A further command: it joins the batch, is skipped, or is deferred and ends the gathering. */
  function ApplySort(s: State): State
    requires s.w.pc.Classify?
  {
    var w, c := s.w, s.w.pc.c;
    if c.Shutdown? then s.(w := w.(pc := Run, deferred := [c] + w.deferred, inFlight := w.inFlight + |w.batch|))
    else if c.id in s.closed then s.(depth := s.depth - 1, w := Take(w, c, Skipped).(pc := Gather))
    else if w.batch != [] && SameKey(c, w.batch[0]) then
      s.(depth := s.depth - 1, w := Take(w, c, Batched).(pc := Gather, batch := w.batch + [c]))
    else s.(w := w.(pc := Run, deferred := w.deferred + [c], inFlight := w.inFlight + |w.batch|))
  }

  /** The output for job `k`; a batch is only answered with one for each of its jobs. */
  function OutputAt(given: seq<Output>, k: nat): Output {
    if k < |given| then given[k] else Planner.OrEmpty(None)
  }

  /** One step of answering job `k`. */
  function ApplyAnswer(w: Worker, closed: set<nat>): Worker
    requires w.pc.Reply? && w.pc.k < |w.batch|
  {
    var k, job := w.pc.k, w.batch[w.pc.k];
    var next := w.pc.(k := k + 1, stage := Check);
    if w.pc.ok then
      if w.pc.stage.Check? then
        if job.id in closed then w.(pc := next) else w.(pc := w.pc.(stage := Counted), completed := w.completed + 1)
      else if job.id in closed then w.(pc := next, completed := w.completed - 1)
      else w.(pc := next, answers := w.answers + [job], delivered := w.delivered + [job], outputs := w.outputs + [OutputAt(w.given, k)])
    else
      if w.pc.stage.Check? then
        if job.id in closed then w.(pc := next) 
        else w.(pc := w.pc.(stage := Answered), answers := w.answers + [job], refused := w.refused + [job])
      else w.(pc := next, failed := w.failed + 1)
  }

  function ApplyFailOne(s: State): State
    requires s.w.deferred != []
  {
    var c := s.w.deferred[0];
    var w := Take(s.w, c, Drained).(deferred := s.w.deferred[1..]);
    if c.Shutdown? then s.(w := w)
    else if c.id in s.closed then s.(depth := s.depth - 1, w := w)
    else s.(depth := s.depth - 1, w := w.(answers := w.answers + [c], refused := w.refused + [c], failed := w.failed + 1))
  }

  /** The backend returned, and returned an output for every job. */
  predicate AnswersAll(given: Option<seq<Output>>, count: nat) {
    given.Some? && |given.value| == count
  }

  function WorkApply(s: State, a: WorkStep): State
    requires WorkEnabled(s, a) && QueueOk(s.q)
  {
    var w := s.w;
    match a
    case PopDeferred => s.(w := w.(pc := Hand(w.deferred[0]), deferred := w.deferred[1..]))
    case Receive => s.(channel := s.channel[1..], w := w.(pc := Received(s.channel[0])))
    case NotifyFirst => s.(q := NotifyOne(s.q), w := w.(pc := Hand(w.pc.c)))
    case NoticeFailure => s.(stopped := true, w := w.(pc := Drain))
    case TakeFirst => ApplyTakeFirst(s)
    case GatherReceive => s.(channel := s.channel[1..], w := w.(pc := GatherReceived(s.channel[0])))
    case GatherNotify => s.(q := NotifyOne(s.q), w := w.(pc := Classify(w.pc.c)))
    case Sort => ApplySort(s)
    case CloseWindow => s.(w := w.(pc := Run, inFlight := w.inFlight + |w.batch|))
    case Infer(given) =>
      s.(stopped := s.stopped || !s.ready,
         w := w.(pc := Reply(0, AnswersAll(given, |w.batch|), Check, !s.ready), given := if given.Some? then given.value else []))
    case Answer => s.(w := ApplyAnswer(w, s.closed))
    case EndBatch =>
      s.(w := w.(pc := if w.pc.terminal then Drain else Idle, inFlight := w.inFlight - |w.batch|,
                 batches := w.batches + [w.batch], results := w.results + [w.pc.ok], batch := []))
    case Collect => s.(channel := s.channel[1..], w := w.(deferred := w.deferred + [s.channel[0]]))
    case Collected => s.(w := w.(pc := Failing))
    case FailOne => ApplyFailOne(s)
    case Finish => s.(w := w.(pc := Exit))
    case Unplug => s.(channel := [], lost := s.channel, w := w.(pc := Unplugged))
    case WakeAll => s.(stopped := true, q := NotifyAll(s.q), w := w.(pc := Gone))
  }

  // ---------------------------------------------------------------------------------- runs

  datatype Step =
    | Arrive(key: Option<Key>)
    | Submit(i: nat, a: SubmitStep)
    | Work(b: WorkStep)
    | CloseReceiver(id: nat)
    | LoseReadiness

  predicate Enabled(s: State, step: Step) {
    match step
    case Arrive(key) => key.Some? ==> key.value.bucket > 0
    case Submit(i, a) => SubmitEnabled(s, i, a)
    case Work(b) => WorkEnabled(s, b)
    case _ => true
  }

  function CommandFor(key: Option<Key>, id: nat): Command {
    if key.Some? then Translate(id, key.value) else Shutdown(id)
  }

  /** A caller enters: a job is counted in the queue depth before it is enqueued. */
  function ApplyArrive(s: State, key: Option<Key>): State {
    var c := CommandFor(key, |s.q.submitters|);
    s.(q := s.q.(submitters := s.q.submitters + [Submitter(c, Fresh, Unregistered, false)]), depth := s.depth + IsJob(c))
  }

  function Apply(s: State, step: Step): State
    requires Enabled(s, step) && QueueOk(s.q)
  {
    match step
    case Arrive(key) => ApplyArrive(s, key)
    case Submit(i, a) => SubmitApply(s, i, a)
    case Work(b) => WorkApply(s, b)
    case CloseReceiver(id) => s.(closed := s.closed + {id})
    case LoseReadiness => s.(ready := false)
  }

  function Initial(config: Config): State {
    State(config, Queue([], [], false), [], [], [], {}, true, false, 0, Worker(Idle, [], [], [], [], [], [], [], [], [], [], 0, 0, 0))
  }

  // ---------------------------------------------------------------------------------- what every run keeps

  function IsJob(c: Command): int {
    if c.Translate? then 1 else 0
  }

  /** Not in, and not bound for, the final drain. */
  predicate Serving(pc: Pc) {
    !pc.Drain? && !pc.Failing? && !pc.Exit? && !pc.Unplugged? && !pc.Gone? && !(pc.Reply? && pc.terminal)
  }

  /** Wakeups that the worker is about to hand out. */
  function Owed(pc: Pc): int {
    if pc.Received? || pc.GatherReceived? then 1 else 0
  }

  /** The queue discipline: bounded channel, consistent registrations, no lost wakeup while serving, nobody stuck at the end. */
  ghost predicate WakeupsOk(s: State) {
    && QueueOk(s.q) && |s.channel| <= s.config.queueCapacity
    && (Serving(s.w.pc) ==> Covered(s.q, s.config.queueCapacity - |s.channel|, Owed(s.w.pc)))
    && (s.w.pc.Gone? ==> !AnyStuck(s.q)) && (s.stopped ==> !Serving(s.w.pc))
  }

  lemma PhaseCoversIf(s: State, i: nat, phase: Phase)
    requires WakeupsOk(s) && i < |s.q.submitters| && PhaseOk(s.q.submitters[i].(phase := phase))
    requires Stuck(s.q.submitters[i].(phase := phase)) ==> Stuck(s.q.submitters[i])
    ensures WakeupsOk(s.(q := SetSubmitter(s.q, i, s.q.submitters[i].(phase := phase))))
  {
    PhaseKeeps(s.q, i, s.q.submitters[i].(phase := phase));
    if Serving(s.w.pc) {
      PhaseCovers(s.q, i, phase, s.config.queueCapacity - |s.channel|, Owed(s.w.pc));
    }
    assert AnyStuck(SetSubmitter(s.q, i, s.q.submitters[i].(phase := phase))) ==> AnyStuck(s.q);
  }

  lemma WakeKeeps(s: State, i: nat)
    requires WakeupsOk(s) && SubmitEnabled(s, i, Wake)
    ensures WakeupsOk(SubmitApply(s, i, Wake))
  {
    var y := s.q.submitters[i].(phase := Fresh, flag := Unregistered, credit := true);
    SetKeeps(s.q, i, y);
    if Serving(s.w.pc) { WakeCovers(s.q, i, s.config.queueCapacity - |s.channel|, Owed(s.w.pc)); }
    assert AnyStuck(SetSubmitter(s.q, i, y)) ==> AnyStuck(s.q);
  }

  lemma SendKeeps(s: State, i: nat)
    requires WakeupsOk(s) && SubmitEnabled(s, i, SendOk)
    ensures WakeupsOk(SubmitApply(s, i, SendOk))
  {
    DropKeeps(s.q, i, Sent);
    if Serving(s.w.pc) { SendCovers(s.q, i, s.config.queueCapacity - |s.channel|, Owed(s.w.pc)); }
  }

  lemma FullKeeps(s: State, i: nat)
    requires WakeupsOk(s) && SubmitEnabled(s, i, SeeFull)
    ensures WakeupsOk(SubmitApply(s, i, SeeFull))
  {
    PhaseKeeps(s.q, i, s.q.submitters[i].(phase := Refused, credit := false));
    RefusedCovers(SubmitApply(s, i, SeeFull).q, Owed(s.w.pc));
  }

  lemma SubmitKeepsWakeups(s: State, i: nat, a: SubmitStep)
    requires WakeupsOk(s) && SubmitEnabled(s, i, a)
    ensures WakeupsOk(SubmitApply(s, i, a))
  {
    match a
    case Enable =>
      RegisterKeeps(s.q, i);
      if Serving(s.w.pc) { RegisterCovers(s.q, i, s.config.queueCapacity - |s.channel|, Owed(s.w.pc)); }
    case SendOk => SendKeeps(s, i);
    case SeeFull => FullKeeps(s, i);
    case SeeGone => DropKeeps(s.q, i, Leaving(Disconnected));
    case SeeStopped => DropKeeps(s.q, i, Leaving(Disconnected));
    case Park => PhaseCoversIf(s, i, Parked);
    case Wake => WakeKeeps(s, i);
    case Expire => PhaseCoversIf(s, i, Expired);
    case GiveUp =>
      DropKeeps(s.q, i, Leaving(Full));
      if Serving(s.w.pc) { LeaveCovers(s.q, i, Full, s.config.queueCapacity - |s.channel|, Owed(s.w.pc)); }
    case Leave => PhaseCoversIf(s, i, Left(s.q.submitters[i].phase.why));
  }

  lemma NotifyKeeps(s: State, pc: Pc)
    requires WakeupsOk(s) && (s.w.pc.Received? || s.w.pc.GatherReceived?) && Owed(pc) == 0 && Serving(pc)
    ensures WakeupsOk(s.(q := NotifyOne(s.q), w := s.w.(pc := pc)))
  {
    NotifyOneKeeps(s.q);
    NotifyOneCovers(s.q, s.config.queueCapacity - |s.channel|, 0);
  }

  lemma WakeAllKeeps(s: State)
    requires WakeupsOk(s) && WorkEnabled(s, WakeAll)
    ensures WakeupsOk(WorkApply(s, WakeAll))
  {
    NotifyAllKeeps(s.q);
  }

  /** Every other worker step leaves submitters alone and keeps free slots and owed wakeups in step. */
  lemma WorkKeepsWakeups(s: State, a: WorkStep)
    requires WakeupsOk(s) && WorkEnabled(s, a)
    ensures WakeupsOk(WorkApply(s, a))
  {
    match a
    case NotifyFirst => NotifyKeeps(s, Hand(s.w.pc.c));
    case GatherNotify => NotifyKeeps(s, Classify(s.w.pc.c));
    case WakeAll => WakeAllKeeps(s);
    case _ =>
      var t := WorkApply(s, a);
      assert t.q == s.q;
      assert Serving(t.w.pc) ==> Serving(s.w.pc) && Owed(t.w.pc) - Owed(s.w.pc) == |s.channel| - |t.channel|;
  }

  lemma ArriveKeepsWakeups(s: State, key: Option<Key>)
    requires WakeupsOk(s)
    ensures WakeupsOk(ApplyArrive(s, key))
  {
    var x := Submitter(CommandFor(key, |s.q.submitters|), Fresh, Unregistered, false);
    SumAppend(Weight, s.q.submitters, x);
    assert AnyStuck(ApplyArrive(s, key).q) ==> AnyStuck(s.q);
  }

  lemma StepKeepsWakeups(s: State, step: Step)
    requires WakeupsOk(s) && Enabled(s, step)
    ensures WakeupsOk(Apply(s, step))
  {
    match step
    case Arrive(key) => ArriveKeepsWakeups(s, key);
    case Submit(i, a) => SubmitKeepsWakeups(s, i, a);
    case Work(b) => WorkKeepsWakeups(s, b);
    case _ =>
  }

  /** While the worker serves: if a submitter is stuck and a slot is free, the worker or another submitter carries a wakeup. */
  lemma StuckMeansWakeupInFlight(s: State, i: nat) returns (j: nat)
    requires WakeupsOk(s) && Serving(s.w.pc) && i < |s.q.submitters| && Stuck(s.q.submitters[i])
    requires |s.channel| < s.config.queueCapacity
    ensures Owed(s.w.pc) > 0 || (j < |s.q.submitters| && Weight(s.q.submitters[j]) > 0 && !Stuck(s.q.submitters[j]))
  {
    if Owed(s.w.pc) == 0 {
      j := SumPositive(Weight, s.q.submitters);
      assert PhaseOk(s.q.submitters[j]);
    } else {
      j := 0;
    }
  }

  // ---------------------------------------------------------------------------------- first in, first out

  /** Before the final drain. */
  predicate Looping(pc: Pc) {
    !pc.Drain? && !pc.Failing? && !pc.Exit? && !pc.Unplugged? && !pc.Gone?
  }

  /** The command that the worker has received but not yet dealt with. */
  function InHand(pc: Pc): seq<Command> {
    match pc
    case Received(c) => [c]
    case Hand(c) => [c]
    case GatherReceived(c) => [c]
    case Classify(c) => [c]
    case _ => []
  }

  function Commands(taken: seq<Taken>): (commands: seq<Command>)
    ensures |commands| == |taken|
  {
    seq(|taken|, i requires 0 <= i < |taken| => taken[i].command)
  }

  /** The sends, in order, cut into what was dealt with, what is in hand, deferred, in the channel, and lost with it. */
  ghost predicate InOrder(done: seq<Command>, hand: seq<Command>, deferred: seq<Command>, channel: seq<Command>, lost: seq<Command>,
                          sent: seq<Command>)
  {
    done + hand + deferred + channel + lost == sent
  }

  lemma DealWith(done: seq<Command>, c: Command, deferred: seq<Command>, channel: seq<Command>, lost: seq<Command>, sent: seq<Command>)
    requires InOrder(done, [c], deferred, channel, lost, sent)
    ensures InOrder(done + [c], [], deferred, channel, lost, sent)
    ensures deferred == [] ==> InOrder(done, [], [c], channel, lost, sent)
  {
    if deferred == [] { assert done + [c] + [] == done + [] + [c]; }
  }

  lemma NextDeferred(done: seq<Command>, deferred: seq<Command>, channel: seq<Command>, lost: seq<Command>, sent: seq<Command>)
    requires InOrder(done, [], deferred, channel, lost, sent) && deferred != []
    ensures InOrder(done, [deferred[0]], deferred[1..], channel, lost, sent)
    ensures InOrder(done + [deferred[0]], [], deferred[1..], channel, lost, sent)
  {
    assert done + [] + deferred == done + [deferred[0]] + deferred[1..];
    DealWith(done, deferred[0], deferred[1..], channel, lost, sent);
  }

  lemma NextReceived(done: seq<Command>, deferred: seq<Command>, channel: seq<Command>, lost: seq<Command>, sent: seq<Command>)
    requires InOrder(done, [], deferred, channel, lost, sent) && channel != []
    ensures InOrder(done, [], deferred + [channel[0]], channel[1..], lost, sent)
    ensures deferred == [] ==> InOrder(done, [channel[0]], [], channel[1..], lost, sent)
  {
    var front := done + [];
    assert front + deferred + channel == front + (deferred + [channel[0]]) + channel[1..];
    if deferred == [] { assert front + [] + channel == done + [channel[0]] + [] + channel[1..]; }
  }

  lemma NextSent(done: seq<Command>, hand: seq<Command>, deferred: seq<Command>, channel: seq<Command>, sent: seq<Command>, c: Command)
    requires InOrder(done, hand, deferred, channel, [], sent)
    ensures InOrder(done, hand, deferred, channel + [c], [], sent + [c])
  {
  }

  /** The order of the queue, and the one-slot deferred queue while the worker loops. */
  ghost predicate FifoOk(s: State) {
    && InOrder(Commands(s.w.taken), InHand(s.w.pc), s.w.deferred, s.channel, s.lost, s.sent)
    && (Looping(s.w.pc) ==> |s.w.deferred| <= 1)
    && (InHand(s.w.pc) != [] || s.w.pc.Gather? ==> s.w.deferred == [])
    && (if Plugged(s.w.pc) then s.lost == [] else s.channel == [])
    && (s.w.pc.Exit? || !Plugged(s.w.pc) ==> s.w.deferred == [])
  }

  lemma TakeCommands(w: Worker, c: Command, fate: Fate)
    ensures Commands(Take(w, c, fate).taken) == Commands(w.taken) + [c]
  {
  }

  lemma TakeFirstKeepsFifo(s: State)
    requires FifoOk(s) && s.w.pc.Hand?
    ensures FifoOk(ApplyTakeFirst(s))
  {
    var t := ApplyTakeFirst(s);
    TakeCommands(s.w, s.w.pc.c, t.w.taken[|s.w.taken|].fate);
    DealWith(Commands(s.w.taken), s.w.pc.c, s.w.deferred, s.channel, s.lost, s.sent);
  }

  lemma SortKeepsFifo(s: State)
    requires FifoOk(s) && s.w.pc.Classify?
    ensures FifoOk(ApplySort(s))
  {
    var t, c := ApplySort(s), s.w.pc.c;
    DealWith(Commands(s.w.taken), c, s.w.deferred, s.channel, s.lost, s.sent);
    if t.w.pc.Gather? {
      TakeCommands(s.w, c, t.w.taken[|s.w.taken|].fate);
    } else {
      assert t.w.deferred == [c];
    }
  }

  lemma FailOneKeepsFifo(s: State)
    requires FifoOk(s) && s.w.pc.Failing? && s.w.deferred != []
    ensures FifoOk(ApplyFailOne(s))
  {
    TakeCommands(s.w, s.w.deferred[0], Drained);
    NextDeferred(Commands(s.w.taken), s.w.deferred, s.channel, s.lost, s.sent);
  }

  lemma UnplugKeepsFifo(s: State)
    requires FifoOk(s) && s.w.pc.Exit?
    ensures FifoOk(s.(channel := [], lost := s.channel, w := s.w.(pc := Unplugged)))
  {
    var front := Commands(s.w.taken) + [] + [];
    assert front + s.channel + [] == front + [] + s.channel;
  }

  lemma WorkKeepsFifo(s: State, a: WorkStep)
    requires FifoOk(s) && QueueOk(s.q) && WorkEnabled(s, a)
    ensures FifoOk(WorkApply(s, a))
  {
    match a
    case TakeFirst => TakeFirstKeepsFifo(s);
    case Sort => SortKeepsFifo(s);
    case FailOne => FailOneKeepsFifo(s);
    case PopDeferred => NextDeferred(Commands(s.w.taken), s.w.deferred, s.channel, s.lost, s.sent);
    case Receive => NextReceived(Commands(s.w.taken), s.w.deferred, s.channel, s.lost, s.sent);
    case GatherReceive => NextReceived(Commands(s.w.taken), s.w.deferred, s.channel, s.lost, s.sent);
    case Collect => NextReceived(Commands(s.w.taken), s.w.deferred, s.channel, s.lost, s.sent);
    case Unplug => UnplugKeepsFifo(s);
    case _ => QuietParts(s, a); QuietKeepsFifo(s, WorkApply(s, a));
  }

  /** Steps that move no command. */
  predicate Quiet(a: WorkStep) {
    || a.NotifyFirst? || a.NoticeFailure? || a.GatherNotify? || a.CloseWindow? || a.Infer? || a.Answer? || a.EndBatch? || a.Collected?
    || a.Finish? || a.WakeAll?
  }

  /** Equal parts, and a next place that asks no more of the deferred queue than the last one. */
  ghost predicate SameParts(s: State, t: State) {
    && t.w.taken == s.w.taken && t.w.deferred == s.w.deferred && t.channel == s.channel && t.lost == s.lost && t.sent == s.sent
    && InHand(t.w.pc) == InHand(s.w.pc)
    && (Looping(t.w.pc) ==> Looping(s.w.pc)) && (Plugged(t.w.pc) <==> Plugged(s.w.pc)) && !t.w.pc.Gather?
    && (t.w.pc.Exit? ==> s.w.deferred == [])
  }

  /** Steps that only move on: wakeups, and the way out of the loop. */
  predicate Passing(a: WorkStep) {
    a.NotifyFirst? || a.NoticeFailure? || a.GatherNotify? || a.Collected? || a.Finish? || a.WakeAll?
  }

  lemma NotifiedParts(s: State, a: WorkStep)
    requires QueueOk(s.q) && WorkEnabled(s, a) && (a.NotifyFirst? || a.GatherNotify?)
    ensures SameParts(s, WorkApply(s, a)) && WorkApply(s, a).w == s.w.(pc := WorkApply(s, a).w.pc)
    ensures !WorkApply(s, a).w.pc.Reply? && !s.w.pc.Reply?
  {
  }

  lemma PassingParts(s: State, a: WorkStep)
    requires QueueOk(s.q) && WorkEnabled(s, a) && Passing(a)
    ensures SameParts(s, WorkApply(s, a)) && WorkApply(s, a).w == s.w.(pc := WorkApply(s, a).w.pc)
    ensures !WorkApply(s, a).w.pc.Reply? && !s.w.pc.Reply?
  {
    if a.NotifyFirst? || a.GatherNotify? { NotifiedParts(s, a); }
  }

  lemma BatchParts(s: State, a: WorkStep)
    requires QueueOk(s.q) && WorkEnabled(s, a) && (a.CloseWindow? || a.Infer? || a.Answer? || a.EndBatch?)
    ensures SameParts(s, WorkApply(s, a))
  {
  }

  lemma QuietParts(s: State, a: WorkStep)
    requires QueueOk(s.q) && WorkEnabled(s, a) && Quiet(a)
    ensures SameParts(s, WorkApply(s, a))
  {
    if Passing(a) { PassingParts(s, a); } else { BatchParts(s, a); }
  }

  lemma QuietKeepsFifo(s: State, t: State)
    requires FifoOk(s) && SameParts(s, t)
    ensures FifoOk(t)
  {
  }

  lemma SendKeepsFifo(s: State, i: nat)
    requires FifoOk(s) && QueueOk(s.q) && SubmitEnabled(s, i, SendOk)
    ensures FifoOk(SubmitApply(s, i, SendOk))
  {
    NextSent(Commands(s.w.taken), InHand(s.w.pc), s.w.deferred, s.channel, s.sent, s.q.submitters[i].command);
  }

  lemma StepKeepsFifo(s: State, step: Step)
    requires FifoOk(s) && QueueOk(s.q) && Enabled(s, step)
    ensures FifoOk(Apply(s, step))
  {
    match step
    case Work(b) => WorkKeepsFifo(s, b);
    case Submit(i, a) => if a == SendOk { SendKeepsFifo(s, i); }
    case _ =>
  }

  // ---------------------------------------------------------------------------------- the queue-depth gauge

  /** A submitter that the gauge counts: a job not yet sent, and not yet subtracted again. */
  function InGauge(x: Submitter): int {
    if x.phase.Sent? || x.phase.Left? then 0 else IsJob(x.command)
  }

  type Counter = seq<Command> -> int

  ghost function Jobs(): Counter {
    (commands: seq<Command>) => Sum(IsJob, commands)
  }

  ghost function Waiting(q: Queue): int {
    Sum(InGauge, q.submitters)
  }

  ghost predicate DepthIs(jobs: Counter, waiting: int, s: State) {
    s.depth == waiting + jobs(InHand(s.w.pc)) + jobs(s.w.deferred) + jobs(s.channel) + jobs(s.lost)
  }

  /** The gauge is the number of jobs waiting for a slot, in hand, deferred, in the channel, or lost with it. */
  ghost predicate DepthOk(s: State) {
    DepthIs(Jobs(), Waiting(s.q), s)
  }

  lemma JobsNatural(commands: seq<Command>)
    ensures Jobs()(commands) >= 0
  {
    SumNatural(IsJob, commands);
  }

  /** The gauge never goes below zero. */
  lemma DepthIsNatural(s: State)
    requires DepthOk(s)
    ensures s.depth >= 0
  {
    SumNatural(InGauge, s.q.submitters);
    JobsNatural(InHand(s.w.pc));
    JobsNatural(s.w.deferred);
    JobsNatural(s.channel);
    JobsNatural(s.lost);
  }

  lemma GaugeUpdate(q: Queue, i: nat, x: Submitter)
    requires i < |q.submitters|
    ensures Waiting(SetSubmitter(q, i, x)) == Waiting(q) - InGauge(q.submitters[i]) + InGauge(x)
  {
    SumUpdate(InGauge, q.submitters, i, x);
  }

  /** A wakeup changes nobody's place in the gauge. */
  lemma GaugeNotify(q: Queue)
    requires QueueOk(q)
    ensures Waiting(NotifyOne(q)) == Waiting(q)
  {
    if q.waiters != [] { GaugeUpdate(q, q.waiters[0], q.submitters[q.waiters[0]].(flag := Woken)); }
  }

  lemma GaugeDrop(q: Queue, i: nat, phase: Phase)
    requires QueueOk(q) && i < |q.submitters| && !q.submitters[i].flag.Unregistered? && (phase.Leaving? || phase.Sent?)
    ensures Waiting(Drop(q, i, phase))
            == Waiting(q) - if phase.Sent? then IsJob(q.submitters[i].command) else 0
  {
    var x := q.submitters[i];
    var y := x.(phase := phase, flag := Unregistered, credit := false);
    GaugeUpdate(q, i, y);
    if x.flag.Woken? {
      SetKeeps(q, i, y);
      GaugeNotify(SetSubmitter(q, i, y));
    }
  }

  lemma {:induction false} GaugeNotifyAll(q: Queue, n: nat)
    requires n <= |q.submitters|
    ensures Sum(InGauge, NotifyAll(q).submitters[..n]) == Sum(InGauge, q.submitters[..n])
  {
    if n > 0 {
      GaugeNotifyAll(q, n - 1);
      SumAppend(InGauge, q.submitters[..n - 1], q.submitters[n - 1]);
      SumAppend(InGauge, NotifyAll(q).submitters[..n - 1], NotifyAll(q).submitters[n - 1]);
      assert q.submitters[..n] == q.submitters[..n - 1] + [q.submitters[n - 1]];
      assert NotifyAll(q).submitters[..n] == NotifyAll(q).submitters[..n - 1] + [NotifyAll(q).submitters[n - 1]];
    }
  }

  lemma GaugeArrive(q: Queue, x: Submitter)
    ensures Waiting(q.(submitters := q.submitters + [x])) == Waiting(q) + InGauge(x)
  {
    SumAppend(InGauge, q.submitters, x);
  }

  lemma JobsOf(first: Command, rest: seq<Command>)
    ensures Jobs()([first]) == IsJob(first) && Jobs()([]) == 0
    ensures Jobs()([first] + rest) == IsJob(first) + Jobs()(rest) == Jobs()(rest + [first])
  {
    SumAppend(IsJob, [], first);
    SumAppend(IsJob, rest, first);
    SumFirst(IsJob, [first] + rest);
    assert ([first] + rest)[1..] == rest;
  }

  /** The counts that a step may use: nothing in the empty sequence, and one command at either end of a sequence. */
  ghost predicate Counts(jobs: Counter, first: Command, rest: seq<Command>) {
    && jobs([]) == 0 && jobs([first]) == IsJob(first)
    && jobs([first] + rest) == IsJob(first) + jobs(rest) == jobs(rest + [first])
  }

  lemma ReceivingKeepsDepth(jobs: Counter, waiting: int, s: State, a: WorkStep)
    requires DepthIs(jobs, waiting, s) && WorkEnabled(s, a) && QueueOk(s.q) && (a.Receive? || a.GatherReceive? || a.Collect?)
    requires Counts(jobs, s.channel[0], s.channel[1..]) && Counts(jobs, s.channel[0], s.w.deferred)
    ensures DepthIs(jobs, waiting, WorkApply(s, a))
  {
    assert s.channel == [s.channel[0]] + s.channel[1..];
  }

  lemma TakeFirstKeepsDepth(jobs: Counter, waiting: int, s: State)
    requires DepthIs(jobs, waiting, s) && s.w.pc.Hand? && Counts(jobs, s.w.pc.c, [])
    ensures DepthIs(jobs, waiting, ApplyTakeFirst(s))
  {
  }

  /** Sorting keeps a command as deferred, or takes it and lowers the gauge for a job. */
  lemma SortDefersOrTakes(s: State)
    requires s.w.pc.Classify? && s.w.deferred == []
    ensures var t := ApplySort(s);
            && InHand(t.w.pc) == [] && t.channel == s.channel && t.lost == s.lost
            && if t.w.deferred == [] then s.w.pc.c.Translate? && t.depth == s.depth - 1 else t.w.deferred == [s.w.pc.c] && t.depth == s.depth
  {
  }

  lemma SortKeepsDepth(jobs: Counter, waiting: int, s: State)
    requires DepthIs(jobs, waiting, s) && s.w.pc.Classify? && s.w.deferred == [] && Counts(jobs, s.w.pc.c, [])
    ensures DepthIs(jobs, waiting, ApplySort(s))
  {
    SortDefersOrTakes(s);
  }

  lemma DeferredKeepsDepth(jobs: Counter, waiting: int, s: State, a: WorkStep)
    requires DepthIs(jobs, waiting, s) && QueueOk(s.q) && WorkEnabled(s, a) && (a.PopDeferred? || a.FailOne?)
    requires Counts(jobs, s.w.deferred[0], s.w.deferred[1..])
    ensures DepthIs(jobs, waiting, WorkApply(s, a))
  {
    assert s.w.deferred == [s.w.deferred[0]] + s.w.deferred[1..];
  }

  lemma OtherKeepsDepth(jobs: Counter, waiting: int, s: State, a: WorkStep)
    requires DepthIs(jobs, waiting, s) && QueueOk(s.q) && WorkEnabled(s, a) && jobs([]) == 0
    requires Plugged(s.w.pc) ==> s.lost == []
    requires a.CloseWindow? || a.Infer? || a.Answer? || a.EndBatch? || a.Collected? || a.Finish? || a.NoticeFailure? || a.Unplug?
    ensures DepthIs(jobs, waiting, WorkApply(s, a)) && WorkApply(s, a).q == s.q
  {
  }

  /** What a step may need to know about the counts. */
  ghost predicate CountsHere(jobs: Counter, s: State) {
    && jobs([]) == 0
    && (s.channel != [] ==> Counts(jobs, s.channel[0], s.channel[1..]) && Counts(jobs, s.channel[0], s.w.deferred))
    && (s.w.deferred != [] ==> Counts(jobs, s.w.deferred[0], s.w.deferred[1..]))
    && (InHand(s.w.pc) != [] ==> Counts(jobs, InHand(s.w.pc)[0], []))
  }

  lemma JobsCountHere(s: State)
    ensures CountsHere(Jobs(), s)
  {
    if s.channel != [] { JobsOf(s.channel[0], s.channel[1..]); JobsOf(s.channel[0], s.w.deferred); }
    if s.w.deferred != [] { JobsOf(s.w.deferred[0], s.w.deferred[1..]); }
    if InHand(s.w.pc) != [] { JobsOf(InHand(s.w.pc)[0], []); }
  }

  lemma WorkKeepsDepth(jobs: Counter, waiting: int, s: State, a: WorkStep)
    requires DepthIs(jobs, waiting, s) && CountsHere(jobs, s) && QueueOk(s.q) && WorkEnabled(s, a)
    requires (InHand(s.w.pc) != [] ==> s.w.deferred == []) && (Plugged(s.w.pc) ==> s.lost == [])
    ensures DepthIs(jobs, waiting, WorkApply(s, a))
  {
    match a
    case NotifyFirst =>
    case GatherNotify =>
    case WakeAll =>
    case Receive => ReceivingKeepsDepth(jobs, waiting, s, a);
    case GatherReceive => ReceivingKeepsDepth(jobs, waiting, s, a);
    case Collect => ReceivingKeepsDepth(jobs, waiting, s, a);
    case PopDeferred => DeferredKeepsDepth(jobs, waiting, s, a);
    case FailOne => DeferredKeepsDepth(jobs, waiting, s, a);
    case TakeFirst => TakeFirstKeepsDepth(jobs, waiting, s);
    case Sort => SortKeepsDepth(jobs, waiting, s);
    case _ => OtherKeepsDepth(jobs, waiting, s, a);
  }

  /** How a step changes the number of submitters in the gauge. */
  function Change(s: State, step: Step): int
    requires Enabled(s, step)
  {
    match step
    case Arrive(key) => IsJob(CommandFor(key, |s.q.submitters|))
    case Submit(i, a) => if a.SendOk? || a.Leave? then -IsJob(s.q.submitters[i].command) else 0
    case _ => 0
  }

  lemma SubmitChanges(s: State, i: nat, a: SubmitStep)
    requires QueueOk(s.q) && SubmitEnabled(s, i, a)
    ensures Waiting(SubmitApply(s, i, a).q) == Waiting(s.q) + Change(s, Submit(i, a))
  {
    match a
    case SendOk => GaugeDrop(s.q, i, Sent);
    case SeeGone => GaugeDrop(s.q, i, Leaving(Disconnected));
    case SeeStopped => GaugeDrop(s.q, i, Leaving(Disconnected));
    case GiveUp => GaugeDrop(s.q, i, Leaving(Full));
    case _ => GaugeUpdate(s.q, i, SubmitApply(s, i, a).q.submitters[i]);
  }

  lemma StepChanges(s: State, step: Step)
    requires QueueOk(s.q) && Enabled(s, step)
    ensures Waiting(Apply(s, step).q) == Waiting(s.q) + Change(s, step)
  {
    match step
    case Arrive(key) => GaugeArrive(s.q, Submitter(CommandFor(key, |s.q.submitters|), Fresh, Unregistered, false));
    case Submit(i, a) => SubmitChanges(s, i, a);
    case Work(b) =>
      match b {
        case NotifyFirst => GaugeNotify(s.q);
        case GatherNotify => GaugeNotify(s.q);
        case WakeAll => GaugeWakeAll(s.q);
        case _ => assert WorkApply(s, b).q == s.q;
      }
    case _ =>
  }

  lemma GaugeWakeAll(q: Queue)
    ensures Waiting(NotifyAll(q)) == Waiting(q)
  {
    GaugeNotifyAll(q, |q.submitters|);
    assert q.submitters[..|q.submitters|] == q.submitters;
    assert NotifyAll(q).submitters[..|q.submitters|] == NotifyAll(q).submitters;
  }

  lemma SubmitKeepsDepth(jobs: Counter, waiting: int, s: State, i: nat, a: SubmitStep)
    requires DepthIs(jobs, waiting, s) && QueueOk(s.q) && SubmitEnabled(s, i, a)
    requires Counts(jobs, s.q.submitters[i].command, s.channel)
    ensures DepthIs(jobs, waiting + Change(s, Submit(i, a)), SubmitApply(s, i, a))
  {
  }

  lemma StepKeepsDepth(s: State, step: Step)
    requires DepthOk(s) && FifoOk(s) && QueueOk(s.q) && Enabled(s, step)
    ensures DepthOk(Apply(s, step))
  {
    var jobs, waiting := Jobs(), Waiting(s.q);
    StepChanges(s, step);
    match step
    case Arrive(key) =>
    case Submit(i, a) => JobsOf(s.q.submitters[i].command, s.channel); SubmitKeepsDepth(jobs, waiting, s, i, a);
    case Work(b) => JobsCountHere(s); WorkKeepsDepth(jobs, waiting, s, b);
    case _ =>
  }

  // ---------------------------------------------------------------------------------- batches

  predicate CommandOk(c: Command) {
    c.Translate? ==> c.key.bucket > 0
  }

  /** Keys come with a bucket, on both sides of the channel. */
  ghost predicate KeysOk(s: State) {
    && (forall i :: 0 <= i < |s.q.submitters| ==> CommandOk(s.q.submitters[i].command))
    && (forall i :: 0 <= i < |s.sent| ==> CommandOk(s.sent[i]))
  }

  lemma StepKeepsKeys(s: State, step: Step)
    requires KeysOk(s) && QueueOk(s.q) && Enabled(s, step)
    ensures KeysOk(Apply(s, step))
  {
    match step
    case Work(b) => WorkKeepsCommands(s, b);
    case Submit(i, a) => SubmitKeepsCommands(s, i, a);
    case _ =>
  }

  lemma WorkKeepsCommands(s: State, a: WorkStep)
    requires QueueOk(s.q) && WorkEnabled(s, a)
    ensures |WorkApply(s, a).q.submitters| == |s.q.submitters| && WorkApply(s, a).sent == s.sent
    ensures forall k :: 0 <= k < |s.q.submitters| ==>
              && WorkApply(s, a).q.submitters[k].command == s.q.submitters[k].command
              && WorkApply(s, a).q.submitters[k].phase == s.q.submitters[k].phase
  {
    match a
    case NotifyFirst => NotifyOneKeeps(s.q);
    case GatherNotify => NotifyOneKeeps(s.q);
    case WakeAll =>
    case _ => assert WorkApply(s, a).q == s.q;
  }

  lemma DropKeepsCommands(q: Queue, i: nat, phase: Phase)
    requires QueueOk(q) && i < |q.submitters| && !q.submitters[i].flag.Unregistered? && (phase.Leaving? || phase.Sent?)
    ensures |Drop(q, i, phase).submitters| == |q.submitters|
    ensures forall k :: 0 <= k < |q.submitters| ==> Drop(q, i, phase).submitters[k].command == q.submitters[k].command
    ensures forall k :: 0 <= k < |q.submitters| && k != i ==> Drop(q, i, phase).submitters[k].phase == q.submitters[k].phase
    ensures Drop(q, i, phase).submitters[i].phase == phase
  {
    var x := q.submitters[i];
    var y := x.(phase := phase, flag := Unregistered, credit := false);
    if x.flag.Woken? {
      SetKeeps(q, i, y);
      NotifyOneKeeps(SetSubmitter(q, i, y));
    }
  }

  lemma SubmitKeepsCommands(s: State, i: nat, a: SubmitStep)
    requires QueueOk(s.q) && SubmitEnabled(s, i, a)
    ensures |SubmitApply(s, i, a).q.submitters| == |s.q.submitters|
    ensures forall k :: 0 <= k < |s.q.submitters| ==> SubmitApply(s, i, a).q.submitters[k].command == s.q.submitters[k].command
    ensures forall k :: 0 <= k < |s.q.submitters| && (k != i || s.q.submitters[k].phase.Sent?) ==>
              SubmitApply(s, i, a).q.submitters[k].phase == s.q.submitters[k].phase
  {
    match a
    case SendOk => DropKeepsCommands(s.q, i, Sent);
    case SeeGone => DropKeepsCommands(s.q, i, Leaving(Disconnected));
    case SeeStopped => DropKeepsCommands(s.q, i, Leaving(Disconnected));
    case GiveUp => DropKeepsCommands(s.q, i, Leaving(Full));
    case _ =>
  }

  /** The worker is between opening a batch and finishing it. */
  predicate InBatch(pc: Pc) {
    pc.Gather? || pc.GatherReceived? || pc.Classify? || pc.Run? || pc.Reply?
  }

  /** Jobs of one key, within the limit for their bucket. */
  ghost predicate OneKey(config: Config, batch: seq<Command>) {
    && batch != [] && batch[0].Translate? && batch[0].key.bucket > 0 && |batch| <= BatchLimit(config, batch[0].key.bucket)
    && forall i :: 0 <= i < |batch| ==> SameKey(batch[i], batch[0])
  }

  /** The padded source of a batch stays within the configured size, unless a single row exceeds it. */
  lemma BatchIsBounded(config: Config, batch: seq<Command>)
    requires config.Valid() && OneKey(config, batch)
    ensures 0 < |batch| <= config.maxBatchSize <= MAX_BATCH_SIZE
    ensures |batch| * batch[0].key.bucket <= Max(config.maxPaddedSourceChars, batch[0].key.bucket)
  {
    var bucket, limit := batch[0].key.bucket, config.maxPaddedSourceChars / batch[0].key.bucket;
    if |batch| > 1 {
      assert |batch| * bucket <= limit * bucket <= config.maxPaddedSourceChars;
    }
  }

  ghost predicate BatchOk(s: State) {
    && s.config.Valid()
    && (forall b :: 0 <= b < |s.w.batches| ==> OneKey(s.config, s.w.batches[b]))
    && (if InBatch(s.w.pc) then OneKey(s.config, s.w.batch) else s.w.batch == [])
    && (s.w.pc.GatherReceived? || s.w.pc.Classify? ==> |s.w.batch| < BatchLimit(s.config, s.w.batch[0].key.bucket))
    && (s.w.pc.Reply? ==> s.w.pc.k <= |s.w.batch| && (!s.w.pc.stage.Check? ==> s.w.pc.k < |s.w.batch|))
    && (s.w.pc.Reply? ==> if s.w.pc.ok then !s.w.pc.stage.Answered? else !s.w.pc.stage.Counted?)
    && (InHand(s.w.pc) != [] ==> CommandOk(InHand(s.w.pc)[0]))
  }

  lemma HandIsSent(s: State)
    requires FifoOk(s)
    ensures forall c :: c in InHand(s.w.pc) || c in s.w.deferred || c in s.channel ==> c in s.sent
  {
  }

  lemma StepKeepsBatch(s: State, step: Step)
    requires BatchOk(s) && QueueOk(s.q) && Enabled(s, step)
    requires forall c :: c in s.w.deferred || c in s.channel ==> CommandOk(c)
    ensures BatchOk(Apply(s, step))
  {
    match step
    case Work(b) => WorkKeepsBatch(s, b);
    case _ =>
  }

  lemma ReceivingKeepsBatch(s: State, a: WorkStep)
    requires BatchOk(s) && QueueOk(s.q) && WorkEnabled(s, a) && (a.PopDeferred? || a.Receive? || a.GatherReceive? || a.Collect?)
    requires forall c :: c in s.w.deferred || c in s.channel ==> CommandOk(c)
    ensures BatchOk(WorkApply(s, a))
  {
  }

  lemma WorkKeepsBatch(s: State, a: WorkStep)
    requires BatchOk(s) && QueueOk(s.q) && WorkEnabled(s, a)
    requires forall c :: c in s.w.deferred || c in s.channel ==> CommandOk(c)
    ensures BatchOk(WorkApply(s, a))
  {
    match a
    case PopDeferred => ReceivingKeepsBatch(s, a);
    case Receive => ReceivingKeepsBatch(s, a);
    case GatherReceive => ReceivingKeepsBatch(s, a);
    case Collect => ReceivingKeepsBatch(s, a);
    case Sort => SortKeepsBatch(s);
    case TakeFirst => TakeFirstKeepsBatch(s);
    case Answer => AnswerKeepsBatch(s);
    case EndBatch => EndKeepsBatch(s);
    case GatherNotify => BatchingKeepsBatch(s, a);
    case CloseWindow => BatchingKeepsBatch(s, a);
    case Infer(_) => BatchingKeepsBatch(s, a);
    case _ => OtherKeepsBatch(s, a);
  }

  lemma BatchingKeepsBatch(s: State, a: WorkStep)
    requires BatchOk(s) && QueueOk(s.q) && WorkEnabled(s, a) && (a.GatherNotify? || a.CloseWindow? || a.Infer?)
    ensures BatchOk(WorkApply(s, a))
  {
  }

  lemma OtherKeepsBatch(s: State, a: WorkStep)
    requires BatchOk(s) && QueueOk(s.q) && WorkEnabled(s, a)
    requires a.NotifyFirst? || a.NoticeFailure? || a.Collected? || a.FailOne? || a.Finish? || a.Unplug? || a.WakeAll?
    ensures BatchOk(WorkApply(s, a))
  {
  }

  lemma EndKeepsBatch(s: State)
    requires BatchOk(s) && QueueOk(s.q) && WorkEnabled(s, EndBatch)
    ensures BatchOk(WorkApply(s, EndBatch))
  {
  }

  lemma SortKeepsBatch(s: State)
    requires BatchOk(s) && s.w.pc.Classify?
    ensures BatchOk(ApplySort(s))
  {
  }

  lemma TakeFirstKeepsBatch(s: State)
    requires BatchOk(s) && s.w.pc.Hand?
    ensures BatchOk(ApplyTakeFirst(s))
  {
  }

  lemma AnswerKeepsBatch(s: State)
    requires BatchOk(s) && s.w.pc.Reply? && s.w.pc.k < |s.w.batch|
    ensures BatchOk(s.(w := ApplyAnswer(s.w, s.closed)))
  {
  }

  // ---------------------------------------------------------------------------------- batches against the queue

  ghost function Flatten(batches: seq<seq<Command>>): seq<Command> {
    if batches == [] then [] else Flatten(batches[..|batches| - 1]) + batches[|batches| - 1]
  }

  /** The commands that went into batches, in queue order. */
  ghost function BatchedOf(taken: seq<Taken>): seq<Command> {
    if taken == [] then []
    else
      var front, last := BatchedOf(taken[..|taken| - 1]), taken[|taken| - 1];
      if last.fate.Batched? then front + [last.command] else front
  }

  /** The batches, one after another, are the queue without skipped and drained commands. */
  ghost predicate BatchesOk(s: State) {
    Flatten(s.w.batches) + s.w.batch == BatchedOf(s.w.taken)
  }

  /** How a step may touch batches: not at all, one more job, or one finished batch. */
  ghost predicate BatchesMove(w: Worker, v: Worker) {
    || (v.batches == w.batches && v.batch == w.batch
        && (v.taken == w.taken || exists c, fate: Fate :: !fate.Batched? && v.taken == w.taken + [Taken(c, fate)]))
    || (v.batches == w.batches && exists c :: v.batch == w.batch + [c] && v.taken == w.taken + [Taken(c, Batched)])
    || (v.batches == w.batches + [w.batch] && v.batch == [] && v.taken == w.taken)
  }

  lemma MoveKeepsBatches(batches: seq<seq<Command>>, batch: seq<Command>, taken: seq<Taken>, c: Command, fate: Fate)
    ensures Flatten(batches + [batch]) + [] == Flatten(batches) + batch
    ensures BatchedOf(taken + [Taken(c, fate)]) == if fate.Batched? then BatchedOf(taken) + [c] else BatchedOf(taken)
  {
    assert (batches + [batch])[..|batches|] == batches;
    assert (taken + [Taken(c, fate)])[..|taken|] == taken;
  }

  lemma MovesKeepBatches(s: State, t: State)
    requires BatchesOk(s) && BatchesMove(s.w, t.w)
    ensures BatchesOk(t)
  {
    var w, v := s.w, t.w;
    if v.taken == w.taken {
      MoveKeepsBatches(w.batches, w.batch, [], Shutdown(0), Drained);
    } else {
      var last := v.taken[|w.taken|];
      MoveKeepsBatches([], [], w.taken, last.command, last.fate);
    }
  }

  lemma TakeFirstMoves(s: State)
    requires BatchOk(s) && s.w.pc.Hand?
    ensures BatchesMove(s.w, ApplyTakeFirst(s).w)
  {
    var w, v := s.w, ApplyTakeFirst(s).w;
    assert v.taken == w.taken + [Taken(w.pc.c, v.taken[|w.taken|].fate)];
  }

  lemma SortMoves(s: State)
    requires BatchOk(s) && s.w.pc.Classify?
    ensures BatchesMove(s.w, ApplySort(s).w)
  {
    var w, v := s.w, ApplySort(s).w;
    if v.pc.Gather? { assert v.taken == w.taken + [Taken(w.pc.c, v.taken[|w.taken|].fate)]; }
  }

  lemma FailOneMoves(s: State)
    requires s.w.deferred != []
    ensures BatchesMove(s.w, ApplyFailOne(s).w)
  {
    assert ApplyFailOne(s).w.taken == s.w.taken + [Taken(s.w.deferred[0], Drained)];
  }

  lemma WorkMovesBatches(s: State, a: WorkStep)
    requires BatchOk(s) && QueueOk(s.q) && WorkEnabled(s, a)
    ensures BatchesMove(s.w, WorkApply(s, a).w)
  {
    match a
    case TakeFirst => TakeFirstMoves(s);
    case Sort => SortMoves(s);
    case FailOne => FailOneMoves(s);
    case EndBatch =>
    case _ => assert WorkApply(s, a).w.taken == s.w.taken;
  }

  lemma StepKeepsBatches(s: State, step: Step)
    requires BatchesOk(s) && BatchOk(s) && QueueOk(s.q) && Enabled(s, step)
    ensures BatchesOk(Apply(s, step))
  {
    match step
    case Work(b) => WorkMovesBatches(s, b); MovesKeepBatches(s, WorkApply(s, b));
    case _ =>
  }

  // ---------------------------------------------------------------------------------- the order of fates

  predicate Final(fate: Fate) {
    fate.Stopping? || fate.Drained?
  }

  predicate FateOk(t: Taken) {
    match t.fate
    case Skipped => t.command.Translate?
    case Batched => t.command.Translate?
    case Stopping => t.command.Shutdown?
    case Drained => true
  }

  /** Behind the command that stopped the worker, everything is drained. */
  ghost predicate FatesOk(taken: seq<Taken>) {
    && (forall i :: 0 <= i < |taken| ==> FateOk(taken[i]))
    && (forall i, j :: 0 <= i < j < |taken| && Final(taken[i].fate) ==> taken[j].fate.Drained?)
  }

  ghost predicate Stopped(taken: seq<Taken>) {
    exists i :: 0 <= i < |taken| && taken[i].fate.Stopping?
  }

  /** Nothing is drained while the worker loops, and a ready backend leaves the loop only at a shutdown. */
  ghost predicate EndOk(s: State) {
    && FatesOk(s.w.taken)
    && (Looping(s.w.pc) ==> forall i :: 0 <= i < |s.w.taken| ==> !Final(s.w.taken[i].fate))
    && (!Looping(s.w.pc) && s.ready ==> Stopped(s.w.taken))
    && (!Looping(s.w.pc) && !Stopped(s.w.taken) ==> s.stopped)
    && (s.w.pc.Reply? && s.w.pc.terminal ==> s.stopped && !s.ready)
  }

  lemma TakeKeepsFates(taken: seq<Taken>, t: Taken)
    requires FatesOk(taken) && FateOk(t)
    requires t.fate.Drained? || forall i :: 0 <= i < |taken| ==> !Final(taken[i].fate)
    ensures FatesOk(taken + [t])
    ensures t.fate.Stopping? ==> Stopped(taken + [t])
    ensures Stopped(taken) ==> Stopped(taken + [t])
    ensures t.fate.Drained? && Stopped(taken + [t]) ==> Stopped(taken)
  {
    var all := taken + [t];
    if t.fate.Stopping? { assert all[|taken|].fate.Stopping?; }
    if Stopped(taken) {
      var i :| 0 <= i < |taken| && taken[i].fate.Stopping?;
      assert all[i].fate.Stopping?;
    }
  }

  lemma TakeFirstKeepsEnd(s: State)
    requires EndOk(s) && s.w.pc.Hand?
    ensures EndOk(ApplyTakeFirst(s))
  {
    TakeKeepsFates(s.w.taken, ApplyTakeFirst(s).w.taken[|s.w.taken|]);
  }

  lemma SortKeepsEnd(s: State)
    requires EndOk(s) && s.w.pc.Classify?
    ensures EndOk(ApplySort(s))
  {
    var v := ApplySort(s).w;
    if v.pc.Gather? { TakeKeepsFates(s.w.taken, v.taken[|s.w.taken|]); }
  }

  lemma FailOneKeepsEnd(s: State)
    requires EndOk(s) && s.w.pc.Failing? && s.w.deferred != []
    ensures EndOk(ApplyFailOne(s))
  {
    TakeKeepsFates(s.w.taken, Taken(s.w.deferred[0], Drained));
  }

  lemma WorkKeepsEnd(s: State, a: WorkStep)
    requires EndOk(s) && QueueOk(s.q) && WorkEnabled(s, a)
    ensures EndOk(WorkApply(s, a))
  {
    match a
    case TakeFirst => TakeFirstKeepsEnd(s);
    case Sort => SortKeepsEnd(s);
    case FailOne => FailOneKeepsEnd(s);
    case _ => assert WorkApply(s, a).w.taken == s.w.taken;
  }

  lemma StepKeepsEnd(s: State, step: Step)
    requires EndOk(s) && QueueOk(s.q) && Enabled(s, step)
    ensures EndOk(Apply(s, step))
  {
    match step
    case Work(b) => WorkKeepsEnd(s, b);
    case _ =>
  }

  // ---------------------------------------------------------------------------------- answers

  /** A completion is counted before it is delivered, a failure after it. */
  function CountedEarly(pc: Pc): int {
    if pc.Reply? && pc.stage.Counted? then 1 else 0
  }

  function CountedLate(pc: Pc): int {
    if pc.Reply? && pc.stage.Answered? then 1 else 0
  }

  /** Completed counts the deliveries, failed the refusals, and in-flight the batch being run. */
  ghost predicate CountersOk(s: State) {
    && s.w.completed == |s.w.delivered| + CountedEarly(s.w.pc) && s.w.failed == |s.w.refused| - CountedLate(s.w.pc)
    && s.w.inFlight == (if s.w.pc.Run? || s.w.pc.Reply? then |s.w.batch| else 0)
  }

  lemma AnswerKeepsCounters(s: State)
    requires CountersOk(s) && BatchOk(s) && s.w.pc.Reply? && s.w.pc.k < |s.w.batch|
    ensures CountersOk(s.(w := ApplyAnswer(s.w, s.closed)))
  {
  }

  lemma TakeFirstKeepsCounters(s: State)
    requires CountersOk(s) && s.w.pc.Hand?
    ensures CountersOk(ApplyTakeFirst(s))
  {
  }

  lemma SortKeepsCounters(s: State)
    requires CountersOk(s) && s.w.pc.Classify?
    ensures CountersOk(ApplySort(s))
  {
  }

  lemma FailOneKeepsCounters(s: State)
    requires CountersOk(s) && s.w.pc.Failing? && s.w.deferred != []
    ensures CountersOk(ApplyFailOne(s))
  {
  }

  lemma WorkKeepsCounters(s: State, a: WorkStep)
    requires CountersOk(s) && BatchOk(s) && QueueOk(s.q) && WorkEnabled(s, a)
    ensures CountersOk(WorkApply(s, a))
  {
    match a
    case Answer => AnswerKeepsCounters(s);
    case TakeFirst => TakeFirstKeepsCounters(s);
    case Sort => SortKeepsCounters(s);
    case FailOne => FailOneKeepsCounters(s);
    case _ =>
  }

  lemma StepKeepsCounters(s: State, step: Step)
    requires CountersOk(s) && BatchOk(s) && QueueOk(s.q) && Enabled(s, step)
    ensures CountersOk(Apply(s, step))
  {
    match step
    case Work(b) => WorkKeepsCounters(s, b);
    case _ =>
  }

  type Division = (seq<Command>, seq<Command>, seq<Command>) -> bool

  /** Each answer is in one of the two lists: an output, or a refusal. */
  ghost function Divided(): Division {
    (answers: seq<Command>, delivered: seq<Command>, refused: seq<Command>) =>
      multiset(answers) == multiset(delivered) + multiset(refused)
  }

  ghost predicate DividedOk(s: State) {
    Divided()(s.w.answers, s.w.delivered, s.w.refused)
  }

  /** Adding one answer to one of the lists keeps the division. */
  ghost predicate Grows(divided: Division) {
    forall a, d, r, c: Command {:trigger divided(a + [c], d + [c], r)} {:trigger divided(a + [c], d, r + [c])} ::
      divided(a, d, r) ==> divided(a + [c], d + [c], r) && divided(a + [c], d, r + [c])
  }

  lemma DividedGrows()
    ensures Grows(Divided()) && Divided()([], [], [])
  {
  }

  lemma AnswerKeepsDivided(divided: Division, w: Worker, closed: set<nat>)
    requires Grows(divided) && divided(w.answers, w.delivered, w.refused) && w.pc.Reply? && w.pc.k < |w.batch|
    ensures var v := ApplyAnswer(w, closed); divided(v.answers, v.delivered, v.refused)
  {
  }

  lemma FailOneKeepsDivided(divided: Division, s: State)
    requires Grows(divided) && divided(s.w.answers, s.w.delivered, s.w.refused) && s.w.deferred != []
    ensures var v := ApplyFailOne(s).w; divided(v.answers, v.delivered, v.refused)
  {
  }

  ghost predicate SameAnswers(v: Worker, w: Worker) {
    v.answers == w.answers && v.delivered == w.delivered && v.outputs == w.outputs && v.refused == w.refused
  }

  lemma TakingAnswersNobody(s: State, a: WorkStep)
    requires QueueOk(s.q) && WorkEnabled(s, a) && (a.TakeFirst? || a.Sort?)
    ensures SameAnswers(WorkApply(s, a).w, s.w)
  {
  }

  lemma MovingAnswersNobody(s: State, a: WorkStep)
    requires QueueOk(s.q) && WorkEnabled(s, a)
    requires a.PopDeferred? || a.Receive? || a.GatherReceive? || a.Collect? || a.TakeFirst? || a.Sort?
    ensures SameAnswers(WorkApply(s, a).w, s.w)
  {
    if a.TakeFirst? || a.Sort? { TakingAnswersNobody(s, a); }
  }

  lemma OthersAnswerNobody(s: State, a: WorkStep)
    requires QueueOk(s.q) && WorkEnabled(s, a) && !a.Answer? && !a.FailOne?
    ensures SameAnswers(WorkApply(s, a).w, s.w)
  {
    if Passing(a) {
      PassingParts(s, a);
    } else if a.PopDeferred? || a.Receive? || a.GatherReceive? || a.Collect? || a.TakeFirst? || a.Sort? {
      MovingAnswersNobody(s, a);
    }
  }

  lemma StepKeepsDivided(s: State, step: Step)
    requires DividedOk(s) && QueueOk(s.q) && Enabled(s, step)
    ensures DividedOk(Apply(s, step))
  {
    DividedGrows();
    if step.Work? {
      if step.b.Answer? {
        AnswerKeepsDivided(Divided(), s.w, s.closed);
      } else if step.b.FailOne? {
        FailOneKeepsDivided(Divided(), s);
      } else {
        OthersAnswerNobody(s, step.b);
      }
    }
  }

  /** Every delivered job was handed one output; a batch that succeeded has one for each of its jobs. */
  ghost predicate OutputsOk(w: Worker) {
    |w.outputs| == |w.delivered| && (w.pc.Reply? && w.pc.ok ==> |w.given| == |w.batch|)
  }

  /** Answering leaves the outcome of the batch alone, and hands job `k` the `k`-th output if anything. */
  lemma AnswerHandsItsOwn(w: Worker, closed: set<nat>)
    requires w.pc.Reply? && w.pc.k < |w.batch|
    ensures var v := ApplyAnswer(w, closed);
            && v.pc.Reply? && v.pc.ok == w.pc.ok && v.batch == w.batch && v.given == w.given
            && ((v.delivered == w.delivered && v.outputs == w.outputs)
                || (w.pc.ok && v.delivered == w.delivered + [w.batch[w.pc.k]] && v.outputs == w.outputs + [OutputAt(w.given, w.pc.k)]))
  {
  }

  lemma OthersReplyNothing(s: State, a: WorkStep)
    requires QueueOk(s.q) && WorkEnabled(s, a) && !a.Infer? && !a.Answer?
    ensures !WorkApply(s, a).w.pc.Reply? && WorkApply(s, a).w.outputs == s.w.outputs && WorkApply(s, a).w.delivered == s.w.delivered
  {
    if a.FailOne? {
    } else {
      OthersAnswerNobody(s, a);
      if Passing(a) { PassingParts(s, a); }
    }
  }

  lemma StepKeepsOutputs(s: State, step: Step)
    requires OutputsOk(s.w) && QueueOk(s.q) && Enabled(s, step)
    ensures OutputsOk(Apply(s, step).w)
  {
    if step.Work? {
      if step.b.Answer? {
        AnswerHandsItsOwn(s.w, s.closed);
      } else if !step.b.Infer? {
        OthersReplyNothing(s, step.b);
      }
    }
  }

  /** Jobs of the batch that have been dealt with. */
  function DoneOf(w: Worker): nat {
    if w.pc.Reply? then Min(w.pc.k + (if w.pc.stage.Answered? then 1 else 0), |w.batch|) else 0
  }

  /** The job has its output, or its refusal, unless its receiver is closed. */
  ghost predicate Settled(s: State, job: Command, ok: bool) {
    job in (if ok then s.w.delivered else s.w.refused) || job.id in s.closed
  }

  /** Every finished job is answered as its batch went, every drained one refused, unless its receiver is closed. */
  ghost predicate SettledOk(s: State) {
    && |s.w.results| == |s.w.batches|
    && (forall b, i :: 0 <= b < |s.w.batches| && 0 <= i < |s.w.batches[b]| ==> Settled(s, s.w.batches[b][i], s.w.results[b]))
    && (s.w.pc.Reply? ==> forall i :: 0 <= i < DoneOf(s.w) ==> Settled(s, s.w.batch[i], s.w.pc.ok))
    && (forall i :: 0 <= i < |s.w.taken| && s.w.taken[i].fate.Skipped? ==> s.w.taken[i].command.id in s.closed)
    && (forall i :: 0 <= i < |s.w.taken| && s.w.taken[i].fate.Drained? && s.w.taken[i].command.Translate? ==>
          Settled(s, s.w.taken[i].command, false))
  }

  lemma AnswerKeepsSettled(s: State)
    requires SettledOk(s) && BatchOk(s) && s.w.pc.Reply? && s.w.pc.k < |s.w.batch|
    ensures SettledOk(s.(w := ApplyAnswer(s.w, s.closed)))
  {
    var t := s.(w := ApplyAnswer(s.w, s.closed));
    AnswersGrow(s, t);
    forall i | 0 <= i < DoneOf(t.w) ensures Settled(t, t.w.batch[i], t.w.pc.ok) {
      if i < DoneOf(s.w) {
        assert Settled(s, s.w.batch[i], s.w.pc.ok);
      } else {
        assert i == s.w.pc.k;
      }
    }
  }

  /** What is settled stays settled. */
  lemma AnswersGrow(s: State, t: State)
    requires s.closed <= t.closed && s.w.delivered <= t.w.delivered && s.w.refused <= t.w.refused
    ensures forall job, ok :: Settled(s, job, ok) ==> Settled(t, job, ok)
  {
  }

  lemma TakeFirstKeepsSettled(s: State)
    requires SettledOk(s) && BatchOk(s) && s.w.pc.Hand?
    ensures SettledOk(ApplyTakeFirst(s))
  {
  }

  lemma SortKeepsSettled(s: State)
    requires SettledOk(s) && BatchOk(s) && s.w.pc.Classify?
    ensures SettledOk(ApplySort(s))
  {
    var t := ApplySort(s);
    if t.w.taken == s.w.taken {
      SameSettled(s, t);
    } else {
      TakenSettled(s, t, t.w.taken[|s.w.taken|]);
    }
  }

  /** A command taken into a batch, or skipped because its receiver is closed. */
  lemma TakenSettled(s: State, t: State, taken: Taken)
    requires SettledOk(s) && t.closed == s.closed && t.w.delivered == s.w.delivered && t.w.refused == s.w.refused
    requires t.w.taken == s.w.taken + [taken] && t.w.batches == s.w.batches && t.w.results == s.w.results && !t.w.pc.Reply?
    requires !taken.fate.Drained? && (taken.fate.Skipped? ==> taken.command.id in s.closed)
    ensures SettledOk(t)
  {
    AnswersGrow(s, t);
  }

  lemma FailOneKeepsSettled(s: State)
    requires SettledOk(s) && BatchOk(s) && s.w.pc.Failing? && s.w.deferred != []
    ensures SettledOk(ApplyFailOne(s))
  {
    AnswersGrow(s, ApplyFailOne(s));
  }

  lemma EndKeepsSettled(s: State)
    requires SettledOk(s) && BatchOk(s) && QueueOk(s.q) && WorkEnabled(s, EndBatch)
    ensures SettledOk(WorkApply(s, EndBatch))
  {
    AnswersGrow(s, WorkApply(s, EndBatch));
  }

  lemma WorkKeepsSettled(s: State, a: WorkStep)
    requires SettledOk(s) && BatchOk(s) && QueueOk(s.q) && WorkEnabled(s, a)
    ensures SettledOk(WorkApply(s, a))
  {
    match a
    case Answer => AnswerKeepsSettled(s);
    case TakeFirst => TakeFirstKeepsSettled(s);
    case Sort => SortKeepsSettled(s);
    case FailOne => FailOneKeepsSettled(s);
    case EndBatch => EndKeepsSettled(s);
    case _ => SameSettled(s, WorkApply(s, a));
  }

  lemma StepKeepsSettled(s: State, step: Step)
    requires SettledOk(s) && BatchOk(s) && QueueOk(s.q) && Enabled(s, step)
    ensures SettledOk(Apply(s, step))
  {
    match step
    case Work(b) => WorkKeepsSettled(s, b);
    case _ => SameSettled(s, Apply(s, step));
  }

  lemma SameSettled(s: State, t: State)
    requires SettledOk(s) && s.closed <= t.closed && t.w.delivered == s.w.delivered && t.w.refused == s.w.refused
    requires t.w.taken == s.w.taken && t.w.batches == s.w.batches && t.w.results == s.w.results
    requires DoneOf(t.w) == 0 || t.w == s.w
    ensures SettledOk(t)
  {
    AnswersGrow(s, t);
  }

  // ---------------------------------------------------------------------------------- every job is somewhere, once

  /** Answered jobs, then everything still under way: the rest of the batch, in hand, deferred, in the channel, lost. */
  ghost function Line(answers: seq<Command>, batch: seq<Command>, hand: seq<Command>, deferred: seq<Command>, channel: seq<Command>,
                      lost: seq<Command>): seq<Command>
  {
    answers + batch + hand + deferred + channel + lost
  }

  ghost function Everything(s: State): seq<Command> {
    Line(s.w.answers, s.w.batch[DoneOf(s.w)..], InHand(s.w.pc), s.w.deferred, s.channel, s.lost)
  }

  /** Nothing occurs twice among answered jobs and jobs under way, and all of it was sent. */
  ghost predicate OnceOk(s: State) {
    && (forall i :: 0 <= i < |s.q.submitters| ==> s.q.submitters[i].command.id == i)
    && (forall c :: c in Everything(s) ==> WasSent(s.q, c))
    && NoRepeats(Everything(s))
    && (forall c :: c in s.sent ==> WasSent(s.q, c))
    && NoRepeats(s.sent)
  }

  ghost predicate WasSent(q: Queue, c: Command) {
    c.id < |q.submitters| && q.submitters[c.id].phase.Sent? && q.submitters[c.id].command == c
  }

  /** At most one command leaves the line, and none changes its place. */
  ghost predicate Shrinks(before: seq<Command>, after: seq<Command>) {
    after == before || exists p :: 0 <= p < |before| && after == before[..p] + before[p + 1..]
  }

  lemma ShrinkKeeps(before: seq<Command>, after: seq<Command>)
    requires Shrinks(before, after) && NoRepeats(before)
    ensures NoRepeats(after) && forall c :: c in after ==> c in before
  {
  }

  lemma Handing(a: seq<Command>, b: seq<Command>, d: seq<Command>, c: seq<Command>, l: seq<Command>, x: Command)
    ensures Line(a, b + [x], [], d, c, l) == Line(a, b, [x], d, c, l) == Line(a, b, [], [x] + d, c, l)
    ensures Line(a, b, [x], [], c, l) == Line(a, b, [], [], [x] + c, l)
    ensures Line(a, b, [], d + [x], c, l) == Line(a, b, [], d, [x] + c, l)
    ensures Shrinks(Line(a, b, [x], d, c, l), Line(a, b, [], d, c, l))
  {
    var front := a + b;
    assert a + (b + [x]) + [] == front + [x] && front + [] + ([x] + d) == front + [x] + d;
    assert front + [x] + [] + c == front + [] + [] + ([x] + c);
    assert front + [] + (d + [x]) + c == front + [] + d + ([x] + c);
    var before, after := Line(a, b, [x], d, c, l), Line(a, b, [], d, c, l);
    assert after == before[..|front|] + before[|front| + 1..];
  }

  lemma Answering(a: seq<Command>, b: seq<Command>, h: seq<Command>, d: seq<Command>, c: seq<Command>, l: seq<Command>, x: Command)
    ensures Line(a + [x], b, h, d, c, l) == Line(a, [x] + b, h, d, c, l)
    ensures Line(a + [x], [], [], d, c, l) == Line(a, [], [], [x] + d, c, l)
    ensures Shrinks(Line(a, [x] + b, h, d, c, l), Line(a, b, h, d, c, l))
    ensures Shrinks(Line(a, [], [], [x] + d, c, l), Line(a, [], [], d, c, l))
  {
    assert a + [x] + b == a + ([x] + b);
    assert a + [x] + [] + [] + d == a + [] + [] + ([x] + d);
    var before, after := Line(a, [x] + b, h, d, c, l), Line(a, b, h, d, c, l);
    assert after == before[..|a|] + before[|a| + 1..];
    var before', after' := Line(a, [], [], [x] + d, c, l), Line(a, [], [], d, c, l);
    assert after' == before'[..|a|] + before'[|a| + 1..];
  }

  lemma PoppingShrinks(s: State)
    requires FifoOk(s) && BatchOk(s) && QueueOk(s.q) && WorkEnabled(s, PopDeferred)
    ensures Everything(WorkApply(s, PopDeferred)) == Everything(s)
  {
    var w := s.w;
    Handing(w.answers, w.batch[DoneOf(w)..], w.deferred[1..], s.channel, s.lost, w.deferred[0]);
    assert w.deferred == [w.deferred[0]] + w.deferred[1..];
  }

  lemma ReceivingShrinks(s: State, a: WorkStep)
    requires FifoOk(s) && BatchOk(s) && QueueOk(s.q) && WorkEnabled(s, a) && (a.Receive? || a.GatherReceive? || a.Collect?)
    ensures Everything(WorkApply(s, a)) == Everything(s)
  {
    var w := s.w;
    assert WorkApply(s, a).w.batch[DoneOf(WorkApply(s, a).w)..] == w.batch[DoneOf(w)..];
    Handing(w.answers, w.batch[DoneOf(w)..], w.deferred, s.channel[1..], s.lost, s.channel[0]);
    assert s.channel == [s.channel[0]] + s.channel[1..];
  }

  lemma TakeFirstShrinks(s: State)
    requires BatchOk(s) && s.w.pc.Hand?
    ensures Shrinks(Everything(s), Everything(ApplyTakeFirst(s)))
  {
    var w, v := s.w, ApplyTakeFirst(s).w;
    Handing(w.answers, [], w.deferred, s.channel, s.lost, w.pc.c);
    assert w.batch[DoneOf(w)..] == [] && v.batch[DoneOf(v)..] == if v.pc.Gather? then [] + [w.pc.c] else [];
  }

  lemma SortShrinks(s: State)
    requires BatchOk(s) && s.w.pc.Classify? && s.w.deferred == []
    ensures Shrinks(Everything(s), Everything(ApplySort(s)))
  {
    var w, v := s.w, ApplySort(s).w;
    Handing(w.answers, w.batch, [], s.channel, s.lost, w.pc.c);
    assert w.batch[DoneOf(w)..] == w.batch && v.batch[DoneOf(v)..] == v.batch;
    assert v.pc.Run? ==> v.deferred == [w.pc.c] + [];
  }

  lemma AnswerMoves(w: Worker, closed: set<nat>)
    requires w.pc.Reply? && w.pc.k < |w.batch| && (if w.pc.ok then !w.pc.stage.Answered? else !w.pc.stage.Counted?)
    ensures var v := ApplyAnswer(w, closed);
            && v.deferred == w.deferred && v.batch == w.batch && InHand(v.pc) == InHand(w.pc) == []
            && if DoneOf(v) == DoneOf(w) then v.answers == w.answers
               else DoneOf(w) == w.pc.k && DoneOf(v) == w.pc.k + 1
                    && (v.answers == w.answers || v.answers == w.answers + [w.batch[w.pc.k]])
  {
  }

  lemma AnswerLine(a: seq<Command>, a': seq<Command>, b: seq<Command>, k: nat, d: seq<Command>, c: seq<Command>, l: seq<Command>)
    requires k < |b| && (a' == a || a' == a + [b[k]])
    ensures Shrinks(Line(a, b[k..], [], d, c, l), Line(a', b[k + 1..], [], d, c, l))
  {
    assert b[k..] == [b[k]] + b[k + 1..];
    Answering(a, b[k + 1..], [], d, c, l, b[k]);
  }

  lemma AnswerShrinks(s: State)
    requires BatchOk(s) && s.w.pc.Reply? && s.w.pc.k < |s.w.batch|
    ensures Shrinks(Everything(s), Everything(s.(w := ApplyAnswer(s.w, s.closed))))
  {
    var v := ApplyAnswer(s.w, s.closed);
    AnswerMoves(s.w, s.closed);
    if DoneOf(v) > DoneOf(s.w) {
      AnswerLine(s.w.answers, v.answers, s.w.batch, s.w.pc.k, s.w.deferred, s.channel, s.lost);
    }
  }

  lemma DrainLine(a: seq<Command>, a': seq<Command>, d: seq<Command>, c: seq<Command>, l: seq<Command>)
    requires d != [] && (a' == a || a' == a + [d[0]])
    ensures Shrinks(Line(a, [], [], d, c, l), Line(a', [], [], d[1..], c, l))
  {
    assert d == [d[0]] + d[1..];
    Answering(a, [], [], d[1..], c, l, d[0]);
  }

  lemma FailOneAnswers(s: State)
    requires s.w.pc.Failing? && s.w.deferred != []
    ensures var t := ApplyFailOne(s);
            && (t.w.answers == s.w.answers || t.w.answers == s.w.answers + [s.w.deferred[0]])
            && t.w.deferred == s.w.deferred[1..] && t.channel == s.channel && t.lost == s.lost
            && t.w.batch == s.w.batch && t.w.pc == s.w.pc
  {
  }

  lemma FailOneShrinks(s: State)
    requires BatchOk(s) && s.w.pc.Failing? && s.w.deferred != []
    ensures Shrinks(Everything(s), Everything(ApplyFailOne(s)))
  {
    FailOneAnswers(s);
    var t := ApplyFailOne(s);
    DrainLine(s.w.answers, t.w.answers, s.w.deferred, s.channel, s.lost);
    assert s.w.batch[DoneOf(s.w)..] == [] == t.w.batch[DoneOf(t.w)..];
  }

  lemma QuietBatch(s: State, a: WorkStep)
    requires BatchOk(s) && QueueOk(s.q) && WorkEnabled(s, a) && Quiet(a) && !a.Answer?
    ensures WorkApply(s, a).w.answers == s.w.answers
    ensures WorkApply(s, a).w.batch[DoneOf(WorkApply(s, a).w)..] == s.w.batch[DoneOf(s.w)..]
  {
    if Passing(a) { PassingParts(s, a); }
  }

  lemma UnplugShrinks(s: State)
    requires FifoOk(s) && BatchOk(s) && QueueOk(s.q) && WorkEnabled(s, Unplug)
    ensures Everything(WorkApply(s, Unplug)) == Everything(s)
  {
    var front := Line(s.w.answers, s.w.batch[DoneOf(s.w)..], [], [], [], []);
    assert Everything(s) == front + s.channel;
  }

  lemma WorkShrinks(s: State, a: WorkStep)
    requires FifoOk(s) && BatchOk(s) && QueueOk(s.q) && WorkEnabled(s, a)
    ensures Shrinks(Everything(s), Everything(WorkApply(s, a)))
  {
    match a
    case PopDeferred => PoppingShrinks(s);
    case Receive => ReceivingShrinks(s, a);
    case GatherReceive => ReceivingShrinks(s, a);
    case Collect => ReceivingShrinks(s, a);
    case TakeFirst => TakeFirstShrinks(s);
    case Sort => SortShrinks(s);
    case Answer => AnswerShrinks(s);
    case FailOne => FailOneShrinks(s);
    case Unplug => UnplugShrinks(s);
    case _ => QuietParts(s, a); QuietBatch(s, a);
  }

  lemma WorkKeepsOnce(s: State, a: WorkStep)
    requires OnceOk(s) && FifoOk(s) && BatchOk(s) && QueueOk(s.q) && WorkEnabled(s, a)
    ensures OnceOk(WorkApply(s, a))
  {
    WorkShrinks(s, a);
    ShrinkKeeps(Everything(s), Everything(WorkApply(s, a)));
    WorkKeepsCommands(s, a);
  }

  /** A line that grew by what was newly sent. */
  lemma GrownOnce(s: State, t: State, c: Command)
    requires OnceOk(s) && QueueOk(s.q) && |t.q.submitters| == |s.q.submitters|
    requires forall k :: 0 <= k < |s.q.submitters| ==> t.q.submitters[k].command == s.q.submitters[k].command
    requires forall k :: 0 <= k < |s.q.submitters| && s.q.submitters[k].phase.Sent? ==> t.q.submitters[k].phase.Sent?
    requires (Everything(t) == Everything(s) && t.sent == s.sent)
             || (Everything(t) == Everything(s) + [c] && t.sent == s.sent + [c] && !WasSent(s.q, c) && WasSent(t.q, c))
    ensures OnceOk(t)
  {
    forall x | x in Everything(t) || x in t.sent ensures WasSent(t.q, x) {
      if x in Everything(s) || x in s.sent { assert WasSent(s.q, x); }
    }
  }

  lemma SendKeepsOnce(s: State, i: nat)
    requires OnceOk(s) && FifoOk(s) && QueueOk(s.q) && SubmitEnabled(s, i, SendOk)
    ensures OnceOk(SubmitApply(s, i, SendOk))
  {
    var t, c := SubmitApply(s, i, SendOk), s.q.submitters[i].command;
    SubmitKeepsCommands(s, i, SendOk);
    DropKeepsCommands(s.q, i, Sent);
    assert Everything(t) == Everything(s) + [c];
    GrownOnce(s, t, c);
  }

  lemma SubmitKeepsOnce(s: State, i: nat, a: SubmitStep)
    requires OnceOk(s) && FifoOk(s) && QueueOk(s.q) && SubmitEnabled(s, i, a)
    ensures OnceOk(SubmitApply(s, i, a))
  {
    if a.SendOk? {
      SendKeepsOnce(s, i);
    } else {
      SubmitKeepsCommands(s, i, a);
      assert Everything(SubmitApply(s, i, a)) == Everything(s);
      GrownOnce(s, SubmitApply(s, i, a), s.q.submitters[i].command);
    }
  }

  lemma StepKeepsOnce(s: State, step: Step)
    requires OnceOk(s) && FifoOk(s) && BatchOk(s) && QueueOk(s.q) && Enabled(s, step)
    ensures OnceOk(Apply(s, step))
  {
    match step
    case Work(b) => WorkKeepsOnce(s, b);
    case Submit(i, a) => SubmitKeepsOnce(s, i, a);
    case Arrive(key) => ArriveKeepsOnce(s, key);
    case _ => assert Everything(Apply(s, step)) == Everything(s);
  }

  lemma ArriveKeepsOnce(s: State, key: Option<Key>)
    requires OnceOk(s)
    ensures OnceOk(ApplyArrive(s, key))
  {
    var t := ApplyArrive(s, key);
    assert Everything(t) == Everything(s);
    forall x | x in Everything(t) || x in t.sent ensures WasSent(t.q, x) { assert WasSent(s.q, x); }
  }

  // ---------------------------------------------------------------------------------- every run

  ghost predicate Inv(s: State) {
    && WakeupsOk(s) && FifoOk(s) && DepthOk(s) && KeysOk(s) && BatchOk(s) && BatchesOk(s) && EndOk(s) && CountersOk(s)
    && DividedOk(s) && OutputsOk(s.w) && SettledOk(s) && OnceOk(s)
  }

  lemma KeysInQueue(s: State)
    requires FifoOk(s) && KeysOk(s)
    ensures forall c :: c in s.w.deferred || c in s.channel ==> CommandOk(c)
  {
    HandIsSent(s);
  }

  lemma StepKeepsInv(s: State, step: Step)
    requires Inv(s) && Enabled(s, step)
    ensures Inv(Apply(s, step))
  {
    KeysInQueue(s);
    StepKeepsWakeups(s, step);
    StepKeepsFifo(s, step);
    StepKeepsDepth(s, step);
    StepKeepsKeys(s, step);
    StepKeepsBatch(s, step);
    StepKeepsBatches(s, step);
    StepKeepsEnd(s, step);
    StepKeepsCounters(s, step);
    StepKeepsDivided(s, step);
    StepKeepsOutputs(s, step);
    StepKeepsSettled(s, step);
    StepKeepsOnce(s, step);
  }

  lemma InitialQueue(config: Config)
    requires config.Valid()
    ensures WakeupsOk(Initial(config)) && FifoOk(Initial(config)) && OnceOk(Initial(config))
  {
  }

  lemma InitialCounts(config: Config)
    requires config.Valid()
    ensures DepthOk(Initial(config)) && CountersOk(Initial(config)) && DividedOk(Initial(config)) && SettledOk(Initial(config))
  {
    assert Waiting(Initial(config).q) == 0 && Jobs()([]) == 0;
  }

  lemma InitialInv(config: Config)
    requires config.Valid()
    ensures Inv(Initial(config))
  {
    InitialQueue(config);
    InitialCounts(config);
    assert KeysOk(Initial(config)) && BatchOk(Initial(config)) && BatchesOk(Initial(config)) && EndOk(Initial(config));
  }

  /** One step of the system; `QueueOk` holds in every reachable state, so it excludes no run. */
  ghost predicate Next(s: State, t: State) {
    QueueOk(s.q) && exists step :: Enabled(s, step) && t == Apply(s, step)
  }

  ghost predicate IsRun(config: Config, trace: seq<State>) {
    && trace != [] && trace[0] == Initial(config)
    && forall i: nat, j: nat :: i + 1 == j < |trace| ==> Next(trace[i], trace[j])
  }

  /** Every invariant holds in every state of every run. */
  lemma {:induction false} RunsKeepInv(config: Config, trace: seq<State>, n: nat)
    requires config.Valid() && IsRun(config, trace) && n < |trace|
    ensures Inv(trace[n])
  {
    if n == 0 {
      InitialInv(config);
    } else {
      RunsKeepInv(config, trace, n - 1);
      assert Next(trace[n - 1], trace[n]);
      var step :| Enabled(trace[n - 1], step) && trace[n] == Apply(trace[n - 1], step);
      StepKeepsInv(trace[n - 1], step);
    }
  }

  // ---------------------------------------------------------------------------------- what that means

  /** Every sent command is in exactly one place. */
  lemma EveryCommandInOnePlace(s: State)
    requires Inv(s)
    ensures NoRepeats(Commands(s.w.taken) + InHand(s.w.pc) + s.w.deferred + s.channel + s.lost)
    ensures forall c :: c in s.sent <==>
              c in Commands(s.w.taken) || c in InHand(s.w.pc) || c in s.w.deferred || c in s.channel || c in s.lost
  {
    var front := Commands(s.w.taken) + InHand(s.w.pc);
    assert front + s.w.deferred + s.channel + s.lost == s.sent;
  }

  /**
   Batches follow the channel: one after another they are the sent jobs in order, less those whose receiver was
   closed (and, once the loop has ended, those drained); each has one key and stays within its bounds.
   */
  lemma BatchesFollowTheChannel(s: State)
    requires Inv(s)
    ensures Commands(s.w.taken) <= s.sent && Flatten(s.w.batches) + s.w.batch == BatchedOf(s.w.taken)
    ensures forall i :: 0 <= i < |s.w.taken| && s.w.taken[i].command.Translate? && (Looping(s.w.pc) || s.w.taken[i].fate.Skipped?)
              ==> s.w.taken[i].fate.Batched? || s.w.taken[i].command.id in s.closed
    ensures forall b :: 0 <= b < |s.w.batches| ==>
              && OneKey(s.config, s.w.batches[b]) && |s.w.batches[b]| <= s.config.maxBatchSize
              && |s.w.batches[b]| * s.w.batches[b][0].key.bucket <= Max(s.config.maxPaddedSourceChars, s.w.batches[b][0].key.bucket)
  {
    var rest := InHand(s.w.pc) + s.w.deferred + s.channel + s.lost;
    assert Commands(s.w.taken) + rest == s.sent;
    forall i | 0 <= i < |s.w.taken| && s.w.taken[i].command.Translate? && (Looping(s.w.pc) || s.w.taken[i].fate.Skipped?)
      ensures s.w.taken[i].fate.Batched? || s.w.taken[i].command.id in s.closed
    {
      assert FateOk(s.w.taken[i]);
    }
    forall b | 0 <= b < |s.w.batches|
      ensures |s.w.batches[b]| <= s.config.maxBatchSize
      ensures |s.w.batches[b]| * s.w.batches[b][0].key.bucket <= Max(s.config.maxPaddedSourceChars, s.w.batches[b][0].key.bucket)
    {
      BatchIsBounded(s.config, s.w.batches[b]);
    }
  }

  lemma {:induction false} FlattenMember(batches: seq<seq<Command>>, c: Command) returns (b: nat, i: nat)
    requires c in Flatten(batches)
    ensures b < |batches| && i < |batches[b]| && batches[b][i] == c
  {
    var last := |batches| - 1;
    if c in batches[last] {
      b := last;
      i :| i < |batches[last]| && batches[last][i] == c;
    } else {
      b, i := FlattenMember(batches[..last], c);
    }
  }

  lemma {:induction false} BatchedMember(taken: seq<Taken>, i: nat)
    requires i < |taken| && taken[i].fate.Batched?
    ensures taken[i].command in BatchedOf(taken)
  {
    var last := |taken| - 1;
    if i < last { BatchedMember(taken[..last], i); }
  }

  /** A job of a batch is answered as its batch went, a drained one is refused, a skipped one has no receiver. */
  ghost predicate SettledAsFated(s: State, t: Taken) {
    match t.fate
    case Batched =>
      exists b :: 0 <= b < |s.w.batches| == |s.w.results| && t.command in s.w.batches[b] && Settled(s, t.command, s.w.results[b])
    case Drained => Settled(s, t.command, false)
    case _ => t.command.id in s.closed
  }

  /** Nobody gets both an output and a refusal. */
  lemma AnsweredOneWay(s: State, job: Command)
    requires Inv(s) && job in s.w.delivered
    ensures job !in s.w.refused
  {
    assert forall i :: 0 <= i < |s.w.answers| ==> Everything(s)[i] == s.w.answers[i];
    AtMostOnce(s.w.answers, job);
    assert multiset(s.w.answers)[job] == multiset(s.w.delivered)[job] + multiset(s.w.refused)[job];
  }

  lemma {:induction false} AtMostOnce(commands: seq<Command>, job: Command)
    requires NoRepeats(commands)
    ensures multiset(commands)[job] <= 1
  {
    if commands != [] {
      var front, last := commands[..|commands| - 1], commands[|commands| - 1];
      AtMostOnce(front, job);
      assert commands == front + [last] && last !in front;
    }
  }

  /** Between batches, every job taken from the queue is answered, unless its receiver is closed. */
  lemma TakenIsSettled(s: State, i: nat)
    requires Inv(s) && !InBatch(s.w.pc) && i < |s.w.taken| && s.w.taken[i].command.Translate?
    ensures SettledAsFated(s, s.w.taken[i])
  {
    var t := s.w.taken[i];
    assert FateOk(t);
    if t.fate.Batched? {
      BatchedMember(s.w.taken, i);
      assert Flatten(s.w.batches) + [] == Flatten(s.w.batches);
      var b, k := FlattenMember(s.w.batches, t.command);
    }
  }

  lemma NotFinalBefore(taken: seq<Taken>, i: nat, p: nat)
    requires FatesOk(taken) && i < p < |taken| && taken[p].fate.Stopping?
    ensures taken[i].fate.Batched? || taken[i].fate.Skipped?
  {
  }

  /**
   With a backend that stayed ready, the worker left at a shutdown: everything queued ahead of it went through batches
   (or had no receiver any more), everything behind it was drained, and every job has its answer.
   */
  lemma ShutdownServesWhatIsAhead(s: State) returns (p: nat)
    requires Inv(s) && s.ready && (s.w.pc.Exit? || s.w.pc.Unplugged? || s.w.pc.Gone?)
    ensures p < |s.w.taken| && s.w.taken[p].fate.Stopping? && s.w.taken[p].command.Shutdown?
    ensures forall i :: 0 <= i < p ==> s.w.taken[i].fate.Batched? || s.w.taken[i].fate.Skipped?
    ensures forall i :: p < i < |s.w.taken| ==> s.w.taken[i].fate.Drained?
    ensures forall i :: 0 <= i < |s.w.taken| && s.w.taken[i].command.Translate? ==> SettledAsFated(s, s.w.taken[i])
    ensures Commands(s.w.taken) + s.channel + s.lost == s.sent
  {
    p :| p < |s.w.taken| && s.w.taken[p].fate.Stopping?;
    assert FateOk(s.w.taken[p]);
    forall i | 0 <= i < p ensures s.w.taken[i].fate.Batched? || s.w.taken[i].fate.Skipped? {
      NotFinalBefore(s.w.taken, i, p);
    }
    forall i | 0 <= i < |s.w.taken| && s.w.taken[i].command.Translate? ensures SettledAsFated(s, s.w.taken[i]) {
      TakenIsSettled(s, i);
    }
    assert Commands(s.w.taken) + [] + [] == Commands(s.w.taken);
  }

  /** Nobody is left waiting for a wakeup once the worker is gone. */
  lemma NobodyStuckAtTheEnd(s: State, i: nat)
    requires Inv(s) && s.w.pc.Gone? && i < |s.q.submitters|
    ensures !Stuck(s.q.submitters[i])
  {
  }

  /** At rest the gauges agree with what happened. */
  lemma GaugesAtRest(s: State)
    requires Inv(s) && s.w.pc.Idle?
    ensures s.w.inFlight == 0 && s.w.completed == |s.w.delivered| && s.w.failed == |s.w.refused| && s.depth >= 0
    ensures s.w.completed + s.w.failed == |s.w.answers|
    ensures s.depth == Waiting(s.q) + Jobs()(s.w.deferred) + Jobs()(s.channel)
    ensures |s.w.deferred| <= 1 && NoRepeats(s.w.answers)
  {
    DepthIsNatural(s);
    JobsOf(Shutdown(0), []);
    assert |multiset(s.w.answers)| == |multiset(s.w.delivered)| + |multiset(s.w.refused)|;
    var rest := s.w.batch[DoneOf(s.w)..] + InHand(s.w.pc) + s.w.deferred + s.channel + s.lost;
    assert forall i :: 0 <= i < |s.w.answers| ==> Everything(s)[i] == s.w.answers[i];
  }
}
