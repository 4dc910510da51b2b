/** Safety, shutdown and drain of the worker, over whole runs. */
module WorkerTheorems {
  import opened Backoff
  import opened Worker
  import opened WorkerInvariant

  ghost predicate Reachable(c: Config, s: State) {
    c.Valid() && exists run :: CanRun(c, Init(), run) && After(c, Init(), run) == s
  }

  lemma ReachableInv(c: Config, s: State)
    requires Reachable(c, s)
    ensures Inv(c, s)
  {
    var run :| CanRun(c, Init(), run) && After(c, Init(), run) == s;
    InitInv(c);
    RunInv(c, Init(), run);
  }

  // --- Conservation and truthful reports ---

  predicate InBatch(s: State, d: Delivery) {
    d in CurrentBatch(s.pipe.ackLoop)
  }

  /** Exactly one of: a live task, the channel, the current batch, ended. */
  predicate InOnePhase(s: State, d: Delivery) {
    ExactlyOne([Live(s.jobs, d), d in s.pipe.channel, InBatch(s, d), d in s.jobs.fates])
  }

  predicate ExactlyOne(places: seq<bool>) {
    && (exists i :: 0 <= i < |places| && places[i])
    && (forall i, j :: 0 <= i < |places| && 0 <= j < |places| && places[i] && places[j] ==> i == j)
  }

  lemma OneOfFour(a: bool, b: bool, c: bool, e: bool)
    requires (if a then 1 else 0) + (if b then 1 else 0) + (if c then 1 else 0) + (if e then 1 else 0) == 1
    ensures ExactlyOne([a, b, c, e])
  {
    var places := [a, b, c, e];
    assert places[if a then 0 else if b then 1 else if c then 2 else 3];
  }

  lemma JobConservation(c: Config, s: State, d: Delivery)
    requires Reachable(c, s)
    ensures d < |s.jobs.ids| ==> InOnePhase(s, d)
    ensures d >= |s.jobs.ids| ==> !Live(s.jobs, d) && d !in s.pipe.channel && !InBatch(s, d) && d !in s.jobs.fates
  {
    ReachableInv(c, s);
    assert Places(s.jobs, s.pipe, d) == Pulled(s.jobs, d);
    CountIn(s.pipe.channel, d);
    CountIn(CurrentBatch(s.pipe.ackLoop), d);
    if d < |s.jobs.ids| {
      OneOfFour(Live(s.jobs, d), d in s.pipe.channel, InBatch(s, d), d in s.jobs.fates);
    }
  }

  /** Deliveries named in a bulk ack returned Ok, those named in a failure report
      returned Err, so no delivery is ever in both. */
  lemma TruthfulReports(c: Config, s: State, i: nat, d: Delivery)
    requires Reachable(c, s)
    ensures i < |s.pipe.requests| && d in s.pipe.requests[i] ==> Did(s.jobs, d, Ok) && d !in s.jobs.reports
    ensures d in s.jobs.reports ==> Did(s.jobs, d, Err)
  {
    ReachableInv(c, s);
    if i < |s.pipe.requests| {
      assert AllDid(s.jobs, s.pipe.requests[i], Ok);
    }
    assert AllDid(s.jobs, s.jobs.reports, Err);
  }

  /** A delivery whose outcome never reached the server panicked, met a final 4xx,
      or was cut off by the deadline. */
  lemma WhyUnreported(c: Config, s: State, d: Delivery)
    requires Reachable(c, s) && d in s.jobs.fates && !s.jobs.fates[d].Acked? && !s.jobs.fates[d].Reported?
    ensures var f := s.jobs.fates[d];
            || f == Panicked
            || ((f.AckRejected? || f.ReportRejected?) && IsClientError(f.reply))
            || (f == Aborted && s.main.phase.Returned? && s.main.phase.timedOut)
  {
    ReachableInv(c, s);
    assert FateTruthful(s.jobs, d, s.jobs.fates[d], TimedOut(s.main.phase));
  }

  // --- The ack pipeline ---

  /** No delivery is sent twice; batches in order, each resent unchanged, are the sends. */
  lemma AckOrder(c: Config, s: State)
    requires Reachable(c, s)
    ensures Flatten(s.pipe.batches) + CurrentBatch(s.pipe.ackLoop) + s.pipe.channel == s.pipe.sends
    ensures forall i :: 0 <= i < |s.pipe.batches| ==> s.pipe.batches[i] != []
    ensures Replays(s.pipe.requests, SentBatches(s.pipe))
    ensures forall d: Delivery :: Count(s.pipe.sends, d) <= 1
  {
    ReachableInv(c, s);
    forall d: Delivery ensures Count(s.pipe.sends, d) <= 1 {
      var current := CurrentBatch(s.pipe.ackLoop);
      CountAppend(Flatten(s.pipe.batches) + current, s.pipe.channel, d);
      CountAppend(Flatten(s.pipe.batches), current, d);
      assert Count(Flatten(s.pipe.batches), d) == if ByBatch(s.jobs, d) then 1 else 0;
      assert Places(s.jobs, s.pipe, d) == Pulled(s.jobs, d);
    }
  }

  /** Any two members of a finished batch have the same fate: acked, or rejected, by the
      same reply. */
  lemma BatchFate(c: Config, s: State, i: nat, d: Delivery, e: Delivery)
    requires Reachable(c, s) && i < |s.pipe.batches| && d in s.pipe.batches[i] && e in s.pipe.batches[i]
    ensures SameFate(s.jobs, d, e) && (s.jobs.fates[d].Acked? || s.jobs.fates[d].AckRejected?)
  {
    ReachableInv(c, s);
    FlattenContains(s.pipe.batches, i, d);
    CountIn(Flatten(s.pipe.batches), d);
    assert Count(Flatten(s.pipe.batches), d) == if ByBatch(s.jobs, d) then 1 else 0;
  }

  lemma {:induction false} FlattenContains(batches: seq<seq<Delivery>>, i: nat, d: Delivery)
    requires i < |batches| && d in batches[i]
    ensures d in Flatten(batches)
  {
    if i < |batches| - 1 {
      FlattenContains(batches[..|batches| - 1], i, d);
    }
  }

  // --- Concurrency and delays ---

  /** The bound holds across any number of reconnects, and counts tasks that have
      finished but are not yet joined. */
  lemma ConcurrencyBound(c: Config, s: State)
    requires Reachable(c, s)
    ensures |s.jobs.tasks| <= c.concurrency && |Unfinished(s.jobs)| <= c.concurrency
    ensures |s.pipe.channel| <= 2 * c.prefetch
  {
    ReachableInv(c, s);
    SubsetSize(Unfinished(s.jobs), s.jobs.tasks.Keys);
  }

  /** The delay of the next sleep, wherever the worker sleeps, is the closed form at
      the number of sleeps already taken since the loop began or the last connect. */
  lemma DelaysClosedForm(c: Config, s: State)
    requires Reachable(c, s)
    ensures s.main.phase.Reconnecting? ==> s.main.backoff == BackoffAt(s.main.retries)
    ensures forall d :: d in s.jobs.tasks && s.jobs.tasks[d].ReportSleep? ==> s.jobs.tasks[d].backoff == BackoffAt(s.jobs.tasks[d].retries)
    ensures s.pipe.ackLoop.AckSleep? ==> s.pipe.ackLoop.backoff == BackoffAt(s.pipe.ackLoop.retries)
  {
    ReachableInv(c, s);
    forall d | d in s.jobs.tasks && s.jobs.tasks[d].ReportSleep?
      ensures s.jobs.tasks[d].backoff == BackoffAt(s.jobs.tasks[d].retries)
    {
      assert TaskTimed(s.jobs.tasks[d]);
    }
  }

  // --- Shutdown ---

  predicate PollsShutdown(st: Step) {
    st == Dispatch(ShutdownPending) || st == Dispatch(ObserveShutdown)
  }

  predicate NeverPolls(c: Config, s: State, run: seq<Step>)
    requires CanRun(c, s, run)
    decreases |run|
  {
    run == [] || (!PollsShutdown(run[0]) && NeverPolls(c, Apply(c, s, run[0]), run[1..]))
  }

  lemma DrainStays(c: Config, s: State, st: Step)
    requires Enabled(c, s, st) && Draining(s.main.phase)
    ensures var s' := Apply(c, s, st);
            && (Draining(s'.main.phase) || s'.main.phase.Returned?)
            && s'.jobs.ids == s.jobs.ids
            && (Draining(s'.main.phase) ==> s'.main.streamOpen == s.main.streamOpen)
  {
  }

  /** Once shutdown is observed the future is never polled again and nothing is pulled. */
  lemma {:induction false} NoPollAfterDrainBegins(c: Config, s: State, run: seq<Step>)
    requires CanRun(c, s, run) && (Draining(s.main.phase) || s.main.phase.Returned?)
    ensures NeverPolls(c, s, run) && After(c, s, run).jobs.ids == s.jobs.ids
    decreases |run|
  {
    if run != [] {
      DrainStays(c, s, run[0]);
      NoPollAfterDrainBegins(c, Apply(c, s, run[0]), run[1..]);
    }
  }

  predicate Over(p: Phase) {
    Draining(p) || p.Returned?
  }

  /** Dispatcher steps a fired shutdown may still have to wait for. */
  function Delay(m: Control): nat {
    if Over(m.phase) then 0 else if m.phase.Connecting? then 1 else if m.polled then 2 else 0
  }

  function DispatchSteps(run: seq<Step>): nat {
    if run == [] then 0 else (if run[0].Dispatch? then 1 else 0) + DispatchSteps(run[1..])
  }

  lemma {:induction false} OverStays(c: Config, s: State, run: seq<Step>)
    requires CanRun(c, s, run) && Over(s.main.phase)
    ensures Over(After(c, s, run).main.phase)
    decreases |run|
  {
    if run != [] {
      DrainStays(c, s, run[0]);
      OverStays(c, Apply(c, s, run[0]), run[1..]);
    }
  }

  /** Once the future is ready the drain begins after at most two dispatcher steps, the
      other branch of a select already under way and one connect attempt, and at once if
      neither is under way. */
  lemma {:induction false} ShutdownWins(c: Config, s: State, run: seq<Step>)
    requires Structured(s) && CanRun(c, s, run) && s.main.shutdownFired
    ensures Over(After(c, s, run).main.phase) || DispatchSteps(run) <= Delay(s.main) <= 2
    decreases |run|
  {
    if run != [] {
      var s' := Apply(c, s, run[0]);
      StepStructured(c, s, run[0]);
      ShutdownWins(c, s', run[1..]);
      if Over(s'.main.phase) {
        OverStays(c, s', run[1..]);
      }
    }
  }

  lemma NoNewChance(c: Config, s: State, st: Step)
    requires Enabled(c, s, st) && s.main.shutdownFired && !CanPollStream(c, s)
    ensures var s' := Apply(c, s, st);
            s'.main.shutdownFired && !CanPollStream(c, s') && s'.jobs.ids == s.jobs.ids
  {
    if st.Handle? {
      assert Apply(c, s, st).jobs.tasks.Keys == s.jobs.tasks.Keys;
    }
  }

  lemma {:induction false} NothingPulled(c: Config, s: State, run: seq<Step>)
    requires CanRun(c, s, run) && s.main.shutdownFired && !CanPollStream(c, s)
    ensures After(c, s, run).jobs.ids == s.jobs.ids
    decreases |run|
  {
    if run != [] {
      NoNewChance(c, s, run[0]);
      NothingPulled(c, Apply(c, s, run[0]), run[1..]);
    }
  }

  /** Over every run from the moment the future is ready at most one job is pulled, by
      the select that had polled the future just before. */
  lemma {:induction false} AtMostOnePull(c: Config, s: State, run: seq<Step>)
    requires CanRun(c, s, run) && s.main.shutdownFired
    ensures |After(c, s, run).jobs.ids| <= |s.jobs.ids| + if CanPollStream(c, s) then 1 else 0
    decreases |run|
  {
    if !CanPollStream(c, s) {
      NothingPulled(c, s, run);
    } else if run != [] {
      var s' := Apply(c, s, run[0]);
      if CanPollStream(c, s') {
        assert s'.jobs.ids == s.jobs.ids;
      }
      AtMostOnePull(c, s', run[1..]);
    }
  }

  /** A job is still pulled after the future is ready if and only if a select below
      capacity has already polled it and not yet the stream. */
  lemma NoPullAfterShutdown(c: Config, s: State)
    requires s.main.shutdownFired
    ensures (forall run :: CanRun(c, s, run) ==> After(c, s, run).jobs.ids == s.jobs.ids) <==> !CanPollStream(c, s)
  {
    if CanPollStream(c, s) {
      var run := [Dispatch(Pull("job"))];
      assert run[1..] == [];
      assert After(c, s, run) == Apply(c, s, run[0]);
    } else {
      forall run | CanRun(c, s, run) ensures After(c, s, run).jobs.ids == s.jobs.ids {
        NothingPulled(c, s, run);
      }
    }
  }

  /** And a worker gets there. */
  lemma PullSlipsIn(c: Config) returns (run: seq<Step>)
    requires c.Valid()
    ensures CanRun(c, Init(), run) && After(c, Init(), run).main.shutdownFired && CanPollStream(c, After(c, Init(), run))
  {
    run := [Dispatch(ConnectReply(Status(200))), Dispatch(ShutdownPending), FireShutdown];
    assert run[1..] == [Dispatch(ShutdownPending), FireShutdown] && run[1..][1..] == [FireShutdown] && run[1..][1..][1..] == [];
  }

  /** A shutdown that ends a session keeps its stream open for the whole drain. */
  lemma {:induction false} StreamHeldWhileDraining(c: Config, s: State, run: seq<Step>)
    requires CanRun(c, s, run) && s.main.streamOpen
    requires Draining(s.main.phase) || (s.main.phase.Session? && run != [] && run[0] == Dispatch(ObserveShutdown))
    ensures var p := After(c, s, run).main.phase;
            run == [] || (Draining(p) && After(c, s, run).main.streamOpen) || p.Returned?
    decreases |run|
  {
    if run != [] {
      var s' := Apply(c, s, run[0]);
      if s'.main.phase.Returned? {
        assert run[1..] == [];
      } else {
        if Draining(s.main.phase) {
          DrainStays(c, s, run[0]);
        }
        StreamHeldWhileDraining(c, s', run[1..]);
      }
    }
  }

  // --- Drain safety ---

  /** The branch for a closed ack channel is unreachable. */
  lemma ChannelNeverClosedEarly(c: Config, s: State, d: Delivery)
    requires Reachable(c, s)
    ensures !Enabled(c, s, Handle(d, SendClosed))
    ensures forall e :: e in s.jobs.fates ==> s.jobs.fates[e] != Unsent
  {
    ReachableInv(c, s);
    forall e | e in s.jobs.fates ensures s.jobs.fates[e] != Unsent {
      assert FateTruthful(s.jobs, e, s.jobs.fates[e], TimedOut(s.main.phase));
    }
  }

  predicate Ended(s: State, d: Delivery) {
    d in s.jobs.fates && s.jobs.fates[d] != Aborted && s.jobs.fates[d] != Unsent
  }

  predicate Quiet(s: State) {
    s.jobs.tasks == map[] && s.pipe.channel == [] && s.pipe.ackLoop == Exited
  }

  /** When the drain completes no task, channel entry or batch is left and every delivery
      has ended. */
  lemma DrainSafety(c: Config, s: State)
    requires Reachable(c, s) && Enabled(c, s, Dispatch(Finish))
    ensures Quiet(s) && forall d :: 0 <= d < |s.jobs.ids| ==> Ended(s, d)
  {
    ReachableInv(c, s);
    forall d | 0 <= d < |s.jobs.ids| ensures Ended(s, d) {
      assert Places(s.jobs, s.pipe, d) == Pulled(s.jobs, d);
      assert FateTruthful(s.jobs, d, s.jobs.fates[d], TimedOut(s.main.phase));
    }
  }

  /** The same, seen from the returned worker. */
  lemma ReturnedClean(c: Config, s: State)
    requires Reachable(c, s) && s.main.phase.Returned? && !s.main.phase.timedOut
    ensures Quiet(s) && !s.main.streamOpen && forall d :: 0 <= d < |s.jobs.ids| ==> Ended(s, d)
  {
    ReachableInv(c, s);
    forall d | 0 <= d < |s.jobs.ids| ensures Ended(s, d) {
      assert Places(s.jobs, s.pipe, d) == Pulled(s.jobs, d);
      assert FateTruthful(s.jobs, d, s.jobs.fates[d], TimedOut(s.main.phase));
    }
  }

  // --- Drain termination ---

  function TaskWeight(t: Task): nat {
    match t
    case Running => 6
    case Sending => 5
    case ReportSleep(_, _) => 3
    case Reporting(_, _) => 2
    case Finished => 1
  }

  function TaskSum(tasks: map<Delivery, Task>, n: nat): nat {
    if n == 0 then 0
    else TaskSum(tasks, n - 1) + if n - 1 in tasks then TaskWeight(tasks[n - 1]) else 0
  }

  lemma {:induction false} TaskSumAgrees(a: map<Delivery, Task>, b: map<Delivery, Task>, n: nat)
    requires forall d :: 0 <= d < n ==> (d in a <==> d in b) && (d in a ==> a[d] == b[d])
    ensures TaskSum(a, n) == TaskSum(b, n)
  {
    if n > 0 {
      TaskSumAgrees(a, b, n - 1);
    }
  }

  lemma {:induction false} TaskSumUpdate(tasks: map<Delivery, Task>, n: nat, d: Delivery, t: Task)
    requires d < n && d in tasks
    ensures TaskSum(tasks[d := t], n) + TaskWeight(tasks[d]) == TaskSum(tasks, n) + TaskWeight(t)
  {
    if d == n - 1 {
      TaskSumAgrees(tasks, tasks[d := t], n - 1);
    } else {
      TaskSumUpdate(tasks, n - 1, d, t);
    }
  }

  lemma {:induction false} TaskSumRemove(tasks: map<Delivery, Task>, n: nat, d: Delivery)
    requires d < n && d in tasks
    ensures TaskSum(tasks - {d}, n) + TaskWeight(tasks[d]) == TaskSum(tasks, n)
  {
    if d == n - 1 {
      TaskSumAgrees(tasks, tasks - {d}, n - 1);
    } else {
      TaskSumRemove(tasks, n - 1, d);
    }
  }

  function AckWeight(a: AckLoop): nat {
    match a
    case Exited => 0
    case Receiving => 1
    case Posting(_, _, _) => 2
    case AckSleep(_, _, _) => 3
    case Filling(_) => 3
  }

  function PhaseWeight(p: Phase): nat {
    match p
    case JoiningTasks(_) => 2
    case AwaitingAcks(_) => 1
    case _ => 0
  }

  /** The weight of the work a drain still has to do. */
  function Measure(s: State): nat {
    TaskSum(s.jobs.tasks, |s.jobs.ids|) + 3 * |s.pipe.channel| + AckWeight(s.pipe.ackLoop)
    + PhaseWeight(s.main.phase) + if s.main.shutdownFired then 0 else 1
  }

  /** A reply that sends a report or a bulk ack into another sleep. */
  predicate TransientFailure(st: Step) {
    || (st.Handle? && st.handle.ReportReply? && ClassifyCall(st.handle.reply) == Transient)
    || (st.Acks? && st.acks.AckReply? && ClassifyAck(st.acks.reply) == Transient)
  }

  lemma DispatchDrops(c: Config, s: State, a: DispatchStep)
    requires Inv(c, s) && Enabled(c, s, Dispatch(a)) && Draining(s.main.phase)
    ensures Measure(Apply(c, s, Dispatch(a))) < Measure(s)
  {
    if a.Join? {
      TaskSumRemove(s.jobs.tasks, |s.jobs.ids|, a.d);
    } else if a.Deadline? {
      TaskSumEmpty(|s.jobs.ids|);
    }
  }

  lemma {:induction false} TaskSumEmpty(n: nat)
    ensures TaskSum(map[], n) == 0
  {
    if n > 0 {
      TaskSumEmpty(n - 1);
    }
  }

  lemma HandleDrops(c: Config, s: State, d: Delivery, a: TaskStep)
    requires Inv(c, s) && Enabled(c, s, Handle(d, a))
    ensures Measure(Apply(c, s, Handle(d, a))) + 1 <= Measure(s) + if TransientFailure(Handle(d, a)) then 2 else 0
  {
    ChannelStillOpen(c, s, d);
    TaskSumUpdate(s.jobs.tasks, |s.jobs.ids|, d, TaskApply(s.jobs, d, a).tasks[d]);
    var jobs' := TaskApply(s.jobs, d, a);
    assert jobs'.tasks == s.jobs.tasks[d := jobs'.tasks[d]];
  }

  lemma ChannelStillOpen(c: Config, s: State, d: Delivery)
    requires Inv(c, s)
    ensures !Enabled(c, s, Handle(d, SendClosed))
  {
  }

  lemma AckDrops(c: Config, s: State, a: AckStep)
    requires Inv(c, s) && Enabled(c, s, Acks(a))
    ensures Measure(Apply(c, s, Acks(a))) + 1 <= Measure(s) + if TransientFailure(Acks(a)) then 2 else 0
  {
    assert AckSettles(s.jobs, s.pipe, a).tasks == s.jobs.tasks;
  }

  lemma DrainStepDrops(c: Config, s: State, st: Step)
    requires Inv(c, s) && Enabled(c, s, st) && Draining(s.main.phase)
    ensures Measure(Apply(c, s, st)) + 1 <= Measure(s) + if TransientFailure(st) then 2 else 0
  {
    match st {
      case FireShutdown =>
      case Dispatch(a) => DispatchDrops(c, s, a);
      case Handle(d, a) => HandleDrops(c, s, d, a);
      case Acks(a) => AckDrops(c, s, a);
    }
  }

  function Failures(run: seq<Step>): nat {
    if run == [] then 0 else (if TransientFailure(run[0]) then 1 else 0) + Failures(run[1..])
  }

  /** A drain with finitely many transient failures is finite, with this bound. */
  lemma {:induction false} DrainBound(c: Config, s: State, run: seq<Step>)
    requires Inv(c, s) && CanRun(c, s, run) && Draining(s.main.phase)
    ensures |run| + Measure(After(c, s, run)) <= Measure(s) + 2 * Failures(run)
    decreases |run|
  {
    if run != [] {
      var s' := Apply(c, s, run[0]);
      StepInv(c, s, run[0]);
      DrainStepDrops(c, s, run[0]);
      DrainStays(c, s, run[0]);
      if s'.main.phase.Returned? {
        assert run[1..] == [];
      } else {
        DrainBound(c, s', run[1..]);
      }
    }
  }

  // --- No deadlock ---

  /** A step the worker or an outstanding call of its own can take, with a good reply. */
  predicate Helpful(st: Step) {
    match st
    case FireShutdown => false
    case Dispatch(a) => !a.Deadline? && !a.ShutdownPending? && !a.Park?
    case Handle(_, _) => !TransientFailure(st)
    case Acks(_) => !TransientFailure(st)
  }

  lemma AckProgress(c: Config, s: State) returns (st: Step)
    requires Inv(c, s) && !s.main.phase.Returned? && s.pipe.ackLoop != Exited
    requires s.pipe.ackLoop.Receiving? ==> s.pipe.channel != [] || SendersGone(s)
    ensures Enabled(c, s, st) && Helpful(st)
  {
    match s.pipe.ackLoop {
      case Receiving => st := Acks(if s.pipe.channel != [] then Recv else Exit);
      case Filling(_) => st := Acks(if s.pipe.channel != [] then TryRecv else StopFilling);
      case Posting(_, _, _) => st := Acks(AckReply(Status(204)));
      case AckSleep(_, _, _) => st := Acks(AckWake);
    }
  }

  /** Any task in the JoinSet leads to an enabled step, also when it waits on a full channel. */
  lemma TaskProgress(c: Config, s: State, d: Delivery) returns (st: Step)
    requires Inv(c, s) && !s.main.phase.Returned? && d in s.jobs.tasks
    requires s.jobs.tasks[d] == Finished ==> CanPollJoin(c, s)
    ensures Enabled(c, s, st) && Helpful(st)
  {
    match s.jobs.tasks[d] {
      case Running => st := Handle(d, HandlerOk);
      case Sending =>
        if |s.pipe.channel| < c.Capacity() {
          st := Handle(d, SendAck);
        } else {
          assert s.pipe.channel != [];
          st := AckProgress(c, s);
        }
      case Reporting(_, _) => st := Handle(d, ReportReply(Status(200)));
      case ReportSleep(_, _) => st := Handle(d, ReportWake);
      case Finished => st := Dispatch(Join(d));
    }
  }

  lemma DrainProgress(c: Config, s: State) returns (st: Step)
    requires Inv(c, s) && Draining(s.main.phase)
    ensures Enabled(c, s, st) && Helpful(st)
  {
    if s.main.phase.JoiningTasks? {
      if s.jobs.tasks == map[] {
        st := Dispatch(DropSender);
      } else {
        var d :| d in s.jobs.tasks;
        st := TaskProgress(c, s, d);
      }
    } else if s.pipe.ackLoop == Exited {
      st := Dispatch(Finish);
    } else {
      st := AckProgress(c, s);
    }
  }

  /** The same of a worker that is not draining, once a select has polled its future. */
  lemma RunningProgress(c: Config, s: State) returns (st: Step)
    requires Inv(c, s) && !Over(s.main.phase) && (Selecting(s.main.phase) ==> s.main.polled || s.main.shutdownFired)
    ensures Enabled(c, s, st) && Helpful(st)
  {
    if s.main.phase.Connecting? {
      st := Dispatch(ConnectReply(Status(200)));
    } else if !s.main.polled {
      st := Dispatch(ObserveShutdown);
    } else if s.main.phase.Reconnecting? {
      st := Dispatch(WakeReconnect);
    } else if |s.jobs.tasks| < c.concurrency {
      st := Dispatch(StreamEnds);
    } else {
      assert s.jobs.tasks.Keys != {};
      var d :| d in s.jobs.tasks;
      st := TaskProgress(c, s, d);
    }
  }

  /** No reachable state short of returning is stuck: a useful step is enabled, at once
      or after one poll of a shutdown future that is not ready. */
  lemma NoDeadlock(c: Config, s: State) returns (run: seq<Step>)
    requires Reachable(c, s) && !s.main.phase.Returned?
    ensures CanRun(c, s, run) && 1 <= |run| <= 2 && Helpful(run[|run| - 1])
    ensures |run| == 2 ==> run[0] == Dispatch(ShutdownPending)
  {
    ReachableInv(c, s);
    if Draining(s.main.phase) {
      var st := DrainProgress(c, s);
      run := [st];
      assert run[1..] == [];
    } else if Selecting(s.main.phase) && !s.main.polled && !s.main.shutdownFired {
      var poll := Dispatch(ShutdownPending);
      StepInv(c, s, poll);
      var st := RunningProgress(c, Apply(c, s, poll));
      run := [poll, st];
      assert run[1..] == [st] && [st][1..] == [];
    } else {
      var st := RunningProgress(c, s);
      run := [st];
      assert run[1..] == [];
    }
  }

  /** From every draining state the worker can finish without the deadline firing,
      in at most as many steps as the remaining weight. */
  lemma {:induction false} DrainCanFinish(c: Config, s: State) returns (run: seq<Step>)
    requires Inv(c, s) && Draining(s.main.phase)
    ensures CanRun(c, s, run) && |run| <= Measure(s)
    ensures After(c, s, run).main.phase == Returned(s.main.phase.outcome, false)
    decreases Measure(s)
  {
    var st := DrainProgress(c, s);
    var s' := Apply(c, s, st);
    StepInv(c, s, st);
    DrainStepDrops(c, s, st);
    var rest := [];
    if Draining(s'.main.phase) {
      rest := DrainCanFinish(c, s');
    }
    run := [st] + rest;
    assert run[1..] == rest;
  }
}
