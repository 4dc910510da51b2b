/** What every step of the worker keeps. */
module WorkerInvariant {
  import opened Backoff
  import opened Worker

  function CurrentBatch(a: AckLoop): seq<Delivery> {
    match a
    case Receiving => []
    case Exited => []
    case Filling(batch) => batch
    case Posting(batch, _, _) => batch
    case AckSleep(batch, _, _) => batch
  }

  function Flatten(batches: seq<seq<Delivery>>): seq<Delivery> {
    if batches == [] then [] else Flatten(batches[..|batches| - 1]) + batches[|batches| - 1]
  }

  lemma FlattenSnoc(batches: seq<seq<Delivery>>, batch: seq<Delivery>)
    ensures Flatten(batches + [batch]) == Flatten(batches) + batch
  {
    assert (batches + [batch])[..|batches|] == batches;
  }

  function Count(ds: seq<Delivery>, d: Delivery): nat {
    if ds == [] then 0 else Count(ds[..|ds| - 1], d) + if ds[|ds| - 1] == d then 1 else 0
  }

  lemma {:induction false} CountAppend(a: seq<Delivery>, b: seq<Delivery>, d: Delivery)
    ensures Count(a + b, d) == Count(a, d) + Count(b, d)
  {
    if b == [] {
      assert a + b == a;
    } else {
      assert (a + b)[..|a + b| - 1] == a + b[..|b| - 1];
      CountAppend(a, b[..|b| - 1], d);
    }
  }

  lemma {:induction false} CountIn(ds: seq<Delivery>, d: Delivery)
    ensures Count(ds, d) > 0 <==> d in ds
  {
    if ds != [] {
      CountIn(ds[..|ds| - 1], d);
      assert ds == ds[..|ds| - 1] + [ds[|ds| - 1]];
    }
  }

  // --- Conservation: every delivery is in exactly one place ---

  /** How many places hold delivery `d`: a live task, the channel, the current
      batch, or the record of deliveries that have ended. */
  function Places(jobs: Jobs, pipe: Pipe, d: Delivery): nat {
    (if Live(jobs, d) then 1 else 0)
    + Count(pipe.channel, d)
    + Count(CurrentBatch(pipe.ackLoop), d)
    + (if d in jobs.fates then 1 else 0)
  }

  function Pulled(jobs: Jobs, d: Delivery): nat {
    if d < |jobs.ids| then 1 else 0
  }

  ghost predicate Conserved(jobs: Jobs, pipe: Pipe) {
    && (forall d: Delivery :: Places(jobs, pipe, d) == Pulled(jobs, d))
    && (forall d :: d in jobs.tasks ==> d < |jobs.ids|)
  }

  lemma JoinSetConserves(jobs: Jobs, pipe: Pipe, st: DispatchStep, d: Delivery)
    requires Conserved(jobs, pipe)
    requires st.Join? ==> st.d in jobs.tasks && jobs.tasks[st.d] == Finished
    ensures var jobs' := JoinSetApply(jobs, st); Places(jobs', pipe, d) == Pulled(jobs', d)
  {
    assert Places(jobs, pipe, d) == Pulled(jobs, d);
  }

  lemma TaskConserves(jobs: Jobs, pipe: Pipe, e: Delivery, st: TaskStep, d: Delivery)
    requires Conserved(jobs, pipe) && TaskReady(jobs, e, st)
    ensures var jobs' := TaskApply(jobs, e, st);
            Places(jobs', if st.SendAck? then Send(pipe, e) else pipe, d) == Pulled(jobs', d)
  {
    hide Count, TaskApply, Live, Send, CurrentBatch;
    assert Places(jobs, pipe, d) == Pulled(jobs, d);
    TaskMoves(jobs, pipe, e, st, d);
    SendCounts(pipe, e, d);
  }

  /** A step of a live task keeps it live or ends it, and only a send does neither. */
  lemma TaskMoves(jobs: Jobs, pipe: Pipe, e: Delivery, st: TaskStep, d: Delivery)
    requires TaskReady(jobs, e, st) && Conserved(jobs, pipe)
    ensures var jobs' := TaskApply(jobs, e, st);
            && jobs'.ids == jobs.ids
            && (if Live(jobs', d) then 1 else 0) + (if d in jobs'.fates then 1 else 0)
               == (if Live(jobs, d) then 1 else 0) + (if d in jobs.fates then 1 else 0)
                  - if st.SendAck? && d == e then 1 else 0
  {
    hide Count;
    assert Places(jobs, pipe, e) == Pulled(jobs, e);
  }

  lemma SendCounts(pipe: Pipe, e: Delivery, d: Delivery)
    ensures Send(pipe, e).ackLoop == pipe.ackLoop
    ensures Count(Send(pipe, e).channel, d) == Count(pipe.channel, d) + if e == d then 1 else 0
  {
    CountAppend(pipe.channel, [e], d);
    CountOne(e, d);
  }

  lemma CountOne(e: Delivery, d: Delivery)
    ensures Count([e], d) == if e == d then 1 else 0
  {
    assert [e][..0] == [];
  }

  lemma AckMoves(pipe: Pipe, st: AckStep, d: Delivery)
    requires AckReady(pipe, st) && !st.AckReply?
    ensures var pipe' := PipeApply(pipe, st);
            Count(pipe'.channel, d) + Count(CurrentBatch(pipe'.ackLoop), d)
            == Count(pipe.channel, d) + Count(CurrentBatch(pipe.ackLoop), d)
  {
    if st.Recv? || st.TryRecv? {
      var head := [pipe.channel[0]];
      assert pipe.channel == head + pipe.channel[1..];
      CountAppend(head, pipe.channel[1..], d);
      CountAppend(CurrentBatch(pipe.ackLoop), head, d);
      assert [] + head == head;
    }
  }

  lemma AckConserves(jobs: Jobs, pipe: Pipe, st: AckStep, d: Delivery)
    requires Conserved(jobs, pipe) && AckReady(pipe, st)
    ensures var jobs' := AckSettles(jobs, pipe, st); Places(jobs', PipeApply(pipe, st), d) == Pulled(jobs', d)
  {
    assert Places(jobs, pipe, d) == Pulled(jobs, d);
    if st.AckReply? {
      CountIn(pipe.ackLoop.batch, d);
    } else {
      AckMoves(pipe, st, d);
    }
  }

  lemma StepConserves(c: Config, s: State, st: Step)
    requires Conserved(s.jobs, s.pipe) && Enabled(c, s, st)
    ensures var s' := Apply(c, s, st); Conserved(s'.jobs, s'.pipe)
  {
    var s' := Apply(c, s, st);
    forall d: Delivery ensures Places(s'.jobs, s'.pipe, d) == Pulled(s'.jobs, d) {
      match st {
        case FireShutdown => assert Places(s.jobs, s.pipe, d) == Pulled(s.jobs, d);
        case Dispatch(a) => JoinSetConserves(s.jobs, s.pipe, a, d);
        case Handle(e, a) => TaskConserves(s.jobs, s.pipe, e, a, d);
        case Acks(a) => AckConserves(s.jobs, s.pipe, a, d);
      }
    }
  }

  // --- Truthful reports: what is sent to the server matches what the handler did ---

  predicate Did(jobs: Jobs, d: Delivery, v: Verdict) {
    d in jobs.verdicts && jobs.verdicts[d] == v
  }

  predicate TaskTruthful(jobs: Jobs, d: Delivery, t: Task) {
    match t
    case Running => d !in jobs.verdicts
    case Sending => Did(jobs, d, Ok)
    case Reporting(_, _) => Did(jobs, d, Err)
    case ReportSleep(_, _) => Did(jobs, d, Err)
    case Finished => d in jobs.verdicts
  }

  predicate FateTruthful(jobs: Jobs, d: Delivery, f: Fate, timedOut: bool) {
    match f
    case Acked(r) => Did(jobs, d, Ok) && ClassifyAck(r) == Success
    case AckRejected(r) => Did(jobs, d, Ok) && ClassifyAck(r) == Terminal
    case Reported(r) => Did(jobs, d, Err) && ClassifyCall(r) == Success
    case ReportRejected(r) => Did(jobs, d, Err) && ClassifyCall(r) == Terminal
    case Panicked => Did(jobs, d, Panic)
    case Unsent => false
    case Aborted => timedOut
  }

  predicate AllDid(jobs: Jobs, ds: seq<Delivery>, v: Verdict) {
    forall d :: d in ds ==> Did(jobs, d, v)
  }

  predicate JobsTruthful(jobs: Jobs, timedOut: bool) {
    && (forall d :: d in jobs.tasks ==> TaskTruthful(jobs, d, jobs.tasks[d]))
    && (forall d :: d in jobs.fates ==> FateTruthful(jobs, d, jobs.fates[d], timedOut))
    && AllDid(jobs, jobs.reports, Err)
    && (forall d :: d in jobs.verdicts ==> d < |jobs.ids|)
  }

  predicate PipeTruthful(jobs: Jobs, pipe: Pipe) {
    && AllDid(jobs, pipe.channel, Ok)
    && AllDid(jobs, CurrentBatch(pipe.ackLoop), Ok)
    && (forall i :: 0 <= i < |pipe.requests| ==> AllDid(jobs, pipe.requests[i], Ok))
  }

  predicate TimedOut(p: Phase) {
    p.Returned? && p.timedOut
  }

  predicate Truthful(s: State) {
    JobsTruthful(s.jobs, TimedOut(s.main.phase)) && PipeTruthful(s.jobs, s.pipe)
  }

  /** Verdicts are only ever added. */
  predicate Extends(old_: Jobs, new_: Jobs) {
    forall d :: d in old_.verdicts ==> d in new_.verdicts && new_.verdicts[d] == old_.verdicts[d]
  }

  lemma PipeTruthfulExtends(a: Jobs, b: Jobs, pipe: Pipe)
    requires PipeTruthful(a, pipe) && Extends(a, b)
    ensures PipeTruthful(b, pipe)
  {
    forall i | 0 <= i < |pipe.requests| ensures AllDid(b, pipe.requests[i], Ok) {
      assert AllDid(a, pipe.requests[i], Ok);
    }
  }

  lemma JoinSetTruthful(jobs: Jobs, pipe: Pipe, st: DispatchStep, timedOut: bool)
    requires JobsTruthful(jobs, false) && PipeTruthful(jobs, pipe)
    requires timedOut == st.Deadline?
    ensures JobsTruthful(JoinSetApply(jobs, st), timedOut) && PipeTruthful(JoinSetApply(jobs, st), pipe)
  {
    var jobs' := JoinSetApply(jobs, st);
    PipeTruthfulExtends(jobs, jobs', pipe);
    forall d | d in jobs'.fates ensures FateTruthful(jobs', d, jobs'.fates[d], timedOut) {
      if d in jobs.fates {
        assert FateTruthful(jobs, d, jobs.fates[d], false);
      }
    }
    forall d | d in jobs'.tasks ensures TaskTruthful(jobs', d, jobs'.tasks[d]) {
      if d in jobs.tasks && jobs'.tasks[d] == jobs.tasks[d] {
        assert TaskTruthful(jobs, d, jobs.tasks[d]);
      }
    }
  }

  lemma TaskKeepsVerdicts(jobs: Jobs, e: Delivery, st: TaskStep)
    requires JobsTruthful(jobs, false) && TaskReady(jobs, e, st)
    ensures Extends(jobs, TaskApply(jobs, e, st))
  {
    assert TaskTruthful(jobs, e, jobs.tasks[e]);
  }

  lemma TaskStepTruthful(jobs: Jobs, e: Delivery, st: TaskStep)
    requires JobsTruthful(jobs, false) && TaskReady(jobs, e, st) && e < |jobs.ids|
    requires !st.SendClosed?
    ensures JobsTruthful(TaskApply(jobs, e, st), false)
  {
    var jobs' := TaskApply(jobs, e, st);
    TaskKeepsVerdicts(jobs, e, st);
    assert TaskTruthful(jobs, e, jobs.tasks[e]);
    forall d | d in jobs'.fates ensures FateTruthful(jobs', d, jobs'.fates[d], false) {
      if d in jobs.fates && jobs'.fates[d] == jobs.fates[d] {
        assert FateTruthful(jobs, d, jobs.fates[d], false);
      }
    }
    forall d | d in jobs'.tasks ensures TaskTruthful(jobs', d, jobs'.tasks[d]) {
      if d != e {
        assert TaskTruthful(jobs, d, jobs.tasks[d]);
      }
    }
  }

  lemma AckTruthful(jobs: Jobs, pipe: Pipe, st: AckStep)
    requires JobsTruthful(jobs, false) && PipeTruthful(jobs, pipe) && AckReady(pipe, st)
    ensures var jobs' := AckSettles(jobs, pipe, st);
            JobsTruthful(jobs', false) && PipeTruthful(jobs', PipeApply(pipe, st))
  {
    var jobs' := AckSettles(jobs, pipe, st);
    var pipe' := PipeApply(pipe, st);
    PipeTruthfulExtends(jobs, jobs', pipe);
    assert AllDid(jobs', pipe'.channel, Ok);
    forall d | d in jobs'.fates ensures FateTruthful(jobs', d, jobs'.fates[d], false) {
      if st.AckReply? && d in pipe.ackLoop.batch {
        assert Did(jobs, d, Ok);
      }
      if d in jobs.fates {
        assert FateTruthful(jobs, d, jobs.fates[d], false);
      }
    }
    forall d | d in jobs'.tasks ensures TaskTruthful(jobs', d, jobs'.tasks[d]) {
      assert TaskTruthful(jobs, d, jobs.tasks[d]);
    }
  }

  /** No live or finished task outlasts the ack loop, so no send can find it gone. */
  predicate Structured(s: State) {
    var p := s.main.phase;
    && (s.pipe.ackLoop.Exited? ==> s.jobs.tasks == map[] && s.pipe.channel == [] && (p.AwaitingAcks? || p.Returned?))
    && (p.AwaitingAcks? || p.Returned? ==> s.jobs.tasks == map[])
    && (p.Returned? && !p.timedOut ==> s.pipe.ackLoop.Exited?)
    && (p.Session? ==> s.main.streamOpen)
    && (p.Connecting? || p.Reconnecting? || p.Returned? ==> !s.main.streamOpen)
    && (Draining(p) && s.main.streamOpen ==> s.main.shutdownFired && p.outcome == Clean)
    && (s.main.polled ==> Selecting(p))
  }

  lemma DispatchStructured(c: Config, s: State, st: DispatchStep)
    requires Structured(s) && Enabled(c, s, Dispatch(st))
    ensures Structured(Apply(c, s, Dispatch(st)))
  {
  }

  lemma HandleStructured(c: Config, s: State, d: Delivery, st: TaskStep)
    requires Structured(s) && Enabled(c, s, Handle(d, st))
    ensures Structured(Apply(c, s, Handle(d, st)))
  {
  }

  lemma AckStructured(c: Config, s: State, st: AckStep)
    requires Structured(s) && Enabled(c, s, Acks(st))
    ensures Structured(Apply(c, s, Acks(st)))
  {
  }

  lemma StepStructured(c: Config, s: State, st: Step)
    requires Structured(s) && Enabled(c, s, st)
    ensures Structured(Apply(c, s, st))
  {
    match st {
      case FireShutdown =>
      case Dispatch(a) => DispatchStructured(c, s, a);
      case Handle(d, a) => HandleStructured(c, s, d, a);
      case Acks(a) => AckStructured(c, s, a);
    }
  }

  lemma StepTruthful(c: Config, s: State, st: Step)
    requires Truthful(s) && Structured(s) && Conserved(s.jobs, s.pipe) && Enabled(c, s, st)
    ensures Truthful(Apply(c, s, st))
  {
    var s' := Apply(c, s, st);
    match st {
      case FireShutdown =>
      case Dispatch(a) => JoinSetTruthful(s.jobs, s.pipe, a, TimedOut(s'.main.phase));
      case Handle(e, a) =>
        assert TaskTruthful(s.jobs, e, s.jobs.tasks[e]);
        TaskStepTruthful(s.jobs, e, a);
        TaskKeepsVerdicts(s.jobs, e, a);
        PipeTruthfulExtends(s.jobs, s'.jobs, s.pipe);
      case Acks(a) => AckTruthful(s.jobs, s.pipe, a);
    }
  }

  // --- The ack pipeline: order, batches, identical retries ---

  /** `log` is every batch of `batches` in order, each sent one or more times in a row. */
  predicate Replays(log: seq<seq<Delivery>>, batches: seq<seq<Delivery>>)
    decreases |log|
  {
    if log == [] || batches == [] then log == [] && batches == []
    else
      && log[|log| - 1] == batches[|batches| - 1]
      && (Replays(log[..|log| - 1], batches) || Replays(log[..|log| - 1], batches[..|batches| - 1]))
  }

  function SentBatches(p: Pipe): seq<seq<Delivery>> {
    if p.ackLoop.Posting? || p.ackLoop.AckSleep? then p.batches + [p.ackLoop.batch] else p.batches
  }

  predicate ByBatch(jobs: Jobs, d: Delivery) {
    d in jobs.fates && (jobs.fates[d].Acked? || jobs.fates[d].AckRejected?)
  }

  /** Completed batches, then the current one, then the channel, are the sends in order. */
  predicate Fifo(p: Pipe) {
    && Flatten(p.batches) + CurrentBatch(p.ackLoop) + p.channel == p.sends
    && (forall i :: 0 <= i < |p.batches| ==> p.batches[i] != [])
    && (!p.ackLoop.Receiving? && !p.ackLoop.Exited? ==> CurrentBatch(p.ackLoop) != [])
  }

  ghost predicate BatchFates(jobs: Jobs, p: Pipe) {
    forall d: Delivery :: Count(Flatten(p.batches), d) == if ByBatch(jobs, d) then 1 else 0
  }

  lemma ReplaysSnoc(log: seq<seq<Delivery>>, batches: seq<seq<Delivery>>, batch: seq<Delivery>)
    requires Replays(log, batches) || Replays(log, batches + [batch])
    ensures Replays(log + [batch], batches + [batch])
  {
    assert (log + [batch])[..|log|] == log;
    assert (batches + [batch])[..|batches|] == batches;
  }

  lemma AckFifo(p: Pipe, st: AckStep)
    requires Fifo(p) && AckReady(p, st)
    ensures Fifo(PipeApply(p, st))
  {
    if st.Recv? || st.TryRecv? {
      MoveHead(Flatten(p.batches), CurrentBatch(p.ackLoop), p.channel);
      assert [] + [p.channel[0]] == [p.channel[0]];
    } else if st.AckReply? {
      FlattenSnoc(p.batches, p.ackLoop.batch);
      assert Flatten(p.batches) + p.ackLoop.batch + [] == Flatten(p.batches) + p.ackLoop.batch;
    }
  }

  lemma MoveHead<T>(a: seq<T>, b: seq<T>, c: seq<T>)
    requires c != []
    ensures a + (b + [c[0]]) + c[1..] == a + b + c
  {
    assert c == [c[0]] + c[1..];
  }

  lemma AckReplays(p: Pipe, st: AckStep)
    requires Replays(p.requests, SentBatches(p)) && AckReady(p, st)
    ensures var p' := PipeApply(p, st); Replays(p'.requests, SentBatches(p'))
  {
    if st.StopFilling? || st.AckWake? {
      ReplaysSnoc(p.requests, p.batches, p.ackLoop.batch);
    }
  }

  lemma BatchFateAt(jobs: Jobs, p: Pipe, d: Delivery)
    requires BatchFates(jobs, p) && Conserved(jobs, p) && p.ackLoop.Posting?
    ensures Count(Flatten(p.batches + [p.ackLoop.batch]), d)
         == (if ByBatch(jobs, d) then 1 else 0) + Count(p.ackLoop.batch, d)
    ensures d in p.ackLoop.batch ==> Count(p.ackLoop.batch, d) == 1 && d !in jobs.fates
    ensures d !in p.ackLoop.batch ==> Count(p.ackLoop.batch, d) == 0
  {
    var batch := p.ackLoop.batch;
    FlattenSnoc(p.batches, batch);
    CountAppend(Flatten(p.batches), batch, d);
    CountIn(batch, d);
    assert Places(jobs, p, d) == Pulled(jobs, d);
  }

  lemma AckBatchFates(jobs: Jobs, p: Pipe, st: AckStep)
    requires BatchFates(jobs, p) && Conserved(jobs, p) && AckReady(p, st)
    ensures BatchFates(AckSettles(jobs, p, st), PipeApply(p, st))
  {
    if st.AckReply? && ClassifyAck(st.reply) != Transient {
      var jobs' := AckSettles(jobs, p, st);
      var p' := PipeApply(p, st);
      forall d: Delivery ensures Count(Flatten(p'.batches), d) == if ByBatch(jobs', d) then 1 else 0 {
        BatchFateAt(jobs, p, d);
      }
    } else {
      assert AckSettles(jobs, p, st) == jobs && PipeApply(p, st).batches == p.batches;
    }
  }

  lemma TaskBatchFates(jobs: Jobs, p: Pipe, e: Delivery, st: TaskStep)
    requires BatchFates(jobs, p) && Conserved(jobs, p) && TaskReady(jobs, e, st)
    ensures BatchFates(TaskApply(jobs, e, st), p)
  {
    var jobs' := TaskApply(jobs, e, st);
    assert Places(jobs, p, e) == Pulled(jobs, e);
    forall d: Delivery ensures Count(Flatten(p.batches), d) == if ByBatch(jobs', d) then 1 else 0 {
      assert Count(Flatten(p.batches), d) == if ByBatch(jobs, d) then 1 else 0;
    }
  }

  lemma DispatchBatchFates(jobs: Jobs, p: Pipe, st: DispatchStep)
    requires BatchFates(jobs, p)
    ensures BatchFates(JoinSetApply(jobs, st), p)
  {
    var jobs' := JoinSetApply(jobs, st);
    forall d: Delivery ensures Count(Flatten(p.batches), d) == if ByBatch(jobs', d) then 1 else 0 {
      assert Count(Flatten(p.batches), d) == if ByBatch(jobs, d) then 1 else 0;
    }
  }

  ghost predicate Pipelined(s: State) {
    Fifo(s.pipe) && Replays(s.pipe.requests, SentBatches(s.pipe)) && BatchFates(s.jobs, s.pipe)
  }

  lemma SendFifo(p: Pipe, d: Delivery)
    requires Fifo(p)
    ensures Fifo(Send(p, d))
  {
    var p' := Send(p, d);
    assert Flatten(p'.batches) + CurrentBatch(p'.ackLoop) + p'.channel == p'.sends;
  }

  lemma StepPipelined(c: Config, s: State, st: Step)
    requires Pipelined(s) && Conserved(s.jobs, s.pipe) && Enabled(c, s, st)
    ensures Pipelined(Apply(c, s, st))
  {
    match st {
      case FireShutdown =>
      case Dispatch(a) => DispatchBatchFates(s.jobs, s.pipe, a);
      case Handle(e, a) =>
        TaskBatchFates(s.jobs, s.pipe, e, a);
        SendFifo(s.pipe, e);
      case Acks(a) =>
        AckFifo(s.pipe, a);
        AckReplays(s.pipe, a);
        AckBatchFates(s.jobs, s.pipe, a);
    }
  }

  // --- One fate for a whole batch ---

  predicate SameFate(jobs: Jobs, d: Delivery, e: Delivery) {
    d in jobs.fates && e in jobs.fates && jobs.fates[d] == jobs.fates[e]
  }

  predicate Uniform(jobs: Jobs, p: Pipe) {
    forall i, d, e :: 0 <= i < |p.batches| && d in p.batches[i] && e in p.batches[i] ==> SameFate(jobs, d, e)
  }

  /** A recorded fate is never overwritten. */
  lemma FatesStay(c: Config, s: State, st: Step, d: Delivery)
    requires Conserved(s.jobs, s.pipe) && Enabled(c, s, st) && d in s.jobs.fates
    ensures var s' := Apply(c, s, st); d in s'.jobs.fates && s'.jobs.fates[d] == s.jobs.fates[d]
  {
    assert Places(s.jobs, s.pipe, d) == Pulled(s.jobs, d);
    CountIn(CurrentBatch(s.pipe.ackLoop), d);
  }

  lemma StepUniform(c: Config, s: State, st: Step)
    requires Uniform(s.jobs, s.pipe) && Conserved(s.jobs, s.pipe) && Enabled(c, s, st)
    ensures var s' := Apply(c, s, st); Uniform(s'.jobs, s'.pipe)
  {
    var s' := Apply(c, s, st);
    forall i, d, e | 0 <= i < |s'.pipe.batches| && d in s'.pipe.batches[i] && e in s'.pipe.batches[i]
      ensures SameFate(s'.jobs, d, e)
    {
      if i < |s.pipe.batches| {
        assert s'.pipe.batches[i] == s.pipe.batches[i];
        assert SameFate(s.jobs, d, e);
        FatesStay(c, s, st, d);
        FatesStay(c, s, st, e);
      } else {
        assert st.Acks? && st.acks.AckReply? && s'.pipe.batches[i] == s.pipe.ackLoop.batch;
      }
    }
  }

  // --- Bounds and delays ---

  predicate TaskTimed(t: Task) {
    match t
    case Reporting(b, k) => b == BackoffAt(k)
    case ReportSleep(b, k) => b == BackoffAt(k)
    case _ => true
  }

  predicate AckTimed(a: AckLoop) {
    match a
    case Posting(_, b, k) => b == BackoffAt(k)
    case AckSleep(_, b, k) => b == BackoffAt(k)
    case _ => true
  }

  /** Every delay in use is the closed form at the number of sleeps taken so far. */
  predicate Timed(s: State) {
    && s.main.backoff == BackoffAt(s.main.retries)
    && (forall d :: d in s.jobs.tasks ==> TaskTimed(s.jobs.tasks[d]))
    && AckTimed(s.pipe.ackLoop)
  }

  lemma FirstBackoff()
    ensures BackoffAt(0) == INITIAL_BACKOFF
  {
    assert Pow2(0) == 1;
  }

  lemma TaskStepTimed(jobs: Jobs, e: Delivery, st: TaskStep)
    requires forall d :: d in jobs.tasks ==> TaskTimed(jobs.tasks[d])
    requires TaskReady(jobs, e, st)
    ensures forall d :: d in TaskApply(jobs, e, st).tasks ==> TaskTimed(TaskApply(jobs, e, st).tasks[d])
  {
    FirstBackoff();
    assert TaskTimed(jobs.tasks[e]);
    if st.ReportWake? {
      NextBackoffStep(jobs.tasks[e].retries);
    }
  }

  lemma DispatchTimed(c: Config, s: State, a: DispatchStep)
    requires Timed(s) && DispatchEnabled(c, s, a)
    ensures var m := ControlApply(c, s, a); m.backoff == BackoffAt(m.retries)
    ensures forall d :: d in JoinSetApply(s.jobs, a).tasks ==> TaskTimed(JoinSetApply(s.jobs, a).tasks[d])
  {
    FirstBackoff();
    NextBackoffStep(s.main.retries);
  }

  lemma AckStepTimed(p: Pipe, a: AckStep)
    requires AckTimed(p.ackLoop) && AckReady(p, a)
    ensures AckTimed(PipeApply(p, a).ackLoop)
  {
    FirstBackoff();
    if a.AckWake? {
      NextBackoffStep(p.ackLoop.retries);
    }
  }

  lemma StepTimed(c: Config, s: State, st: Step)
    requires Timed(s) && Enabled(c, s, st)
    ensures Timed(Apply(c, s, st))
  {
    match st {
      case FireShutdown =>
      case Dispatch(a) => DispatchTimed(c, s, a);
      case Handle(d, a) => TaskStepTimed(s.jobs, d, a);
      case Acks(a) => AckStepTimed(s.pipe, a);
    }
  }

  predicate Bounded(c: Config, s: State) {
    |s.jobs.tasks| <= c.concurrency && |s.pipe.channel| <= c.Capacity()
  }

  lemma StepBounded(c: Config, s: State, st: Step)
    requires Bounded(c, s) && Enabled(c, s, st)
    ensures Bounded(c, Apply(c, s, st))
  {
    var s' := Apply(c, s, st);
    match st {
      case FireShutdown =>
      case Dispatch(a) =>
        if a.Pull? {
          assert s'.jobs.tasks.Keys == s.jobs.tasks.Keys + {|s.jobs.ids|};
        } else {
          SubsetSize(s'.jobs.tasks.Keys, s.jobs.tasks.Keys);
        }
      case Handle(d, a) => assert s'.jobs.tasks.Keys == s.jobs.tasks.Keys;
      case Acks(a) =>
    }
  }

  lemma {:induction false} SubsetSize(a: set<Delivery>, b: set<Delivery>)
    requires a <= b
    ensures |a| <= |b|
  {
    if a != {} {
      var x :| x in a;
      SubsetSize(a - {x}, b - {x});
    }
  }

  // --- Every reachable state ---

  ghost predicate Inv(c: Config, s: State) {
    && c.Valid()
    && Conserved(s.jobs, s.pipe)
    && Truthful(s)
    && Structured(s)
    && Pipelined(s)
    && Uniform(s.jobs, s.pipe)
    && Timed(s)
    && Bounded(c, s)
  }

  lemma InitInv(c: Config)
    requires c.Valid()
    ensures Inv(c, Init())
  {
    FirstBackoff();
    var s := Init();
    assert forall d: Delivery :: Places(s.jobs, s.pipe, d) == Pulled(s.jobs, d);
    assert forall d: Delivery :: Count(Flatten(s.pipe.batches), d) == if ByBatch(s.jobs, d) then 1 else 0;
  }

  lemma StepInv(c: Config, s: State, st: Step)
    requires Inv(c, s) && Enabled(c, s, st)
    ensures Inv(c, Apply(c, s, st))
  {
    StepConserves(c, s, st);
    StepTruthful(c, s, st);
    StepStructured(c, s, st);
    StepPipelined(c, s, st);
    StepUniform(c, s, st);
    StepTimed(c, s, st);
    StepBounded(c, s, st);
  }

  lemma {:induction false} RunInv(c: Config, s: State, run: seq<Step>)
    requires Inv(c, s) && CanRun(c, s, run)
    ensures Inv(c, After(c, s, run))
    decreases |run|
  {
    if run != [] {
      StepInv(c, s, run[0]);
      RunInv(c, Apply(c, s, run[0]), run[1..]);
    }
  }
}
