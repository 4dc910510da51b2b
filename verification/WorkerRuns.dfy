/** The worker read off its runs: what each recorded value counts or names is stated
    by the steps taken, with the reply codes and delays written out. */
module WorkerRuns {
  import opened Backoff
  import opened Worker
  import opened WorkerInvariant
  import opened WorkerTheorems
  import opened Wrappers

  /** A run is a run up to its last step and that step. */
  lemma {:induction false} LastStep(c: Config, s: State, run: seq<Step>)
    requires CanRun(c, s, run) && run != []
    ensures var most, st := run[..|run| - 1], run[|run| - 1];
            && CanRun(c, s, most) && Enabled(c, After(c, s, most), st)
            && After(c, s, run) == Apply(c, After(c, s, most), st)
    decreases |run|
  {
    if |run| > 1 {
      var t := Apply(c, s, run[0]);
      LastStep(c, t, run[1..]);
      assert run[1..][..|run| - 2] == run[..|run| - 1][1..];
    } else {
      assert run[1..] == [];
    }
  }

  // --- Delays ---

  /** A take connect answered with any 2xx. */
  predicate Connects(st: Step) {
    && st.Dispatch? && st.dispatch.ConnectReply? && st.dispatch.reply.Status?
    && 200 <= st.dispatch.reply.code <= 299
  }

  /** Reconnect sleeps ended since the last connect that succeeded. */
  function SleepsSinceConnect(run: seq<Step>): nat {
    if run == [] || Connects(run[|run| - 1]) then 0
    else SleepsSinceConnect(run[..|run| - 1]) + if run[|run| - 1] == Dispatch(WakeReconnect) then 1 else 0
  }

  /** Ack sleeps ended since the ack loop last closed a batch. */
  function SleepsSinceBatch(run: seq<Step>): nat {
    if run == [] || run[|run| - 1] == Acks(StopFilling) then 0
    else SleepsSinceBatch(run[..|run| - 1]) + if run[|run| - 1] == Acks(AckWake) then 1 else 0
  }

  function Times(run: seq<Step>, st: Step): nat {
    if run == [] then 0 else Times(run[..|run| - 1], st) + if run[|run| - 1] == st then 1 else 0
  }

  function SleepsAfter(sleeps: nat, st: Step): nat {
    if Connects(st) then 0 else sleeps + if st == Dispatch(WakeReconnect) then 1 else 0
  }

  lemma ReconnectStep(c: Config, s: State, st: Step, sleeps: nat)
    requires Enabled(c, s, st) && s.main.retries == sleeps && s.main.backoff == BackoffAt(sleeps)
    ensures var m := Apply(c, s, st).main;
            m.retries == SleepsAfter(sleeps, st) && m.backoff == BackoffAt(SleepsAfter(sleeps, st))
  {
    FirstBackoff();
    NextBackoffStep(sleeps);
    hide BackoffAt, NextBackoff;
  }

  /** The reconnect delay starts over at every successful connect: whatever happened
      before, it is the closed form at the number of sleeps since then. */
  lemma {:induction false} ReconnectDelay(c: Config, run: seq<Step>)
    requires CanRun(c, Init(), run)
    ensures var m := After(c, Init(), run).main;
            m.retries == SleepsSinceConnect(run) && m.backoff == BackoffAt(SleepsSinceConnect(run))
    decreases |run|
  {
    FirstBackoff();
    if run != [] {
      var most := run[..|run| - 1];
      LastStep(c, Init(), run);
      ReconnectDelay(c, most);
      hide Apply, BackoffAt;
      ReconnectStep(c, After(c, Init(), most), run[|run| - 1], SleepsSinceConnect(most));
    }
  }

  /** The same of the ack loop, which starts over with every batch. */
  lemma {:induction false} AckDelay(c: Config, run: seq<Step>)
    requires CanRun(c, Init(), run)
    ensures var a := After(c, Init(), run).pipe.ackLoop;
            (a.Posting? || a.AckSleep?) ==> a.retries == SleepsSinceBatch(run) && a.backoff == BackoffAt(SleepsSinceBatch(run))
    decreases |run|
  {
    FirstBackoff();
    if run != [] {
      LastStep(c, Init(), run);
      AckDelay(c, run[..|run| - 1]);
      NextBackoffStep(SleepsSinceBatch(run[..|run| - 1]));
    }
  }

  predicate Failing(jobs: Jobs, d: Delivery) {
    d in jobs.tasks && (jobs.tasks[d].Reporting? || jobs.tasks[d].ReportSleep?)
  }

  predicate NotYet(jobs: Jobs, d: Delivery) {
    d >= |jobs.ids| || (d in jobs.tasks && (jobs.tasks[d] == Running || jobs.tasks[d] == Sending))
  }

  /** And of a failure report, whose sleeps are those of its own task. */
  predicate ReportDelayed(jobs: Jobs, d: Delivery, sleeps: nat) {
    && (NotYet(jobs, d) ==> sleeps == 0)
    && (Failing(jobs, d) ==> jobs.tasks[d].retries == sleeps && jobs.tasks[d].backoff == BackoffAt(sleeps))
  }

  lemma ReportDelayStep(c: Config, s: State, st: Step, d: Delivery, sleeps: nat)
    requires Conserved(s.jobs, s.pipe) && Enabled(c, s, st) && ReportDelayed(s.jobs, d, sleeps)
    ensures ReportDelayed(Apply(c, s, st).jobs, d, sleeps + if st == Handle(d, ReportWake) then 1 else 0)
  {
    FirstBackoff();
    NextBackoffStep(sleeps);
    match st {
      case FireShutdown =>
      case Dispatch(a) => assert d in s.jobs.tasks ==> d < |s.jobs.ids|;
      case Handle(e, a) => assert e < |s.jobs.ids|;
      case Acks(a) =>
    }
  }

  lemma {:induction false} ReportDelay(c: Config, run: seq<Step>, d: Delivery)
    requires c.Valid() && CanRun(c, Init(), run)
    ensures ReportDelayed(After(c, Init(), run).jobs, d, Times(run, Handle(d, ReportWake)))
    decreases |run|
  {
    if run != [] {
      var most := run[..|run| - 1];
      LastStep(c, Init(), run);
      ReportDelay(c, most, d);
      ReachableInv(c, After(c, Init(), most));
      ReportDelayStep(c, After(c, Init(), most), run[|run| - 1], d, Times(most, Handle(d, ReportWake)));
    }
  }

  // --- Records ---

  /** The ids taken off the streams, in order. */
  function PulledIds(run: seq<Step>): seq<JobId> {
    if run == [] then []
    else
      var st := run[|run| - 1];
      PulledIds(run[..|run| - 1]) + if st.Dispatch? && st.dispatch.Pull? then [st.dispatch.id] else []
  }

  lemma {:induction false} DeliveriesAreThePulls(c: Config, run: seq<Step>)
    requires CanRun(c, Init(), run)
    ensures After(c, Init(), run).jobs.ids == PulledIds(run)
    decreases |run|
  {
    if run != [] {
      LastStep(c, Init(), run);
      DeliveriesAreThePulls(c, run[..|run| - 1]);
    }
  }

  /** What the handler of `d` did, by the last step that says. */
  function HandlerDid(run: seq<Step>, d: Delivery): Option<Verdict> {
    if run == [] then None
    else
      var st := run[|run| - 1];
      if st == Handle(d, HandlerOk) then Some(Ok)
      else if st == Handle(d, HandlerErr) then Some(Err)
      else if st == Handle(d, HandlerPanics) then Some(Panic)
      else HandlerDid(run[..|run| - 1], d)
  }

  lemma {:induction false} VerdictsAreWhatHandlersDid(c: Config, run: seq<Step>, d: Delivery)
    requires CanRun(c, Init(), run)
    ensures var jobs := After(c, Init(), run).jobs;
            HandlerDid(run, d) == if d in jobs.verdicts then Some(jobs.verdicts[d]) else None
    decreases |run|
  {
    if run != [] {
      LastStep(c, Init(), run);
      VerdictsAreWhatHandlersDid(c, run[..|run| - 1], d);
    }
  }

  lemma TaskReports(jobs: Jobs, e: Delivery, st: TaskStep, d: Delivery)
    requires TaskReady(jobs, e, st)
    ensures Count(TaskApply(jobs, e, st).reports, d) == Count(jobs.reports, d)
            + if e == d && (st == HandlerErr || st == ReportWake) then 1 else 0
  {
    assert (jobs.reports + [e])[..|jobs.reports|] == jobs.reports;
  }

  lemma ReportsStep(c: Config, s: State, st: Step, d: Delivery)
    requires Enabled(c, s, st)
    ensures Count(Apply(c, s, st).jobs.reports, d) == Count(s.jobs.reports, d)
            + if st == Handle(d, HandlerErr) || st == Handle(d, ReportWake) then 1 else 0
  {
    hide TaskApply, ControlApply;
    if st.Handle? {
      TaskReports(s.jobs, st.d, st.handle, d);
    }
  }

  /** A failure is reported once when its handler fails and once after each sleep. */
  lemma {:induction false} ReportsAreCounted(c: Config, run: seq<Step>, d: Delivery)
    requires CanRun(c, Init(), run)
    ensures Count(After(c, Init(), run).jobs.reports, d)
         == Times(run, Handle(d, HandlerErr)) + Times(run, Handle(d, ReportWake))
    decreases |run|
  {
    if run != [] {
      var most := run[..|run| - 1];
      LastStep(c, Init(), run);
      ReportsAreCounted(c, most, d);
      hide Apply;
      ReportsStep(c, After(c, Init(), most), run[|run| - 1], d);
    }
  }

  /** A batch is requested once when it closes and once after each sleep. */
  lemma {:induction false} RequestsAreCounted(c: Config, run: seq<Step>)
    requires CanRun(c, Init(), run)
    ensures |After(c, Init(), run).pipe.requests| == Times(run, Acks(StopFilling)) + Times(run, Acks(AckWake))
    decreases |run|
  {
    if run != [] {
      LastStep(c, Init(), run);
      RequestsAreCounted(c, run[..|run| - 1]);
    }
  }

  // --- Replies ---

  predicate Is2xx(r: Reply) {
    r.Status? && 200 <= r.code <= 299
  }

  predicate Is4xx(r: Reply) {
    r.Status? && 400 <= r.code <= 499
  }

  /** A bulk ack: 204 and 422 ack the whole batch, another 4xx rejects it, anything else
      keeps it for another try. */
  lemma AckReplies(c: Config, s: State, r: Reply)
    requires Enabled(c, s, Acks(AckReply(r)))
    ensures var t, batch := Apply(c, s, Acks(AckReply(r))), s.pipe.ackLoop.batch;
            if r == Status(204) || r == Status(422) then
              t.pipe.ackLoop == Receiving && forall d :: d in batch ==> d in t.jobs.fates && t.jobs.fates[d] == Acked(r)
            else if Is4xx(r) then
              t.pipe.ackLoop == Receiving && forall d :: d in batch ==> d in t.jobs.fates && t.jobs.fates[d] == AckRejected(r)
            else
              t.pipe.ackLoop.AckSleep? && t.pipe.ackLoop.batch == batch && t.jobs == s.jobs
  {
  }

  /** A failure report: any 2xx settles it, a 4xx drops it, anything else tries again. */
  lemma ReportReplies(c: Config, s: State, d: Delivery, r: Reply)
    requires Enabled(c, s, Handle(d, ReportReply(r)))
    ensures var jobs := Apply(c, s, Handle(d, ReportReply(r))).jobs;
            if Is2xx(r) then jobs.tasks[d] == Finished && jobs.fates == s.jobs.fates[d := Reported(r)]
            else if Is4xx(r) then jobs.tasks[d] == Finished && jobs.fates == s.jobs.fates[d := ReportRejected(r)]
            else jobs.tasks[d].ReportSleep? && jobs.fates == s.jobs.fates
  {
  }

  /** What a dispatcher step makes of the phase, if the worker was not draining yet. */
  predicate Leaves(c: Config, s: State, a: DispatchStep, p: Phase) {
    match a
    case ConnectReply(r) =>
      if Is2xx(r) then p == Session
      else if Is4xx(r) then p == JoiningTasks(Failed)
      else if c.reconnect then p == Reconnecting
      else p == JoiningTasks(Failed)
    case StreamEnds => p == if c.reconnect then Reconnecting else JoiningTasks(Clean)
    case StreamFails => p == if c.reconnect then Reconnecting else JoiningTasks(Failed)
    case ObserveShutdown => p == JoiningTasks(Clean)
    case WakeReconnect => p == Connecting
    case _ => p == s.main.phase
  }

  /** The drain begins, with the result `run` will return, exactly on a 4xx connect, an
      observed shutdown or, without reconnect, any other failed connect or stream end. */
  lemma WhyDraining(c: Config, s: State, a: DispatchStep)
    requires Enabled(c, s, Dispatch(a)) && !Over(s.main.phase)
    ensures Leaves(c, s, a, Apply(c, s, Dispatch(a)).main.phase)
  {
  }

  /** From there on the result stays what it is. */
  lemma {:induction false} ResultStays(c: Config, s: State, run: seq<Step>)
    requires CanRun(c, s, run) && Over(s.main.phase)
    ensures Over(After(c, s, run).main.phase) && After(c, s, run).main.phase.outcome == s.main.phase.outcome
    decreases |run|
  {
    if run != [] {
      DrainStays(c, s, run[0]);
      ResultStays(c, Apply(c, s, run[0]), run[1..]);
    }
  }
}
