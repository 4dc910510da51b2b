/** The worker protocol (zizq/src/worker.rs) as a step system. A delivery is one
    occurrence of a job pulled from a take stream, numbered in pull order; the same
    job id may be delivered more than once. */
module Worker {
  import opened Backoff

  type JobId = string
  type Delivery = nat

  datatype Config = Config(concurrency: nat, prefetch: nat, reconnect: bool) {
    /** `WorkerBuilder` clamps concurrency to at least 1; `mpsc::channel` needs a
        capacity of at least 1, so a prefetch of 0 is outside the model. */
    predicate Valid() {
      concurrency >= 1 && prefetch >= 1
    }

    function Capacity(): nat {
      prefetch * 2
    }
  }

  /** A spawned `handle_job` task that `join_next` has not yet returned. */
  datatype Task =
    | Running                                  // inside handler.handle
    | Sending                                  // awaiting ack_tx.send
    | Reporting(backoff: nat, retries: nat)    // a failure report is on the wire
    | ReportSleep(backoff: nat, retries: nat)  // sleeping before the next report
    | Finished                                 // done or panicked, not yet joined

  datatype Verdict = Ok | Err | Panic

  /** How a delivery ended. */
  datatype Fate =
    | Acked(reply: Reply)
    | AckRejected(reply: Reply)
    | Reported(reply: Reply)
    | ReportRejected(reply: Reply)
    | Panicked
    | Unsent      // the ack channel was closed before the send
    | Aborted     // the shutdown deadline fired

  /** The `ack_processor` task. */
  datatype AckLoop =
    | Receiving
    | Filling(batch: seq<Delivery>)
    | Posting(batch: seq<Delivery>, backoff: nat, retries: nat)
    | AckSleep(batch: seq<Delivery>, backoff: nat, retries: nat)
    | Exited

  datatype Outcome = Clean | Failed

  /** Where `run` is. */
  datatype Phase =
    | Connecting
    | Session
    | Reconnecting
    | JoiningTasks(outcome: Outcome)
    | AwaitingAcks(outcome: Outcome)
    | Returned(outcome: Outcome, timedOut: bool)

  /** The variables of `run` and `dispatch_loop`. */
  datatype Control = Control(
    phase: Phase,
    streamOpen: bool,
    backoff: nat,         // dispatch_loop's variable
    retries: nat,         // sleeps since the last successful connect
    polled: bool,         // the current select has polled shutdown and found it pending
    shutdownFired: bool   // the caller's future is ready
  )

  /** The JoinSet and what is recorded about each delivery. */
  datatype Jobs = Jobs(
    ids: seq<JobId>,                   // job id of each delivery pulled so far
    tasks: map<Delivery, Task>,        // the JoinSet
    verdicts: map<Delivery, Verdict>,  // what each handler did
    fates: map<Delivery, Fate>,
    reports: seq<Delivery>             // every failure report sent
  )

  /** The ack channel and the ack loop. */
  datatype Pipe = Pipe(
    channel: seq<Delivery>,
    ackLoop: AckLoop,
    sends: seq<Delivery>,          // every successful channel send, in order
    batches: seq<seq<Delivery>>,   // batches the ack loop is done with
    requests: seq<seq<Delivery>>   // every bulk ack request sent
  )

  datatype State = State(main: Control, jobs: Jobs, pipe: Pipe)

  function Init(): State {
    State(Control(Connecting, false, INITIAL_BACKOFF, 0, false, false),
          Jobs([], map[], map[], map[], []),
          Pipe([], Receiving, [], [], []))
  }

  /** Steps of `run`, `dispatch_loop` and `dispatch_session`. */
  datatype DispatchStep =
    | ConnectReply(reply: Reply)
    | ShutdownPending      // a select polls the shutdown future, which is not ready
    | ObserveShutdown      // or is
    | Park                 // the select's other branch is not ready either
    | Pull(id: JobId)
    | StreamEnds
    | StreamFails
    | WakeReconnect
    | Join(d: Delivery)
    | DropSender
    | Finish
    | Deadline

  /** Steps of one `handle_job` task. */
  datatype TaskStep =
    | HandlerOk
    | HandlerErr
    | HandlerPanics
    | SendAck
    | SendClosed
    | ReportReply(reply: Reply)
    | ReportWake

  /** Steps of `ack_processor`. */
  datatype AckStep =
    | Recv
    | TryRecv
    | StopFilling
    | AckReply(reply: Reply)
    | AckWake
    | Exit

  datatype Step =
    | FireShutdown                            // the caller's shutdown future becomes ready
    | Dispatch(dispatch: DispatchStep)
    | Handle(d: Delivery, handle: TaskStep)
    | Acks(acks: AckStep)

  predicate Draining(p: Phase) {
    p.JoiningTasks? || p.AwaitingAcks?
  }

  predicate Live(jobs: Jobs, d: Delivery) {
    d in jobs.tasks && jobs.tasks[d] != Finished
  }

  function Unfinished(jobs: Jobs): set<Delivery> {
    set d | d in jobs.tasks && Live(jobs, d)
  }

  /** Where a biased select on the shutdown future runs. */
  predicate Selecting(p: Phase) {
    p.Session? || p.Reconnecting?
  }

  /** A select polls the shutdown future first and its other branch second, as two
      steps: the future can become ready in between. In a session the other branch is
      the stream below capacity and `join_next` at capacity. */
  predicate CanPollStream(c: Config, s: State) {
    s.main.phase.Session? && s.main.polled && |s.jobs.tasks| < c.concurrency
  }

  predicate CanPollJoin(c: Config, s: State) {
    || s.main.phase.JoiningTasks?
    || (s.main.phase.Session? && s.main.polled && |s.jobs.tasks| >= c.concurrency)
  }

  predicate DispatchEnabled(c: Config, s: State, st: DispatchStep) {
    match st
    case ConnectReply(_) => s.main.phase.Connecting?
    case ShutdownPending => Selecting(s.main.phase) && !s.main.polled && !s.main.shutdownFired
    case ObserveShutdown => Selecting(s.main.phase) && !s.main.polled && s.main.shutdownFired
    case Park => Selecting(s.main.phase) && s.main.polled
    case Pull(_) => CanPollStream(c, s)
    case StreamEnds => CanPollStream(c, s)
    case StreamFails => CanPollStream(c, s)
    case WakeReconnect => s.main.phase.Reconnecting? && s.main.polled
    case Join(d) => d in s.jobs.tasks && s.jobs.tasks[d] == Finished && CanPollJoin(c, s)
    case DropSender => s.main.phase.JoiningTasks? && s.jobs.tasks == map[]
    case Finish => s.main.phase.AwaitingAcks? && s.pipe.ackLoop == Exited
    case Deadline => Draining(s.main.phase)
  }

  /** The part of a handler step that concerns its own JoinSet entry. */
  predicate TaskReady(jobs: Jobs, d: Delivery, st: TaskStep) {
    && d in jobs.tasks
    && match st
       case HandlerOk => jobs.tasks[d] == Running
       case HandlerErr => jobs.tasks[d] == Running
       case HandlerPanics => jobs.tasks[d] == Running
       case SendAck => jobs.tasks[d] == Sending
       case SendClosed => jobs.tasks[d] == Sending
       case ReportReply(_) => jobs.tasks[d].Reporting?
       case ReportWake => jobs.tasks[d].ReportSleep?
  }

  /** `send` waits for room and fails once the receiver is gone. */
  predicate HandleEnabled(c: Config, s: State, d: Delivery, st: TaskStep) {
    && TaskReady(s.jobs, d, st)
    && (st.SendAck? ==> |s.pipe.channel| < c.Capacity() && s.pipe.ackLoop != Exited)
    && (st.SendClosed? ==> s.pipe.ackLoop == Exited)
  }

  /** `recv` returns None once the channel is empty and every sender is dropped:
      `run` holds one until it drops it, and each live task holds a clone. */
  predicate SendersGone(s: State) {
    s.main.phase.AwaitingAcks? && Unfinished(s.jobs) == {}
  }

  /** The batch may close with the channel not empty: `try_recv` finds nothing also
      while a send is half done. */
  predicate AckReady(p: Pipe, st: AckStep) {
    match st
    case Recv => p.ackLoop.Receiving? && p.channel != []
    case TryRecv => p.ackLoop.Filling? && p.channel != []
    case StopFilling => p.ackLoop.Filling?
    case AckReply(_) => p.ackLoop.Posting?
    case AckWake => p.ackLoop.AckSleep?
    case Exit => p.ackLoop.Receiving? && p.channel == []
  }

  predicate AckEnabled(s: State, st: AckStep) {
    AckReady(s.pipe, st) && (st.Exit? ==> SendersGone(s))
  }

  /** Nothing is modelled past the point where `run` returns. */
  predicate Enabled(c: Config, s: State, st: Step) {
    && !s.main.phase.Returned?
    && match st
       case FireShutdown => !s.main.shutdownFired
       case Dispatch(a) => DispatchEnabled(c, s, a)
       case Handle(d, a) => HandleEnabled(c, s, d, a)
       case Acks(a) => AckEnabled(s, a)
  }

  /** The reconnect-or-return choice after a failed connect or an ended session. */
  function LoseStream(c: Config, m: Control, outcome: Outcome): Control {
    m.(phase := if c.reconnect then Reconnecting else JoiningTasks(outcome), streamOpen := false, polled := false)
  }

  function Connected(c: Config, m: Control, reply: Reply): Control {
    match ClassifyCall(reply)
    case Success => m.(phase := Session, streamOpen := true, polled := false, backoff := INITIAL_BACKOFF, retries := 0)
    case Terminal => m.(phase := JoiningTasks(Failed))
    case Transient => LoseStream(c, m, Failed)
  }

  /** What a dispatcher step does to the variables of `run` and `dispatch_loop`. */
  function ControlApply(c: Config, s: State, st: DispatchStep): Control
    requires DispatchEnabled(c, s, st)
  {
    var m := s.main;
    match st
    case ConnectReply(reply) => Connected(c, m, reply)
    case ShutdownPending => m.(polled := true)
    case ObserveShutdown => m.(phase := JoiningTasks(Clean))
    case Park => m.(polled := false)
    case Pull(_) => m.(polled := false)
    case StreamEnds => LoseStream(c, m, Clean)
    case StreamFails => LoseStream(c, m, Failed)
    case WakeReconnect =>
      m.(phase := Connecting, polled := false, backoff := NextBackoff(m.backoff), retries := m.retries + 1)
    case Join(_) => m.(polled := false)
    case DropSender => m.(phase := AwaitingAcks(m.phase.outcome))
    case Finish => m.(phase := Returned(m.phase.outcome, false), streamOpen := false)
    case Deadline => m.(phase := Returned(m.phase.outcome, true), streamOpen := false)
  }

  /** `abort_all`: every task not yet done ends here. */
  function AbortAll(jobs: Jobs): Jobs {
    jobs.(tasks := map[],
          fates := map d | d in jobs.fates.Keys + Unfinished(jobs) :: if d in jobs.fates then jobs.fates[d] else Aborted)
  }

  /** What a dispatcher step does to the JoinSet. */
  function JoinSetApply(jobs: Jobs, st: DispatchStep): Jobs {
    match st
    case Pull(id) => jobs.(ids := jobs.ids + [id], tasks := jobs.tasks[|jobs.ids| := Running])
    case Join(d) => jobs.(tasks := jobs.tasks - {d})
    case Deadline => AbortAll(jobs)
    case _ => jobs
  }

  function EndTask(jobs: Jobs, d: Delivery, f: Fate): Jobs {
    jobs.(tasks := jobs.tasks[d := Finished], fates := jobs.fates[d := f])
  }

  /** What one step of `handle_job` does to its task. */
  function TaskApply(jobs: Jobs, d: Delivery, st: TaskStep): Jobs
    requires TaskReady(jobs, d, st)
  {
    match st
    case HandlerOk => jobs.(tasks := jobs.tasks[d := Sending], verdicts := jobs.verdicts[d := Ok])
    case HandlerErr =>
      jobs.(tasks := jobs.tasks[d := Reporting(INITIAL_BACKOFF, 0)], verdicts := jobs.verdicts[d := Err],
            reports := jobs.reports + [d])
    case HandlerPanics => EndTask(jobs.(verdicts := jobs.verdicts[d := Panic]), d, Panicked)
    case SendAck => jobs.(tasks := jobs.tasks[d := Finished])
    case SendClosed => EndTask(jobs, d, Unsent)
    case ReportReply(reply) =>
      (match ClassifyCall(reply)
       case Success => EndTask(jobs, d, Reported(reply))
       case Terminal => EndTask(jobs, d, ReportRejected(reply))
       case Transient => jobs.(tasks := jobs.tasks[d := ReportSleep(jobs.tasks[d].backoff, jobs.tasks[d].retries)]))
    case ReportWake =>
      jobs.(tasks := jobs.tasks[d := Reporting(NextBackoff(jobs.tasks[d].backoff), jobs.tasks[d].retries + 1)],
            reports := jobs.reports + [d])
  }

  /** A successful `ack_tx.send`. */
  function Send(p: Pipe, d: Delivery): Pipe {
    p.(channel := p.channel + [d], sends := p.sends + [d])
  }

  function DoneWith(p: Pipe, batch: seq<Delivery>): Pipe {
    p.(ackLoop := Receiving, batches := p.batches + [batch])
  }

  function Post(p: Pipe, batch: seq<Delivery>, backoff: nat, retries: nat): Pipe {
    p.(ackLoop := Posting(batch, backoff, retries), requests := p.requests + [batch])
  }

  /** What one step of `ack_processor` does to the pipeline. */
  function PipeApply(p: Pipe, st: AckStep): Pipe
    requires AckReady(p, st)
  {
    match st
    case Recv => p.(ackLoop := Filling([p.channel[0]]), channel := p.channel[1..])
    case TryRecv => p.(ackLoop := Filling(p.ackLoop.batch + [p.channel[0]]), channel := p.channel[1..])
    case StopFilling => Post(p, p.ackLoop.batch, INITIAL_BACKOFF, 0)
    case AckReply(reply) =>
      if ClassifyAck(reply) == Transient then p.(ackLoop := AckSleep(p.ackLoop.batch, p.ackLoop.backoff, p.ackLoop.retries))
      else DoneWith(p, p.ackLoop.batch)
    case AckWake => Post(p, p.ackLoop.batch, NextBackoff(p.ackLoop.backoff), p.ackLoop.retries + 1)
    case Exit => p.(ackLoop := Exited)
  }

  function Settle(fates: map<Delivery, Fate>, batch: seq<Delivery>, f: Fate): map<Delivery, Fate> {
    map d | d in fates.Keys + (set x | x in batch) :: if d in batch then f else fates[d]
  }

  /** What one step of `ack_processor` settles. */
  function AckSettles(jobs: Jobs, p: Pipe, st: AckStep): Jobs
    requires AckReady(p, st)
  {
    if !st.AckReply? then jobs else
      match ClassifyAck(st.reply)
      case Success => jobs.(fates := Settle(jobs.fates, p.ackLoop.batch, Acked(st.reply)))
      case Terminal => jobs.(fates := Settle(jobs.fates, p.ackLoop.batch, AckRejected(st.reply)))
      case Transient => jobs
  }

  function Apply(c: Config, s: State, st: Step): State
    requires Enabled(c, s, st)
  {
    match st
    case FireShutdown => s.(main := s.main.(shutdownFired := true))
    case Dispatch(a) => s.(main := ControlApply(c, s, a), jobs := JoinSetApply(s.jobs, a))
    case Handle(d, a) => s.(jobs := TaskApply(s.jobs, d, a), pipe := if a.SendAck? then Send(s.pipe, d) else s.pipe)
    case Acks(a) => s.(jobs := AckSettles(s.jobs, s.pipe, a), pipe := PipeApply(s.pipe, a))
  }

  // --- Runs ---

  predicate CanRun(c: Config, s: State, run: seq<Step>)
    decreases |run|
  {
    run == [] || (Enabled(c, s, run[0]) && CanRun(c, Apply(c, s, run[0]), run[1..]))
  }

  function After(c: Config, s: State, run: seq<Step>): State
    requires CanRun(c, s, run)
    decreases |run|
  {
    if run == [] then s else After(c, Apply(c, s, run[0]), run[1..])
  }
}
