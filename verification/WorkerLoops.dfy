/** The worker's tasks as the loops they are (zizq/src/worker.rs), each run against
    whatever the other tasks do while it awaits. Every effect of a loop is a step the
    step system allows, so everything proved of reachable states holds of the loops. */
module WorkerLoops {
  import opened Backoff
  import opened Worker
  import opened WorkerInvariant
  import opened WorkerTheorems
  import opened Wrappers

  /** What an awaited operation has to offer at the next poll. */
  datatype Offer =
    | Nothing
    | Response(reply: Reply)
    | Item(id: JobId)
    | StreamEnd
    | StreamError
    | Joined(d: Delivery)
    | Handled(verdict: Verdict)
    | Expired
    | Busy  // a send is half done: `try_recv` may find nothing

  /** The steps of other tasks while this one awaits, and the offer it then finds. */
  datatype Turn = Turn(others: seq<Step>, offer: Offer)

  datatype Role = Dispatcher | Acker | Handler(d: Delivery)

  predicate Mine(role: Role, st: Step) {
    match role
    case Dispatcher => st.Dispatch?
    case Acker => st.Acks?
    case Handler(d) => st.Handle? && st.d == d
  }

  predicate Delivered(s: State, d: Delivery) {
    d < |s.jobs.ids|
  }

  /** What the other tasks leave alone of the part a task works on. */
  ghost predicate Kept(role: Role, s: State, t: State) {
    match role
    case Dispatcher =>
      && t.main == s.main.(shutdownFired := t.main.shutdownFired)
      && (s.main.shutdownFired ==> t.main.shutdownFired)
      && t.jobs.tasks.Keys == s.jobs.tasks.Keys
    case Acker =>
      && t.pipe.ackLoop == s.pipe.ackLoop && s.pipe.channel <= t.pipe.channel
      && t.pipe.batches == s.pipe.batches && t.pipe.requests == s.pipe.requests
    case Handler(d) => TaskKept(d, s.jobs, t.jobs) && Count(t.jobs.reports, d) == Count(s.jobs.reports, d)
  }

  predicate TaskKept(d: Delivery, s: Jobs, t: Jobs) {
    && |s.ids| <= |t.ids|
    && (d < |s.ids| && d in t.tasks ==> d in s.tasks && t.tasks[d] == s.tasks[d])
    && (d in s.verdicts ==> d in t.verdicts && t.verdicts[d] == s.verdicts[d])
  }

  lemma OthersKeepTask(c: Config, d: Delivery, s: State, st: Step)
    requires Enabled(c, s, st) && !Mine(Handler(d), st)
    ensures TaskKept(d, s.jobs, Apply(c, s, st).jobs)
  {
  }

  lemma OthersReportOthers(jobs: Jobs, d: Delivery, e: Delivery, st: TaskStep)
    requires TaskReady(jobs, e, st) && d != e
    ensures Count(TaskApply(jobs, e, st).reports, d) == Count(jobs.reports, d)
  {
    assert (jobs.reports + [e])[..|jobs.reports|] == jobs.reports;
  }

  lemma OthersKeep(c: Config, role: Role, s: State, st: Step)
    requires Enabled(c, s, st) && !Mine(role, st)
    ensures Kept(role, s, Apply(c, s, st))
  {
    if role.Handler? {
      OthersKeepTask(c, role.d, s, st);
      if st.Handle? {
        OthersReportOthers(s.jobs, role.d, st.d, st.handle);
      }
    }
  }

  lemma {:induction false} RunOneMore(c: Config, s: State, run: seq<Step>, st: Step)
    requires CanRun(c, s, run) && Enabled(c, After(c, s, run), st)
    ensures CanRun(c, s, run + [st]) && After(c, s, run + [st]) == Apply(c, After(c, s, run), st)
    decreases |run|
  {
    if run == [] {
      assert [st][1..] == [];
    } else {
      assert (run + [st])[1..] == run[1..] + [st];
      RunOneMore(c, Apply(c, s, run[0]), run[1..], st);
    }
  }

  lemma StepReachable(c: Config, s: State, st: Step)
    requires Reachable(c, s) && Enabled(c, s, st)
    ensures Reachable(c, Apply(c, s, st))
  {
    var run :| CanRun(c, Init(), run) && After(c, Init(), run) == s;
    RunOneMore(c, Init(), run, st);
  }

  /** A step of its own is due for the loop: it has been offered what that step takes,
      or the step takes no offer. */
  predicate Pressing(c: Config, role: Role, s: State, o: Offer) {
    && !s.main.phase.Returned?
    && match role
       case Dispatcher =>
         || (o.Response? && s.main.phase.Connecting?)
         || ((o.Item? || o.StreamEnd? || o.StreamError?) && CanPollStream(c, s))
         || (o.Joined? && DispatchEnabled(c, s, Join(o.d)))
         || (o.Expired? && (DispatchEnabled(c, s, WakeReconnect) || DispatchEnabled(c, s, Deadline)))
         || DispatchEnabled(c, s, DropSender) || DispatchEnabled(c, s, Finish)
       case Acker =>
         || (o.Response? && s.pipe.ackLoop.Posting?) || (o.Expired? && s.pipe.ackLoop.AckSleep?)
         || AckEnabled(s, Recv) || AckEnabled(s, Exit)
       case Handler(d) =>
         || (o.Handled? && TaskReady(s.jobs, d, HandlerOk))
         || (o.Response? && TaskReady(s.jobs, d, ReportReply(o.reply)))
         || (o.Expired? && TaskReady(s.jobs, d, ReportWake))
         || HandleEnabled(c, s, d, SendAck)
  }

  /** What a loop has to have been offered to take a step of its own. A select parks only
      on an offer it cannot use, and a batch closes only on an empty channel or one that
      looks empty. */
  predicate Heard(c: Config, s: State, o: Offer, st: Step) {
    match st
    case Dispatch(ConnectReply(reply)) => o == Response(reply)
    case Dispatch(Pull(id)) => o == Item(id)
    case Dispatch(StreamEnds) => o == StreamEnd
    case Dispatch(StreamFails) => o == StreamError
    case Dispatch(Join(d)) => o == Joined(d)
    case Dispatch(WakeReconnect) => o == Expired
    case Dispatch(Deadline) => o == Expired
    case Handle(_, HandlerOk) => o == Handled(Ok)
    case Handle(_, HandlerErr) => o == Handled(Err)
    case Handle(_, HandlerPanics) => o == Handled(Panic)
    case Handle(_, ReportReply(reply)) => o == Response(reply)
    case Handle(_, ReportWake) => o == Expired
    case Acks(AckReply(reply)) => o == Response(reply)
    case Acks(AckWake) => o == Expired
    case Dispatch(Park) => !Pressing(c, Dispatcher, s, o)
    case Acks(StopFilling) => s.pipe.channel == [] || o == Busy
    case _ => true
  }

  /** Everything that is shared, as seen from one loop. */
  class World {
    const config: Config
    const role: Role
    var state: State
    var script: seq<Turn>
    var offer: Offer  // what the last await found, until it is acted on

    ghost predicate Valid()
      reads this
    {
      Reachable(config, state)
    }

    /** No step of this loop's own is due. */
    predicate Idle()
      reads this
    {
      !Pressing(config, role, state, offer)
    }

    /** A worker that has just been started. */
    constructor (config: Config, role: Role, script: seq<Turn>)
      requires config.Valid()
      ensures Valid() && state == Init() && offer == Nothing && this.config == config && this.role == role && this.script == script
    {
      this.config, this.role, this.script, state, offer := config, role, script, Init(), Nothing;
      new;
      assert CanRun(config, Init(), []) && After(config, Init(), []) == Init();
    }

    /** One step of any task; the step system has to allow it. */
    method Advance(st: Step)
      requires Valid() && Enabled(config, state, st)
      modifies this`state
      ensures Valid() && state == Apply(config, old(state), st)
    {
      StepReachable(config, state, st);
      state := Apply(config, state, st);
    }

    /** One step of this loop: its own, allowed, and one it was offered what it takes. */
    method Take(st: Step)
      requires Valid() && Mine(role, st) && Enabled(config, state, st) && Heard(config, state, offer, st)
      modifies this`state, this`offer
      ensures Valid() && state == Apply(config, old(state), st) && offer == Nothing
    {
      Advance(st);
      offer := Nothing;
    }

    /** Other tasks take whatever steps of the next turn they can. A loop awaits only with
        no step of its own due. No offer means that the script is over and this loop is
        still waiting. */
    method Await() returns (found: Option<Offer>)
      requires Valid() && Idle()
      modifies this
      ensures Valid() && Kept(role, old(state), state)
      ensures if old(script) == [] then found == None && script == []
              else offer == old(script)[0].offer && found == Some(offer) && script == old(script)[1..]
    {
      if script == [] {
        return None;
      }
      var turn := script[0];
      script := script[1..];
      for i := 0 to |turn.others|
        invariant Valid() && Kept(role, old(state), state) && script == old(script)[1..]
      {
        if !Mine(role, turn.others[i]) && Enabled(config, state, turn.others[i]) {
          OthersKeep(config, role, state, turn.others[i]);
          Advance(turn.others[i]);
        }
      }
      offer := turn.offer;
      found := Some(offer);
    }
  }

  // --- run, dispatch_loop and dispatch_session ---

  /** `Waiting`: the script ended while the session was still going. */
  datatype SessionEnd = Shutdown | StreamEnded | TransportError | Waiting

  /** The stream handed back, if still open, and the result; or still going. */
  datatype LoopEnd = Left(stream: bool, result: Outcome) | Dispatching

  /** `Unpolled`: the script ended first. */
  datatype Poll = Fired | Pending | Unpolled

  datatype Sleep = Woken | Interrupted | Asleep

  datatype RunEnd = Done(result: Outcome, timedOut: bool) | StillRunning

  class DispatchTask {
    const world: World
    var inflight: set<Delivery>
    var backoff: nat

    constructor (config: Config, script: seq<Turn>)
      requires config.Valid()
      ensures fresh(world) && world.config == config && Synced() && world.state == Init() && world.offer == Nothing
    {
      world := new World(config, Dispatcher, script);
      inflight, backoff := {}, INITIAL_BACKOFF;
    }

    /** The loop's own variables are those of the step system. */
    ghost predicate Synced()
      reads this, world
    {
      && world.Valid() && world.role == Dispatcher
      && inflight == world.state.jobs.tasks.Keys
      && backoff == world.state.main.backoff
    }

    ghost predicate In(phase: Phase)
      reads this, world
    {
      Synced() && world.state.main.phase == phase && !world.state.main.polled
    }

    /** The first branch of a biased select on the shutdown future. */
    method PollShutdown() returns (r: Poll)
      requires Synced() && Selecting(world.state.main.phase) && !world.state.main.polled
      modifies world
      ensures Synced() && |world.script| <= old(|world.script|)
      ensures r.Fired? ==> In(JoiningTasks(Clean)) && world.state.main.shutdownFired
      ensures if r.Unpolled? then world.script == [] else world.offer == Nothing
      ensures r.Pending? ==>
                |world.script| < old(|world.script|) && world.state.main.phase == old(world.state.main.phase) && world.state.main.polled
      ensures r.Pending? ==> !world.state.main.shutdownFired
      ensures old(world.state.main.shutdownFired) ==> !r.Pending? && world.state.main.shutdownFired
      ensures world.state.main.streamOpen == old(world.state.main.streamOpen)
    {
      var offer := world.Await();
      if offer.None? {
        return Unpolled;
      }
      if world.state.main.shutdownFired {
        world.Take(Dispatch(ObserveShutdown));
        return Fired;
      }
      world.Take(Dispatch(ShutdownPending));
      r := Pending;
    }

    method TryJoin(offer: Offer) returns (joined: bool)
      requires Synced() && CanPollJoin(world.config, world.state) && offer == world.offer
      modifies this`inflight, world`state, world`offer
      ensures Synced() && world.state.main == old(world.state.main).(polled := !joined && old(world.state.main.polled))
      ensures joined == old(offer.Joined? && offer.d in inflight && world.state.jobs.tasks[offer.d] == Finished)
      ensures joined ==> inflight == old(inflight) - {offer.d} && world.offer == Nothing
      ensures !joined ==> world.state == old(world.state) && inflight == old(inflight) && world.offer == offer
    {
      joined := false;
      if offer.Joined? && offer.d in inflight && world.state.jobs.tasks[offer.d] == Finished {
        world.Take(Dispatch(Join(offer.d)));
        inflight := inflight - {offer.d};
        joined := true;
      }
    }

    /** Where a session that has ended with `end` leaves the worker. */
    ghost predicate SessionLeft(end: SessionEnd)
      reads this, world
    {
      match end
      case Shutdown =>
        In(JoiningTasks(Clean)) && world.state.main.streamOpen && world.state.main.shutdownFired && world.offer == Nothing
      case StreamEnded =>
        && In(if world.config.reconnect then Reconnecting else JoiningTasks(Clean)) && !world.state.main.streamOpen
        && world.offer == Nothing
      case TransportError =>
        && In(if world.config.reconnect then Reconnecting else JoiningTasks(Failed)) && !world.state.main.streamOpen
        && world.offer == Nothing
      case Waiting => world.Valid() && world.script == []
    }

    /** An offer the select cannot use. */
    method Park()
      requires Synced() && Selecting(world.state.main.phase) && world.state.main.polled && world.Idle()
      modifies world`state, world`offer
      ensures Synced() && world.offer == Nothing
      ensures world.state == old(world.state).(main := old(world.state.main).(polled := false))
    {
      world.Take(Dispatch(DispatchStep.Park));
    }

    /** One select while at capacity: the shutdown future, then `join_next`. */
    method AwaitJoin() returns (end: Option<SessionEnd>)
      requires In(Session) && world.state.main.streamOpen && |inflight| >= world.config.concurrency
      modifies this`inflight, world
      ensures |world.script| <= old(|world.script|)
      ensures if end.Some? then SessionLeft(end.value) && (end.value.Shutdown? || end.value.Waiting?)
              else In(Session) && world.state.main.streamOpen && |world.script| < old(|world.script|)
      ensures old(world.state.main.shutdownFired) ==> end.Some?
    {
      var polled := PollShutdown();
      if !polled.Pending? {
        return Some(if polled.Fired? then Shutdown else Waiting);
      }
      // The future may become ready here, before the second branch is polled.
      var offer := world.Await();
      if offer.None? {
        return Some(Waiting);
      }
      var joined := TryJoin(offer.value);
      if !joined {
        Park();
      }
      end := None;
    }

    /** Blocks while at capacity; a shutdown that is ready wins over a finished task. */
    method AwaitSlot() returns (end: Option<SessionEnd>)
      requires In(Session) && world.state.main.streamOpen
      modifies this`inflight, world
      ensures |world.script| <= old(|world.script|)
      ensures if end.Some? then SessionLeft(end.value) && (end.value.Shutdown? || end.value.Waiting?)
              else In(Session) && world.state.main.streamOpen && |inflight| < world.config.concurrency
      ensures old(|inflight| >= world.config.concurrency && world.state.main.shutdownFired) ==> end.Some?
    {
      ghost var first := true;
      while |inflight| >= world.config.concurrency
        invariant In(Session) && world.state.main.streamOpen && |world.script| <= old(|world.script|)
        invariant first ==> inflight == old(inflight) && world.state == old(world.state)
        invariant !first ==> !old(|inflight| >= world.config.concurrency && world.state.main.shutdownFired)
        decreases |world.script|
      {
        end := AwaitJoin();
        if end.Some? {
          return end;
        }
        first := false;
      }
      end := None;
    }

    method Spawn(id: JobId)
      requires Synced() && CanPollStream(world.config, world.state) && world.offer == Item(id)
      modifies this`inflight, world`state, world`offer
      ensures In(Session) && world.state.main.streamOpen == old(world.state.main.streamOpen) && world.offer == Nothing
      ensures world.state.jobs.ids == old(world.state.jobs.ids) + [id]
    {
      inflight := inflight + {|world.state.jobs.ids|};
      world.Take(Dispatch(Pull(id)));
    }

    method LoseSession() returns (end: SessionEnd)
      requires Synced() && CanPollStream(world.config, world.state) && (world.offer.StreamEnd? || world.offer.StreamError?)
      modifies world`state, world`offer
      ensures SessionLeft(end) && end == if old(world.offer.StreamEnd?) then StreamEnded else TransportError
      ensures world.state.jobs.ids == old(world.state.jobs.ids)
    {
      if world.offer.StreamEnd? {
        world.Take(Dispatch(StreamEnds));
        end := StreamEnded;
      } else {
        world.Take(Dispatch(StreamFails));
        end := TransportError;
      }
    }

    /** The other branch below capacity: what the stream has to offer. */
    method PollStream(offer: Offer) returns (end: Option<SessionEnd>)
      requires Synced() && CanPollStream(world.config, world.state) && world.state.main.streamOpen && offer == world.offer
      modifies this`inflight, world`state, world`offer
      ensures if end.Some? then SessionLeft(end.value) else In(Session) && world.state.main.streamOpen
      ensures offer.StreamEnd? <==> end == Some(StreamEnded)
      ensures offer.StreamError? <==> end == Some(TransportError)
      ensures world.state.jobs.ids == old(world.state.jobs.ids) + if offer.Item? then [offer.id] else []
    {
      match offer {
        case Item(id) => Spawn(id);
        case StreamEnd =>
          var lost := LoseSession();
          return Some(lost);
        case StreamError =>
          var lost := LoseSession();
          return Some(lost);
        case _ => Park();
      }
      end := None;
    }

    /** One poll of the shutdown future and, if that is not ready, of the stream. */
    method PullOne() returns (end: Option<SessionEnd>)
      requires In(Session) && world.state.main.streamOpen && |inflight| < world.config.concurrency
      modifies this`inflight, world
      ensures end.None? ==> |world.script| < old(|world.script|) && In(Session) && world.state.main.streamOpen
      ensures end.Some? ==> |world.script| <= old(|world.script|) && SessionLeft(end.value)
      ensures old(world.state.main.shutdownFired) ==> end == Some(Shutdown) || end == Some(Waiting)
    {
      var polled := PollShutdown();
      if !polled.Pending? {
        return Some(if polled.Fired? then Shutdown else Waiting);
      }
      var offer := world.Await();
      if offer.None? {
        return Some(Waiting);
      }
      end := PollStream(offer.value);
    }

    method DispatchSession() returns (end: SessionEnd)
      requires In(Session) && world.state.main.streamOpen
      modifies this`inflight, world
      ensures |world.script| <= old(|world.script|) && SessionLeft(end)
    {
      while true
        invariant In(Session) && world.state.main.streamOpen && |world.script| <= old(|world.script|)
        decreases |world.script|
      {
        var ended := AwaitSlot();
        if ended.None? {
          ended := PullOne();
        }
        if ended.Some? {
          return ended.value;
        }
      }
    }

    /** Biased: a shutdown that is ready wins over the timer. */
    method SleepOrShutdown() returns (r: Sleep)
      requires In(Reconnecting)
      modifies world
      ensures |world.script| <= old(|world.script|)
      ensures r.Woken? ==> Synced() && Enabled(world.config, world.state, Dispatch(WakeReconnect)) && |world.script| < old(|world.script|)
      ensures r.Woken? ==> world.offer == Expired
      ensures old(world.state.main.shutdownFired) ==> !r.Woken?
      ensures r.Interrupted? ==> In(JoiningTasks(Clean)) && world.offer == Nothing
      ensures r.Asleep? ==> world.Valid() && world.script == []
      ensures world.state.main.streamOpen == old(world.state.main.streamOpen)
    {
      while true
        invariant In(Reconnecting) && |world.script| <= old(|world.script|)
        invariant old(world.state.main.shutdownFired) ==> world.state.main.shutdownFired
        invariant world.state.main.streamOpen == old(world.state.main.streamOpen)
        decreases |world.script|
      {
        var polled := PollShutdown();
        if !polled.Pending? {
          return if polled.Fired? then Interrupted else Asleep;
        }
        var offer := world.Await();
        if offer.None? {
          return Asleep;
        }
        if offer.value.Expired? {
          return Woken;
        }
        Park();
      }
    }

    /** Waits for the reply to a connect. */
    method Connect() returns (reply: Option<Reply>)
      requires In(Connecting) && !world.state.main.streamOpen && world.Idle()
      modifies world
      ensures if reply.None? then world.Valid() && world.script == []
              else In(Connecting) && !world.state.main.streamOpen && world.offer == Response(reply.value)
                   && |world.script| < old(|world.script|)
    {
      while true
        invariant In(Connecting) && !world.state.main.streamOpen && world.Idle() && |world.script| <= old(|world.script|)
        decreases |world.script|
      {
        var offer := world.Await();
        if offer.None? {
          return None;
        }
        if offer.value.Response? {
          return Some(offer.value.reply);
        }
      }
    }

    ghost predicate LoopLeft(end: LoopEnd)
      reads this, world
    {
      if end.Dispatching? then world.Valid() && world.script == []
      else
        && In(JoiningTasks(end.result)) && world.state.main.streamOpen == end.stream && world.offer == Nothing
        && (end.stream ==> world.state.main.shutdownFired && end.result.Clean?)
    }

    /** One reply and the session it may open. Nothing returned: on to the backoff. */
    method Serve(reply: Reply) returns (end: Option<LoopEnd>)
      requires In(Connecting) && !world.state.main.streamOpen && world.offer == Response(reply)
      modifies this, world
      ensures |world.script| <= old(|world.script|)
      ensures if end.Some? then LoopLeft(end.value) else In(Reconnecting) && !world.state.main.streamOpen
    {
      world.Take(Dispatch(ConnectReply(reply)));
      match ClassifyCall(reply) {
        case Success =>
          backoff := INITIAL_BACKOFF;
          var session := DispatchSession();
          match session {
            case Waiting => return Some(Dispatching);
            case Shutdown => return Some(Left(true, Clean));
            case StreamEnded =>
              if !world.config.reconnect {
                return Some(Left(false, Clean));
              }
            case TransportError =>
              if !world.config.reconnect {
                return Some(Left(false, Failed));
              }
          }
        case Terminal => return Some(Left(false, Failed));
        case Transient =>
          if !world.config.reconnect {
            return Some(Left(false, Failed));
          }
      }
      end := None;
    }

    method DispatchLoop() returns (end: LoopEnd)
      requires In(Connecting) && !world.state.main.streamOpen && world.Idle()
      modifies this, world
      ensures LoopLeft(end)
    {
      while true
        invariant In(Connecting) && !world.state.main.streamOpen && world.Idle()
        decreases |world.script|
      {
        var reply := Connect();
        if reply.None? {
          return Dispatching;
        }
        var ended := Serve(reply.value);
        if ended.Some? {
          return ended.value;
        }
        var slept := SleepOrShutdown();
        match slept {
          case Asleep => return Dispatching;
          case Interrupted => return Left(false, Clean);
          case Woken => Reconnect();
        }
      }
    }

    method Reconnect()
      requires Synced() && Enabled(world.config, world.state, Dispatch(WakeReconnect)) && world.offer == Expired
      modifies this`backoff, world`state, world`offer
      ensures In(Connecting) && world.state.main.streamOpen == old(world.state.main.streamOpen) && world.offer == Nothing
      ensures backoff == NextBackoff(old(backoff))
    {
      backoff := NextBackoff(backoff);
      world.Take(Dispatch(WakeReconnect));
    }

    /** Waits for the ack loop to exit, or for the deadline. */
    method AwaitAcks(result: Outcome) returns (end: RunEnd)
      requires In(AwaitingAcks(result)) && world.offer == Nothing
      modifies world
      ensures RunLeft(end)
    {
      while !world.state.pipe.ackLoop.Exited?
        invariant In(AwaitingAcks(result)) && (!world.state.pipe.ackLoop.Exited? ==> world.Idle())
        decreases |world.script|
      {
        var offer := world.Await();
        if offer.None? {
          return StillRunning;
        }
        if offer.value.Expired? && !world.state.pipe.ackLoop.Exited? {
          end := GiveUp(result);
          return end;
        }
      }
      world.Take(Dispatch(Finish));
      ReturnedClean(world.config, world.state);
      end := Done(result, false);
    }

    /** What `run` has come to. A drain that beats the deadline leaves no task, channel
        entry or batch, and every delivery ended. */
    ghost predicate RunLeft(end: RunEnd)
      reads this, world
    {
      && world.Valid()
      && if end.StillRunning? then world.script == []
         else
           && world.state.main.phase == Returned(end.result, end.timedOut) && !world.state.main.streamOpen
           && (!end.timedOut ==> Quiet(world.state) && forall d :: 0 <= d < |world.state.jobs.ids| ==> Ended(world.state, d))
    }

    /** The deadline: the tasks are aborted. */
    method GiveUp(result: Outcome) returns (end: RunEnd)
      requires Synced() && world.offer == Expired
      requires world.state.main.phase == JoiningTasks(result) || world.state.main.phase == AwaitingAcks(result)
      modifies world`state, world`offer
      ensures end == Done(result, true) && RunLeft(end)
    {
      world.Take(Dispatch(Deadline));
      end := Done(result, true);
    }

    /** Waits for the tasks still running, or for the deadline. */
    method JoinTasks(result: Outcome) returns (end: Option<RunEnd>)
      requires In(JoiningTasks(result)) && world.offer == Nothing
      modifies this`inflight, world
      ensures if end.Some? then RunLeft(end.value)
              else In(JoiningTasks(result)) && world.state.jobs.tasks == map[]
    {
      while inflight != {}
        invariant In(JoiningTasks(result)) && (inflight != {} ==> world.Idle())
        decreases |world.script|
      {
        var offer := world.Await();
        if offer.None? {
          return Some(StillRunning);
        }
        if offer.value.Expired? {
          var late := GiveUp(result);
          return Some(late);
        }
        var _ := TryJoin(offer.value);
      }
      assert world.state.jobs.tasks == map[] by { assert world.state.jobs.tasks.Keys == {}; }
      end := None;
    }

    /** The worker from start to return. */
    method Run() returns (end: RunEnd)
      requires Synced() && world.state == Init() && world.offer == Nothing
      modifies this, world
      ensures RunLeft(end)
    {
      var left := DispatchLoop();
      if left.Dispatching? {
        return StillRunning;
      }
      var joined := JoinTasks(left.result);
      if joined.Some? {
        return joined.value;
      }
      world.Take(Dispatch(DropSender));
      end := AwaitAcks(left.result);
    }
  }

  // --- Sleeping between retries ---

  /** A retry loop between two tries. */
  predicate Asleep(role: Role, s: State) {
    match role
    case Dispatcher => false
    case Acker => s.pipe.ackLoop.AckSleep?
    case Handler(d) => Delivered(s, d) && (d in s.jobs.tasks ==> s.jobs.tasks[d].ReportSleep?)
  }

  /** Other tasks go on meanwhile. Not woken: the script ended or the worker returned. */
  method SleepFor(world: World) returns (woken: bool)
    requires world.Valid() && !world.state.main.phase.Returned? && Asleep(world.role, world.state) && world.Idle()
    modifies world
    ensures world.Valid() && Kept(world.role, old(world.state), world.state) && |world.script| <= old(|world.script|)
    ensures if woken then !world.state.main.phase.Returned? && world.offer == Expired
            else world.script == [] || world.state.main.phase.Returned?
  {
    woken := false;
    while !woken
      invariant world.Valid() && Kept(world.role, old(world.state), world.state) && |world.script| <= old(|world.script|)
      invariant !world.state.main.phase.Returned? && Asleep(world.role, world.state)
      invariant if woken then world.offer == Expired else world.Idle()
      decreases |world.script|, !woken
    {
      var offer := world.Await();
      if offer.None? || world.state.main.phase.Returned? {
        return false;
      }
      woken := offer.value.Expired?;
    }
  }

  // --- ack_processor ---

  /** Everything requested since `before` was this batch. */
  ghost predicate OnlySent(before: seq<seq<Delivery>>, now: seq<seq<Delivery>>, batch: seq<Delivery>) {
    before <= now && forall i :: |before| <= i < |now| ==> now[i] == batch
  }

  /** A request for this batch is on the wire, after `k` sleeps. */
  ghost predicate Posted(world: World, batch: seq<Delivery>, backoff: nat, k: nat)
    reads world
  {
    && world.Valid() && world.role == Acker && !world.state.main.phase.Returned?
    && world.state.pipe.ackLoop == Posting(batch, backoff, k)
  }

  datatype Tried = Settled | Resent | Stopped

  /** Waits for the reply; a transient failure sleeps and sends the batch once more. */
  method TryBatch(world: World, batch: seq<Delivery>, backoff: nat, ghost k: nat) returns (r: Tried)
    requires Posted(world, batch, backoff, k) && world.Idle()
    modifies world
    ensures world.Valid() && |world.script| <= old(|world.script|)
    ensures world.state.pipe.batches == old(world.state.pipe.batches) + if r.Settled? then [batch] else []
    ensures world.state.pipe.requests == old(world.state.pipe.requests) + if r.Resent? then [batch] else []
    ensures match r
            case Settled => world.state.pipe.ackLoop == Receiving && !world.state.main.phase.Returned? && |world.script| < old(|world.script|)
            case Resent =>
              Posted(world, batch, NextBackoff(backoff), k + 1) && world.offer == Nothing && |world.script| < old(|world.script|)
            case Stopped => world.script == [] || world.state.main.phase.Returned?
  {
    var reply := AwaitAckReply(world, batch, backoff, k);
    if reply.None? {
      return Stopped;
    }
    world.Take(Acks(AckReply(reply.value)));
    if ClassifyAck(reply.value) != Transient {
      return Tried.Settled;
    }
    var woken := SleepFor(world);
    if !woken {
      return Stopped;
    }
    world.Take(Acks(AckWake));
    r := Resent;
  }

  method AwaitAckReply(world: World, batch: seq<Delivery>, backoff: nat, ghost k: nat) returns (reply: Option<Reply>)
    requires Posted(world, batch, backoff, k) && world.Idle()
    modifies world
    ensures world.Valid() && Kept(Acker, old(world.state), world.state)
    ensures if reply.None? then |world.script| <= old(|world.script|) && (world.script == [] || world.state.main.phase.Returned?)
            else |world.script| < old(|world.script|) && Posted(world, batch, backoff, k) && world.offer == Response(reply.value)
  {
    while true
      invariant Posted(world, batch, backoff, k) && world.Idle() && |world.script| <= old(|world.script|)
      invariant Kept(Acker, old(world.state), world.state)
      decreases |world.script|
    {
      var offer := world.Await();
      if offer.None? || world.state.main.phase.Returned? {
        return None;
      }
      if offer.value.Response? {
        return Some(offer.value.reply);
      }
    }
  }

  /** Retries the same batch until it is settled, sleeping in between; `settled` is false
      when the script ends or the worker returns first. */
  method ReportBatch(world: World, batch: seq<Delivery>) returns (settled: bool, sleeps: seq<nat>)
    requires Posted(world, batch, INITIAL_BACKOFF, 0) && world.Idle()
    modifies world
    ensures world.Valid() && |world.script| <= old(|world.script|)
    ensures OnlySent(old(world.state.pipe.requests), world.state.pipe.requests, batch)
    ensures |world.state.pipe.requests| == old(|world.state.pipe.requests|) + |sleeps| && sleeps == Delays(|sleeps|)
    ensures if settled then world.state.pipe.ackLoop == Receiving && !world.state.main.phase.Returned? && |world.script| < old(|world.script|)
            else world.script == [] || world.state.main.phase.Returned?
    ensures world.state.pipe.batches == old(world.state.pipe.batches) + if settled then [batch] else []
  {
    var backoff := INITIAL_BACKOFF;
    sleeps := [];
    assert Pow2(0) == 1;
    while true
      invariant Posted(world, batch, backoff, |sleeps|) && world.Idle() && |world.script| <= old(|world.script|)
      invariant sleeps == Delays(|sleeps|) && backoff == BackoffAt(|sleeps|)
      invariant |world.state.pipe.requests| == old(|world.state.pipe.requests|) + |sleeps|
      invariant world.state.pipe.batches == old(world.state.pipe.batches)
      invariant OnlySent(old(world.state.pipe.requests), world.state.pipe.requests, batch)
      decreases |world.script|
    {
      var tried := TryBatch(world, batch, backoff, |sleeps|);
      if !tried.Resent? {
        return tried.Settled?, sleeps;
      }
      sleeps := sleeps + [backoff];
      NextBackoffStep(|sleeps| - 1);
      backoff := NextBackoff(backoff);
    }
  }

  /** Once it has exited, everything ever sent on the channel went out in some batch. */
  method AckProcessor(world: World) returns (exited: bool)
    requires world.Valid() && world.role == Acker && world.state.pipe.ackLoop.Receiving?
    modifies world
    ensures world.Valid()
    ensures old(world.state.pipe.batches) <= world.state.pipe.batches
    ensures if exited then world.state.pipe.ackLoop == Exited && Flatten(world.state.pipe.batches) == world.state.pipe.sends
            else world.script == [] || world.state.main.phase.Returned?
  {
    while !world.state.main.phase.Returned?
      invariant world.Valid() && world.state.pipe.ackLoop.Receiving?
      invariant old(world.state.pipe.batches) <= world.state.pipe.batches
      decreases |world.script|
    {
      if world.state.pipe.channel == [] {
        if SendersGone(world.state) {
          world.Take(Acks(Exit));
          AckOrder(world.config, world.state);
          return true;
        }
        var offer := world.Await();
        if offer.None? {
          return false;
        }
      } else {
        var settled := OneBatch(world);
        if !settled {
          return false;
        }
      }
    }
    exited := false;
  }

  /** `try_recv` until it finds nothing, then the report. */
  method OneBatch(world: World) returns (settled: bool)
    requires world.Valid() && world.role == Acker && !world.state.main.phase.Returned?
    requires world.state.pipe.ackLoop.Receiving? && world.state.pipe.channel != []
    modifies world
    ensures world.Valid() && old(world.state.pipe.batches) <= world.state.pipe.batches
    ensures if settled then world.state.pipe.ackLoop.Receiving? && |world.script| < old(|world.script|)
            else world.script == [] || world.state.main.phase.Returned?
  {
    var batch := [world.state.pipe.channel[0]];
    world.Take(Acks(Recv));
    var more := true;
    while more
      invariant world.Valid() && !world.state.main.phase.Returned? && world.state.pipe.ackLoop == Filling(batch)
      invariant old(world.state.pipe.batches) <= world.state.pipe.batches
      invariant |world.script| <= old(|world.script|) && (!more ==> |world.script| < old(|world.script|))
      invariant !more ==> world.state.pipe.channel == [] || world.offer == Busy
      decreases |world.script|, more
    {
      // `try_recv` does not wait, but other threads run on between two of them.
      var offer := world.Await();
      if offer.None? || world.state.main.phase.Returned? {
        return false;
      }
      if world.state.pipe.channel == [] || offer.value.Busy? {
        more := false;
      } else {
        batch := batch + [world.state.pipe.channel[0]];
        world.Take(Acks(TryRecv));
      }
    }
    world.Take(Acks(StopFilling));
    var done, _ := ReportBatch(world, batch);
    settled := done;
  }

  // --- handle_job ---

  /** What the end of a handler task has settled. */
  predicate Settled(s: State, d: Delivery) {
    && d in s.jobs.tasks && s.jobs.tasks[d] == Finished && d in s.jobs.verdicts
    && match s.jobs.verdicts[d]
       case Ok => d in s.pipe.sends
       case Err => d in s.jobs.fates && (s.jobs.fates[d].Reported? || s.jobs.fates[d].ReportRejected?)
       case Panic => d in s.jobs.fates && s.jobs.fates[d] == Panicked
  }

  /** The script ended, or the deadline aborted the handler. */
  predicate CutOff(world: World, d: Delivery)
    reads world
  {
    world.script == [] || world.state.main.phase.Returned? || d !in world.state.jobs.tasks
  }

  /** One handler task. The arm for a closed ack channel is never reached. */
  method HandleJob(world: World, d: Delivery) returns (done: bool)
    requires world.Valid() && world.role == Handler(d)
    requires Delivered(world.state, d) && d in world.state.jobs.tasks && world.state.jobs.tasks[d] == Running && world.Idle()
    modifies world
    ensures world.Valid()
    ensures if done then Settled(world.state, d) else CutOff(world, d)
  {
    var offer := Option<Offer>.None;
    while true
      invariant world.Valid()
      invariant Delivered(world.state, d) && d in world.state.jobs.tasks && world.state.jobs.tasks[d] == Running
      invariant world.Idle()
      decreases |world.script|
    {
      offer := world.Await();
      if offer.None? || world.state.main.phase.Returned? || d !in world.state.jobs.tasks {
        return false;
      }
      if offer.value.Handled? {
        break;
      }
    }
    match offer.value.verdict {
      case Ok =>
        world.Take(Handle(d, HandlerOk));
        done := SendAckTo(world, d);
      case Err =>
        world.Take(Handle(d, HandlerErr));
        var reported, _ := ReportFailure(world, d);
        done := reported;
      case Panic =>
        world.Take(Handle(d, HandlerPanics));
        done := true;
    }
  }

  lemma SenderFindsChannelOpen(c: Config, s: State, d: Delivery)
    requires Reachable(c, s) && !s.main.phase.Returned? && d in s.jobs.tasks && s.jobs.tasks[d] == Sending
    ensures !s.pipe.ackLoop.Exited?
  {
    ChannelNeverClosedEarly(c, s, d);
    assert Enabled(c, s, Handle(d, SendClosed)) <==> s.pipe.ackLoop.Exited?;
  }

  /** Waits for room in the channel and sends. */
  method SendAckTo(world: World, d: Delivery) returns (done: bool)
    requires world.Valid() && world.role == Handler(d) && !world.state.main.phase.Returned?
    requires Delivered(world.state, d) && d in world.state.jobs.tasks && world.state.jobs.tasks[d] == Sending
    requires Did(world.state.jobs, d, Ok)
    modifies world
    ensures world.Valid()
    ensures if done then Settled(world.state, d) else CutOff(world, d)
  {
    while true
      invariant world.Valid() && !world.state.main.phase.Returned?
      invariant Delivered(world.state, d) && d in world.state.jobs.tasks && world.state.jobs.tasks[d] == Sending
      invariant Did(world.state.jobs, d, Ok)
      decreases |world.script|
    {
      SenderFindsChannelOpen(world.config, world.state, d);
      if world.state.pipe.ackLoop.Exited? {
        assert false;
      }
      if |world.state.pipe.channel| < world.config.Capacity() {
        world.Take(Handle(d, SendAck));
        return true;
      }
      var offer := world.Await();
      if offer.None? || world.state.main.phase.Returned? || d !in world.state.jobs.tasks {
        return false;
      }
    }
  }

  predicate Failing(s: State, d: Delivery, t: Task) {
    && !s.main.phase.Returned? && Delivered(s, d) && Did(s.jobs, d, Err)
    && d in s.jobs.tasks && s.jobs.tasks[d] == t
  }

  /** A failure report of `d` is on the wire, after `k` sleeps. */
  predicate ReportsNext(s: State, d: Delivery, backoff: nat, k: nat) {
    Failing(s, d, Reporting(backoff, k))
  }

  /** `Gone`: the script ended, or the deadline aborted this handler. */
  datatype Round = Over | Again | Gone

  method AwaitReply(world: World, d: Delivery, backoff: nat, ghost k: nat) returns (reply: Option<Reply>)
    requires world.Valid() && world.role == Handler(d) && ReportsNext(world.state, d, backoff, k) && world.Idle()
    modifies world
    ensures world.Valid() && Count(world.state.jobs.reports, d) == old(Count(world.state.jobs.reports, d))
    ensures if reply.None? then CutOff(world, d)
            else ReportsNext(world.state, d, backoff, k) && |world.script| < old(|world.script|) && world.offer == Response(reply.value)
  {
    while true
      invariant world.Valid() && ReportsNext(world.state, d, backoff, k) && |world.script| <= old(|world.script|)
      invariant world.Idle()
      invariant Count(world.state.jobs.reports, d) == old(Count(world.state.jobs.reports, d))
      decreases |world.script|
    {
      var offer := world.Await();
      if offer.None? || world.state.main.phase.Returned? || d !in world.state.jobs.tasks {
        return None;
      }
      if offer.value.Response? {
        return Some(offer.value.reply);
      }
    }
  }

  method TakeReply(world: World, d: Delivery, reply: Reply, ghost backoff: nat, ghost k: nat) returns (settled: bool)
    requires world.Valid() && world.role == Handler(d) && ReportsNext(world.state, d, backoff, k) && world.offer == Response(reply)
    modifies world`state, world`offer
    ensures world.Valid() && world.state.jobs.reports == old(world.state.jobs.reports) && world.offer == Nothing
    ensures settled == (ClassifyCall(reply) != Transient)
    ensures if settled then Settled(world.state, d) else Failing(world.state, d, ReportSleep(backoff, k))
  {
    world.Take(Handle(d, ReportReply(reply)));
    settled := ClassifyCall(reply) != Transient;
  }

  /** Waits for the reply; a transient failure sleeps and sends the report once more. */
  method ReportRound(world: World, d: Delivery, backoff: nat, ghost k: nat) returns (r: Round)
    requires world.Valid() && world.role == Handler(d) && ReportsNext(world.state, d, backoff, k) && world.Idle()
    modifies world
    ensures world.Valid()
    ensures Count(world.state.jobs.reports, d) == old(Count(world.state.jobs.reports, d)) + if r.Again? then 1 else 0
    ensures match r
            case Over => Settled(world.state, d)
            case Again =>
              && ReportsNext(world.state, d, NextBackoff(backoff), k + 1)
              && |world.script| < old(|world.script|) && world.offer == Nothing
            case Gone => CutOff(world, d)
  {
    var reply := AwaitReply(world, d, backoff, k);
    if reply.None? {
      return Gone;
    }
    var settled := TakeReply(world, d, reply.value, backoff, k);
    if settled {
      return Over;
    }
    var woken := SleepFor(world);
    if !woken || d !in world.state.jobs.tasks {
      return Gone;
    }
    ReportAgain(world, d, backoff, k);
    r := Again;
  }

  method ReportAgain(world: World, d: Delivery, ghost backoff: nat, ghost k: nat)
    requires world.Valid() && world.role == Handler(d) && Failing(world.state, d, ReportSleep(backoff, k)) && world.offer == Expired
    modifies world`state, world`offer
    ensures world.Valid() && ReportsNext(world.state, d, NextBackoff(backoff), k + 1) && world.offer == Nothing
    ensures Count(world.state.jobs.reports, d) == old(Count(world.state.jobs.reports, d)) + 1
  {
    ghost var reports := world.state.jobs.reports;
    assert (reports + [d])[..|reports|] == reports;
    world.Take(Handle(d, ReportWake));
  }

  /** Retries the failure report until it is settled, sleeping in between; the first
      report is on the wire already, and each sleep is followed by one more. */
  method ReportFailure(world: World, d: Delivery) returns (done: bool, sleeps: seq<nat>)
    requires world.Valid() && world.role == Handler(d) && ReportsNext(world.state, d, INITIAL_BACKOFF, 0) && world.Idle()
    modifies world
    ensures world.Valid()
    ensures if done then Settled(world.state, d) else CutOff(world, d)
    ensures sleeps == Delays(|sleeps|)
    ensures Count(world.state.jobs.reports, d) == old(Count(world.state.jobs.reports, d)) + |sleeps|
  {
    var backoff := INITIAL_BACKOFF;
    sleeps := [];
    assert Pow2(0) == 1;
    while true
      invariant world.Valid() && ReportsNext(world.state, d, backoff, |sleeps|) && world.Idle()
      invariant sleeps == Delays(|sleeps|) && backoff == BackoffAt(|sleeps|)
      invariant Count(world.state.jobs.reports, d) == old(Count(world.state.jobs.reports, d)) + |sleeps|
      decreases |world.script|
    {
      var round := ReportRound(world, d, backoff, |sleeps|);
      if !round.Again? {
        return round.Over?, sleeps;
      }
      sleeps := sleeps + [backoff];
      NextBackoffStep(|sleeps| - 1);
      backoff := NextBackoff(backoff);
    }
  }
}
