/** The thread that records, stops and delivers, as sequential code over the shared
    object: `run` with `start_active` and `finish_active`. A method that returns
    false has been left waiting for the snapshot lock. */
module SessionRunLoop {
  import opened Session
  import opened SessionLifecycle
  import opened SessionHost

  /** What the environment will answer while a generation is started, or finished. */
  datatype Environment = Environment(loads: bool, ready: bool, capture: Answer, worker: Answer, delivery: Answer)

  /** One atomic operation of the run loop leaves `t`; then calls may move. */
  method Do(h: Host, a: Answer, t: Sys)
    requires h.Valid() && LoopEnabled(h.sys, a) && LoopStep(h.sys, h.sys.loop, a) == t
    modifies h
    ensures h.Valid() && Mine(RunLoop, t, h.sys)
    ensures old(h.budget) == 0 ==> h.sys == t && h.budget == 0
  {
    Reaches(h.sys, Loop(a));
    h.sys := t;
    h.Others(RunLoop);
  }

  // One operation of each part, with only that part's step function in sight.

  method HeadDo(h: Host, a: Answer, t: Sys)
    requires h.Valid() && h.sys.loop.Head? && LoopEnabled(h.sys, a) && HeadStep(h.sys, a) == t
    modifies h
    ensures h.Valid() && Mine(RunLoop, t, h.sys)
    ensures old(h.budget) == 0 ==> h.sys == t && h.budget == 0
  {
    Do(h, a, t);
  }

  method CommandDo(h: Host, loop: Loop, a: Answer, t: Sys)
    requires h.Valid() && h.sys.loop == loop && Where(loop).AtCommand? && (UsesSnapshot(loop) ==> Free(h.sys))
    requires CommandStep(h.sys, loop, a) == t
    modifies h
    ensures h.Valid() && Mine(RunLoop, t, h.sys)
    ensures old(h.budget) == 0 ==> h.sys == t && h.budget == 0
  {
    Do(h, a, t);
  }

  method TickDo(h: Host, loop: Loop, a: Answer, t: Sys)
    requires h.Valid() && h.sys.loop == loop && Where(loop).AtTick? && (UsesSnapshot(loop) ==> Free(h.sys))
    requires TickStep(h.sys, loop, a) == t
    modifies h
    ensures h.Valid() && Mine(RunLoop, t, h.sys)
    ensures old(h.budget) == 0 ==> h.sys == t && h.budget == 0
  {
    Do(h, a, t);
  }

  method StartDo(h: Host, phase: StartPhase, who: Starter, a: Answer, t: Sys)
    requires h.Valid() && h.sys.loop == InStart(phase, who) && (UsesSnapshot(h.sys.loop) ==> Free(h.sys))
    requires StartStep(h.sys, phase, who, a) == t
    modifies h
    ensures h.Valid() && Mine(RunLoop, t, h.sys)
    ensures old(h.budget) == 0 ==> h.sys == t && h.budget == 0
  {
    Do(h, a, t);
  }

  method FinishDo(h: Host, phase: FinishPhase, stopper: Stopper, a: Answer, t: Sys)
    requires h.Valid() && h.sys.loop == InFinish(phase, stopper) && (UsesSnapshot(h.sys.loop) ==> Free(h.sys))
    requires FinishStep(h.sys, phase, stopper, a) == t
    modifies h
    ensures h.Valid() && Mine(RunLoop, t, h.sys)
    ensures old(h.budget) == 0 ==> h.sys == t && h.budget == 0
  {
    Do(h, a, t);
  }

  method TailDo(h: Host, loop: Loop, t: Sys)
    requires h.Valid() && h.sys.loop == loop && Where(loop).AtTail? && Alive(h.sys) && (UsesSnapshot(loop) ==> Free(h.sys))
    requires TailStep(h.sys, loop) == t
    modifies h
    ensures h.Valid() && Mine(RunLoop, t, h.sys)
    ensures old(h.budget) == 0 ==> h.sys == t && h.budget == 0
  {
    Do(h, Nothing, t);
  }

  /** The call that holds the snapshot lock does not move any more. */
  ghost predicate Stuck(h: Host)
    reads h
  {
    h.budget == 0 && !Free(h.sys)
  }

  /** No other thread moves, and what they share is as it was. */
  ghost predicate Quiet(h: Host, s: Sys)
    reads h
  {
    && h.budget == 0 && Free(h.sys) && h.sys.gate == s.gate && h.sys.ticket == s.ticket && h.sys.queue == s.queue
    && h.sys.shutdown == s.shutdown && h.sys.startupCancelled == s.startupCancelled
  }

  // ------------------------------------------------------------ start_active

  /** Recording runs and is published, or neither. */
  predicate Started(s: Sys) {
    !s.terminal && if s.active then At(s, Recording) else At(s, Error) || At(s, Cancelled)
  }

  /** With no other thread moving: Recording only if all is there, and nobody wants it
      to stop. */
  predicate StartedBy(s: Sys, t: Sys, g: nat, good: bool) {
    At(t, if s.startupCancelled == g || s.shutdown then Cancelled else if good then Recording else Error)
  }

  /** `start_active` begins the next generation and ends in Recording, or in Error or
      Cancelled with nothing running. */
  method StartActive(h: Host, who: Starter, env: Environment) returns (ok: bool)
    requires h.Valid() && h.sys.loop == InStart(Begin, who)
    modifies h
    ensures !ok ==> Stuck(h)
    ensures h.Valid()
    ensures ok ==> h.sys.loop == InStart(Return, who) && h.sys.generation == old(h.sys.generation) + 1
    ensures ok ==> Started(h.sys)
    ensures ok && At(h.sys, Recording) ==> env.loads && env.ready && !old(h.sys.shutdown)
    ensures old(h.budget) == 0 && Free(old(h.sys)) ==>
              ok && Quiet(h, old(h.sys)) && StartedBy(old(h.sys), h.sys, old(h.sys.generation) + 1, env.loads && env.ready)
    ensures h.sys.log.delivered == old(h.sys.log.delivered)
  {
    var loaded := env.loads;
    StartDo(h, Begin, who, if loaded then Succeeds else Fails,
            h.sys.(generation := h.sys.generation + 1,
                   loop := InStart(if loaded then AnnounceStarting else FailCheckCancel, who)));
    if loaded { ok := StartWorker(h, who, env); } else { ok := FailStart(h, who); }
  }

  /** The capture runs; the worker is started. */
  method StartWorker(h: Host, who: Starter, env: Environment) returns (ok: bool)
    requires h.Valid() && h.sys.loop == InStart(AnnounceStarting, who)
    modifies h
    ensures !ok ==> Stuck(h)
    ensures h.Valid()
    ensures ok ==> h.sys.loop == InStart(Return, who) && h.sys.generation == old(h.sys.generation)
    ensures ok ==> Started(h.sys)
    ensures ok && At(h.sys, Recording) ==> env.ready && !old(h.sys.shutdown)
    ensures old(h.budget) == 0 && Free(old(h.sys)) ==>
              ok && Quiet(h, old(h.sys)) && StartedBy(old(h.sys), h.sys, h.sys.generation, env.ready)
    ensures h.sys.log.delivered == old(h.sys.log.delivered)
  {
    ok := h.Lock(RunLoop);
    if !ok { return; }
    StartDo(h, AnnounceStarting, who, Succeeds, Publish(h.sys, Starting).(loop := InStart(WorkerStart, who)));
    var ready := env.ready;
    StartDo(h, WorkerStart, who, if ready then Succeeds else Fails,
            h.sys.(loop := InStart(if ready then CheckShutdown else FailCheckCancel, who)));
    if ready { ok := StartRecording(h, who); } else { ok := FailStart(h, who); }
  }

  /** The worker is ready: unless it was told to stop, recording begins. */
  method StartRecording(h: Host, who: Starter) returns (ok: bool)
    requires h.Valid() && h.sys.loop == InStart(CheckShutdown, who)
    modifies h
    ensures !ok ==> Stuck(h)
    ensures h.Valid()
    ensures ok ==> h.sys.loop == InStart(Return, who) && h.sys.generation == old(h.sys.generation)
    ensures ok ==> Started(h.sys)
    ensures ok && At(h.sys, Recording) ==> !old(h.sys.shutdown)
    ensures old(h.budget) == 0 && Free(old(h.sys)) ==>
              ok && Quiet(h, old(h.sys)) && StartedBy(old(h.sys), h.sys, h.sys.generation, true)
    ensures h.sys.log.delivered == old(h.sys.log.delivered)
  {
    var stopping := h.sys.shutdown;
    StartDo(h, CheckShutdown, who, Nothing,
            h.sys.(loop := InStart(if stopping then FailCheckCancel else CheckCancel, who)));
    if stopping { ok := FailStart(h, who); return; }
    var cancelled := h.sys.startupCancelled == h.sys.generation;
    StartDo(h, CheckCancel, who, Nothing,
            h.sys.(loop := InStart(if cancelled then FailCheckCancel else AnnounceRecording, who)));
    if cancelled { ok := FailStart(h, who); return; }
    ok := AnnounceRecorder(h, who);
  }

  method AnnounceRecorder(h: Host, who: Starter) returns (ok: bool)
    requires h.Valid() && h.sys.loop == InStart(AnnounceRecording, who)
    modifies h
    ensures !ok ==> Stuck(h)
    ensures h.Valid()
    ensures ok ==> h.sys.loop == InStart(Return, who) && h.sys.generation == old(h.sys.generation)
    ensures ok ==> Started(h.sys)
    ensures ok ==> At(h.sys, Recording)
    ensures old(h.budget) == 0 && Free(old(h.sys)) ==> ok && Quiet(h, old(h.sys))
    ensures h.sys.log.delivered == old(h.sys.log.delivered)
  {
    ok := h.Lock(RunLoop);
    if !ok { return; }
    StartDo(h, AnnounceRecording, who, Nothing,
            Publish(h.sys, Recording).(active := true, loop := InStart(Return, who)));
    ReachableLife(h.sys);
  }

  /** Nothing was started: Cancelled if someone asked for it, Error otherwise. */
  method FailStart(h: Host, who: Starter) returns (ok: bool)
    requires h.Valid() && h.sys.loop == InStart(FailCheckCancel, who)
    modifies h
    ensures !ok ==> Stuck(h)
    ensures h.Valid()
    ensures ok ==> h.sys.loop == InStart(Return, who) && h.sys.generation == old(h.sys.generation)
    ensures ok ==> Started(h.sys)
    ensures ok ==> !At(h.sys, Recording)
    ensures old(h.budget) == 0 && Free(old(h.sys)) ==>
              ok && Quiet(h, old(h.sys)) && StartedBy(old(h.sys), h.sys, h.sys.generation, false)
    ensures h.sys.log.delivered == old(h.sys.log.delivered)
  {
    var asked := h.sys.startupCancelled == h.sys.generation;
    StartDo(h, FailCheckCancel, who, Nothing,
            h.sys.(loop := InStart(if asked then AnnounceFailure(Cancelled) else FailCheckShutdown, who)));
    if asked { ok := AnnounceFailed(h, Cancelled, who); } else { ok := FailUncancelled(h, who); }
  }

  method FailUncancelled(h: Host, who: Starter) returns (ok: bool)
    requires h.Valid() && h.sys.loop == InStart(FailCheckShutdown, who)
    modifies h
    ensures !ok ==> Stuck(h)
    ensures h.Valid()
    ensures ok ==> h.sys.loop == InStart(Return, who) && h.sys.generation == old(h.sys.generation)
    ensures ok ==> Started(h.sys)
    ensures ok ==> At(h.sys, Cancelled) || (At(h.sys, Error) && !old(h.sys.shutdown))
    ensures old(h.budget) == 0 && Free(old(h.sys)) ==>
              ok && Quiet(h, old(h.sys)) && At(h.sys, if old(h.sys.shutdown) then Cancelled else Error)
    ensures h.sys.log.delivered == old(h.sys.log.delivered)
  {
    var asked := h.sys.shutdown;
    StartDo(h, FailCheckShutdown, who, Nothing,
            h.sys.(loop := InStart(AnnounceFailure(if asked then Cancelled else Error), who)));
    ok := AnnounceFailed(h, if asked then Cancelled else Error, who);
  }

  method AnnounceFailed(h: Host, outcome: State, who: Starter) returns (ok: bool)
    requires h.Valid() && h.sys.loop == InStart(AnnounceFailure(outcome), who) && !outcome.Recording?
    modifies h
    ensures !ok ==> Stuck(h)
    ensures h.Valid()
    ensures ok ==> h.sys.loop == InStart(Return, who) && h.sys.generation == old(h.sys.generation)
    ensures ok ==> Started(h.sys)
    ensures ok ==> At(h.sys, outcome)
    ensures old(h.budget) == 0 && Free(old(h.sys)) ==> ok && Quiet(h, old(h.sys))
    ensures h.sys.log.delivered == old(h.sys.log.delivered)
  {
    ok := h.Lock(RunLoop);
    if !ok { return; }
    StartDo(h, AnnounceFailure(outcome), who, Nothing, Publish(h.sys, outcome).(loop := InStart(Return, who)));
    ReachableLife(h.sys);
  }

  // ----------------------------------------------------------- finish_active

  function AfterFinish(stopper: Stopper): Loop {
    match stopper
    case ByUser(c, _) => Loop.Reply(c)
    case ByLimit(token) => LimitRelease(token)
  }

  /** At most one delivery, of the generation that was current. */
  ghost predicate DeliversOnce(s: Sys, t: Sys) {
    t.log.delivered == s.log.delivered || t.log.delivered == s.log.delivered + [s.generation]
  }

  /** There is something to deliver. */
  predicate Transcript(env: Environment) {
    env.capture.Succeeds? && env.worker.Succeeds?
  }

  /** Without speech, or with the transcript delivered, all is well. */
  function Result(env: Environment): State {
    if env.capture.Succeeds? && (env.worker.NoSpeech? || (env.worker.Succeeds? && env.delivery.Succeeds?))
    then Success else Error
  }

  /** The transcript, if there is one, has been delivered, and nothing else has. */
  ghost predicate Delivered(s: Sys, t: Sys, env: Environment) {
    t.log.delivered == s.log.delivered + if Transcript(env) then [s.generation] else []
  }

  /** The outcome tells how the answers were, or that shutdown was seen. */
  predicate Outcome(s: Sys, t: Sys, result: State) {
    && (At(t, Cancelled) || At(t, result))
    && (At(t, Cancelled) ==> t.shutdown) && (s.shutdown ==> At(t, Cancelled))
  }

  /** `finish_active` delivers the worker's transcript and nothing else, and ends in the
      terminal state that tells what came of it. */
  method FinishActive(h: Host, stopper: Stopper, env: Environment) returns (ok: bool)
    requires h.Valid() && h.sys.loop == InFinish(AnnounceStopping, stopper)
    modifies h
    ensures !ok ==> Stuck(h)
    ensures h.Valid() && h.sys.generation == old(h.sys.generation) && DeliversOnce(old(h.sys), h.sys)
    ensures ok ==> h.sys.loop == AfterFinish(stopper) && h.sys.terminal && !h.sys.active
    ensures ok ==> Outcome(old(h.sys), h.sys, Result(env)) && Delivered(old(h.sys), h.sys, env)
    ensures h.sys.log.delivered != old(h.sys.log.delivered) ==> Transcript(env)
    ensures old(h.budget) == 0 && Free(old(h.sys)) ==> ok && Quiet(h, old(h.sys))
  {
    ReachableLife(h.sys);
    ok := Announce(h, AnnounceStopping, stopper, Stopping, StopCapture);
    if !ok { return; }
    EndCapture(h, stopper, env.capture);
    if env.capture.Succeeds? { ok := Process(h, stopper, env); }
    if !ok { return; }
    ok := AnnounceOutcome(h, Result(env), stopper);
  }

  /** The announcements on the way. */
  predicate Announces(phase: FinishPhase, state: State, next: FinishPhase) {
    match phase
    case AnnounceStopping => state.Stopping? && next.StopCapture?
    case AnnounceProcessing => state.Processing? && next.WorkerFinish?
    case AnnounceDelivering => state.Delivering? && next.Deliver?
    case _ => false
  }

  /** What finishing leaves alone until its end, but for the deliveries. */
  predicate Along(s: Sys, t: Sys) {
    t.generation == s.generation && t.active == s.active && (s.shutdown ==> t.shutdown)
  }

  method Announce(h: Host, phase: FinishPhase, stopper: Stopper, state: State, next: FinishPhase) returns (ok: bool)
    requires h.Valid() && h.sys.loop == InFinish(phase, stopper) && Announces(phase, state, next)
    modifies h
    ensures !ok ==> Stuck(h)
    ensures h.Valid() && Along(old(h.sys), h.sys) && h.sys.log.delivered == old(h.sys.log.delivered)
    ensures ok ==> h.sys.loop == InFinish(next, stopper)
    ensures old(h.budget) == 0 && Free(old(h.sys)) ==> ok && Quiet(h, old(h.sys))
  {
    ok := h.Lock(RunLoop);
    if !ok { return; }
    FinishDo(h, phase, stopper, Nothing, Publish(h.sys, state).(loop := InFinish(next, stopper)));
  }

  method EndCapture(h: Host, stopper: Stopper, capture: Answer)
    requires h.Valid() && h.sys.loop == InFinish(StopCapture, stopper)
    modifies h
    ensures h.Valid() && Along(old(h.sys), h.sys) && h.sys.log.delivered == old(h.sys.log.delivered)
    ensures h.sys.loop == InFinish(if capture.Succeeds? then AnnounceProcessing else LoadShutdown(Error), stopper)
    ensures old(h.budget) == 0 && Free(old(h.sys)) ==> Quiet(h, old(h.sys))
  {
    FinishDo(h, StopCapture, stopper, capture,
             h.sys.(loop := InFinish(if capture.Succeeds? then AnnounceProcessing else LoadShutdown(Error), stopper)));
  }

  /** The worker's answer, delivered if there is a transcript. */
  method Process(h: Host, stopper: Stopper, env: Environment) returns (ok: bool)
    requires h.Valid() && h.sys.loop == InFinish(AnnounceProcessing, stopper) && env.capture.Succeeds?
    modifies h
    ensures !ok ==> Stuck(h)
    ensures h.Valid() && Along(old(h.sys), h.sys)
    ensures h.sys.log.delivered == old(h.sys.log.delivered) + if ok && Transcript(env) then [h.sys.generation] else []
    ensures ok ==> h.sys.loop == InFinish(LoadShutdown(Result(env)), stopper)
    ensures old(h.budget) == 0 && Free(old(h.sys)) ==> ok && Quiet(h, old(h.sys))
  {
    ok := Announce(h, AnnounceProcessing, stopper, Processing, WorkerFinish);
    if !ok { return; }
    HearWorker(h, stopper, env.worker);
    if env.worker.Succeeds? { ok := DeliverTranscript(h, stopper, env.delivery); }
  }

  method HearWorker(h: Host, stopper: Stopper, worker: Answer)
    requires h.Valid() && h.sys.loop == InFinish(WorkerFinish, stopper)
    modifies h
    ensures h.Valid() && Along(old(h.sys), h.sys) && h.sys.log.delivered == old(h.sys.log.delivered)
    ensures h.sys.loop == InFinish(if worker.Succeeds? then AnnounceDelivering
                                   else LoadShutdown(if worker.NoSpeech? then Success else Error), stopper)
    ensures old(h.budget) == 0 && Free(old(h.sys)) ==> Quiet(h, old(h.sys))
  {
    var next := if worker.Succeeds? then AnnounceDelivering
                else LoadShutdown(if worker.NoSpeech? then Success else Error);
    FinishDo(h, WorkerFinish, stopper, worker, h.sys.(loop := InFinish(next, stopper)));
  }

  method DeliverTranscript(h: Host, stopper: Stopper, delivery: Answer) returns (ok: bool)
    requires h.Valid() && h.sys.loop == InFinish(AnnounceDelivering, stopper)
    modifies h
    ensures !ok ==> Stuck(h)
    ensures h.Valid() && Along(old(h.sys), h.sys)
    ensures h.sys.log.delivered == old(h.sys.log.delivered) + if ok then [h.sys.generation] else []
    ensures ok ==> h.sys.loop == InFinish(LoadShutdown(if delivery.Succeeds? then Success else Error), stopper)
    ensures old(h.budget) == 0 && Free(old(h.sys)) ==> ok && Quiet(h, old(h.sys))
  {
    ok := Announce(h, AnnounceDelivering, stopper, Delivering, Deliver);
    if !ok { return; }
    FinishDo(h, Deliver, stopper, delivery,
             h.sys.(log := h.sys.log.(delivered := h.sys.log.delivered + [h.sys.generation]),
                    loop := InFinish(LoadShutdown(if delivery.Succeeds? then Success else Error), stopper)));
  }

  method AnnounceOutcome(h: Host, result: State, stopper: Stopper) returns (ok: bool)
    requires h.Valid() && h.sys.loop == InFinish(LoadShutdown(result), stopper) && (result.Success? || result.Error?)
    modifies h
    ensures !ok ==> Stuck(h)
    ensures h.Valid() && h.sys.generation == old(h.sys.generation) && h.sys.active == old(h.sys.active)
    ensures h.sys.log.delivered == old(h.sys.log.delivered)
    ensures ok ==> h.sys.loop == AfterFinish(stopper) && h.sys.terminal && Outcome(old(h.sys), h.sys, result)
    ensures old(h.budget) == 0 && Free(old(h.sys)) ==> ok && Quiet(h, old(h.sys))
  {
    var announced := if h.sys.shutdown then Cancelled else result;
    FinishDo(h, LoadShutdown(result), stopper, Nothing,
             h.sys.(loop := InFinish(FinishPhase.AnnounceOutcome(announced), stopper)));
    ok := h.Lock(RunLoop);
    if ok { Conclude(h, announced, stopper); }
  }

  method Conclude(h: Host, outcome: State, stopper: Stopper)
    requires h.Valid() && h.sys.loop == InFinish(FinishPhase.AnnounceOutcome(outcome), stopper) && Free(h.sys)
    modifies h
    ensures h.Valid() && Along(old(h.sys), h.sys) && h.sys.log.delivered == old(h.sys.log.delivered)
    ensures h.sys.loop == AfterFinish(stopper) && h.sys.terminal && At(h.sys, outcome)
    ensures old(h.budget) == 0 ==> Quiet(h, old(h.sys))
  {
    FinishDo(h, FinishPhase.AnnounceOutcome(outcome), stopper, Nothing,
             Publish(h.sys, outcome).(terminal := true, loop := AfterFinish(stopper)));
  }

  // ------------------------------------------------------------ the commands

  /** The next generation was begun; it records only if all was there. */
  predicate Began(s: Sys, t: Sys, env: Environment) {
    && t.generation == s.generation + 1
    && (At(t, Cancelled) || At(t, Error) || (At(t, Recording) && env.loads && env.ready && !s.shutdown))
  }

  /** The generation was finished. */
  ghost predicate Ended(s: Sys, t: Sys, env: Environment) {
    && t.generation == s.generation && !t.active
    && Outcome(s, t, Result(env)) && Delivered(s, t, env)
  }

  /** Nothing was done for the session. */
  predicate Left(s: Sys, t: Sys) {
    t.snapshot == s.snapshot && t.generation == s.generation && t.active == s.active && t.log == s.log
  }

  /** A toggle that expects what it finds starts a session, or finishes it. */
  ghost predicate ToggleServed(s: Sys, t: Sys, expected: State, env: Environment) {
    if At(s, expected) && expected.Idle? then Began(s, t, env)
    else if At(s, expected) && expected.Recording? then Ended(s, t, env)
    else Left(s, t)
  }

  /** A startup cancel ends the recording it was meant for. */
  ghost predicate CancelServed(s: Sys, t: Sys, requested: nat) {
    && t.generation == s.generation && t.log.delivered == s.log.delivered
    && if requested == s.generation && s.active then At(t, Cancelled) && t.terminal && !t.active else Left(s, t)
  }

  /** What serving a command comes to. */
  ghost predicate Served(s: Sys, t: Sys, command: Command, env: Environment) {
    match command
    case Shutdown => t.loop == Exited && !t.active && t.log == s.log
    case CancelStartup(requested) => CancelServed(s, t, requested)
    case Configure(c) => c in t.replied && Left(s, t)
    case Toggle(expected, c, _) => c in t.replied && ToggleServed(s, t, expected, env)
    case RestartReady => Left(s, t)
  }

  /** A command has been received; the loop will look at the restart word next,
      unless it was told to end. */
  method Serve(h: Host, env: Environment) returns (ok: bool)
    requires h.Valid() && h.sys.loop.Head? && h.sys.queue != []
    modifies h
    ensures !ok ==> Stuck(h)
    ensures h.sys.log.delivered != old(h.sys.log.delivered) ==> Transcript(env)
    ensures h.Valid() && DeliversOnce(old(h.sys), h.sys)
    ensures ok ==> h.sys.loop == if old(h.sys.queue)[0].Shutdown? then Exited else Loop.Tail
    ensures ok ==> Served(old(h.sys), h.sys, old(h.sys.queue)[0], env)
  {
    ok := true;
    var command, rest := h.sys.queue[0], h.sys.queue[1..];
    match command
    case Shutdown => HeadDo(h, Nothing, Exit(h.sys));
    case CancelStartup(requested) => ok := ServeCancel(h, requested, rest);
    case Configure(c) => ok := ReceiveConfigure(h, c, rest);
    case Toggle(expected, c, admittedAt) => ok := ReceiveToggle(h, expected, c, admittedAt, rest, env);
    case RestartReady => HeadDo(h, Nothing, h.sys.(queue := rest, loop := Loop.Tail));
  }

  /** A startup cancel stops the recorder of its own generation only. */
  method ServeCancel(h: Host, requested: nat, rest: seq<Command>) returns (ok: bool)
    requires h.Valid() && h.sys.loop.Head? && h.sys.queue == [CancelStartup(requested)] + rest
    modifies h
    ensures !ok ==> Stuck(h)
    ensures h.Valid() && (ok ==> h.sys.loop == Loop.Tail && CancelServed(old(h.sys), h.sys, requested))
    ensures h.sys.generation == old(h.sys.generation) && h.sys.log.delivered == old(h.sys.log.delivered)
    ensures h.sys.active == (old(h.sys.active) && requested != h.sys.generation)
  {
    ok := true;
    if requested != h.sys.generation {
      HeadDo(h, Nothing, h.sys.(queue := rest, loop := Loop.Tail));
      return;
    }
    if h.sys.active {
      HeadDo(h, Nothing, h.sys.(queue := rest, active := false, loop := CancelPublish));
      ok := h.Lock(RunLoop);
      if !ok { return; }
      CommandDo(h, CancelPublish, Nothing, Publish(h.sys, Cancelled).(loop := CancelCheck));
    } else {
      HeadDo(h, Nothing, h.sys.(queue := rest, loop := CancelCheck));
    }
    ok := CheckCancelled(h);
  }

  /** A generation that is Cancelled by now will be retired. */
  method CheckCancelled(h: Host) returns (ok: bool)
    requires h.Valid() && h.sys.loop == CancelCheck
    modifies h
    ensures !ok ==> Stuck(h)
    ensures h.Valid() && Left(old(h.sys), h.sys)
    ensures ok ==> h.sys.loop == Loop.Tail && h.sys.terminal == (old(h.sys.terminal) || h.sys.snapshot.state.Cancelled?)
  {
    ok := h.Lock(RunLoop);
    if !ok { return; }
    var over := h.sys.snapshot.state.Cancelled?;
    CommandDo(h, CancelCheck, Nothing, h.sys.(terminal := h.sys.terminal || over, loop := Loop.Tail));
  }

  /** Answering call `c`. */
  method Reply(h: Host, c: nat)
    requires h.Valid() && h.sys.loop == Loop.Reply(c)
    modifies h
    ensures h.Valid() && h.sys.loop == Loop.Tail && c in h.sys.replied && Left(old(h.sys), h.sys)
    ensures old(h.sys.shutdown) ==> h.sys.shutdown
  {
    CommandDo(h, Loop.Reply(c), Nothing, h.sys.(replied := h.sys.replied + {c}, loop := Loop.Tail));
  }

  /** `reload` and `set_*`. */
  method ServeConfigure(h: Host, c: nat) returns (ok: bool)
    requires h.Valid() && h.sys.loop == ConfigRead(c)
    modifies h
    ensures !ok ==> Stuck(h)
    ensures h.Valid() && (ok ==> h.sys.loop == Loop.Tail && c in h.sys.replied)
    ensures Left(old(h.sys), h.sys)
  {
    ok := h.Lock(RunLoop);
    if !ok { return; }
    var loads: bool := *;
    var resting := h.sys.snapshot.state.Idle? && !h.sys.active;
    CommandDo(h, ConfigRead(c), if loads then Succeeds else Fails,
              h.sys.(loop := if resting && loads then ConfigReread(c) else Loop.Reply(c)));
    if resting && loads {
      ok := h.Lock(RunLoop);
      if !ok { return; }
      CommandDo(h, ConfigReread(c), Nothing, h.sys.(loop := Loop.Reply(c)));
    }
    Reply(h, c);
  }

  method ReceiveConfigure(h: Host, c: nat, rest: seq<Command>) returns (ok: bool)
    requires h.Valid() && h.sys.loop.Head? && h.sys.queue == [Command.Configure(c)] + rest
    modifies h
    ensures !ok ==> Stuck(h)
    ensures h.Valid() && (ok ==> h.sys.loop == Loop.Tail && c in h.sys.replied)
    ensures Left(old(h.sys), h.sys)
  {
    HeadDo(h, Nothing, h.sys.(queue := rest, loop := ConfigRead(c)));
    ok := ServeConfigure(h, c);
  }

  method ServeStart(h: Host, c: nat, env: Environment) returns (ok: bool)
    requires h.Valid() && h.sys.loop == InStart(Begin, ByToggle(c))
    modifies h
    ensures !ok ==> Stuck(h)
    ensures h.Valid() && h.sys.log.delivered == old(h.sys.log.delivered)
    ensures ok ==> h.sys.loop == Loop.Tail && c in h.sys.replied && Began(old(h.sys), h.sys, env)
  {
    ok := StartActive(h, ByToggle(c), env);
    if !ok { return; }
    StartDo(h, Return, ByToggle(c), Nothing,
            h.sys.(terminal := h.sys.terminal || !h.sys.active, loop := Loop.Reply(c)));
    Reply(h, c);
  }

  method ServeStop(h: Host, c: nat, admittedAt: nat, env: Environment) returns (ok: bool)
    requires h.Valid() && h.sys.loop == InFinish(AnnounceStopping, ByUser(c, admittedAt))
    modifies h
    ensures !ok ==> Stuck(h)
    ensures h.sys.log.delivered != old(h.sys.log.delivered) ==> Transcript(env)
    ensures h.Valid() && DeliversOnce(old(h.sys), h.sys)
    ensures ok ==> h.sys.loop == Loop.Tail && c in h.sys.replied && Ended(old(h.sys), h.sys, env)
  {
    ok := FinishActive(h, ByUser(c, admittedAt), env);
    if !ok { return; }
    Reply(h, c);
  }

  method ReceiveToggle(h: Host, expected: State, c: nat, admittedAt: nat, rest: seq<Command>, env: Environment)
    returns (ok: bool)
    requires h.Valid() && h.sys.loop.Head? && h.sys.queue == [Command.Toggle(expected, c, admittedAt)] + rest
    modifies h
    ensures !ok ==> Stuck(h)
    ensures h.sys.log.delivered != old(h.sys.log.delivered) ==> Transcript(env)
    ensures h.Valid() && (ok ==> h.sys.loop == Loop.Tail && c in h.sys.replied)
    ensures DeliversOnce(old(h.sys), h.sys)
    ensures ok ==> ToggleServed(old(h.sys), h.sys, expected, env)
  {
    HeadDo(h, Nothing, h.sys.(queue := rest, loop := ToggleRead(expected, c, admittedAt)));
    ok := ServeToggle(h, expected, c, admittedAt, env);
  }

  /** A toggle starts a session at rest, or finishes one that records, if it was asked
      for that; and it is answered in any case. */
  method ServeToggle(h: Host, expected: State, c: nat, admittedAt: nat, env: Environment) returns (ok: bool)
    requires h.Valid() && h.sys.loop == ToggleRead(expected, c, admittedAt)
    modifies h
    ensures !ok ==> Stuck(h)
    ensures h.sys.log.delivered != old(h.sys.log.delivered) ==> Transcript(env)
    ensures h.Valid() && (ok ==> h.sys.loop == Loop.Tail && c in h.sys.replied)
    ensures DeliversOnce(old(h.sys), h.sys)
    ensures ok ==> ToggleServed(old(h.sys), h.sys, expected, env)
  {
    ReachableLife(h.sys);
    ok := h.Lock(RunLoop);
    if !ok { return; }
    if h.sys.snapshot.state == expected && expected.Idle? && !h.sys.active {
      CommandDo(h, ToggleRead(expected, c, admittedAt), Nothing, h.sys.(loop := InStart(Begin, ByToggle(c))));
      ok := ServeStart(h, c, env);
    } else if h.sys.snapshot.state == expected && expected.Recording? && h.sys.active {
      CommandDo(h, ToggleRead(expected, c, admittedAt), Nothing,
                h.sys.(active := false, loop := InFinish(AnnounceStopping, ByUser(c, admittedAt))));
      ok := ServeStop(h, c, admittedAt, env);
    } else {
      CommandDo(h, ToggleRead(expected, c, admittedAt), Nothing, h.sys.(loop := Loop.Reply(c)));
      Reply(h, c);
    }
  }

  // ---------------------------------------------------------------- the tick

  /** A terminal state whose time is up becomes Idle, unless a restart waits for it. */
  method Retire(h: Host, expired: bool) returns (ok: bool)
    requires h.Valid() && h.sys.loop == Timeout && !h.sys.active
    modifies h
    ensures !ok ==> Stuck(h)
    ensures h.Valid() && (ok ==> h.sys.loop == Loop.Tail) && h.sys.log.delivered == old(h.sys.log.delivered)
    ensures ok ==> Retired(old(h.sys), h.sys, expired)
  {
    ok := true;
    ReachableLife(h.sys);
    if Tag(h.sys.ticket.word) != h.sys.generation + 1 && h.sys.terminal && expired {
      TickDo(h, Timeout, Expired, h.sys.(loop := IdlePublish));
      ok := h.Lock(RunLoop);
      if !ok { return; }
      TickDo(h, IdlePublish, Nothing, Publish(h.sys, Idle).(terminal := false, loop := Loop.Tail));
    } else {
      TickDo(h, Timeout, Nothing, h.sys.(loop := Loop.Tail));
    }
  }

  /** What the tick finds. */
  datatype Findings = Findings(expired: bool, exited: bool, reached: bool, level: bool)

  predicate Retired(s: Sys, t: Sys, expired: bool) {
    if IsTerminal(s.snapshot.state) && expired && Tag(s.ticket.word) != s.generation + 1
    then At(t, Idle) && t.generation == s.generation && !t.terminal && !t.active
    else Left(s, t) && t.terminal == s.terminal
  }

  /** What a tick comes to: a recorder that has exited is an error, and at the
      duration limit the generation is finished, unless somebody else is doing so. */
  ghost predicate Ticked(s: Sys, t: Sys, found: Findings, env: Environment) {
    if !s.active then Retired(s, t, found.expired)
    else if found.exited then At(t, Error) && t.generation == s.generation && t.terminal && !t.active
    else if found.reached then Ended(s, t, env) || Left(s, t)
    else t.snapshot == s.snapshot && t.generation == s.generation && t.active
  }

  /** Nothing was received for 100 ms. */
  method Tick(h: Host, found: Findings, env: Environment) returns (ok: bool)
    requires h.Valid() && h.sys.loop == Timeout
    modifies h
    ensures !ok ==> Stuck(h)
    ensures h.sys.log.delivered != old(h.sys.log.delivered) ==> Transcript(env)
    ensures h.Valid() && (ok ==> h.sys.loop == Loop.Tail) && DeliversOnce(old(h.sys), h.sys)
    ensures ok ==> Ticked(old(h.sys), h.sys, found, env)
    ensures old(h.budget) == 0 && Free(old(h.sys)) && old(h.sys.active) && !found.exited && found.reached
            && old(h.sys.gate.admitted) == ADMISSION_NONE ==>
              ok && Ended(old(h.sys), h.sys, env)
  {
    ok := true;
    ReachableLife(h.sys);
    if !h.sys.active {
      ok := Retire(h, found.expired);
    } else if found.exited {
      ok := ExitEarly(h);
    } else if found.reached {
      TickDo(h, Timeout, LimitReached, h.sys.(loop := LimitIssue));
      ok := Limit(h, env);
    } else if found.level {
      ok := Level(h);
    } else {
      TickDo(h, Timeout, Nothing, h.sys.(loop := Loop.Tail));
    }
  }

  method ExitEarly(h: Host) returns (ok: bool)
    requires h.Valid() && h.sys.loop == Timeout && h.sys.active
    modifies h
    ensures !ok ==> Stuck(h)
    ensures h.Valid() && h.sys.log.delivered == old(h.sys.log.delivered)
    ensures ok ==> h.sys.loop == Loop.Tail && At(h.sys, Error) && h.sys.terminal && !h.sys.active
    ensures h.sys.generation == old(h.sys.generation)
  {
    TickDo(h, Timeout, EarlyExit, h.sys.(active := false, loop := EarlyExitPublish));
    ok := h.Lock(RunLoop);
    if !ok { return; }
    TickDo(h, EarlyExitPublish, Nothing, Publish(h.sys, Error).(terminal := true, loop := Loop.Tail));
  }

  /** The duration limit admits itself like a stop request, and gives way to one. */
  method Limit(h: Host, env: Environment) returns (ok: bool)
    requires h.Valid() && h.sys.loop == LimitIssue
    modifies h
    ensures !ok ==> Stuck(h)
    ensures h.sys.log.delivered != old(h.sys.log.delivered) ==> Transcript(env)
    ensures h.Valid() && (ok ==> h.sys.loop == Loop.Tail) && DeliversOnce(old(h.sys), h.sys)
    ensures ok ==> Ended(old(h.sys), h.sys, env) || Left(old(h.sys), h.sys)
    ensures old(h.budget) == 0 && Free(old(h.sys)) && old(h.sys.gate.admitted) == ADMISSION_NONE ==>
              ok && Ended(old(h.sys), h.sys, env)
  {
    var token := Token(h.sys.gate, true);
    TickDo(h, LimitIssue, Nothing, h.sys.(gate := Issue(h.sys.gate, true, RunLoop), loop := LimitAcquire(token)));
    ok := AdmitLimit(h, token, env);
  }

  method AdmitLimit(h: Host, token: nat, env: Environment) returns (ok: bool)
    requires h.Valid() && h.sys.loop == LimitAcquire(token)
    modifies h
    ensures !ok ==> Stuck(h)
    ensures h.sys.log.delivered != old(h.sys.log.delivered) ==> Transcript(env)
    ensures h.Valid() && (ok ==> h.sys.loop == Loop.Tail) && DeliversOnce(old(h.sys), h.sys)
    ensures ok ==> if old(h.sys.gate.admitted) == ADMISSION_NONE then Ended(old(h.sys), h.sys, env)
                   else Left(old(h.sys), h.sys)
    ensures old(h.budget) == 0 && Free(old(h.sys)) ==> ok
  {
    if h.sys.gate.admitted != ADMISSION_NONE {
      TickDo(h, LimitAcquire(token), Nothing, h.sys.(loop := Loop.Tail));
      return true;
    }
    TickDo(h, LimitAcquire(token), Nothing,
           h.sys.(gate := Admit(h.sys.gate, ADMISSION_NONE, token), active := false,
                  loop := InFinish(AnnounceStopping, ByLimit(token))));
    ok := FinishLimit(h, token, env);
  }

  method FinishLimit(h: Host, token: nat, env: Environment) returns (ok: bool)
    requires h.Valid() && h.sys.loop == InFinish(AnnounceStopping, ByLimit(token))
    modifies h
    ensures !ok ==> Stuck(h)
    ensures h.sys.log.delivered != old(h.sys.log.delivered) ==> Transcript(env)
    ensures h.Valid() && (ok ==> h.sys.loop == Loop.Tail) && DeliversOnce(old(h.sys), h.sys)
    ensures ok ==> Ended(old(h.sys), h.sys, env)
    ensures old(h.budget) == 0 && Free(old(h.sys)) ==> ok
  {
    ok := FinishActive(h, ByLimit(token), env);
    if !ok { return; }
    TickDo(h, LimitRelease(token), Nothing, h.sys.(gate := Unadmit(h.sys.gate, token), loop := Loop.Tail));
  }

  /** A level is published twice: without it, and with it. */
  method Level(h: Host) returns (ok: bool)
    requires h.Valid() && h.sys.loop == Timeout && h.sys.active
    modifies h
    ensures !ok ==> Stuck(h)
    ensures h.Valid() && (ok ==> h.sys.loop == Loop.Tail) && h.sys.log.delivered == old(h.sys.log.delivered)
    ensures h.sys.generation == old(h.sys.generation) && h.sys.active == old(h.sys.active) && (ok ==> At(h.sys, Recording))
  {
    TickDo(h, Timeout, LevelReady, h.sys.(loop := LevelPublish(false)));
    ok := h.Lock(RunLoop);
    if !ok { return; }
    TickDo(h, LevelPublish(false), Nothing, Publish(h.sys, Recording).(loop := LevelPublish(true)));
    ok := LevelAgain(h);
  }

  method LevelAgain(h: Host) returns (ok: bool)
    requires h.Valid() && h.sys.loop == LevelPublish(true)
    modifies h
    ensures !ok ==> Stuck(h)
    ensures h.Valid() && (ok ==> h.sys.loop == Loop.Tail) && h.sys.log.delivered == old(h.sys.log.delivered)
    ensures h.sys.generation == old(h.sys.generation) && h.sys.active == old(h.sys.active) && (ok ==> At(h.sys, Recording))
  {
    ok := h.Lock(RunLoop);
    if !ok { return; }
    TickDo(h, LevelPublish(true), Nothing, Publish(h.sys, Recording).(loop := Loop.Tail));
  }

  // ------------------------------------------------------------- the restart

  /** A READY request for the next generation, and nothing in its way. */
  predicate Wanted(s: Sys) {
    && !s.active && !s.shutdown && s.ticket.word != 0
    && IsReady(s.ticket.word) && Tag(s.ticket.word) == s.generation + 1
    && (s.gate.admitted == ADMISSION_NONE || IsFinish(s.gate.admitted))
  }

  /** A READY request that came too late, or too early. */
  predicate Misplaced(s: Sys) {
    !s.active && !s.shutdown && s.ticket.word != 0 && IsReady(s.ticket.word) && Tag(s.ticket.word) != s.generation + 1
  }

  /** The next generation was begun, its request served and the admission given back. */
  predicate Completed(s: Sys, t: Sys) {
    t.generation == s.generation + 1 && t.ticket.word == 0 && t.gate.admitted == ADMISSION_NONE
  }

  /** With no other thread moving: what is wanted is begun and served, and what is
      misplaced is dropped; everything else stays. */
  ghost predicate Restarted(s: Sys, t: Sys) {
    if Wanted(s) then Completed(s, t)
    else Left(s, t) && t.gate.admitted == s.gate.admitted && t.ticket.word == if Misplaced(s) then 0 else s.ticket.word
  }

  /** After every command and tick: a READY request for the next generation takes
      the admission word over and starts it. */
  method Tail(h: Host, env: Environment) returns (ok: bool)
    requires h.Valid() && h.sys.loop == Loop.Tail
    modifies h
    ensures !ok ==> Stuck(h)
    ensures h.Valid() && (ok ==> h.sys.loop == Head) && h.sys.log.delivered == old(h.sys.log.delivered)
    ensures ok ==> Began(old(h.sys), h.sys, env) || Left(old(h.sys), h.sys)
    ensures old(h.budget) == 0 && Free(old(h.sys)) ==> ok && Restarted(old(h.sys), h.sys)
  {
    var request := h.sys.ticket.word;
    var asked := !h.sys.active && request != 0;
    TailDo(h, Loop.Tail, h.sys.(loop := if asked then TailShutdown(request) else Head));
    ok := true;
    if asked { ok := Consider(h, request, env); }
  }

  /** The request has been read. */
  method Consider(h: Host, request: nat, env: Environment) returns (ok: bool)
    requires h.Valid() && h.sys.loop == TailShutdown(request) && request != 0
    modifies h
    ensures !ok ==> Stuck(h)
    ensures h.Valid() && (ok ==> h.sys.loop == Head) && h.sys.log.delivered == old(h.sys.log.delivered)
    ensures ok ==> Began(old(h.sys), h.sys, env) || Left(old(h.sys), h.sys)
    ensures old(h.budget) == 0 && Free(old(h.sys)) && request == old(h.sys.ticket.word) ==>
              ok && Restarted(old(h.sys), h.sys)
  {
    ReachableLife(h.sys);
    if h.sys.shutdown || !IsReady(request) {
      TailDo(h, TailShutdown(request), h.sys.(loop := Head));
      return true;
    }
    if Tag(request) != h.sys.generation + 1 {
      TailDo(h, TailShutdown(request), h.sys.(loop := TailDrop(request)));
      Drop(h, request);
      return true;
    }
    TailDo(h, TailShutdown(request), h.sys.(loop := TailLoadAdmitted(request)));
    ok := TakeOver(h, request, env);
  }

  /** A request for another generation is dropped. */
  method Drop(h: Host, request: nat)
    requires h.Valid() && h.sys.loop == TailDrop(request)
    modifies h
    ensures h.Valid() && h.sys.loop == Head && Left(old(h.sys), h.sys)
    ensures old(h.budget) == 0 ==>
              h.sys.gate == old(h.sys.gate) && h.sys.ticket == Clear(old(h.sys.ticket), request)
  {
    TailDo(h, TailDrop(request), h.sys.(ticket := Clear(h.sys.ticket, request), loop := Head));
  }

  /** A finish gives way to the restart, any other owner of the admission does not. */
  ghost predicate Taken(s: Sys, t: Sys) {
    if s.gate.admitted == ADMISSION_NONE || IsFinish(s.gate.admitted) then Completed(s, t)
    else Left(s, t) && t.gate == s.gate && t.ticket == s.ticket
  }

  method TakeOver(h: Host, request: nat, env: Environment) returns (ok: bool)
    requires h.Valid() && h.sys.loop == TailLoadAdmitted(request)
    modifies h
    ensures !ok ==> Stuck(h)
    ensures h.Valid() && (ok ==> h.sys.loop == Head) && h.sys.log.delivered == old(h.sys.log.delivered)
    ensures ok ==> Began(old(h.sys), h.sys, env) || Left(old(h.sys), h.sys)
    ensures old(h.budget) == 0 && Free(old(h.sys)) && request == old(h.sys.ticket.word) ==>
              ok && Taken(old(h.sys), h.sys)
  {
    var owner := h.sys.gate.admitted;
    if owner != ADMISSION_NONE && !IsFinish(owner) {
      GiveWay(h, request);
      return true;
    }
    Approach(h, request);
    ok := AdmitRestart(h, request, owner, env);
  }

  method Approach(h: Host, request: nat)
    requires h.Valid() && h.sys.loop == TailLoadAdmitted(request)
    requires h.sys.gate.admitted == ADMISSION_NONE || IsFinish(h.sys.gate.admitted)
    modifies h
    ensures h.Valid() && h.sys.loop == TailIssue(request, old(h.sys.gate.admitted)) && Left(old(h.sys), h.sys)
    ensures (old(h.sys.shutdown) ==> h.sys.shutdown) && (old(h.budget) == 0 && Free(old(h.sys)) ==> Quiet(h, old(h.sys)))
  {
    TailDo(h, TailLoadAdmitted(request), h.sys.(loop := TailIssue(request, h.sys.gate.admitted)));
  }

  method GiveWay(h: Host, request: nat)
    requires h.Valid() && h.sys.loop == TailLoadAdmitted(request)
    requires h.sys.gate.admitted != ADMISSION_NONE && !IsFinish(h.sys.gate.admitted)
    modifies h
    ensures h.Valid() && h.sys.loop == Head && Left(old(h.sys), h.sys)
    ensures old(h.budget) == 0 ==> h.sys.gate == old(h.sys.gate) && h.sys.ticket == old(h.sys.ticket)
  {
    TailDo(h, TailLoadAdmitted(request), h.sys.(loop := Head));
  }

  /** The restart's own token, over what was found in the word. */
  method AdmitRestart(h: Host, request: nat, owner: nat, env: Environment) returns (ok: bool)
    requires h.Valid() && h.sys.loop == TailIssue(request, owner)
    modifies h
    ensures !ok ==> Stuck(h)
    ensures h.Valid() && (ok ==> h.sys.loop == Head) && h.sys.log.delivered == old(h.sys.log.delivered)
    ensures ok ==> Began(old(h.sys), h.sys, env) || Left(old(h.sys), h.sys)
    ensures old(h.budget) == 0 && Free(old(h.sys))
            && owner == old(h.sys.gate.admitted) && request == old(h.sys.ticket.word) ==>
              ok && Completed(old(h.sys), h.sys)
  {
    var token := Token(h.sys.gate, false);
    TailDo(h, TailIssue(request, owner),
           h.sys.(gate := Issue(h.sys.gate, false, RunLoop), loop := TailAcquire(request, owner, token)));
    ok := AcquireRestart(h, request, owner, token, env);
  }

  method AcquireRestart(h: Host, request: nat, owner: nat, token: nat, env: Environment) returns (ok: bool)
    requires h.Valid() && h.sys.loop == TailAcquire(request, owner, token)
    modifies h
    ensures !ok ==> Stuck(h)
    ensures h.Valid() && (ok ==> h.sys.loop == Head) && h.sys.log.delivered == old(h.sys.log.delivered)
    ensures ok ==> Began(old(h.sys), h.sys, env) || Left(old(h.sys), h.sys)
    ensures old(h.budget) == 0 && Free(old(h.sys))
            && owner == old(h.sys.gate.admitted) && request == old(h.sys.ticket.word) ==>
              ok && Completed(old(h.sys), h.sys)
  {
    if h.sys.gate.admitted != owner {
      TailDo(h, TailAcquire(request, owner, token), h.sys.(loop := Head));
      return true;
    }
    TailDo(h, TailAcquire(request, owner, token),
           h.sys.(gate := Admit(h.sys.gate, owner, token), loop := TailIdle(request, token)));
    ok := Restart(h, request, token, env);
  }

  /** The restart proper, under its own admission. */
  method Restart(h: Host, request: nat, token: nat, env: Environment) returns (ok: bool)
    requires h.Valid() && h.sys.loop == TailIdle(request, token)
    modifies h
    ensures !ok ==> Stuck(h)
    ensures h.Valid() && h.sys.log.delivered == old(h.sys.log.delivered)
    ensures ok ==> h.sys.loop == Head && Began(old(h.sys), h.sys, env)
    ensures old(h.budget) == 0 && Free(old(h.sys))
            && token == old(h.sys.gate.admitted) && request == old(h.sys.ticket.word) ==>
              ok && Completed(old(h.sys), h.sys)
  {
    ok := h.Lock(RunLoop);
    if !ok { return; }
    TailDo(h, TailIdle(request, token),
           Publish(h.sys, Idle).(terminal := false,
                                 ticket := h.sys.ticket.(restarted := h.sys.ticket.restarted + {h.sys.generation}),
                                 loop := InStart(Begin, ByRestart(request, token))));
    ok := ServeRestart(h, request, token, env);
  }

  method ServeRestart(h: Host, request: nat, token: nat, env: Environment) returns (ok: bool)
    requires h.Valid() && h.sys.loop == InStart(Begin, ByRestart(request, token))
    modifies h
    ensures !ok ==> Stuck(h)
    ensures h.Valid() && h.sys.log.delivered == old(h.sys.log.delivered)
    ensures ok ==> h.sys.loop == Head && Began(old(h.sys), h.sys, env)
    ensures old(h.budget) == 0 && Free(old(h.sys))
            && token == old(h.sys.gate.admitted) && request == old(h.sys.ticket.word) ==>
              ok && Completed(old(h.sys), h.sys)
  {
    ok := StartActive(h, ByRestart(request, token), env);
    if !ok { return; }
    StartDo(h, Return, ByRestart(request, token), Nothing,
            h.sys.(terminal := h.sys.terminal || !h.sys.active, loop := TailClear(request, token)));
    EndRestart(h, request, token);
  }

  /** The request is served, and the admission given back. */
  method EndRestart(h: Host, request: nat, token: nat)
    requires h.Valid() && h.sys.loop == TailClear(request, token)
    modifies h
    ensures h.Valid() && h.sys.loop == Head && Left(old(h.sys), h.sys)
    ensures old(h.budget) == 0 ==>
              h.sys.ticket == Clear(old(h.sys.ticket), request) && h.sys.gate == Unadmit(old(h.sys.gate), token)
  {
    TailDo(h, TailClear(request, token), h.sys.(ticket := Clear(h.sys.ticket, request), loop := TailRelease(token)));
    TailDo(h, TailRelease(token), h.sys.(gate := Unadmit(h.sys.gate, token), loop := Head));
  }

  /** The loop is told to end, or nobody is left who could tell it anything. */
  predicate Ends(s: Sys, disconnected: bool) {
    if s.queue != [] then s.queue[0].Shutdown? else disconnected && forall c <- s.ops :: s.ops[c].Done?
  }

  /** One round of `run`, from one receive to the next: at most one delivery, and the
      state settled again, unless the loop has ended. `env` answers what the command or
      the tick asks, and `next` what a restart behind it does. */
  method Round(h: Host, disconnected: bool, found: Findings, env: Environment, next: Environment) returns (ok: bool)
    requires h.Valid() && h.sys.loop == Head
    modifies h
    ensures !ok ==> Stuck(h)
    ensures h.Valid() && DeliversOnce(old(h.sys), h.sys)
    ensures ok ==> if Ends(old(h.sys), disconnected) then h.sys.loop == Exited else h.sys.loop == Head && Settled(h.sys)
    ensures h.sys.log.delivered != old(h.sys.log.delivered) ==> Transcript(env)
  {
    ok := true;
    if h.sys.queue != [] {
      ok := Serve(h, env);
    } else if disconnected && forall c <- h.sys.ops :: h.sys.ops[c].Done? {
      HeadDo(h, Disconnected, Exit(h.sys));
    } else {
      HeadDo(h, Nothing, h.sys.(loop := Timeout));
      ok := Tick(h, found, env);
    }
    if ok && h.sys.loop == Loop.Tail { ok := Tail(h, next); }
    ReachableLife(h.sys);
  }

  /** `run`, for as many rounds as it is given. */
  method Run(h: Host, rounds: nat) returns (ok: bool)
    requires h.Valid() && h.sys == Init
    modifies h
    ensures !ok ==> Stuck(h)
    ensures h.Valid() && (ok ==> h.sys.loop == Exited || (h.sys.loop == Head && Settled(h.sys)))
    ensures |h.sys.log.delivered| <= rounds
  {
    ok := true;
    h.Others(RunLoop);
    for round := 0 to rounds
      invariant h.Valid() && ok && (h.sys.loop == Exited || (h.sys.loop == Head && Settled(h.sys)))
      invariant |h.sys.log.delivered| <= round
    {
      if h.sys.loop == Exited { return; }
      var disconnected: bool, found: Findings, env: Environment, next: Environment := *, *, *, *;
      ok := Round(h, disconnected, found, env, next);
      if !ok { return; }
    }
  }
}
