/** Which recordings an accepted startup cancel fails to stop, told from the
    queue at the moment the cancel is accepted. */
module SessionOvertaken {
  import opened Options
  import opened Session
  import opened SessionLifecycle
  import opened SessionCancel
  import opened SessionOrphans
  import opened SessionInvariant
  import opened SessionTheorems

  /** The commands that end the recording of generation `g` when the loop receives
      them. */
  predicate Ends(command: Command, g: nat) {
    command.Shutdown? || command == CancelStartup(g) || (command.Toggle? && command.expected.Recording?)
  }

  /** The first command that ends the recording is a stop request. */
  predicate StopIsFirst(queue: seq<Command>, g: nat) {
    queue != [] && if Ends(queue[0], g) then queue[0].Toggle? else StopIsFirst(queue[1..], g)
  }

  ghost predicate Stopped(s: Sys, g: nat) {
    Snapshot(Stopping, g) in s.log.published
  }

  /** What comes behind a command that ends the recording makes no difference. */
  lemma {:induction false} BehindEnd(queue: seq<Command>, command: Command, g: nat)
    requires exists c <- queue :: Ends(c, g)
    ensures StopIsFirst(queue + [command], g) == StopIsFirst(queue, g)
  {
    assert (queue + [command])[1..] == queue[1..] + [command];
    if !Ends(queue[0], g) { BehindEnd(queue[1..], command, g); }
  }

  lemma {:induction false} CancelBehind(queue: seq<Command>, g: nat)
    ensures StopIsFirst(queue + [CancelStartup(g)], g) == StopIsFirst(queue, g)
  {
    if queue != [] {
      assert (queue + [CancelStartup(g)])[1..] == queue[1..] + [CancelStartup(g)];
      CancelBehind(queue[1..], g);
    }
  }

  datatype Stage = Launching | Live | Ending | Over

  /** Where the recording of generation `g` stands. */
  function StageOf(s: Sys, g: nat): Stage {
    if s.generation != g then Over
    else if s.active then Live
    else if s.loop.InFinish? && s.loop.finish.AnnounceStopping? then Ending
    else if s.loop.InStart? && !s.loop.start.Begin? && !s.loop.start.Return? then Launching
    else Over
  }

  predicate StopAhead(s: Sys, g: nat) {
    (s.loop.ToggleRead? && s.loop.expected.Recording?) || StopIsFirst(s.queue, g)
  }

  /** The loop has looked at the cancel word and not seen `g` in it. */
  predicate PastCheck(s: Sys) {
    s.loop.InStart? && s.loop.start.AnnounceRecording?
  }

  /** `stop` tells, of a generation whose cancel was accepted, whether it will be
      stopped for processing. Until the recording begins, the cancel word keeps it
      from beginning unless the loop is past its look at it. */
  ghost predicate Foretold(s: Sys, g: nat, stop: bool) {
    && g <= s.generation && g in s.cancels
    && match StageOf(s, g)
       case Launching =>
         !Stopped(s, g) && s.startupCancelled == g && stop == (PastCheck(s) && StopIsFirst(s.queue, g))
       case Live => !Stopped(s, g) && stop == StopAhead(s, g)
       case Ending => !Stopped(s, g) && stop
       case Over => Stopped(s, g) == stop
  }

  lemma HeadForetold(s: Sys, a: Answer, g: nat, stop: bool)
    requires CancelParts(s) && s.loop == Head && Life(s, Head) && Foretold(s, g, stop)
    ensures Foretold(HeadStep(s, a), g, stop)
  {}

  lemma CommandForetold(s: Sys, loop: Loop, a: Answer, g: nat, stop: bool)
    requires CancelParts(s) && s.loop == loop && Where(loop).AtCommand? && Life(s, loop) && Foretold(s, g, stop)
    ensures Foretold(CommandStep(s, loop, a), g, stop)
  {}

  lemma TickForetold(s: Sys, loop: Loop, a: Answer, g: nat, stop: bool)
    requires CancelParts(s) && s.loop == loop && Where(loop).AtTick? && Life(s, loop) && Foretold(s, g, stop)
    ensures Foretold(TickStep(s, loop, a), g, stop)
  {}

  lemma StartForetold(s: Sys, phase: StartPhase, who: Starter, a: Answer, g: nat, stop: bool)
    requires s.loop == InStart(phase, who) && StartLife(s, phase) && Foretold(s, g, stop)
    ensures Foretold(StartStep(s, phase, who, a), g, stop)
  {}

  lemma FinishForetold(s: Sys, phase: FinishPhase, stopper: Stopper, a: Answer, g: nat, stop: bool)
    requires s.loop == InFinish(phase, stopper) && FinishLife(s, phase) && Foretold(s, g, stop)
    ensures Foretold(FinishStep(s, phase, stopper, a), g, stop)
  {}

  lemma TailForetold(s: Sys, loop: Loop, g: nat, stop: bool)
    requires s.loop == loop && Where(loop).AtTail? && Life(s, loop) && Foretold(s, g, stop)
    ensures Foretold(TailStep(s, loop), g, stop)
  {}

  lemma LoopForetold(s: Sys, loop: Loop, a: Answer, g: nat, stop: bool)
    requires CancelParts(s) && s.loop == loop && Life(s, loop) && LoopEnabled(s, a) && Foretold(s, g, stop)
    ensures Foretold(LoopStep(s, loop, a), g, stop)
  {
    match Where(loop)
    case AtHead => HeadForetold(s, a, g, stop);
    case AtCommand => CommandForetold(s, loop, a, g, stop);
    case AtTick => TickForetold(s, loop, a, g, stop);
    case AtStart => StartForetold(s, loop.start, loop.who, a, g, stop);
    case AtFinish => FinishForetold(s, loop.finish, loop.stopper, a, g, stop);
    case AtTail => TailForetold(s, loop, g, stop);
  }

  lemma CancelIsQueued(s: Sys, g: nat)
    requires CancelParts(s) && Life(s, s.loop) && g in s.cancels && (StageOf(s, g).Launching? || StageOf(s, g).Live?)
    ensures exists c <- s.queue :: Ends(c, g)
  {
    assert CancelAhead(s.queue, g);
    var i :| 0 <= i < |s.queue| && s.queue[i] == CancelStartup(g);
    assert Ends(s.queue[i], g);
  }

  /** A call that is about to send its cancel has stored it in the cancel word. */
  ghost predicate Stored(s: Sys) {
    forall c <- s.ops :: s.ops[c].CancelSend? ==> s.ops[c].gen == s.startupCancelled
  }

  /** A step of call `c`: only the lock section writes the cancel word, once. */
  predicate WordMoves(s: Sys, op: Op, step: Step) {
    && step.sys.startupCancelled == (if op.CancelStore? then op.gen else s.startupCancelled)
    && (step.op.CancelSend? ==> op.CancelStore? && step.op.gen == op.gen)
  }

  lemma CancelWord(s: Sys, c: nat, op: Op)
    requires InCancel(op)
    ensures WordMoves(s, op, CancelStep(s, c, op))
  {}

  lemma OtherWord(s: Sys, c: nat, op: Op)
    requires !InCancel(op)
    ensures WordMoves(s, op, OpStep(s, c, op))
  {}

  lemma OpWord(s: Sys, c: nat, op: Op)
    ensures WordMoves(s, op, OpStep(s, c, op))
  {
    if InCancel(op) { CancelWord(s, c, op); } else { OtherWord(s, c, op); }
  }

  predicate WordKept(s: Sys, t: Sys) {
    t.startupCancelled == s.startupCancelled && t.ops == s.ops
  }

  lemma HeadWord(s: Sys, a: Answer)
    ensures WordKept(s, HeadStep(s, a))
  {}

  lemma CommandWord(s: Sys, loop: Loop, a: Answer)
    ensures WordKept(s, CommandStep(s, loop, a)) && WordKept(s, TickStep(s, loop, a))
  {}

  lemma StartWord(s: Sys, phase: StartPhase, who: Starter, a: Answer)
    ensures WordKept(s, StartStep(s, phase, who, a))
  {}

  lemma FinishWord(s: Sys, phase: FinishPhase, stopper: Stopper, a: Answer)
    ensures WordKept(s, FinishStep(s, phase, stopper, a))
  {}

  lemma TailWord(s: Sys, loop: Loop)
    ensures WordKept(s, TailStep(s, loop))
  {}

  lemma LoopWord(s: Sys, loop: Loop, a: Answer)
    requires s.loop == loop
    ensures WordKept(s, LoopStep(s, loop, a))
  {
    match Where(loop)
    case AtHead => HeadWord(s, a);
    case AtCommand => CommandWord(s, loop, a);
    case AtTick => CommandWord(s, loop, a);
    case AtStart => StartWord(s, loop.start, loop.who, a);
    case AtFinish => FinishWord(s, loop.finish, loop.stopper, a);
    case AtTail => TailWord(s, loop);
  }

  lemma StoredOp(s: Sys, c: nat)
    requires Inv(s) && Stored(s) && Enabled(s, Advance(c))
    ensures Stored(Perform(s, Advance(c)))
  {
    OpWord(s, c, s.ops[c]);
    var t := Perform(s, Advance(c));
    forall d <- t.ops | t.ops[d].CancelSend? ensures t.ops[d].gen == t.startupCancelled {
      assert OpCancel(s.ops[c], s.snapshot, s.lock, c) && OpCancel(s.ops[d], s.snapshot, s.lock, d);
    }
  }

  lemma StoredStep(s: Sys, action: Action)
    requires Inv(s) && Stored(s) && Enabled(s, action)
    ensures Stored(Perform(s, action))
  {
    match action
    case Call(_, _) =>
    case Advance(c) => StoredOp(s, c);
    case Loop(a) => LoopWord(s, s.loop, a);
  }

  lemma {:induction false} StoredRun(run: seq<Sys>, actions: seq<Action>, i: nat)
    requires IsRun(run, actions) && i < |run|
    ensures Stored(run[i])
  {
    if i > 0 {
      StoredRun(run, actions, i - 1);
      InvRun(run, actions, i - 1);
      StoredStep(run[i - 1], actions[i - 1]);
    }
  }

  /** Under the lock only the current generation's cancel is stored. */
  lemma WordStays(s: Sys, action: Action, g: nat)
    requires Inv(s) && Enabled(s, action) && !action.Loop?
    requires s.snapshot == Snapshot(Starting, g) && s.startupCancelled == g
    ensures Perform(s, action).startupCancelled == g
  {
    if action.Advance? {
      OpWord(s, action.c, s.ops[action.c]);
      assert OpCancel(s.ops[action.c], s.snapshot, s.lock, action.c);
    }
  }

  /** A step of a call publishes nothing, and accepts a cancel only while Starting
      is published. */
  lemma OpStops(s: Sys, action: Action)
    requires Inv(s) && Enabled(s, action) && !action.Loop?
    ensures var t := Perform(s, action);
            && t.log == s.log
            && (t.cancels == s.cancels ||
                (s.snapshot.state.Starting? && t.cancels == s.cancels + {s.snapshot.generation}))
  {
    match action
    case Call(_, _) =>
    case Advance(c) =>
      OpKeepsCancel(s, c, s.ops[c]);
      OpLeavesLoop(s, c, s.ops[c]);
  }

  /** A call appends to the queue at most. */
  lemma OpForetold(s: Sys, action: Action, g: nat, stop: bool)
    requires Inv(s) && Enabled(s, action) && !action.Loop? && Foretold(s, g, stop)
    ensures Foretold(Perform(s, action), g, stop)
  {
    var t := Perform(s, action);
    OpStops(s, action);
    CallAppends(s, action);
    if StageOf(s, g).Launching? { WordStays(s, action, g); }
    if StageOf(s, g).Launching? || StageOf(s, g).Live? {
      CancelIsQueued(s, g);
      if t.queue != s.queue { BehindEnd(s.queue, t.queue[|s.queue|], g); }
    }
  }

  lemma CallAppends(s: Sys, action: Action)
    requires Inv(s) && Enabled(s, action) && !action.Loop?
    ensures var t := Perform(s, action);
            && (t.queue == s.queue || exists command :: t.queue == s.queue + [command])
            && t.loop == s.loop && t.active == s.active && t.generation == s.generation
  {
    match action
    case Call(_, _) =>
    case Advance(c) =>
      assert OpOrphan(ViewOf(s), s.ops[c]);
      OpSends(s, c, s.ops[c]);
      OpLeavesLoop(s, c, s.ops[c]);
  }

  lemma ForetoldStep(s: Sys, action: Action, g: nat, stop: bool)
    requires Inv(s) && Enabled(s, action) && Foretold(s, g, stop)
    ensures Foretold(Perform(s, action), g, stop)
  {
    if action.Loop? { LoopForetold(s, s.loop, action.answer, g, stop); } else { OpForetold(s, action, g, stop); }
  }

  lemma ForetoldNext(run: seq<Sys>, actions: seq<Action>, j: nat, g: nat, stop: bool)
    requires IsRun(run, actions) && j < |actions| && Foretold(run[j], g, stop)
    ensures Foretold(run[j + 1], g, stop)
  {
    InvRun(run, actions, j);
    ForetoldStep(run[j], actions[j], g, stop);
  }

  lemma {:induction false} ForetoldRun(run: seq<Sys>, actions: seq<Action>, i: nat, j: nat, g: nat, stop: bool)
    requires IsRun(run, actions) && i <= j < |run| && Foretold(run[i], g, stop)
    ensures Foretold(run[j], g, stop)
  {
    if i < j {
      ForetoldRun(run, actions, i, j - 1, g, stop);
      ForetoldNext(run, actions, j - 1, g, stop);
    }
  }

  // ---------------------------------------------------------------- results

  /** Call `c` is sending the startup cancel of `g` to a loop that is still there. */
  predicate AcceptsCancel(s: Sys, action: Action, g: nat) {
    action.Advance? && action.c in s.ops && s.ops[action.c] == CancelSend(g) && Alive(s)
  }

  /** The recording of `g`, if there was one, has ended. */
  predicate Ended(s: Sys, g: nat) {
    g < s.generation || s.loop.Exited? || (s.loop.Head? && !s.active)
  }

  /** While Starting is published for `g`, its recording is still to come. */
  lemma StartingIsLaunching(s: Sys, g: nat)
    requires Lifecycle(s) && Stops(s) && Alive(s) && s.snapshot == Snapshot(Starting, g)
    ensures StageOf(s, g).Launching? && !Stopped(s, g)
  {}

  lemma CancelAccepted(s: Sys, c: nat, op: Op, g: nat)
    requires op == CancelSend(g) && Alive(s)
    ensures OpStep(s, c, op) == Step(s.(lock := None, queue := s.queue + [CancelStartup(g)], cancels := s.cancels + {g}),
                                     Done(Accepted))
  {}

  lemma AcceptForetells(run: seq<Sys>, actions: seq<Action>, i: nat, g: nat)
    requires IsRun(run, actions) && i < |actions| && AcceptsCancel(run[i], actions[i], g)
    ensures Foretold(run[i + 1], g, PastCheck(run[i]) && StopIsFirst(run[i].queue, g))
  {
    InvRun(run, actions, i);
    StoredRun(run, actions, i);
    var s, c := run[i], actions[i].c;
    assert OpCancel(s.ops[c], s.snapshot, s.lock, c);
    StartingIsLaunching(s, g);
    CancelAccepted(s, c, s.ops[c], g);
    CancelBehind(s.queue, g);
  }

  lemma EndedIsOver(run: seq<Sys>, actions: seq<Action>, j: nat, g: nat)
    requires IsRun(run, actions) && j < |run| && Ended(run[j], g) && g <= run[j].generation
    ensures StageOf(run[j], g).Over?
  {
    InvRun(run, actions, j);
  }

  /** Whether a startup cancel that is accepted for `g` will hold is settled at that
      moment: once the recording of `g` has ended, it has been stopped for processing,
      and so possibly delivered, if and only if the loop was already past its look at
      the cancel word, and of the commands queued then the first one that ends a
      recording was a stop request. */
  lemma CancelIsOvertakenIff(run: seq<Sys>, actions: seq<Action>, i: nat, j: nat, g: nat)
    requires IsRun(run, actions) && i < j < |run| && AcceptsCancel(run[i], actions[i], g) && Ended(run[j], g)
    ensures Stopped(run[j], g) <==> PastCheck(run[i]) && StopIsFirst(run[i].queue, g)
  {
    AcceptForetells(run, actions, i, g);
    ForetoldRun(run, actions, i + 1, j, g, PastCheck(run[i]) && StopIsFirst(run[i].queue, g));
    EndedIsOver(run, actions, j, g);
  }

  /** Otherwise the generation is never stopped for processing and never delivered. */
  lemma CancelIsFinal(run: seq<Sys>, actions: seq<Action>, i: nat, j: nat, g: nat)
    requires IsRun(run, actions) && i < j < |run| && AcceptsCancel(run[i], actions[i], g)
    requires !PastCheck(run[i]) || !StopIsFirst(run[i].queue, g)
    ensures !Stopped(run[j], g) && g !in run[j].log.delivered
  {
    AcceptForetells(run, actions, i, g);
    ForetoldRun(run, actions, i + 1, j, g, false);
    OneDeliveryPerGeneration(run, actions, j);
  }

  lemma RecordingForetells(s: Sys, g: nat)
    requires Inv(s) && s.loop.Head? && s.active && s.generation == g && g in s.cancels
    ensures Foretold(s, g, StopIsFirst(s.queue, g))
  {
    assert s.snapshot == Snapshot(Recording, g);
  }

  /** Looked at from the first head of the loop that finds the recorder running for
      `g`, or any later one, the queue alone decides. */
  lemma RecordingIsOvertakenIff(run: seq<Sys>, actions: seq<Action>, i: nat, j: nat, g: nat)
    requires IsRun(run, actions) && i <= j < |run| && Ended(run[j], g)
    requires run[i].loop.Head? && run[i].active && run[i].generation == g && g in run[i].cancels
    ensures Stopped(run[j], g) <==> StopIsFirst(run[i].queue, g)
  {
    InvRun(run, actions, i);
    RecordingForetells(run[i], g);
    ForetoldRun(run, actions, i, j, g, StopIsFirst(run[i].queue, g));
    EndedIsOver(run, actions, j, g);
  }

  /** A stop request that is queued while Starting is published for `g` belongs to a
      call that still waits, was admitted in an earlier generation, and has lost
      its finish token to a restart. */
  lemma QueuedStopIsDisplaced(run: seq<Sys>, actions: seq<Action>, i: nat, k: nat, g: nat)
    requires IsRun(run, actions) && i < |run| && run[i].snapshot == Snapshot(Starting, g) && Alive(run[i])
    requires k < |run[i].queue| && run[i].queue[k].Toggle? && run[i].queue[k].expected.Recording?
    ensures var s, stop := run[i], run[i].queue[k];
            && stop.admittedAt < g
            && stop.reply in s.ops && s.ops[stop.reply].Await? && stop.reply !in s.replied
            && s.ops[stop.reply].token in s.gate.displaced
  {
    InvRun(run, actions, i);
    assert CommandOwned(ViewOf(run[i]), run[i].queue[k]);
    StartingIsLaunching(run[i], g);
  }
}
