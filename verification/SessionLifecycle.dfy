/** What the run loop publishes: the lifecycle graph, and one delivery per
    generation. */
module SessionLifecycle {
  import opened Session

  /** The states that may follow one another within a generation. */
  predicate SameGenerationEdge(from: State, to: State) {
    match from
    case Idle => to.Idle?
    case Starting => to.Recording? || to.Error? || to.Cancelled?
    case Recording => to.Recording? || to.Stopping? || to.Error? || to.Cancelled?
    case Stopping => to.Processing? || to.Error? || to.Cancelled?
    case Processing => to.Delivering? || to.Success? || to.Error? || to.Cancelled?
    case Delivering => to.Success? || to.Error? || to.Cancelled?
    case _ => to.Idle?
  }

  /** A new generation begins from Idle, and may fail before Starting. */
  predicate Edge(from: Snapshot, to: Snapshot) {
    if to.generation == from.generation then SameGenerationEdge(from.state, to.state)
    else to.generation == from.generation + 1 && from.state.Idle? &&
         (to.state.Starting? || to.state.Error? || to.state.Cancelled?)
  }

  ghost predicate IsPath(published: seq<Snapshot>) {
    forall i :: 0 < i < |published| ==> Edge(published[i - 1], published[i])
  }

  /** At a loop head the recorder runs iff the state is Recording, and the
      terminal deadline is set iff the state is terminal. */
  predicate Settled(s: Sys) {
    && s.snapshot.generation == s.generation
    && (s.active <==> s.snapshot.state.Recording?)
    && (s.terminal <==> IsTerminal(s.snapshot.state))
    && (s.active || s.terminal || s.snapshot.state.Idle?)
  }

  predicate At(s: Sys, state: State) {
    s.snapshot == Snapshot(state, s.generation)
  }

  /** The generation has been drawn but nothing published for it yet. */
  predicate JustDrawn(s: Sys) {
    s.generation > 0 && s.snapshot == Snapshot(Idle, s.generation - 1)
  }

  predicate StartLife(s: Sys, phase: StartPhase) {
    && !s.terminal
    && match phase
       case Begin => !s.active && At(s, Idle)
       case AnnounceStarting => !s.active && JustDrawn(s)
       case WorkerStart => !s.active && At(s, Starting)
       case CheckShutdown => !s.active && At(s, Starting)
       case CheckCancel => !s.active && At(s, Starting)
       case AnnounceRecording => !s.active && At(s, Starting)
       case FailCheckCancel => !s.active && (At(s, Starting) || JustDrawn(s))
       case FailCheckShutdown => !s.active && (At(s, Starting) || JustDrawn(s))
       case AnnounceFailure(outcome) =>
         !s.active && (At(s, Starting) || JustDrawn(s)) && (outcome.Error? || outcome.Cancelled?)
       case Return => if s.active then At(s, Recording) else At(s, Error) || At(s, Cancelled)
  }

  predicate FinishLife(s: Sys, phase: FinishPhase) {
    && !s.terminal && !s.active
    && match phase
       case AnnounceStopping => At(s, Recording)
       case StopCapture => At(s, Stopping)
       case AnnounceProcessing => At(s, Stopping)
       case WorkerFinish => At(s, Processing)
       case AnnounceDelivering => At(s, Processing)
       case Deliver => At(s, Delivering)
       case LoadShutdown(outcome) => OutcomeAllowed(s, outcome)
       case AnnounceOutcome(outcome) => OutcomeAllowed(s, outcome)
  }

  predicate OutcomeAllowed(s: Sys, outcome: State) {
    && (outcome.Success? ==> At(s, Processing) || At(s, Delivering))
    && IsTerminal(outcome)
    && (At(s, Stopping) || At(s, Processing) || At(s, Delivering))
  }

  predicate Life(s: Sys, loop: Loop) {
    match loop
    case CancelPublish => !s.active && !s.terminal && At(s, Recording)
    case CancelCheck => Settled(s) || (!s.active && At(s, Cancelled))
    case IdlePublish => Settled(s) && !s.active && s.terminal
    case EarlyExitPublish => !s.active && !s.terminal && At(s, Recording)
    case LimitIssue => Settled(s) && s.active
    case LimitAcquire(_) => Settled(s) && s.active
    case LevelPublish(_) => Settled(s) && s.active
    case InStart(phase, _) => StartLife(s, phase)
    case InFinish(phase, _) => FinishLife(s, phase)
    case TailShutdown(_) => Settled(s) && !s.active
    case TailDrop(_) => Settled(s) && !s.active
    case TailLoadAdmitted(_) => Settled(s) && !s.active
    case TailIssue(_, _) => Settled(s) && !s.active
    case TailAcquire(_, _, _) => Settled(s) && !s.active
    case TailIdle(_, _) => Settled(s) && !s.active
    case Exited => !s.active && s.snapshot.generation == s.generation
    case _ => Settled(s)
  }

  /** No delivery for this generation can still happen. */
  predicate PastDelivery(s: Sys) {
    || At(s, Idle) || (IsTerminal(s.snapshot.state) && s.snapshot.generation == s.generation)
    || (At(s, Delivering) && s.loop.InFinish? && (s.loop.finish.LoadShutdown? || s.loop.finish.AnnounceOutcome?))
    || (s.loop.Exited? && s.snapshot.generation == s.generation)
  }

  ghost predicate LogOk(s: Sys) {
    && s.log.published != [] && s.log.published[|s.log.published| - 1] == s.snapshot
    && IsPath(s.log.published)
    && (forall i, j :: 0 <= i < j < |s.log.delivered| ==> s.log.delivered[i] < s.log.delivered[j])
    && (forall d <- s.log.delivered :: Snapshot(Delivering, d) in s.log.published)
    && (forall d <- s.log.delivered :: d < s.generation || (d == s.generation && PastDelivery(s)))
  }

  ghost predicate Lifecycle(s: Sys) {
    Life(s, s.loop) && LogOk(s)
  }

  /** How one step of the run loop moves the log. */
  ghost predicate Logs(s: Sys, t: Sys) {
    && s.generation <= t.generation
    && ((t.snapshot == s.snapshot && t.log.published == s.log.published) ||
        (t.log.published == s.log.published + [t.snapshot] && Edge(s.snapshot, t.snapshot)))
    && (t.log.delivered == s.log.delivered ||
        (t.log.delivered == s.log.delivered + [t.generation] && t.generation == s.generation && At(s, Delivering) &&
         !PastDelivery(s) && PastDelivery(t) && t.snapshot == s.snapshot))
    && (PastDelivery(s) ==> PastDelivery(t) || t.generation > s.generation)
    && (t.snapshot.state.Stopping? ==>
          t.snapshot == s.snapshot || (s.loop.InFinish? && t.snapshot.generation == s.generation))
  }

  ghost predicate LifeKept(s: Sys, t: Sys) {
    Life(t, t.loop) && Logs(s, t)
  }

  lemma ReceiveLife(s: Sys, r: Sys, command: Command)
    requires s.loop == Head && Life(s, Head) && s.queue != [] && r == s.(queue := s.queue[1..])
    ensures LifeKept(s, Receive(r, command))
  {}

  lemma HeadLife(s: Sys, a: Answer)
    requires s.loop == Head && Life(s, Head)
    ensures LifeKept(s, HeadStep(s, a))
  {
    if s.queue != [] { ReceiveLife(s, s.(queue := s.queue[1..]), s.queue[0]); }
  }

  lemma CommandLife(s: Sys, loop: Loop, a: Answer)
    requires s.loop == loop && Where(loop).AtCommand? && Life(s, loop)
    ensures LifeKept(s, CommandStep(s, loop, a))
  {}

  lemma TickLife(s: Sys, loop: Loop, a: Answer)
    requires s.loop == loop && Where(loop).AtTick? && Life(s, loop)
    ensures LifeKept(s, TickStep(s, loop, a))
  {}

  lemma StartLifeKept(s: Sys, phase: StartPhase, who: Starter, a: Answer)
    requires s.loop == InStart(phase, who) && StartLife(s, phase)
    ensures LifeKept(s, StartStep(s, phase, who, a))
  {}

  lemma FinishLifeKept(s: Sys, phase: FinishPhase, stopper: Stopper, a: Answer)
    requires s.loop == InFinish(phase, stopper) && FinishLife(s, phase)
    ensures LifeKept(s, FinishStep(s, phase, stopper, a))
  {}

  lemma TailLife(s: Sys, loop: Loop)
    requires s.loop == loop && Where(loop).AtTail? && Life(s, loop)
    ensures LifeKept(s, TailStep(s, loop))
  {}

  lemma LogKept(s: Sys, t: Sys)
    requires LogOk(s) && Logs(s, t)
    ensures LogOk(t)
  {
    forall i | 0 <= i < |s.log.delivered|
      ensures s.log.delivered[i] <= t.generation && (!PastDelivery(s) ==> s.log.delivered[i] < s.generation)
    {
      assert s.log.delivered[i] in s.log.delivered;
    }
  }

  lemma LoopLife(s: Sys, loop: Loop, a: Answer)
    requires s.loop == loop && Life(s, loop)
    ensures LifeKept(s, LoopStep(s, loop, a))
  {
    match Where(loop)
    case AtHead => HeadLife(s, a);
    case AtCommand => CommandLife(s, loop, a);
    case AtTick => TickLife(s, loop, a);
    case AtStart => StartLifeKept(s, loop.start, loop.who, a);
    case AtFinish => FinishLifeKept(s, loop.finish, loop.stopper, a);
    case AtTail => TailLife(s, loop);
  }

  /** A call never touches what only the run loop writes. */
  predicate SameLoop(s: Sys, t: Sys) {
    && t.loop == s.loop && t.active == s.active && t.terminal == s.terminal && t.generation == s.generation
    && t.snapshot == s.snapshot && t.log == s.log && t.replied == s.replied && t.ops == s.ops
  }

  lemma ToggleLeavesLoop(s: Sys, c: nat, op: Op)
    ensures SameLoop(s, ToggleStep(s, c, op).sys) && SameLoop(s, CancelStep(s, c, op).sys)
  {}

  lemma OpLeavesLoop(s: Sys, c: nat, op: Op)
    ensures SameLoop(s, OpStep(s, c, op).sys)
  {
    ToggleLeavesLoop(s, c, op);
  }

  lemma LifecycleKept(s: Sys, action: Action)
    requires Lifecycle(s) && Enabled(s, action)
    ensures Lifecycle(Perform(s, action))
  {
    match action
    case Call(_, _) =>
    case Advance(c) => OpLeavesLoop(s, c, s.ops[c]);
    case Loop(a) =>
      LoopLife(s, s.loop, a);
      LogKept(s, LoopStep(s, s.loop, a));
  }
}
