/** A startup cancel is enqueued while Starting is still published, so it is
    ahead of every stop request admitted during that generation. */
module SessionCancel {
  import opened Options
  import opened Session
  import opened SessionLifecycle

  predicate OpCancel(op: Op, snapshot: Snapshot, lock: Option<nat>, c: nat) {
    match op
    case CancelStore(g) => lock == Some(c) && snapshot == Snapshot(Starting, g)
    case CancelSend(g) => lock == Some(c) && snapshot == Snapshot(Starting, g)
    case ToggleSend(_, g, _) => Admitted(g, snapshot)
    case ToggleVerify(e, _, _) => !e.Starting?
    case ToggleAcquire(e, _, _, _) => !e.Starting?
    case ToggleIssue(e, _, _) => !e.Starting?
    case _ => true
  }

  /** A generation in which a toggle can have been admitted: while Starting is
      published, only an earlier one. */
  predicate Admitted(admittedAt: nat, snapshot: Snapshot) {
    admittedAt <= snapshot.generation && (snapshot.state.Starting? ==> admittedAt < snapshot.generation)
  }

  ghost predicate QueueAges(queue: seq<Command>, snapshot: Snapshot) {
    forall i :: 0 <= i < |queue| ==> queue[i].Toggle? ==> Admitted(queue[i].admittedAt, snapshot)
  }

  /** The cancel of `generation` comes before any toggle admitted in it. */
  ghost predicate CancelAhead(queue: seq<Command>, generation: nat) {
    exists i :: 0 <= i < |queue| && queue[i] == CancelStartup(generation) && OlderBefore(queue, i, generation)
  }

  ghost predicate OlderBefore(queue: seq<Command>, i: nat, generation: nat)
    requires i <= |queue|
  {
    forall j :: 0 <= j < i ==> queue[j].Toggle? ==> queue[j].admittedAt < generation
  }

  /** The loop is about to stop, or is stopping, the recording. */
  predicate LoopCancel(s: Sys, loop: Loop) {
    match loop
    case ToggleRead(_, _, g) =>
      g <= s.snapshot.generation && (s.generation in s.cancels && s.active ==> g < s.generation)
    case InFinish(_, ByUser(_, g)) => s.generation in s.cancels ==> g < s.generation
    case InFinish(_, ByLimit(_)) => s.generation !in s.cancels
    case EarlyExitPublish => s.generation !in s.cancels
    case _ => Where(loop).AtTick? && s.active ==> s.generation !in s.cancels
  }

  ghost predicate CancelParts(s: Sys) {
    && QueueAges(s.queue, s.snapshot)
    && (forall g <- s.cancels :: g <= s.snapshot.generation)
    && (s.generation in s.cancels && (At(s, Starting) || s.active) ==> CancelAhead(s.queue, s.generation))
    && LoopCancel(s, s.loop)
  }

  ghost predicate Cancels(s: Sys) {
    CancelParts(s) && forall c <- s.ops :: OpCancel(s.ops[c], s.snapshot, s.lock, c)
  }

  lemma Enqueued(queue: seq<Command>, command: Command, g: nat)
    requires CancelAhead(queue, g)
    ensures CancelAhead(queue + [command], g)
  {
    var i :| 0 <= i < |queue| && queue[i] == CancelStartup(g) && OlderBefore(queue, i, g);
    assert OlderBefore(queue + [command], i, g);
    assert (queue + [command])[i] == CancelStartup(g);
  }

  lemma Dequeued(queue: seq<Command>, g: nat)
    requires CancelAhead(queue, g) && queue[0] != CancelStartup(g)
    ensures CancelAhead(queue[1..], g)
    ensures queue[0].Toggle? ==> queue[0].admittedAt < g
  {
    var i :| 0 <= i < |queue| && queue[i] == CancelStartup(g) && OlderBefore(queue, i, g);
    assert queue[1..][i - 1] == CancelStartup(g);
    assert OlderBefore(queue[1..], i - 1, g);
  }

  /** The accepted cancel itself goes behind older toggles only. */
  lemma CancelEnqueued(queue: seq<Command>, g: nat)
    requires QueueAges(queue, Snapshot(Starting, g))
    ensures CancelAhead(queue + [CancelStartup(g)], g)
  {
    var q := queue + [CancelStartup(g)];
    assert q[|queue|] == CancelStartup(g);
    assert OlderBefore(q, |queue|, g);
  }

  ghost predicate OpCancelKept(s: Sys, c: nat, step: Step) {
    && CancelParts(step.sys)
    && OpCancel(step.op, step.sys.snapshot, step.sys.lock, c)
    && (step.sys.lock == s.lock || s.lock == None || s.lock == Some(c))
    && (step.sys.cancels == s.cancels ||
        (s.snapshot.state.Starting? && step.sys.cancels == s.cancels + {s.snapshot.generation}))
  }

  lemma ToggleCancel(s: Sys, c: nat, op: Op)
    requires CancelParts(s) && Life(s, s.loop) && OpCancel(op, s.snapshot, s.lock, c) && OpEnabled(s, c, op)
    requires InToggle(op)
    ensures OpCancelKept(s, c, ToggleStep(s, c, op))
  {
    if op.ToggleSend? && s.generation in s.cancels && (At(s, Starting) || s.active) {
      Enqueued(s.queue, Toggle(op.expected, c, op.gen), s.generation);
    }
  }

  lemma CancelCancel(s: Sys, c: nat, op: Op)
    requires CancelParts(s) && Life(s, s.loop) && OpCancel(op, s.snapshot, s.lock, c) && OpEnabled(s, c, op)
    requires InCancel(op)
    ensures OpCancelKept(s, c, CancelStep(s, c, op))
  {
    if op.CancelSend? {
      CancelEnqueued(s.queue, op.gen);
      if s.generation in s.cancels && (At(s, Starting) || s.active) {
        Enqueued(s.queue, CancelStartup(op.gen), s.generation);
      }
    }
  }

  /** A command that is no toggle may go to the end of the queue. */
  lemma Sent(s: Sys, command: Command)
    requires CancelParts(s) && !command.Toggle?
    ensures CancelParts(s.(queue := s.queue + [command]))
  {
    if s.generation in s.cancels && (At(s, Starting) || s.active) { Enqueued(s.queue, command, s.generation); }
  }

  /** A step that changes only words none of this depends on, or sends. */
  ghost predicate Elsewhere(s: Sys, c: nat, step: Step) {
    && (step.sys == s.(gate := step.sys.gate, ticket := step.sys.ticket, shutdown := step.sys.shutdown) ||
        (exists command: Command {:trigger s.queue + [command]} ::
           !command.Toggle? && step.sys == s.(queue := s.queue + [command])))
    && OpCancel(step.op, s.snapshot, s.lock, c)
  }

  lemma ElsewhereKept(s: Sys, c: nat, step: Step)
    requires CancelParts(s) && Elsewhere(s, c, step)
    ensures OpCancelKept(s, c, step)
  {
    if step.sys.queue != s.queue {
      var command: Command :| !command.Toggle? && step.sys == s.(queue := s.queue + [command]);
      Sent(s, command);
    }
  }

  lemma RestartElsewhere(s: Sys, c: nat, op: Op)
    requires InRestart(op)
    ensures Elsewhere(s, c, RestartStep(s, c, op))
  {
    if op.RestartSend? && Alive(s) { assert RestartStep(s, c, op).sys.queue == s.queue + [RestartReady]; }
  }

  lemma RestartCancel(s: Sys, c: nat, op: Op)
    requires CancelParts(s) && InRestart(op)
    ensures OpCancelKept(s, c, RestartStep(s, c, op))
  {
    RestartElsewhere(s, c, op);
    ElsewhereKept(s, c, RestartStep(s, c, op));
  }

  lemma ConfigElsewhere(s: Sys, c: nat, op: Op)
    requires !InToggle(op) && !InCancel(op) && !InRestart(op)
    ensures Elsewhere(s, c, ConfigStep(s, c, op))
  {
    if op.ConfigSend? && Alive(s) { assert ConfigStep(s, c, op).sys.queue == s.queue + [Configure(c)]; }
    if op.ShutdownSend? && Alive(s) { assert ConfigStep(s, c, op).sys.queue == s.queue + [Shutdown]; }
  }

  lemma ConfigCancel(s: Sys, c: nat, op: Op)
    requires CancelParts(s) && !InToggle(op) && !InCancel(op) && !InRestart(op)
    ensures OpCancelKept(s, c, ConfigStep(s, c, op))
  {
    ConfigElsewhere(s, c, op);
    ElsewhereKept(s, c, ConfigStep(s, c, op));
  }

  ghost predicate LoopCancelKept(s: Sys, t: Sys) {
    && CancelParts(t)
    && (t.snapshot == s.snapshot || s.lock == None)
    && t.lock == s.lock && t.ops == s.ops && t.cancels == s.cancels
  }

  lemma TakenCancel(s: Sys, r: Sys, command: Command)
    requires CancelParts(s) && s.loop == Head && Life(s, Head)
    requires s.queue != [] && s.queue[0] == command && r == s.(queue := s.queue[1..])
    ensures LoopCancelKept(s, Receive(r, command))
  {
    if command != CancelStartup(s.generation) && s.generation in s.cancels && (At(s, Starting) || s.active) {
      Dequeued(s.queue, s.generation);
    }
  }

  lemma HeadCancel(s: Sys, a: Answer)
    requires CancelParts(s) && s.loop == Head && Life(s, Head)
    ensures LoopCancelKept(s, HeadStep(s, a))
  {
    if s.queue != [] { TakenCancel(s, s.(queue := s.queue[1..]), s.queue[0]); }
  }

  lemma CommandCancel(s: Sys, loop: Loop, a: Answer)
    requires CancelParts(s) && s.loop == loop && Where(loop).AtCommand? && Life(s, loop) && LoopEnabled(s, a)
    ensures LoopCancelKept(s, CommandStep(s, loop, a))
  {}

  lemma TickCancel(s: Sys, loop: Loop, a: Answer)
    requires CancelParts(s) && s.loop == loop && Where(loop).AtTick? && Life(s, loop) && LoopEnabled(s, a)
    ensures LoopCancelKept(s, TickStep(s, loop, a))
  {}

  lemma StartCancel(s: Sys, phase: StartPhase, who: Starter, a: Answer)
    requires CancelParts(s) && s.loop == InStart(phase, who) && StartLife(s, phase) && LoopEnabled(s, a)
    ensures LoopCancelKept(s, StartStep(s, phase, who, a))
  {}

  lemma FinishCancel(s: Sys, phase: FinishPhase, stopper: Stopper, a: Answer)
    requires CancelParts(s) && s.loop == InFinish(phase, stopper) && FinishLife(s, phase) && LoopEnabled(s, a)
    ensures LoopCancelKept(s, FinishStep(s, phase, stopper, a))
  {}

  lemma TailCancel(s: Sys, loop: Loop)
    requires CancelParts(s) && s.loop == loop && Where(loop).AtTail? && Life(s, loop) && LoopEnabled(s, Nothing)
    ensures LoopCancelKept(s, TailStep(s, loop))
  {}

  lemma OpKeepsCancel(s: Sys, c: nat, op: Op)
    requires CancelParts(s) && Life(s, s.loop) && OpCancel(op, s.snapshot, s.lock, c) && OpEnabled(s, c, op)
    ensures OpCancelKept(s, c, OpStep(s, c, op))
  {
    if InToggle(op) { ToggleCancel(s, c, op); }
    else if InCancel(op) { CancelCancel(s, c, op); }
    else if InRestart(op) { RestartCancel(s, c, op); }
    else { ConfigCancel(s, c, op); }
  }

  lemma LoopKeepsCancel(s: Sys, loop: Loop, a: Answer)
    requires CancelParts(s) && s.loop == loop && Life(s, loop) && LoopEnabled(s, a)
    ensures LoopCancelKept(s, LoopStep(s, loop, a))
  {
    match Where(loop)
    case AtHead => HeadCancel(s, a);
    case AtCommand => CommandCancel(s, loop, a);
    case AtTick => TickCancel(s, loop, a);
    case AtStart => StartCancel(s, loop.start, loop.who, a);
    case AtFinish => FinishCancel(s, loop.finish, loop.stopper, a);
    case AtTail => TailCancel(s, loop);
  }

  /** Publishing takes the lock, so no call is inside the lock section then; and
      generations are only published in order. */
  lemma OthersKept(s: Sys, t: Sys)
    requires Cancels(s) && LoopCancelKept(s, t)
    requires s.snapshot == t.snapshot || Edge(s.snapshot, t.snapshot)
    ensures Cancels(t)
  {
    forall c <- t.ops ensures OpCancel(t.ops[c], t.snapshot, t.lock, c) {
      assert OpCancel(s.ops[c], s.snapshot, s.lock, c);
    }
  }

  lemma AfterOp(s: Sys, c: nat, step: Step)
    requires Cancels(s) && c in s.ops && OpCancelKept(s, c, step) && SameLoop(s, step.sys)
    ensures Cancels(step.sys.(ops := s.ops[c := step.op]))
  {
    assert CancelParts(step.sys.(ops := s.ops[c := step.op]));
  }

  lemma CancelsKept(s: Sys, action: Action)
    requires Lifecycle(s) && Cancels(s) && Enabled(s, action)
    ensures Cancels(Perform(s, action))
  {
    match action
    case Call(_, _) =>
    case Advance(c) =>
      OpKeepsCancel(s, c, s.ops[c]);
      OpLeavesLoop(s, c, s.ops[c]);
      AfterOp(s, c, OpStep(s, c, s.ops[c]));
    case Loop(a) =>
      LoopKeepsCancel(s, s.loop, a);
      LoopLife(s, s.loop, a);
      OthersKept(s, LoopStep(s, s.loop, a));
  }
}
