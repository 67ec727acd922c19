/** Which stop request finishes which generation. A queued request belongs to a
    call that is still waiting; a stop request that has outlived its generation
    belongs to a call whose finish token a restart took over. */
module SessionOrphans {
  import opened Options
  import opened Session
  import opened SessionTokens
  import opened SessionLifecycle

  /** Stop requests are admitted with finish tokens, everything else is not. */
  predicate Parity(op: Op) {
    match op
    case ToggleIssue(e, _, _) => e.Idle? || e.Recording?
    case ToggleAcquire(e, _, token, _) => (e.Idle? || e.Recording?) && IsFinish(token) == e.Recording?
    case ToggleVerify(e, _, token) => (e.Idle? || e.Recording?) && IsFinish(token) == e.Recording?
    case ToggleSend(e, _, token) => (e.Idle? || e.Recording?) && IsFinish(token) == e.Recording?
    case ConfigAcquire(token) => !IsFinish(token)
    case ConfigSend(token) => !IsFinish(token)
    case _ => true
  }

  /** What decides whose request a command is. */
  datatype View = View(ops: map<nat, Op>, replied: set<nat>, displaced: set<nat>, generation: nat)

  function ViewOf(s: Sys): View {
    View(s.ops, s.replied, s.gate.displaced, s.generation)
  }

  /** A finish token is current, or a restart has displaced it. */
  predicate Current(v: View, token: nat, admittedAt: nat) {
    token in v.displaced || admittedAt == v.generation
  }

  predicate OpOrphan(v: View, op: Op) {
    Parity(op) && (op.ToggleSend? && op.expected.Recording? ==> Current(v, op.token, op.gen))
  }

  /** Call `c` waits for an answer that has not been sent, and its token says
      whether it asked to stop. */
  predicate Waits(v: View, c: nat, finishing: bool) {
    c in v.ops && v.ops[c].Await? && c !in v.replied && IsFinish(v.ops[c].token) == finishing
  }

  predicate StopWaits(v: View, c: nat, admittedAt: nat) {
    Waits(v, c, true) && Current(v, v.ops[c].token, admittedAt)
  }

  predicate ToggleOwned(v: View, expected: State, c: nat, admittedAt: nat) {
    if expected.Recording? then StopWaits(v, c, admittedAt) else expected.Idle? && Waits(v, c, false)
  }

  predicate CommandOwned(v: View, command: Command) {
    match command
    case Toggle(e, c, g) => ToggleOwned(v, e, c, g)
    case Configure(c) => Waits(v, c, false)
    case _ => true
  }

  predicate LoopOwned(v: View, loop: Loop) {
    match loop
    case ToggleRead(e, c, g) => ToggleOwned(v, e, c, g)
    case ConfigRead(c) => Waits(v, c, false)
    case ConfigReread(c) => Waits(v, c, false)
    case Reply(c) => Waits(v, c, false) || Waits(v, c, true)
    case InStart(_, ByToggle(c)) => Waits(v, c, false)
    case InFinish(_, ByUser(c, g)) => StopWaits(v, c, g)
    case _ => true
  }

  function ReplyTo(command: Command): Option<nat> {
    match command
    case Toggle(_, c, _) => Some(c)
    case Configure(c) => Some(c)
    case _ => None
  }

  function LoopReplyTo(loop: Loop): Option<nat> {
    match loop
    case ToggleRead(_, c, _) => Some(c)
    case ConfigRead(c) => Some(c)
    case ConfigReread(c) => Some(c)
    case Reply(c) => Some(c)
    case InStart(_, ByToggle(c)) => Some(c)
    case InFinish(_, ByUser(c, _)) => Some(c)
    case _ => None
  }

  /** Every reply channel has at most one command behind it. */
  ghost predicate OneReply(queue: seq<Command>, reply: Option<nat>) {
    && (forall i, j :: 0 <= i < j < |queue| && ReplyTo(queue[i]).Some? ==> ReplyTo(queue[i]) != ReplyTo(queue[j]))
    && (forall i :: 0 <= i < |queue| && reply.Some? ==> ReplyTo(queue[i]) != reply)
  }

  ghost predicate QueueOwned(v: View, queue: seq<Command>) {
    forall i :: 0 <= i < |queue| ==> CommandOwned(v, queue[i])
  }

  ghost predicate OpsOwned(v: View) {
    && (forall c <- v.replied :: c in v.ops && (v.ops[c].Await? || v.ops[c].Release? || v.ops[c].Done?))
    && forall c <- v.ops :: OpOrphan(v, v.ops[c])
  }

  ghost predicate Orphans(s: Sys) {
    && QueueOwned(ViewOf(s), s.queue) && OneReply(s.queue, LoopReplyTo(s.loop))
    && LoopOwned(ViewOf(s), s.loop)
    && OpsOwned(ViewOf(s))
    && (!Alive(s) ==> s.queue == [])
  }

  // ------------------------------------------------------------ calls

  /** The command a call may append: its own request, or none that is answered. */
  predicate Asks(c: nat, op: Op, next: Op, command: Command) {
    match command
    case Toggle(e, d, g) => op.ToggleSend? && d == c && e == op.expected && g == op.gen && next == Await(op.token)
    case Configure(d) => op.ConfigSend? && d == c && next == Await(op.token)
    case _ => true
  }

  /** What a step of a call does to the queue and to its own claim. */
  ghost predicate Sends(s: Sys, c: nat, op: Op, step: Step) {
    && step.sys.gate.displaced == s.gate.displaced
    && Parity(step.op)
    && (step.op.Await? || step.op.Release? || step.op.Done? || (!op.Await? && !op.Release? && !op.Done?))
    && (step.op.ToggleSend? && step.op.expected.Recording? ==>
          step.op.gen == s.snapshot.generation && s.snapshot.state.Recording?)
    && (step.sys.queue == s.queue ||
        (Alive(s) && exists command {:trigger Asks(c, op, step.op, command)} ::
           step.sys.queue == s.queue + [command] && Asks(c, op, step.op, command)))
    && (op.Await? ==> c in s.replied || !Alive(s))
  }

  lemma ToggleSends(s: Sys, c: nat, op: Op)
    requires InToggle(op) && Parity(op) && OpEnabled(s, c, op) && Tokens(s)
    ensures Sends(s, c, op, ToggleStep(s, c, op))
  {
    if op.ToggleSend? { assert Asks(c, op, Await(op.token), Toggle(op.expected, c, op.gen)); }
  }

  lemma CancelSends(s: Sys, c: nat, op: Op)
    requires InCancel(op)
    ensures Sends(s, c, op, CancelStep(s, c, op))
  {
    if op.CancelSend? { assert Asks(c, op, Done(Accepted), CancelStartup(op.gen)); }
  }

  lemma RestartSends(s: Sys, c: nat, op: Op)
    requires InRestart(op)
    ensures Sends(s, c, op, RestartStep(s, c, op))
  {
    if op.RestartSend? { assert Asks(c, op, Done(Accepted), RestartReady); }
  }

  lemma ConfigSends(s: Sys, c: nat, op: Op)
    requires !InToggle(op) && !InCancel(op) && !InRestart(op) && Parity(op) && OpEnabled(s, c, op) && Tokens(s)
    ensures Sends(s, c, op, ConfigStep(s, c, op))
  {
    if op.ConfigSend? { assert Asks(c, op, Await(op.token), Configure(c)); }
    if op.ShutdownSend? { assert Asks(c, op, Done(Accepted), Shutdown); }
  }

  lemma OpSends(s: Sys, c: nat, op: Op)
    requires Parity(op) && OpEnabled(s, c, op) && Tokens(s)
    ensures Sends(s, c, op, OpStep(s, c, op))
  {
    if InToggle(op) { ToggleSends(s, c, op); }
    else if InCancel(op) { CancelSends(s, c, op); }
    else if InRestart(op) { RestartSends(s, c, op); }
    else { ConfigSends(s, c, op); }
  }

  /** A call that is not being waited for may move without disturbing others. */
  lemma Others(v: View, w: View, c: nat, op: Op, queue: seq<Command>, loop: Loop)
    requires c in v.ops && w == v.(ops := v.ops[c := op]) && (v.ops[c].Await? ==> c in v.replied)
    requires QueueOwned(v, queue) && LoopOwned(v, loop)
    ensures QueueOwned(w, queue) && LoopOwned(w, loop)
    ensures forall i :: 0 <= i < |queue| ==> ReplyTo(queue[i]) != Some(c)
    ensures LoopReplyTo(loop) != Some(c)
  {}

  lemma OpsAfter(v: View, w: View, c: nat, op: Op)
    requires OpsOwned(v) && c in v.ops && w == v.(ops := v.ops[c := op]) && OpOrphan(w, op)
    requires op.Await? || op.Release? || op.Done? || !(v.ops[c].Await? || v.ops[c].Release? || v.ops[c].Done?)
    ensures OpsOwned(w)
  {
    forall d <- w.ops ensures OpOrphan(w, w.ops[d]) {
      if d != c { assert OpOrphan(v, v.ops[d]); }
    }
  }

  lemma Appended(w: View, queue: seq<Command>, reply: Option<nat>, command: Command)
    requires QueueOwned(w, queue) && OneReply(queue, reply) && CommandOwned(w, command)
    requires ReplyTo(command).Some? ==>
               reply != ReplyTo(command) && forall i :: 0 <= i < |queue| ==> ReplyTo(queue[i]) != ReplyTo(command)
    ensures QueueOwned(w, queue + [command]) && OneReply(queue + [command], reply)
  {}

  lemma AskedOwned(v: View, w: View, c: nat, next: Op, command: Command)
    requires OpsOwned(v) && c in v.ops && OpOrphan(v, v.ops[c]) && Asks(c, v.ops[c], next, command)
    requires w == v.(ops := v.ops[c := next])
    ensures CommandOwned(w, command) && (ReplyTo(command).Some? ==> ReplyTo(command) == Some(c))
  {}

  lemma AfterOp(s: Sys, c: nat, step: Step)
    requires Tokens(s) && Orphans(s) && Lifecycle(s) && c in s.ops
    requires Sends(s, c, s.ops[c], step) && SameLoop(s, step.sys)
    ensures Orphans(step.sys.(ops := s.ops[c := step.op]))
  {
    var op, v := s.ops[c], ViewOf(s);
    var t := step.sys.(ops := s.ops[c := step.op]);
    var w := ViewOf(t);
    assert w == v.(ops := v.ops[c := step.op]);
    if s.snapshot.state.Recording? { assert s.generation == s.snapshot.generation; }
    OpsAfter(v, w, c, step.op);
    if op.Await? && c !in s.replied {
      assert !Alive(s);
    } else {
      QueueAfter(v, w, c, op, step.op, s.queue, t.queue, s.loop);
    }
  }

  lemma QueueAfter(v: View, w: View, c: nat, op: Op, next: Op, queue: seq<Command>, longer: seq<Command>, loop: Loop)
    requires c in v.ops && v.ops[c] == op && w == v.(ops := v.ops[c := next]) && (op.Await? ==> c in v.replied)
    requires OpsOwned(v) && QueueOwned(v, queue) && LoopOwned(v, loop) && OneReply(queue, LoopReplyTo(loop))
    requires longer == queue || exists command {:trigger Asks(c, op, next, command)} ::
               longer == queue + [command] && Asks(c, op, next, command)
    ensures QueueOwned(w, longer) && LoopOwned(w, loop) && OneReply(longer, LoopReplyTo(loop))
  {
    Others(v, w, c, next, queue, loop);
    if longer != queue {
      var command :| longer == queue + [command] && Asks(c, op, next, command);
      assert OpOrphan(v, op);
      AskedOwned(v, w, c, next, command);
      Appended(w, queue, LoopReplyTo(loop), command);
    }
  }

  // ------------------------------------------------------------ the run loop

  /** The loop keeps working for the same call, or for none. */
  predicate SameReply(loop: Loop, next: Loop) {
    LoopReplyTo(next).None? || LoopReplyTo(next) == LoopReplyTo(loop)
  }

  /** How a step of the loop moves between calls, generations and requests. */
  ghost predicate Serves(s: Sys, t: Sys) {
    && t.ops == s.ops && s.gate.displaced <= t.gate.displaced
    && (t.loop.Exited? ==> t.queue == [])
    && ( || (t.queue == s.queue && t.generation == s.generation && t.replied == s.replied && SameReply(s.loop, t.loop) &&
             (LoopOwned(ViewOf(s), s.loop) ==> LoopOwned(ViewOf(s), t.loop)))
         || (s.loop.Reply? && t.loop == Tail && t == s.(replied := s.replied + {s.loop.reply}, loop := Tail))
         || (s.loop.InStart? && s.loop.start.Begin? && t.loop.InStart? && t.loop.who == s.loop.who &&
             t.generation == s.generation + 1 && t.queue == s.queue && t.replied == s.replied && t.gate == s.gate)
         || (s.loop.Head? && t.generation == s.generation && t.replied == s.replied && t.gate == s.gate &&
             (t.loop.Exited? || (s.queue != [] && t.queue == s.queue[1..] && LoopReplyTo(t.loop) == ReplyTo(s.queue[0]) &&
              (CommandOwned(ViewOf(s), s.queue[0]) ==> LoopOwned(ViewOf(s), t.loop))))))
  }

  lemma HeadIdles(s: Sys, a: Answer)
    requires s.loop == Head && s.queue == []
    ensures Serves(s, HeadStep(s, a))
  {}

  lemma HeadReceives(s: Sys, a: Answer, command: Command)
    requires s.loop == Head && s.queue != [] && s.queue[0] == command && !command.CancelStartup?
    ensures Serves(s, HeadStep(s, a))
  {}

  lemma HeadCancels(s: Sys, a: Answer)
    requires s.loop == Head && s.queue != [] && s.queue[0].CancelStartup?
    ensures Serves(s, HeadStep(s, a))
  {}

  lemma HeadServes(s: Sys, a: Answer)
    requires s.loop == Head
    ensures Serves(s, HeadStep(s, a))
  {
    if s.queue == [] { HeadIdles(s, a); }
    else if s.queue[0].CancelStartup? { HeadCancels(s, a); }
    else { HeadReceives(s, a, s.queue[0]); }
  }

  lemma ToggleServes(s: Sys, loop: Loop, a: Answer)
    requires s.loop == loop && loop.ToggleRead?
    ensures Serves(s, CommandStep(s, loop, a))
  {}

  lemma AnswerServes(s: Sys, loop: Loop, a: Answer)
    requires s.loop == loop && Where(loop).AtCommand? && !loop.ToggleRead?
    ensures Serves(s, CommandStep(s, loop, a))
  {}

  lemma CommandServes(s: Sys, loop: Loop, a: Answer)
    requires s.loop == loop && Where(loop).AtCommand?
    ensures Serves(s, CommandStep(s, loop, a))
  {
    if loop.ToggleRead? { ToggleServes(s, loop, a); } else { AnswerServes(s, loop, a); }
  }

  lemma TimeoutServes(s: Sys, a: Answer)
    requires s.loop == Timeout
    ensures Serves(s, TickStep(s, Timeout, a))
  {}

  lemma TickServes(s: Sys, loop: Loop, a: Answer)
    requires s.loop == loop && Where(loop).AtTick?
    ensures Serves(s, TickStep(s, loop, a))
  {
    if loop.Timeout? { TimeoutServes(s, a); }
  }

  lemma ReturnServes(s: Sys, who: Starter, a: Answer)
    requires s.loop == InStart(Return, who)
    ensures Serves(s, StartStep(s, Return, who, a))
  {}

  lemma BeginServes(s: Sys, who: Starter, a: Answer)
    requires s.loop == InStart(Begin, who)
    ensures Serves(s, StartStep(s, Begin, who, a))
  {}

  /** Between its two ends `start_active` keeps to its own words. */
  lemma PhaseServes(s: Sys, phase: StartPhase, who: Starter, a: Answer)
    requires s.loop == InStart(phase, who) && !phase.Begin? && !phase.Return?
    ensures Serves(s, StartStep(s, phase, who, a))
  {
    PhaseKeeps(s, phase, who, a);
  }

  lemma PhaseKeeps(s: Sys, phase: StartPhase, who: Starter, a: Answer)
    requires !phase.Begin? && !phase.Return?
    ensures var t := StartStep(s, phase, who, a);
            && t.loop.InStart? && t.loop.who == who && t.ops == s.ops && t.gate == s.gate
            && t.queue == s.queue && t.generation == s.generation && t.replied == s.replied
  {}

  lemma StartServes(s: Sys, phase: StartPhase, who: Starter, a: Answer)
    requires s.loop == InStart(phase, who)
    ensures Serves(s, StartStep(s, phase, who, a))
  {
    if phase.Return? { ReturnServes(s, who, a); }
    else if phase.Begin? { BeginServes(s, who, a); }
    else { PhaseServes(s, phase, who, a); }
  }

  lemma OutcomeServes(s: Sys, outcome: State, stopper: Stopper, a: Answer)
    requires s.loop == InFinish(AnnounceOutcome(outcome), stopper)
    ensures Serves(s, FinishStep(s, AnnounceOutcome(outcome), stopper, a))
  {}

  lemma FinishServes(s: Sys, phase: FinishPhase, stopper: Stopper, a: Answer)
    requires s.loop == InFinish(phase, stopper)
    ensures Serves(s, FinishStep(s, phase, stopper, a))
  {
    if phase.AnnounceOutcome? {
      OutcomeServes(s, phase.outcome, stopper, a);
    } else {
      assert LoopReplyTo(FinishStep(s, phase, stopper, a).loop) == LoopReplyTo(s.loop);
    }
  }

  lemma TailKeeps(s: Sys, loop: Loop)
    requires Where(loop).AtTail?
    ensures var t := TailStep(s, loop);
            && t.ops == s.ops && s.gate.displaced <= t.gate.displaced
            && t.queue == s.queue && t.generation == s.generation && t.replied == s.replied
  {}

  /** Nothing after the answer belongs to a call. */
  lemma TailIsOwn(s: Sys, loop: Loop)
    requires s.loop == loop && Where(loop).AtTail?
    ensures var t := TailStep(s, loop);
            && LoopReplyTo(t.loop) == None && LoopOwned(ViewOf(s), t.loop) && (t.loop.Exited? ==> loop.Exited?)
  {}

  lemma TailServes(s: Sys, loop: Loop)
    requires s.loop == loop && Where(loop).AtTail? && (Alive(s) || s.queue == [])
    ensures Serves(s, TailStep(s, loop))
  {
    TailKeeps(s, loop);
    TailIsOwn(s, loop);
    assert LoopReplyTo(loop) == None;
  }

  lemma LoopServes(s: Sys, loop: Loop, a: Answer)
    requires s.loop == loop && (Alive(s) || s.queue == [])
    ensures Serves(s, LoopStep(s, loop, a))
  {
    match Where(loop)
    case AtHead => HeadServes(s, a);
    case AtCommand => CommandServes(s, loop, a);
    case AtTick => TickServes(s, loop, a);
    case AtStart => StartServes(s, loop.start, loop.who, a);
    case AtFinish => FinishServes(s, loop.finish, loop.stopper, a);
    case AtTail => TailServes(s, loop);
  }

  /** A generation starts only under an admission that is not a finish, so
      every finish token still held has been displaced. */
  lemma StartDisplaces(s: Sys, c: nat)
    requires Tokens(s) && s.loop.InStart? && LoopOwned(ViewOf(s), s.loop)
    requires c in s.ops && Holds(s.ops[c]).Some? && IsFinish(Holds(s.ops[c]).value)
    ensures Holds(s.ops[c]).value in s.gate.displaced
  {
    assert OpToken(s.gate, s.ops[c], c);
    if s.loop.who.ByToggle? { assert OpToken(s.gate, s.ops[s.loop.who.reply], s.loop.who.reply); }
  }

  predicate Displaced(w: View, c: nat)
    requires c in w.ops
  {
    Holds(w.ops[c]).Some? && IsFinish(Holds(w.ops[c]).value) ==> Holds(w.ops[c]).value in w.displaced
  }

  lemma BeginOwned(v: View, w: View, queue: seq<Command>)
    requires QueueOwned(v, queue) && OpsOwned(v) && w == v.(displaced := w.displaced, generation := w.generation)
    requires forall c <- w.ops :: Displaced(w, c)
    ensures QueueOwned(w, queue) && OpsOwned(w)
  {
    forall i | 0 <= i < |queue| ensures CommandOwned(w, queue[i]) {
      assert CommandOwned(v, queue[i]);
      if queue[i].Toggle? && queue[i].expected.Recording? { assert Displaced(w, queue[i].reply); }
    }
    forall c <- w.ops ensures OpOrphan(w, w.ops[c]) { assert OpOrphan(v, v.ops[c]) && Displaced(w, c); }
  }

  lemma AfterBegin(s: Sys, t: Sys)
    requires Tokens(s) && Orphans(s) && Serves(s, t) && t.generation != s.generation
    ensures Orphans(t)
  {
    var v, w := ViewOf(s), ViewOf(t);
    forall c <- w.ops ensures Displaced(w, c) {
      if Holds(s.ops[c]).Some? && IsFinish(Holds(s.ops[c]).value) { StartDisplaces(s, c); }
    }
    BeginOwned(v, w, s.queue);
  }

  lemma AfterReply(s: Sys, t: Sys)
    requires Orphans(s) && s.loop.Reply? && t == s.(replied := s.replied + {s.loop.reply}, loop := Tail)
    ensures Orphans(t)
  {
    var v, w := ViewOf(s), ViewOf(t);
    forall c <- w.ops ensures OpOrphan(w, w.ops[c]) { assert OpOrphan(v, v.ops[c]); }
    forall i | 0 <= i < |t.queue| ensures CommandOwned(w, t.queue[i]) { assert CommandOwned(v, s.queue[i]); }
  }

  lemma AfterServe(s: Sys, t: Sys)
    requires Orphans(s) && Serves(s, t) && t.generation == s.generation
    ensures Orphans(t)
  {
    if s.loop.Reply? && t == s.(replied := s.replied + {s.loop.reply}, loop := Tail) {
      AfterReply(s, t);
    } else {
      var v, w := ViewOf(s), ViewOf(t);
      forall c <- w.ops ensures OpOrphan(w, w.ops[c]) { assert OpOrphan(v, v.ops[c]); }
      assert forall i :: 0 <= i < |s.queue| ==> CommandOwned(v, s.queue[i]);
    }
  }

  lemma OrphansKept(s: Sys, action: Action)
    requires Tokens(s) && Lifecycle(s) && Orphans(s) && Enabled(s, action)
    ensures Orphans(Perform(s, action))
  {
    match action
    case Call(c, op) => NewCall(s, c, op);
    case Advance(c) =>
      assert OpOrphan(ViewOf(s), s.ops[c]);
      OpSends(s, c, s.ops[c]);
      OpLeavesLoop(s, c, s.ops[c]);
      AfterOp(s, c, OpStep(s, c, s.ops[c]));
    case Loop(a) =>
      var t := LoopStep(s, s.loop, a);
      LoopServes(s, s.loop, a);
      if t.generation == s.generation { AfterServe(s, t); } else { AfterBegin(s, t); }
  }

  lemma NewCall(s: Sys, c: nat, op: Op)
    requires Orphans(s) && Enabled(s, Call(c, op))
    ensures Orphans(s.(ops := s.ops[c := op]))
  {
    var v, w := ViewOf(s), ViewOf(s.(ops := s.ops[c := op]));
    forall i | 0 <= i < |s.queue| ensures CommandOwned(w, s.queue[i]) { assert CommandOwned(v, s.queue[i]); }
    forall d <- w.ops ensures OpOrphan(w, w.ops[d]) {
      if d != c { assert OpOrphan(v, v.ops[d]); }
    }
  }
}
