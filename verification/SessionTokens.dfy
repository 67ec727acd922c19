/** Who owns the admission word. Every token is drawn once, by one actor; it
    leaves the word only by its owner's release or, when it is a finish token,
    by a restart takeover. */
module SessionTokens {
  import opened Options
  import opened Session

  /** The token a call has drawn but not yet installed. */
  function Draws(op: Op): Option<nat> {
    match op
    case ToggleAcquire(_, _, token, _) => Some(token)
    case ConfigAcquire(token) => Some(token)
    case _ => None
  }

  /** The token a call has installed and not yet released. */
  function Holds(op: Op): Option<nat> {
    match op
    case ToggleVerify(_, _, token) => Some(token)
    case ToggleSend(_, _, token) => Some(token)
    case ConfigSend(token) => Some(token)
    case Await(token) => Some(token)
    case Release(token, _) => Some(token)
    case _ => None
  }

  predicate Installed(g: Gate, token: nat, actor: Actor) {
    token in g.issuer && g.issuer[token] == actor && token in g.ever
  }

  predicate Drawn(g: Gate, token: nat, actor: Actor) {
    token in g.issuer && g.issuer[token] == actor && token !in g.ever
  }

  predicate OpToken(g: Gate, op: Op, c: nat) {
    && (Draws(op).Some? ==> Drawn(g, Draws(op).value, Client(c)))
    && (Holds(op).Some? ==>
          && Installed(g, Holds(op).value, Client(c))
          && (g.admitted == Holds(op).value || Holds(op).value in g.displaced))
  }

  function LoopDraws(loop: Loop): Option<nat> {
    match loop
    case LimitAcquire(token) => Some(token)
    case TailAcquire(_, _, token) => Some(token)
    case _ => None
  }

  function LoopHolds(loop: Loop): Option<nat> {
    match loop
    case InStart(_, ByRestart(_, token)) => Some(token)
    case InFinish(_, ByLimit(token)) => Some(token)
    case LimitRelease(token) => Some(token)
    case TailIdle(_, token) => Some(token)
    case TailClear(_, token) => Some(token)
    case TailRelease(token) => Some(token)
    case _ => None
  }

  predicate LoopToken(g: Gate, loop: Loop) {
    && (LoopDraws(loop).Some? ==> Drawn(g, LoopDraws(loop).value, RunLoop))
    && (LoopHolds(loop).Some? ==> Installed(g, LoopHolds(loop).value, RunLoop) && g.admitted == LoopHolds(loop).value)
    && (loop.TailIssue? || loop.TailAcquire? ==> loop.owner == ADMISSION_NONE || IsFinish(loop.owner))
    && (loop.TailAcquire? || loop.TailIdle? ==> !IsFinish(loop.token))
    && (loop.InStart? && LoopHolds(loop).Some? ==> !IsFinish(g.admitted))
  }

  ghost predicate GateOk(g: Gate) {
    && g.next % 2 == 0 && FIRST_ADMISSION <= g.next
    && (forall k <- g.issuer :: FIRST_ADMISSION <= k < g.next)
    && g.displaced <= g.ever <= g.issuer.Keys
    && (g.admitted != ADMISSION_NONE ==> g.admitted in g.ever)
    && g.admitted !in g.displaced
    && (forall k <- g.displaced :: IsFinish(k))
  }

  ghost predicate OpsToken(g: Gate, ops: map<nat, Op>) {
    forall c <- ops :: OpToken(g, ops[c], c)
  }

  /** Whoever drew the token that owns the word has not given it back yet. */
  ghost predicate OwnerLive(g: Gate, ops: map<nat, Op>, loop: Loop) {
    g.admitted in g.issuer ==>
      match g.issuer[g.admitted]
      case Client(c) => c in ops && Holds(ops[c]) == Some(g.admitted)
      case RunLoop => LoopHolds(loop) == Some(g.admitted)
  }

  ghost predicate Tokens(s: Sys) {
    && GateOk(s.gate) && LoopToken(s.gate, s.loop) && OpsToken(s.gate, s.ops)
    && OwnerLive(s.gate, s.ops, s.loop)
  }

  // Every step uses the word in one of four ways.

  /** How a call uses the word: not at all, by drawing a token, by installing
      the drawn token over nothing, or by releasing the token it installed. */
  predicate OpUse(g: Gate, h: Gate, op: Op, next: Op, c: nat) {
    || (h == g && (Draws(next).None? || next == op) && Holds(next) == Holds(op))
    || (Holds(op).None? && Holds(next).None? && Draws(next).Some? &&
        Draws(next).value == Token(g, IsFinish(Draws(next).value)) &&
        h == Issue(g, IsFinish(Draws(next).value), Client(c)))
    || (Draws(next).None? && Holds(op).None? && Draws(op).Some? && Holds(next) == Draws(op) &&
        g.admitted == ADMISSION_NONE && h == Admit(g, ADMISSION_NONE, Draws(op).value))
    || (Draws(next).None? && Holds(next).None? && Holds(op).Some? && h == Unadmit(g, Holds(op).value))
  }

  /** The same for the run loop, which may also install over a finish token. */
  predicate LoopUse(g: Gate, h: Gate, loop: Loop, next: Loop) {
    || (h == g && (LoopDraws(next).None? || next == loop) && LoopHolds(next) == LoopHolds(loop))
    || (LoopHolds(loop).None? && LoopHolds(next).None? && LoopDraws(next).Some? &&
        h == Issue(g, next.LimitAcquire?, RunLoop) && LoopDraws(next).value == Token(g, next.LimitAcquire?))
    || (LoopDraws(next).None? && LoopHolds(loop).None? && LoopDraws(loop).Some? && LoopHolds(next) == LoopDraws(loop) &&
        g.admitted == (if loop.TailAcquire? then loop.owner else ADMISSION_NONE) &&
        h == Admit(g, g.admitted, LoopDraws(loop).value))
    || (LoopDraws(next).None? && LoopHolds(next).None? && LoopHolds(loop).Some? && h == Unadmit(g, LoopHolds(loop).value))
  }

  /** A restart takeover never installs a finish token, and only over none or
      over a finish token. */
  predicate TakeoverPlan(loop: Loop, next: Loop, admitted: nat) {
    && (next.TailIssue? ==> next.owner == admitted && (admitted == ADMISSION_NONE || IsFinish(admitted)))
    && (next.TailAcquire? ==> loop.TailIssue? && next.owner == loop.owner)
    && (next.TailIdle? ==> loop.TailAcquire? && next.token == loop.token)
    && (next.InStart? && next.who.ByRestart? ==>
          || (loop.InStart? && loop.who == next.who)
          || (loop.TailIdle? && next.who.token == loop.token))
  }

  ghost predicate OpUses(s: Sys, c: nat, op: Op) {
    var step := OpStep(s, c, op);
    step.sys.ops == s.ops && step.sys.loop == s.loop && OpUse(s.gate, step.sys.gate, op, step.op, c)
  }

  ghost predicate LoopUses(s: Sys, loop: Loop, t: Sys) {
    t.ops == s.ops && LoopUse(s.gate, t.gate, loop, t.loop) && TakeoverPlan(loop, t.loop, s.gate.admitted)
  }

  lemma ToggleUses(s: Sys, c: nat, op: Op)
    requires GateOk(s.gate) && InToggle(op)
    ensures OpUses(s, c, op)
  {}

  lemma CancelUses(s: Sys, c: nat, op: Op)
    requires InCancel(op)
    ensures OpUses(s, c, op)
  {}

  lemma RestartUses(s: Sys, c: nat, op: Op)
    requires InRestart(op)
    ensures OpUses(s, c, op)
  {}

  lemma ConfigUses(s: Sys, c: nat, op: Op)
    requires GateOk(s.gate) && !InToggle(op) && !InCancel(op) && !InRestart(op)
    ensures OpUses(s, c, op)
  {}

  lemma ReceiveUses(s: Sys, r: Sys, command: Command)
    requires r == s.(queue := r.queue)
    ensures LoopUses(s, Head, Receive(r, command))
  {}

  lemma HeadUses(s: Sys, a: Answer)
    ensures LoopUses(s, Head, HeadStep(s, a))
  {
    if s.queue != [] { ReceiveUses(s, s.(queue := s.queue[1..]), s.queue[0]); }
  }

  lemma CommandUses(s: Sys, loop: Loop, a: Answer)
    requires Where(loop).AtCommand?
    ensures LoopUses(s, loop, CommandStep(s, loop, a))
  {}

  lemma TickUses(s: Sys, loop: Loop, a: Answer)
    requires Where(loop).AtTick?
    ensures LoopUses(s, loop, TickStep(s, loop, a))
  {}

  lemma StartUses(s: Sys, phase: StartPhase, who: Starter, a: Answer)
    ensures LoopUses(s, InStart(phase, who), StartStep(s, phase, who, a))
  {}

  lemma FinishUses(s: Sys, phase: FinishPhase, stopper: Stopper, a: Answer)
    ensures LoopUses(s, InFinish(phase, stopper), FinishStep(s, phase, stopper, a))
  {}

  lemma TailUses(s: Sys, loop: Loop)
    requires s.loop == loop && Where(loop).AtTail?
    ensures LoopUses(s, loop, TailStep(s, loop))
  {}

  lemma OpUsesWord(s: Sys, c: nat, op: Op)
    requires GateOk(s.gate)
    ensures OpUses(s, c, op)
  {
    if InToggle(op) { ToggleUses(s, c, op); }
    else if InCancel(op) { CancelUses(s, c, op); }
    else if InRestart(op) { RestartUses(s, c, op); }
    else { ConfigUses(s, c, op); }
  }

  lemma LoopUsesWord(s: Sys, loop: Loop, a: Answer)
    requires s.loop == loop
    ensures LoopUses(s, loop, LoopStep(s, loop, a))
  {
    match Where(loop)
    case AtHead => HeadUses(s, a);
    case AtCommand => CommandUses(s, loop, a);
    case AtTick => TickUses(s, loop, a);
    case AtStart => StartUses(s, loop.start, loop.who, a);
    case AtFinish => FinishUses(s, loop.finish, loop.stopper, a);
    case AtTail => TailUses(s, loop);
  }

  // Each use keeps every token where it belongs.

  lemma OpUseKeeps(s: Sys, h: Gate, c: nat, op: Op)
    requires Tokens(s) && c in s.ops && OpUse(s.gate, h, s.ops[c], op, c)
    ensures GateOk(h) && LoopToken(h, s.loop)
  {}

  lemma OpUseTokens(s: Sys, h: Gate, c: nat, op: Op)
    requires Tokens(s) && c in s.ops && OpUse(s.gate, h, s.ops[c], op, c)
    ensures OpsToken(h, s.ops[c := op])
  {}

  lemma OpUseOwned(s: Sys, h: Gate, c: nat, op: Op)
    requires Tokens(s) && c in s.ops && OpUse(s.gate, h, s.ops[c], op, c)
    ensures OwnerLive(h, s.ops[c := op], s.loop)
  {}

  lemma LoopUseKeeps(s: Sys, h: Gate, loop: Loop)
    requires Tokens(s) && LoopUse(s.gate, h, s.loop, loop) && TakeoverPlan(s.loop, loop, s.gate.admitted)
    ensures GateOk(h) && LoopToken(h, loop) && OpsToken(h, s.ops)
  {}

  lemma LoopUseOwned(s: Sys, h: Gate, loop: Loop)
    requires Tokens(s) && LoopUse(s.gate, h, s.loop, loop)
    ensures OwnerLive(h, s.ops, loop)
  {}

  lemma TokensKept(s: Sys, action: Action)
    requires Tokens(s) && Enabled(s, action)
    ensures Tokens(Perform(s, action))
  {
    match action
    case Call(_, _) =>
    case Advance(c) =>
      var op := s.ops[c];
      OpUsesWord(s, c, op);
      OpUseKeeps(s, OpStep(s, c, op).sys.gate, c, OpStep(s, c, op).op);
      OpUseTokens(s, OpStep(s, c, op).sys.gate, c, OpStep(s, c, op).op);
      OpUseOwned(s, OpStep(s, c, op).sys.gate, c, OpStep(s, c, op).op);
    case Loop(a) =>
      LoopUsesWord(s, s.loop, a);
      LoopUseKeeps(s, LoopStep(s, s.loop, a).gate, LoopStep(s, s.loop, a).loop);
      LoopUseOwned(s, LoopStep(s, s.loop, a).gate, LoopStep(s, s.loop, a).loop);
  }
}
