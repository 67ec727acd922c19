/** `toggle` and `queue_restart` call each other: a retry after Idle always
    carries a later generation, and the lock section always ends. */
module SessionRetry {
  import opened Options
  import opened Session
  import opened SessionLifecycle

  /** Since Idle was seen for `prev`, the controller is still Idle or has moved on. */
  predicate IdleSince(prev: nat, snapshot: Snapshot) {
    snapshot.generation > prev || snapshot == Snapshot(Idle, prev)
  }

  predicate OpRetry(op: Op, snapshot: Snapshot) {
    match op
    case ToggleStatus(prev) => prev.Some? ==> IdleSince(prev.value, snapshot)
    case ToggleLoadAdmitted(g, prev) => prev.Some? ==> g > prev.value
    case ToggleIssue(e, g, prev) => e.Recording? && prev.Some? ==> g > prev.value
    case ToggleAcquire(e, g, _, prev) => e.Recording? && prev.Some? ==> g > prev.value
    case RestartReserve(g, prev) => prev.Some? ==> g > prev.value
    case RestartWithdrawIdle(g) => IdleSince(g, snapshot)
    case _ => true
  }

  ghost predicate Retries(s: Sys) {
    && (s.lock.Some? ==> s.lock.value in s.ops && (s.ops[s.lock.value].CancelStore? || s.ops[s.lock.value].CancelSend?))
    && forall c <- s.ops :: OpRetry(s.ops[c], s.snapshot)
  }

  ghost predicate RetryKept(s: Sys, c: nat, op: Op, step: Step) {
    && OpRetry(step.op, s.snapshot)
    && (step.sys.lock == s.lock || step.sys.lock == None || (step.sys.lock == Some(c) && step.op.CancelStore?))
    && (op.CancelStore? ==> step.op.CancelSend?)
    && (op.CancelSend? ==> step.sys.lock == None)
  }

  lemma ToggleRetry(s: Sys, c: nat, op: Op)
    requires InToggle(op) && OpRetry(op, s.snapshot)
    ensures RetryKept(s, c, op, ToggleStep(s, c, op))
  {}

  lemma CancelRetry(s: Sys, c: nat, op: Op)
    requires InCancel(op) && OpRetry(op, s.snapshot)
    ensures RetryKept(s, c, op, CancelStep(s, c, op))
  {}

  lemma RestartRetry(s: Sys, c: nat, op: Op)
    requires InRestart(op) && OpRetry(op, s.snapshot)
    ensures RetryKept(s, c, op, RestartStep(s, c, op))
  {}

  lemma ConfigRetry(s: Sys, c: nat, op: Op)
    requires !InToggle(op) && !InCancel(op) && !InRestart(op)
    ensures RetryKept(s, c, op, ConfigStep(s, c, op))
  {}

  lemma OpKeepsRetry(s: Sys, c: nat, op: Op)
    requires OpRetry(op, s.snapshot)
    ensures RetryKept(s, c, op, OpStep(s, c, op))
  {
    if InToggle(op) { ToggleRetry(s, c, op); }
    else if InCancel(op) { CancelRetry(s, c, op); }
    else if InRestart(op) { RestartRetry(s, c, op); }
    else { ConfigRetry(s, c, op); }
  }

  lemma AfterOp(s: Sys, c: nat, step: Step)
    requires Retries(s) && c in s.ops && RetryKept(s, c, s.ops[c], step) && SameLoop(s, step.sys)
    ensures Retries(step.sys.(ops := s.ops[c := step.op]))
  {}

  lemma AfterLoop(s: Sys, t: Sys)
    requires Retries(s) && t.ops == s.ops && t.lock == s.lock
    requires t.snapshot == s.snapshot || Edge(s.snapshot, t.snapshot)
    ensures Retries(t)
  {
    forall c <- t.ops ensures OpRetry(t.ops[c], t.snapshot) { assert OpRetry(s.ops[c], s.snapshot); }
  }

  lemma RetriesKept(s: Sys, action: Action)
    requires Lifecycle(s) && Retries(s) && Enabled(s, action)
    requires action.Loop? ==> Perform(s, action).ops == s.ops && Perform(s, action).lock == s.lock
    ensures Retries(Perform(s, action))
  {
    match action
    case Call(_, _) =>
    case Advance(c) =>
      OpKeepsRetry(s, c, s.ops[c]);
      OpLeavesLoop(s, c, s.ops[c]);
      AfterOp(s, c, OpStep(s, c, s.ops[c]));
    case Loop(a) =>
      LoopLife(s, s.loop, a);
      AfterLoop(s, LoopStep(s, s.loop, a));
  }
}
