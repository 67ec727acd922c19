/** The invariant of the session protocol, and that every run keeps it. */
module SessionInvariant {
  import opened Session
  import opened SessionTokens
  import opened SessionLifecycle
  import opened SessionRestart
  import opened SessionCancel
  import opened SessionOrphans
  import opened SessionRetry

  /** Stopping, and so delivery, is published only for a generation that has
      left Starting and Recording. */
  ghost predicate Stops(s: Sys) {
    var p, now := s.log.published, s.snapshot;
    && (forall x <- p :: x.state.Stopping? ==>
          x.generation < now.generation ||
          (x.generation == now.generation && !now.state.Starting? && !now.state.Recording?))
    && (forall x <- p :: x.state.Delivering? ==> Snapshot(Stopping, x.generation) in p)
    && (now.state.Stopping? || now.state.Processing? ==> Snapshot(Stopping, now.generation) in p)
  }

  ghost predicate Inv(s: Sys) {
    Tokens(s) && Lifecycle(s) && Restarts(s) && Cancels(s) && Orphans(s) && Retries(s) && Stops(s)
  }

  /** Finishing a generation whose startup cancel was accepted takes a stop
      request of an earlier generation whose token a restart has displaced. */
  lemma CancelledFinish(s: Sys)
    requires LoopCancel(s, s.loop) && LoopOwned(ViewOf(s), s.loop)
    requires s.loop.InFinish? && s.generation in s.cancels
    ensures s.loop.stopper.ByUser? && s.loop.stopper.admittedAt < s.generation
    ensures var c := s.loop.stopper.reply;
            c in s.ops && s.ops[c].Await? && s.ops[c].token in s.gate.displaced
  {}

  lemma StopsLoop(s: Sys, t: Sys)
    requires Stops(s) && Logs(s, t) && LogOk(s) && LogOk(t)
    ensures Stops(t)
  {
    if t.log.published != s.log.published {
      assert t.log.published == s.log.published + [t.snapshot];
      assert forall x <- t.log.published :: x in s.log.published || x == t.snapshot;
      assert s.snapshot in s.log.published && t.snapshot in t.log.published;
    }
  }

  lemma StopsKept(s: Sys, action: Action)
    requires Inv(s) && Enabled(s, action)
    ensures Stops(Perform(s, action))
  {
    match action
    case Call(_, _) =>
    case Advance(c) => OpLeavesLoop(s, c, s.ops[c]);
    case Loop(a) =>
      var t := LoopStep(s, s.loop, a);
      LoopLife(s, s.loop, a);
      LogKept(s, t);
      StopsLoop(s, t);
  }

  lemma InvInit()
    ensures Inv(Init)
  {}

  lemma InvStep(s: Sys, action: Action)
    requires Inv(s) && Enabled(s, action)
    ensures Inv(Perform(s, action))
  {
    TokensKept(s, action);
    LifecycleKept(s, action);
    RestartsKept(s, action);
    CancelsKept(s, action);
    OrphansKept(s, action);
    if action.Loop? { LoopKeepsCancel(s, s.loop, action.answer); }
    RetriesKept(s, action);
    StopsKept(s, action);
  }

  lemma {:induction false} InvRun(run: seq<Sys>, actions: seq<Action>, i: nat)
    requires IsRun(run, actions) && i < |run|
    ensures Inv(run[i])
  {
    if i == 0 { InvInit(); } else {
      InvRun(run, actions, i - 1);
      InvStep(run[i - 1], actions[i - 1]);
    }
  }

  lemma ReachableInv(s: Sys)
    requires Reachable(s)
    ensures Inv(s)
  {
    var run, actions :| IsRun(run, actions) && run[|run| - 1] == s;
    InvRun(run, actions, |run| - 1);
  }
}
