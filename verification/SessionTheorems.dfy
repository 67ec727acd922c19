/** What holds in every run of the session protocol, whatever the interleaving. */
module SessionTheorems {
  import opened Options
  import opened Session
  import opened SessionTokens
  import opened SessionLifecycle
  import opened SessionRestart
  import opened SessionCancel
  import opened SessionRetry
  import opened SessionInvariant

  // -------------------------------------------------------------- restarts

  ghost predicate ServedOrPending(s: Sys, request: nat) {
    s.ticket.word == request || s.generation >= Tag(request) || !Alive(s)
  }

  lemma RequestStep(s: Sys, action: Action, request: nat)
    requires Inv(s) && Enabled(s, action) && IsReady(request) && ServedOrPending(s, request)
    ensures ServedOrPending(Perform(s, action), request)
  {
    match action
    case Call(_, _) =>
    case Advance(c) => CallRequest(s, c, request);
    case Loop(a) => LoopKeepsTicket(s, s.loop, a);
  }

  lemma CallRequest(s: Sys, c: nat, request: nat)
    requires Restarts(s) && Enabled(s, Advance(c)) && IsReady(request) && ServedOrPending(s, request)
    ensures ServedOrPending(Perform(s, Advance(c)), request)
  {
    assert OpTicket(s.ticket, s.snapshot.generation, Alive(s), s.ops[c], c);
    OpKeepsTicket(s, c, s.ops[c]);
    OpLeavesLoop(s, c, s.ops[c]);
  }

  lemma RequestRun(run: seq<Sys>, actions: seq<Action>, j: nat, request: nat)
    requires IsRun(run, actions) && j < |actions| && IsReady(request) && ServedOrPending(run[j], request)
    ensures ServedOrPending(run[j + 1], request)
  {
    InvRun(run, actions, j);
    RequestStep(run[j], actions[j], request);
  }

  /** No accepted restart is lost: a READY request for generation g stays in the
      word until generation g + 1 has been started, or the loop has exited. */
  lemma {:induction false} AcceptedRestartIsServed(run: seq<Sys>, actions: seq<Action>, i: nat, j: nat)
    requires IsRun(run, actions) && i <= j < |run| && IsReady(run[i].ticket.word)
    ensures run[j].ticket.word == run[i].ticket.word
         || run[j].generation >= Tag(run[i].ticket.word)
         || run[j].loop.Exited?
  {
    if i < j {
      AcceptedRestartIsServed(run, actions, i, j - 1);
      RequestRun(run, actions, j - 1, run[i].ticket.word);
    }
  }

  /** While the loop lives, a request is made READY at most once per generation. */
  lemma ReadyOncePerGeneration(run: seq<Sys>, actions: seq<Action>, i: nat, c: nat)
    requires IsRun(run, actions) && i < |run| && Alive(run[i])
    requires c in run[i].ops && run[i].ops[c].RestartMark?
    ensures run[i].ops[c].gen !in run[i].ticket.ready
    ensures run[i].ticket.word == Pending(run[i].ops[c].gen)
  {
    InvRun(run, actions, i);
    assert OpTicket(run[i].ticket, run[i].snapshot.generation, true, run[i].ops[c], c);
  }

  lemma RestartedGrows(run: seq<Sys>, actions: seq<Action>, j: nat)
    requires IsRun(run, actions) && j < |actions|
    ensures run[j].ticket.restarted <= run[j + 1].ticket.restarted
  {
    InvRun(run, actions, j);
    var s := run[j];
    match actions[j]
    case Call(_, _) =>
    case Advance(c) => OpKeepsTicket(s, c, s.ops[c]);
    case Loop(a) => LoopKeepsTicket(s, s.loop, a);
  }

  lemma {:induction false} RestartedStays(run: seq<Sys>, actions: seq<Action>, i: nat, j: nat)
    requires IsRun(run, actions) && i <= j < |run|
    ensures run[i].ticket.restarted <= run[j].ticket.restarted
  {
    if i < j {
      RestartedStays(run, actions, i, j - 1);
      RestartedGrows(run, actions, j - 1);
    }
  }

  /** Each accepted request causes at most one start: two takeovers always act
      on requests of different generations, each an accepted one. */
  lemma OneStartPerRequest(run: seq<Sys>, actions: seq<Action>, i: nat, j: nat)
    requires IsRun(run, actions) && i < j < |actions|
    requires run[i].loop.TailIdle? && actions[i].Loop? && run[j].loop.TailIdle?
    ensures Tag(run[i].loop.request) < Tag(run[j].loop.request)
    ensures Tag(run[j].loop.request) - 1 in run[j].ticket.ready
  {
    InvRun(run, actions, i);
    InvRun(run, actions, j);
    RestartedStays(run, actions, i + 1, j);
    assert run[i].generation in run[i + 1].ticket.restarted;
  }

  /** A reservation has one owner, so that owner's later compare-exchanges on the
      restart word always find the value it put there. */
  lemma ReservationHasOneOwner(run: seq<Sys>, actions: seq<Action>, i: nat, c: nat)
    requires IsRun(run, actions) && i < |run| && c in run[i].ops && Reserving(run[i].ops[c])
    ensures run[i].ticket.word == Pending(run[i].ops[c].gen)
    ensures forall d <- run[i].ops :: Reserving(run[i].ops[d]) ==> d == c
  {
    InvRun(run, actions, i);
    var s := run[i];
    forall d <- s.ops | Reserving(s.ops[d]) ensures s.ticket.reserver == Some(d) && s.ticket.word == Pending(s.ops[d].gen) {
      assert OpTicket(s.ticket, s.snapshot.generation, Alive(s), s.ops[d], d);
    }
  }

  /** The recursion toggle - queue_restart - toggle has a measure: a retry
      queues a restart only for a later generation. */
  lemma RetryIsLater(run: seq<Sys>, actions: seq<Action>, i: nat, c: nat)
    requires IsRun(run, actions) && i < |run| && c in run[i].ops
    requires run[i].ops[c].RestartReserve? && run[i].ops[c].prev.Some?
    ensures run[i].ops[c].prev.value < run[i].ops[c].gen <= run[i].snapshot.generation
  {
    InvRun(run, actions, i);
    var s := run[i];
    assert OpRetry(s.ops[c], s.snapshot);
    assert OpTicket(s.ticket, s.snapshot.generation, Alive(s), s.ops[c], c);
  }

  // ------------------------------------------------------------- admission

  /** Every token drawn is new and not zero. */
  lemma TokensAreDistinct(run: seq<Sys>, actions: seq<Action>, i: nat, finishing: bool)
    requires IsRun(run, actions) && i < |run|
    ensures var token := Token(run[i].gate, finishing);
            token != ADMISSION_NONE && token !in run[i].gate.issuer && IsFinish(token) == finishing
  {
    InvRun(run, actions, i);
  }

  /** Who acts in a step. */
  function Actor(action: Action): Actor {
    if action.Loop? then RunLoop else Client(action.c)
  }

  /** A token leaves the admission word by its owner's release, or, when it is a
      finish token, by the takeover of a READY restart; what arrives has never
      owned the word before. */
  ghost predicate Handover(s: Sys, t: Sys, actor: Actor) {
    && (t.gate.admitted == ADMISSION_NONE ==> Installed(s.gate, s.gate.admitted, actor))
    && (t.gate.admitted != ADMISSION_NONE ==> t.gate.admitted !in s.gate.ever && Drawn(s.gate, t.gate.admitted, actor))
    && (s.gate.admitted != ADMISSION_NONE && t.gate.admitted != ADMISSION_NONE ==>
          && IsFinish(s.gate.admitted) && s.loop.TailAcquire? && !IsFinish(t.gate.admitted) && actor == RunLoop
          && s.ticket.word == Ready(s.generation))
  }

  lemma HandoverStep(s: Sys, action: Action)
    requires Inv(s) && Enabled(s, action)
    ensures s.gate.ever <= Perform(s, action).gate.ever
    ensures Perform(s, action).gate.admitted != s.gate.admitted ==> Handover(s, Perform(s, action), Actor(action))
  {
    match action
    case Call(_, _) =>
    case Advance(c) =>
      var op := s.ops[c];
      assert OpToken(s.gate, op, c);
      OpUsesWord(s, c, op);
    case Loop(a) => LoopUsesWord(s, s.loop, a);
  }

  lemma AdmissionHandover(run: seq<Sys>, actions: seq<Action>, i: nat)
    requires IsRun(run, actions) && i < |actions|
    ensures run[i].gate.admitted != run[i + 1].gate.admitted ==> Handover(run[i], run[i + 1], Actor(actions[i]))
    ensures run[i].gate.ever <= run[i + 1].gate.ever
  {
    InvRun(run, actions, i);
    HandoverStep(run[i], actions[i]);
  }

  lemma {:induction false} GoneForGood(run: seq<Sys>, actions: seq<Action>, i: nat, j: nat, token: nat)
    requires IsRun(run, actions) && i <= j < |run|
    requires token != ADMISSION_NONE && token in run[i].gate.ever && run[i].gate.admitted != token
    ensures run[j].gate.admitted != token && token in run[j].gate.ever
  {
    if i < j {
      GoneForGood(run, actions, i, j - 1, token);
      AdmissionHandover(run, actions, j - 1);
    }
  }

  lemma {:induction false} EverGrows(run: seq<Sys>, actions: seq<Action>, i: nat, j: nat)
    requires IsRun(run, actions) && i <= j < |run|
    ensures run[i].gate.ever <= run[j].gate.ever
  {
    if i < j {
      EverGrows(run, actions, i, j - 1);
      AdmissionHandover(run, actions, j - 1);
    }
  }

  /** The admission word never leaks: whoever drew the token that owns it still
      holds it. So it is free once every call has returned and the loop is between
      two rounds or has ended. */
  lemma AdmissionNeverLeaks(run: seq<Sys>, actions: seq<Action>, i: nat)
    requires IsRun(run, actions) && i < |run| && run[i].gate.admitted != ADMISSION_NONE
    ensures var s := run[i];
            && s.gate.admitted in s.gate.issuer
            && match s.gate.issuer[s.gate.admitted]
               case Client(c) => c in s.ops && Holds(s.ops[c]) == Some(s.gate.admitted)
               case RunLoop => LoopHolds(s.loop) == Some(s.gate.admitted)
    ensures (exists c <- run[i].ops :: !run[i].ops[c].Done?) || (!run[i].loop.Head? && !run[i].loop.Exited?)
  {
    InvRun(run, actions, i);
  }

  /** No ABA: a token that has left the word never returns, so a late release by
      a displaced owner can never clear another owner's token. */
  lemma TokenNeverReturns(run: seq<Sys>, actions: seq<Action>, i: nat, j: nat, k: nat)
    requires IsRun(run, actions) && i <= j <= k < |run|
    requires run[i].gate.admitted != ADMISSION_NONE && run[j].gate.admitted != run[i].gate.admitted
    ensures run[k].gate.admitted != run[i].gate.admitted
  {
    InvRun(run, actions, i);
    EverGrows(run, actions, i, j);
    GoneForGood(run, actions, j, k, run[i].gate.admitted);
  }

  // ------------------------------------------------------------- lifecycle

  /** At every loop head the recorder is live iff the state is Recording and the
      terminal deadline is set iff the state is terminal. */
  lemma LoopHeadIsSettled(run: seq<Sys>, actions: seq<Action>, i: nat)
    requires IsRun(run, actions) && i < |run| && run[i].loop.Head?
    ensures run[i].active <==> run[i].snapshot.state.Recording?
    ensures run[i].terminal <==> IsTerminal(run[i].snapshot.state)
    ensures run[i].active || run[i].terminal || run[i].snapshot.state.Idle?
  {
    InvRun(run, actions, i);
  }

  /** What has been published is a path of the lifecycle graph. */
  lemma PublishedIsPath(run: seq<Sys>, actions: seq<Action>, i: nat)
    requires IsRun(run, actions) && i < |run|
    ensures IsPath(run[i].log.published)
    ensures run[i].log.published != [] && run[i].log.published[|run[i].log.published| - 1] == run[i].snapshot
  {
    InvRun(run, actions, i);
  }

  lemma {:induction false} PathIsMonotone(published: seq<Snapshot>, i: nat, j: nat)
    requires IsPath(published) && i <= j < |published|
    ensures published[i].generation <= published[j].generation
  {
    if i < j {
      PathIsMonotone(published, i, j - 1);
      assert Edge(published[j - 1], published[j]);
    }
  }

  /** One delivery per generation at most, and only once Delivering has been
      published for it. */
  lemma OneDeliveryPerGeneration(run: seq<Sys>, actions: seq<Action>, i: nat)
    requires IsRun(run, actions) && i < |run|
    ensures forall m, n :: 0 <= m < n < |run[i].log.delivered| ==> run[i].log.delivered[m] < run[i].log.delivered[n]
    ensures forall g <- run[i].log.delivered ::
              Snapshot(Delivering, g) in run[i].log.published && Snapshot(Stopping, g) in run[i].log.published
  {
    InvRun(run, actions, i);
  }

  // --------------------------------------------------------------- cancels

  /** An accepted startup cancel is ahead of every stop request of its own
      generation, and of the duration limit: only a stop request of an earlier
      generation, whose finish token a restart takeover replaced, can still
      finish the cancelled recording. */
  lemma CancelBeatsReadiness(run: seq<Sys>, actions: seq<Action>, i: nat)
    requires IsRun(run, actions) && i < |run| && run[i].generation in run[i].cancels
    ensures At(run[i], Recording) && run[i].active ==> CancelAhead(run[i].queue, run[i].generation)
    ensures run[i].active ==> !Where(run[i].loop).AtTick?
    ensures run[i].loop.InFinish? ==>
              && run[i].loop.stopper.ByUser? && run[i].loop.stopper.admittedAt < run[i].generation
              && run[i].loop.stopper.reply in run[i].ops && run[i].ops[run[i].loop.stopper.reply].Await?
              && run[i].ops[run[i].loop.stopper.reply].token in run[i].gate.displaced
  {
    InvRun(run, actions, i);
    if run[i].loop.InFinish? { CancelledFinish(run[i]); }
  }

  // ---------------------------------------------------------------- replies

  /** Each call is answered at most once. */
  lemma AnsweredOnce(run: seq<Sys>, actions: seq<Action>, i: nat)
    requires IsRun(run, actions) && i < |run| && run[i].loop.Reply?
    ensures run[i].loop.reply in run[i].ops && run[i].ops[run[i].loop.reply].Await?
    ensures run[i].loop.reply !in run[i].replied
  {
    InvRun(run, actions, i);
  }

  /** The loop is never blocked for good: it can move, or the call that holds
      the snapshot lock can. */
  lemma LoopCanMove(run: seq<Sys>, actions: seq<Action>, i: nat)
    requires IsRun(run, actions) && i < |run| && Alive(run[i])
    ensures Enabled(run[i], Loop(Nothing)) || (run[i].lock.Some? && Enabled(run[i], Advance(run[i].lock.value)))
  {
    InvRun(run, actions, i);
  }
}
