/** What becomes of a recording, told from what the environment answered: the
    recorder, the worker, the output and the shutdown flag decide, in every run. */
module SessionOutcomes {
  import opened Options
  import opened Session
  import opened SessionLifecycle
  import opened SessionInvariant
  import opened SessionTheorems

  /** What the run loop has been told while it finished one generation. */
  datatype Told = Told(
    capture: Option<Answer>,
    worker: Option<Answer>,
    delivery: Option<Answer>,
    shutdown: Option<bool>     // what it found in the flag at the end
  )

  const Untold := Told(None, None, None, None)

  /** One more step, while `generation` was current. */
  function Hear(told: Told, loop: Loop, shutdown: bool, action: Action): Told {
    if !loop.InFinish? || !action.Loop? then told
    else match loop.finish
    case StopCapture => told.(capture := Some(action.answer))
    case WorkerFinish => told.(worker := Some(action.answer))
    case Deliver => told.(delivery := Some(action.answer))
    case LoadShutdown(_) => told.(shutdown := Some(shutdown))
    case _ => told
  }

  /** What the first n steps of a run told about generation g. */
  ghost function Heard(run: seq<Sys>, actions: seq<Action>, n: nat, g: nat): Told
    requires n <= |actions| && n <= |run|
  {
    if n == 0 then Untold
    else
      var told := Heard(run, actions, n - 1, g);
      if run[n - 1].generation == g then Hear(told, run[n - 1].loop, run[n - 1].shutdown, actions[n - 1]) else told
  }

  /** The worker has answered, and what there was to deliver has been delivered. */
  predicate Earned(told: Told) {
    told.worker == Some(NoSpeech) || told.delivery == Some(Succeeds)
  }

  function Verdict(told: Told): State {
    if told.shutdown == Some(true) then Cancelled else if Earned(told) then Success else Error
  }

  /** Each question is asked only once the one before it was answered well. */
  predicate InOrder(told: Told) {
    && (told.worker.Some? ==> told.capture == Some(Succeeds))
    && (told.delivery.Some? <==> told.worker == Some(Succeeds))
    && told.capture.Some?
  }

  predicate During(phase: FinishPhase, told: Told) {
    match phase
    case AnnounceStopping => told == Untold
    case StopCapture => told == Untold
    case AnnounceProcessing => told == Told(Some(Succeeds), None, None, None)
    case WorkerFinish => told == Told(Some(Succeeds), None, None, None)
    case AnnounceDelivering => told == Told(Some(Succeeds), Some(Succeeds), None, None)
    case Deliver => told == Told(Some(Succeeds), Some(Succeeds), None, None)
    case LoadShutdown(outcome) => InOrder(told) && told.shutdown == None && outcome == Verdict(told)
    case AnnounceOutcome(outcome) => InOrder(told) && told.shutdown.Some? && outcome == Verdict(told)
  }

  /** The generation was finished, and its outcome published. */
  predicate Over(log: Log, g: nat, told: Told) {
    InOrder(told) && told.shutdown.Some? && Snapshot(Verdict(told), g) in log.published
  }

  /** The generation is at rest, or the next one has begun. */
  predicate Past(s: Sys, g: nat) {
    g < s.generation || (s.snapshot.generation == g && (s.snapshot.state.Idle? || IsTerminal(s.snapshot.state)))
  }

  predicate Story(s: Sys, g: nat, told: Told) {
    && (g in s.log.delivered <==> told.delivery.Some?)
    && (Snapshot(Success, g) in s.log.published ==> told.shutdown.Some? && Verdict(told) == Success)
    && if s.loop.InFinish? && s.generation == g then During(s.loop.finish, told)
       else told == Untold || (Over(s.log, g, told) && Past(s, g))
  }

  lemma HeadStory(s: Sys, a: Answer, g: nat, told: Told)
    requires Life(s, s.loop) && Story(s, g, told) && s.loop.Head?
    ensures Story(HeadStep(s, a), g, told)
  {}

  lemma CommandStory(s: Sys, a: Answer, g: nat, told: Told)
    requires Life(s, s.loop) && Story(s, g, told) && Where(s.loop).AtCommand?
    ensures Story(CommandStep(s, s.loop, a), g, told)
  {}

  lemma TickStory(s: Sys, a: Answer, g: nat, told: Told)
    requires Life(s, s.loop) && Story(s, g, told) && Where(s.loop).AtTick?
    ensures Story(TickStep(s, s.loop, a), g, told)
  {}

  lemma StartStory(s: Sys, a: Answer, g: nat, told: Told)
    requires Life(s, s.loop) && Story(s, g, told) && s.loop.InStart?
    ensures Story(StartStep(s, s.loop.start, s.loop.who, a), g, told)
  {}

  lemma TailStory(s: Sys, g: nat, told: Told)
    requires Life(s, s.loop) && Story(s, g, told) && Where(s.loop).AtTail?
    ensures Story(TailStep(s, s.loop), g, told)
  {}

  lemma AskedStory(s: Sys, a: Answer, g: nat, told: Told)
    requires Life(s, s.loop) && Story(s, g, told) && s.loop.InFinish? && s.generation == g
    requires s.loop.finish.StopCapture? || s.loop.finish.WorkerFinish? || s.loop.finish.Deliver? ||
             s.loop.finish.LoadShutdown?
    ensures Story(FinishStep(s, s.loop.finish, s.loop.stopper, a), g, Hear(told, s.loop, s.shutdown, Loop(a)))
  {}

  lemma AnnouncedStory(s: Sys, a: Answer, g: nat, told: Told)
    requires Life(s, s.loop) && Story(s, g, told) && s.loop.InFinish? && s.generation == g
    requires s.loop.finish.AnnounceStopping? || s.loop.finish.AnnounceProcessing? ||
             s.loop.finish.AnnounceDelivering? || s.loop.finish.AnnounceOutcome?
    ensures Story(FinishStep(s, s.loop.finish, s.loop.stopper, a), g, told)
  {}

  lemma OtherStory(s: Sys, a: Answer, g: nat, told: Told)
    requires Life(s, s.loop) && Story(s, g, told) && s.loop.InFinish? && s.generation != g
    ensures Story(FinishStep(s, s.loop.finish, s.loop.stopper, a), g, told)
  {}

  lemma FinishStory(s: Sys, a: Answer, g: nat, told: Told)
    requires Life(s, s.loop) && Story(s, g, told) && s.loop.InFinish?
    ensures var heard := if s.generation == g then Hear(told, s.loop, s.shutdown, Loop(a)) else told;
            Story(FinishStep(s, s.loop.finish, s.loop.stopper, a), g, heard)
  {
    if s.generation != g {
      OtherStory(s, a, g, told);
    } else if s.loop.finish.StopCapture? || s.loop.finish.WorkerFinish? || s.loop.finish.Deliver? ||
              s.loop.finish.LoadShutdown? {
      AskedStory(s, a, g, told);
    } else {
      AnnouncedStory(s, a, g, told);
    }
  }

  lemma StoryStep(s: Sys, action: Action, g: nat, told: Told)
    requires Life(s, s.loop) && Enabled(s, action) && Story(s, g, told)
    ensures var heard := if s.generation == g then Hear(told, s.loop, s.shutdown, action) else told;
            Story(Perform(s, action), g, heard)
  {
    match action
    case Call(_, _) =>
    case Advance(c) => OpLeavesLoop(s, c, s.ops[c]);
    case Loop(a) =>
      match Where(s.loop)
      case AtHead => HeadStory(s, a, g, told);
      case AtCommand => CommandStory(s, a, g, told);
      case AtTick => TickStory(s, a, g, told);
      case AtStart => StartStory(s, a, g, told);
      case AtFinish => FinishStory(s, a, g, told);
      case AtTail => TailStory(s, g, told);
  }

  lemma LifeRun(run: seq<Sys>, actions: seq<Action>, i: nat)
    requires IsRun(run, actions) && i < |run|
    ensures Life(run[i], run[i].loop)
  {
    InvRun(run, actions, i);
  }

  lemma {:induction false} StoryRun(run: seq<Sys>, actions: seq<Action>, n: nat, g: nat)
    requires IsRun(run, actions) && n < |run|
    ensures Story(run[n], g, Heard(run, actions, n, g))
  {
    if n > 0 {
      StoryRun(run, actions, n - 1, g);
      LifeRun(run, actions, n - 1);
      StoryStep(run[n - 1], actions[n - 1], g, Heard(run, actions, n - 1, g));
    }
  }

  /** While g is being finished and the loop is at `phase`, the environment answers `a`. */
  predicate Answers(s: Sys, action: Action, g: nat, phase: FinishPhase, a: Answer) {
    s.loop.InFinish? && s.loop.finish == phase && s.generation == g && action == Loop(a)
  }

  /** It did so in some step before the n-th. */
  ghost predicate Answered(run: seq<Sys>, actions: seq<Action>, n: nat, g: nat, phase: FinishPhase, a: Answer)
    requires n <= |actions| && n <= |run|
  {
    exists k :: 0 <= k < n && Answers(run[k], actions[k], g, phase, a)
  }

  lemma AnsweredLater(run: seq<Sys>, actions: seq<Action>, n: nat, g: nat, phase: FinishPhase, a: Answer)
    requires n < |actions| && n < |run|
    ensures Answered(run, actions, n + 1, g, phase, a) <==>
              Answered(run, actions, n, g, phase, a) || Answers(run[n], actions[n], g, phase, a)
  {
    if Answered(run, actions, n, g, phase, a) {
      var k :| 0 <= k < n && Answers(run[k], actions[k], g, phase, a);
      assert 0 <= k < n + 1;
    }
  }

  function Of(told: Told, phase: FinishPhase): Option<Answer> {
    match phase
    case StopCapture => told.capture
    case WorkerFinish => told.worker
    case Deliver => told.delivery
    case _ => None
  }

  lemma HearsOnce(s: Sys, g: nat, told: Told, action: Action, phase: FinishPhase, a: Answer)
    requires Story(s, g, told) && s.generation == g && (phase.StopCapture? || phase.WorkerFinish? || phase.Deliver?)
    ensures Of(Hear(told, s.loop, s.shutdown, action), phase) == Some(a) <==>
              Of(told, phase) == Some(a) || Answers(s, action, g, phase, a)
  {}

  lemma HeardOneMore(run: seq<Sys>, actions: seq<Action>, n: nat, g: nat, phase: FinishPhase, a: Answer)
    requires IsRun(run, actions) && n < |actions| && (phase.StopCapture? || phase.WorkerFinish? || phase.Deliver?)
    requires Of(Heard(run, actions, n, g), phase) == Some(a) <==> Answered(run, actions, n, g, phase, a)
    ensures Of(Heard(run, actions, n + 1, g), phase) == Some(a) <==> Answered(run, actions, n + 1, g, phase, a)
  {
    StoryRun(run, actions, n, g);
    AnsweredLater(run, actions, n, g, phase, a);
    if run[n].generation == g { HearsOnce(run[n], g, Heard(run, actions, n, g), actions[n], phase, a); }
  }

  /** What the loop has been told is exactly what was answered: no question is put
      twice for one generation. */
  lemma {:induction false} HeardIsAnswered(run: seq<Sys>, actions: seq<Action>, n: nat, g: nat,
                                           phase: FinishPhase, a: Answer)
    requires IsRun(run, actions) && n < |run| && (phase.StopCapture? || phase.WorkerFinish? || phase.Deliver?)
    ensures Of(Heard(run, actions, n, g), phase) == Some(a) <==> Answered(run, actions, n, g, phase, a)
  {
    if n > 0 {
      HeardIsAnswered(run, actions, n - 1, g, phase, a);
      HeardOneMore(run, actions, n - 1, g, phase, a);
    }
  }

  /** In some step before the n-th, at the end of finishing g, the loop looked at the
      shutdown flag and found it so. */
  ghost predicate Looked(run: seq<Sys>, actions: seq<Action>, n: nat, g: nat, found: bool)
    requires n <= |actions| && n <= |run|
  {
    exists k {:trigger actions[k]} :: 0 <= k < n && run[k].loop.InFinish? && run[k].loop.finish.LoadShutdown? &&
      run[k].generation == g && actions[k].Loop? && run[k].shutdown == found
  }

  lemma {:induction false} HeardIsLooked(run: seq<Sys>, actions: seq<Action>, n: nat, g: nat, found: bool)
    requires IsRun(run, actions) && n < |run|
    ensures Heard(run, actions, n, g).shutdown == Some(found) <==> Looked(run, actions, n, g, found)
  {
    if n > 0 {
      HeardIsLooked(run, actions, n - 1, g, found);
      StoryRun(run, actions, n - 1, g);
      LookedLater(run, actions, n - 1, g, found);
    }
  }

  lemma LookedLater(run: seq<Sys>, actions: seq<Action>, n: nat, g: nat, found: bool)
    requires n < |actions| && n < |run|
    ensures Looked(run, actions, n + 1, g, found) <==>
              || Looked(run, actions, n, g, found)
              || (run[n].loop.InFinish? && run[n].loop.finish.LoadShutdown? && run[n].generation == g &&
                  actions[n].Loop? && run[n].shutdown == found)
  {
    if Looked(run, actions, n, g, found) {
      var k :| 0 <= k < n && run[k].loop.InFinish? && run[k].loop.finish.LoadShutdown? &&
        run[k].generation == g && actions[k].Loop? && run[k].shutdown == found;
      assert 0 <= k < n + 1 && actions[k].Loop?;
    }
  }

  /** Only a transcript the worker returned is delivered, and every such transcript
      is, once the loop has left the generation. */
  lemma DeliveredIsTranscript(run: seq<Sys>, actions: seq<Action>, n: nat, g: nat)
    requires IsRun(run, actions) && n < |run|
    ensures g in run[n].log.delivered ==>
              && Answered(run, actions, n, g, StopCapture, Succeeds)
              && Answered(run, actions, n, g, WorkerFinish, Succeeds)
    ensures Answered(run, actions, n, g, WorkerFinish, Succeeds) && !(run[n].loop.InFinish? && run[n].generation == g) ==>
              g in run[n].log.delivered
  {
    StoryRun(run, actions, n, g);
    HeardIsAnswered(run, actions, n, g, StopCapture, Succeeds);
    HeardIsAnswered(run, actions, n, g, WorkerFinish, Succeeds);
  }

  /** Success is published only where the worker heard no speech or the output took
      the transcript. */
  lemma SuccessIsEarned(run: seq<Sys>, actions: seq<Action>, n: nat, g: nat)
    requires IsRun(run, actions) && n < |run| && Snapshot(Success, g) in run[n].log.published
    ensures Answered(run, actions, n, g, WorkerFinish, NoSpeech) || Answered(run, actions, n, g, Deliver, Succeeds)
  {
    StoryRun(run, actions, n, g);
    HeardIsAnswered(run, actions, n, g, Deliver, Succeeds);
    HeardIsAnswered(run, actions, n, g, WorkerFinish, NoSpeech);
  }

  lemma {:induction false} TerminalIsLast(published: seq<Snapshot>, i: nat, j: nat)
    requires IsPath(published) && i < j < |published| && IsTerminal(published[i].state)
    requires published[j].generation == published[i].generation
    ensures published[j].state.Idle?
  {
    if i + 1 < j {
      assert Edge(published[j - 1], published[j]);
      assert Edge(published[i], published[i + 1]);
      PathIsMonotone(published, i, j - 1);
      PathIsMonotone(published, j - 1, j);
      TerminalIsLast(published, i, j - 1);
    } else {
      assert Edge(published[i], published[j]);
    }
  }

  lemma OneOutcome(published: seq<Snapshot>, x: Snapshot, y: Snapshot)
    requires IsPath(published) && x in published && y in published && x.generation == y.generation
    requires IsTerminal(x.state) && IsTerminal(y.state)
    ensures x == y
  {
    var i :| 0 <= i < |published| && published[i] == x;
    var j :| 0 <= j < |published| && published[j] == y;
    if i < j { TerminalIsLast(published, i, j); }
    if j < i { TerminalIsLast(published, j, i); }
  }

  /** A generation whose recorder was asked to stop has one outcome, and the answers
      decide it: Cancelled if shutdown was seen at the end; else Success if there was
      no speech or the output took the transcript, else Error. */
  lemma OutcomeFollowsAnswers(run: seq<Sys>, actions: seq<Action>, n: nat, g: nat, a: Answer, x: Snapshot)
    requires IsRun(run, actions) && n < |run| && Answered(run, actions, n, g, StopCapture, a)
    requires !(run[n].loop.InFinish? && run[n].generation == g)
    requires x.generation == g && IsTerminal(x.state)
    ensures x in run[n].log.published <==>
              x.state == if Looked(run, actions, n, g, true) then Cancelled
                         else if Answered(run, actions, n, g, WorkerFinish, NoSpeech) then Success
                         else if Answered(run, actions, n, g, Deliver, Succeeds) then Success
                         else Error
  {
    StoryRun(run, actions, n, g);
    PublishedIsPath(run, actions, n);
    HeardIsAnswered(run, actions, n, g, StopCapture, a);
    HeardIsAnswered(run, actions, n, g, WorkerFinish, NoSpeech);
    HeardIsAnswered(run, actions, n, g, Deliver, Succeeds);
    HeardIsLooked(run, actions, n, g, true);
    var verdict := Snapshot(Verdict(Heard(run, actions, n, g)), g);
    if x in run[n].log.published { OneOutcome(run[n].log.published, x, verdict); }
  }
}
