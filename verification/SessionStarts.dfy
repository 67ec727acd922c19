/** What becomes of a start, told from what the environment answered and what the
    loop found in the shutdown and cancel words, in every run. */
module SessionStarts {
  import opened Options
  import opened Session
  import opened SessionLifecycle
  import opened SessionTheorems
  import opened SessionOutcomes

  /** What the run loop has been told while it started one generation. */
  datatype Start = Start(
    loaded: Option<Answer>,    // the configuration and the recorder
    ready: Option<Answer>,     // the worker
    stopping: Option<bool>,    // shutdown was found once the worker was ready
    cancelled: Option<bool>,   // and then a startup cancel
    asked: Option<bool>        // after a failure: somebody had asked for it
  )

  const Unasked := Start(None, None, None, None, None)

  /** One more step of starting a generation. */
  function Listen(start: Start, s: Sys, phase: StartPhase, a: Answer): Start {
    match phase
    case WorkerStart => start.(ready := Some(a))
    case CheckShutdown => start.(stopping := Some(s.shutdown))
    case CheckCancel => start.(cancelled := Some(s.startupCancelled == s.generation))
    case FailCheckCancel => start.(asked := Some(s.startupCancelled == s.generation))
    case FailCheckShutdown => start.(asked := Some(s.shutdown))
    case _ => start
  }

  function ListenTo(start: Start, s: Sys, action: Action, g: nat): Start {
    if !s.loop.InStart? || !action.Loop? then start
    else if s.loop.start.Begin? then
      if s.generation + 1 == g then start.(loaded := Some(action.answer)) else start
    else if s.generation == g then Listen(start, s, s.loop.start, action.answer)
    else start
  }

  /** What the first n steps of a run told about starting generation g. */
  ghost function Listened(run: seq<Sys>, actions: seq<Action>, n: nat, g: nat): Start
    requires n <= |actions| && n <= |run|
  {
    if n == 0 then Unasked else ListenTo(Listened(run, actions, n - 1, g), run[n - 1], actions[n - 1], g)
  }

  /** Everything was there, and nobody wanted it to stop. */
  predicate Good(start: Start) {
    && start.loaded == Some(Succeeds) && start.ready == Some(Succeeds)
    && start.stopping == Some(false) && start.cancelled == Some(false)
  }

  /** Something was not there, or somebody wanted it to stop; nothing was asked after
      that. */
  predicate Failed(start: Start) {
    || (start.loaded.Some? && start.loaded != Some(Succeeds) && start.ready == None && start.stopping == None &&
        start.cancelled == None)
    || (start.loaded == Some(Succeeds) && start.ready.Some? && start.ready != Some(Succeeds) &&
        start.stopping == None && start.cancelled == None)
    || (start.loaded == Some(Succeeds) && start.ready == Some(Succeeds) &&
        ((start.stopping == Some(true) && start.cancelled == None) ||
         (start.stopping == Some(false) && start.cancelled == Some(true))))
  }

  function Outcome(start: Start): State {
    if Good(start) then Recording else if start.asked == Some(true) then Cancelled else Error
  }

  predicate Starting(phase: StartPhase, start: Start) {
    match phase
    case Begin => false
    case AnnounceStarting => start == Unasked.(loaded := Some(Succeeds))
    case WorkerStart => start == Unasked.(loaded := Some(Succeeds))
    case CheckShutdown => start == Start(Some(Succeeds), Some(Succeeds), None, None, None)
    case CheckCancel => start == Start(Some(Succeeds), Some(Succeeds), Some(false), None, None)
    case AnnounceRecording => Good(start) && start.asked == None
    case FailCheckCancel => Failed(start) && start.asked == None
    case FailCheckShutdown => Failed(start) && start.asked == Some(false)
    case AnnounceFailure(outcome) => Failed(start) && start.asked.Some? && outcome == Outcome(start)
    case Return => false
  }

  /** The loop is at work on the start of g. */
  predicate Within(s: Sys, g: nat) {
    s.loop.InStart? && s.generation == g && !s.loop.start.Begin? && !s.loop.start.Return?
  }

  /** The start of g is behind. */
  predicate Decided(log: Log, g: nat, start: Start) {
    (Good(start) || (Failed(start) && start.asked.Some?)) && Snapshot(Outcome(start), g) in log.published
  }

  predicate Tale(s: Sys, g: nat, start: Start) {
    && (Snapshot(Recording, g) in s.log.published ==> Good(start))
    && (s.snapshot == Snapshot(Recording, g) ==> Good(start))
    && if Within(s, g) then g > 0 && Starting(s.loop.start, start)
       else if s.generation < g || g == 0 then start == Unasked
       else Decided(s.log, g, start)
  }

  lemma HeadTale(s: Sys, a: Answer, g: nat, start: Start)
    requires Life(s, s.loop) && Tale(s, g, start) && s.loop.Head?
    ensures Tale(HeadStep(s, a), g, start)
  {}

  lemma CommandTale(s: Sys, a: Answer, g: nat, start: Start)
    requires Life(s, s.loop) && Tale(s, g, start) && Where(s.loop).AtCommand?
    ensures Tale(CommandStep(s, s.loop, a), g, start)
  {}

  lemma TickTale(s: Sys, a: Answer, g: nat, start: Start)
    requires Life(s, s.loop) && Tale(s, g, start) && Where(s.loop).AtTick?
    ensures Tale(TickStep(s, s.loop, a), g, start)
  {}

  lemma FinishTale(s: Sys, a: Answer, g: nat, start: Start)
    requires Life(s, s.loop) && Tale(s, g, start) && s.loop.InFinish?
    ensures Tale(FinishStep(s, s.loop.finish, s.loop.stopper, a), g, start)
  {}

  lemma TailTale(s: Sys, g: nat, start: Start)
    requires Life(s, s.loop) && Tale(s, g, start) && Where(s.loop).AtTail?
    ensures Tale(TailStep(s, s.loop), g, start)
  {}

  lemma EdgeTale(s: Sys, a: Answer, g: nat, start: Start)
    requires Life(s, s.loop) && Tale(s, g, start) && s.loop.InStart? && (s.loop.start.Begin? || s.loop.start.Return?)
    ensures Tale(StartStep(s, s.loop.start, s.loop.who, a), g, ListenTo(start, s, Loop(a), g))
  {}

  predicate Announces(phase: StartPhase) {
    phase.AnnounceStarting? || phase.AnnounceRecording? || phase.AnnounceFailure?
  }

  lemma AnnouncedTale(s: Sys, a: Answer, g: nat, start: Start)
    requires Life(s, s.loop) && Tale(s, g, start) && Within(s, g) && Announces(s.loop.start)
    ensures Tale(StartStep(s, s.loop.start, s.loop.who, a), g, start)
  {}

  lemma AskedTale(s: Sys, a: Answer, g: nat, start: Start)
    requires Life(s, s.loop) && Tale(s, g, start) && Within(s, g) && !Announces(s.loop.start)
    ensures Tale(StartStep(s, s.loop.start, s.loop.who, a), g, Listen(start, s, s.loop.start, a))
  {}

  lemma OtherTale(s: Sys, a: Answer, g: nat, start: Start)
    requires Life(s, s.loop) && Tale(s, g, start) && s.loop.InStart? && s.generation != g
    requires !s.loop.start.Begin? && !s.loop.start.Return?
    ensures Tale(StartStep(s, s.loop.start, s.loop.who, a), g, start)
  {}

  lemma TaleStep(s: Sys, action: Action, g: nat, start: Start)
    requires Life(s, s.loop) && Enabled(s, action) && Tale(s, g, start)
    ensures Tale(Perform(s, action), g, ListenTo(start, s, action, g))
  {
    match action
    case Call(_, _) =>
    case Advance(c) => OpLeavesLoop(s, c, s.ops[c]);
    case Loop(a) =>
      match Where(s.loop)
      case AtHead => HeadTale(s, a, g, start);
      case AtCommand => CommandTale(s, a, g, start);
      case AtTick => TickTale(s, a, g, start);
      case AtFinish => FinishTale(s, a, g, start);
      case AtTail => TailTale(s, g, start);
      case AtStart =>
        if s.loop.start.Begin? || s.loop.start.Return? {
          EdgeTale(s, a, g, start);
        } else if s.generation != g {
          OtherTale(s, a, g, start);
        } else if Announces(s.loop.start) {
          AnnouncedTale(s, a, g, start);
        } else {
          AskedTale(s, a, g, start);
        }
  }

  lemma {:induction false} TaleRun(run: seq<Sys>, actions: seq<Action>, n: nat, g: nat)
    requires IsRun(run, actions) && n < |run|
    ensures Tale(run[n], g, Listened(run, actions, n, g))
  {
    if n > 0 {
      TaleRun(run, actions, n - 1, g);
      LifeRun(run, actions, n - 1);
      TaleStep(run[n - 1], actions[n - 1], g, Listened(run, actions, n - 1, g));
    }
  }

  /** Recording is published for a generation exactly when its start was good, and a
      start that was not ends it: Cancelled if somebody had asked for that, else Error. */
  lemma StartFollowsAnswers(run: seq<Sys>, actions: seq<Action>, n: nat, g: nat)
    requires IsRun(run, actions) && n < |run| && 0 < g <= run[n].generation && !Within(run[n], g)
    ensures var start := Listened(run, actions, n, g);
            && (Snapshot(Recording, g) in run[n].log.published <==> Good(start))
            && (!Good(start) ==>
                  forall x: Snapshot :: x.generation == g && IsTerminal(x.state) ==>
                    (x in run[n].log.published <==> x.state == if start.asked == Some(true) then Cancelled else Error))
  {
    TaleRun(run, actions, n, g);
    PublishedIsPath(run, actions, n);
    var start := Listened(run, actions, n, g);
    var published := run[n].log.published;
    if !Good(start) {
      forall x: Snapshot | x.generation == g && IsTerminal(x.state) && x in published ensures x.state == Outcome(start) {
        OneOutcome(published, x, Snapshot(Outcome(start), g));
      }
    }
  }
}
