/** Which event leads to which state of the coordinator, and what must have happened
    before a dictation can end in Success. */
module CoordinatorStory {
  import opened Options
  import opened Dictation
  import opened Coordinator
  import opened CoordinatorTheorems
  import opened CoordinatorRuns

  /** The event resumes the begin task of the current operation, or its stop task. */
  predicate Begins(m: Main, e: Event) {
    e.BeginResumed? && m.operation == Some(e.id)
  }

  predicate Works(m: Main, e: Event) {
    e.StopResumed? && m.operation == Some(e.id)
  }

  /** The task is past the helper's check, and waits for its launch. */
  predicate LaunchUnderWay(m: Main) {
    m.operation.Some? && BeginIs(m, m.operation.value, Launching)
  }

  /** The capture is still to be stopped, and is there to be. */
  predicate CaptureToStop(m: Main) {
    m.operation.Some? && StopIs(m, m.operation.value, Capturing)
  }

  function AfterStarting(m: Main, e: Event): DictationState {
    if e.CancelAsked? then Cancelled
    else if e.CaptureFailed? then Error
    else if !Begins(m, e) then Starting
    else if e.begun.Fails? then Error
    else if e.begun.more && !LaunchUnderWay(m) then Starting
    else Recording
  }

  function AfterStopping(m: Main, e: Event): DictationState {
    if e.CancelAsked? then Cancelled
    else if e.CaptureFailed? then Error
    else if !Works(m, e) then Stopping
    else if CaptureToStop(m) && e.stopped.Captured? then
      if m.capture.None? then Stopping else if e.stopped.configured then Processing else Error
    else if CaptureToStop(m) && e.stopped.CaptureThrows? && e.stopped.streams then Stopping
    else Error
  }

  /** While the helper is at work: no speech, or text that nobody needs to see
      announced, hides the window; a text delivered and shown is a success. */
  function AfterProcessing(m: Main, e: Event): DictationState {
    if e.CancelAsked? then Cancelled
    else if !Works(m, e) then Processing
    else match e.stopped
         case Interrupted => Cancelled
         case HelperFails => Error
         case NoSpeech => Idle
         case Delivered(shown) => if shown then Success else Idle
         case _ => Error
  }

  /** The state after an event, from the state, whose turn it is, and what happened. */
  function NextState(m: Main, e: Event): DictationState {
    match m.state
    case Idle =>
      if m.operation.None? then if e == Triggered(false) then Error else Idle
      else if !Begins(m, e) then Idle
      else if e.begun == Continues(true) then Starting else Error
    case Starting => AfterStarting(m, e)
    case Recording =>
      if e.Triggered? || e.TimerFired? then Stopping
      else if e.CancelAsked? then Cancelled
      else if e.CaptureFailed? then Error
      else Recording
    case Stopping => AfterStopping(m, e)
    case Processing => AfterProcessing(m, e)
    case Delivering => Delivering
    case s => if e.ResetFired? && m.resets > 0 then Idle else s
  }

  lemma BeginFollows(m: Main, e: Event)
    requires PhaseOk(m) && e.BeginResumed? && Begins(m, e)
    ensures Perform(m, e).state == NextState(m, e)
  {}

  lemma StaleFollows(m: Main, e: Event)
    requires PhaseOk(m) && ((e.BeginResumed? && !Begins(m, e)) || (e.StopResumed? && !Works(m, e)))
    ensures Perform(m, e).state == NextState(m, e)
  {
    StaleTasksStay(m, e.id, if e.BeginResumed? then e.begun else Fails, if e.StopResumed? then e.stopped else Closed);
  }

  lemma StopFollows(m: Main, e: Event)
    requires PhaseOk(m) && e.StopResumed? && Works(m, e) && !CaptureToStop(m) && !m.state.Processing?
    ensures Perform(m, e).state == NextState(m, e)
  {}

  lemma HelperFollows(m: Main, e: Event)
    requires PhaseOk(m) && e.StopResumed? && Works(m, e) && m.state.Processing?
    ensures Perform(m, e).state == NextState(m, e)
  {}

  lemma CaptureFollows(m: Main, e: Event)
    requires PhaseOk(m) && e.StopResumed? && Works(m, e) && CaptureToStop(m)
    ensures Perform(m, e).state == NextState(m, e)
  {}

  lemma TriggerFollows(m: Main, e: Event)
    requires PhaseOk(m) && (e.Triggered? || e.TimerFired? || e.CleanupEnded?)
    ensures Perform(m, e).state == NextState(m, e)
  {}

  lemma EndFollows(m: Main, e: Event)
    requires PhaseOk(m) && (e.CancelAsked? || e.CaptureFailed? || e.ResetFired?)
    ensures Perform(m, e).state == NextState(m, e)
  {}

  /** Every event leads to just this state. */
  lemma StateFollows(events: seq<Event>, e: Event)
    ensures After(events + [e]).state == NextState(After(events), e)
  {
    InvAfter(events);
    AfterOneMore(events, e);
    var m := After(events);
    if e.BeginResumed? {
      if Begins(m, e) { BeginFollows(m, e); } else { StaleFollows(m, e); }
    } else if e.StopResumed? {
      if !Works(m, e) { StaleFollows(m, e); }
      else if m.state.Processing? { HelperFollows(m, e); }
      else if CaptureToStop(m) { CaptureFollows(m, e); }
      else { StopFollows(m, e); }
    } else if e.CancelAsked? || e.CaptureFailed? || e.ResetFired? {
      EndFollows(m, e);
    } else {
      TriggerFollows(m, e);
    }
  }

  // ----------------------------------------------------- the story of a success

  datatype Stage = Opened | Running | Asked | Held | Shown

  /** The event by which an operation reaches the stage. */
  predicate Marks(e: Event, id: nat, stage: Stage) {
    match stage
    case Opened => e == BeginResumed(id, Continues(true))
    case Running => e.BeginResumed? && e.id == id && e.begun.Continues?
    case Asked => e.Triggered? || e.TimerFired?
    case Held => e == StopResumed(id, Captured(true))
    case Shown => e == StopResumed(id, Delivered(true))
  }

  function Before(stage: Stage): Stage {
    match stage
    case Opened => Opened
    case Running => Opened
    case Asked => Running
    case Held => Asked
    case Shown => Held
  }

  /** Among the first n events are those of every stage up to this one, in order. */
  ghost predicate Reached(events: seq<Event>, n: nat, id: nat, stage: Stage)
    requires n <= |events|
    decreases n
  {
    exists k :: 0 <= k < n && Marks(events[k], id, stage) && (stage.Opened? || Reached(events, k, id, Before(stage)))
  }

  lemma {:induction false} ReachedLater(events: seq<Event>, more: seq<Event>, n: nat, id: nat, stage: Stage)
    requires n <= |events| && events <= more && Reached(events, n, id, stage)
    ensures forall j :: n <= j <= |more| ==> Reached(more, j, id, stage)
    decreases n
  {
    var k :| 0 <= k < n && Marks(events[k], id, stage) && (stage.Opened? || Reached(events, k, id, Before(stage)));
    if !stage.Opened? { ReachedLater(events, more, k, id, Before(stage)); }
    assert Marks(more[k], id, stage);
  }

  /** How far the current operation has come in each state. */
  function Due(state: DictationState): Option<Stage> {
    match state
    case Starting => Some(Opened)
    case Recording => Some(Running)
    case Stopping => Some(Asked)
    case Processing => Some(Held)
    case _ => None
  }

  ghost predicate OnTrack(events: seq<Event>, m: Main) {
    m.operation.Some? && Due(m.state).Some? ==> Reached(events, |events|, m.operation.value, Due(m.state).value)
  }

  /** Every success that was asked for is of an operation that went all the way. */
  ghost predicate Earned(events: seq<Event>, log: Log) {
    log.Then? ==>
      && Earned(events, log.before)
      && (log.change.to.Success? ==>
            log.change.owner.Some? && Reached(events, |events|, log.change.owner.value, Shown))
  }

  lemma {:induction false} EarnedLater(events: seq<Event>, more: seq<Event>, log: Log)
    requires events <= more && Earned(events, log)
    ensures Earned(more, log)
  {
    if log.Then? {
      EarnedLater(events, more, log.before);
      if log.change.to.Success? { ReachedLater(events, more, |events|, log.change.owner.value, Shown); }
    }
  }

  /** The changes an event adds: a success only where a text was delivered and shown. */
  predicate Adds(before: Log, after: Log, m: Main, e: Event) {
    || after == before
    || (after.Then? && after.before == before &&
        (after.change.to.Success? ==> after.change.owner == m.operation && Works(m, e) && e.stopped == Delivered(true) &&
                                      m.state.Processing?))
    || (after.Then? && after.before.Then? && after.before.before == before && !after.before.change.to.Success? &&
        (after.change.to.Success? ==> after.change.owner == m.operation && Works(m, e) && e.stopped == Delivered(true) &&
                                      m.state.Processing?))
  }

  lemma BeginAdds(m: Main, e: Event)
    requires PhaseOk(m) && e.BeginResumed?
    ensures Adds(m.sets, Perform(m, e).sets, m, e)
  {}

  lemma StopAdds(m: Main, e: Event)
    requires PhaseOk(m) && e.StopResumed?
    ensures Adds(m.sets, Perform(m, e).sets, m, e)
  {}

  lemma OtherAdds(m: Main, e: Event)
    requires PhaseOk(m) && !e.BeginResumed? && !e.StopResumed?
    ensures Adds(m.sets, Perform(m, e).sets, m, e)
  {}

  /** An event keeps the state and the operation, or takes the operation one stage on. */
  predicate Advances(m: Main, t: Main, e: Event) {
    t.operation.Some? && Due(t.state).Some? ==>
      && t.operation == m.operation
      && (t.state == m.state ||
          (var stage := Due(t.state).value;
           Marks(e, t.operation.value, stage) && (stage.Opened? || Due(m.state) == Some(Before(stage)))))
  }

  lemma BeginAdvances(m: Main, e: Event)
    requires PhaseOk(m) && e.BeginResumed?
    ensures Advances(m, Perform(m, e), e)
  {}

  lemma StopAdvances(m: Main, e: Event)
    requires PhaseOk(m) && e.StopResumed?
    ensures Advances(m, Perform(m, e), e)
  {}

  lemma OtherAdvances(m: Main, e: Event)
    requires PhaseOk(m) && !e.BeginResumed? && !e.StopResumed?
    ensures Advances(m, Perform(m, e), e)
  {}

  lemma Moves(m: Main, e: Event)
    requires PhaseOk(m)
    ensures Advances(m, Perform(m, e), e) && Adds(m.sets, Perform(m, e).sets, m, e)
  {
    if e.BeginResumed? {
      BeginAdvances(m, e);
      BeginAdds(m, e);
    } else if e.StopResumed? {
      StopAdvances(m, e);
      StopAdds(m, e);
    } else {
      OtherAdvances(m, e);
      OtherAdds(m, e);
    }
  }

  lemma ReachedNext(events: seq<Event>, e: Event, id: nat, stage: Stage)
    requires Marks(e, id, stage) && (stage.Opened? || Reached(events, |events|, id, Before(stage)))
    ensures Reached(events + [e], |events| + 1, id, stage)
  {
    var more := events + [e];
    if !stage.Opened? { ReachedLater(events, more, |events|, id, Before(stage)); }
    assert Marks(more[|events|], id, stage);
  }

  lemma TrackStep(events: seq<Event>, m: Main, e: Event)
    requires PhaseOk(m) && OnTrack(events, m)
    ensures OnTrack(events + [e], Perform(m, e))
  {
    Moves(m, e);
    var t, more := Perform(m, e), events + [e];
    if t.operation.Some? && Due(t.state).Some? {
      var id, stage := t.operation.value, Due(t.state).value;
      if t.state == m.state { ReachedLater(events, more, |events|, id, stage); } else { ReachedNext(events, e, id, stage); }
    }
  }

  lemma EarnedStep(events: seq<Event>, m: Main, e: Event)
    requires PhaseOk(m) && OnTrack(events, m) && Earned(events, m.sets)
    ensures Earned(events + [e], Perform(m, e).sets)
  {
    Moves(m, e);
    EarnedLater(events, events + [e], m.sets);
    if m.state.Processing? && Works(m, e) && e.stopped == Delivered(true) {
      ReachedNext(events, e, e.id, Shown);
    }
  }

  lemma {:induction false} StoryAfter(events: seq<Event>)
    ensures OnTrack(events, After(events)) && Earned(events, After(events).sets)
  {
    if events != [] {
      var before, e := events[..|events| - 1], events[|events| - 1];
      StoryAfter(before);
      InvAfter(before);
      TrackStep(before, After(before), e);
      EarnedStep(before, After(before), e);
      assert before + [e] == events;
    }
  }

  lemma {:induction false} LoggedIsEarned(events: seq<Event>, log: Log, c: Change)
    requires Earned(events, log) && Logged(log, c) && c.to.Success?
    ensures c.owner.Some? && Reached(events, |events|, c.owner.value, Shown)
  {
    if log.change != c { LoggedIsEarned(events, log.before, c); }
  }

  /** Success is asked for only for an operation that was begun, recorded, asked to
      stop, whose capture was stopped, and whose text was delivered and shown: its
      events are there, in this order. */
  lemma SuccessIsEarned(events: seq<Event>, c: Change)
    requires Logged(After(events).sets, c) && c.to.Success?
    ensures c.owner.Some? && Reached(events, |events|, c.owner.value, Shown)
  {
    StoryAfter(events);
    LoggedIsEarned(events, After(events).sets, c);
  }
}
