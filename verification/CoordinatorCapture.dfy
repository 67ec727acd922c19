/** Who owns the microphone capture, in every order of events. */
module CoordinatorCapture {
  import opened Options
  import opened Coordinator
  import opened CoordinatorTheorems

  /** The begin task has started the capture and not ended. */
  predicate PastStart(at: BeginAt) {
    at.Checking? || at.Launching? || at.Dropping?
  }

  predicate CaptureOk(m: Main) {
    m.capture.Some? ==>
      && m.operation == m.capture
      && (m.state.Starting? || m.state.Recording? || (m.state.Stopping? && StopIs(m, m.capture.value, Capturing)))
  }

  /** A begin task that outlives its operation is awaited by the cancel that ended
      it, or its operation was ended by a capture failure. */
  predicate BeginOk(m: Main, id: nat)
    requires id in m.begins
  {
    PastStart(m.begins[id].at) ==>
      || (m.operation == Some(id) && m.state.Starting?)
      || id in m.abandoned
      || (|m.waits| == 1 && m.waits[0].begin == Some(id))
  }

  /** A stop task that still has to stop the capture is the current operation's, or
      has been told of its cancellation. */
  predicate StopOk(m: Main, id: nat)
    requires id in m.stops
  {
    m.stops[id] == Stop(Capturing, false) ==> m.operation == Some(id) && m.state.Stopping?
  }

  predicate AbandonedOk(m: Main) {
    forall id <- m.abandoned :: id < m.next && m.operation != Some(id)
  }

  predicate TasksOk(m: Main) {
    && CaptureOk(m) && AbandonedOk(m)
    && (forall id :: id in m.begins ==> BeginOk(m, id)) && (forall id :: id in m.stops ==> StopOk(m, id))
  }

  lemma TriggerTasks(m: Main, loads: bool)
    requires PhaseOk(m) && TasksOk(m)
    ensures TasksOk(Trigger(m, loads)) && TasksOk(StopRecording(m))
  {
    var t, r := Trigger(m, loads), StopRecording(m);
    forall id | id in t.begins ensures BeginOk(t, id) { if id in m.begins { assert BeginOk(m, id); } }
    forall id | id in r.begins ensures BeginOk(r, id) { assert BeginOk(m, id); }
    forall id | id in t.stops ensures StopOk(t, id) { if id in m.stops { assert StopOk(m, id); } }
    forall id | id in r.stops ensures StopOk(r, id) { if id in m.stops { assert StopOk(m, id); } }
  }

  lemma AskedTasks(m: Main, id: nat, begin: Begin, result: BeginResult)
    requires PhaseOk(m) && TasksOk(m) && id in m.begins && m.begins[id] == begin && begin.at.Asking?
    ensures TasksOk(BeginResumes(m, id, begin, result))
  {
    var t := BeginResumes(m, id, begin, result);
    assert BeginOk(m, id);
    forall j | j in t.begins ensures BeginOk(t, j) { assert BeginOk(m, j); }
    forall j | j in t.stops ensures StopOk(t, j) { assert StopOk(m, j); }
  }

  lemma CheckedTasks(m: Main, id: nat, begin: Begin, result: BeginResult)
    requires PhaseOk(m) && TasksOk(m) && id in m.begins && m.begins[id] == begin && begin.at.Checking?
    ensures TasksOk(BeginResumes(m, id, begin, result))
  {
    var t := BeginResumes(m, id, begin, result);
    assert BeginOk(m, id);
    forall j | j in t.begins ensures BeginOk(t, j) { assert BeginOk(m, j); }
    forall j | j in t.stops ensures StopOk(t, j) { assert StopOk(m, j); }
  }

  lemma LaunchedTasks(m: Main, id: nat, begin: Begin, result: BeginResult)
    requires PhaseOk(m) && TasksOk(m) && id in m.begins && m.begins[id] == begin
    requires begin.at.Launching? || begin.at.Dropping? || begin.at.Begun?
    ensures TasksOk(BeginResumes(m, id, begin, result))
  {
    var t := BeginResumes(m, id, begin, result);
    assert BeginOk(m, id);
    forall j | j in t.begins ensures BeginOk(t, j) { assert BeginOk(m, j); }
    forall j | j in t.stops ensures StopOk(t, j) { assert StopOk(m, j); }
  }

  lemma BeginTasks(m: Main, id: nat, begin: Begin, result: BeginResult)
    requires PhaseOk(m) && TasksOk(m) && id in m.begins && m.begins[id] == begin
    ensures TasksOk(BeginResumes(m, id, begin, result))
  {
    match begin.at
    case Asking => AskedTasks(m, id, begin, result);
    case Checking => CheckedTasks(m, id, begin, result);
    case _ => LaunchedTasks(m, id, begin, result);
  }

  lemma CapturingTasks(m: Main, id: nat, stop: Stop, result: StopResult)
    requires PhaseOk(m) && TasksOk(m) && id in m.stops && m.stops[id] == stop && stop.at.Capturing?
    ensures TasksOk(StopResumes(m, id, stop, result))
  {
    var t := StopResumes(m, id, stop, result);
    assert StopOk(m, id);
    forall j | j in t.begins ensures BeginOk(t, j) { assert BeginOk(m, j); }
    forall j | j in t.stops ensures StopOk(t, j) { assert StopOk(m, j); }
  }

  lemma ClosingTasks(m: Main, id: nat, stop: Stop, result: StopResult)
    requires PhaseOk(m) && TasksOk(m) && id in m.stops && m.stops[id] == stop && (stop.at.Closing? || stop.at.Ended?)
    ensures TasksOk(StopResumes(m, id, stop, result))
  {
    var t := StopResumes(m, id, stop, result);
    assert StopOk(m, id);
    forall j | j in t.begins ensures BeginOk(t, j) { assert BeginOk(m, j); }
    forall j | j in t.stops ensures StopOk(t, j) { assert StopOk(m, j); }
  }

  lemma HelpingTasks(m: Main, id: nat, stop: Stop, result: StopResult)
    requires PhaseOk(m) && TasksOk(m) && id in m.stops && m.stops[id] == stop && stop.at.Helping?
    ensures TasksOk(StopResumes(m, id, stop, result))
  {
    var t := StopResumes(m, id, stop, result);
    assert StopOk(m, id);
    forall j | j in t.begins ensures BeginOk(t, j) { assert BeginOk(m, j); }
    forall j | j in t.stops ensures StopOk(t, j) { assert StopOk(m, j); }
  }

  lemma StopTasks(m: Main, id: nat, stop: Stop, result: StopResult)
    requires PhaseOk(m) && TasksOk(m) && id in m.stops && m.stops[id] == stop
    ensures TasksOk(StopResumes(m, id, stop, result))
  {
    match stop.at
    case Capturing => CapturingTasks(m, id, stop, result);
    case Helping => HelpingTasks(m, id, stop, result);
    case _ => ClosingTasks(m, id, stop, result);
  }

  lemma CancelTasksOk(m: Main)
    requires PhaseOk(m) && TasksOk(m)
    ensures TasksOk(Cancel(m))
  {
    var t := Cancel(m);
    forall j | j in t.begins ensures BeginOk(t, j) { assert BeginOk(m, j); }
    forall j | j in t.stops ensures StopOk(t, j) { assert StopOk(m, j); }
  }

  lemma FailureTasks(m: Main)
    requires PhaseOk(m) && TasksOk(m)
    ensures TasksOk(CaptureFails(m))
  {
    var t := CaptureFails(m);
    forall j | j in t.begins ensures BeginOk(t, j) { assert BeginOk(m, j); }
    forall j | j in t.stops ensures StopOk(t, j) { assert StopOk(m, j); }
  }

  lemma ResetTasks(m: Main)
    requires PhaseOk(m) && TasksOk(m)
    ensures TasksOk(ResetFires(m))
  {
    var t := ResetFires(m);
    forall j | j in t.begins ensures BeginOk(t, j) { assert BeginOk(m, j); }
    forall j | j in t.stops ensures StopOk(t, j) { assert StopOk(m, j); }
  }

  lemma CleanupTasks(m: Main, i: nat)
    requires PhaseOk(m) && TasksOk(m)
    ensures TasksOk(CleanupEnds(m, i))
  {
    var t := CleanupEnds(m, i);
    forall j | j in t.begins ensures BeginOk(t, j) { assert BeginOk(m, j); }
    forall j | j in t.stops ensures StopOk(t, j) { assert StopOk(m, j); }
  }

  /** No begin task that a capture failure left running is past its start. */
  predicate NoneLoose(m: Main) {
    forall id :: id in m.begins && id in m.abandoned ==> !PastStart(m.begins[id].at)
  }

  /** Operation `id` is current and has the capture from its start to its stop. */
  predicate Held(m: Main, id: nat) {
    && m.operation == Some(id) && NoneLoose(m)
    && (m.state.Starting? || m.state.Recording? || (m.state.Stopping? && StopIs(m, id, Capturing)) ==>
          m.capture == Some(id))
  }

  predicate Kept(t: Main, id: nat) {
    t.operation == Some(id) ==> Held(t, id)
  }

  lemma TriggerHolds(m: Main, loads: bool, id: nat)
    requires PhaseOk(m) && TasksOk(m) && Held(m, id)
    ensures Kept(Trigger(m, loads), id) && Kept(StopRecording(m), id)
  {}

  lemma BeginHolds(m: Main, j: nat, begin: Begin, result: BeginResult, id: nat)
    requires PhaseOk(m) && TasksOk(m) && j in m.begins && m.begins[j] == begin && Held(m, id)
    ensures Kept(BeginResumes(m, j, begin, result), id)
  {
    assert BeginOk(m, j);
  }

  lemma StopHolds(m: Main, j: nat, stop: Stop, result: StopResult, id: nat)
    requires PhaseOk(m) && TasksOk(m) && j in m.stops && m.stops[j] == stop && Held(m, id)
    ensures Kept(StopResumes(m, j, stop, result), id)
  {
    assert StopOk(m, j);
  }

  lemma OthersHold(m: Main, i: nat, id: nat)
    requires PhaseOk(m) && TasksOk(m) && Held(m, id)
    ensures Kept(Cancel(m), id) && Kept(CaptureFails(m), id)
    ensures Kept(ResetFires(m), id) && Kept(CleanupEnds(m, i), id)
  {}

  /** An operation that has the capture keeps it, through whatever happens next. */
  lemma StepHolds(m: Main, e: Event, id: nat)
    requires PhaseOk(m) && TasksOk(m) && Held(m, id)
    ensures Kept(Perform(m, e), id)
  {
    match e
    case Triggered(loads) => TriggerHolds(m, loads, id);
    case TimerFired => TriggerHolds(m, true, id);
    case BeginResumed(j, result) => if j in m.begins { BeginHolds(m, j, m.begins[j], result, id); }
    case StopResumed(j, result) => if j in m.stops { StopHolds(m, j, m.stops[j], result, id); }
    case CleanupEnded(i) => OthersHold(m, i, id);
    case _ => OthersHold(m, 0, id);
  }

  /** Operations are numbered in order, so one that has ended does not come back. */
  lemma EndedStays(m: Main, e: Event, id: nat)
    requires PhaseOk(m) && id < m.next && m.operation != Some(id)
    ensures var t := Perform(m, e); id < t.next && t.operation != Some(id)
  {
    if e.BeginResumed? { EndedStaysBegin(m, e, id); }
    else if e.StopResumed? { EndedStaysStop(m, e, id); }
  }

  lemma EndedStaysBegin(m: Main, e: Event, id: nat)
    requires PhaseOk(m) && id < m.next && m.operation != Some(id) && e.BeginResumed?
    ensures var t := Perform(m, e); id < t.next && t.operation != Some(id)
  {}

  lemma EndedStaysStop(m: Main, e: Event, id: nat)
    requires PhaseOk(m) && id < m.next && m.operation != Some(id) && e.StopResumed?
    ensures var t := Perform(m, e); id < t.next && t.operation != Some(id)
  {}
}
