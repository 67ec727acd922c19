/** What the coordinator keeps in every order of events. */
module CoordinatorTheorems {
  import opened Options
  import opened Dictation
  import opened Coordinator

  predicate BeginIs(m: Main, id: nat, at: BeginAt) {
    id in m.begins && m.begins[id] == Begin(at, false)
  }

  predicate StopIs(m: Main, id: nat, at: StopAt) {
    id in m.stops && m.stops[id] == Stop(at, false)
  }

  predicate BeginOver(m: Main, id: nat) {
    id in m.begins && m.begins[id].at.Begun?
  }

  /** Where the tasks of the current operation are in each state. */
  predicate OperationOk(m: Main, id: nat) {
    && id < m.next
    && match m.state
       case Idle => BeginIs(m, id, Asking) && m.beginTask == Some(id) && id !in m.stops
       case Starting =>
         (BeginIs(m, id, Checking) || BeginIs(m, id, Launching)) && m.beginTask == Some(id) && id !in m.stops
       case Recording => BeginOver(m, id) && id !in m.stops
       case Stopping =>
         BeginOver(m, id) && (StopIs(m, id, Capturing) || StopIs(m, id, Closing(true))) && m.task == Some(id)
       case Processing => BeginOver(m, id) && StopIs(m, id, Helping) && m.task == Some(id)
       case _ => false
  }

  predicate Resting(s: DictationState) {
    s.Idle? || Terminal(s)
  }

  /** Between operations the state rests, and each terminal state has exactly one
      reset, or one cleanup that will ask for it, still to come. */
  predicate PhaseOk(m: Main) {
    && (match m.operation case Some(id) => OperationOk(m, id) case None => Resting(m.state))
    && m.resets + |m.waits| == (if Terminal(m.state) then 1 else 0)
    && (m.waits != [] ==> m.state.Cancelled?)
    && (forall id :: id in m.begins ==> id < m.next)
    && (forall id :: id in m.stops ==> id < m.next)
  }

  /** The change is an edge, and a task asks for it only while its operation is current. */
  predicate ChangeOk(c: Change) {
    CanTransition(c.from, c.to) && (c.owner.Some? ==> c.current == c.owner)
  }

  /** Every change asked for was one, and together they lead from Idle to `state`. */
  predicate LogOk(sets: Log, state: DictationState) {
    match sets
    case Nothing => state.Idle?
    case Then(before, change) => ChangeOk(change) && change.to == state && LogOk(before, change.from)
  }

  lemma StoppingKeeps(m: Main)
    requires PhaseOk(m) && LogOk(m.sets, m.state)
    ensures PhaseOk(StopRecording(m)) && LogOk(StopRecording(m).sets, StopRecording(m).state)
  {}

  lemma TriggerKeeps(m: Main, loads: bool)
    requires PhaseOk(m) && LogOk(m.sets, m.state)
    ensures PhaseOk(Trigger(m, loads)) && LogOk(Trigger(m, loads).sets, Trigger(m, loads).state)
  {
    StoppingKeeps(m);
  }

  lemma AskedKeeps(m: Main, id: nat, begin: Begin, result: BeginResult)
    requires PhaseOk(m) && LogOk(m.sets, m.state) && id in m.begins && m.begins[id] == begin && begin.at.Asking?
    ensures var t := BeginResumes(m, id, begin, result); PhaseOk(t) && LogOk(t.sets, t.state)
  {}

  lemma CheckedKeeps(m: Main, id: nat, begin: Begin, result: BeginResult)
    requires PhaseOk(m) && LogOk(m.sets, m.state) && id in m.begins && m.begins[id] == begin && begin.at.Checking?
    ensures var t := BeginResumes(m, id, begin, result); PhaseOk(t) && LogOk(t.sets, t.state)
  {}

  lemma LaunchedKeeps(m: Main, id: nat, begin: Begin, result: BeginResult)
    requires PhaseOk(m) && LogOk(m.sets, m.state) && id in m.begins && m.begins[id] == begin
    requires !begin.at.Asking? && !begin.at.Checking?
    ensures var t := BeginResumes(m, id, begin, result); PhaseOk(t) && LogOk(t.sets, t.state)
  {}

  lemma BeginKeeps(m: Main, id: nat, begin: Begin, result: BeginResult)
    requires PhaseOk(m) && LogOk(m.sets, m.state) && id in m.begins && m.begins[id] == begin
    ensures var t := BeginResumes(m, id, begin, result); PhaseOk(t) && LogOk(t.sets, t.state)
  {
    match begin.at
    case Asking => AskedKeeps(m, id, begin, result);
    case Checking => CheckedKeeps(m, id, begin, result);
    case _ => LaunchedKeeps(m, id, begin, result);
  }

  lemma CapturedKeeps(m: Main, id: nat, stop: Stop, result: StopResult)
    requires PhaseOk(m) && LogOk(m.sets, m.state) && id in m.stops && m.stops[id] == stop
    requires stop.at.Capturing? && result.Captured?
    ensures var t := StopResumes(m, id, stop, result); PhaseOk(t) && LogOk(t.sets, t.state)
  {}

  lemma ThrownKeeps(m: Main, id: nat, stop: Stop, result: StopResult)
    requires PhaseOk(m) && LogOk(m.sets, m.state) && id in m.stops && m.stops[id] == stop
    requires stop.at.Capturing? && !result.Captured?
    ensures var t := StopResumes(m, id, stop, result); PhaseOk(t) && LogOk(t.sets, t.state)
  {}

  lemma ClosedKeeps(m: Main, id: nat, stop: Stop, result: StopResult)
    requires PhaseOk(m) && LogOk(m.sets, m.state) && id in m.stops && m.stops[id] == stop && stop.at.Closing?
    ensures var t := StopResumes(m, id, stop, result); PhaseOk(t) && LogOk(t.sets, t.state)
  {}

  lemma HelpedKeeps(m: Main, id: nat, stop: Stop, result: StopResult)
    requires PhaseOk(m) && LogOk(m.sets, m.state) && id in m.stops && m.stops[id] == stop && stop.at.Helping?
    ensures var t := StopResumes(m, id, stop, result); PhaseOk(t) && LogOk(t.sets, t.state)
  {}

  lemma StopKeeps(m: Main, id: nat, stop: Stop, result: StopResult)
    requires PhaseOk(m) && LogOk(m.sets, m.state) && id in m.stops && m.stops[id] == stop
    ensures var t := StopResumes(m, id, stop, result); PhaseOk(t) && LogOk(t.sets, t.state)
  {
    match stop.at
    case Capturing =>
      if result.Captured? { CapturedKeeps(m, id, stop, result); } else { ThrownKeeps(m, id, stop, result); }
    case Closing(_) => ClosedKeeps(m, id, stop, result);
    case Helping => HelpedKeeps(m, id, stop, result);
    case Ended =>
  }

  lemma CancelKeeps(m: Main)
    requires PhaseOk(m) && LogOk(m.sets, m.state)
    ensures PhaseOk(Cancel(m)) && LogOk(Cancel(m).sets, Cancel(m).state)
  {}

  lemma FailureKeeps(m: Main)
    requires PhaseOk(m) && LogOk(m.sets, m.state)
    ensures PhaseOk(CaptureFails(m)) && LogOk(CaptureFails(m).sets, CaptureFails(m).state)
  {}

  lemma ResetKeeps(m: Main)
    requires PhaseOk(m) && LogOk(m.sets, m.state)
    ensures PhaseOk(ResetFires(m)) && LogOk(ResetFires(m).sets, ResetFires(m).state)
  {}

  lemma CleanupKeeps(m: Main, i: nat)
    requires PhaseOk(m) && LogOk(m.sets, m.state)
    ensures PhaseOk(CleanupEnds(m, i)) && LogOk(CleanupEnds(m, i).sets, CleanupEnds(m, i).state)
  {}
}
