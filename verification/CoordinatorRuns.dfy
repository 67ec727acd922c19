/** The coordinator's guarantees over whole runs, in any order of events. */
module CoordinatorRuns {
  import opened Options
  import opened Dictation
  import opened Coordinator
  import opened CoordinatorTheorems
  import opened CoordinatorCapture

  predicate Inv(m: Main) {
    PhaseOk(m) && LogOk(m.sets, m.state) && TasksOk(m)
  }

  lemma InvStep(m: Main, e: Event)
    requires Inv(m)
    ensures Inv(Perform(m, e))
  {
    match e
    case Triggered(loads) => TriggerKeeps(m, loads); TriggerTasks(m, loads);
    case TimerFired => StoppingKeeps(m); TriggerTasks(m, true);
    case BeginResumed(id, result) =>
      if id in m.begins { BeginKeeps(m, id, m.begins[id], result); BeginTasks(m, id, m.begins[id], result); }
    case StopResumed(id, result) =>
      if id in m.stops { StopKeeps(m, id, m.stops[id], result); StopTasks(m, id, m.stops[id], result); }
    case CancelAsked => CancelKeeps(m); CancelTasksOk(m);
    case CaptureFailed => FailureKeeps(m); FailureTasks(m);
    case ResetFired => ResetKeeps(m); ResetTasks(m);
    case CleanupEnded(i) => CleanupKeeps(m, i); CleanupTasks(m, i);
  }

  /** The coordinator after the events, in this order. */
  function After(events: seq<Event>): Main {
    if events == [] then Launch else Perform(After(events[..|events| - 1]), events[|events| - 1])
  }

  lemma {:induction false} InvAfter(events: seq<Event>)
    ensures Inv(After(events))
  {
    if events != [] {
      InvAfter(events[..|events| - 1]);
      InvStep(After(events[..|events| - 1]), events[|events| - 1]);
    }
  }

  predicate Logged(log: Log, c: Change) {
    log.Then? && (log.change == c || Logged(log.before, c))
  }

  lemma {:induction false} LoggedIsOk(log: Log, state: DictationState, c: Change)
    requires LogOk(log, state) && Logged(log, c)
    ensures ChangeOk(c)
  {
    if log.change != c { LoggedIsOk(log.before, log.change.from, c); }
  }

  /** Every state the coordinator ever asks its machine for is a legal edge, and a
      continuation of an operation asks only while that operation is current. */
  lemma EverySetIsLegal(events: seq<Event>, c: Change)
    requires Logged(After(events).sets, c)
    ensures CanTransition(c.from, c.to)
    ensures c.owner.Some? ==> c.current == c.owner
  {
    InvAfter(events);
    LoggedIsOk(After(events).sets, After(events).state, c);
  }

  /** A continuation of any other operation changes neither the state nor the
      operation, and asks for nothing. */
  lemma StaleTasksStay(m: Main, id: nat, begun: BeginResult, stopped: StopResult)
    requires m.operation != Some(id)
    ensures var t := Perform(m, BeginResumed(id, begun));
            t.state == m.state && t.operation == m.operation && t.sets == m.sets && t.resets == m.resets
    ensures var t := Perform(m, StopResumed(id, stopped));
            t.state == m.state && t.operation == m.operation && t.sets == m.sets && t.resets == m.resets
  {}

  /** Each terminal state is left by its own reset: there is exactly one to come,
      by itself or from a cleanup, and none outlives the state it was made for. */
  lemma ResetsMatch(events: seq<Event>)
    ensures var m := After(events);
            && m.resets + |m.waits| == (if Terminal(m.state) then 1 else 0)
            && (m.resets > 0 ==> Perform(m, ResetFired).state == Idle)
            && (m.waits != [] ==> m.state == Cancelled)
  {
    InvAfter(events);
  }

  /** An operation is current exactly through the active states, and before the
      first of them; all others rest. */
  lemma OperationSpansStates(events: seq<Event>)
    ensures var m := After(events);
            && (m.operation.None? ==> m.state.Idle? || Terminal(m.state))
            && (m.operation.Some? ==> !Terminal(m.state) && !m.state.Delivering?)
  {
    InvAfter(events);
  }

  /** A running capture belongs to the current operation. */
  lemma CaptureIsCurrent(events: seq<Event>)
    ensures var m := After(events); m.capture.Some? ==> m.operation == m.capture
  {
    InvAfter(events);
  }

  lemma StepGrows(m: Main, e: Event)
    ensures m.next <= Perform(m, e).next
  {}

  lemma {:induction false} NextGrows(events: seq<Event>, more: seq<Event>)
    ensures After(events).next <= After(events + more).next
  {
    if more == [] {
      assert events + more == events;
    } else {
      NextGrows(events, more[..|more| - 1]);
      AfterLast(events, more);
      StepGrows(After(events + more[..|more| - 1]), more[|more| - 1]);
    }
  }

  /** The capture runs from its start until its operation stops it: if no begin task
      that a capture failure left running is past its start while the operation is
      still asking for the microphone, nothing takes its capture away later. */
  lemma {:induction false} CaptureIsKept(events: seq<Event>, more: seq<Event>, id: nat)
    requires After(events).operation == Some(id) && After(events).state.Idle? && NoneLoose(After(events))
    requires After(events + more).operation == Some(id)
    ensures Held(After(events + more), id)
  {
    if more == [] {
      assert events + more == events;
    } else {
      var before := more[..|more| - 1];
      var m := After(events + before);
      InvAfter(events + before);
      AfterLast(events, more);
      if m.operation != Some(id) {
        InvAfter(events);
        NextGrows(events, before);
        EndedStays(m, more[|more| - 1], id);
      }
      CaptureIsKept(events, before, id);
      StepHolds(m, more[|more| - 1], id);
    }
  }

  lemma SplitLast(events: seq<Event>, more: seq<Event>)
    requires more != []
    ensures events + more == events + more[..|more| - 1] + [more[|more| - 1]]
  {}

  lemma AfterLast(events: seq<Event>, more: seq<Event>)
    requires more != []
    ensures After(events + more) == Perform(After(events + more[..|more| - 1]), more[|more| - 1])
  {
    SplitLast(events, more);
    AfterOneMore(events + more[..|more| - 1], more[|more| - 1]);
  }

  /** A stop task never touches the capture of another operation. */
  lemma StaleStopSparesCapture(events: seq<Event>, id: nat, result: StopResult)
    requires After(events).operation != Some(id)
    ensures Perform(After(events), StopResumed(id, result)).capture == After(events).capture
  {
    InvAfter(events);
    var m := After(events);
    if id in m.stops { assert StopOk(m, id); }
  }

  /** A begin task of another operation takes the running capture away exactly when
      a capture failure has left that task running, and it either comes back from
      its preflight or its cleanup, or its launch fails. */
  lemma BeginIntrudesIff(events: seq<Event>, id: nat, result: BeginResult)
    requires After(events).operation != Some(id)
    ensures var m := After(events);
            Perform(m, BeginResumed(id, result)).capture != m.capture <==>
              && id in m.abandoned && m.capture.Some? && id in m.begins
              && (m.begins[id].at.Checking? || m.begins[id].at.Dropping? || (m.begins[id].at.Launching? && result.Fails?))
  {
    InvAfter(events);
    var m := After(events);
    if id in m.begins { assert BeginOk(m, id); }
  }

  lemma AfterOneMore(events: seq<Event>, e: Event)
    ensures After(events + [e]) == Perform(After(events), e)
  {
    assert (events + [e])[..|events|] == events;
  }

  /** An operation starts, and its microphone is lost while its helper is checked. */
  function Failed(): seq<Event> {
    [Triggered(true)] + [BeginResumed(0, Continues(true))] + [CaptureFailed]
  }

  lemma FailedState()
    ensures var m := After(Failed());
            && m.state == Error && m.operation == None && m.next == 1 && m.resets == 1 && m.begins == map[0 := Begin(Checking, false)]
  {
    AfterOneMore([], Triggered(true));
    assert [] + [Triggered(true)] == [Triggered(true)];
    AfterOneMore([Triggered(true)], BeginResumed(0, Continues(true)));
    AfterOneMore([Triggered(true)] + [BeginResumed(0, Continues(true))], CaptureFailed);
  }

  /** Then another starts. */
  function Restarted(): seq<Event> {
    Failed() + [ResetFired] + [Triggered(true)] + [BeginResumed(1, Continues(true))]
  }

  /** An abandoned begin task does intrude: the first one's check returns only now,
      and the capture of the second operation is gone while it goes on starting. The
      reset comes five seconds after the failure, so the check must outlast them:
      its probe has a deadline of two, but validating the executable has none. */
  lemma AbandonedBeginIntrudes()
    ensures var m := After(Restarted());
            && m.state == Starting && m.operation == Some(1) && m.capture == Some(1)
            && var t := Perform(m, BeginResumed(0, Continues(false)));
               t.state == Starting && t.operation == Some(1) && t.capture == None
  {
    FailedState();
    AfterOneMore(Failed(), ResetFired);
    AfterOneMore(Failed() + [ResetFired], Triggered(true));
    AfterOneMore(Failed() + [ResetFired] + [Triggered(true)], BeginResumed(1, Continues(true)));
  }
}
