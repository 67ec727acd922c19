/** The coordinator object: its methods change its fields in place, one event of
    the step model at a time. */
module CoordinatorActor {
  import opened Options
  import opened Dictation
  import opened Coordinator
  import opened CoordinatorRuns

  class Actor {
    const machine: StateMachine
    var operationID: Option<nat>
    var nextID: nat
    var capture: Option<nat>
    var beginTask: Option<nat>
    var task: Option<nat>
    var begins: map<nat, Begin>
    var stops: map<nat, Stop>
    var resets: nat
    var waits: seq<Wait>
    ghost var abandoned: set<nat>
    ghost var sets: Log

    ghost function View(): Main
      reads this, machine
    {
      Main(machine.state, operationID, nextID, capture, beginTask, task, begins, stops, resets, waits, abandoned, sets)
    }

    constructor ()
      ensures View() == Launch && fresh(machine)
    {
      machine := new StateMachine();
      operationID, nextID, capture, beginTask, task := None, 0, None, None, None;
      begins, stops, resets, waits := map[], map[], 0, [];
      abandoned, sets := {}, Nothing;
    }

    method SetState(to: DictationState, ghost owner: Option<nat>, ghost current: Option<nat>)
      modifies `sets, machine
      ensures View() == Set(old(View()), to, owner, current)
    {
      sets := Then(sets, Change(machine.state, to, owner, current));
      var _ := machine.Transition(to);
    }

    method FinishOperation(id: nat, to: DictationState, ghost owner: Option<nat>)
      modifies this, machine
      ensures View() == Finish(old(View()), id, to, owner)
    {
      if operationID != Some(id) { return; }
      SetState(to, owner, operationID);
      operationID := None;
      resets := resets + 1;
    }

    method Complete(id: nat)
      modifies this, machine
      ensures View() == CompleteAndHide(old(View()), id)
    {
      if operationID != Some(id) { return; }
      operationID := None;
      SetState(Idle, Some(id), Some(id));
    }

    method StopNow()
      modifies this, machine
      ensures View() == StopRecording(old(View()))
    {
      if operationID.None? || machine.state != Recording { return; }
      var id := operationID.value;
      SetState(Stopping, None, operationID);
      stops := stops[id := Stop(Capturing, false)];
      task := Some(id);
    }

    method TriggerNow(loads: bool)
      modifies this, machine
      ensures View() == Trigger(old(View()), loads)
    {
      match machine.state
      case Idle =>
        if operationID.Some? { return; }
        var id := nextID;
        operationID := Some(id);
        nextID := nextID + 1;
        if !loads {
          FinishOperation(id, Error, None);
          return;
        }
        begins := begins[id := Begin(Asking, false)];
        beginTask := Some(id);
      case Recording => StopNow();
      case _ =>
    }

    method BeginAtPoint(id: nat, at: BeginAt)
      requires id in begins
      modifies `begins
      ensures View() == BeginGoes(old(View()), id, at)
    {
      begins := begins[id := begins[id].(at := at)];
    }

    method StopAtPoint(id: nat, at: StopAt)
      requires id in stops
      modifies `stops
      ensures View() == StopGoes(old(View()), id, at)
    {
      stops := stops[id := stops[id].(at := at)];
    }

    method ResumeBegin(id: nat, result: BeginResult)
      requires id in begins
      modifies this, machine
      ensures View() == BeginResumes(old(View()), id, old(begins)[id], result)
    {
      var mine := operationID == Some(id) && !begins[id].cancelled;
      match begins[id].at
      case Asking =>
        if !mine {
          BeginAtPoint(id, Begun);
        } else if result.Fails? {
          BeginAtPoint(id, Begun);
          FinishOperation(id, Error, Some(id));
        } else if !result.more {
          BeginAtPoint(id, Begun);
          capture := None;
          FinishOperation(id, Error, Some(id));
        } else {
          capture := Some(id);
          SetState(Starting, Some(id), operationID);
          BeginAtPoint(id, Checking);
        }
      case Checking =>
        if result.Fails? {
          capture := None;
          BeginAtPoint(id, Begun);
          FinishOperation(id, Error, Some(id));
        } else if !mine {
          capture := None;
          BeginAtPoint(id, Begun);
        } else if result.more {
          BeginAtPoint(id, Launching);
        } else {
          SetState(Recording, Some(id), operationID);
          BeginAtPoint(id, Begun);
        }
      case Launching =>
        if result.Fails? {
          capture := None;
          BeginAtPoint(id, Begun);
          FinishOperation(id, Error, Some(id));
        } else if !mine {
          BeginAtPoint(id, Dropping);
        } else {
          SetState(Recording, Some(id), operationID);
          BeginAtPoint(id, Begun);
        }
      case Dropping =>
        capture := None;
        BeginAtPoint(id, Begun);
      case Begun =>
    }

    method GiveUp(id: nat, owns: bool, cancelled: bool)
      requires id in stops
      modifies this, machine
      ensures View() == StopGivesUp(old(View()), id, owns, cancelled)
    {
      StopAtPoint(id, Ended);
      if owns && operationID == Some(id) && !cancelled { FinishOperation(id, Error, Some(id)); }
    }

    method StopCapture(id: nat, result: StopResult)
      requires id in stops && stops[id].at.Capturing?
      modifies this, machine
      ensures View() == StopResumes(old(View()), id, old(stops)[id], result)
    {
      var cancelled := stops[id].cancelled;
      var mine := operationID == Some(id) && !cancelled;
      if result.Captured? {
        if cancelled || capture.None? { return; }
        capture := None;
        if !mine {
          StopAtPoint(id, Ended);
          return;
        }
        SetState(Processing, Some(id), operationID);
        if result.configured {
          StopAtPoint(id, Helping);
        } else {
          StopAtPoint(id, Ended);
          FinishOperation(id, Error, Some(id));
        }
      } else {
        if mine { capture := None; }
        if result.CaptureThrows? && result.streams {
          StopAtPoint(id, Closing(mine));
        } else {
          GiveUp(id, mine, cancelled);
        }
      }
    }

    method ResumeStop(id: nat, result: StopResult)
      requires id in stops
      modifies this, machine
      ensures View() == StopResumes(old(View()), id, old(stops)[id], result)
    {
      var cancelled := stops[id].cancelled;
      match stops[id].at
      case Capturing => StopCapture(id, result);
      case Closing(owns) => GiveUp(id, owns, cancelled);
      case Helping =>
        StopAtPoint(id, Ended);
        if result.Interrupted? {
          FinishOperation(id, Cancelled, Some(id));
        } else if result.HelperFails? {
          FinishOperation(id, Error, Some(id));
        } else if operationID == Some(id) && !cancelled {
          if result.NoSpeech? {
            Complete(id);
            return;
          }
          SetState(Delivering, Some(id), operationID);
          if result.Delivered? && !result.shown {
            Complete(id);
          } else {
            FinishOperation(id, if result.Delivered? then Success else Error, Some(id));
          }
        }
      case Ended =>
    }

    method CancelTask()
      modifies `stops, `task
      ensures View() == old(View()).(
        stops := if old(task).Some? && old(task).value in old(stops)
                 then old(stops)[old(task).value := old(stops)[old(task).value].(cancelled := true)] else old(stops),
        task := None)
    {
      if task.Some? && task.value in stops {
        stops := stops[task.value := stops[task.value].(cancelled := true)];
      }
      task := None;
    }

    method CancelNow()
      modifies this, machine
      ensures View() == Cancel(old(View()))
    {
      var hadOperation := operationID.Some?;
      var wait := Wait(beginTask, task);
      operationID := None;
      if beginTask.Some? && beginTask.value in begins {
        begins := begins[beginTask.value := begins[beginTask.value].(cancelled := true)];
      }
      beginTask := None;
      CancelTask();
      capture := None;
      if hadOperation && Active(machine.state) {
        SetState(Cancelled, None, None);
        waits := waits + [wait];
      }
    }

    method AudioCaptureFailed()
      modifies this, machine
      ensures View() == CaptureFails(old(View()))
    {
      if operationID.None? || !(machine.state.Starting? || machine.state.Recording? || machine.state.Stopping?) { return; }
      var id := operationID.value;
      CancelTask();
      capture := None;
      abandoned := if machine.state.Starting? then abandoned + {id} else abandoned;
      FinishOperation(id, Error, None);
    }

    method ResetNow()
      modifies this, machine
      ensures View() == ResetFires(old(View()))
    {
      if resets == 0 { return; }
      resets := resets - 1;
      if Terminal(machine.state) { SetState(Idle, None, operationID); }
    }

    method EndCleanup(i: nat)
      modifies this
      ensures View() == CleanupEnds(old(View()), i)
    {
      if i >= |waits| { return; }
      var w := waits[i];
      if w.begin.Some? && w.begin.value in begins && !begins[w.begin.value].at.Begun? { return; }
      if w.work.Some? && w.work.value in stops && !stops[w.work.value].at.Ended? { return; }
      waits := waits[..i] + waits[i + 1..];
      if machine.state.Cancelled? { resets := resets + 1; }
    }

    method Handle(e: Event)
      modifies this, machine
      ensures View() == Perform(old(View()), e)
    {
      match e
      case Triggered(loads) => TriggerNow(loads);
      case TimerFired => StopNow();
      case BeginResumed(id, result) => if id in begins { ResumeBegin(id, result); }
      case StopResumed(id, result) => if id in stops { ResumeStop(id, result); }
      case CancelAsked => CancelNow();
      case CaptureFailed => AudioCaptureFailed();
      case ResetFired => ResetNow();
      case CleanupEnded(i) => EndCleanup(i);
    }

    /** The main actor's queue, drained in order: the object follows the step model. */
    method HandleAll(events: seq<Event>)
      requires View() == Launch
      modifies this, machine
      ensures View() == After(events)
    {
      assert events[..|events|] == events;
      for i := 0 to |events|
        invariant View() == After(events[..i])
      {
        Handle(events[i]);
        AfterOneMore(events[..i], events[i]);
        assert events[..i + 1] == events[..i] + [events[i]];
      }
    }
  }
}
