/** The macOS coordinator on its main actor: what runs between two suspensions of
    `begin`, `stop` or a cleanup task is one event; triggers, cancels, capture
    failures and delayed resets are the others. Events come in any order. */
module Coordinator {
  import opened Options
  import opened Dictation

  /** Where a begin task is suspended. */
  datatype BeginAt = Asking | Checking | Launching | Dropping | Begun
  datatype Begin = Begin(at: BeginAt, cancelled: bool)

  /** Where a stop task is suspended; `owns` as computed when the capture failed. */
  datatype StopAt = Capturing | Closing(owns: bool) | Helping | Ended
  datatype Stop = Stop(at: StopAt, cancelled: bool)

  /** A cancel's cleanup task, waiting for the tasks it cancelled. */
  datatype Wait = Wait(begin: Option<nat>, work: Option<nat>)

  /** A state change asked of the machine, on behalf of a task of `owner` if any,
      while `current` was the operation. */
  datatype Change = Change(from: DictationState, to: DictationState, owner: Option<nat>, current: Option<nat>)

  datatype Log = Nothing | Then(before: Log, change: Change)

  datatype Main = Main(
    state: DictationState,
    operation: Option<nat>,
    next: nat,
    capture: Option<nat>,       // the operation whose capture is running
    beginTask: Option<nat>,
    task: Option<nat>,
    begins: map<nat, Begin>,
    stops: map<nat, Stop>,
    resets: nat,                // delayed resets not yet fired
    waits: seq<Wait>,
    abandoned: set<nat>,        // history: operations ended by a capture failure while starting
    sets: Log                   // history: every `set`, legal or not
  )

  const Launch: Main := Main(Idle, None, 0, None, None, None, map[], map[], 0, [], {}, Nothing)

  function Set(m: Main, to: DictationState, owner: Option<nat>, current: Option<nat>): Main {
    m.(state := if CanTransition(m.state, to) then to else m.state,
       sets := Then(m.sets, Change(m.state, to, owner, current)))
  }

  function Finish(m: Main, id: nat, to: DictationState, owner: Option<nat>): Main {
    if m.operation != Some(id) then m
    else Set(m, to, owner, m.operation).(operation := None, resets := m.resets + 1)
  }

  function CompleteAndHide(m: Main, id: nat): Main {
    if m.operation != Some(id) then m else Set(m.(operation := None), Idle, Some(id), m.operation)
  }

  function BeginGoes(m: Main, id: nat, at: BeginAt): Main
    requires id in m.begins
  {
    m.(begins := m.begins[id := m.begins[id].(at := at)])
  }

  function StopGoes(m: Main, id: nat, at: StopAt): Main
    requires id in m.stops
  {
    m.(stops := m.stops[id := m.stops[id].(at := at)])
  }

  /** `stop`, also when the maximum timer fires. */
  function StopRecording(m: Main): Main {
    if m.operation.None? || !m.state.Recording? then m
    else
      var id := m.operation.value;
      Set(m, Stopping, None, m.operation).(stops := m.stops[id := Stop(Capturing, false)], task := Some(id))
  }

  /** `loads` says whether the configuration does. */
  function Trigger(m: Main, loads: bool): Main {
    match m.state
    case Idle =>
      if m.operation.Some? then m
      else
        var t := m.(operation := Some(m.next), next := m.next + 1);
        if !loads then Finish(t, m.next, Error, None)
        else t.(begins := m.begins[m.next := Begin(Asking, false)], beginTask := Some(m.next))
    case Recording => StopRecording(m)
    case _ => m
  }

  /** How the call a begin task is suspended in returns. For the microphone
      question, `Fails` is a refusal and `Continues(false)` an error of `capture.start`. */
  datatype BeginResult = Fails | Continues(more: bool)

  /** A begin task resumes. */
  function BeginResumes(m: Main, id: nat, begin: Begin, result: BeginResult): Main
    requires id in m.begins
  {
    var mine := m.operation == Some(id) && !begin.cancelled;
    match begin.at
    case Asking =>
      var t := BeginGoes(m, id, Begun);
      if !mine then t
      else if result.Fails? then Finish(t, id, Error, Some(id))
      else if !result.more then Finish(t.(capture := None), id, Error, Some(id))
      else BeginGoes(Set(m.(capture := Some(id)), Starting, Some(id), m.operation), id, Checking)
    case Checking =>
      if result.Fails? then Finish(BeginGoes(m.(capture := None), id, Begun), id, Error, Some(id))
      else if !mine then BeginGoes(m.(capture := None), id, Begun)
      else if result.more then BeginGoes(m, id, Launching)
      else BeginGoes(Set(m, Recording, Some(id), m.operation), id, Begun)
    case Launching =>
      if result.Fails? then Finish(BeginGoes(m.(capture := None), id, Begun), id, Error, Some(id))
      else if !mine then BeginGoes(m, id, Dropping)
      else BeginGoes(Set(m, Recording, Some(id), m.operation), id, Begun)
    case Dropping => BeginGoes(m.(capture := None), id, Begun)
    case Begun => m
  }

  /** How the call a stop task is suspended in returns; `streams` says whether
      there is a stream to close. */
  datatype StopResult =
    | CaptureThrows(streams: bool)
    | Captured(configured: bool)
    | Closed
    | Interrupted
    | HelperFails
    | NoSpeech
    | Delivered(shown: bool)
    | NotDelivered

  /** A stop task whose capture could not be stopped, after the stream is closed. */
  function StopGivesUp(m: Main, id: nat, owns: bool, cancelled: bool): Main
    requires id in m.stops
  {
    var t := StopGoes(m, id, Ended);
    if owns && m.operation == Some(id) && !cancelled then Finish(t, id, Error, Some(id)) else t
  }

  /** A stop task resumes. Capture cannot be stopped when it has ended or when the
      task was cancelled; then it throws. */
  function StopResumes(m: Main, id: nat, stop: Stop, result: StopResult): Main
    requires id in m.stops
  {
    var mine := m.operation == Some(id) && !stop.cancelled;
    match stop.at
    case Capturing =>
      if result.Captured? then
        if stop.cancelled || m.capture.None? then m
        else
          var t := m.(capture := None);
          if !mine then StopGoes(t, id, Ended)
          else
            var p := Set(t, Processing, Some(id), m.operation);
            if result.configured then StopGoes(p, id, Helping) else Finish(StopGoes(p, id, Ended), id, Error, Some(id))
      else
        var t := if mine then m.(capture := None) else m;
        if result.CaptureThrows? && result.streams then StopGoes(t, id, Closing(mine))
        else StopGivesUp(t, id, mine, stop.cancelled)
    case Closing(owns) => StopGivesUp(m, id, owns, stop.cancelled)
    case Helping =>
      var t := StopGoes(m, id, Ended);
      if result.Interrupted? then Finish(t, id, Cancelled, Some(id))
      else if result.HelperFails? then Finish(t, id, Error, Some(id))
      else if !mine then t
      else if result.NoSpeech? then CompleteAndHide(t, id)
      else
        var d := Set(t, Delivering, Some(id), m.operation);
        if result.Delivered? && !result.shown then CompleteAndHide(d, id)
        else Finish(d, id, if result.Delivered? then Success else Error, Some(id))
    case Ended => m
  }

  function CancelTasks(m: Main): Main {
    m.(begins := if m.beginTask.Some? && m.beginTask.value in m.begins
                 then m.begins[m.beginTask.value := m.begins[m.beginTask.value].(cancelled := true)] else m.begins,
       stops := if m.task.Some? && m.task.value in m.stops
                then m.stops[m.task.value := m.stops[m.task.value].(cancelled := true)] else m.stops,
       beginTask := None, task := None)
  }

  function Cancel(m: Main): Main {
    var t := CancelTasks(m).(operation := None, capture := None);
    if m.operation.Some? && Active(m.state)
    then Set(t, Cancelled, None, None).(waits := m.waits + [Wait(m.beginTask, m.task)])
    else t
  }

  /** `audioCaptureFailed`: cancels the stop task, not the begin task. */
  function CaptureFails(m: Main): Main {
    if m.operation.None? || !(m.state.Starting? || m.state.Recording? || m.state.Stopping?) then m
    else
      var id := m.operation.value;
      var stops := if m.task.Some? && m.task.value in m.stops
                   then m.stops[m.task.value := m.stops[m.task.value].(cancelled := true)] else m.stops;
      Finish(m.(stops := stops, capture := None, task := None,
                abandoned := if m.state.Starting? then m.abandoned + {id} else m.abandoned),
             id, Error, None)
  }

  function ResetFires(m: Main): Main {
    if m.resets == 0 then m
    else
      var t := m.(resets := m.resets - 1);
      if Terminal(m.state) then Set(t, Idle, None, m.operation) else t
  }

  predicate Awaited(m: Main, w: Wait) {
    && (w.begin.Some? && w.begin.value in m.begins ==> m.begins[w.begin.value].at.Begun?)
    && (w.work.Some? && w.work.value in m.stops ==> m.stops[w.work.value].at.Ended?)
  }

  /** A cleanup task ends; it asks for a reset of its own. */
  function CleanupEnds(m: Main, i: nat): Main {
    if i >= |m.waits| || !Awaited(m, m.waits[i]) then m
    else
      var t := m.(waits := m.waits[..i] + m.waits[i + 1..]);
      if m.state.Cancelled? then t.(resets := m.resets + 1) else t
  }

  datatype Event =
    | Triggered(loads: bool)
    | TimerFired
    | BeginResumed(id: nat, begun: BeginResult)
    | StopResumed(id: nat, stopped: StopResult)
    | CancelAsked
    | CaptureFailed
    | ResetFired
    | CleanupEnded(i: nat)

  function Perform(m: Main, e: Event): Main {
    match e
    case Triggered(loads) => Trigger(m, loads)
    case TimerFired => StopRecording(m)
    case BeginResumed(id, result) => if id in m.begins then BeginResumes(m, id, m.begins[id], result) else m
    case StopResumed(id, result) => if id in m.stops then StopResumes(m, id, m.stops[id], result) else m
    case CancelAsked => Cancel(m)
    case CaptureFailed => CaptureFails(m)
    case ResetFired => ResetFires(m)
    case CleanupEnded(i) => CleanupEnds(m, i)
  }
}
