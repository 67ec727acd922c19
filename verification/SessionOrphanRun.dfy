/** A run in which an accepted startup cancel does not stop a delivery: a stop
    request for generation 1 outlives an early capture exit, a restart takes
    over its finish token, and it then finishes generation 2, whose startup
    cancel is still behind it in the queue. */
module SessionOrphanRun {
  import opened Options
  import opened Session

  lemma Do(s: Sys, action: Action) returns (t: Sys)
    requires Reachable(s) && Enabled(s, action)
    ensures t == Perform(s, action) && Reachable(t)
  {
    t := Perform(s, action);
    Reaches(s, action);
  }

  // One step of each part, with only that part's step function in sight.

  lemma CommandDo(s: Sys) returns (t: Sys)
    requires Reachable(s) && Free(s) && Where(s.loop).AtCommand?
    ensures t == CommandStep(s, s.loop, Succeeds) && Reachable(t)
  {
    t := Do(s, Loop(Succeeds));
  }

  lemma HeadDo(s: Sys) returns (t: Sys)
    requires Reachable(s) && Free(s) && Where(s.loop).AtHead?
    ensures t == HeadStep(s, Succeeds) && Reachable(t)
  {
    t := Do(s, Loop(Succeeds));
  }

  lemma StartDo(s: Sys) returns (t: Sys)
    requires Reachable(s) && Free(s) && Where(s.loop).AtStart?
    ensures t == StartStep(s, s.loop.start, s.loop.who, Succeeds) && Reachable(t)
  {
    t := Do(s, Loop(Succeeds));
  }

  lemma FinishDo(s: Sys) returns (t: Sys)
    requires Reachable(s) && Free(s) && Where(s.loop).AtFinish?
    ensures t == FinishStep(s, s.loop.finish, s.loop.stopper, Succeeds) && Reachable(t)
  {
    t := Do(s, Loop(Succeeds));
  }

  lemma TailDo(s: Sys) returns (t: Sys)
    requires Reachable(s) && Free(s) && Where(s.loop).AtTail? && Alive(s)
    ensures t == TailStep(s, s.loop) && Reachable(t)
  {
    t := Do(s, Loop(Succeeds));
  }

  lemma TickDo(s: Sys) returns (t: Sys)
    requires Reachable(s) && Free(s) && Where(s.loop).AtTick?
    ensures t == TickStep(s, s.loop, EarlyExit) && Reachable(t)
  {
    t := Do(s, Loop(EarlyExit));
  }

  lemma CallDo(s: Sys, c: nat) returns (t: Sys)
    requires Reachable(s) && c !in s.ops
    ensures t == s.(ops := s.ops[c := ToggleStatus(None)]) && Reachable(t)
  {
    t := Do(s, Call(c, ToggleStatus(None)));
  }

  lemma ToggleDo(s: Sys, c: nat) returns (t: Sys)
    requires Reachable(s) && c in s.ops && OpEnabled(s, c, s.ops[c]) && InToggle(s.ops[c])
    ensures var step := ToggleStep(s, c, s.ops[c]); t == step.sys.(ops := s.ops[c := step.op])
    ensures Reachable(t)
  {
    t := Do(s, Advance(c));
  }

  lemma CancelDo(s: Sys, c: nat) returns (t: Sys)
    requires Reachable(s) && c in s.ops && OpEnabled(s, c, s.ops[c]) && InCancel(s.ops[c])
    ensures var step := CancelStep(s, c, s.ops[c]); t == step.sys.(ops := s.ops[c := step.op])
    ensures Reachable(t)
  {
    t := Do(s, Advance(c));
  }

  lemma RestartDo(s: Sys, c: nat) returns (t: Sys)
    requires Reachable(s) && c in s.ops && OpEnabled(s, c, s.ops[c]) && InRestart(s.ops[c])
    ensures var step := RestartStep(s, c, s.ops[c]); t == step.sys.(ops := s.ops[c := step.op])
    ensures Reachable(t)
  {
    t := Do(s, Advance(c));
  }

  lemma ReplyDo(s: Sys, c: nat) returns (t: Sys)
    requires Reachable(s) && c in s.ops && OpEnabled(s, c, s.ops[c]) && (s.ops[c].Await? || s.ops[c].Release?)
    ensures var step := ConfigStep(s, c, s.ops[c]); t == step.sys.(ops := s.ops[c := step.op])
    ensures Reachable(t)
  {
    t := Do(s, Advance(c));
  }

  function S1(): Sys {
    Init.(
    gate := Gate(2, 4, map[2 := Client(0)], {2}, {}),
    queue := [Toggle(Idle, 0, 0)],
    ops := map[0 := Await(2)])
  }

  function S2(): Sys {
    S1().(
    queue := [], loop := InStart(CheckShutdown, ByToggle(0)), generation := 1, snapshot := Snapshot(Starting, 1),
    log := Log(Init.log.published + [Snapshot(Starting, 1)], []))
  }

  function S3(): Sys {
    S2().(
    loop := Head, active := true, snapshot := Snapshot(Recording, 1), replied := {0},
    log := Log(S2().log.published + [Snapshot(Recording, 1)], []))
  }

  function S4(): Sys {
    S3().(
    gate := Gate(5, 6, map[2 := Client(0), 5 := Client(1)], {2, 5}, {}),
    ops := map[0 := Done(Answered), 1 := ToggleVerify(Recording, 1, 5)])
  }

  function S5(): Sys {
    S4().(
    queue := [Toggle(Recording, 1, 1)], ops := S4().ops[1 := Await(5)],
    loop := Tail, active := false, terminal := true, snapshot := Snapshot(Error, 1),
    log := Log(S4().log.published + [Snapshot(Error, 1)], []))
  }

  function S6(): Sys {
    S5().(
    ticket := Ticket(Ready(1), Some(2), {1}, {}),
    queue := [Toggle(Recording, 1, 1), RestartReady], ops := S5().ops[2 := Done(Accepted)])
  }

  function S7(): Sys {
    S6().(
    gate := Gate(6, 8, S6().gate.issuer[6 := RunLoop], {2, 5, 6}, {5}),
    ticket := Ticket(Ready(1), Some(2), {1}, {1}),
    loop := InStart(Begin, ByRestart(Ready(1), 6)), terminal := false, snapshot := Snapshot(Idle, 1),
    log := Log(S6().log.published + [Snapshot(Idle, 1)], []))
  }

  function S8(): Sys {
    S7().(
    loop := InStart(AnnounceRecording, ByRestart(Ready(1), 6)), generation := 2, snapshot := Snapshot(Starting, 2),
    log := Log(S7().log.published + [Snapshot(Starting, 2)], []))
  }

  function S9(): Sys {
    S8().(
    startupCancelled := 2, cancels := {2}, ops := S8().ops[3 := Done(Accepted)],
    queue := [Toggle(Recording, 1, 1), RestartReady, CancelStartup(2)])
  }

  function S10(): Sys {
    S9().(
    gate := S9().gate.(admitted := ADMISSION_NONE), ticket := S9().ticket.(word := 0),
    loop := Head, active := true, snapshot := Snapshot(Recording, 2),
    log := Log(S9().log.published + [Snapshot(Recording, 2)], []))
  }

  function S11(): Sys {
    S10().(
    queue := [RestartReady, CancelStartup(2)],
    loop := InFinish(WorkerFinish, ByUser(1, 1)), active := false, snapshot := Snapshot(Processing, 2),
    log := Log(S10().log.published + [Snapshot(Stopping, 2), Snapshot(Processing, 2)], []))
  }

  function S12(): Sys {
    S11().(
    loop := InFinish(LoadShutdown(Success), ByUser(1, 1)), snapshot := Snapshot(Delivering, 2),
    log := Log(S11().log.published + [Snapshot(Delivering, 2)], [2]))
  }

  /** Call 0 is admitted from Idle and waits. */
  lemma To1()
    ensures Reachable(S1())
  {
    InitIsReachable();
    var s := Init;
    s := CallDo(s, 0);
    s := ToggleDo(s, 0);
    s := ToggleDo(s, 0);
    s := ToggleDo(s, 0);
    s := ToggleDo(s, 0);
    s := ToggleDo(s, 0);
    assert s == S1();
  }

  /** The loop starts generation 1, */
  lemma To2()
    ensures Reachable(S2())
  {
    To1();
    var s := S1();
    s := HeadDo(s);
    s := CommandDo(s);
    s := StartDo(s);
    s := StartDo(s);
    s := StartDo(s);
    assert s == S2();
  }

  /** which records. */
  lemma To3()
    ensures Reachable(S3())
  {
    To2();
    var s := S2();
    s := StartDo(s);
    s := StartDo(s);
    s := StartDo(s);
    s := StartDo(s);
    s := CommandDo(s);
    s := TailDo(s);
    assert s == S3();
  }

  /** Call 1 installs a finish token */
  lemma To4()
    ensures Reachable(S4())
  {
    To3();
    var s := S3();
    s := ReplyDo(s, 0);
    s := ReplyDo(s, 0);
    s := CallDo(s, 1);
    s := ToggleDo(s, 1);
    s := ToggleDo(s, 1);
    s := ToggleDo(s, 1);
    s := ToggleDo(s, 1);
    assert s == S4();
  }

  /** and sends its stop request just after the recorder was found dead. */
  lemma To5()
    ensures Reachable(S5())
  {
    To4();
    var s := S4();
    s := ToggleDo(s, 1);
    s := HeadDo(s);
    s := ToggleDo(s, 1);
    s := TickDo(s);
    s := TickDo(s);
    assert s == S5();
  }

  function S5a(): Sys {
    S5().(ticket := Ticket(Pending(1), Some(2), {}, {}), ops := S5().ops[2 := RestartMark(1)])
  }

  /** Call 2 reserves the restart word for generation 1 */
  lemma To5a()
    ensures Reachable(S5a())
  {
    To5();
    var s := S5();
    s := CallDo(s, 2);
    s := ToggleDo(s, 2);
    s := RestartDo(s, 2);
    s := RestartDo(s, 2);
    assert s == S5a();
  }

  /** and marks its request READY, */
  lemma To6()
    ensures Reachable(S6())
  {
    To5a();
    var s := S5a();
    s := RestartDo(s, 2);
    s := RestartDo(s, 2);
    assert s == S6();
  }

  function S6a(): Sys {
    S6().(loop := TailIssue(Ready(1), 5))
  }

  /** which the loop finds */
  lemma To6a()
    ensures Reachable(S6a())
  {
    To6();
    var s := S6();
    s := TailDo(s);
    s := TailDo(s);
    s := TailDo(s);
    assert s == S6a();
  }

  /** and which takes over the finish token of call 1 */
  lemma To7()
    ensures Reachable(S7())
  {
    To6a();
    var s := S6a();
    s := TailDo(s);
    s := TailDo(s);
    s := TailDo(s);
    assert s == S7();
  }

  function S7a(): Sys {
    S8().(loop := InStart(WorkerStart, ByRestart(Ready(1), 6)))
  }

  /** and begins generation 2, */
  lemma To7a()
    ensures Reachable(S7a())
  {
    To7();
    var s := S7();
    s := StartDo(s);
    s := StartDo(s);
    assert s == S7a();
  }

  /** up to its last look at the cancel word. */
  lemma To8()
    ensures Reachable(S8())
  {
    To7a();
    var s := S7a();
    s := StartDo(s);
    s := StartDo(s);
    s := StartDo(s);
    assert s == S8();
  }

  function S8a(): Sys {
    S8().(lock := Some(3), ops := S8().ops[3 := CancelStore(2)])
  }

  /** Call 3 finds Starting, under the lock, */
  lemma To8a()
    ensures Reachable(S8a())
  {
    To8();
    var s := S8();
    s := CallDo(s, 3);
    s := ToggleDo(s, 3);
    s := CancelDo(s, 3);
    assert s == S8a();
  }

  /** and cancels the startup, behind the old stop request. */
  lemma To9()
    ensures Reachable(S9())
  {
    To8a();
    var s := S8a();
    s := CancelDo(s, 3);
    s := CancelDo(s, 3);
    assert s == S9();
  }

  /** Readiness wins the race, */
  lemma To10()
    ensures Reachable(S10())
  {
    To9();
    var s := S9();
    s := StartDo(s);
    s := StartDo(s);
    s := TailDo(s);
    s := TailDo(s);
    assert s == S10();
  }

  /** the old stop request finishes generation 2, */
  lemma To11()
    ensures Reachable(S11())
  {
    To10();
    var s := S10();
    s := HeadDo(s);
    s := CommandDo(s);
    s := FinishDo(s);
    s := FinishDo(s);
    s := FinishDo(s);
    assert s == S11();
  }

  /** and its transcript is delivered. */
  lemma To12()
    ensures Reachable(S12())
  {
    To11();
    var s := S11();
    s := FinishDo(s);
    s := FinishDo(s);
    s := FinishDo(s);
    assert s == S12();
  }

  /** An accepted startup cancel can be followed by a delivery. */
  lemma CancelCanBeOvertaken()
    ensures exists run: seq<Sys>, actions: seq<Action> :: IsRun(run, actions) &&
              var s := run[|run| - 1];
              2 in s.cancels && 2 in s.log.delivered && s.gate.displaced == {5}
  {
    To12();
    var run, actions :| IsRun(run, actions) && run[|run| - 1] == S12();
  }
}
