/** The deadline of the batch worker is looked at before the request is encoded
    again, so it can pass before the worker is launched: exactly when it passes
    between the two. */
module WorkerLateLaunch {
  import opened Options
  import opened Worker

  /** The gate's look at the clock, which finds that there is time left. */
  predicate LooksInTime(s: Sys, a: Action) {
    a.Proceeds? && s.parent.BatchClock? && !s.env.expired
  }

  predicate Launches(s: Sys, a: Action) {
    a.Proceeds? && a.ok && s.parent.BatchLaunch?
  }

  /** The deadline passes at some step from `k` up to `i`. */
  ghost predicate ExpiresBetween(actions: seq<Action>, k: nat, i: nat)
    requires i <= |actions|
  {
    exists j :: k <= j < i && actions[j].Expire?
  }

  lemma ExpiryGrows(actions: seq<Action>, k: nat, i: nat)
    requires k <= i < |actions|
    ensures ExpiresBetween(actions, k, i + 1) <==> ExpiresBetween(actions, k, i) || actions[i].Expire?
  {
    if ExpiresBetween(actions, k, i + 1) {
      var j :| k <= j < i + 1 && actions[j].Expire?;
    }
  }

  predicate ClockMoves(s: Sys, a: Action, t: Sys) {
    && (t.env.expired <==> s.env.expired || a.Expire?)
    && (t.parent.BatchLaunch? ==> (s.parent.BatchLaunch? && !a.Proceeds?) || LooksInTime(s, a))
    && (t.batch.launched != s.batch.launched <==> Launches(s, a))
  }

  lemma SendClock(s: Sys, p: Parent, ok: bool)
    requires s.parent == p && InSend(p)
    ensures ClockMoves(s, Proceeds(ok), SendStep(s, p, ok))
  {}

  lemma RecvClockMoves(s: Sys, p: Parent, ok: bool)
    requires s.parent == p && InRecv(p)
    ensures ClockMoves(s, Proceeds(ok), RecvStep(s, p, ok))
  {}

  lemma FallbackClock(s: Sys, p: Parent, ok: bool)
    requires s.parent == p && !InSend(p) && !InRecv(p) && !p.Done?
    ensures ClockMoves(s, Proceeds(ok), FallbackStep(s, p, ok))
  {}

  lemma ReaderClock(s: Sys, r: Reader, ioError: bool)
    requires s.stream.reader == r
    ensures ClockMoves(s, Reads(ioError), ReaderStep(s, r, ioError))
  {}

  lemma ClockStep(s: Sys, a: Action)
    requires Enabled(s, a)
    ensures ClockMoves(s, a, Perform(s, a))
  {
    match a
    case Reads(ioError) => ReaderClock(s, s.stream.reader, ioError);
    case Proceeds(ok) =>
      var p := s.parent;
      if InSend(p) { SendClock(s, p, ok); }
      else if InRecv(p) { RecvClockMoves(s, p, ok); }
      else { FallbackClock(s, p, ok); }
    case _ =>
  }

  /** Before a launch there was a look at the clock that found time left, and
      whether there still is says only whether the deadline passed since. */
  lemma {:induction false} LookBefore(run: seq<Sys>, actions: seq<Action>, i: nat) returns (k: nat)
    requires IsRun(run, actions) && i < |run| && run[i].parent.BatchLaunch?
    ensures k < i && LooksInTime(run[k], actions[k])
    ensures run[i].env.expired <==> ExpiresBetween(actions, k, i)
  {
    ClockStep(run[i - 1], actions[i - 1]);
    if LooksInTime(run[i - 1], actions[i - 1]) {
      k := i - 1;
    } else {
      k := LookBefore(run, actions, i - 1);
      ExpiryGrows(actions, k, i - 1);
    }
  }

  /** A launch is late, after the deadline, exactly when the deadline passed between
      the gate's look at the clock and the launch. */
  lemma LaunchIsLateIff(run: seq<Sys>, actions: seq<Action>, i: nat)
    requires IsRun(run, actions) && i < |actions| && run[i + 1].batch.launched != run[i].batch.launched
    ensures Launches(run[i], actions[i])
    ensures exists k :: 0 <= k < i && LooksInTime(run[k], actions[k]) &&
              (run[i].env.expired <==> ExpiresBetween(actions, k, i))
  {
    ClockStep(run[i], actions[i]);
    var k := LookBefore(run, actions, i);
  }

  function S0(): Sys {
    Sys(Setup(false, false), Env([], false, false, false, false), false, false, None,
        Stream(Reader(Closed, [], false), [], None, None, false, false), BatchShutdown, 0, Batch(false, false, 0))
  }

  function S3(): Sys {
    S0().(batch := Batch(true, true, 0), parent := BatchLaunch, env := S0().env.(expired := true))
  }

  lemma GateDo(s: Sys) returns (t: Sys)
    requires Reachable(s) && (s.parent.BatchShutdown? || s.parent.BatchClock?)
    ensures t == FallbackStep(s, s.parent, true) && Reachable(t)
  {
    t := Perform(s, Proceeds(true));
    Reaches(s, Proceeds(true));
  }

  lemma LaunchDo(s: Sys)
    requires s.parent.BatchLaunch?
    ensures Enabled(s, Proceeds(true)) && Perform(s, Proceeds(true)).batch.launched == s.batch.launched + 1
  {}

  /** The gate is passed, and then the deadline. */
  lemma To3()
    ensures Reachable(S3())
  {
    InitialIsReachable(S0());
    var s := GateDo(S0());
    s := GateDo(s);
    Reaches(s, Expire);
    assert Perform(s, Expire) == S3();
  }

  lemma LaunchCanBeLate()
    ensures exists run: seq<Sys>, actions: seq<Action>, i: nat ::
              IsRun(run, actions) && i < |actions| && run[i].env.expired && run[i].batch.launched < run[i + 1].batch.launched
  {
    To3();
    var run: seq<Sys>, actions: seq<Action> :| IsRun(run, actions) && run[|run| - 1] == S3();
    LaunchDo(S3());
    Extends(run, actions, Proceeds(true));
    var t := Perform(S3(), Proceeds(true));
    var longer := run + [t];
    assert IsRun(longer, actions + [Proceeds(true)]);
    assert longer[|actions|] == S3() && longer[|actions| + 1] == t;
  }
}
