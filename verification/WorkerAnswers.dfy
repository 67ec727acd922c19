/** What must have gone well before `finish` answers, and how soon it ends. */
module WorkerAnswers {
  import opened Bytes
  import opened Options
  import opened Worker
  import opened WorkerTheorems

  /** The step of `finish` finds what it hopes for. */
  predicate Goes(s: Sys, a: Action) {
    a.Proceeds? &&
    match s.parent
    case BatchShutdown => !s.env.shutdown
    case BatchClock => !s.env.expired
    case _ => a.ok
  }

  /** In some step before the n-th `finish` was at `p` and found what it hoped for. */
  ghost predicate Passed(run: seq<Sys>, actions: seq<Action>, n: nat, p: Parent)
    requires n <= |actions| && n <= |run|
  {
    exists k :: 0 <= k < n && run[k].parent == p && Goes(run[k], actions[k])
  }

  lemma PassedLater(run: seq<Sys>, actions: seq<Action>, n: nat, p: Parent)
    requires n < |actions| && n < |run|
    requires Passed(run, actions, n, p) || (run[n].parent == p && Goes(run[n], actions[n]))
    ensures Passed(run, actions, n + 1, p)
  {
    if Passed(run, actions, n, p) {
      var k :| 0 <= k < n && run[k].parent == p && Goes(run[k], actions[k]);
      assert 0 <= k < n + 1;
    }
  }

  /** What `finish` must have passed to be where it is. */
  function Needs(p: Parent): set<Parent> {
    match p
    case Reap(line) => {Decode(line)}
    case BatchClock => {BatchShutdown}
    case BatchLaunch => {BatchShutdown, BatchClock}
    case BatchWait => {BatchShutdown, BatchClock, BatchLaunch}
    case Done(Streamed(line)) => {Decode(line), Reap(line)}
    case Done(Batched) => {BatchShutdown, BatchClock, BatchLaunch, BatchWait}
    case _ => {}
  }

  /** What it must have passed to have launched a batch worker. */
  function Required(s: Sys): set<Parent> {
    Needs(s.parent) + if s.batch.launched > 0 then {BatchShutdown, BatchClock, BatchLaunch} else {}
  }

  lemma SendRequires(s: Sys, p: Parent, ok: bool)
    requires s.parent == p && InSend(p)
    ensures Required(SendStep(s, p, ok)) <= Required(s)
  {}

  lemma RecvRequires(s: Sys, p: Parent, ok: bool)
    requires s.parent == p && InRecv(p)
    ensures Required(RecvStep(s, p, ok)) <= Required(s) + if Goes(s, Proceeds(ok)) then {p} else {}
  {}

  lemma FallbackRequires(s: Sys, p: Parent, ok: bool)
    requires s.parent == p && !InSend(p) && !InRecv(p) && !p.Done?
    ensures Required(FallbackStep(s, p, ok)) <= Required(s) + if Goes(s, Proceeds(ok)) then {p} else {}
  {}

  lemma RequiresStep(s: Sys, a: Action)
    requires Enabled(s, a)
    ensures Required(Perform(s, a)) <= Required(s) + if Goes(s, a) then {s.parent} else {}
  {
    match a
    case Reads(ioError) =>
      ReaderSparesParent(s, s.stream.reader, ioError);
      ReaderSparesBatch(s, s.stream.reader, ioError);
    case Proceeds(ok) =>
      if InSend(s.parent) { SendRequires(s, s.parent, ok); }
      else if InRecv(s.parent) { RecvRequires(s, s.parent, ok); }
      else { FallbackRequires(s, s.parent, ok); }
    case _ =>
  }

  lemma ReaderSparesBatch(s: Sys, r: Reader, ioError: bool)
    ensures ReaderStep(s, r, ioError).batch == s.batch
  {}

  lemma {:induction false} RequiredIsPassed(run: seq<Sys>, actions: seq<Action>, i: nat, p: Parent)
    requires IsRun(run, actions) && i < |run| && p in Required(run[i])
    ensures Passed(run, actions, i, p)
  {
    if i > 0 {
      RequiresStep(run[i - 1], actions[i - 1]);
      if p in Required(run[i - 1]) { RequiredIsPassed(run, actions, i - 1, p); }
      PassedLater(run, actions, i - 1, p);
    }
  }

  /** An answer from the stream was decoded, and its worker exited cleanly; an answer of
      a batch worker came from one that was launched and answered. */
  lemma AnswersAreGood(run: seq<Sys>, actions: seq<Action>, i: nat)
    requires IsRun(run, actions) && i < |run|
    ensures run[i].parent.Done? && run[i].parent.result.Streamed? ==>
      && Passed(run, actions, i, Decode(run[i].parent.result.bytes))
      && Passed(run, actions, i, Reap(run[i].parent.result.bytes))
    ensures run[i].parent == Done(Batched) ==> Passed(run, actions, i, BatchLaunch) && Passed(run, actions, i, BatchWait)
  {
    if run[i].parent.Done? && run[i].parent.result.Streamed? {
      RequiredIsPassed(run, actions, i, Decode(run[i].parent.result.bytes));
      RequiredIsPassed(run, actions, i, Reap(run[i].parent.result.bytes));
    }
    if run[i].parent == Done(Batched) {
      RequiredIsPassed(run, actions, i, BatchLaunch);
      RequiredIsPassed(run, actions, i, BatchWait);
    }
  }

  /** A batch worker was launched only after a look at the shutdown flag that found it
      clear, and one at the clock that found time left. */
  lemma LaunchesPassGate(run: seq<Sys>, actions: seq<Action>, i: nat)
    requires IsRun(run, actions) && i < |run| && run[i].batch.launched > 0
    ensures Passed(run, actions, i, BatchShutdown) && Passed(run, actions, i, BatchClock)
    ensures Passed(run, actions, i, BatchLaunch)
  {
    RequiredIsPassed(run, actions, i, BatchShutdown);
    RequiredIsPassed(run, actions, i, BatchClock);
    RequiredIsPassed(run, actions, i, BatchLaunch);
  }

  // --------------------------------------------------------------- how soon

  /** How many steps `finish` takes at most once the deadline has passed. */
  function LateLeft(p: Parent): nat {
    match p
    case TryRecv => 17
    case WriteBody => 16
    case StoreAllowed => 15
    case WriteNewline => 14
    case WriteFailed => 13
    case RecvEvent(_) => 12
    case RecvShutdown(_) => 11
    case RecvClock(_) => 10
    case RecvFailed(_) => 9
    case ConcludeEvent => 8
    case Retry => 7
    case BatchShutdown => 6
    case BatchClock => 5
    case BatchLaunch => 4
    case BatchWait => 3
    case Decode(_) => 2
    case Reap(_) => 1
    case Conclude => 1
    case Done(_) => 0
  }

  /** After the deadline `finish` waits no more, whatever the worker does. */
  lemma DeadlineEnds(s: Sys, ok: bool)
    requires s.env.expired && Enabled(s, Proceeds(ok))
    ensures LateLeft(Perform(s, Proceeds(ok)).parent) < LateLeft(s.parent)
  {
    if InSend(s.parent) { DeadlineEndsSend(s, s.parent, ok); }
    else if InRecv(s.parent) { DeadlineEndsRecv(s, s.parent, ok); }
    else { DeadlineEndsFallback(s, s.parent, ok); }
  }

  lemma DeadlineEndsSend(s: Sys, p: Parent, ok: bool)
    requires s.env.expired && s.parent == p && InSend(p)
    ensures LateLeft(SendStep(s, p, ok).parent) < LateLeft(p)
  {}

  lemma DeadlineEndsRecv(s: Sys, p: Parent, ok: bool)
    requires s.env.expired && s.parent == p && InRecv(p)
    ensures LateLeft(RecvStep(s, p, ok).parent) < LateLeft(p)
  {}

  lemma DeadlineEndsFallback(s: Sys, p: Parent, ok: bool)
    requires s.env.expired && s.parent == p && !InSend(p) && !InRecv(p) && !p.Done?
    ensures LateLeft(FallbackStep(s, p, ok).parent) < LateLeft(p)
  {}

  /** How many steps `recv_until` takes at most after shutdown. */
  function WaitLeft(p: Parent): nat {
    match p
    case RecvClock(_) => 5
    case RecvEvent(_) => 4
    case RecvShutdown(_) => 3
    case RecvFailed(_) => 2
    case Decode(_) => 2
    case Reap(_) => 1
    case _ => 0
  }

  /** After shutdown `finish` no longer waits for a result. */
  lemma ShutdownEndsWaiting(s: Sys, ok: bool)
    requires s.env.shutdown && InRecv(s.parent)
    ensures WaitLeft(Perform(s, Proceeds(ok)).parent) < WaitLeft(s.parent)
  {}
}
