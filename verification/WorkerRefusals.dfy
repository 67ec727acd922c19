/** When `finish` fails, and when it does so without having tried a batch worker. */
module WorkerRefusals {
  import opened Bytes
  import opened Options
  import opened Worker
  import opened WorkerTheorems

  /** What was answered to `finish` so far: that the batch worker could not be
      launched, and that anything it asked for went wrong. */
  datatype Failures = Failures(launch: bool, any: bool)

  const Clean := Failures(false, false)

  predicate Asks(p: Parent) {
    p.WriteBody? || p.WriteNewline? || p.Decode? || p.Reap? || p.BatchLaunch? || p.BatchWait?
  }

  function Note(f: Failures, p: Parent, a: Action): Failures {
    Failures(f.launch || (p.BatchLaunch? && a == Proceeds(false)), f.any || (Asks(p) && a == Proceeds(false)))
  }

  /** The user has given up, or the deadline has passed. */
  predicate Hurried(s: Sys) {
    s.env.shutdown || s.env.expired
  }

  /** The stream sent something that is no answer. */
  predicate Spoiled(st: Stream) {
    || st.early
    || (st.second.Some? && st.second.value.Failed?)
    || (st.second.Some? && st.second.value.Frame? &&
        (st.second.value.bytes == [] || |st.second.value.bytes| > RESULT_MAX))
  }

  /** The stream has ended without a byte, and nothing of it is left to receive. */
  predicate Mute(s: Sys) {
    s.stream.taken == [] && s.stream.reader.at.Closed? && s.channel.None?
  }

  /** Why `finish` gives up the stream. */
  predicate Abandons(s: Sys, f: Failures) {
    Hurried(s) || f.any || Mute(s)
  }

  /** Why `finish` may return an error without having launched a batch worker. */
  predicate NoLaunch(s: Sys, f: Failures) {
    s.setup.localStream || Hurried(s) || s.stream.taken != [] || f.launch
  }

  /** Why `finish` may return an error at all. */
  predicate NoAnswer(s: Sys, f: Failures) {
    (s.setup.localStream && s.stream.taken == [] && s.stream.reader.at.Closed?) || Hurried(s) || Spoiled(s.stream) || f.any
  }

  predicate Excused(s: Sys, f: Failures) {
    match s.parent
    case TryRecv => !s.allowed
    case WriteFailed => f.any
    case RecvFailed(seen) => if seen then Hurried(s) || Spoiled(s.stream) else Abandons(s, f)
    case Conclude => Abandons(s, f)
    case ConcludeEvent => Abandons(s, f)
    case Done(Refused) => NoAnswer(s, f) && (s.batch.launched == 0 ==> NoLaunch(s, f))
    case _ => true
  }

  lemma SendExcused(s: Sys, p: Parent, ok: bool, f: Failures)
    requires s.parent == p && Inv(s) && Excused(s, f) && InSend(p)
    ensures Excused(SendStep(s, p, ok), Note(f, p, Proceeds(ok)))
  {}

  lemma RecvExcused(s: Sys, p: Parent, ok: bool, f: Failures)
    requires s.parent == p && Inv(s) && Excused(s, f) && InRecv(p)
    ensures Excused(RecvStep(s, p, ok), Note(f, p, Proceeds(ok)))
  {}

  lemma FallbackExcused(s: Sys, p: Parent, ok: bool, f: Failures)
    requires s.parent == p && Inv(s) && Excused(s, f) && !InSend(p) && !InRecv(p) && !p.Done?
    ensures Excused(FallbackStep(s, p, ok), Note(f, p, Proceeds(ok)))
  {}

  /** What the reader and the worker do takes no reason away. */
  predicate Grows(s: Sys, t: Sys) {
    && t.parent == s.parent && t.setup == s.setup && t.batch == s.batch && t.allowed == s.allowed
    && (Hurried(s) ==> Hurried(t)) && (Spoiled(s.stream) ==> Spoiled(t.stream)) && (Mute(s) ==> Mute(t))
    && (s.stream.taken != [] ==> t.stream.taken != []) && (s.stream.reader.at.Closed? ==> t.stream == s.stream)
  }

  lemma ReaderGrows(s: Sys, r: Reader, ioError: bool)
    requires s.stream.reader == r && Enabled(s, Reads(ioError))
    ensures Grows(s, ReaderStep(s, r, ioError))
  {}

  lemma GrowsExcused(s: Sys, t: Sys, f: Failures)
    requires Excused(s, f) && Grows(s, t)
    ensures Excused(t, f)
  {}

  lemma ExcusedStep(s: Sys, a: Action, f: Failures)
    requires Inv(s) && Excused(s, f) && Enabled(s, a)
    ensures Excused(Perform(s, a), Note(f, s.parent, a))
  {
    match a
    case Reads(ioError) =>
      ReaderGrows(s, s.stream.reader, ioError);
      GrowsExcused(s, Perform(s, a), f);
    case Proceeds(ok) =>
      if InSend(s.parent) { SendExcused(s, s.parent, ok, f); }
      else if InRecv(s.parent) { RecvExcused(s, s.parent, ok, f); }
      else { FallbackExcused(s, s.parent, ok, f); }
    case _ => GrowsExcused(s, Perform(s, a), f);
  }

  /** A question of `finish` is answered badly: when it launches the batch worker, or any. */
  predicate GoesWrong(s: Sys, a: Action, launching: bool) {
    a == Proceeds(false) && if launching then s.parent.BatchLaunch? else Asks(s.parent)
  }

  /** One was before the n-th step. */
  ghost predicate Failed(run: seq<Sys>, actions: seq<Action>, n: nat, launching: bool)
    requires n <= |actions| && n <= |run|
  {
    exists k :: 0 <= k < n && GoesWrong(run[k], actions[k], launching)
  }

  lemma FailedLater(run: seq<Sys>, actions: seq<Action>, n: nat, launching: bool)
    requires n < |actions| && n < |run|
    ensures Failed(run, actions, n + 1, launching) <==>
              Failed(run, actions, n, launching) || GoesWrong(run[n], actions[n], launching)
  {
    if Failed(run, actions, n, launching) {
      var k :| 0 <= k < n && GoesWrong(run[k], actions[k], launching);
      assert 0 <= k < n + 1;
    }
  }

  lemma {:induction false} ExcusedRun(run: seq<Sys>, actions: seq<Action>, i: nat)
    requires IsRun(run, actions) && i < |run|
    ensures Excused(run[i], Failures(Failed(run, actions, i, true), Failed(run, actions, i, false)))
  {
    if i > 0 {
      ExcusedRun(run, actions, i - 1);
      InvRun(run, actions, i - 1);
      FailedLater(run, actions, i - 1, true);
      FailedLater(run, actions, i - 1, false);
      var failures := Failures(Failed(run, actions, i - 1, true), Failed(run, actions, i - 1, false));
      ExcusedStep(run[i - 1], actions[i - 1], failures);
    }
  }

  /** `finish` returns an error without having launched the batch worker only for a
      local stream, after shutdown or the deadline, once the worker has written
      something, or because the launch failed. */
  lemma FallbackIsTried(run: seq<Sys>, actions: seq<Action>, i: nat)
    requires IsRun(run, actions) && i < |run|
    requires run[i].parent == Done(Refused) && run[i].batch.launched == 0
    ensures run[i].setup.localStream || run[i].env.shutdown || run[i].env.expired || run[i].stream.taken != [] ||
            exists k :: 0 <= k < i && run[k].parent.BatchLaunch? && actions[k] == Proceeds(false)
  {
    ExcusedRun(run, actions, i);
    if Failed(run, actions, i, true) {
      var k :| 0 <= k < i && GoesWrong(run[k], actions[k], true);
      assert run[k].parent.BatchLaunch?;
    }
  }

  /** The first line is longer than the reader allows. */
  predicate Overlong(taken: seq<Byte>) {
    |taken| >= RESULT_MAX + 2 && NEWLINE !in taken[..RESULT_MAX + 2]
  }

  /** The reader gives up the first frame only at a fault or for its length. */
  predicate Cut(st: Stream, faulty: bool) {
    && (st.second.Some? && st.second.value.Failed? ==> faulty || Overlong(st.taken))
    && (st.first.Some? && st.first.value.Started? && st.second.None? && st.reader.at.SendFailed? ==>
          faulty || Overlong(st.taken))
  }

  lemma CutStep(s: Sys, r: Reader, ioError: bool, faulty: bool)
    requires s.stream.reader == r && StreamOk(s.stream, s.allowed) && Cut(s.stream, faulty)
    ensures Cut(ReaderStep(s, r, ioError).stream, faulty || ioError)
  {
    if r.at.Take? { CutAtTake(s, r, faulty); }
  }

  lemma CutAtTake(s: Sys, r: Reader, faulty: bool)
    requires s.stream.reader == r && r.at.Take? && StreamOk(s.stream, s.allowed) && Cut(s.stream, faulty)
    ensures Cut(ReaderStep(s, r, false).stream, faulty)
  {}

  /** A read of the output failed before the n-th step. */
  ghost predicate Faulty(run: seq<Sys>, actions: seq<Action>, n: nat)
    requires n <= |actions| && n <= |run|
  {
    exists k :: 0 <= k < n && actions[k] == Reads(true)
  }

  lemma {:induction false} CutRun(run: seq<Sys>, actions: seq<Action>, i: nat)
    requires IsRun(run, actions) && i < |run|
    ensures Cut(run[i].stream, Faulty(run, actions, i))
  {
    if i > 0 {
      CutRun(run, actions, i - 1);
      InvRun(run, actions, i - 1);
      var s, a := run[i - 1], actions[i - 1];
      var faulty := Faulty(run, actions, i - 1);
      if faulty {
        var k :| 0 <= k < i - 1 && actions[k] == Reads(true);
        assert 0 <= k < i && actions[k] == Reads(true);
      }
      if a.Reads? { CutStep(s, s.stream.reader, a.ioError, faulty); } else { OthersSpareStream(s, a); }
    }
  }

  lemma OthersSpareStream(s: Sys, a: Action)
    requires !a.Reads?
    ensures Perform(s, a).stream == s.stream
  {}

  /** The worker's output is no answer: it came too early, its first line is empty or
      too long. */
  ghost predicate NoLine(st: Stream) {
    || st.early || Overlong(st.taken)
    || exists line :: IsLine(st.taken, line, st.reader.at.Closed?) && (line == [] || |line| > RESULT_MAX)
  }

  /** `finish` returns an error only for a silent local stream, after shutdown or the
      deadline, for output that is no answer, for a read that failed, or because
      something it asked for did: writing, decoding, reaping, launching, or the batch
      worker itself. */
  lemma ErrorHasCause(run: seq<Sys>, actions: seq<Action>, i: nat)
    requires IsRun(run, actions) && i < |run| && run[i].parent == Done(Refused)
    ensures var s := run[i];
            || (s.setup.localStream && s.stream.taken == []) || s.env.shutdown || s.env.expired || NoLine(s.stream)
            || Faulty(run, actions, i) || exists k :: 0 <= k < i && GoesWrong(run[k], actions[k], false)
  {
    ExcusedRun(run, actions, i);
    InvRun(run, actions, i);
    CutRun(run, actions, i);
    var st := run[i].stream;
    if Spoiled(st) && !st.early && st.second.value.Frame? {
      assert IsLine(st.taken, st.second.value.bytes, st.reader.at.Closed?);
    }
  }
}
