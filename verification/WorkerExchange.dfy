/** `finish` and the reader thread as the sequential code they are, over the flag and
    the channel they share. Between any two of its atomic operations the other
    thread, the worker, the user and the clock make any steps the model allows; and
    every operation shown is proved to be a step of the model. */
module WorkerExchange {
  import opened Bytes
  import opened Options
  import opened Worker
  import opened WorkerTheorems
  import opened WorkerRefusals

  datatype Thread = Finisher | ReaderThread

  predicate Foreign(me: Thread, a: Action) {
    if me.Finisher? then !a.Proceeds? else !a.Reads?
  }

  /** What is not `finish`'s stays: its own place, the flag, an event in the channel,
      and that the reader has gone. */
  predicate FinisherKept(s: Sys, t: Sys) {
    && t.parent == s.parent && t.allowed == s.allowed && t.newlineSent == s.newlineSent
    && t.received == s.received && t.batch == s.batch && t.setup == s.setup
    && (s.channel.Some? ==> t.channel == s.channel)
    && (Disconnected(s) ==> Disconnected(t))
  }

  /** The reader's place and what it has read stay, and room in the channel. */
  predicate ReaderKept(s: Sys, t: Sys) {
    && t.stream == s.stream && t.setup == s.setup
    && (s.channel.None? ==> t.channel.None?)
  }

  predicate Mine(me: Thread, s: Sys, t: Sys) {
    if me.Finisher? then FinisherKept(s, t) else ReaderKept(s, t)
  }

  lemma ReaderIsForeign(s: Sys, r: Reader, ioError: bool)
    requires s.stream.reader == r && Enabled(s, Reads(ioError))
    ensures var t := ReaderStep(s, r, ioError); FinisherKept(s, t) && |t.env.pipe| <= |s.env.pipe|
  {}

  lemma SendIsForeign(s: Sys, p: Parent, ok: bool)
    ensures ReaderKept(s, SendStep(s, p, ok)) && SendStep(s, p, ok).env == s.env
  {}

  lemma RecvIsForeign(s: Sys, p: Parent, ok: bool)
    ensures ReaderKept(s, RecvStep(s, p, ok)) && RecvStep(s, p, ok).env == s.env
  {}

  lemma FallbackIsForeign(s: Sys, p: Parent, ok: bool)
    ensures ReaderKept(s, FallbackStep(s, p, ok)) && FallbackStep(s, p, ok).env == s.env
  {}

  lemma ForeignStep(me: Thread, s: Sys, a: Action)
    requires Enabled(s, a) && Foreign(me, a)
    ensures Mine(me, s, Perform(s, a)) && |Perform(s, a).env.pipe| <= |s.env.pipe| + 1
  {
    match a
    case Reads(ioError) => ReaderIsForeign(s, s.stream.reader, ioError);
    case Proceeds(ok) =>
      SendIsForeign(s, s.parent, ok);
      RecvIsForeign(s, s.parent, ok);
      FallbackIsForeign(s, s.parent, ok);
    case _ =>
  }

  /** What will be answered to `finish`: whether its two writes go through, the frame
      decodes, the worker exits cleanly, and a batch worker starts and answers. */
  datatype Environment = Environment(body: bool, newline: bool, decodes: bool, clean: bool, spawns: bool, answers: bool)

  predicate Good(env: Environment) {
    env.body && env.newline && env.decodes && env.clean && env.spawns && env.answers
  }

  /** What has gone wrong since is what the environment says. */
  predicate Blames(before: Failures, after: Failures, env: Environment) {
    (after.launch ==> before.launch || !env.spawns) && (after.any ==> before.any || !Good(env))
  }

  lemma ReachableExcused(s: Sys, a: Action, f: Failures)
    requires Reachable(s) && Excused(s, f) && Enabled(s, a)
    ensures Excused(Perform(s, a), Note(f, s.parent, a))
  {
    ReachableInv(s);
    ExcusedStep(s, a, f);
  }

  /** A worker that failed without a byte has nothing more to say. */
  lemma FailureIsLast(s: Sys)
    requires Reachable(s) && s.parent.ConcludeEvent? && s.channel == Some(Failed(false))
    ensures s.stream.reader.at.Closed?
  {
    ReachableInv(s);
  }

  class Exchange {
    var sys: Sys
    var budget: nat    // how many steps the others still make
    ghost var failures: Failures

    ghost predicate Valid()
      reads this
    {
      Reachable(sys) && Excused(sys, failures)
    }

    /** No more bytes than this will ever be there to read. */
    ghost function Horizon(): nat
      reads this
    {
      |sys.env.pipe| + budget
    }

    /** A session that streams, or one that does not. */
    constructor (setup: Setup, streams: bool, stopped: bool, late: bool, others: nat)
      requires streams || !setup.localStream
      ensures Valid() && Initial(sys) && failures == Clean && sys.setup == setup
      ensures sys.parent == if streams then TryRecv else BatchShutdown
    {
      sys := Sys(setup, Env([], false, false, stopped, late), false, false, None,
                 Stream(Reader(if streams then Read else Closed, [], false), [], None, None, false, false),
                 if streams then TryRecv else BatchShutdown, 0, Batch(false, false, 0));
      budget, failures := others, Clean;
      new;
      InitialIsReachable(sys);
    }

    /** The others make some steps, possibly none. */
    method Others(me: Thread)
      requires Valid()
      modifies this
      ensures Valid() && Mine(me, old(sys), sys) && Horizon() <= old(Horizon()) && budget <= old(budget)
      ensures me.Finisher? ==> failures == old(failures)
    {
      while *
        invariant Valid() && Mine(me, old(sys), sys) && Horizon() <= old(Horizon()) && budget <= old(budget)
        invariant me.Finisher? ==> failures == old(failures)
        decreases budget
      {
        if budget == 0 { return; }
        budget := budget - 1;
        var a: Action := *;
        if Enabled(sys, a) && Foreign(me, a) {
          ForeignStep(me, sys, a);
          Reaches(sys, a);
          ReachableExcused(sys, a, failures);
          failures := Note(failures, sys.parent, a);
          sys := Perform(sys, a);
        }
      }
    }

    // --------------------------------------------------------------- finish

    /** One atomic operation of `finish` leaves `t`; then the others may move. */
    method Do(p: Parent, ok: bool, t: Sys)
      requires Valid() && sys.parent == p && !p.Done? && ParentStep(sys, p, ok) == t
      modifies this
      ensures Valid() && FinisherKept(t, sys) && budget <= old(budget) && failures == Note(old(failures), p, Proceeds(ok))
    {
      Reaches(sys, Proceeds(ok));
      ReachableExcused(sys, Proceeds(ok), failures);
      failures := Note(failures, p, Proceeds(ok));
      sys := t;
      Others(Finisher);
    }

    method SendDo(p: Parent, ok: bool, t: Sys)
      requires Valid() && sys.parent == p && InSend(p) && SendStep(sys, p, ok) == t
      modifies this
      ensures Valid() && FinisherKept(t, sys) && budget <= old(budget) && failures == Note(old(failures), p, Proceeds(ok))
    {
      Do(p, ok, t);
    }

    method RecvDo(p: Parent, ok: bool, t: Sys)
      requires Valid() && sys.parent == p && InRecv(p) && RecvStep(sys, p, ok) == t
      modifies this
      ensures Valid() && FinisherKept(t, sys) && budget <= old(budget) && failures == Note(old(failures), p, Proceeds(ok))
    {
      Do(p, ok, t);
    }

    method FallbackDo(p: Parent, ok: bool, t: Sys)
      requires Valid() && sys.parent == p && !InSend(p) && !InRecv(p) && !p.Done? && FallbackStep(sys, p, ok) == t
      modifies this
      ensures Valid() && FinisherKept(t, sys) && budget <= old(budget) && failures == Note(old(failures), p, Proceeds(ok))
    {
      Do(p, ok, t);
    }

    /** How `finish` may have come back: with the first line of the stream, which was
        not flagged as early; with a batch worker's answer after a silent stream; or
        with an error that has a cause, the batch worker tried if it could be. */
    ghost predicate Returned(result: Option<Result>)
      reads this
    {
      result.Some? ==>
        && sys.parent == Done(result.value)
        && match result.value
           case Streamed(line) =>
             && IsLine(sys.stream.taken, line, sys.stream.reader.at.Closed?)
             && 0 < |line| <= RESULT_MAX && !sys.stream.early && sys.batch.launched == 0
           case Batched => sys.stream.taken == [] && Gated(sys) && sys.batch.launched == 1
           case Refused =>
             sys.batch.launched <= 1 && NoAnswer(sys, failures) && (sys.batch.launched == 0 ==> NoLaunch(sys, failures))
    }

    lemma DoneReturns(result: Result)
      requires Valid() && sys.parent == Done(result)
      ensures Returned(Some(result))
    {
      ReachableInv(sys);
    }

    /** `finish` waits for the reader, and nobody moves. */
    ghost predicate Waits()
      reads this
    {
      budget == 0 && !sys.stream.reader.at.Closed?
    }

    /** `finish` of a session that streams. */
    method Finish(env: Environment) returns (result: Option<Result>)
      requires Valid() && sys.parent.TryRecv?
      modifies this
      ensures Valid() && Returned(result)
      ensures Blames(old(failures), failures, env)
      ensures result.None? ==> Waits()
    {
      if sys.channel.Some? {
        var event := sys.channel.value;
        if event.Failed? && !event.bytesSeen {
          SendDo(TryRecv, true, Recv(sys).(parent := Retry));
          result := RetryBatch(env);
        } else {
          SendDo(TryRecv, true, Recv(sys).(parent := Done(Refused)));
          result := Some(Refused);
        }
      } else if Disconnected(sys) {
        SendDo(TryRecv, true, sys.(parent := Retry));
        result := RetryBatch(env);
      } else {
        SendDo(TryRecv, true, sys.(parent := WriteBody));
        var written := WriteLine(env);
        if written { result := Answer(env); } else { result := WriteFails(env); }
      }
      if result.Some? { DoneReturns(result.value); }
    }

    /** `write_line`: the finish request, the flag, and then its newline. */
    method WriteLine(env: Environment) returns (written: bool)
      requires Valid() && sys.parent.WriteBody?
      modifies this
      ensures Valid() && sys.parent == if written then RecvShutdown(false) else WriteFailed
      ensures Blames(old(failures), failures, env)
    {
      written := env.body;
      SendDo(WriteBody, written, sys.(parent := if written then StoreAllowed else WriteFailed));
      if !written { return; }
      SendDo(StoreAllowed, true, sys.(allowed := true, parent := WriteNewline));
      written := env.newline;
      if written {
        SendDo(WriteNewline, true, sys.(newlineSent := true, parent := RecvShutdown(false)));
      } else {
        SendDo(WriteNewline, false, sys.(parent := WriteFailed));
      }
    }

    method WriteFails(env: Environment) returns (result: Option<Result>)
      requires Valid() && sys.parent.WriteFailed?
      modifies this
      ensures Valid() && (result.Some? ==> sys.parent == Done(result.value))
      ensures Blames(old(failures), failures, env)
      ensures result.None? ==> Waits()
    {
      if sys.env.shutdown {
        SendDo(WriteFailed, true, sys.(parent := Done(Refused)));
        return Some(Refused);
      }
      SendDo(WriteFailed, true, sys.(parent := Conclude));
      result := FallBack(env);
    }

    /** The result frame, decoded, and the worker reaped; or the way out. */
    method Answer(env: Environment) returns (result: Option<Result>)
      requires Valid() && sys.parent == RecvShutdown(false)
      modifies this
      ensures Valid() && (result.Some? ==> sys.parent == Done(result.value))
      ensures Blames(old(failures), failures, env)
      ensures result.None? ==> Waits()
    {
      var frame := ReceiveUntil();
      if frame.None? { return None; }
      match frame.value
      case Line(bytes) =>
        var answer := DecodeLine(bytes, env);
        result := Some(answer);
      case Nothing(seen) =>
        if seen {
          RecvDo(RecvFailed(seen), true, sys.(parent := Done(Refused)));
          return Some(Refused);
        }
        RecvDo(RecvFailed(seen), true, sys.(parent := Conclude));
        result := FallBack(env);
    }

    /** The frame decoded, and the worker reaped. */
    method DecodeLine(bytes: seq<Byte>, env: Environment) returns (result: Result)
      requires Valid() && sys.parent == Decode(bytes)
      modifies this
      ensures Valid() && sys.parent == Done(result)
      ensures Blames(old(failures), failures, env)
      ensures result == if env.decodes && env.clean then Streamed(bytes) else Refused
    {
      RecvDo(Decode(bytes), env.decodes, sys.(parent := if env.decodes then Reap(bytes) else Done(Refused)));
      if !env.decodes { return Refused; }
      result := if env.clean then Streamed(bytes) else Refused;
      RecvDo(Reap(bytes), env.clean, sys.(parent := Done(result)));
    }

    /** The two checks before each receive. */
    method MayReceive(seen: bool) returns (may: bool)
      requires Valid() && sys.parent == RecvShutdown(seen)
      modifies this
      ensures Valid() && sys.parent == (if may then RecvEvent(seen) else RecvFailed(seen)) && budget <= old(budget)
      ensures failures == old(failures)
    {
      if sys.env.shutdown {
        RecvDo(RecvShutdown(seen), true, sys.(parent := RecvFailed(seen)));
        return false;
      }
      RecvDo(RecvShutdown(seen), true, sys.(parent := RecvClock(seen)));
      may := !sys.env.expired;
      RecvDo(RecvClock(seen), true, sys.(parent := if may then RecvEvent(seen) else RecvFailed(seen)));
    }

    /** `recv_until` with `reject_before_finish`. `None`: the others have stopped. */
    method ReceiveUntil() returns (frame: Option<Received>)
      requires Valid() && sys.parent == RecvShutdown(false)
      modifies this
      ensures Valid()
      ensures failures == old(failures)
      ensures frame.None? ==> Waits()
      ensures frame.Some? ==>
        sys.parent == match frame.value case Line(bytes) => Decode(bytes) case Nothing(seen) => RecvFailed(seen)
    {
      var seen := false;
      while true
        invariant Valid() && sys.parent == RecvShutdown(seen) && failures == old(failures)
        decreases budget, !seen
      {
        var may := MayReceive(seen);
        if !may { return Some(Nothing(seen)); }
        if sys.channel.Some? {
          frame, seen := ReceiveEvent(seen);
          if frame.Some? { return; }
        } else if Disconnected(sys) {
          RecvDo(RecvEvent(seen), true, sys.(parent := RecvFailed(seen)));
          return Some(Nothing(seen));
        } else {
          if budget == 0 { return None; }
          budget := budget - 1;
          RecvDo(RecvEvent(seen), true, sys.(parent := RecvShutdown(seen)));
        }
      }
    }

    /** One event of the channel. A second start of a frame cannot come. */
    method ReceiveEvent(seen: bool) returns (frame: Option<Received>, seenNow: bool)
      requires Valid() && sys.parent == RecvEvent(seen) && sys.channel.Some?
      modifies this
      ensures Valid() && budget <= old(budget)
      ensures failures == old(failures)
      ensures match frame
              case None => !seen && seenNow && sys.parent == RecvShutdown(seenNow)
              case Some(Line(bytes)) => sys.parent == Decode(bytes)
              case Some(Nothing(any)) => sys.parent == RecvFailed(any)
    {
      OneStart(sys, seen);
      seenNow := true;
      match sys.channel.value
      case Started(early) =>
        if early {
          RecvDo(RecvEvent(seen), true, Recv(sys).(parent := RecvFailed(true)));
          frame := Some(Nothing(true));
        } else {
          RecvDo(RecvEvent(seen), true, Recv(sys).(parent := RecvShutdown(true)));
          frame := None;
        }
      case Frame(bytes, early) =>
        if bytes != [] && |bytes| <= RESULT_MAX && !early {
          RecvDo(RecvEvent(seen), true, Recv(sys).(parent := Decode(bytes)));
          frame := Some(Line(bytes));
        } else {
          RecvDo(RecvEvent(seen), true, Recv(sys).(parent := RecvFailed(true)));
          frame := Some(Nothing(true));
        }
      case Failed(bytesSeen) =>
        RecvDo(RecvEvent(seen), true, Recv(sys).(parent := RecvFailed(seen || bytesSeen)));
        frame := Some(Nothing(seen || bytesSeen));
    }

    /** `conclusively_no_output`, and the batch worker if so. */
    method FallBack(env: Environment) returns (result: Option<Result>)
      requires Valid() && sys.parent.Conclude?
      modifies this
      ensures Valid() && (result.Some? ==> sys.parent == Done(result.value))
      ensures Blames(old(failures), failures, env)
      ensures result.None? ==> Waits()
    {
      while sys.parent.Conclude?
        invariant Valid() && failures == old(failures)
        invariant sys.parent.Conclude? || sys.parent.Retry? || sys.parent == Done(Refused)
        decreases budget, !Disconnected(sys), sys.parent.Conclude?
      {
        var waits := ConcludeOnce();
        if waits { return None; }
      }
      if sys.parent.Retry? { result := RetryBatch(env); } else { result := Some(Refused); }
    }

    /** One round of `conclusively_no_output`: time left, and then the channel. */
    method ConcludeOnce() returns (waits: bool)
      requires Valid() && sys.parent.Conclude?
      modifies this
      ensures Valid() && failures == old(failures) && budget <= old(budget) && (waits ==> Waits())
      ensures !waits ==> sys.parent.Conclude? || sys.parent.Retry? || sys.parent == Done(Refused)
      ensures !waits && sys.parent.Conclude? && budget == old(budget) ==> Disconnected(sys) && !Disconnected(old(sys))
      ensures Disconnected(old(sys)) ==> Disconnected(sys)
    {
      waits := false;
      if sys.env.expired {
        FallbackDo(Conclude, true, sys.(parent := Done(Refused)));
        return;
      }
      FallbackDo(Conclude, true, sys.(parent := ConcludeEvent));
      if sys.channel.Some? || Disconnected(sys) {
        var _ := Listen();
      } else if budget == 0 {
        waits := true;
      } else {
        budget := budget - 1;
        FallbackDo(ConcludeEvent, true, sys.(parent := Conclude));
      }
    }

    /** What `conclusively_no_output` finds in the channel, or at its end: that the
        worker was silent, or not. */
    method Listen() returns (silent: bool)
      requires Valid() && sys.parent.ConcludeEvent? && (sys.channel.Some? || Disconnected(sys))
      modifies this
      ensures Valid() && failures == old(failures) && budget <= old(budget)
      ensures if silent then Disconnected(sys) && (if Disconnected(old(sys)) then sys.parent.Retry? else sys.parent.Conclude?)
              else sys.parent == Done(Refused) && !Disconnected(old(sys))
    {
      silent := true;
      if sys.channel.Some? {
        silent := sys.channel.value.Failed? && !sys.channel.value.bytesSeen;
        if silent { FailureIsLast(sys); }
        FallbackDo(ConcludeEvent, true, Recv(sys).(parent := if silent then Conclude else Done(Refused)));
      } else {
        FallbackDo(ConcludeEvent, true, sys.(parent := Retry));
      }
    }

    /** `retry_batch`. */
    method RetryBatch(env: Environment) returns (result: Option<Result>)
      requires Valid() && sys.parent.Retry?
      modifies this
      ensures Valid() && result.Some? && sys.parent == Done(result.value)
      ensures Blames(old(failures), failures, env)
    {
      if sys.setup.localStream {
        FallbackDo(Retry, true, sys.(parent := Done(Refused)));
        return Some(Refused);
      }
      FallbackDo(Retry, true, sys.(parent := BatchShutdown));
      result := RunBatch(env);
    }

    /** `batch`: also the whole of `finish` for a session that does not stream. */
    method RunBatch(env: Environment) returns (result: Option<Result>)
      requires Valid() && sys.parent.BatchShutdown?
      modifies this
      ensures Valid() && result.Some? && sys.parent == Done(result.value)
      ensures Blames(old(failures), failures, env)
    {
      if sys.env.shutdown {
        FallbackDo(BatchShutdown, true, sys.(parent := Done(Refused)));
        return Some(Refused);
      }
      FallbackDo(BatchShutdown, true, sys.(batch := sys.batch.(clear := true), parent := BatchClock));
      if sys.env.expired {
        FallbackDo(BatchClock, true, sys.(parent := Done(Refused)));
        return Some(Refused);
      }
      FallbackDo(BatchClock, true, sys.(batch := sys.batch.(inTime := true), parent := BatchLaunch));
      result := Launch(env);
    }

    /** The request encoded again, and the batch worker. */
    method Launch(env: Environment) returns (result: Option<Result>)
      requires Valid() && sys.parent.BatchLaunch?
      modifies this
      ensures Valid() && result.Some? && sys.parent == Done(result.value)
      ensures Blames(old(failures), failures, env)
    {
      var spawns := env.spawns;
      if !spawns {
        FallbackDo(BatchLaunch, false, sys.(parent := Done(Refused)));
        return Some(Refused);
      }
      FallbackDo(BatchLaunch, true,
                 sys.(batch := sys.batch.(launched := sys.batch.launched + 1), parent := BatchWait));
      var answers := env.answers;
      result := Some(if answers then Batched else Refused);
      FallbackDo(BatchWait, answers, sys.(parent := Done(result.value)));
    }

    // ---------------------------------------------------- the reader thread

    /** The reader waits for room in the channel, or for output, and nobody moves. */
    ghost predicate ReaderWaits()
      reads this
    {
      budget == 0 && !Enabled(sys, Reads(false))
    }

    /** One atomic operation of the reader leaves `t`; then the others may move. */
    method ReaderDo(r: Reader, ioError: bool, t: Sys)
      requires Valid() && sys.stream.reader == r && Enabled(sys, Reads(ioError)) && ReaderStep(sys, r, ioError) == t
      modifies this
      ensures Valid() && ReaderKept(t, sys) && Horizon() <= |t.env.pipe| + old(budget)
    {
      Reaches(sys, Reads(ioError));
      ReachableExcused(sys, Reads(ioError), failures);
      sys := t;
      Others(ReaderThread);
    }

    /** The reader's send, which waits for room in the channel. */
    method SendEvent(r: Reader, event: Event, next: Reader) returns (sent: bool)
      requires Valid() && sys.stream.reader == r
      requires match r.at
               case SendStarted(b) => event == Started(r.beforeFinish) && next == r.(at := Take(b))
               case SendFrame(last) =>
                 event == Frame(r.frame, r.beforeFinish) && next == Reader(if last then Closed else Read, [], false)
               case SendFailed(bytesSeen) => event == Failed(bytesSeen) && next == r.(at := Closed)
               case _ => false
      modifies this
      ensures Valid() && Horizon() <= old(Horizon()) && (sent ==> sys.stream.reader == next)
      ensures !sent ==> ReaderWaits()
    {
      while sys.channel.Some?
        invariant Valid() && sys.stream.reader == r && Horizon() <= old(Horizon())
        decreases budget
      {
        if budget == 0 { return false; }
        budget := budget - 1;
        Others(ReaderThread);
      }
      ReaderDo(r, false, Send(sys, event, next));
      sent := true;
    }

    /** The reader's read: true if a byte, the end or an error is there. */
    method AwaitByte(ioError: bool) returns (ready: bool)
      requires Valid() && sys.stream.reader.at.Read?
      modifies this
      ensures Valid() && ReaderKept(old(sys), sys) && Horizon() <= old(Horizon())
      ensures ready ==> Enabled(sys, Reads(ioError))
      ensures !ready ==> ReaderWaits()
    {
      while !ioError && sys.env.pipe == [] && !sys.env.pipeClosed
        invariant Valid() && ReaderKept(old(sys), sys) && Horizon() <= old(Horizon())
        decreases budget
      {
        if budget == 0 { return false; }
        budget := budget - 1;
        Others(ReaderThread);
      }
      ready := true;
    }

    /** The reader thread: frame after frame until the output ends or fails. `false`:
        the others have stopped while it waited. */
    method ReadFrames() returns (ended: bool)
      requires Valid() && sys.stream.reader == Reader(Read, [], false)
      modifies this
      ensures Valid() && (if ended then sys.stream.reader.at.Closed? else ReaderWaits())
      ensures ended && sys.stream.second.Some? && sys.stream.second.value.Frame? ==>
        IsLine(sys.stream.taken, sys.stream.second.value.bytes, true)
    {
      ended := true;
      while !sys.stream.reader.at.Closed?
        invariant Valid() && (!sys.stream.reader.at.Closed? ==> sys.stream.reader == Reader(Read, [], false))
        decreases Horizon(), !sys.stream.reader.at.Closed?
      {
        ended := ReadOneFrame();
        if !ended { return; }
      }
      SecondIsLine(sys);
    }

    /** One frame: bytes up to a newline, or up to the end of the output. */
    method ReadOneFrame() returns (going: bool)
      requires Valid() && sys.stream.reader == Reader(Read, [], false)
      modifies this
      ensures Valid()
      ensures going && !sys.stream.reader.at.Closed? ==>
        sys.stream.reader == Reader(Read, [], false) && Horizon() < old(Horizon())
      ensures going ==> Horizon() <= old(Horizon())
      ensures !going ==> ReaderWaits()
    {
      var frame: seq<Byte>, beforeFinish := [], false;
      while true
        invariant Valid() && sys.stream.reader == Reader(Read, frame, beforeFinish) && Horizon() <= old(Horizon())
        decreases Horizon()
      {
        var ioError: bool := *;
        going := AwaitByte(ioError);
        if !going { return; }
        if ioError || sys.env.pipe == [] {
          going := EndFrames(frame, beforeFinish, ioError);
          return;
        }
        var b := sys.env.pipe[0];
        beforeFinish, going := ReadByte(frame, beforeFinish, b);
        if !going { return; }
        if b == NEWLINE {
          TakeDo(frame, beforeFinish, b, SendFrame(false));
          going := SendEvent(Reader(SendFrame(false), frame, beforeFinish), Frame(frame, beforeFinish),
                             Reader(Read, [], false));
          return;
        }
        if |frame| == RESULT_MAX + 1 {
          TakeDo(frame, beforeFinish, b, SendFailed(true));
          going := SendEvent(Reader(SendFailed(true), frame, beforeFinish), Failed(true),
                             Reader(Closed, frame, beforeFinish));
          return;
        }
        TakeDo(frame, beforeFinish, b, Read);
        frame := frame + [b];
      }
    }

    /** What the reader does with a byte that it has announced. */
    method TakeDo(frame: seq<Byte>, beforeFinish: bool, b: Byte, next: ReaderAt)
      requires Valid() && sys.stream.reader == Reader(Take(b), frame, beforeFinish)
      requires next ==
        if b == NEWLINE then SendFrame(false) else if |frame| == RESULT_MAX + 1 then SendFailed(true) else Read
      modifies this
      ensures Valid() && sys.stream.reader == Reader(next, if next.Read? then frame + [b] else frame, beforeFinish)
      ensures Horizon() <= old(Horizon())
    {
      var r := sys.stream.reader;
      ReaderDo(r, false,
               sys.(stream := sys.stream.(reader := Reader(next, if next.Read? then frame + [b] else frame, beforeFinish))));
    }

    /** A byte is read; the first of a frame is announced with what the flag says. */
    method ReadByte(frame: seq<Byte>, before: bool, b: Byte) returns (beforeFinish: bool, going: bool)
      requires Valid() && sys.stream.reader == Reader(Read, frame, before) && sys.env.pipe != [] && sys.env.pipe[0] == b
      modifies this
      ensures Valid() && Horizon() < old(Horizon())
      ensures going ==> sys.stream.reader == Reader(Take(b), frame, beforeFinish)
      ensures !going ==> ReaderWaits()
    {
      var st, r := sys.stream, sys.stream.reader;
      beforeFinish, going := before, true;
      ReaderDo(r, false,
               sys.(env := sys.env.(pipe := sys.env.pipe[1..]),
                    stream := st.(taken := st.taken + [b], readEarly := st.readEarly || !sys.allowed,
                                  reader := r.(at := if frame == [] then LoadAllowed(b) else Take(b)))));
      if frame == [] {
        beforeFinish := !sys.allowed;
        st, r := sys.stream, sys.stream.reader;
        ReaderDo(r, false, sys.(stream := st.(early := st.early || beforeFinish,
                                              reader := Reader(SendStarted(b), frame, beforeFinish))));
        going := SendEvent(Reader(SendStarted(b), frame, beforeFinish), Started(beforeFinish),
                           Reader(Take(b), frame, beforeFinish));
      }
    }

    /** The output has ended or failed: what is left of a frame is sent. */
    method EndFrames(frame: seq<Byte>, beforeFinish: bool, ioError: bool) returns (going: bool)
      requires Valid() && sys.stream.reader == Reader(Read, frame, beforeFinish)
      requires ioError || (sys.env.pipe == [] && sys.env.pipeClosed)
      modifies this
      ensures Valid() && Horizon() <= old(Horizon()) && (if going then sys.stream.reader.at.Closed? else ReaderWaits())
    {
      going := true;
      var st, r := sys.stream, sys.stream.reader;
      if ioError {
        ReaderDo(r, true, sys.(stream := st.(reader := r.(at := SendFailed(frame != [])))));
        going := SendEvent(Reader(SendFailed(frame != []), frame, beforeFinish), Failed(frame != []),
                           Reader(Closed, frame, beforeFinish));
      } else if frame == [] {
        ReaderDo(r, false, sys.(stream := st.(reader := r.(at := Closed))));
      } else {
        ReaderDo(r, false, sys.(stream := st.(reader := r.(at := SendFrame(true)))));
        going := SendEvent(Reader(SendFrame(true), frame, beforeFinish), Frame(frame, beforeFinish),
                           Reader(Closed, [], false));
      }
    }
  }

  /** What `recv_until` returns: a frame, or an error and whether output was seen. */
  datatype Received = Line(bytes: seq<Byte>) | Nothing(seen: bool)

  lemma OneStart(s: Sys, seen: bool)
    requires Reachable(s) && s.parent == RecvEvent(seen) && s.channel.Some?
    ensures seen ==> !s.channel.value.Started?
  {
    ReachableInv(s);
  }

  lemma SecondIsLine(s: Sys)
    requires Reachable(s) && s.stream.reader.at.Closed?
    ensures s.stream.second.Some? && s.stream.second.value.Frame? ==>
      IsLine(s.stream.taken, s.stream.second.value.bytes, true)
  {
    ReachableInv(s);
  }
}
