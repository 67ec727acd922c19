/** A worker session is answered at most once, from the first line of the stream
    or from one batch worker that follows a silent stream. */
module WorkerTheorems {
  import opened Bytes
  import opened Options
  import opened Worker

  /** `line` is what `taken` holds before its first newline, or all of it. */
  ghost predicate IsLine(taken: seq<Byte>, line: seq<Byte>, ended: bool) {
    && NEWLINE !in line && line <= taken
    && (if |taken| == |line| then ended else taken[|line|] == NEWLINE)
  }

  /** The reader is still inside the first frame. */
  ghost predicate FirstFrame(r: Reader, taken: seq<Byte>) {
    && NEWLINE !in r.frame
    && match r.at
       case Read => taken == r.frame
       case LoadAllowed(b) => r.frame == [] && taken == [b]
       case SendStarted(b) => r.frame == [] && taken == [b]
       case Take(b) => taken == r.frame + [b]
       case SendFrame(last) => taken == if last then r.frame else r.frame + [NEWLINE]
       case SendFailed(bytesSeen) => !bytesSeen ==> taken == []
       case Closed => taken == []
  }

  /** Nothing has been sent yet. */
  ghost predicate BeforeFirst(st: Stream, allowed: bool) {
    var at := st.reader.at;
    && st.second.None?
    && FirstFrame(st.reader, st.taken)
    && (at.Read? ==> st.taken == [])
    && (at.SendFailed? ==> st.taken == [] && !at.bytesSeen)
    && !at.Take? && !at.SendFrame?
    && st.early == (at.SendStarted? && st.reader.beforeFinish)
    && (at.SendStarted? ==> st.early || allowed)
  }

  /** The first frame has been announced; its flag says whether it was early. */
  ghost predicate AfterStarted(st: Stream, allowed: bool) {
    var at := st.reader.at;
    && st.taken != []
    && st.first == Some(Started(st.early)) && (st.early || allowed)
    && match st.second
       case None =>
         && FirstFrame(st.reader, st.taken) && st.reader.beforeFinish == st.early
         && !at.LoadAllowed? && !at.SendStarted? && !at.Closed?
       case Some(Frame(bytes, beforeFinish)) =>
         IsLine(st.taken, bytes, at.Closed?) && beforeFinish == st.early
       case Some(Failed(_)) => true
       case Some(Started(_)) => false
  }

  ghost predicate AfterFailed(st: Stream) {
    st.first == Some(Failed(false)) && st.second.None? && st.reader.at.Closed? && st.taken == [] && !st.early
  }

  ghost predicate StreamOk(st: Stream, allowed: bool) {
    match st.first
    case None => BeforeFirst(st, allowed)
    case Some(Started(_)) => AfterStarted(st, allowed)
    case Some(_) => AfterFailed(st)
  }

  /** The channel holds the event that follows those received. */
  predicate ChannelOk(s: Sys) {
    && (s.received == 0 ==> s.channel == s.stream.first && s.stream.second.None?)
    && (s.received == 1 ==> s.stream.first.Some? && s.channel == s.stream.second)
    && (s.received >= 2 ==> s.stream.second.Some?)
  }

  predicate Silent(s: Sys) {
    s.received == 0 || (s.received == 1 && s.stream.first == Some(Failed(false)))
  }

  /** `recv_until` has received nothing, or that a frame has started. */
  predicate Waiting(s: Sys, seen: bool) {
    s.batch.launched == 0 && if seen then s.received == 1 && s.stream.first == Some(Started(false)) else s.received == 0
  }

  predicate Accepts(s: Sys, bytes: seq<Byte>) {
    && s.batch.launched == 0 && s.received == 2
    && s.stream.first == Some(Started(false)) && s.stream.second == Some(Frame(bytes, false))
    && bytes != [] && |bytes| <= RESULT_MAX
  }

  /** The stream ended without a byte, so the batch worker may be launched. */
  predicate MayBatch(s: Sys, launched: nat) {
    s.stream.taken == [] && s.stream.reader.at.Closed? && s.batch.launched == launched
  }

  /** The gate of the batch worker has been passed. */
  predicate Gated(s: Sys) {
    !s.setup.localStream && s.batch.clear && s.batch.inTime
  }

  predicate ParentOk(s: Sys, p: Parent) {
    match p
    case RecvShutdown(seen) => Waiting(s, seen)
    case RecvClock(seen) => Waiting(s, seen)
    case RecvEvent(seen) => Waiting(s, seen)
    case RecvFailed(seen) => s.batch.launched == 0 && (!seen ==> Silent(s))
    case Decode(bytes) => Accepts(s, bytes)
    case Reap(bytes) => Accepts(s, bytes)
    case Conclude => s.batch.launched == 0 && Silent(s)
    case ConcludeEvent => s.batch.launched == 0 && Silent(s)
    case Retry => MayBatch(s, 0)
    case BatchShutdown => MayBatch(s, 0) && !s.setup.localStream
    case BatchClock => MayBatch(s, 0) && !s.setup.localStream && s.batch.clear
    case BatchLaunch => MayBatch(s, 0) && Gated(s)
    case BatchWait => MayBatch(s, 1) && Gated(s)
    case Done(Streamed(bytes)) => Accepts(s, bytes)
    case Done(Batched) => MayBatch(s, 1) && Gated(s)
    case Done(Refused) => s.batch.launched == 0 || (MayBatch(s, 1) && Gated(s))
    case _ => s.batch.launched == 0 && s.received == 0
  }

  ghost predicate FlagsOk(s: Sys) {
    && (s.parent.WriteNewline? || s.newlineSent ==> s.allowed)
    && (s.env.sawFinish ==> s.newlineSent)
    && (s.setup.polite && (s.env.pipe != [] || s.stream.taken != []) ==> s.allowed && !s.stream.early)
  }

  ghost predicate Inv(s: Sys) {
    StreamOk(s.stream, s.allowed) && ChannelOk(s) && ParentOk(s, s.parent) && FlagsOk(s)
  }

  /** What the reader's history tells the parent. */
  predicate Facts(st: Stream) {
    match st.first
    case None => st.reader.at.Closed? ==> st.taken == []
    case Some(Started(early)) =>
      && st.taken != [] && (st.second.None? ==> !st.reader.at.Closed?)
      && (st.second.Some? ==> !st.second.value.Started?)
      && (st.second.Some? && st.second.value.Frame? ==> st.second.value.beforeFinish == early)
    case Some(_) => st.first == Some(Failed(false)) && st.second.None? && st.reader.at.Closed? && st.taken == []
  }

  predicate ParentMoves(s: Sys, t: Sys) {
    && ChannelOk(t) && ParentOk(t, t.parent)
    && t.stream == s.stream && t.env == s.env && t.setup == s.setup
    && (s.allowed ==> t.allowed) && (s.newlineSent ==> t.newlineSent)
    && (t.parent.WriteNewline? || t.newlineSent ==> t.allowed)
    && (t.batch.launched == s.batch.launched || s.parent.BatchLaunch?)
  }

  predicate ParentParts(s: Sys) {
    Facts(s.stream) && ChannelOk(s) && ParentOk(s, s.parent) && (s.parent.WriteNewline? || s.newlineSent ==> s.allowed)
  }

  lemma SendMoves(s: Sys, p: Parent, ok: bool)
    requires s.parent == p && ParentParts(s) && InSend(p)
    ensures ParentMoves(s, SendStep(s, p, ok))
  {}

  lemma RecvMoves(s: Sys, p: Parent, ok: bool)
    requires s.parent == p && ParentParts(s) && InRecv(p) && !p.RecvEvent?
    ensures ParentMoves(s, RecvStep(s, p, ok))
  {}

  lemma EventMoves(s: Sys, p: Parent, ok: bool)
    requires s.parent == p && ParentParts(s) && p.RecvEvent? && s.channel.Some?
    ensures ParentMoves(s, RecvStep(s, p, ok))
  {}

  lemma SilenceMoves(s: Sys, p: Parent, ok: bool)
    requires s.parent == p && ParentParts(s) && p.RecvEvent? && s.channel.None?
    ensures ParentMoves(s, RecvStep(s, p, ok))
  {}

  lemma FallbackMoves(s: Sys, p: Parent, ok: bool)
    requires s.parent == p && ParentParts(s) && (p.Conclude? || p.Retry?)
    ensures ParentMoves(s, FallbackStep(s, p, ok))
  {}

  lemma ConcludeMoves(s: Sys, p: Parent, ok: bool)
    requires s.parent == p && ParentParts(s) && p.ConcludeEvent?
    ensures ParentMoves(s, FallbackStep(s, p, ok))
  {}

  lemma GateMoves(s: Sys, p: Parent, ok: bool)
    requires s.parent == p && ParentParts(s) && (p.BatchShutdown? || p.BatchClock?)
    ensures ParentMoves(s, FallbackStep(s, p, ok))
  {}

  lemma LaunchMoves(s: Sys, p: Parent, ok: bool)
    requires s.parent == p && ParentParts(s) && (p.BatchLaunch? || p.BatchWait?)
    ensures ParentMoves(s, FallbackStep(s, p, ok))
  {}

  lemma DoneMoves(s: Sys, p: Parent, ok: bool)
    requires s.parent == p && ParentParts(s) && p.Done?
    ensures ParentMoves(s, FallbackStep(s, p, ok))
  {}

  /** What the reader has sent stays sent, and a closed reader stays as it is. */
  predicate Extends(st: Stream, next: Stream) {
    && (st.first.Some? ==> next.first == st.first)
    && (st.second.Some? ==> next.second == st.second)
    && (st.reader.at.Closed? ==> next == st)
  }

  ghost predicate ReaderMoves(s: Sys, r: Reader, ioError: bool) {
    var t := ReaderStep(s, r, ioError);
    StreamOk(t.stream, t.allowed) && Extends(s.stream, t.stream)
  }

  lemma ReaderBefore(s: Sys, r: Reader, ioError: bool)
    requires s.stream.reader == r && s.stream.first.None? && BeforeFirst(s.stream, s.allowed)
    requires r.at.Read? || r.at.LoadAllowed? || r.at.Closed?
    ensures ReaderMoves(s, r, ioError)
  {}

  lemma ReaderStarts(s: Sys, r: Reader, ioError: bool)
    requires s.stream.reader == r && s.stream.first.None? && BeforeFirst(s.stream, s.allowed)
    requires r.at.SendStarted? || r.at.SendFailed?
    ensures ReaderMoves(s, r, ioError)
  {}

  lemma ReaderInFirst(s: Sys, r: Reader, ioError: bool)
    requires s.stream.reader == r && AfterStarted(s.stream, s.allowed) && s.stream.second.None?
    requires r.at.Take?
    ensures ReaderMoves(s, r, ioError)
  {}

  lemma ReaderReadsFirst(s: Sys, r: Reader, ioError: bool)
    requires s.stream.reader == r && AfterStarted(s.stream, s.allowed) && s.stream.second.None?
    requires r.at.Read? || r.at.SendFailed?
    ensures ReaderMoves(s, r, ioError)
  {}

  lemma ReaderEndsFirst(s: Sys, r: Reader, ioError: bool)
    requires s.stream.reader == r && AfterStarted(s.stream, s.allowed) && s.stream.second.None?
    requires r.at.SendFrame?
    ensures ReaderMoves(s, r, ioError)
  {
    assert IsLine(s.stream.taken, r.frame, r.at.last);
  }

  lemma LineStays(taken: seq<Byte>, line: seq<Byte>, b: Byte)
    requires IsLine(taken, line, false)
    ensures IsLine(taken + [b], line, false)
  {}

  lemma ReaderLater(s: Sys, r: Reader, ioError: bool)
    requires s.stream.reader == r && AfterStarted(s.stream, s.allowed) && s.stream.second.Some?
    requires r.at.Read? || r.at.Take?
    ensures ReaderMoves(s, r, ioError)
  {
    var st := s.stream;
    if r.at.Read? && !ioError && s.env.pipe != [] && st.second.value.Frame? {
      LineStays(st.taken, st.second.value.bytes, s.env.pipe[0]);
    }
  }

  lemma ReaderSendsLater(s: Sys, r: Reader, ioError: bool)
    requires s.stream.reader == r && AfterStarted(s.stream, s.allowed) && s.stream.second.Some?
    requires r.at.SendStarted? || r.at.SendFrame? || r.at.SendFailed?
    ensures ReaderMoves(s, r, ioError)
  {}

  lemma ReaderLoadsLater(s: Sys, r: Reader, ioError: bool)
    requires s.stream.reader == r && AfterStarted(s.stream, s.allowed) && s.stream.second.Some?
    requires r.at.LoadAllowed? || r.at.Closed?
    ensures ReaderMoves(s, r, ioError)
  {}

  lemma ReaderChannel(s: Sys, r: Reader, ioError: bool)
    requires s.stream.reader == r && ChannelOk(s) && Enabled(s, Reads(ioError))
    ensures var t := ReaderStep(s, r, ioError);
            ChannelOk(t) && t == s.(stream := t.stream, channel := t.channel, env := t.env)
  {}

  lemma ReaderFlags(s: Sys, r: Reader, ioError: bool)
    requires s.stream.reader == r && FlagsOk(s)
    ensures FlagsOk(ReaderStep(s, r, ioError))
  {}

  lemma StreamMoves(s: Sys, r: Reader, ioError: bool)
    requires s.stream.reader == r && StreamOk(s.stream, s.allowed)
    ensures ReaderMoves(s, r, ioError)
  {
    if s.stream.first.None? {
      if r.at.SendStarted? || r.at.SendFailed? { ReaderStarts(s, r, ioError); } else { ReaderBefore(s, r, ioError); }
    }
    else if s.stream.first.value.Started? {
      if s.stream.second.Some? {
        if r.at.Read? || r.at.Take? { ReaderLater(s, r, ioError); }
        else if r.at.LoadAllowed? || r.at.Closed? { ReaderLoadsLater(s, r, ioError); }
        else { ReaderSendsLater(s, r, ioError); }
      }
      else if r.at.SendFrame? { ReaderEndsFirst(s, r, ioError); }
      else if r.at.Take? { ReaderInFirst(s, r, ioError); }
      else { ReaderReadsFirst(s, r, ioError); }
    }
  }

  /** Nothing the parent relies on is undone by the reader. */
  lemma ParentUndisturbed(s: Sys, t: Sys)
    requires ParentOk(s, s.parent) && ChannelOk(s) && Extends(s.stream, t.stream)
    requires t == s.(stream := t.stream, channel := t.channel, env := t.env)
    ensures ParentOk(t, t.parent)
  {}

  lemma ReaderKeeps(s: Sys, ioError: bool)
    requires Inv(s) && Enabled(s, Reads(ioError))
    ensures Inv(ReaderStep(s, s.stream.reader, ioError))
  {
    StreamMoves(s, s.stream.reader, ioError);
    ReaderChannel(s, s.stream.reader, ioError);
    ReaderFlags(s, s.stream.reader, ioError);
    ParentUndisturbed(s, ReaderStep(s, s.stream.reader, ioError));
  }

  lemma AnyMoves(s: Sys, p: Parent, ok: bool)
    requires s.parent == p && ParentParts(s)
    ensures ParentMoves(s, ParentStep(s, p, ok))
  {
    if InSend(p) { SendMoves(s, p, ok); }
    else if p.RecvEvent? {
      if s.channel.Some? { EventMoves(s, p, ok); } else { SilenceMoves(s, p, ok); }
    }
    else if InRecv(p) { RecvMoves(s, p, ok); }
    else if p.ConcludeEvent? { ConcludeMoves(s, p, ok); }
    else if p.Conclude? || p.Retry? { FallbackMoves(s, p, ok); }
    else if p.BatchShutdown? || p.BatchClock? { GateMoves(s, p, ok); }
    else if p.Done? { DoneMoves(s, p, ok); }
    else { LaunchMoves(s, p, ok); }
  }

  lemma StreamFacts(st: Stream, allowed: bool)
    requires StreamOk(st, allowed)
    ensures Facts(st)
    ensures StreamOk(st, true)
  {}

  lemma ParentKeeps(s: Sys, t: Sys)
    requires Inv(s) && ParentMoves(s, t)
    ensures Inv(t)
  {
    StreamFacts(s.stream, s.allowed);
  }

  lemma ParentInv(s: Sys, p: Parent, ok: bool)
    requires Inv(s) && s.parent == p && !p.Done?
    ensures Inv(ParentStep(s, p, ok))
  {
    StreamFacts(s.stream, s.allowed);
    AnyMoves(s, p, ok);
    ParentKeeps(s, ParentStep(s, p, ok));
  }

  /** The worker, the user and the clock touch nothing else. */
  lemma EnvKeeps(s: Sys, env: Env)
    requires Inv(s) && FlagsOk(s.(env := env))
    ensures Inv(s.(env := env))
  {
    ParentUndisturbed(s, s.(env := env));
  }

  lemma EnvFlags(s: Sys, a: Action)
    requires Inv(s) && Enabled(s, a) && !a.Reads? && !a.Proceeds?
    ensures FlagsOk(Perform(s, a)) && Perform(s, a) == s.(env := Perform(s, a).env)
  {}

  lemma InvStep(s: Sys, a: Action)
    requires Inv(s) && Enabled(s, a)
    ensures Inv(Perform(s, a))
  {
    if a.Reads? { ReaderKeeps(s, a.ioError); }
    else if a.Proceeds? { ParentInv(s, s.parent, a.ok); }
    else {
      EnvFlags(s, a);
      EnvKeeps(s, Perform(s, a).env);
    }
  }

  lemma {:induction false} InvRun(run: seq<Sys>, actions: seq<Action>, i: nat)
    requires IsRun(run, actions) && i < |run|
    ensures Inv(run[i])
  {
    if i > 0 {
      InvRun(run, actions, i - 1);
      InvStep(run[i - 1], actions[i - 1]);
    }
  }

  lemma ReachableInv(s: Sys)
    requires Reachable(s)
    ensures Inv(s)
  {
    var run, actions :| IsRun(run, actions) && run[|run| - 1] == s;
    InvRun(run, actions, |run| - 1);
  }

  // ---------------------------------------------------------------- results

  /** A stream is never answered twice. A batch worker is launched at most once,
      only for a session without a local stream, only after the reader has
      finished without reading a byte, and only after the gate saw no shutdown;
      an answer taken from the stream excludes it. */
  lemma AnsweredOnce(run: seq<Sys>, actions: seq<Action>, i: nat)
    requires IsRun(run, actions) && i < |run|
    ensures run[i].batch.launched <= 1
    ensures run[i].batch.launched == 1 ==> run[i].stream.taken == [] && !run[i].setup.localStream && run[i].batch.clear
    ensures run[i].parent.Done? && run[i].parent.result.Streamed? ==> run[i].batch.launched == 0
    ensures run[i].parent.Done? && run[i].parent.result.Batched? ==> run[i].batch.launched == 1
  {
    InvRun(run, actions, i);
  }

  /** The batch worker is launched only after the gate found no shutdown and then a
      deadline that had not passed. */
  lemma LaunchIsGated(run: seq<Sys>, actions: seq<Action>, i: nat)
    requires IsRun(run, actions) && i < |run| && run[i].batch.launched == 1
    ensures run[i].batch.clear && run[i].batch.inTime
  {
    InvRun(run, actions, i);
  }

  /** The answer taken from the stream is its first line, or all of it when it
      ended without one; it is not empty, within the limit and not early. */
  lemma StreamedIsFirstLine(run: seq<Sys>, actions: seq<Action>, i: nat)
    requires IsRun(run, actions) && i < |run| && run[i].parent.Done? && run[i].parent.result.Streamed?
    ensures var s, line := run[i], run[i].parent.result.bytes;
            && IsLine(s.stream.taken, line, s.stream.reader.at.Closed?)
            && 0 < |line| <= RESULT_MAX && !s.stream.early
  {
    InvRun(run, actions, i);
  }

  /** Output the reader finds before it is allowed makes `finish` fail, with
      neither an answer from the stream nor a fallback. */
  lemma FlaggedIsRefused(run: seq<Sys>, actions: seq<Action>, i: nat)
    requires IsRun(run, actions) && i < |run| && run[i].stream.early
    ensures run[i].batch.launched == 0
    ensures run[i].parent.Done? ==> run[i].parent.result.Refused?
  {
    InvRun(run, actions, i);
  }

  /** A worker that writes nothing before it has read the finish line is never
      classified as early. */
  lemma PoliteIsNeverEarly(run: seq<Sys>, actions: seq<Action>, i: nat)
    requires IsRun(run, actions) && i < |run| && run[i].setup.polite
    ensures !run[i].stream.early
    ensures run[i].channel.Some? && !run[i].channel.value.Failed? && run[i].received <= 1 ==>
              !run[i].channel.value.beforeFinish
  {
    InvRun(run, actions, i);
  }

  /** `finish` can be where it is only if the body, or the newline, of its request was
      written. */
  predicate NeedsWriting(s: Sys, newline: bool) {
    if newline then s.newlineSent || InRecv(s.parent)
    else s.allowed || s.parent.StoreAllowed? || s.parent.WriteNewline?
  }

  predicate Writes(p: Parent, newline: bool) {
    if newline then p.WriteNewline? else p.WriteBody?
  }

  lemma WrittenStep(s: Sys, a: Action, newline: bool)
    requires Enabled(s, a) && NeedsWriting(Perform(s, a), newline)
    ensures NeedsWriting(s, newline) || (Writes(s.parent, newline) && a == Proceeds(true))
  {
    match a
    case Reads(ioError) => ReaderSparesParent(s, s.stream.reader, ioError);
    case _ =>
  }

  lemma ReaderSparesParent(s: Sys, r: Reader, ioError: bool)
    ensures var t := ReaderStep(s, r, ioError);
            t.parent == s.parent && t.allowed == s.allowed && t.newlineSent == s.newlineSent
  {}

  /** In some step before the n-th the body, or the newline, was written. */
  ghost predicate Wrote(run: seq<Sys>, actions: seq<Action>, n: nat, newline: bool)
    requires n <= |actions| && n <= |run|
  {
    exists k :: 0 <= k < n && Writes(run[k].parent, newline) && actions[k] == Proceeds(true)
  }

  lemma WroteLater(run: seq<Sys>, actions: seq<Action>, n: nat, newline: bool)
    requires n < |actions| && n < |run|
    requires Wrote(run, actions, n, newline) || (Writes(run[n].parent, newline) && actions[n] == Proceeds(true))
    ensures Wrote(run, actions, n + 1, newline)
  {
    if Wrote(run, actions, n, newline) {
      var k :| 0 <= k < n && Writes(run[k].parent, newline) && actions[k] == Proceeds(true);
      assert 0 <= k < n + 1 && Writes(run[k].parent, newline);
    }
  }

  lemma {:induction false} NeededIsWritten(run: seq<Sys>, actions: seq<Action>, i: nat, newline: bool)
    requires IsRun(run, actions) && i < |run| && NeedsWriting(run[i], newline)
    ensures Wrote(run, actions, i, newline)
  {
    if i > 0 {
      WrittenStep(run[i - 1], actions[i - 1], newline);
      if NeedsWriting(run[i - 1], newline) { NeededIsWritten(run, actions, i - 1, newline); }
      WroteLater(run, actions, i - 1, newline);
    }
  }

  /** Output is allowed only once the body of the finish request was written, and the
      result awaited only once its newline was. */
  lemma AllowedAfterWriting(run: seq<Sys>, actions: seq<Action>, i: nat)
    requires IsRun(run, actions) && i < |run|
    ensures run[i].allowed ==> Wrote(run, actions, i, false)
    ensures run[i].newlineSent || InRecv(run[i].parent) ==> Wrote(run, actions, i, true)
  {
    if NeedsWriting(run[i], false) { NeededIsWritten(run, actions, i, false); }
    if NeedsWriting(run[i], true) { NeededIsWritten(run, actions, i, true); }
  }

  /** `finish` finds the stream going on without output, and asks for its result. */
  predicate FindsOpen(s: Sys) {
    s.parent.TryRecv? && s.channel.None? && !s.stream.reader.at.Closed?
  }

  predicate Asking(s: Sys) {
    s.allowed || s.newlineSent || s.parent.WriteBody? || s.parent.StoreAllowed? || s.parent.WriteNewline? ||
    s.parent.WriteFailed? || InRecv(s.parent)
  }

  lemma AskingStep(s: Sys, a: Action)
    requires Enabled(s, a) && !Asking(s) && Asking(Perform(s, a))
    ensures FindsOpen(s) && a.Proceeds?
  {
    match a
    case Reads(ioError) => ReaderSparesParent(s, s.stream.reader, ioError);
    case _ =>
  }

  /** The finish request is written only if `finish` began while the stream was going on
      and had sent nothing. */
  lemma {:induction false} AskedOfOpenStream(run: seq<Sys>, actions: seq<Action>, i: nat)
    requires IsRun(run, actions) && i < |run| && Asking(run[i])
    ensures exists k :: 0 <= k < i && FindsOpen(run[k]) && actions[k].Proceeds?
  {
    if i > 0 {
      if Asking(run[i - 1]) { AskedOfOpenStream(run, actions, i - 1); } else { AskingStep(run[i - 1], actions[i - 1]); }
    }
  }

  /** A failed write is given up at once after shutdown. */
  lemma ShutdownEndsWriting(run: seq<Sys>, actions: seq<Action>, i: nat)
    requires IsRun(run, actions) && i < |actions| && run[i].parent.WriteFailed? && actions[i].Proceeds?
    ensures run[i + 1].parent == if run[i].env.shutdown then Done(Refused) else Conclude
  {}

  // ------------------------------------------------------------- the reader

  predicate Bounded(s: Sys) {
    |s.stream.reader.frame| <= RESULT_MAX + 1
  }

  lemma BoundedStep(s: Sys, a: Action)
    requires Bounded(s)
    ensures Bounded(Perform(s, a))
  {
    match a
    case Reads(ioError) => BoundedReader(s, s.stream.reader, ioError);
    case Proceeds(ok) => ParentSparesReader(s, s.parent, ok);
    case _ =>
  }

  lemma BoundedReader(s: Sys, r: Reader, ioError: bool)
    requires s.stream.reader == r && Bounded(s)
    ensures Bounded(ReaderStep(s, r, ioError))
  {}

  lemma ParentSparesReader(s: Sys, p: Parent, ok: bool)
    ensures SendStep(s, p, ok).stream == s.stream && RecvStep(s, p, ok).stream == s.stream
    ensures FallbackStep(s, p, ok).stream == s.stream
  {}

  /** The reader never holds more of a frame than the limit and one byte. */
  lemma {:induction false} FrameIsBounded(run: seq<Sys>, actions: seq<Action>, i: nat)
    requires IsRun(run, actions) && i < |run|
    ensures |run[i].stream.reader.frame| <= RESULT_MAX + 1
  {
    if i > 0 {
      FrameIsBounded(run, actions, i - 1);
      BoundedStep(run[i - 1], actions[i - 1]);
    }
  }

  /** How many steps the reader takes at most, if nothing more is written. */
  function StepsLeft(s: Sys): nat {
    8 * |s.env.pipe| +
    match s.stream.reader.at
    case Read => 3
    case LoadAllowed(_) => 7
    case SendStarted(_) => 6
    case Take(_) => 5
    case SendFrame(last) => if last then 2 else 4
    case SendFailed(_) => 1
    case Closed => 0
  }

  /** No step of the reader is in vain: it ends once the output has, whatever it
      reads, and at a failed read at once. */
  lemma ReaderMovesOn(s: Sys, ioError: bool)
    requires Enabled(s, Reads(ioError))
    ensures StepsLeft(Perform(s, Reads(ioError))) < StepsLeft(s)
    ensures s.stream.reader.at.Read? && ioError ==>
      Perform(s, Reads(ioError)).stream.reader.at == SendFailed(s.stream.reader.frame != [])
  {}

  /** How many steps `finish` takes at most once the reader has ended. */
  function FinishLeft(s: Sys): nat {
    (if s.channel.Some? then 30 else 0) +
    match s.parent
    case TryRecv => 18
    case WriteBody => 17
    case StoreAllowed => 16
    case WriteNewline => 15
    case WriteFailed => 14
    case RecvShutdown(_) => 13
    case RecvClock(_) => 12
    case RecvEvent(_) => 11
    case RecvFailed(_) => 10
    case Conclude => 9
    case ConcludeEvent => 8
    case Retry => 7
    case BatchShutdown => 6
    case BatchClock => 5
    case BatchLaunch => 4
    case BatchWait => 3
    case Decode(_) => 2
    case Reap(_) => 1
    case Done(_) => 0
  }

  lemma SendMovesOn(s: Sys, p: Parent, ok: bool)
    requires s.parent == p && s.stream.reader.at.Closed? && InSend(p)
    ensures FinishLeft(SendStep(s, p, ok)) < FinishLeft(s)
  {}

  lemma RecvMovesOn(s: Sys, p: Parent, ok: bool)
    requires s.parent == p && s.stream.reader.at.Closed? && InRecv(p)
    ensures FinishLeft(RecvStep(s, p, ok)) < FinishLeft(s)
  {}

  lemma FallbackMovesOn(s: Sys, p: Parent, ok: bool)
    requires s.parent == p && s.stream.reader.at.Closed? && !InSend(p) && !InRecv(p) && !p.Done?
    ensures FinishLeft(FallbackStep(s, p, ok)) < FinishLeft(s)
  {}

  /** Once the reader has ended `finish` does not wait: every step brings it nearer to
      its result, also long before the deadline. */
  lemma FinishMovesOn(s: Sys, ok: bool)
    requires s.stream.reader.at.Closed? && Enabled(s, Proceeds(ok))
    ensures FinishLeft(Perform(s, Proceeds(ok))) < FinishLeft(s)
    ensures Perform(s, Proceeds(ok)).stream == s.stream
  {
    ParentSparesReader(s, s.parent, ok);
    if InSend(s.parent) { SendMovesOn(s, s.parent, ok); }
    else if InRecv(s.parent) { RecvMovesOn(s, s.parent, ok); }
    else { FallbackMovesOn(s, s.parent, ok); }
  }
}
