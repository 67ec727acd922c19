/** Finishing a worker session: a reader thread turns the worker's output into
    events on a channel of capacity one, while `finish` sends the finish line,
    waits for a result frame, and may fall back to one batch worker. The history
    starts when the ready frame has been consumed. One step is one read of the
    pipe, one load or store of a flag, one look at the clock, or one send or
    receive. What killing the worker prevents is left to the environment. */
module Worker {
  import opened Bytes
  import opened Options

  const RESULT_MAX: nat := 1024 * 1024
  const NEWLINE: Byte := 10

  datatype Event = Started(beforeFinish: bool) | Frame(bytes: seq<Byte>, beforeFinish: bool) | Failed(bytesSeen: bool)

  /** The reader thread's position; `frame` and `beforeFinish` are its locals. */
  datatype ReaderAt =
    | Read
    | LoadAllowed(b: Byte)
    | SendStarted(b: Byte)
    | Take(b: Byte)
    | SendFrame(last: bool)
    | SendFailed(bytesSeen: bool)
    | Closed

  datatype Reader = Reader(at: ReaderAt, frame: seq<Byte>, beforeFinish: bool)

  datatype Result = Streamed(bytes: seq<Byte>) | Batched | Refused

  datatype Parent =
    | TryRecv
    | WriteBody
    | StoreAllowed
    | WriteNewline
    | WriteFailed
    | RecvShutdown(seen: bool)
    | RecvClock(seen: bool)
    | RecvEvent(seen: bool)
    | RecvFailed(seen: bool)
    | Decode(bytes: seq<Byte>)
    | Reap(bytes: seq<Byte>)
    | Conclude
    | ConcludeEvent
    | Retry
    | BatchShutdown
    | BatchClock
    | BatchLaunch
    | BatchWait
    | Done(result: Result)

  /** The reader thread and what it has done so far. */
  datatype Stream = Stream(
    reader: Reader,
    taken: seq<Byte>,          // history: every byte the reader has read
    first: Option<Event>,      // history: the first event sent
    second: Option<Event>,     // history: the second event sent
    early: bool,               // history: the reader found output not yet allowed
    readEarly: bool            // history: a byte was read before output was allowed
  )

  /** The worker process, the user and the clock. */
  datatype Env = Env(
    pipe: seq<Byte>,           // written by the worker, not yet read
    pipeClosed: bool,
    sawFinish: bool,           // the worker has read the finish line
    shutdown: bool,
    expired: bool              // the deadline has passed
  )

  /** What the gate of the batch worker found, no shutdown and then time left, and
      how many batch workers have been launched. */
  datatype Batch = Batch(clear: bool, inTime: bool, launched: nat)

  /** `polite`: the worker writes nothing before it has read the finish line. */
  datatype Setup = Setup(polite: bool, localStream: bool)

  datatype Sys = Sys(
    setup: Setup,
    env: Env,
    allowed: bool,             // output_allowed
    newlineSent: bool,
    channel: Option<Event>,    // sync_channel(1)
    stream: Stream,
    parent: Parent,
    received: nat,             // history: how many events have been received
    batch: Batch               // history
  )

  /** A session whose worker does not stream has no reader and no stream to
      finish; a local stream always has. */
  predicate Initial(s: Sys) {
    && s == Sys(s.setup, Env([], false, false, s.env.shutdown, s.env.expired), false, false, None,
                Stream(Reader(s.stream.reader.at, [], false), [], None, None, false, false), s.parent, 0, Batch(false, false, 0))
    && ((s.parent.TryRecv? && s.stream.reader.at.Read?) ||
        (s.parent.BatchShutdown? && s.stream.reader.at.Closed? && !s.setup.localStream))
  }

  datatype Action =
    | Emit(b: Byte)            // the worker writes
    | CloseOutput
    | SeeFinish                // the worker reads the finish line
    | SetShutdown
    | Expire
    | Reads(ioError: bool)
    | Proceeds(ok: bool)

  predicate Enabled(s: Sys, a: Action) {
    match a
    case Emit(_) => !s.env.pipeClosed && (s.setup.polite ==> s.env.sawFinish)
    case SeeFinish => s.newlineSent
    case Reads(ioError) =>
      match s.stream.reader.at {
        case Read => ioError || s.env.pipe != [] || s.env.pipeClosed
        case SendStarted(_) => s.channel.None?
        case SendFrame(_) => s.channel.None?
        case SendFailed(_) => s.channel.None?
        case Closed => false
        case _ => true
      }
    case Proceeds(_) => !s.parent.Done?
    case _ => true
  }

  function Send(s: Sys, event: Event, reader: Reader): Sys {
    var st := s.stream;
    s.(channel := Some(event),
       stream := st.(reader := reader,
                     first := if st.first.None? then Some(event) else st.first,
                     second := if st.first.Some? && st.second.None? then Some(event) else st.second))
  }

  /** The reader thread. */
  function ReaderStep(s: Sys, r: Reader, ioError: bool): Sys {
    var st := s.stream;
    match r.at
    case Read =>
      if ioError then s.(stream := st.(reader := r.(at := SendFailed(r.frame != []))))
      else if s.env.pipe != [] then
        s.(env := s.env.(pipe := s.env.pipe[1..]),
           stream := st.(taken := st.taken + [s.env.pipe[0]], readEarly := st.readEarly || !s.allowed,
                         reader := r.(at := if r.frame == [] then LoadAllowed(s.env.pipe[0]) else Take(s.env.pipe[0]))))
      else if s.env.pipeClosed then
        s.(stream := st.(reader := r.(at := if r.frame == [] then Closed else SendFrame(true))))
      else s
    case LoadAllowed(b) =>
      s.(stream := st.(early := st.early || !s.allowed, reader := r.(at := SendStarted(b), beforeFinish := !s.allowed)))
    case SendStarted(b) =>
      Send(s, Started(r.beforeFinish), r.(at := Take(b)))
    case Take(b) =>
      s.(stream := st.(reader :=
           if b == NEWLINE then r.(at := SendFrame(false))
           else if |r.frame| == RESULT_MAX + 1 then r.(at := SendFailed(true))
           else r.(at := Read, frame := r.frame + [b])))
    case SendFrame(last) =>
      Send(s, Frame(r.frame, r.beforeFinish), Reader(if last then Closed else Read, [], false))
    case SendFailed(bytesSeen) =>
      Send(s, Failed(bytesSeen), r.(at := Closed))
    case Closed => s
  }

  predicate Disconnected(s: Sys) {
    s.channel.None? && s.stream.reader.at.Closed?
  }

  function Recv(s: Sys): Sys {
    s.(channel := None, received := s.received + 1)
  }

  function Refuse(s: Sys): Sys {
    s.(parent := Done(Refused))
  }

  /** `finish` up to the wait for the result frame. */
  function SendStep(s: Sys, p: Parent, ok: bool): Sys {
    match p
    case TryRecv =>
      if s.channel.Some? then
        match s.channel.value
        case Failed(bytesSeen) =>
          if bytesSeen then Refuse(Recv(s)) else Recv(s).(parent := Retry)
        case _ => Refuse(Recv(s))
      else if Disconnected(s) then s.(parent := Retry)
      else s.(parent := WriteBody)
    case WriteBody => s.(parent := if ok then StoreAllowed else WriteFailed)
    case StoreAllowed => s.(allowed := true, parent := WriteNewline)
    case WriteNewline =>
      if ok then s.(newlineSent := true, parent := RecvShutdown(false)) else s.(parent := WriteFailed)
    case WriteFailed =>
      if s.env.shutdown then Refuse(s) else s.(parent := Conclude)
    case _ => s
  }

  /** `recv_until` with `reject_before_finish`, and what `finish` does with it. */
  function RecvStep(s: Sys, p: Parent, ok: bool): Sys {
    match p
    case RecvShutdown(seen) => s.(parent := if s.env.shutdown then RecvFailed(seen) else RecvClock(seen))
    case RecvClock(seen) => s.(parent := if s.env.expired then RecvFailed(seen) else RecvEvent(seen))
    case RecvEvent(seen) =>
      if s.channel.Some? then
        match s.channel.value
        case Started(beforeFinish) =>
          Recv(s).(parent := if beforeFinish then RecvFailed(true) else RecvShutdown(true))
        case Frame(bytes, beforeFinish) =>
          Recv(s).(parent := if bytes != [] && |bytes| <= RESULT_MAX && !beforeFinish then Decode(bytes)
                             else RecvFailed(true))
        case Failed(bytesSeen) => Recv(s).(parent := RecvFailed(seen || bytesSeen))
      else s.(parent := if Disconnected(s) then RecvFailed(seen) else RecvShutdown(seen))
    case Decode(bytes) => if ok then s.(parent := Reap(bytes)) else Refuse(s)
    case Reap(bytes) => s.(parent := Done(if ok then Streamed(bytes) else Refused))
    case RecvFailed(seen) =>
      if seen then Refuse(s) else s.(parent := Conclude)
    case _ => s
  }

  /** `conclusively_no_output`, `retry_batch` and `batch`. */
  function FallbackStep(s: Sys, p: Parent, ok: bool): Sys {
    match p
    case Conclude => if s.env.expired then Refuse(s) else s.(parent := ConcludeEvent)
    case ConcludeEvent =>
      if s.channel.Some? then
        if s.channel.value.Failed? && !s.channel.value.bytesSeen then Recv(s).(parent := Conclude) else Refuse(Recv(s))
      else s.(parent := if Disconnected(s) then Retry else Conclude)
    case Retry => if s.setup.localStream then Refuse(s) else s.(parent := BatchShutdown)
    case BatchShutdown => if s.env.shutdown then Refuse(s) else s.(batch := s.batch.(clear := true), parent := BatchClock)
    case BatchClock => if s.env.expired then Refuse(s) else s.(batch := s.batch.(inTime := true), parent := BatchLaunch)
    case BatchLaunch =>
      if ok then s.(batch := s.batch.(launched := s.batch.launched + 1), parent := BatchWait) else Refuse(s)
    case BatchWait => s.(parent := Done(if ok then Batched else Refused))
    case _ => s
  }

  predicate InSend(p: Parent) {
    p.TryRecv? || p.WriteBody? || p.StoreAllowed? || p.WriteNewline? || p.WriteFailed?
  }

  predicate InRecv(p: Parent) {
    p.RecvShutdown? || p.RecvClock? || p.RecvEvent? || p.RecvFailed? || p.Decode? || p.Reap?
  }

  function ParentStep(s: Sys, p: Parent, ok: bool): Sys {
    if InSend(p) then SendStep(s, p, ok) else if InRecv(p) then RecvStep(s, p, ok) else FallbackStep(s, p, ok)
  }

  function Perform(s: Sys, a: Action): Sys {
    match a
    case Emit(b) => s.(env := s.env.(pipe := s.env.pipe + [b]))
    case CloseOutput => s.(env := s.env.(pipeClosed := true))
    case SeeFinish => s.(env := s.env.(sawFinish := true))
    case SetShutdown => s.(env := s.env.(shutdown := true))
    case Expire => s.(env := s.env.(expired := true))
    case Reads(ioError) => ReaderStep(s, s.stream.reader, ioError)
    case Proceeds(ok) => ParentStep(s, s.parent, ok)
  }

  ghost predicate IsRun(run: seq<Sys>, actions: seq<Action>) {
    && |run| == |actions| + 1
    && Initial(run[0])
    && forall i {:trigger actions[i]} :: 0 <= i < |actions| ==>
         Enabled(run[i], actions[i]) && run[i + 1] == Perform(run[i], actions[i])
  }

  /** Some run ends here. */
  ghost predicate Reachable(s: Sys) {
    exists run, actions :: IsRun(run, actions) && run[|run| - 1] == s
  }

  lemma InitialIsReachable(s: Sys)
    requires Initial(s)
    ensures Reachable(s)
  {
    assert IsRun([s], []);
  }

  lemma Reaches(s: Sys, a: Action)
    requires Reachable(s) && Enabled(s, a)
    ensures Reachable(Perform(s, a))
  {
    var run, actions :| IsRun(run, actions) && run[|run| - 1] == s;
    Extends(run, actions, a);
  }

  lemma Extends(run: seq<Sys>, actions: seq<Action>, a: Action)
    requires IsRun(run, actions) && Enabled(run[|run| - 1], a)
    ensures IsRun(run + [Perform(run[|run| - 1], a)], actions + [a])
  {}
}
