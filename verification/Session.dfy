/** The Linux session controller: any number of clients call `toggle`, `reload`,
    `set_*` and `shutdown_and_join` while one run loop records, stops and
    delivers. Every atomic load, store, fetch-add or compare-exchange, every
    acquisition of the snapshot lock and every send or receive is one step.

    Fields and parameters marked history are written but never read by a step. */
module Session {
  import opened Options

  const ADMISSION_NONE: nat := 0
  const ADMISSION_FINISH_BIT: nat := 1
  const FIRST_ADMISSION: nat := 2
  const RESTART_READY_BIT: nat := 1

  datatype State =
    | Idle | Starting | Recording | Stopping | Processing | Delivering
    | Success | Error | Cancelled

  datatype Snapshot = Snapshot(state: State, generation: nat)

  /** `admittedAt` is history: the generation the sender verified. */
  datatype Command =
    | CancelStartup(requested: nat)
    | Toggle(expected: State, reply: nat, admittedAt: nat)
    | RestartReady
    | Configure(reply: nat)  // Reload, SetProcessingMode and SetOutputMethod
    | Shutdown

  datatype Result = Accepted | Answered | Busy | Unavailable

  /** Where one client call stands. `prev` is history: the generation for which
      this call's last `queue_restart` saw Idle before calling `toggle` again. */
  datatype Op =
    | ToggleStatus(prev: Option<nat>)
    | CancelLock(gen: nat)
    | CancelStore(gen: nat)
    | CancelSend(gen: nat)
    | ToggleLoadAdmitted(gen: nat, prev: Option<nat>)
    | ToggleIssue(expected: State, gen: nat, prev: Option<nat>)
    | ToggleAcquire(expected: State, gen: nat, token: nat, prev: Option<nat>)
    | ToggleVerify(expected: State, gen: nat, token: nat)
    | ToggleSend(expected: State, gen: nat, token: nat)
    | RestartReserve(gen: nat, prev: Option<nat>)
    | RestartStatus(gen: nat)
    | RestartLoadAdmitted(gen: nat, seen: nat)
    | RestartWithdrawIdle(gen: nat)
    | RestartMark(gen: nat)
    | RestartSend(gen: nat)
    | RestartUndo(gen: nat)
    | RestartWithdraw(gen: nat)
    | ConfigStatus
    | ConfigIssue
    | ConfigAcquire(token: nat)
    | ConfigSend(token: nat)
    | Await(token: nat)
    | Release(token: nat, result: Result)
    | ShutdownStore
    | ShutdownSend
    | Done(result: Result)

  /** Who asked the run loop to start, and who asked it to finish. */
  datatype Starter = ByToggle(reply: nat) | ByRestart(request: nat, token: nat)
  datatype Stopper = ByUser(reply: nat, admittedAt: nat) | ByLimit(token: nat)

  datatype StartPhase =
    | Begin
    | AnnounceStarting
    | WorkerStart
    | CheckShutdown
    | CheckCancel
    | AnnounceRecording
    | FailCheckCancel
    | FailCheckShutdown
    | AnnounceFailure(outcome: State)
    | Return

  datatype FinishPhase =
    | AnnounceStopping
    | StopCapture
    | AnnounceProcessing
    | WorkerFinish
    | AnnounceDelivering
    | Deliver
    | LoadShutdown(outcome: State)
    | AnnounceOutcome(outcome: State)

  datatype Loop =
    | Head
    | CancelPublish
    | CancelCheck
    | ConfigRead(reply: nat)
    | ConfigReread(reply: nat)
    | ToggleRead(expected: State, reply: nat, admittedAt: nat)
    | Reply(reply: nat)
    | InStart(start: StartPhase, who: Starter)       // inside `start_active`
    | InFinish(finish: FinishPhase, stopper: Stopper) // inside `finish_active`
    | Timeout
    | IdlePublish
    | EarlyExitPublish
    | LimitIssue
    | LimitAcquire(token: nat)
    | LimitRelease(token: nat)
    | LevelPublish(again: bool)
    | Tail
    | TailShutdown(request: nat)
    | TailDrop(request: nat)
    | TailLoadAdmitted(request: nat)
    | TailIssue(request: nat, owner: nat)
    | TailAcquire(request: nat, owner: nat, token: nat)
    | TailIdle(request: nat, token: nat)
    | TailClear(request: nat, token: nat)
    | TailRelease(token: nat)
    | Exited

  datatype Actor = Client(op: nat) | RunLoop

  /** The admission word and its token counter. */
  datatype Gate = Gate(
    admitted: nat,
    next: nat,
    issuer: map<nat, Actor>,   // history: who drew each token
    ever: set<nat>,            // history: tokens that have owned the word
    displaced: set<nat>        // history: finish tokens a restart took over
  )

  /** The restart word. */
  datatype Ticket = Ticket(
    word: nat,
    reserver: Option<nat>,     // history: the last call to reserve the word
    ready: set<nat>,           // history: generations whose request was READY
    restarted: set<nat>        // history: generations the loop took over from
  )

  /** What has been sent to the update channel and to the output. */
  datatype Log = Log(published: seq<Snapshot>, delivered: seq<nat>)

  datatype Sys = Sys(
    gate: Gate,
    ticket: Ticket,
    startupCancelled: nat,
    cancels: set<nat>,         // history: generations whose startup cancel was sent
    shutdown: bool,
    snapshot: Snapshot,
    lock: Option<nat>,         // the call inside the Starting lock section
    queue: seq<Command>,
    replied: set<nat>,         // calls whose reply channel holds an answer
    ops: map<nat, Op>,         // every call ever made
    loop: Loop,
    generation: nat,
    active: bool,
    terminal: bool,            // terminal_until is Some
    log: Log
  )

  const Init := Sys(
    Gate(ADMISSION_NONE, FIRST_ADMISSION, map[], {}, {}),
    Ticket(0, None, {}, {}),
    0, {}, false, Snapshot(Idle, 0), None, [], {}, map[],
    Head, 0, false, false, Log([Snapshot(Idle, 0)], []))

  predicate IsFinish(owner: nat) {
    owner != ADMISSION_NONE && owner % 2 == ADMISSION_FINISH_BIT
  }

  function Pending(generation: nat): nat {
    (generation + 1) * 2
  }

  function Ready(generation: nat): nat {
    Pending(generation) + RESTART_READY_BIT
  }

  predicate IsReady(request: nat) {
    request % 2 == RESTART_READY_BIT
  }

  function Tag(request: nat): nat {
    request / 2
  }

  /** The states in which `toggle` queues a restart. */
  predicate IsEnding(state: State) {
    state.Stopping? || state.Processing? || state.Delivering? || IsTerminal(state)
  }

  predicate IsTerminal(state: State) {
    state.Success? || state.Error? || state.Cancelled?
  }

  predicate Alive(s: Sys) {
    !s.loop.Exited?
  }

  predicate Free(s: Sys) {
    s.lock.None?
  }

  function CompareExchange(word: nat, current: nat, new_: nat): nat {
    if word == current then new_ else word
  }

  /** The token fetch_add(2) yields, with the finish bit when asked. */
  function Token(g: Gate, finishing: bool): nat {
    g.next + if finishing then ADMISSION_FINISH_BIT else 0
  }

  function Issue(g: Gate, finishing: bool, actor: Actor): Gate {
    g.(next := g.next + 2, issuer := g.issuer[Token(g, finishing) := actor])
  }

  /** A successful compare-exchange installing `token` over `owner`. */
  function Admit(g: Gate, owner: nat, token: nat): Gate {
    g.(admitted := token, ever := g.ever + {token}, displaced := g.displaced + ({owner} - {ADMISSION_NONE}))
  }

  function Unadmit(g: Gate, token: nat): Gate {
    g.(admitted := CompareExchange(g.admitted, token, ADMISSION_NONE))
  }

  function Clear(t: Ticket, expected: nat): Ticket {
    t.(word := CompareExchange(t.word, expected, 0))
  }

  function Publish(s: Sys, state: State): Sys {
    var next := Snapshot(state, s.generation);
    s.(snapshot := next, log := s.log.(published := s.log.published + [next]))
  }

  /** The branch `queue_restart` takes once it has a snapshot. */
  function RestartDecide(gen: nat, seen: Snapshot, queueable: bool): Op {
    if seen.generation == gen && seen.state.Idle? then RestartWithdrawIdle(gen)
    else if seen.generation == gen && queueable then RestartMark(gen)
    else RestartWithdraw(gen)
  }

  /** The branch `toggle` takes after its first look at the snapshot. */
  function ToggleDecide(seen: Snapshot, prev: Option<nat>): Op {
    if seen.state.Starting? then CancelLock(seen.generation)
    else if IsEnding(seen.state) then RestartReserve(seen.generation, prev)
    else if seen.state.Recording? then ToggleLoadAdmitted(seen.generation, prev)
    else ToggleIssue(Idle, seen.generation, prev)
  }

  /** The outcome of one step of a call: the words it leaves and where it is next. */
  datatype Step = Step(sys: Sys, op: Op)

  /** A call waits for the snapshot lock, or for its answer; nothing else blocks. */
  predicate OpEnabled(s: Sys, c: nat, op: Op) {
    match op
    case ToggleStatus(_) => Free(s)
    case CancelLock(_) => Free(s)
    case ToggleVerify(_, _, _) => Free(s)
    case RestartStatus(_) => Free(s)
    case ConfigStatus => Free(s)
    case Await(_) => c in s.replied || !Alive(s)
    case Done(_) => false
    case _ => true
  }

  /** `toggle`, outside the startup-cancel branch and up to the send. */
  function ToggleStep(s: Sys, c: nat, op: Op): Step {
    match op
    case ToggleStatus(prev) =>
      Step(s, ToggleDecide(s.snapshot, prev))
    case ToggleLoadAdmitted(g, prev) =>
      Step(s, if IsFinish(s.gate.admitted) then RestartReserve(g, prev) else ToggleIssue(Recording, g, prev))
    case ToggleIssue(e, g, prev) =>
      Step(s.(gate := Issue(s.gate, e.Recording?, Client(c))),
           ToggleAcquire(e, g, Token(s.gate, e.Recording?), prev))
    case ToggleAcquire(e, g, token, prev) =>
      if s.gate.admitted == ADMISSION_NONE then
        Step(s.(gate := Admit(s.gate, ADMISSION_NONE, token)), ToggleVerify(e, g, token))
      else if e.Recording? && IsFinish(s.gate.admitted) then Step(s, RestartReserve(g, prev))
      else Step(s, Done(Busy))
    case ToggleVerify(e, g, token) =>
      Step(s, if s.snapshot == Snapshot(e, g) then ToggleSend(e, g, token) else Release(token, Busy))
    case ToggleSend(e, g, token) =>
      if Alive(s) then Step(s.(queue := s.queue + [Toggle(e, c, g)]), Await(token))
      else Step(s, Release(token, Unavailable))
    case _ => Step(s, op)
  }

  /** The startup-cancel branch of `toggle`, which runs under the snapshot lock. */
  function CancelStep(s: Sys, c: nat, op: Op): Step {
    match op
    case CancelLock(g) =>
      if s.snapshot == Snapshot(Starting, g) then Step(s.(lock := Some(c)), CancelStore(g))
      else Step(s, Done(Busy))
    case CancelStore(g) =>
      Step(s.(startupCancelled := g), CancelSend(g))
    case CancelSend(g) =>
      if Alive(s) then
        Step(s.(lock := None, queue := s.queue + [CancelStartup(g)], cancels := s.cancels + {g}), Done(Accepted))
      else Step(s.(lock := None), Done(Unavailable))
    case _ => Step(s, op)
  }

  /** `queue_restart`. */
  function RestartStep(s: Sys, c: nat, op: Op): Step {
    match op
    case RestartReserve(g, prev) =>
      if s.ticket.word == 0 then
        Step(s.(ticket := s.ticket.(word := Pending(g), reserver := Some(c))), RestartStatus(g))
      else Step(s, Done(Busy))
    case RestartStatus(g) =>
      Step(s, if s.snapshot.state.Recording? then RestartLoadAdmitted(g, s.snapshot.generation)
              else RestartDecide(g, s.snapshot, IsEnding(s.snapshot.state)))
    case RestartLoadAdmitted(g, seen) =>
      Step(s, RestartDecide(g, Snapshot(Recording, seen), IsFinish(s.gate.admitted)))
    case RestartWithdrawIdle(g) =>
      if s.ticket.word == Pending(g) then Step(s.(ticket := s.ticket.(word := 0)), ToggleStatus(Some(g)))
      else Step(s, Done(Busy))
    case RestartMark(g) =>
      if s.ticket.word == Pending(g) then
        Step(s.(ticket := s.ticket.(word := Ready(g), ready := s.ticket.ready + {g})), RestartSend(g))
      else Step(s, RestartWithdraw(g))
    case RestartSend(g) =>
      if Alive(s) then Step(s.(queue := s.queue + [RestartReady]), Done(Accepted))
      else Step(s, RestartUndo(g))
    case RestartUndo(g) =>
      Step(s.(ticket := Clear(s.ticket, Ready(g))), Done(Unavailable))
    case RestartWithdraw(g) =>
      Step(s.(ticket := Clear(s.ticket, Pending(g))), Done(Busy))
    case _ => Step(s, op)
  }

  /** `reload`, `set_processing_mode`, `set_output_method` and
      `shutdown_and_join`; waiting for an answer and giving the token back. */
  function ConfigStep(s: Sys, c: nat, op: Op): Step {
    match op
    case ConfigStatus =>
      Step(s, if s.snapshot.state.Idle? then ConfigIssue else Done(Busy))
    case ConfigIssue =>
      Step(s.(gate := Issue(s.gate, false, Client(c))), ConfigAcquire(Token(s.gate, false)))
    case ConfigAcquire(token) =>
      if s.gate.admitted == ADMISSION_NONE then
        Step(s.(gate := Admit(s.gate, ADMISSION_NONE, token)), ConfigSend(token))
      else Step(s, Done(Busy))
    case ConfigSend(token) =>
      if Alive(s) then Step(s.(queue := s.queue + [Configure(c)]), Await(token))
      else Step(s, Release(token, Unavailable))
    case Await(token) =>
      Step(s, Release(token, if c in s.replied then Answered else Unavailable))
    case Release(token, result) =>
      Step(s.(gate := Unadmit(s.gate, token)), Done(result))
    case ShutdownStore =>
      Step(s.(shutdown := true), ShutdownSend)
    case ShutdownSend =>
      if Alive(s) then Step(s.(queue := s.queue + [Shutdown]), Done(Accepted))
      else Step(s, Done(Unavailable))
    case _ => Step(s, op)
  }

  predicate InToggle(op: Op) {
    op.ToggleStatus? || op.ToggleLoadAdmitted? || op.ToggleIssue? || op.ToggleAcquire? || op.ToggleVerify? ||
    op.ToggleSend?
  }

  predicate InCancel(op: Op) {
    op.CancelLock? || op.CancelStore? || op.CancelSend?
  }

  predicate InRestart(op: Op) {
    op.RestartReserve? || op.RestartStatus? || op.RestartLoadAdmitted? || op.RestartWithdrawIdle? ||
    op.RestartMark? || op.RestartSend? || op.RestartUndo? || op.RestartWithdraw?
  }

  function OpStep(s: Sys, c: nat, op: Op): Step {
    if InToggle(op) then ToggleStep(s, c, op)
    else if InCancel(op) then CancelStep(s, c, op)
    else if InRestart(op) then RestartStep(s, c, op)
    else ConfigStep(s, c, op)
  }

  function Exit(s: Sys): Sys {
    s.(active := false, loop := Exited, queue := [])
  }

  function Receive(s: Sys, command: Command): Sys {
    match command
    case Shutdown => Exit(s)
    case CancelStartup(requested) =>
      if requested != s.generation then s.(loop := Tail)
      else if s.active then s.(active := false, loop := CancelPublish)
      else s.(loop := CancelCheck)
    case Configure(c) => s.(loop := ConfigRead(c))
    case Toggle(e, c, g) => s.(loop := ToggleRead(e, c, g))
    case RestartReady => s.(loop := Tail)
  }

  /** What the environment answers to a step of the run loop: a recorder,
      worker, output or configuration file that fails or succeeds, a
      transcript without speech, or what the 100 ms tick finds. */
  datatype Answer =
    | Fails | Succeeds | NoSpeech
    | Expired | EarlyExit | LimitReached | LevelReady | Nothing | Disconnected

  /** The head of the loop: `recv_timeout`. */
  function HeadStep(s: Sys, a: Answer): Sys {
    if s.queue != [] then Receive(s.(queue := s.queue[1..]), s.queue[0])
    else if a.Disconnected? then Exit(s)
    else s.(loop := Timeout)
  }

  /** Answering a command. */
  function CommandStep(s: Sys, loop: Loop, a: Answer): Sys {
    match loop
    case CancelPublish =>
      Publish(s, Cancelled).(loop := CancelCheck)
    case CancelCheck =>
      s.(terminal := s.terminal || s.snapshot.state.Cancelled?, loop := Tail)
    case ConfigRead(c) =>
      s.(loop := if s.snapshot.state.Idle? && !s.active && a.Succeeds? then ConfigReread(c) else Reply(c))
    case ConfigReread(c) =>
      s.(loop := Reply(c))
    case ToggleRead(e, c, g) =>
      if s.snapshot.state != e then s.(loop := Reply(c))
      else if e.Idle? && !s.active then s.(loop := InStart(Begin, ByToggle(c)))
      else if e.Recording? && s.active then
        s.(active := false, loop := InFinish(AnnounceStopping, ByUser(c, g)))
      else s.(loop := Reply(c))
    case Reply(c) =>
      s.(replied := s.replied + {c}, loop := Tail)
    case _ => s
  }

  /** The tick: retiring a terminal state, an early capture exit, the duration
      limit, or a level update. */
  function TickStep(s: Sys, loop: Loop, a: Answer): Sys {
    match loop
    case Timeout =>
      if s.active then
        match a
        case EarlyExit => s.(active := false, loop := EarlyExitPublish)
        case LimitReached => s.(loop := LimitIssue)
        case LevelReady => s.(loop := LevelPublish(false))
        case _ => s.(loop := Tail)
      else s.(loop := if Tag(s.ticket.word) != s.generation + 1 && s.terminal && a.Expired? then IdlePublish else Tail)
    case IdlePublish =>
      Publish(s, Idle).(terminal := false, loop := Tail)
    case EarlyExitPublish =>
      Publish(s, Error).(terminal := true, loop := Tail)
    case LimitIssue =>
      s.(gate := Issue(s.gate, true, RunLoop), loop := LimitAcquire(Token(s.gate, true)))
    case LimitAcquire(token) =>
      if s.gate.admitted == ADMISSION_NONE then
        s.(gate := Admit(s.gate, ADMISSION_NONE, token), active := false,
           loop := InFinish(AnnounceStopping, ByLimit(token)))
      else s.(loop := Tail)
    case LimitRelease(token) =>
      s.(gate := Unadmit(s.gate, token), loop := Tail)
    case LevelPublish(again) =>
      Publish(s, Recording).(loop := if again then Tail else LevelPublish(true))
    case _ => s
  }

  /** `start_active`. */
  function StartStep(s: Sys, phase: StartPhase, who: Starter, a: Answer): Sys {
    match phase
    case Begin =>
      s.(generation := s.generation + 1,
         loop := InStart(if a.Succeeds? then AnnounceStarting else FailCheckCancel, who))
    case AnnounceStarting =>
      Publish(s, Starting).(loop := InStart(WorkerStart, who))
    case WorkerStart =>
      s.(loop := InStart(if a.Succeeds? then CheckShutdown else FailCheckCancel, who))
    case CheckShutdown =>
      s.(loop := InStart(if s.shutdown then FailCheckCancel else CheckCancel, who))
    case CheckCancel =>
      s.(loop := InStart(if s.startupCancelled == s.generation then FailCheckCancel else AnnounceRecording, who))
    case AnnounceRecording =>
      Publish(s, Recording).(active := true, loop := InStart(Return, who))
    case FailCheckCancel =>
      s.(loop := InStart(if s.startupCancelled == s.generation then AnnounceFailure(Cancelled)
                         else FailCheckShutdown, who))
    case FailCheckShutdown =>
      s.(loop := InStart(AnnounceFailure(if s.shutdown then Cancelled else Error), who))
    case AnnounceFailure(outcome) =>
      Publish(s, outcome).(loop := InStart(Return, who))
    case Return =>
      s.(terminal := s.terminal || !s.active,
         loop := match who
                 case ByToggle(c) => Reply(c)
                 case ByRestart(request, token) => TailClear(request, token))
  }

  /** `finish_active` and `deliver_outcome`. */
  function FinishStep(s: Sys, phase: FinishPhase, stopper: Stopper, a: Answer): Sys {
    match phase
    case AnnounceStopping =>
      Publish(s, Stopping).(loop := InFinish(StopCapture, stopper))
    case StopCapture =>
      s.(loop := InFinish(if a.Succeeds? then AnnounceProcessing else LoadShutdown(Error), stopper))
    case AnnounceProcessing =>
      Publish(s, Processing).(loop := InFinish(WorkerFinish, stopper))
    case WorkerFinish =>
      s.(loop := InFinish(match a
                          case Succeeds => AnnounceDelivering
                          case NoSpeech => LoadShutdown(Success)
                          case _ => LoadShutdown(Error), stopper))
    case AnnounceDelivering =>
      Publish(s, Delivering).(loop := InFinish(Deliver, stopper))
    case Deliver =>
      s.(log := s.log.(delivered := s.log.delivered + [s.generation]),
         loop := InFinish(LoadShutdown(if a.Succeeds? then Success else Error), stopper))
    case LoadShutdown(outcome) =>
      s.(loop := InFinish(AnnounceOutcome(if s.shutdown then Cancelled else outcome), stopper))
    case AnnounceOutcome(outcome) =>
      Publish(s, outcome).(terminal := true,
                           loop := match stopper
                                   case ByUser(c, _) => Reply(c)
                                   case ByLimit(token) => LimitRelease(token))
  }

  /** The restart request, looked at after every command and every tick, and
      the takeover of the admission word it may lead to. */
  function TailStep(s: Sys, loop: Loop): Sys {
    match loop
    case Tail =>
      s.(loop := if !s.active && s.ticket.word != 0 then TailShutdown(s.ticket.word) else Head)
    case TailShutdown(request) =>
      s.(loop := if s.shutdown || !IsReady(request) then Head
                 else if Tag(request) != s.generation + 1 then TailDrop(request)
                 else TailLoadAdmitted(request))
    case TailDrop(request) =>
      s.(ticket := Clear(s.ticket, request), loop := Head)
    case TailLoadAdmitted(request) =>
      s.(loop := if s.gate.admitted != ADMISSION_NONE && !IsFinish(s.gate.admitted) then Head
                 else TailIssue(request, s.gate.admitted))
    case TailIssue(request, owner) =>
      s.(gate := Issue(s.gate, false, RunLoop), loop := TailAcquire(request, owner, Token(s.gate, false)))
    case TailAcquire(request, owner, token) =>
      if s.gate.admitted == owner then
        s.(gate := Admit(s.gate, owner, token), loop := TailIdle(request, token))
      else s.(loop := Head)
    case TailIdle(request, token) =>
      Publish(s, Idle).(terminal := false,
                        ticket := s.ticket.(restarted := s.ticket.restarted + {s.generation}),
                        loop := InStart(Begin, ByRestart(request, token)))
    case TailClear(request, token) =>
      s.(ticket := Clear(s.ticket, request), loop := TailRelease(token))
    case TailRelease(token) =>
      s.(gate := Unadmit(s.gate, token), loop := Head)
    case _ => s
  }

  datatype Region = AtHead | AtCommand | AtTick | AtStart | AtFinish | AtTail

  function Where(loop: Loop): Region {
    match loop
    case Head => AtHead
    case InStart(_, _) => AtStart
    case InFinish(_, _) => AtFinish
    case CancelPublish => AtCommand
    case CancelCheck => AtCommand
    case ConfigRead(_) => AtCommand
    case ConfigReread(_) => AtCommand
    case ToggleRead(_, _, _) => AtCommand
    case Reply(_) => AtCommand
    case Timeout => AtTick
    case IdlePublish => AtTick
    case EarlyExitPublish => AtTick
    case LimitIssue => AtTick
    case LimitAcquire(_) => AtTick
    case LimitRelease(_) => AtTick
    case LevelPublish(_) => AtTick
    case _ => AtTail
  }

  function LoopStep(s: Sys, loop: Loop, a: Answer): Sys {
    match Where(loop)
    case AtHead => HeadStep(s, a)
    case AtCommand => CommandStep(s, loop, a)
    case AtTick => TickStep(s, loop, a)
    case AtStart => StartStep(s, loop.start, loop.who, a)
    case AtFinish => FinishStep(s, loop.finish, loop.stopper, a)
    case AtTail => TailStep(s, loop)
  }

  /** The run loop waits only for the snapshot lock, and never after it exits.
      The channel disconnects once no call is left to send on it. */
  predicate LoopEnabled(s: Sys, a: Answer) {
    && Alive(s)
    && (UsesSnapshot(s.loop) ==> Free(s))
    && (s.loop.Head? && a.Disconnected? ==> forall c <- s.ops :: s.ops[c].Done?)
  }

  predicate UsesSnapshot(loop: Loop) {
    match loop
    case CancelPublish => true
    case CancelCheck => true
    case ConfigRead(_) => true
    case ConfigReread(_) => true
    case ToggleRead(_, _, _) => true
    case IdlePublish => true
    case EarlyExitPublish => true
    case LevelPublish(_) => true
    case TailIdle(_, _) => true
    case InStart(phase, _) => phase.AnnounceStarting? || phase.AnnounceRecording? || phase.AnnounceFailure?
    case InFinish(phase, _) =>
      phase.AnnounceStopping? || phase.AnnounceProcessing? || phase.AnnounceDelivering? || phase.AnnounceOutcome?
    case _ => false
  }

  /** One step: a new call, a step of a call, or a step of the run loop. */
  datatype Action = Call(c: nat, op: Op) | Advance(c: nat) | Loop(answer: Answer)

  predicate Enabled(s: Sys, action: Action) {
    match action
    case Call(c, op) => c !in s.ops && (op == ToggleStatus(None) || op == ConfigStatus || op == ShutdownStore)
    case Advance(c) => c in s.ops && OpEnabled(s, c, s.ops[c])
    case Loop(answer) => LoopEnabled(s, answer)
  }

  function Perform(s: Sys, action: Action): Sys
    requires Enabled(s, action)
  {
    match action
    case Call(c, op) => s.(ops := s.ops[c := op])
    case Advance(c) =>
      var step := OpStep(s, c, s.ops[c]);
      step.sys.(ops := s.ops[c := step.op])
    case Loop(answer) => LoopStep(s, s.loop, answer)
  }

  /** A run: any interleaving of the run loop and any number of calls. */
  ghost predicate IsRun(run: seq<Sys>, actions: seq<Action>) {
    && |run| == |actions| + 1
    && run[0] == Init
    && forall i {:trigger actions[i]} :: 0 <= i < |actions| ==> Enabled(run[i], actions[i]) && run[i + 1] == Perform(run[i], actions[i])
  }

  /** Some run ends here. */
  ghost predicate Reachable(s: Sys) {
    exists run, actions :: IsRun(run, actions) && run[|run| - 1] == s
  }

  lemma InitIsReachable()
    ensures Reachable(Init)
  {
    assert IsRun([Init], []);
  }

  lemma Reaches(s: Sys, action: Action)
    requires Reachable(s) && Enabled(s, action)
    ensures Reachable(Perform(s, action))
  {
    var run, actions :| IsRun(run, actions) && run[|run| - 1] == s;
    Extends(run, actions, action);
  }

  lemma Extends(run: seq<Sys>, actions: seq<Action>, action: Action)
    requires IsRun(run, actions) && Enabled(run[|run| - 1], action)
    ensures IsRun(run + [Perform(run[|run| - 1], action)], actions + [action])
  {}
}
