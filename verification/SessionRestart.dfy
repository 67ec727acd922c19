/** Who owns the restart word. A reservation has one owning call; a READY
    request stays until its generation has been followed by another. */
module SessionRestart {
  import opened Options
  import opened Session
  import opened SessionLifecycle

  /** The call has reserved the word and not yet given it up or marked it. */
  predicate Reserving(op: Op) {
    op.RestartStatus? || op.RestartLoadAdmitted? || op.RestartWithdrawIdle? || op.RestartMark? || op.RestartWithdraw?
  }

  /** The generation the call has seen in a snapshot and still acts on. */
  function Seen(op: Op): Option<nat> {
    match op
    case ToggleLoadAdmitted(g, _) => Some(g)
    case ToggleIssue(_, g, _) => Some(g)
    case ToggleAcquire(_, g, _, _) => Some(g)
    case RestartReserve(g, _) => Some(g)
    case RestartStatus(g) => Some(g)
    case RestartLoadAdmitted(g, _) => Some(g)
    case RestartWithdrawIdle(g) => Some(g)
    case RestartMark(g) => Some(g)
    case RestartSend(g) => Some(g)
    case RestartUndo(g) => Some(g)
    case RestartWithdraw(g) => Some(g)
    case _ => None
  }

  predicate OpTicket(t: Ticket, latest: nat, alive: bool, op: Op, c: nat) {
    && (Seen(op).Some? ==> Seen(op).value <= latest)
    && (Reserving(op) ==> t.word == Pending(op.gen) && t.reserver == Some(c))
    && (op.RestartMark? && alive ==> op.gen !in t.ready)
    && (op.RestartLoadAdmitted? && alive && op.seen == op.gen ==> op.gen !in t.ready)
    && (op.RestartUndo? ==> !alive)
  }

  /** The request is READY and names the generation before `next`. */
  predicate Requests(t: Ticket, request: nat, next: nat) {
    IsReady(request) && t.word == request && Tag(request) == next
  }

  predicate LoopTicket(t: Ticket, loop: Loop, generation: nat) {
    && (forall g <- t.restarted :: g < generation || (g == generation && loop.InStart? && loop.start.Begin?))
    && match loop
       case TailShutdown(request) => IsReady(request) ==> t.word == request
       case TailDrop(request) => IsReady(request) && t.word == request && Tag(request) != generation + 1
       case TailLoadAdmitted(request) => Requests(t, request, generation + 1)
       case TailIssue(request, _) => Requests(t, request, generation + 1)
       case TailAcquire(request, _, _) => Requests(t, request, generation + 1)
       case TailIdle(request, _) => Requests(t, request, generation + 1)
       case InStart(phase, ByRestart(request, _)) =>
         Requests(t, request, if phase.Begin? then generation + 1 else generation)
       case TailClear(request, _) => Requests(t, request, generation)
       case _ => true
  }

  ghost predicate TicketOk(t: Ticket, latest: nat, alive: bool) {
    && (t.word != 0 ==> 1 <= Tag(t.word) <= latest + 1)
    && (IsReady(t.word) ==> Tag(t.word) - 1 in t.ready)
    && t.restarted <= t.ready
    && forall g <- t.ready :: g <= latest && (t.word == Ready(g) || g < latest || !alive)
  }

  ghost predicate ReserverLive(t: Ticket, ops: map<nat, Op>) {
    t.word != 0 && !IsReady(t.word) ==>
      t.reserver.Some? && t.reserver.value in ops && Reserving(ops[t.reserver.value])
  }

  ghost predicate Restarts(s: Sys) {
    && TicketOk(s.ticket, s.snapshot.generation, Alive(s))
    && LoopTicket(s.ticket, s.loop, s.generation)
    && ReserverLive(s.ticket, s.ops)
    && forall c <- s.ops :: OpTicket(s.ticket, s.snapshot.generation, Alive(s), s.ops[c], c)
  }

  /** A step of call `c` keeps the word, its own claim, and everyone else's. */
  ghost predicate OpTicketKept(s: Sys, c: nat, step: Step) {
    var t, u, latest := s.ticket, step.sys.ticket, s.snapshot.generation;
    && TicketOk(u, latest, Alive(s)) && LoopTicket(u, s.loop, s.generation)
    && OpTicket(u, latest, Alive(s), step.op, c)
    && (u.word != 0 && !IsReady(u.word) ==> Reserving(step.op) || (u == t && t.reserver != Some(c)))
    && (IsReady(t.word) && Alive(s) ==> u.word == t.word)
    && u.restarted == t.restarted
    && forall other, d :: d != c && OpTicket(t, latest, Alive(s), other, d) ==> OpTicket(u, latest, Alive(s), other, d)
  }

  ghost predicate TicketParts(s: Sys, c: nat, op: Op) {
    && TicketOk(s.ticket, s.snapshot.generation, Alive(s)) && LoopTicket(s.ticket, s.loop, s.generation)
    && OpTicket(s.ticket, s.snapshot.generation, Alive(s), op, c)
    && (s.ticket.word != 0 && !IsReady(s.ticket.word) && s.ticket.reserver == Some(c) ==> Reserving(op))
  }

  lemma ToggleTicket(s: Sys, c: nat, op: Op)
    requires TicketParts(s, c, op) && InToggle(op)
    ensures OpTicketKept(s, c, ToggleStep(s, c, op))
  {}

  lemma CancelTicket(s: Sys, c: nat, op: Op)
    requires TicketParts(s, c, op) && InCancel(op)
    ensures OpTicketKept(s, c, CancelStep(s, c, op))
  {}

  lemma ReserveTicket(s: Sys, c: nat, op: Op)
    requires TicketParts(s, c, op) && op.RestartReserve?
    ensures OpTicketKept(s, c, RestartStep(s, c, op))
  {}

  lemma LookTicket(s: Sys, c: nat, op: Op)
    requires TicketParts(s, c, op) && (op.RestartStatus? || op.RestartLoadAdmitted?)
    ensures OpTicketKept(s, c, RestartStep(s, c, op))
  {}

  lemma MarkTicket(s: Sys, c: nat, op: Op)
    requires TicketParts(s, c, op) && op.RestartMark?
    ensures OpTicketKept(s, c, RestartStep(s, c, op))
  {}

  lemma WithdrawTicket(s: Sys, c: nat, op: Op)
    requires TicketParts(s, c, op) && op.RestartWithdraw?
    ensures OpTicketKept(s, c, RestartStep(s, c, op))
  {}

  lemma RetryTicket(s: Sys, c: nat, op: Op)
    requires TicketParts(s, c, op) && op.RestartWithdrawIdle?
    ensures OpTicketKept(s, c, RestartStep(s, c, op))
  {}

  lemma UndoTicket(s: Sys, c: nat, op: Op)
    requires TicketParts(s, c, op) && op.RestartUndo?
    ensures OpTicketKept(s, c, RestartStep(s, c, op))
  {}

  lemma SendTicket(s: Sys, c: nat, op: Op)
    requires TicketParts(s, c, op) && op.RestartSend?
    ensures OpTicketKept(s, c, RestartStep(s, c, op))
  {}

  lemma ConfigTicket(s: Sys, c: nat, op: Op)
    requires TicketParts(s, c, op) && !InToggle(op) && !InCancel(op) && !InRestart(op)
    ensures OpTicketKept(s, c, ConfigStep(s, c, op))
  {}

  lemma OpKeepsTicket(s: Sys, c: nat, op: Op)
    requires TicketParts(s, c, op)
    ensures OpTicketKept(s, c, OpStep(s, c, op))
  {
    if InToggle(op) { ToggleTicket(s, c, op); }
    else if InCancel(op) { CancelTicket(s, c, op); }
    else if op.RestartReserve? { ReserveTicket(s, c, op); }
    else if op.RestartStatus? || op.RestartLoadAdmitted? { LookTicket(s, c, op); }
    else if op.RestartMark? { MarkTicket(s, c, op); }
    else if op.RestartWithdraw? { WithdrawTicket(s, c, op); }
    else if op.RestartWithdrawIdle? { RetryTicket(s, c, op); }
    else if op.RestartUndo? { UndoTicket(s, c, op); }
    else if InRestart(op) { SendTicket(s, c, op); }
    else { ConfigTicket(s, c, op); }
  }

  /** The run loop never touches a reservation, and clears a READY request only
      once a later generation exists. */
  predicate LoopTicketKept(s: Sys, t: Sys) {
    && s.snapshot.generation <= t.snapshot.generation <= t.generation
    && (t.ticket == s.ticket
        || t.ticket == s.ticket.(restarted := s.ticket.restarted + {s.generation})
        || (t.ticket == s.ticket.(word := 0) && IsReady(s.ticket.word) && Tag(s.ticket.word) <= s.snapshot.generation))
    && (s.loop.Exited? ==> t.loop.Exited?)
    && t.ops == s.ops
  }

  lemma HeadTicket(s: Sys, a: Answer)
    requires s.loop == Head && Life(s, Head) && LoopTicket(s.ticket, Head, s.generation)
    ensures var t := HeadStep(s, a); LoopTicketKept(s, t) && LoopTicket(t.ticket, t.loop, t.generation)
  {}

  lemma CommandTicket(s: Sys, loop: Loop, a: Answer)
    requires s.loop == loop && Where(loop).AtCommand? && Life(s, loop) && LoopTicket(s.ticket, loop, s.generation)
    ensures var t := CommandStep(s, loop, a); LoopTicketKept(s, t) && LoopTicket(t.ticket, t.loop, t.generation)
  {}

  lemma TickTicket(s: Sys, loop: Loop, a: Answer)
    requires s.loop == loop && Where(loop).AtTick? && Life(s, loop) && LoopTicket(s.ticket, loop, s.generation)
    ensures var t := TickStep(s, loop, a); LoopTicketKept(s, t) && LoopTicket(t.ticket, t.loop, t.generation)
  {}

  lemma StartTicket(s: Sys, phase: StartPhase, who: Starter, a: Answer)
    requires s.loop == InStart(phase, who) && StartLife(s, phase) && LoopTicket(s.ticket, s.loop, s.generation)
    ensures var t := StartStep(s, phase, who, a); LoopTicketKept(s, t) && LoopTicket(t.ticket, t.loop, t.generation)
  {}

  lemma FinishTicket(s: Sys, phase: FinishPhase, stopper: Stopper, a: Answer)
    requires s.loop == InFinish(phase, stopper) && FinishLife(s, phase) && LoopTicket(s.ticket, s.loop, s.generation)
    ensures var t := FinishStep(s, phase, stopper, a); LoopTicketKept(s, t) && LoopTicket(t.ticket, t.loop, t.generation)
  {}

  lemma TailTicket(s: Sys, loop: Loop)
    requires s.loop == loop && Where(loop).AtTail? && Life(s, loop) && LoopTicket(s.ticket, loop, s.generation)
    requires TicketOk(s.ticket, s.snapshot.generation, Alive(s))
    ensures var t := TailStep(s, loop); LoopTicketKept(s, t) && LoopTicket(t.ticket, t.loop, t.generation)
    ensures TailStep(s, loop).ticket.restarted <= s.ticket.ready
  {}

  lemma LoopKeepsTicket(s: Sys, loop: Loop, a: Answer)
    requires s.loop == loop && Life(s, loop) && LoopTicket(s.ticket, loop, s.generation)
    requires TicketOk(s.ticket, s.snapshot.generation, Alive(s))
    ensures var t := LoopStep(s, loop, a); LoopTicketKept(s, t) && LoopTicket(t.ticket, t.loop, t.generation)
    ensures LoopStep(s, loop, a).ticket.restarted <= s.ticket.ready
  {
    match Where(loop)
    case AtHead => HeadTicket(s, a);
    case AtCommand => CommandTicket(s, loop, a);
    case AtTick => TickTicket(s, loop, a);
    case AtStart => StartTicket(s, loop.start, loop.who, a);
    case AtFinish => FinishTicket(s, loop.finish, loop.stopper, a);
    case AtTail => TailTicket(s, loop);
  }

  lemma AfterOp(s: Sys, c: nat, step: Step)
    requires Restarts(s) && c in s.ops && OpTicketKept(s, c, step) && SameLoop(s, step.sys)
    ensures Restarts(step.sys.(ops := s.ops[c := step.op]))
  {}

  lemma AfterLoop(s: Sys, t: Sys)
    requires Restarts(s) && LoopTicketKept(s, t) && LoopTicket(t.ticket, t.loop, t.generation)
    requires t.ticket.restarted <= s.ticket.ready
    ensures Restarts(t)
  {}

  lemma RestartsKept(s: Sys, action: Action)
    requires Lifecycle(s) && Restarts(s) && Enabled(s, action)
    ensures Restarts(Perform(s, action))
  {
    match action
    case Call(_, _) =>
    case Advance(c) =>
      OpKeepsTicket(s, c, s.ops[c]);
      OpLeavesLoop(s, c, s.ops[c]);
      AfterOp(s, c, OpStep(s, c, s.ops[c]));
    case Loop(a) =>
      LoopKeepsTicket(s, s.loop, a);
      AfterLoop(s, LoopStep(s, s.loop, a));
  }
}
