/** The session controller as its clients and its run loop execute it. The words
    they share and the place where each thread stands are one object; between any
    two atomic operations of the thread whose code is shown, the others make any
    steps the model allows. Every operation shown is proved to be a step of the
    model, so what holds in every run holds of this code. */
module SessionHost {
  import opened Options
  import opened Session
  import opened SessionLifecycle
  import opened SessionRestart
  import opened SessionRetry
  import opened SessionInvariant

  /** The steps of other threads. */
  predicate Foreign(me: Actor, action: Action) {
    match me
    case Client(c) => action != Advance(c)
    case RunLoop => !action.Loop?
  }

  /** What other threads leave alone: where a call stands, and all the run loop
      writes; they may only append to the queue. */
  ghost predicate Mine(me: Actor, s: Sys, t: Sys) {
    match me
    case Client(c) => c in s.ops ==> c in t.ops && t.ops[c] == s.ops[c]
    case RunLoop =>
      && t.loop == s.loop && t.active == s.active && t.terminal == s.terminal && t.generation == s.generation
      && t.snapshot == s.snapshot && t.log == s.log && s.queue <= t.queue && s.replied <= t.replied
      && (s.shutdown ==> t.shutdown)
  }

  /** Histories only grow, and so do the generations; a loop that has ended stays so. */
  ghost predicate Later(s: Sys, t: Sys) {
    && s.cancels <= t.cancels && s.ticket.ready <= t.ticket.ready && s.replied <= t.replied
    && s.generation <= t.generation && s.snapshot.generation <= t.snapshot.generation
    && (Alive(t) ==> Alive(s))
  }

  ghost predicate LoopSteps(s: Sys, t: Sys) {
    && t.ops == s.ops && t.cancels == s.cancels && t.ticket.ready == s.ticket.ready && s.replied <= t.replied
    && s.generation <= t.generation <= s.generation + 1 && (s.shutdown ==> t.shutdown)
  }

  lemma LoopIsLater(s: Sys, loop: Loop, a: Answer)
    requires s.loop == loop
    ensures LoopSteps(s, LoopStep(s, loop, a))
  {
    match Where(loop)
    case AtHead => HeadIsLater(s, a);
    case AtCommand => CommandIsLater(s, loop, a);
    case AtTick => TickIsLater(s, loop, a);
    case AtStart => StartIsLater(s, loop.start, loop.who, a);
    case AtFinish => FinishIsLater(s, loop.finish, loop.stopper, a);
    case AtTail => TailIsLater(s, loop);
  }

  lemma HeadIsLater(s: Sys, a: Answer)
    ensures LoopSteps(s, HeadStep(s, a))
  {}

  lemma CommandIsLater(s: Sys, loop: Loop, a: Answer)
    ensures LoopSteps(s, CommandStep(s, loop, a))
  {}

  lemma TickIsLater(s: Sys, loop: Loop, a: Answer)
    ensures LoopSteps(s, TickStep(s, loop, a))
  {}

  lemma StartIsLater(s: Sys, phase: StartPhase, who: Starter, a: Answer)
    ensures LoopSteps(s, StartStep(s, phase, who, a))
  {}

  lemma FinishIsLater(s: Sys, phase: FinishPhase, stopper: Stopper, a: Answer)
    ensures LoopSteps(s, FinishStep(s, phase, stopper, a))
  {}

  lemma TailIsLater(s: Sys, loop: Loop)
    ensures LoopSteps(s, TailStep(s, loop))
  {}

  ghost predicate CallSteps(s: Sys, t: Sys) {
    && s.cancels <= t.cancels && s.ticket.ready <= t.ticket.ready && s.queue <= t.queue
    && SameLoop(s, t) && (s.shutdown ==> t.shutdown)
  }

  lemma ToggleIsLater(s: Sys, c: nat, op: Op)
    ensures CallSteps(s, ToggleStep(s, c, op).sys)
  {}

  lemma CancelIsLater(s: Sys, c: nat, op: Op)
    ensures CallSteps(s, CancelStep(s, c, op).sys)
  {}

  lemma RestartIsLater(s: Sys, c: nat, op: Op)
    ensures CallSteps(s, RestartStep(s, c, op).sys)
  {}

  lemma ConfigIsLater(s: Sys, c: nat, op: Op)
    ensures CallSteps(s, ConfigStep(s, c, op).sys)
  {}

  lemma CallIsLater(s: Sys, c: nat, op: Op)
    ensures CallSteps(s, OpStep(s, c, op).sys)
  {
    if InToggle(op) { ToggleIsLater(s, c, op); }
    else if InCancel(op) { CancelIsLater(s, c, op); }
    else if InRestart(op) { RestartIsLater(s, c, op); }
    else { ConfigIsLater(s, c, op); }
  }

  lemma ReachableLife(s: Sys)
    requires Reachable(s)
    ensures Life(s, s.loop)
  {
    ReachableInv(s);
  }

  lemma ForeignStep(me: Actor, s: Sys, action: Action)
    requires Reachable(s) && Enabled(s, action) && Foreign(me, action)
    ensures var t := Perform(s, action);
            Mine(me, s, t) && Later(s, t) && t.generation <= s.generation + 1 && (s.shutdown ==> t.shutdown)
  {
    match action
    case Call(_, _) =>
    case Advance(c) => CallIsLater(s, c, s.ops[c]);
    case Loop(a) =>
      LoopIsLater(s, s.loop, a);
      ReachableLife(s);
      LoopLife(s, s.loop, a);
  }

  lemma ReachableOp(s: Sys, c: nat)
    requires Reachable(s) && c in s.ops
    ensures OpRetry(s.ops[c], s.snapshot)
    ensures OpTicket(s.ticket, s.snapshot.generation, Alive(s), s.ops[c], c)
  {
    ReachableInv(s);
  }

  /** After Idle was seen for one generation, a retry is for a later one. */
  function Age(prev: Option<nat>): nat {
    if prev.Some? then prev.value + 1 else 0
  }

  lemma AgeBounded(s: Sys, c: nat)
    requires Reachable(s) && c in s.ops
    ensures match s.ops[c]
            case ToggleStatus(prev) => Age(prev) <= s.generation + 1
            case RestartReserve(g, prev) => Age(prev) <= g <= s.generation
            case _ => true
  {
    ReachableOp(s, c);
    ReachableLife(s);
  }

  /** Call `c` owns neither the admission word nor a reservation of the restart word. */
  ghost predicate HoldsNothing(s: Sys, c: nat) {
    && (s.gate.admitted in s.gate.issuer ==> s.gate.issuer[s.gate.admitted] != Client(c))
    && (s.ticket.word != 0 && !IsReady(s.ticket.word) ==> s.ticket.reserver != Some(c))
  }

  lemma DoneHoldsNothing(s: Sys, c: nat)
    requires Reachable(s) && c in s.ops && s.ops[c].Done?
    ensures HoldsNothing(s, c)
  {
    ReachableInv(s);
  }

  /** While the loop lives, a request about to be marked has not been READY. */
  lemma NotYetReady(s: Sys, c: nat)
    requires Reachable(s) && c in s.ops && s.ops[c].RestartMark? && Alive(s)
    ensures s.ops[c].gen !in s.ticket.ready
  {
    ReachableOp(s, c);
  }

  /** What a call can see, besides its own place. */
  datatype View = View(
    snapshot: Snapshot,
    admitted: nat,
    next: nat,
    word: nat,
    startupCancelled: nat,
    queue: seq<Command>,
    alive: bool,
    free: bool,
    answered: bool
  )

  function See(s: Sys, c: nat): View {
    View(s.snapshot, s.gate.admitted, s.gate.next, s.ticket.word, s.startupCancelled, s.queue, Alive(s), Free(s),
         c in s.replied)
  }

  // What a call has done, in the end, when no other thread moves meanwhile.

  predicate Unchanged(v: View, w: View) {
    w.admitted == v.admitted && w.word == v.word && w.queue == v.queue
  }

  /** A startup cancel is stored and sent, as long as there is a loop. */
  predicate CancelDone(v: View, w: View, result: Option<Result>) {
    if v.alive
    then result == Some(Accepted) && w.queue == v.queue + [CancelStartup(v.snapshot.generation)] &&
         w.startupCancelled == v.snapshot.generation && w.admitted == v.admitted && w.word == v.word
    else result == Some(Unavailable) && Unchanged(v, w)
  }

  /** A restart of this generation may be requested. */
  predicate Queueable(v: View, generation: nat) {
    && v.snapshot.generation == generation
    && (IsEnding(v.snapshot.state) || (v.snapshot.state.Recording? && IsFinish(v.admitted)))
  }

  /** The reservation of `generation` has been made READY, or undone. */
  predicate Marked(v: View, w: View, generation: nat, result: Option<Result>) {
    && result == Some(if v.alive then Accepted else Unavailable) && w.admitted == v.admitted
    && w.queue == (if v.alive then v.queue + [RestartReady] else v.queue)
    && w.word == if v.alive then Ready(generation) else 0
  }

  /** A restart is requested if none is, as long as there is a loop. */
  predicate RestartDone(v: View, w: View, result: Option<Result>) {
    if v.word != 0 then result == Some(Busy) && Unchanged(v, w) else Marked(v, w, v.snapshot.generation, result)
  }

  /** The call that owns the admission has waited for its answer. */
  predicate Waited(v: View, w: View, result: Option<Result>) {
    && w.queue == v.queue && w.word == v.word
    && result == (if v.answered then Some(Answered) else None)
    && w.admitted == (if v.answered then ADMISSION_NONE else v.admitted)
  }

  /** The call that owns the admission has sent its command, as long as there is a loop. */
  predicate Asked(v: View, w: View, command: Command, result: Option<Result>) {
    if v.alive then Waited(v.(queue := v.queue + [command]), w, result)
    else result == Some(Unavailable) && w.queue == v.queue && w.word == v.word && w.admitted == ADMISSION_NONE
  }

  /** A command is sent under an admission of the call's own, and it waits for the
      answer; nothing is sent under anybody else's. */
  predicate RequestDone(v: View, w: View, command: Command, finishing: bool, result: Option<Result>) {
    AcquireDone(v, w, command, v.next + if finishing then ADMISSION_FINISH_BIT else 0, result)
  }

  predicate AcquireDone(v: View, w: View, command: Command, token: nat, result: Option<Result>) {
    if v.admitted != ADMISSION_NONE then result == Some(Busy) && Unchanged(v, w)
    else Asked(v.(admitted := token), w, command, result)
  }

  predicate ToggleDone(v: View, w: View, c: nat, result: Option<Result>) {
    var now := v.snapshot;
    if now.state.Starting? then CancelDone(v, w, result)
    else if Queueable(v, now.generation) then RestartDone(v, w, result)
    else RequestDone(v, w, Toggle(now.state, c, now.generation), now.state.Recording?, result)
  }

  /** Under a reservation: for a generation that has become Idle, all over again. */
  predicate DecideDone(v: View, w: View, c: nat, generation: nat, result: Option<Result>) {
    if v.snapshot == Snapshot(Idle, generation) then ToggleDone(v.(word := 0), w, c, result)
    else if Queueable(v, generation) then Marked(v, w, generation, result)
    else result == Some(Busy) && Unchanged(v.(word := 0), w)
  }

  predicate ConfigureDone(v: View, w: View, c: nat, result: Option<Result>) {
    if !v.snapshot.state.Idle? then result == Some(Busy) && Unchanged(v, w)
    else RequestDone(v, w, Configure(c), false, result)
  }

  class Host {
    var sys: Sys
    var budget: nat    // how many steps the other threads still make

    ghost predicate Valid()
      reads this
    {
      Reachable(sys)
    }

    /** No generation beyond this one will begin. */
    ghost function Horizon(): nat
      reads this
    {
      sys.generation + budget
    }

    ghost predicate Stands(c: nat, op: Op)
      reads this
    {
      c in sys.ops && sys.ops[c] == op
    }

    constructor (others: nat)
      ensures Valid() && sys == Init && budget == others
    {
      sys, budget := Init, others;
      new;
      InitIsReachable();
    }

    /** The other threads make some steps, possibly none. */
    method Others(me: Actor)
      requires Valid()
      modifies this
      ensures Valid() && Mine(me, old(sys), sys) && Later(old(sys), sys)
      ensures Horizon() <= old(Horizon()) && budget <= old(budget)
      ensures old(budget) == 0 ==> sys == old(sys)
      ensures old(sys.shutdown) ==> sys.shutdown
    {
      while *
        invariant Valid() && Mine(me, old(sys), sys) && Later(old(sys), sys)
        invariant Horizon() <= old(Horizon()) && budget <= old(budget) && (old(budget) == 0 ==> sys == old(sys))
        invariant old(sys.shutdown) ==> sys.shutdown
        decreases budget
      {
        if budget == 0 { return; }
        budget := budget - 1;
        var action: Action := *;
        if Enabled(sys, action) && Foreign(me, action) {
          ForeignStep(me, sys, action);
          Reaches(sys, action);
          sys := Perform(sys, action);
        }
      }
    }

    /** Taking the snapshot lock; false if it is never free again. */
    method Lock(me: Actor) returns (free: bool)
      requires Valid()
      modifies this
      ensures Valid() && Mine(me, old(sys), sys) && Later(old(sys), sys) && Horizon() <= old(Horizon())
      ensures free ==> Free(sys)
      ensures old(budget) == 0 ==> sys == old(sys) && budget == 0 && free == Free(sys)
      ensures !free ==> budget == 0 && !Free(sys)
    {
      while !Free(sys)
        invariant Valid() && Mine(me, old(sys), sys) && Later(old(sys), sys) && Horizon() <= old(Horizon())
        invariant old(budget) == 0 ==> sys == old(sys) && budget == 0
        decreases budget
      {
        if budget == 0 { return false; }
        budget := budget - 1;
        Others(me);
      }
      free := true;
    }

    // ------------------------------------------------------------ the calls

    method Enter(c: nat, op: Op)
      requires Valid() && Enabled(sys, Call(c, op))
      modifies this
      ensures Valid() && Stands(c, op) && Later(old(sys), sys) && Horizon() <= old(Horizon())
      ensures old(budget) == 0 ==> budget == 0 && See(sys, c) == See(old(sys), c)
    {
      Reaches(sys, Call(c, op));
      sys := sys.(ops := sys.ops[c := op]);
      Others(Client(c));
    }

    /** One atomic operation of call `c` leaves `words`; then others may move. */
    method Do(c: nat, words: Sys, next: Op)
      requires Valid() && c in sys.ops && OpEnabled(sys, c, sys.ops[c]) && OpStep(sys, c, sys.ops[c]) == Step(words, next)
      modifies this
      ensures Valid() && Stands(c, next) && Later(words, sys) && Horizon() <= old(Horizon())
      ensures words.shutdown ==> sys.shutdown
      ensures old(budget) == 0 ==> budget == 0 && See(sys, c) == See(words, c)
    {
      Reaches(sys, Advance(c));
      CallIsLater(sys, c, sys.ops[c]);
      sys := words.(ops := sys.ops[c := next]);
      Others(Client(c));
    }
  
    method ToggleDo(c: nat, op: Op, words: Sys, next: Op)
      requires Valid() && Stands(c, op) && InToggle(op)
      requires OpEnabled(sys, c, op) && ToggleStep(sys, c, op) == Step(words, next)
      modifies this
      ensures Valid() && Stands(c, next) && Later(words, sys) && Horizon() <= old(Horizon())
      ensures old(budget) == 0 ==> budget == 0 && See(sys, c) == See(words, c)
    {
      Do(c, words, next);
    }

    method CancelDo(c: nat, op: Op, words: Sys, next: Op)
      requires Valid() && Stands(c, op) && InCancel(op)
      requires OpEnabled(sys, c, op) && CancelStep(sys, c, op) == Step(words, next)
      modifies this
      ensures Valid() && Stands(c, next) && Later(words, sys) && Horizon() <= old(Horizon())
      ensures old(budget) == 0 ==> budget == 0 && See(sys, c) == See(words, c)
    {
      Do(c, words, next);
    }

    method RestartDo(c: nat, op: Op, words: Sys, next: Op)
      requires Valid() && Stands(c, op) && InRestart(op)
      requires OpEnabled(sys, c, op) && RestartStep(sys, c, op) == Step(words, next)
      modifies this
      ensures Valid() && Stands(c, next) && Later(words, sys) && Horizon() <= old(Horizon())
      ensures old(budget) == 0 ==> budget == 0 && See(sys, c) == See(words, c)
    {
      Do(c, words, next);
    }

    method ConfigDo(c: nat, op: Op, words: Sys, next: Op)
      requires Valid() && Stands(c, op) && !InToggle(op) && !InCancel(op) && !InRestart(op)
      requires OpEnabled(sys, c, op) && ConfigStep(sys, c, op) == Step(words, next)
      modifies this
      ensures Valid() && Stands(c, next) && Later(words, sys) && Horizon() <= old(Horizon())
      ensures words.shutdown ==> sys.shutdown
      ensures old(budget) == 0 ==> budget == 0 && See(sys, c) == See(words, c)
    {
      Do(c, words, next);
    }

    /** How a call may have come back: it stands at its end; if there was nobody to
        answer, the loop has ended; and if it was accepted, it has made a restart request
        READY that was not READY `before`, or sent the startup cancel of a generation that
        was not over then. */
    ghost predicate Returned(c: nat, before: Sys, result: Option<Result>, request: nat)
      reads this
    {
      && (result.Some? ==> Stands(c, Done(result.value)))
      && (result == Some(Answered) ==> c in sys.replied)
      && (result == Some(Unavailable) ==> !Alive(sys))
      && (result == Some(Accepted) ==>
            || (request in sys.ticket.ready && request !in before.ticket.ready)
            || (request in sys.cancels && before.snapshot.generation <= request))
    }

    /** The call cannot move, and nobody else does. */
    ghost predicate Waits(c: nat)
      reads this
    {
      budget == 0 && c in sys.ops && !OpEnabled(sys, c, sys.ops[c])
    }

    /** Giving the admission back. */
    method GiveBack(c: nat, token: nat, result: Result)
      requires Valid() && Stands(c, Release(token, result))
      modifies this
      ensures Valid() && Stands(c, Done(result)) && Later(old(sys), sys) && Horizon() <= old(Horizon())
      ensures old(budget) == 0 ==> budget == 0 && See(sys, c) == See(old(sys).(gate := Unadmit(old(sys).gate, token)), c)
    {
      ConfigDo(c, Release(token, result), sys.(gate := Unadmit(sys.gate, token)), Done(result));
    }

    /** Waiting for the answer to a request that was sent. */
    method Receive(c: nat, token: nat) returns (result: Option<Result>)
      requires Valid() && Stands(c, Await(token))
      modifies this
      ensures result.None? ==> Waits(c)
      ensures Valid() && Returned(c, old(sys), result, 0) && result != Some(Accepted) && Horizon() <= old(Horizon())
      ensures old(budget) == 0 && Alive(old(sys)) && old(sys).gate.admitted == token ==>
                Waited(See(old(sys), c), See(sys, c), result)
    {
      while c !in sys.replied && Alive(sys)
        invariant Valid() && Stands(c, Await(token)) && Horizon() <= old(Horizon())
        invariant old(budget) == 0 ==> sys == old(sys) && budget == 0
        decreases budget
      {
        if budget == 0 { return None; }
        budget := budget - 1;
        Others(Client(c));
      }
      var answer := if c in sys.replied then Answered else Unavailable;
      ConfigDo(c, Await(token), sys, Release(token, answer));
      GiveBack(c, token, answer);
      result := Some(answer);
    }

    /** The startup-cancel branch of `toggle`, which runs under the snapshot lock. */
    method CancelStartup(c: nat, generation: nat) returns (result: Option<Result>)
      requires Valid() && Stands(c, CancelLock(generation))
      modifies this
      ensures result.None? ==> Waits(c)
      ensures Valid() && Returned(c, old(sys), result, generation) && Horizon() <= old(Horizon())
      ensures old(budget) == 0 && Free(old(sys)) && old(sys).snapshot == Snapshot(Starting, generation) ==>
                CancelDone(See(old(sys), c), See(sys, c), result)
      ensures old(budget) == 0 && Free(old(sys)) && old(sys).snapshot != Snapshot(Starting, generation) ==>
                result == Some(Busy) && Unchanged(See(old(sys), c), See(sys, c))
    {
      var free := Lock(Client(c));
      if !free { return None; }
      if sys.snapshot != Snapshot(Starting, generation) {
        CancelDo(c, CancelLock(generation), sys, Done(Busy));
        return Some(Busy);
      }
      CancelDo(c, CancelLock(generation), sys.(lock := Some(c)), CancelStore(generation));
      CancelDo(c, CancelStore(generation), sys.(startupCancelled := generation), CancelSend(generation));
      if !Alive(sys) {
        CancelDo(c, CancelSend(generation), sys.(lock := None), Done(Unavailable));
        return Some(Unavailable);
      }
      CancelDo(c, CancelSend(generation),
               sys.(lock := None, queue := sys.queue + [Command.CancelStartup(generation)],
                    cancels := sys.cancels + {generation}),
               Done(Accepted));
      result := Some(Accepted);
    }

    /** `toggle`. `prev` is the generation for which this call found Idle before. */
    method Toggle(c: nat, prev: Option<nat>) returns (result: Option<Result>, ghost request: nat)
      requires Valid() && Stands(c, ToggleStatus(prev))
      modifies this
      ensures result.None? ==> Waits(c)
      ensures Valid() && Returned(c, old(sys), result, request) && Horizon() <= old(Horizon())
      ensures old(budget) == 0 && Free(old(sys)) ==> ToggleDone(See(old(sys), c), See(sys, c), c, result)
      decreases Horizon() - Age(prev), 6
    {
      result, request := None, 0;
      AgeBounded(sys, c);
      var free := Lock(Client(c));
      if !free { return; }
      var expected := sys.snapshot;
      var g := expected.generation;
      ToggleDo(c, ToggleStatus(prev), sys, ToggleDecide(expected, prev));
      if expected.state.Starting? {
        result := CancelStartup(c, g);
        request := g;
      } else if IsEnding(expected.state) {
        result, request := QueueRestart(c, g, prev);
      } else if expected.state.Recording? {
        result, request := RequestStop(c, g, prev);
      } else {
        result, request := Request(c, Idle, g, prev);
      }
    }

    /** `toggle` while recording: a finish already admitted means a restart. */
    method RequestStop(c: nat, generation: nat, prev: Option<nat>) returns (result: Option<Result>, ghost request: nat)
      requires Valid() && Stands(c, ToggleLoadAdmitted(generation, prev)) && Age(prev) <= sys.generation + 1
      modifies this
      ensures result.None? ==> Waits(c)
      ensures Valid() && Returned(c, old(sys), result, request) && Horizon() <= old(Horizon())
      ensures old(budget) == 0 && Free(old(sys)) && old(sys).snapshot == Snapshot(Recording, generation) ==>
                if IsFinish(old(sys).gate.admitted) then RestartDone(See(old(sys), c), See(sys, c), result)
                else RequestDone(See(old(sys), c), See(sys, c), Command.Toggle(Recording, c, generation), true, result)
      decreases Horizon() - Age(prev), 5
    {
      if IsFinish(sys.gate.admitted) {
        ToggleDo(c, ToggleLoadAdmitted(generation, prev), sys, RestartReserve(generation, prev));
        result, request := QueueRestart(c, generation, prev);
      } else {
        ToggleDo(c, ToggleLoadAdmitted(generation, prev), sys, ToggleIssue(Recording, generation, prev));
        result, request := Request(c, Recording, generation, prev);
      }
    }

    /** `toggle` draws a token and takes the admission word. */
    method Request(c: nat, expected: State, generation: nat, prev: Option<nat>)
      returns (result: Option<Result>, ghost request: nat)
      requires Valid() && Stands(c, ToggleIssue(expected, generation, prev)) && Age(prev) <= sys.generation + 1
      modifies this
      ensures result.None? ==> Waits(c)
      ensures Valid() && Returned(c, old(sys), result, request) && Horizon() <= old(Horizon())
      ensures old(budget) == 0 && Free(old(sys)) && old(sys).snapshot == Snapshot(expected, generation) &&
              (expected.Recording? ==> !IsFinish(old(sys).gate.admitted)) ==>
                RequestDone(See(old(sys), c), See(sys, c), Command.Toggle(expected, c, generation), expected.Recording?,
                            result)
      decreases Horizon() - Age(prev), 4
    {
      var token := Token(sys.gate, expected.Recording?);
      ToggleDo(c, ToggleIssue(expected, generation, prev),
               sys.(gate := Issue(sys.gate, expected.Recording?, Client(c))),
               ToggleAcquire(expected, generation, token, prev));
      result, request := AcquireRequest(c, expected, generation, token, prev);
    }

    method AcquireRequest(c: nat, expected: State, generation: nat, token: nat, prev: Option<nat>)
      returns (result: Option<Result>, ghost request: nat)
      requires Valid() && Stands(c, ToggleAcquire(expected, generation, token, prev)) && Age(prev) <= sys.generation + 1
      modifies this
      ensures result.None? ==> Waits(c)
      ensures Valid() && Returned(c, old(sys), result, request) && Horizon() <= old(Horizon())
      ensures old(budget) == 0 && Free(old(sys)) && old(sys).snapshot == Snapshot(expected, generation) &&
              (expected.Recording? ==> !IsFinish(old(sys).gate.admitted)) ==>
                AcquireDone(See(old(sys), c), See(sys, c), Command.Toggle(expected, c, generation), token, result)
      ensures old(budget) == 0 && Free(old(sys)) && old(sys).snapshot == Snapshot(Recording, generation)
              && expected.Recording? && IsFinish(old(sys).gate.admitted) ==>
                RestartDone(See(old(sys), c), See(sys, c), result)
      decreases Horizon() - Age(prev), 3
    {
      var current := sys.gate.admitted;
      if current == ADMISSION_NONE {
        ToggleDo(c, ToggleAcquire(expected, generation, token, prev),
                 sys.(gate := Admit(sys.gate, ADMISSION_NONE, token)), ToggleVerify(expected, generation, token));
        result := SendToggle(c, expected, generation, token);
        request := 0;
      } else if expected.Recording? && IsFinish(current) {
        ToggleDo(c, ToggleAcquire(expected, generation, token, prev), sys, RestartReserve(generation, prev));
        result, request := QueueRestart(c, generation, prev);
      } else {
        ToggleDo(c, ToggleAcquire(expected, generation, token, prev), sys, Done(Busy));
        result, request := Some(Busy), 0;
      }
    }

    /** `toggle` looks again under its admission, and sends its command. */
    method SendToggle(c: nat, expected: State, generation: nat, token: nat) returns (result: Option<Result>)
      requires Valid() && Stands(c, ToggleVerify(expected, generation, token))
      modifies this
      ensures result.None? ==> Waits(c)
      ensures Valid() && Returned(c, old(sys), result, 0) && result != Some(Accepted) && Horizon() <= old(Horizon())
      ensures old(budget) == 0 && Free(old(sys)) && old(sys).snapshot == Snapshot(expected, generation)
              && old(sys).gate.admitted == token ==>
                Asked(See(old(sys), c), See(sys, c), Command.Toggle(expected, c, generation), result)
      ensures old(budget) == 0 && Free(old(sys)) && old(sys).snapshot != Snapshot(expected, generation)
              && old(sys).gate.admitted == token ==>
                result == Some(Busy) && Unchanged(See(old(sys), c).(admitted := ADMISSION_NONE), See(sys, c))
    {
      var free := Lock(Client(c));
      if !free { return None; }
      if sys.snapshot != Snapshot(expected, generation) {
        ToggleDo(c, ToggleVerify(expected, generation, token), sys, Release(token, Busy));
        GiveBack(c, token, Busy);
        return Some(Busy);
      }
      ToggleDo(c, ToggleVerify(expected, generation, token), sys, ToggleSend(expected, generation, token));
      if !Alive(sys) {
        ToggleDo(c, ToggleSend(expected, generation, token), sys, Release(token, Unavailable));
        GiveBack(c, token, Unavailable);
        return Some(Unavailable);
      }
      ToggleDo(c, ToggleSend(expected, generation, token),
               sys.(queue := sys.queue + [Command.Toggle(expected, c, generation)]), Await(token));
      result := Receive(c, token);
    }

    /** `queue_restart` reserves the restart word. */
    method QueueRestart(c: nat, generation: nat, prev: Option<nat>) returns (result: Option<Result>, ghost request: nat)
      requires Valid() && Stands(c, RestartReserve(generation, prev))
      modifies this
      ensures result.None? ==> Waits(c)
      ensures Valid() && Returned(c, old(sys), result, request) && Horizon() <= old(Horizon())
      ensures old(budget) == 0 && Free(old(sys)) && Queueable(See(old(sys), c), generation) ==>
                RestartDone(See(old(sys), c), See(sys, c), result)
      decreases Horizon() - Age(prev), 2
    {
      AgeBounded(sys, c);
      if sys.ticket.word != 0 {
        RestartDo(c, RestartReserve(generation, prev), sys, Done(Busy));
        return Some(Busy), 0;
      }
      RestartDo(c, RestartReserve(generation, prev),
                sys.(ticket := sys.ticket.(word := Pending(generation), reserver := Some(c))), RestartStatus(generation));
      result, request := LookAgain(c, generation, prev);
    }

    /** Under its reservation, `queue_restart` looks at the state again. */
    method LookAgain(c: nat, generation: nat, ghost prev: Option<nat>) returns (result: Option<Result>, ghost request: nat)
      requires Valid() && Stands(c, RestartStatus(generation)) && Age(prev) <= generation <= sys.generation
      modifies this
      ensures result.None? ==> Waits(c)
      ensures Valid() && Returned(c, old(sys), result, request) && Horizon() <= old(Horizon())
      ensures old(budget) == 0 && Free(old(sys)) && old(sys).ticket.word == Pending(generation) ==>
                DecideDone(See(old(sys), c), See(sys, c), c, generation, result)
      decreases Horizon() - Age(prev), 1
    {
      var free, current, queueable := Status(c, generation);
      if !free { return None, 0; }
      if current.generation == generation && current.state.Idle? {
        result, request := Retry(c, generation, prev);
      } else if current.generation == generation && queueable {
        result := MarkReady(c, generation);
        request := generation;
      } else {
        result := Withdraw(c, generation);
        request := 0;
      }
    }

    /** The state, and whether a restart may be requested in it. */
    method Status(c: nat, generation: nat) returns (free: bool, current: Snapshot, queueable: bool)
      requires Valid() && Stands(c, RestartStatus(generation))
      modifies this
      ensures Valid() && Later(old(sys), sys) && Horizon() <= old(Horizon())
      ensures if free then Stands(c, RestartDecide(generation, current, queueable)) else Waits(c)
      ensures old(budget) == 0 && Free(old(sys)) ==>
                && budget == 0 && See(sys, c) == See(old(sys), c) && free && current == old(sys).snapshot
                && (queueable && current.generation == generation <==> Queueable(See(old(sys), c), generation))
    {
      free := Lock(Client(c));
      current, queueable := sys.snapshot, IsEnding(sys.snapshot.state);
      if !free { return; }
      if current.state.Recording? {
        RestartDo(c, RestartStatus(generation), sys, RestartLoadAdmitted(generation, current.generation));
        queueable := IsFinish(sys.gate.admitted);
        RestartDo(c, RestartLoadAdmitted(generation, current.generation), sys,
                  RestartDecide(generation, current, queueable));
      } else {
        RestartDo(c, RestartStatus(generation), sys, RestartDecide(generation, current, queueable));
      }
    }

    /** `queue_restart` has found Idle: it withdraws and calls `toggle` again. */
    method Retry(c: nat, generation: nat, ghost prev: Option<nat>) returns (result: Option<Result>, ghost request: nat)
      requires Valid() && Stands(c, RestartWithdrawIdle(generation)) && Age(prev) <= generation <= sys.generation
      modifies this
      ensures result.None? ==> Waits(c)
      ensures Valid() && Returned(c, old(sys), result, request) && Horizon() <= old(Horizon())
      ensures old(budget) == 0 && Free(old(sys)) && old(sys).ticket.word == Pending(generation) ==>
                ToggleDone(See(old(sys), c).(word := 0), See(sys, c), c, result)
      decreases Horizon() - Age(prev), 0
    {
      if sys.ticket.word == Pending(generation) {
        RestartDo(c, RestartWithdrawIdle(generation), sys.(ticket := sys.ticket.(word := 0)),
                  ToggleStatus(Some(generation)));
        result, request := Toggle(c, Some(generation));
      } else {
        RestartDo(c, RestartWithdrawIdle(generation), sys, Done(Busy));
        result, request := Some(Busy), 0;
      }
    }

    /** `queue_restart` makes its reservation READY and wakes the loop. */
    method MarkReady(c: nat, generation: nat) returns (result: Option<Result>)
      requires Valid() && Stands(c, RestartMark(generation))
      modifies this
      ensures result.None? ==> Waits(c)
      ensures Valid() && Returned(c, old(sys), result, generation) && Horizon() <= old(Horizon())
      ensures old(budget) == 0 && old(sys).ticket.word == Pending(generation) ==>
                Marked(See(old(sys), c), See(sys, c), generation, result)
    {
      if Alive(sys) { NotYetReady(sys, c); }
      if sys.ticket.word != Pending(generation) {
        RestartDo(c, RestartMark(generation), sys, RestartWithdraw(generation));
        result := Withdraw(c, generation);
        return;
      }
      RestartDo(c, RestartMark(generation),
                sys.(ticket := sys.ticket.(word := Ready(generation), ready := sys.ticket.ready + {generation})),
                RestartSend(generation));
      var sent := WakeLoop(c, generation);
      result := Some(if sent then Accepted else Unavailable);
    }

    /** The READY request is announced, or undone if there is no loop. */
    method WakeLoop(c: nat, generation: nat) returns (sent: bool)
      requires Valid() && Stands(c, RestartSend(generation))
      modifies this
      ensures Valid() && Stands(c, Done(if sent then Accepted else Unavailable)) && Horizon() <= old(Horizon())
      ensures old(budget) == 0 && old(sys).ticket.word == Ready(generation) ==>
                Marked(See(old(sys), c), See(sys, c), generation, Some(if sent then Accepted else Unavailable))
      ensures Later(old(sys), sys) && (if sent then Alive(old(sys)) else !Alive(sys))
    {
      sent := Alive(sys);
      if !sent {
        RestartDo(c, RestartSend(generation), sys, RestartUndo(generation));
        RestartDo(c, RestartUndo(generation), sys.(ticket := Clear(sys.ticket, Ready(generation))), Done(Unavailable));
      } else {
        RestartDo(c, RestartSend(generation), sys.(queue := sys.queue + [Command.RestartReady]), Done(Accepted));
      }
    }

    method Withdraw(c: nat, generation: nat) returns (result: Option<Result>)
      requires Valid() && Stands(c, RestartWithdraw(generation))
      modifies this
      ensures result.None? ==> Waits(c)
      ensures Valid() && result == Some(Busy) && Stands(c, Done(Busy)) && Horizon() <= old(Horizon())
      ensures old(budget) == 0 && old(sys).ticket.word == Pending(generation) ==>
                Unchanged(See(old(sys), c).(word := 0), See(sys, c))
    {
      RestartDo(c, RestartWithdraw(generation), sys.(ticket := Clear(sys.ticket, Pending(generation))), Done(Busy));
      result := Some(Busy);
    }

    /** `reload`, `set_processing_mode` and `set_output_method`. */
    method Configure(c: nat) returns (result: Option<Result>)
      requires Valid() && Stands(c, ConfigStatus)
      modifies this
      ensures result.None? ==> Waits(c)
      ensures Valid() && Returned(c, old(sys), result, 0) && result != Some(Accepted) && Horizon() <= old(Horizon())
      ensures old(budget) == 0 && Free(old(sys)) ==> ConfigureDone(See(old(sys), c), See(sys, c), c, result)
    {
      var free := Lock(Client(c));
      if !free { return None; }
      if !sys.snapshot.state.Idle? {
        ConfigDo(c, ConfigStatus, sys, Done(Busy));
        return Some(Busy);
      }
      ConfigDo(c, ConfigStatus, sys, ConfigIssue);
      result := AdmitConfigure(c);
    }

    /** `reload` draws a token and takes the admission word. */
    method AdmitConfigure(c: nat) returns (result: Option<Result>)
      requires Valid() && Stands(c, ConfigIssue)
      modifies this
      ensures result.None? ==> Waits(c)
      ensures Valid() && Returned(c, old(sys), result, 0) && result != Some(Accepted) && Horizon() <= old(Horizon())
      ensures old(budget) == 0 && Free(old(sys)) ==>
                RequestDone(See(old(sys), c), See(sys, c), Command.Configure(c), false, result)
    {
      var token := Token(sys.gate, false);
      ConfigDo(c, ConfigIssue, sys.(gate := Issue(sys.gate, false, Client(c))), ConfigAcquire(token));
      if sys.gate.admitted != ADMISSION_NONE {
        ConfigDo(c, ConfigAcquire(token), sys, Done(Busy));
        return Some(Busy);
      }
      ConfigDo(c, ConfigAcquire(token), sys.(gate := Admit(sys.gate, ADMISSION_NONE, token)), ConfigSend(token));
      result := SendConfigure(c, token);
    }

    method SendConfigure(c: nat, token: nat) returns (result: Option<Result>)
      requires Valid() && Stands(c, ConfigSend(token))
      modifies this
      ensures result.None? ==> Waits(c)
      ensures Valid() && Returned(c, old(sys), result, 0) && result != Some(Accepted) && Horizon() <= old(Horizon())
      ensures old(budget) == 0 && old(sys).gate.admitted == token ==>
                Asked(See(old(sys), c), See(sys, c), Command.Configure(c), result)
    {
      if !Alive(sys) {
        ConfigDo(c, ConfigSend(token), sys, Release(token, Unavailable));
        GiveBack(c, token, Unavailable);
        return Some(Unavailable);
      }
      ConfigDo(c, ConfigSend(token), sys.(queue := sys.queue + [Command.Configure(c)]), Await(token));
      result := Receive(c, token);
    }

    /** `shutdown_and_join`, up to the join. */
    method ShutDown(c: nat) returns (sent: bool)
      requires Valid() && Stands(c, ShutdownStore)
      modifies this
      ensures Valid() && Stands(c, Done(if sent then Accepted else Unavailable)) && sys.shutdown
      ensures old(budget) == 0 ==>
                sent == Alive(old(sys)) && sys.queue == old(sys).queue + if sent then [Command.Shutdown] else []
    {
      ConfigDo(c, ShutdownStore, sys.(shutdown := true), ShutdownSend);
      sent := Alive(sys);
      if sent {
        ConfigDo(c, ShutdownSend, sys.(queue := sys.queue + [Command.Shutdown]), Done(Accepted));
      } else {
        ConfigDo(c, ShutdownSend, sys, Done(Unavailable));
      }
    }

    /** A whole `toggle`: when it is back, it holds nothing. */
    method CallToggle(c: nat) returns (result: Option<Result>, ghost request: nat)
      requires Valid() && c !in sys.ops
      modifies this
      ensures result.None? ==> Waits(c)
      ensures Valid() && Returned(c, old(sys), result, request) && (result.Some? ==> HoldsNothing(sys, c))
      ensures old(budget) == 0 && Free(old(sys)) ==> ToggleDone(See(old(sys), c), See(sys, c), c, result)
    {
      Enter(c, ToggleStatus(None));
      result, request := Toggle(c, None);
      if result.Some? { DoneHoldsNothing(sys, c); }
    }

    /** A whole `reload` or `set_*`. */
    method CallConfigure(c: nat) returns (result: Option<Result>)
      requires Valid() && c !in sys.ops
      modifies this
      ensures result.None? ==> Waits(c)
      ensures Valid() && Returned(c, old(sys), result, 0) && (result.Some? ==> HoldsNothing(sys, c))
      ensures old(budget) == 0 && Free(old(sys)) ==> ConfigureDone(See(old(sys), c), See(sys, c), c, result)
    {
      Enter(c, ConfigStatus);
      result := Configure(c);
      if result.Some? { DoneHoldsNothing(sys, c); }
    }

    /** A whole `shutdown_and_join`, up to the join. */
    method CallShutDown(c: nat) returns (sent: bool)
      requires Valid() && c !in sys.ops
      modifies this
      ensures Valid() && Stands(c, Done(if sent then Accepted else Unavailable)) && HoldsNothing(sys, c) && sys.shutdown
      ensures old(budget) == 0 ==>
                sent == Alive(old(sys)) && sys.queue == old(sys).queue + if sent then [Command.Shutdown] else []
    {
      Enter(c, ShutdownStore);
      sent := ShutDown(c);
      DoneHoldsNothing(sys, c);
    }
  }
}
