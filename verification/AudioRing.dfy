/** The macOS capture ring: a render callback fills sixteen preallocated slots, a
    serial queue drains them, and `stop` waits for callbacks in flight. Each
    atomic operation, each access to a slot and each queue hand-over is one
    step; one render callback runs at a time, and one drain. */
module AudioRing {
  const SLOTS: nat := 16
  const STOP_ATTEMPTS: nat := 2000

  type Chunk = seq<real>
  type Slots = s: seq<Chunk> | |s| == SLOTS witness seq(SLOTS, i => [])
  type Lengths = s: seq<nat> | |s| == SLOTS witness seq(SLOTS, i => 0)

  datatype RenderAt =
    | Out
    | CheckRunning(input: Chunk)
    | CheckSize(input: Chunk)
    | LoadProduced(input: Chunk)
    | LoadConsumed(input: Chunk, write: nat)
    | Writing(input: Chunk, write: nat)
    | SetLength(input: Chunk, write: nat)
    | Publish(input: Chunk, write: nat)
    | Leave

  datatype DrainAt =
    | Asleep
    | LoadRead
    | LoadWrite(read: nat)
    | LoadLength(read: nat)
    | Handle(read: nat, frames: nat)
    | Advance(read: nat)

  /** `start` and `stop`. `quiesced` is what the last load of the in-flight count
      found. */
  datatype ControlAt =
    | Stopped(quiesced: bool)
    | Live
    | Waiting(attempts: nat)
    | LoadQuiesced
    | AwaitQueue(quiesced: bool)
    | Draining(quiesced: bool)

  /** What had been dropped, published and taken; a callback still under way
      counts as not yet taken. */
  datatype Counts = Counts(dropped: nat, rendered: nat, taken: nat)

  datatype Ring = Ring(
    capacity: nat,
    slots: Slots,
    lengths: Lengths,
    produced: nat,
    consumed: nat,
    running: bool,
    renderFailed: bool,
    inFlight: nat,
    render: RenderAt,
    drain: DrainAt,
    control: ControlAt,
    rendered: seq<Chunk>,    // history: every chunk published
    delivered: seq<Chunk>,   // history: every chunk handed to framesHandler
    taken: seq<Chunk>,       // history: the input of every callback that saw `running`
    dropped: nat,            // history: how many of those were not published
    begun: Counts            // history: where the recording began, at the last `start`
  )

  predicate Initial(r: Ring) {
    && Shaped(r)
    && r == Ring(r.capacity, r.slots, r.lengths, 0, 0, false, false, 0, Out, Asleep, Stopped(true), [], [], [], 0, Counts(0, 0, 0))
  }

  predicate Shaped(r: Ring) {
    forall i :: 0 <= i < SLOTS ==> |r.slots[i]| == r.capacity
  }

  /** The slot after AudioUnitRender wrote `input` at its start. More samples
      than the slot has room for would be written past it; `AudioRingTheorems.SlotsApart` rules that out. */
  function Overlay(slot: Chunk, input: Chunk): Chunk {
    if |input| <= |slot| then input + slot[|input|..] else input
  }

  /** What the handler reads from the slot, never more than it holds by `SlotsApart`. */
  function Frames(slot: Chunk, frames: nat): Chunk {
    if frames <= |slot| then slot[..frames] else slot
  }

  function Fail(r: Ring): Ring {
    r.(renderFailed := true, render := Leave, dropped := r.dropped + 1)
  }

  /** One step of the render callback; `ok` is the status of AudioUnitRender,
      `next` the input of the next callback. */
  function RenderStep(r: Ring, at: RenderAt, next: Chunk, ok: bool): Ring {
    match at
    case Out => r.(inFlight := r.inFlight + 1, render := CheckRunning(next))
    case CheckRunning(input) =>
      if r.running then r.(render := CheckSize(input), taken := r.taken + [input]) else r.(render := Leave)
    case CheckSize(input) => if |input| <= r.capacity then r.(render := LoadProduced(input)) else Fail(r)
    case LoadProduced(input) => r.(render := LoadConsumed(input, r.produced))
    case LoadConsumed(input, write) =>
      if write - r.consumed < SLOTS then r.(render := Writing(input, write)) else Fail(r)
    case Writing(input, write) =>
      var r' := r.(slots := r.slots[write % SLOTS := Overlay(r.slots[write % SLOTS], input)]);
      if ok then r'.(render := SetLength(input, write)) else Fail(r')
    case SetLength(input, write) =>
      r.(lengths := r.lengths[write % SLOTS := |input|], render := Publish(input, write))
    case Publish(input, write) =>
      r.(produced := write + 1, rendered := r.rendered + [input], render := Leave)
    case Leave => r.(inFlight := if r.inFlight > 0 then r.inFlight - 1 else 0, render := Out)
  }

  /** One step of `drain`, woken by the timer while it exists, or by `stop`. */
  function DrainStep(r: Ring, at: DrainAt): Ring {
    match at
    case Asleep => if r.control.Stopped? || r.control.AwaitQueue? then r else r.(drain := LoadRead)
    case LoadRead => r.(drain := LoadWrite(r.consumed))
    case LoadWrite(read) =>
      if read < r.produced then r.(drain := LoadLength(read))
      else r.(drain := Asleep, control := if r.control.Draining? then Stopped(r.control.quiesced) else r.control)
    case LoadLength(read) => r.(drain := Handle(read, r.lengths[read % SLOTS]))
    case Handle(read, frames) =>
      r.(drain := Advance(read),
         delivered := if frames > 0 then r.delivered + [Frames(r.slots[read % SLOTS], frames)] else r.delivered)
    case Advance(read) => r.(consumed := read + 1, drain := LoadRead)
  }

  function CountsOf(r: Ring): Counts {
    Counts(r.dropped, |r.rendered|, if Inside(r.render) && r.taken != [] then |r.taken| - 1 else |r.taken|)
  }

  /** One step of `start` or `stop`. `stop` is asked for, or follows a failure to
      start the unit, and may be repeated. */
  function ControlStep(r: Ring, at: ControlAt, starting: bool): Ring {
    match at
    case Stopped(_) =>
      if starting then r.(renderFailed := false, begun := CountsOf(r), running := true, control := Live)
      else r.(control := Waiting(0))
    case Live => r.(running := false, control := Waiting(0))
    case Waiting(attempts) =>
      r.(control := if r.inFlight != 0 && attempts < STOP_ATTEMPTS then Waiting(attempts + 1) else LoadQuiesced)
    case LoadQuiesced => r.(control := AwaitQueue(r.inFlight == 0))
    case AwaitQueue(quiesced) =>
      if r.drain.Asleep? then r.(drain := LoadRead, control := Draining(quiesced)) else r
    case Draining(_) => r
  }

  datatype Action = Render(next: Chunk, ok: bool) | Drain | Control(starting: bool)

  function Perform(r: Ring, a: Action): Ring {
    match a
    case Render(next, ok) => RenderStep(r, r.render, next, ok)
    case Drain => DrainStep(r, r.drain)
    case Control(starting) => ControlStep(r, r.control, starting)
  }

  function NonEmpty(chunks: seq<Chunk>): seq<Chunk> {
    if chunks == [] then []
    else NonEmpty(chunks[..|chunks| - 1]) + (if |chunks[|chunks| - 1]| > 0 then [chunks[|chunks| - 1]] else [])
  }

  lemma NonEmptyConcat(a: seq<Chunk>, b: seq<Chunk>)
    ensures NonEmpty(a + b) == NonEmpty(a) + NonEmpty(b)
  {
    if b == [] {
      assert a + b == a;
    } else {
      var n := |a| + |b| - 1;
      NonEmptyConcat(a, b[..|b| - 1]);
      assert (a + b)[..n] == a + b[..|b| - 1];
    }
  }

  /** The callback has seen `running` and may touch a slot. */
  predicate Inside(at: RenderAt) {
    !at.Out? && !at.CheckRunning? && !at.Leave?
  }

  /** The slot the callback is writing is free, and what it has written so far. */
  predicate RenderOk(r: Ring, at: RenderAt) {
    && r.inFlight == (if at.Out? then 0 else 1)
    && match at
       case LoadProduced(input) => |input| <= r.capacity
       case LoadConsumed(input, write) => |input| <= r.capacity && write == r.produced
       case Writing(input, write) => OwnsSlot(r, input, write)
       case SetLength(input, write) => OwnsSlot(r, input, write) && input <= r.slots[write % SLOTS]
       case Publish(input, write) =>
         OwnsSlot(r, input, write) && input <= r.slots[write % SLOTS] && r.lengths[write % SLOTS] == |input|
       case _ => true
  }

  predicate OwnsSlot(r: Ring, input: Chunk, write: nat) {
    |input| <= r.capacity && write == r.produced && write - r.consumed < SLOTS
  }

  predicate DrainOk(r: Ring, at: DrainAt)
    requires |r.rendered| == r.produced
  {
    match at
    case LoadWrite(read) => read == r.consumed
    case LoadLength(read) => read == r.consumed < r.produced
    case Handle(read, frames) => read == r.consumed < r.produced && frames == |r.rendered[read]| && frames <= r.capacity
    case Advance(read) => read == r.consumed < r.produced
    case _ => true
  }

  /** How many published chunks the handler has been offered. */
  function Offered(r: Ring): nat {
    r.consumed + if r.drain.Advance? then 1 else 0
  }

  /** `stop` has seen no callback in flight, and `start` has not run since. */
  predicate Quiet(control: ControlAt) {
    (control.AwaitQueue? || control.Draining? || control.Stopped?) && control.quiesced
  }

  predicate ControlOk(r: Ring) {
    && (!r.control.Live? ==> !r.running)
    && (Quiet(r.control) ==> !Inside(r.render))
    && (r.control.Draining? ==> !r.drain.Asleep?)
    && (r.control.Stopped? ==> r.drain.Asleep?)
    && (r.control.Stopped? && r.control.quiesced ==> r.consumed == r.produced)
  }

  /** Slot `i % SLOTS` holds the i-th chunk rendered. */
  predicate Holds(slots: Slots, lengths: Lengths, chunk: Chunk, i: nat) {
    lengths[i % SLOTS] == |chunk| && chunk <= slots[i % SLOTS]
  }

  /** From `consumed` on, the slots hold what was rendered. */
  predicate Window(slots: Slots, lengths: Lengths, consumed: nat, rendered: seq<Chunk>) {
    forall i :: consumed <= i < |rendered| ==> Holds(slots, lengths, rendered[i], i)
  }

  /** The handler has been given exactly the non-empty chunks before `offered`,
      in order. */
  predicate Contents(r: Ring) {
    && Shaped(r)
    && r.consumed <= r.produced <= r.consumed + SLOTS
    && |r.rendered| == r.produced
    && Window(r.slots, r.lengths, r.consumed, r.rendered)
    && Offered(r) <= r.produced
    && r.delivered == NonEmpty(r.rendered[..Offered(r)])
  }

  predicate Valid(r: Ring) {
    Contents(r) && RenderOk(r, r.render) && DrainOk(r, r.drain) && ControlOk(r)
  }

  /** Every callback that saw `running` published its input or counts as dropped,
      and dropping one since the last `start` is what `renderFailed` records. While
      none was, what has been published since is what was taken since. */
  predicate Accounted(r: Ring) {
    && |r.taken| == |r.rendered| + r.dropped + (if Inside(r.render) then 1 else 0)
    && (Inside(r.render) ==> r.taken[|r.taken| - 1] == r.render.input)
    && r.begun.dropped <= r.dropped && r.begun.rendered <= |r.rendered| && r.begun.taken <= |r.taken|
    && r.begun.taken == r.begun.rendered + r.begun.dropped
    && (r.dropped == r.begun.dropped ==> r.rendered[r.begun.rendered..] <= r.taken[r.begun.taken..])
    && (r.renderFailed <==> r.begun.dropped < r.dropped)
  }

  lemma SlotsDiffer(a: nat, b: nat)
    requires a < b < a + SLOTS
    ensures a % SLOTS != b % SLOTS
  {}

  /** Writing a slot the callback owns disturbs no published chunk. */
  lemma WritingKeeps(r: Ring, at: RenderAt, next: Chunk, ok: bool)
    requires Valid(r) && r.render == at && (at.Writing? || at.SetLength?)
    ensures Valid(RenderStep(r, at, next, ok))
  {
    var t := RenderStep(r, at, next, ok);
    forall i | r.consumed <= i < r.produced ensures Holds(t.slots, t.lengths, t.rendered[i], i) {
      assert Holds(r.slots, r.lengths, r.rendered[i], i);
      SlotsDiffer(i, at.write);
    }
  }

  lemma PublishKeeps(r: Ring, at: RenderAt, next: Chunk, ok: bool)
    requires Valid(r) && r.render == at && at.Publish?
    ensures Valid(RenderStep(r, at, next, ok))
  {
    var t := RenderStep(r, at, next, ok);
    forall i | r.consumed <= i < t.produced ensures Holds(t.slots, t.lengths, t.rendered[i], i) {
      if i < r.produced { assert Holds(r.slots, r.lengths, r.rendered[i], i); }
    }
    assert t.rendered[..Offered(t)] == r.rendered[..Offered(r)];
  }

  lemma CallbackKeeps(r: Ring, at: RenderAt, next: Chunk, ok: bool)
    requires Valid(r) && r.render == at && !at.Writing? && !at.SetLength? && !at.Publish?
    ensures Valid(RenderStep(r, at, next, ok))
  {
    var t := RenderStep(r, at, next, ok);
    assert Offered(t) == Offered(r);
  }

  lemma RenderKeeps(r: Ring, next: Chunk, ok: bool)
    requires Valid(r)
    ensures Valid(RenderStep(r, r.render, next, ok))
  {
    if r.render.Writing? || r.render.SetLength? { WritingKeeps(r, r.render, next, ok); }
    else if r.render.Publish? { PublishKeeps(r, r.render, next, ok); }
    else { CallbackKeeps(r, r.render, next, ok); }
  }

  lemma HandleKeeps(r: Ring, at: DrainAt)
    requires Valid(r) && r.drain == at && at.Handle?
    ensures Valid(DrainStep(r, at))
  {
    assert Holds(r.slots, r.lengths, r.rendered[at.read], at.read);
    var chunks := r.rendered[..at.read + 1];
    assert chunks[..|chunks| - 1] == r.rendered[..at.read];
    assert Frames(r.slots[at.read % SLOTS], at.frames) == r.rendered[at.read];
  }

  lemma LoadingKeeps(r: Ring, at: DrainAt)
    requires Valid(r) && r.drain == at && (at.Asleep? || at.LoadRead? || at.LoadLength?)
    ensures Valid(DrainStep(r, at))
  {
    if at.LoadLength? { assert Holds(r.slots, r.lengths, r.rendered[at.read], at.read); }
    assert Offered(DrainStep(r, at)) == Offered(r);
  }

  lemma AdvancingKeeps(r: Ring, at: DrainAt)
    requires Valid(r) && r.drain == at && (at.LoadWrite? || at.Advance?)
    ensures Valid(DrainStep(r, at))
  {
    assert Offered(DrainStep(r, at)) == Offered(r);
  }

  lemma DrainKeeps(r: Ring)
    requires Valid(r)
    ensures Valid(DrainStep(r, r.drain))
  {
    if r.drain.Handle? { HandleKeeps(r, r.drain); }
    else if r.drain.LoadWrite? || r.drain.Advance? { AdvancingKeeps(r, r.drain); }
    else { LoadingKeeps(r, r.drain); }
  }

  lemma ControlKeeps(r: Ring, at: ControlAt, starting: bool)
    requires Valid(r) && r.control == at
    ensures Valid(ControlStep(r, at, starting))
  {
    assert Offered(ControlStep(r, at, starting)) == Offered(r);
  }

  lemma PublishAccounts(r: Ring, at: RenderAt)
    requires Accounted(r) && r.render == at && at.Publish?
    ensures Accounted(RenderStep(r, at, [], true))
  {
    var b := r.begun;
    if r.dropped == b.dropped {
      assert r.taken[b.taken..] == r.rendered[b.rendered..] + [at.input];
      assert (r.rendered + [at.input])[b.rendered..] == r.rendered[b.rendered..] + [at.input];
    }
  }

  lemma RenderAccounts(r: Ring, at: RenderAt, next: Chunk, ok: bool)
    requires Accounted(r) && r.render == at
    ensures Accounted(RenderStep(r, at, next, ok))
  {
    if at.Publish? { PublishAccounts(r, at); }
    else if at.CheckRunning? && r.running {
      assert (r.taken + [at.input])[r.begun.taken..] == r.taken[r.begun.taken..] + [at.input];
    }
  }

  lemma DrainAccounts(r: Ring, at: DrainAt)
    requires Accounted(r)
    ensures Accounted(DrainStep(r, at))
  {}

  lemma ControlAccounts(r: Ring, at: ControlAt, starting: bool)
    requires Accounted(r)
    ensures Accounted(ControlStep(r, at, starting))
  {}

  predicate Inv(r: Ring) {
    Valid(r) && Accounted(r)
  }

  lemma RenderInv(r: Ring, next: Chunk, ok: bool)
    requires Inv(r)
    ensures Inv(RenderStep(r, r.render, next, ok))
  {
    RenderKeeps(r, next, ok);
    RenderAccounts(r, r.render, next, ok);
  }

  lemma DrainInv(r: Ring)
    requires Inv(r)
    ensures Inv(DrainStep(r, r.drain))
  {
    DrainKeeps(r);
    DrainAccounts(r, r.drain);
  }

  lemma ControlInv(r: Ring, starting: bool)
    requires Inv(r)
    ensures Inv(ControlStep(r, r.control, starting))
  {
    ControlKeeps(r, r.control, starting);
    ControlAccounts(r, r.control, starting);
  }

  lemma InvStep(r: Ring, a: Action)
    requires Inv(r)
    ensures Inv(Perform(r, a))
  {
    match a
    case Render(next, ok) => RenderInv(r, next, ok);
    case Drain => DrainInv(r);
    case Control(starting) => ControlInv(r, starting);
  }

  /** A run of the ring: any interleaving of callback, drain and control steps. */
  predicate IsRun(run: seq<Ring>, actions: seq<Action>) {
    && |run| == |actions| + 1
    && Initial(run[0])
    && forall i {:trigger actions[i]} :: 0 <= i < |actions| ==> run[i + 1] == Perform(run[i], actions[i])
  }

  /** Some run ends here. */
  ghost predicate Reachable(r: Ring) {
    exists run: seq<Ring>, actions: seq<Action> :: IsRun(run, actions) && run[|run| - 1] == r
  }

  lemma InitialIsReachable(r: Ring)
    requires Initial(r)
    ensures Reachable(r)
  {
    assert IsRun([r], []);
  }

  lemma Extends(run: seq<Ring>, actions: seq<Action>, a: Action)
    requires IsRun(run, actions)
    ensures IsRun(run + [Perform(run[|run| - 1], a)], actions + [a])
  {}

  lemma Reaches(r: Ring, a: Action)
    requires Reachable(r)
    ensures Reachable(Perform(r, a))
  {
    var run: seq<Ring>, actions: seq<Action> :| IsRun(run, actions) && run[|run| - 1] == r;
    Extends(run, actions, a);
  }

  lemma {:induction false} InvRun(run: seq<Ring>, actions: seq<Action>, i: nat)
    requires IsRun(run, actions) && i < |run|
    ensures Inv(run[i])
  {
    if i == 0 {
      assert run[0].delivered == NonEmpty(run[0].rendered[..0]);
    } else {
      InvRun(run, actions, i - 1);
      InvStep(run[i - 1], actions[i - 1]);
    }
  }

  lemma ReachableInv(r: Ring)
    requires Reachable(r)
    ensures Inv(r)
  {
    var run: seq<Ring>, actions: seq<Action> :| IsRun(run, actions) && run[|run| - 1] == r;
    InvRun(run, actions, |run| - 1);
  }
}
