/** The capture ring as the in-place code it is: the render callback, the drain loop
    and `stop` over preallocated slots. In the drain loop and in `stop` the callback
    makes any of its steps between any two operations; undisturbed, callback and
    drain loop are proved to do what the step model does to their end. */
module AUHALInput {
  import opened AudioRing

  /** How many callback steps remain. */
  function RenderLeft(at: RenderAt): nat {
    match at
    case Out => 0
    case CheckRunning(_) => 8
    case CheckSize(_) => 7
    case LoadProduced(_) => 6
    case LoadConsumed(_, _) => 5
    case Writing(_, _) => 4
    case SetLength(_, _) => 3
    case Publish(_, _) => 2
    case Leave => 1
  }

  /** The callback running to its end, undisturbed. */
  ghost function FinishRender(r: Ring, ok: bool): Ring
    decreases RenderLeft(r.render)
  {
    if r.render.Out? then r else FinishRender(RenderStep(r, r.render, [], ok), ok)
  }

  function DrainLeft(at: DrainAt): nat {
    match at
    case Asleep => 0
    case LoadRead => 5
    case LoadWrite(_) => 4
    case LoadLength(_) => 3
    case Handle(_, _) => 2
    case Advance(_) => 1
  }

  /** A drain step leaves the callback count and `running` alone, and the control
      as well unless it ends the drain that `stop` waits for. */
  predicate SameSwitches(r: Ring, t: Ring) {
    && t.inFlight == r.inFlight && t.running == r.running
    && (t.drain.Asleep? && r.control.Draining? ==> t.control == Stopped(r.control.quiesced))
    && (!t.drain.Asleep? || !r.control.Draining? ==> t.control == r.control)
  }

  lemma DrainProgress(r: Ring, at: DrainAt)
    requires Inv(r) && r.drain == at && !at.Asleep?
    ensures var t := DrainStep(r, at);
            && Inv(t) && t.rendered == r.rendered && t.produced == r.produced && SameSwitches(r, t)
            && (t.drain.Asleep? ==> t.consumed == t.produced)
            && 0 <= t.produced - t.consumed <= r.produced - r.consumed
            && (t.produced - t.consumed == r.produced - r.consumed ==> DrainLeft(t.drain) < DrainLeft(r.drain))
  {
    DrainInv(r);
  }

  /** The drain loop running to its end, undisturbed. */
  ghost function FinishDrain(r: Ring): (t: Ring)
    ensures Inv(r) ==> Inv(t) && t.drain.Asleep? && t.rendered == r.rendered
    ensures t.render == r.render
    ensures Inv(r) && !r.drain.Asleep? ==> SameSwitches(r, t) && t.consumed == t.produced == r.produced
    decreases r.produced - r.consumed, DrainLeft(r.drain)
  {
    if !Inv(r) || r.drain.Asleep? then r else DrainProgress(r, r.drain); FinishDrain(DrainStep(r, r.drain))
  }

  /** What one undisturbed callback does to the ring. */
  function Rendered(r: Ring, input: Chunk, ok: bool): Ring {
    if !r.running then r
    else
      var t := r.(taken := r.taken + [input]);
      if |input| > r.capacity || r.produced - r.consumed >= SLOTS then
        t.(renderFailed := true, dropped := r.dropped + 1)
      else
        var slot := r.produced % SLOTS;
        var slots := r.slots[slot := Overlay(r.slots[slot], input)];
        if !ok then t.(slots := slots, renderFailed := true, dropped := r.dropped + 1)
        else
          t.(slots := slots, lengths := r.lengths[slot := |input|], produced := r.produced + 1,
             rendered := r.rendered + [input])
  }

  /** From the load of `produced` on. */
  lemma WritingAlone(r: Ring, input: Chunk, ok: bool)
    requires r.render == LoadProduced(input) && r.inFlight > 0 && r.produced - r.consumed < SLOTS
    ensures var slot := r.produced % SLOTS;
            var slots := r.slots[slot := Overlay(r.slots[slot], input)];
            FinishRender(r, ok) ==
              if !ok then
                r.(slots := slots, renderFailed := true, dropped := r.dropped + 1, render := Out,
                   inFlight := r.inFlight - 1)
              else
                r.(slots := slots, lengths := r.lengths[slot := |input|], produced := r.produced + 1,
                   rendered := r.rendered + [input], render := Out, inFlight := r.inFlight - 1)
  {
    var loaded := RenderStep(RenderStep(r, r.render, [], ok), LoadConsumed(input, r.produced), [], ok);
    assert loaded == r.(render := Writing(input, r.produced));
    assert FinishRender(r, ok) == FinishRender(loaded, ok);
    var written := RenderStep(loaded, loaded.render, [], ok);
    if ok {
      var sized := RenderStep(written, written.render, [], ok);
      var published := RenderStep(sized, sized.render, [], ok);
      assert FinishRender(loaded, ok) == FinishRender(sized, ok) == FinishRender(published, ok);
      assert FinishRender(published, ok) == RenderStep(published, Leave, [], ok);
    } else {
      var left := RenderStep(written, Leave, [], ok);
      assert FinishRender(loaded, ok) == FinishRender(written, ok) == FinishRender(left, ok) == left;
    }
  }

  lemma RenderAlone(r: Ring, input: Chunk, ok: bool)
    requires Valid(r) && r.render.Out?
    ensures FinishRender(RenderStep(r, Out, input, ok), ok) == Rendered(r, input, ok)
  {
    var entered := RenderStep(r, Out, input, ok);
    var checked := RenderStep(entered, entered.render, [], ok);
    assert FinishRender(entered, ok) == FinishRender(checked, ok);
    if r.running {
      var sized := RenderStep(checked, checked.render, [], ok);
      assert FinishRender(checked, ok) == FinishRender(sized, ok);
      if |input| <= r.capacity {
        if r.produced - r.consumed < SLOTS {
          WritingAlone(sized, input, ok);
        } else {
          var full := RenderStep(RenderStep(sized, sized.render, [], ok), LoadConsumed(input, r.produced), [], ok);
          assert FinishRender(sized, ok) == FinishRender(full, ok) == RenderStep(full, Leave, [], ok);
        }
      } else {
        assert FinishRender(sized, ok) == RenderStep(sized, Leave, [], ok);
      }
    } else {
      assert FinishRender(checked, ok) == RenderStep(checked, Leave, [], ok);
    }
  }

  /** What the callback's steps leave alone: the drain, the control and what they
      write; what it has published only grows. */
  predicate Beside(r: Ring, t: Ring) {
    && t.drain == r.drain && t.control == r.control && t.running == r.running
    && t.consumed == r.consumed && t.delivered == r.delivered
    && r.rendered <= t.rendered && r.produced <= t.produced
  }

  lemma CallbackIsBeside(r: Ring, at: RenderAt, next: Chunk, ok: bool)
    requires r.render == at && Inv(r)
    ensures Beside(r, RenderStep(r, at, next, ok)) && RenderStep(r, at, next, ok).produced <= r.produced + 1
  {}

  lemma DrainOn(r: Ring, place: DrainAt)
    requires Reachable(r) && r.drain == place && !place.Asleep?
    ensures Reachable(DrainStep(r, place)) && FinishDrain(r) == FinishDrain(DrainStep(r, place))
    ensures place.Handle? ==> place.frames <= r.capacity
    ensures place.Advance? ==> place.read == r.consumed
  {
    Reaches(r, AudioRing.Drain);
    ReachableInv(r);
  }

  lemma CallbackOn(r: Ring, place: RenderAt, next: Chunk, ok: bool)
    requires Reachable(r) && r.render == place
    ensures Reachable(RenderStep(r, place, next, ok)) && Beside(r, RenderStep(r, place, next, ok))
    ensures RenderStep(r, place, next, ok).produced <= r.produced + 1
    ensures Shaped(r) && (place.Writing? ==> |place.input| <= r.capacity) && (!place.Out? ==> r.inFlight == 1)
  {
    Reaches(r, AudioRing.Render(next, ok));
    ReachableInv(r);
    CallbackIsBeside(r, place, next, ok);
  }

  lemma StepDrains(r: Ring, place: DrainAt)
    requires r.drain == place && !place.Asleep? && (place.Advance? ==> r.consumed <= place.read)
    ensures Drained(r, DrainStep(r, place))
  {}

  lemma Bounds(r: Ring)
    requires Reachable(r)
    ensures r.consumed <= r.produced
    ensures r.control == Stopped(true) ==> r.consumed == r.produced && r.delivered == NonEmpty(r.rendered)
  {
    ReachableInv(r);
    if r.control == Stopped(true) { DrainedAll(r); }
  }

  /** The counter is zero exactly when no callback is under way. */
  lemma FlightShows(r: Ring)
    requires Reachable(r)
    ensures r.inFlight == 0 <==> r.render.Out?
  {
    ReachableInv(r);
  }

  /** The chunks published and not yet handed over, as a queue. */
  function Queue(r: Ring): seq<Chunk>
    requires Inv(r)
  {
    r.rendered[r.consumed..]
  }

  lemma {:induction false} FinishInv(r: Ring, ok: bool)
    requires Inv(r)
    ensures Inv(FinishRender(r, ok)) && (Reachable(r) ==> Reachable(FinishRender(r, ok)))
    decreases RenderLeft(r.render)
  {
    if !r.render.Out? {
      var t := RenderStep(r, r.render, [], ok);
      RenderInv(r, [], ok);
      if Reachable(r) { Reaches(r, AudioRing.Render([], ok)); }
      FinishInv(t, ok);
    }
  }

  lemma RenderedInv(r: Ring, input: Chunk, ok: bool)
    requires Inv(r) && r.render.Out?
    ensures Inv(Rendered(r, input, ok)) && (Reachable(r) ==> Reachable(Rendered(r, input, ok)))
  {
    RenderInv(r, input, ok);
    if Reachable(r) { Reaches(r, AudioRing.Render(input, ok)); }
    FinishInv(RenderStep(r, Out, input, ok), ok);
    RenderAlone(r, input, ok);
  }

  /** As a queue: an undisturbed callback appends its whole chunk or, recording
      the failure, nothing. */
  lemma RenderEnqueues(r: Ring, input: Chunk, ok: bool)
    requires Inv(r) && r.render.Out?
    ensures var t := FinishRender(RenderStep(r, Out, input, ok), ok);
            && Inv(t) && t.delivered == r.delivered
            && Queue(t) == (if r.running && ok && |input| <= r.capacity && |Queue(r)| < SLOTS
                            then Queue(r) + [input] else Queue(r))
            && t.renderFailed == (r.renderFailed || (r.running && Queue(t) == Queue(r)))
  {
    RenderAlone(r, input, ok);
    RenderedInv(r, input, ok);
    assert |Queue(r)| == r.produced - r.consumed;
  }

  lemma Split(chunks: seq<Chunk>, n: nat)
    requires n <= |chunks|
    ensures chunks == chunks[..n] + chunks[n..]
  {}

  lemma DrainedAll(t: Ring)
    requires Inv(t) && t.drain.Asleep? && t.consumed == t.produced
    ensures Queue(t) == [] && t.delivered == NonEmpty(t.rendered)
  {
    assert t.rendered[..Offered(t)] == t.rendered;
  }

  /** And an undisturbed drain hands over all that was queued, skipping empty chunks. */
  lemma DrainDequeues(r: Ring)
    requires Inv(r) && r.drain.LoadRead?
    ensures Queue(FinishDrain(r)) == [] && FinishDrain(r).delivered == r.delivered + NonEmpty(Queue(r))
  {
    DrainedAll(FinishDrain(r));
    Split(r.rendered, r.consumed);
    NonEmptyConcat(r.rendered[..r.consumed], r.rendered[r.consumed..]);
  }

  /** What the drain loop may have done meanwhile: handed over more, and ended the
      drain that `stop` waits for. */
  predicate Drained(r: Ring, t: Ring) {
    && t.running == r.running
    && r.rendered <= t.rendered && r.delivered <= t.delivered
    && r.consumed <= t.consumed && r.produced <= t.produced
    && (if t.drain.Asleep? && r.control.Draining? then t.control == Stopped(r.control.quiesced)
        else t.control == r.control)
  }

  class AUHALInput {
    const capacity: nat
    const storage: array2<real>
    const lengths: array<nat>
    var produced: nat
    var consumed: nat
    var running: bool
    var renderFailed: bool
    var callbacksInFlight: nat
    var handled: seq<Chunk>    // what framesHandler was called with
    var at: RenderAt           // where the callback under way stands
    var budget: nat            // how many steps it still makes beside other code
    ghost var model: Ring

    ghost predicate Cells()
      reads `model, storage, lengths
    {
      && storage.Length0 == SLOTS && storage.Length1 == capacity == model.capacity
      && lengths[..] == model.lengths
      && Shaped(model)
      && forall i, j :: 0 <= i < SLOTS && 0 <= j < capacity ==> storage[i, j] == model.slots[i][j]
    }

    /** The fields agree with `t`. */
    ghost predicate Agrees(t: Ring)
      reads this
    {
      && produced == t.produced && consumed == t.consumed
      && running == t.running && renderFailed == t.renderFailed
      && callbacksInFlight == t.inFlight && handled == t.delivered && at == t.render
    }

    ghost predicate Valid()
      reads this, storage, lengths
    {
      Cells() && Agrees(model) && Reachable(model)
    }

    constructor (frames: nat, others: nat)
      ensures Valid() && capacity == frames && budget == others && Initial(model) && fresh(storage) && fresh(lengths)
    {
      capacity := frames;
      storage := new real[SLOTS, frames]((i, j) => 0.0);
      lengths := new nat[SLOTS](i => 0);
      produced, consumed, running, renderFailed, callbacksInFlight, handled := 0, 0, false, false, 0, [];
      at, budget := Out, others;
      model := Ring(frames, seq(SLOTS, i => seq(frames, j => 0.0)), seq(SLOTS, i => 0), 0, 0, false, false, 0,
                    Out, Asleep, Stopped(true), [], [], [], 0, Counts(0, 0, 0));
      new;
      assert model.rendered[..0] == [];
      InitialIsReachable(model);
    }

    /** The fields have caught up with the step model's. */
    ghost method Follow(t: Ring)
      requires Cells() && Reachable(t) && Agrees(t)
      requires t.capacity == model.capacity && t.slots == model.slots && t.lengths == model.lengths
      modifies `model
      ensures Valid() && model == t
    {
      model := t;
    }

    // ------------------------------------------------------------ the callback

    /** AudioUnitRender filling a slot. */
    method Fill(slot: nat, input: Chunk)
      requires Cells() && slot < SLOTS && |input| <= capacity
      modifies storage, `model
      ensures Cells() && model == old(model).(slots := old(model).slots[slot := Overlay(old(model).slots[slot], input)])
    {
      forall j | 0 <= j < |input| { storage[slot, j] := input[j]; }
      model := model.(slots := model.slots[slot := Overlay(model.slots[slot], input)]);
    }

    /** The render callback: `input` is what AudioUnitRender yields, `ok` its status. */
    method Render(input: Chunk, ok: bool)
      requires Valid() && at.Out?
      modifies this, storage, lengths
      ensures Valid() && model == FinishRender(RenderStep(old(model), Out, input, ok), ok)
    {
      ghost var before := model;
      ReachableInv(model);
      RenderAlone(model, input, ok);
      RenderedInv(model, input, ok);
      callbacksInFlight := callbacksInFlight + 1;
      if running {
        if |input| > capacity {
          renderFailed := true;
        } else {
          var write := produced;
          if write - consumed < SLOTS {
            var slot := write % SLOTS;
            Fill(slot, input);
            if ok {
              lengths[slot] := |input|;
              produced := write + 1;
            } else {
              renderFailed := true;
            }
          } else {
            renderFailed := true;
          }
        }
      }
      callbacksInFlight := callbacksInFlight - 1;
      model := Rendered(before, input, ok);
    }

    /** The step of the callback under way that writes samples. */
    method CallbackFills(ok: bool)
      requires Valid() && at.Writing?
      modifies `at, `renderFailed, `model, storage
      ensures Valid() && model == RenderStep(old(model), old(at), [], ok)
    {
      ghost var t := RenderStep(model, at, [], ok);
      CallbackOn(model, at, [], ok);
      var input, write := at.input, at.write;
      Fill(write % SLOTS, input);
      if ok {
        at := SetLength(input, write);
      } else {
        renderFailed, at := true, Leave;
      }
      Follow(t);
    }

    /** The step that writes the length. */
    method CallbackMeasures()
      requires Valid() && at.SetLength?
      modifies `at, `model, lengths
      ensures Valid() && model == RenderStep(old(model), old(at), [], true)
    {
      CallbackOn(model, at, [], true);
      var input, write := at.input, at.write;
      lengths[write % SLOTS] := |input|;
      at := Publish(input, write);
      model := RenderStep(model, model.render, [], true);
    }

    /** Entering and leaving. */
    method CallbackPasses(next: Chunk)
      requires Valid() && (at.Out? || at.CheckRunning? || at.Leave?)
      modifies `at, `callbacksInFlight, `model
      ensures Valid() && model == RenderStep(old(model), old(at), next, true)
    {
      ghost var t := RenderStep(model, at, next, true);
      CallbackOn(model, at, next, true);
      match at {
        case Out => callbacksInFlight, at := callbacksInFlight + 1, CheckRunning(next);
        case CheckRunning(input) => at := if running then CheckSize(input) else Leave;
        case Leave => callbacksInFlight, at := callbacksInFlight - 1, Out;
      }
      Follow(t);
    }

    /** Its checks, and publishing. */
    method CallbackChecks()
      requires Valid() && (at.CheckSize? || at.LoadProduced? || at.LoadConsumed? || at.Publish?)
      modifies `at, `renderFailed, `produced, `model
      ensures Valid() && model == RenderStep(old(model), old(at), [], true)
    {
      ghost var t := RenderStep(model, at, [], true);
      CallbackOn(model, at, [], true);
      match at {
        case CheckSize(input) =>
          if |input| <= capacity { at := LoadProduced(input); } else { renderFailed, at := true, Leave; }
        case LoadProduced(input) => at := LoadConsumed(input, produced);
        case LoadConsumed(input, write) =>
          if write - consumed < SLOTS { at := Writing(input, write); } else { renderFailed, at := true, Leave; }
        case Publish(_, write) => produced, at := write + 1, Leave;
      }
      Follow(t);
    }

    /** The next step of the callback under way, or the first of another. */
    method CallbackMoves(next: Chunk, ok: bool)
      requires Valid()
      modifies `at, `renderFailed, `produced, `callbacksInFlight, `model, storage, lengths
      ensures Valid() && Beside(old(model), model) && produced <= old(produced) + 1
    {
      CallbackOn(model, at, next, ok);
      CallbackOn(model, at, next, true);
      CallbackOn(model, at, [], ok);
      CallbackOn(model, at, [], true);
      if at.Writing? {
        CallbackFills(ok);
      } else if at.SetLength? {
        CallbackMeasures();
      } else if at.Out? || at.CheckRunning? || at.Leave? {
        CallbackPasses(next);
      } else {
        CallbackChecks();
      }
    }

    /** The callback under way, or the next one, makes some steps, possibly none. */
    method Others()
      requires Valid()
      modifies this, storage, lengths
      ensures Valid() && Beside(old(model), model)
      ensures budget <= old(budget) && budget + produced <= old(budget + produced)
      ensures old(budget) == 0 ==> model == old(model)
    {
      while *
        invariant Valid() && Beside(old(model), model)
        invariant budget <= old(budget) && budget + produced <= old(budget + produced)
        invariant old(budget) == 0 ==> model == old(model)
        decreases budget
      {
        if budget == 0 { return; }
        budget := budget - 1;
        var next: Chunk, ok: bool := *, *;
        CallbackMoves(next, ok);
      }
    }

    // --------------------------------------------------------------- the drain

    /** What framesHandler reads from the slot. */
    method Handle(slot: nat, frames: nat)
      requires Cells() && slot < SLOTS && frames <= capacity
      modifies `handled
      ensures handled == old(handled) + [Frames(model.slots[slot], frames)]
    {
      var samples: Chunk := [];
      for j := 0 to frames
        invariant samples == model.slots[slot][..j]
      {
        samples := samples + [storage[slot, j]];
      }
      handled := handled + [samples];
    }

    /** The drain has made a step, and the fields already say so; then the callback
        may move. */
    method DrainMoves(place: DrainAt)
      requires Cells() && Reachable(model) && model.drain == place && !place.Asleep? && Agrees(DrainStep(model, place))
      modifies this, storage, lengths
      ensures Valid() && Beside(DrainStep(old(model), place), model)
      ensures budget <= old(budget) && budget + produced <= old(budget + produced)
      ensures Drained(old(model), model)
      ensures old(budget) == 0 ==> FinishDrain(model) == FinishDrain(old(model))
    {
      DrainOn(model, place);
      StepDrains(model, place);
      Follow(DrainStep(model, place));
      Others();
    }

    /** One round of `drain`: the next chunk, if there is one. */
    method Take() returns (more: bool)
      requires Valid() && model.drain == LoadRead
      modifies this, storage, lengths
      ensures Valid() && Drained(old(model), model) && model.drain == if more then LoadRead else Asleep
      ensures more ==> consumed == old(consumed) + 1
      ensures (!more ==> old(produced) <= consumed) && consumed <= produced
      ensures budget <= old(budget) && budget + produced <= old(budget + produced)
      ensures old(budget) == 0 ==> FinishDrain(model) == FinishDrain(old(model))
    {
      var read := consumed;
      DrainMoves(LoadRead);
      more := Look(read);
      if more { HandOver(read); }
      Bounds(model);
    }

    /** Is there a chunk beyond the one at `read`? */
    method Look(read: nat) returns (more: bool)
      requires Valid() && model.drain == LoadWrite(read) && read == consumed
      modifies this, storage, lengths
      ensures Valid() && Drained(old(model), model) && model.drain == if more then LoadLength(read) else Asleep
      ensures consumed == old(consumed) && (!more ==> old(produced) <= consumed)
      ensures budget <= old(budget) && budget + produced <= old(budget + produced)
      ensures old(budget) == 0 ==> FinishDrain(model) == FinishDrain(old(model))
    {
      more := read < produced;
      DrainMoves(LoadWrite(read));
    }

    /** The chunk in slot `read`, offered to the handler and given up. */
    method HandOver(read: nat)
      requires Valid() && model.drain == LoadLength(read)
      modifies this, storage, lengths
      ensures Valid() && Drained(old(model), model) && model.drain == LoadRead && consumed == old(consumed) + 1
      ensures budget <= old(budget) && budget + produced <= old(budget + produced)
      ensures old(budget) == 0 ==> FinishDrain(model) == FinishDrain(old(model))
    {
      var slot := read % SLOTS;
      var frames := lengths[slot];
      DrainMoves(LoadLength(read));
      Offer(read, slot, frames);
      GiveUp(read);
    }

    /** The handler is called unless the chunk is empty. */
    method Offer(read: nat, slot: nat, frames: nat)
      requires Valid() && model.drain == AudioRing.Handle(read, frames) && slot == read % SLOTS
      modifies this, storage, lengths
      ensures Valid() && Drained(old(model), model) && model.drain == Advance(read) && consumed == old(consumed)
      ensures budget <= old(budget) && budget + produced <= old(budget + produced)
      ensures old(budget) == 0 ==> FinishDrain(model) == FinishDrain(old(model))
    {
      DrainOn(model, model.drain);
      if frames > 0 { Handle(slot, frames); }
      DrainMoves(AudioRing.Handle(read, frames));
    }

    method GiveUp(read: nat)
      requires Valid() && model.drain == Advance(read)
      modifies this, storage, lengths
      ensures Valid() && Drained(old(model), model) && model.drain == LoadRead && consumed == old(consumed) + 1
      ensures budget <= old(budget) && budget + produced <= old(budget + produced)
      ensures old(budget) == 0 ==> FinishDrain(model) == FinishDrain(old(model))
    {
      DrainOn(model, Advance(read));
      consumed := read + 1;
      DrainMoves(Advance(read));
    }

    /** `drain`: all that was published when it began is handed over, and more if the
        callback goes on. */
    method Drain()
      requires Valid() && model.drain == LoadRead
      modifies this, storage, lengths
      ensures Valid() && Drained(old(model), model) && model.drain == Asleep && old(produced) <= consumed
      ensures budget <= old(budget)
      ensures old(budget) == 0 ==> model == FinishDrain(old(model)) && at == old(at)
    {
      var more := true;
      Bounds(model);
      while more
        invariant consumed <= produced
        invariant Valid() && Drained(old(model), model) && model.drain == if more then LoadRead else Asleep
        invariant !more ==> old(produced) <= consumed
        invariant budget <= old(budget)
        invariant old(budget) == 0 ==> FinishDrain(model) == FinishDrain(old(model))
        decreases budget + produced - consumed, more
      {
        more := Take();
      }
    }

    /** The timer's event handler. */
    method Tick()
      requires Valid() && model.drain == Asleep
      requires model.control.Live? || model.control.Waiting? || model.control.LoadQuiesced?
      modifies this, storage, lengths
      ensures Valid() && Drained(old(model), model) && model.drain == Asleep && old(produced) <= consumed
      ensures budget <= old(budget)
      ensures old(budget) == 0 ==> at == old(at)
    {
      Reaches(model, AudioRing.Drain);
      Follow(DrainStep(model, Asleep));
      Drain();
    }

    // ---------------------------------------------------------- start and stop

    /** `start`, apart from the audio unit. */
    method Start()
      requires Valid() && model.control.Stopped?
      modifies `renderFailed, `running, `model
      ensures Valid() && model == ControlStep(old(model), old(model).control, true)
    {
      Reaches(model, Control(true));
      renderFailed := false;
      running := true;
      Follow(ControlStep(model, model.control, true));
    }

    /** The control has made a step, and the fields already say so; then the callback
        may move. */
    method Controlled(place: ControlAt)
      requires Cells() && Reachable(model) && model.control == place && Agrees(ControlStep(model, place, false))
      modifies this, storage, lengths
      ensures Valid() && Beside(ControlStep(old(model), place, false), model) && budget <= old(budget)
      ensures old(budget) == 0 ==> model == ControlStep(old(model), place, false)
    {
      Reaches(model, Control(false));
      Follow(ControlStep(model, place, false));
      Others();
    }

    /** `stop` waits for callbacks in flight, and looks once more; meanwhile the
        callback moves and the timer fires. */
    method Quiesce() returns (quiesced: bool)
      requires Valid() && model.control == Waiting(0) && model.drain == Asleep
      modifies this, storage, lengths
      ensures Valid() && model.control == AwaitQueue(quiesced) && model.drain == Asleep
      ensures running == old(running) && old(model).rendered <= model.rendered && old(handled) <= handled
      ensures budget <= old(budget) && (old(budget) == 0 ==> quiesced == old(at).Out?)
    {
      var attempts := 0;
      while callbacksInFlight != 0 && attempts < STOP_ATTEMPTS
        invariant Valid() && model.control == Waiting(attempts) && model.drain == Asleep
        invariant running == old(running) && old(model).rendered <= model.rendered && old(handled) <= handled
        invariant budget <= old(budget) && (old(budget) == 0 ==> at == old(at))
        decreases STOP_ATTEMPTS - attempts
      {
        Controlled(Waiting(attempts));
        attempts := attempts + 1;
        var fires: bool := *;
        if fires { Tick(); }
      }
      Controlled(Waiting(attempts));
      FlightShows(model);
      quiesced := callbacksInFlight == 0;
      Controlled(LoadQuiesced);
    }

    /** `stop`, apart from the audio unit. If its last look found no callback in
        flight, everything published has been handed over when it returns. */
    method Stop() returns (quiesced: bool)
      requires Valid() && model.control.Live? && model.drain.Asleep?
      modifies this, storage, lengths
      ensures Valid() && model.control == Stopped(quiesced) && !running
      ensures old(model).rendered <= model.rendered && old(handled) <= handled
      ensures quiesced ==> consumed == produced && handled == NonEmpty(model.rendered)
      ensures old(budget) == 0 ==> quiesced == old(at).Out?
    {
      running := false;
      Controlled(Live);
      quiesced := Quiesce();
      Controlled(AwaitQueue(quiesced));
      Drain();
      Bounds(model);
    }
  }
}
