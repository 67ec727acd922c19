/** What the capture ring guarantees over whole runs. */
module AudioRingTheorems {
  import opened AudioRing

  /** The callback owns a slot: it will write it, or has written it and not
      published it yet. */
  predicate OwningWrite(at: RenderAt) {
    at.Writing? || at.SetLength? || at.Publish?
  }

  /** The drain owns a slot: it reads the length, or the handler reads the samples. */
  predicate OwningRead(at: DrainAt) {
    at.LoadLength? || at.Handle? || at.Advance?
  }

  /** At most sixteen chunks are outstanding, a slot is never written and read at
      the same time, and neither side touches memory outside the slot. */
  lemma SlotsApart(run: seq<Ring>, actions: seq<Action>, i: nat)
    requires IsRun(run, actions) && i < |run|
    ensures 0 <= run[i].produced - run[i].consumed <= SLOTS
    ensures OwningWrite(run[i].render) && OwningRead(run[i].drain)
      ==> run[i].render.write % SLOTS != run[i].drain.read % SLOTS
    ensures run[i].render.Writing?
      ==> |run[i].render.input| <= |run[i].slots[run[i].render.write % SLOTS]|
    ensures run[i].drain.Handle? ==> run[i].drain.frames <= |run[i].slots[run[i].drain.read % SLOTS]|
  {
    InvRun(run, actions, i);
    var r := run[i];
    if OwningWrite(r.render) && OwningRead(r.drain) { SlotsDiffer(r.drain.read, r.render.write); }
  }

  /** While the handler holds a slot, no callback step changes its samples or length. */
  lemma ReadIsStable(r: Ring, next: Chunk, ok: bool)
    requires Inv(r) && OwningRead(r.drain)
    ensures var read, t := r.drain.read % SLOTS, RenderStep(r, r.render, next, ok);
            t.slots[read] == r.slots[read] && t.lengths[read] == r.lengths[read]
  {
    if OwningWrite(r.render) { SlotsDiffer(r.drain.read, r.render.write); }
  }

  lemma NonEmptyPrefix(chunks: seq<Chunk>, n: nat)
    requires n <= |chunks|
    ensures NonEmpty(chunks[..n]) <= NonEmpty(chunks)
  {
    if n < |chunks| {
      NonEmptyPrefix(chunks[..|chunks| - 1], n);
      assert chunks[..|chunks| - 1][..n] == chunks[..n];
    } else {
      assert chunks[..n] == chunks;
    }
  }

  lemma RenderGrows(r: Ring, at: RenderAt, next: Chunk, ok: bool)
    ensures r.rendered <= RenderStep(r, at, next, ok).rendered && r.delivered == RenderStep(r, at, next, ok).delivered
  {}

  lemma DrainGrows(r: Ring, at: DrainAt)
    ensures r.rendered == DrainStep(r, at).rendered && r.delivered <= DrainStep(r, at).delivered
  {}

  lemma ControlGrows(r: Ring, at: ControlAt, starting: bool)
    ensures r.rendered == ControlStep(r, at, starting).rendered
    ensures r.delivered == ControlStep(r, at, starting).delivered
  {}

  lemma HistoryGrows(r: Ring, a: Action)
    ensures r.rendered <= Perform(r, a).rendered && r.delivered <= Perform(r, a).delivered
  {
    match a
    case Render(next, ok) => RenderGrows(r, r.render, next, ok);
    case Drain => DrainGrows(r, r.drain);
    case Control(starting) => ControlGrows(r, r.control, starting);
  }

  /** The handler is given exactly the published non-empty chunks, in order, each
      once. */
  lemma DeliversPublished(run: seq<Ring>, actions: seq<Action>, i: nat)
    requires IsRun(run, actions) && i < |run|
    ensures run[i].consumed <= Offered(run[i]) <= run[i].consumed + 1 && Offered(run[i]) <= |run[i].rendered|
    ensures run[i].delivered == NonEmpty(run[i].rendered[..Offered(run[i])]) <= NonEmpty(run[i].rendered)
  {
    InvRun(run, actions, i);
    NonEmptyPrefix(run[i].rendered, Offered(run[i]));
  }

  /** What was published or handed over is never taken back. */
  lemma {:induction false} HistoryIsKept(run: seq<Ring>, actions: seq<Action>, i: nat, j: nat)
    requires IsRun(run, actions) && i <= j < |run|
    ensures run[i].delivered <= run[j].delivered && run[i].rendered <= run[j].rendered
  {
    if i < j {
      HistoryIsKept(run, actions, i, j - 1);
      HistoryGrows(run[j - 1], actions[j - 1]);
    }
  }

  lemma QuietStep(r: Ring, a: Action)
    requires !r.running && !Inside(r.render) && !Perform(r, a).running
    ensures var t := Perform(r, a);
            && !Inside(t.render)
            && t.slots == r.slots && t.lengths == r.lengths && t.produced == r.produced && t.rendered == r.rendered
  {}

  /** Once `stop` has cleared `running` and then seen no callback in flight, no
      callback touches a slot, a length or `produced` until the next `start`. */
  lemma {:induction false} QuietUntilStart(run: seq<Ring>, actions: seq<Action>, i: nat, j: nat)
    requires IsRun(run, actions) && i <= j < |run|
    requires Quiet(run[i].control) && forall k :: i <= k <= j ==> !run[k].running
    ensures !Inside(run[j].render)
    ensures run[j].slots == run[i].slots && run[j].lengths == run[i].lengths
    ensures run[j].produced == run[i].produced && run[j].rendered == run[i].rendered
  {
    if i == j {
      InvRun(run, actions, i);
    } else {
      QuietUntilStart(run, actions, i, j - 1);
      assert run[j] == Perform(run[j - 1], actions[j - 1]);
      QuietStep(run[j - 1], actions[j - 1]);
    }
  }

  /** `stop` answers whether a callback was under way at its last look, and it waits
      for one no longer than its attempts last. */
  lemma StopLooks(run: seq<Ring>, actions: seq<Action>, i: nat)
    requires IsRun(run, actions) && i < |actions| && actions[i].Control?
    ensures run[i].control.LoadQuiesced? ==> run[i + 1].control == AwaitQueue(run[i].render.Out?)
    ensures run[i].control.Waiting? ==>
      run[i + 1].control == if run[i].render.Out? || run[i].control.attempts >= STOP_ATTEMPTS then LoadQuiesced
                            else Waiting(run[i].control.attempts + 1)
    ensures run[i].control.Live? ==> run[i + 1].control == Waiting(0) && !run[i + 1].running
    ensures run[i].control.Stopped? && actions[i].starting ==>
      run[i + 1].control == Live && run[i + 1].running && !run[i + 1].renderFailed
    ensures run[i].control.AwaitQueue? && run[i].drain.Asleep? ==>
      run[i + 1].control == Draining(run[i].control.quiesced) && run[i + 1].drain == LoadRead
  {
    InvRun(run, actions, i);
    assert run[i + 1] == Perform(run[i], actions[i]);
  }

  /** Each step by which `stop` found out, or the beginning of all. */
  ghost predicate Looked(run: seq<Ring>, actions: seq<Action>, n: nat, quiesced: bool)
    requires n <= |actions| && n <= |run|
  {
    exists k {:trigger actions[k]} :: 0 <= k < n && actions[k].Control? &&
      run[k].control.LoadQuiesced? && run[k].render.Out? == quiesced
  }

  lemma LookedLater(run: seq<Ring>, actions: seq<Action>, n: nat, quiesced: bool)
    requires n < |actions| && n < |run|
    requires Looked(run, actions, n, quiesced) ||
             (run[n].control.LoadQuiesced? && actions[n].Control? && run[n].render.Out? == quiesced)
    ensures Looked(run, actions, n + 1, quiesced)
  {
    if Looked(run, actions, n, quiesced) {
      var k :| 0 <= k < n && run[k].control.LoadQuiesced? && actions[k].Control? && run[k].render.Out? == quiesced;
      assert 0 <= k < n + 1 && actions[k].Control?;
    }
  }

  predicate Answering(control: ControlAt) {
    control.Stopped? || control.AwaitQueue? || control.Draining?
  }

  lemma ControlMoves(r: Ring, a: Action)
    ensures Answering(Perform(r, a).control) && Answering(r.control) ==>
              Perform(r, a).control.quiesced == r.control.quiesced && Perform(r, a).running == r.running &&
              (Perform(r, a).control.Stopped? ==> r.control.Stopped? || r.control.Draining?)
    ensures Answering(Perform(r, a).control) && !Answering(r.control) ==>
              r.control.LoadQuiesced? && a.Control? && Perform(r, a).control == AwaitQueue(r.inFlight == 0)
  {}

  /** So a stop has quiesced only where a look found no callback under way, and has
      not only where a look found one; before the first stop all is quiet. */
  lemma {:induction false} AnswerIsSeen(run: seq<Ring>, actions: seq<Action>, i: nat)
    requires IsRun(run, actions) && i < |run|
    requires Answering(run[i].control)
    ensures Looked(run, actions, i, run[i].control.quiesced) ||
            (run[i].control == Stopped(true) && forall k :: 0 <= k <= i ==> !run[k].running)
  {
    if i > 0 {
      var r, a := run[i - 1], actions[i - 1];
      InvRun(run, actions, i - 1);
      ControlMoves(r, a);
      assert run[i] == Perform(r, a);
      if Answering(r.control) {
        AnswerIsSeen(run, actions, i - 1);
        if Looked(run, actions, i - 1, r.control.quiesced) { LookedLater(run, actions, i - 1, r.control.quiesced); }
      } else {
        LookedLater(run, actions, i - 1, r.render.Out?);
      }
    }
  }

  /** A `stop` that saw no callback in flight leaves nothing in the ring: every
      published chunk has been handed over, once. */
  lemma QuiescedStopDrains(run: seq<Ring>, actions: seq<Action>, i: nat)
    requires IsRun(run, actions) && i < |run| && run[i].control == Stopped(true)
    ensures run[i].consumed == run[i].produced == |run[i].rendered|
    ensures run[i].delivered == NonEmpty(run[i].rendered)
  {
    InvRun(run, actions, i);
    assert run[i].rendered[..Offered(run[i])] == run[i].rendered;
  }

  /** If besides no failure was recorded since the last `start`, nothing any callback
      was offered while running is missing: behind what had been published before
      that `start`, exactly the chunks taken since were handed over. */
  lemma CleanStopIsComplete(run: seq<Ring>, actions: seq<Action>, i: nat)
    requires IsRun(run, actions) && i < |run| && run[i].control == Stopped(true) && !run[i].renderFailed
    ensures var r := run[i];
            && r.begun.rendered <= |r.rendered| && r.begun.taken <= |r.taken|
            && r.delivered == NonEmpty(r.rendered[..r.begun.rendered]) + NonEmpty(r.taken[r.begun.taken..])
  {
    InvRun(run, actions, i);
    QuiescedStopDrains(run, actions, i);
    var r := run[i];
    assert r.taken[r.begun.taken..] == r.rendered[r.begun.rendered..];
    assert r.rendered == r.rendered[..r.begun.rendered] + r.rendered[r.begun.rendered..];
    NonEmptyConcat(r.rendered[..r.begun.rendered], r.rendered[r.begun.rendered..]);
  }

  /** A `start` after a quiesced `stop` marks the end of all that came before: what
      was handed over by then, and every callback seen so far. */
  lemma StartMarks(run: seq<Ring>, actions: seq<Action>, i: nat)
    requires IsRun(run, actions) && i < |actions|
    requires run[i].control == Stopped(true) && actions[i] == Control(true)
    ensures var r, t := run[i], run[i + 1];
            && t.begun == Counts(r.dropped, |r.rendered|, |r.taken|) && !t.renderFailed
            && r.delivered == NonEmpty(t.rendered[..t.begun.rendered])
  {
    InvRun(run, actions, i);
    QuiescedStopDrains(run, actions, i);
    assert run[i + 1] == Perform(run[i], actions[i]);
    assert run[i].rendered[..|run[i].rendered|] == run[i].rendered;
  }
}
