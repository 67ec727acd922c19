/** Worker output before the finish line: exactly when a byte that was read before
    `finish` allowed output is not recognised as early. The flag is stored once.
    If the reader stands between its read of a byte and its load of the flag at
    that moment, the byte passes; every other byte read before the store is found
    early and the session is refused. */
module WorkerEarly {
  import opened Worker
  import opened WorkerTheorems

  /** A byte was read before output was allowed, and the reader's load of the flag
      did not say so. */
  predicate Escaped(st: Stream) {
    st.readEarly && !st.early
  }

  /** The step stores the flag while the reader holds a byte for which it has not
      loaded the flag yet. */
  predicate StoreRacesLoad(s: Sys, a: Action) {
    a.Proceeds? && s.parent.StoreAllowed? && s.stream.reader.at.LoadAllowed?
  }

  predicate BeforeStore(p: Parent) {
    p.TryRecv? || p.WriteBody? || p.StoreAllowed?
  }

  /** The store is still to come while `finish` has not passed it, and until then
      every byte read is read early. */
  predicate StoreIsLate(s: Sys) {
    && (BeforeStore(s.parent) ==> !s.allowed)
    && (if s.allowed then s.stream.readEarly ==> s.stream.taken != [] else s.stream.readEarly <==> s.stream.taken != [])
  }

  /** What one step does to the flag and to the two histories. */
  predicate FlagMoves(s: Sys, a: Action, t: Sys) {
    && StoreIsLate(t)
    && (s.allowed ==> t.allowed && Escaped(t.stream) == Escaped(s.stream) && !(a.Proceeds? && s.parent.StoreAllowed?))
    && (t.allowed && !s.allowed ==> a.Proceeds? && s.parent.StoreAllowed? && t.stream == s.stream)
  }

  lemma SendsFlag(s: Sys, p: Parent, ok: bool)
    requires StoreIsLate(s) && s.parent == p && InSend(p)
    ensures FlagMoves(s, Proceeds(ok), SendStep(s, p, ok))
  {}

  lemma RecvsFlag(s: Sys, p: Parent, ok: bool)
    requires StoreIsLate(s) && s.parent == p && InRecv(p)
    ensures FlagMoves(s, Proceeds(ok), RecvStep(s, p, ok))
  {}

  lemma FallbackFlag(s: Sys, p: Parent, ok: bool)
    requires StoreIsLate(s) && s.parent == p && !InSend(p) && !InRecv(p)
    ensures FlagMoves(s, Proceeds(ok), FallbackStep(s, p, ok))
  {}

  lemma ReadFlag(s: Sys, r: Reader, ioError: bool)
    requires StoreIsLate(s) && s.stream.reader == r && r.at.Read?
    ensures FlagMoves(s, Reads(ioError), ReaderStep(s, r, ioError))
  {}

  lemma LoadFlag(s: Sys, r: Reader, ioError: bool)
    requires StoreIsLate(s) && s.stream.reader == r && !r.at.Read?
    ensures FlagMoves(s, Reads(ioError), ReaderStep(s, r, ioError))
  {}

  lemma FlagStep(s: Sys, a: Action)
    requires StoreIsLate(s)
    ensures FlagMoves(s, a, Perform(s, a))
  {
    match a
    case Reads(ioError) =>
      var r := s.stream.reader;
      if r.at.Read? { ReadFlag(s, r, ioError); } else { LoadFlag(s, r, ioError); }
    case Proceeds(ok) =>
      var p := s.parent;
      if InSend(p) { SendsFlag(s, p, ok); } else if InRecv(p) { RecvsFlag(s, p, ok); } else { FallbackFlag(s, p, ok); }
    case _ =>
  }

  lemma {:induction false} FlagRun(run: seq<Sys>, actions: seq<Action>, i: nat)
    requires IsRun(run, actions) && i < |run|
    ensures StoreIsLate(run[i])
  {
    if i > 0 {
      FlagRun(run, actions, i - 1);
      FlagStep(run[i - 1], actions[i - 1]);
    }
  }

  lemma {:induction false} AllowedStays(run: seq<Sys>, actions: seq<Action>, i: nat, j: nat)
    requires IsRun(run, actions) && i <= j < |run| && run[i].allowed
    ensures run[j].allowed
  {
    if i < j {
      AllowedStays(run, actions, i, j - 1);
      FlagRun(run, actions, j - 1);
      FlagStep(run[j - 1], actions[j - 1]);
    }
  }

  /** Before the store, what the reader has read and not found early is the byte
      in its hand. */
  lemma InHand(s: Sys)
    requires Inv(s) && StoreIsLate(s) && !s.allowed && s.received == 0
    ensures Escaped(s.stream) <==> s.stream.reader.at.LoadAllowed?
  {}

  /** The store fell between the reader's read of a byte and its load of the flag
      at some step before `i`. */
  ghost predicate Raced(run: seq<Sys>, actions: seq<Action>, i: nat)
    requires i <= |run| && i <= |actions|
  {
    exists k :: 0 <= k < i && StoreRacesLoad(run[k], actions[k])
  }

  lemma RacedGrows(run: seq<Sys>, actions: seq<Action>, i: nat)
    requires i < |run| && i < |actions|
    ensures Raced(run, actions, i + 1) <==> Raced(run, actions, i) || StoreRacesLoad(run[i], actions[i])
  {
    if Raced(run, actions, i + 1) {
      var k :| 0 <= k < i + 1 && StoreRacesLoad(run[k], actions[k]);
    }
  }

  /** The store allows output for good, so there is no second one. */
  lemma StoreAllows(run: seq<Sys>, actions: seq<Action>, k: nat, i: nat)
    requires IsRun(run, actions) && k < i <= |actions| && StoreRacesLoad(run[k], actions[k])
    ensures run[i].allowed
  {
    assert run[k + 1] == Perform(run[k], actions[k]);
    AllowedStays(run, actions, k + 1, i);
  }

  lemma NotRacedYet(run: seq<Sys>, actions: seq<Action>, i: nat)
    requires IsRun(run, actions) && i <= |actions| && !run[i].allowed
    ensures !Raced(run, actions, i)
  {
    forall k | 0 <= k < i ensures !StoreRacesLoad(run[k], actions[k]) {
      if StoreRacesLoad(run[k], actions[k]) { StoreAllows(run, actions, k, i); }
    }
  }

  /** The step that stores the flag decides. */
  lemma StoreDecides(s: Sys, a: Action)
    requires Inv(s) && StoreIsLate(s) && Enabled(s, a) && !s.allowed && Perform(s, a).allowed
    ensures Escaped(Perform(s, a).stream) <==> StoreRacesLoad(s, a)
  {
    FlagStep(s, a);
    InHand(s);
  }

  /** In every run: once output is allowed, a byte read too soon has escaped the
      reader's look at the flag iff the store fell between its read and that look. */
  lemma {:induction false} EscapesIffStoreRaces(run: seq<Sys>, actions: seq<Action>, i: nat)
    requires IsRun(run, actions) && i < |run| && run[i].allowed
    ensures Escaped(run[i].stream) <==> Raced(run, actions, i)
  {
    if i > 0 {
      FlagRun(run, actions, i - 1);
      FlagStep(run[i - 1], actions[i - 1]);
      RacedGrows(run, actions, i - 1);
      if run[i - 1].allowed {
        EscapesIffStoreRaces(run, actions, i - 1);
      } else {
        InvRun(run, actions, i - 1);
        StoreDecides(run[i - 1], actions[i - 1]);
        NotRacedYet(run, actions, i - 1);
      }
    }
  }

  /** Without the flag, no frame passes as an answer. */
  lemma DisallowedIsRefused(s: Sys)
    requires Inv(s) && StoreIsLate(s) && !s.allowed && s.stream.readEarly
    ensures s.batch.launched == 0 && (s.parent.Done? ==> s.parent.result.Refused?)
  {}

  /** Output read before it is allowed makes `finish` fail, with neither an answer
      from the stream nor a fallback, unless the store raced the reader's load. */
  lemma EarlyOutputIsRefused(run: seq<Sys>, actions: seq<Action>, i: nat)
    requires IsRun(run, actions) && i < |run| && run[i].stream.readEarly && !Raced(run, actions, i)
    ensures run[i].batch.launched == 0
    ensures run[i].parent.Done? ==> run[i].parent.result.Refused?
  {
    FlagRun(run, actions, i);
    if run[i].allowed {
      EscapesIffStoreRaces(run, actions, i);
      FlaggedIsRefused(run, actions, i);
    } else {
      InvRun(run, actions, i);
      DisallowedIsRefused(run[i]);
    }
  }
}
