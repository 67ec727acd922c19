/** The compatibility registry: callers of one key share one probe, although the
    actor lets other callers in while they wait for it. */
module Registry {
  import opened Options

  type Key = string
  type Token = string

  datatype Verdict = Success(token: Token) | Failure(error: string)

  /** A probe task: its key, and its outcome once it is settled. */
  datatype Probe = Probe(key: Key, outcome: Option<Verdict>)

  datatype Caller = Waiting(key: Key, probe: nat) | Returned(key: Key, verdict: Verdict)

  datatype State = State(
    cached: map<Key, Token>,
    inFlight: map<Key, nat>,
    next: nat,
    probes: map<nat, Probe>,
    callers: map<nat, Caller>
  )

  const Empty: State := State(map[], map[], 0, map[], map[])

  /** `token(for:)` up to its suspension. */
  function Call(s: State, c: nat, key: Key): State {
    if c in s.callers then s
    else if key in s.cached then s.(callers := s.callers[c := Returned(key, Success(s.cached[key]))])
    else if key in s.inFlight then s.(callers := s.callers[c := Waiting(key, s.inFlight[key])])
    else s.(inFlight := s.inFlight[key := s.next], next := s.next + 1,
            probes := s.probes[s.next := Probe(key, None)], callers := s.callers[c := Waiting(key, s.next)])
  }

  /** A probe task ends. */
  function Settle(s: State, id: nat, outcome: Verdict): State {
    if id !in s.probes || s.probes[id].outcome.Some? then s
    else s.(probes := s.probes[id := s.probes[id].(outcome := Some(outcome))])
  }

  /** `token(for:)` from its suspension on, once the probe it waits for is settled. */
  function Resume(s: State, c: nat): State {
    if c !in s.callers || s.callers[c].Returned? then s
    else
      var key, id := s.callers[c].key, s.callers[c].probe;
      if id !in s.probes || s.probes[id].outcome.None? then s
      else
        var outcome := s.probes[id].outcome.value;
        var t := s.(callers := s.callers[c := Returned(key, outcome)]);
        if key !in s.inFlight || s.inFlight[key] != id then t
        else t.(cached := if outcome.Success? then s.cached[key := outcome.token] else s.cached,
                inFlight := s.inFlight - {key})
  }

  datatype Event = Called(c: nat, key: Key) | Settled(id: nat, outcome: Verdict) | Resumed(c: nat)

  function Perform(s: State, e: Event): State {
    match e
    case Called(c, key) => Call(s, c, key)
    case Settled(id, outcome) => Settle(s, id, outcome)
    case Resumed(c) => Resume(s, c)
  }

  function After(events: seq<Event>): State {
    if events == [] then Empty else Perform(After(events[..|events| - 1]), events[|events| - 1])
  }

  predicate Succeeded(p: Probe) {
    p.outcome.Some? && p.outcome.value.Success?
  }

  /** A probe that is unsettled, or succeeded and not cached yet, is the one in
      flight; one that succeeded and is not in flight is what is cached. */
  predicate ProbeOk(s: State, id: nat)
    requires id in s.probes
  {
    var p := s.probes[id];
    && id < s.next
    && (p.outcome.None? ==> p.key in s.inFlight && s.inFlight[p.key] == id)
    && (Succeeded(p) ==>
          || (p.key in s.inFlight && s.inFlight[p.key] == id)
          || (p.key in s.cached && s.cached[p.key] == p.outcome.value.token))
  }

  predicate FlightOk(s: State, key: Key)
    requires key in s.inFlight
  {
    s.inFlight[key] in s.probes && s.probes[s.inFlight[key]].key == key && key !in s.cached
  }

  predicate CallerOk(s: State, c: nat)
    requires c in s.callers
  {
    match s.callers[c]
    case Waiting(key, id) => id in s.probes && s.probes[id].key == key
    case Returned(key, Success(token)) => key in s.cached && s.cached[key] == token
    case Returned(_, Failure(_)) => true
  }

  /** What is cached came from a successful probe of that key. */
  predicate CacheOk(s: State, key: Key)
    requires key in s.cached
  {
    exists id :: id in s.probes && s.probes[id] == Probe(key, Some(Success(s.cached[key])))
  }

  ghost predicate Inv(s: State) {
    && (forall id :: id in s.probes ==> ProbeOk(s, id))
    && (forall key :: key in s.inFlight ==> FlightOk(s, key))
    && (forall c :: c in s.callers ==> CallerOk(s, c))
    && (forall key :: key in s.cached ==> CacheOk(s, key))
  }

  lemma CallKeeps(s: State, c: nat, key: Key)
    requires Inv(s)
    ensures Inv(Call(s, c, key))
  {
    var t := Call(s, c, key);
    forall id | id in t.probes ensures ProbeOk(t, id) { if id in s.probes { assert ProbeOk(s, id); } }
    forall k | k in t.inFlight ensures FlightOk(t, k) { if k in s.inFlight { assert FlightOk(s, k); } }
    CallCallers(s, c, key);
    CallCache(s, c, key);
  }

  lemma CallCallers(s: State, c: nat, key: Key)
    requires Inv(s)
    ensures forall d :: d in Call(s, c, key).callers ==> CallerOk(Call(s, c, key), d)
  {
    var t := Call(s, c, key);
    forall d | d in t.callers ensures CallerOk(t, d) {
      if d in s.callers { assert CallerOk(s, d); } else if key in s.inFlight { assert FlightOk(s, key); }
    }
  }

  lemma CallCache(s: State, c: nat, key: Key)
    requires Inv(s)
    ensures forall k :: k in s.cached ==> CacheOk(Call(s, c, key), k)
    ensures Call(s, c, key).cached == s.cached
  {
    var t := Call(s, c, key);
    forall k | k in s.cached ensures CacheOk(t, k) {
      assert CacheOk(s, k);
      var id :| id in s.probes && s.probes[id] == Probe(k, Some(Success(s.cached[k])));
      assert ProbeOk(s, id);
      assert t.probes[id] == s.probes[id];
    }
  }

  lemma SettleKeeps(s: State, id: nat, outcome: Verdict)
    requires Inv(s)
    ensures Inv(Settle(s, id, outcome))
  {
    var t := Settle(s, id, outcome);
    forall i | i in t.probes ensures ProbeOk(t, i) { assert ProbeOk(s, i); }
    forall k | k in t.inFlight ensures FlightOk(t, k) { assert FlightOk(s, k); }
    forall d | d in t.callers ensures CallerOk(t, d) { assert CallerOk(s, d); }
    forall k | k in t.cached ensures CacheOk(t, k) {
      assert CacheOk(s, k);
      var i :| i in s.probes && s.probes[i] == Probe(k, Some(Success(s.cached[k])));
      assert t.probes[i] == s.probes[i];
    }
  }

  lemma ResumeCaches(s: State, c: nat, key: Key)
    requires Inv(s) && key in Resume(s, c).cached
    ensures CacheOk(Resume(s, c), key)
  {
    var t := Resume(s, c);
    if key in s.cached && s.cached[key] == t.cached[key] {
      assert CacheOk(s, key);
      var i :| i in s.probes && s.probes[i] == Probe(key, Some(Success(s.cached[key])));
      assert t.probes[i] == s.probes[i];
    } else {
      assert CallerOk(s, c);
      assert t.probes[s.callers[c].probe] == Probe(key, Some(Success(t.cached[key])));
    }
  }

  lemma ResumeProbes(s: State, c: nat, id: nat)
    requires Inv(s) && id in s.probes
    ensures ProbeOk(Resume(s, c), id)
  {
    assert ProbeOk(s, id);
    if c in s.callers {
      assert CallerOk(s, c);
      if s.callers[c].Waiting? { assert ProbeOk(s, s.callers[c].probe); }
    }
  }

  lemma ResumeCallers(s: State, c: nat, d: nat)
    requires Inv(s) && d in s.callers
    ensures CallerOk(Resume(s, c), d)
  {
    assert CallerOk(s, d);
    if c in s.callers {
      assert CallerOk(s, c);
      if s.callers[c].Waiting? { assert ProbeOk(s, s.callers[c].probe); }
    }
  }

  lemma ResumeKeeps(s: State, c: nat)
    requires Inv(s)
    ensures Inv(Resume(s, c))
  {
    var t := Resume(s, c);
    forall i | i in t.probes ensures ProbeOk(t, i) { ResumeProbes(s, c, i); }
    forall k | k in t.inFlight ensures FlightOk(t, k) { assert FlightOk(s, k); }
    forall d | d in t.callers ensures CallerOk(t, d) { ResumeCallers(s, c, d); }
    forall k | k in t.cached ensures CacheOk(t, k) { ResumeCaches(s, c, k); }
  }

  lemma {:induction false} InvAfter(events: seq<Event>)
    ensures Inv(After(events))
  {
    if events != [] {
      var s := After(events[..|events| - 1]);
      InvAfter(events[..|events| - 1]);
      match events[|events| - 1]
      case Called(c, key) => CallKeeps(s, c, key);
      case Settled(id, outcome) => SettleKeeps(s, id, outcome);
      case Resumed(c) => ResumeKeeps(s, c);
    }
  }

  /** At most one probe of a key is unsettled, it is the one in flight, and a cached
      key has none in flight. */
  lemma SingleFlight(events: seq<Event>, i: nat, j: nat)
    requires i in After(events).probes && j in After(events).probes
    requires After(events).probes[i].key == After(events).probes[j].key
    requires After(events).probes[i].outcome.None?
    ensures After(events).probes[j].outcome.None? ==> i == j
    ensures After(events).probes[i].key !in After(events).cached
    ensures After(events).probes[j].outcome == None || !Succeeded(After(events).probes[j])
  {
    InvAfter(events);
    assert ProbeOk(After(events), i) && ProbeOk(After(events), j);
    assert FlightOk(After(events), After(events).probes[i].key);
  }

  /** All callers of a key that are given a token are given the same one, which a
      successful probe of that key returned. */
  lemma OneTokenPerKey(events: seq<Event>, c: nat, d: nat)
    requires c in After(events).callers && d in After(events).callers
    requires After(events).callers[c].Returned? && After(events).callers[d].Returned?
    requires After(events).callers[c].key == After(events).callers[d].key
    requires After(events).callers[c].verdict.Success? && After(events).callers[d].verdict.Success?
    ensures After(events).callers[c].verdict == After(events).callers[d].verdict
    ensures exists id :: id in After(events).probes
              && After(events).probes[id] == Probe(After(events).callers[c].key, Some(After(events).callers[c].verdict))
  {
    InvAfter(events);
    var s := After(events);
    assert CallerOk(s, c) && CallerOk(s, d);
    assert CacheOk(s, s.callers[c].key);
  }

  /** A caller whose probe failed, or is no longer the one in flight, takes nothing
      from a newer probe when it returns. */
  lemma StaleWaiterSpares(s: State, c: nat)
    requires c in s.callers && s.callers[c].Waiting? && s.callers[c].probe in s.probes
    requires !Succeeded(s.probes[s.callers[c].probe])
      || s.callers[c].key !in s.inFlight || s.inFlight[s.callers[c].key] != s.callers[c].probe
    ensures Resume(s, c).cached == s.cached
    ensures forall key :: key in s.inFlight && s.inFlight[key] != s.callers[c].probe
              ==> key in Resume(s, c).inFlight && Resume(s, c).inFlight[key] == s.inFlight[key]
  {}

  function ProbesOf(s: State, key: Key): set<nat> {
    set id | id in s.probes && s.probes[id].key == key
  }

  lemma CachedStays(s: State, e: Event, key: Key)
    requires Inv(s) && key in s.cached
    ensures key in Perform(s, e).cached && Perform(s, e).cached[key] == s.cached[key]
    ensures ProbesOf(Perform(s, e), key) == ProbesOf(s, key)
  {
    match e
    case Called(_, _) =>
    case Settled(_, _) =>
    case Resumed(c) =>
      if c in s.callers && s.callers[c].Waiting? && s.callers[c].key == key {
        assert ProbeOk(s, s.callers[c].probe) by { assert CallerOk(s, c); }
      }
  }

  /** Once a key is cached it stays so, with its token, and no probe for it starts. */
  lemma {:induction false} NoProbeAfterSuccess(events: seq<Event>, more: seq<Event>, key: Key)
    requires key in After(events).cached
    ensures key in After(events + more).cached && After(events + more).cached[key] == After(events).cached[key]
    ensures ProbesOf(After(events + more), key) == ProbesOf(After(events), key)
  {
    if more == [] {
      assert events + more == events;
    } else {
      var before := more[..|more| - 1];
      NoProbeAfterSuccess(events, before, key);
      InvAfter(events + before);
      CachedStays(After(events + before), more[|more| - 1], key);
      assert (events + more)[..|events + more| - 1] == events + before;
    }
  }

  lemma AfterMore(events: seq<Event>, e: Event)
    ensures After(events + [e]) == Perform(After(events), e)
  {
    assert (events + [e])[..|events|] == events;
  }

  /** A caller of a cached key is answered at once, and starts no probe. */
  lemma CachedAnswers(events: seq<Event>, c: nat, key: Key)
    requires c !in After(events).callers && key in After(events).cached
    ensures var s, t := After(events), After(events + [Called(c, key)]);
            && t.callers == s.callers[c := Returned(key, Success(s.cached[key]))]
            && t.probes == s.probes && t.inFlight == s.inFlight && t.cached == s.cached
  {
    AfterMore(events, Called(c, key));
  }

  /** The probe a caller of the key would wait for: the one in flight, or a new one. */
  function ProbeFor(s: State, key: Key): nat {
    if key in s.inFlight then s.inFlight[key] else s.next
  }

  /** The probe of the key that is in flight, if any, is still at work. */
  predicate AtWork(s: State, key: Key) {
    key in s.inFlight ==> s.inFlight[key] in s.probes && s.probes[s.inFlight[key]] == Probe(key, None)
  }

  /** The caller waits for the probe in flight. */
  predicate Joined(s: State, c: nat, key: Key, id: nat) {
    && c in s.callers && s.callers[c] == Waiting(key, id) && key !in s.cached
    && key in s.inFlight && s.inFlight[key] == id && id in s.probes && s.probes[id] == Probe(key, None)
  }

  lemma CallJoins(s: State, c: nat, key: Key)
    requires c !in s.callers && key !in s.cached && AtWork(s, key)
    ensures var t, id := Call(s, c, key), ProbeFor(s, key);
            && Joined(t, c, key, id) && t.cached == s.cached
            && t.callers == s.callers[c := Waiting(key, id)]
            && t.probes == s.probes[id := Probe(key, None)]
            && t.inFlight == s.inFlight[key := id]
  {}

  lemma JoinedReturns(s: State, c: nat, key: Key, id: nat, v: Verdict)
    requires Joined(s, c, key, id)
    ensures var t := Resume(Settle(s, id, v), c);
            && t.callers == s.callers[c := Returned(key, v)]
            && t.probes == s.probes[id := Probe(key, Some(v))]
            && t.inFlight == s.inFlight - {key}
            && t.cached == (if v.Success? then s.cached[key := v.token] else s.cached)
  {}

  /** A caller of any other key joins the probe in flight, or starts one if there is
      none, and is given its outcome; after a success the token is cached, and after a
      failure the next caller starts anew. */
  lemma OutcomeReachesCaller(events: seq<Event>, c: nat, key: Key, v: Verdict)
    requires c !in After(events).callers && key !in After(events).cached && AtWork(After(events), key)
    ensures var s, id := After(events), ProbeFor(After(events), key);
            var t := After(events + [Called(c, key)] + [Settled(id, v)] + [Resumed(c)]);
            && t.callers == s.callers[c := Returned(key, v)]
            && t.probes == s.probes[id := Probe(key, Some(v))]
            && t.inFlight == s.inFlight - {key}
            && t.cached == (if v.Success? then s.cached[key := v.token] else s.cached)
  {
    var s, id := After(events), ProbeFor(After(events), key);
    AfterMore(events, Called(c, key));
    AfterMore(events + [Called(c, key)], Settled(id, v));
    AfterMore(events + [Called(c, key)] + [Settled(id, v)], Resumed(c));
    CallJoins(s, c, key);
    JoinedReturns(Call(s, c, key), c, key, id, v);
  }

  /** Some probe of the key failed so. */
  predicate FailedSo(probes: map<nat, Probe>, key: Key, error: string) {
    exists id :: id in probes && probes[id] == Probe(key, Some(Failure(error)))
  }

  predicate Blamed(s: State, c: nat)
    requires c in s.callers
  {
    s.callers[c].Returned? && s.callers[c].verdict.Failure? ==>
      FailedSo(s.probes, s.callers[c].key, s.callers[c].verdict.error)
  }

  lemma OutcomesStay(s: State, e: Event, id: nat)
    requires Inv(s) && id in s.probes
    ensures id in Perform(s, e).probes && (s.probes[id].outcome.Some? ==> Perform(s, e).probes[id] == s.probes[id])
  {
    assert ProbeOk(s, id);
  }

  lemma BlameKept(s: State, e: Event, c: nat)
    requires Inv(s) && c in s.callers && s.callers[c].Returned? && Blamed(s, c)
    ensures c in Perform(s, e).callers && Perform(s, e).callers[c] == s.callers[c] && Blamed(Perform(s, e), c)
  {
    if s.callers[c].verdict.Failure? {
      var id :| id in s.probes && s.probes[id] == Probe(s.callers[c].key, Some(Failure(s.callers[c].verdict.error)));
      OutcomesStay(s, e, id);
    }
  }

  lemma BlameGiven(s: State, e: Event, c: nat)
    requires Inv(s) && c in Perform(s, e).callers && (c !in s.callers || s.callers[c].Waiting?)
    ensures Blamed(Perform(s, e), c)
  {
    if c in s.callers {
      assert CallerOk(s, c);
      OutcomesStay(s, e, s.callers[c].probe);
    }
  }

  /** Nobody is given an error but that of a failed probe of the same key. */
  lemma {:induction false} ErrorsAreProbed(events: seq<Event>)
    ensures forall c :: c in After(events).callers ==> Blamed(After(events), c)
  {
    if events != [] {
      var s, e := After(events[..|events| - 1]), events[|events| - 1];
      ErrorsAreProbed(events[..|events| - 1]);
      InvAfter(events[..|events| - 1]);
      forall c | c in After(events).callers ensures Blamed(After(events), c) {
        if c in s.callers && s.callers[c].Returned? { BlameKept(s, e, c); } else { BlameGiven(s, e, c); }
      }
    }
  }

  class CompatibilityRegistry {
    var cached: map<Key, Token>
    var inFlight: map<Key, nat>
    var nextID: nat
    var probes: map<nat, Probe>
    var callers: map<nat, Caller>

    ghost function View(): State
      reads this
    {
      State(cached, inFlight, nextID, probes, callers)
    }

    constructor ()
      ensures View() == Empty
    {
      cached, inFlight, nextID, probes, callers := map[], map[], 0, map[], map[];
    }

    method AskToken(c: nat, key: Key)
      requires c !in callers
      modifies this
      ensures View() == Call(old(View()), c, key)
    {
      if key in cached {
        callers := callers[c := Returned(key, Success(cached[key]))];
        return;
      }
      var entry: nat;
      if key in inFlight {
        entry := inFlight[key];
      } else {
        entry := nextID;
        nextID := nextID + 1;
        probes := probes[entry := Probe(key, None)];
        inFlight := inFlight[key := entry];
      }
      callers := callers[c := Waiting(key, entry)];
    }

    method ProbeEnds(id: nat, outcome: Verdict)
      requires id in probes && probes[id].outcome.None?
      modifies `probes
      ensures View() == Settle(old(View()), id, outcome)
    {
      probes := probes[id := probes[id].(outcome := Some(outcome))];
    }

    method GetToken(c: nat)
      requires c in callers && callers[c].Waiting?
      requires callers[c].probe in probes && probes[callers[c].probe].outcome.Some?
      modifies this
      ensures View() == Resume(old(View()), c)
    {
      var key, entry := callers[c].key, callers[c].probe;
      var outcome := probes[entry].outcome.value;
      callers := callers[c := Returned(key, outcome)];
      match outcome
      case Success(token) =>
        if key in inFlight && inFlight[key] == entry {
          cached := cached[key := token];
          inFlight := inFlight - {key};
        }
      case Failure(_) =>
        if key in inFlight && inFlight[key] == entry { inFlight := inFlight - {key}; }
    }

    /** The actor's jobs in any order; those that cannot run yet are skipped. */
    method Run(events: seq<Event>)
      requires View() == Empty
      modifies this
      ensures View() == After(events)
    {
      for i := 0 to |events|
        invariant View() == After(events[..i])
      {
        match events[i] {
          case Called(c, key) => if c !in callers { AskToken(c, key); }
          case Settled(id, outcome) => if id in probes && probes[id].outcome.None? { ProbeEnds(id, outcome); }
          case Resumed(c) =>
            if c in callers && callers[c].Waiting? && callers[c].probe in probes
               && probes[callers[c].probe].outcome.Some? { GetToken(c); }
        }
        assert events[..i + 1][..i] == events[..i];
      }
      assert events[..|events|] == events;
    }
  }
}
