/** The host's side of a recording: the raw file the recorder appends to and the
    stream helper reads, until it is frozen, trimmed and stored as a WAV file. */
module Capture {
  import opened Bytes
  import opened Options

  /** `Closed`: the helper has been told that the capture is over. */
  datatype Stage = Recording | Frozen | Stored | Closed

  /** `wav` is what `write_wav` was given; the file holds `WriteWav(wav)`. */
  datatype Host = Host(pcm: seq<Byte>, limit: Option<nat>, stage: Stage, wav: seq<Byte>)

  /** What can happen to the recording between two steps of the helper. */
  datatype Act = Record(chunk: seq<Byte>) | Freeze(ok: bool) | Store | Close

  function Trimmed(pcm: seq<Byte>, limit: Option<nat>): seq<Byte> {
    if limit.Some? && |pcm| > limit.value then pcm[..limit.value] else pcm
  }

  function Perform(h: Host, a: Act): Host {
    match a
    case Record(chunk) => if h.stage.Recording? then h.(pcm := h.pcm + chunk) else h
    case Freeze(ok) => if h.stage.Recording? && ok then h.(stage := Frozen) else h
    case Store =>
      if !h.stage.Frozen? then h
      else
        var pcm := Trimmed(h.pcm, h.limit);
        if |pcm| % 2 != 0 then h.(pcm := pcm) else h.(pcm := pcm, stage := Stored, wav := pcm)
    case Close => if h.stage.Stored? then h.(stage := Closed) else h
  }

  function PerformAll(h: Host, acts: seq<Act>): Host
    decreases |acts|
  {
    if acts == [] then h else PerformAll(Perform(h, acts[0]), acts[1..])
  }

  predicate Ready(h: Host) {
    h.stage.Stored? || h.stage.Closed?
  }

  /** A stored recording is even, within the limit, and what the WAV file holds. */
  predicate HostOk(h: Host) {
    && (h.limit.Some? ==> h.limit.value > 0 && h.limit.value % 2 == 0)
    && (Ready(h) ==> |h.pcm| % 2 == 0 && (h.limit.Some? ==> |h.pcm| <= h.limit.value) && h.wav == h.pcm)
  }

  /** The file is appended to, or cut to the limit; once stored it stays. */
  predicate Continues(h: Host, t: Host) {
    && t.limit == h.limit
    && (h.pcm <= t.pcm || (h.limit.Some? && t.pcm <= h.pcm && |t.pcm| >= h.limit.value && !t.stage.Recording?))
    && (!h.stage.Recording? ==> !t.stage.Recording? && t.pcm <= h.pcm)
    && (Ready(h) ==> Ready(t) && t.pcm == h.pcm && t.wav == h.wav)
    && (h.stage.Closed? ==> t.stage.Closed?)
  }

  lemma PerformContinues(h: Host, a: Act)
    requires HostOk(h)
    ensures HostOk(Perform(h, a)) && Continues(h, Perform(h, a))
  {}

  lemma ContinuesFurther(h: Host, m: Host, t: Host)
    requires Continues(h, m) && Continues(m, t)
    ensures Continues(h, t)
  {}

  lemma {:induction false} PerformAllContinues(h: Host, acts: seq<Act>)
    requires HostOk(h)
    ensures HostOk(PerformAll(h, acts)) && Continues(h, PerformAll(h, acts))
    decreases |acts|
  {
    if acts != [] {
      var m := Perform(h, acts[0]);
      PerformContinues(h, acts[0]);
      PerformAllContinues(m, acts[1..]);
      ContinuesFurther(h, m, PerformAll(m, acts[1..]));
    }
  }

  function Records(chunks: seq<seq<Byte>>): seq<Act> {
    seq(|chunks|, i requires 0 <= i < |chunks| => Record(chunks[i]))
  }

  function Concat(chunks: seq<seq<Byte>>): seq<Byte> {
    if chunks == [] then [] else chunks[0] + Concat(chunks[1..])
  }

  lemma {:induction false} AllRecorded(h: Host, chunks: seq<seq<Byte>>, rest: seq<Act>)
    requires h.stage.Recording?
    ensures PerformAll(h, Records(chunks) + rest) == PerformAll(h.(pcm := h.pcm + Concat(chunks)), rest)
    decreases |chunks|
  {
    var acts := Records(chunks) + rest;
    if chunks == [] {
      assert acts == rest && h.pcm + [] == h.pcm;
    } else {
      assert acts[1..] == Records(chunks[1..]) + rest;
      assert h.pcm + chunks[0] + Concat(chunks[1..]) == h.pcm + Concat(chunks);
      AllRecorded(Perform(h, acts[0]), chunks[1..], rest);
    }
  }

  /** A whole recording: what the WAV file holds is all that was recorded, cut to the
      limit; half a sample at the end spoils it. */
  lemma RecordingIsStored(chunks: seq<seq<Byte>>, limit: Option<nat>)
    ensures var all := Concat(chunks);
            var pcm := if limit.Some? then all[..if |all| < limit.value then |all| else limit.value] else all;
            var t := PerformAll(Host([], limit, Recording, []), Records(chunks) + [Freeze(true), Store, Close]);
            t == if |pcm| % 2 == 0 then Host(pcm, limit, Closed, pcm) else Host(pcm, limit, Frozen, [])
  {
    var h := Host([], limit, Recording, []);
    AllRecorded(h, chunks, [Freeze(true), Store, Close]);
    assert [] + Concat(chunks) == Concat(chunks) && Concat(chunks)[..|Concat(chunks)|] == Concat(chunks);
    assert [Freeze(true), Store, Close][1..] == [Store, Close];
    assert [Store, Close][1..] == [Close];
    assert [Close][1..] == [];
  }

  class Capture {
    var pcm: seq<Byte>
    var pcmLimit: Option<nat>
    var stage: Stage
    var wav: seq<Byte>

    ghost function View(): Host
      reads this
    {
      Host(pcm, pcmLimit, stage, wav)
    }

    constructor ()
      ensures View() == Host([], None, Recording, [])
    {
      pcm, pcmLimit, stage, wav := [], None, Recording, [];
    }

    method SetPcmLimit(bytes: nat)
      requires bytes > 0 && bytes % 2 == 0
      modifies `pcmLimit
      ensures View() == old(View()).(limit := Some(bytes))
    {
      pcmLimit := Some(bytes);
    }

    /** `freeze`; `ok` says that the recorder ended as it should. */
    method Stop(ok: bool)
      modifies `stage
      ensures View() == Perform(old(View()), Freeze(ok))
    {
      if stage != Recording { return; }
      if ok { stage := Frozen; }
    }

    method FinishWav() returns (ok: bool)
      requires stage == Frozen
      modifies this
      ensures View() == Perform(old(View()), Store) && (ok <==> stage == Stored)
    {
      if pcmLimit.Some? && |pcm| > pcmLimit.value {
        pcm := pcm[..pcmLimit.value];
      }
      if |pcm| % 2 != 0 { return false; }
      wav := pcm;
      stage := Stored;
      ok := true;
    }

    method Happen(a: Act)
      modifies this
      ensures View() == Perform(old(View()), a)
    {
      match a
      case Record(chunk) => if stage == Recording { pcm := pcm + chunk; }
      case Freeze(ok) => Stop(ok);
      case Store => if stage == Frozen { var _ := FinishWav(); }
      case Close => if stage == Stored { stage := Closed; }
    }

    method HappenAll(acts: seq<Act>)
      modifies this
      ensures View() == PerformAll(old(View()), acts)
      decreases |acts|
    {
      if acts != [] {
        Happen(acts[0]);
        HappenAll(acts[1..]);
      }
    }
  }
}
