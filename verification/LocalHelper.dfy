/** The local speech helper: its streaming loop over the file the host is still
    writing, and the batch reader it must agree with. */
module LocalHelper {
  import opened Bytes
  import opened Options
  import opened Pcm
  import opened Capture

  const CHUNK: nat := 3200
  const BATCH_BUFFER: nat := 65536

  /** What the batch helper makes of a complete recording. */
  function BatchOf(pcm: seq<Byte>): Option<seq<real>> {
    if |pcm| <= MAX_PCM && MIN_PCM <= |pcm| && |pcm| % 2 == 0 then Some(Decode(pcm)) else None
  }

  method Batch(input: seq<Byte>) returns (heard: Option<seq<real>>)
    ensures heard == BatchOf(input)
    ensures heard.Some? <==> 9600 <= |input| <= 9600000 && |input| % 2 == 0
    ensures heard.Some? ==> |heard.value| == |input| / 2
  {
    var bytes: seq<Byte> := [];
    var at := 0;
    while at < |input|
      invariant at <= |input| && bytes == input[..at] && |bytes| <= MAX_PCM
    {
      var n := if |input| - at < BATCH_BUFFER then |input| - at else BATCH_BUFFER;
      if |bytes| + n > MAX_PCM { return None; }
      assert input[..at + n] == input[..at] + input[at..at + n];
      bytes := bytes + input[at..at + n];
      at := at + n;
    }
    assert bytes == input;
    if |bytes| < MIN_PCM || |bytes| % 2 != 0 { return None; }
    var buffer := new Byte[|bytes|](i requires 0 <= i < |bytes| => bytes[i]);
    var audio := Convert(buffer, |bytes|);
    assert buffer[..|bytes|] == bytes;
    heard := Some(audio[..]);
  }

  datatype Read = Interrupted | Failed | Got(n: nat)

  /** One round of the loop, as the world sees it: what the host does before the
      finish flag, the file size and the bytes are read, and how the read ends. */
  datatype Turn = Turn(beforeLoad: seq<Act>, beforeStat: seq<Act>, beforeRead: seq<Act>, read: Read)

  const Idle: Turn := Turn([], [], [], Got(CHUNK))

  /** `Waiting`: the turns ran out while the helper was waiting for the host. */
  datatype Outcome = Waiting | Rejected | Finalized

  /** A regular file is read in whole samples, unless a signal comes first. */
  predicate Faultless(read: Read) {
    read.Interrupted? || (read.Got? && read.n >= 2 && read.n % 2 == 0)
  }

  /** What has been fed is a prefix of the file, unless the file was cut below it. */
  predicate Follows(seen: seq<Byte>, h: Host) {
    (seen <= h.pcm) || (h.limit.Some? && h.pcm <= seen && |h.pcm| >= h.limit.value && !h.stage.Recording?)
  }

  lemma FollowsFurther(seen: seq<Byte>, h: Host, t: Host)
    requires Follows(seen, h) && Continues(h, t)
    ensures Follows(seen, t)
  {}

  lemma FollowAll(seen: seq<Byte>, h: Host, acts: seq<Act>)
    requires HostOk(h) && Follows(seen, h)
    ensures HostOk(PerformAll(h, acts)) && Follows(seen, PerformAll(h, acts)) && Continues(h, PerformAll(h, acts))
  {
    PerformAllContinues(h, acts);
    FollowsFurther(seen, h, PerformAll(h, acts));
  }

  function Least(a: int, b: int): int {
    if a < b then a else b
  }

  /** How many bytes `read` returns; -1 for an error, also at the end of the file. */
  function Returned(size: nat, offset: nat, count: nat, read: Read): int {
    if !read.Got? || size <= offset then -1 else Least(read.n, Least(count, size - offset))
  }

  /** The helper has fed exactly the bytes `seen`, in whole samples. */
  predicate Fed(h: Host, seen: seq<Byte>, consumed: nat, heard: seq<real>) {
    Follows(seen, h) && |seen| == consumed <= MAX_PCM && consumed % 2 == 0 && heard == Decode(seen)
  }

  lemma FeedsMore(h: Host, seen: seq<Byte>, consumed: nat, heard: seq<real>, n: nat)
    requires Fed(h, seen, consumed, heard) && 0 < n && n % 2 == 0 && consumed + n <= |h.pcm| && consumed + n <= MAX_PCM
    ensures var chunk := h.pcm[consumed..consumed + n];
            Fed(h, seen + chunk, consumed + n, heard + Decode(chunk))
  {
    assert seen <= h.pcm;
    DecodeAppend(seen, h.pcm[consumed..consumed + n]);
  }

  /** The host has stopped recording and trims at less than the helper reads. */
  predicate CutsShort(h: Host) {
    h.limit.Some? && h.limit.value < MAX_PCM && !h.stage.Recording?
  }

  /** Otherwise the file is never cut below what was offered. */
  lemma NeverCut(h: Host, t: Host, n: nat)
    requires Continues(h, t) && n <= |h.pcm| && n <= MAX_PCM
    ensures n <= |t.pcm| || CutsShort(t)
  {}

  /** Finalising after the capture closed: all that was offered was fed, once and
      in order. If the file is within the limit that is the whole file, which is
      what the WAV holds and what batch processing would have heard. */
  lemma FinalizedIsBatch(h: Host, seen: seq<Byte>)
    requires HostOk(h) && h.stage.Closed? && Follows(seen, h) && MIN_PCM <= |seen| == Least(|h.pcm|, MAX_PCM)
    ensures seen == h.pcm[..|seen|]
    ensures seen == h.pcm <==> |h.pcm| <= MAX_PCM
    ensures h.limit == Some(MAX_PCM) ==> |h.pcm| <= MAX_PCM
    ensures |h.pcm| <= MAX_PCM ==> BatchOf(h.pcm) == Some(Decode(seen)) && h.wav == seen
  {}

  class Helper {
    const capture: Capture
    const bytes: array<Byte>
    var consumed: nat
    var finishing: bool
    var heard: seq<real>         // the samples fed to the recogniser
    ghost var seen: seq<Byte>    // every byte read so far

    constructor (host: Capture)
      ensures capture == host && fresh(bytes) && bytes.Length == CHUNK
      ensures consumed == 0 && !finishing && heard == [] && seen == []
    {
      capture, bytes := host, new Byte[CHUNK];
      consumed, finishing, heard, seen := 0, false, [], [];
    }

    ghost predicate Tracks()
      reads this, capture
    {
      && bytes.Length == CHUNK && HostOk(capture.View())
      && Fed(capture.View(), seen, consumed, heard)
      && (finishing ==> capture.stage.Closed?)
    }

    /** The host moves on. */
    method Let(acts: seq<Act>)
      requires Tracks()
      modifies capture
      ensures Tracks() && Continues(old(capture.View()), capture.View())
      ensures acts == [] ==> capture.View() == old(capture.View())
    {
      FollowAll(seen, capture.View(), acts);
      capture.HappenAll(acts);
    }

    /** `n` bytes into the buffer, and converted. */
    method ReadSamples(n: nat) returns (audio: array<real>)
      requires bytes.Length == CHUNK && n <= CHUNK && consumed + n <= |capture.pcm|
      modifies bytes
      ensures audio[..] == Decode(capture.pcm[consumed..consumed + n])
    {
      forall i | 0 <= i < n { bytes[i] := capture.pcm[consumed + i]; }
      assert bytes[..n] == capture.pcm[consumed..consumed + n];
      audio := Convert(bytes, n);
    }

    /** `transcribe_stream_feed`. */
    method Hear(n: nat)
      requires Tracks() && 0 < n <= CHUNK && n % 2 == 0 && consumed + n <= |capture.pcm| && consumed + n <= MAX_PCM
      modifies `consumed, `heard, `seen, bytes
      ensures Tracks() && consumed == old(consumed) + n
    {
      FeedsMore(capture.View(), seen, consumed, heard, n);
      var audio := ReadSamples(n);
      heard := heard + audio[..];
      seen := seen + capture.pcm[consumed..consumed + n];
      consumed := consumed + n;
    }

    /** `read`, and feeding what it returned. */
    method Feed(count: nat, read: Read) returns (n: int)
      requires Tracks() && 0 < count <= CHUNK && count % 2 == 0 && consumed + count <= MAX_PCM
      modifies `consumed, `heard, `seen, bytes
      ensures Tracks()
      ensures n == Returned(|capture.pcm|, old(consumed), count, read)
      ensures consumed == old(consumed) + if n > 0 && n % 2 == 0 then n else 0
    {
      n := Returned(|capture.pcm|, consumed, count, read);
      if n <= 0 || n % 2 != 0 { return; }
      Hear(n);
    }

    /** The finish flag and then the file size: what is left to read. */
    method Poll(t: Turn) returns (remaining: int)
      requires Tracks()
      modifies `finishing, capture
      ensures Tracks() && Continues(old(capture.View()), capture.View())
      ensures old(finishing) ==> finishing
      ensures remaining == if |capture.pcm| < consumed then -1 else Least(|capture.pcm|, MAX_PCM) - consumed
      ensures t == Idle ==> capture.View() == old(capture.View()) && (finishing <==> capture.stage.Closed?)
    {
      Let(t.beforeLoad);
      if capture.stage == Closed { finishing := true; }
      Let(t.beforeStat);
      var size := |capture.pcm|;
      remaining := if size < consumed then -1 else Least(size, MAX_PCM) - consumed;
    }

    /** Reading on, when there is something to read. */
    method Take(count: nat, t: Turn) returns (outcome: Option<Outcome>)
      requires Tracks() && 0 < count <= CHUNK && count % 2 == 0
      requires consumed + count <= |capture.pcm| && consumed + count <= MAX_PCM
      modifies `consumed, `heard, `seen, bytes, capture
      ensures Tracks() && capture.pcmLimit == old(capture.pcmLimit)
      ensures outcome.None? || outcome == Some(Rejected)
      ensures Continues(old(capture.View()), capture.View())
      ensures outcome.Some? ==> !Faultless(t.read) || CutsShort(capture.View())
      ensures outcome.None? && !t.read.Interrupted? ==> old(consumed) < consumed <= |capture.pcm|
      ensures t == Idle ==> capture.View() == old(capture.View()) && outcome.None?
    {
      Let(t.beforeRead);
      NeverCut(old(capture.View()), capture.View(), consumed + count);
      var n := Feed(count, t.read);
      if t.read == Interrupted { return None; }
      if n <= 0 || n % 2 != 0 { return Some(Rejected); }
      return None;
    }

    /** How a round that ends the loop, or waits, leaves it. */
    ghost predicate Verdict(outcome: Outcome, t: Turn)
      requires Tracks()
      reads this, capture
    {
      match outcome
      case Waiting => !finishing
      case Finalized => capture.stage.Closed? && MIN_PCM <= consumed == Least(|capture.pcm|, MAX_PCM)
      case Rejected =>
        || !Faultless(t.read) || CutsShort(capture.View())
        || (capture.stage.Closed? && |capture.pcm| < MIN_PCM)
    }

    /** One round of the loop: `None` to go on. */
    method Round(t: Turn) returns (outcome: Option<Outcome>)
      requires Tracks()
      modifies this, bytes, capture
      ensures Tracks() && Continues(old(capture.View()), capture.View())
      ensures outcome.Some? ==> Verdict(outcome.value, t)
      ensures outcome.None? && !t.read.Interrupted? ==> old(consumed) < consumed <= |capture.pcm|
      ensures old(finishing) ==> finishing && capture.pcm == old(capture.pcm) && outcome != Some(Waiting)
      ensures t == Idle ==> capture.View() == old(capture.View())
      ensures t == Idle && outcome == Some(Waiting) ==> !capture.stage.Closed?
    {
      var remaining := Poll(t);
      if remaining < 0 { return Some(Rejected); }
      if remaining < CHUNK && !finishing { return Some(Waiting); }
      var least := Least(remaining, CHUNK);
      var count := least - least % 2;
      if count > 0 {
        outcome := Take(count, t);
      } else if finishing {
        if remaining != 0 || consumed < MIN_PCM { return Some(Rejected); }
        return Some(Finalized);
      } else {
        assert false;
      }
    }

    /** The streaming loop. It ends when the recogniser is finalised, when the
        recording is refused, or when the turns run out while it waits. */
    method Stream(turns: seq<Turn>) returns (outcome: Outcome)
      requires Tracks()
      modifies this, bytes, capture
      ensures Tracks() && capture.pcmLimit == old(capture.pcmLimit)
      ensures outcome.Waiting? ==> !capture.stage.Closed?
      ensures outcome.Finalized? ==>
        && capture.stage.Closed? && MIN_PCM <= consumed == Least(|capture.pcm|, MAX_PCM)
        && heard == Decode(capture.pcm[..consumed])
      ensures outcome.Finalized? && capture.pcmLimit == Some(MAX_PCM) ==>
        consumed == |capture.pcm| && Some(heard) == BatchOf(capture.pcm) && capture.wav == capture.pcm
      ensures outcome.Rejected? ==>
        || (capture.stage.Closed? && BatchOf(capture.pcm) == None)
        || CutsShort(capture.View())
        || exists t <- turns :: !Faultless(t.read)
    {
      var turn := 0;
      while true
        invariant turn <= |turns| && Tracks() && capture.pcmLimit == old(capture.pcmLimit)
        decreases |turns| - turn, |capture.pcm| - consumed
      {
        var last := turn == |turns|;
        var t := if last then Idle else turns[turn];
        var ended := Round(t);
        if ended.Some? && (last || ended != Some(Waiting)) {
          if ended == Some(Finalized) { FinalizedIsBatch(capture.View(), seen); }
          return ended.value;
        }
        if !last { turn := turn + 1; }
      }
    }
  }

  /** A streamed recording from its start, with the limit the session sets. */
  method RecordStreamed(turns: seq<Turn>) returns (outcome: Outcome, heard: seq<real>, recording: Host)
    ensures outcome.Finalized? ==> Some(heard) == BatchOf(recording.pcm) && recording.wav == recording.pcm
    ensures outcome.Rejected? ==>
      (recording.stage.Closed? && BatchOf(recording.pcm) == None) || exists t <- turns :: !Faultless(t.read)
    ensures outcome.Waiting? ==> !recording.stage.Closed?
  {
    var capture := new Capture();
    capture.SetPcmLimit(MAX_PCM);
    var helper := new Helper(capture);
    outcome := helper.Stream(turns);
    heard := helper.heard;
    recording := Host(capture.pcm, capture.pcmLimit, capture.stage, capture.wav);
  }
}
