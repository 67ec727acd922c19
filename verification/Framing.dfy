/** Newline framing on a byte stream that arrives in pieces, in its two
    implementations: the subscriber's, into fixed storage, and the control
    server's, by a length-limited `read_until`. */
module Framing {
  import opened Bytes

  const NEWLINE: Byte := 10
  const MAX_FRAME: nat := 64 * 1024

  datatype Error = UnexpectedEof | InvalidData
  datatype Result = Ok(frame: seq<Byte>) | Err(error: Error)

  /** The index of the first newline; the length if there is none. */
  function Newline(s: seq<Byte>): (n: nat)
    ensures n <= |s| && NEWLINE !in s[..n] && (n < |s| ==> s[n] == NEWLINE)
  {
    if s == [] then 0 else if s[0] == NEWLINE then 0 else 1 + Newline(s[1..])
  }

  lemma NewlineIsFirst(s: seq<Byte>, n: nat)
    requires n < |s| && s[n] == NEWLINE && NEWLINE !in s[..n]
    ensures Newline(s) == n
  {}

  /** The framing rule, on the whole stream: a frame ends at the first newline,
      which must be one of the first 65536 bytes. */
  function Frame(stream: seq<Byte>): Result {
    var n := Newline(stream);
    if n < |stream| && n < MAX_FRAME then Ok(stream[..n])
    else if |stream| < MAX_FRAME then Err(UnexpectedEof)
    else Err(InvalidData)
  }

  function After(stream: seq<Byte>): seq<Byte> {
    stream[if Newline(stream) < |stream| then Newline(stream) + 1 else |stream|..]
  }

  function Flatten(chunks: seq<seq<Byte>>): seq<Byte> {
    if chunks == [] then [] else chunks[0] + Flatten(chunks[1..])
  }

  /** A buffered reader: what `fill_buf` returns next, and what arrives after it.
      An empty buffer is the end of the stream. */
  class Reader {
    var chunks: seq<seq<Byte>>

    constructor (pieces: seq<seq<Byte>>)
      requires [] !in pieces
      ensures chunks == pieces && Valid()
    {
      chunks := pieces;
    }

    ghost predicate Valid()
      reads this
    {
      [] !in chunks
    }

    ghost function Stream(): seq<Byte>
      reads this
    {
      Flatten(chunks)
    }

    method FillBuf() returns (available: seq<Byte>)
      requires Valid()
      ensures available <= Stream() && (available == [] <==> Stream() == [])
      ensures chunks != [] ==> available == chunks[0]
    {
      if chunks == [] { return []; }
      assert chunks[0] in chunks;
      available := chunks[0];
    }

    method Consume(n: nat)
      requires Valid() && (chunks == [] ==> n == 0) && (chunks != [] ==> n <= |chunks[0]|)
      modifies this
      ensures Valid() && n <= |old(Stream())| && Stream() == old(Stream())[n..]
    {
      if chunks != [] {
        if n == |chunks[0]| {
          assert Flatten(chunks)[n..] == Flatten(chunks[1..]);
          assert forall c :: c in chunks[1..] ==> c in chunks;
          chunks := chunks[1..];
        } else {
          var rest := [chunks[0][n..]] + chunks[1..];
          assert rest[1..] == chunks[1..];
          assert Flatten(chunks)[n..] == Flatten(rest);
          assert forall c :: c in chunks[1..] ==> c in chunks;
          chunks := rest;
        }
      }
    }
  }

  /** `storage[used..].copy_from_slice`. */
  method Copy(storage: array<Byte>, used: nat, bytes: seq<Byte>)
    requires used + |bytes| <= storage.Length
    modifies storage
    ensures storage[..used + |bytes|] == old(storage[..used]) + bytes
  {
    forall i | 0 <= i < |bytes| { storage[used + i] := bytes[i]; }
  }

  /** The bytes are copied behind those in the buffer, and consumed. */
  method Take(reader: Reader, storage: array<Byte>, used: nat, bytes: seq<Byte>)
    requires reader.Valid() && used + |bytes| <= storage.Length
    requires reader.chunks != [] && bytes <= reader.chunks[0]
    modifies reader, storage
    ensures reader.Valid() && |bytes| <= |old(reader.Stream())| && reader.Stream() == old(reader.Stream())[|bytes|..]
    ensures storage[..used + |bytes|] == old(storage[..used]) + bytes
  {
    Copy(storage, used, bytes);
    reader.Consume(|bytes|);
  }

  /** `read_frame` of the subscriber. Whatever the pieces, the result is the rule's,
      and a frame is consumed through its newline. */
  method ReadFrame(reader: Reader, storage: array<Byte>) returns (r: Result)
    requires reader.Valid() && storage.Length == MAX_FRAME
    modifies reader, storage
    ensures reader.Valid() && r == Frame(old(reader.Stream()))
    ensures r.Ok? ==> reader.Stream() == After(old(reader.Stream())) && storage[..|r.frame|] == r.frame
    ensures r == Err(UnexpectedEof) ==> reader.Stream() == []
  {
    ghost var stream := reader.Stream();
    var used := 0;
    while true
      invariant reader.Valid() && used <= |stream| && used < MAX_FRAME
      invariant reader.Stream() == stream[used..]
      invariant storage[..used] == stream[..used] && NEWLINE !in stream[..used]
      decreases |stream| - used
    {
      var available := reader.FillBuf();
      if available == [] {
        return Err(UnexpectedEof);
      }
      var newline := Newline(available);
      if newline < |available| {
        var count := newline + 1;
        if used + count > MAX_FRAME { return Err(InvalidData); }
        Take(reader, storage, used, available[..count]);
        return Ok(storage[..used + count - 1]);
      }
      if |available| >= MAX_FRAME - used { return Err(InvalidData); }
      var count := |available|;
      Take(reader, storage, used, available);
      used := used + count;
    }
  }

  /** The rule of the control server, on the whole stream. */
  function ControlFrame(stream: seq<Byte>): Result {
    var n := Newline(stream);
    if n < |stream| && n < MAX_FRAME then Ok(stream[..n])
    else if n < |stream| && n == MAX_FRAME then Err(InvalidData)
    else Err(UnexpectedEof)
  }

  /** `read_until` a newline, of at most `limit` bytes. */
  method ReadUntil(reader: Reader, limit: nat) returns (bytes: seq<Byte>)
    requires reader.Valid()
    modifies reader
    ensures reader.Valid()
    ensures var stream := old(reader.Stream());
            var n := Newline(stream);
            bytes == if n < |stream| && n < limit then stream[..n + 1]
                     else if |stream| < limit then stream else stream[..limit]
  {
    ghost var stream := reader.Stream();
    bytes := [];
    while |bytes| < limit
      invariant reader.Valid() && |bytes| <= |stream| && |bytes| <= limit
      invariant reader.Stream() == stream[|bytes|..]
      invariant bytes == stream[..|bytes|] && NEWLINE !in bytes
      decreases limit - |bytes|
    {
      var available := reader.FillBuf();
      if available == [] { return; }
      var take := if |available| < limit - |bytes| then |available| else limit - |bytes|;
      var newline := Newline(available);
      ghost var used := |bytes|;
      if newline < take {
        reader.Consume(newline + 1);
        NewlineIsFirst(stream, used + newline);
        bytes := bytes + available[..newline + 1];
        return;
      }
      reader.Consume(take);
      bytes := bytes + available[..take];
    }
  }

  /** `read_frame` of the control server, before it looks for duplicate keys. */
  method ReadControlFrame(reader: Reader) returns (r: Result)
    requires reader.Valid()
    modifies reader
    ensures r == ControlFrame(old(reader.Stream()))
  {
    var bytes := ReadUntil(reader, MAX_FRAME + 1);
    var n := |bytes|;
    if n == 0 || bytes[n - 1] != NEWLINE { return Err(UnexpectedEof); }
    if n > MAX_FRAME { return Err(InvalidData); }
    r := Ok(bytes[..n - 1]);
  }

  /** Both implementations accept the same streams with the same frames: those
      whose first newline is among the first 65536 bytes. */
  lemma SameFrames(stream: seq<Byte>)
    ensures Frame(stream).Ok? <==> ControlFrame(stream).Ok?
    ensures Frame(stream).Ok? ==> Frame(stream) == ControlFrame(stream)
    ensures Frame(stream).Ok? <==> exists n: nat :: n < MAX_FRAME && n < |stream| && stream[n] == NEWLINE
  {
    if Frame(stream).Ok? { assert stream[Newline(stream)] == NEWLINE; }
  }

  /** They disagree only on the error: a longer line is an overlong frame to the
      subscriber, and to the server an unterminated one, except when its newline
      is the very next byte. */
  lemma ErrorsDiffer(stream: seq<Byte>)
    ensures Frame(stream) != ControlFrame(stream) <==>
            Newline(stream) >= MAX_FRAME && !(Newline(stream) == MAX_FRAME && MAX_FRAME < |stream|)
  {}

  /** How the sender frames a list of payloads. */
  function Join(payloads: seq<seq<Byte>>): seq<Byte> {
    if payloads == [] then [] else payloads[0] + [NEWLINE] + Join(payloads[1..])
  }

  predicate IsPayload(p: seq<Byte>) {
    NEWLINE !in p && |p| < MAX_FRAME
  }

  lemma JoinedFrame(p: seq<Byte>, rest: seq<Byte>)
    requires IsPayload(p)
    ensures Frame(p + [NEWLINE] + rest) == Ok(p) && After(p + [NEWLINE] + rest) == rest
  {
    var stream := p + [NEWLINE] + rest;
    assert stream[..|p|] == p;
    NewlineIsFirst(stream, |p|);
    assert stream[|p| + 1..] == rest;
  }

  /** Reading frame after frame inverts joining, whatever the pieces. */
  method ReadFrames(reader: Reader, storage: array<Byte>, ghost payloads: seq<seq<Byte>>) returns (frames: seq<seq<Byte>>)
    requires reader.Valid() && storage.Length == MAX_FRAME
    requires reader.Stream() == Join(payloads) && forall p :: p in payloads ==> IsPayload(p)
    modifies reader, storage
    ensures frames == payloads && reader.Stream() == []
  {
    frames := [];
    ghost var left := payloads;
    while true
      invariant reader.Valid() && reader.Stream() == Join(left)
      invariant payloads == frames + left
      decreases |left|
    {
      if left != [] { JoinedFrame(left[0], Join(left[1..])); }
      var r := ReadFrame(reader, storage);
      if r.Err? { return; }
      frames := frames + [r.frame];
      left := left[1..];
    }
  }

  /** A stream that is read as frames to its end is the joining of those frames. */
  lemma FrameIsJoined(stream: seq<Byte>)
    requires Frame(stream).Ok?
    ensures IsPayload(Frame(stream).frame) && stream == Frame(stream).frame + [NEWLINE] + After(stream)
  {}
}
