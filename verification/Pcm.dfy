/** Signed 16-bit little-endian PCM: samples, and the WAV file around them. */
module Pcm {
  import opened Bytes
  import opened Options

  type Word = x: int | 0 <= x < 0x1_0000_0000

  /** `max_pcm`, `MAX_FIXTURE_PCM_BYTES` and the host's limit: 300 s at 16 kHz. */
  const MAX_PCM: nat := 16000 * 2 * 300
  const MIN_PCM: nat := 9600

  function Sample(low: Byte, high: Byte): real {
    var v := low + 256 * high;
    (if v >= 32768 then v - 65536 else v) as real / 32768.0
  }

  function Decode(bytes: seq<Byte>): seq<real> {
    seq(|bytes| / 2, i requires 0 <= i < |bytes| / 2 => Sample(bytes[2 * i], bytes[2 * i + 1]))
  }

  /** `convert`: resizes the sample vector and fills it. */
  method Convert(bytes: array<Byte>, n: nat) returns (audio: array<real>)
    requires n <= bytes.Length
    ensures fresh(audio) && audio[..] == Decode(bytes[..n])
  {
    audio := new real[n / 2];
    for i := 0 to audio.Length
      invariant audio[..i] == Decode(bytes[..n])[..i]
    {
      var v: int := bytes[2 * i] as int + 256 * bytes[2 * i + 1] as int;
      audio[i] := (if v >= 32768 then v - 65536 else v) as real / 32768.0;
    }
  }

  lemma DecodeAppend(a: seq<Byte>, b: seq<Byte>)
    requires |a| % 2 == 0
    ensures Decode(a + b) == Decode(a) + Decode(b)
  {}

  lemma SampleIsExact(a: Byte, b: Byte, c: Byte, d: Byte)
    ensures -1.0 <= Sample(a, b) < 1.0
    ensures Sample(a, b) == Sample(c, d) ==> a == c && b == d
  {}

  /** Decoding loses nothing: two even byte strings with the same samples are equal. */
  lemma DecodeIsExact(a: seq<Byte>, b: seq<Byte>)
    requires |a| % 2 == 0 && |b| % 2 == 0 && Decode(a) == Decode(b)
    ensures a == b
  {
    assert |a| / 2 == |Decode(a)| == |Decode(b)| == |b| / 2;
    forall i | 0 <= i < |a| ensures a[i] == b[i] {
      var k := i / 2;
      assert Decode(a)[k] == Decode(b)[k];
      SampleIsExact(a[2 * k], a[2 * k + 1], b[2 * k], b[2 * k + 1]);
    }
  }

  function Little32(n: Word): seq<Byte> {
    [n % 256, n / 256 % 256, n / 0x1_0000 % 256, n / 0x100_0000]
  }

  function FromLittle32(b: seq<Byte>): Word
    requires |b| == 4
  {
    b[0] as int + 256 * b[1] as int + 0x1_0000 * b[2] as int + 0x100_0000 * b[3] as int
  }

  lemma LittleToWord(n: Word)
    ensures FromLittle32(Little32(n)) == n
  {
    assert n / 0x1_0000 == n / 256 / 256 && n / 0x100_0000 == n / 0x1_0000 / 256;
  }

  lemma WordToLittle(b: seq<Byte>)
    requires |b| == 4
    ensures Little32(FromLittle32(b)) == b
  {
    var m := FromLittle32(b);
    assert m / 256 == b[1] as int + 256 * b[2] as int + 0x1_0000 * b[3] as int;
    assert m / 0x1_0000 == b[2] as int + 256 * b[3] as int;
  }

  /** A length field: the length cast to 32 bits. */
  function Length32(n: nat): seq<Byte> {
    Little32(n % 0x1_0000_0000)
  }

  lemma Length32Fits(n: Word)
    ensures FromLittle32(Length32(n)) == n
  {
    LittleToWord(n % 0x1_0000_0000);
  }

  const RIFF: seq<Byte> := [0x52, 0x49, 0x46, 0x46]
  const WAVE: seq<Byte> := [0x57, 0x41, 0x56, 0x45]
  const DATA: seq<Byte> := [0x64, 0x61, 0x74, 0x61]
  /** "fmt ", 16 bytes: PCM, one channel, 16000 Hz, 32000 bytes/s, 2 bytes a frame, 16 bits. */
  const FORMAT: seq<Byte> := [
    0x66, 0x6d, 0x74, 0x20, 0x10, 0, 0, 0, 1, 0, 1, 0, 0x80, 0x3e, 0, 0, 0, 0x7d, 0, 0, 2, 0, 0x10, 0]

  /** The 44-byte header with its two length fields, and the samples. */
  function Assemble(riff: seq<Byte>, data: seq<Byte>, pcm: seq<Byte>): seq<Byte> {
    RIFF + riff + WAVE + FORMAT + DATA + data + pcm
  }

  /** `write_wav`. */
  function WriteWav(pcm: seq<Byte>): seq<Byte> {
    Assemble(Length32(36 + |pcm|), Length32(|pcm|), pcm)
  }

  /** The checks of `read_fixture` on the contents of the file. */
  function ReadFixture(file: seq<Byte>): Option<seq<Byte>> {
    if |file| < 44 || |file| > 44 + MAX_PCM then None
    else
      var size := FromLittle32(file[40..44]);
      if && file[..4] == RIFF
         && FromLittle32(file[4..8]) == 36 + size
         && file[8..12] == WAVE
         && file[12..36] == FORMAT
         && file[36..40] == DATA
         && size <= MAX_PCM
         && size % 2 == 0
         && |file| == 44 + size
      then Some(file[44..])
      else None
  }

  lemma Layout(riff: seq<Byte>, data: seq<Byte>, pcm: seq<Byte>)
    requires |riff| == 4 && |data| == 4
    ensures var file := Assemble(riff, data, pcm);
            && |file| == 44 + |pcm| && file[44..] == pcm
            && file[..4] == RIFF && file[4..8] == riff && file[8..12] == WAVE
            && file[12..36] == FORMAT && file[36..40] == DATA && file[40..44] == data
  {}

  lemma Parts(file: seq<Byte>)
    requires |file| >= 44 && file[..4] == RIFF && file[8..12] == WAVE && file[12..36] == FORMAT && file[36..40] == DATA
    ensures file == Assemble(file[4..8], file[40..44], file[44..])
  {}

  predicate Fits(riff: seq<Byte>, data: seq<Byte>, pcm: seq<Byte>)
    requires |riff| == 4 && |data| == 4
  {
    && FromLittle32(riff) == 36 + FromLittle32(data) && FromLittle32(data) == |pcm|
    && |pcm| <= MAX_PCM && |pcm| % 2 == 0
  }

  lemma ReadAssembled(riff: seq<Byte>, data: seq<Byte>, pcm: seq<Byte>)
    requires |riff| == 4 && |data| == 4
    ensures ReadFixture(Assemble(riff, data, pcm)) == if Fits(riff, data, pcm) then Some(pcm) else None
  {
    Layout(riff, data, pcm);
  }

  lemma LengthsFit(pcm: seq<Byte>)
    requires |pcm| % 2 == 0 && |pcm| <= MAX_PCM
    ensures Fits(Length32(36 + |pcm|), Length32(|pcm|), pcm)
  {
    Length32Fits(|pcm|);
    Length32Fits(36 + |pcm|);
  }

  lemma FieldFits(field: seq<Byte>, n: Word)
    requires |field| == 4 && FromLittle32(field) == n
    ensures field == Length32(n)
  {
    WordToLittle(field);
  }

  lemma FittingLengths(riff: seq<Byte>, data: seq<Byte>, pcm: seq<Byte>)
    requires |riff| == 4 && |data| == 4 && Fits(riff, data, pcm)
    ensures riff == Length32(36 + |pcm|) && data == Length32(|pcm|)
  {
    FieldFits(riff, 36 + |pcm|);
    FieldFits(data, |pcm|);
  }

  lemma WrittenIsRead(pcm: seq<Byte>)
    requires |pcm| % 2 == 0 && |pcm| <= MAX_PCM
    ensures ReadFixture(WriteWav(pcm)) == Some(pcm)
  {
    LengthsFit(pcm);
    ReadAssembled(Length32(36 + |pcm|), Length32(|pcm|), pcm);
  }

  lemma AcceptedIsAssembled(file: seq<Byte>)
    requires ReadFixture(file).Some?
    ensures ReadFixture(file) == Some(file[44..])
    ensures file == Assemble(file[4..8], file[40..44], file[44..]) && Fits(file[4..8], file[40..44], file[44..])
  {
    Parts(file);
  }

  lemma ReadWasWritten(file: seq<Byte>)
    requires ReadFixture(file).Some?
    ensures var pcm := ReadFixture(file).value;
            file == WriteWav(pcm) && |pcm| % 2 == 0 && |pcm| <= MAX_PCM
  {
    AcceptedIsAssembled(file);
    FittingLengths(file[4..8], file[40..44], file[44..]);
  }

  /** The reader accepts exactly the writer's files of an even, bounded length,
      and returns what was written. */
  lemma FixtureRoundTrip(file: seq<Byte>, pcm: seq<Byte>)
    ensures ReadFixture(file) == Some(pcm) <==> file == WriteWav(pcm) && |pcm| % 2 == 0 && |pcm| <= MAX_PCM
  {
    if |pcm| % 2 == 0 && |pcm| <= MAX_PCM { WrittenIsRead(pcm); }
    if ReadFixture(file).Some? { ReadWasWritten(file); }
  }

  // ------------------------------------------------- what the bytes mean

  type Int16 = x: int | -32768 <= x < 32768

  /** A 16-bit sample in two's complement, low byte first. */
  function Encoded16(v: Int16): seq<Byte> {
    var u := if v < 0 then v + 65536 else v;
    [u % 256, u / 256]
  }

  function Encode(samples: seq<Int16>): seq<Byte> {
    if samples == [] then [] else Encode(samples[..|samples| - 1]) + Encoded16(samples[|samples| - 1])
  }

  lemma SampleDecodes(v: Int16)
    ensures Sample(Encoded16(v)[0], Encoded16(v)[1]) * 32768.0 == v as real
  {}

  /** Decoding the little-endian bytes of any 16-bit samples gives those samples as
      fractions of 32768. */
  lemma {:induction false} DecodeInverts(samples: seq<Int16>)
    ensures |Encode(samples)| == 2 * |samples| && |Decode(Encode(samples))| == |samples|
    ensures forall i :: 0 <= i < |samples| ==> Decode(Encode(samples))[i] * 32768.0 == samples[i] as real
  {
    if samples != [] {
      var before, last := samples[..|samples| - 1], samples[|samples| - 1];
      DecodeInverts(before);
      DecodeAppend(Encode(before), Encoded16(last));
      SampleDecodes(last);
      assert Decode(Encoded16(last)) == [Sample(Encoded16(last)[0], Encoded16(last)[1])];
    }
  }

  /** A 32-bit field is written with its lowest byte first. */
  lemma FieldIsLittleEndian(n: Word)
    ensures var b := Little32(n);
            |b| == 4 && n == b[0] as int + 0x100 * b[1] as int + 0x1_0000 * b[2] as int + 0x100_0000 * b[3] as int
  {
    LittleToWord(n);
  }

  predicate Spells(bytes: seq<Byte>, text: string) {
    |bytes| == |text| && forall i :: 0 <= i < |bytes| ==> bytes[i] == text[i] as int
  }

  /** The header names its chunks and describes what the samples are: one channel of
      16-bit PCM at 16 kHz. */
  lemma HeaderDescribes()
    ensures Spells(RIFF, "RIFF") && Spells(WAVE, "WAVE") && Spells(DATA, "data") && Spells(FORMAT[..4], "fmt ")
    ensures var rate, channels, width := 16000, 1, 2;
            && FromLittle32(FORMAT[4..8]) == 16
            && FORMAT[8..12] == [1, 0, channels, 0]
            && FromLittle32(FORMAT[12..16]) == rate && FromLittle32(FORMAT[16..20]) == rate * channels * width
            && FORMAT[20..] == [channels * width, 0, 8 * width, 0]
  {
    assert FORMAT[12..16] == [0x80, 0x3e, 0, 0] && FORMAT[16..20] == [0, 0x7d, 0, 0];
    assert FORMAT[4..8] == [0x10, 0, 0, 0];
  }
}
