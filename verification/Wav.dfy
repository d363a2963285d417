/**
 16-bit PCM WAV files: the writer's fixed 44-byte layout, and the reader that walks RIFF chunks of any layout.
 */
module Wav {
  import opened Wrappers
  import opened Arithmetic

  type Byte = b: int | 0 <= b < 0x100
  type Short = s: int | -0x8000 <= s < 0x8000
  // Kotlin's Int.
  type Int = i: int | -0x8000_0000 <= i < 0x8000_0000

  const INT_MAX: nat := 0x7FFF_FFFF
  const HEADER_SIZE: nat := 44
  const BITS_PER_SAMPLE: nat := 16

  const RIFF: seq<Byte> := [0x52, 0x49, 0x46, 0x46]
  const WAVE: seq<Byte> := [0x57, 0x41, 0x56, 0x45]
  const FMT: seq<Byte> := [0x66, 0x6D, 0x74, 0x20]
  const DATA: seq<Byte> := [0x64, 0x61, 0x74, 0x61]

  datatype DecodedClip = DecodedClip(samples: seq<Short>, sampleRate: Int, channels: int)

  datatype DecodeError =
    | TooShort | NotRiffWave | ChunkTooLong(id: seq<Byte>) | FormatTooShort
    | UnsupportedBits(bits: int) | MissingFormat | MissingData

  type Decoded = Result<DecodedClip, DecodeError>

  // ----- Little-endian integers.

  // Two's complement, as Kotlin's arithmetic on Int and `toShort` truncate.
  function ToInt(x: int): Int {
    var m := x % 0x1_0000_0000;
    if m >= 0x8000_0000 then m - 0x1_0000_0000 else m
  }

  function ToShort(x: int): Short {
    var m := x % 0x1_0000;
    if m >= 0x8000 then m - 0x1_0000 else m
  }

  // The `i`th byte of `x`, lowest first.
  function ByteOf(x: int, i: nat): Byte
    decreases i
  {
    if i == 0 then x % 0x100 else ByteOf(x / 0x100, i - 1)
  }

  function PutShort(x: int): (s: seq<Byte>)
    ensures |s| == 2
  {
    seq(2, i requires 0 <= i < 2 => ByteOf(x, i))
  }

  function PutInt(x: int): (s: seq<Byte>)
    ensures |s| == 4
  {
    seq(4, i requires 0 <= i < 4 => ByteOf(x, i))
  }

  function GetShort(s: seq<Byte>): Short
    requires |s| >= 2
  {
    var lo: int, hi: int := s[0], s[1];
    ToShort(lo + 0x100 * hi)
  }

  function GetInt(s: seq<Byte>): Int
    requires |s| >= 4
  {
    var b0: int, b1: int, b2: int, b3: int := s[0], s[1], s[2], s[3];
    ToInt(b0 + 0x100 * b1 + 0x1_0000 * b2 + 0x100_0000 * b3)
  }

  lemma {:induction false} ShortRoundTrip(x: int)
    ensures GetShort(PutShort(x)) == ToShort(x)
    ensures -0x8000 <= x < 0x8000 ==> ToShort(x) == x
  {
    var p := PutShort(x);
    var q := x / 0x100;
    assert p[0] == ByteOf(x, 0) && p[1] == ByteOf(x, 1) == ByteOf(q, 0);
    var lo: int, hi: int := p[0], p[1];
    DivModUnique(x, 0x1_0000, q / 0x100, 0x100 * hi + lo);
  }

  lemma {:induction false} IntRoundTrip(x: int)
    ensures GetInt(PutInt(x)) == ToInt(x)
    ensures -0x8000_0000 <= x < 0x8000_0000 ==> ToInt(x) == x
  {
    var p := PutInt(x);
    assert p[0] == ByteOf(x, 0) && p[1] == ByteOf(x, 1) && p[2] == ByteOf(x, 2) && p[3] == ByteOf(x, 3);
    Digits(x);
    ToIntOfMod(x);
  }

  lemma {:induction false} ToIntOfMod(x: int)
    ensures ToInt(x % 0x1_0000_0000) == ToInt(x)
    ensures -0x8000_0000 <= x < 0x8000_0000 ==> ToInt(x) == x
  {
  }

  lemma {:induction false} Digits(x: int)
    ensures var b0: int, b1: int, b2: int, b3: int := ByteOf(x, 0), ByteOf(x, 1), ByteOf(x, 2), ByteOf(x, 3);
            b0 + 0x100 * b1 + 0x1_0000 * b2 + 0x100_0000 * b3 == x % 0x1_0000_0000
  {
    var q1 := x / 0x100;
    var q2 := q1 / 0x100;
    var q3 := q2 / 0x100;
    assert ByteOf(x, 1) == ByteOf(q1, 0) && ByteOf(x, 2) == ByteOf(q1, 1) == ByteOf(q2, 0);
    assert ByteOf(x, 3) == ByteOf(q1, 2) == ByteOf(q2, 1) == ByteOf(q3, 0);
    var b0: int, b1: int, b2: int, b3: int := ByteOf(x, 0), ByteOf(x, 1), ByteOf(x, 2), ByteOf(x, 3);
    DivModUnique(x, 0x1_0000_0000, q3 / 0x100, b0 + 0x100 * b1 + 0x1_0000 * b2 + 0x100_0000 * b3);
  }

  function PutShorts(samples: seq<Short>): (s: seq<Byte>)
    ensures |s| == 2 * |samples|
  {
    if samples == [] then [] else PutShorts(samples[..|samples| - 1]) + PutShort(samples[|samples| - 1])
  }

  // A trailing odd byte is no sample.
  function GetShorts(body: seq<Byte>, count: nat): (s: seq<Short>)
    requires 2 * count <= |body|
    ensures |s| == count
  {
    seq(count, i requires 0 <= i < count => GetShort(body[2 * i..]))
  }

  lemma {:induction false} SamplesRoundTrip(samples: seq<Short>)
    ensures GetShorts(PutShorts(samples), |samples|) == samples
  {
    forall i | 0 <= i < |samples| ensures GetShort(PutShorts(samples)[2 * i..]) == samples[i] {
      SampleAt(samples, i);
    }
  }

  lemma {:induction false} SampleAt(samples: seq<Short>, i: nat)
    requires i < |samples|
    ensures GetShort(PutShorts(samples)[2 * i..]) == samples[i]
  {
    var n := |samples| - 1;
    var front := PutShorts(samples[..n]);
    if i < n {
      SampleAt(samples[..n], i);
      assert PutShorts(samples)[2 * i] == front[2 * i] && PutShorts(samples)[2 * i + 1] == front[2 * i + 1];
    } else {
      ShortRoundTrip(samples[n]);
      assert PutShorts(samples)[2 * n..] == PutShort(samples[n]);
    }
  }

  // ----- The writer.

  // `channels * BITS_PER_SAMPLE / 8`, with Kotlin's wrap-around and truncating division.
  function BytesPer(rateTimesChannels: Int): int {
    var bits: int := ToInt(rateTimesChannels * BITS_PER_SAMPLE);
    if bits >= 0 then bits / 8 else -(-bits / 8)
  }

  // The fields of a PCM format chunk.
  function FormatFields(sampleRate: Int, channels: Int, byteRate: int, blockAlign: int): (s: seq<Byte>)
    ensures |s| == 16
  {
    PutShort(1) + PutShort(channels) + PutInt(sampleRate) + PutInt(byteRate) + PutShort(blockAlign) +
    PutShort(BITS_PER_SAMPLE)
  }

  function FormatBody(sampleRate: Int, channels: Int): (s: seq<Byte>)
    ensures |s| == 16
  {
    FormatFields(sampleRate, channels, BytesPer(ToInt(sampleRate * channels)), BytesPer(channels))
  }

  predicate Fits(samples: int) {
    HEADER_SIZE + 2 * samples <= INT_MAX
  }

  /** Nothing when the sizes overflow an Int: a buffer of negative size cannot be allocated. */
  method Wrap(pcm: seq<Short>, sampleRate: Int, channels: Int) returns (wav: Option<seq<Byte>>)
    ensures wav.Some? <==> Fits(|pcm|)
    ensures wav.Some? ==> |wav.value| == HEADER_SIZE + 2 * |pcm| && wav.value == Wrapped(pcm, sampleRate, channels)
  {
    wav := WrapFormat(pcm, FormatBody(sampleRate, channels));
  }

  method WrapFormat(pcm: seq<Short>, format: seq<Byte>) returns (wav: Option<seq<Byte>>)
    requires |format| == 16
    ensures wav.Some? <==> Fits(|pcm|)
    ensures wav.Some? ==> |wav.value| == HEADER_SIZE + 2 * |pcm| && wav.value == FormatWrapped(pcm, format)
  {
    if !Fits(|pcm|) {
      return None;
    }
    var header := PutHeader(format, |pcm| * 2);
    var data := PutSamples(pcm);
    JoinParts(format, data, header);
    wav := Some(header + data);
  }

  lemma {:induction false} JoinParts(format: seq<Byte>, data: seq<Byte>, header: seq<Byte>)
    requires |format| == 16 && |data| % 2 == 0
    requires header == RiffHeader(36 + |data|) + (FMT + PutInt(16) + format) + (DATA + PutInt(|data|))
    ensures header + data == RiffHeader(36 + |data|) + EncodeAll([Chunk(FMT, format), Chunk(DATA, data)])
  {
    TwoChunks(Chunk(FMT, format), Chunk(DATA, data));
    Regroup(RiffHeader(36 + |data|), FMT + PutInt(16) + format, DATA + PutInt(|data|), data);
  }

  lemma {:induction false} Regroup(a: seq<Byte>, b: seq<Byte>, c: seq<Byte>, d: seq<Byte>)
    ensures a + b + c + d == a + (b + c + d)
  {
  }

  method PutHeader(format: seq<Byte>, dataSize: nat) returns (header: seq<Byte>)
    requires |format| == 16
    ensures |header| == HEADER_SIZE
    ensures header == RiffHeader(36 + dataSize) + (FMT + PutInt(16) + format) + (DATA + PutInt(dataSize))
  {
    header := RIFF + PutInt(36 + dataSize) + WAVE;
    header := header + FMT + PutInt(16);
    header := header + format;
    header := header + DATA + PutInt(dataSize);
  }

  method PutSamples(pcm: seq<Short>) returns (data: seq<Byte>)
    ensures data == PutShorts(pcm)
  {
    data := [];
    for i := 0 to |pcm|
      invariant data == PutShorts(pcm[..i])
    {
      assert pcm[..i + 1][..i] == pcm[..i];
      data := data + PutShort(pcm[i]);
    }
    assert pcm[..|pcm|] == pcm;
  }

  lemma {:induction false} TwoChunks(a: Chunk, b: Chunk)
    requires |a.body| % 2 == 0 && |b.body| % 2 == 0
    ensures EncodeAll([a, b]) == (a.id + PutInt(|a.body|) + a.body) + (b.id + PutInt(|b.body|)) + b.body
  {
    assert [a, b][1..] == [b] && [b][1..] == [];
    assert EncodeAll([b]) == Encode(b);
    assert EncodeAll([a, b]) == Encode(a) + Encode(b);
  }

  // ----- Files as lists of chunks.

  datatype Chunk = Chunk(id: seq<Byte>, body: seq<Byte>)

  predicate IsChunk(c: Chunk) {
    |c.id| == 4 && |c.body| <= INT_MAX
  }

  // Chunks are word-aligned.
  function Encode(c: Chunk): seq<Byte> {
    c.id + PutInt(|c.body|) + c.body + if |c.body| % 2 == 1 then [0] else []
  }

  function EncodeAll(chunks: seq<Chunk>): seq<Byte> {
    if chunks == [] then [] else Encode(chunks[0]) + EncodeAll(chunks[1..])
  }

  function RiffHeader(size: int): (s: seq<Byte>)
    ensures |s| == 12
  {
    RIFF + PutInt(size) + WAVE
  }

  // ----- What the chunks of a file mean.

  /** The reader's variables: -1 until a format chunk, no samples until a data chunk. */
  datatype Reading = Reading(channels: int, sampleRate: Int, bitsPerSample: int, samples: Option<seq<Short>>)

  type Read = Result<Reading, DecodeError>

  function Unread(): Reading {
    Reading(-1, -1, -1, None)
  }

  // A later format or data chunk replaces an earlier one; any other chunk is ignored.
  function Interpret(r: Reading, c: Chunk): Read {
    if c.id == FMT then
      if |c.body| < 16 then Err(FormatTooShort)
      else Ok(r.(channels := GetShort(c.body[2..]), sampleRate := GetInt(c.body[4..]),
                 bitsPerSample := GetShort(c.body[14..])))
    else if c.id == DATA then
      if r.bitsPerSample != BITS_PER_SAMPLE then Err(UnsupportedBits(r.bitsPerSample))
      else Ok(r.(samples := Some(GetShorts(c.body, |c.body| / 2))))
    else Ok(r)
  }

  function InterpretAll(r: Reading, chunks: seq<Chunk>): Read
    decreases |chunks|
  {
    if chunks == [] then Ok(r)
    else
      match Interpret(r, chunks[0])
      case Ok(r') => InterpretAll(r', chunks[1..])
      case Err(e) => Err(e)
  }

  function Finish(read: Read): Decoded {
    match read
    case Err(e) => Err(e)
    case Ok(r) =>
      if r.channels <= 0 || r.sampleRate <= 0 then Err(MissingFormat)
      else if r.samples.None? then Err(MissingData)
      else Ok(DecodedClip(r.samples.value, r.sampleRate, r.channels))
  }

  // What one turn of the chunk walk reads, and how many bytes it takes off what is left of the file.
  datatype Turned = Turned(reading: Reading, taken: nat)

  function Turn(r: Reading, rest: seq<Byte>): (t: Result<Turned, DecodeError>)
    requires |rest| >= 8
    ensures t.Ok? ==> 8 <= t.value.taken <= |rest|
  {
    var size := GetInt(rest[4..]);
    if size < 0 || size > |rest| - 8 then Err(ChunkTooLong(rest[..4]))
    else
      match Interpret(r, Chunk(rest[..4], rest[8..8 + size]))
      case Err(e) => Err(e)
      case Ok(r') => Ok(Turned(r', NextChunk(size, |rest|)))
  }

  function Walk(r: Reading, rest: seq<Byte>): Read
    decreases |rest|
  {
    if |rest| < 8 then Ok(r)
    else
      match Turn(r, rest)
      case Err(e) => Err(e)
      case Ok(t) => Walk(t.reading, rest[t.taken..])
  }

  // Past the chunk and its padding byte, which may be absent past the last chunk.
  function NextChunk(size: nat, limit: nat): (p: nat)
    requires 8 + size <= limit
    ensures 8 + size <= p <= limit
  {
    var p := 8 + size + size % 2;
    if p > limit then limit else p
  }

  function DecodeSpec(bytes: seq<Byte>): Decoded {
    if |bytes| < 12 then Err(TooShort)
    else if bytes[..4] != RIFF || bytes[8..12] != WAVE then Err(NotRiffWave)
    else Finish(Walk(Unread(), bytes[12..]))
  }

  /** Ends on every byte array. */
  method Decode(bytes: seq<Byte>) returns (decoded: Decoded)
    ensures decoded == DecodeSpec(bytes)
  {
    if |bytes| < 12 {
      return Err(TooShort);
    }
    if bytes[..4] != RIFF || bytes[8..12] != WAVE {
      return Err(NotRiffWave);
    }
    var reading := Unread();
    var position := 12;
    while |bytes| - position >= 8
      invariant 12 <= position <= |bytes|
      invariant Walk(Unread(), bytes[12..]) == Walk(reading, bytes[position..])
      decreases |bytes| - position
    {
      var turn := WalkChunk(bytes, position, reading);
      if turn.Err? {
        return Err(turn.error);
      }
      assert bytes[position..][turn.value.taken..] == bytes[position + turn.value.taken..];
      reading, position := turn.value.reading, position + turn.value.taken;
    }
    decoded := Finish(Ok(reading));
  }

  method WalkChunk(bytes: seq<Byte>, position: nat, reading: Reading) returns (turn: Result<Turned, DecodeError>)
    requires |bytes| - position >= 8
    ensures turn == Turn(reading, bytes[position..])
  {
    ghost var rest := bytes[position..];
    var id := bytes[position..position + 4];
    var size := GetInt(bytes[position + 4..]);
    assert id == rest[..4] && bytes[position + 4..] == rest[4..];
    if size < 0 || size > |bytes| - position - 8 {
      return Err(ChunkTooLong(id));
    }
    var body := bytes[position + 8..position + 8 + size];
    assert body == rest[8..8 + size];
    var read := ReadChunk(reading, id, body);
    if read.Err? {
      return Err(read.error);
    }
    turn := Ok(Turned(read.value, NextChunk(size, |bytes| - position)));
  }

  // The `when` on the chunk's id.
  method ReadChunk(reading: Reading, id: seq<Byte>, body: seq<Byte>) returns (read: Read)
    ensures read == Interpret(reading, Chunk(id, body))
  {
    if id == FMT {
      if |body| < 16 {
        return Err(FormatTooShort);
      }
      read := Ok(reading.(channels := GetShort(body[2..]), sampleRate := GetInt(body[4..]),
                          bitsPerSample := GetShort(body[14..])));
    } else if id == DATA {
      if reading.bitsPerSample != BITS_PER_SAMPLE {
        return Err(UnsupportedBits(reading.bitsPerSample));
      }
      var samples := ReadSamples(body);
      read := Ok(reading.(samples := Some(samples)));
    } else {
      read := Ok(reading);
    }
  }

  method ReadSamples(body: seq<Byte>) returns (samples: seq<Short>)
    ensures samples == GetShorts(body, |body| / 2)
  {
    samples := [];
    for i := 0 to |body| / 2
      invariant samples == GetShorts(body, i)
    {
      samples := samples + [GetShort(body[2 * i..])];
    }
  }

  // ----- The reader understands every well-formed file.

  lemma {:induction false} WalkEncoded(r: Reading, chunks: seq<Chunk>, tail: seq<Byte>)
    requires forall c | c in chunks :: IsChunk(c)
    requires |tail| < 8
    ensures Walk(r, EncodeAll(chunks) + tail) == InterpretAll(r, chunks)
    decreases |chunks|
  {
    if chunks != [] {
      var c := chunks[0];
      assert c in chunks;
      var rest := EncodeAll(chunks[1..]) + tail;
      assert EncodeAll(chunks) + tail == Encode(c) + rest;
      WalkOne(r, c, rest);
      match Interpret(r, c) {
        case Ok(r') => WalkEncoded(r', chunks[1..], tail);
        case Err(_) =>
      }
    }
  }

  lemma {:induction false} WalkOne(r: Reading, c: Chunk, rest: seq<Byte>)
    requires IsChunk(c)
    ensures Walk(r, Encode(c) + rest)
            == match Interpret(r, c) case Err(e) => Err(e) case Ok(r') => Walk(r', rest)
  {
    SizeField(c, rest);
    EncodedParts(c, rest);
  }

  lemma {:induction false} EncodedParts(c: Chunk, rest: seq<Byte>)
    requires IsChunk(c)
    ensures var all, n := Encode(c) + rest, |c.body|;
            |all| >= 8 + n && all[..4] == c.id && all[8..8 + n] == c.body && all[NextChunk(n, |all|)..] == rest
  {
    var pad := if |c.body| % 2 == 1 then [0] else [];
    SliceParts(c.id, PutInt(|c.body|), c.body, pad, rest);
  }

  lemma {:induction false} SliceParts(id: seq<Byte>, size: seq<Byte>, body: seq<Byte>, pad: seq<Byte>, rest: seq<Byte>)
    requires |id| == 4 && |size| == 4
    ensures var all, n := id + size + body + pad + rest, |body|;
            |all| >= 8 + n && all[..4] == id && all[4..][..4] == size && all[8..8 + n] == body &&
            all[8 + n + |pad|..] == rest
  {
  }

  lemma {:induction false} SizeField(c: Chunk, rest: seq<Byte>)
    requires IsChunk(c)
    ensures GetInt((Encode(c) + rest)[4..]) == |c.body|
  {
    var pad := if |c.body| % 2 == 1 then [0] else [];
    SliceParts(c.id, PutInt(|c.body|), c.body, pad, rest);
    FirstInt((Encode(c) + rest)[4..], |c.body|);
  }

  lemma {:induction false} FirstInt(s: seq<Byte>, x: Int)
    requires |s| >= 4 && s[..4] == PutInt(x)
    ensures GetInt(s) == x
  {
    IntRoundTrip(x);
    assert s[0] == s[..4][0] && s[1] == s[..4][1] && s[2] == s[..4][2] && s[3] == s[..4][3];
  }

  /** Any well-formed list of chunks, whatever its RIFF size field, decodes to what its chunks mean. */
  lemma {:induction false} DecodesChunks(size: int, chunks: seq<Chunk>, tail: seq<Byte>)
    requires forall c | c in chunks :: IsChunk(c)
    requires |tail| < 8
    ensures DecodeSpec(RiffHeader(size) + EncodeAll(chunks) + tail) == Finish(InterpretAll(Unread(), chunks))
  {
    var bytes := RiffHeader(size) + EncodeAll(chunks) + tail;
    assert bytes[..4] == RIFF && bytes[8..12] == WAVE;
    assert bytes[12..] == EncodeAll(chunks) + tail;
    WalkEncoded(Unread(), chunks, tail);
  }

  lemma {:induction false} DecodesWhole(size: int, chunks: seq<Chunk>)
    requires forall c | c in chunks :: IsChunk(c)
    ensures DecodeSpec(RiffHeader(size) + EncodeAll(chunks)) == Finish(InterpretAll(Unread(), chunks))
  {
    DecodesChunks(size, chunks, []);
    assert RiffHeader(size) + EncodeAll(chunks) + [] == RiffHeader(size) + EncodeAll(chunks);
  }

  predicate IsIgnored(c: Chunk) {
    c.id != FMT && c.id != DATA
  }

  function Kept(chunks: seq<Chunk>): seq<Chunk> {
    if chunks == [] then [] else (if IsIgnored(chunks[0]) then [] else [chunks[0]]) + Kept(chunks[1..])
  }

  lemma {:induction false} IgnoredDropOut(r: Reading, chunks: seq<Chunk>)
    ensures InterpretAll(r, chunks) == InterpretAll(r, Kept(chunks))
    decreases |chunks|
  {
    if chunks != [] {
      var kept := Kept(chunks[1..]);
      if IsIgnored(chunks[0]) {
        IgnoredDropOut(r, chunks[1..]);
        assert [] + kept == kept;
      } else {
        assert ([chunks[0]] + kept)[1..] == kept;
        match Interpret(r, chunks[0]) {
          case Ok(r') => IgnoredDropOut(r', chunks[1..]);
          case Err(_) =>
        }
      }
    }
  }

  /** Inserting or removing chunks other than "fmt " and "data", anywhere, changes nothing. */
  lemma {:induction false} ExtraChunksIgnored(size: int, size': int, chunks: seq<Chunk>, chunks': seq<Chunk>)
    requires forall c | c in chunks :: IsChunk(c)
    requires forall c | c in chunks' :: IsChunk(c)
    requires Kept(chunks) == Kept(chunks')
    ensures DecodeSpec(RiffHeader(size) + EncodeAll(chunks)) == DecodeSpec(RiffHeader(size') + EncodeAll(chunks'))
  {
    DecodesWhole(size, chunks);
    DecodesWhole(size', chunks');
    IgnoredDropOut(Unread(), chunks);
    IgnoredDropOut(Unread(), chunks');
  }

  // ----- The reader undoes the writer.

  // What `Wrap` returns when it returns anything.
  function Wrapped(pcm: seq<Short>, sampleRate: Int, channels: Int): seq<Byte> {
    FormatWrapped(pcm, FormatBody(sampleRate, channels))
  }

  function FormatWrapped(pcm: seq<Short>, format: seq<Byte>): seq<Byte> {
    RiffHeader(36 + 2 * |pcm|) + EncodeAll([Chunk(FMT, format), Chunk(DATA, PutShorts(pcm))])
  }

  // ----- The bytes a written file consists of.

  /** What bytes are worth, lowest first. */
  function Value(bytes: seq<Byte>): nat {
    if bytes == [] then 0 else bytes[0] + 0x100 * Value(bytes[1..])
  }

  lemma {:induction false} ShortValue(x: int)
    ensures Value(PutShort(x)) == Low16(x)
  {
    var p, q := PutShort(x), x / 0x100;
    assert p[1..][1..] == [];
    assert Value(p) == p[0] + 0x100 * Value(p[1..]) && Value(p[1..]) == p[1];
    assert p[0] == ByteOf(x, 0) && p[1] == ByteOf(x, 1) == ByteOf(q, 0);
    var lo: int, hi: int := p[0], p[1];
    DivModUnique(x, 0x1_0000, q / 0x100, 0x100 * hi + lo);
  }

  lemma {:induction false} IntValue(x: int)
    ensures Value(PutInt(x)) == Low32(x)
  {
    var p := PutInt(x);
    assert p[1..][1..] == p[2..] && p[2..][1..] == p[3..] && p[3..][1..] == [];
    assert Value(p[3..]) == p[3] && Value(p[2..]) == p[2] + 0x100 * Value(p[3..]);
    assert Value(p[1..]) == p[1] + 0x100 * Value(p[2..]) && Value(p) == p[0] + 0x100 * Value(p[1..]);
    assert p[0] == ByteOf(x, 0) && p[1] == ByteOf(x, 1) && p[2] == ByteOf(x, 2) && p[3] == ByteOf(x, 3);
    Digits(x);
  }

  // "RIFF", "WAVE", "fmt " and "data" where they belong, with the sizes of what follows them.
  predicate HasChunkHeads(w: seq<Byte>, samples: nat) {
    && |w| == 44 + 2 * samples
    && w[..4] == [0x52, 0x49, 0x46, 0x46] && Value(w[4..8]) == |w| - 8 && w[8..12] == [0x57, 0x41, 0x56, 0x45]
    && w[12..16] == [0x66, 0x6D, 0x74, 0x20] && Value(w[16..20]) == 16
    && w[36..40] == [0x64, 0x61, 0x74, 0x61] && Value(w[40..44]) == 2 * samples
  }

  // What is left of an integer in a field of two or four bytes.
  function Low16(x: int): nat {
    x % 0x1_0000
  }

  function Low32(x: int): nat {
    x % 0x1_0000_0000
  }

  // The body of the format chunk, at offsets 20 to 36 of the file.
  predicate HasFormat(f: seq<Byte>, rate: Int, channels: Int, product: int) {
    && |f| == 16 && Value(f[..2]) == 1 && Value(f[2..4]) == Low16(channels) && Value(f[4..8]) == Low32(rate)
    && (0 <= 16 * product <= INT_MAX ==> Value(f[8..12]) == 2 * product)
    && (0 <= 16 * channels <= INT_MAX ==> Value(f[12..14]) == Low16(2 * channels))
    && Value(f[14..16]) == 16
  }

  predicate HasSamples(w: seq<Byte>, pcm: seq<Short>) {
    && |w| == 44 + 2 * |pcm|
    && forall i | 0 <= i < |pcm| :: Value(w[44 + 2 * i..46 + 2 * i]) == Low16(pcm[i])
  }

  /** Every byte of a written file, by its offset; the byte rate and block align as long as their bits fit an Int. */
  lemma {:induction false} WrittenBytes(pcm: seq<Short>, sampleRate: Int, channels: Int)
    requires Fits(|pcm|)
    ensures var w := Wrapped(pcm, sampleRate, channels);
            && HasChunkHeads(w, |pcm|) && HasFormat(w[20..36], sampleRate, channels, sampleRate * channels)
            && HasSamples(w, pcm)
  {
    WrittenParts(pcm, FormatBody(sampleRate, channels));
    WrittenHeads(Wrapped(pcm, sampleRate, channels), pcm);
    FormatBytes(sampleRate, channels, sampleRate * channels);
  }

  lemma {:induction false} WrittenHeads(w: seq<Byte>, pcm: seq<Short>)
    requires Fits(|pcm|) && HasParts(w, pcm)
    ensures HasChunkHeads(w, |pcm|) && HasSamples(w, pcm)
  {
    IntValue(36 + 2 * |pcm|);
    Low32Small(36 + 2 * |pcm|);
    IntValue(16);
    IntValue(2 * |pcm|);
    Low32Small(2 * |pcm|);
    forall i | 0 <= i < |pcm| ensures Value(w[44 + 2 * i..46 + 2 * i]) == Low16(pcm[i]) {
      SampleBytes(pcm, i);
      assert w[44 + 2 * i..46 + 2 * i] == w[44..][2 * i..2 * i + 2];
    }
  }

  predicate HasParts(w: seq<Byte>, pcm: seq<Short>) {
    var n := |pcm|;
    && |w| == 44 + 2 * n && w[..4] == RIFF && w[4..8] == PutInt(36 + 2 * n) && w[8..12] == WAVE
    && w[12..16] == FMT && w[16..20] == PutInt(16)
    && w[36..40] == DATA && w[40..44] == PutInt(2 * n) && w[44..] == PutShorts(pcm)
  }

  lemma {:induction false} WrittenParts(pcm: seq<Short>, format: seq<Byte>)
    requires |format| == 16
    ensures HasParts(FormatWrapped(pcm, format), pcm) && FormatWrapped(pcm, format)[20..36] == format
  {
    TwoChunks(Chunk(FMT, format), Chunk(DATA, PutShorts(pcm)));
    var head, body := RiffHeader(36 + 2 * |pcm|), EncodeAll([Chunk(FMT, format), Chunk(DATA, PutShorts(pcm))]);
    assert head[..4] == RIFF && head[4..8] == PutInt(36 + 2 * |pcm|) && head[8..12] == WAVE;
    assert body[..4] == FMT && body[4..8] == PutInt(16) && body[8..24] == format;
    assert body[24..28] == DATA && body[28..32] == PutInt(2 * |pcm|) && body[32..] == PutShorts(pcm);
    Moved(head, body);
  }

  lemma {:induction false} Moved(head: seq<Byte>, body: seq<Byte>)
    requires |head| == 12 && |body| >= 32
    ensures var w := head + body;
            && w[..4] == head[..4] && w[4..8] == head[4..8] && w[8..12] == head[8..12]
            && w[12..16] == body[..4] && w[16..20] == body[4..8] && w[20..36] == body[8..24]
            && w[36..40] == body[24..28] && w[40..44] == body[28..32] && w[44..] == body[32..]
  {
  }

  lemma {:induction false} FormatBytes(rate: Int, channels: Int, product: int)
    requires product == rate * channels
    ensures HasFormat(FormatBody(rate, channels), rate, channels, product)
  {
    FieldsHaveFormat(rate, channels, product);
  }

  lemma {:induction false} FieldsHaveFormat(rate: Int, channels: Int, product: int)
    ensures HasFormat(FormatFields(rate, channels, BytesPer(ToInt(product)), BytesPer(channels)), rate, channels,
                      product)
  {
    var byteRate, blockAlign := BytesPer(ToInt(product)), BytesPer(channels);
    FieldBytes(rate, channels, byteRate, blockAlign);
    if 0 <= 16 * product <= INT_MAX {
      BytesPerIs(product);
      Low32Small(2 * product);
    }
    if 0 <= 16 * channels <= INT_MAX {
      BytesPerIs(channels);
    }
  }

  lemma {:induction false} Low32Small(x: int)
    requires 0 <= x <= INT_MAX
    ensures Low32(x) == x
  {
  }

  lemma {:induction false} FieldBytes(rate: Int, channels: Int, byteRate: int, blockAlign: int)
    ensures var f := FormatFields(rate, channels, byteRate, blockAlign);
            && Value(f[..2]) == 1 && Value(f[2..4]) == Low16(channels) && Value(f[4..8]) == Low32(rate)
            && Value(f[8..12]) == Low32(byteRate) && Value(f[12..14]) == Low16(blockAlign) && Value(f[14..16]) == 16
  {
    var f := FormatFields(rate, channels, byteRate, blockAlign);
    assert f[..2] == PutShort(1) && f[2..4] == PutShort(channels) && f[4..8] == PutInt(rate);
    assert f[8..12] == PutInt(byteRate) && f[12..14] == PutShort(blockAlign) && f[14..16] == PutShort(BITS_PER_SAMPLE);
    ShortValue(1);
    ShortValue(channels);
    IntValue(rate);
    IntValue(byteRate);
    ShortValue(blockAlign);
    ShortValue(BITS_PER_SAMPLE);
  }

  // Two bytes a sample, as long as the bits fit an Int.
  lemma {:induction false} BytesPerIs(x: int)
    requires 0 <= 16 * x <= INT_MAX
    ensures ToInt(x) == x && BytesPer(ToInt(x)) == 2 * x
  {
  }

  lemma {:induction false} SampleBytes(pcm: seq<Short>, i: nat)
    requires i < |pcm|
    ensures Value(PutShorts(pcm)[2 * i..2 * i + 2]) == Low16(pcm[i])
  {
    var n := |pcm| - 1;
    if i < n {
      SampleBytes(pcm[..n], i);
      assert PutShorts(pcm)[2 * i..2 * i + 2] == PutShorts(pcm[..n])[2 * i..2 * i + 2];
    } else {
      ShortValue(pcm[n]);
      assert PutShorts(pcm)[2 * n..2 * n + 2] == PutShort(pcm[n]);
    }
  }

  // ----- Reading it back.

  lemma {:induction false} FormatReadBack(r: Reading, sampleRate: Int, channels: Int)
    ensures Interpret(r, Chunk(FMT, FormatBody(sampleRate, channels)))
            == Ok(r.(channels := ToShort(channels), sampleRate := sampleRate, bitsPerSample := BITS_PER_SAMPLE))
  {
    FieldsReadBack(sampleRate, channels, BytesPer(ToInt(sampleRate * channels)), BytesPer(channels));
  }

  lemma {:induction false} FieldsReadBack(sampleRate: Int, channels: Int, byteRate: int, blockAlign: int)
    ensures var body := FormatFields(sampleRate, channels, byteRate, blockAlign);
            GetShort(body[2..]) == ToShort(channels) && GetInt(body[4..]) == sampleRate &&
            GetShort(body[14..]) == BITS_PER_SAMPLE
  {
    ShortAt(PutShort(1), channels, PutInt(sampleRate) + PutInt(byteRate) + PutShort(blockAlign) + PutShort(16));
    IntAt(PutShort(1) + PutShort(channels), sampleRate, PutInt(byteRate) + PutShort(blockAlign) + PutShort(16));
    ShortAt(PutShort(1) + PutShort(channels) + PutInt(sampleRate) + PutInt(byteRate) + PutShort(blockAlign), 16, []);
    var body := FormatFields(sampleRate, channels, byteRate, blockAlign);
    assert body == PutShort(1) + PutShort(channels)
                   + (PutInt(sampleRate) + PutInt(byteRate) + PutShort(blockAlign) + PutShort(16));
    assert body == PutShort(1) + PutShort(channels) + PutInt(sampleRate)
                   + (PutInt(byteRate) + PutShort(blockAlign) + PutShort(16));
    assert body == body + [];
  }

  lemma {:induction false} ShortAt(before: seq<Byte>, x: int, after: seq<Byte>)
    ensures GetShort((before + PutShort(x) + after)[|before|..]) == ToShort(x)
  {
    ShortRoundTrip(x);
    var s := (before + PutShort(x) + after)[|before|..];
    assert s[0] == PutShort(x)[0] && s[1] == PutShort(x)[1];
  }

  lemma {:induction false} IntAt(before: seq<Byte>, x: int, after: seq<Byte>)
    ensures GetInt((before + PutInt(x) + after)[|before|..]) == ToInt(x)
  {
    IntRoundTrip(x);
    var s := (before + PutInt(x) + after)[|before|..];
    assert s[..4] == PutInt(x);
  }

  lemma {:induction false} DataReadBack(r: Reading, pcm: seq<Short>)
    requires r.bitsPerSample == BITS_PER_SAMPLE
    ensures Interpret(r, Chunk(DATA, PutShorts(pcm))) == Ok(r.(samples := Some(pcm)))
  {
    SamplesRoundTrip(pcm);
    InterpretData(r, PutShorts(pcm));
  }

  lemma {:induction false} InterpretData(r: Reading, body: seq<Byte>)
    requires r.bitsPerSample == BITS_PER_SAMPLE
    ensures Interpret(r, Chunk(DATA, body)) == Ok(r.(samples := Some(GetShorts(body, |body| / 2))))
  {
  }

  lemma {:induction false} InterpretTwo(r: Reading, a: Chunk, b: Chunk)
    requires Interpret(r, a).Ok?
    ensures InterpretAll(r, [a, b]) == Interpret(Interpret(r, a).value, b)
  {
    assert [a, b][1..] == [b] && [b][1..] == [];
    var r' := Interpret(r, a).value;
    assert InterpretAll(r, [a, b]) == InterpretAll(r', [b]);
    match Interpret(r', b) {
      case Ok(r'') => assert InterpretAll(r'', []) == Ok(r'');
      case Err(_) =>
    }
  }

  lemma {:induction false} WrittenMeaning(pcm: seq<Short>, format: seq<Byte>, r: Reading)
    requires Fits(|pcm|) && Interpret(Unread(), Chunk(FMT, format)) == Ok(r) && |format| == 16
    requires r.bitsPerSample == BITS_PER_SAMPLE
    ensures DecodeSpec(FormatWrapped(pcm, format)) == Finish(Ok(r.(samples := Some(pcm))))
  {
    var chunks := [Chunk(FMT, format), Chunk(DATA, PutShorts(pcm))];
    DataReadBack(r, pcm);
    InterpretTwo(Unread(), chunks[0], chunks[1]);
    DecodesWhole(36 + 2 * |pcm|, chunks);
  }

  /**
   Decoding what the writer wrote gives the same samples, rate and channel count exactly when the rate is positive
   and the channel count positive and a Short.
   */
  lemma {:induction false} RoundTripExactly(pcm: seq<Short>, sampleRate: Int, channels: Int)
    requires Fits(|pcm|)
    ensures DecodeSpec(Wrapped(pcm, sampleRate, channels)) == Ok(DecodedClip(pcm, sampleRate, channels))
            <==> sampleRate > 0 && 1 <= channels <= 0x7FFF
  {
    FormatReadBack(Unread(), sampleRate, channels);
    WrittenMeaning(pcm, FormatBody(sampleRate, channels),
                   Reading(ToShort(channels), sampleRate, BITS_PER_SAMPLE, None));
    FinishExactly(pcm, sampleRate, channels);
  }

  lemma {:induction false} FinishExactly(pcm: seq<Short>, sampleRate: Int, channels: Int)
    ensures Finish(Ok(Reading(ToShort(channels), sampleRate, BITS_PER_SAMPLE, Some(pcm))))
            == Ok(DecodedClip(pcm, sampleRate, channels))
            <==> sampleRate > 0 && 1 <= channels <= 0x7FFF
  {
  }

  /** Every proper prefix of a written file is rejected. */
  lemma {:induction false} TruncatedRejected(pcm: seq<Short>, sampleRate: Int, channels: Int, n: nat)
    requires Fits(|pcm|) && n < |Wrapped(pcm, sampleRate, channels)|
    ensures DecodeSpec(Wrapped(pcm, sampleRate, channels)[..n]).Err?
  {
    FormatReadBack(Unread(), sampleRate, channels);
    CutFile(pcm, FormatBody(sampleRate, channels), n);
  }

  lemma {:induction false} CutFile(pcm: seq<Short>, format: seq<Byte>, n: nat)
    requires Fits(|pcm|) && |format| == 16 && n < |FormatWrapped(pcm, format)|
    requires Interpret(Unread(), Chunk(FMT, format)).Ok?
    ensures DecodeSpec(FormatWrapped(pcm, format)[..n]).Err?
  {
    var fmt, data := Chunk(FMT, format), Chunk(DATA, PutShorts(pcm));
    BodyOfTwo(RiffHeader(36 + 2 * |pcm|), fmt, data, n);
    if n >= 12 {
      CutTwo(fmt, data, n - 12);
    }
  }

  lemma {:induction false} CutTwo(a: Chunk, b: Chunk, n: nat)
    requires IsChunk(a) && |a.body| % 2 == 0 && IsChunk(b) && |b.body| % 2 == 0
    requires n < |Encode(a)| + |Encode(b)|
    requires Interpret(Unread(), a).Ok? && Interpret(Unread(), a).value.samples.None?
    ensures Finish(Walk(Unread(), (Encode(a) + Encode(b))[..n])).Err?
  {
    if n < |Encode(a)| {
      assert (Encode(a) + Encode(b))[..n] == Encode(a)[..n];
      CutChunk(Unread(), a, n);
    } else {
      var m := n - |Encode(a)|;
      assert (Encode(a) + Encode(b))[..n] == Encode(a) + Encode(b)[..m];
      WalkOne(Unread(), a, Encode(b)[..m]);
      CutChunk(Interpret(Unread(), a).value, b, m);
    }
  }

  lemma {:induction false} BodyOfTwo(header: seq<Byte>, a: Chunk, b: Chunk, n: nat)
    requires |header| == 12 && n <= |header + EncodeAll([a, b])|
    ensures EncodeAll([a, b]) == Encode(a) + Encode(b)
    ensures n >= 12 ==> (header + EncodeAll([a, b]))[..n][12..] == (Encode(a) + Encode(b))[..n - 12]
  {
    assert [a, b][1..] == [b] && [b][1..] == [];
    assert EncodeAll([b]) == Encode(b);
  }

  lemma {:induction false} CutChunk(r: Reading, c: Chunk, n: nat)
    requires IsChunk(c) && n < |Encode(c)| && |c.body| % 2 == 0
    ensures Walk(r, Encode(c)[..n]) == if n < 8 then Ok(r) else Err(ChunkTooLong(c.id))
  {
    if n >= 8 {
      SizeField(c, []);
      assert Encode(c) + [] == Encode(c);
      assert Encode(c)[..n][4..][..4] == Encode(c)[4..][..4];
      assert Encode(c)[..n][..4] == c.id;
    }
  }
}
