/** The studio's WAV codec: a fixed 44-byte header out, a walk over chunks in. */
module Wav {
  import opened Prelude
  import opened Bytes

  datatype AudioFormat = AudioFormat(sampleRate: U32, channels: U16)

  datatype AudioBuffer = AudioBuffer(format: AudioFormat, pcm16: seq<Byte>)

  datatype StudioError = UnsupportedFormat | InvalidAudio

  predicate IsMono(format: AudioFormat) {
    format.channels == 1 && format.sampleRate > 0
  }

  /** `AudioBuffer::new` */
  function NewBuffer(format: AudioFormat, pcm16: seq<Byte>): (r: Result<AudioBuffer, StudioError>)
    ensures r.Ok? <==> IsMono(format) && |pcm16| % 2 == 0
    ensures r.Ok? ==> r.value == AudioBuffer(format, pcm16)
  {
    if format.channels != 1 then Err(UnsupportedFormat)
    else if format.sampleRate == 0 then Err(UnsupportedFormat)
    else if |pcm16| % 2 != 0 then Err(InvalidAudio)
    else Ok(AudioBuffer(format, pcm16))
  }

  const RIFF: seq<Byte> := [0x52, 0x49, 0x46, 0x46]
  const WAVE: seq<Byte> := [0x57, 0x41, 0x56, 0x45]
  const FMT: seq<Byte> := [0x66, 0x6D, 0x74, 0x20]
  const DATA: seq<Byte> := [0x64, 0x61, 0x74, 0x61]

  function FmtBody(format: AudioFormat): (r: seq<Byte>)
    ensures |r| == 16
  {
    Le16(1) + Le16(format.channels) + Le32(format.sampleRate) + Le32(Wrap32(format.sampleRate * 2)) + Le16(2) + Le16(16)
  }

  /** The lengths are 32-bit: longer data wraps around in the header. */
  function EncodeWav(b: AudioBuffer): seq<Byte> {
    var length: nat := Wrap32(|b.pcm16|);
    RIFF + Le32(Wrap32(36 + length)) + WAVE
    + (FMT + Le32(16) + FmtBody(b.format))
    + (DATA + Le32(length) + b.pcm16)
  }

  // ----- decoding -----

  /** The format a fmt chunk's body states. */
  function ReadFmt(body: seq<Byte>): Result<AudioFormat, StudioError> {
    if |body| < 16 then Err(InvalidAudio)
    else if Read16(body[0..2]) != 1 || Read16(body[14..16]) != 16 then Err(UnsupportedFormat)
    else Ok(AudioFormat(Read32(body[4..8]), Read16(body[2..4])))
  }

  function ChunkSize(rest: seq<Byte>): U32
    requires |rest| >= 8
  {
    Read32(rest[4..8])
  }

  /** What remains after the first chunk and its padding byte, which the end of the file may cut off. */
  function AfterChunk(rest: seq<Byte>): (r: seq<Byte>)
    requires |rest| >= 8 && 8 + ChunkSize(rest) <= |rest|
    ensures |r| < |rest|
  {
    var size := ChunkSize(rest);
    if 8 + size + size % 2 <= |rest| then rest[8 + size + size % 2..] else []
  }

  /** The walk over the chunks in `rest`, given the format seen so far. */
  function Walk(rest: seq<Byte>, format: Option<AudioFormat>): Result<AudioBuffer, StudioError>
    decreases |rest|
  {
    if |rest| < 8 then Err(InvalidAudio)
    else if 8 + ChunkSize(rest) > |rest| then Err(InvalidAudio)
    else
      var body := rest[8..8 + ChunkSize(rest)];
      if rest[..4] == FMT then
        var f := ReadFmt(body);
        if f.Err? then Err(f.error) else Walk(AfterChunk(rest), Some(f.value))
      else if rest[..4] == DATA then
        if format.None? then Err(InvalidAudio) else NewBuffer(format.value, body)
      else Walk(AfterChunk(rest), format)
  }

  predicate HasHeader(bytes: seq<Byte>) {
    |bytes| >= 44 && bytes[0..4] == RIFF && bytes[8..12] == WAVE
  }

  function DecodeWav(bytes: seq<Byte>): Result<AudioBuffer, StudioError> {
    if !HasHeader(bytes) then Err(InvalidAudio) else Walk(bytes[12..], None)
  }

  lemma DecodingWalks(bytes: seq<Byte>)
    ensures DecodeWav(bytes) == if HasHeader(bytes) then Walk(bytes[12..], None) else Err(InvalidAudio)
    ensures HasHeader(bytes) ==> |bytes| >= 44
  {
  }

  /** `decode_wav`: the walk by offsets, which never leaves the byte string. */
  method Decode(bytes: seq<Byte>) returns (r: Result<AudioBuffer, StudioError>)
    ensures r == DecodeWav(bytes)
  {
    hide Read32, ReadFmt, NewBuffer, HasHeader, ChunkSize, AfterChunk, DecodeWav;
    DecodingWalks(bytes);
    if !HasHeader(bytes) {
      return Err(InvalidAudio);
    }
    var offset := 12;
    var format: Option<AudioFormat> := None;
    ghost var rest := bytes[12..];
    while offset + 8 <= |bytes|
      invariant rest == if offset <= |bytes| then bytes[offset..] else []
      invariant Walk(rest, format) == DecodeWav(bytes)
      decreases |bytes| - offset
    {
      var id := bytes[offset..offset + 4];
      var size: nat := Read32(bytes[offset + 4..offset + 8]);
      var start := offset + 8;
      var end := start + size;
      ChunkAt(bytes, offset);
      if end > |bytes| {
        return Err(InvalidAudio);
      }
      var body := bytes[start..end];
      if id == FMT {
        var f := ReadFmt(body);
        if f.Err? {
          return Err(f.error);
        }
        format := Some(f.value);
      } else if id == DATA {
        if format.None? {
          return Err(InvalidAudio);
        }
        return NewBuffer(format.value, body);
      }
      rest := AfterChunk(rest);
      offset := end + size % 2;
    }
    r := Err(InvalidAudio);
  }

  /** The chunk at an offset, seen from the file and from the rest of it. */
  lemma ChunkAt(bytes: seq<Byte>, offset: nat)
    requires offset + 8 <= |bytes|
    ensures var rest, size := bytes[offset..], Read32(bytes[offset + 4..offset + 8]) as nat;
            var end := offset + 8 + size;
            && rest[..4] == bytes[offset..offset + 4] && ChunkSize(rest) == size
            && (end <= |bytes| ==> rest[8..8 + size] == bytes[offset + 8..end])
            && (end <= |bytes| ==> AfterChunk(rest) == if end + size % 2 <= |bytes| then bytes[end + size % 2..] else [])
  {
    hide Read32;
    assert bytes[offset..][4..8] == bytes[offset + 4..offset + 8];
  }

  // ----- round trip -----

  lemma FmtRoundTrip(format: AudioFormat)
    ensures ReadFmt(FmtBody(format)) == Ok(format)
  {
    hide Le32, Read32;
    var body := FmtBody(format);
    assert body[0..2] == Le16(1) && body[2..4] == Le16(format.channels) && body[14..16] == Le16(16);
    assert body[4..8] == Le32(format.sampleRate);
    Read32Le32(format.sampleRate);
  }

  /** A chunk at the head of the walk. */
  lemma HeadChunk(id: seq<Byte>, body: seq<Byte>, size: U32, tail: seq<Byte>)
    requires |id| == 4
    ensures var rest := id + Le32(size) + body + tail;
            |rest| >= 8 && rest[..4] == id && ChunkSize(rest) == size && rest[8..] == body + tail
  {
    hide Le32, Read32;
    var rest := id + Le32(size) + body + tail;
    assert rest[4..8] == Le32(size);
    Read32Le32(size);
  }

  lemma HeaderBefore(rest: seq<Byte>, length: U32)
    requires |rest| >= 32
    ensures var bytes := RIFF + Le32(length) + WAVE + rest;
            HasHeader(bytes) && bytes[12..] == rest
  {
    hide Le32;
    var bytes := RIFF + Le32(length) + WAVE + rest;
    assert bytes[0..4] == RIFF && bytes[8..12] == WAVE && bytes[12..] == rest;
  }

  /** Decoding an encoded buffer gives its format back, and its data as far as the 32-bit length tells. */
  lemma DecodeOfEncode(b: AudioBuffer)
    ensures Wrap32(|b.pcm16|) <= |b.pcm16|
    ensures DecodeWav(EncodeWav(b)) == NewBuffer(b.format, b.pcm16[..Wrap32(|b.pcm16|)])
  {
    hide Le32, Wrap32, FmtBody, ReadFmt, ChunkSize, NewBuffer, HasHeader, AfterChunk;
    var length: nat := Wrap32(|b.pcm16|);
    WrapIsSmaller(|b.pcm16|);
    var dataChunk := DATA + Le32(length) + b.pcm16;
    var rest := FMT + Le32(16) + FmtBody(b.format) + dataChunk;
    HeaderBefore(rest, Wrap32(36 + length));
    assert EncodeWav(b) == RIFF + Le32(Wrap32(36 + length)) + WAVE + rest;
    HeadChunk(FMT, FmtBody(b.format), 16, dataChunk);
    assert rest[8..24] == rest[8..][..16] == FmtBody(b.format);
    FmtRoundTrip(b.format);
    assert AfterChunk(rest) == dataChunk by { FmtIsPassed(rest, FmtBody(b.format), dataChunk); }
    HeadChunk(DATA, b.pcm16, length, []);
    assert dataChunk + [] == dataChunk && b.pcm16 + [] == b.pcm16;
    assert dataChunk[8..8 + length] == dataChunk[8..][..length] == b.pcm16[..length];
    WalkPasses(rest, None);
  }

  lemma FmtIsPassed(rest: seq<Byte>, body: seq<Byte>, tail: seq<Byte>)
    requires |rest| >= 24 && ChunkSize(rest) == 16 && rest[8..] == body + tail && |body| == 16
    ensures AfterChunk(rest) == tail
  {
    hide ChunkSize;
    assert rest[24..] == rest[8..][16..];
  }

  lemma WrapIsSmaller(n: nat)
    ensures Wrap32(n) <= n && (Wrap32(n) == n <==> n < TWO_TO_THE_32)
  {
  }

  /** A buffer survives encoding and decoding exactly when it is valid mono audio whose length a 32-bit header can state. */
  lemma RoundTrip(b: AudioBuffer)
    ensures DecodeWav(EncodeWav(b)) == Ok(b)
       <==> IsMono(b.format) && |b.pcm16| % 2 == 0 && |b.pcm16| < TWO_TO_THE_32
  {
    hide DecodeWav, EncodeWav, Wrap32;
    DecodeOfEncode(b);
    WrapIsSmaller(|b.pcm16|);
    if |b.pcm16| < TWO_TO_THE_32 {
      assert b.pcm16[..|b.pcm16|] == b.pcm16;
    }
  }

  // ----- what is accepted -----

  /** A file of a fmt chunk and a data chunk, whatever the first one says. */
  function TwoChunks(fmt: seq<Byte>, pad: Byte, length: U32, pcm16: seq<Byte>): seq<Byte>
    requires |fmt| < TWO_TO_THE_32 && |pcm16| < TWO_TO_THE_32
  {
    RIFF + Le32(length) + WAVE + ChunkBytes(FMT, fmt, pad) + (DATA + Le32(|pcm16|) + pcm16)
  }

  /** What the format chunk of an acceptable file says: PCM, 16 bits, one channel, some rate. */
  predicate StatesMonoPcm16(fmt: seq<Byte>)
    requires |fmt| >= 16
  {
    && Read16(fmt[0..2]) == 1 && Read16(fmt[14..16]) == 16
    && Read16(fmt[2..4]) == 1 && Read32(fmt[4..8]) > 0
  }

  /**
   Such a file is decoded exactly if its format chunk is long enough and states
   16-bit mono PCM and the data are whole samples; each failure has its own error.
   */
  lemma DecodesExactly(fmt: seq<Byte>, pad: Byte, length: U32, pcm16: seq<Byte>)
    requires |fmt| < TWO_TO_THE_32 && |pcm16| < TWO_TO_THE_32 && |fmt| + |pcm16| >= 16
    ensures DecodeWav(TwoChunks(fmt, pad, length, pcm16))
         == if |fmt| < 16 then Err(InvalidAudio)
            else if !StatesMonoPcm16(fmt) then Err(UnsupportedFormat)
            else if |pcm16| % 2 == 1 then Err(InvalidAudio)
            else Ok(AudioBuffer(AudioFormat(Read32(fmt[4..8]), 1), pcm16))
  {
    hide Le32, Read32, Read16, ChunkSize, HasHeader, AfterChunk, Walk, DecodeWav;
    var dataChunk := DATA + Le32(|pcm16|) + pcm16;
    var padding := if |fmt| % 2 == 1 then [pad] else [];
    var rest := FMT + Le32(|fmt|) + fmt + (padding + dataChunk);
    var bytes := TwoChunks(fmt, pad, length, pcm16);
    assert ChunkBytes(FMT, fmt, pad) + dataChunk == rest;
    assert bytes == RIFF + Le32(length) + WAVE + rest;
    HeaderBefore(rest, length);
    DecodingWalks(bytes);
    HeadChunk(FMT, fmt, |fmt|, padding + dataChunk);
    assert rest[8..8 + |fmt|] == rest[8..][..|fmt|] == fmt;
    WalkPasses(rest, None);
    PaddedIsPassed(rest, fmt, padding, dataChunk);
    if ReadFmt(fmt).Ok? {
      WalkEnds(ReadFmt(fmt).value, pcm16);
    }
  }

  lemma PaddedIsPassed(rest: seq<Byte>, body: seq<Byte>, padding: seq<Byte>, tail: seq<Byte>)
    requires |rest| >= 8 && ChunkSize(rest) == |body| && rest[8..] == body + (padding + tail) && |padding| == |body| % 2
    ensures AfterChunk(rest) == tail
  {
    hide ChunkSize;
    assert rest[8 + |body| + |padding|..] == rest[8..][|body| + |padding|..];
  }

  /** The data chunk ends the walk. */
  lemma WalkEnds(format: AudioFormat, pcm16: seq<Byte>)
    requires |pcm16| < TWO_TO_THE_32
    ensures Walk(DATA + Le32(|pcm16|) + pcm16, Some(format)) == NewBuffer(format, pcm16)
  {
    hide Le32, Read32, ChunkSize, AfterChunk, NewBuffer;
    var rest := DATA + Le32(|pcm16|) + pcm16;
    HeadChunk(DATA, pcm16, |pcm16|, []);
    assert rest + [] == rest && pcm16 + [] == pcm16;
    assert rest[8..8 + |pcm16|] == pcm16;
  }

  // ----- the header -----

  lemma Read16Le16(n: U16)
    ensures Read16(Le16(n)) == n
  {
  }

  /** The numbers of the format, where the RIFF specification has them; the rates are those of 16-bit mono. */
  lemma HeaderStatesTheFormat(b: AudioBuffer)
    ensures var bytes := EncodeWav(b);
            && |bytes| == 44 + |b.pcm16|
            && bytes[12..16] == FMT && Read32(bytes[16..20]) == 16 && Read16(bytes[20..22]) == 1
            && Read16(bytes[22..24]) == b.format.channels && Read32(bytes[24..28]) == b.format.sampleRate
            && Read32(bytes[28..32]) == b.format.sampleRate * 2 % 0x1_0000_0000
            && Read16(bytes[32..34]) == 2 && Read16(bytes[34..36]) == 16
  {
    hide Le32, Read32, Read16, Le16, Wrap32;
    var bytes := EncodeWav(b);
    assert bytes[16..20] == Le32(16);
    assert bytes[20..22] == Le16(1) && bytes[22..24] == Le16(b.format.channels);
    assert bytes[24..28] == Le32(b.format.sampleRate) && bytes[28..32] == Le32(Wrap32(b.format.sampleRate * 2));
    assert bytes[32..34] == Le16(2) && bytes[34..36] == Le16(16);
    Read32Le32(16);
    Read32Le32(b.format.sampleRate);
    Read32Le32(Wrap32(b.format.sampleRate * 2));
    Read16Le16(1);
    Read16Le16(2);
    Read16Le16(16);
    Read16Le16(b.format.channels);
    Wrapped(b.format.sampleRate * 2);
  }

  lemma Wrapped(n: nat)
    ensures Wrap32(n) == n % 0x1_0000_0000
  {
  }

  /** The two lengths: of everything after the first eight bytes, and of the data, as far as 32 bits tell. */
  lemma HeaderStatesTheLengths(b: AudioBuffer)
    ensures var bytes := EncodeWav(b);
            && bytes[0..4] == RIFF && Read32(bytes[4..8]) == (|bytes| - 8) % 0x1_0000_0000 && bytes[8..12] == WAVE
            && bytes[36..40] == DATA && Read32(bytes[40..44]) == |b.pcm16| % 0x1_0000_0000 && bytes[44..] == b.pcm16
  {
    hide Le32, Read32, FmtBody;
    var bytes := EncodeWav(b);
    var length: nat := Wrap32(|b.pcm16|);
    assert bytes[4..8] == Le32(Wrap32(36 + length)) && bytes[40..44] == Le32(length);
    Read32Le32(Wrap32(36 + length));
    Read32Le32(length);
  }

  // ----- other chunks do not matter -----

  /** A chunk with its padding byte, whatever its value. */
  function ChunkBytes(id: seq<Byte>, body: seq<Byte>, pad: Byte): seq<Byte>
    requires |body| < TWO_TO_THE_32
  {
    id + Le32(|body|) + body + (if |body| % 2 == 1 then [pad] else [])
  }

  /** Position p of `rest` is where the walk starts a chunk, or ends, before it has met the data. */
  predicate Boundary(rest: seq<Byte>, p: nat)
    requires p <= |rest|
    decreases p
  {
    p == 0
    || (|rest| >= 8 && rest[..4] != DATA && 8 + ChunkSize(rest) <= |rest|
        && var length := 8 + ChunkSize(rest) + ChunkSize(rest) % 2;
           length <= p && Boundary(rest[length..], p - length))
  }

  lemma WalkSkips(id: seq<Byte>, body: seq<Byte>, pad: Byte, rest: seq<Byte>, format: Option<AudioFormat>)
    requires |id| == 4 && id != FMT && id != DATA && |body| < TWO_TO_THE_32
    ensures Walk(ChunkBytes(id, body, pad) + rest, format) == Walk(rest, format)
  {
    hide Le32, ChunkSize;
    var padding := if |body| % 2 == 1 then [pad] else [];
    var whole := id + Le32(|body|) + body + (padding + rest);
    HeadChunk(id, body, |body|, padding + rest);
    assert ChunkBytes(id, body, pad) + rest == whole;
    assert AfterChunk(whole) == rest;
  }

  /** How the walk gets past a chunk that is not the data. */
  function PassChunk(id: seq<Byte>, body: seq<Byte>, format: Option<AudioFormat>): Result<Option<AudioFormat>, StudioError> {
    if id == FMT then
      var f := ReadFmt(body);
      if f.Err? then Err(f.error) else Ok(Some(f.value))
    else Ok(format)
  }

  lemma WalkPasses(rest: seq<Byte>, format: Option<AudioFormat>)
    requires |rest| >= 8 && rest[..4] != DATA && 8 + ChunkSize(rest) <= |rest|
    ensures var passed := PassChunk(rest[..4], rest[8..8 + ChunkSize(rest)], format);
            Walk(rest, format) == if passed.Ok? then Walk(AfterChunk(rest), passed.value) else Err(passed.error)
  {
    hide ChunkSize, ReadFmt;
  }

  /**
   Inserting any well-formed, padded chunk that is neither fmt nor data, at any
   chunk boundary before the data, changes nothing about the result.
   */
  lemma {:induction false} InsertedChunkIsInvisible(
      rest: seq<Byte>, p: nat, id: seq<Byte>, body: seq<Byte>, pad: Byte, format: Option<AudioFormat>)
    requires p <= |rest| && Boundary(rest, p)
    requires |id| == 4 && id != FMT && id != DATA && |body| < TWO_TO_THE_32
    ensures Walk(rest[..p] + ChunkBytes(id, body, pad) + rest[p..], format) == Walk(rest, format)
    decreases p
  {
    hide ChunkBytes, Walk, ChunkSize, PassChunk;
    var extra := ChunkBytes(id, body, pad);
    if p == 0 {
      assert rest[..p] + extra + rest[p..] == extra + rest;
      WalkSkips(id, body, pad, rest, format);
    } else {
      var size: nat := ChunkSize(rest);
      var length := 8 + size + size % 2;
      var longer := rest[..p] + extra + rest[p..];
      var tail := rest[length..];
      assert longer[..length] == rest[..length];
      SameHead(rest, longer, length);
      assert longer[length..] == tail[..p - length] + extra + tail[p - length..];
      WalkPasses(rest, format);
      WalkPasses(longer, format);
      var passed := PassChunk(rest[..4], rest[8..8 + size], format);
      if passed.Ok? {
        InsertedChunkIsInvisible(tail, p - length, id, body, pad, passed.value);
      }
    }
  }

  lemma SliceOfPrefix(a: seq<Byte>, n: nat, i: nat, j: nat)
    requires i <= j <= n <= |a|
    ensures a[i..j] == a[..n][i..j]
  {
  }

  /** Two strings with the same first chunk, padding included. */
  lemma SameHead(a: seq<Byte>, b: seq<Byte>, length: nat)
    requires 8 <= length <= |a| && length <= |b| && a[..length] == b[..length]
    requires var size: nat := ChunkSize(a); length == 8 + size + size % 2
    ensures a[..4] == b[..4] && ChunkSize(b) == ChunkSize(a)
    ensures a[8..8 + ChunkSize(a)] == b[8..8 + ChunkSize(a)]
    ensures AfterChunk(a) == a[length..] && AfterChunk(b) == b[length..]
  {
    hide Read32;
    SliceOfPrefix(a, length, 0, 4);
    SliceOfPrefix(b, length, 0, 4);
    SliceOfPrefix(a, length, 4, 8);
    SliceOfPrefix(b, length, 4, 8);
    SliceOfPrefix(a, length, 8, 8 + ChunkSize(a));
    SliceOfPrefix(b, length, 8, 8 + ChunkSize(a));
  }

  /** In a file: the same decoding with and without the extra chunk. */
  lemma DecodingIgnoresOtherChunks(bytes: seq<Byte>, p: nat, id: seq<Byte>, body: seq<Byte>, pad: Byte)
    requires HasHeader(bytes) && 12 <= p <= |bytes| && Boundary(bytes[12..], p - 12)
    requires |id| == 4 && id != FMT && id != DATA && |body| < TWO_TO_THE_32
    ensures DecodeWav(bytes[..p] + ChunkBytes(id, body, pad) + bytes[p..]) == DecodeWav(bytes)
  {
    hide ChunkBytes, Walk, Boundary;
    var extra := ChunkBytes(id, body, pad);
    var longer := bytes[..p] + extra + bytes[p..];
    var rest := bytes[12..];
    assert longer[0..4] == bytes[0..4] && longer[8..12] == bytes[8..12];
    assert longer[12..] == rest[..p - 12] + extra + rest[p - 12..];
    InsertedChunkIsInvisible(rest, p - 12, id, body, pad, None);
  }
}
