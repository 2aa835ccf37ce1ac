/**
 * The RIFF/WAVE PCM encoder that `audioBufferToWav` implements (in two
 * copies): a canonical 44-byte header followed by 16-bit little-endian
 * samples, frame by frame, channels interleaved in index order, each sample
 * clamped to [-1, 1] and scaled by 0x7FFF.
 *
 * `WavFile` is the byte sequence the writer must produce; `EncodeWav` writes
 * it into a fixed-size buffer through DataView-style setters. The read-back
 * lemmas recover every header field and every sample from the bytes.
 * The chunk tags are written by `writeString`, which stores each char code
 * with `setUint8`: the bytes `Uint8Array` gives.
 */
module Wav {
  import opened Bytes

  /** Decoded audio as `AudioBuffer` gives it: a rate, and one sample array per channel, all `length` long. */
  datatype AudioBuffer = AudioBuffer(sampleRate: nat, channelData: seq<seq<real>>, length: nat)

  /** What the platform guarantees of a decoded buffer: at least one channel, every channel `length` samples. */
  predicate WellFormed(b: AudioBuffer) {
    |b.channelData| >= 1 && forall c :: 0 <= c < |b.channelData| ==> |b.channelData[c]| == b.length
  }

  const Two16: nat := 0x1_0000
  const Two32: nat := 0x1_0000_0000

  // ---------------------------------------------------------------------------
  // Little-endian fields
  // ---------------------------------------------------------------------------

  /** `setUint16(_, v, true)`: ToUint16, low byte first. */
  function U16LE(v: nat): (r: seq<byte>)
    ensures |r| == 2
  {
    var u := v % Two16;
    [u % 256, u / 256]
  }

  /** `setUint32(_, v, true)`: ToUint32, least significant byte first. */
  function U32LE(v: nat): (r: seq<byte>)
    ensures |r| == 4
  {
    var u := v % Two32;
    var r1 := u / 256;
    var r2 := r1 / 256;
    [u % 256, r1 % 256, r2 % 256, r2 / 256]
  }

  /** The two bytes `setInt16(_, q, true)` stores for a sample within int16 range (two's complement). */
  function I16LE(q: int): (r: seq<byte>)
    requires -32768 <= q < 32768
    ensures |r| == 2
  {
    var u := if q < 0 then q + Two16 else q;
    [u % 256, u / 256]
  }

  /** `getUint16(off, true)`. */
  function ReadU16LE(bytes: seq<byte>, off: nat): int
    requires off + 2 <= |bytes|
  {
    bytes[off] as int + 256 * bytes[off + 1] as int
  }

  /** `getUint32(off, true)`. */
  function ReadU32LE(bytes: seq<byte>, off: nat): int
    requires off + 4 <= |bytes|
  {
    bytes[off] as int + 256 * bytes[off + 1] as int + 65536 * bytes[off + 2] as int + 16777216 * bytes[off + 3] as int
  }

  /** `getInt16(off, true)`. */
  function ReadI16LE(bytes: seq<byte>, off: nat): int
    requires off + 2 <= |bytes|
  {
    var u := ReadU16LE(bytes, off);
    if u >= 32768 then u - Two16 else u
  }

  lemma U16RoundTrip(v: nat)
    ensures ReadU16LE(U16LE(v), 0) == v % Two16
  {
  }

  lemma U32RoundTrip(v: nat)
    ensures ReadU32LE(U32LE(v), 0) == v % Two32
  {
    var u := v % Two32;
    var r1 := u / 256;
    var r2 := r1 / 256;
    assert u == u % 256 + 256 * r1;
    assert r1 == r1 % 256 + 256 * r2;
    assert r2 == r2 % 256 + 256 * (r2 / 256);
    assert r2 / 256 < 256;
  }

  lemma I16RoundTrip(q: int)
    requires -32768 <= q < 32768
    ensures ReadI16LE(I16LE(q), 0) == q
  {
  }

  // ---------------------------------------------------------------------------
  // Samples
  // ---------------------------------------------------------------------------

  /** `Math.max(-1, Math.min(1, x))`. */
  function Clamp(x: real): (y: real)
    ensures -1.0 <= y <= 1.0
    ensures -1.0 <= x <= 1.0 ==> y == x
    ensures x > 1.0 ==> y == 1.0
    ensures x < -1.0 ==> y == -1.0
  {
    if x > 1.0 then 1.0 else if x < -1.0 then -1.0 else x
  }

  /** ToInt16 of a value already within range: truncation toward zero. */
  function Truncate(p: real): (n: int)
    ensures p >= 0.0 ==> n as real <= p < n as real + 1.0
    ensures p < 0.0 ==> n as real - 1.0 < p <= n as real
  {
    if p >= 0.0 then p.Floor else -((-p).Floor)
  }

  /**
   * The int16 `setInt16(_, clamp(x) * 0x7FFF)` stores: clamping comes first,
   * so the result never leaves [-32767, 32767] and full scale maps to ±32767.
   */
  function Quantize(x: real): (q: int)
    ensures -32767 <= q <= 32767
    ensures x >= 1.0 ==> q == 32767
    ensures x <= -1.0 ==> q == -32767
    ensures (x >= 0.0) == (q >= 0) || q == 0
  {
    Truncate(Clamp(x) * 32767.0)
  }

  // ---------------------------------------------------------------------------
  // The file
  // ---------------------------------------------------------------------------

  /** The number of sample bytes: frames × channels × 2. */
  function DataLength(b: AudioBuffer, channels: nat): nat {
    b.length * channels * 2
  }

  /** The RIFF chunk descriptor: tag, 36 + dataLen, format tag. */
  function RiffChunk(dataLen: nat): (r: seq<byte>)
    ensures |r| == 12
  {
    Uint8Array("RIFF") + U32LE(36 + dataLen) + Uint8Array("WAVE")
  }

  /** The fmt sub-chunk: tag, length 16, PCM, channels, rate, byte rate, block align, 16 bits. */
  function FmtChunk(channels: nat, rate: nat): (r: seq<byte>)
    ensures |r| == 24
  {
    FmtHead(channels) + FmtRates(channels, rate)
  }

  /** Its first half: tag, chunk length 16, format 1 (PCM), channel count. */
  function FmtHead(channels: nat): (r: seq<byte>)
    ensures |r| == 12
  {
    Uint8Array("fmt ") + U32LE(16) + U16LE(1) + U16LE(channels)
  }

  /** Its second half: sample rate, byte rate, block align, 16 bits per sample. */
  function FmtRates(channels: nat, rate: nat): (r: seq<byte>)
    ensures |r| == 12
  {
    var blockAlign := channels * 2;
    U32LE(rate) + U32LE(rate * blockAlign) + U16LE(blockAlign) + U16LE(16)
  }

  /** The data sub-chunk header: tag and dataLen. */
  function DataChunkHeader(dataLen: nat): (r: seq<byte>)
    ensures |r| == 8
  {
    Uint8Array("data") + U32LE(dataLen)
  }

  /** The 44-byte header for `channels` channels at `rate` Hz over `dataLen` sample bytes. */
  function Header(channels: nat, rate: nat, dataLen: nat): (h: seq<byte>)
    ensures |h| == 44
  {
    RiffChunk(dataLen) + FmtChunk(channels, rate) + DataChunkHeader(dataLen)
  }

  /** Byte `k` of the sample data: sample k / 2 in frame-major order, low byte first. */
  function DataByte(b: AudioBuffer, channels: nat, k: nat): byte
    requires WellFormed(b) && 1 <= channels <= |b.channelData|
    requires k < DataLength(b, channels)
  {
    var s := k / 2;
    SlotBounds(b.length, channels, s);
    var bytes := I16LE(Quantize(b.channelData[s % channels][s / channels]));
    bytes[k % 2]
  }

  /** The sample bytes: frames × channels two-byte slots, frame-major. */
  function SampleData(b: AudioBuffer, channels: nat): (d: seq<byte>)
    requires WellFormed(b) && 1 <= channels <= |b.channelData|
    ensures |d| == DataLength(b, channels)
  {
    var n := DataLength(b, channels);
    seq(n, k requires 0 <= k < n => DataByte(b, channels, k))
  }

  /** The whole encoded file for the first `channels` channels of `b`, declaring `rate`. */
  function WavFile(b: AudioBuffer, channels: nat, rate: nat): (f: seq<byte>)
    requires WellFormed(b) && 1 <= channels <= |b.channelData|
    ensures |f| == 44 + DataLength(b, channels)
  {
    Header(channels, rate, DataLength(b, channels)) + SampleData(b, channels)
  }

  /** Sample slot `s` of a frames × channels grid lies in frame s / channels, channel s % channels. */
  lemma SlotBounds(frames: nat, channels: nat, s: nat)
    requires channels >= 1 && s < frames * channels * 2 / 2
    ensures s / channels < frames && s % channels < channels
  {
    var q := s / channels;
    if q >= frames {
      MulMonotone(frames, q, channels);
    }
  }

  lemma MulMonotone(x: nat, y: nat, m: nat)
    requires x <= y
    ensures x * m <= y * m
  {
  }

  /** Slot i * channels + c is frame i, channel c. */
  lemma SlotOf(frames: nat, channels: nat, i: nat, c: nat)
    requires c < channels && i < frames
    ensures i * channels + c < frames * channels
    ensures (i * channels + c) / channels == i && (i * channels + c) % channels == c
  {
    MulMonotone(i + 1, frames, channels);
    var s := i * channels + c;
    var q, r := s / channels, s % channels;
    assert s == q * channels + r;
    if q > i {
      MulMonotone(i + 1, q, channels);
    } else if q < i {
      MulMonotone(q + 1, i, channels);
    }
  }

  // ---------------------------------------------------------------------------
  // The writer
  // ---------------------------------------------------------------------------

  /** `view.setUint8(off + i, ...)` for each byte of `bytes`. */
  method Put(a: array<byte>, off: nat, bytes: seq<byte>)
    requires off + |bytes| <= a.Length
    modifies a
    ensures a[off..off + |bytes|] == bytes
    ensures forall k :: 0 <= k < a.Length && !(off <= k < off + |bytes|) ==> a[k] == old(a[k])
  {
    for i := 0 to |bytes|
      invariant forall k :: off <= k < off + i ==> a[k] == bytes[k - off]
      invariant forall k :: 0 <= k < a.Length && !(off <= k < off + |bytes|) ==> a[k] == old(a[k])
    {
      a[off + i] := bytes[i];
    }
  }

  method PutRiff(a: array<byte>, dataLen: nat)
    requires 44 <= a.Length
    modifies a
    ensures a[0..12] == RiffChunk(dataLen)
    ensures forall k :: 12 <= k < a.Length ==> a[k] == old(a[k])
  {
    Put(a, 0, Uint8Array("RIFF"));
    Put(a, 4, U32LE(36 + dataLen));
    Put(a, 8, Uint8Array("WAVE"));
    assert a[0..12] == a[0..4] + a[4..8] + a[8..12];
  }

  method PutFmt(a: array<byte>, channels: nat, rate: nat)
    requires 44 <= a.Length
    modifies a
    ensures a[12..36] == FmtChunk(channels, rate)
    ensures forall k :: 0 <= k < a.Length && !(12 <= k < 36) ==> a[k] == old(a[k])
  {
    PutFmtHead(a, channels);
    ghost var head := a[12..24];
    PutFmtRates(a, channels, rate);
    assert a[12..24] == head;
    assert a[12..36] == a[12..24] + a[24..36];
  }

  method PutFmtHead(a: array<byte>, channels: nat)
    requires 44 <= a.Length
    modifies a
    ensures a[12..24] == FmtHead(channels)
    ensures forall k :: 0 <= k < a.Length && !(12 <= k < 24) ==> a[k] == old(a[k])
  {
    Put(a, 12, Uint8Array("fmt "));
    Put(a, 16, U32LE(16));
    Put(a, 20, U16LE(1));
    Put(a, 22, U16LE(channels));
    assert a[12..24] == a[12..16] + a[16..20] + a[20..22] + a[22..24];
  }

  method PutFmtRates(a: array<byte>, channels: nat, rate: nat)
    requires 44 <= a.Length
    modifies a
    ensures a[24..36] == FmtRates(channels, rate)
    ensures forall k :: 0 <= k < a.Length && !(24 <= k < 36) ==> a[k] == old(a[k])
  {
    var blockAlign := channels * 2;
    Put(a, 24, U32LE(rate));
    Put(a, 28, U32LE(rate * blockAlign));
    Put(a, 32, U16LE(blockAlign));
    Put(a, 34, U16LE(16));
    assert a[24..36] == a[24..28] + a[28..32] + a[32..34] + a[34..36];
  }

  method PutDataHeader(a: array<byte>, dataLen: nat)
    requires 44 <= a.Length
    modifies a
    ensures a[36..44] == DataChunkHeader(dataLen)
    ensures forall k :: 0 <= k < a.Length && !(36 <= k < 44) ==> a[k] == old(a[k])
  {
    Put(a, 36, Uint8Array("data"));
    Put(a, 40, U32LE(dataLen));
    assert a[36..44] == a[36..40] + a[40..44];
  }

  /** Writes the header field by field at the offsets the format fixes. */
  method PutHeader(a: array<byte>, channels: nat, rate: nat, dataLen: nat)
    requires 44 <= a.Length
    modifies a
    ensures a[..44] == Header(channels, rate, dataLen)
    ensures a[44..] == old(a[44..])
  {
    PutRiff(a, dataLen);
    ghost var riff := a[0..12];
    PutFmt(a, channels, rate);
    assert a[0..12] == riff;
    ghost var fmt := a[12..36];
    PutDataHeader(a, dataLen);
    assert a[0..12] == riff && a[12..36] == fmt;
    assert a[..44] == a[0..12] + a[12..36] + a[36..44];
    assert forall k :: 44 <= k < a.Length ==> a[k] == old(a[k]);
  }

  /** The two bytes of slot i × channels + c are the quantized sample of channel c in frame i. */
  lemma SampleDataAt(b: AudioBuffer, channels: nat, i: nat, c: nat)
    requires WellFormed(b) && 1 <= channels <= |b.channelData|
    requires i < b.length && c < channels
    ensures 2 * (i * channels + c) + 2 <= DataLength(b, channels)
    ensures SampleData(b, channels)[2 * (i * channels + c)..2 * (i * channels + c) + 2]
            == I16LE(Quantize(b.channelData[c][i]))
  {
    SlotOf(b.length, channels, i, c);
    var s := i * channels + c;
    assert (2 * s) / 2 == s && (2 * s + 1) / 2 == s;
    assert DataLength(b, channels) == (b.length * channels) * 2;
    var d := SampleData(b, channels);
    assert d[2 * s] == DataByte(b, channels, 2 * s);
    assert d[2 * s + 1] == DataByte(b, channels, 2 * s + 1);
  }

  /** The first `n` sample bytes of `a` (after the header) are those of `WavFile`. */
  ghost predicate SamplesWritten(a: array<byte>, b: AudioBuffer, channels: nat, n: nat)
    requires WellFormed(b) && 1 <= channels <= |b.channelData|
    requires n <= DataLength(b, channels) && 44 + n <= a.Length
    reads a
  {
    a[44..44 + n] == SampleData(b, channels)[..n]
  }

  /** `view.setInt16(offset, clamp(sample) * 0x7FFF, true)` for channel `c` of frame `i`. */
  method PutSample(a: array<byte>, b: AudioBuffer, channels: nat, i: nat, c: nat, offset: nat)
    requires WellFormed(b) && 1 <= channels <= |b.channelData| && i < b.length && c < channels
    requires a.Length == 44 + DataLength(b, channels)
    requires offset == 44 + 2 * (i * channels + c)
    requires i * channels + c < b.length * channels
    requires SamplesWritten(a, b, channels, 2 * (i * channels + c))
    modifies a
    ensures SamplesWritten(a, b, channels, 2 * (i * channels + c) + 2)
    ensures a[..offset] == old(a[..offset])
  {
    SampleDataAt(b, channels, i, c);
    SlotOf(b.length, channels, i, c);
    ghost var d := SampleData(b, channels);
    ghost var n := 2 * (i * channels + c);
    var sample := Clamp(b.channelData[c][i]);
    var bytes := I16LE(Truncate(sample * 32767.0));
    a[offset] := bytes[0];
    a[offset + 1] := bytes[1];
    assert a[44..offset] == old(a[44..offset]);
    assert a[44..offset + 2] == a[44..offset] + [bytes[0], bytes[1]];
    assert d[..n + 2] == d[..n] + d[n..n + 2];
  }

  /** The inner loop: the samples of frame `i`, channel by channel, from `offset0` on. */
  method PutFrame(a: array<byte>, b: AudioBuffer, channels: nat, i: nat, offset0: nat) returns (offset: nat)
    requires WellFormed(b) && 1 <= channels <= |b.channelData| && i < b.length
    requires a.Length == 44 + DataLength(b, channels)
    requires offset0 == 44 + 2 * (i * channels)
    requires i * channels + channels <= b.length * channels
    requires SamplesWritten(a, b, channels, offset0 - 44)
    modifies a
    ensures offset == offset0 + 2 * channels
    ensures SamplesWritten(a, b, channels, offset - 44)
    ensures a[..44] == old(a[..44])
  {
    offset := offset0;
    for c := 0 to channels
      invariant offset == offset0 + 2 * c
      invariant a[..44] == old(a[..44])
      invariant SamplesWritten(a, b, channels, offset - 44)
    {
      PutSample(a, b, channels, i, c, offset);
      offset := offset + 2;
    }
  }

  /** The next frame starts one frame's worth of slots later. */
  lemma NextFrame(i: nat, channels: nat)
    ensures (i + 1) * channels == i * channels + channels
  {
  }

  /**
   * `audioBufferToWav`: allocates 44 + frames × channels × 2 bytes, writes the
   * header, then for each frame and each of the first `channels` channels the
   * quantized sample, advancing the offset by 2; the result is `WavFile`.
   */
  method EncodeWav(b: AudioBuffer, channels: nat, rate: nat) returns (a: array<byte>)
    requires WellFormed(b) && 1 <= channels <= |b.channelData|
    ensures a[..] == WavFile(b, channels, rate)
  {
    var dataLen := b.length * channels * 2;
    a := new byte[44 + dataLen];
    PutHeader(a, channels, rate, dataLen);
    PutSamples(a, b, channels);
    assert a[..] == a[..44] + a[44..];
  }

  /** The outer loop: every frame, in order, after the header. */
  method PutSamples(a: array<byte>, b: AudioBuffer, channels: nat)
    requires WellFormed(b) && 1 <= channels <= |b.channelData|
    requires a.Length == 44 + DataLength(b, channels)
    modifies a
    ensures a[..44] == old(a[..44])
    ensures a[44..] == SampleData(b, channels)
  {
    var offset := 44;
    for i := 0 to b.length
      invariant offset == 44 + 2 * (i * channels)
      invariant i * channels <= b.length * channels
      invariant a[..44] == old(a[..44])
      invariant SamplesWritten(a, b, channels, offset - 44)
    {
      MulMonotone(i + 1, b.length, channels);
      NextFrame(i, channels);
      offset := PutFrame(a, b, channels, i, offset);
    }
    AllFramesWritten(a[..], b, channels);
  }

  /** Once every frame is written, everything after the header is the sample data. */
  lemma AllFramesWritten(f: seq<byte>, b: AudioBuffer, channels: nat)
    requires WellFormed(b) && 1 <= channels <= |b.channelData|
    requires |f| == 44 + DataLength(b, channels)
    requires f[44..44 + 2 * (b.length * channels)] == SampleData(b, channels)[..2 * (b.length * channels)]
    ensures f[44..] == SampleData(b, channels)
  {
    var n := DataLength(b, channels);
    assert 2 * (b.length * channels) == n;
    assert f[44..] == f[44..44 + n];
  }

  // ---------------------------------------------------------------------------
  // Reading the file back
  // ---------------------------------------------------------------------------

  lemma SubSlice(f: seq<byte>, lo: nat, hi: nat, i: nat, j: nat)
    requires lo <= hi <= |f| && i <= j <= hi - lo
    ensures f[lo..hi][i..j] == f[lo + i..lo + j]
  {
    assert forall k :: 0 <= k < j - i ==> f[lo..hi][i..j][k] == f[lo + i..lo + j][k];
  }

  /** A 32-bit field depends only on its own four bytes. */
  lemma ReadU32At(f: seq<byte>, off: nat)
    requires off + 4 <= |f|
    ensures ReadU32LE(f, off) == ReadU32LE(f[off..off + 4], 0)
  {
  }

  /** A 16-bit field depends only on its own two bytes. */
  lemma ReadU16At(f: seq<byte>, off: nat)
    requires off + 2 <= |f|
    ensures ReadU16LE(f, off) == ReadU16LE(f[off..off + 2], 0)
  {
  }

  lemma RiffFields(f: seq<byte>, dataLen: nat)
    requires 12 <= |f| && f[0..12] == RiffChunk(dataLen)
    ensures f[0..4] == Uint8Array("RIFF") && f[8..12] == Uint8Array("WAVE")
    ensures ReadU32LE(f, 4) == (36 + dataLen) % Two32
  {
    assert f[4..8] == f[0..12][4..8];
    ReadU32At(f, 4);
    U32RoundTrip(36 + dataLen);
    assert f[0..4] == f[0..12][0..4];
    assert f[8..12] == f[0..12][8..12];
  }

  lemma FmtFields(f: seq<byte>, channels: nat, rate: nat)
    requires 36 <= |f| && f[12..36] == FmtChunk(channels, rate)
    ensures f[12..16] == Uint8Array("fmt ")
    ensures ReadU32LE(f, 16) == 16 && ReadU16LE(f, 20) == 1
    ensures ReadU16LE(f, 22) == channels % Two16
    ensures ReadU32LE(f, 24) == rate % Two32
    ensures ReadU32LE(f, 28) == (rate * channels * 2) % Two32
    ensures ReadU16LE(f, 32) == (channels * 2) % Two16
    ensures ReadU16LE(f, 34) == 16
  {
    SubSlice(f, 12, 36, 0, 12);
    SubSlice(f, 12, 36, 12, 24);
    FmtHeadFields(f, channels);
    FmtRateFields(f, channels, rate);
  }

  lemma FmtHeadFields(f: seq<byte>, channels: nat)
    requires 24 <= |f| && f[12..24] == FmtHead(channels)
    ensures f[12..16] == Uint8Array("fmt ")
    ensures ReadU32LE(f, 16) == 16 && ReadU16LE(f, 20) == 1
    ensures ReadU16LE(f, 22) == channels % Two16
  {
    SubSlice(f, 12, 24, 0, 4);
    SubSlice(f, 12, 24, 4, 8);
    SubSlice(f, 12, 24, 8, 10);
    SubSlice(f, 12, 24, 10, 12);
    ReadU32At(f, 16); U32RoundTrip(16);
    ReadU16At(f, 20); U16RoundTrip(1);
    ReadU16At(f, 22); U16RoundTrip(channels);
  }

  lemma FmtRateFields(f: seq<byte>, channels: nat, rate: nat)
    requires 36 <= |f| && f[24..36] == FmtRates(channels, rate)
    ensures ReadU32LE(f, 24) == rate % Two32
    ensures ReadU32LE(f, 28) == (rate * channels * 2) % Two32
    ensures ReadU16LE(f, 32) == (channels * 2) % Two16
    ensures ReadU16LE(f, 34) == 16
  {
    var byteRate, blockAlign := rate * (channels * 2), channels * 2;
    assert FmtRates(channels, rate) == U32LE(rate) + U32LE(byteRate) + U16LE(blockAlign) + U16LE(16);
    RateFields(f, rate, byteRate, blockAlign);
    assert byteRate == rate * channels * 2;
  }

  /** The four fields of the second half of `fmt `, read back from their values. */
  lemma RateFields(f: seq<byte>, rate: nat, byteRate: nat, blockAlign: nat)
    requires 36 <= |f| && f[24..36] == U32LE(rate) + U32LE(byteRate) + U16LE(blockAlign) + U16LE(16)
    ensures ReadU32LE(f, 24) == rate % Two32
    ensures ReadU32LE(f, 28) == byteRate % Two32
    ensures ReadU16LE(f, 32) == blockAlign % Two16
    ensures ReadU16LE(f, 34) == 16
  {
    SubSlice(f, 24, 36, 0, 4);
    SubSlice(f, 24, 36, 4, 8);
    SubSlice(f, 24, 36, 8, 10);
    SubSlice(f, 24, 36, 10, 12);
    ReadU32At(f, 24); U32RoundTrip(rate);
    ReadU32At(f, 28); U32RoundTrip(byteRate);
    ReadU16At(f, 32); U16RoundTrip(blockAlign);
    ReadU16At(f, 34); U16RoundTrip(16);
  }

  lemma DataHeaderFields(f: seq<byte>, dataLen: nat)
    requires 44 <= |f| && f[36..44] == DataChunkHeader(dataLen)
    ensures f[36..40] == Uint8Array("data")
    ensures ReadU32LE(f, 40) == dataLen % Two32
  {
    assert f[36..40] == f[36..44][0..4];
    assert f[40..44] == f[36..44][4..8];
    ReadU32At(f, 40);
    U32RoundTrip(dataLen);
  }

  /**
   * The header read back: the chunk tags at 0, 8, 12 and 36, the RIFF size
   * 36 + dataLen, fmt length 16, format 1, the channel count, the rate, the
   * byte rate, the block align, 16 bits, and dataLen; 32-bit fields reduced
   * modulo 2^32 and 16-bit fields modulo 2^16, as the setters do.
   */
  lemma HeaderFields(channels: nat, rate: nat, dataLen: nat, rest: seq<byte>)
    ensures var f := Header(channels, rate, dataLen) + rest;
      && f[0..4] == Uint8Array("RIFF")
      && ReadU32LE(f, 4) == (36 + dataLen) % Two32
      && f[8..12] == Uint8Array("WAVE")
      && f[12..16] == Uint8Array("fmt ")
      && ReadU32LE(f, 16) == 16
      && ReadU16LE(f, 20) == 1
      && ReadU16LE(f, 22) == channels % Two16
      && ReadU32LE(f, 24) == rate % Two32
      && ReadU32LE(f, 28) == (rate * channels * 2) % Two32
      && ReadU16LE(f, 32) == (channels * 2) % Two16
      && ReadU16LE(f, 34) == 16
      && f[36..40] == Uint8Array("data")
      && ReadU32LE(f, 40) == dataLen % Two32
  {
    var f := Header(channels, rate, dataLen) + rest;
    assert f[0..12] == RiffChunk(dataLen);
    assert f[12..36] == FmtChunk(channels, rate);
    assert f[36..44] == DataChunkHeader(dataLen);
    RiffFields(f, dataLen);
    FmtFields(f, channels, rate);
    DataHeaderFields(f, dataLen);
  }

  /** The header of an encoded file, read back. */
  lemma WavHeader(b: AudioBuffer, channels: nat, rate: nat)
    requires WellFormed(b) && 1 <= channels <= |b.channelData|
    ensures var f := WavFile(b, channels, rate); var n := DataLength(b, channels);
      && |f| == 44 + n
      && ReadU32LE(f, 4) == (36 + n) % Two32
      && ReadU16LE(f, 22) == channels % Two16
      && ReadU32LE(f, 24) == rate % Two32
      && ReadU32LE(f, 28) == (rate * channels * 2) % Two32
      && ReadU16LE(f, 32) == (channels * 2) % Two16
      && ReadU32LE(f, 40) == n % Two32
  {
    HeaderFields(channels, rate, DataLength(b, channels), SampleData(b, channels));
  }

  /**
   * Interleaving: the sample of channel `c` in frame `i` is stored at offset
   * 44 + 2 × (i × channels + c), and reads back as its quantized value.
   */
  lemma WavSample(b: AudioBuffer, channels: nat, rate: nat, i: nat, c: nat)
    requires WellFormed(b) && 1 <= channels <= |b.channelData|
    requires i < b.length && c < channels
    ensures var off := 44 + 2 * (i * channels + c);
      off + 2 <= |WavFile(b, channels, rate)|
      && ReadI16LE(WavFile(b, channels, rate), off) == Quantize(b.channelData[c][i])
  {
    SampleDataAt(b, channels, i, c);
    var f := WavFile(b, channels, rate);
    var n := 2 * (i * channels + c);
    var q := Quantize(b.channelData[c][i]);
    assert f[44 + n..44 + n + 2] == SampleData(b, channels)[n..n + 2];
    ReadU16At(f, 44 + n);
    I16RoundTrip(q);
  }

  /** Only the first `channels` channels are read: buffers that agree on them encode identically. */
  lemma OnlyLeadingChannelsRead(b1: AudioBuffer, b2: AudioBuffer, channels: nat, rate: nat)
    requires WellFormed(b1) && WellFormed(b2) && 1 <= channels <= |b1.channelData| && channels <= |b2.channelData|
    requires b1.length == b2.length && b1.channelData[..channels] == b2.channelData[..channels]
    ensures WavFile(b1, channels, rate) == WavFile(b2, channels, rate)
  {
    var n := DataLength(b1, channels);
    forall k | 0 <= k < n
      ensures DataByte(b1, channels, k) == DataByte(b2, channels, k)
    {
      SlotBounds(b1.length, channels, k / 2);
      assert b1.channelData[(k / 2) % channels] == b1.channelData[..channels][(k / 2) % channels];
    }
    assert SampleData(b1, channels) == SampleData(b2, channels);
  }
}
