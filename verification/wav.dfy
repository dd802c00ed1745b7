/** The WAV encoder of the offline renderer (`audioBufferToWav`,
    src/AudioRenderer.jsx:225-284): a canonical 44-byte RIFF/WAVE header
    with one `fmt ` chunk (16-bit PCM) and one `data` chunk, followed by
    interleaved little-endian signed 16-bit samples. A reference decoder
    for the same layout is included to state the round trip. */
module Wav {
  import opened Wrappers

  type Byte = b: int | 0 <= b < 256

  const Two16: int := 0x1_0000
  const Two32: int := 0x1_0000_0000

  /** Size of the RIFF/WAVE header in bytes. */
  const HeaderSize: nat := 44

  /** Value written at offset 20: format tag 1, integer PCM. */
  const PcmFormat: nat := 1

  const BitsPerSample: nat := 16

  /** Bytes per sample, `bitDepth / 8`. */
  const BytesPerSample: nat := 2

  // ---------------------------------------------------------------------
  // Little-endian integer fields (DataView.setUint16/setUint32/setInt16
  // with littleEndian = true). The setters reduce their argument modulo
  // 2^16 or 2^32 before writing, which is written out here.
  // ---------------------------------------------------------------------

  function DecodeU16(b: seq<Byte>): int
    requires |b| == 2
  {
    b[0] as int + 256 * (b[1] as int)
  }

  function DecodeU32(b: seq<Byte>): int
    requires |b| == 4
  {
    b[0] as int + 256 * (b[1] as int) + 65536 * (b[2] as int) + 16777216 * (b[3] as int)
  }

  /** Reads two bytes as a two's-complement signed 16-bit integer. */
  function DecodeI16(b: seq<Byte>): int
    requires |b| == 2
  {
    var u := DecodeU16(b);
    if u >= 32768 then u - Two16 else u
  }

  function U16LE(v: int): (r: seq<Byte>)
    ensures |r| == 2
    ensures DecodeU16(r) == v % Two16
  {
    var w := v % Two16;
    [w % 256, w / 256]
  }

  function U32LE(v: int): (r: seq<Byte>)
    ensures |r| == 4
    ensures DecodeU32(r) == v % Two32
  {
    var w := v % Two32;
    var q1 := w / 256;
    var q2 := q1 / 256;
    [w % 256, q1 % 256, q2 % 256, q2 / 256]
  }

  /** Two's-complement encoding; every value in the 16-bit range reads back
      unchanged. */
  function I16LE(v: int): (r: seq<Byte>)
    ensures |r| == 2
    ensures -32768 <= v <= 32767 ==> DecodeI16(r) == v
  {
    U16LE(v)
  }

  /** The bytes of an ASCII tag such as "RIFF". */
  function Ascii(s: string): (r: seq<Byte>)
    requires forall k :: 0 <= k < |s| ==> s[k] as int < 256
    ensures |r| == |s|
    ensures forall k :: 0 <= k < |s| ==> r[k] == s[k] as int
  {
    seq(|s|, k requires 0 <= k < |s| => s[k] as int)
  }

  // ---------------------------------------------------------------------
  // Samples
  // ---------------------------------------------------------------------

  /** `Math.max(-1, Math.min(1, sample))`. */
  function Clamp(x: real): (r: real)
    ensures -1.0 <= r <= 1.0
    ensures -1.0 <= x <= 1.0 ==> r == x
  {
    if 1.0 < x then 1.0 else if x < -1.0 then -1.0 else x
  }

  /** Truncation toward zero, as `setInt16` converts a number. */
  function Truncate(x: real): (r: int)
    ensures x >= 0.0 ==> r as real <= x < r as real + 1.0
    ensures x < 0.0 ==> r as real - 1.0 < x <= r as real
  {
    if x >= 0.0 then x.Floor else -((-x).Floor)
  }

  /** One float sample as stored: clamped to [-1, 1], negatives scaled by
      32768 and non-negatives by 32767, truncated toward zero. */
  function Quantize(x: real): (r: int)
    ensures -32768 <= r <= 32767
    ensures x >= 1.0 ==> r == 32767
    ensures x <= -1.0 ==> r == -32768
    ensures r >= 0 <==> x > -1.0 / 32768.0
  {
    var v := Clamp(x);
    if v < 0.0 then Truncate(v * 32768.0) else Truncate(v * 32767.0)
  }

  /** Louder input never gives a smaller stored sample. */
  lemma QuantizeMonotonic(x: real, y: real)
    requires x <= y
    ensures Quantize(x) <= Quantize(y)
  {
    var u, v := Clamp(x), Clamp(y);
    assert u <= v;
    if u < 0.0 && v < 0.0 {
      assert u * 32768.0 <= v * 32768.0;
    } else if 0.0 <= u {
      assert u * 32767.0 <= v * 32767.0;
    }
  }

  // ---------------------------------------------------------------------
  // Buffers
  // ---------------------------------------------------------------------

  /** The rendered buffer as the Web Audio API hands it over: one array of
      `length` floats per channel. */
  datatype RawBuffer = RawBuffer(sampleRate: nat, length: nat, channelData: seq<seq<real>>)

  predicate WellFormed(b: RawBuffer) {
    forall c :: 0 <= c < |b.channelData| ==> |b.channelData[c]| == b.length
  }

  type AudioBuffer = b: RawBuffer | WellFormed(b) witness RawBuffer(48000, 0, [])

  function Channels(b: AudioBuffer): nat {
    |b.channelData|
  }

  /** All samples, frame-major and channel-minor, already quantized. */
  function Interleaved(b: AudioBuffer): (r: seq<int>)
    ensures |r| == b.length * Channels(b)
    ensures forall k :: 0 <= k < |r| ==> -32768 <= r[k] <= 32767
  {
    var n := Channels(b);
    seq(b.length * n, k requires 0 <= k < b.length * n =>
      Quantize(b.channelData[k % n][k / n]))
  }

  lemma MulAtLeast(a: int, n: int)
    requires a >= 1 && n > 0
    ensures a * n >= n
  {
    var m := a - 1;
    assert a * n == m * n + n;
    assert m * n >= 0;
  }

  /** Euclidean division has one quotient and one remainder. */
  lemma DivModUnique(k: int, n: int, q: int, r: int)
    requires n > 0 && 0 <= r < n && k == q * n + r
    ensures k / n == q && k % n == r
  {
    var q', r' := k / n, k % n;
    assert k == q' * n + r';
    assert (q' - q) * n == r - r' by {
      assert (q' - q) * n == q' * n - q * n;
    }
    if q' > q {
      MulAtLeast(q' - q, n);
    } else if q' < q {
      MulAtLeast(q - q', n);
    }
  }

  lemma FrameIndex(i: nat, c: nat, n: nat, len: nat)
    requires i < len && c < n
    ensures i * n + c < len * n
    ensures (i * n + c) % n == c && (i * n + c) / n == i
  {
    MulAtLeast(len - i, n);
    assert len * n - i * n == (len - i) * n;
    DivModUnique(i * n + c, n, i, c);
  }

  /** Sample `c` of frame `i` sits at position `i * channels + c`. */
  lemma InterleavedAt(b: AudioBuffer, i: nat, c: nat)
    requires i < b.length && c < Channels(b)
    ensures i * Channels(b) + c < |Interleaved(b)|
    ensures Interleaved(b)[i * Channels(b) + c] == Quantize(b.channelData[c][i])
  {
    FrameIndex(i, c, Channels(b), b.length);
  }

  /** Little-endian int16 encoding of a sequence of samples. */
  function EncodeI16Seq(xs: seq<int>): (r: seq<Byte>)
    ensures |r| == 2 * |xs|
  {
    if |xs| == 0 then [] else I16LE(xs[0]) + EncodeI16Seq(xs[1..])
  }

  lemma {:induction false} EncodedAt(xs: seq<int>, k: nat)
    requires k < |xs|
    ensures EncodeI16Seq(xs)[2 * k .. 2 * k + 2] == I16LE(xs[k])
  {
    if k > 0 {
      EncodedAt(xs[1..], k - 1);
      var tail := EncodeI16Seq(xs[1..]);
      assert EncodeI16Seq(xs)[2 * k .. 2 * k + 2] == tail[2 * (k - 1) .. 2 * (k - 1) + 2];
    }
  }

  function DecodeI16Seq(b: seq<Byte>): seq<int>
    requires |b| % 2 == 0
  {
    if |b| == 0 then [] else [DecodeI16(b[..2])] + DecodeI16Seq(b[2..])
  }

  lemma {:induction false} DecodeEncodeI16Seq(xs: seq<int>)
    requires forall k :: 0 <= k < |xs| ==> -32768 <= xs[k] <= 32767
    ensures DecodeI16Seq(EncodeI16Seq(xs)) == xs
  {
    if |xs| > 0 {
      var e := EncodeI16Seq(xs);
      assert e[..2] == I16LE(xs[0]);
      assert e[2..] == EncodeI16Seq(xs[1..]);
      DecodeEncodeI16Seq(xs[1..]);
    }
  }

  // ---------------------------------------------------------------------
  // The file
  // ---------------------------------------------------------------------

  /** The 12-byte RIFF form header: "RIFF", the size of everything after
      this field, "WAVE". */
  function RiffHeader(dataLength: nat): (r: seq<Byte>)
    ensures |r| == 12
  {
    Ascii("RIFF") + U32LE(36 + dataLength) + Ascii("WAVE")
  }

  /** The 24-byte `fmt ` chunk of 16-bit PCM. */
  function FmtChunk(channels: nat, sampleRate: nat): (r: seq<Byte>)
    ensures |r| == 24
  {
    Ascii("fmt ") + U32LE(16) + U16LE(PcmFormat) + U16LE(channels)
    + U32LE(sampleRate) + U32LE(sampleRate * channels * BytesPerSample)
    + U16LE(channels * BytesPerSample) + U16LE(BitsPerSample)
  }

  /** The 8-byte header of the `data` chunk. */
  function DataChunkHeader(dataLength: nat): (r: seq<Byte>)
    ensures |r| == 8
  {
    Ascii("data") + U32LE(dataLength)
  }

  /** The 44 header bytes for `channels` channels at `sampleRate` with
      `dataLength` bytes of samples. */
  function Header(channels: nat, sampleRate: nat, dataLength: nat): (r: seq<Byte>)
    ensures |r| == HeaderSize
  {
    RiffHeader(dataLength) + FmtChunk(channels, sampleRate) + DataChunkHeader(dataLength)
  }

  /** `audioBufferToWav`: a missing buffer or one without channels is
      rejected; otherwise header then samples. */
  function AudioBufferToWav(buffer: Option<AudioBuffer>): (r: Result<seq<Byte>>)
    ensures buffer.None? ==> r == Err("Invalid audio buffer")
    ensures buffer.Some? && Channels(buffer.value) == 0 ==> r == Err("Invalid audio buffer")
    ensures r.Ok? ==> buffer.Some? && Channels(buffer.value) > 0
    ensures r.Ok? ==> |r.value| == HeaderSize + buffer.value.length * Channels(buffer.value) * BytesPerSample
    ensures r.Ok? ==> r.value[..HeaderSize] == Header(Channels(buffer.value), buffer.value.sampleRate,
                                                    buffer.value.length * Channels(buffer.value) * BytesPerSample)
    ensures r.Ok? ==> r.value[HeaderSize..] == EncodeI16Seq(Interleaved(buffer.value))
  {
    if buffer.None? || Channels(buffer.value) == 0 then
      Err("Invalid audio buffer")
    else
      var b := buffer.value;
      var dataLength := b.length * Channels(b) * BytesPerSample;
      Ok(Header(Channels(b), b.sampleRate, dataLength) + EncodeI16Seq(Interleaved(b)))
  }

  /** The fields of the RIFF form header. */
  lemma RiffHeaderLayout(dataLength: nat)
    ensures var h := RiffHeader(dataLength);
      && h[0..4] == Ascii("RIFF")
      && DecodeU32(h[4..8]) == (36 + dataLength) % Two32
      && h[8..12] == Ascii("WAVE")
  {
    var h := RiffHeader(dataLength);
    assert h[4..8] == U32LE(36 + dataLength);
  }

  /** The fields of the `fmt ` chunk. */
  lemma FmtChunkLayout(channels: nat, sampleRate: nat)
    ensures var h := FmtChunk(channels, sampleRate);
      && h[0..4] == Ascii("fmt ")
      && DecodeU32(h[4..8]) == 16
      && DecodeU16(h[8..10]) == PcmFormat
      && DecodeU16(h[10..12]) == channels % Two16
      && DecodeU32(h[12..16]) == sampleRate % Two32
      && DecodeU32(h[16..20]) == (sampleRate * channels * 2) % Two32
      && DecodeU16(h[20..22]) == (channels * 2) % Two16
      && DecodeU16(h[22..24]) == BitsPerSample
  {
    var h := FmtChunk(channels, sampleRate);
    assert h[4..8] == U32LE(16);
    assert h[8..10] == U16LE(PcmFormat);
    assert h[10..12] == U16LE(channels);
    assert h[12..16] == U32LE(sampleRate);
    assert h[16..20] == U32LE(sampleRate * channels * BytesPerSample);
    assert h[20..22] == U16LE(channels * BytesPerSample);
    assert h[22..24] == U16LE(BitsPerSample);
  }

  /** The fields of the `data` chunk header. */
  lemma DataChunkHeaderLayout(dataLength: nat)
    ensures var h := DataChunkHeader(dataLength);
      && h[0..4] == Ascii("data")
      && DecodeU32(h[4..8]) == dataLength % Two32
  {
    var h := DataChunkHeader(dataLength);
    assert h[4..8] == U32LE(dataLength);
  }

  /** Every field of the 44-byte header at its fixed offset, all integers
      little-endian and reduced to the width of their field. */
  lemma HeaderFields(channels: nat, sampleRate: nat, dataLength: nat)
    ensures var h := Header(channels, sampleRate, dataLength);
      && h[0..4] == Ascii("RIFF")
      && DecodeU32(h[4..8]) == (36 + dataLength) % Two32
      && h[8..12] == Ascii("WAVE")
      && h[12..16] == Ascii("fmt ")
      && DecodeU32(h[16..20]) == 16
      && DecodeU16(h[20..22]) == 1
      && DecodeU16(h[22..24]) == channels % Two16
      && DecodeU32(h[24..28]) == sampleRate % Two32
      && DecodeU32(h[28..32]) == (sampleRate * channels * 2) % Two32
      && DecodeU16(h[32..34]) == (channels * 2) % Two16
      && DecodeU16(h[34..36]) == 16
      && h[36..40] == Ascii("data")
      && DecodeU32(h[40..44]) == dataLength % Two32
  {
    var h := Header(channels, sampleRate, dataLength);
    var riff, fmt, data := RiffHeader(dataLength), FmtChunk(channels, sampleRate), DataChunkHeader(dataLength);
    RiffHeaderLayout(dataLength);
    FmtChunkLayout(channels, sampleRate);
    DataChunkHeaderLayout(dataLength);
    assert h[0..4] == riff[0..4] && h[4..8] == riff[4..8] && h[8..12] == riff[8..12];
    assert h[12..16] == fmt[0..4] && h[16..20] == fmt[4..8] && h[20..22] == fmt[8..10];
    assert h[22..24] == fmt[10..12] && h[24..28] == fmt[12..16] && h[28..32] == fmt[16..20];
    assert h[32..34] == fmt[20..22] && h[34..36] == fmt[22..24];
    assert h[36..40] == data[0..4] && h[40..44] == data[4..8];
  }

  /** The header of an encoded buffer carries its channel count, sample
      rate, byte rate, block alignment and data length. */
  lemma HeaderLayout(b: AudioBuffer)
    requires Channels(b) > 0
    ensures var r := AudioBufferToWav(Some(b));
      var n := Channels(b);
      var dataLength := b.length * n * 2;
      && r.Ok?
      && r.value[0..4] == Ascii("RIFF")
      && DecodeU32(r.value[4..8]) == (36 + dataLength) % Two32
      && r.value[8..12] == Ascii("WAVE")
      && r.value[12..16] == Ascii("fmt ")
      && DecodeU32(r.value[16..20]) == 16
      && DecodeU16(r.value[20..22]) == 1
      && DecodeU16(r.value[22..24]) == n % Two16
      && DecodeU32(r.value[24..28]) == b.sampleRate % Two32
      && DecodeU32(r.value[28..32]) == (b.sampleRate * n * 2) % Two32
      && DecodeU16(r.value[32..34]) == (n * 2) % Two16
      && DecodeU16(r.value[34..36]) == 16
      && r.value[36..40] == Ascii("data")
      && DecodeU32(r.value[40..44]) == dataLength % Two32
  {
    var n := Channels(b);
    var r := AudioBufferToWav(Some(b)).value;
    var h := Header(n, b.sampleRate, b.length * n * 2);
    HeaderFields(n, b.sampleRate, b.length * n * 2);
    assert r[..44] == h;
    assert r[0..4] == h[0..4] && r[4..8] == h[4..8] && r[8..12] == h[8..12];
    assert r[12..16] == h[12..16] && r[16..20] == h[16..20] && r[20..22] == h[20..22];
    assert r[22..24] == h[22..24] && r[24..28] == h[24..28] && r[28..32] == h[28..32];
    assert r[32..34] == h[32..34] && r[34..36] == h[34..36];
    assert r[36..40] == h[36..40] && r[40..44] == h[40..44];
  }

  /** Sample `c` of frame `i` is the little-endian int16 at byte
      `44 + 2 * (i * channels + c)`. */
  lemma SampleLayout(b: AudioBuffer, i: nat, c: nat)
    requires Channels(b) > 0
    requires i < b.length && c < Channels(b)
    ensures var r := AudioBufferToWav(Some(b)).value;
      var at := HeaderSize + 2 * (i * Channels(b) + c);
      && at + 2 <= |r|
      && DecodeI16(r[at .. at + 2]) == Quantize(b.channelData[c][i])
  {
    var n := Channels(b);
    var xs := Interleaved(b);
    var k := i * n + c;
    InterleavedAt(b, i, c);
    EncodedAt(xs, k);
    var r := AudioBufferToWav(Some(b)).value;
    assert r[HeaderSize + 2 * k .. HeaderSize + 2 * k + 2] == EncodeI16Seq(xs)[2 * k .. 2 * k + 2];
  }

  /** What a reader recovers from a WAV file. */
  datatype WavInfo = WavInfo(channels: nat, sampleRate: nat, samples: seq<int>)

  /** Header fields a reader extracts: channels, sample rate, data length. */
  datatype HeaderInfo = HeaderInfo(channels: nat, sampleRate: nat, dataLength: nat)

  /** A reference reader for the canonical 44-byte 16-bit PCM header. */
  function ParseHeader(h: seq<Byte>): (r: Result<HeaderInfo>)
    requires |h| == HeaderSize
    ensures r.Ok? ==> r.value.channels > 0
  {
    var riff := h[0..4] == Ascii("RIFF") && h[8..12] == Ascii("WAVE");
    :- Need(riff, "not a RIFF/WAVE file");
    :- Need(h[12..16] == Ascii("fmt ") && DecodeU32(h[16..20]) == 16, "unexpected fmt chunk");
    :- Need(DecodeU16(h[20..22]) == PcmFormat && DecodeU16(h[34..36]) == BitsPerSample, "not 16-bit PCM");
    var channels := DecodeU16(h[22..24]);
    var sampleRate := DecodeU32(h[24..28]);
    var dataLength := DecodeU32(h[40..44]);
    :- Need(channels > 0, "no channels");
    :- Need(DecodeU16(h[32..34]) == channels * 2, "block align mismatch");
    :- Need(DecodeU32(h[28..32]) == sampleRate * channels * 2, "byte rate mismatch");
    :- Need(h[36..40] == Ascii("data"), "missing data chunk");
    :- Need(DecodeU32(h[4..8]) == 36 + dataLength, "RIFF size mismatch");
    Ok(HeaderInfo(channels, sampleRate, dataLength))
  }

  /** A reference reader for a whole canonical WAV file. */
  function ParseWav(bytes: seq<Byte>): (r: Result<WavInfo>)
    ensures r.Ok? ==> r.value.channels > 0
    ensures r.Ok? ==> |bytes| == HeaderSize + 2 * |r.value.samples|
  {
    var complete := |bytes| >= HeaderSize;
    :- Need(complete, "truncated header");
    var info :- ParseHeader(bytes[..HeaderSize]);
    :- Need(info.dataLength == |bytes| - HeaderSize && info.dataLength % 2 == 0, "data size mismatch");
    var samples := DecodeI16Seq(bytes[HeaderSize..]);
    DecodeLength(bytes[HeaderSize..]);
    Ok(WavInfo(info.channels, info.sampleRate, samples))
  }

  lemma {:induction false} DecodeLength(b: seq<Byte>)
    requires |b| % 2 == 0
    ensures 2 * |DecodeI16Seq(b)| == |b|
  {
    if |b| > 0 {
      DecodeLength(b[2..]);
    }
  }

  lemma HalfBelow(k: nat, len: nat)
    requires k < 2 * len
    ensures k / 2 < len && k % 2 < 2
  {
  }

  lemma EvenDouble(m: nat)
    ensures (2 * m) % 2 == 0
  {
    DivModUnique(2 * m, 2, m, 0);
  }

  lemma ModSmall(v: int, m: int)
    requires 0 <= v < m
    ensures v % m == v
  {
  }

  lemma ByteRateBound(sampleRate: nat, channels: nat)
    requires channels > 0
    ensures sampleRate <= sampleRate * channels * 2
  {
    if sampleRate > 0 {
      MulAtLeast(channels * 2, sampleRate);
    }
  }

  lemma ParseHeaderAccepts(h: seq<Byte>, channels: nat, sampleRate: nat, dataLength: nat)
    requires |h| == HeaderSize && channels > 0
    requires h[0..4] == Ascii("RIFF") && h[8..12] == Ascii("WAVE")
    requires h[12..16] == Ascii("fmt ") && DecodeU32(h[16..20]) == 16
    requires DecodeU16(h[20..22]) == 1 && DecodeU16(h[34..36]) == 16
    requires DecodeU16(h[22..24]) == channels && DecodeU32(h[24..28]) == sampleRate
    requires DecodeU16(h[32..34]) == channels * 2
    requires DecodeU32(h[28..32]) == sampleRate * channels * 2
    requires h[36..40] == Ascii("data") && DecodeU32(h[40..44]) == dataLength
    requires DecodeU32(h[4..8]) == 36 + dataLength
    ensures ParseHeader(h) == Ok(HeaderInfo(channels, sampleRate, dataLength))
  {
  }

  /** The header written for a buffer reads back as its channel count,
      sample rate and data length whenever they fit their fields. */
  lemma HeaderRoundTrip(channels: nat, sampleRate: nat, dataLength: nat)
    requires 0 < channels && channels * 2 < Two16
    requires sampleRate * channels * 2 < Two32
    requires 36 + dataLength < Two32
    ensures ParseHeader(Header(channels, sampleRate, dataLength)) == Ok(HeaderInfo(channels, sampleRate, dataLength))
  {
    var h := Header(channels, sampleRate, dataLength);
    HeaderFields(channels, sampleRate, dataLength);
    ByteRateBound(sampleRate, channels);
    ModSmall(36 + dataLength, Two32);
    ModSmall(dataLength, Two32);
    ModSmall(channels, Two16);
    ModSmall(channels * 2, Two16);
    ModSmall(sampleRate, Two32);
    ModSmall(sampleRate * channels * 2, Two32);
    ParseHeaderAccepts(h, channels, sampleRate, dataLength);
  }

  /** A header followed by encoded samples reads back as those samples. */
  lemma ParseEncoded(channels: nat, sampleRate: nat, xs: seq<int>)
    requires 0 < channels && channels * 2 < Two16
    requires sampleRate * channels * 2 < Two32
    requires 36 + 2 * |xs| < Two32
    requires forall k :: 0 <= k < |xs| ==> -32768 <= xs[k] <= 32767
    ensures ParseWav(Header(channels, sampleRate, 2 * |xs|) + EncodeI16Seq(xs))
         == Ok(WavInfo(channels, sampleRate, xs))
  {
    var r := Header(channels, sampleRate, 2 * |xs|) + EncodeI16Seq(xs);
    assert r[..HeaderSize] == Header(channels, sampleRate, 2 * |xs|);
    assert r[HeaderSize..] == EncodeI16Seq(xs);
    HeaderRoundTrip(channels, sampleRate, 2 * |xs|);
    var info := HeaderInfo(channels, sampleRate, 2 * |xs|);
    assert ParseHeader(r[..HeaderSize]) == Ok(info);
    EvenDouble(|xs|);
    DecodeEncodeI16Seq(xs);
    assert DecodeI16Seq(r[HeaderSize..]) == xs;
  }

  /** Reading back an encoded buffer gives its channel count, its sample
      rate and every quantized sample in interleaved order, provided the
      sizes fit the 16- and 32-bit header fields. */
  lemma RoundTrip(b: AudioBuffer)
    requires 0 < Channels(b) && Channels(b) * 2 < Two16
    requires b.sampleRate * Channels(b) * 2 < Two32
    requires 36 + b.length * Channels(b) * 2 < Two32
    ensures AudioBufferToWav(Some(b)).Ok?
    ensures ParseWav(AudioBufferToWav(Some(b)).value)
         == Ok(WavInfo(Channels(b), b.sampleRate, Interleaved(b)))
  {
    var xs := Interleaved(b);
    assert b.length * Channels(b) * 2 == 2 * |xs|;
    ParseEncoded(Channels(b), b.sampleRate, xs);
  }

  /** L frames of stereo silence at 48 kHz. */
  function Silence(len: nat): (b: AudioBuffer)
    ensures Channels(b) == 2 && b.length == len && b.sampleRate == 48000
  {
    RawBuffer(48000, len, [seq(len, _ => 0.0), seq(len, _ => 0.0)])
  }

  lemma SilenceInterleaved(len: nat)
    ensures Interleaved(Silence(len)) == seq(2 * len, _ => 0)
  {
    var b := Silence(len);
    var xs := Interleaved(b);
    assert |xs| == 2 * len;
    forall k | 0 <= k < |xs|
      ensures xs[k] == 0
    {
      HalfBelow(k, len);
      assert b.channelData[k % 2][k / 2] == 0.0;
    }
  }

  /** The silent-buffer case: L frames of stereo silence at 48 kHz give a
      file of 44 + 4L bytes that reads back as 2L zero samples. */
  lemma SilenceRoundTrip(len: nat)
    requires 36 + len * 4 < Two32
    ensures AudioBufferToWav(Some(Silence(len))).Ok?
    ensures |AudioBufferToWav(Some(Silence(len))).value| == 44 + 4 * len
    ensures ParseWav(AudioBufferToWav(Some(Silence(len))).value) == Ok(WavInfo(2, 48000, seq(2 * len, _ => 0)))
  {
    RoundTrip(Silence(len));
    SilenceInterleaved(len);
  }
}
