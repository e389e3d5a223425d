/** Encoding of a sample buffer as a RIFF/WAVE file with 16-bit PCM data
    (`bufferToWav` in components/VoiceStudio.tsx, with its helpers
    `setUint16` and `setUint32`). */
module Wav {
  import opened Results
  import opened Pcm

  const Uint16Modulus: int := 0x1_0000
  const Uint32Modulus: int := 0x1_0000_0000

  /** Size of the RIFF header: the "RIFF" chunk head, the "fmt " chunk and the "data" chunk head. */
  const HeaderSize: nat := 44

  // ---------------------------------------------------------------------
  // Little-endian fields, as `DataView` writes and reads them
  // ---------------------------------------------------------------------

  /** Byte i of v, least significant first: (v / 256^i) % 256. Dafny's `%`
      and `/` are Euclidean, so a negative v yields its two's complement bytes. */
  function ByteAt(v: int, i: nat): Byte
    decreases i
  {
    if i == 0 then v % 256 else ByteAt(v / 256, i - 1)
  }

  /** `view.setUint16(pos, v, true)`: v reduced modulo 2^16, low byte first. */
  function Uint16Le(v: int): (b: seq<Byte>)
    ensures |b| == 2
  {
    var u := v % Uint16Modulus;
    [ByteAt(u, 0), ByteAt(u, 1)]
  }

  /** `view.setUint32(pos, v, true)`: v reduced modulo 2^32, low byte first. */
  function Uint32Le(v: int): (b: seq<Byte>)
    ensures |b| == 4
  {
    var u := v % Uint32Modulus;
    [ByteAt(u, 0), ByteAt(u, 1), ByteAt(u, 2), ByteAt(u, 3)]
  }

  /** `view.setInt16(pos, n, true)` for an int16 n: two's complement, low byte first. */
  function Int16Le(n: int): (b: seq<Byte>)
    requires IsInt16(n)
    ensures |b| == 2
  {
    Uint16Le(n)
  }

  function ReadUint16Le(bytes: seq<Byte>, k: nat): int
    requires k + 2 <= |bytes|
  {
    bytes[k] as int + 256 * bytes[k + 1] as int
  }

  function ReadUint32Le(bytes: seq<Byte>, k: nat): int
    requires k + 4 <= |bytes|
  {
    bytes[k] as int + 256 * bytes[k + 1] as int + 0x1_0000 * bytes[k + 2] as int + 0x100_0000 * bytes[k + 3] as int
  }

  lemma ByteAtValues(u: int)
    ensures ByteAt(u, 1) == (u / 256) % 256
    ensures ByteAt(u, 2) == (u / 256 / 256) % 256
    ensures ByteAt(u, 3) == (u / 256 / 256 / 256) % 256
  {
    assert ByteAt(u, 2) == ByteAt(u / 256, 1);
    assert ByteAt(u / 256, 2) == ByteAt(u / 256 / 256, 1);
  }

  lemma Uint16RoundTrip(v: int)
    ensures ReadUint16Le(Uint16Le(v), 0) == v % Uint16Modulus
  {
    var u := v % Uint16Modulus;
    ByteAtValues(u);
    assert u == u % 256 + 256 * (u / 256);
  }

  lemma Uint32RoundTrip(v: int)
    ensures ReadUint32Le(Uint32Le(v), 0) == v % Uint32Modulus
  {
    var u := v % Uint32Modulus;
    var u1 := u / 256;
    var u2 := u1 / 256;
    var u3 := u2 / 256;
    ByteAtValues(u);
    assert u == u % 256 + 256 * u1;
    assert u1 == u1 % 256 + 256 * u2;
    assert u2 == u2 % 256 + 256 * u3;
    assert u3 < 256;
  }

  /** Writing an int16 with `setInt16` and reading it back with `getInt16` gives it back. */
  lemma Int16RoundTrip(n: int)
    requires IsInt16(n)
    ensures ReadInt16Le(Int16Le(n), 0) == n
  {
    Uint16RoundTrip(n);
  }

  /** The byte codes of an ASCII tag such as "RIFF". */
  function Ascii(s: string): (b: seq<Byte>)
    requires forall i :: 0 <= i < |s| ==> s[i] as int < 128
    ensures |b| == |s| && forall i :: 0 <= i < |s| ==> b[i] == s[i] as int
  {
    seq(|s|, i requires 0 <= i < |s| => s[i] as int)
  }

  // ---------------------------------------------------------------------
  // Sample encoding
  // ---------------------------------------------------------------------

  /** `Math.max(-1, Math.min(1, s))`. */
  function Clamp(s: real): (r: real)
    ensures -1.0 <= r <= 1.0
    ensures -1.0 <= s <= 1.0 ==> r == s
    ensures s < -1.0 ==> r == -1.0
    ensures s > 1.0 ==> r == 1.0
  {
    if s > 1.0 then 1.0 else if s < -1.0 then -1.0 else s
  }

  /** `x | 0` for |x| < 2^31: the integer part, rounding toward zero. */
  function Trunc(x: real): (n: int)
    ensures 0.0 <= x ==> 0 <= n && n as real <= x < n as real + 1.0
    ensures x < 0.0 ==> n <= 0 && n as real - 1.0 < x <= n as real
  {
    if x >= 0.0 then x.Floor else -((-x).Floor)
  }

  /** `bufferToWav`'s scaling step: clamp, scale by 32768 when `0.5 + sample < 0` (that is,
      below -0.5) and by 32767 otherwise, then truncate toward zero. */
  function EncodeSample(s: real): (n: int)
    ensures IsInt16(n)
    ensures s <= -1.0 ==> n == -32768
    ensures s >= 1.0 ==> n == 32767
  {
    var sample := Clamp(s);
    Trunc(if 0.5 + sample < 0.0 then sample * 32768.0 else sample * 32767.0)
  }

  /** What decoding an int16 n to n / 32768 and encoding it again yields. */
  function Requantized(n: int): int {
    if n == 0 || n < -16384 then n
    else if n < 0 then n + 1
    else n - 1
  }

  lemma DecodeEncodeSample(n: int)
    requires IsInt16(n)
    ensures EncodeSample(n as real / 32768.0) == Requantized(n)
  {
    var s := n as real / 32768.0;
    assert Clamp(s) == s;
    if n < -16384 {
      assert 0.5 + s < 0.0;
      assert s * 32768.0 == n as real;
    } else {
      assert !(0.5 + s < 0.0);
      var x := s * 32767.0;
      assert x == n as real - s;
      if n > 0 {
        assert 0.0 < s < 1.0;
        assert (n - 1) as real <= x < n as real;
      } else if n < 0 {
        assert -0.5 <= s < 0.0;
        assert n as real < x <= (n + 1) as real - 0.5;
      }
    }
  }

  // ---------------------------------------------------------------------
  // The file layout
  // ---------------------------------------------------------------------

  /** The head of the RIFF chunk: tag "RIFF", the file length less 8, form type "WAVE". */
  function RiffChunkHead(fileLength: int): (r: seq<Byte>)
    ensures |r| == 12
  {
    Uint32Le(0x46464952) + Uint32Le(fileLength - 8) + Uint32Le(0x45564157)
  }

  /** The first half of the "fmt " chunk: tag, chunk length, format tag, channel count. */
  function FmtFormat(numChannels: int): (r: seq<Byte>)
    ensures |r| == 12
  {
    Uint32Le(0x20746d66) + Uint32Le(16) + Uint16Le(1) + Uint16Le(numChannels)
  }

  /** The second half of the "fmt " chunk: sample rate, byte rate, block alignment, bits per sample. */
  function FmtRates(numChannels: int, sampleRate: int): (r: seq<Byte>)
    ensures |r| == 12
  {
    Uint32Le(sampleRate) + Uint32Le(sampleRate * 2 * numChannels) + Uint16Le(numChannels * 2) + Uint16Le(16)
  }

  /** The "fmt " chunk of a WAVE_FORMAT_PCM file with 16 bits per sample. */
  function FmtChunk(numChannels: int, sampleRate: int): (r: seq<Byte>)
    ensures |r| == 24
  {
    FmtFormat(numChannels) + FmtRates(numChannels, sampleRate)
  }

  /** The head of the "data" chunk: its tag and the byte length of the samples. */
  function DataChunkHead(dataLength: int): (r: seq<Byte>)
    ensures |r| == 8
  {
    Uint32Le(0x61746164) + Uint32Le(dataLength)
  }

  /** The 44 header bytes written by the thirteen `setUint32`/`setUint16` calls. */
  function Header(b: AudioBuffer): (h: seq<Byte>)
    ensures |h| == HeaderSize
  {
    var length := b.length * b.numberOfChannels * 2 + HeaderSize;
    RiffChunkHead(length) + FmtChunk(b.numberOfChannels, b.sampleRate) + DataChunkHead(length - HeaderSize)
  }

  /** The encoded samples of the first k channels of frame f, interleaved. */
  function FrameBytes(b: AudioBuffer, f: nat, k: nat): (r: seq<Byte>)
    requires b.WellFormed() && f < b.length && k <= b.numberOfChannels
    ensures |r| == 2 * k
  {
    if k == 0 then []
    else FrameBytes(b, f, k - 1) + Int16Le(EncodeSample(b.channels[k - 1][f]))
  }

  /** The encoded frames lo, ..., hi - 1, one after the other. */
  function FramesBytes(b: AudioBuffer, lo: nat, hi: nat): (r: seq<Byte>)
    requires b.WellFormed() && lo <= hi <= b.length
    ensures |r| == 2 * b.numberOfChannels * (hi - lo)
    decreases hi
  {
    if hi == lo then []
    else
      var r := FramesBytes(b, lo, hi - 1) + FrameBytes(b, hi - 1, b.numberOfChannels);
      assert 2 * b.numberOfChannels * (hi - 1 - lo) + 2 * b.numberOfChannels
          == 2 * b.numberOfChannels * (hi - lo);
      r
  }

  function Zeros(n: nat): (z: seq<Byte>)
    ensures |z| == n && forall k :: 0 <= k < n ==> z[k] == 0
  {
    seq(n, _ => 0)
  }

  /** The first frame the data loop writes when its frame index starts at
      `start`: none at all once `start` reaches the frame count. */
  function FirstFrame(b: AudioBuffer, start: nat): (f: nat)
    ensures f <= b.length && f <= start
    ensures f == start || f == b.length
  {
    if b.length < start then b.length else start
  }

  /** The number of frames whose bytes are never written: the data loop
      starts at frame 44 because the header left the cursor at 44. */
  function Skipped(b: AudioBuffer): (n: nat)
    ensures n <= b.length
    ensures HeaderSize <= b.length ==> n == HeaderSize
    ensures b.length < HeaderSize ==> n == b.length
  {
    FirstFrame(b, HeaderSize)
  }

  /** The bytes of the file `bufferToWav` produces, as the code is written:
      frames 44, 45, ... are stored from the start of the data region and the
      last `Skipped(b)` frames' worth of bytes keep the buffer's initial zero. */
  function WavFile(b: AudioBuffer): (w: seq<Byte>)
    requires b.WellFormed()
    ensures |w| == b.length * b.numberOfChannels * 2 + HeaderSize
  {
    FrameCountSplit(b.numberOfChannels, b.length, Skipped(b));
    Header(b) + FramesBytes(b, Skipped(b), b.length) + Zeros(2 * b.numberOfChannels * Skipped(b))
  }

  lemma FrameCountSplit(nc: nat, n: nat, s: nat)
    requires s <= n
    ensures 2 * nc * (n - s) + 2 * nc * s == n * nc * 2
  {
    var t := n - s;
    assert 2 * nc * t + 2 * nc * s == 2 * nc * (t + s);
    assert 2 * nc * n == n * nc * 2;
  }

  /** The file the data loop would produce if it started at frame 0. */
  function IntendedWavFile(b: AudioBuffer): (w: seq<Byte>)
    requires b.WellFormed()
    ensures |w| == b.length * b.numberOfChannels * 2 + HeaderSize
  {
    FrameCountSplit(b.numberOfChannels, b.length, 0);
    Header(b) + FramesBytes(b, 0, b.length)
  }

  // ---------------------------------------------------------------------
  // Properties of the layout
  // ---------------------------------------------------------------------

  lemma {:induction false} FrameBytesAt(b: AudioBuffer, f: nat, k: nat, c: nat)
    requires b.WellFormed() && f < b.length && c < k <= b.numberOfChannels
    ensures var e := Int16Le(EncodeSample(b.channels[c][f]));
      FrameBytes(b, f, k)[2 * c] == e[0] && FrameBytes(b, f, k)[2 * c + 1] == e[1]
    decreases k
  {
    if c < k - 1 {
      FrameBytesAt(b, f, k - 1, c);
    }
  }

  /** Encoding frames lo .. hi is encoding lo .. mid and then mid .. hi. */
  lemma {:induction false} FramesSplit(b: AudioBuffer, lo: nat, mid: nat, hi: nat)
    requires b.WellFormed() && lo <= mid <= hi <= b.length
    ensures FramesBytes(b, lo, hi) == FramesBytes(b, lo, mid) + FramesBytes(b, mid, hi)
    decreases hi
  {
    if hi > mid {
      FramesSplit(b, lo, mid, hi - 1);
    }
  }

  /** Sample c of frame f follows the encodings of frames lo .. f - 1 and of
      the first c channels of frame f. */
  lemma FramesBytesAt(b: AudioBuffer, lo: nat, hi: nat, f: nat, c: nat)
    requires b.WellFormed() && lo <= f < hi <= b.length && c < b.numberOfChannels
    ensures var k := |FramesBytes(b, lo, f)| + 2 * c;
      var e := Int16Le(EncodeSample(b.channels[c][f]));
      && k + 1 < |FramesBytes(b, lo, hi)|
      && FramesBytes(b, lo, hi)[k] == e[0] && FramesBytes(b, lo, hi)[k + 1] == e[1]
  {
    FramesAround(b, lo, f, hi);
    FrameBytesAt(b, f, b.numberOfChannels, c);
    IndexInMiddle(FramesBytes(b, lo, f), FrameBytes(b, f, b.numberOfChannels), FramesBytes(b, f + 1, hi), 2 * c);
    IndexInMiddle(FramesBytes(b, lo, f), FrameBytes(b, f, b.numberOfChannels), FramesBytes(b, f + 1, hi), 2 * c + 1);
  }

  /** Frames lo .. hi are the frames before f, frame f, and the frames after it. */
  lemma FramesAround(b: AudioBuffer, lo: nat, f: nat, hi: nat)
    requires b.WellFormed() && lo <= f < hi <= b.length
    ensures FramesBytes(b, lo, hi)
      == FramesBytes(b, lo, f) + (FrameBytes(b, f, b.numberOfChannels) + FramesBytes(b, f + 1, hi))
  {
    FramesSplit(b, lo, f, hi);
    FramesSplit(b, f, f + 1, hi);
    assert FramesBytes(b, f, f + 1) == FrameBytes(b, f, b.numberOfChannels);
  }

  /** Position j of the middle part of a three-part sequence. */
  lemma IndexInMiddle<T>(a: seq<T>, m: seq<T>, r: seq<T>, j: nat)
    requires j < |m|
    ensures |a| + j < |a + (m + r)| && (a + (m + r))[|a| + j] == m[j]
  {
  }

  /** The data region of the file begins with the encoded frames 44, 45, .... */
  lemma WavDataAt(b: AudioBuffer, k: nat)
    requires b.WellFormed() && k < |FramesBytes(b, Skipped(b), b.length)|
    ensures HeaderSize + k < |WavFile(b)|
    ensures WavFile(b)[HeaderSize + k] == FramesBytes(b, Skipped(b), b.length)[k]
  {
    var data := FramesBytes(b, Skipped(b), b.length);
    assert WavFile(b) == Header(b) + (data + Zeros(2 * b.numberOfChannels * Skipped(b)));
  }

  /** Two bytes that equal a two-byte sequence read as the same int16. */
  lemma SameInt16(bytes: seq<Byte>, k: nat, e: seq<Byte>)
    requires k + 1 < |bytes| && |e| == 2 && bytes[k] == e[0] && bytes[k + 1] == e[1]
    ensures ReadInt16Le(bytes, k) == ReadInt16Le(e, 0)
  {
  }

  lemma SlotOffset(nc: nat, j: nat, c: nat, p: nat)
    requires p == 2 * nc * j
    ensures p + 2 * c == SampleOffset(nc, j, c)
  {
  }

  /** For j below length - 44, the int16 at data position j * numChannels + c
      is the encoding of frame j + 44 of channel c. */
  lemma WavSampleAt(b: AudioBuffer, j: nat, c: nat)
    requires b.WellFormed() && j + HeaderSize < b.length && c < b.numberOfChannels
    ensures HeaderSize + SampleOffset(b.numberOfChannels, j, c) + 1 < |WavFile(b)|
    ensures ReadInt16Le(WavFile(b), HeaderSize + SampleOffset(b.numberOfChannels, j, c))
         == EncodeSample(b.channels[c][j + HeaderSize])
  {
    assert Skipped(b) == HeaderSize;
    var k := SampleOffset(b.numberOfChannels, j, c);
    FramesBytesAt(b, HeaderSize, b.length, j + HeaderSize, c);
    SlotOffset(b.numberOfChannels, j, c, |FramesBytes(b, HeaderSize, j + HeaderSize)|);
    WavDataAt(b, k);
    WavDataAt(b, k + 1);
    var n := EncodeSample(b.channels[c][j + HeaderSize]);
    Int16RoundTrip(n);
    SameInt16(WavFile(b), HeaderSize + k, Int16Le(n));
  }

  /** Every byte after the written frames is zero; when the buffer has at
      most 44 frames this is the whole data region. */
  lemma WavZeroTail(b: AudioBuffer, k: nat)
    requires b.WellFormed()
    requires HeaderSize + 2 * b.numberOfChannels * (b.length - Skipped(b)) <= k < |WavFile(b)|
    ensures WavFile(b)[k] == 0
  {
  }

  /** The four tag constants written with `setUint32` spell "RIFF", "WAVE", "fmt " and "data". */
  lemma TagBytes()
    ensures Uint32Le(0x46464952) == Ascii("RIFF")
    ensures Uint32Le(0x45564157) == Ascii("WAVE")
    ensures Uint32Le(0x20746d66) == Ascii("fmt ")
    ensures Uint32Le(0x61746164) == Ascii("data")
  {
  }

  lemma RiffChunkHeadFields(fileLength: int)
    ensures var r := RiffChunkHead(fileLength);
      && r[0..4] == Ascii("RIFF")
      && ReadUint32Le(r, 4) == (fileLength - 8) % Uint32Modulus
      && r[8..12] == Ascii("WAVE")
  {
    var r := RiffChunkHead(fileLength);
    TagBytes();
    Uint32RoundTrip(fileLength - 8);
    assert r[0..4] == Uint32Le(0x46464952);
    assert r[4..8] == Uint32Le(fileLength - 8);
    assert r[8..12] == Uint32Le(0x45564157);
  }

  /** Read back at their offsets in the chunk: the tag, the chunk size 16,
      format tag 1, the channel count, the sample rate, the byte rate, the
      block alignment and 16 bits per sample, each reduced to its field width. */
  lemma FmtChunkFields(numChannels: int, sampleRate: int)
    ensures var r := FmtChunk(numChannels, sampleRate);
      && r[0..4] == Ascii("fmt ")
      && ReadUint32Le(r, 4) == 16
      && ReadUint16Le(r, 8) == 1
      && ReadUint16Le(r, 10) == numChannels % Uint16Modulus
      && ReadUint32Le(r, 12) == sampleRate % Uint32Modulus
      && ReadUint32Le(r, 16) == (sampleRate * 2 * numChannels) % Uint32Modulus
      && ReadUint16Le(r, 20) == (numChannels * 2) % Uint16Modulus
      && ReadUint16Le(r, 22) == 16
  {
    var r := FmtChunk(numChannels, sampleRate);
    TagBytes();
    Uint32RoundTrip(16);
    Uint16RoundTrip(1);
    Uint16RoundTrip(numChannels);
    Uint32RoundTrip(sampleRate);
    Uint32RoundTrip(sampleRate * 2 * numChannels);
    Uint16RoundTrip(numChannels * 2);
    Uint16RoundTrip(16);
    assert r[0..4] == Uint32Le(0x20746d66);
    assert r[4..8] == Uint32Le(16);
    assert r[8..10] == Uint16Le(1);
    assert r[10..12] == Uint16Le(numChannels);
    assert r[12..16] == Uint32Le(sampleRate);
    assert r[16..20] == Uint32Le(sampleRate * 2 * numChannels);
    assert r[20..22] == Uint16Le(numChannels * 2);
    assert r[22..24] == Uint16Le(16);
  }

  lemma DataChunkHeadFields(dataLength: int)
    ensures var r := DataChunkHead(dataLength);
      r[0..4] == Ascii("data") && ReadUint32Le(r, 4) == dataLength % Uint32Modulus
  {
    var r := DataChunkHead(dataLength);
    TagBytes();
    Uint32RoundTrip(dataLength);
    assert r[0..4] == Uint32Le(0x61746164);
    assert r[4..8] == Uint32Le(dataLength);
  }

  /** The file is the RIFF chunk head for its own length, the "fmt " chunk
      for the buffer's channel count and rate, and a "data" chunk whose length
      field is the sample byte count; the data-length field is computed as
      `length - pos - 4` at pos = 40. */
  lemma WavLayout(b: AudioBuffer)
    requires b.WellFormed()
    ensures var w := WavFile(b);
      && w[0..12] == RiffChunkHead(|w|)
      && w[12..36] == FmtChunk(b.numberOfChannels, b.sampleRate)
      && w[36..44] == DataChunkHead(b.length * b.numberOfChannels * 2)
      && |w| - HeaderSize == b.length * b.numberOfChannels * 2
  {
    var w := WavFile(b);
    var h := Header(b);
    assert w[..HeaderSize] == h;
    var r := RiffChunkHead(|w|);
    var f := FmtChunk(b.numberOfChannels, b.sampleRate);
    var d := DataChunkHead(|w| - HeaderSize);
    assert h == r + f + d;
    ConcatParts(r, f, d);
  }

  lemma ConcatParts<T>(a: seq<T>, b: seq<T>, c: seq<T>)
    ensures (a + b + c)[0..|a|] == a
    ensures (a + b + c)[|a|..|a| + |b|] == b
    ensures (a + b + c)[|a| + |b|..|a| + |b| + |c|] == c
  {
  }

  /** The data loop of the corrected encoder: the int16 at data position
      j * numChannels + c is the encoding of frame j, for every frame. */
  lemma IntendedWavSampleAt(b: AudioBuffer, j: nat, c: nat)
    requires b.WellFormed() && j < b.length && c < b.numberOfChannels
    ensures HeaderSize + SampleOffset(b.numberOfChannels, j, c) + 1 < |IntendedWavFile(b)|
    ensures ReadInt16Le(IntendedWavFile(b), HeaderSize + SampleOffset(b.numberOfChannels, j, c))
         == EncodeSample(b.channels[c][j])
  {
    var k := SampleOffset(b.numberOfChannels, j, c);
    FramesBytesAt(b, 0, b.length, j, c);
    SlotOffset(b.numberOfChannels, j, c, |FramesBytes(b, 0, j)|);
    var w := IntendedWavFile(b);
    assert w[HeaderSize + k] == FramesBytes(b, 0, b.length)[k];
    assert w[HeaderSize + k + 1] == FramesBytes(b, 0, b.length)[k + 1];
    var n := EncodeSample(b.channels[c][j]);
    Int16RoundTrip(n);
    SameInt16(w, HeaderSize + k, Int16Le(n));
  }

  /** PCM data decoded and then written out: for j below frames - 44 the
      file holds, at data position j * numChannels + c, the requantized int16
      that the input held at frame j + 44. */
  lemma DecodedWavSampleAt(pcm: seq<Byte>, sampleRate: int, numChannels: nat, b: AudioBuffer, j: nat, c: nat)
    requires Decode(pcm, sampleRate, numChannels) == Ok(b)
    requires j + HeaderSize < b.length && c < numChannels
    ensures SampleOffset(numChannels, j + HeaderSize, c) + 1 < |pcm|
    ensures HeaderSize + SampleOffset(numChannels, j, c) + 1 < |WavFile(b)|
    ensures ReadInt16Le(WavFile(b), HeaderSize + SampleOffset(numChannels, j, c))
         == Requantized(ReadInt16Le(pcm, SampleOffset(numChannels, j + HeaderSize, c)))
  {
    DecodeSampleAt(pcm, sampleRate, numChannels, c, j + HeaderSize);
    WavSampleAt(b, j, c);
    DecodeEncodeSample(ReadInt16Le(pcm, SampleOffset(numChannels, j + HeaderSize, c)));
  }

  /** The two int16 samples 16384 and -16384, mono at 24000 Hz, decode to
      the frames 0.5 and -0.5. */
  lemma TwoSampleDecode()
    ensures Decode([0x00, 0x40, 0x00, 0xC0], 24000, 1) == Ok(AudioBuffer(1, 2, 24000, [[0.5, -0.5]]))
  {
    var pcm: seq<Byte> := [0x00, 0x40, 0x00, 0xC0];
    var b := Decode(pcm, 24000, 1).value;
    DecodeSampleAt(pcm, 24000, 1, 0, 0);
    DecodeSampleAt(pcm, 24000, 1, 0, 1);
    assert b.channels[0] == [0.5, -0.5];
    assert b.channels == [[0.5, -0.5]];
  }

  lemma HalfEncodings()
    ensures EncodeSample(0.5) == 16383 && EncodeSample(-0.5) == -16383
    ensures Int16Le(16383) == [0xFF, 0x3F] && Int16Le(-16383) == [0x01, 0xC0]
  {
    ByteAtValues(16383);
    ByteAtValues(-16383 % Uint16Modulus);
  }

  /** A two-frame mono buffer: the file is 48 bytes long and all four of its
      data bytes are zero, while the corrected encoder stores the int16
      values 16383 and -16383 there. */
  lemma TwoSampleFiles()
    ensures var b := AudioBuffer(1, 2, 24000, [[0.5, -0.5]]);
      && |WavFile(b)| == 48
      && WavFile(b)[HeaderSize..] == [0, 0, 0, 0]
      && IntendedWavFile(b)[HeaderSize..] == [0xFF, 0x3F, 0x01, 0xC0]
  {
    var b := AudioBuffer(1, 2, 24000, [[0.5, -0.5]]);
    assert Skipped(b) == 2;
    assert WavFile(b)[HeaderSize..] == Zeros(4);
    HalfEncodings();
    var f0 := FramesBytes(b, 0, 1);
    assert f0 == FrameBytes(b, 0, 1);
    assert FramesBytes(b, 0, 2) == f0 + FrameBytes(b, 1, 1);
  }

  /** PCM data holding 16384 and -16384, decoded and written out: every
      sample of the file is lost, where the corrected encoder keeps both. */
  lemma TwoSampleScenario()
    ensures Decode([0x00, 0x40, 0x00, 0xC0], 24000, 1).Ok?
    ensures var b := Decode([0x00, 0x40, 0x00, 0xC0], 24000, 1).value;
      && |WavFile(b)| == 48
      && WavFile(b)[HeaderSize..] == [0, 0, 0, 0]
      && IntendedWavFile(b)[HeaderSize..] == [0xFF, 0x3F, 0x01, 0xC0]
  {
    TwoSampleDecode();
    TwoSampleFiles();
  }

  // ---------------------------------------------------------------------
  // The encoder
  // ---------------------------------------------------------------------

  /** `setUint16`: writes v little-endian at the cursor and advances it by 2. */
  method SetUint16(view: array<Byte>, pos: nat, v: int) returns (next: nat)
    requires pos + 2 <= view.Length
    modifies view
    ensures next == pos + 2
    ensures view[..next] == old(view[..pos]) + Uint16Le(v)
    ensures forall k :: next <= k < view.Length ==> view[k] == old(view[k])
  {
    var bytes := Uint16Le(v);
    view[pos] := bytes[0];
    view[pos + 1] := bytes[1];
    next := pos + 2;
  }

  /** `setUint32`: writes v little-endian at the cursor and advances it by 4. */
  method SetUint32(view: array<Byte>, pos: nat, v: int) returns (next: nat)
    requires pos + 4 <= view.Length
    modifies view
    ensures next == pos + 4
    ensures view[..next] == old(view[..pos]) + Uint32Le(v)
    ensures forall k :: next <= k < view.Length ==> view[k] == old(view[k])
  {
    var bytes := Uint32Le(v);
    view[pos] := bytes[0];
    view[pos + 1] := bytes[1];
    view[pos + 2] := bytes[2];
    view[pos + 3] := bytes[3];
    next := pos + 4;
  }

  /** The three `setUint32` calls of the RIFF chunk head. */
  method WriteRiffChunkHead(view: array<Byte>, pos: nat, fileLength: int) returns (next: nat)
    requires pos + 12 <= view.Length
    modifies view
    ensures next == pos + 12
    ensures view[..next] == old(view[..pos]) + RiffChunkHead(fileLength)
    ensures forall k :: next <= k < view.Length ==> view[k] == old(view[k])
  {
    next := SetUint32(view, pos, 0x46464952);  // "RIFF"
    next := SetUint32(view, next, fileLength - 8);
    next := SetUint32(view, next, 0x45564157);  // "WAVE"
  }

  /** The eight `setUint32`/`setUint16` calls of the "fmt " chunk, in two halves. */
  method WriteFmtChunk(view: array<Byte>, pos: nat, numChannels: int, sampleRate: int) returns (next: nat)
    requires pos + 24 <= view.Length
    modifies view
    ensures next == pos + 24
    ensures view[..next] == old(view[..pos]) + FmtChunk(numChannels, sampleRate)
    ensures forall k :: next <= k < view.Length ==> view[k] == old(view[k])
  {
    ghost var prefix := view[..pos];
    next := WriteFmtFormat(view, pos, numChannels);
    ghost var mid := view[..next];
    next := WriteFmtRates(view, next, numChannels, sampleRate);
    assert view[..next] == prefix + (FmtFormat(numChannels) + FmtRates(numChannels, sampleRate));
  }

  method WriteFmtFormat(view: array<Byte>, pos: nat, numChannels: int) returns (next: nat)
    requires pos + 12 <= view.Length
    modifies view
    ensures next == pos + 12
    ensures view[..next] == old(view[..pos]) + FmtFormat(numChannels)
    ensures forall k :: next <= k < view.Length ==> view[k] == old(view[k])
  {
    next := SetUint32(view, pos, 0x20746d66);  // "fmt "
    next := SetUint32(view, next, 16);          // chunk length
    next := SetUint16(view, next, 1);           // format tag: WAVE_FORMAT_PCM
    next := SetUint16(view, next, numChannels);
  }

  method WriteFmtRates(view: array<Byte>, pos: nat, numChannels: int, sampleRate: int) returns (next: nat)
    requires pos + 12 <= view.Length
    modifies view
    ensures next == pos + 12
    ensures view[..next] == old(view[..pos]) + FmtRates(numChannels, sampleRate)
    ensures forall k :: next <= k < view.Length ==> view[k] == old(view[k])
  {
    next := SetUint32(view, pos, sampleRate);
    next := SetUint32(view, next, sampleRate * 2 * numChannels);  // byte rate
    next := SetUint16(view, next, numChannels * 2);               // block alignment
    next := SetUint16(view, next, 16);                            // bits per sample
  }

  /** The tag of the "data" chunk and its length, computed from the cursor
      as `length - pos - 4` once the tag is written. */
  method WriteDataChunkHead(view: array<Byte>, pos: nat, length: int) returns (next: nat)
    requires pos + 8 <= view.Length
    modifies view
    ensures next == pos + 8
    ensures view[..next] == old(view[..pos]) + DataChunkHead(length - pos - 8)
    ensures forall k :: next <= k < view.Length ==> view[k] == old(view[k])
  {
    next := SetUint32(view, pos, 0x61746164);  // "data"
    next := SetUint32(view, next, length - next - 4);
  }

  /** One pass of the inner data loop: the samples of frame `frame` of every
      channel, written as int16 at `44 + offset` onwards. */
  method WriteFrame(view: array<Byte>, buffer: AudioBuffer, channels: seq<seq<real>>, frame: nat, offset: nat)
    returns (next: nat)
    requires buffer.WellFormed() && channels == buffer.channels && frame < buffer.length
    requires HeaderSize + offset + 2 * buffer.numberOfChannels <= view.Length
    modifies view
    ensures next == offset + 2 * buffer.numberOfChannels
    ensures view[HeaderSize + offset .. HeaderSize + next] == FrameBytes(buffer, frame, buffer.numberOfChannels)
    ensures forall k :: 0 <= k < view.Length && !(HeaderSize + offset <= k < HeaderSize + next) ==> view[k] == old(view[k])
  {
    next := offset;
    for i := 0 to buffer.numberOfChannels
      invariant next == offset + 2 * i
      invariant view[HeaderSize + offset .. HeaderSize + next] == FrameBytes(buffer, frame, i)
      invariant forall k :: 0 <= k < view.Length && !(HeaderSize + offset <= k < HeaderSize + next) ==> view[k] == old(view[k])
    {
      ghost var before := view[HeaderSize + offset .. HeaderSize + next];
      var sample := EncodeSample(channels[i][frame]);
      var bytes := Int16Le(sample);
      view[HeaderSize + next] := bytes[0];
      view[HeaderSize + next + 1] := bytes[1];
      assert view[HeaderSize + offset .. HeaderSize + next] == before;
      AppendPair(view, HeaderSize + offset, HeaderSize + next, bytes);
      assert FrameBytes(buffer, frame, i + 1) == before + bytes;
      next := next + 2;
    }
  }

  /** A slice followed by the two bytes just written after it. */
  lemma AppendPair(view: array<Byte>, lo: nat, mid: nat, bytes: seq<Byte>)
    requires lo <= mid && mid + 2 <= view.Length && |bytes| == 2
    requires view[mid] == bytes[0] && view[mid + 1] == bytes[1]
    ensures view[lo .. mid + 2] == view[lo .. mid] + bytes
  {
  }

  /** Frames `start .. pos` at 44 on, followed by frame `pos`, are frames
      `start .. pos + 1` at 44 on. */
  lemma ExtendFrames(view: array<Byte>, b: AudioBuffer, start: nat, pos: nat, offset: nat, next: nat)
    requires b.WellFormed() && start <= pos < b.length
    requires HeaderSize + offset <= HeaderSize + next <= view.Length
    requires view[HeaderSize .. HeaderSize + offset] == FramesBytes(b, start, pos)
    requires view[HeaderSize + offset .. HeaderSize + next] == FrameBytes(b, pos, b.numberOfChannels)
    ensures view[HeaderSize .. HeaderSize + next] == FramesBytes(b, start, pos + 1)
  {
    assert view[HeaderSize .. HeaderSize + next]
        == view[HeaderSize .. HeaderSize + offset] + view[HeaderSize + offset .. HeaderSize + next];
  }

  /** While frames remain, the next frame's bytes still fit in the data region. */
  lemma FrameFits(nc: nat, n: nat, start: nat, p: nat)
    requires start <= p < n
    ensures 2 * nc * (p - start) + 2 * nc == 2 * nc * (p + 1 - start)
    ensures HeaderSize + 2 * nc * (p - start) + 2 * nc <= n * nc * 2 + HeaderSize
  {
    MulLeq(2 * nc, p + 1 - start, n);
    assert 2 * nc * (p - start) + 2 * nc == 2 * nc * (p + 1 - start);
    assert 2 * nc * n == n * nc * 2;
  }

  /** The header of a buffer whose file is `length` bytes long. */
  lemma HeaderOfLength(b: AudioBuffer, length: int)
    requires length == b.length * b.numberOfChannels * 2 + HeaderSize
    ensures Header(b) == RiffChunkHead(length) + FmtChunk(b.numberOfChannels, b.sampleRate)
      + DataChunkHead(length - HeaderSize)
  {
  }

  /** The thirteen header writes, leaving the cursor at 44. */
  method WriteHeader(view: array<Byte>, buffer: AudioBuffer) returns (pos: nat)
    requires view.Length == buffer.length * buffer.numberOfChannels * 2 + HeaderSize
    modifies view
    ensures pos == HeaderSize
    ensures view[..HeaderSize] == Header(buffer)
    ensures forall k :: HeaderSize <= k < view.Length ==> view[k] == old(view[k])
  {
    var length := view.Length;
    pos := WriteRiffChunkHead(view, 0, length);
    ghost var riff := view[..pos];
    assert riff == RiffChunkHead(length);
    pos := WriteFmtChunk(view, pos, buffer.numberOfChannels, buffer.sampleRate);
    ghost var fmt := view[..pos];
    assert fmt == riff + FmtChunk(buffer.numberOfChannels, buffer.sampleRate);
    pos := WriteDataChunkHead(view, pos, length);
    HeaderOfLength(buffer, length);
    assert view[..pos] == RiffChunkHead(length) + FmtChunk(buffer.numberOfChannels, buffer.sampleRate)
      + DataChunkHead(length - HeaderSize);
  }

  /** The data loop: `pos` is the frame index, starting at `start`, and
      `offset` the byte position within the data region. */
  method WriteData(view: array<Byte>, buffer: AudioBuffer, channels: seq<seq<real>>, start: nat)
    returns (offset: nat)
    requires buffer.WellFormed() && channels == buffer.channels
    requires view.Length == buffer.length * buffer.numberOfChannels * 2 + HeaderSize
    requires forall k :: HeaderSize <= k < view.Length ==> view[k] == 0
    modifies view
    ensures HeaderSize + offset <= view.Length
    ensures view[..HeaderSize] == old(view[..HeaderSize])
    ensures view[HeaderSize .. HeaderSize + offset] == FramesBytes(buffer, FirstFrame(buffer, start), buffer.length)
    ensures forall k :: HeaderSize + offset <= k < view.Length ==> view[k] == 0
  {
    var pos := start;
    offset := 0;
    while pos < buffer.length
      invariant start <= pos
      invariant buffer.length < start ==> pos == start && offset == 0
      invariant start <= buffer.length ==> pos <= buffer.length
      invariant offset == 2 * buffer.numberOfChannels * (pos - start)
      invariant HeaderSize + offset <= view.Length
      invariant start <= buffer.length ==>
        view[HeaderSize .. HeaderSize + offset] == FramesBytes(buffer, start, pos)
      invariant view[..HeaderSize] == old(view[..HeaderSize])
      invariant forall k :: HeaderSize + offset <= k < view.Length ==> view[k] == 0
    {
      assert start <= buffer.length;
      FrameFits(buffer.numberOfChannels, buffer.length, start, pos);
      ghost var head := view[..HeaderSize];
      ghost var before := view[HeaderSize .. HeaderSize + offset];
      var next := WriteFrame(view, buffer, channels, pos, offset);
      assert view[..HeaderSize] == head;
      assert view[HeaderSize .. HeaderSize + offset] == before;
      ExtendFrames(view, buffer, start, pos, offset, next);
      offset := next;
      pos := pos + 1;
    }
  }

  /** `channels.push(buffer.getChannelData(i))` for every channel. */
  method ChannelData(buffer: AudioBuffer) returns (channels: seq<seq<real>>)
    requires buffer.WellFormed()
    ensures channels == buffer.channels
  {
    channels := [];
    for i := 0 to buffer.numberOfChannels
      invariant channels == buffer.channels[..i]
    {
      channels := channels + [buffer.channels[i]];
    }
  }

  /** An array holding the header, then the frames from 44 on, then
      zeros up to the file length, is the file `WavFile` describes. */
  lemma WavFileFromParts(b: AudioBuffer, view: array<Byte>, offset: nat)
    requires b.WellFormed() && view.Length == b.length * b.numberOfChannels * 2 + HeaderSize
    requires HeaderSize + offset <= view.Length
    requires view[..HeaderSize] == Header(b)
    requires view[HeaderSize .. HeaderSize + offset] == FramesBytes(b, FirstFrame(b, HeaderSize), b.length)
    requires forall k :: HeaderSize + offset <= k < view.Length ==> view[k] == 0
    ensures view[..] == WavFile(b)
  {
    var w := view[..];
    assert w[..HeaderSize] == view[..HeaderSize];
    assert w[HeaderSize .. HeaderSize + offset] == view[HeaderSize .. HeaderSize + offset];
    FrameCountSplit(b.numberOfChannels, b.length, Skipped(b));
    assert w[HeaderSize + offset ..] == Zeros(2 * b.numberOfChannels * Skipped(b));
    assert w == w[..HeaderSize] + w[HeaderSize .. HeaderSize + offset] + w[HeaderSize + offset ..];
  }

  /** The header followed by every frame in order is the corrected file. */
  lemma IntendedWavFileFromParts(b: AudioBuffer, view: array<Byte>, offset: nat)
    requires b.WellFormed() && view.Length == b.length * b.numberOfChannels * 2 + HeaderSize
    requires HeaderSize + offset <= view.Length
    requires view[..HeaderSize] == Header(b)
    requires view[HeaderSize .. HeaderSize + offset] == FramesBytes(b, 0, b.length)
    ensures view[..] == IntendedWavFile(b)
  {
    var w := view[..];
    assert w[..HeaderSize] == view[..HeaderSize];
    assert w[HeaderSize .. HeaderSize + offset] == view[HeaderSize .. HeaderSize + offset];
    FrameCountSplit(b.numberOfChannels, b.length, 0);
    assert w == w[..HeaderSize] + w[HeaderSize .. HeaderSize + offset];
  }

  /** `bufferToWav`: a zero-filled buffer, the header through the moving
      cursor `pos`, then the interleaved samples at `44 + offset` while
      `pos` (still 44 after the header) runs up to the frame count. */
  method BufferToWav(buffer: AudioBuffer) returns (bufferOut: array<Byte>)
    requires buffer.WellFormed()
    ensures fresh(bufferOut)
    ensures bufferOut[..] == WavFile(buffer)
  {
    var numOfChan := buffer.numberOfChannels;
    var length := buffer.length * numOfChan * 2 + HeaderSize;
    bufferOut := new Byte[length](_ => 0);
    assert forall k :: 0 <= k < bufferOut.Length ==> bufferOut[k] == 0;
    var pos := WriteHeader(bufferOut, buffer);
    assert forall k :: HeaderSize <= k < bufferOut.Length ==> bufferOut[k] == 0;
    var channels := ChannelData(buffer);
    var offset := WriteData(bufferOut, buffer, channels, pos);
    WavFileFromParts(buffer, bufferOut, offset);
  }

  /** The corrected encoder: as `BufferToWav`, but with the frame index
      reset to 0 before the data loop. */
  method CorrectedBufferToWav(buffer: AudioBuffer) returns (bufferOut: array<Byte>)
    requires buffer.WellFormed()
    ensures fresh(bufferOut)
    ensures bufferOut[..] == IntendedWavFile(buffer)
  {
    var numOfChan := buffer.numberOfChannels;
    var length := buffer.length * numOfChan * 2 + HeaderSize;
    bufferOut := new Byte[length](_ => 0);
    assert forall k :: 0 <= k < bufferOut.Length ==> bufferOut[k] == 0;
    var _ := WriteHeader(bufferOut, buffer);
    assert forall k :: HeaderSize <= k < bufferOut.Length ==> bufferOut[k] == 0;
    var channels := ChannelData(buffer);
    var offset := WriteData(bufferOut, buffer, channels, 0);
    assert FirstFrame(buffer, 0) == 0;
    IntendedWavFileFromParts(buffer, bufferOut, offset);
  }
}
