/** Decoding of raw 16-bit little-endian PCM into a normalised sample buffer
    (`decodeAudioData` in components/VoiceStudio.tsx). */
module Pcm {
  import opened Results

  /** One byte of an `ArrayBuffer`. */
  type Byte = x: int | 0 <= x < 256

  predicate IsInt16(n: int) {
    -32768 <= n < 32768
  }

  /** The signed 16-bit integer stored little-endian, two's complement, at
      bytes k and k + 1 (what an `Int16Array` element or `DataView.getInt16(k, true)` reads). */
  function ReadInt16Le(bytes: seq<Byte>, k: nat): (n: int)
    requires k + 1 < |bytes|
    ensures IsInt16(n)
    ensures n % 0x1_0000 == bytes[k] as int + 256 * bytes[k + 1] as int
  {
    var u := bytes[k] as int + 256 * bytes[k + 1] as int;
    if u < 32768 then u else u - 0x1_0000
  }

  /** The view `new Int16Array(data.buffer)`: consecutive byte pairs read as int16.
      Only defined for an even byte length; for an odd one the constructor throws. */
  function Int16Samples(data: seq<Byte>): (samples: seq<int>)
    requires |data| % 2 == 0
    ensures |samples| == |data| / 2
    ensures forall k :: 0 <= k < |samples| ==> IsInt16(samples[k])
    decreases |data|
  {
    if data == [] then [] else [ReadInt16Le(data, 0)] + Int16Samples(data[2..])
  }

  lemma {:induction false} Int16SamplesAt(data: seq<Byte>, k: nat)
    requires |data| % 2 == 0 && k < |data| / 2
    ensures Int16Samples(data)[k] == ReadInt16Le(data, 2 * k)
    decreases k
  {
    if k > 0 {
      Int16SamplesAt(data[2..], k - 1);
    }
  }

  /** The samples of one channel of interleaved data: every numChannels-th
      element starting at index channel, one per whole frame. */
  function Deinterleave(s: seq<int>, numChannels: nat, channel: nat): (r: seq<int>)
    requires channel < numChannels
    ensures |r| == |s| / numChannels
    decreases |s|
  {
    if |s| < numChannels then []
    else
      var rest := s[numChannels..];
      assert |rest| / numChannels == |s| / numChannels - 1 by {
        DivDecrement(|s|, numChannels);
      }
      [s[channel]] + Deinterleave(rest, numChannels, channel)
  }

  lemma DivDecrement(n: nat, d: nat)
    requires 0 < d <= n
    ensures (n - d) / d == n / d - 1
  {
    var q, r := n / d, n % d;
    var q', r' := (n - d) / d, (n - d) % d;
    assert d * q + r == n;
    assert d * q' + r' == n - d;
    var x := q - 1 - q';
    assert d * x == d * q - d - d * q';
    assert d * x == r' - r;
    MulAwayFromZero(d, x);
  }

  lemma {:induction false} MulAwayFromZero(d: nat, x: int)
    ensures x >= 1 ==> d * x >= d
    ensures x <= -1 ==> d * x + d <= 0
    decreases if x < 0 then -x else x
  {
    if x > 1 {
      MulAwayFromZero(d, x - 1);
      assert d * x == d * (x - 1) + d;
    } else if x < -1 {
      MulAwayFromZero(d, x + 1);
      assert d * x == d * (x + 1) - d;
    }
  }

  /** Frame i of a channel of n interleaved samples lies inside the interleaved data. */
  lemma FrameIndexBound(i: nat, c: nat, numChannels: nat, n: nat)
    requires c < numChannels && i < n / numChannels
    ensures i * numChannels + c < n
  {
    var q := n / numChannels;
    assert q * numChannels <= n by {
      assert n == q * numChannels + n % numChannels;
    }
    assert (i + 1) * numChannels <= q * numChannels by {
      MulLeq(numChannels, i + 1, q);
    }
    assert (i + 1) * numChannels == i * numChannels + numChannels;
  }

  lemma MulLeq(d: nat, x: nat, y: nat)
    requires x <= y
    ensures x * d <= y * d
  {
    assert y * d == x * d + (y - x) * d;
  }

  lemma NextFrameIndex(i: nat, numChannels: nat, channel: nat)
    ensures i * numChannels + channel + numChannels == (i + 1) * numChannels + channel
  {
  }

  lemma {:induction false} DeinterleaveAt(s: seq<int>, numChannels: nat, channel: nat, i: nat)
    requires channel < numChannels && i < |s| / numChannels
    ensures i * numChannels + channel < |s|
    ensures Deinterleave(s, numChannels, channel)[i] == s[i * numChannels + channel]
    decreases i
  {
    FrameIndexBound(i, channel, numChannels, |s|);
    if i > 0 {
      var rest := s[numChannels..];
      DivDecrement(|s|, numChannels);
      DeinterleaveAt(rest, numChannels, channel, i - 1);
      var m := (i - 1) * numChannels + channel;
      NextFrameIndex(i - 1, numChannels, channel);
      assert Deinterleave(s, numChannels, channel)[i] == Deinterleave(rest, numChannels, channel)[i - 1];
      assert rest[m] == s[m + numChannels];
    }
  }

  /** Division of every int16 sample by 32768 (`channelData[i] = sample / 32768.0`). */
  function Normalized(samples: seq<int>): (r: seq<real>)
    ensures |r| == |samples|
    ensures forall i :: 0 <= i < |r| ==> r[i] * 32768.0 == samples[i] as real
  {
    seq(|samples|, i requires 0 <= i < |samples| => samples[i] as real / 32768.0)
  }

  /** An `AudioBuffer`: per-channel sample arrays with their shared length and rate. */
  datatype AudioBuffer = AudioBuffer(numberOfChannels: nat, length: nat, sampleRate: int, channels: seq<seq<real>>)
  {
    /** What every `AudioBuffer` guarantees: one array per channel, each `length` frames long. */
    predicate WellFormed() {
      |channels| == numberOfChannels &&
      forall c :: 0 <= c < |channels| ==> |channels[c]| == length
    }
  }

  datatype DecodeError =
    | OddByteLength   // `new Int16Array(buffer)` throws a RangeError
    | BufferRejected  // `createBuffer` throws a NotSupportedError

  /** The arguments for which `AudioContext.createBuffer` returns a buffer
      instead of throwing: at least one channel, at least one frame, and a
      sample rate in the nominal range [3000, 768000]. */
  predicate CreateBufferAccepts(numberOfChannels: nat, length: nat, sampleRate: int) {
    numberOfChannels >= 1 && length >= 1 && 3000 <= sampleRate <= 768000
  }

  /** Where `decodeAudioData` throws, and what it returns otherwise. */
  function Decode(data: seq<Byte>, sampleRate: int, numChannels: nat): (r: Result<AudioBuffer, DecodeError>)
    ensures r.Ok? <==>
      |data| % 2 == 0 && numChannels >= 1 && CreateBufferAccepts(numChannels, |data| / 2 / numChannels, sampleRate)
    ensures r.Err? ==> (r.error == OddByteLength <==> |data| % 2 != 0)
    ensures r.Ok? ==>
      r.value.WellFormed() && r.value.numberOfChannels == numChannels &&
      r.value.length == |data| / 2 / numChannels && r.value.sampleRate == sampleRate
  {
    if |data| % 2 != 0 then Err(OddByteLength)
    else if numChannels == 0 || !CreateBufferAccepts(numChannels, |data| / 2 / numChannels, sampleRate) then
      Err(BufferRejected)
    else
      var samples := Int16Samples(data);
      Ok(AudioBuffer(numChannels, |samples| / numChannels, sampleRate,
        seq(numChannels, c requires 0 <= c < numChannels => Normalized(Deinterleave(samples, numChannels, c)))))
  }

  /** No PCM at all is not a zero-frame buffer: `createBuffer` rejects a
      length of 0, whatever the rate and channel count. */
  lemma EmptyPcmRejected(sampleRate: int, numChannels: nat)
    ensures Decode([], sampleRate, numChannels) == Err(BufferRejected)
  {
  }

  /** The byte offset of sample c of frame i in interleaved 16-bit data. */
  function SampleOffset(numChannels: nat, i: nat, c: nat): nat {
    2 * (i * numChannels + c)
  }

  /** Sample i of channel c is the int16 at interleaved position i * numChannels + c, over 32768. */
  lemma DecodeSampleAt(data: seq<Byte>, sampleRate: int, numChannels: nat, c: nat, i: nat)
    requires Decode(data, sampleRate, numChannels).Ok?
    requires c < numChannels && i < Decode(data, sampleRate, numChannels).value.length
    ensures SampleOffset(numChannels, i, c) + 1 < |data|
    ensures Decode(data, sampleRate, numChannels).value.channels[c][i]
         == ReadInt16Le(data, SampleOffset(numChannels, i, c)) as real / 32768.0
  {
    var samples := Int16Samples(data);
    DeinterleaveAt(samples, numChannels, c, i);
    Int16SamplesAt(data, i * numChannels + c);
  }

  /** Every decoded value lies in [-1, 1). */
  lemma DecodedInRange(data: seq<Byte>, sampleRate: int, numChannels: nat, c: nat, i: nat)
    requires Decode(data, sampleRate, numChannels).Ok?
    requires c < numChannels && i < Decode(data, sampleRate, numChannels).value.length
    ensures -1.0 <= Decode(data, sampleRate, numChannels).value.channels[c][i] < 1.0
  {
    DecodeSampleAt(data, sampleRate, numChannels, c, i);
  }

  /** `decodeAudioData`: fills one array per channel with nested loops. */
  method DecodeAudioData(data: seq<Byte>, sampleRate: int, numChannels: nat) returns (r: Result<AudioBuffer, DecodeError>)
    ensures r == Decode(data, sampleRate, numChannels)
  {
    if |data| % 2 != 0 {
      return Err(OddByteLength);
    }
    var dataInt16 := Int16Samples(data);
    if numChannels == 0 {
      return Err(BufferRejected);
    }
    var frameCount := |dataInt16| / numChannels;
    if !CreateBufferAccepts(numChannels, frameCount, sampleRate) {
      return Err(BufferRejected);
    }
    var channels: seq<seq<real>> := [];
    for channel := 0 to numChannels
      invariant |channels| == channel
      invariant forall c :: 0 <= c < channel ==> channels[c] == Normalized(Deinterleave(dataInt16, numChannels, c))
    {
      var channelData := new real[frameCount](_ => 0.0);
      for i := 0 to frameCount
        invariant forall j :: 0 <= j < i ==>
          channelData[j] == Deinterleave(dataInt16, numChannels, channel)[j] as real / 32768.0
      {
        DeinterleaveAt(dataInt16, numChannels, channel, i);
        channelData[i] := dataInt16[i * numChannels + channel] as real / 32768.0;
      }
      ghost var expected := Normalized(Deinterleave(dataInt16, numChannels, channel));
      assert |channelData[..]| == |expected|;
      assert forall j :: 0 <= j < frameCount ==> channelData[..][j] == expected[j];
      channels := channels + [channelData[..]];
    }
    ghost var spec := seq(numChannels, c requires 0 <= c < numChannels => Normalized(Deinterleave(dataInt16, numChannels, c)));
    assert channels == spec;
    r := Ok(AudioBuffer(numChannels, frameCount, sampleRate, channels));
  }
}
