/**
 * The audio briefing client's work after the speech-synthesis call returns
 * (generateAudioBriefing, base64ToUint8 and decodeAudioData in
 * services/geminiService.ts): base64 text to bytes, bytes to 16-bit
 * little-endian PCM samples, samples to normalised per-channel audio data.
 *
 * `atob` is the parameter of that name (`None` stands for the DOMException it
 * throws on malformed input). An AudioBuffer is modelled by its sample rate and
 * a channels-by-frames array of reals.
 */
module AudioClient {
  import opened Wrappers

  newtype byte = x: int | 0 <= x < 256

  /** The rate the speech model produces and the client asks for. */
  const BriefingSampleRate: int := 24000
  /**
   * The argument ranges taken for createBuffer: 1 to 32 channels (every
   * implementation supports at least 32) and rates 3000 to 768000 (one
   * engine's range; the Web Audio API only requires 8000 to 96000).
   */
  const MaxChannels: int := 32
  const MinSampleRate: int := 3000
  const MaxSampleRate: int := 768000

  /** The exceptions decodeAudioData can raise. */
  datatype AudioError =
    | RangeError         // `new Int16Array(buffer)` on an odd number of bytes
    | NotSupportedError  // `createBuffer` with an argument outside its nominal range

  /** An AudioBuffer: `channelData[c, i]` is `getChannelData(c)[i]`. */
  class AudioBuffer {
    const sampleRate: int
    const channelData: array2<real>

    /** `ctx.createBuffer(numberOfChannels, length, sampleRate)`: a silent buffer. */
    constructor (numberOfChannels: nat, length: nat, sampleRate: int)
      ensures this.sampleRate == sampleRate
      ensures fresh(channelData)
      ensures channelData.Length0 == numberOfChannels && channelData.Length1 == length
      ensures forall c, i :: 0 <= c < numberOfChannels && 0 <= i < length ==> channelData[c, i] == 0.0
    {
      this.sampleRate := sampleRate;
      channelData := new real[numberOfChannels, length]((c, i) => 0.0);
    }
  }

  /** The bytes `binary.charCodeAt(i)` stores into a Uint8Array: each code modulo 256. */
  function BinaryBytes(binary: string): (b: seq<byte>)
    ensures |b| == |binary|
    ensures forall i :: 0 <= i < |b| ==> b[i] as int == binary[i] as int % 256
  {
    seq(|binary|, i requires 0 <= i < |binary| => (binary[i] as int % 256) as byte)
  }

  /**
   * The `k`-th element of `new Int16Array(data.buffer)`: the two's-complement
   * value of the little-endian byte pair at `2k`, `2k + 1`.
   */
  function Int16At(data: seq<byte>, k: nat): (s: int)
    requires 2 * k + 1 < |data|
    ensures -32768 <= s < 32768
    ensures s % 65536 == data[2 * k] as int + 256 * data[2 * k + 1] as int
  {
    var u := data[2 * k] as int + 256 * data[2 * k + 1] as int;
    if u >= 32768 then u - 65536 else u
  }

  /** `s / 32768.0`: a 16-bit sample scaled into [-1, 1), exactly invertible. */
  function Normalize(s: int): (x: real)
    requires -32768 <= s < 32768
    ensures -1.0 <= x < 1.0
    ensures x * 32768.0 == s as real
    ensures (x == 0.0) == (s == 0)
  {
    s as real / 32768.0
  }

  /** The two little-endian bytes of the 16-bit two's-complement form of `s`. */
  function EncodeInt16(s: int): (b: seq<byte>)
    requires -32768 <= s < 32768
    ensures |b| == 2
  {
    var u := s % 65536;
    [(u % 256) as byte, (u / 256) as byte]
  }

  /** A sequence of 16-bit samples as little-endian PCM bytes. */
  function EncodePcm16(samples: seq<int>): (b: seq<byte>)
    requires forall k :: 0 <= k < |samples| ==> -32768 <= samples[k] < 32768
    ensures |b| == 2 * |samples|
  {
    if samples == [] then [] else EncodeInt16(samples[0]) + EncodePcm16(samples[1..])
  }

  /** Reading back the two bytes a sample was written as gives the sample. */
  lemma Int16RoundTrip(s: int)
    requires -32768 <= s < 32768
    ensures Int16At(EncodeInt16(s), 0) == s
  {
    var u := s % 65536;
    assert u == if s < 0 then s + 65536 else s;
    assert (u % 256) + 256 * (u / 256) == u;
  }

  /** Decoding PCM bytes recovers every sample they were encoded from. */
  lemma {:induction false} DecodeEncodedPcm(samples: seq<int>, k: nat)
    requires forall j :: 0 <= j < |samples| ==> -32768 <= samples[j] < 32768
    requires k < |samples|
    ensures Int16At(EncodePcm16(samples), k) == samples[k]
  {
    var b := EncodePcm16(samples);
    if k == 0 {
      Int16RoundTrip(samples[0]);
      assert b[..2] == EncodeInt16(samples[0]);
    } else {
      DecodeEncodedPcm(samples[1..], k - 1);
      assert b[2..] == EncodePcm16(samples[1..]);
      assert b[2 * k] == b[2..][2 * (k - 1)] && b[2 * k + 1] == b[2..][2 * (k - 1) + 1];
    }
  }

  /** Bytes that are all zero decode to silence. */
  lemma SilenceDecodesToSilence(data: seq<byte>, k: nat)
    requires forall j :: 0 <= j < |data| ==> data[j] == 0
    requires 2 * k + 1 < |data|
    ensures Normalize(Int16At(data, k)) == 0.0
  {
    assert data[2 * k] == 0 && data[2 * k + 1] == 0;
  }

  /**
   * base64ToUint8: `atob`, then each character code stored into a fresh
   * Uint8Array of the same length. A failing `atob` propagates.
   */
  method Base64ToUint8(base64: string, atob: string -> Option<string>) returns (r: Option<array<byte>>)
    ensures r.None? <==> atob(base64).None?
    ensures r.Some? ==> fresh(r.value) && r.value[..] == BinaryBytes(atob(base64).value)
  {
    var decoded := atob(base64);
    if decoded.None? {
      return None;
    }
    var binary := decoded.value;
    var bytes := new byte[|binary|];
    for i := 0 to |binary|
      invariant forall k :: 0 <= k < i ==> bytes[k] as int == binary[k] as int % 256
    {
      bytes[i] := (binary[i] as int % 256) as byte;
    }
    return Some(bytes);
  }

  /**
   * `frameCount` as createBuffer receives it: the number of 16-bit samples over
   * the number of channels, the fraction dropped by the conversion to an
   * unsigned long (and 0 for no channels, where JavaScript divides to Infinity).
   */
  function FrameCount(byteLength: nat, numChannels: int): nat {
    if numChannels <= 0 then 0 else (byteLength / 2) / numChannels
  }

  /** The arguments createBuffer accepts; any other throws NotSupportedError. */
  predicate CanCreateBuffer(numberOfChannels: int, length: int, sampleRate: int) {
    1 <= numberOfChannels <= MaxChannels && 1 <= length && MinSampleRate <= sampleRate <= MaxSampleRate
  }

  /** Frame `i` of channel `c` lies inside the sample sequence. */
  lemma FrameInRange(samples: nat, n: nat, i: nat, c: nat)
    requires 0 < n && c < n && i < samples / n
    ensures i * n + c < samples
  {
    var q := samples / n;
    assert i * n <= (q - 1) * n by {
      assert i <= q - 1;
    }
    assert q * n <= samples;
  }

  /**
   * Frame `i` of channel `c` in interleaved PCM with `n` channels: sample
   * `i * n + c`, normalised.
   */
  function InterleavedSample(data: seq<byte>, n: nat, c: nat, i: nat): (x: real)
    requires 0 < n && c < n && i < (|data| / 2) / n
    ensures -1.0 <= x < 1.0
  {
    FrameInRange(|data| / 2, n, i, c);
    Normalize(Int16At(data, i * n + c))
  }

  /**
   * decodeAudioData: read `data` as interleaved 16-bit samples and write
   * sample `i * numChannels + c`, divided by 32768, into frame `i` of channel
   * `c`. An odd byte count or arguments createBuffer refuses raise an error.
   */
  method DecodeAudioData(data: array<byte>, sampleRate: int, numChannels: int) returns (r: Result<AudioBuffer, AudioError>)
    ensures data.Length % 2 != 0 ==> r == Failure(RangeError)
    ensures data.Length % 2 == 0 && !CanCreateBuffer(numChannels, FrameCount(data.Length, numChannels), sampleRate) ==>
              r == Failure(NotSupportedError)
    ensures r.Success? <==> data.Length % 2 == 0 && CanCreateBuffer(numChannels, FrameCount(data.Length, numChannels), sampleRate)
    ensures r.Success? ==> fresh(r.value) && fresh(r.value.channelData) && r.value.sampleRate == sampleRate
    ensures r.Success? ==> r.value.channelData.Length0 == numChannels
                           && r.value.channelData.Length1 == FrameCount(data.Length, numChannels)
    ensures r.Success? ==> forall c, i :: 0 <= c < numChannels && 0 <= i < r.value.channelData.Length1 ==>
                             r.value.channelData[c, i] == InterleavedSample(data[..], numChannels, c, i)
  {
    if data.Length % 2 != 0 {
      return Failure(RangeError);
    }
    var frameCount := FrameCount(data.Length, numChannels);
    if !CanCreateBuffer(numChannels, frameCount, sampleRate) {
      return Failure(NotSupportedError);
    }
    var buffer := new AudioBuffer(numChannels, frameCount, sampleRate);
    var channelData := buffer.channelData;
    ghost var pcm := data[..];
    for channel := 0 to numChannels
      invariant forall c, i :: 0 <= c < channel && 0 <= i < frameCount ==>
                  channelData[c, i] == InterleavedSample(pcm, numChannels, c, i)
    {
      for i := 0 to frameCount
        invariant forall c, j :: 0 <= c < channel && 0 <= j < frameCount ==>
                    channelData[c, j] == InterleavedSample(pcm, numChannels, c, j)
        invariant forall j :: 0 <= j < i ==>
                    channelData[channel, j] == InterleavedSample(pcm, numChannels, channel, j)
      {
        FrameInRange(data.Length / 2, numChannels, i, channel);
        channelData[channel, i] := Normalize(Int16At(data[..], i * numChannels + channel));
      }
    }
    return Success(buffer);
  }

  /**
   * generateAudioBriefing from the moment the speech call returns: the base64
   * audio of the first part, if any, decoded as 24 kHz mono PCM. Every failure
   * (no payload, a throwing `atob`, an odd or empty byte count) gives `None`.
   */
  method GenerateAudioBriefing(payload: Option<string>, atob: string -> Option<string>) returns (r: Option<AudioBuffer>)
    ensures r.Some? <==> && payload.Some? && payload.value != ""
                         && atob(payload.value).Some?
                         && |atob(payload.value).value| % 2 == 0 && |atob(payload.value).value| >= 2
    ensures r.Some? ==>
              var pcm := BinaryBytes(atob(payload.value).value);
              && fresh(r.value) && fresh(r.value.channelData)
              && r.value.sampleRate == BriefingSampleRate
              && r.value.channelData.Length0 == 1 && r.value.channelData.Length1 == |pcm| / 2
              && forall i :: 0 <= i < |pcm| / 2 ==> r.value.channelData[0, i] == Normalize(Int16At(pcm, i))
  {
    if payload.None? || payload.value == "" {
      return None;
    }
    var bytes := Base64ToUint8(payload.value, atob);
    if bytes.None? {
      return None;
    }
    assert bytes.value.Length == |bytes.value[..]| == |atob(payload.value).value|;
    assert FrameCount(bytes.value.Length, 1) == bytes.value.Length / 2;
    var decoded := DecodeAudioData(bytes.value, BriefingSampleRate, 1);
    if decoded.Failure? {
      return None;
    }
    var buffer := decoded.value;
    forall i | 0 <= i < buffer.channelData.Length1
      ensures buffer.channelData[0, i] == Normalize(Int16At(bytes.value[..], i))
    {
      assert InterleavedSample(bytes.value[..], 1, 0, i) == Normalize(Int16At(bytes.value[..], i * 1 + 0));
    }
    return Some(buffer);
  }
}
