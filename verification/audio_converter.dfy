/**
 * `AudioConverter` in `audio-converter.ts`: its `audioBufferToWav` writes at
 * most two channels at a declared rate (the buffer's own when none is
 * given), `convertToWav` wraps the result in an `audio/wav` blob with
 * 44100 Hz as its default rate, and `getBestSupportedFormat` picks the first
 * recorder format the browser supports from a fixed preference list.
 */
module AudioConverter {
  import opened Wrappers
  import opened Bytes
  import opened Http
  import opened Wav

  /** `Math.min(buffer.numberOfChannels, 2)`. */
  function StereoCap(n: nat): (c: nat)
    ensures c <= 2 && c <= n
    ensures c == n || c == 2
  {
    if n < 2 then n else 2
  }

  /** `sampleRate || buffer.sampleRate`: an absent or zero rate falls back to the buffer's. */
  function TargetRate(sampleRate: Option<nat>, b: AudioBuffer): (rate: nat)
    ensures sampleRate.Some? && sampleRate.value != 0 ==> rate == sampleRate.value
    ensures sampleRate.None? || sampleRate.value == 0 ==> rate == b.sampleRate
  {
    if sampleRate.Some? && sampleRate.value != 0 then sampleRate.value else b.sampleRate
  }

  /** The bytes the converter's `audioBufferToWav` produces. */
  function ConvertedFile(b: AudioBuffer, sampleRate: Option<nat>): seq<byte>
    requires WellFormed(b)
  {
    WavFile(b, StereoCap(|b.channelData|), TargetRate(sampleRate, b))
  }

  /** `AudioConverter.audioBufferToWav(buffer, sampleRate?)`. */
  method AudioBufferToWav(buffer: AudioBuffer, sampleRate: Option<nat>) returns (wav: array<byte>)
    requires WellFormed(buffer)
    ensures wav[..] == ConvertedFile(buffer, sampleRate)
  {
    var targetSampleRate := if sampleRate.Some? && sampleRate.value != 0 then sampleRate.value else buffer.sampleRate;
    var numberOfChannels := if |buffer.channelData| < 2 then |buffer.channelData| else 2;
    wav := EncodeWav(buffer, numberOfChannels, targetSampleRate);
  }

  /**
   * `AudioConverter.convertToWav(audioBlob, sampleRate = 44100)`: the decoded
   * buffer (or the error decoding rejected with, passed on unchanged)
   * encoded as an `audio/wav` blob.
   */
  method ConvertToWav(decoded: Result<AudioBuffer, JsError>, sampleRate: Option<nat>) returns (r: Result<Blob, JsError>)
    requires decoded.Ok? ==> WellFormed(decoded.value)
    ensures decoded.Err? ==> r == Err(decoded.error)
    ensures decoded.Ok? ==>
      (r.Ok? && r.value.mimeType == "audio/wav"
       && r.value.bytes == ConvertedFile(decoded.value, Some(sampleRate.GetOr(44100))))
  {
    var rate := if sampleRate.Some? then sampleRate.value else 44100;
    match decoded
    case Err(e) => r := Err(e);
    case Ok(audioBuffer) =>
      var wavBuffer := AudioBufferToWav(audioBuffer, Some(rate));
      r := Ok(Blob(wavBuffer[..], "audio/wav"));
  }

  /**
   * The header of a converted file declares at most two channels and the
   * target rate, and states the true number of data bytes.
   */
  lemma ConvertedHeader(b: AudioBuffer, sampleRate: Option<nat>)
    requires WellFormed(b)
    requires TargetRate(sampleRate, b) < Two32
    ensures var f := ConvertedFile(b, sampleRate); var channels := StereoCap(|b.channelData|);
      && 1 <= ReadU16LE(f, 22) <= 2
      && ReadU16LE(f, 22) == channels
      && ReadU32LE(f, 24) == TargetRate(sampleRate, b)
      && |f| == 44 + b.length * channels * 2
  {
    var channels := StereoCap(|b.channelData|);
    var rate := TargetRate(sampleRate, b);
    WavHeader(b, channels, rate);
    BelowModulus(channels, Two16);
    BelowModulus(rate, Two32);
  }

  lemma BelowModulus(x: nat, m: nat)
    requires x < m
    ensures x % m == x
  {
  }

  /** Without a rate, `convertToWav` declares 44100 Hz whatever the buffer's own rate. */
  lemma DefaultRate(b: AudioBuffer)
    requires WellFormed(b)
    ensures ReadU32LE(ConvertedFile(b, Some(44100)), 24) == 44100
  {
    WavHeader(b, StereoCap(|b.channelData|), 44100);
  }

  /** Channels past the second are never read: buffers that agree on the first two convert identically. */
  lemma ExtraChannelsIgnored(b1: AudioBuffer, b2: AudioBuffer, sampleRate: Option<nat>)
    requires WellFormed(b1) && WellFormed(b2)
    requires |b1.channelData| >= 2 && |b2.channelData| >= 2
    requires b1.length == b2.length && b1.sampleRate == b2.sampleRate
    requires b1.channelData[..2] == b2.channelData[..2]
    ensures ConvertedFile(b1, sampleRate) == ConvertedFile(b2, sampleRate)
  {
    OnlyLeadingChannelsRead(b1, b2, 2, TargetRate(sampleRate, b1));
  }

  // ---------------------------------------------------------------------------
  // getBestSupportedFormat
  // ---------------------------------------------------------------------------

  /** The recorder formats, most preferred first. */
  const Formats: seq<string> := [
    "audio/wav",
    "audio/webm;codecs=pcm",
    "audio/webm;codecs=opus",
    "audio/webm",
    "audio/mp4",
    "audio/mpeg"
  ]

  const Fallback := "audio/webm"

  /**
   * `getBestSupportedFormat()`, given `MediaRecorder.isTypeSupported`: the
   * first supported format of the list, or `audio/webm` when none is.
   */
  method GetBestSupportedFormat(isSupported: string -> bool) returns (format: string)
    ensures format in Formats
    ensures (exists i :: 0 <= i < |Formats| && isSupported(Formats[i])) ==>
      exists i :: 0 <= i < |Formats| && format == Formats[i] && isSupported(format)
                  && forall j :: 0 <= j < i ==> !isSupported(Formats[j])
    ensures (forall i :: 0 <= i < |Formats| ==> !isSupported(Formats[i])) ==> format == Fallback
  {
    for k := 0 to |Formats|
      invariant forall j :: 0 <= j < k ==> !isSupported(Formats[j])
    {
      if isSupported(Formats[k]) {
        return Formats[k];
      }
    }
    format := Fallback;
    assert format == Formats[3];
  }
}
