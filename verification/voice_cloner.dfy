/**
 * The `VoiceCloner` page component of `VoiceCloner.tsx`: the text to speak,
 * the generated audio, the generating flag and the error line, on top of
 * the recorder hook; starting a recording, generating a voice from the
 * recording and the text, and what the page derives for its button and its
 * player title.
 */
module VoiceCloner {
  import opened Wrappers
  import opened JsText
  import opened Bytes
  import opened Http
  import opened TtsApi
  import opened UseRecorder

  const NoRecordingMessage := "请先录制音色样本"
  const EmptyTextMessage := "请输入要生成的文本"
  const GenerationFailed := "生成语音时发生未知错误"
  const DefaultTitle := "生成的语音"

  /** The player title: the first 20 characters, marked with "..." when cut; the default title for no text. */
  function Title(text: string): (t: string)
    ensures text == [] ==> t == DefaultTitle
    ensures text != [] && |text| <= 20 ==> t == text
    ensures |text| > 20 ==> |t| == 23 && t[..20] == text[..20] && t[20..] == "..."
  {
    if text == [] then DefaultTitle
    else Prefix(text, 20) + (if |text| > 20 then "..." else "")
  }

  /** Trimming in the page changes nothing `generateVoice` sends: it trims again, to the same text. */
  lemma SentTextIsTrimmed(cfg: ApiConfig, referenceAudioBase64: string, text: string)
    requires cfg.spaceUrl.Some? && cfg.apiName.Some? && cfg.token.Some?
    ensures ApiCall(cfg, referenceAudioBase64, Trim(text)) == ApiCall(cfg, referenceAudioBase64, text)
  {
    TrimTwice(text);
  }

  /** The generate button is never enabled while the recorder is idle: it needs a recorded blob. */
  lemma EnabledNotIdle(c: Cloner)
    requires c.CanGenerate()
    ensures c.recorder.GetRecordingStatus() != Idle
  {
  }

  /** What `generateVoice` answers for the recording's data URL and the trimmed text. */
  function Generation(cfg: ApiConfig, text: string, dataUrl: string, platform: Platform, script: seq<Outcome>)
    : (Result<Blob, TtsApiError>, seq<Call>)
  {
    GenerateSpec(cfg, Trim(text), BlobToBase64(dataUrl).GetOr(""), platform, script)
  }

  /** The awaited `blobToBase64` and `generateVoice` of `handleGenerateVoice`. */
  method RequestVoice(cfg: ApiConfig, text: string, dataUrl: string, platform: Platform, script: seq<Outcome>)
    returns (result: Result<Blob, TtsApiError>, calls: seq<Call>)
    ensures (result, calls) == Generation(cfg, text, dataUrl, platform, script)
    ensures |calls| <= 1
    ensures calls != [] ==> calls[0] == ApiCall(cfg, BlobToBase64(dataUrl).GetOr(""), Trim(text))
    ensures BlobToBase64(dataUrl).GetOr("") == "" ==> calls == [] && result.Err?
  {
    var audioBase64 := BlobToBase64(dataUrl).GetOr("");
    result, calls := GenerateVoice(cfg, Trim(text), audioBase64, platform, script);
  }

  /**
   * What the page shows after `generateVoice` answered `result`: the new
   * audio and no error, or the earlier audio and the error's message.
   */
  predicate Shown(result: Result<Blob, TtsApiError>, before: Option<Blob>, audio: Option<Blob>, error: Option<string>) {
    && (result.Ok? ==> audio == Some(result.value) && error == None)
    && (result.Err? ==> audio == before && error == Some(result.error.message))
  }

  /** `VoiceCloner`: its own state and the recorder hook it uses. */
  class Cloner {
    var text: string
    var generatedAudio: Option<Blob>
    var isGenerating: bool
    var error: Option<string>
    const recorder: Recorder

    /** Between handlers: nothing is being generated and the recorder is consistent. */
    predicate Valid()
      reads this, recorder
    {
      !isGenerating && recorder.Valid()
    }

    constructor ()
      ensures Valid() && fresh(recorder)
      ensures text == "" && generatedAudio == None && error == None
      ensures recorder.GetRecordingStatus() == Idle
    {
      text := "";
      generatedAudio := None;
      isGenerating := false;
      error := None;
      recorder := new Recorder();
    }

    /** `canGenerate`: a recording, some non-blank text, and no generation under way. */
    predicate CanGenerate()
      reads this, recorder
    {
      recorder.state.recordedBlob.Some? && Trim(text) != "" && !isGenerating
    }

    /** `handleTextChange`: the new text, and the error line cleared. */
    method HandleTextChange(value: string)
      requires Valid()
      modifies this
      ensures Valid()
      ensures text == value && error == None
      ensures generatedAudio == old(generatedAudio) && isGenerating == old(isGenerating)
    {
      text := value;
      error := None;
    }

    /**
     * `handleStartRecording`: an earlier recording is cleared, a new one is
     * started, and the generated audio and the error line are cleared.
     */
    method HandleStartRecording(outcome: StartOutcome, opusSupported: bool, now: int)
      requires Valid()
      modifies this, recorder
      ensures Valid()
      ensures generatedAudio == None && error == None && text == old(text)
      ensures recorder.state.recordedBlob == None
      ensures outcome.Started? ==> recorder.GetRecordingStatus() == Recording
      ensures !outcome.Started? ==> recorder.GetRecordingStatus() == Error
    {
      if recorder.state.recordedBlob.Some? {
        recorder.ClearRecording();
      }
      recorder.StartRecording(outcome, opusSupported, now);
      generatedAudio := None;
      error := None;
    }

    /**
     * `handleGenerateVoice`, the recording read as the data URL `dataUrl`
     * (`None` when the reader fails) and the request answered by `script`:
     * a missing recording is reported before blank text, and neither makes
     * a request; otherwise the trimmed text and the recording's base64 go
     * to `generateVoice`, whose audio is kept or whose message is shown.
     */
    method HandleGenerateVoice(cfg: ApiConfig, platform: Platform, script: seq<Outcome>, dataUrl: Option<string>)
      returns (calls: seq<Call>)
      requires Valid()
      modifies this
      ensures Valid()
      ensures text == old(text)
      ensures !old(CanGenerate()) ==> calls == [] && generatedAudio == old(generatedAudio)
      ensures old(recorder.state.recordedBlob).None? ==> error == Some(NoRecordingMessage)
      ensures old(recorder.state.recordedBlob).Some? && Trim(text) == "" ==> error == Some(EmptyTextMessage)
      ensures old(CanGenerate()) && dataUrl.None? ==>
        calls == [] && error == Some(GenerationFailed) && generatedAudio == old(generatedAudio)
      ensures old(CanGenerate()) && dataUrl.Some? ==>
        var spec := Generation(cfg, old(text), dataUrl.value, platform, script);
        calls == spec.1 && Shown(spec.0, old(generatedAudio), generatedAudio, error)
    {
      error := None;
      calls := [];
      if recorder.state.recordedBlob.None? {
        error := Some(NoRecordingMessage);
        return;
      }
      if Trim(text) == "" {
        error := Some(EmptyTextMessage);
        return;
      }
      isGenerating := true;
      if dataUrl.None? {
        isGenerating := false;
        error := Some(GenerationFailed);
        return;
      }
      ghost var audio0 := generatedAudio;
      assert audio0 == old(generatedAudio) && text == old(text);
      ghost var spec := Generation(cfg, old(text), dataUrl.value, platform, script);
      var result;
      result, calls := RequestVoice(cfg, text, dataUrl.value, platform, script);
      assert result == spec.0 && calls == spec.1;
      Settle(result);
      assert Shown(result, audio0, generatedAudio, error);
      assert Shown(spec.0, audio0, generatedAudio, error);
    }

    /** The end of a generation: the audio is kept, or its message shown; generating is over. */
    method Settle(result: Result<Blob, TtsApiError>)
      requires recorder.Valid() && error == None
      modifies this
      ensures Valid() && text == old(text)
      ensures Shown(result, old(generatedAudio), generatedAudio, error)
    {
      isGenerating := false;
      if result.Ok? {
        generatedAudio := Some(result.value);
      } else {
        error := Some(result.error.message);
      }
    }
  }
}
