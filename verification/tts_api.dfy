/**
 * The browser-side client in `tts-api.ts`: `generateVoice` validates its
 * configuration and inputs, posts `{ inputs: { reference_audio, text } }`
 * to `${HF_SPACE_URL}${HF_API_NAME}`, maps failed statuses to messages,
 * turns the base64 audio of the reply into a `Blob`, and funnels every
 * error through one catch that keeps its own errors and maps the rest; and
 * its `audioBufferToWav`, which encodes every channel at the buffer's own
 * rate.
 */
module TtsApi {
  import opened Wrappers
  import opened JsText
  import opened JsonValue
  import opened Bytes
  import opened Http
  import opened Wav

  /** `NEXT_PUBLIC_HF_SPACE_URL`, `NEXT_PUBLIC_HF_API_NAME`, `HF_TOKEN`; `None` when unset. */
  datatype ApiConfig = ApiConfig(spaceUrl: Option<string>, apiName: Option<string>, token: Option<string>)

  /** `TTSApiError`: a message and, for failed responses, the HTTP status. */
  datatype TtsApiError = TtsApiError(message: string, status: Option<int>)

  /** What the body of the `try` can throw: one of its own errors, or any other JavaScript error. */
  datatype Thrown = ApiError(apiError: TtsApiError) | Other(jsError: JsError)

  const ConfigIncomplete := "TTS API 配置不完整"
  const EmptyText := "请输入要生成的文本"
  const NoRecording := "请先录制音色样本"
  const EmptyAudio := "API 返回的音频数据为空"
  const NetworkMessage := "网络连接失败，请检查网络连接"
  const UnknownMessage := "语音生成过程中发生未知错误"

  /** The message for a failed response, by status. */
  function ApiStatusMessage(status: int): string {
    match status
    case 401 => "API 认证失败，请检查令牌"
    case 429 => "API 调用频率过高，请稍后重试"
    case 500 => "服务器内部错误"
    case 503 => "TTS 服务暂时不可用"
    case _ => "语音生成失败"
  }

  /** The request body. */
  function RequestBody(referenceAudioBase64: string, text: string): Json {
    JObj(map["inputs" := JObj(map["reference_audio" := JStr(referenceAudioBase64), "text" := JStr(Trim(text))])])
  }

  function ApiCall(cfg: ApiConfig, referenceAudioBase64: string, text: string): Call
    requires cfg.spaceUrl.Some? && cfg.apiName.Some? && cfg.token.Some?
  {
    Call(POST, cfg.spaceUrl.value + cfg.apiName.value, Some(Bearer(cfg.token.value)),
         JsonBody(RequestBody(referenceAudioBase64, text)))
  }

  /** The TypeError Node throws for `result.audio` when the reply body is `null`. */
  const NullAudioRead := JsError("TypeError", "Cannot read properties of null (reading 'audio')")

  /** The `catch`: its own errors pass through unchanged, a fetch TypeError becomes the network message, anything else the generic one. */
  function Catch(t: Thrown): TtsApiError {
    match t
    case ApiError(e) => e
    case Other(e) =>
      if e.name == "TypeError" && Includes(e.message, "fetch") then TtsApiError(NetworkMessage, None)
      else TtsApiError(UnknownMessage, None)
  }

  /** The body of the `try`, given the one response. */
  function TryBody(platform: Platform, response: Outcome): Result<Blob, Thrown> {
    match response
    case Thrown(e) => Err(Other(e))
    case Response(status, _, body) =>
      if !(200 <= status <= 299) then Err(ApiError(TtsApiError(ApiStatusMessage(status), Some(status))))
      else match platform.parseJson(body)
        case None => Err(Other(JsError("SyntaxError", platform.parseErrorMessage(body))))
        case Some(result) =>
          if result.JNull? then Err(Other(NullAudioRead))
          else
            var audio := Get(result, "audio");
            if !Truthy(audio) then Err(ApiError(TtsApiError(EmptyAudio, None)))
            else match platform.atob(ToJsString(audio.value))
              case None => Err(Other(JsError("InvalidCharacterError", "The string to be decoded is not correctly encoded.")))
              case Some(audioData) => Ok(Blob(Uint8Array(audioData), "audio/wav"))
  }

  /** `generateVoice`: the validation, then the one request and the catch. */
  function GenerateSpec(cfg: ApiConfig, text: string, referenceAudioBase64: string, platform: Platform, script: seq<Outcome>)
    : (Result<Blob, TtsApiError>, seq<Call>)
  {
    if !Present(cfg.spaceUrl) || !Present(cfg.apiName) || !Present(cfg.token) then (Err(TtsApiError(ConfigIncomplete, None)), [])
    else if Trim(text) == "" then (Err(TtsApiError(EmptyText, None)), [])
    else if referenceAudioBase64 == "" then (Err(TtsApiError(NoRecording, None)), [])
    else
      var calls := [ApiCall(cfg, referenceAudioBase64, text)];
      match TryBody(platform, Answer(script, 0))
      case Ok(blob) => (Ok(blob), calls)
      case Err(t) => (Err(Catch(t)), calls)
  }

  /** The statements inside the `try`. */
  method Attempt(platform: Platform, response: Outcome) returns (r: Result<Blob, Thrown>)
    ensures r == TryBody(platform, response)
  {
    if response.Thrown? {
      return Err(Other(response.error));
    }
    if !(200 <= response.status <= 299) {
      var errorMessage := "语音生成失败";
      match response.status {
        case 401 => errorMessage := "API 认证失败，请检查令牌";
        case 429 => errorMessage := "API 调用频率过高，请稍后重试";
        case 500 => errorMessage := "服务器内部错误";
        case 503 => errorMessage := "TTS 服务暂时不可用";
        case _ =>
      }
      return Err(ApiError(TtsApiError(errorMessage, Some(response.status))));
    }
    var parsed := platform.parseJson(response.body);
    if parsed.None? {
      return Err(Other(JsError("SyntaxError", platform.parseErrorMessage(response.body))));
    }
    var result := parsed.value;
    if result.JNull? {
      return Err(Other(NullAudioRead));
    }
    var audio := Get(result, "audio");
    if !Truthy(audio) {
      return Err(ApiError(TtsApiError(EmptyAudio, None)));
    }
    var decoded := platform.atob(ToJsString(audio.value));
    if decoded.None? {
      return Err(Other(JsError("InvalidCharacterError", "The string to be decoded is not correctly encoded.")));
    }
    var audioArray := CharCodes(decoded.value);
    r := Ok(Blob(audioArray, "audio/wav"));
  }

  /** `generateVoice({ text, referenceAudioBase64 })`. */
  method GenerateVoice(cfg: ApiConfig, text: string, referenceAudioBase64: string, platform: Platform, script: seq<Outcome>)
    returns (r: Result<Blob, TtsApiError>, calls: seq<Call>)
    ensures (r, calls) == GenerateSpec(cfg, text, referenceAudioBase64, platform, script)
    ensures |calls| <= 1
    ensures calls == [] <==> !Present(cfg.spaceUrl) || !Present(cfg.apiName) || !Present(cfg.token)
                             || Trim(text) == "" || referenceAudioBase64 == ""
    ensures calls != [] ==> calls[0] == ApiCall(cfg, referenceAudioBase64, text)
    ensures r.Ok? ==> r.value.mimeType == "audio/wav"
  {
    if !Present(cfg.spaceUrl) || !Present(cfg.apiName) || !Present(cfg.token) {
      return Err(TtsApiError(ConfigIncomplete, None)), [];
    }
    if Trim(text) == "" {
      return Err(TtsApiError(EmptyText, None)), [];
    }
    if referenceAudioBase64 == "" {
      return Err(TtsApiError(NoRecording, None)), [];
    }
    calls := [ApiCall(cfg, referenceAudioBase64, text)];
    var attempt := Attempt(platform, Answer(script, 0));
    match attempt
    case Ok(blob) => r := Ok(blob);
    case Err(t) => r := Err(Catch(t));
  }

  // ---------------------------------------------------------------------------
  // Properties
  // ---------------------------------------------------------------------------

  /**
   * The checks run in the order configuration, text, recording; each fails
   * with its own message and no request.
   */
  lemma ValidationOrder(cfg: ApiConfig, text: string, referenceAudioBase64: string, platform: Platform, script: seq<Outcome>)
    ensures var (r, calls) := GenerateSpec(cfg, text, referenceAudioBase64, platform, script);
      && (!Present(cfg.spaceUrl) || !Present(cfg.apiName) || !Present(cfg.token) ==> r == Err(TtsApiError(ConfigIncomplete, None)))
      && ((Present(cfg.spaceUrl) && Present(cfg.apiName) && Present(cfg.token) && Trim(text) == "")
          ==> r == Err(TtsApiError(EmptyText, None)))
      && ((Present(cfg.spaceUrl) && Present(cfg.apiName) && Present(cfg.token) && Trim(text) != "" && referenceAudioBase64 == "")
          ==> r == Err(TtsApiError(NoRecording, None)))
  {
  }

  /** A failed response is reported with its status and the table's message. */
  lemma FailedStatus(platform: Platform, status: int, statusText: string, body: string)
    requires !(200 <= status <= 299)
    ensures Catch(TryBody(platform, Response(status, statusText, body)).error) == TtsApiError(ApiStatusMessage(status), Some(status))
  {
  }

  /** A request that fails on the network is reported with the network message. */
  lemma NetworkFailureMessage(platform: Platform)
    ensures Catch(TryBody(platform, Thrown(NetworkFailure)).error) == TtsApiError(NetworkMessage, None)
  {
    assert OccursAt(NetworkFailure.message, "fetch", 0);
    IncludesIff(NetworkFailure.message, "fetch");
  }

  /** Only the two errors `generateVoice` throws itself, the network message and the generic message ever come out. */
  lemma CatchMessages(t: Thrown)
    ensures Catch(t).message in {NetworkMessage, UnknownMessage} || t.ApiError?
    ensures t.ApiError? ==> Catch(t) == t.apiError
  {
  }

  /**
   * A successful call is an ok reply whose JSON body has a truthy `audio`
   * that `atob` decodes; the blob is `audio/wav` and holds one byte per
   * character of exactly that decoded text, which reads back as the text.
   */
  lemma SuccessBlob(platform: Platform, response: Outcome)
    requires TryBody(platform, response).Ok?
    ensures response.Response? && 200 <= response.status <= 299
    ensures platform.parseJson(response.body).Some?
    ensures Truthy(Get(platform.parseJson(response.body).value, "audio"))
    ensures platform.atob(ToJsString(Get(platform.parseJson(response.body).value, "audio").value)).Some?
    ensures var decoded := platform.atob(ToJsString(Get(platform.parseJson(response.body).value, "audio").value)).value;
      && TryBody(platform, response).value == Blob(Uint8Array(decoded), "audio/wav")
      && (IsBinary(decoded) ==> BinaryString(Uint8Array(decoded)) == decoded)
  {
    var result := platform.parseJson(response.body).value;
    var decoded := platform.atob(ToJsString(Get(result, "audio").value)).value;
    var bytes := Uint8Array(decoded);
    if IsBinary(decoded) {
      assert forall i :: 0 <= i < |decoded| ==> BinaryString(bytes)[i] == decoded[i];
    }
  }

  /** An ok reply whose `audio` is missing or falsy fails with the empty-audio message and no status. */
  lemma EmptyAudioReply(platform: Platform, status: int, statusText: string, body: string)
    requires 200 <= status <= 299
    requires platform.parseJson(body).Some? && !platform.parseJson(body).value.JNull?
    requires !Truthy(Get(platform.parseJson(body).value, "audio"))
    ensures Catch(TryBody(platform, Response(status, statusText, body)).error) == TtsApiError(EmptyAudio, None)
  {
  }

  // ---------------------------------------------------------------------------
  // audioBufferToWav
  // ---------------------------------------------------------------------------

  /** `audioBufferToWav(buffer)`: every channel of the buffer, at the buffer's own rate. */
  method AudioBufferToWav(buffer: AudioBuffer) returns (wav: array<byte>)
    requires WellFormed(buffer)
    ensures wav[..] == WavFile(buffer, |buffer.channelData|, buffer.sampleRate)
  {
    wav := EncodeWav(buffer, |buffer.channelData|, buffer.sampleRate);
  }

  /** How the `FileReader` and `decodeAudioData` steps end. */
  datatype Decoding = ReadFailed | DecodeFailed | Decoded(buffer: AudioBuffer)

  /** `convertAudioToWav`: the encoded buffer as an `audio/wav` blob, or the error of the step that failed. */
  method ConvertAudioToWav(decoding: Decoding) returns (r: Result<Blob, string>)
    requires decoding.Decoded? ==> WellFormed(decoding.buffer)
    ensures decoding == ReadFailed ==> r == Err("读取音频文件失败")
    ensures decoding == DecodeFailed ==> r == Err("音频格式转换失败")
    ensures decoding.Decoded? ==>
      (r.Ok? && r.value.mimeType == "audio/wav"
       && r.value.bytes == WavFile(decoding.buffer, |decoding.buffer.channelData|, decoding.buffer.sampleRate))
  {
    match decoding
    case ReadFailed => r := Err("读取音频文件失败");
    case DecodeFailed => r := Err("音频格式转换失败");
    case Decoded(buffer) =>
      var wavBuffer := AudioBufferToWav(buffer);
      r := Ok(Blob(wavBuffer[..], "audio/wav"));
  }
}
