/**
 * `AudioUploadService` in `audio-upload.ts`: decodes base64 audio into a
 * WAV blob, uploads it as form field `file` to tmpfiles.org (rewriting the
 * returned page URL into its direct-download form) or to file.io, and
 * `uploadAudio` tries tmpfiles.org first and file.io second, resolving with
 * the first URL obtained and rejecting only when both fail.
 */
module AudioUpload {
  import opened Wrappers
  import opened JsText
  import opened JsonValue
  import opened Bytes
  import opened Http

  /** The two storage services. */
  datatype Service = TmpFiles | FileIO

  /** `uploadMethods`: the order `uploadAudio` tries them in. */
  const UploadMethods: seq<Service> := [TmpFiles, FileIO]

  const UploadFailed := JsError("Error", "上传失败")
  const AllFailed := JsError("Error", "所有上传方法都失败了")
  /** What `atob` throws on text that is not base64. */
  const BadBase64 := JsError("InvalidCharacterError", "The string to be decoded is not correctly encoded.")

  function Endpoint(s: Service): string {
    match s
    case TmpFiles => "https://tmpfiles.org/api/v1/upload"
    case FileIO => "https://file.io"
  }

  /** The POST of a form whose field `file` holds the blob, named `audio.wav`. */
  function UploadCall(s: Service, blob: Blob): Call {
    Call(POST, Endpoint(s), None, FileForm("file", blob, "audio.wav"))
  }

  /** `base64ToBlob(base64, mimeType)`: the bytes of `atob(base64)`, or what `atob` throws. */
  function DecodedBlob(platform: Platform, base64: string, mimeType: string): (r: Result<Blob, JsError>)
    ensures r.Err? <==> platform.atob(base64).None?
    ensures r.Ok? ==> r.value.mimeType == mimeType && |r.value.bytes| == |platform.atob(base64).value|
  {
    match platform.atob(base64)
    case None => Err(BadBase64)
    case Some(byteCharacters) => Ok(Blob(Uint8Array(byteCharacters), mimeType))
  }

  /** `base64ToBlob(base64, mimeType = 'audio/wav')`. */
  method Base64ToBlob(platform: Platform, base64: string, mimeType: Option<string>) returns (r: Result<Blob, JsError>)
    ensures r == DecodedBlob(platform, base64, mimeType.GetOr("audio/wav"))
    ensures r.Ok? && IsBinary(platform.atob(base64).value) ==> BinaryString(r.value.bytes) == platform.atob(base64).value
  {
    var decoded := platform.atob(base64);
    if decoded.None? {
      return Err(BadBase64);
    }
    var byteArray := CharCodes(decoded.value);
    r := Ok(Blob(byteArray, mimeType.GetOr("audio/wav")));
  }

  /** tmpfiles.org links to a page; its direct download sits under `/dl/`. */
  function DirectLink(url: string): string {
    ReplaceFirst(url, "tmpfiles.org/", "tmpfiles.org/dl/")
  }

  /** The `TypeError` for reading `key` on `undefined` (`None`) or on `null`, in V8's wording. */
  function PropertyRead(target: Option<Json>, key: string): JsError {
    JsError("TypeError", "Cannot read properties of " + (if target.None? then "undefined" else "null")
                         + " (reading '" + key + "')")
  }

  /**
   * What the upload resolves to once a 2xx reply's body is read: file.io's
   * `data.link` (possibly `undefined`, `None`), tmpfiles.org's
   * `data.data.url` made direct; or the error reading it throws.
   */
  function ReadLink(s: Service, platform: Platform, body: string): Result<Option<Json>, JsError> {
    match platform.parseJson(body)
    case None => Err(JsError("SyntaxError", platform.parseErrorMessage(body)))
    case Some(data) =>
      if data.JNull? then Err(PropertyRead(Some(data), if s == TmpFiles then "data" else "link"))
      else if s == FileIO then Ok(Get(data, "link"))
      else
        var inner := Get(data, "data");
        if inner.None? || inner.value.JNull? then Err(PropertyRead(inner, "url"))
        else
          var url := Get(inner.value, "url");
          if url.None? || url.value.JNull? then Err(PropertyRead(url, "replace"))
          else if url.value.JStr? then Ok(Some(JStr(DirectLink(url.value.s))))
          else Err(JsError("TypeError", "data.data.url.replace is not a function"))
  }

  /** One service's upload: issued calls are appended to `log`, the fetch receiving the next scripted outcome. */
  function UploadSpec(s: Service, platform: Platform, base64: string, script: seq<Outcome>, log: seq<Call>)
    : (Result<Option<Json>, JsError>, seq<Call>)
  {
    match DecodedBlob(platform, base64, "audio/wav")
    case Err(e) => (Err(e), log)
    case Ok(blob) =>
      var response := Answer(script, |log|);
      var log1 := log + [UploadCall(s, blob)];
      if response.Thrown? then (Err(response.error), log1)
      else if !IsOk(response) then (Err(UploadFailed), log1)
      else (ReadLink(s, platform, response.body), log1)
  }

  /** `uploadAudio` from the `k`-th method on. */
  function UploadFrom(platform: Platform, base64: string, script: seq<Outcome>, k: nat, log: seq<Call>)
    : (Result<Option<Json>, JsError>, seq<Call>)
    requires k <= |UploadMethods|
    decreases |UploadMethods| - k
  {
    if k == |UploadMethods| then (Err(AllFailed), log)
    else
      var (r, log1) := UploadSpec(UploadMethods[k], platform, base64, script, log);
      if r.Ok? then (r, log1) else UploadFrom(platform, base64, script, k + 1, log1)
  }

  /** `uploadToTmpFiles(audioBase64)` and `uploadToFileIO(audioBase64)`. */
  method Upload(s: Service, platform: Platform, base64: string, script: seq<Outcome>, log0: seq<Call>)
    returns (r: Result<Option<Json>, JsError>, log: seq<Call>)
    ensures (r, log) == UploadSpec(s, platform, base64, script, log0)
  {
    log := log0;
    var blob := Base64ToBlob(platform, base64, Some("audio/wav"));
    if blob.Err? {
      return Err(blob.error), log;
    }
    var response := Answer(script, |log|);
    log := log + [UploadCall(s, blob.value)];
    if response.Thrown? {
      return Err(response.error), log;
    }
    if !IsOk(response) {
      return Err(UploadFailed), log;
    }
    r := ReadLink(s, platform, response.body);
  }

  /** `uploadAudio(audioBase64)`. */
  method UploadAudio(platform: Platform, base64: string, script: seq<Outcome>)
    returns (r: Result<Option<Json>, JsError>, calls: seq<Call>)
    ensures (r, calls) == UploadFrom(platform, base64, script, 0, [])
  {
    calls := [];
    for k := 0 to |UploadMethods|
      invariant UploadFrom(platform, base64, script, k, calls) == UploadFrom(platform, base64, script, 0, [])
    {
      var attempt;
      attempt, calls := Upload(UploadMethods[k], platform, base64, script, calls);
      if attempt.Ok? {
        return attempt, calls;
      }
    }
    r := Err(AllFailed);
  }

  // ---------------------------------------------------------------------------
  // Properties
  // ---------------------------------------------------------------------------

  /** A page URL of the form `https://tmpfiles.org/<rest>` becomes `https://tmpfiles.org/dl/<rest>`. */
  lemma DirectLinkOfPage(rest: string)
    ensures DirectLink("https://tmpfiles.org/" + rest) == "https://tmpfiles.org/dl/" + rest
  {
    SchemeThenHost(rest);
    NothingBeforeHost(rest);
    ReplaceFirstAt("https://", "tmpfiles.org/", rest, "tmpfiles.org/dl/");
  }

  lemma SchemeThenHost(rest: string)
    ensures "https://" + "tmpfiles.org/" + rest == "https://tmpfiles.org/" + rest
    ensures "https://" + "tmpfiles.org/dl/" + rest == "https://tmpfiles.org/dl/" + rest
  {
    assert "https://" + "tmpfiles.org/" == "https://tmpfiles.org/";
    assert "https://" + "tmpfiles.org/dl/" == "https://tmpfiles.org/dl/";
  }

  /** In such a URL the host name does not occur inside the scheme. */
  lemma NothingBeforeHost(rest: string)
    ensures forall j :: 0 <= j < |"https://"| ==> !OccursAt("https://" + "tmpfiles.org/" + rest, "tmpfiles.org/", j)
  {
    var s := "https://" + "tmpfiles.org/" + rest;
    var head := s[..9];
    assert head == "https://t";
    forall j | 0 <= j < 8
      ensures !OccursAt(s, "tmpfiles.org/", j)
    {
      assert s[j + 1] == head[j + 1] != 'm';
      Mismatch(s, "tmpfiles.org/", j, 1);
    }
  }

  /** Every call an upload issues posts the decoded blob to one of the services. */
  lemma UploadSpecCalls(s: Service, platform: Platform, base64: string, script: seq<Outcome>, log: seq<Call>)
    ensures var (r, log1) := UploadSpec(s, platform, base64, script, log);
      && (log1 == log || (DecodedBlob(platform, base64, "audio/wav").Ok?
                          && log1 == log + [UploadCall(s, DecodedBlob(platform, base64, "audio/wav").value)]))
      && (DecodedBlob(platform, base64, "audio/wav").Err? ==> log1 == log && r == Err(BadBase64))
  {
  }

  /**
   * How a 2xx reply's body is read: a body that is not JSON rejects with
   * the parse error; a `null` body with a `TypeError`; file.io resolves
   * with `data.link`, even when it is absent; tmpfiles.org resolves with
   * the direct form of a string `data.data.url`, and any other `url`,
   * absent and `null` included, rejects with a `TypeError`.
   */
  lemma OkReplyLink(s: Service, platform: Platform, base64: string, script: seq<Outcome>, log: seq<Call>)
    requires DecodedBlob(platform, base64, "audio/wav").Ok?
    requires IsOk(Answer(script, |log|))
    ensures var body := Answer(script, |log|).body;
      var r := UploadSpec(s, platform, base64, script, log).0;
      && (platform.parseJson(body).None? ==> r.Err? && r.error.name == "SyntaxError")
      && (platform.parseJson(body) == Some(JNull) ==> r.Err? && r.error.name == "TypeError")
      && (s == FileIO && platform.parseJson(body).Some? && !platform.parseJson(body).value.JNull? ==>
            r == Ok(Get(platform.parseJson(body).value, "link")))
  {
  }

  /** tmpfiles.org's reading of a parsed, non-null reply `data`, by the kind of `data.data.url`. */
  lemma TmpFilesUrl(platform: Platform, body: string, data: Json)
    requires platform.parseJson(body) == Some(data) && !data.JNull?
    ensures var r := ReadLink(TmpFiles, platform, body);
      var inner := Get(data, "data");
      && (inner.None? || inner.value.JNull? ==> r == Err(PropertyRead(inner, "url")))
      && (inner.Some? && !inner.value.JNull? ==>
            var url := Get(inner.value, "url");
            && (url.Some? && url.value.JStr? ==> r == Ok(Some(JStr(DirectLink(url.value.s)))))
            && (url.None? || url.value.JNull? ==> r == Err(PropertyRead(url, "replace")))
            && (url.Some? && !url.value.JNull? && !url.value.JStr? ==>
                  r == Err(JsError("TypeError", "data.data.url.replace is not a function"))))
  {
  }

  /**
   * `uploadAudio` resolves with tmpfiles.org's link when that upload
   * succeeds, without contacting file.io; otherwise with file.io's result
   * when that succeeds; and otherwise rejects with the all-failed error.
   */
  lemma {:induction false} FallbackOrder(platform: Platform, base64: string, script: seq<Outcome>)
    ensures var (first, log1) := UploadSpec(TmpFiles, platform, base64, script, []);
      var (second, log2) := UploadSpec(FileIO, platform, base64, script, log1);
      var (r, calls) := UploadFrom(platform, base64, script, 0, []);
      && (first.Ok? ==> r == first && calls == log1 && |calls| <= 1)
      && (first.Err? && second.Ok? ==> r == second && calls == log2)
      && (first.Err? && second.Err? ==> r == Err(AllFailed) && calls == log2)
  {
    var (first, log1) := UploadSpec(TmpFiles, platform, base64, script, []);
    UploadSpecCalls(TmpFiles, platform, base64, script, []);
    assert UploadMethods[0] == TmpFiles && UploadMethods[1] == FileIO;
    if first.Err? {
      var (second, log2) := UploadSpec(FileIO, platform, base64, script, log1);
      assert UploadFrom(platform, base64, script, 1, log1) ==
        (if second.Ok? then (second, log2) else UploadFrom(platform, base64, script, 2, log2));
    }
  }

  /** `uploadAudio` issues at most two calls, tmpfiles.org's first, and rejects only with the all-failed error. */
  lemma UploadAudioCalls(platform: Platform, base64: string, script: seq<Outcome>)
    ensures var (r, calls) := UploadFrom(platform, base64, script, 0, []);
      && |calls| <= 2
      && (calls != [] ==> calls[0].url == Endpoint(TmpFiles))
      && (|calls| == 2 ==> calls[1].url == Endpoint(FileIO))
      && (r.Err? ==> r.error == AllFailed)
  {
    FallbackOrder(platform, base64, script);
    var (first, log1) := UploadSpec(TmpFiles, platform, base64, script, []);
    UploadSpecCalls(TmpFiles, platform, base64, script, []);
    UploadSpecCalls(FileIO, platform, base64, script, log1);
  }

  /** Base64 that `atob` rejects fails both services before any request is made. */
  lemma UndecodableAudio(platform: Platform, base64: string, script: seq<Outcome>)
    requires platform.atob(base64).None?
    ensures UploadFrom(platform, base64, script, 0, []) == (Err(AllFailed), [])
  {
    FallbackOrder(platform, base64, script);
  }
}
