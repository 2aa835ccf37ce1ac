/**
 * The Gradio job client behind `POST /api/tts`: configuration and parameter
 * checks, the submission to `${HF_SPACE_URL}/call/predict`, the fallback
 * over three alternate endpoints when that answers 404, the
 * status-to-message table, the poll loop over `event_id` with its scan of
 * `data:` lines, and the classification of a synchronous string result.
 *
 * Each loop is a method proved equal to a tail-recursive specification
 * function (`AltFrom`, `PollFrom`, `ScanFrom`); the lemmas at the end state
 * what those functions guarantee.
 */
module TtsRoute {
  import opened Wrappers
  import opened JsText
  import opened JsonValue
  import opened Http

  /** `NEXT_PUBLIC_HF_SPACE_URL`, `NEXT_PUBLIC_HF_API_NAME`, `HF_TOKEN`; `None` when unset. */
  datatype Config = Config(spaceUrl: Option<string>, apiName: Option<string>, token: Option<string>)

  predicate Complete(cfg: Config) {
    Present(cfg.spaceUrl) && Present(cfg.apiName) && Present(cfg.token)
  }

  /** The `text` and `referenceAudioBase64` fields of the request body. */
  datatype TtsRequest = TtsRequest(text: Option<string>, referenceAudioBase64: Option<string>)

  const MaxRetries: nat := 30

  /** The alternate endpoints tried, in this order, after a 404. */
  const AltPaths: seq<string> := ["/run/predict", "/api/predict", "/gradio_api/run/predict"]

  const ConfigIncomplete := "TTS API 配置不完整"
  const MissingParams := "缺少必要参数"
  const GenerationFailed := "语音生成失败"
  const FormatError := "API 返回数据格式错误"
  const TimeoutMessage := "语音生成超时，请稍后重试"
  const DownloadFailed := "无法下载生成的音频文件"
  const UnexpectedFormat := "API 返回的音频数据格式异常"
  const Unavailable := "TTS 服务暂时不可用，请稍后重试"
  const UnknownError := "语音生成过程中发生未知错误"

  /** The message for a failed submission, by HTTP status. */
  function StatusMessage(status: int): string {
    match status
    case 401 => "API 认证失败，请检查令牌"
    case 404 => "API 端点未找到，该服务可能暂时不可用"
    case 422 => "请求参数错误，请检查音频格式和文本内容"
    case 429 => "API 调用频率过高，请稍后重试"
    case 500 => "服务器内部错误"
    case 503 => "TTS 服务暂时不可用"
    case _ => GenerationFailed
  }

  function Failure(status: int, message: string): Reply {
    Reply(status, ErrorBody(message))
  }

  function FailureWithDetails(status: int, message: string, details: Json): Reply {
    Reply(status, JObj(map["error" := JStr(message), "details" := details]))
  }

  /** `{ audio }` with status 200; an `undefined` audio leaves the field out. */
  function AudioReply(audio: Option<string>): Reply {
    Reply(200, JObj(if audio.Some? then map["audio" := JStr(audio.value)] else map[]))
  }

  /** The 500 reply for an incomplete configuration, with its `debug` object. */
  function ConfigReply(cfg: Config): Reply {
    var url := if Present(cfg.spaceUrl) then cfg.spaceUrl.value else "missing";
    var api := if Present(cfg.apiName) then cfg.apiName.value else "missing";
    var token := if Present(cfg.token) then "present" else "missing";
    Reply(500, JObj(map[
      "error" := JStr(ConfigIncomplete),
      "debug" := JObj(map["HF_SPACE_URL" := JStr(url), "HF_API_NAME" := JStr(api), "HF_TOKEN" := JStr(token)])]))
  }

  /** The failed-submission reply: the submission's own status, the table's message, the body as details. */
  function StatusReply(status: int, responseText: string): Reply {
    FailureWithDetails(status, StatusMessage(status), JStr(responseText))
  }

  /**
   * The submission payload: `data` = [reference audio file object, ref_text,
   * gen_text, remove_silence]; `now` is `Date.now()`.
   */
  function Payload(referenceAudioBase64: string, text: string, now: nat): Json {
    JObj(map["data" := JArr([
      JObj(map[
        "path" := JStr("audio_" + NatToString(now) + ".wav"),
        "url" := JStr("data:audio/wav;base64," + referenceAudioBase64),
        "orig_name" := JStr("reference_audio.wav"),
        "size" := JNum((|referenceAudioBase64| as real * 0.75).Floor),
        "mime_type" := JStr("audio/wav")]),
      JStr(Trim(text)),
      JStr(Trim(text)),
      JBool(false)])])
  }

  /** Everything a submission needs once the checks have passed. */
  datatype Job = Job(base: string, token: string, payload: Json, platform: Platform, script: seq<Outcome>)

  function SubmitCall(job: Job, url: string): Call {
    Call(POST, url, Some(Bearer(job.token)), JsonBody(job.payload))
  }

  function PrimaryCall(job: Job): Call {
    SubmitCall(job, job.base + "/call/predict")
  }

  function AltCall(job: Job, k: nat): Call
    requires k < |AltPaths|
  {
    SubmitCall(job, job.base + AltPaths[k])
  }

  function EventUrl(job: Job, eventId: Json): string {
    job.base + "/call/predict/" + ToJsString(eventId)
  }

  function PollCall(job: Job, url: string): Call {
    Call(GET, url, Some(Bearer(job.token)), NoBody)
  }

  /** The plain `fetch(url)` that downloads a generated audio file. */
  function DownloadCall(url: string): Call {
    Call(GET, url, None, NoBody)
  }

  /** How a string result is read: a data URI, a URL to download, or audio passed through as it is. */
  datatype AudioRef = Inline(base64: Option<string>) | Remote(url: string) | Raw(data: string)

  /** `data:` first, then `http`, else unchanged; a data URI yields `split(',')[1]`. */
  function Classify(s: string): AudioRef {
    if StartsWith(s, "data:") then Inline(SplitField(s, ',', 1))
    else if StartsWith(s, "http") then Remote(s)
    else Raw(s)
  }

  /**
   * `result.data && result.data.length > 0` and then `result.data[0]` when
   * that is a string; `result` is not null.
   */
  function FirstDataString(result: Json): Option<string> {
    var d := Get(result, "data");
    if Truthy(d) && HasElements(d.value) then
      match Index0(d.value)
      case Some(JStr(s)) => Some(s)
      case _ => None
    else None
  }

  /** What an alternate endpoint's ok body yields: its string `data[0]`, if it parses to a non-null value with one. */
  function AltString(platform: Platform, body: string): Option<string> {
    match platform.parseJson(body)
    case None => None
    case Some(result) => if result.JNull? then None else FirstDataString(result)
  }

  /**
   * The alternate endpoints from index `k`, after the calls in `log`: the
   * reply of the first one that succeeds, if any, and the calls issued.
   * A failed or thrown request, an unparseable body, a body without a string
   * `data[0]` and a failed download all move on to the next endpoint.
   */
  function AltFrom(job: Job, k: nat, log: seq<Call>): (Option<Reply>, seq<Call>)
    decreases |AltPaths| - k
  {
    if k >= |AltPaths| then (None, log)
    else
      var o := Answer(job.script, |log|);
      var log1 := log + [AltCall(job, k)];
      if !IsOk(o) then AltFrom(job, k + 1, log1)
      else match AltString(job.platform, o.body)
        case None => AltFrom(job, k + 1, log1)
        case Some(s) =>
          match Classify(s)
          case Inline(b) => (Some(AudioReply(b)), log1)
          case Raw(d) => (Some(AudioReply(Some(d))), log1)
          case Remote(u) =>
            var d := Answer(job.script, |log1|);
            var log2 := log1 + [DownloadCall(u)];
            if d.Thrown? then AltFrom(job, k + 1, log2)
            else (Some(AudioReply(Some(job.platform.base64OfBody(d.body)))), log2)
  }

  predicate IsDataLine(line: string) {
    StartsWith(Trim(line), "data:")
  }

  /** `lines.filter(line => line.trim().startsWith('data:'))`. */
  function DataLines(lines: seq<string>): (r: seq<string>)
    ensures forall l :: l in r <==> l in lines && IsDataLine(l)
  {
    if |lines| == 0 then []
    else (if IsDataLine(lines[0]) then [lines[0]] else []) + DataLines(lines[1..])
  }

  /**
   * The filter keeps the order and the multiplicity of the lines: filtering
   * two runs of lines one after the other is filtering each and joining.
   */
  lemma {:induction false} DataLinesAppend(a: seq<string>, b: seq<string>)
    ensures DataLines(a + b) == DataLines(a) + DataLines(b)
    decreases |a|
  {
    if a != [] {
      assert (a + b)[1..] == a[1..] + b;
      DataLinesAppend(a[1..], b);
    } else {
      assert a + b == b;
    }
  }

  /**
   * The audio URL a poll line carries: the line, with its first "data: "
   * removed, parses to a non-null object whose `msg` is 'process_completed',
   * whose `output.data` is truthy and whose `data[0]` is a string starting
   * with `http`.
   */
  function LineAudioUrl(platform: Platform, line: string): Option<string> {
    match platform.parseJson(ReplaceFirst(line, "data: ", ""))
    case None => None
    case Some(json) =>
      if json.JNull? then None
      else
        var output := Get(json, "msg") == Some(JStr("process_completed")) && Truthy(Get(json, "output"));
        if !output then None
        else
          var data := Get(Get(json, "output").value, "data");
          if !Truthy(data) then None
          else match Index0(data.value)
            case Some(JStr(a)) => if StartsWith(a, "http") then Some(a) else None
            case _ => None
  }

  /** The scan of the data lines from index `j`: the first line whose audio downloads. */
  function ScanFrom(job: Job, lines: seq<string>, j: nat, log: seq<Call>): (Option<Reply>, seq<Call>)
    decreases |lines| - j
  {
    if j >= |lines| then (None, log)
    else match LineAudioUrl(job.platform, lines[j])
      case None => ScanFrom(job, lines, j + 1, log)
      case Some(u) =>
        var d := Answer(job.script, |log|);
        var log1 := log + [DownloadCall(u)];
        if d.Thrown? then ScanFrom(job, lines, j + 1, log1)
        else (Some(AudioReply(Some(job.platform.base64OfBody(d.body)))), log1)
  }

  /** The condition under which a poll body is scanned at all. */
  predicate MaybeComplete(eventData: string) {
    Includes(eventData, "\"msg\":\"process_completed\"") || Includes(eventData, "data:")
  }

  /**
   * One attempt of the poll loop: the reply if it ends the loop, and the
   * calls issued. A thrown or non-ok poll never ends it.
   */
  function PollAttempt(job: Job, url: string, log: seq<Call>): (Option<Reply>, seq<Call>) {
    var o := Answer(job.script, |log|);
    var log1 := log + [PollCall(job, url)];
    if !IsOk(o) || !MaybeComplete(o.body) then (None, log1)
    else ScanFrom(job, DataLines(Split(o.body, '\n')), 0, log1)
  }

  /** Poll `url` from attempt `i` (of 30) on. */
  function PollFrom(job: Job, url: string, i: nat, log: seq<Call>): (Reply, seq<Call>)
    decreases MaxRetries - i
  {
    if i >= MaxRetries then (Failure(408, TimeoutMessage), log)
    else
      var (found, log1) := PollAttempt(job, url, log);
      if found.Some? then (found.value, log1) else PollFrom(job, url, i + 1, log1)
  }

  /** An accepted (2xx) submission whose body parsed to `result`. */
  function Accepted(job: Job, result: Json, log: seq<Call>): (Reply, seq<Call>) {
    if result.JNull? then (FailureWithDetails(503, Unavailable, JStr(NullEventIdRead)), log)
    else
      var id := Get(result, "event_id");
      if Truthy(id) then PollFrom(job, EventUrl(job, id.value), 0, log)
      else match FirstDataString(result)
        case None => (FailureWithDetails(500, UnexpectedFormat, result), log)
        case Some(s) =>
          match Classify(s)
          case Inline(b) => (AudioReply(b), log)
          case Raw(d) => (AudioReply(Some(d)), log)
          case Remote(u) =>
            var d := Answer(job.script, |log|);
            var log1 := log + [DownloadCall(u)];
            if d.Thrown? then (Failure(500, DownloadFailed), log1)
            else (AudioReply(Some(job.platform.base64OfBody(d.body))), log1)
  }

  /** The submission and everything after it. */
  function Submit(job: Job): (Reply, seq<Call>) {
    var log := [PrimaryCall(job)];
    match Answer(job.script, 0)
    case Thrown(e) => (FailureWithDetails(503, Unavailable, JStr(e.message)), log)
    case Response(status, _, text) =>
      if !(200 <= status <= 299) then
        if status == 404 then
          var (found, log2) := AltFrom(job, 0, log);
          if found.Some? then (found.value, log2) else (StatusReply(status, text), log2)
        else (StatusReply(status, text), log)
      else match job.platform.parseJson(text)
        case None => (Failure(500, FormatError), log)
        case Some(result) => Accepted(job, result, log)
  }

  function JobOf(cfg: Config, request: TtsRequest, now: nat, platform: Platform, script: seq<Outcome>): Job
    requires Complete(cfg) && Present(request.text) && Present(request.referenceAudioBase64)
  {
    Job(cfg.spaceUrl.value, cfg.token.value,
        Payload(request.referenceAudioBase64.value, request.text.value, now), platform, script)
  }

  /**
   * The whole handler: `request` is the parsed request body (`None` when
   * `request.json()` throws), `now` is `Date.now()`.
   */
  function PostSpec(cfg: Config, request: Option<TtsRequest>, now: nat, platform: Platform, script: seq<Outcome>): (Reply, seq<Call>) {
    if !Complete(cfg) then (ConfigReply(cfg), [])
    else if request.None? then (Failure(500, UnknownError), [])
    else if !Present(request.value.text) || !Present(request.value.referenceAudioBase64) then
      (Failure(400, MissingParams), [])
    else Submit(JobOf(cfg, request.value, now, platform, script))
  }

  // ---------------------------------------------------------------------------
  // The handler and its loops
  // ---------------------------------------------------------------------------

  /** The `for (const altUrl of altEndpoints)` loop. */
  method TryAlternates(job: Job, log0: seq<Call>) returns (found: Option<Reply>, log: seq<Call>)
    ensures (found, log) == AltFrom(job, 0, log0)
  {
    log := log0;
    var k := 0;
    while k < |AltPaths|
      invariant 0 <= k <= |AltPaths|
      invariant AltFrom(job, k, log) == AltFrom(job, 0, log0)
    {
      var altResponse := Answer(job.script, |log|);
      log := log + [AltCall(job, k)];
      if IsOk(altResponse) {
        var audioResult := AltString(job.platform, altResponse.body);
        if audioResult.Some? {
          match Classify(audioResult.value)
          case Inline(b) =>
            return Some(AudioReply(b)), log;
          case Raw(d) =>
            return Some(AudioReply(Some(d))), log;
          case Remote(u) =>
            var audioResponse := Answer(job.script, |log|);
            log := log + [DownloadCall(u)];
            if audioResponse.Response? {
              return Some(AudioReply(Some(job.platform.base64OfBody(audioResponse.body)))), log;
            }
        }
      }
      k := k + 1;
    }
    found := None;
  }

  /** The `for (const line of lines)` scan of one poll body. */
  method ScanLines(job: Job, lines: seq<string>, log0: seq<Call>) returns (found: Option<Reply>, log: seq<Call>)
    ensures (found, log) == ScanFrom(job, lines, 0, log0)
  {
    log := log0;
    for j := 0 to |lines|
      invariant ScanFrom(job, lines, j, log) == ScanFrom(job, lines, 0, log0)
    {
      var audioUrl := LineAudioUrl(job.platform, lines[j]);
      if audioUrl.Some? {
        var audioResponse := Answer(job.script, |log|);
        log := log + [DownloadCall(audioUrl.value)];
        if audioResponse.Response? {
          return Some(AudioReply(Some(job.platform.base64OfBody(audioResponse.body)))), log;
        }
      }
    }
    found := None;
  }

  /** One pass of the poll loop's body. */
  method PollOnce(job: Job, eventUrl: string, log0: seq<Call>) returns (found: Option<Reply>, log: seq<Call>)
    ensures (found, log) == PollAttempt(job, eventUrl, log0)
  {
    var eventResponse := Answer(job.script, |log0|);
    log := log0 + [PollCall(job, eventUrl)];
    found := None;
    if IsOk(eventResponse) {
      var eventData := eventResponse.body;
      if MaybeComplete(eventData) {
        var lines := DataLines(Split(eventData, '\n'));
        found, log := ScanLines(job, lines, log);
      }
    }
  }

  /** The `for (let i = 0; i < maxRetries; i++)` poll loop. */
  method PollEvents(job: Job, eventUrl: string, log0: seq<Call>) returns (reply: Reply, log: seq<Call>)
    ensures (reply, log) == PollFrom(job, eventUrl, 0, log0)
  {
    log := log0;
    var i := 0;
    while i < MaxRetries
      invariant 0 <= i <= MaxRetries
      invariant PollFrom(job, eventUrl, i, log) == PollFrom(job, eventUrl, 0, log0)
    {
      var found;
      found, log := PollOnce(job, eventUrl, log);
      if found.Some? {
        return found.value, log;
      }
      i := i + 1;
    }
    reply := Failure(408, TimeoutMessage);
  }

  /** What the handler does with an accepted submission's parsed body. */
  method HandleAccepted(job: Job, result: Json, log0: seq<Call>) returns (reply: Reply, log: seq<Call>)
    ensures (reply, log) == Accepted(job, result, log0)
  {
    log := log0;
    if result.JNull? {
      return FailureWithDetails(503, Unavailable, JStr(NullEventIdRead)), log;
    }
    var eventId := Get(result, "event_id");
    if Truthy(eventId) {
      reply, log := PollEvents(job, EventUrl(job, eventId.value), log);
      return;
    }
    var audioResult := FirstDataString(result);
    if audioResult.None? {
      return FailureWithDetails(500, UnexpectedFormat, result), log;
    }
    match Classify(audioResult.value)
    case Inline(b) =>
      reply := AudioReply(b);
    case Raw(d) =>
      reply := AudioReply(Some(d));
    case Remote(u) =>
      var audioResponse := Answer(job.script, |log|);
      log := log + [DownloadCall(u)];
      if audioResponse.Thrown? {
        return Failure(500, DownloadFailed), log;
      }
      reply := AudioReply(Some(job.platform.base64OfBody(audioResponse.body)));
  }

  /** The submission to `/call/predict` and everything after it. */
  method SubmitJob(job: Job) returns (reply: Reply, calls: seq<Call>)
    ensures (reply, calls) == Submit(job)
  {
    calls := [PrimaryCall(job)];
    var response := Answer(job.script, 0);
    if response.Thrown? {
      return FailureWithDetails(503, Unavailable, JStr(response.error.message)), calls;
    }
    var responseText := response.body;
    if !IsOk(response) {
      if response.status == 404 {
        var found;
        found, calls := TryAlternates(job, calls);
        if found.Some? {
          return found.value, calls;
        }
      }
      return StatusReply(response.status, responseText), calls;
    }
    var parsed := job.platform.parseJson(responseText);
    if parsed.None? {
      return Failure(500, FormatError), calls;
    }
    reply, calls := HandleAccepted(job, parsed.value, calls);
  }

  /** `POST /api/tts`. */
  method Post(cfg: Config, request: Option<TtsRequest>, now: nat, platform: Platform, script: seq<Outcome>)
    returns (reply: Reply, calls: seq<Call>)
    ensures (reply, calls) == PostSpec(cfg, request, now, platform, script)
    ensures !Complete(cfg) ==> reply.status == 500 && calls == []
    ensures Complete(cfg) && request.Some? && !(Present(request.value.text) && Present(request.value.referenceAudioBase64))
            ==> reply == Failure(400, MissingParams) && calls == []
    ensures calls != [] ==> Complete(cfg) && request.Some? && calls[0] == PrimaryCall(JobOf(cfg, request.value, now, platform, script))
  {
    if !Complete(cfg) {
      return ConfigReply(cfg), [];
    }
    if request.None? {
      return Failure(500, UnknownError), [];
    }
    var text, referenceAudioBase64 := request.value.text, request.value.referenceAudioBase64;
    if !Present(text) || !Present(referenceAudioBase64) {
      return Failure(400, MissingParams), [];
    }
    var job := JobOf(cfg, request.value, now, platform, script);
    reply, calls := SubmitJob(job);
    SubmitStartsWithPrimary(job);
  }

  // ---------------------------------------------------------------------------
  // Properties
  // ---------------------------------------------------------------------------

  /** The alternate loop only appends to the calls already made. */
  lemma {:induction false} AltFromExtends(job: Job, k: nat, log: seq<Call>)
    ensures log <= AltFrom(job, k, log).1
    decreases |AltPaths| - k
  {
    if k < |AltPaths| {
      var o := Answer(job.script, |log|);
      var log1 := log + [AltCall(job, k)];
      AltFromExtends(job, k + 1, log1);
      if IsOk(o) {
        match AltString(job.platform, o.body)
        case None =>
        case Some(s) =>
          match Classify(s)
          case Inline(_) =>
          case Raw(_) =>
          case Remote(u) => AltFromExtends(job, k + 1, log1 + [DownloadCall(u)]);
      }
    }
  }

  lemma {:induction false} ScanFromExtends(job: Job, lines: seq<string>, j: nat, log: seq<Call>)
    ensures log <= ScanFrom(job, lines, j, log).1
    decreases |lines| - j
  {
    if j < |lines| {
      ScanFromExtends(job, lines, j + 1, log);
      match LineAudioUrl(job.platform, lines[j])
      case None =>
      case Some(u) => ScanFromExtends(job, lines, j + 1, log + [DownloadCall(u)]);
    }
  }

  lemma PollAttemptExtends(job: Job, url: string, log: seq<Call>)
    ensures log <= PollAttempt(job, url, log).1
  {
    var log1 := log + [PollCall(job, url)];
    var o := Answer(job.script, |log|);
    if IsOk(o) && MaybeComplete(o.body) {
      ScanFromExtends(job, DataLines(Split(o.body, '\n')), 0, log1);
    }
  }

  lemma {:induction false} PollFromExtends(job: Job, url: string, i: nat, log: seq<Call>)
    ensures log <= PollFrom(job, url, i, log).1
    decreases MaxRetries - i
  {
    if i < MaxRetries {
      PollAttemptExtends(job, url, log);
      var (found, log1) := PollAttempt(job, url, log);
      PollFromExtends(job, url, i + 1, log1);
    }
  }

  lemma AcceptedExtends(job: Job, result: Json, log: seq<Call>)
    ensures log <= Accepted(job, result, log).1
  {
    if !result.JNull? {
      var id := Get(result, "event_id");
      if Truthy(id) {
        PollFromExtends(job, EventUrl(job, id.value), 0, log);
      }
    }
  }

  /** Whatever happens, the first call a submission makes is the POST to `/call/predict`. */
  lemma SubmitStartsWithPrimary(job: Job)
    ensures |Submit(job).1| >= 1 && Submit(job).1[0] == PrimaryCall(job)
  {
    var log := [PrimaryCall(job)];
    AltFromExtends(job, 0, log);
    var o := Answer(job.script, 0);
    if IsOk(o) {
      match job.platform.parseJson(o.body)
      case None =>
      case Some(result) => AcceptedExtends(job, result, log);
    }
  }

  /** Every reply the alternate loop produces is a 200 with audio. */
  lemma {:induction false} AltFromReplies(job: Job, k: nat, log: seq<Call>)
    ensures AltFrom(job, k, log).0.Some? ==> AltFrom(job, k, log).0.value.status == 200
    decreases |AltPaths| - k
  {
    if k < |AltPaths| {
      var o := Answer(job.script, |log|);
      var log1 := log + [AltCall(job, k)];
      AltFromReplies(job, k + 1, log1);
      if IsOk(o) {
        match AltString(job.platform, o.body)
        case None =>
        case Some(s) =>
          match Classify(s)
          case Inline(_) =>
          case Raw(_) =>
          case Remote(u) => AltFromReplies(job, k + 1, log1 + [DownloadCall(u)]);
      }
    }
  }

  /**
   * A rejected submission (a response outside 2xx) is answered with its own
   * status and the table's message, unless it was a 404 and one of the
   * alternate endpoints produced audio; the alternates are tried for no
   * other status.
   */
  lemma RejectedSubmission(job: Job, status: int, statusText: string, text: string)
    requires Answer(job.script, 0) == Response(status, statusText, text) && !(200 <= status <= 299)
    ensures var (reply, calls) := Submit(job);
      reply == StatusReply(status, text) || (status == 404 && reply.status == 200)
    ensures status != 404 ==> Submit(job) == (StatusReply(status, text), [PrimaryCall(job)])
  {
    AltFromReplies(job, 0, [PrimaryCall(job)]);
  }

  /**
   * A 404 after which every alternate endpoint fails issues exactly the
   * primary POST and the three alternate POSTs, in order, each with the
   * same payload and token, and reports the 404.
   */
  lemma AllAlternatesFail(job: Job, statusText: string, text: string)
    requires Answer(job.script, 0) == Response(404, statusText, text)
    requires forall n :: 1 <= n <= 3 ==> !IsOk(Answer(job.script, n))
    ensures Submit(job) == (StatusReply(404, text),
      [PrimaryCall(job), AltCall(job, 0), AltCall(job, 1), AltCall(job, 2)])
  {
    var log0 := [PrimaryCall(job)];
    var log1 := log0 + [AltCall(job, 0)];
    var log2 := log1 + [AltCall(job, 1)];
    var log3 := log2 + [AltCall(job, 2)];
    assert !IsOk(Answer(job.script, |log0|));
    assert !IsOk(Answer(job.script, |log1|));
    assert !IsOk(Answer(job.script, |log2|));
    assert AltFrom(job, 3, log3) == (None, log3);
    assert AltFrom(job, 2, log2) == (None, log3);
    assert AltFrom(job, 1, log1) == (None, log3);
    assert AltFrom(job, 0, log0) == (None, log3);
    assert log3 == [PrimaryCall(job), AltCall(job, 0), AltCall(job, 1), AltCall(job, 2)];
  }

  /** The POSTs to alternates `k` up to (excluding) `n`, in order. */
  function AltRun(job: Job, k: nat, n: nat): (r: seq<Call>)
    requires k <= n <= |AltPaths|
    ensures |r| == n - k && forall j :: 0 <= j < n - k ==> r[j] == AltCall(job, k + j)
    decreases n - k
  {
    if k == n then [] else [AltCall(job, k)] + AltRun(job, k + 1, n)
  }

  /**
   * The alternate loop from `k`, when the endpoints before `m` fail and `m`
   * answers ok with the string `s` as `data[0]`: alternate `m` answers, and
   * no endpoint after it is tried.
   */
  lemma {:induction false} AltFromFirstOk(job: Job, k: nat, m: nat, log: seq<Call>, s: string)
    requires k <= m < |AltPaths|
    requires forall n :: |log| <= n < |log| + (m - k) ==> !IsOk(Answer(job.script, n))
    requires IsOk(Answer(job.script, |log| + (m - k)))
    requires AltString(job.platform, Answer(job.script, |log| + (m - k)).body) == Some(s)
    ensures var calls := log + AltRun(job, k, m + 1);
      && (Classify(s).Inline? ==> AltFrom(job, k, log) == (Some(AudioReply(Classify(s).base64)), calls))
      && (Classify(s).Raw? ==> AltFrom(job, k, log) == (Some(AudioReply(Some(s))), calls))
      && (Classify(s).Remote? && !Answer(job.script, |calls|).Thrown? ==>
            AltFrom(job, k, log)
              == (Some(AudioReply(Some(job.platform.base64OfBody(Answer(job.script, |calls|).body)))), calls + [DownloadCall(s)]))
    decreases m - k
  {
    var log1 := log + [AltCall(job, k)];
    assert AltRun(job, k, m + 1) == [AltCall(job, k)] + AltRun(job, k + 1, m + 1);
    assert log + AltRun(job, k, m + 1) == log1 + AltRun(job, k + 1, m + 1);
    if k == m {
      assert log + AltRun(job, k, m + 1) == log1;
    } else {
      assert !IsOk(Answer(job.script, |log|));
      assert AltFrom(job, k, log) == AltFrom(job, k + 1, log1);
      AltFromFirstOk(job, k + 1, m, log1, s);
    }
  }

  /**
   * After a 404, the first alternate endpoint that answers ok with a string
   * `data[0]` answers the request: the calls are the primary POST and the
   * alternate POSTs up to that one, in order, and the reply is its audio.
   */
  lemma AlternateAnswers(job: Job, statusText: string, text: string, m: nat, s: string)
    requires Answer(job.script, 0) == Response(404, statusText, text)
    requires m < |AltPaths|
    requires forall n :: 1 <= n <= m ==> !IsOk(Answer(job.script, n))
    requires IsOk(Answer(job.script, m + 1)) && AltString(job.platform, Answer(job.script, m + 1).body) == Some(s)
    ensures var calls := [PrimaryCall(job)] + AltRun(job, 0, m + 1);
      && |calls| == m + 2
      && (Classify(s).Inline? ==> Submit(job) == (AudioReply(Classify(s).base64), calls))
      && (Classify(s).Raw? ==> Submit(job) == (AudioReply(Some(s)), calls))
      && (Classify(s).Remote? && !Answer(job.script, m + 2).Thrown? ==>
            Submit(job) == (AudioReply(Some(job.platform.base64OfBody(Answer(job.script, m + 2).body))), calls + [DownloadCall(s)]))
  {
    var log := [PrimaryCall(job)];
    AltFromFirstOk(job, 0, m, log, s);
    AltFromReplies(job, 0, log);
  }

  /**
   * A non-null synchronous result without a truthy `event_id` and without a
   * string first `data` element (no `data`, an empty one, or a first element
   * that is not a string) fails with 500, the result as details, and no call.
   */
  lemma SyncResultUnusable(job: Job, result: Json, log: seq<Call>)
    requires !result.JNull? && !Truthy(Get(result, "event_id"))
    requires var d := Get(result, "data");
      !Truthy(d) || !HasElements(d.value) || !(Index0(d.value).Some? && Index0(d.value).value.JStr?)
    ensures Accepted(job, result, log) == (FailureWithDetails(500, UnexpectedFormat, result), log)
  {
  }

  /**
   * A synchronous string result `s` is read in the order: a `data:` URI
   * gives the text after its first comma; otherwise an `http` URL is
   * downloaded (500 when the download throws); anything else is sent back
   * as it is. Only the download makes a call.
   */
  lemma SyncResultClassified(job: Job, result: Json, log: seq<Call>, s: string)
    requires !result.JNull? && !Truthy(Get(result, "event_id"))
    requires FirstDataString(result) == Some(s)
    ensures StartsWith(s, "data:") ==> Accepted(job, result, log) == (AudioReply(SplitField(s, ',', 1)), log)
    ensures !StartsWith(s, "data:") && StartsWith(s, "http") ==>
      var d := Answer(job.script, |log|);
      Accepted(job, result, log)
        == (if d.Thrown? then Failure(500, DownloadFailed) else AudioReply(Some(job.platform.base64OfBody(d.body))),
            log + [DownloadCall(s)])
    ensures !StartsWith(s, "data:") && !StartsWith(s, "http") ==> Accepted(job, result, log) == (AudioReply(Some(s)), log)
  {
  }

  /** A 2xx submission whose body is not JSON fails with 500 after the one call. */
  lemma UnparseableSubmission(job: Job, status: int, statusText: string, text: string)
    requires Answer(job.script, 0) == Response(status, statusText, text) && 200 <= status <= 299
    requires job.platform.parseJson(text).None?
    ensures Submit(job) == (Failure(500, FormatError), [PrimaryCall(job)])
  {
  }

  /** A download request carries no `Authorization` header, so it is never a poll. */
  lemma {:induction false} ScanFromOnlyDownloads(job: Job, lines: seq<string>, j: nat, log: seq<Call>, c: Call)
    requires c.authorization.Some?
    ensures Count(ScanFrom(job, lines, j, log).1, c) == Count(log, c)
    ensures ScanFrom(job, lines, j, log).0.Some? ==> ScanFrom(job, lines, j, log).0.value.status == 200
    decreases |lines| - j
  {
    if j < |lines| {
      ScanFromOnlyDownloads(job, lines, j + 1, log, c);
      match LineAudioUrl(job.platform, lines[j])
      case None =>
      case Some(u) =>
        CountAppend(log, [DownloadCall(u)], c);
        assert Count([DownloadCall(u)], c) == 0 by {
          assert [DownloadCall(u)][..0] == [];
        }
        ScanFromOnlyDownloads(job, lines, j + 1, log + [DownloadCall(u)], c);
    }
  }

  /** One poll attempt issues exactly one poll request. */
  lemma PollAttemptCount(job: Job, url: string, log: seq<Call>)
    ensures Count(PollAttempt(job, url, log).1, PollCall(job, url)) == Count(log, PollCall(job, url)) + 1
    ensures PollAttempt(job, url, log).0.Some? ==> PollAttempt(job, url, log).0.value.status == 200
  {
    var c := PollCall(job, url);
    var log1 := log + [c];
    assert log1[..|log1| - 1] == log;
    var o := Answer(job.script, |log|);
    if IsOk(o) && MaybeComplete(o.body) {
      ScanFromOnlyDownloads(job, DataLines(Split(o.body, '\n')), 0, log1, c);
    }
  }

  /**
   * The poll loop makes at most 30 requests to the event URL; it ends with
   * audio (status 200) or with the 408 timeout, and the timeout comes only
   * after all of its attempts were spent.
   */
  lemma {:induction false} PollBudget(job: Job, url: string, i: nat, log: seq<Call>)
    requires i <= MaxRetries
    ensures var (reply, log1) := PollFrom(job, url, i, log);
      && Count(log1, PollCall(job, url)) <= Count(log, PollCall(job, url)) + (MaxRetries - i)
      && (reply.status == 200 || reply == Failure(408, TimeoutMessage))
      && (reply.status == 408 ==> Count(log1, PollCall(job, url)) == Count(log, PollCall(job, url)) + (MaxRetries - i))
    decreases MaxRetries - i
  {
    if i < MaxRetries {
      PollAttemptCount(job, url, log);
      var (found, log1) := PollAttempt(job, url, log);
      if found.None? {
        assert PollFrom(job, url, i, log) == PollFrom(job, url, i + 1, log1);
        PollBudget(job, url, i + 1, log1);
      } else {
        assert PollFrom(job, url, i, log) == (found.value, log1);
      }
    }
  }

  /** `n` copies of the same call. */
  function Repeat(c: Call, n: nat): (r: seq<Call>)
    ensures |r| == n && forall k :: 0 <= k < n ==> r[k] == c
  {
    if n == 0 then [] else Repeat(c, n - 1) + [c]
  }

  /** When every remaining poll fails, the loop times out after exactly its remaining polls and nothing else. */
  lemma {:induction false} AllPollsFail(job: Job, url: string, i: nat, log: seq<Call>)
    requires i <= MaxRetries
    requires forall n :: |log| <= n < |log| + (MaxRetries - i) ==> !IsOk(Answer(job.script, n))
    ensures PollFrom(job, url, i, log) == (Failure(408, TimeoutMessage), log + Repeat(PollCall(job, url), MaxRetries - i))
    decreases MaxRetries - i
  {
    if i < MaxRetries {
      var c := PollCall(job, url);
      assert !IsOk(Answer(job.script, |log|));
      var log1 := log + [c];
      assert PollAttempt(job, url, log) == (None, log1);
      AllPollsFail(job, url, i + 1, log1);
      assert Repeat(c, MaxRetries - i) == [c] + Repeat(c, MaxRetries - (i + 1)) by {
        var a := Repeat(c, MaxRetries - i);
        var b := [c] + Repeat(c, MaxRetries - (i + 1));
        assert |a| == |b|;
        assert forall k :: 0 <= k < |a| ==> a[k] == b[k];
      }
      assert log + Repeat(c, MaxRetries - i) == log1 + Repeat(c, MaxRetries - (i + 1));
    } else {
      assert Repeat(PollCall(job, url), MaxRetries - i) == [];
      assert log + [] == log;
    }
  }

  /** A scan in which no line carries an audio URL finds nothing and issues no request. */
  lemma {:induction false} ScanWithoutUrls(job: Job, lines: seq<string>, j: nat, log: seq<Call>)
    requires forall jj :: j <= jj < |lines| ==> LineAudioUrl(job.platform, lines[jj]).None?
    ensures ScanFrom(job, lines, j, log) == (None, log)
    decreases |lines| - j
  {
    if j < |lines| {
      ScanWithoutUrls(job, lines, j + 1, log);
    }
  }

  /** Audio found by a scan came from a line that carries an audio URL. */
  lemma {:induction false} ScanFoundFromUrl(job: Job, lines: seq<string>, j: nat, log: seq<Call>)
    requires ScanFrom(job, lines, j, log).0.Some?
    ensures exists jj :: j <= jj < |lines| && LineAudioUrl(job.platform, lines[jj]).Some?
    decreases |lines| - j
  {
    if j < |lines| && LineAudioUrl(job.platform, lines[j]).None? {
      ScanFoundFromUrl(job, lines, j + 1, log);
    } else if j < |lines| {
      assert LineAudioUrl(job.platform, lines[j]).Some?;
    }
  }

  /** A truthy `event_id` wins over any `data` array in the same body: the loop polls and never reads `data`. */
  lemma EventIdShadowsData(job: Job, result: Json, log: seq<Call>)
    requires !result.JNull? && Truthy(Get(result, "event_id"))
    ensures Accepted(job, result, log) == PollFrom(job, EventUrl(job, Get(result, "event_id").value), 0, log)
    ensures Accepted(job, result, log).0.status == 200 || Accepted(job, result, log).0 == Failure(408, TimeoutMessage)
  {
    PollBudget(job, EventUrl(job, Get(result, "event_id").value), 0, log);
  }

  /**
   * The reference audio travels as `data:audio/wav;base64,<b64>`; read back as
   * a synchronous result, that URI yields the same base64 text.
   */
  lemma DataUriRoundTrip(b64: string)
    requires ',' !in b64
    ensures Classify("data:audio/wav;base64," + b64) == Inline(Some(b64))
  {
    var a := "data:audio/wav;base64";
    assert "data:audio/wav;base64," + b64 == a + [','] + b64 + [];
    SecondField(a, ',', b64, []);
    assert StartsWith("data:audio/wav;base64," + b64, "data:");
  }
}
