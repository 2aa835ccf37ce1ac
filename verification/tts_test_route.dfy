/**
 * `GET /api/tts-test`: submits the fixed sample request to
 * `${HF_SPACE_URL}/gradio_api/call/predict` and polls the event stream at
 * most 30 times. An `event: error` body ends the poll with a failure; an
 * `event: complete` body is scanned for its first `data: ` line whose
 * content parses. Unlike `POST /api/tts`, a poll request that throws ends
 * the whole handler in its catch-all 500.
 */
module TtsTestRoute {
  import opened Wrappers
  import opened JsText
  import opened JsonValue
  import opened Http
  import opened GradioSpace

  const MaxRetries: nat := 30

  /** The sample request: a reference file given by URL, its text, the text to speak, remove_silence. */
  const SamplePayload: Json := JObj(map["data" := JArr([
    JObj(map[
      "path" := JStr("https://github.com/gradio-app/gradio/raw/main/test/test_files/audio_sample.wav"),
      "meta" := JObj(map["_type" := JStr("gradio.FileData")])]),
    JStr("Hello world!"),
    JStr("I love programming!"),
    JBool(true)])])

  /** The catch-all reply: 500 with the thrown error's message. */
  function InternalError(details: string): Reply {
    Reply(500, JObj(map["error" := JStr("内部错误"), "details" := JStr(details)]))
  }

  /** A rejected submission, answered with the submission's own status. */
  function SubmitFailed(status: int, statusText: string): Reply {
    Reply(status, JObj(map["error" := JStr("提交失败"), "status" := JNum(status), "statusText" := JStr(statusText)]))
  }

  function NoEventId(result: Json): Reply {
    Reply(500, JObj(map["error" := JStr("未获得event_id"), "data" := result]))
  }

  function ProcessingFailed(eventData: string): Reply {
    Reply(500, JObj(map["error" := JStr("处理失败"), "eventData" := JStr(eventData)]))
  }

  function Success(result: Json): Reply {
    Reply(200, JObj(map["success" := JBool(true), "result" := result]))
  }

  function TimedOut(eventId: Json): Reply {
    Reply(408, JObj(map["error" := JStr("超时"), "eventId" := eventId]))
  }

  predicate IsTimeout(reply: Reply) {
    reply.status == 408 && reply.body.JObj? && "error" in reply.body.fields && reply.body.fields["error"] == JStr("超时")
  }

  /**
   * The content of a line that starts with "data: ": the rest of the line,
   * trimmed, when that is neither empty nor "null".
   */
  function LineContent(line: string): Option<string> {
    if StartsWith(line, "data: ") then
      var content := Trim(ReplaceFirst(line, "data: ", ""));
      if content != "" && content != "null" then Some(content) else None
    else None
  }

  /** What a line yields: its content, parsed. */
  function LineResult(platform: Platform, line: string): Option<Json> {
    match LineContent(line)
    case None => None
    case Some(content) => platform.parseJson(content)
  }

  /** The scan of a complete body's lines from index `j`. */
  function ScanFrom(platform: Platform, lines: seq<string>, j: nat): Option<Json>
    decreases |lines| - j
  {
    if j >= |lines| then None
    else match LineResult(platform, lines[j])
      case Some(result) => Some(result)
      case None => ScanFrom(platform, lines, j + 1)
  }

  /** How one poll outcome ends the loop, if it does. */
  function Attempt(platform: Platform, o: Outcome): Option<Reply> {
    match o
    case Thrown(e) => Some(InternalError(e.message))
    case Response(status, _, body) =>
      if !(200 <= status <= 299) then None
      else if Includes(body, "event: error") then Some(ProcessingFailed(body))
      else if Includes(body, "event: complete") then
        match ScanFrom(platform, Split(body, '\n'), 0)
        case Some(result) => Some(Success(result))
        case None => None
      else None
  }

  /** The poll loop from attempt `i` on, after the calls in `log`. */
  function PollFrom(cfg: Config, platform: Platform, script: seq<Outcome>, eventId: Json, i: nat, log: seq<Call>): (Reply, seq<Call>)
    decreases MaxRetries - i
  {
    if i >= MaxRetries then (TimedOut(eventId), log)
    else
      var log1 := log + [PollCall(cfg, EventUrl(cfg, eventId))];
      match Attempt(platform, Answer(script, |log|))
      case Some(reply) => (reply, log1)
      case None => PollFrom(cfg, platform, script, eventId, i + 1, log1)
  }

  /**
   * The submission and its answer: the event id to poll, or the reply that
   * ends the handler before polling.
   */
  function Submission(platform: Platform, submitResponse: Outcome): Result<Json, Reply> {
    match submitResponse
    case Thrown(e) => Err(InternalError(e.message))
    case Response(status, statusText, body) =>
      if !(200 <= status <= 299) then Err(SubmitFailed(status, statusText))
      else match platform.parseJson(body)
        case None => Err(InternalError(platform.parseErrorMessage(body)))
        case Some(result) =>
          if result.JNull? then Err(InternalError(NullEventIdRead))
          else
            var eventId := Get(result, "event_id");
            if !Truthy(eventId) then Err(NoEventId(result))
            else Ok(eventId.value)
  }

  /** The whole handler. */
  function GetSpec(cfg: Config, platform: Platform, script: seq<Outcome>): (Reply, seq<Call>) {
    var log := [SubmitCall(cfg, SamplePayload)];
    match Submission(platform, Answer(script, 0))
    case Err(reply) => (reply, log)
    case Ok(eventId) => PollFrom(cfg, platform, script, eventId, 0, log)
  }

  // ---------------------------------------------------------------------------
  // The handler and its loops
  // ---------------------------------------------------------------------------

  /** The `for (const line of lines)` scan of a complete body. */
  method ScanLines(platform: Platform, lines: seq<string>) returns (found: Option<Json>)
    ensures found == ScanFrom(platform, lines, 0)
  {
    for j := 0 to |lines|
      invariant ScanFrom(platform, lines, j) == ScanFrom(platform, lines, 0)
    {
      var line := lines[j];
      if StartsWith(line, "data: ") {
        var dataContent := Trim(ReplaceFirst(line, "data: ", ""));
        if dataContent != "" && dataContent != "null" {
          var result := platform.parseJson(dataContent);
          if result.Some? {
            return result;
          }
        }
      }
    }
    return None;
  }

  /** The body of the poll loop after the request: whether, and how, the outcome ends the loop. */
  method Inspect(platform: Platform, eventResponse: Outcome) returns (stop: Option<Reply>)
    ensures stop == Attempt(platform, eventResponse)
  {
    if eventResponse.Thrown? {
      return Some(InternalError(eventResponse.error.message));
    }
    stop := None;
    if 200 <= eventResponse.status <= 299 {
      var eventData := eventResponse.body;
      if Includes(eventData, "event: error") {
        return Some(ProcessingFailed(eventData));
      }
      if Includes(eventData, "event: complete") {
        var result := ScanLines(platform, Split(eventData, '\n'));
        if result.Some? {
          stop := Some(Success(result.value));
        }
      }
    }
  }

  /** One step of the poll loop, in terms of the attempt's outcome. */
  lemma PollStep(cfg: Config, platform: Platform, script: seq<Outcome>, eventId: Json, i: nat, log: seq<Call>)
    requires i < MaxRetries
    ensures var log1 := log + [PollCall(cfg, EventUrl(cfg, eventId))];
      var a := Attempt(platform, Answer(script, |log|));
      PollFrom(cfg, platform, script, eventId, i, log)
        == if a.Some? then (a.value, log1) else PollFrom(cfg, platform, script, eventId, i + 1, log1)
  {
  }

  /** The `for (let i = 0; i < maxRetries; i++)` poll loop. */
  method PollEvents(cfg: Config, platform: Platform, script: seq<Outcome>, eventId: Json, log0: seq<Call>)
    returns (reply: Reply, log: seq<Call>)
    ensures (reply, log) == PollFrom(cfg, platform, script, eventId, 0, log0)
  {
    var eventUrl := EventUrl(cfg, eventId);
    log := log0;
    var i := 0;
    while i < MaxRetries
      invariant 0 <= i <= MaxRetries
      invariant PollFrom(cfg, platform, script, eventId, i, log) == PollFrom(cfg, platform, script, eventId, 0, log0)
    {
      ghost var before := log;
      var eventResponse := Answer(script, |log|);
      log := log + [PollCall(cfg, eventUrl)];
      var stop := Inspect(platform, eventResponse);
      PollStep(cfg, platform, script, eventId, i, before);
      if stop.Some? {
        return stop.value, log;
      }
      i := i + 1;
    }
    reply := TimedOut(eventId);
  }

  /** The submission's answer read up to its `event_id`. */
  method ReadSubmission(platform: Platform, submitResponse: Outcome) returns (r: Result<Json, Reply>)
    ensures r == Submission(platform, submitResponse)
  {
    if submitResponse.Thrown? {
      return Err(InternalError(submitResponse.error.message));
    }
    if !(200 <= submitResponse.status <= 299) {
      return Err(SubmitFailed(submitResponse.status, submitResponse.statusText));
    }
    var parsed := platform.parseJson(submitResponse.body);
    if parsed.None? {
      return Err(InternalError(platform.parseErrorMessage(submitResponse.body)));
    }
    var submitResult := parsed.value;
    if submitResult.JNull? {
      return Err(InternalError(NullEventIdRead));
    }
    var eventId := Get(submitResult, "event_id");
    if !Truthy(eventId) {
      return Err(NoEventId(submitResult));
    }
    r := Ok(eventId.value);
  }

  /** `GET /api/tts-test`. */
  method HandleGet(cfg: Config, platform: Platform, script: seq<Outcome>) returns (reply: Reply, calls: seq<Call>)
    ensures (reply, calls) == GetSpec(cfg, platform, script)
    ensures 1 <= |calls| <= 1 + MaxRetries && calls[0] == SubmitCall(cfg, SamplePayload)
    ensures IsTimeout(reply) ==> |calls| == 1 + MaxRetries
  {
    SpecCalls(cfg, platform, script);
    calls := [SubmitCall(cfg, SamplePayload)];
    var submitted := ReadSubmission(platform, Answer(script, 0));
    if submitted.Err? {
      return submitted.error, calls;
    }
    var eventId := submitted.value;
    reply, calls := PollEvents(cfg, platform, script, eventId, calls);
  }

  /**
   * The handler's calls: the submission first, then at most `MaxRetries`
   * polls, all of them when the handler times out.
   */
  lemma SpecCalls(cfg: Config, platform: Platform, script: seq<Outcome>)
    ensures var calls := GetSpec(cfg, platform, script).1;
      1 <= |calls| <= 1 + MaxRetries && calls[0] == SubmitCall(cfg, SamplePayload)
    ensures IsTimeout(GetSpec(cfg, platform, script).0) ==> |GetSpec(cfg, platform, script).1| == 1 + MaxRetries
  {
    var log := [SubmitCall(cfg, SamplePayload)];
    match Submission(platform, Answer(script, 0))
    case Err(_) =>
    case Ok(eventId) =>
      assert GetSpec(cfg, platform, script) == PollFrom(cfg, platform, script, eventId, 0, log);
      PollLog(cfg, platform, script, eventId, log);
  }

  /** The whole poll loop after one earlier call keeps that call first and adds at most `MaxRetries`. */
  lemma PollLog(cfg: Config, platform: Platform, script: seq<Outcome>, eventId: Json, log: seq<Call>)
    requires |log| == 1
    ensures var calls := PollFrom(cfg, platform, script, eventId, 0, log).1;
      1 <= |calls| <= 1 + MaxRetries && calls[0] == log[0]
    ensures IsTimeout(PollFrom(cfg, platform, script, eventId, 0, log).0) ==>
      |PollFrom(cfg, platform, script, eventId, 0, log).1| == 1 + MaxRetries
  {
    PollCalls(cfg, platform, script, eventId, 0, log);
    PollTimeout(cfg, platform, script, eventId, 0, log);
    var calls := PollFrom(cfg, platform, script, eventId, 0, log).1;
    assert calls[..1] == log;
  }

  // ---------------------------------------------------------------------------
  // Properties
  // ---------------------------------------------------------------------------

  /**
   * A submission that ends the handler ends it before any poll: a non-ok
   * answer is replied to with its own status and status text, and a parsed
   * answer without a truthy `event_id` with 500 and the parsed body.
   */
  lemma NoPollWithoutEventId(cfg: Config, platform: Platform, script: seq<Outcome>)
    ensures Submission(platform, Answer(script, 0)).Err? ==>
      GetSpec(cfg, platform, script).1 == [SubmitCall(cfg, SamplePayload)]
    ensures var o := Answer(script, 0);
      o.Response? && !(200 <= o.status <= 299) ==>
        GetSpec(cfg, platform, script).0 == SubmitFailed(o.status, o.statusText)
        && GetSpec(cfg, platform, script).0.status == o.status
    ensures var o := Answer(script, 0);
      o.Response? && 200 <= o.status <= 299 && platform.parseJson(o.body).Some?
      && !platform.parseJson(o.body).value.JNull? && !Truthy(Get(platform.parseJson(o.body).value, "event_id")) ==>
        GetSpec(cfg, platform, script) == (NoEventId(platform.parseJson(o.body).value), [SubmitCall(cfg, SamplePayload)])
        && GetSpec(cfg, platform, script).0.status == 500
  {
  }

  /** A non-ok poll answer neither replies nor stops the loop: the next attempt follows. */
  lemma NonOkPollContinues(cfg: Config, platform: Platform, script: seq<Outcome>, eventId: Json, i: nat, log: seq<Call>)
    requires i < MaxRetries
    requires Answer(script, |log|).Response? && !(200 <= Answer(script, |log|).status <= 299)
    ensures PollFrom(cfg, platform, script, eventId, i, log)
      == PollFrom(cfg, platform, script, eventId, i + 1, log + [PollCall(cfg, EventUrl(cfg, eventId))])
  {
  }

  /** A poll attempt that ends the loop answers 200 or 500, never with the timeout. */
  lemma AttemptReplies(platform: Platform, o: Outcome)
    ensures Attempt(platform, o).Some? ==> Attempt(platform, o).value.status in {200, 500}
    ensures Attempt(platform, o).Some? ==> !IsTimeout(Attempt(platform, o).value)
  {
  }

  /** `after` is `before` followed by at most `n` copies of `c` and nothing else. */
  predicate AppendsOnly(before: seq<Call>, after: seq<Call>, c: Call, n: nat) {
    && |before| <= |after| <= |before| + n
    && after[..|before|] == before
    && forall k :: |before| <= k < |after| ==> after[k] == c
  }

  lemma AppendsOnlyStep(log: seq<Call>, after: seq<Call>, c: Call, n: nat)
    requires AppendsOnly(log + [c], after, c, n)
    ensures AppendsOnly(log, after, c, n + 1)
  {
    assert after[..|log|] == (log + [c])[..|log|];
  }

  /**
   * The poll loop issues one GET to the event URL per attempt and nothing
   * else, at most its remaining attempts.
   */
  lemma {:induction false} PollCalls(cfg: Config, platform: Platform, script: seq<Outcome>, eventId: Json, i: nat, log: seq<Call>)
    requires i <= MaxRetries
    ensures AppendsOnly(log, PollFrom(cfg, platform, script, eventId, i, log).1, PollCall(cfg, EventUrl(cfg, eventId)), MaxRetries - i)
    decreases MaxRetries - i
  {
    var c := PollCall(cfg, EventUrl(cfg, eventId));
    if i < MaxRetries {
      var log1 := log + [c];
      var a := Attempt(platform, Answer(script, |log|));
      if a.None? {
        assert PollFrom(cfg, platform, script, eventId, i, log) == PollFrom(cfg, platform, script, eventId, i + 1, log1);
        PollCalls(cfg, platform, script, eventId, i + 1, log1);
        AppendsOnlyStep(log, PollFrom(cfg, platform, script, eventId, i + 1, log1).1, c, MaxRetries - (i + 1));
      } else {
        assert PollFrom(cfg, platform, script, eventId, i, log) == (a.value, log1);
        AppendsOnlyStep(log, log1, c, 0);
      }
    } else {
      assert AppendsOnly(log, log, c, 0);
    }
  }

  /** The poll loop times out only after all of its remaining attempts. */
  lemma {:induction false} PollTimeout(cfg: Config, platform: Platform, script: seq<Outcome>, eventId: Json, i: nat, log: seq<Call>)
    requires i <= MaxRetries
    ensures IsTimeout(PollFrom(cfg, platform, script, eventId, i, log).0) ==>
              |PollFrom(cfg, platform, script, eventId, i, log).1| == |log| + (MaxRetries - i)
    decreases MaxRetries - i
  {
    if i < MaxRetries {
      var log1 := log + [PollCall(cfg, EventUrl(cfg, eventId))];
      var o := Answer(script, |log|);
      AttemptReplies(platform, o);
      if Attempt(platform, o).None? {
        assert PollFrom(cfg, platform, script, eventId, i, log) == PollFrom(cfg, platform, script, eventId, i + 1, log1);
        PollTimeout(cfg, platform, script, eventId, i + 1, log1);
      } else {
        assert PollFrom(cfg, platform, script, eventId, i, log) == (Attempt(platform, o).value, log1);
      }
    }
  }

  /** A poll that throws ends the handler with the catch-all 500, whatever attempts remain. */
  lemma ThrownPollEndsHandler(cfg: Config, platform: Platform, script: seq<Outcome>, eventId: Json, i: nat, log: seq<Call>)
    requires i < MaxRetries && Answer(script, |log|).Thrown?
    ensures PollFrom(cfg, platform, script, eventId, i, log)
      == (InternalError(Answer(script, |log|).error.message), log + [PollCall(cfg, EventUrl(cfg, eventId))])
  {
  }

  /** An `event: error` marker wins over an `event: complete` marker in the same body. */
  lemma ErrorMarkerWins(platform: Platform, status: int, statusText: string, body: string)
    requires 200 <= status <= 299 && Includes(body, "event: error")
    ensures Attempt(platform, Response(status, statusText, body)) == Some(ProcessingFailed(body))
  {
  }

  /** A "data: " line yields its trimmed remainder, unless that is empty or "null". */
  lemma DataLineContent(rest: string)
    ensures LineContent("data: " + rest) == if Trim(rest) != "" && Trim(rest) != "null" then Some(Trim(rest)) else None
  {
    assert "data: " + rest == [] + "data: " + rest;
    ReplaceFirstAt([], "data: ", rest, "");
    assert [] + "" + rest == rest;
    assert StartsWith("data: " + rest, "data: ");
  }

  /** The scan finds nothing exactly when no line from `j` on yields a result. */
  lemma {:induction false} ScanNoneIff(platform: Platform, lines: seq<string>, j: nat)
    ensures ScanFrom(platform, lines, j).None? <==> forall k :: j <= k < |lines| ==> LineResult(platform, lines[k]).None?
  {
    if forall k :: j <= k < |lines| ==> LineResult(platform, lines[k]).None? {
      ScanPastNone(platform, lines, j);
    } else {
      var k :| j <= k < |lines| && LineResult(platform, lines[k]).Some?;
      ScanReaches(platform, lines, j, k);
    }
  }

  /** A scan over lines that all yield nothing finds nothing. */
  lemma {:induction false} ScanPastNone(platform: Platform, lines: seq<string>, j: nat)
    requires forall k :: j <= k < |lines| ==> LineResult(platform, lines[k]).None?
    ensures ScanFrom(platform, lines, j).None?
    decreases |lines| - j
  {
    if j < |lines| {
      assert ScanFrom(platform, lines, j) == ScanFrom(platform, lines, j + 1);
      ScanPastNone(platform, lines, j + 1);
    }
  }

  /** A scan that reaches a line yielding a result finds something. */
  lemma {:induction false} ScanReaches(platform: Platform, lines: seq<string>, j: nat, k: nat)
    requires j <= k < |lines| && LineResult(platform, lines[k]).Some?
    ensures ScanFrom(platform, lines, j).Some?
    decreases k - j
  {
    if LineResult(platform, lines[j]).None? {
      assert ScanFrom(platform, lines, j) == ScanFrom(platform, lines, j + 1);
      ScanReaches(platform, lines, j + 1, k);
    }
  }

  /** What the scan finds is the result of a line all of whose predecessors (from `j`) yield nothing. */
  lemma {:induction false} ScanFindsFirst(platform: Platform, lines: seq<string>, j: nat)
    requires ScanFrom(platform, lines, j).Some?
    ensures exists k :: j <= k < |lines| && LineResult(platform, lines[k]) == ScanFrom(platform, lines, j)
                        && forall m :: j <= m < k ==> LineResult(platform, lines[m]).None?
    decreases |lines| - j
  {
    var r := ScanFrom(platform, lines, j);
    if LineResult(platform, lines[j]).None? {
      assert r == ScanFrom(platform, lines, j + 1);
      ScanFindsFirst(platform, lines, j + 1);
      var k :| j + 1 <= k < |lines| && LineResult(platform, lines[k]) == r
              && forall m :: j + 1 <= m < k ==> LineResult(platform, lines[m]).None?;
      assert forall m :: j <= m < k ==> LineResult(platform, lines[m]).None?;
    } else {
      assert LineResult(platform, lines[j]) == r;
    }
  }
}
