/**
 * `GET /api/test-blob`: checks with a HEAD request that a stored sample
 * file is reachable, submits it to the Space, polls the event stream once,
 * and reports what the first chunk of the stream says: an error (with the
 * message the `data: ...` line carries), a heartbeat, completion, or
 * nothing known.
 */
module TestBlobRoute {
  import opened Wrappers
  import opened JsText
  import opened JsonValue
  import opened Http
  import opened GradioSpace

  const TestUrl := "https://aul5hsnqwn21br8h.public.blob.vercel-storage.com/audio-1757862042831.wav"

  /** The submission: the stored file by URL, the reference text, the text to speak, remove_silence. */
  const BlobPayload: Json := JObj(map["data" := JArr([
    JObj(map[
      "path" := JStr(TestUrl),
      "orig_name" := JStr("test_audio.wav"),
      "mime_type" := JStr("audio/wav"),
      "size" := JNull,
      "is_stream" := JBool(false),
      "meta" := JObj(map["_type" := JStr("gradio.FileData")])]),
    JStr("Test text"),
    JStr("Hello world from Vercel Blob!"),
    JBool(true)])])

  /** `fetch(testUrl, { method: 'HEAD' })`. */
  const HeadCall := Call(HEAD, TestUrl, None, NoBody)

  const UnknownErrorMessage := "未知错误"

  // ---------------------------------------------------------------------------
  // The pattern /data: "?([^"\n]+)"?/
  // ---------------------------------------------------------------------------

  /** A character of the class `[^"\n]`. */
  predicate InClass(c: char) {
    c != '"' && c != '\n'
  }

  /** The longest run of class characters starting at `k` (what the greedy `+` takes). */
  function RunLength(s: string, k: nat): (n: nat)
    requires k <= |s|
    ensures k + n <= |s|
    ensures forall m :: k <= m < k + n ==> InClass(s[m])
    ensures k + n == |s| || !InClass(s[k + n])
    decreases |s| - k
  {
    if k < |s| && InClass(s[k]) then 1 + RunLength(s, k + 1) else 0
  }

  /** Where the capture begins for a match attempt at `i`: after the optional quote. */
  function CaptureStart(s: string, i: nat): nat
    requires OccursAt(s, "data: ", i)
  {
    if i + 6 < |s| && s[i + 6] == '"' then i + 7 else i + 6
  }

  /**
   * The capture group of a match attempt at an occurrence `i` of "data: ":
   * none when no class character follows (after the optional quote).
   */
  function CaptureAt(s: string, i: nat): (g: Option<string>)
    requires OccursAt(s, "data: ", i)
    ensures g.Some? ==> |g.value| >= 1 && forall m :: 0 <= m < |g.value| ==> InClass(g.value[m])
    ensures g.Some? ==> var start := CaptureStart(s, i);
      && start + |g.value| <= |s| && s[start..start + |g.value|] == g.value
      && (start + |g.value| == |s| || !InClass(s[start + |g.value|]))
    ensures g.None? <==> CaptureStart(s, i) == |s| || !InClass(s[CaptureStart(s, i)])
  {
    var start := CaptureStart(s, i);
    var n := RunLength(s, start);
    if n > 0 then Some(s[start..start + n]) else None
  }

  /** The pattern matches at index `i`. */
  predicate MatchesAt(s: string, i: nat) {
    OccursAt(s, "data: ", i) && CaptureAt(s, i).Some?
  }

  /** `s.match(/data: "?([^"\n]+)"?/)` searched from `from`: the capture at the leftmost match. */
  function FirstCapture(s: string, from: nat): Option<string>
    decreases |s| - from
  {
    if from + 6 > |s| then None
    else if MatchesAt(s, from) then CaptureAt(s, from)
    else FirstCapture(s, from + 1)
  }

  // ---------------------------------------------------------------------------
  // The report
  // ---------------------------------------------------------------------------

  /** The `status` and `message` read off the event data. */
  datatype Verdict = Verdict(status: string, message: string)

  /** Markers are checked in the order error, heartbeat, complete. */
  function Analyse(eventData: string): Verdict {
    if Includes(eventData, "event: error") then
      Verdict("error", FirstCapture(eventData, 0).GetOr(UnknownErrorMessage))
    else if Includes(eventData, "event: heartbeat") then Verdict("processing", "正在处理中...")
    else if Includes(eventData, "event: complete") then Verdict("success", "处理完成！")
    else Verdict("unknown", "")
  }

  /** The 200 report: the verdict, the event id, the file URL and the first 500 characters of the stream. */
  function Report(eventId: Json, eventData: string): Reply {
    var v := Analyse(eventData);
    Reply(200, JObj(map[
      "success" := JBool(v.status != "error"),
      "status" := JStr(v.status),
      "message" := JStr(v.message),
      "eventId" := eventId,
      "testUrl" := JStr(TestUrl),
      "eventData" := JStr(Prefix(eventData, 500))]))
  }

  /** The catch-all reply. */
  function TestFailed(details: string): Reply {
    Reply(500, JObj(map["error" := JStr("测试失败"), "details" := JStr(details)]))
  }

  function BlobUnreachable(status: int): Reply {
    Reply(400, JObj(map["error" := JStr("Blob URL无法访问"), "status" := JNum(status)]))
  }

  function SubmitFailed(status: int, details: string): Reply {
    Reply(status, JObj(map["error" := JStr("F5-TTS调用失败"), "status" := JNum(status), "details" := JStr(details)]))
  }

  function NoEventId(result: Json): Reply {
    Reply(500, JObj(map["error" := JStr("未获得event_id"), "result" := result]))
  }

  /** The whole handler. */
  function GetSpec(cfg: Config, platform: Platform, script: seq<Outcome>): (Reply, seq<Call>) {
    var check := Answer(script, 0);
    var log0 := [HeadCall];
    if check.Thrown? then (TestFailed(check.error.message), log0)
    else if !IsOk(check) then (BlobUnreachable(check.status), log0)
    else
      var response := Answer(script, 1);
      var log1 := log0 + [SubmitCall(cfg, BlobPayload)];
      if response.Thrown? then (TestFailed(response.error.message), log1)
      else if !IsOk(response) then (SubmitFailed(response.status, response.body), log1)
      else match platform.parseJson(response.body)
        case None => (TestFailed(platform.parseErrorMessage(response.body)), log1)
        case Some(result) =>
          if result.JNull? then (TestFailed(NullEventIdRead), log1)
          else
            var eventId := Get(result, "event_id");
            if !Truthy(eventId) then (NoEventId(result), log1)
            else
              var eventResponse := Answer(script, 2);
              var log2 := log1 + [PollCall(cfg, EventUrl(cfg, eventId.value))];
              if eventResponse.Thrown? then (TestFailed(eventResponse.error.message), log2)
              else (Report(eventId.value, eventResponse.body), log2)
  }

  /** The event id the submission's answer carries, when it parses to an object that has one. */
  function SubmittedEventId(platform: Platform, response: Outcome): Option<Json> {
    if response.Response? && platform.parseJson(response.body).Some? then
      Get(platform.parseJson(response.body).value, "event_id")
    else None
  }

  /**
   * The handler stops at the first check that fails: an unreachable file
   * with 400 after the HEAD request alone; a rejected submission with its
   * own status after two calls; an answer without a truthy `event_id` with
   * 500 after two calls. Only a third call polls, once, the event stream.
   */
  lemma EarlyReplies(cfg: Config, platform: Platform, script: seq<Outcome>)
    ensures var (reply, calls) := GetSpec(cfg, platform, script);
      Answer(script, 0).Response? && !IsOk(Answer(script, 0)) ==>
        reply == BlobUnreachable(Answer(script, 0).status) && reply.status == 400 && calls == [HeadCall]
    ensures var (reply, calls) := GetSpec(cfg, platform, script);
      IsOk(Answer(script, 0)) && Answer(script, 1).Response? && !IsOk(Answer(script, 1)) ==>
        reply.status == Answer(script, 1).status && |calls| == 2
    ensures var (reply, calls) := GetSpec(cfg, platform, script);
      IsOk(Answer(script, 0)) && IsOk(Answer(script, 1)) && platform.parseJson(Answer(script, 1).body).Some?
      && !platform.parseJson(Answer(script, 1).body).value.JNull?
      && !Truthy(SubmittedEventId(platform, Answer(script, 1))) ==>
        reply.status == 500 && |calls| == 2
    ensures var (reply, calls) := GetSpec(cfg, platform, script);
      |calls| == 3 ==>
        (Truthy(SubmittedEventId(platform, Answer(script, 1)))
         && calls[2] == PollCall(cfg, EventUrl(cfg, SubmittedEventId(platform, Answer(script, 1)).value)))
  {
  }

  /** `GET /api/test-blob`. */
  method HandleGet(cfg: Config, platform: Platform, script: seq<Outcome>) returns (reply: Reply, calls: seq<Call>)
    ensures (reply, calls) == GetSpec(cfg, platform, script)
    ensures 1 <= |calls| <= 3 && calls[0] == HeadCall
    ensures |calls| >= 2 ==> calls[1] == SubmitCall(cfg, BlobPayload)
    ensures 200 <= reply.status <= 299 ==> |calls| == 3
    ensures Answer(script, 0).Response? && !IsOk(Answer(script, 0)) ==> reply.status == 400 && calls == [HeadCall]
    ensures IsOk(Answer(script, 0)) && Answer(script, 1).Response? && !IsOk(Answer(script, 1)) ==>
      reply.status == Answer(script, 1).status && |calls| == 2
    ensures |calls| == 3 ==>
      (Truthy(SubmittedEventId(platform, Answer(script, 1)))
       && calls[2] == PollCall(cfg, EventUrl(cfg, SubmittedEventId(platform, Answer(script, 1)).value)))
  {
    EarlyReplies(cfg, platform, script);
    calls := [HeadCall];
    var checkResponse := Answer(script, 0);
    if checkResponse.Thrown? {
      return TestFailed(checkResponse.error.message), calls;
    }
    if !IsOk(checkResponse) {
      return BlobUnreachable(checkResponse.status), calls;
    }
    var response := Answer(script, 1);
    calls := calls + [SubmitCall(cfg, BlobPayload)];
    if response.Thrown? {
      return TestFailed(response.error.message), calls;
    }
    if !IsOk(response) {
      return SubmitFailed(response.status, response.body), calls;
    }
    var parsed := platform.parseJson(response.body);
    if parsed.None? {
      return TestFailed(platform.parseErrorMessage(response.body)), calls;
    }
    var result := parsed.value;
    if result.JNull? {
      return TestFailed(NullEventIdRead), calls;
    }
    var eventId := Get(result, "event_id");
    if !Truthy(eventId) {
      return NoEventId(result), calls;
    }
    var eventResponse := Answer(script, 2);
    calls := calls + [PollCall(cfg, EventUrl(cfg, eventId.value))];
    if eventResponse.Thrown? {
      return TestFailed(eventResponse.error.message), calls;
    }
    reply := Report(eventId.value, eventResponse.body);
  }

  // ---------------------------------------------------------------------------
  // Properties
  // ---------------------------------------------------------------------------

  /**
   * The pattern's result is the capture at its leftmost match from `from`:
   * no earlier index matches, and there is no result exactly when no index
   * matches at all.
   */
  lemma {:induction false} FirstCaptureLeftmost(s: string, from: nat)
    ensures FirstCapture(s, from).None? <==> forall j :: from <= j ==> !MatchesAt(s, j)
    ensures FirstCapture(s, from).Some? ==>
      exists i :: from <= i && MatchesAt(s, i) && FirstCapture(s, from) == CaptureAt(s, i)
                  && forall j :: from <= j < i ==> !MatchesAt(s, j)
    decreases |s| - from
  {
    if from + 6 > |s| {
      forall j | from <= j
        ensures !MatchesAt(s, j)
      {
        assert !OccursAt(s, "data: ", j);
      }
    } else if MatchesAt(s, from) {
      assert FirstCapture(s, from) == CaptureAt(s, from);
    } else {
      assert FirstCapture(s, from) == FirstCapture(s, from + 1);
      FirstCaptureLeftmost(s, from + 1);
      if FirstCapture(s, from + 1).Some? {
        var i :| from + 1 <= i && MatchesAt(s, i) && FirstCapture(s, from + 1) == CaptureAt(s, i)
                  && forall j :: from + 1 <= j < i ==> !MatchesAt(s, j);
        assert forall j :: from <= j < i ==> !MatchesAt(s, j);
      }
    }
  }

  /** A quoted message is reported without its quotes: `data: "m"` yields `m`. */
  lemma QuotedMessage(m: string, rest: string)
    requires |m| >= 1 && forall k :: 0 <= k < |m| ==> InClass(m[k])
    requires rest == [] || !InClass(rest[0])
    ensures FirstCapture("data: \"" + m + rest, 0) == Some(m)
  {
    var s := "data: \"" + m + rest;
    assert OccursAt(s, "data: ", 0) by {
      assert s[0..6] == "data: ";
    }
    assert CaptureStart(s, 0) == 7 by {
      assert s[6] == '"';
    }
    assert s[7..7 + |m|] == m;
    assert 7 + |m| == |s| || s[7 + |m|] == rest[0];
  }

  /** The error marker decides the verdict, whatever other markers the data holds. */
  lemma ErrorMarkerFirst(eventData: string)
    ensures Analyse(eventData).status == "error" <==> Includes(eventData, "event: error")
    ensures Includes(eventData, "event: error") ==>
      Analyse(eventData).message == FirstCapture(eventData, 0).GetOr(UnknownErrorMessage)
  {
  }

  /** `success` is false exactly when the data holds the error marker; `eventData` is its first 500 characters. */
  lemma ReportSuccess(eventId: Json, eventData: string)
    ensures Report(eventId, eventData).body.fields["success"] == JBool(!Includes(eventData, "event: error"))
    ensures var shown := Report(eventId, eventData).body.fields["eventData"].s;
      |shown| == (if |eventData| < 500 then |eventData| else 500) && shown == eventData[..|shown|]
  {
    var v := Analyse(eventData);
    ErrorMarkerFirst(eventData);
    var shown := Prefix(eventData, 500);
    assert shown == eventData[..|shown|];
  }
}
