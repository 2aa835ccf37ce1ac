/**
 * The `useRecorder` hook of `useRecorder.ts`: the recording state the UI
 * renders, the refs it keeps (recorder, stream, chunks, start time, timer),
 * the callbacks it returns and the `MediaRecorder` events it handles. The
 * awaited microphone request is resolved by a parameter; every callback
 * runs to completion before the next one starts.
 */
module UseRecorder {
  import opened Wrappers
  import opened JsText
  import opened Bytes
  import opened Http

  /** `RecordingState` as the hook stores it. */
  datatype RecordingState = RecordingState(
    isRecording: bool,
    isProcessing: bool,
    recordedBlob: Option<Blob>,
    duration: int,
    error: Option<string>)

  /** `RecordingStatus`. */
  datatype RecordingStatus = Idle | Recording | Completed | Error

  /** The state the hook starts in and `clearRecording` returns to. */
  const Initial := RecordingState(false, false, None, 0, None)

  const RecorderFailure := "录音过程中发生错误"

  /** The message for a failed start: by the error's name, with a default. */
  function StartErrorMessage(e: JsError): (m: string)
    ensures e.name == "NotAllowedError" <==> m == "请允许访问麦克风权限"
    ensures e.name == "NotFoundError" <==> m == "未找到可用的麦克风设备"
    ensures e.name != "NotAllowedError" && e.name != "NotFoundError" <==> m == "无法访问麦克风"
  {
    if e.name == "NotAllowedError" then "请允许访问麦克风权限"
    else if e.name == "NotFoundError" then "未找到可用的麦克风设备"
    else "无法访问麦克风"
  }

  /** The bytes of the chunks, in order. */
  function Concat(chunks: seq<Blob>): seq<byte> {
    if chunks == [] then [] else Concat(chunks[..|chunks| - 1]) + chunks[|chunks| - 1].bytes
  }

  /** The total size of the chunks. */
  function TotalSize(chunks: seq<Blob>): nat {
    if chunks == [] then 0 else TotalSize(chunks[..|chunks| - 1]) + chunks[|chunks| - 1].Size()
  }

  /** The recorded blob holds every chunk's bytes: its size is the sum of theirs. */
  lemma {:induction false} ConcatSize(chunks: seq<Blob>)
    ensures |Concat(chunks)| == TotalSize(chunks)
    decreases |chunks|
  {
    if chunks != [] {
      ConcatSize(chunks[..|chunks| - 1]);
    }
  }

  /** `chunks[0]?.type || 'audio/webm'`. */
  function RecordedType(chunks: seq<Blob>): (t: string)
    ensures t != ""
    ensures chunks != [] && chunks[0].mimeType != "" ==> t == chunks[0].mimeType
  {
    if chunks != [] && chunks[0].mimeType != "" then chunks[0].mimeType else "audio/webm"
  }

  /** `MediaRecorder.state`. */
  datatype RecorderState = Inactive | Active

  /**
   * How `startRecording` goes: the microphone request rejects, or it is
   * granted and then `new MediaRecorder(...)` throws, or `recorder.start()`
   * throws, or recording starts. A failure carries the error it threw.
   */
  datatype StartOutcome =
    | Denied(error: JsError)
    | ConstructorFailed(error: JsError)
    | StartFailed(error: JsError)
    | Started

  /** `useRecorder()`: the state and the refs. */
  class Recorder {
    var state: RecordingState
    /** `mediaRecorder.current !== null`, and that recorder's `state` and `mimeType`. */
    var hasRecorder: bool
    var recorderState: RecorderState
    var recorderMimeType: string
    /** `stream.current !== null`. */
    var hasStream: bool
    var chunks: seq<Blob>
    var startTime: int
    /** `durationInterval.current !== null`. */
    var timerRunning: bool

    /**
     * Between callbacks: processing is over, a recording state implies a
     * recorder, and only non-empty chunks are kept.
     */
    predicate Valid()
      reads this
    {
      && !state.isProcessing
      && (state.isRecording ==> hasRecorder)
      && forall i :: 0 <= i < |chunks| ==> chunks[i].Size() > 0
    }

    constructor ()
      ensures Valid() && state == Initial && GetRecordingStatus() == Idle
      ensures !hasRecorder && !hasStream && chunks == [] && !timerRunning
    {
      state := Initial;
      hasRecorder := false;
      recorderState := Inactive;
      recorderMimeType := "";
      hasStream := false;
      chunks := [];
      startTime := 0;
      timerRunning := false;
    }

    /** `getRecordingStatus()`: error, then recording, then a recorded blob, then idle. */
    function GetRecordingStatus(): (s: RecordingStatus)
      reads this
      ensures s == Error <==> state.error.Some? && state.error.value != ""
      ensures s == Recording <==> !(state.error.Some? && state.error.value != "") && state.isRecording
      ensures s == Completed <==>
        !(state.error.Some? && state.error.value != "") && !state.isRecording && state.recordedBlob.Some?
      ensures s == Idle <==>
        !(state.error.Some? && state.error.value != "") && !state.isRecording && state.recordedBlob.None?
    {
      if state.error.Some? && state.error.value != "" then Error
      else if state.isRecording then Recording
      else if state.recordedBlob.Some? then Completed
      else Idle
    }

    /**
     * `startRecording()` going as `outcome` says, with the Opus check
     * answered by `opusSupported`, at time `now`. Any failure shows the
     * message for its error and leaves the timer and the start time alone;
     * a failure after the grant keeps the new stream and the cleared chunks,
     * and one in `start()` also keeps the new, inactive recorder.
     */
    method StartRecording(outcome: StartOutcome, opusSupported: bool, now: int)
      requires Valid()
      modifies this
      ensures Valid()
      ensures !outcome.Started? ==>
        && state == old(state).(error := Some(StartErrorMessage(outcome.error)), isProcessing := false)
        && startTime == old(startTime) && timerRunning == old(timerRunning)
        && GetRecordingStatus() == Error
      ensures outcome.Denied? ==>
        && hasRecorder == old(hasRecorder) && recorderState == old(recorderState)
        && recorderMimeType == old(recorderMimeType) && hasStream == old(hasStream) && chunks == old(chunks)
      ensures outcome.ConstructorFailed? ==>
        && hasRecorder == old(hasRecorder) && recorderState == old(recorderState)
        && recorderMimeType == old(recorderMimeType) && hasStream && chunks == []
      ensures outcome.StartFailed? ==>
        && hasRecorder && recorderState == Inactive && hasStream && chunks == []
        && recorderMimeType == (if opusSupported then "audio/webm;codecs=opus" else "audio/webm")
      ensures outcome.Started? ==>
        && state == old(state).(isRecording := true, isProcessing := false, duration := 0, error := None)
        && hasRecorder && recorderState == Active && hasStream && chunks == [] && startTime == now && timerRunning
        && recorderMimeType == (if opusSupported then "audio/webm;codecs=opus" else "audio/webm")
        && GetRecordingStatus() == Recording
    {
      state := state.(isProcessing := true, error := None);
      if !outcome.Denied? {
        hasStream := true;
        chunks := [];
        if !outcome.ConstructorFailed? {
          recorderMimeType := if opusSupported then "audio/webm;codecs=opus" else "audio/webm";
          hasRecorder := true;
          recorderState := if outcome.Started? then Active else Inactive;
        }
      }
      if !outcome.Started? {
        var errorMessage := "无法访问麦克风";
        if outcome.error.name == "NotAllowedError" {
          errorMessage := "请允许访问麦克风权限";
        } else if outcome.error.name == "NotFoundError" {
          errorMessage := "未找到可用的麦克风设备";
        }
        state := state.(error := Some(errorMessage), isProcessing := false);
        return;
      }
      startTime := now;
      timerRunning := true;
      state := state.(isRecording := true, isProcessing := false, duration := 0);
    }

    /** The timer's tick at time `now`: whole seconds since the start. */
    method Tick(now: int)
      requires Valid() && timerRunning
      modifies this
      ensures Valid()
      ensures state == old(state).(duration := (now - startTime) / 1000)
      ensures startTime == old(startTime) && timerRunning == old(timerRunning) && chunks == old(chunks)
      ensures hasStream == old(hasStream) && hasRecorder == old(hasRecorder)
      ensures recorderState == old(recorderState) && recorderMimeType == old(recorderMimeType)
      ensures now >= startTime ==> state.duration * 1000 <= now - startTime < (state.duration + 1) * 1000
    {
      state := state.(duration := (now - startTime) / 1000);
    }

    /** `recorder.ondataavailable`: only non-empty chunks are kept. */
    method OnDataAvailable(data: Blob)
      requires Valid()
      modifies this
      ensures Valid()
      ensures chunks == if data.Size() > 0 then old(chunks) + [data] else old(chunks)
      ensures state == old(state) && startTime == old(startTime) && timerRunning == old(timerRunning)
      ensures hasStream == old(hasStream) && hasRecorder == old(hasRecorder)
      ensures recorderState == old(recorderState) && recorderMimeType == old(recorderMimeType)
    {
      if data.Size() > 0 {
        chunks := chunks + [data];
      }
    }

    /**
     * `recorder.onstop`: the chunks become the recorded blob, typed by the
     * first chunk; recording ends and the stream is released.
     */
    method OnStop()
      requires Valid()
      modifies this
      ensures Valid()
      ensures state == old(state).(recordedBlob := Some(Blob(Concat(chunks), RecordedType(chunks))),
                                   isRecording := false, isProcessing := false)
      ensures !hasStream && chunks == old(chunks)
      ensures startTime == old(startTime) && timerRunning == old(timerRunning) && hasRecorder == old(hasRecorder)
      ensures recorderState == old(recorderState) && recorderMimeType == old(recorderMimeType)
      ensures state.error == old(state.error) ==>
        GetRecordingStatus() == if old(state.error).Some? && old(state.error).value != "" then Error else Completed
    {
      var blob := Blob(Concat(chunks), RecordedType(chunks));
      state := state.(recordedBlob := Some(blob), isRecording := false, isProcessing := false);
      if hasStream {
        hasStream := false;
      }
    }

    /** `recorder.onerror`: the error is shown and recording ends; the timer is left running. */
    method OnError()
      requires Valid()
      modifies this
      ensures Valid()
      ensures state == old(state).(error := Some(RecorderFailure), isRecording := false, isProcessing := false)
      ensures timerRunning == old(timerRunning) && chunks == old(chunks) && hasStream == old(hasStream)
      ensures startTime == old(startTime) && hasRecorder == old(hasRecorder)
      ensures recorderState == old(recorderState) && recorderMimeType == old(recorderMimeType)
      ensures GetRecordingStatus() == Error
    {
      state := state.(error := Some(RecorderFailure), isRecording := false, isProcessing := false);
    }

    /** `stopRecording()`: only a recorder that is recording is stopped, and the timer with it. */
    method StopRecording()
      requires Valid()
      modifies this
      ensures Valid()
      ensures state == old(state) && chunks == old(chunks)
      ensures hasStream == old(hasStream) && hasRecorder == old(hasRecorder)
      ensures startTime == old(startTime) && recorderMimeType == old(recorderMimeType)
      ensures old(hasRecorder && state.isRecording) ==> recorderState == Inactive && !timerRunning
      ensures !old(hasRecorder && state.isRecording) ==>
        recorderState == old(recorderState) && timerRunning == old(timerRunning)
    {
      if hasRecorder && state.isRecording {
        recorderState := Inactive;
        if timerRunning {
          timerRunning := false;
        }
      }
    }

    /**
     * `clearRecording()`: back to the initial state, timer stopped. Every
     * ref is left alone: a recorder that is still running keeps running.
     */
    method ClearRecording()
      requires Valid()
      modifies this
      ensures Valid()
      ensures state == Initial && !timerRunning
      ensures GetRecordingStatus() == Idle
      ensures chunks == old(chunks) && hasStream == old(hasStream) && hasRecorder == old(hasRecorder)
      ensures recorderState == old(recorderState) && recorderMimeType == old(recorderMimeType)
      ensures startTime == old(startTime)
    {
      state := RecordingState(false, false, None, 0, None);
      if timerRunning {
        timerRunning := false;
      }
    }
  }

  /**
   * A whole session: a granted start at `t0`, one chunk, ticks 1.5 s and
   * 2.5 s later, a stop and the recorder's `stop` event. The duration shows
   * two seconds, the kept chunks become the recorded blob, the timer is
   * stopped, the stream released and the status completed.
   */
  method RecordSession(data: Blob, t0: int) returns (r: Recorder)
    ensures r.state.duration == 2 && !r.state.isRecording && r.state.error == None
    ensures r.chunks == (if data.Size() > 0 then [data] else [])
    ensures r.state.recordedBlob == Some(Blob(Concat(r.chunks), RecordedType(r.chunks)))
    ensures data.Size() > 0 ==> r.state.recordedBlob.value.bytes == data.bytes
    ensures !r.hasStream && !r.timerRunning && r.recorderState == Inactive
    ensures r.GetRecordingStatus() == Completed
  {
    r := new Recorder();
    r.StartRecording(Started, true, t0);
    r.OnDataAvailable(data);
    r.Tick(t0 + 1500);
    r.Tick(t0 + 2500);
    r.StopRecording();
    r.OnStop();
    assert Concat([data]) == Concat([]) + data.bytes;
  }

  /** `blobToBase64(blob)`, given the data URL `FileReader` produced: the text after the first comma. */
  function BlobToBase64(dataUrl: string): Option<string> {
    SplitField(dataUrl, ',', 1)
  }

  /** For a data URL `data:<type>;base64,<payload>`, the payload is returned. */
  lemma DataUrlPayload(mimeType: string, payload: string)
    requires ',' !in mimeType && ',' !in payload
    ensures BlobToBase64("data:" + mimeType + ";base64," + payload) == Some(payload)
  {
    var head := "data:" + mimeType + ";base64";
    assert ',' !in head by {
      assert forall k :: 0 <= k < |head| ==> head[k] != ',' by {
        forall k | 0 <= k < |head| ensures head[k] != ',' {
          if k >= 5 && k < 5 + |mimeType| {
            assert head[k] == mimeType[k - 5];
          }
        }
      }
    }
    assert "data:" + mimeType + ";base64," + payload == head + [','] + payload + [];
    SecondField(head, ',', payload, []);
  }

  /** A string without a comma has no second field: the promise resolves with `undefined`. */
  lemma NoCommaNoPayload(s: string)
    requires ',' !in s
    ensures BlobToBase64(s) == None
  {
    NoSecondField(s, ',');
  }
}
