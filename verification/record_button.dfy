/**
 * The `RecordButton` component of `RecordButton.tsx`: three local flags
 * mirror the recording status it is given, and they decide what a click
 * does, when the recording is stopped automatically, and the button's
 * colour and label (error first, then done, then recording, then idle).
 */
module RecordButton {
  import opened Wrappers
  import opened JsText
  import opened UseRecorder

  /** What a click asks of the page. */
  datatype Action = StartRequested | StopRequested

  const ErrorColor := "bg-red-600 hover:bg-red-700"
  const DoneColor := "bg-green-600 hover:bg-green-700"
  const RecordingColor := "bg-red-600 hover:bg-red-700 animate-pulse"
  const IdleColor := "bg-blue-600 hover:bg-blue-700"

  /** `RecordButton`: its flags and the props that stay fixed. */
  class Button {
    var isRecording: bool
    var isDone: bool
    var isError: bool
    const maxDuration: int
    const isProcessing: bool

    /** At most one flag is set. */
    predicate Valid()
      reads this
    {
      !(isRecording && isDone) && !(isRecording && isError) && !(isDone && isError)
    }

    constructor (maxDurationProp: Option<int>, isProcessingProp: Option<bool>)
      ensures Valid() && !isRecording && !isDone && !isError
      ensures maxDuration == maxDurationProp.GetOr(15)
      ensures isProcessing == isProcessingProp.GetOr(false)
    {
      isRecording := false;
      isDone := false;
      isError := false;
      maxDuration := maxDurationProp.GetOr(15);
      isProcessing := isProcessingProp.GetOr(false);
    }

    /** The effect on `status`: each flag mirrors one status. */
    method SyncStatus(status: RecordingStatus)
      modifies this
      ensures Valid()
      ensures isRecording <==> status == Recording
      ensures isDone <==> status == Completed
      ensures isError <==> status == Error
      ensures status == Idle ==> !isRecording && !isDone && !isError
    {
      isRecording := status == Recording;
      isDone := status == Completed;
      isError := status == Error;
    }

    /** The effect on the duration: stop once a recording reaches the limit. */
    method AutoStop(duration: int) returns (stop: bool)
      ensures stop <==> isRecording && duration >= maxDuration
    {
      stop := isRecording && duration >= maxDuration;
    }

    /** `handleClick`: stop while recording, start otherwise; nothing while the button is disabled. */
    method HandleClick() returns (action: Option<Action>)
      ensures isProcessing ==> action == None
      ensures !isProcessing && isRecording ==> action == Some(StopRequested)
      ensures !isProcessing && !isRecording ==> action == Some(StartRequested)
    {
      if isProcessing {
        return None;
      }
      if isRecording {
        action := Some(StopRequested);
      } else {
        action := Some(StartRequested);
      }
    }

    /** `getButtonColor()`. */
    function ButtonColor(): string
      reads this
    {
      if isError then ErrorColor
      else if isDone then DoneColor
      else if isRecording then RecordingColor
      else IdleColor
    }

    /** `getButtonText()`: while recording, the label carries the elapsed seconds. */
    function ButtonText(duration: int): string
      reads this
    {
      if isError then "录音错误，重试"
      else if isDone then "重新录制"
      else if isRecording then "正在录音 (" + IntToString(duration) + "s)"
      else "开始录音"
    }
  }

  /** The label of each status; the four differ, so the label tells the status. */
  function StatusLabel(status: RecordingStatus, duration: int): string {
    match status
    case Error => "录音错误，重试"
    case Completed => "重新录制"
    case Recording => "正在录音 (" + IntToString(duration) + "s)"
    case Idle => "开始录音"
  }

  /** Different statuses get different labels, whatever the durations shown. */
  lemma LabelsDiffer(s1: RecordingStatus, s2: RecordingStatus, d1: int, d2: int)
    requires s1 != s2
    ensures StatusLabel(s1, d1) != StatusLabel(s2, d2)
  {
    assert StatusLabel(s1, d1)[0] != StatusLabel(s2, d2)[0];
  }

  /**
   * Once the flags follow a status, the button shows that status: the
   * status's label, the pulsing red of a recording exactly while recording,
   * green exactly when completed, blue exactly when idle, and plain red
   * exactly after an error.
   */
  method AppearanceAfterStatus(status: RecordingStatus, duration: int) returns (color: string, text: string)
    ensures text == StatusLabel(status, duration)
    ensures color == RecordingColor <==> status == Recording
    ensures color == DoneColor <==> status == Completed
    ensures color == IdleColor <==> status == Idle
    ensures color == ErrorColor <==> status == Error
  {
    var button := new Button(None, None);
    button.SyncStatus(status);
    color := button.ButtonColor();
    text := button.ButtonText(duration);
  }

  /** A click stops exactly a recording, and starts one in every other status. */
  method ClickAfterStatus(status: RecordingStatus, maxDurationProp: Option<int>) returns (action: Option<Action>)
    ensures action == Some(if status == Recording then StopRequested else StartRequested)
  {
    var button := new Button(maxDurationProp, None);
    button.SyncStatus(status);
    action := button.HandleClick();
  }

  /** A recording is stopped automatically exactly when its duration reaches the limit (15 s by default). */
  method AutoStopAfterStatus(status: RecordingStatus, duration: int) returns (stop: bool)
    ensures stop <==> status == Recording && duration >= 15
  {
    var button := new Button(None, None);
    button.SyncStatus(status);
    stop := button.AutoStop(duration);
  }
}
