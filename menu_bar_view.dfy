/** The status line of the menu-bar window (Sources/UI/MenuBarView.swift): a text and a
    colour derived from the recording and transcribing flags and the model status. */
module MenuBar {
  import opened Text
  import opened AppStates
  import opened MenuBarIcons

  const RecordingText := "Recording..."
  const TranscribingText := "Transcribing..."
  const NotDownloadedText := "Model not downloaded"
  const DownloadingPrefix := "Downloading "
  const ReadyText := "Ready"
  const ErrorText := "Error"

  /** Swift's `Int(_: Double)`: the integer part, truncated toward zero. */
  function TruncateToInt(x: real): (n: int)
    ensures x >= 0.0 ==> n as real <= x < n as real + 1.0
    ensures x < 0.0 ==> n as real - 1.0 < x <= n as real
  {
    if x >= 0.0 then x.Floor else -((-x).Floor)
  }

  /** The percentage shown while downloading. */
  function Percent(progress: real): int {
    TruncateToInt(progress * 100.0)
  }

  /** `statusText`: the flags first, recording before transcribing; when idle, the model
      status, the download as a truncated percentage. */
  function StatusText(isRecording: bool, isTranscribing: bool, status: ModelStatus): (r: string)
    ensures isRecording ==> r == RecordingText
    ensures !isRecording && isTranscribing ==> r == TranscribingText
    ensures !isRecording && !isTranscribing ==>
      r == match status
           case NotDownloaded => NotDownloadedText
           case Downloading(p) => DownloadingPrefix + IntToString(Percent(p)) + "%"
           case Ready => ReadyText
           case Error(_) => ErrorText
  {
    if isRecording then RecordingText
    else if isTranscribing then TranscribingText
    else match status
      case NotDownloaded => NotDownloadedText
      case Downloading(progress) => DownloadingPrefix + IntToString(Percent(progress)) + "%"
      case Ready => ReadyText
      case Error(_) => ErrorText
  }

  /** `statusColor`. */
  function StatusColor(isRecording: bool, isTranscribing: bool, status: ModelStatus): (c: Color)
    ensures isRecording ==> c == Red
    ensures !isRecording && isTranscribing ==> c == Orange
    ensures !isRecording && !isTranscribing ==>
      c == match status
           case Ready => Green
           case Downloading(_) => Yellow
           case _ => Gray
  {
    if isRecording then Red
    else if isTranscribing then Orange
    else match status
      case Ready => Green
      case Downloading(_) => Yellow
      case _ => Gray
  }

  /** The text alone tells which state the app is in: "Ready" appears exactly when the app
      is idle with a loaded model, and a download shows "Downloading ..." exactly when the
      app is idle and downloading. */
  lemma StatusTextDistinguishesStates(isRecording: bool, isTranscribing: bool, status: ModelStatus)
    ensures var t := StatusText(isRecording, isTranscribing, status);
      && (t == ReadyText <==> !isRecording && !isTranscribing && status.Ready?)
      && (t == RecordingText <==> isRecording)
      && (t == TranscribingText <==> !isRecording && isTranscribing)
      && ((|t| > |DownloadingPrefix| && t[..|DownloadingPrefix|] == DownloadingPrefix)
          <==> (!isRecording && !isTranscribing && status.Downloading?))
  {
    var t := StatusText(isRecording, isTranscribing, status);
    if !isRecording && !isTranscribing && status.Downloading? {
      assert t[..|DownloadingPrefix|] == DownloadingPrefix;
      assert t[0] == 'D';
    } else if !isRecording && !isTranscribing && status.NotDownloaded? {
      assert t[0] != DownloadingPrefix[0];
    } else if isRecording || isTranscribing {
      assert t[0] != DownloadingPrefix[0];
    }
  }

  /** While recording or transcribing the status line has the menu-bar icon's colour. */
  lemma StatusColorMatchesIcon(isRecording: bool, isTranscribing: bool, status: ModelStatus)
    ensures isRecording || isTranscribing ==>
      StatusColor(isRecording, isTranscribing, status) == IconColor(isRecording, isTranscribing)
    ensures StatusColor(isRecording, isTranscribing, status) != IconColor(isRecording, isTranscribing)
      ==> !isRecording && !isTranscribing
  {
  }
}
