/** The menu-bar icon (Sources/UI/MenuBarIcon.swift): a symbol and a colour chosen from
    the recording and transcribing flags, recording first. */
module MenuBarIcons {
  /** The SwiftUI colours the menu bar uses. */
  datatype Color = Red | Orange | Yellow | Green | Gray | Primary

  const RecordingSymbol := "waveform.badge.mic"
  const TranscribingSymbol := "text.bubble"
  const IdleSymbol := "waveform"

  /** `iconName`. */
  function IconName(isRecording: bool, isTranscribing: bool): (r: string)
    ensures r == RecordingSymbol <==> isRecording
    ensures r == TranscribingSymbol <==> !isRecording && isTranscribing
    ensures r == IdleSymbol <==> !isRecording && !isTranscribing
  {
    if isRecording then RecordingSymbol
    else if isTranscribing then TranscribingSymbol
    else IdleSymbol
  }

  /** `iconColor`. */
  function IconColor(isRecording: bool, isTranscribing: bool): (c: Color)
    ensures c == Red <==> isRecording
    ensures c == Orange <==> !isRecording && isTranscribing
    ensures c == Primary <==> !isRecording && !isTranscribing
  {
    if isRecording then Red
    else if isTranscribing then Orange
    else Primary
  }

  /** Symbol and colour always describe the same state: each symbol comes with exactly
      one colour, so the recording flag wins for both when both flags are set. */
  lemma IconNameMatchesColor(isRecording: bool, isTranscribing: bool, isRecording': bool, isTranscribing': bool)
    ensures IconName(isRecording, isTranscribing) == IconName(isRecording', isTranscribing')
        <==> IconColor(isRecording, isTranscribing) == IconColor(isRecording', isTranscribing')
  {
  }
}
