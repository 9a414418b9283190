/** The dictation coordinator (`AppState` in Sources/AppState.swift): the recording and
    transcribing flags, the last error, the model status shared with the transcription
    service, and the newest-first history of the last five transcriptions; together with
    the value types declared beside it (`WhisperModel`, `ModelStatus`,
    `TranscriptionItem`, `TranscriptionLanguage`). */
module AppStates {
  import opened Wrappers
  import opened HotkeyConfigs
  import opened Injection

  /** The selectable Whisper model variants. */
  datatype WhisperModel = Tiny | Base | Small | MediumEn
  {
    function RawValue(): string {
      match this
      case Tiny => "tiny"
      case Base => "base"
      case Small => "small"
      case MediumEn => "medium.en"
    }

    function DisplayName(): string {
      match this
      case Tiny => "Tiny (75 MB) - Fastest"
      case Base => "Base (142 MB) - Balanced"
      case Small => "Small (466 MB) - Accurate"
      case MediumEn => "Medium English (1.5 GB) - High Accuracy"
    }

    /** `fileName`: "ggml-<raw value>.bin". */
    function FileName(): (r: string)
      ensures |r| == |RawValue()| + 9 && r[..5] == "ggml-" && r[5..|r| - 4] == RawValue() && r[|r| - 4..] == ".bin"
    {
      "ggml-" + RawValue() + ".bin"
    }

    function DownloadUrl(): string {
      "https://huggingface.co/ggerganov/whisper.cpp/resolve/main/" + FileName()
    }

    function FileSize(): nat {
      match this
      case Tiny => 75_000_000
      case Base => 142_000_000
      case Small => 466_000_000
      case MediumEn => 1_500_000_000
    }
  }

  /** Two variants never share a cache file name, so each has its own file on disk. */
  lemma FileNameInjective(a: WhisperModel, b: WhisperModel)
    ensures a.FileName() == b.FileName() ==> a == b
  {
    if a.FileName() == b.FileName() {
      var ra, rb := a.RawValue(), b.RawValue();
      assert a.FileName()[5..5 + |ra|] == ra;
      assert b.FileName()[5..5 + |rb|] == rb;
      assert |ra| == |rb|;
    }
  }

  /** The model status shown to the user; one value per process. */
  datatype ModelStatus = NotDownloaded | Downloading(progress: real) | Ready | Error(message: string)

  datatype TranscriptionLanguage =
    | Auto | English | Spanish | French | German | Italian | Portuguese
    | Dutch | Polish | Russian | Japanese | Chinese | Korean
  {
    function RawValue(): string {
      match this
      case Auto => "auto"
      case English => "en"
      case Spanish => "es"
      case French => "fr"
      case German => "de"
      case Italian => "it"
      case Portuguese => "pt"
      case Dutch => "nl"
      case Polish => "pl"
      case Russian => "ru"
      case Japanese => "ja"
      case Chinese => "zh"
      case Korean => "ko"
    }
  }

  /** One history entry; the timestamp is an abstract clock reading. */
  datatype TranscriptionItem = TranscriptionItem(text: string, timestamp: int)

  const PreviewLimit: nat := 50
  const PreviewKept: nat := 47

  /** `TranscriptionItem.preview`: short texts unchanged, long ones cut to forty-seven
      characters and "...", so a preview never exceeds fifty characters. */
  function Preview(text: string): (r: string)
    ensures |r| <= PreviewLimit
    ensures r == text <==> |text| <= PreviewLimit
    ensures |text| > PreviewLimit ==> |r| == PreviewLimit && r[..PreviewKept] == text[..PreviewKept] && r[PreviewKept..] == "..."
  {
    if |text| <= PreviewLimit then text else text[..PreviewKept] + "..."
  }

  const MaxHistory: nat := 5

  /** The history after a successful transcription: the new item first, the previous
      items after it in their order, the oldest one dropped when there were already five. */
  function Recorded(history: seq<TranscriptionItem>, item: TranscriptionItem): (r: seq<TranscriptionItem>)
    ensures |r| == if |history| + 1 > MaxHistory then |history| else |history| + 1
    ensures |history| <= MaxHistory ==> |r| <= MaxHistory
    ensures r[0] == item && r[1..] == history[..|r| - 1]
  {
    var h := [item] + history;
    if |h| > MaxHistory then h[..|h| - 1] else h
  }

  /** The history entries are the most recent non-empty transcriptions, at most five. */
  ghost predicate HistoryInvariant(history: seq<TranscriptionItem>) {
    |history| <= MaxHistory && forall i :: 0 <= i < |history| ==> history[i].text != ""
  }

  /** Recording a non-empty transcription keeps the history invariant. */
  lemma RecordedKeepsInvariant(history: seq<TranscriptionItem>, item: TranscriptionItem)
    requires HistoryInvariant(history) && item.text != ""
    ensures HistoryInvariant(Recorded(history, item))
  {
    var r := Recorded(history, item);
    forall i | 0 <= i < |r| ensures r[i].text != "" {
      if i > 0 {
        assert r[i] == r[1..][i - 1] == history[i - 1];
      }
    }
  }

  const StartFailurePrefix := "Failed to start recording: "
  const TranscriptionFailurePrefix := "Transcription failed: "

  class AppState {
    var isRecording: bool
    var isTranscribing: bool
    var lastTranscription: Option<string>
    var transcriptionHistory: seq<TranscriptionItem>
    var errorMessage: Option<string>
    var modelStatus: ModelStatus
    /** Every value published to `modelStatus`, in order: what its observers see. */
    ghost var publishedStatuses: seq<ModelStatus>
    var selectedModel: WhisperModel
    var loadedModel: Option<WhisperModel>
    var selectedLanguage: TranscriptionLanguage
    var hotkeyConfig: HotkeyConfig
    const injector: TextInjector

    ghost predicate Valid()
      reads this
    {
      HistoryInvariant(transcriptionHistory)
    }

    /** The shared instance: nothing recorded yet, the shortcut loaded from the defaults. */
    constructor (stored: Defaults, injector: TextInjector)
      ensures Valid()
      ensures !isRecording && !isTranscribing && lastTranscription.None? && errorMessage.None?
      ensures transcriptionHistory == [] && modelStatus == NotDownloaded && publishedStatuses == []
      ensures selectedModel == Small && loadedModel.None? && selectedLanguage == English
      ensures hotkeyConfig == Load(stored) && this.injector == injector
    {
      isRecording := false;
      isTranscribing := false;
      lastTranscription := None;
      transcriptionHistory := [];
      errorMessage := None;
      modelStatus := NotDownloaded;
      publishedStatuses := [];
      selectedModel := Small;
      loadedModel := None;
      selectedLanguage := English;
      hotkeyConfig := Load(stored);
      this.injector := injector;
    }

    /** Assigning `modelStatus`, which publishes the new value. */
    method PublishModelStatus(status: ModelStatus)
      modifies this`modelStatus, this`publishedStatuses
      ensures modelStatus == status && publishedStatuses == old(publishedStatuses) + [status]
    {
      modelStatus := status;
      publishedStatuses := publishedStatuses + [status];
    }

    /** Assigning `hotkeyConfig`: its observer saves it to the defaults. */
    method SetHotkeyConfig(config: HotkeyConfig, stored: Defaults) returns (saved: Defaults)
      modifies this`hotkeyConfig
      ensures hotkeyConfig == config && saved == Save(config, stored)
      ensures Load(saved) == config
    {
      hotkeyConfig := config;
      saved := Save(config, stored);
      LoadAfterSave(config, stored);
    }

    /** `startRecording()`, up to the asynchronous `Task` it starts: ignored while recording; otherwise
        remembers the frontmost application, raises `isRecording` and clears the error.
        It does not look at `isTranscribing`. */
    method StartRecording(frontmost: Option<RunningApp>)
      modifies this`isRecording, this`errorMessage, injector`previousApp
      ensures isRecording
      ensures old(isRecording) ==> errorMessage == old(errorMessage) && injector.previousApp == old(injector.previousApp)
      ensures !old(isRecording) ==> errorMessage.None? && injector.previousApp == frontmost
    {
      if isRecording {
        return;
      }
      injector.SaveFocusedApp(frontmost);
      isRecording := true;
      errorMessage := None;
    }

    /** The end of the start task when the recorder throws. */
    method RecordingStartFailed(description: string)
      modifies this`isRecording, this`errorMessage
      ensures !isRecording && errorMessage == Some(StartFailurePrefix + description)
    {
      isRecording := false;
      errorMessage := Some(StartFailurePrefix + description);
    }

    /** `stopRecordingAndTranscribe()`, up to the asynchronous `Task` it starts: ignored unless
        recording; otherwise recording gives way to transcribing. */
    method StopRecordingAndTranscribe() returns (launched: bool)
      modifies this`isRecording, this`isTranscribing
      ensures launched == old(isRecording)
      ensures !isRecording
      ensures isTranscribing == (old(isRecording) || old(isTranscribing))
    {
      launched := isRecording;
      if !isRecording {
        return;
      }
      isRecording := false;
      isTranscribing := true;
    }

    /** The end of the transcription task. On success the text becomes the last
        transcription, a non-empty one is put first in the history and delivered through
        the injector; on failure the error is reported and nothing else changes. Both
        ways `isTranscribing` falls. */
    method FinishTranscription(outcome: Result<string, string>, now: int, frontmost: FrontmostOracle)
      requires Valid()
      modifies this`lastTranscription, this`isTranscribing, this`transcriptionHistory, this`errorMessage, injector
      ensures Valid() && !isTranscribing
      ensures outcome.Success? ==>
        && lastTranscription == Some(outcome.value)
        && errorMessage == old(errorMessage)
        && transcriptionHistory == (if outcome.value == "" then old(transcriptionHistory)
                                    else Recorded(old(transcriptionHistory), TranscriptionItem(outcome.value, now)))
        && injector.effects == old(injector.effects)
             + (if outcome.value == "" then [] else InjectionEffects(outcome.value, old(injector.previousApp), frontmost))
        && injector.previousApp == (if outcome.value == "" then old(injector.previousApp) else None)
      ensures outcome.Failure? ==>
        && lastTranscription == old(lastTranscription)
        && errorMessage == Some(TranscriptionFailurePrefix + outcome.error)
        && transcriptionHistory == old(transcriptionHistory)
        && injector.effects == old(injector.effects)
        && injector.previousApp == old(injector.previousApp)
    {
      match outcome {
        case Success(text) =>
          lastTranscription := Some(text);
          isTranscribing := false;
          if text != "" {
            RecordedKeepsInvariant(transcriptionHistory, TranscriptionItem(text, now));
            transcriptionHistory := Recorded(transcriptionHistory, TranscriptionItem(text, now));
          }
          if text != "" {
            injector.InjectText(text, frontmost);
          }
        case Failure(description) =>
          isTranscribing := false;
          errorMessage := Some(TranscriptionFailurePrefix + description);
      }
    }
  }
}
