/** The two background tasks `AppState` launches (Sources/AppState.swift): the one
    that starts the recorder, and the one that stops it, transcribes the recording,
    publishes and injects the text and deletes the recording file. */
module Dictation {
  import opened Wrappers
  import opened AppStates
  import opened Injection
  import opened Recording
  import opened Transcription

  /** What the transcription task hands to the app: the text, or the description of the
      first error thrown by stopping the recorder or by transcribing. `loaded` says
      whether the service holds a model. */
  function TranscriptionOutcome(stop: Result<string, AudioRecorderError>, loaded: bool,
                                language: TranscriptionLanguage,
                                readFile: string -> Result<seq<Byte>, string>, engine: Engine): (r: Result<string, string>)
    ensures r.Success? <==> stop.Success? && loaded && TranscribeOutcome(readFile(stop.value), language, engine).Success?
    ensures stop.Failure? ==> r == Failure(stop.error.Description())
    ensures stop.Success? && !loaded ==> r == Failure(NotInitialized.Description())
  {
    match stop
    case Failure(e) => Failure(e.Description())
    case Success(url) =>
      if !loaded then Failure(NotInitialized.Description())
      else match TranscribeOutcome(readFile(url), language, engine)
        case Failure(f) => Failure(f.Description())
        case Success(text) => Success(text)
  }

  /** Text reaches the app only when the recorder was recording and a model was loaded,
      and it never starts or ends with whitespace. */
  lemma TranscriptionOutcomeSuccess(stop: Result<string, AudioRecorderError>, loaded: bool,
                                    language: TranscriptionLanguage,
                                    readFile: string -> Result<seq<Byte>, string>, engine: Engine)
    ensures var r := TranscriptionOutcome(stop, loaded, language, readFile, engine);
      r.Success? ==>
        && stop.Success? && loaded
        && (r.value == "" || (!Text.IsWhitespace(r.value[0]) && !Text.IsWhitespace(r.value[|r.value| - 1])))
  {
    var r := TranscriptionOutcome(stop, loaded, language, readFile, engine);
    if r.Success? {
      var audio := readFile(stop.value);
      var bytes := audio.value;
      var segments := engine(NormalizeAll(DecodePcm16(bytes[WavHeaderSize..])), language);
      CombineProperties(segments.value);
    }
  }

  /** A stop that finds no session is reported as "Not currently recording". */
  lemma StopWithoutSessionIsReported(s: Session, loaded: bool, language: TranscriptionLanguage,
                                     readFile: string -> Result<seq<Byte>, string>, engine: Engine)
    requires s.engine.None? || s.url.None?
    ensures TranscriptionOutcome(Stop(s).1, loaded, language, readFile, engine) == Failure("Not currently recording")
  {
  }

  /** The recording task: start the recorder; if it throws, recording is over and the
      error is shown. */
  method RecordingTask(app: AppState, recorder: AudioRecorder, tempDir: string, uuid: string, env: StartEnvironment)
    modifies recorder, app`isRecording, app`errorMessage
    ensures recorder.Current() == Start(old(recorder.Current()), tempDir, uuid, env).0
    ensures Start(old(recorder.Current()), tempDir, uuid, env).1.Pass? ==>
      app.isRecording == old(app.isRecording) && app.errorMessage == old(app.errorMessage)
    ensures Start(old(recorder.Current()), tempDir, uuid, env).1.Fail? ==>
      !app.isRecording && app.errorMessage == Some(StartFailurePrefix + Start(old(recorder.Current()), tempDir, uuid, env).1.error.Description())
  {
    var started := recorder.StartRecording(tempDir, uuid, env);
    if started.Fail? {
      app.RecordingStartFailed(started.error.Description());
    }
  }

  /** The transcription task. The recording file is removed only after a transcription
      that succeeded; every error path leaves it in `files`. */
  method TranscriptionTask(app: AppState, recorder: AudioRecorder, service: WhisperService,
                           readFile: string -> Result<seq<Byte>, string>, engine: Engine,
                           now: int, frontmost: FrontmostOracle, files: set<string>)
    returns (files': set<string>)
    requires app.Valid()
    modifies recorder, app`lastTranscription, app`isTranscribing, app`transcriptionHistory, app`errorMessage, app.injector
    ensures app.Valid() && !app.isTranscribing
    ensures recorder.Current() == Stop(old(recorder.Current())).0
    ensures var outcome := TranscriptionOutcome(Stop(old(recorder.Current())).1, service.IsLoaded(),
                                                old(app.selectedLanguage), readFile, engine);
      && (outcome.Success? ==>
            && app.lastTranscription == Some(outcome.value)
            && app.errorMessage == old(app.errorMessage)
            && app.transcriptionHistory == (if outcome.value == "" then old(app.transcriptionHistory)
                                            else Recorded(old(app.transcriptionHistory), TranscriptionItem(outcome.value, now)))
            && app.injector.effects == old(app.injector.effects)
                 + (if outcome.value == "" then [] else InjectionEffects(outcome.value, old(app.injector.previousApp), frontmost))
            && app.injector.previousApp == (if outcome.value == "" then old(app.injector.previousApp) else None)
            && files' == files - {old(recorder.recordingURL).value})
      && (outcome.Failure? ==>
            && app.lastTranscription == old(app.lastTranscription)
            && app.errorMessage == Some(TranscriptionFailurePrefix + outcome.error)
            && app.transcriptionHistory == old(app.transcriptionHistory)
            && app.injector.effects == old(app.injector.effects)
            && app.injector.previousApp == old(app.injector.previousApp)
            && files' == files)
  {
    var stopped := recorder.StopRecording();
    if stopped.Failure? {
      app.FinishTranscription(Failure(stopped.error.Description()), now, frontmost);
      return files;
    }
    var url := stopped.value;
    var transcribed := service.Transcribe(url, app.selectedLanguage, readFile, engine);
    if transcribed.Failure? {
      app.FinishTranscription(Failure(transcribed.error.Description()), now, frontmost);
      return files;
    }
    app.FinishTranscription(Success(transcribed.value), now, frontmost);
    files' := files - {url};
  }
}
