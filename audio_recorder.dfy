/** Recording-session bookkeeping (`AudioRecorder` in Sources/Recording/AudioRecorder.swift):
    starting stores a fresh engine, the temporary file's URL and the open file, one after
    the other, and can throw between any two of them without undoing the earlier ones;
    stopping hands back the stored URL and forgets all three. */
module Recording {
  import opened Wrappers

  datatype AudioRecorderError = EngineNotAvailable | NoInputNode | FailedToCreateFile | NotRecording
  {
    function Description(): string {
      match this
      case EngineNotAvailable => "Audio engine not available"
      case NoInputNode => "No audio input available"
      case FailedToCreateFile => "Failed to create audio file"
      case NotRecording => "Not currently recording"
    }
  }

  /** Why `startRecording()` throws: the recorder's own error, or `engine.start()`'s. */
  datatype StartFailure = RecorderError(error: AudioRecorderError) | EngineStartFailed(description: string)
  {
    function Description(): string {
      match this
      case RecorderError(e) => e.Description()
      case EngineStartFailed(d) => d
    }
  }

  /** An `AVAudioEngine`, of which only whether it runs matters here. */
  datatype AudioEngine = AudioEngine(isRunning: bool)

  /** An `AVAudioFile` open for writing, with the converted buffers written to it. */
  datatype AudioFile = AudioFile(url: string, buffers: seq<seq<real>>)

  /** What the audio frameworks answer while a recording starts: whether the 16 kHz mono
      float format, the output file and the converter can be created, and whether the
      engine starts (`None`) or throws (the error's description). */
  datatype StartEnvironment = StartEnvironment(
    formatCreated: bool, fileCreated: bool, converterCreated: bool, engineStartError: Option<string>)

  /** The recorder's three stored properties. */
  datatype Session = Session(engine: Option<AudioEngine>, file: Option<AudioFile>, url: Option<string>)

  const RecordingFilePrefix := "speach_recording_"

  /** The recording file: "speach_recording_<UUID>.wav" in the temporary directory. */
  function RecordingPath(tempDir: string, uuid: string): (r: string)
    ensures |r| == |tempDir| + 1 + |RecordingFilePrefix| + |uuid| + 4
    ensures r[..|tempDir| + 1] == tempDir + "/"
    ensures r[|tempDir| + 1 + |RecordingFilePrefix|..|r| - 4] == uuid
    ensures r[|r| - 4..] == ".wav"
  {
    tempDir + "/" + RecordingFilePrefix + uuid + ".wav"
  }

  /** `startRecording()` as a change of the stored properties and an outcome. */
  function Start(s: Session, tempDir: string, uuid: string, env: StartEnvironment): (r: (Session, Outcome<StartFailure>))
    ensures r.0.url == if env.formatCreated then Some(RecordingPath(tempDir, uuid)) else s.url
    ensures r.0.file == if env.formatCreated && env.fileCreated then Some(AudioFile(RecordingPath(tempDir, uuid), [])) else s.file
    ensures r.1.Fail? ==> r.0.engine == Some(AudioEngine(false))
  {
    var url := RecordingPath(tempDir, uuid);
    var withEngine := s.(engine := Some(AudioEngine(false)));
    if !env.formatCreated then (withEngine, Fail(RecorderError(FailedToCreateFile)))
    else
      var withUrl := withEngine.(url := Some(url));
      if !env.fileCreated then (withUrl, Fail(RecorderError(FailedToCreateFile)))
      else
        var withFile := withUrl.(file := Some(AudioFile(url, [])));
        if !env.converterCreated then (withFile, Fail(RecorderError(FailedToCreateFile)))
        else match env.engineStartError
          case Some(d) => (withFile, Fail(EngineStartFailed(d)))
          case None => (withFile.(engine := Some(AudioEngine(true))), Pass)
  }

  /** `stopRecording()` as a change of the stored properties and a result. */
  function Stop(s: Session): (r: (Session, Result<string, AudioRecorderError>))
    ensures r.1.Success? <==> s.engine.Some? && s.url.Some?
    ensures r.1.Success? ==> r.1.value == s.url.value && r.0 == Session(None, None, None)
    ensures r.1.Failure? ==> r.0 == s && r.1.error == NotRecording
  {
    if s.engine.None? || s.url.None? then (s, Failure(NotRecording))
    else (Session(None, None, None), Success(s.url.value))
  }

  /** `isRecording()`: the stored engine runs. */
  function IsRunning(s: Session): bool {
    s.engine.Some? && s.engine.value.isRunning
  }

  /** Only a start that gets through every step leaves a running engine; every start,
      failed or not, leaves an engine stored. */
  lemma StartRunsOnlyWhenComplete(s: Session, tempDir: string, uuid: string, env: StartEnvironment)
    ensures var (s', outcome) := Start(s, tempDir, uuid, env);
      && s'.engine.Some?
      && (IsRunning(s') <==> outcome.Pass?)
      && (outcome.Pass? <==> env.formatCreated && env.fileCreated && env.converterCreated && env.engineStartError.None?)
  {
  }

  /** Once the file URL is stored, even a start that then throws `failedToCreateFile`
      keeps it, and a stop hands back exactly that URL. */
  lemma StopReturnsLatestUrl(s: Session, tempDir: string, uuid: string, env: StartEnvironment)
    requires env.formatCreated
    ensures Stop(Start(s, tempDir, uuid, env).0).1 == Success(RecordingPath(tempDir, uuid))
  {
  }

  /** A stop forgets the session, so a second stop is refused with `notRecording`, and
      after a stop nothing is recording. */
  lemma SecondStopFails(s: Session)
    ensures Stop(Stop(s).0).1 == Failure(NotRecording)
    ensures !IsRunning(Stop(s).0) || Stop(s).1.Failure?
  {
  }

  class AudioRecorder {
    var audioEngine: Option<AudioEngine>
    var audioFile: Option<AudioFile>
    var recordingURL: Option<string>

    function Current(): Session
      reads this
    {
      Session(audioEngine, audioFile, recordingURL)
    }

    constructor ()
      ensures audioEngine.None? && audioFile.None? && recordingURL.None?
    {
      audioEngine := None;
      audioFile := None;
      recordingURL := None;
    }

    /** `startRecording()`; `uuid` is the fresh `UUID().uuidString`. */
    method StartRecording(tempDir: string, uuid: string, env: StartEnvironment) returns (r: Outcome<StartFailure>)
      modifies this
      ensures (Current(), r) == Start(old(Current()), tempDir, uuid, env)
    {
      audioEngine := Some(AudioEngine(false));
      if !env.formatCreated {
        return Fail(RecorderError(FailedToCreateFile));
      }
      var url := RecordingPath(tempDir, uuid);
      recordingURL := Some(url);
      if !env.fileCreated {
        return Fail(RecorderError(FailedToCreateFile));
      }
      audioFile := Some(AudioFile(url, []));
      if !env.converterCreated {
        return Fail(RecorderError(FailedToCreateFile));
      }
      if env.engineStartError.Some? {
        return Fail(EngineStartFailed(env.engineStartError.value));
      }
      audioEngine := Some(AudioEngine(true));
      r := Pass;
    }

    /** `writeBuffer(_:)`: appends to the open file, if any; a failed write is ignored. */
    method WriteBuffer(buffer: seq<real>, writeSucceeds: bool)
      modifies this`audioFile
      ensures audioFile == if old(audioFile).Some? && writeSucceeds
                           then Some(old(audioFile).value.(buffers := old(audioFile).value.buffers + [buffer]))
                           else old(audioFile)
    {
      if audioFile.Some? && writeSucceeds {
        audioFile := Some(audioFile.value.(buffers := audioFile.value.buffers + [buffer]));
      }
    }

    /** The tap callback for one input buffer: the converted buffer is written only when
        an output buffer could be allocated and the conversion reported no error. */
    method HandleTapBuffer(converted: seq<real>, bufferAllocated: bool, conversionError: bool, writeSucceeds: bool)
      modifies this`audioFile
      ensures audioFile == if bufferAllocated && !conversionError && writeSucceeds && old(audioFile).Some?
                           then Some(old(audioFile).value.(buffers := old(audioFile).value.buffers + [converted]))
                           else old(audioFile)
    {
      if !bufferAllocated {
        return;
      }
      if !conversionError {
        WriteBuffer(converted, writeSucceeds);
      }
    }

    /** `stopRecording()`. */
    method StopRecording() returns (r: Result<string, AudioRecorderError>)
      modifies this
      ensures (Current(), r) == Stop(old(Current()))
    {
      if audioEngine.None? || recordingURL.None? {
        return Failure(NotRecording);
      }
      var finalUrl := recordingURL.value;
      audioFile := None;
      audioEngine := None;
      recordingURL := None;
      return Success(finalUrl);
    }

    /** `isRecording()`: false whenever no engine is held. */
    function IsRecording(): (b: bool)
      reads this
      ensures b == IsRunning(Current())
      ensures audioEngine.None? ==> !b
    {
      match audioEngine
      case Some(engine) => engine.isRunning
      case None => false
    }
  }
}
