/** The transcription service (`WhisperService` in Sources/Transcription/WhisperService.swift):
    the model lifecycle (download when the file is missing, then load, both reported
    through the app state's model status) and the transcription of a recorded WAV file
    (skip the 44-byte header, decode little-endian 16-bit samples, normalise, run the
    engine, join its segments with spaces and trim). */
module Transcription {
  import opened Wrappers
  import Text
  import opened AppStates

  type Byte = b: int | 0 <= b < 256

  /** The size of the canonical RIFF/WAVE PCM header; the header is skipped, not parsed. */
  const WavHeaderSize: nat := 44
  const SampleScale: real := 32768.0

  datatype WhisperError = NotInitialized | ModelNotFound | TranscriptionFailed | AudioLoadFailed
  {
    function Description(): string {
      match this
      case NotInitialized => "Whisper not initialized"
      case ModelNotFound => "Model file not found"
      case TranscriptionFailed => "Transcription failed"
      case AudioLoadFailed => "Failed to load audio file"
    }
  }

  /** Why `transcribe` throws: its own errors, a file that cannot be read, or the engine. */
  datatype TranscribeFailure =
    | ServiceError(error: WhisperError)
    | ReadFailed(description: string)
    | EngineFailed(description: string)
  {
    function Description(): string {
      match this
      case ServiceError(e) => e.Description()
      case ReadFailed(d) => d
      case EngineFailed(d) => d
    }
  }

  predicate IsInt16(v: int) { -0x8000 <= v < 0x8000 }

  /** `Int16(bitPattern: low | high << 8)`. */
  function Int16FromBytes(low: Byte, high: Byte): (v: int)
    ensures IsInt16(v)
  {
    var u := low + 256 * high;
    if u >= 0x8000 then u - 0x1_0000 else u
  }

  /** The little-endian two's-complement encoding of one 16-bit sample. */
  function BytesOfInt16(v: int): (b: seq<Byte>)
    requires IsInt16(v)
    ensures |b| == 2
  {
    var u := if v < 0 then v + 0x1_0000 else v;
    [u % 256, u / 256]
  }

  lemma Int16RoundTrip(v: int)
    requires IsInt16(v)
    ensures Int16FromBytes(BytesOfInt16(v)[0], BytesOfInt16(v)[1]) == v
  {
  }

  /** The samples of a PCM payload: one per two bytes, a trailing odd byte ignored. */
  function DecodePcm16(payload: seq<Byte>): (r: seq<int>)
    ensures |r| == |payload| / 2
    ensures forall k :: 0 <= k < |r| ==> r[k] == Int16FromBytes(payload[2 * k], payload[2 * k + 1])
    decreases |payload|
  {
    if |payload| < 2 then [] else [Int16FromBytes(payload[0], payload[1])] + DecodePcm16(payload[2..])
  }

  function EncodePcm16(samples: seq<int>): (r: seq<Byte>)
    requires forall i :: 0 <= i < |samples| ==> IsInt16(samples[i])
    ensures |r| == 2 * |samples|
  {
    if |samples| == 0 then [] else BytesOfInt16(samples[0]) + EncodePcm16(samples[1..])
  }

  /** Decoding the little-endian encoding of any 16-bit samples, followed or not by one
      stray byte, gives those samples back. */
  lemma {:induction false} DecodeEncode(samples: seq<int>, tail: seq<Byte>)
    requires forall i :: 0 <= i < |samples| ==> IsInt16(samples[i])
    requires |tail| <= 1
    ensures DecodePcm16(EncodePcm16(samples) + tail) == samples
    decreases |samples|
  {
    if |samples| > 0 {
      var p := EncodePcm16(samples) + tail;
      Int16RoundTrip(samples[0]);
      assert p[2..] == EncodePcm16(samples[1..]) + tail;
      DecodeEncode(samples[1..], tail);
    }
  }

  /** `Float(sample) / 32768.0`; exact, since a 16-bit value divided by a power of two is
      a float. */
  function Normalize(v: int): real {
    v as real / SampleScale
  }

  function NormalizeAll(samples: seq<int>): (r: seq<real>)
    ensures |r| == |samples| && forall k :: 0 <= k < |r| ==> r[k] == Normalize(samples[k])
  {
    seq(|samples|, k requires 0 <= k < |samples| => Normalize(samples[k]))
  }

  /** Every normalised 16-bit sample lies in [-1, 1). */
  lemma NormalizedInRange(v: int)
    requires IsInt16(v)
    ensures -1.0 <= Normalize(v) < 1.0
  {
  }

  /** What the engine gives back: the text of each recognised segment. */
  datatype Segment = Segment(text: string)

  /** The inference engine, opaque: from samples and a language to segments or an error. */
  type Engine = (seq<real>, TranscriptionLanguage) -> Result<seq<Segment>, string>

  function Texts(segments: seq<Segment>): (r: seq<string>)
    ensures |r| == |segments| && forall i :: 0 <= i < |r| ==> r[i] == segments[i].text
  {
    seq(|segments|, i requires 0 <= i < |segments| => segments[i].text)
  }

  /** The segments joined with single spaces, surrounding whitespace trimmed. */
  function Combine(segments: seq<Segment>): (r: string)
    ensures |segments| > 0 ==> |r| <= Text.TotalLength(Texts(segments)) + |segments| - 1
  {
    var joined := Text.Join(Texts(segments), " ");
    if |segments| > 0 then Text.JoinLength(Texts(segments), " "); Text.Trim(joined) else Text.Trim(joined)
  }

  /** No segments, or only blank ones, give the empty transcription; a result is never
      padded with whitespace, and one segment gives its own trimmed text. */
  lemma CombineProperties(segments: seq<Segment>)
    ensures segments == [] ==> Combine(segments) == ""
    ensures |segments| == 1 ==> Combine(segments) == Text.Trim(segments[0].text)
    ensures Combine(segments) == "" || (!Text.IsWhitespace(Combine(segments)[0]) && !Text.IsWhitespace(Combine(segments)[|Combine(segments)| - 1]))
  {
    var _ := Text.TrimIsInfix(Text.Join(Texts(segments), " "));
  }

  /** The outcome of `transcribe` once the service is initialised, given what reading
      the audio file gave and the engine. */
  function TranscribeOutcome(audio: Result<seq<Byte>, string>, language: TranscriptionLanguage, engine: Engine): (r: Result<string, TranscribeFailure>)
    ensures audio.Failure? ==> r == Failure(ReadFailed(audio.error))
    ensures audio.Success? && |audio.value| <= WavHeaderSize ==> r == Failure(ServiceError(AudioLoadFailed))
    ensures r.Success? ==> audio.Success? && |audio.value| > WavHeaderSize
  {
    match audio
    case Failure(d) => Failure(ReadFailed(d))
    case Success(bytes) =>
      if |bytes| <= WavHeaderSize then Failure(ServiceError(AudioLoadFailed))
      else match engine(NormalizeAll(DecodePcm16(bytes[WavHeaderSize..])), language)
        case Failure(d) => Failure(EngineFailed(d))
        case Success(segments) => Success(Combine(segments))
  }

  /** An opened Whisper context, known by the model file it was opened from. */
  datatype WhisperHandle = WhisperHandle(modelPath: string)

  /** What fetching a model file ends with: the file installed at its cache path; the
      download failing (nothing on disk changes); or the download succeeding and the move
      into the cache failing after any old file there was removed. The last also stands for
      `removeItem` throwing (WhisperService.swift:72-74). `downloadModel` is private and its
      only caller, `initialize()`, calls it only when no file is at the cache path, so there
      is never an old file to remove: from `Initialize` this outcome leaves `files` as it
      was, and only `DownloadModel` on its own can observe the removal. */
  datatype DownloadOutcome = Installed | DownloadFailed(description: string) | InstallFailed(description: string)

  const DownloadFailedPrefix := "Download failed: "

  function DownloadStatuses(outcome: DownloadOutcome): (r: seq<ModelStatus>)
    ensures |r| == 2 && r[0] == Downloading(0.0)
    ensures r[1] == Ready <==> outcome.Installed?
    ensures !outcome.Installed? ==> r[1].Error?
  {
    match outcome
    case Installed => [Downloading(0.0), Ready]
    case DownloadFailed(d) => [Downloading(0.0), Error(DownloadFailedPrefix + d)]
    case InstallFailed(d) => [Downloading(0.0), Error(DownloadFailedPrefix + d)]
  }

  function LoadStatus(present: bool, context: Option<WhisperHandle>): (r: ModelStatus)
    ensures r == Ready <==> present && context.Some?
    ensures r != Ready ==> r.Error?
  {
    if !present then Error("Model file not found")
    else if context.Some? then Ready
    else Error("Failed to load model")
  }

  class WhisperService {
    var whisper: Option<WhisperHandle>
    var isInitialized: bool
    /** "<Application Support>/Speech/Models". */
    const modelDirectory: string

    constructor (modelDirectory: string)
      ensures whisper.None? && !isInitialized && this.modelDirectory == modelDirectory
    {
      whisper := None;
      isInitialized := false;
      this.modelDirectory := modelDirectory;
    }

    /** `getModelPath(for:)`. */
    function ModelPath(model: WhisperModel): string
      reads this
    {
      modelDirectory + "/" + model.FileName()
    }

    predicate IsLoaded()
      reads this
    {
      isInitialized && whisper.Some?
    }

    /** `loadAudioSamples(from:)` on the bytes of the file: too short a file is refused,
        otherwise every pair of bytes after the header becomes one normalised sample. */
    static method LoadAudioSamples(data: seq<Byte>) returns (r: Result<seq<real>, WhisperError>)
      ensures |data| <= WavHeaderSize ==> r == Failure(AudioLoadFailed)
      ensures |data| > WavHeaderSize ==> r == Success(NormalizeAll(DecodePcm16(data[WavHeaderSize..])))
    {
      if |data| <= WavHeaderSize {
        return Failure(AudioLoadFailed);
      }
      var pcm := data[WavHeaderSize..];
      var samples: seq<real> := [];
      var i := 0;
      while i < |pcm| - 1
        invariant 0 <= i <= |pcm| && i % 2 == 0
        invariant |samples| == i / 2
        invariant forall k :: 0 <= k < |samples| ==> samples[k] == Normalize(Int16FromBytes(pcm[2 * k], pcm[2 * k + 1]))
      {
        var sample := Int16FromBytes(pcm[i], pcm[i + 1]);
        samples := samples + [Normalize(sample)];
        i := i + 2;
      }
      ghost var expected := NormalizeAll(DecodePcm16(pcm));
      assert |samples| == |expected|;
      assert forall k :: 0 <= k < |samples| ==> samples[k] == expected[k];
      assert samples == expected;
      return Success(samples);
    }

    /** `transcribe(audioURL:language:)`: refused unless a model is loaded; otherwise the
        file is read, decoded and handed to the engine, and the segments combined. */
    method Transcribe(audioUrl: string, language: TranscriptionLanguage,
                      readFile: string -> Result<seq<Byte>, string>, engine: Engine)
      returns (r: Result<string, TranscribeFailure>)
      ensures !IsLoaded() ==> r == Failure(ServiceError(NotInitialized))
      ensures IsLoaded() ==> r == TranscribeOutcome(readFile(audioUrl), language, engine)
    {
      if !(isInitialized && whisper.Some?) {
        return Failure(ServiceError(NotInitialized));
      }
      var audio := readFile(audioUrl);
      if audio.Failure? {
        return Failure(ReadFailed(audio.error));
      }
      var samples := LoadAudioSamples(audio.value);
      if samples.Failure? {
        return Failure(ServiceError(samples.error));
      }
      var segments := engine(samples.value, language);
      if segments.Failure? {
        return Failure(EngineFailed(segments.error));
      }
      var transcription := Text.Join(Texts(segments.value), " ");
      return Success(Text.Trim(transcription));
    }

    /** `cleanup()`: drops the model, after which `transcribe` is refused again. */
    method Cleanup()
      modifies this`whisper, this`isInitialized
      ensures whisper.None? && !isInitialized && !IsLoaded()
    {
      whisper := None;
      isInitialized := false;
    }

    /** `loadModel(from:)`, with `files` the paths that exist and `context` what opening the
        file gives. A missing file is reported and changes nothing here; otherwise the
        handle is replaced by the result of opening, and only a success marks the service
        initialised and the selected model loaded. */
    method LoadModel(app: AppState, path: string, files: set<string>, context: Option<WhisperHandle>)
      modifies this`whisper, this`isInitialized, app`modelStatus, app`publishedStatuses, app`loadedModel
      ensures app.publishedStatuses == old(app.publishedStatuses) + [LoadStatus(path in files, context)]
      ensures app.modelStatus == LoadStatus(path in files, context)
      ensures path !in files ==> whisper == old(whisper) && isInitialized == old(isInitialized) && app.loadedModel == old(app.loadedModel)
      ensures path in files ==> whisper == context
      ensures path in files && context.Some? ==> isInitialized && IsLoaded() && app.loadedModel == Some(app.selectedModel)
      ensures path in files && context.None? ==> isInitialized == old(isInitialized) && !IsLoaded() && app.loadedModel == old(app.loadedModel)
    {
      if path !in files {
        app.PublishModelStatus(Error("Model file not found"));
        return;
      }
      var model := app.selectedModel;
      whisper := context;
      if whisper.Some? {
        isInitialized := true;
        app.PublishModelStatus(Ready);
        app.loadedModel := Some(model);
      } else {
        app.PublishModelStatus(Error("Failed to load model"));
      }
    }

    /** `downloadModel(_:)`: publishes `downloading(0)`, then `ready` or the error; on
        success the model file is at its cache path. */
    method DownloadModel(app: AppState, model: WhisperModel, files: set<string>, outcome: DownloadOutcome)
      returns (files': set<string>)
      modifies app`modelStatus, app`publishedStatuses
      ensures app.publishedStatuses == old(app.publishedStatuses) + DownloadStatuses(outcome)
      ensures app.modelStatus == DownloadStatuses(outcome)[1]
      ensures files' == match outcome
        case Installed => files + {ModelPath(model)}
        case DownloadFailed(_) => files
        case InstallFailed(_) => files - {ModelPath(model)}
    {
      app.PublishModelStatus(Downloading(0.0));
      var destination := ModelPath(model);
      match outcome {
        case Installed =>
          files' := files + {destination};
          app.PublishModelStatus(Ready);
        case DownloadFailed(d) =>
          files' := files;
          app.PublishModelStatus(Error(DownloadFailedPrefix + d));
        case InstallFailed(d) =>
          files' := files - {destination};
          app.PublishModelStatus(Error(DownloadFailedPrefix + d));
      }
    }

    /** `initialize()`: downloads the selected model only when its file is missing, then
        always tries to load it. */
    method Initialize(app: AppState, files: set<string>, outcome: DownloadOutcome, context: Option<WhisperHandle>)
      returns (files': set<string>)
      modifies this`whisper, this`isInitialized, app`modelStatus, app`publishedStatuses, app`loadedModel
      ensures var path := ModelPath(old(app.selectedModel));
        && files' == (if path in files then files else match outcome
             case Installed => files + {path}
             case DownloadFailed(_) => files
             case InstallFailed(_) => files - {path})
        && app.publishedStatuses == old(app.publishedStatuses)
             + (if path in files then [] else DownloadStatuses(outcome))
             + [LoadStatus(path in files', context)]
        && app.modelStatus == LoadStatus(path in files', context)
        && (path !in files' ==> whisper == old(whisper) && isInitialized == old(isInitialized) && app.loadedModel == old(app.loadedModel))
        && (path in files' ==> whisper == context)
        && (path in files' && context.Some? ==> isInitialized && IsLoaded() && app.loadedModel == Some(old(app.selectedModel)))
        && (path in files' && context.None? ==> isInitialized == old(isInitialized) && !IsLoaded() && app.loadedModel == old(app.loadedModel))
    {
      var model := app.selectedModel;
      var modelPath := ModelPath(model);
      files' := files;
      if modelPath !in files {
        files' := DownloadModel(app, model, files, outcome);
      }
      LoadModel(app, modelPath, files', context);
    }
  }
}
