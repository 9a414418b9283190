# Speech: a verified model of the dictation core

Speech is a macOS menu-bar app for push-to-talk dictation. The user holds a shortcut to
record from the microphone. On release the recording is transcribed on the device by a
Whisper model. The text is put on the clipboard and announced in a notification, ready to
paste.

This project models the sequential logic under the app's AppKit, AVFoundation and SwiftUI
glue, and proves properties of it:

- `Hotkeys`: the shortcut's edge detection.
- `AppStates` and `Dictation`: the coordinator's recording and transcribing flags, its
  capped history, and the two background tasks it launches.
- `HotkeyConfigs`: the shortcut value, its rendering and its persistence.
- `Transcription`: the transcription service, covering WAV decoding, segment joining and
  model status.
- `Recording`: the recorder's session bookkeeping.
- `Injection`: text delivery through the clipboard.
- `Updates`: the update check and its version comparison.
- `HotkeyCapture`: the shortcut capture view.
- `MenuBar`, `MenuBarIcons` and `Settings`: the status derivations of three views.
- `Text` and `Wrappers`: shared helpers. `Text` models the Swift string operations the
  core relies on (`Int(String)`, `trimmingCharacters(in: .whitespacesAndNewlines)`,
  `joined(separator:)`).

Objects whose fields the source updates in place are classes. Ghost logs record what an
object does to the outside world: the calls the hotkey manager makes on the app state,
the clipboard and focus effects of the injector, and the values published to
`modelStatus`. Pure spec functions describe these logs. The operating system is replaced
by parameters: an event stream, a frontmost-application oracle, the keyboard layout, the
file system as a set of paths, the outcomes of downloads and model loads, the HTTP
response, and the inference engine as an opaque function from samples to segments.

## Model

| member | source | states |
|---|---|---|
| Hotkeys.Step | Sources/Hotkeys/HotkeyManager.swift:64-92 | only a shortcut change touches the configured shortcut; a key-down always leaves the key held and a key-up leaves it up; a recording starts only on a key-down while the key was up |
| Hotkeys.Run | Sources/Hotkeys/HotkeyManager.swift:64-92 | a stream of events makes at most one call per event, and without a key-down no recording starts and no hold begins |
| Hotkeys.StepFlipsOnCall | Sources/Hotkeys/HotkeyManager.swift:64-92 | an event makes a call exactly when it flips `isKeyDown`: a start when it rises, a stop when it falls, and at most one call per event |
| Hotkeys.RunAlternates | Sources/Hotkeys/HotkeyManager.swift:64-74 | over any event sequence the calls strictly alternate, starting with a start from an idle state, and the final flag says whether a start is unmatched |
| Hotkeys.PressThenRelease | Sources/Hotkeys/HotkeyManager.swift:64-74 | a key-down followed by a key-up from an idle state gives exactly one start and then one stop, and leaves the key up |
| Hotkeys.RepeatedKeyDownIgnored | Sources/Hotkeys/HotkeyManager.swift:64-68 | a key-down while the key is held changes nothing and calls nothing |
| Hotkeys.HotkeyManager.constructor | Sources/Hotkeys/HotkeyManager.swift:13-15 | starts with the key up, the app state's shortcut and no calls made |
| Hotkeys.HotkeyManager.HandleKeyDown | Sources/Hotkeys/HotkeyManager.swift:64-68 | the first key-down of a hold sets `isKeyDown` and calls `startRecording`; later ones do nothing |
| Hotkeys.HotkeyManager.HandleKeyUp | Sources/Hotkeys/HotkeyManager.swift:70-74 | a key-up when not held does nothing; when held it clears `isKeyDown` and calls `stopRecordingAndTranscribe` once |
| Hotkeys.HotkeyManager.HandleFlagsChanged | Sources/Hotkeys/HotkeyManager.swift:78-85 | a modifier change ends a hold exactly when the held flags, masked to ⌃⌥⇧⌘, no longer contain the configured ones; otherwise nothing changes |
| Hotkeys.HotkeyManager.HandleGlobalKeyUp | Sources/Hotkeys/HotkeyManager.swift:87-92 | a key-up of the configured key ends a hold; a key-up of any other key is ignored |
| Hotkeys.HotkeyManager.HandleConfigChange | Sources/Hotkeys/HotkeyManager.swift:32-38 | an equal shortcut changes nothing; another becomes `currentConfig`, and `isKeyDown` is kept |
| Hotkeys.HotkeyManager.Handle | Sources/Hotkeys/HotkeyManager.swift:32-92 | one event changes the state and the call log as `Step` says |
| Hotkeys.HotkeyManager.HandleAll | Sources/Hotkeys/HotkeyManager.swift:64-92 | a whole event stream acts as `Run` says, so the calls it adds strictly alternate |
| HotkeyConfigs.KeyName | Sources/AppState.swift:197-222 | each of the seventeen named keys gets its fixed name under every layout; any other key takes the layout's characters, or else "Key <code>"; the name is not empty |
| HotkeyConfigs.DisplayString | Sources/AppState.swift:187-195 | the display string ends with the key name, preceded by at most four modifier glyphs |
| HotkeyConfigs.DisplayStringReadsBack | Sources/AppState.swift:187-195 | reading the glyphs back off `displayString` gives exactly the modifiers among ⌃⌥⇧⌘ and then the key name, so the glyphs come in the fixed order ⌃⌥⇧⌘, one per flag that is set |
| HotkeyConfigs.GlyphsReadBack | Sources/AppState.swift:187-195 | each modifier glyph is read back as its flag, in the order ⌃⌥⇧⌘, and the key name is left over |
| HotkeyConfigs.AsUInt32 | Sources/AppState.swift:259 | a stored value reads as a `UInt32` exactly when it is a number that fits |
| HotkeyConfigs.AsUInt | Sources/AppState.swift:260 | a stored value reads as a `UInt` exactly when it is a number that fits in 64 bits |
| HotkeyConfigs.Save | Sources/AppState.swift:253-256 | saving writes the two shortcut keys and leaves every other stored key as it was |
| HotkeyConfigs.Load | Sources/AppState.swift:258-262 | a stored key code that reads as a `UInt32` and stored modifiers that read as a `UInt` are used; each one missing or unreadable falls back to the default ⌥Space's part |
| HotkeyConfigs.LoadAfterSave | Sources/AppState.swift:253-262 | loading after saving gives back the saved shortcut, whatever else is stored |
| HotkeyConfigs.LoadWithoutKeysIsDefault | Sources/AppState.swift:258-262 | with neither key stored, loading gives the default ⌥Space |
| AppStates.WhisperModel.FileName | Sources/AppState.swift:158-160 | the file name is "ggml-", the raw value, then ".bin", so the raw value can be read back out of it |
| AppStates.FileNameInjective | Sources/AppState.swift:141-160 | two model variants never share a file name |
| AppStates.Preview | Sources/AppState.swift:290-295 | a text of at most fifty characters is its own preview; a longer one is cut to forty-seven characters and "...", fifty in all |
| AppStates.Recorded | Sources/AppState.swift:112-120 | the new item comes first, the older items keep their order, and the oldest is dropped when there would be more than five |
| AppStates.RecordedKeepsInvariant | Sources/AppState.swift:112-120 | recording a non-empty text keeps the history at most five long and free of empty entries |
| AppStates.AppState.constructor | Sources/AppState.swift:10-35 | not recording or transcribing, no error, empty history, no model loaded, and the shortcut loaded from the defaults |
| AppStates.AppState.PublishModelStatus | Sources/AppState.swift:15 | assigning the model status publishes the new value |
| AppStates.AppState.SetHotkeyConfig | Sources/AppState.swift:19-24 | assigning the shortcut saves it, and loading the saved defaults gives it back |
| AppStates.AppState.StartRecording | Sources/AppState.swift:70-77 | ignored while recording; otherwise it saves the frontmost app, sets `isRecording` and clears the error, without looking at `isTranscribing` |
| AppStates.AppState.RecordingStartFailed | Sources/AppState.swift:85-90 | a recorder failure ends recording and shows "Failed to start recording: " and the description |
| AppStates.AppState.StopRecordingAndTranscribe | Sources/AppState.swift:95-98 | ignored unless recording; otherwise `isRecording` falls and `isTranscribing` rises |
| AppStates.AppState.FinishTranscription | Sources/AppState.swift:108-135 | both paths end with `isTranscribing` false; success records the text, puts a non-empty one first in the capped history and injects only a non-empty one; failure sets the error and leaves history and injector alone |
| Dictation.TranscriptionOutcome | Sources/AppState.swift:103-135 | the task has text exactly when the recorder stopped, a model is loaded and the transcription succeeded; a stop failure and a missing model are reported by their own descriptions |
| Dictation.TranscriptionOutcomeSuccess | Sources/Transcription/WhisperService.swift:124-143 | text reaches the app only when the recorder was recording and a model was loaded, and it never begins or ends with whitespace |
| Dictation.StopWithoutSessionIsReported | Sources/Recording/AudioRecorder.swift:107-110 | a transcription task that finds no recording session reports "Not currently recording" |
| Dictation.RecordingTask | Sources/AppState.swift:82-92 | the recorder is started; if it throws, recording ends and the error is shown; otherwise the app is untouched |
| Dictation.TranscriptionTask | Sources/AppState.swift:103-137 | the recorder is stopped, its file transcribed and the result finished into the app; a non-empty text is delivered and clears the saved app, which every other path keeps; the recording file is deleted only after a successful transcription |
| Transcription.Int16FromBytes | Sources/Transcription/WhisperService.swift:163-165 | two bytes, low first, read as a two's-complement value in the 16-bit range |
| Transcription.BytesOfInt16 | Sources/Transcription/WhisperService.swift:163-165 | the little-endian encoding of a 16-bit value is two bytes long |
| Transcription.Int16RoundTrip | Sources/Transcription/WhisperService.swift:163-165 | decoding the two bytes of any 16-bit value gives it back |
| Transcription.DecodePcm16 | Sources/Transcription/WhisperService.swift:155-167 | a payload of n bytes gives ⌊n/2⌋ samples, sample k read from bytes 2k and 2k+1 |
| Transcription.DecodeEncode | Sources/Transcription/WhisperService.swift:155-167 | decoding the encoding of any 16-bit samples, with or without a trailing odd byte, gives them back |
| Transcription.NormalizeAll | Sources/Transcription/WhisperService.swift:166 | every sample is divided by 32768 |
| Transcription.NormalizedInRange | Sources/Transcription/WhisperService.swift:166 | a normalised 16-bit sample lies in [-1, 1) |
| Transcription.Texts | Sources/Transcription/WhisperService.swift:141 | the texts of the segments, in order |
| Transcription.Combine | Sources/Transcription/WhisperService.swift:141-143 | the transcription is no longer than the segment texts with one space between each two |
| Transcription.CombineProperties | Sources/Transcription/WhisperService.swift:141-143 | no segments give "", one segment gives its trimmed text, and the result never begins or ends with whitespace |
| Transcription.TranscribeOutcome | Sources/Transcription/WhisperService.swift:130-143 | a file that cannot be read is reported as such, a file of 44 bytes or fewer as `audioLoadFailed`, and text comes only from a readable file with samples after the header |
| Transcription.DownloadStatuses | Sources/Transcription/WhisperService.swift:55-84 | a download publishes downloading(0) and then one more status: ready exactly when the file was installed, otherwise an error |
| Transcription.LoadStatus | Sources/Transcription/WhisperService.swift:101-122 | loading publishes ready exactly when the file exists and opens, otherwise an error |
| Transcription.WhisperService.constructor | Sources/Transcription/WhisperService.swift:4-8 | no model is loaded |
| Transcription.WhisperService.LoadAudioSamples | Sources/Transcription/WhisperService.swift:146-170 | files of 44 bytes or fewer are refused with `audioLoadFailed`; otherwise the samples are the normalised 16-bit values after the 44-byte header |
| Transcription.WhisperService.Transcribe | Sources/Transcription/WhisperService.swift:124-144 | refused with `notInitialized` unless a model is loaded; otherwise read, decode, run the engine and combine, each step's error reported as such |
| Transcription.WhisperService.Cleanup | Sources/Transcription/WhisperService.swift:172-175 | afterwards no model is loaded, so `transcribe` is refused again |
| Transcription.WhisperService.LoadModel | Sources/Transcription/WhisperService.swift:101-122 | a missing file gives "Model file not found" and changes nothing else; otherwise the handle is stored, and only a successful load sets `isInitialized`, `ready` and the loaded model |
| Transcription.WhisperService.DownloadModel | Sources/Transcription/WhisperService.swift:55-84 | the status goes to downloading(0), then to ready or to "Download failed: …"; the file appears only after a download that installed |
| Transcription.WhisperService.Initialize | Sources/Transcription/WhisperService.swift:28-38 | the model is downloaded only when its file is absent, and a load is always attempted afterwards: with the file still missing the handle, `isInitialized` and the loaded model are unchanged; otherwise the handle becomes what opening gave, and only a handle marks the service initialised and the selected model loaded |
| Recording.RecordingPath | Sources/Recording/AudioRecorder.swift:47-49 | the path is the temporary directory, "/", "speach_recording_", the UUID and ".wav", so the UUID can be read back out of it |
| Recording.Start | Sources/Recording/AudioRecorder.swift:29-101 | the URL is stored once the format exists and the file once it is also created, each kept by a later failure; a failed start leaves a stopped engine stored |
| Recording.Stop | Sources/Recording/AudioRecorder.swift:107-122 | a stop succeeds exactly when an engine and a URL are stored, returns that URL and forgets all three properties; otherwise it throws `notRecording` and changes nothing |
| Recording.StartRunsOnlyWhenComplete | Sources/Recording/AudioRecorder.swift:29-101 | every start stores an engine, and the engine runs exactly when every step succeeded |
| Recording.StopReturnsLatestUrl | Sources/Recording/AudioRecorder.swift:47-121 | once the URL is stored, even a start that then fails keeps it, and the next stop returns exactly that URL |
| Recording.SecondStopFails | Sources/Recording/AudioRecorder.swift:107-121 | a stop clears the session, so a second stop throws `notRecording` |
| Recording.AudioRecorder.constructor | Sources/Recording/AudioRecorder.swift:7-27 | no engine, file or URL |
| Recording.AudioRecorder.StartRecording | Sources/Recording/AudioRecorder.swift:29-101 | the engine, the URL "speach_recording_<UUID>.wav" in the temporary directory, and the file are stored one after the other; a failure keeps what was stored before it |
| Recording.AudioRecorder.WriteBuffer | Sources/Recording/AudioRecorder.swift:103-105 | a buffer is appended to the open file, if there is one |
| Recording.AudioRecorder.HandleTapBuffer | Sources/Recording/AudioRecorder.swift:80-97 | the converted buffer is appended to the open file exactly when an output buffer was allocated, the conversion reported no error, a file is open and the write succeeds; in every other case the file is unchanged |
| Recording.AudioRecorder.StopRecording | Sources/Recording/AudioRecorder.swift:107-122 | without an engine and a URL it throws `notRecording`; otherwise it clears all three fields and returns the URL |
| Recording.AudioRecorder.IsRecording | Sources/Recording/AudioRecorder.swift:124-126 | false whenever no engine is held |
| Injection.FocusPollsFrom | Sources/Injection/TextInjector.swift:28-32 | the loop sleeps at most twenty times and stops at the first look that finds the saved app frontmost |
| Injection.NotificationPreview | Sources/Injection/TextInjector.swift:36 | the preview is the first fifty characters of the text |
| Injection.NotificationBodyAsWritten | Sources/Injection/TextInjector.swift:50 | as written: the body is the lead, then the whole preview, then three more characters exactly when the preview has fifty or more |
| Injection.FiftyCharacterTextGetsEllipsis | Sources/Injection/TextInjector.swift:36-50 | as written, a text of exactly fifty characters is shown whole and still followed by "..." |
| Injection.NotificationBody | Sources/Injection/TextInjector.swift:36-50 | intended behaviour, differs from line 50 on texts of exactly fifty characters: "..." follows the fifty-character preview only when something was cut |
| Injection.NotificationBodyCorrection | Sources/Injection/TextInjector.swift:36-50 | the corrected body differs from the written one exactly on texts of fifty characters |
| Injection.InjectionEffects | Sources/Injection/TextInjector.swift:19-50 | delivery does two to twenty-three things; with an app saved the second is its activation, and everything between that and the notification is a 25 ms sleep |
| Injection.InjectionEffectsOrder | Sources/Injection/TextInjector.swift:19-50 | the clipboard is written first, and the notification with the body as line 50 builds it is posted last; afterwards the clipboard holds exactly the text; activation and polling happen only when an app was saved |
| Injection.ClipboardSkipsOtherEffects | Sources/Injection/TextInjector.swift:41-45 | effects other than clipboard writes leave the clipboard alone |
| Injection.TextInjector.constructor | Sources/Injection/TextInjector.swift:10-13 | no app saved, nothing done yet |
| Injection.TextInjector.SaveFocusedApp | Sources/Injection/TextInjector.swift:15-17 | the saved app becomes the current frontmost app |
| Injection.TextInjector.InjectText | Sources/Injection/TextInjector.swift:19-50 | the effects are those of `InjectionEffects`, including the "..." that line 50 adds to a fifty-character text, and `previousApp` is cleared |
| Injection.TextInjector.WaitForFocus | Sources/Injection/TextInjector.swift:27-31 | the polling loop sleeps exactly as many times as `FocusPollsFrom` counts, and records nothing else |
| Updates.Split | Sources/UpdateManager.swift:141-142 | the pieces are non-empty and free of the separator |
| Updates.SplitJoin | Sources/UpdateManager.swift:141-142 | splitting undoes joining for non-empty pieces without the separator |
| Updates.ParsedComponents | Sources/UpdateManager.swift:141-142 | at most one number per piece |
| Updates.UnparsablePieceDropped | Sources/UpdateManager.swift:141-142 | a piece that does not parse as `Int` contributes nothing, wherever it stands |
| Updates.VersionComponents | Sources/UpdateManager.swift:141-142 | a version written as dot-joined numbers has exactly those numbers as its components |
| Updates.Components | Sources/UpdateManager.swift:141-142 | a version has at most one component per dot-separated piece, each in the 64-bit range of `Int` |
| Updates.Newer | Sources/UpdateManager.swift:144-151 | a newer version is never the same release, trailing zeros aside |
| Updates.NewerVersion | Sources/UpdateManager.swift:140-152 | a version string is never newer than itself, nor than any string with the same components up to trailing zeros |
| Updates.NewerIrreflexive | Sources/UpdateManager.swift:140-152 | no version is newer than itself |
| Updates.NewerAsymmetric | Sources/UpdateManager.swift:148-149 | if a is newer than b, then b is not newer than a |
| Updates.NewerTrichotomy | Sources/UpdateManager.swift:144-151 | two versions are the same release, or exactly one of them is newer |
| Updates.SameVersionNotNewer | Sources/UpdateManager.swift:144-146 | versions that differ only in trailing zeros are not newer than each other, and compare alike against any third |
| Updates.TenIsNewerThanNine | Sources/UpdateManager.swift:141-149 | components compare as numbers: "1.10" is newer than "1.9" and not the reverse |
| Updates.TrailingZeroIgnored | Sources/UpdateManager.swift:144-146 | "1.2" and "1.2.0" are not newer than each other |
| Updates.RemoveV | Sources/UpdateManager.swift:51 | no 'v' remains, and a tag without one is kept as it is |
| Updates.RemoveVKeepsOthers | Sources/UpdateManager.swift:51 | every character other than 'v' is kept, as often as it occurs |
| Updates.RemoveVAppend | Sources/UpdateManager.swift:51 | the 'v's are removed piece by piece, so the kept characters stay in their order |
| Updates.CheckError | Sources/UpdateManager.swift:29-59 | an error is reported exactly unless the reply is HTTP 200 with a string `tag_name` |
| Updates.UpdateManager.constructor | Sources/UpdateManager.swift:18-20 | the running version is the bundle's, or "1.0.0" when it has none |
| Updates.UpdateManager.IsNewerVersion | Sources/UpdateManager.swift:140-152 | the loop's answer is exactly `Newer` on the numeric components: the first differing zero-padded component decides |
| Updates.UpdateManager.CheckForUpdates | Sources/UpdateManager.swift:22-60 | the update flag is cleared first; a failed check reports its error and keeps the old latest version; a good one records the tag without its 'v's and raises the flag only when that is newer |
| HotkeyCapture.Decide | Sources/UI/HotkeyRecorderView.swift:37-61 | Escape cancels whatever the modifiers; a key without ⌃⌥⇧⌘ or a modifier key is ignored; anything else is accepted with the masked modifiers |
| HotkeyCapture.AcceptedConfigIsUsable | Sources/UI/HotkeyRecorderView.swift:40-61 | an accepted shortcut has a non-empty modifier set of only the four flags, and a key that is neither Escape nor a modifier key |
| HotkeyCapture.CapturedModifiersHoldTheShortcut | Sources/UI/HotkeyRecorderView.swift:37-61 | the modifiers held while capturing a shortcut do not count as releasing it in the hotkey manager |
| HotkeyCapture.Stop | Sources/UI/HotkeyRecorderView.swift:67-73 | capture ends and the held monitor is dropped; the shortcut is kept |
| HotkeyCapture.StartAsWritten | Sources/UI/HotkeyRecorderView.swift:33-36 | as written: capture starts holding the fresh monitor and keeps the shortcut; every monitor already installed stays installed, and only the fresh one is added |
| HotkeyCapture.DoubleStartLeaksMonitor | Sources/UI/HotkeyRecorderView.swift:33-73 | as written, two clicks and then the end of the capture leave the first monitor installed while not capturing |
| HotkeyCapture.StartAsWrittenWhenNoneHeld | Sources/UI/HotkeyRecorderView.swift:33-36 | when no monitor is held, the written start is the intended one and keeps exactly one monitor installed |
| HotkeyCapture.Start | Sources/UI/HotkeyRecorderView.swift:33-36 | intended behaviour, differs from these lines when a monitor is held: capture starts with only the fresh monitor installed, the shortcut kept |
| HotkeyCapture.StartStopKeepInvariant | Sources/UI/HotkeyRecorderView.swift:33-73 | with the corrected start, exactly the held monitor is installed while capturing and none otherwise |
| HotkeyCapture.KeyDown | Sources/UI/HotkeyRecorderView.swift:36-64 | an ignored key changes nothing; a cancel or an accepted key ends the capture and drops the monitor; the shortcut changes only to an accepted one |
| HotkeyCapture.KeyDownOutcome | Sources/UI/HotkeyRecorderView.swift:36-64 | Escape keeps the shortcut and ends capture; an ignored key changes nothing; an accepted key becomes the shortcut and ends capture |
| HotkeyCapture.HotkeyRecorderView.constructor | Sources/UI/HotkeyRecorderView.swift:5-7 | not capturing, no monitor |
| HotkeyCapture.HotkeyRecorderView.StopRecording | Sources/UI/HotkeyRecorderView.swift:67-73 | acts as `Stop` |
| HotkeyCapture.HotkeyRecorderView.StartRecording | Sources/UI/HotkeyRecorderView.swift:33-36 | acts as the written `StartAsWritten`: capture starts with the fresh monitor held, and a monitor held before stays installed |
| HotkeyCapture.HotkeyRecorderView.HandleKeyDown | Sources/UI/HotkeyRecorderView.swift:36-64 | acts as `KeyDown` |
| HotkeyCapture.HotkeyRecorderView.ResetToDefault | Sources/UI/HotkeyRecorderView.swift:24 | the shortcut becomes ⌥Space and the reset button disappears |
| Settings.CapitalizeFrom | Sources/UI/SettingsView.swift:142 | capitalising keeps the length and which characters are letters |
| Settings.Capitalized | Sources/UI/SettingsView.swift:142 | `capitalized` keeps the length and upper-cases a letter that starts the text |
| Settings.CapitalizedRawValue | Sources/UI/SettingsView.swift:142 | the raw values capitalise to "Tiny", "Base", "Small" and "Medium.en" |
| Settings.IsDownloading | Sources/UI/SettingsView.swift:123-128 | true exactly for a `downloading` status |
| Settings.CanDownload | Sources/UI/SettingsView.swift:130-136 | never during a download; otherwise exactly when the loaded model is not the selected one or the status is not ready |
| Settings.ButtonTitle | Sources/UI/SettingsView.swift:138-143 | "Model Ready" exactly when the selected model is loaded and ready; otherwise "Download <capitalised raw value> Model" |
| Settings.CanDownloadMatchesTitle | Sources/UI/SettingsView.swift:130-143 | outside a download the button is enabled exactly when its title is not "Model Ready" |
| MenuBar.TruncateToInt | Sources/UI/MenuBarView.swift:93 | `Int(_: Double)` truncates toward zero |
| MenuBar.StatusText | Sources/UI/MenuBarView.swift:83-100 | recording before transcribing before the model status, with the download shown as a whole percentage |
| MenuBar.StatusColor | Sources/UI/MenuBarView.swift:102-114 | red while recording, orange while only transcribing; when idle green for ready, yellow for downloading and gray otherwise |
| MenuBar.StatusTextDistinguishesStates | Sources/UI/MenuBarView.swift:83-100 | the text alone tells recording, transcribing, ready and downloading apart |
| MenuBar.StatusColorMatchesIcon | Sources/UI/MenuBarView.swift:102-114 | while recording or transcribing the status colour is the icon's colour |
| MenuBarIcons.IconName | Sources/UI/MenuBarIcon.swift:14-22 | "waveform.badge.mic" exactly while recording, "text.bubble" while only transcribing, "waveform" otherwise |
| MenuBarIcons.IconColor | Sources/UI/MenuBarIcon.swift:24-32 | red exactly while recording, orange while only transcribing, primary otherwise |
| MenuBarIcons.IconNameMatchesColor | Sources/UI/MenuBarIcon.swift:14-32 | two states share a symbol exactly when they share a colour, so the recording flag decides both |
| Text.NatToString | Sources/AppState.swift:220 | the decimal rendering is non-empty, all digits, and has no leading zero |
| Text.IntToString | Sources/UI/MenuBarView.swift:93 | the rendering starts with '-' exactly for negative numbers |
| Text.DigitsOfNatToString | Sources/AppState.swift:220 | reading the digits of a rendering back gives the number |
| Text.ParseInt | Sources/UpdateManager.swift:141-142 | a value exactly for an optional sign followed by one or more digits and nothing else, in the 64-bit range; its value is the digits' value, negated after '-' |
| Text.ParseIntToString | Sources/UpdateManager.swift:141-142 | parsing the rendering of any 64-bit integer gives it back |
| Text.ParseIntLeadingZero | Sources/UpdateManager.swift:141-142 | a leading zero changes neither whether a piece parses nor its value |
| Text.ParseIntPlusSign | Sources/UpdateManager.swift:141-142 | a '+' in front changes nothing |
| Text.ParseIntMinusSign | Sources/UpdateManager.swift:141-142 | a '-' in front negates whatever parses |
| Text.TrimStart | Sources/Transcription/WhisperService.swift:143 | only leading whitespace is dropped, and the rest does not start with whitespace |
| Text.TrimEnd | Sources/Transcription/WhisperService.swift:143 | only trailing whitespace is dropped, and the rest does not end with whitespace |
| Text.Trim | Sources/Transcription/WhisperService.swift:143 | trimming never lengthens a text, and a text that neither starts nor ends with whitespace is kept as it is |
| Text.TrimIsInfix | Sources/Transcription/WhisperService.swift:143 | the trimmed text is the original minus whitespace at both ends |
| Text.TrimEmptyIffWhitespace | Sources/Transcription/WhisperService.swift:143 | trimming gives "" exactly for all-whitespace text |
| Text.TrimIdempotent | Sources/Transcription/WhisperService.swift:143 | trimming twice is trimming once |
| Text.Join | Sources/Transcription/WhisperService.swift:141 | the first part starts the joined text |
| Text.JoinLength | Sources/Transcription/WhisperService.swift:141 | the joined text holds every part and one separator between neighbours |
| Text.JoinCons | Sources/Transcription/WhisperService.swift:141 | joining puts the first part, then a separator, then the join of the rest |

## Left out

- Concurrency. Each `Task`, actor hop and `MainActor.run` becomes a sequential method. The order of these methods is up to the caller, for example a release that arrives before the recorder has started. The download-progress `Task`s, which can land after `ready`, are not modelled.
- Network and file transfer. `downloadWithProgress` and its progress delegate are replaced by an abstract download outcome. The same holds for `downloadAndInstall`, `relaunchApp`, the unzip and copy steps, and the model directory's creation.
- Foreign engines. Whisper inference is an opaque function from samples and language to segments or an error. AVAudioEngine, the tap's sample-rate conversion and the buffer contents are abstract. The keyboard-layout translation (`keyCodeToString`) and its upper-casing are one `Layout` oracle. HotKey's `Key(carbonKeyCode:)` and the registration in `setupHotkey`/`unregisterHotkey` are left out.
- Clocks, identifiers and notifications. `Date`, `UUID` and the monitor handles are parameters. `timeAgo` is left out. Notification delivery, its permission request and its sound are left out; only the posted title and body are modelled.
- UI. The recording overlay, the alerts, permission handling, `@AppStorage` persistence of the selected model and language, and the settings window's status row are left out.
- Updates.UpdateManager.CheckForUpdates: `isChecking` is stated only at the end, not while the request is in flight. The "Invalid URL" branch is not modelled, because the fixed GitHub address always parses.
- AppStates.Preview: counts Unicode scalars, where Swift's `count` and `prefix` count grapheme clusters. The same holds for Injection.NotificationPreview.
- Settings.Capitalized: models Foundation's `capitalized` on ASCII text only. All four raw values are ASCII.
- MenuBar.TruncateToInt: uses exact reals for `progress * 100`. The trap of `Int(_: Double)` on NaN or infinite values is not modelled.
- Transcription.NormalizeAll: divides exactly in the reals, not with `Float` rounding.
- Hotkeys.HotkeyManager.HandleGlobalKeyUp: `UInt16(currentConfig.keyCode)` traps for key codes of 65536 or more. The model compares the full values instead.
- Recording.AudioRecorder.StartRecording: the tap installed on an engine whose start then fails is not modelled. The same goes for `removeTap` and `engine.stop()` on stop. `engineNotAvailable` and `noInputNode` are declared but never thrown.
- Dictation.TranscriptionTask: a failed removal of the recording file is not modelled. `try?` ignores it.
- HotkeyConfigs.KeyName: `UInt16(keyCode)` in `keyCodeToString` traps for key codes of 65536 or more. The model passes every `UInt32` key code to the layout oracle instead.
- HotkeyConfigs.AsUInt32: models `as? UInt32` on a stored number as "the value fits exactly". The bridging of other stored types is not modelled.

## Findings

| source | as written | input that shows it | evidently intended | confidence | as-written member | corrected member |
|---|---|---|---|---|---|---|
| Sources/Injection/TextInjector.swift:50 | "..." follows the preview when the preview has 50 or more characters | a transcription of exactly 50 characters: shown whole, yet followed by "..." | "..." only when the text was cut. `TranscriptionItem.preview` (Sources/AppState.swift:291) keeps 50-character texts unmarked | medium, not executed | Injection.FiftyCharacterTextGetsEllipsis | Injection.NotificationBodyCorrection |
| Sources/UI/HotkeyRecorderView.swift:36 | `startRecording` overwrites `eventMonitor` without removing a monitor already held | click the shortcut button twice, then press ⌥K: the first monitor stays installed after capture ends, swallowing key-downs and rebinding the shortcut | at most one monitor, removed when capture ends | medium, not executed | HotkeyCapture.DoubleStartLeaksMonitor | HotkeyCapture.StartStopKeepInvariant |
