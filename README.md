# luzhiming, modelled in Dafny

luzhiming is a macOS dictation app. A tap on a circle starts and stops a
microphone recording. The recording controller keeps at most one session
open, ticks a 0.1 s timer, and stops on its own at the configured maximum
duration. Too-short recordings are discarded. A completed recording is
registered in a persisted history, announced to an observer, and followed
by a retention cleanup of the recordings directory. The announced file is
uploaded to the configured speech-to-text service (Zhipu or OpenAI; Doubao
has no client yet), and the recognised text is copied to the clipboard.
Around that sit:

- the settings object, with five fields written through to settings.json;
- the API-key store, one trimmed text file per provider;
- the settings window's controller, and its time and cache panes.

The model is organised as follows:

- `wrappers.dfy` (`Wrappers`): `Option` and `Result`.
- `text.dfy` (`Text`): `trimmingCharacters(in: .whitespacesAndNewlines)`
  and ASCII `lowercased()`.
- `recordings.dfy` (`Recordings`): the recordings directory as a listing of
  files. Each file has a path, a creation date, a size and a hidden flag.
  The directory is a class whose entries are removed and created in place.
- `settings_info.dfy` (`Settings`): `SettingsInfo` as a class over its five
  fields and the settings file, plus the retention cleanup. The cleanup
  sorts oldest first (insertion sort, proved sorted and a permutation) and
  deletes the oldest surplus.
- `audio_record_tool.dfy` (`AudioRecording`): the recording controller as a
  class. Each public method is proved to move the observed state (the fields,
  the observer events and the directory) exactly as a specification function
  of the old state does. Lemmas about those functions state the outcomes of
  start, stop and tick, that finalisation happens once, and that the history
  is the loaded list followed by the announced completions.
- `legacy_audio_record_tool.dfy` (`LegacyAudioRecording`): the first revision
  of the recorder (start, stop, toggle).
- `local_keys_tool.dfy` (`KeyStore`): the key files and `LocalKeysTool`.
- `upload.dfy` (`Upload`): what both HTTP clients share:
  - key resolution;
  - the ordered pre-flight guards;
  - the bearer header (section 2.1 of RFC 6750);
  - the multipart form (RFC 7578) as a list of parts, and what a server
    reads back from it under each name;
  - the status check.
- `http_digger_openai.dfy` (`OpenAIClient`) and `http_digger_zhipu.dfy`
  (`ZhipuClient`): the two clients' forms, response classification and
  request methods.
- `settings_view_controller.dfy`, `time_settings_area_view.dfy`,
  `files_cache_area_view.dfy`, `main_vc.dfy`: the settings controller, the two
  settings panes and the main screen.

The model treats its environment as follows:

- Everything the app gets from outside is a parameter:
  - the microphone permission;
  - whether the recorder opens;
  - the clock reading at each call;
  - the generated file name;
  - whether a directory can be created or a file written;
  - the process environment;
  - the HTTP response and the outcome of JSON-decoding it.
- Times and durations are `real`.
- Swift's `Int(String)` is modelled exactly, with the 64-bit range.

## Model

| member | source | states |
|---|---|---|
| Text.Trim | luzhiming/Others/Tool/LocalKeysTool.swift:56 | the trimmed string is the contiguous slice of the input that starts after the leading whitespace run |
| Text.TrimRemovesBlank | luzhiming/Others/Tool/LocalKeysTool.swift:56 | what trimming drops at each end is whitespace or newlines only |
| Text.TrimEnds | luzhiming/Others/Tool/LocalKeysTool.swift:56 | a non-empty trimmed string neither starts nor ends with whitespace |
| Text.TrimEmptyIffBlank | luzhiming/Others/Tool/LocalKeysTool.swift:56-57 | trimming yields the empty string exactly when the input is all whitespace |
| Text.TrimOfTrimmed | luzhiming/Others/Tool/LocalKeysTool.swift:56 | a string with no whitespace at either end trims to itself |
| Text.TrimIdempotent | luzhiming/Main/VC/MainVC.swift:66 | trimming twice is trimming once |
| Text.LowerChar | luzhiming/Others/Network/HttpDiggerZhipu.swift:103 | an ASCII capital maps to its small letter, every other character to itself, and no capital is left |
| Text.Lower | luzhiming/Others/Network/HttpDiggerZhipu.swift:103 | lower-casing keeps the length and lower-cases each character in place |
| Text.LowerIdempotent | luzhiming/Others/Network/HttpDiggerZhipu.swift:103 | lower-casing twice is lower-casing once |
| Recordings.Without | luzhiming/Others/Model/SettingsInfo.swift:147-153 | removing paths keeps exactly the entries whose path is not removed, never lengthens the listing, and keeps paths distinct |
| Recordings.WithoutNothing | luzhiming/Others/Model/SettingsInfo.swift:147-153 | removing no path leaves the listing unchanged |
| Recordings.WithoutTwice | luzhiming/Others/Model/SettingsInfo.swift:148-151 | removing one set of paths after another is removing their union |
| Recordings.Visible | luzhiming/Others/Model/SettingsInfo.swift:137 | the listing without hidden files keeps exactly the non-hidden entries and keeps paths distinct |
| Recordings.VisibleWithout | luzhiming/Others/Model/SettingsInfo.swift:137-153 | hiding and removing commute |
| Recordings.DistinctPathsCount | luzhiming/Others/Model/SettingsInfo.swift:137 | a listing with distinct paths has as many entries as paths |
| Recordings.RecordingsDirectory.constructor | luzhiming/Others/Model/SettingsInfo.swift:115-127 | a directory holds the given entries, one per path |
| Recordings.RecordingsDirectory.Remove | luzhiming/Others/Model/SettingsInfo.swift:149 | removing a path deletes its entry, keeps every other one, and ignores a path that is not there |
| Recordings.RecordingsDirectory.Put | luzhiming/Others/Tool/AudioRecordTool.swift:154-158 | creating a file replaces any entry with that path and leaves the file present |
| Settings.ProviderFromRawValue | luzhiming/Others/Model/SettingsInfo.swift:3-7 | a raw value decodes exactly when it names a case, to the case with that raw value |
| Settings.RawValueRoundTrip | luzhiming/Others/Model/SettingsInfo.swift:3-7 | decoding a case's raw value gives the case back |
| Settings.LoadedSnapshot | luzhiming/Others/Model/SettingsInfo.swift:75-100 | a decodable file gives its five values, a missing or undecodable one the defaults |
| Settings.CreatedBeforeTransitive | luzhiming/Others/Model/SettingsInfo.swift:140-144 | the sort's comparator, with an unreadable date as the distant past, is transitive |
| Settings.NotBeforeTransitive | luzhiming/Others/Model/SettingsInfo.swift:140-144 | the comparator's negation propagates through a smaller element |
| Settings.SortedCons | luzhiming/Others/Model/SettingsInfo.swift:140-144 | putting a file no newer than the rest in front of a sorted listing keeps it sorted |
| Settings.Insert | luzhiming/Others/Model/SettingsInfo.swift:140-144 | inserting adds exactly that file to the multiset of files |
| Settings.InsertSorted | luzhiming/Others/Model/SettingsInfo.swift:140-144 | inserting into a listing sorted oldest first keeps it sorted |
| Settings.InsertDistinct | luzhiming/Others/Model/SettingsInfo.swift:140-144 | inserting a file with a new path keeps paths distinct |
| Settings.SortByCreation | luzhiming/Others/Model/SettingsInfo.swift:140-144 | the sorted listing is ordered oldest first and is a permutation of the input (same multiset, same length, distinct paths kept) |
| Settings.DistinctInit | luzhiming/Others/Model/SettingsInfo.swift:137-144 | with distinct paths, the last entry's path is not among the others |
| Settings.SamePaths | luzhiming/Others/Model/SettingsInfo.swift:137-144 | listings with the same members name the same paths |
| Settings.DeleteCount | luzhiming/Others/Model/SettingsInfo.swift:147-148 | nothing is deleted within the maximum; beyond it `count - max` go and `max(max, 0)` stay, never more than there are |
| Settings.PathsOfPrefix | luzhiming/Others/Model/SettingsInfo.swift:148-151 | each step of the deletion loop adds one path to the removed set |
| Settings.DeletesOnlyVisible | luzhiming/Others/Model/SettingsInfo.swift:137-151 | every deleted file is a visible entry of the directory |
| Settings.WithoutCount | luzhiming/Others/Model/SettingsInfo.swift:147-153 | removing k listed paths from a listing with distinct paths removes k entries |
| Settings.DoomedPaths | luzhiming/Others/Model/SettingsInfo.swift:147-153 | the deleted files have distinct paths, all visible |
| Settings.CleanupCount | luzhiming/Others/Model/SettingsInfo.swift:130-157 | a cleanup pass leaves `min(count, max)` visible files, and none when the maximum is not positive |
| Settings.PrefixIsOldest | luzhiming/Others/Model/SettingsInfo.swift:140-148 | in a sorted listing nothing after a prefix is older than something in it |
| Settings.SurvivorNotOlder | luzhiming/Others/Model/SettingsInfo.swift:140-153 | a surviving file is never older than a deleted one |
| Settings.CleanupKeepsNewest | luzhiming/Others/Model/SettingsInfo.swift:130-157 | no visible file that survives a pass was created before one it deleted |
| Settings.NewestIsLast | luzhiming/Others/Model/SettingsInfo.swift:140-144 | the file newer than every other comes last in the sorted listing |
| Settings.NewestSurvives | luzhiming/Others/Model/SettingsInfo.swift:130-157 | with a maximum of at least one, the newest visible file is never deleted |
| Settings.SettingsInfo.Load | luzhiming/Others/Model/SettingsInfo.swift:41-43 | start-up loads a decodable file's values, or keeps the defaults and writes them over a missing or undecodable file; afterwards the file holds the fields whenever writes land |
| Settings.SettingsInfo.SaveToDisk | luzhiming/Others/Model/SettingsInfo.swift:61-72 | the file holds exactly the current fields when writing succeeds and is untouched when it fails |
| Settings.SettingsInfo.SetApiKeyProvider | luzhiming/Others/Model/SettingsInfo.swift:14-16 | the assignment changes that field only and is written through |
| Settings.SettingsInfo.SetMaxAudioRecordings | luzhiming/Others/Model/SettingsInfo.swift:19-21 | the assignment changes that field only and is written through |
| Settings.SettingsInfo.SetMinRecordingDuration | luzhiming/Others/Model/SettingsInfo.swift:24-26 | the assignment changes that field only and is written through |
| Settings.SettingsInfo.SetMaxRecordingDuration | luzhiming/Others/Model/SettingsInfo.swift:29-31 | the assignment changes that field only and is written through |
| Settings.SettingsInfo.SetAutoCleanOldRecordings | luzhiming/Others/Model/SettingsInfo.swift:34-36 | the assignment changes that field only and is written through |
| Settings.SettingsInfo.ResetToDefaults | luzhiming/Others/Model/SettingsInfo.swift:105-112 | every field holds its default and the file holds the defaults when writes land |
| Settings.SettingsInfo.CleanupOldRecordings | luzhiming/Others/Model/SettingsInfo.swift:130-157 | the directory afterwards is exactly what the cleanup specification leaves (unchanged when switched off or not listable), with distinct paths kept |
| Settings.Reload | luzhiming/Others/Model/SettingsInfo.swift:61-100 | a load of what a save wrote reproduces every field |
| AudioRecording.CompletedUrlsAppend | luzhiming/Others/Tool/AudioRecordTool.swift:222-224 | one more event adds its URL to the announced completions exactly when it is a completion |
| AudioRecording.StartOutcomes | luzhiming/Others/Tool/AudioRecordTool.swift:118-175 | a refused start changes nothing (so at most one session exists); an opening start begins a session at duration 0 with the file on disk and `true` announced; a failed one leaves no session and announces `false` |
| AudioRecording.StopOutcomes | luzhiming/Others/Tool/AudioRecordTool.swift:178-232 | every stop ends the session with `false` heard last; too short removes the file and announces the minimum without touching the history; completed appends the URL last, persists it, announces it and leaves the directory the cleanup produces; a missing file only announces `false` |
| AudioRecording.StopIsFinal | luzhiming/Others/Tool/AudioRecordTool.swift:179-182 | after a stop a second stop and a late tick change nothing, so a recording is finalised once |
| AudioRecording.TickOutcomes | luzhiming/Others/Tool/AudioRecordTool.swift:242-253 | a tick reports the time since the start; below the maximum the session stays open, at or past it the session is stopped |
| AudioRecording.HistoryTracksCompletions | luzhiming/Others/Tool/AudioRecordTool.swift:60-75 | start, stop and tick keep the history equal to the loaded list followed by exactly the announced completions |
| AudioRecording.TickTracksCompletions | luzhiming/Others/Tool/AudioRecordTool.swift:242-253 | a tick keeps the history equal to the loaded list followed by the announced completions |
| AudioRecording.StartTracksCompletions | luzhiming/Others/Tool/AudioRecordTool.swift:118-175 | a start keeps the history equal to the loaded list followed by the announced completions |
| AudioRecording.StopTracksCompletions | luzhiming/Others/Tool/AudioRecordTool.swift:192-228 | a stop keeps the history equal to the loaded list followed by the announced completions |
| AudioRecording.StopKeepsConsistent | luzhiming/Others/Tool/AudioRecordTool.swift:178-232 | a stop leaves no half-open session and the saved history equal to the in-memory one |
| AudioRecording.CompletedRecordingKept | luzhiming/Others/Tool/AudioRecordTool.swift:211-228 | a completed recording that is the newest visible file survives the cleanup it triggers and is registered last |
| AudioRecording.Remaining | luzhiming/Others/Tool/AudioRecordTool.swift:287-290 | the remaining time is `max(0, max - current)` |
| AudioRecording.AudioRecordTool.constructor | luzhiming/Others/Tool/AudioRecordTool.swift:38-52 | a new controller has no session and adopts the saved history |
| AudioRecording.AudioRecordTool.LoadRecordingHistory | luzhiming/Others/Tool/AudioRecordTool.swift:46-52 | the saved list, when there is one, replaces the in-memory one |
| AudioRecording.AudioRecordTool.SaveRecordingHistory | luzhiming/Others/Tool/AudioRecordTool.swift:54-58 | the saved list becomes the in-memory one |
| AudioRecording.AudioRecordTool.AddRecordingFile | luzhiming/Others/Tool/AudioRecordTool.swift:60-75 | the URL is appended last and the whole list persisted |
| AudioRecording.AudioRecordTool.CleanupRecordingState | luzhiming/Others/Tool/AudioRecordTool.swift:263-270 | the recorder, URL, start time and duration are cleared and `false` is announced |
| AudioRecording.AudioRecordTool.StartRecording | luzhiming/Others/Tool/AudioRecordTool.swift:118-175 | fields, events and directory move exactly as the start specification says, and the invariants hold |
| AudioRecording.AudioRecordTool.OpenSession | luzhiming/Others/Tool/AudioRecordTool.swift:128-174 | past the guards, the state moves as an authorised start does |
| AudioRecording.AudioRecordTool.StopRecording | luzhiming/Others/Tool/AudioRecordTool.swift:178-232 | fields, events and directory move exactly as the stop specification says under the current settings, and the invariants hold |
| AudioRecording.AudioRecordTool.DiscardTooShort | luzhiming/Others/Tool/AudioRecordTool.swift:192-207 | the too-short branch: file removed, minimum announced, session cleared |
| AudioRecording.AudioRecordTool.FinishRecording | luzhiming/Others/Tool/AudioRecordTool.swift:211-231 | the completed branch: URL registered and announced and cleanup run when the file exists, session cleared |
| AudioRecording.AudioRecordTool.Tick | luzhiming/Others/Tool/AudioRecordTool.swift:242-253 | the state moves exactly as the tick specification says, and the invariants hold |
| AudioRecording.AudioRecordTool.ToggleRecording | luzhiming/Others/Tool/AudioRecordTool.swift:273-279 | an open session is stopped, otherwise a start is attempted |
| AudioRecording.AudioRecordTool.CurrentRecordingDuration | luzhiming/Others/Tool/AudioRecordTool.swift:282-284 | the duration is 0 whenever no session is open |
| AudioRecording.AudioRecordTool.RemainingRecordingDuration | luzhiming/Others/Tool/AudioRecordTool.swift:287-290 | the remaining time is never negative and is either 0 or the maximum minus the current duration |
| LegacyAudioRecording.LegacyTransitions | luzhiming/Tool/AudioRecordTool.swift:42-97 | start is refused while recording and stop while idle; each announcement reports the state left; a toggle flips the state unless the recorder fails to open |
| LegacyAudioRecording.LegacyAudioRecordTool.constructor | luzhiming/Tool/AudioRecordTool.swift:42-46 | a new recorder is idle with nothing announced |
| LegacyAudioRecording.LegacyAudioRecordTool.StartRecording | luzhiming/Tool/AudioRecordTool.swift:42-73 | the state moves as the legacy start specification says |
| LegacyAudioRecording.LegacyAudioRecordTool.StopRecording | luzhiming/Tool/AudioRecordTool.swift:76-88 | the state moves as the legacy stop specification says |
| LegacyAudioRecording.LegacyAudioRecordTool.ToggleRecording | luzhiming/Tool/AudioRecordTool.swift:91-97 | the state moves as the legacy toggle specification says |
| KeyStore.KeyFileName | luzhiming/Others/Tool/LocalKeysTool.swift:21-48 | each provider's key file is its raw value followed by `_api_key` |
| KeyStore.KeyFileNamesDistinct | luzhiming/Others/Tool/LocalKeysTool.swift:21-48 | different providers never share a key file |
| KeyStore.LoadKey | luzhiming/Others/Tool/LocalKeysTool.swift:51-62 | a key is returned exactly when the file exists, is UTF-8 and is not blank, and it is the trimmed content, non-empty and already trimmed |
| KeyStore.SaveThenLoad | luzhiming/Others/Tool/LocalKeysTool.swift:51-87 | a written key reads back trimmed, or as none when blank; a trimmed key reads back as itself |
| KeyStore.SaveLeavesOthers | luzhiming/Others/Tool/LocalKeysTool.swift:64-87 | writing one key file leaves every other file's reading unchanged |
| KeyStore.LoadIsStable | luzhiming/Others/Tool/LocalKeysTool.swift:51-62 | storing what a read returned reads back the same |
| KeyStore.KeyFilesDirectory.constructor | luzhiming/Others/Tool/LocalKeysTool.swift:11-17 | the directory holds the given files, and a directory that does not exist holds none |
| KeyStore.KeyFilesDirectory.SaveKeyToFile | luzhiming/Others/Tool/LocalKeysTool.swift:64-87 | success exactly when the directory exists or can be created and the write succeeds; only then is the file replaced by the key; a missing directory still holds no files afterwards |
| KeyStore.LocalKeysTool.constructor | luzhiming/Others/Tool/LocalKeysTool.swift:5-8 | the store reads the given key directory |
| KeyStore.LocalKeysTool.GetAPIKey | luzhiming/Others/Tool/LocalKeysTool.swift:21-43 | a missing key directory gives no key; a returned key is non-empty and already trimmed |
| KeyStore.LocalKeysTool.SaveAPIKey | luzhiming/Others/Tool/LocalKeysTool.swift:26-48 | a successful save makes the getter return the key trimmed (none when blank) and leaves every other provider's key as it was |
| Upload.ResolvedAPIKey | luzhiming/Others/Network/HttpDiggerOpenAI.swift:16-26 | a non-empty stored key wins, else a non-empty environment variable, else none; a resolved key is never empty |
| Upload.Preflight | luzhiming/Others/Network/HttpDiggerOpenAI.swift:112-128 | missing key, then missing file, then a readable size over 25 MiB, each exactly when the earlier guards passed; otherwise the request may go |
| Upload.Bearer | luzhiming/Others/Network/HttpDiggerOpenAI.swift:131-133 | the header is `Bearer ` followed by the key |
| Upload.BodyText | luzhiming/Others/Network/HttpDiggerOpenAI.swift:186 | the UTF-8 body, or `<empty>` when there is none |
| Upload.StatusFailure | luzhiming/Others/Network/HttpDiggerOpenAI.swift:185-193 | a status outside 200..<300 fails with that status and the body, and only then |
| Upload.FieldsConcat | luzhiming/Others/Network/HttpDiggerOpenAI.swift:135-168 | reading a name from a form built in two halves reads each half in order |
| Upload.FilesConcat | luzhiming/Others/Network/HttpDiggerOpenAI.swift:135-168 | the file parts of a form built in two halves are those of each half in order |
| Upload.FormConcat | luzhiming/Others/Network/HttpDiggerOpenAI.swift:135-168 | both readings of a form built in two halves split over the halves |
| Upload.FieldsOfSingle | luzhiming/Others/Network/HttpDiggerOpenAI.swift:135-168 | reading a one-part form reads that part |
| Upload.FieldsOfPair | luzhiming/Others/Network/HttpDiggerOpenAI.swift:135-168 | reading a two-part form reads each part |
| Upload.OptionalFieldRead | luzhiming/Others/Network/HttpDiggerOpenAI.swift:145-151 | an optional field reads back as its argument when given and as nothing otherwise |
| OpenAIClient.MimeType | luzhiming/Others/Network/HttpDiggerOpenAI.swift:349-358 | each known lower-cased extension gets its audio type, everything else `application/octet-stream` |
| OpenAIClient.MimeTypeIgnoresCase | luzhiming/Others/Network/HttpDiggerOpenAI.swift:349-358 | an extension and its lower-cased form get the same type |
| OpenAIClient.GranularityFields | luzhiming/Others/Network/HttpDiggerOpenAI.swift:162-168 | one `timestamp_granularities[]` field per granularity, in order |
| OpenAIClient.Texts | luzhiming/Others/Network/HttpDiggerOpenAI.swift:162-168 | each granularity read back as a text value, in order |
| OpenAIClient.GranularityFieldsRead | luzhiming/Others/Network/HttpDiggerOpenAI.swift:162-168 | the granularity fields read back as the list they came from and hold no file |
| OpenAIClient.TranscriptionFormSplit | luzhiming/Others/Network/HttpDiggerOpenAI.swift:135-168 | reading the transcription form reads each group of parts in order |
| OpenAIClient.TranscriptionFieldPieces | luzhiming/Others/Network/HttpDiggerOpenAI.swift:135-168 | reading the transcription form under a name gives what each field contributes |
| OpenAIClient.TranscriptionFieldReadsBack | luzhiming/Others/Network/HttpDiggerOpenAI.swift:135-168 | reading the transcription form under a name gives what that name was given |
| OpenAIClient.TranscriptionFilesReadBack | luzhiming/Others/Network/HttpDiggerOpenAI.swift:137 | the audio is the first part and the only file part |
| OpenAIClient.TranscriptionFormReadBack | luzhiming/Others/Network/HttpDiggerOpenAI.swift:135-168 | a server recovers every argument: the audio first and alone, model, response_format and temperature once, language and prompt when given, the granularities in order |
| OpenAIClient.AppendGranularities | luzhiming/Others/Network/HttpDiggerOpenAI.swift:162-168 | the loop appends one field per granularity, in order |
| OpenAIClient.BuildTranscriptionForm | luzhiming/Others/Network/HttpDiggerOpenAI.swift:135-168 | the parts appended one by one form the transcription form |
| OpenAIClient.BuildTranslationForm | luzhiming/Others/Network/HttpDiggerOpenAI.swift:270-289 | the translation form starts with the audio and reads back its model once and its prompt when given |
| OpenAIClient.ClassifyResponse | luzhiming/Others/Network/HttpDiggerOpenAI.swift:184-225 | a bad status fails with it; otherwise no data is an invalid response; the text format succeeds exactly on a UTF-8 body with that text; other formats succeed exactly when decoding does and fail with a decoding error otherwise |
| OpenAIClient.Transcribe | luzhiming/Others/Network/HttpDiggerOpenAI.swift:102-227 | a failed guard ends with its error and no request; otherwise one POST to /audio/transcriptions with the bearer key and the form, and the classified response |
| OpenAIClient.Translate | luzhiming/Others/Network/HttpDiggerOpenAI.swift:239-345 | the same guards, then one POST to /audio/translations with the translation form, and the classified response |
| ZhipuClient.MimeType | luzhiming/Others/Network/HttpDiggerZhipu.swift:164-171 | wav, mp3 and m4a get their audio types, everything else `application/octet-stream` |
| ZhipuClient.MimeTypeIgnoresCase | luzhiming/Others/Network/HttpDiggerZhipu.swift:103-127 | lower-casing the extension first does not change the type |
| ZhipuClient.StreamValue | luzhiming/Others/Network/HttpDiggerZhipu.swift:121-122 | the stream field is `true` exactly when given as true |
| ZhipuClient.TranscriptionFormSplit | luzhiming/Others/Network/HttpDiggerZhipu.swift:113-127 | reading the form reads each group of parts in order |
| ZhipuClient.TranscriptionFieldPieces | luzhiming/Others/Network/HttpDiggerZhipu.swift:113-127 | reading the form under a name gives what each field contributes |
| ZhipuClient.TranscriptionFieldReadsBack | luzhiming/Others/Network/HttpDiggerZhipu.swift:113-127 | reading the form under a name gives what that name was given |
| ZhipuClient.TranscriptionFilesReadBack | luzhiming/Others/Network/HttpDiggerZhipu.swift:127 | the audio is the last part and the only file part |
| ZhipuClient.TranscriptionFormReadBack | luzhiming/Others/Network/HttpDiggerZhipu.swift:113-127 | a server recovers every argument: model and stream once, temperature, request_id and user_id when given, the audio last and alone |
| ZhipuClient.BuildTranscriptionForm | luzhiming/Others/Network/HttpDiggerZhipu.swift:113-127 | the parts appended one by one form the transcription form |
| ZhipuClient.ClassifyResponse | luzhiming/Others/Network/HttpDiggerZhipu.swift:129-160 | a bad status fails with it; otherwise no data is an invalid response; success exactly when decoding succeeds, a decoding error otherwise |
| ZhipuClient.Transcribe | luzhiming/Others/Network/HttpDiggerZhipu.swift:80-161 | a failed guard ends with its error and no request; otherwise a warning exactly for an extension other than wav or mp3, one POST with the bearer key and the form, and the classified response |
| SettingsController.MapProviderToId | luzhiming/Settings/VC/SettingsViewController.swift:220-226 | a provider's card id is its raw value, which decodes back to it |
| SettingsController.CardKeys | luzhiming/Settings/VC/SettingsViewController.swift:199-217 | only provider cards get a key, and a card shows a key exactly when one is stored for it |
| SettingsController.CardIdsDistinct | luzhiming/Settings/VC/SettingsViewController.swift:220-226 | the three card ids differ |
| SettingsController.SettingsViewController.constructor | luzhiming/Settings/VC/SettingsViewController.swift:30-33 | the window opens on the first category with no status |
| SettingsController.SettingsViewController.HandleCategorySelection | luzhiming/Settings/VC/SettingsViewController.swift:130-141 | an index past the end is ignored; any other selects that category and clears the status |
| SettingsController.SettingsViewController.LoadKeyFromFile | luzhiming/Settings/VC/SettingsViewController.swift:229-241 | the controller's own read agrees with the key store's |
| SettingsController.SettingsViewController.LoadKeyFromFileAgrees | luzhiming/Settings/VC/SettingsViewController.swift:229-241 | reading a provider's file locally gives the key store's getter result |
| SettingsController.SettingsViewController.SaveKeyToFile | luzhiming/Settings/VC/SettingsViewController.swift:243-261 | success exactly when the directory exists or can be created and the write succeeds; a saved key reads back trimmed |
| SettingsController.SettingsViewController.SaveProviderKeyToFile | luzhiming/Settings/VC/SettingsViewController.swift:180-188 | a local save has the key store's outcome and leaves other providers' keys unchanged |
| SettingsController.SettingsViewController.SaveAPIKey | luzhiming/Settings/VC/SettingsViewController.swift:171-196 | a blank key is rejected with nothing written; an unknown card fails with nothing written; otherwise the trimmed key is saved for that provider only, and the status says whether it was |
| SettingsController.SettingsViewController.LoadSavedKeys | luzhiming/Settings/VC/SettingsViewController.swift:199-217 | each provider's card shows its stored key exactly when there is one, and the selected card is the configured provider's |
| TimeSettings.ValidateDurations | luzhiming/Settings/View/TimeSettingsAreaView.swift:139-154 | not a number, then not positive, then minimum above maximum, each exactly when the earlier checks passed; equal durations are accepted |
| TimeSettings.SaveSettings | luzhiming/Settings/View/TimeSettingsAreaView.swift:139-160 | a refusal changes nothing; an acceptance stores both durations, ordered, written through |
| TimeSettings.AutoStopKeepsRecording | luzhiming/Settings/View/TimeSettingsAreaView.swift:151-157 | with durations as the pane saves them, the timer's automatic stop always completes the recording, never discarding it as too short |
| FilesCache.ParseInt | luzhiming/Settings/View/FilesCacheAreaView.swift:200 | `Int(String)` accepts only an optional sign followed by digits whose value fits in 64 bits, and its value is the digits' decimal value, negated after a `-` |
| FilesCache.ParseIntReadsNumerals | luzhiming/Settings/View/FilesCacheAreaView.swift:200 | every optional sign followed by one or more digits (leading zeros, `+5`, `-0` included) is read as its signed decimal value exactly when that fits in 64 bits, and refused otherwise |
| FilesCache.NatDigits | luzhiming/Settings/View/FilesCacheAreaView.swift:176-180 | a natural number's numeral is a non-empty digit string |
| FilesCache.NatDigitsValue | luzhiming/Settings/View/FilesCacheAreaView.swift:176-180 | a numeral denotes the number it was written from |
| FilesCache.ParseDecimalString | luzhiming/Settings/View/FilesCacheAreaView.swift:176-203 | every `Int` written as a numeral parses back to itself |
| FilesCache.LoadedMaxFiles | luzhiming/Settings/View/FilesCacheAreaView.swift:176-180 | the field shows the maximum so that it parses back to it |
| FilesCache.SaveSettings | luzhiming/Settings/View/FilesCacheAreaView.swift:199-209 | a field that does not parse to a positive number changes nothing; otherwise the maximum and the checkbox are stored, written through |
| FilesCache.LoadedFieldSavesSame | luzhiming/Settings/View/FilesCacheAreaView.swift:176-209 | saving the pane as loaded changes no setting |
| FilesCache.TotalSizeAppend | luzhiming/Settings/View/FilesCacheAreaView.swift:190-193 | the total of two listings is the sum of their totals |
| FilesCache.TotalSizePermutation | luzhiming/Settings/View/FilesCacheAreaView.swift:190-193 | the total does not depend on listing order |
| FilesCache.UpdateCacheInfo | luzhiming/Settings/View/FilesCacheAreaView.swift:182-197 | a listable directory shows the count and total size of its visible files, an unlistable one its path |
| FilesCache.CleanupBoundsCount | luzhiming/Settings/View/FilesCacheAreaView.swift:211-215 | after a cleanup the summary counts at most the maximum when auto-clean is on, and is unchanged when it is off |
| FilesCache.CleanNow | luzhiming/Settings/View/FilesCacheAreaView.swift:211-215 | the directory is what the cleanup leaves and the summary describes it |
| MainScreen.ClipboardText | luzhiming/Main/VC/MainVC.swift:66-73 | text is copied exactly when the reply has non-blank text, and it is that text trimmed |
| MainScreen.MainVC.constructor | luzhiming/Main/VC/MainVC.swift:15-31 | the screen uses the given recorder and key store |
| MainScreen.MainVC.OnTap | luzhiming/Main/VC/MainVC.swift:48-50 | a tap toggles the recorder |
| MainScreen.MainVC.TranscribeAudioWithOpenAI | luzhiming/Main/VC/MainVC.swift:61-78 | a failed preflight sends and copies nothing; otherwise the whisper-1 JSON form goes out with the resolved key as bearer token, a success copies its non-blank trimmed text and a failure copies nothing |
| MainScreen.MainVC.TranscribeAudioWithZhipu | luzhiming/Main/VC/MainVC.swift:80-97 | a failed preflight sends and copies nothing; otherwise the glm-asr form goes out with the resolved key as bearer token, a success copies its non-blank trimmed text and a failure copies nothing |
| MainScreen.MainVC.HandleRecordingCompleted | luzhiming/Main/VC/MainVC.swift:20-31 | the configured provider picks the client and the whole outcome is that client's (request with bearer key and form, clipboard text from the classified reply); Doubao sends and copies nothing; whatever is copied is non-blank and trimmed |

## Left out

- Audio capture itself: the recorder's bytes are not tracked. A new recording file is listed with size 0 and its creation time.
- Microphone permission is a parameter of `startRecording`. The permission request made when the controller starts is not modelled.
- The file name the date formatter produces is a parameter. Creating the recordings directory on first use is folded into whether the recorder opens.
- `print` output, `#if DEBUG` logging and error messages' wording are not modelled.
- A deletion that throws inside `try?` is treated as succeeding: the model's file system never refuses a removal.
- Double arithmetic: durations and times are real numbers. NaN, infinities and rounding are not modelled, and neither is the text `"\(value)"` renders a `Double` as; a temperature field holds the number.
- Double(String): the time pane receives each field already parsed, as a number or as none.
- JSON encoding and decoding of settings.json and of the services' replies is abstracted: a settings file is missing, unreadable or a decoded snapshot, and a reply's decoding outcome is an input.
- UserDefaults holding something other than an array of strings under "RecordingFiles" is not modelled.
- Alamofire's asynchronous transport and the multipart wire encoding are not modelled: a request is its URL, header and ordered parts, and the response arrives as an input.
- `OpenAIError` and `ZhipuError` are one `ClientError` type, since their cases coincide. The underlying NSError is reduced to its domain, status and body.
- Text.Lower: lower-cases ASCII letters only, because extensions compared by the clients are ASCII; Unicode case mapping is not modelled.
- Text.Trim: the whitespace-and-newline set is the ASCII controls 9 to 13, space, U+0085, U+00A0, U+1680, U+2000 to U+200A, U+2028, U+2029, U+202F, U+205F and U+3000, taken character by character without grapheme clustering.
- Settings.SortByCreation: ties keep listing order. The source's sort does not promise stability, so which of two equally old files goes first is not fixed there.
- Settings.SettingsInfo.Load: the writes `loadFromDisk`'s assignments trigger through `didSet` are not modelled one by one; they end with the same snapshot stored as the file already held.
- TimeSettings.SaveSettings: the intermediate write between assigning the minimum and the maximum is not observable in the model; only the final file is stated.
- `loadCurrentSettings` of the time pane only displays the two durations and is not modelled.
- SettingsController.SettingsViewController.HandleCategorySelection: a negative index traps in the source and is excluded by its precondition.
- FilesCache.LoadedMaxFiles: a maximum outside the 32-bit range traps in `Int32(_)` and is excluded by its precondition.
- `renderCurrentCategory`, view layout, the side bar, the provider cards' selection and clicks, `ApiKeysAreaView` and the other views are UI and are not modelled.
- The Zhipu format warning is modelled as a returned flag only.
- Doubao has no client in the source and none in the model.
- Concurrency: callbacks and the timer are modelled as calls that run one at a time.
