# Yap voice input: a verified model of the backend's utterance state machine

Yap is a desktop voice-input app. A Tauri shell owns the window, the tray and
a global shortcut. A Python backend captures microphone audio, detects speech
and transcribes it on device. It can also correct or translate the text with a
language model, keep a history of results, and stream logs and a waveform to
the front end.

This project models the backend's core in Dafny, together with the shell's
settings logic, and proves what each part promises.

**The utterance state machine.**
- The voice-activity detector (`Vad`) cuts arriving samples into frames of 512. It scores each frame with the speech model. A speech flag and a silence counter give a hangover of 15 calls.
- The pipeline (`Pipeline`) buffers only the chunks marked as speech. When speech ends it transcribes the buffer and emits "speaking", "transcribing" and "recording" statuses in a fixed order.
- The recording session (`Session`) guards start and stop with its running flag. It forwards everything to one result callback.
- The websocket control loop (`Server`) decides which control actions reach the session.

**The components around it.**
- Result shaping in the speech-recognition adapter (`Asr`), the corrector (`Corrector`) and the translator (`Translator`), with the shared argument fallbacks (`Llm`).
- The history cache (`History`).
- The log fan-out (`Logs`): the history, the puts it schedules on the clients' event loop, and what a put into a full queue sets off.
- The waveform window and band levels (`Waveform`).
- The model catalogue and download progress (`Models`).
- The configuration validator (`Config`).
- The shell's shortcut parsing and settings defaults (`Shell`).

**How the code is modelled.**
- Code that changes objects in place is modelled as classes whose methods are proved against pure specification functions. Examples are `Vad.Step`, `Pipeline.StepSpec`, `History.Newest` and `Shell.ModifiersOf`.
- Pure code is modelled as functions and lemmas.
- Model inference is a function supplied to each class: the VAD score of a frame, the recogniser's output, and the chat completion.
- Whatever the outside world decides is a parameter of the operation. This covers whether a directory exists, whether a statement or a store write fails, and whether a client's event loop is closed.

Shared helpers:
- `Common` holds Option/Result and the little-endian int16 decoding of PCM bytes.
- `Text` holds Python's `str.strip` (with Python's own whitespace set), `str.find`, and ASCII lower-casing.
- `Messages` holds the JSON messages sent to the client. Durations are kept as byte counts; the source divides them by 32000.

## Model

| member | source | states |
|---|---|---|
| `Common.DecodePcm16` | src-backend/core/vad_engine.py:37 | an even-length byte string decodes to half as many samples, each the signed little-endian 16-bit value of its two octets |
| `Common.Int16` | src-backend/core/vad_engine.py:37 | a decoded sample lies in [-32768, 32767] and is congruent mod 65536 to lo + 256·hi |
| `Common.DecodeAppend` | src-backend/core/pipeline.py:47-61 | decoding a concatenation of whole-sample byte strings is the concatenation of the decodings |
| `Text.Strip` | src-backend/core/asr_engine.py:101 | `str.strip()` is empty exactly for whitespace-only text; otherwise it neither starts nor ends with whitespace, and it is never longer than its input |
| `Text.LStrip` | src-backend/core/asr_engine.py:101 | the result is a suffix of the input, what was removed is all whitespace, and the result does not start with whitespace |
| `Text.RStrip` | src-backend/core/asr_engine.py:101 | the result is a prefix of the input, what was removed is all whitespace, and the result does not end with whitespace |
| `Text.StripGrows` | src-backend/core/asr_engine.py:140-143 | once the text holds non-whitespace, the stripped text is a prefix of the stripped longer text |
| `Text.FindFrom` | src-backend/core/llm_translator.py:51-57 | returns the first index at or after `from` where the pattern occurs, or None when it occurs nowhere from there |
| `Text.AsciiLower` | src-backend/core/asr_engine.py:45 | same length, each character lower-cased if an ASCII capital |
| `Vad.Frames` | src-backend/core/vad_engine.py:44-46 | every frame cut from the buffer has exactly 512 samples |
| `Vad.Remainder` | src-backend/core/vad_engine.py:44-46 | fewer than 512 samples are left after cutting frames |
| `Vad.FramesInOrder` | src-backend/core/vad_engine.py:39-46 | the frames followed by the remainder are exactly the buffered samples, in arrival order |
| `Vad.PeakIsMaximum` | src-backend/core/vad_engine.py:42-49 | the reported confidence is non-negative, at least every frame's score, and equal to some frame's score unless it is the initial 0.0 |
| `Vad.ExtendDone` | src-backend/core/vad_engine.py:44-51 | scoring one more frame: speech is reported iff it was already or the frame reaches the threshold, and the peak becomes the max of the old peak and the frame's score |
| `Vad.StepFacts` | src-backend/core/vad_engine.py:39-66 | after one call fewer than 512 samples stay buffered; speech iff some completed frame reached the threshold; no completed frame gives no speech and confidence 0.0; speech sets the flag and zeroes the counter; a silent call after speech adds one to the counter, before speech it stays 0; ended iff started and counter ≥ 15; ended implies started; the flag is never cleared |
| `Vad.Repeat` | src-backend/core/vad_engine.py:56-57 | n copies of one verdict, used to state runs of silent calls |
| `Vad.RunNeverClearsStarted` | src-backend/core/vad_engine.py:53-57 | after any run of calls the speech flag is set iff it was set before or some call saw speech |
| `Vad.SilenceCountsCalls` | src-backend/core/vad_engine.py:56-57 | n silent calls add exactly n to the counter once speech started (per call, not per frame), and leave it 0 before |
| `Vad.HangoverIsFifteenCalls` | src-backend/core/vad_engine.py:14-59 | after a speech call, the end of speech is reported exactly when at least 15 silent calls have followed |
| `Vad.VadEngine.constructor` | src-backend/core/vad_engine.py:14-23 | an engine starts with an empty buffer and cleared flags |
| `Vad.VadEngine.ProcessChunk` | src-backend/core/vad_engine.py:32-66 | the frame loop leaves the state and returns the output that `Vad.Step` specifies for the old state and the samples |
| `Vad.VadEngine.Reset` | src-backend/core/vad_engine.py:68-72 | the buffer is emptied and both flags are cleared |
| `Pipeline.StepFacts` | src-backend/core/pipeline.py:44-75 | only speech chunks are buffered, each with one "speaking" status carrying the post-append size; transcription iff speech ended with audio buffered, and then "transcribing" precedes "recording" and the buffer is emptied; the result is a final transcription exactly when the recogniser returned non-empty text, otherwise the vad report |
| `Pipeline.StepWithoutEnd` | src-backend/core/pipeline.py:46-58 | a chunk that does not end speech only appends itself if it is speech, and yields no transcription |
| `Pipeline.BufferHoldsSpeechChunks` | src-backend/core/pipeline.py:46-47 | until speech ends, the buffer is what it held plus exactly the speech chunks in arrival order, and no transcription is produced |
| `Pipeline.AudioPipeline.constructor` | src-backend/core/pipeline.py:14-19 | a pipeline starts with an empty buffer and a fresh VAD at threshold 0.5 |
| `Pipeline.AudioPipeline.ProcessChunk` | src-backend/core/pipeline.py:31-75 | statuses, result and new buffer are those of `Pipeline.StepSpec` for the VAD's verdict from `Vad.Step`; the VAD is reset after a transcription and otherwise moved as `Vad.Step` says |
| `Pipeline.AudioPipeline.Reset` | src-backend/core/pipeline.py:77-80 | the buffer is emptied and the VAD reset |
| `Session.Outbox.Send` | src-backend/core/recording_session.py:45-48 | the outbox records the message after all earlier ones; it stands for the callback as if every result reached it at once, without the deferral through the event loop |
| `Session.RecordingSession.constructor` | src-backend/core/recording_session.py:16-22 | a session starts not running, with a fresh pipeline |
| `Session.RecordingSession.Start` | src-backend/core/recording_session.py:24-36 | already running: nothing changes and nothing is sent; otherwise running, capturing, and exactly one "recording" status sent |
| `Session.RecordingSession.OnAudioChunk` | src-backend/core/recording_session.py:38-43 | not running: pipeline and outbox untouched; running: the pipeline's statuses and then exactly its result are sent, and the pipeline moves as specified |
| `Session.RecordingSession.Stop` | src-backend/core/recording_session.py:50-55 | unguarded: always not running, pipeline reset, and "stopped" sent, again on a repeated stop |
| `Server.Decide` | src-backend/main.py:134-154 | start only without a running session; stop only a running one; update_config only to a running session; update_llm_config whenever a session exists; any other type, and a message that is not an object, is ignored |
| `Server.HandleMessage` | src-backend/main.py:136-154 | a start creates a fresh running session and sends "recording"; a stop stops the session, sends "stopped" and drops the reference; anything else keeps the reference, its running flag and the sent messages |
| `Server.Received` | src-backend/main.py:131-133 | a message is among the received ones exactly when the events receive it |
| `Server.Serve` | src-backend/main.py:131-158 | the connection holds a session exactly as `Held` gives for the received messages, and after the disconnect no session it holds is left running |
| `Server.AbortWithoutSessionNeedsNonObject` | src-backend/main.py:131-158 | in the loop as written an update message aborts only while a running session is held; an abort that leaves no session running needs a message that is not an object |
| `Server.AsWrittenAgreesWithoutUpdates` | src-backend/main.py:131-158 | without update messages and non-object messages the loop as written never aborts and holds a session exactly as intended |
| `Server.NonObjectLeavesSessionRunning` | src-backend/main.py:133-134 | "start" then a JSON array leaves a session running after the disconnect, where the intended loop would stop it; a non-object message before "start" ends the loop before the start is read |
| `Server.UpdateConfigLeavesSessionRunning` | src-backend/main.py:147-150 | "start" then "update_config" leaves a session running after the disconnect, where the intended loop would stop it |
| `Server.UpdateLlmConfigLeavesSessionRunning` | src-backend/main.py:151-154 | the same for "update_llm_config" |
| `Server.HeldStep` | src-backend/main.py:138-146 | one more message makes the connection hold a session iff it starts one, or it held one that the message does not stop |
| `Server.ProgressReplyFor` | src-backend/main.py:103-106 | an id with no stored progress gives `not_found`; otherwise the stored progress |
| `Asr.DetectModelType` | src-backend/core/asr_engine.py:41-48 | empty id gives funasr; whisper exactly when the lower-cased id contains "whisper" |
| `Asr.ReplaceSlashes` | src-backend/core/asr_engine.py:26 | no '/' remains and nothing gets shorter |
| `Asr.ReplaceSlashesConcat` | src-backend/core/asr_engine.py:26 | the replacement distributes over concatenation, so it works character by character |
| `Asr.ReplaceSlashesChar` | src-backend/core/asr_engine.py:26 | a '/' becomes "--" and any other character is kept |
| `Asr.RestoreReplaceSlashes` | src-backend/core/asr_engine.py:26 | for ids with no "--" and no '-' right before a '/', reading every "--" back as '/' undoes the replacement |
| `Asr.CacheName` | src-backend/core/asr_engine.py:26 | the cache name starts with "models--" and has no '/' after it |
| `Asr.CacheNameRoundTrip` | src-backend/core/asr_engine.py:26 | for such ids the cache directory name determines the id; that the default and catalogue ids are such ids is read off their literals, not proved |
| `Asr.LocalModelPath` | src-backend/core/asr_engine.py:24-38 | a path is found exactly when the cache entry has a non-empty snapshots listing, and it is the first snapshot |
| `Asr.ChooseLanguage` | src-backend/core/asr_engine.py:98 | a non-empty requested language wins; an absent or empty one gives the default |
| `Asr.TranscribeResult` | src-backend/core/asr_engine.py:97-104 | None exactly on an exception or empty text; otherwise the stripped text, which is "" exactly for whitespace-only text |
| `Asr.ConcatPrefix` | src-backend/core/asr_engine.py:137-140 | the accumulated text after k pieces is a prefix of the full accumulation |
| `Asr.PartialsGrow` | src-backend/core/asr_engine.py:135-143 | every partial is a prefix of every later one, and the last is the non-empty stripped full accumulation |
| `Asr.StreamResultIsLastPartial` | src-backend/core/asr_engine.py:137-145 | a stream that ends normally returns the last partial when there is one, and None or "" otherwise |
| `Asr.Accumulate` | src-backend/core/asr_engine.py:135-143 | the loop accumulates the concatenation of the pieces and reports exactly the partials `PartialsOf` gives |
| `Asr.AsrEngine.constructor` | src-backend/core/asr_engine.py:54-59 | a falsy id falls back to the default model; default language "zh"; nothing loaded |
| `Asr.AsrEngine.Initialize` | src-backend/core/asr_engine.py:62-90 | once only; loads from the local snapshot when there is one, else by id |
| `Asr.AsrEngine.Transcribe` | src-backend/core/asr_engine.py:92-104 | initializes on first use; the result is `TranscribeResult` of the recogniser's output in the chosen language |
| `Asr.AsrEngine.TranscribeStream` | src-backend/core/asr_engine.py:106-148 | whisper: the plain result, reported as the only partial when non-empty; otherwise the partials and result of the stream |
| `Asr.AsrEngine.SetModelId` | src-backend/core/asr_engine.py:155-163 | a different id clears model, type and initialization; the same id changes nothing |
| `Models.LastSegmentFacts` | src-backend/core/model_manager.py:69-85 | `split("/")[-1]` is a '/'-free suffix of the id, preceded by '/' unless it is the whole id, and the whole id when there is no '/' |
| `Models.LastSegmentAfterSlash` | src-backend/core/model_manager.py:85-86 | after a '/'-terminated prefix, the last segment is the '/'-free tail |
| `Models.DownloadDirIsListedName` | src-backend/core/model_manager.py:66-86 | the download directory's name is the id's last segment, so the scan finds the model under the name the catalogue looks for |
| `Models.LocalModelsIn` | src-backend/core/model_manager.py:55-61 | exactly the directories holding config.json are listed, each with its joined path |
| `Models.LocalNamesAreModelDirs` | src-backend/core/model_manager.py:66 | a name is among the local models exactly when some model directory carries it |
| `Models.ChooseModelsDir` | src-backend/core/model_manager.py:42-43 | a non-empty argument wins; otherwise ASR_MODELS_DIR whenever it is set, even to the empty string; otherwise the default directory |
| `Models.ModelManager.constructor` | src-backend/core/model_manager.py:41-46 | the models directory is the one `Models.ChooseModelsDir` picks, and the progress table starts empty |
| `Models.ModelManager.ListLocalModels` | src-backend/core/model_manager.py:48-62 | nothing for a missing directory; otherwise the loop gives `LocalModelsIn` |
| `Models.ModelManager.ListAvailableModels` | src-backend/core/model_manager.py:64-74 | one entry per catalogue model, in order, fields kept, downloaded iff a model directory has the id's last segment as its name |
| `Models.ModelManager.DownloadModel` | src-backend/core/model_manager.py:76-109 | only this id's entry changes; "downloading 0" is written before the fetch, then "completed 100" or "failed"; the reply succeeds exactly when the final entry is completed; a missing library records only the failure |
| `Models.ModelManager.GetDownloadProgress` | src-backend/core/model_manager.py:111-114 | None exactly for an id no download touched; otherwise its entry |
| `Config.DefaultModel` | src-backend/core/config.py:36-42 | "gpt-4o-mini" for every provider |
| `Config.FromEnv` | src-backend/core/config.py:21-31 | always enabled; unset variables give provider "ollama", model "gpt-4o-mini", timeout 10, temperature 0.3, retries 2 |
| `Config.Validate` | src-backend/core/config.py:44-56 | accepts exactly supported provider, positive timeout and temperature in [0, 2]; otherwise the first failing check's message, in source order |
| `Config.Load` | src-backend/core/config.py:21-34 | the configuration when it validates, else the validation error |
| `Config.DefaultsAreValid` | src-backend/core/config.py:24-31 | with nothing set the defaults load |
| `Config.LoadAcceptsExactly` | src-backend/core/config.py:47-56 | loading succeeds iff the provider is openai or ollama, the timeout positive and the temperature within both inclusive bounds |
| `Config.RetriesAreUnchecked` | src-backend/core/config.py:31-56 | the retry count never decides acceptance |
| `Llm.SettingsFrom` | src-backend/core/llm_corrector.py:29-47 | each argument is kept when truthy, else falls back to the default |
| `Llm.FalsyArgumentsBecomeDefaults` | src-backend/core/llm_corrector.py:33-34 | a timeout of 0 and a temperature of 0.0 become 10 and 0.3 |
| `Llm.ClientFor` | src-backend/core/llm_corrector.py:65-79 | a client exactly for openai and ollama; ollama gets the local base URL unless one is given and the key "ollama"; openai gets the API key |
| `Llm.RequestFor` | src-backend/core/llm_corrector.py:143-148 | one request with the configured model and temperature and at most 500 tokens |
| `Llm.ReplyText` | src-backend/core/llm_corrector.py:150 | the stripped content; a None content or a raised call gives the error message |
| `Corrector.LanguageName` | src-backend/core/llm_corrector.py:93 | "中文" exactly for "zh" and "chinese", else "English" |
| `Corrector.Answer` | src-backend/core/llm_corrector.py:140-177 | original text kept; corrected iff the text changed; an error leaves the text; no error iff the stripped reply is non-empty; empty reply gives "empty_response"; an exception gives its message |
| `Corrector.AnswerNeverEmpty` | src-backend/core/llm_corrector.py:122-168 | a non-blank text never gets an empty or whitespace-only correction |
| `Corrector.LlmCorrector.constructor` | src-backend/core/llm_corrector.py:19-51 | settings from the argument fallbacks, enabled, not initialized |
| `Corrector.LlmCorrector.Initialize` | src-backend/core/llm_corrector.py:53-89 | nothing when disabled or initialized; otherwise initialized iff the package is installed, the provider supported and the client built, and a failure disables correction |
| `Corrector.LlmCorrector.Correct` | src-backend/core/llm_corrector.py:111-177 | disabled or blank: a silent passthrough without initializing; otherwise initialize on first use, "not_initialized" when that failed, else `Answer` for the model's reply |
| `Translator.ExtractTranslated` | src-backend/core/llm_translator.py:51-59 | the stripped text between the first opening tag and the first closing tag after it, or the fallback when there is no such pair |
| `Translator.WrapThenExtract` | src-backend/core/llm_translator.py:51-57 | wrapping a text without a closing tag and extracting gives the stripped text back |
| `Translator.CloseTagAfterText` | src-backend/core/llm_translator.py:51-57 | in a wrapped text the first closing tag after the opening one is the real one |
| `Translator.OpenTagFirst` | src-backend/core/llm_translator.py:51-57 | in a wrapped text the first opening tag is at the start |
| `Translator.Answer` | src-backend/core/llm_translator.py:134-174 | original text kept; translated iff no error; an error leaves the text; an empty tag gives "empty_response"; an exception gives its message |
| `Translator.UntaggedReplyCountsAsTranslated` | src-backend/core/llm_translator.py:147-165 | a reply without the tag is reported as translated, with the original text as translation |
| `Translator.LlmTranslator.constructor` | src-backend/core/llm_translator.py:21-51 | settings from the argument fallbacks, not initialized |
| `Translator.LlmTranslator.Initialize` | src-backend/core/llm_translator.py:61-87 | once; initialized iff the provider is supported and the client built; a failure is retried next call |
| `Translator.LlmTranslator.Translate` | src-backend/core/llm_translator.py:105-174 | blank text or empty target: passthrough without error; otherwise initialize on first use, "not_initialized" when that failed, else `Answer` for the model's reply |
| `History.PyTake` | src-backend/core/history_store.py:169 | `s[:n]` is a prefix of length min(n, len), counting a negative n from the end |
| `History.SqlLimit` | src-backend/core/history_store.py:107 | `LIMIT n` is a prefix of length min(n, len), and the whole sequence for a negative n |
| `History.Newest` | src-backend/core/history_store.py:100-120 | at most max rows, at most the table, the i-th being the i-th newest |
| `History.KeepNewest` | src-backend/core/history_store.py:224-241 | the cleanup keeps exactly the newest max rows in table order, and every row for a negative max |
| `History.AddKeepsCacheNewest` | src-backend/core/history_store.py:165-169 | inserting at the front and cutting to max keeps the cache equal to the newest rows of the grown table |
| `History.CleanupKeepsCacheNewest` | src-backend/core/history_store.py:224-241 | the cleanup removes no row the cache holds |
| `History.InsertKeepsIdsOk` | src-backend/core/history_store.py:148-154 | the inserted row takes the next id, above all earlier ones |
| `History.KeepNewestKeepsIdsOk` | src-backend/core/history_store.py:224-241 | the cleanup keeps ids increasing and within the counter |
| `History.ReverseIndex` | src-backend/core/history_store.py:106 | the i-th row of the reversed table is the i-th newest |
| `History.HistoryStore.constructor` | src-backend/core/history_store.py:39-50 | empty cache, not connected, not initialized |
| `History.HistoryStore.Initialize` | src-backend/core/history_store.py:66-79 | once; the cache is loaded with the newest `max_history` rows |
| `History.HistoryStore.Add` | src-backend/core/history_store.py:122-178 | blank text or a failing insert changes neither table nor cache; otherwise the row gets the next id, goes to the cache front, the cache is cut to `max_history`, and a full cache triggers the cleanup |
| `History.HistoryStore.Insert` | src-backend/core/history_store.py:146-173 | the successful insert: next id, new cache front, trimming and cleanup |
| `History.HistoryStore.Cleanup` | src-backend/core/history_store.py:224-241 | the table keeps the newest `max_history` rows; cache and counter unchanged |
| `History.HistoryStore.GetRecent` | src-backend/core/history_store.py:180-193 | the texts of the first `limit` cached records, newest first |
| `History.HistoryStore.GetRecentRecords` | src-backend/core/history_store.py:195-208 | the first `limit` cached records, newest first |
| `History.HistoryStore.Clear` | src-backend/core/history_store.py:210-222 | nothing before initialize or when the delete fails; otherwise table and cache empty |
| `History.HistoryStore.Close` | src-backend/core/history_store.py:243-252 | a successful close drops the connection and the initialized flag; table and cache kept |
| `History.HistoryStore.Count` | src-backend/core/history_store.py:254-257 | the cache length, at most `max_history` and the table size once initialized |
| `Logs.EntryFor` | src-backend/core/log_handler.py:23-29 | type "log" with the record's timestamp, level, logger and message |
| `Logs.AppendBounded` | src-backend/core/log_handler.py:12-32 | at most 100 entries, the new one last; when full the oldest goes |
| `Logs.HistoryOf` | src-backend/core/log_handler.py:12-32 | the history never holds more than 100 entries |
| `Logs.HistoryIsNewest` | src-backend/core/log_handler.py:12-32 | the history is always the last (up to) 100 entries emitted, in order |
| `Logs.Scheduled` | src-backend/core/log_handler.py:35-39 | a put of the entry is scheduled exactly for the registered clients whose loop is open |
| `Logs.ScheduledOncePerClient` | src-backend/core/log_handler.py:35-39 | for distinct registered clients, no client gets two puts of one entry |
| `Logs.DeliverAsWritten` | src-backend/core/log_handler.py:35-39 | running a put keeps the 100-entry history, the 500-entry queues and every scheduled put aimed at a queue; with nothing scheduled nothing changes; a queue with room gets the entry at its end and only that put leaves the schedule |
| `Logs.FullQueueFeedsBack` | src-backend/core/log_handler.py:35-39 | a put into a full queue of a registered open client leaves the queues alone, ends the history with the ERROR entry of the "asyncio" logger, offers that entry to the same client again, and does not shrink the scheduled work |
| `Logs.DeliverAsWrittenTimes` | src-backend/core/log_handler.py:35-39 | any number of puts keeps the bounds of the hub |
| `Logs.SoleFullClientNeverDrains` | src-backend/core/log_handler.py:35-39 | with one registered client whose queue is full, after any number of runs a put of the failure entry is still scheduled and the history ends with it |
| `Logs.DeliverIntended` | src-backend/core/log_handler.py:35-39 | as intended, running a put removes exactly the first put and leaves the history alone; a queue with room gets the entry at its end, a full queue nothing |
| `Logs.DrainIntended` | src-backend/core/log_handler.py:35-39 | as intended, running the scheduled puts one by one ends with none left |
| `Logs.IntendedDrainOnlyAppends` | src-backend/core/log_handler.py:35-39 | as intended, draining leaves the history alone, only appends to queues, and gives a full queue nothing |
| `Logs.IntendedDrainFillsQueues` | src-backend/core/log_handler.py:35-39 | as intended, draining leaves the history alone and gives every queue its old contents followed by the entries scheduled for it, in order, up to its capacity of 500 |
| `Logs.Remove` | src-backend/core/log_handler.py:57-59 | everything but the id is kept; an absent id changes nothing |
| `Logs.RemoveAt` | src-backend/core/log_handler.py:57-59 | among distinct ids, popping one keeps the others in their order |
| `Logs.RemoveKeepsDistinct` | src-backend/core/log_handler.py:57-59 | removal keeps the registered ids distinct |
| `Logs.LogHub.constructor` | src-backend/core/log_handler.py:11-16 | empty history, no clients, counter 0, nothing scheduled |
| `Logs.LogHub.Emit` | src-backend/core/log_handler.py:22-39 | the entry joins the bounded history and a put of it is scheduled, after the earlier ones, for every registered client with an open loop; no queue changes yet |
| `Logs.LogHub.Deliver` | src-backend/core/log_handler.py:35-39 | the first scheduled put runs as `Logs.DeliverAsWritten` says, with an ERROR entry of the "asyncio" logger as the failure; registrations unchanged |
| `Logs.LogHub.Register` | src-backend/core/log_handler.py:42-54 | a fresh id above every earlier id, an empty queue, nothing newly scheduled, and the history as it stands |
| `Logs.LogHub.Unregister` | src-backend/core/log_handler.py:57-59 | the registered ids become `Logs.Remove` of the old ones, so the others keep their order and an absent id changes nothing; queues and scheduled puts are untouched, so puts already scheduled still reach its queue |
| `Waveform.Window` | src-backend/core/waveform_analyzer.py:37-42 | the buffer holds at most 1024 samples, the most recent ones |
| `Waveform.TruncDiv` | src-backend/core/waveform_analyzer.py:66-67 | `int(a / b)` agrees with division for non-negative operands |
| `Waveform.ClampBand` | src-backend/core/waveform_analyzer.py:70-71 | 0 ≤ low < high ≤ 257, so no band is empty; in-range indices are kept |
| `Waveform.BandRange` | src-backend/core/waveform_analyzer.py:61-71 | each band's range is non-empty and within the bins |
| `Waveform.DefaultBands` | src-backend/core/waveform_analyzer.py:15-71 | at 16 kHz the bands are bins [0,4), [4,12), [12,32), [32,96), [96,256) |
| `Waveform.BandEnergies` | src-backend/core/waveform_analyzer.py:60-79 | one energy per adjacent pair of band edges, five in all |
| `Waveform.Clamp01` | src-backend/core/waveform_analyzer.py:92 | within [0, 1], and the identity there |
| `Waveform.MaxOf` | src-backend/core/waveform_analyzer.py:83 | the maximum: at least every level and equal to one |
| `Waveform.Normalize` | src-backend/core/waveform_analyzer.py:83-95 | every level in [0, 1]; all zeros when the maximum is not positive; else each level relative to the maximum, curved and clamped |
| `Waveform.WaveformAnalyzer.constructor` | src-backend/core/waveform_analyzer.py:17-21 | empty buffer |
| `Waveform.WaveformAnalyzer.Analyze` | src-backend/core/waveform_analyzer.py:23-95 | the window moves on; five levels in [0, 1]; five zeros below 512 samples; otherwise the normalized band energies of the newest 512 |
| `Waveform.WaveformAnalyzer.Reset` | src-backend/core/waveform_analyzer.py:97-99 | the buffer is emptied |
| `Waveform.CallbackRegistry.constructor` | src-backend/core/waveform_analyzer.py:104 | no callbacks |
| `Waveform.CallbackRegistry.Register` | src-backend/core/waveform_analyzer.py:115-119 | appended only if absent, so no duplicates |
| `Waveform.CallbackRegistry.Unregister` | src-backend/core/waveform_analyzer.py:122-126 | removed if present, the others keep their order; a no-op otherwise |
| `Waveform.CallbackRegistry.Broadcast` | src-backend/core/waveform_analyzer.py:129-136 | every callback is called once with the levels, in registration order; an exception in one does not stop the rest |
| `Shell.UpperChar` | src-tauri/src/lib.rs:289 | ASCII lower-case letters are raised to capitals |
| `Shell.UpperAscii` | src-tauri/src/lib.rs:289 | on ASCII text each lower-case letter is raised in place and every other character kept |
| `Shell.ModifierOf` | src-tauri/src/lib.rs:276-281 | case-insensitively, ALT/OPTION, CTRL/CONTROL, SHIFT and META/SUPER/CMD/COMMAND, each iff |
| `Shell.CollectMembers` | src-tauri/src/lib.rs:274-284 | a modifier is in the union exactly when some name maps to it |
| `Shell.ModifiersIgnoreOrder` | src-tauri/src/lib.rs:274-284 | names with the same members give the same modifiers, whatever their order or repetition |
| `Shell.ParseModifiers` | src-tauri/src/lib.rs:273-285 | the loop yields the union of the modifiers of the names, unknown names ignored |
| `Shell.ParseKey` | src-tauri/src/lib.rs:288-330 | F1–F12 and single letters, case-insensitively, exactly; nothing else is a key |
| `Shell.ParseKeyIgnoresCase` | src-tauri/src/lib.rs:289-328 | example only: "f5" and "F5" both give F5; "x" gives X |
| `Shell.ParseKeyDotlessI` | src-tauri/src/lib.rs:289-310 | example only: Rust's Unicode upper-casing makes dotless ı the key I |
| `Shell.ParseKeyRejects` | src-tauri/src/lib.rs:288-330 | example only: "F13", "" and "AB" are not keys |
| `Shell.LoadWindowPosition` | src-tauri/src/lib.rs:83-92 | the stored position, else (100, 100) when the store, the key or the value is unusable |
| `Shell.GetShortcutSettings` | src-tauri/src/lib.rs:334-343 | the stored settings, else the empty default |
| `Shell.StartupShortcut` | src-tauri/src/lib.rs:482-493 | Alt+F5 with nothing usable saved; a saved shortcut keeps its modifiers, with F5 for an unknown key; an unavailable store aborts |
| `Shell.UpdateThenStartup` | src-tauri/src/lib.rs:348-493 | a shortcut saved by a successful update is the one registered at the next startup |
| `Shell.ShortcutService.constructor` | src-tauri/src/lib.rs:22-27 | given shortcuts and the store file's contents, loaded into memory |
| `Shell.ShortcutService.PositionFound` | src-tauri/src/lib.rs:83-92 | a lookup finds a position exactly when the store holds one |
| `Shell.ShortcutService.SaveWindowPosition` | src-tauri/src/lib.rs:74-81 | an unopenable store changes nothing; a failed save keeps the write in memory only; a successful save writes the whole store, the shortcut settings included; once written, loading gives the saved position |
| `Shell.ShortcutService.UpdateShortcut` | src-tauri/src/lib.rs:348-373 | an invalid key is rejected before anything changes; then unregister all, register, write, save, each failure ending the command with what earlier steps did kept; a successful save writes the whole store, the window position included |

## Left out

- Float scaling of samples: the int16 to float32 division by 32768 is not modelled. The VAD and the recogniser see the int16 values.
- Model inference: the Silero VAD, the MLX recogniser and the chat-completion endpoint are functions given to the classes. Only what the code does with their answers is modelled.
- The FFT, the Hanning window, the RMS of magnitudes and the 0.6 power curve: band energy is a supplied function of the samples and the bin range, and the curve a supplied function.
- Floating-point rounding in the band indices: `int(freq / (rate / 512))` is computed exactly on integers.
- Durations are byte counts; the division by 32000 is not modelled.
- `Asr.AsrEngine.Initialize`: a failing model load is re-raised; the model always loads. Environment overrides (`ASR_MODEL_ID`, `ASR_DEFAULT_LANGUAGE`) are not read.
- `History.HistoryStore.Initialize`: a failing connection is re-raised; the model always connects. The SQL schema and statements are not modelled.
- History rows are kept in insertion order, which stands in for timestamp order as long as the clock does not go backwards.
- `Config.Load`: an environment value that `int` or `float` cannot parse raises ValueError before validation; that path is not modelled.
- Size formatting in `_get_dir_size` is not modelled, so local models carry no size.
- Path normalisation by pathlib is not modelled; paths are joined as `os.path.join` does.
- Prompt wording is not modelled: a prompt is its variable parts, the text and the language or target.
- The download thread, the thread pools and the `*_async` wrappers are not modelled. Their ordering is taken as sequential.
- The log clients' event loops are one loop that runs its scheduled puts first in, first out, and is only ever closed or open; puts scheduled on several loops, and a loop closing with puts still scheduled, are not modelled. The loop is taken to keep its default exception handler, and the root logger to pass ERROR records.
- The websocket transport is not modelled: sending, receiving, and the log and waveform endpoints. `Server.Serve` stands in for the receive loop; failed sends are not modelled.
- main.py imports `get_pending_logs` and calls `register_log_client()` without its loop argument. Neither matches log_handler.py, and only log_handler.py's own functions are modelled.
- The module-level singletons (`get_analyzer`, the global registries) are one object each.
- The device layer is not modelled: audio capture, keystroke injection, the clipboard, the tray, the sidecar, window bounds and the settings window.
- The window y-flip of `set_window_bounds` is not modelled.
- `Shell.UpperChar`: Rust's `to_uppercase` is modelled for ASCII letters and for the non-ASCII characters whose upper case is ASCII only. Other characters are kept as they are, which decides every comparison with the ASCII names the same way.
- `Shell.ShortcutService.SaveWindowPosition`: the JSON serialisation of the position is not modelled.
- A failure to register the startup shortcut's handler is not modelled. Only the choice of shortcut is.
- `Session.RecordingSession.OnAudioChunk`: the statuses and results of a chunk are handed to the callback through `call_soon_threadsafe`, so they reach it only when the event loop runs them; the model appends them to the outbox at once.
- `Session.RecordingSession.Stop`: "stopped" (and "recording" in `Start`) goes to the callback directly, so it can reach the client before chunk statuses and results scheduled earlier that have not run yet; the model keeps every message in call order.
- `Server.Serve`: a message that is not an object is ignored, as the corrected loop would do; the loop as written is `Server.LoopAsWritten`.
- `Server.Serve`: the count of sent messages only grows. The exact messages of each step are stated by `Server.HandleMessage` and the session methods.

## Findings

| source | as written | input that shows it | evidently intended | confidence | as-written member | corrected member |
|---|---|---|---|---|---|---|
| src-backend/main.py:147-154 | forwards "update_config" and "update_llm_config" to `session.update_config` / `session.update_llm_config`, which `RecordingSession` does not define; the AttributeError is not caught (only WebSocketDisconnect is), so the loop ends and the disconnect handler never stops the session | `{"type":"control","action":"start"}` then `{"type":"control","action":"update_config"}` | the update is applied (or ignored) and the loop goes on, so a later stop or the disconnect stops the session | high (not executed) | `Server.UpdateConfigLeavesSessionRunning` | `Server.Serve` |
| src-backend/core/log_handler.py:35-39 | `call_soon_threadsafe` only schedules `put_nowait`, so QueueFull is raised later inside the event loop's callback and the `except asyncio.QueueFull` never sees it; the loop logs the failure at ERROR through the "asyncio" logger, the handler on the root logger emits that record, and the full client is offered the new entry, fails again, and so on while its queue stays full | a client registers and stops reading its queue; 500 log records fill it; the next record | a full client silently misses the entry, as the `except` clause means | high (not executed) | `Logs.SoleFullClientNeverDrains` | `Logs.IntendedDrainFillsQueues` |
| src-backend/main.py:133-134 | `data.get("type")` is called on whatever JSON value arrived; for an array, string or number it raises AttributeError (and text that is not JSON raises in `receive_json`), which is not caught, so the loop ends and the disconnect handler never stops the session | `{"type":"control","action":"start"}` then `[]` | a malformed message is ignored and the loop goes on, so a later stop or the disconnect stops the session | high (not executed) | `Server.NonObjectLeavesSessionRunning` | `Server.Serve` |
