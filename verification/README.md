# AudioDiary core, modelled in Dafny

AudioDiary is a FastAPI journaling backend with three features:
- speech-to-text of uploaded audio, through a Hugging Face Whisper client;
- a CBT-style supportive chat, through a LangChain chat model with a per-user conversation history;
- text-to-speech, through a Hugging Face TTS client that writes temporary WAV files.

Most of the service is glue around those remote clients. This project models the deterministic rules around them:
- the input gates on uploads, texts and request bodies;
- the normalisation of what the remote clients answer, and the wrapping of every failure into one exception class per feature;
- the mapping from exception class to HTTP status and body, in each handler and in the two application-wide exception handlers;
- the process-wide client handles and the per-user conversation map, from startup to shutdown;
- the content-derived audio file names and the age-based reaper of the temporary audio directory;
- the settings arithmetic and the required-key check.

Everything is functional:
- A Python exception is a value `Exc(kind, message)`, where `message` is what `str(e)` yields.
- A call that may raise returns `Result<T>` (`Ok` / `Raise`) or `Outcome` (`Pass` / `Fail`).
- Process-wide state (`Dependencies.Deps`) and the temporary audio directory (`TtsUtils.Directory`, a map from file name to contents and modification time) are passed in and handed back.
- These are parameters, so a property holds whatever they do:
  - the remote ASR and TTS calls and the LangChain chain invocation are oracle functions returning a value or an exception;
  - `hashlib.md5` is an oracle function;
  - the clock is a value `now`;
  - file-system faults are fault parameters.

Modules follow the source files:

| module | file |
|---|---|
| `Errors`, `Text`, `PyValues` | exceptions, Python string operations (`strip`, `str(n)`, `join`), dynamically typed reply values |
| `Config` | config/settings.py |
| `Schemas` | api_v1/schemas.py |
| `AsrUtils`, `TtsUtils`, `ChatUtils`, `Dependencies` | utils/*.py |
| `Http`, `AsrEndpoint`, `TtsEndpoint`, `ChatEndpoint`, `HealthEndpoint` | api_v1/endpoints/*.py |
| `App` | app.py, with each route as the framework runs it |

The framework behaviour the routes assume:
- A route's `HFClient` dependency is resolved before its body is validated.
- A body the schema refuses is answered 422.
- A missing required form field (the upload) is answered 422.
- An `HTTPException` goes to the HTTP handler.
- Any other exception goes to the catch-all handler.

## Model

| member | source | states |
|---|---|---|
| Errors.WrapAs | utils/asr_utils.py:97-101 | the adapter idiom: an exception of the adapter's class passes unchanged, any other becomes that class with the prefix before its message |
| Errors.WrapAsIdempotent | utils/chat_utils.py:109-113 | re-wrapping an already wrapped exception changes nothing, so a prefix is never doubled |
| Text.TrimStart | api_v1/schemas.py:48-50 | the left strip removes exactly the leading whitespace and stops at a non-space character |
| Text.TrimEnd | api_v1/schemas.py:48-50 | the right strip removes exactly the trailing whitespace and stops at a non-space character |
| Text.Strip | api_v1/schemas.py:48-50 | `str.strip()` is the slice of the input that has only whitespace around it and none at its ends; it is empty iff the input is all whitespace |
| Text.StripIsBothTrims | api_v1/schemas.py:48-50 | stripping both ends at once is the left strip followed by the right strip |
| Text.StripUnique | api_v1/schemas.py:48-50 | any slice meeting that description is the stripped text, so `Strip` is characterised rather than merely computed |
| Text.StripHasNoOuterSpace | utils/chat_utils.py:107 | a stripped text neither starts nor ends with whitespace |
| Text.StripIdempotent | api_v1/schemas.py:50 | stripping a stripped text changes nothing |
| Text.NatToDecimal | api_v1/endpoints/tts_endpoint.py:51 | `str(n)` of a natural: non-empty, all digits, no leading zero except for 0 itself |
| Text.DecimalRoundTrip | api_v1/endpoints/tts_endpoint.py:51 | reading `str(n)` back as a decimal gives n |
| Config.DefaultsValid | config/settings.py:19-72 | the defaults meet every declared bound; the window size defaults to 5 and the accepted upload types are exactly the four audio MIME types |
| Config.MaxAudioFileSizeBytes | config/settings.py:80-82 | the byte ceiling is a whole number of MiB, namely `max_audio_file_size_mb` of them |
| Config.MaxAudioFileSizeBytesBounds | config/settings.py:66-68 | within the declared bounds the ceiling lies between 1048576 and 104857600 bytes |
| Config.ValidateRequiredKeys | config/settings.py:84-94 | each key name is reported iff its key is empty, the HF key first; the list is empty iff both keys are set |
| Schemas.CheckLength | api_v1/schemas.py:37-39 | a constrained string field accepts exactly the raw lengths 1..max |
| Schemas.StripNonBlank | api_v1/schemas.py:44-50 | the field validator of both bodies: a value is refused with `ValueError` iff it is all whitespace; an accepted one becomes its stripped, non-empty form |
| Schemas.AsValidationError | api_v1/schemas.py:44-50 | a validator's `ValueError` becomes a validation error with the same message; an accepted value is kept |
| Schemas.ParseChatRequest | api_v1/schemas.py:34-50 | a chat body is accepted iff its raw message has 1..5000 characters and is not all whitespace; the stored message is the stripped one and `user_id` is kept |
| Schemas.ParseTtsRequest | api_v1/schemas.py:79-92 | a text-to-speech body is accepted iff its raw text has 1..2000 characters and is not all whitespace; the stored text is the stripped one |
| Schemas.ParseChatRequestIdempotent | api_v1/schemas.py:50 | an accepted chat request validates again to itself |
| Schemas.ParseTtsRequestIdempotent | api_v1/schemas.py:92 | an accepted text-to-speech request validates again to itself |
| Schemas.NewAsrResponse | api_v1/schemas.py:13-14 | the transcription response reports "en" when no language is given |
| Schemas.NewTtsResponse | api_v1/schemas.py:105-109 | the synthesis response reports "wav" when no format is given |
| PyValues.DictGet | utils/asr_utils.py:81 | `d.get(key, default)` is the entry when present and the default otherwise |
| PyValues.StripReplyText | utils/asr_utils.py:87-95 | a reply text succeeds iff it is a string that is not all whitespace, and is then returned stripped; a false value raises the adapter's empty error; a true non-string raises `AttributeError` |
| AsrUtils.MebibyteText | utils/asr_utils.py:43-45 | the size in MiB, printed with a decimal point |
| AsrUtils.MebibyteTextWhole | utils/asr_utils.py:43-45 | a whole number k of MiB prints as `str(k)` followed by ".0" |
| AsrUtils.ValidateAudioFile | utils/asr_utils.py:20-49 | an upload passes iff its type is allowed and its size is in 1..ceiling (the ceiling itself passes); the type check comes first and names the allowed formats; then comes the size, then emptiness; once the type passes, the stream is left at 0 |
| AsrUtils.TranscribeAudio | utils/asr_utils.py:54-101 | a dict, string or other reply yields its text, `get("text", "")`, itself or `str()`; success iff that text is a non-blank string, returned stripped with language "en" whatever the reply; every failure is an `ASRError`, an existing one unchanged and a foreign one prefixed |
| AsrUtils.ReplyShapesAgree | utils/asr_utils.py:80-85 | a dict holding "text", the bare string and an object rendering to it transcribe alike; a dict without "text" is an empty transcript |
| AsrUtils.ProcessAudioUpload | utils/asr_utils.py:104-129 | success needs a passing gate and a clean read; the upload's bytes are never altered |
| AsrUtils.InvalidUploadMakesNoRemoteCall | utils/asr_utils.py:120-127 | an upload the gate refuses gives the gate's error whatever the remote would answer, so the remote is not consulted |
| AsrUtils.ValidUploadSendsWholeFile | utils/asr_utils.py:37-39 | an accepted upload is sent whole to the remote, however far it had been read, because the gate rewinds it |
| AsrUtils.ProcessAudioUploadRaisesOnlyAsrError | utils/asr_utils.py:97-101 | without a read fault the pipeline raises nothing but `ASRError` |
| TtsUtils.ValidateTextForTts | utils/tts_utils.py:25-38 | text passes iff it is not all whitespace and its unstripped length is at most 2000 (2000 passes); the blank check comes first |
| TtsUtils.GenerateAudioFilename | utils/tts_utils.py:43-54 | the name is "audio_", the digest prefix, ".wav"; for an md5 hex digest it is 22 characters long and matches `audio_*.wav` |
| TtsUtils.FilenameHashRoundTrip | utils/tts_utils.py:53-54 | the hash read back out of a generated name is the first 12 digest characters, so the name is determined by the text alone |
| TtsUtils.TextToSpeech | utils/tts_utils.py:57-93 | success iff the remote answers non-empty audio, which is returned unchanged; empty audio raises "TTS returned empty audio"; every failure is a `TTSError`, a foreign one prefixed |
| TtsUtils.SaveAudioFile | utils/tts_utils.py:96-120 | writing creates or overwrites exactly the named file, stamped `now`, and touches nothing else; a write fault re-raises as `TTSError` with the prefix and changes nothing |
| TtsUtils.ProcessTtsRequest | utils/tts_utils.py:123-149 | success iff the text passes, the remote answers non-empty audio and the write succeeds; the result is the text-derived name and the audio length, and the directory gains that file; on failure it is unchanged and the error is a `TTSError` |
| TtsUtils.InvalidTextMakesNoRemoteCall | utils/tts_utils.py:139-143 | text the gate refuses gives the gate's error whatever the remote would answer, and nothing is written |
| TtsUtils.FilenameIndependentOfAudio | utils/tts_utils.py:146 | two successful runs on the same text name the same file whatever audio came back |
| TtsUtils.SameTextOverwrites | utils/tts_utils.py:110-113 | synthesising the same text twice leaves one file holding the second audio, with no new name and no other file changed |
| TtsUtils.CleanupAudioFile | utils/tts_utils.py:152-163 | the file is gone afterwards unless its removal fails, which is swallowed; no other file is touched |
| TtsUtils.ReapTarget | utils/tts_utils.py:178-182 | the intended end state keeps exactly the files that are not stale generated audio |
| TtsUtils.CleanupOldAudioFiles | utils/tts_utils.py:166-188 | the reaper only removes listed `audio_*.wav` files strictly older than the maximum age; a completed scan removes all of them; a scan without faults completes |
| TtsUtils.CompletedScanReachesTarget | utils/tts_utils.py:174-182 | when the listing covers the directory, a completed scan leaves exactly the intended end state |
| TtsUtils.FirstFailureStopsScan | utils/tts_utils.py:174-188 | a first match that is stale and refuses removal ends the scan with nothing removed |
| TtsUtils.RemoveReapable | utils/tts_utils.py:176-180 | the directory with exactly the reapable files among the given names removed, every other file kept unchanged |
| TtsUtils.ScanPrefix | utils/tts_utils.py:174-188 | after a fault-free stretch of the listing, the scan has removed exactly the reapable files in that stretch and continues from the next name |
| TtsUtils.MidScanFailureKeepsEarlierRemovals | utils/tts_utils.py:174-188 | when the first fault is at the `k`-th listed name (a vanished match, or a stale match that refuses removal), the result is the directory minus the reapable files among the first `k` names, marked not completed |
| TtsUtils.ReapZeroRemovesPastFiles | utils/tts_utils.py:166-182 | with maximum age 0, a clean scan removes every generated file stamped before `now` and keeps everything else |
| ChatUtils.GenerateChatResponse | utils/chat_utils.py:69-113 | a dict reply yields `get("response", "")` and any other its `str()`; success iff that is a non-blank string, returned stripped; every failure is a `ChatError`, chain failures prefixed |
| ChatUtils.ChainReplyShapes | utils/chat_utils.py:97-103 | a dict without "response" is an empty reply; a dict holding a string and the bare string agree |
| ChatUtils.ClearConversationMemory | utils/chat_utils.py:116-123 | the memory is empty afterwards |
| ChatUtils.GetConversationHistory | utils/chat_utils.py:126-140 | each message becomes `{role: type, content}` in order; a failing load yields the empty list |
| ChatUtils.FromRoleContent | utils/chat_utils.py:137 | reading role/content entries back keeps their number |
| ChatUtils.HistoryRoundTrip | utils/chat_utils.py:137 | the history listing loses nothing: reading it back gives the messages |
| ChatUtils.ClearedHistoryIsEmpty | utils/chat_utils.py:122 | after clearing, the history lists nothing |
| Dependencies.SelectLlmFamilyAsWritten | utils/dependencies.py:31-61 | the provider selection as written: the three named providers pick their class; any other provider raises `UnboundLocalError` |
| Dependencies.SelectLlmFamily | utils/dependencies.py:31-61 | the corrected selection: "germini" and "anthropic" pick their class, everything else OpenAI |
| Dependencies.SelectionAgreesOnNamedProviders | utils/dependencies.py:31-61 | the written selection succeeds exactly on the named providers, and there it agrees with the corrected one |
| Dependencies.CohereProviderFailsAsWritten | utils/dependencies.py:55-61 | "cohere" is accepted by the settings yet makes the written selection raise |
| Dependencies.GoogleBranchUnreachable | utils/dependencies.py:31-38 | no valid settings reach the Google branch, since "germini" is not an accepted provider |
| Dependencies.InitializeClientsAsWritten | utils/dependencies.py:19-67 | the HF handle is set first and stays set; success iff the provider is named and construction succeeds; on failure the chat handle is unchanged |
| Dependencies.InitializeClients | utils/dependencies.py:19-67 | the corrected initialisation fails only when construction raises, re-raising that exception, and otherwise sets both handles |
| Dependencies.InitializeClientsAgrees | utils/dependencies.py:31-54 | on the named providers the written and corrected initialisations coincide |
| Dependencies.CleanupClients | utils/dependencies.py:70-77 | both handles are dropped and no conversation is kept |
| Dependencies.GetHfClient | utils/dependencies.py:80-91 | raises `RuntimeError` "HuggingFace client not initialized" iff the handle is unset, else returns it |
| Dependencies.GetLlm | utils/dependencies.py:94-105 | raises `RuntimeError` "LLM not initialized" iff the handle is unset, else returns it |
| Dependencies.GetConversationMemory | utils/dependencies.py:108-121 | get-or-create: a known user's history is returned unchanged; an unknown user gets a new empty one; no other user's history and neither handle changes |
| Dependencies.GetConversationMemoryIdempotent | utils/dependencies.py:117-121 | a second lookup of the same user returns the same history and changes nothing |
| Dependencies.Lifecycle | utils/dependencies.py:19-105 | from the import-time state, the written initialisation succeeds iff the provider has a branch of its own; the HF accessor then succeeds in any case and the chat-model accessor iff the provider is named; cleaning up restores the import-time state, where both accessors raise |
| Dependencies.LifecycleCorrected | utils/dependencies.py:19-105 | with the corrected provider fallback, initialising from the import-time state always succeeds and sets both handles, and cleaning up restores the import-time state |
| Http.ToHttpException | api_v1/endpoints/asr_endpoint.py:51-62 | the handler's own exception class gives 400 with its message; anything else gives 500 with the fixed detail |
| AsrEndpoint.TranscribeAudioEndpoint | api_v1/endpoints/asr_endpoint.py:28-62 | nothing escapes unmapped; the handler succeeds iff the upload pipeline does, and then answers its text and language (non-empty stripped text, "en"); a 400 carries the message of the pipeline's `ASRError`; a 500 happens only when reading a validated upload fails |
| AsrEndpoint.RemoteFailureIsBadRequest | api_v1/endpoints/asr_endpoint.py:51-56 | a failing remote call is answered 400 with the wrapped message, never 500 |
| AsrEndpoint.InvalidUploadIsBadRequest | api_v1/endpoints/asr_endpoint.py:51-56 | a refused upload is answered 400 with the gate's message |
| TtsEndpoint.TextToSpeechEndpoint | api_v1/endpoints/tts_endpoint.py:29-67 | the handler succeeds iff the synthesis pipeline does and leaves the directory the pipeline leaves; a success serves the text-derived file as audio/wav with `Content-Length` the audio length; a failure is 400 whose detail is the message of the pipeline's `TTSError`, and leaves the directory unchanged |
| TtsEndpoint.ContentLengthIsAudioSize | api_v1/endpoints/tts_endpoint.py:43-52 | the `Content-Length` header is all digits and reads back as the number of audio bytes |
| TtsEndpoint.TextToSpeechJsonEndpoint | api_v1/endpoints/tts_endpoint.py:77-115 | the handler succeeds iff the synthesis pipeline does and leaves the directory the pipeline leaves; a success answers "/temp_audio/" plus the text-derived name and format "wav"; a failure is 400 whose detail is the message of the pipeline's `TTSError`, and leaves the directory unchanged |
| TtsEndpoint.VariantsAgree | api_v1/endpoints/tts_endpoint.py:43-98 | both handlers leave the same directory and fail alike, and the JSON URL names the file the binary handler serves |
| ChatEndpoint.EffectiveUserId | api_v1/endpoints/health_chat.py:46 | an absent or empty user id means "default"; any other is kept |
| ChatEndpoint.ChatEndpoint | api_v1/endpoints/health_chat.py:28-73 | an unset chat model is answered 500 with the fixed detail and no state change; otherwise the caller's history afterwards is the one the chain left after running on the caller's stored (or new empty) history, every other user's history and both handles are unchanged, failures are 400, and a success is non-empty stripped text |
| ChatEndpoint.ChatAnswerFollowsAdapter | api_v1/endpoints/health_chat.py:43-67 | with a model set, the answer is exactly the adapter's result on the chain's reply: its text, or 400 with its message |
| ChatEndpoint.ChatThreadsHistory | api_v1/endpoints/health_chat.py:46-54 | a first-time user's chain starts from an empty history, and the next memory lookup for that user returns the history the chain left |
| ChatEndpoint.ChatKeepsOtherUsers | api_v1/endpoints/health_chat.py:46-47 | a chat call leaves every other user's history exactly as it was, present or absent |
| HealthEndpoint.ServiceStatus | api_v1/endpoints/health.py:34-47 | a service is "connected" iff its accessor succeeds, else "error: " and the message |
| HealthEndpoint.HealthCheck | api_v1/endpoints/health.py:24-60 | the services are exactly huggingface and llm; the status is "healthy" iff both are connected, iff both handles are set, else "degraded"; version and environment come from the settings |
| HealthEndpoint.DegradedAfterCleanup | api_v1/endpoints/health.py:37-52 | after cleanup the service is degraded and each entry carries its accessor's error message |
| App.HttpExceptionHandler | app.py:101-110 | an `HTTPException` keeps its status; the body names the class and carries the detail as message, with no `detail` member |
| App.GlobalExceptionHandler | app.py:85-97 | any other exception is answered 500 "InternalServerError" with a fixed message; `detail` is the exception text in debug mode, else null |
| App.AsrRoute | app.py:85-110 | the transcription route answers only 200, 400, 422 or 500; an unset HF client goes to the catch-all handler; with the client set a missing `file` field is answered 422, and a refused upload gives 400 with the gate's message |
| App.AsrRemoteFailureIsBadRequest | api_v1/endpoints/asr_endpoint.py:51-56 | through the whole route, a failing remote transcription is answered 400 |
| App.ChatRoute | api_v1/schemas.py:34-50 | the chat route answers 422 iff the body is refused; with an unset model it answers 500 with the fixed detail and changes nothing |
| App.ChatSendsStrippedMessage | api_v1/endpoints/health_chat.py:50-59 | the chain receives the stripped message, and a successful reply becomes the response |
| App.TtsRoute | app.py:85-110 | the synthesis route answers 500 iff the HF client is unset; otherwise 422 iff the body is refused; a non-200 answer leaves the directory unchanged |
| App.TtsJsonRoute | app.py:85-110 | the same guarantees for the JSON synthesis route |
| App.SchemaImpliesTtsGate | utils/tts_utils.py:34-38 | a text the request schema accepts always passes the synthesis gate, so the gate's refusals cannot be reached through the routes |
| App.Startup | app.py:41-52 | missing keys abort startup with `RuntimeError` listing them, before any client is built; otherwise the clients are initialised as written; startup succeeds iff both keys are set, the provider has a branch of its own and construction succeeds, and then both handles are set |
| App.StartupCorrected | app.py:41-52 | with the corrected provider fallback, startup succeeds iff both keys are set and construction succeeds |
| App.StartupCohereFails | utils/dependencies.py:55-61 | with both keys set and the accepted provider "cohere", the application as written fails to start with `UnboundLocalError`, while the corrected one starts |
| App.StartupAgreesOnNamedProviders | app.py:41-52 | on the providers with a branch of their own both startups coincide |
| App.StartupMakesHealthy | app.py:41-54 | a successful startup from the import-time state reports the service healthy |
| App.Shutdown | app.py:56-59 | shutdown drops both handles and the conversations, and the reaper removes only generated files, never any other file |
| App.ShutdownLeavesNothing | app.py:56-59 | after a clean shutdown no conversation is kept, the health check is degraded, and no generated file stamped before `now` remains |
| App.Root | app.py:129-142 | the index names the application and version, and each route path is the API prefix followed by its own suffix |

## Left out

- Remote inference: the Whisper and TTS calls and the LangChain chain are oracle parameters. Chain construction (`create_conversation_chain`, the CBT system prompt, the memory window) is not modelled.
- Chat memory windowing: the history the chain leaves is an oracle result, so any turn recording or eviction LangChain does is inside the oracle. `conversation_memory_size` is never read by the core, so no bound on a history is claimed.
- `llm_temperature` (a float) and the constructor arguments of the chat-model classes are not modelled beyond model name, token limit and key.
- The duration estimate `len(text) / 15` of the JSON synthesis route is floating point and is not modelled.
- Timestamps (`datetime.utcnow`) are not modelled. The file clock is the parameter `now`.
- Logging (config/logging.py and every logger call) is not modelled.
- CORS settings, the static mount of the audio directory and the router aggregation (api_v1/api.py) are not modelled. `cors_origins` and `log_level` are settings the core does not read.
- Concurrency and async suspension are not modelled. The conversation map has no locking.
- The 422 body FastAPI produces for a refused request body is not modelled, only its status.
- AsrUtils.MebibyteText: the contract says only that the text contains a decimal point, and `MebibyteTextWhole` pins the value for whole mebibytes. The body computes round-half-even to one decimal, which equals Python's `:.1f` for sizes below 2^53 bytes.
- TtsUtils.SaveAudioFile: a failing write is assumed to leave the directory as it was. A partially written file is not modelled.
- Dependencies.InitializeClientsAsWritten: a raising `AsyncInferenceClient` constructor (utils/dependencies.py:24-27) is not modelled. The HF handle is always set, and `buildFault` stands only for the chat-model constructor.
- HealthEndpoint.ServiceStatus: the "disconnected" branch is not modelled, because the handles are always truthy objects.
- Config.Valid: pydantic's coercion and environment loading are not modelled. Settings are taken as already parsed.
- Reaper behaviour:
  - The reaper stops at the first exception, because a single `try` surrounds the loop. It does not continue with the remaining files.
  - With maximum age 0, a file stamped exactly at `now` is kept, because the age test is strict.
  - The directory listing order is a parameter.

## Findings

| source | as written | input that shows it | evidently intended | confidence | as-written member | corrected member |
|---|---|---|---|---|---|---|
| utils/dependencies.py:55-61 | the `else` branch builds `ChatOpenAI`, a name bound only by the import inside the `openai` branch, so it raises `UnboundLocalError` | `llm_provider="cohere"` (or "huggingface"), both accepted by the settings | fall back to an OpenAI chat model for every other provider | high; not executed | Dependencies.SelectLlmFamilyAsWritten, Dependencies.InitializeClientsAsWritten, Dependencies.CohereProviderFailsAsWritten, Dependencies.Lifecycle, App.Startup, App.StartupCohereFails | Dependencies.SelectLlmFamily, Dependencies.InitializeClients, Dependencies.InitializeClientsAgrees, Dependencies.LifecycleCorrected, App.StartupCorrected, App.StartupAgreesOnNamedProviders |
