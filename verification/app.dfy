/** The application of app.py: the startup and shutdown sequence, the two
    exception handlers, the root index, and each route as the framework runs
    it (dependencies, then body validation, then the handler, then the
    exception handlers). */
module App {
  import opened Errors
  import opened Text
  import opened PyValues
  import opened Http
  import Config
  import Schemas
  import opened Dependencies
  import opened ChatUtils
  import TtsUtils
  import AsrUtils
  import AsrEndpoint
  import TtsEndpoint
  import ChatEndpoint
  import HealthEndpoint

  /** The `detail` member of an error body: missing altogether, null, or a string. */
  datatype DetailField = Absent | Null | Detail(text: string)

  datatype ErrorBody = ErrorBody(error: string, message: string, detail: DetailField)

  /** What a client receives: the handler's value (status 200), a JSON error
      body with its status, or the framework's own answer to a request body
      its schema refuses (status 422; its body is not modelled). */
  datatype Response<+T> = Success(payload: T) | ErrorJson(statusCode: int, errorBody: ErrorBody) | InvalidRequest(exc: Exc)

  function StatusOf<T>(r: Response<T>): int {
    match r
    case Success(_) => StatusOk
    case ErrorJson(code, _) => code
    case InvalidRequest(_) => StatusUnprocessable
  }

  const UnexpectedMessage: string := "An unexpected error occurred"

  /** `http_exception_handler`: the status code is kept, `error` is the class
      name and `message` the detail; the body has no `detail` member. */
  function HttpExceptionHandler(h: HttpException): (r: (int, ErrorBody))
    ensures r.0 == h.statusCode
    ensures r.1.error == "HTTPException" && r.1.message == h.detail && r.1.detail.Absent?
  {
    (h.statusCode, ErrorBody("HTTPException", h.detail, Absent))
  }

  /** `global_exception_handler`: 500, a fixed message, and the exception's
      text as `detail` only in debug mode. */
  function GlobalExceptionHandler(e: Exc, s: Config.Settings): (r: (int, ErrorBody))
    ensures r.0 == StatusInternalError
    ensures r.1.error == "InternalServerError" && r.1.message == UnexpectedMessage
    ensures r.1.detail.Detail? <==> s.debug
    ensures s.debug ==> r.1.detail.text == e.message
  {
    (StatusInternalError, ErrorBody("InternalServerError", UnexpectedMessage, if s.debug then Detail(e.message) else Null))
  }

  function AsResponse<T>(answer: (int, ErrorBody)): Response<T> {
    ErrorJson(answer.0, answer.1)
  }

  /** The framework's treatment of a handler's outcome. */
  function Respond<T>(r: EndpointResult<T>, s: Config.Settings): Response<T> {
    match r
    case Returned(v) => Success(v)
    case RaisedHttp(h) => AsResponse(HttpExceptionHandler(h))
    case RaisedOther(e) => AsResponse(GlobalExceptionHandler(e, s))
  }

  /** The validation error of a required form field the request lacks. */
  const MissingFieldMessage: string := "Field required"

  /** POST {prefix}/asr. The `HFClient` dependency runs first; an unset client
      raises `RuntimeError`, which only the catch-all handler sees. Then the
      required `file` form field is checked: a request without one is refused
      with 422. Returns the upload as it is left behind, if there was one. */
  function AsrRoute(d: Deps, s: Config.Settings, upload: Option<AsrUtils.UploadFile>, remote: seq<Byte> -> Result<AsrUtils.AsrReply>, readFault: Option<Exc>): (r: (Option<AsrUtils.UploadFile>, Response<Schemas.AsrResponse>))
    ensures StatusOf(r.1) in {StatusOk, StatusBadRequest, StatusUnprocessable, StatusInternalError}
    ensures d.hfClient.None? ==> r == (upload, AsResponse(GlobalExceptionHandler(Exc(RuntimeError, HfNotInitialised), s)))
    ensures StatusOf(r.1) == StatusUnprocessable <==> d.hfClient.Some? && upload.None?
    ensures d.hfClient.Some? && upload.Some? && AsrUtils.ValidateAudioFile(upload.value, s).1.Fail?
      ==> r.1 == ErrorJson(StatusBadRequest, ErrorBody("HTTPException", AsrUtils.ValidateAudioFile(upload.value, s).1.exc.message, Absent))
  {
    match GetHfClient(d)
    case Raise(e) => (upload, AsResponse(GlobalExceptionHandler(e, s)))
    case Ok(_) =>
      match upload
      case None => (None, InvalidRequest(Exc(ValidationError, MissingFieldMessage)))
      case Some(f) =>
        var (f', result) := AsrEndpoint.TranscribeAudioEndpoint(f, s, remote, readFault);
        (Some(f'), Respond(result, s))
  }

  /** Through the whole route, a failing remote transcription is answered
      400, not 500. */
  lemma AsrRemoteFailureIsBadRequest(d: Deps, s: Config.Settings, f: AsrUtils.UploadFile, remote: seq<Byte> -> Result<AsrUtils.AsrReply>)
    requires d.hfClient.Some?
    requires AsrUtils.ValidateAudioFile(f, s).1.Pass?
    requires remote(f.data).Raise?
    ensures StatusOf(AsrRoute(d, s, Some(f), remote, None).1) == StatusBadRequest
  {
    AsrEndpoint.RemoteFailureIsBadRequest(f, s, remote);
  }

  /** POST {prefix}/chat. The body is validated first (422 when refused);
      the handler itself maps every failure. */
  function ChatRoute(d: Deps, s: Config.Settings, message: string, userId: Option<string>, chain: (LlmClient, History, string) -> ChainRun): (r: (Deps, Response<Schemas.ChatResponse>))
    ensures StatusOf(r.1) in {StatusOk, StatusBadRequest, StatusUnprocessable, StatusInternalError}
    ensures StatusOf(r.1) == StatusUnprocessable <==> Schemas.ParseChatRequest(message, userId).Raise?
    ensures Schemas.ParseChatRequest(message, userId).Ok? && d.llm.None?
      ==> r == (d, ErrorJson(StatusInternalError, ErrorBody("HTTPException", ChatEndpoint.FailureDetail, Absent)))
  {
    match Schemas.ParseChatRequest(message, userId)
    case Raise(e) => (d, InvalidRequest(e))
    case Ok(req) =>
      var (d', result) := ChatEndpoint.ChatEndpoint(d, req, chain);
      (d', Respond(result, s))
  }

  /** The chain is handed the stripped message: surrounding whitespace never
      reaches the model. */
  lemma ChatSendsStrippedMessage(d: Deps, s: Config.Settings, message: string, userId: Option<string>, chain: (LlmClient, History, string) -> ChainRun)
    requires Schemas.ParseChatRequest(message, userId).Ok?
    requires d.llm.Some?
    ensures var history := GetConversationMemory(d, ChatEndpoint.EffectiveUserId(userId)).1;
            var adapted := GenerateChatResponse(chain(d.llm.value, history, Strip(message)).reply);
            adapted.Ok? ==> ChatRoute(d, s, message, userId, chain).1 == Success(Schemas.ChatResponse(adapted.value))
  {
    ChatEndpoint.ChatAnswerFollowsAdapter(d, Schemas.ParseChatRequest(message, userId).value, chain);
  }

  /** POST {prefix}/tts. The `HFClient` dependency runs before the body is
      validated. */
  function TtsRoute(d: Deps, s: Config.Settings, text: string, md5: string -> string, remote: string -> Result<seq<Byte>>, dir: TtsUtils.Directory, now: real, writeFault: Option<Exc>): (r: (TtsUtils.Directory, Response<TtsEndpoint.FileResponse>))
    ensures StatusOf(r.1) in {StatusOk, StatusBadRequest, StatusUnprocessable, StatusInternalError}
    ensures StatusOf(r.1) == StatusInternalError <==> d.hfClient.None?
    ensures d.hfClient.Some? ==> (StatusOf(r.1) == StatusUnprocessable <==> Schemas.ParseTtsRequest(text).Raise?)
    ensures StatusOf(r.1) != StatusOk ==> r.0 == dir
  {
    match GetHfClient(d)
    case Raise(e) => (dir, AsResponse(GlobalExceptionHandler(e, s)))
    case Ok(_) =>
      match Schemas.ParseTtsRequest(text)
      case Raise(e) => (dir, InvalidRequest(e))
      case Ok(req) =>
        var (dir', result) := TtsEndpoint.TextToSpeechEndpoint(req, md5, remote, dir, now, writeFault);
        (dir', Respond(result, s))
  }

  /** POST {prefix}/tts/json, wired like the binary route. */
  function TtsJsonRoute(d: Deps, s: Config.Settings, text: string, md5: string -> string, remote: string -> Result<seq<Byte>>, dir: TtsUtils.Directory, now: real, writeFault: Option<Exc>): (r: (TtsUtils.Directory, Response<Schemas.TtsResponse>))
    ensures StatusOf(r.1) in {StatusOk, StatusBadRequest, StatusUnprocessable, StatusInternalError}
    ensures StatusOf(r.1) == StatusInternalError <==> d.hfClient.None?
    ensures d.hfClient.Some? ==> (StatusOf(r.1) == StatusUnprocessable <==> Schemas.ParseTtsRequest(text).Raise?)
    ensures StatusOf(r.1) != StatusOk ==> r.0 == dir
  {
    match GetHfClient(d)
    case Raise(e) => (dir, AsResponse(GlobalExceptionHandler(e, s)))
    case Ok(_) =>
      match Schemas.ParseTtsRequest(text)
      case Raise(e) => (dir, InvalidRequest(e))
      case Ok(req) =>
        var (dir', result) := TtsEndpoint.TextToSpeechJsonEndpoint(req, md5, remote, dir, now, writeFault);
        (dir', Respond(result, s))
  }

  /** A request the schema accepts always passes the synthesis gate: the
      stripped text is non-blank and at most 2000 characters long, so the
      gate's own refusals are unreachable through the routes. */
  lemma SchemaImpliesTtsGate(text: string)
    requires Schemas.ParseTtsRequest(text).Ok?
    ensures TtsUtils.ValidateTextForTts(Schemas.ParseTtsRequest(text).value.text).Pass?
  {
    StripIdempotent(text);
  }

  /** The message of the startup failure. */
  function MissingKeysMessage(missing: seq<string>): string {
    "Missing required API keys: " + Join(", ", missing)
  }

  /** The startup half of `lifespan` as written: a missing key aborts startup
      with a `RuntimeError` before any client is built; otherwise the clients
      are initialised as `initialize_clients` is written, and any failure
      there, the `UnboundLocalError` of an unnamed provider included, is
      re-raised unchanged. */
  function Startup(d: Deps, s: Config.Settings, buildFault: Option<Exc>): (r: (Deps, Outcome))
    ensures Config.ValidateRequiredKeys(s) != [] ==> r == (d, Fail(Exc(RuntimeError, MissingKeysMessage(Config.ValidateRequiredKeys(s)))))
    ensures Config.ValidateRequiredKeys(s) == [] ==> r == InitializeClientsAsWritten(d, s, buildFault)
    ensures r.1.Pass? <==> s.huggingfaceApiKey != "" && s.llmApiKey != "" && s.llmProvider in NamedProviders && buildFault.None?
    ensures r.1.Pass? ==> r.0.hfClient.Some? && r.0.llm.Some?
  {
    var missing := Config.ValidateRequiredKeys(s);
    if missing != [] then (d, Fail(Exc(RuntimeError, MissingKeysMessage(missing))))
    else InitializeClientsAsWritten(d, s, buildFault)
  }

  /** Startup with the corrected initialisation: once both keys are set it
      fails only when a client constructor raises. */
  function StartupCorrected(d: Deps, s: Config.Settings, buildFault: Option<Exc>): (r: (Deps, Outcome))
    ensures Config.ValidateRequiredKeys(s) != [] ==> r == (d, Fail(Exc(RuntimeError, MissingKeysMessage(Config.ValidateRequiredKeys(s)))))
    ensures Config.ValidateRequiredKeys(s) == [] ==> r == InitializeClients(d, s, buildFault)
    ensures r.1.Pass? <==> s.huggingfaceApiKey != "" && s.llmApiKey != "" && buildFault.None?
  {
    var missing := Config.ValidateRequiredKeys(s);
    if missing != [] then (d, Fail(Exc(RuntimeError, MissingKeysMessage(missing))))
    else InitializeClients(d, s, buildFault)
  }

  /** The discrepancy at the application level: with both keys set and the
      accepted provider "cohere", the application as written does not start,
      while the corrected one does; on the named providers they agree. */
  lemma StartupCohereFails(hfKey: string, llmKey: string)
    requires hfKey != "" && llmKey != ""
    ensures var s := Config.Defaults.(huggingfaceApiKey := hfKey, llmApiKey := llmKey, llmProvider := "cohere");
            && Config.Valid(s)
            && Startup(Unset, s, None).1 == Fail(Exc(UnboundLocalError, UnboundChatOpenAI))
            && StartupCorrected(Unset, s, None).1.Pass?
  {
    Config.DefaultsValid();
  }

  /** On the providers with a branch of their own both startups coincide. */
  lemma StartupAgreesOnNamedProviders(d: Deps, s: Config.Settings, buildFault: Option<Exc>)
    requires s.llmProvider in NamedProviders
    ensures Startup(d, s, buildFault) == StartupCorrected(d, s, buildFault)
  {
    InitializeClientsAgrees(d, s, buildFault);
  }

  /** A successful startup from the import-time state leaves both handles
      set and the service healthy. */
  lemma StartupMakesHealthy(s: Config.Settings)
    requires Startup(Unset, s, None).1.Pass?
    ensures HealthEndpoint.HealthCheck(Startup(Unset, s, None).0, s).status == "healthy"
  {
  }

  /** The shutdown half of `lifespan`: drop the clients and the conversations,
      then reap the audio directory with a maximum age of 0. */
  function Shutdown(d: Deps, dir: TtsUtils.Directory, names: seq<string>, now: real, unlinkFails: set<string>): (r: (Deps, TtsUtils.ReapResult))
    ensures r.0 == Unset
    ensures forall n :: n in r.1.dir ==> n in dir && r.1.dir[n] == dir[n]
    ensures forall n :: n in dir && !TtsUtils.MatchesAudioGlob(n) ==> n in r.1.dir
  {
    (CleanupClients(d), TtsUtils.CleanupOldAudioFiles(dir, names, now, 0, unlinkFails))
  }

  /** After a shutdown whose scan meets no fault, no generated audio file
      older than `now` is left, no conversation is kept, and the health
      check would report both services in error. */
  lemma ShutdownLeavesNothing(d: Deps, s: Config.Settings, dir: TtsUtils.Directory, names: seq<string>, now: real, unlinkFails: set<string>)
    requires forall n :: n in dir ==> n in names
    requires TtsUtils.ScanHasNoFault(dir, names, now, 0, unlinkFails)
    ensures var (d', reaped) := Shutdown(d, dir, names, now, unlinkFails);
            && |d'.conversations| == 0
            && HealthEndpoint.HealthCheck(d', s).status == "degraded"
            && forall n :: n in reaped.dir && TtsUtils.MatchesAudioGlob(n) ==> reaped.dir[n].mtime >= now
  {
    TtsUtils.ReapZeroRemovesPastFiles(dir, names, now, unlinkFails);
  }

  /** The index served at "/". */
  datatype RootInfo = RootInfo(name: string, version: string, docs: string, health: string, asr: string, chat: string, tts: string)

  function Root(s: Config.Settings): (r: RootInfo)
    ensures r.name == s.appName && r.version == s.appVersion && r.docs == "/docs"
    ensures StartsWith(r.health, s.apiV1Prefix) && r.health[|s.apiV1Prefix|..] == "/health"
    ensures StartsWith(r.asr, s.apiV1Prefix) && r.asr[|s.apiV1Prefix|..] == "/asr"
    ensures StartsWith(r.chat, s.apiV1Prefix) && r.chat[|s.apiV1Prefix|..] == "/chat"
    ensures StartsWith(r.tts, s.apiV1Prefix) && r.tts[|s.apiV1Prefix|..] == "/tts"
  {
    var p := s.apiV1Prefix;
    RootInfo(s.appName, s.appVersion, "/docs", p + "/health", p + "/asr", p + "/chat", p + "/tts")
  }
}
