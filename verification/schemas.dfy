/** The request and response records of api_v1/schemas.py: the length
    bounds and whitespace validators of the two request bodies, and the
    defaults of the response records. */
module Schemas {
  import opened Errors
  import opened Text

  const ChatMessageMaxLength: nat := 5000
  const TtsTextMaxLength: nat := 2000

  /** A chat request as the endpoint receives it, after validation. */
  datatype ChatRequest = ChatRequest(message: string, userId: Option<string>)

  /** A text-to-speech request as the endpoint receives it, after validation. */
  datatype TtsRequest = TtsRequest(text: string)

  datatype AsrResponse = AsrResponse(text: string, language: string)
  datatype ChatResponse = ChatResponse(response: string)
  datatype TtsResponse = TtsResponse(audioUrl: string, format: string)
  datatype HealthResponse = HealthResponse(status: string, version: string, environment: string, services: map<string, string>)

  /** A string field declared with `min_length=1, max_length=maxLength`:
      the bounds are checked on the raw value, before any field validator. */
  function CheckLength(v: string, maxLength: nat): (r: Outcome)
    ensures r.Pass? <==> 1 <= |v| <= maxLength
    ensures r.Fail? ==> r.exc.kind == ValidationError
  {
    if |v| < 1 then Fail(Exc(ValidationError, "String should have at least 1 character"))
    else if |v| > maxLength then Fail(Exc(ValidationError, "String should have at most " + NatToDecimal(maxLength) + " characters"))
    else Pass
  }

  /** The field validator both request bodies declare: text that is empty
      after stripping is refused with `refusal`, anything else is replaced by
      its stripped form. */
  function StripNonBlank(v: string, refusal: string): (r: Result<string>)
    ensures r.Ok? <==> !IsBlank(v)
    ensures r.Ok? ==> r.value == Strip(v) && r.value != [] && |r.value| <= |v|
    ensures r.Raise? ==> r.exc == Exc(ValueError, refusal)
  {
    var t := Strip(v);
    if t == [] then Raise(Exc(ValueError, refusal)) else Ok(t)
  }

  const EmptyMessageRefusal: string := "Message cannot be empty or only whitespace"
  const EmptyTextRefusal: string := "Text cannot be empty or only whitespace"

  /** Pydantic reports a validator's `ValueError` as a validation error of
      the request body. */
  function AsValidationError<T>(r: Result<T>): (r': Result<T>)
    ensures r'.Ok? <==> r.Ok?
    ensures r.Ok? ==> r' == r
    ensures r'.Raise? ==> r'.exc.kind == ValidationError && r'.exc.message == "Value error, " + r.exc.message
  {
    match r
    case Ok(_) => r
    case Raise(e) => Raise(Exc(ValidationError, "Value error, " + e.message))
  }

  /** Building a `ChatRequest` from a JSON body: the raw message must hold
      1..5000 characters and must not be blank; the stored message is the
      stripped one and `user_id` is kept as given (absent means None). */
  function ParseChatRequest(message: string, userId: Option<string>): (r: Result<ChatRequest>)
    ensures r.Ok? <==> 1 <= |message| <= ChatMessageMaxLength && !IsBlank(message)
    ensures r.Ok? ==> r.value == ChatRequest(Strip(message), userId)
    ensures r.Raise? ==> r.exc.kind == ValidationError
  {
    match CheckLength(message, ChatMessageMaxLength)
    case Fail(e) => Raise(e)
    case Pass =>
      match AsValidationError(StripNonBlank(message, EmptyMessageRefusal))
      case Raise(e) => Raise(e)
      case Ok(m) => Ok(ChatRequest(m, userId))
  }

  /** Building a `TTSRequest`: 1..2000 raw characters, not blank, stored stripped. */
  function ParseTtsRequest(text: string): (r: Result<TtsRequest>)
    ensures r.Ok? <==> 1 <= |text| <= TtsTextMaxLength && !IsBlank(text)
    ensures r.Ok? ==> r.value == TtsRequest(Strip(text))
    ensures r.Raise? ==> r.exc.kind == ValidationError
  {
    match CheckLength(text, TtsTextMaxLength)
    case Fail(e) => Raise(e)
    case Pass =>
      match AsValidationError(StripNonBlank(text, EmptyTextRefusal))
      case Raise(e) => Raise(e)
      case Ok(t) => Ok(TtsRequest(t))
  }

  /** An accepted chat request survives validation again unchanged: the
      stripped message still meets the bounds and strips to itself. */
  lemma ParseChatRequestIdempotent(message: string, userId: Option<string>)
    requires ParseChatRequest(message, userId).Ok?
    ensures ParseChatRequest(ParseChatRequest(message, userId).value.message, userId) == ParseChatRequest(message, userId)
  {
    StripIdempotent(message);
  }

  /** The same for an accepted text-to-speech request. */
  lemma ParseTtsRequestIdempotent(text: string)
    requires ParseTtsRequest(text).Ok?
    ensures ParseTtsRequest(ParseTtsRequest(text).value.text) == ParseTtsRequest(text)
  {
    StripIdempotent(text);
  }

  /** An `ASRResponse` built without a language reports "en". */
  function NewAsrResponse(text: string, language: Option<string>): (r: AsrResponse)
    ensures r.text == text
    ensures r.language == (if language.Some? then language.value else "en")
  {
    AsrResponse(text, language.GetOr("en"))
  }

  /** A `TTSResponse` built without a format reports "wav". */
  function NewTtsResponse(audioUrl: string, format: Option<string>): (r: TtsResponse)
    ensures r.audioUrl == audioUrl
    ensures r.format == (if format.Some? then format.value else "wav")
  {
    TtsResponse(audioUrl, format.GetOr("wav"))
  }
}
