/** The POST handler of the chat endpoint: it picks the rotated key, builds a
    one-turn generation request from the caller's message and character, hands
    it to the generative-language service and reshapes the reply. The network
    call is abstracted: the reply is an input, and the request that would be
    sent is part of the result. */
module ChatHandler {
  import opened Wrappers
  import opened JsSemantics
  import opened KeyRotation

  const MODEL: string := "gemini-2.5-flash"
  const ENDPOINT: string := "https://generativelanguage.googleapis.com/v1beta/models/gemini-2.5-flash:generateContent"
  const TEMPERATURE: real := 0.9
  const JSON_CONTENT_TYPE: string := "application/json"
  const MISSING_KEY_MESSAGE: string := "API Key is missing or invalid."
  const UNKNOWN_ERROR_MESSAGE: string := "An unknown error occurred."
  const UPSTREAM_ERROR_PREFIX: string := "Google API Error: "

  // ---- The caller's request body, after `request.json()` and destructuring ----

  /** `character_config`: missing, `null`, or any other value (an object whose
      `system_prompt` may be missing). */
  datatype CharacterConfig = Undefined | Null | Config(systemPrompt: Option<string>)

  datatype ChatRequest = ChatRequest(userMessage: Option<string>, characterConfig: CharacterConfig)

  // ---- The request sent to the service ----

  datatype Part = Part(text: Option<string>)
  datatype Content = Content(role: string, parts: seq<Part>)
  datatype GenerationConfig = GenerationConfig(systemInstruction: Option<string>, temperature: real)
  datatype GenerateRequest = GenerateRequest(model: string, contents: seq<Content>, config: GenerationConfig)

  /** The HTTPS call the handler makes: URL, method, headers and body. */
  datatype OutboundCall = OutboundCall(url: string, httpMethod: string, contentType: string,
                                       authorization: string, body: GenerateRequest)

  // ---- The service's reply, as seen through `fetch` and `json()` ----

  datatype ErrorObject = ErrorObject(message: Option<string>)
  /** The body of a non-ok reply; `error` may be missing. */
  datatype ErrorData = ErrorData(error: Option<ErrorObject>)

  datatype ReplyPart = ReplyPart(text: Option<string>)
  datatype CandidateContent = CandidateContent(parts: Option<seq<ReplyPart>>)
  datatype Candidate = Candidate(content: Option<CandidateContent>)
  /** The body of an ok reply; each level of `candidates[0].content.parts[0].text` may be missing. */
  datatype ReplyData = ReplyData(candidates: Option<seq<Candidate>>)

  /** What the call produced: `fetch` rejected, a non-ok status with its
      status text and (possibly unparsable) body, or an ok status with its
      (possibly unparsable) body. A `Failure` carries the thrown error's message. */
  datatype UpstreamReply =
    | FetchRejected(message: string)
    | NotOk(statusText: string, errorBody: Result<ErrorData>)
    | Ok(replyBody: Result<ReplyData>)

  // ---- The handler's response ----

  /** `{error: ...}` or `{response: ...}`; a `response` that is `undefined`
      is dropped by `JSON.stringify`, leaving `{}`. */
  datatype ResponseBody = ErrorJson(error: string) | ReplyJson(response: Option<string>)
  datatype HttpResponse = HttpResponse(status: int, contentType: string, body: ResponseBody)

  /** The response, whether the request body was read, and the outbound call made, if any. */
  datatype Handled = Handled(response: HttpResponse, bodyRead: bool, call: Option<OutboundCall>)

  /** Builds the generation request: one user turn carrying the message, the
      character's system prompt as system instruction and the fixed
      temperature. Reading `system_prompt` of a missing or null
      `character_config` throws a `TypeError`. */
  function BuildGenerateRequest(req: ChatRequest): (r: Result<GenerateRequest>)
    ensures r.Failure? <==> !req.characterConfig.Config?
    ensures r.Failure? ==> r.message != ""
    ensures r.Success? ==> r.value.model == MODEL && r.value.config.temperature == TEMPERATURE
    ensures r.Success? ==> r.value.config.systemInstruction == req.characterConfig.systemPrompt
    ensures r.Success? ==> |r.value.contents| == 1 && r.value.contents[0].role == "user"
                           && r.value.contents[0].parts == [Part(req.userMessage)]
  {
    match req.characterConfig
    case Undefined => Failure(PropertyReadError("undefined", "system_prompt"))
    case Null => Failure(PropertyReadError("null", "system_prompt"))
    case Config(prompt) =>
      Success(GenerateRequest(MODEL, [Content("user", [Part(req.userMessage)])],
                              GenerationConfig(prompt, TEMPERATURE)))
  }

  /** The message of the error thrown for a non-ok reply: the service's own
      message when present and non-empty, else the status text, after a fixed
      prefix; or the error thrown while reading the body. */
  function UpstreamErrorMessage(statusText: string, errorBody: Result<ErrorData>): (m: string)
    ensures errorBody.Success? ==> m != ""
    ensures errorBody.Success? && errorBody.value.error.Some? ==>
              m == UPSTREAM_ERROR_PREFIX + Or(errorBody.value.error.value.message, statusText)
    ensures errorBody.Failure? ==> m == errorBody.message
  {
    match errorBody
    case Failure(thrown) => thrown
    case Success(ErrorData(None)) => PropertyReadError("undefined", "message")
    case Success(ErrorData(Some(ErrorObject(message)))) => UPSTREAM_ERROR_PREFIX + Or(message, statusText)
  }

  /** `data.candidates[0].content.parts[0].text`: a missing array, element or
      object on the way throws a `TypeError`; a missing `text` at the end does
      not throw and yields `undefined`. */
  function ExtractBotResponse(data: ReplyData): (r: Result<Option<string>>)
    ensures r.Failure? ==> r.message != ""
    ensures r.Success? <==> data.candidates.Some? && |data.candidates.value| > 0
                            && data.candidates.value[0].content.Some?
                            && data.candidates.value[0].content.value.parts.Some?
                            && |data.candidates.value[0].content.value.parts.value| > 0
    ensures r.Success? ==> r.value == data.candidates.value[0].content.value.parts.value[0].text
  {
    match data.candidates
    case None => Failure(PropertyReadError("undefined", "0"))
    case Some(candidates) =>
      if |candidates| == 0 then Failure(PropertyReadError("undefined", "content"))
      else match candidates[0].content
        case None => Failure(PropertyReadError("undefined", "parts"))
        case Some(content) =>
          match content.parts
          case None => Failure(PropertyReadError("undefined", "0"))
          case Some(parts) =>
            if |parts| == 0 then Failure(PropertyReadError("undefined", "text"))
            else Success(parts[0].text)
  }

  /** The `catch` block's response: status 500 with the error's message, or a
      fixed message when that is empty. */
  function ErrorResponse(message: string): (resp: HttpResponse)
    ensures resp.status == 500 && resp.contentType == JSON_CONTENT_TYPE && resp.body.ErrorJson?
    ensures resp.body.error == (if message != "" then message else UNKNOWN_ERROR_MESSAGE)
    ensures resp.body.error != ""
  {
    HttpResponse(500, JSON_CONTENT_TYPE, ErrorJson(Or(Some(message), UNKNOWN_ERROR_MESSAGE)))
  }

  /** The response for the service's reply to a call that was made. */
  function ReplyResponse(reply: UpstreamReply): (resp: HttpResponse)
    ensures reply.FetchRejected? ==> resp == ErrorResponse(reply.message)
    ensures reply.NotOk? ==> resp == ErrorResponse(UpstreamErrorMessage(reply.statusText, reply.errorBody))
    ensures reply.Ok? && reply.replyBody.Failure? ==> resp == ErrorResponse(reply.replyBody.message)
    ensures reply.Ok? && reply.replyBody.Success? && ExtractBotResponse(reply.replyBody.value).Failure? ==>
              resp == ErrorResponse(ExtractBotResponse(reply.replyBody.value).message)
    ensures resp.status == 200 <==> reply.Ok? && reply.replyBody.Success?
                                    && ExtractBotResponse(reply.replyBody.value).Success?
    ensures resp.status == 200 ==>
              resp.body == ReplyJson(ExtractBotResponse(reply.replyBody.value).value)
    ensures resp.status == 200 || resp.status == 500
    ensures resp.status == 200 <==> resp.body.ReplyJson?
    ensures resp.body.ErrorJson? ==> resp.body.error != ""
    ensures resp.contentType == JSON_CONTENT_TYPE
  {
    match reply
    case FetchRejected(thrown) => ErrorResponse(thrown)
    case NotOk(statusText, errorBody) => ErrorResponse(UpstreamErrorMessage(statusText, errorBody))
    case Ok(Failure(thrown)) => ErrorResponse(thrown)
    case Ok(Success(data)) =>
      match ExtractBotResponse(data)
      case Failure(thrown) => ErrorResponse(thrown)
      case Success(text) => HttpResponse(200, JSON_CONTENT_TYPE, ReplyJson(text))
  }

  /** `onRequestPost` for one invocation at time `now`. `request` is what
      `request.json()` and the destructuring produce (or the message they
      throw); `reply` is what the service answers if it is called. Exactly
      one response comes back, always JSON, with status 200 or 500, and every
      error body carries a non-empty message. */
  function OnRequestPost(env: Env, now: int, request: Result<ChatRequest>, reply: UpstreamReply): (h: Handled)
    ensures h.response.status == 200 || h.response.status == 500
    ensures h.response.status == 200 <==> h.response.body.ReplyJson?
    ensures h.response.body.ErrorJson? ==> h.response.body.error != ""
    ensures h.response.contentType == JSON_CONTENT_TYPE
    ensures h.call.Some? ==> h.bodyRead
    ensures h.response.status == 200 ==> h.call.Some?
    ensures GetRotatingApiKey(env, now).Some? && request.Failure? ==>
              h == Handled(ErrorResponse(request.message), true, None)
    ensures h.call.Some? ==> h.response == ReplyResponse(reply)
  {
    match GetRotatingApiKey(env, now)
    case None => Handled(HttpResponse(500, JSON_CONTENT_TYPE, ErrorJson(MISSING_KEY_MESSAGE)), false, None)
    case Some(key) =>
      match request
      case Failure(thrown) => Handled(ErrorResponse(thrown), true, None)
      case Success(req) =>
        match BuildGenerateRequest(req)
        case Failure(thrown) => Handled(ErrorResponse(thrown), true, None)
        case Success(payload) =>
          var call := OutboundCall(ENDPOINT, "POST", JSON_CONTENT_TYPE, "Bearer " + key, payload);
          Handled(ReplyResponse(reply), true, Some(call))
  }

  // ---- Properties of the whole handler ----

  /** Without a usable rotated key the handler answers 500 with the fixed
      message, before reading the body and without calling the service. */
  lemma MissingKeyShortCircuits(env: Env, now: int, request: Result<ChatRequest>, reply: UpstreamReply)
    requires !(KeyName(now) in env && env[KeyName(now)] != "")
    ensures OnRequestPost(env, now, request, reply)
            == Handled(HttpResponse(500, JSON_CONTENT_TYPE, ErrorJson(MISSING_KEY_MESSAGE)), false, None)
  {
  }

  /** With a key and a body whose `character_config` is present, the service is
      called once, at the fixed endpoint, with the rotated key as bearer token
      and a single user turn built from the caller's message and prompt. */
  lemma OutboundCallShape(env: Env, now: int, req: ChatRequest, reply: UpstreamReply)
    requires KeyName(now) in env && env[KeyName(now)] != ""
    requires req.characterConfig.Config?
    ensures var h := OnRequestPost(env, now, Success(req), reply);
            && h.bodyRead && h.call.Some?
            && h.call.value.url == ENDPOINT && h.call.value.httpMethod == "POST"
            && h.call.value.contentType == JSON_CONTENT_TYPE
            && h.call.value.authorization == "Bearer " + env[KeyName(now)]
            && h.call.value.body.model == MODEL
            && h.call.value.body.contents == [Content("user", [Part(req.userMessage)])]
            && h.call.value.body.config.systemInstruction == req.characterConfig.systemPrompt
            && h.call.value.body.config.temperature == TEMPERATURE
            && h.response == ReplyResponse(reply)
  {
  }

  /** A missing or null `character_config` is caught: 500 with the `TypeError`'s
      message, and no call. */
  lemma MissingCharacterConfig(env: Env, now: int, req: ChatRequest, reply: UpstreamReply)
    requires KeyName(now) in env && env[KeyName(now)] != ""
    requires !req.characterConfig.Config?
    ensures var h := OnRequestPost(env, now, Success(req), reply);
            && h.call.None? && h.response.status == 500
            && h.response.body == ErrorJson(PropertyReadError(
                 if req.characterConfig.Undefined? then "undefined" else "null", "system_prompt"))
  {
  }

  /** The reply only matters when the service is called. */
  lemma ReplyIrrelevantWithoutCall(env: Env, now: int, request: Result<ChatRequest>, r1: UpstreamReply, r2: UpstreamReply)
    requires OnRequestPost(env, now, request, r1).call.None?
    ensures OnRequestPost(env, now, request, r1) == OnRequestPost(env, now, request, r2)
  {
  }

  /** A non-ok reply whose body carries an `error` object becomes status 500
      with "Google API Error: " and the service's message, or the status text
      when that message is missing or empty. */
  lemma UpstreamNotOkResponse(env: Env, now: int, req: ChatRequest, statusText: string, err: ErrorObject)
    requires KeyName(now) in env && env[KeyName(now)] != ""
    requires req.characterConfig.Config?
    ensures var h := OnRequestPost(env, now, Success(req), NotOk(statusText, Success(ErrorData(Some(err)))));
            && h.response.status == 500
            && h.response.body == ErrorJson(UPSTREAM_ERROR_PREFIX + Or(err.message, statusText))
            && (Truthy(err.message) ==> h.response.body.error == UPSTREAM_ERROR_PREFIX + err.message.value)
            && (!Truthy(err.message) ==> h.response.body.error == UPSTREAM_ERROR_PREFIX + statusText)
  {
  }

  /** An ok reply with the full `candidates[0].content.parts[0]` path gives
      status 200 with that part's `text` as `response`; a reply missing any
      step of the path before `text` gives status 500, never a fallback text. */
  lemma OkReplyResponse(env: Env, now: int, req: ChatRequest, data: ReplyData)
    requires KeyName(now) in env && env[KeyName(now)] != ""
    requires req.characterConfig.Config?
    ensures var h := OnRequestPost(env, now, Success(req), Ok(Success(data)));
            var complete := data.candidates.Some? && |data.candidates.value| > 0
                            && data.candidates.value[0].content.Some?
                            && data.candidates.value[0].content.value.parts.Some?
                            && |data.candidates.value[0].content.value.parts.value| > 0;
            && (complete ==> h.response == HttpResponse(200, JSON_CONTENT_TYPE,
                   ReplyJson(data.candidates.value[0].content.value.parts.value[0].text)))
            && (!complete ==> h.response.status == 500 && h.response.body.ErrorJson?)
  {
  }

  /** A body that `request.json()` or the destructuring cannot deliver is
      answered with 500 and the thrown message (or the fixed text when it is
      empty), after the body read and without a call. */
  lemma RequestBodyFailureResponse(env: Env, now: int, m: string, reply: UpstreamReply)
    requires KeyName(now) in env && env[KeyName(now)] != ""
    ensures var h := OnRequestPost(env, now, Failure(m), reply);
            && h == Handled(ErrorResponse(m), true, None)
            && h.response.body.error == (if m != "" then m else UNKNOWN_ERROR_MESSAGE)
  {
  }

  /** Wherever the call's outcome throws with an empty message (a rejected
      fetch, an unparsable ok or non-ok body), the fixed text is sent instead. */
  lemma EmptyThrownMessageFallsBack(statusText: string)
    ensures ReplyResponse(FetchRejected("")).body == ErrorJson(UNKNOWN_ERROR_MESSAGE)
    ensures ReplyResponse(Ok(Failure(""))).body == ErrorJson(UNKNOWN_ERROR_MESSAGE)
    ensures ReplyResponse(NotOk(statusText, Failure(""))).body == ErrorJson(UNKNOWN_ERROR_MESSAGE)
  {
  }

  /** One scenario end to end: in the second interval after the epoch, with
      slot 2 set, a message "hi" is sent with the bearer token of slot 2 and the
      service's text comes back with status 200. */
  lemma SecondIntervalScenario()
    ensures var env := map["GEMINI_API_KEY2" := "key-two"];
            var now := EPOCH_MS + ROTATION_INTERVAL_MS + 5;
            var req := ChatRequest(Some("hi"), Config(Some("You are a bot.")));
            var data := ReplyData(Some([Candidate(Some(CandidateContent(Some([ReplyPart(Some("hello"))]))))]));
            var h := OnRequestPost(env, now, Success(req), Ok(Success(data)));
            && h.call.Some? && h.call.value.authorization == "Bearer key-two"
            && |h.call.value.body.contents| == 1
            && h.response == HttpResponse(200, JSON_CONTENT_TYPE, ReplyJson(Some("hello")))
  {
    var now := EPOCH_MS + ROTATION_INTERVAL_MS + 5;
    IntervalNumberOfBucket(now, 1);
    assert KeyName(now) == "GEMINI_API_KEY2";
  }
}
