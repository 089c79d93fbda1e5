/**
  The chat relay behind `POST /api/chat`. A request is handled once, with no
  state kept. The parsed body, which API keys are set and what the upstream
  service answers are all inputs, so the relay is a function from those to
  the upstream call it makes (if any) and the HTTP response it sends.
*/
module ChatRoute {
  import opened Wrappers
  import opened JsString
  import opened Http
  import opened ChatTypes

  const OPENAI_MODEL: JsStr := Lit("gpt-3.5-turbo")
  const DEFAULT_ZHIPU_MODEL: JsStr := Lit("glm-4")
  const ZHIPU_ENDPOINT: JsStr := Lit("https://open.bigmodel.cn") + Lit("/api/paas/v4/chat/completions")
  const ZHIPU_MAX_TOKENS: nat := 1500
  /** The text sent when OpenAI gives no usable content. */
  const OPENAI_FALLBACK: JsStr := Lit("Sorry, I could not process that.")
  /** The text the Zhipu error message falls back to when the error body has none. */
  const UNKNOWN_ERROR: JsStr := Lit("Unknown error")
  /** The one error text every failed request gets. */
  const FAILURE_TEXT: JsStr := Lit("Failed to process message")

  // ---------------------------------------------------------------- inputs

  /** One property of a parsed JSON object, as destructuring sees it:
      `undefined`, a string, or any other JSON value (null, number, object, ...). */
  datatype Field = Absent | Text(s: JsStr) | NonText

  /** The result of `request.json()` destructured into `{ message, provider, model }`.
      `Unreadable` is a body that is not JSON, or `null`, so that reading it throws. */
  datatype RequestBody = Unreadable | Body(message: Field, provider: Field, model: Field)

  /** `OPENAI_API_KEY` and `ZHIPU_API_KEY` as the environment holds them. */
  datatype ApiKeys = ApiKeys(openAi: Option<JsStr>, zhipu: Option<JsStr>)

  /** One OpenAI choice; `content` is `None` when the choice has no message or its content is null. */
  datatype OpenAIChoice = OpenAIChoice(content: Option<JsStr>)

  /** What `openai.chat.completions.create` does: throw, or return the choices. */
  datatype OpenAIOutcome = OpenAIThrew | OpenAICompleted(choices: seq<OpenAIChoice>)

  /** One Zhipu choice; `content` is `None` when the choice has no `message`. */
  datatype ZhipuChoice = ZhipuChoice(content: Option<JsStr>)

  /** What `response.json()` yields on a Zhipu response: it throws, or an object
      whose `choices` may be missing and whose `error.message` may be missing. */
  datatype ZhipuJson = ZhipuUnreadable | ZhipuObject(choices: Option<seq<ZhipuChoice>>, errorMessage: Option<JsStr>)

  /** What `fetch` to the Zhipu endpoint does: throw, or answer with a status and a body. */
  datatype ZhipuOutcome = ZhipuThrew | ZhipuResponded(status: int, json: ZhipuJson)

  /** What each upstream service would do if it were called for this request. */
  datatype Upstream = Upstream(openAi: OpenAIOutcome, zhipu: ZhipuOutcome)

  // --------------------------------------------------------------- outputs

  /** The call the relay makes to an upstream service. */
  datatype UpstreamCall =
    | OpenAICall(apiKey: JsStr, modelName: JsStr, content: Field)
    | ZhipuCall(endpoint: JsStr, authorization: JsStr, model: Field, content: Field, maxTokens: nat)

  /** Why a request failed; this stays on the server (in the log). */
  datatype Failure =
    | BadRequest
    | MissingKey(variable: JsStr)
    | UnsupportedProvider(provider: Field)
    | UpstreamError
    | ProviderError(detail: JsStr)

  /** A handler's run: the upstream call it made, if any, and what it returned or threw. */
  datatype Handled = Handled(call: Option<UpstreamCall>, result: Result<ChatResponse, Failure>)

  datatype HttpBody = Reply(response: ChatResponse) | ErrorBody(error: JsStr)

  datatype HttpResponse = HttpResponse(status: int, body: HttpBody)

  /** A whole request: the upstream call it caused, if any, and the response sent back. */
  datatype Exchange = Exchange(call: Option<UpstreamCall>, response: HttpResponse)

  /** The response of every failed request. */
  const FAILURE_RESPONSE: HttpResponse := HttpResponse(STATUS_INTERNAL_SERVER_ERROR, ErrorBody(FAILURE_TEXT))

  // ------------------------------------------------------------ operations

  /** `!process.env.X` is false: the variable is set and not empty. */
  predicate KeySet(key: Option<JsStr>) {
    key.Some? && key.value != []
  }

  /** `getOpenAIClient`: the key the client is built with, or the error it throws. */
  function GetOpenAIClient(keys: ApiKeys): (r: Result<JsStr, Failure>)
    ensures r.Success? <==> KeySet(keys.openAi)
    ensures r.Success? ==> r.value == keys.openAi.value && r.value != []
    ensures r.Failure? ==> r.error == MissingKey(Lit("OPENAI_API_KEY"))
  {
    if !KeySet(keys.openAi) then Failure(MissingKey(Lit("OPENAI_API_KEY")))
    else Success(keys.openAi.value)
  }

  /** `choices[0]?.message?.content || fallback`: the first choice's content when it is a
      non-empty string, and the fallback text otherwise. The reply is never empty. */
  function FirstContent(choices: seq<OpenAIChoice>): (text: JsStr)
    ensures text != []
    ensures text == OPENAI_FALLBACK || (|choices| > 0 && choices[0].content == Some(text))
  {
    if |choices| > 0 && choices[0].content.Some? && choices[0].content.value != [] then
      choices[0].content.value
    else
      OPENAI_FALLBACK
  }

  /** `handleOpenAI`: without a key it fails before calling out; otherwise it calls the
      fixed model with the message, and replies with the first content or the fallback. */
  function HandleOpenAI(message: Field, keys: ApiKeys, outcome: OpenAIOutcome): (h: Handled)
    ensures h.call.Some? <==> KeySet(keys.openAi)
    ensures h.call.Some? ==> h.call.value == OpenAICall(keys.openAi.value, OPENAI_MODEL, message)
    ensures h.result.Success? <==> KeySet(keys.openAi) && outcome.OpenAICompleted?
    ensures h.result.Success? ==> h.result.value == ChatResponse(FirstContent(outcome.choices), None)
  {
    match GetOpenAIClient(keys)
    case Failure(e) => Handled(None, Failure(e))
    case Success(apiKey) =>
      var call := OpenAICall(apiKey, OPENAI_MODEL, message);
      match outcome
      case OpenAIThrew => Handled(Some(call), Failure(UpstreamError))
      case OpenAICompleted(choices) => Handled(Some(call), Success(ChatResponse(FirstContent(choices), None)))
  }

  /** The model `handleZhipu` sends: its `model = 'glm-4'` default applies only to `undefined`. */
  function ZhipuModelField(model: Field): (m: Field)
    ensures m != Absent
    ensures model != Absent ==> m == model
    ensures model == Absent ==> m == Text(DEFAULT_ZHIPU_MODEL)
  {
    if model.Absent? then Text(DEFAULT_ZHIPU_MODEL) else model
  }

  /** The text of the error `handleZhipu` throws for a non-ok status. */
  function ZhipuErrorDetail(json: ZhipuJson): (r: Result<JsStr, Failure>)
    ensures r.Success? <==> json.ZhipuObject?
    ensures r.Success? ==> r.value == (if json.errorMessage.Some? && json.errorMessage.value != []
                                       then json.errorMessage.value else UNKNOWN_ERROR)
  {
    match json
    case ZhipuUnreadable => Failure(UpstreamError)
    case ZhipuObject(_, errorMessage) =>
      Success(if errorMessage.Some? && errorMessage.value != [] then errorMessage.value else UNKNOWN_ERROR)
  }

  /** `data.choices[0].message.content` on an ok Zhipu response; each missing step throws. */
  function ZhipuReply(json: ZhipuJson): (r: Result<JsStr, Failure>)
    ensures r.Success? <==> json.ZhipuObject? && json.choices.Some? && |json.choices.value| > 0
                            && json.choices.value[0].content.Some?
    ensures r.Success? ==> Some(r.value) == json.choices.value[0].content
  {
    match json
    case ZhipuUnreadable => Failure(UpstreamError)
    case ZhipuObject(choices, _) =>
      if choices.None? || |choices.value| == 0 || choices.value[0].content.None? then Failure(UpstreamError)
      else Success(choices.value[0].content.value)
  }

  /** `handleZhipu`: without a key it fails before calling out; otherwise it posts the message
      with the requested model (or `glm-4`) and the bearer key, fails on a non-ok status, and
      replies with the first choice's content. */
  function HandleZhipu(message: Field, model: Field, keys: ApiKeys, outcome: ZhipuOutcome): (h: Handled)
    ensures h.call.Some? <==> KeySet(keys.zhipu)
    ensures h.call.Some? ==> h.call.value == ZhipuCall(ZHIPU_ENDPOINT, Lit("Bearer ") + keys.zhipu.value,
                                                       ZhipuModelField(model), message, ZHIPU_MAX_TOKENS)
    ensures h.result.Success? <==> KeySet(keys.zhipu) && outcome.ZhipuResponded? && IsOkStatus(outcome.status)
                                   && ZhipuReply(outcome.json).Success?
    ensures h.result.Success? ==> h.result.value == ChatResponse(ZhipuReply(outcome.json).value, None)
    ensures (KeySet(keys.zhipu) && outcome.ZhipuResponded? && !IsOkStatus(outcome.status) && outcome.json.ZhipuObject?)
            ==> h.result == Failure(ProviderError(ZhipuErrorDetail(outcome.json).value))
    ensures (KeySet(keys.zhipu) && outcome.ZhipuResponded? && !IsOkStatus(outcome.status) && outcome.json.ZhipuUnreadable?)
            ==> h.result == Failure(UpstreamError)
  {
    if !KeySet(keys.zhipu) then
      Handled(None, Failure(MissingKey(Lit("ZHIPU_API_KEY"))))
    else
      var call := ZhipuCall(ZHIPU_ENDPOINT, Lit("Bearer ") + keys.zhipu.value,
                            ZhipuModelField(model), message, ZHIPU_MAX_TOKENS);
      match outcome
      case ZhipuThrew => Handled(Some(call), Failure(UpstreamError))
      case ZhipuResponded(status, json) =>
        if !IsOkStatus(status) then
          match ZhipuErrorDetail(json)
          case Failure(e) => Handled(Some(call), Failure(e))
          case Success(detail) => Handled(Some(call), Failure(ProviderError(detail)))
        else
          match ZhipuReply(json)
          case Failure(e) => Handled(Some(call), Failure(e))
          case Success(text) => Handled(Some(call), Success(ChatResponse(text, None)))
  }

  /** The `switch (provider)` with the `provider = 'openai'` default: `undefined` and
      "openai" select OpenAI, "zhipu" selects Zhipu, and every other value none. */
  function SelectProvider(provider: Field): (p: Option<ChatProvider>)
    ensures p == Some(OpenAI) <==> provider == Absent || provider == Text(OPENAI_NAME)
    ensures p == Some(Zhipu) <==> provider == Text(ZHIPU_NAME)
  {
    var name := if provider.Absent? then Text(OPENAI_NAME) else provider;
    if name == Text(OPENAI_NAME) then Some(OpenAI)
    else if name == Text(ZHIPU_NAME) then Some(Zhipu)
    else None
  }

  /** The body of the `try` in `POST`: read the body, pick the handler and run it. */
  function Dispatch(body: RequestBody, keys: ApiKeys, upstream: Upstream): (h: Handled)
    ensures h.call.Some? ==> body.Body? && SelectProvider(body.provider).Some?
    ensures body.Unreadable? ==> h == Handled(None, Failure(BadRequest))
    ensures body.Body? && SelectProvider(body.provider).None? ==>
              h == Handled(None, Failure(UnsupportedProvider(body.provider)))
    ensures body.Body? && SelectProvider(body.provider) == Some(OpenAI) ==>
              h == HandleOpenAI(body.message, keys, upstream.openAi)
    ensures body.Body? && SelectProvider(body.provider) == Some(Zhipu) ==>
              h == HandleZhipu(body.message, body.model, keys, upstream.zhipu)
  {
    match body
    case Unreadable => Handled(None, Failure(BadRequest))
    case Body(message, provider, model) =>
      match SelectProvider(provider)
      case None => Handled(None, Failure(UnsupportedProvider(provider)))
      case Some(OpenAI) => HandleOpenAI(message, keys, upstream.openAi)
      case Some(Zhipu) => HandleZhipu(message, model, keys, upstream.zhipu)
  }

  /** `POST /api/chat`: a handler's reply goes back as `{ message }` with the default status;
      anything thrown anywhere becomes the one generic 500 response. */
  function Post(body: RequestBody, keys: ApiKeys, upstream: Upstream): (x: Exchange)
    ensures x.response.status == STATUS_OK || x.response.status == STATUS_INTERNAL_SERVER_ERROR
    ensures IsOkStatus(x.response.status) <==> x.response.body.Reply?
    ensures x.response.body.ErrorBody? ==> x.response == FAILURE_RESPONSE
    ensures x.response.body.Reply? ==> x.response.body.response.error.None? && x.call.Some?
    ensures x.call == Dispatch(body, keys, upstream).call
    ensures x.response.body.Reply? <==> Dispatch(body, keys, upstream).result.Success?
    ensures x.response.body.Reply? ==> x.response.body.response == Dispatch(body, keys, upstream).result.value
  {
    var h := Dispatch(body, keys, upstream);
    match h.result
    case Success(response) => Exchange(h.call, HttpResponse(STATUS_OK, Reply(response)))
    case Failure(_) => Exchange(h.call, FAILURE_RESPONSE)
  }

  // ------------------------------------------------------------ properties

  /** A missing `provider` behaves as "openai", and the OpenAI path never looks at `model`. */
  lemma ProviderDefaultsToOpenAI(message: Field, model: Field, model': Field, keys: ApiKeys, upstream: Upstream)
    ensures Post(Body(message, Absent, model), keys, upstream)
         == Post(Body(message, Text(OPENAI_NAME), model'), keys, upstream)
  {
  }

  /** Any provider value other than a missing one, "openai" or "zhipu" gets the generic 500 and calls nothing. */
  lemma UnsupportedProviderFails(message: Field, provider: Field, model: Field, keys: ApiKeys, upstream: Upstream)
    requires provider != Absent && provider != Text(OPENAI_NAME) && provider != Text(ZHIPU_NAME)
    ensures Post(Body(message, provider, model), keys, upstream) == Exchange(None, FAILURE_RESPONSE)
  {
  }

  /** A missing key for the selected provider gets the generic 500 and calls nothing. */
  lemma MissingKeyFails(message: Field, provider: Field, model: Field, keys: ApiKeys, upstream: Upstream)
    requires SelectProvider(provider) == Some(OpenAI) ==> !KeySet(keys.openAi)
    requires SelectProvider(provider) == Some(Zhipu) ==> !KeySet(keys.zhipu)
    ensures Post(Body(message, provider, model), keys, upstream) == Exchange(None, FAILURE_RESPONSE)
  {
  }

  /** With its key set, OpenAI is called with `gpt-3.5-turbo` and the message, and a completion
      is answered with status 200 and the first choice's content, or the fallback text. */
  lemma OpenAIReplies(message: Field, model: Field, keys: ApiKeys, choices: seq<OpenAIChoice>, zhipu: ZhipuOutcome)
    requires KeySet(keys.openAi)
    ensures var x := Post(Body(message, Text(OPENAI_NAME), model), keys, Upstream(OpenAICompleted(choices), zhipu));
            && x.call == Some(OpenAICall(keys.openAi.value, OPENAI_MODEL, message))
            && x.response == HttpResponse(STATUS_OK, Reply(ChatResponse(FirstContent(choices), None)))
  {
  }

  /** With its key set, an OpenAI call that throws gets the generic 500. */
  lemma OpenAIThrowFails(message: Field, model: Field, keys: ApiKeys, zhipu: ZhipuOutcome)
    requires KeySet(keys.openAi)
    ensures var x := Post(Body(message, Text(OPENAI_NAME), model), keys, Upstream(OpenAIThrew, zhipu));
            && x.call == Some(OpenAICall(keys.openAi.value, OPENAI_MODEL, message))
            && x.response == FAILURE_RESPONSE
  {
  }

  /** The OpenAI reply is the first choice's content exactly when that is a non-empty string. */
  lemma OpenAIFallback(choices: seq<OpenAIChoice>)
    ensures FirstContent(choices) == OPENAI_FALLBACK <==>
              (|choices| == 0 || choices[0].content.None? || choices[0].content == Some([])
               || choices[0].content == Some(OPENAI_FALLBACK))
  {
  }

  /** The Zhipu call carries the request's `model`, or `glm-4` when the field is absent. */
  lemma ZhipuModelDefault(message: Field, model: Field, keys: ApiKeys, upstream: Upstream)
    requires KeySet(keys.zhipu)
    ensures var x := Post(Body(message, Text(ZHIPU_NAME), model), keys, upstream);
            && x.call.Some? && x.call.value.ZhipuCall?
            && x.call.value.model == (if model == Absent then Text(DEFAULT_ZHIPU_MODEL) else model)
            && x.call.value.content == message
  {
  }

  /** A thrown fetch, a non-ok Zhipu status, or an ok body without a first choice's message
      all get the generic 500. */
  lemma ZhipuFailures(message: Field, model: Field, keys: ApiKeys, upstream: Upstream)
    requires upstream.zhipu.ZhipuThrew?
          || (upstream.zhipu.ZhipuResponded? && !IsOkStatus(upstream.zhipu.status))
          || (upstream.zhipu.ZhipuResponded? && ZhipuReply(upstream.zhipu.json).Failure?)
    ensures Post(Body(message, Text(ZHIPU_NAME), model), keys, upstream).response == FAILURE_RESPONSE
  {
  }

  /** With its key set, an ok Zhipu response whose first choice has a message is answered with
      status 200 and that message's content, as it is (even when empty). */
  lemma ZhipuReplies(message: Field, model: Field, keys: ApiKeys, openAi: OpenAIOutcome, status: int,
                     text: JsStr, rest: seq<ZhipuChoice>, errorMessage: Option<JsStr>)
    requires KeySet(keys.zhipu) && IsOkStatus(status)
    ensures var json := ZhipuObject(Some([ZhipuChoice(Some(text))] + rest), errorMessage);
            Post(Body(message, Text(ZHIPU_NAME), model), keys, Upstream(openAi, ZhipuResponded(status, json))).response
            == HttpResponse(STATUS_OK, Reply(ChatResponse(text, None)))
  {
  }

  /** Every failure looks the same to the caller, whatever its cause. */
  lemma FailuresIndistinguishable(b1: RequestBody, k1: ApiKeys, u1: Upstream, b2: RequestBody, k2: ApiKeys, u2: Upstream)
    requires !IsOkStatus(Post(b1, k1, u1).response.status) && !IsOkStatus(Post(b2, k2, u2).response.status)
    ensures Post(b1, k1, u1).response == Post(b2, k2, u2).response
  {
  }

  /** The response depends on whether each key is set, never on its value. */
  lemma KeysNotLeaked(body: RequestBody, k1: ApiKeys, k2: ApiKeys, upstream: Upstream)
    requires KeySet(k1.openAi) == KeySet(k2.openAi) && KeySet(k1.zhipu) == KeySet(k2.zhipu)
    ensures Post(body, k1, upstream).response == Post(body, k2, upstream).response
  {
  }
}
