/**
  The widget and the relay together: the widget's request as the relay reads
  it, the relay's response as the widget's `fetch` sees it, and whole
  conversations stated as verified scenario methods.
*/
module ChatExchange {
  import opened Wrappers
  import opened JsString
  import opened Http
  import opened ChatTypes
  import opened ChatRoute
  import opened AiChat

  /** The widget's request after `JSON.stringify` and the relay's `request.json()`:
      a `model` of `undefined` is dropped, so the relay sees it as absent. */
  function WireBody(req: ChatRequest): (body: RequestBody)
    ensures body.Body? && body.message == Text(req.message)
    ensures SelectProvider(body.provider) == Some(req.provider)
    ensures body.model == (if req.model.Some? then Text(ModelName(req.model.value)) else Absent)
  {
    Body(Text(req.message), Text(ProviderName(req.provider)),
         match req.model
         case None => Absent
         case Some(m) => Text(ModelName(m)))
  }

  /** The relay's response as the widget's `fetch` sees it. The error body has no `message`;
      the widget reads `message` only from an ok response, so the empty string stands in. */
  function Delivered(r: HttpResponse): (o: FetchOutcome)
    ensures o.Responded? && o.status == r.status
    ensures r.body.Reply? ==> o.message == r.body.response.message
  {
    match r.body
    case Reply(response) => Responded(r.status, response.message)
    case ErrorBody(_) => Responded(r.status, [])
  }

  /** Whatever the widget sends, the relay calls OpenAI with `gpt-3.5-turbo` or Zhipu with
      the model selected in the widget, passing the untrimmed input as the message. */
  lemma UpstreamGetsSelection(input: JsStr, provider: ChatProvider, zhipuModel: ZhipuModel,
                              keys: ApiKeys, upstream: Upstream)
    ensures var x := Post(WireBody(RequestFor(input, provider, zhipuModel)), keys, upstream);
            && (provider == OpenAI && x.call.Some? ==>
                  KeySet(keys.openAi) && x.call.value == OpenAICall(keys.openAi.value, OPENAI_MODEL, Text(input)))
            && (provider == Zhipu && x.call.Some? ==>
                  x.call.value.ZhipuCall? && x.call.value.model == Text(ModelName(zhipuModel))
                  && x.call.value.content == Text(input))
  {
  }

  /** The widget shows the relay's reply when there is one, and the error text otherwise. */
  lemma WidgetShowsRelayReply(req: ChatRequest, keys: ApiKeys, upstream: Upstream)
    ensures var r := Post(WireBody(req), keys, upstream).response;
            ReplyContent(Delivered(r)) == if r.body.Reply? then r.body.response.message else ERROR_REPLY
  {
  }

  /** A message to OpenAI (say "Hello") that OpenAI answers with a non-empty text (say
      "Hi there!"): the relay replies 200 with that text, and the history becomes the
      question followed by the answer. */
  method OpenAIConversation(input: JsStr, reply: JsStr, key: JsStr)
    returns (history: seq<ChatMessage>, response: HttpResponse)
    requires SubmitAllowed(input, false) && reply != [] && key != []
    ensures response == HttpResponse(STATUS_OK, Reply(ChatResponse(reply, None)))
    ensures history == [ChatMessage(User, input), ChatMessage(Assistant, reply)]
  {
    var w := new ChatWidget();
    w.SetInput(input);
    var request := w.Submit();
    var body := WireBody(request.value);
    assert body == Body(Text(input), Text(OPENAI_NAME), Absent);
    OpenAIReplies(Text(input), Absent, ApiKeys(Some(key), None), [OpenAIChoice(Some(reply))], ZhipuThrew);
    var x := Post(body, ApiKeys(Some(key), None), Upstream(OpenAICompleted([OpenAIChoice(Some(reply))]), ZhipuThrew));
    response := x.response;
    w.Complete(Delivered(response));
    history := w.messages;
  }

  /** "Hi" to Zhipu with no `model`: the upstream call carries `glm-4`. */
  lemma ZhipuHiUsesGlm4(upstream: Upstream)
    ensures var x := Post(Body(Text(Lit("Hi")), Text(ZHIPU_NAME), Absent), ApiKeys(None, Some(Lit("zk"))), upstream);
            x.call.Some? && x.call.value.ZhipuCall? && x.call.value.model == Text(Lit("glm-4"))
  {
  }

  /** Without `OPENAI_API_KEY` the relay answers with the generic 500; the widget keeps the
      user's message, adds the error text after it, and is ready for the next message. */
  method FailedCallKeepsQuestion(input: JsStr) returns (history: seq<ChatMessage>, ready: bool)
    requires SubmitAllowed(input, false)
    ensures history == [ChatMessage(User, input), ChatMessage(Assistant, ERROR_REPLY)]
    ensures ready
  {
    var w := new ChatWidget();
    w.SetInput(input);
    var request := w.Submit();
    var body := WireBody(request.value);
    assert body == Body(Text(input), Text(OPENAI_NAME), Absent);
    MissingKeyFails(Text(input), Text(OPENAI_NAME), Absent, ApiKeys(None, None), Upstream(OpenAIThrew, ZhipuThrew));
    var x := Post(body, ApiKeys(None, None), Upstream(OpenAIThrew, ZhipuThrew));
    w.Complete(Delivered(x.response));
    history := w.messages;
    ready := !w.isLoading;
  }

  /** While the first request is in flight a second submit sends nothing and changes nothing. */
  method SecondSubmitBlocked(first: JsStr, second: JsStr) returns (sent: Option<ChatRequest>, blocked: Option<ChatRequest>, history: seq<ChatMessage>)
    requires SubmitAllowed(first, false)
    ensures sent == Some(RequestFor(first, OpenAI, Glm4))
    ensures blocked == None
    ensures history == [ChatMessage(User, first)]
  {
    var w := new ChatWidget();
    w.SetInput(first);
    sent := w.Submit();
    w.SetInput(second);
    blocked := w.Submit();
    history := w.messages;
  }
}
