/**
  The chat widget's state and its submit handler. The handler awaits the relay
  once, so it is modelled as two steps: `Submit` runs up to the request and
  returns it, and `Complete` runs on the outcome of that request.
*/
module AiChat {
  import opened Wrappers
  import opened JsString
  import opened Http
  import opened ChatTypes

  /** The most code units an input may have and still be sent. */
  const MAX_CHARS: nat := 2000

  /** The assistant's message when the relay cannot be reached or answers with an error. */
  const ERROR_REPLY: JsStr := Lit("Sorry, I encountered an error.") + Lit(" Please try again.")

  /** The JSON body the widget posts to the relay; `model` is left out unless the provider is Zhipu. */
  datatype ChatRequest = ChatRequest(message: JsStr, provider: ChatProvider, model: Option<ZhipuModel>)

  /** How the `fetch` to the relay ends: a response with its status and the `message` of its
      JSON body, or a throw (no connection, or a body that is not JSON). */
  datatype FetchOutcome = Responded(status: int, message: JsStr) | Thrown

  /** `isOverLimit`: the input is longer than `MAX_CHARS` code units. */
  predicate IsOverLimit(input: JsStr) {
    |input| > MAX_CHARS
  }

  /** The guard at the head of `handleSubmit`, with `!input.trim()` read as "the input is
      blank" (see `GuardTrimsInput`). An accepted input is never empty. */
  function SubmitAllowed(input: JsStr, isLoading: bool): (ok: bool)
    ensures ok ==> input != [] && !isLoading && |input| <= MAX_CHARS
  {
    !(IsBlank(input) || isLoading || IsOverLimit(input))
  }

  /** The guard lets a submit through exactly when the trimmed input is not empty, no request
      is in flight, and the input has at most `MAX_CHARS` code units. */
  lemma GuardTrimsInput(input: JsStr, isLoading: bool)
    ensures SubmitAllowed(input, isLoading) <==> Trim(input) != [] && !isLoading && |input| <= MAX_CHARS
  {
  }

  /** The limit is inclusive: a non-blank input of exactly `MAX_CHARS` code units is sent,
      one unit more is not. */
  lemma LimitIsInclusive(input: JsStr, extra: CodeUnit)
    requires |input| == MAX_CHARS && !IsBlank(input)
    ensures SubmitAllowed(input, false)
    ensures !SubmitAllowed(input + [extra], false)
  {
  }

  /** The request built from the untrimmed input and the current selection. */
  function RequestFor(input: JsStr, provider: ChatProvider, zhipuModel: ZhipuModel): (req: ChatRequest)
    ensures req.message == input && req.provider == provider
    ensures req.model.Some? <==> provider == Zhipu
    ensures req.model.Some? ==> req.model.value == zhipuModel
  {
    ChatRequest(input, provider, if provider == Zhipu then Some(zhipuModel) else None)
  }

  /** The assistant's text for an outcome: the relay's message on an ok status, else the error reply. */
  function ReplyContent(outcome: FetchOutcome): (content: JsStr)
    ensures outcome.Responded? && IsOkStatus(outcome.status) ==> content == outcome.message
    ensures !(outcome.Responded? && IsOkStatus(outcome.status)) ==> content == ERROR_REPLY
  {
    match outcome
    case Thrown => ERROR_REPLY
    case Responded(status, message) => if IsOkStatus(status) then message else ERROR_REPLY
  }

  /** The role of the i-th message of a history that alternates question and answer. */
  function RoleAt(i: nat): Role {
    if i % 2 == 0 then User else Assistant
  }

  /** Every user message is followed by its answer, and every answer follows a user message. */
  predicate Alternates(h: seq<ChatMessage>) {
    forall i :: 0 <= i < |h| ==> h[i].role == RoleAt(i)
  }

  /** The number of messages in `h` that have role `role`. */
  function CountRole(h: seq<ChatMessage>, role: Role): nat {
    if h == [] then 0
    else CountRole(h[..|h| - 1], role) + (if h[|h| - 1].role == role then 1 else 0)
  }

  /** In an alternating history the answers number the questions, less one while a
      question is still open. */
  lemma {:induction false} TurnCounts(h: seq<ChatMessage>)
    requires Alternates(h)
    ensures CountRole(h, User) == CountRole(h, Assistant) + |h| % 2
  {
    if h != [] {
      var p := h[..|h| - 1];
      assert Alternates(p) by {
        forall i | 0 <= i < |p| ensures p[i].role == RoleAt(i) {
          assert p[i] == h[i];
        }
      }
      TurnCounts(p);
    }
  }

  /** Appending the message whose turn it is keeps a history alternating. */
  lemma AppendAlternates(h: seq<ChatMessage>, m: ChatMessage)
    requires Alternates(h) && m.role == RoleAt(|h|)
    ensures Alternates(h + [m])
  {
  }

  /** A request is in flight exactly when one user message has no answer yet. */
  lemma InFlightIsUnanswered(h: seq<ChatMessage>, isLoading: bool)
    requires Alternates(h) && |h| % 2 == (if isLoading then 1 else 0)
    ensures isLoading <==> CountRole(h, User) == CountRole(h, Assistant) + 1
    ensures !isLoading <==> CountRole(h, User) == CountRole(h, Assistant)
  {
    TurnCounts(h);
  }

  /** The `AiChat` component's state: its five `useState` fields. */
  class ChatWidget {
    var messages: seq<ChatMessage>
    var input: JsStr
    var isLoading: bool
    var provider: ChatProvider
    var zhipuModel: ZhipuModel

    /** The history alternates user and assistant messages, and ends with an
        unanswered user message exactly while a request is in flight. */
    ghost predicate Valid()
      reads this
    {
      Alternates(messages) && |messages| % 2 == (if isLoading then 1 else 0)
    }

    /** The initial state: no messages, no input, not loading, OpenAI, `glm-4`. */
    constructor ()
      ensures Valid()
      ensures messages == [] && input == [] && !isLoading
      ensures provider == OpenAI && zhipuModel == Glm4
    {
      messages := [];
      input := [];
      isLoading := false;
      provider := OpenAI;
      zhipuModel := Glm4;
    }

    /** The text area's `onChange`. */
    method SetInput(text: JsStr)
      requires Valid()
      modifies this`input
      ensures Valid() && input == text
    {
      input := text;
    }

    /** The provider select's `onChange`; the history is left alone. */
    method SetProvider(p: ChatProvider)
      requires Valid()
      modifies this`provider
      ensures Valid() && provider == p
      ensures messages == old(messages)
    {
      provider := p;
    }

    /** The Zhipu model select's `onChange`; the history is left alone. */
    method SetZhipuModel(m: ZhipuModel)
      requires Valid()
      modifies this`zhipuModel
      ensures Valid() && zhipuModel == m
      ensures messages == old(messages)
    {
      zhipuModel := m;
    }

    /** `handleSubmit` up to the `await`. A blank input, a request in flight or an input over
        the limit changes nothing and sends nothing. Otherwise the untrimmed input is appended
        as a user message, the input is cleared, loading is set, and the request is returned. */
    method Submit() returns (request: Option<ChatRequest>)
      requires Valid()
      modifies this`messages, this`input, this`isLoading
      ensures Valid()
      ensures request.Some? <==> SubmitAllowed(old(input), old(isLoading))
      ensures request.None? ==>
                messages == old(messages) && input == old(input) && isLoading == old(isLoading)
      ensures request.Some? ==>
                && messages == old(messages) + [ChatMessage(User, old(input))]
                && input == [] && isLoading
                && request.value == RequestFor(old(input), provider, zhipuModel)
    {
      if !SubmitAllowed(input, isLoading) {
        return None;
      }
      var sent := input;
      AppendAlternates(messages, ChatMessage(User, sent));
      messages := messages + [ChatMessage(User, sent)];
      input := [];
      isLoading := true;
      request := Some(RequestFor(sent, provider, zhipuModel));
    }

    /** `handleSubmit` after the `await`: exactly one assistant message is appended, holding
        the relay's reply or the error text, and loading is cleared in every case. */
    method Complete(outcome: FetchOutcome)
      requires Valid() && isLoading
      modifies this`messages, this`isLoading
      ensures Valid() && !isLoading
      ensures messages == old(messages) + [ChatMessage(Assistant, ReplyContent(outcome))]
    {
      var content: JsStr;
      match outcome {
        case Thrown =>
          content := ERROR_REPLY;
        case Responded(status, message) =>
          if !IsOkStatus(status) {
            content := ERROR_REPLY;
          } else {
            content := message;
          }
      }
      AppendAlternates(messages, ChatMessage(Assistant, content));
      messages := messages + [ChatMessage(Assistant, content)];
      isLoading := false;
    }
  }
}
