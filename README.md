# Chat relay and chat widget, modelled in Dafny

The repository is a portfolio site with one working feature: a chat widget
(`components/AiChat.tsx`) that posts the user's message to a server route
(`app/api/chat/route.ts`), which forwards it to OpenAI or to Zhipu AI and
returns the reply in one uniform envelope. This project models those two
pieces and proves what they promise.

- **The relay** (`chat_route.dfy`, module `ChatRoute`) is a pure function
  `Post(body, keys, upstream)`. Its inputs are the destructured JSON body, the
  two API keys as the environment holds them, and what each upstream service
  would do if called. It returns the upstream call it makes (if any) and the
  HTTP response. `provider` defaults to `"openai"`. Any other value than
  `"openai"` or `"zhipu"` fails. A missing key fails before any upstream call.
  An empty OpenAI content becomes `"Sorry, I could not process that."`. The
  Zhipu model defaults to `glm-4`, and a non-ok Zhipu status fails. Every
  failure becomes status 500 (section 15.6.1 of RFC 9110) with
  `{ error: "Failed to process message" }`. A success is `{ message }` with
  the default status 200 (section 15.3.1 of RFC 9110).
- **The widget** (`ai_chat.dfy`, module `AiChat`) is a class `ChatWidget`
  with the component's five state fields. `handleSubmit` is split at its
  `await` into `Submit`, which returns the request or nothing, and `Complete`,
  which takes the fetch outcome. Its invariant is that the history alternates
  user and assistant messages, and that it ends with an unanswered user
  message exactly while `isLoading` holds.
- **Strings** (`js_string.dfy`) are sequences of UTF-16 code units, because
  `input.length` counts those. `String.prototype.trim` is modelled by the
  white space and line terminators of ECMA-262 (sections 12.2 and 12.3).
- **Glue** (`chat_exchange.dfy`) maps the widget's request to the body the
  relay reads and the relay's response to what the widget's `fetch` sees. It
  also states whole conversations as verified scenario methods.
- `chat_types.dfy` holds the shared types, `http.dfy` the status codes and
  the Fetch Standard's "ok status" (200 to 299), and `wrappers.dfy` holds
  `Option` and `Result`.

Three behaviours of the code worth noting:

- A key set to the empty string counts as missing, because the code tests
  `!process.env.X`.
- The `model` default `glm-4` applies only when the field is `undefined`. A
  `null` or other non-string `model` is forwarded to Zhipu as it is.
- The Zhipu error message (`error.message` or `"Unknown error"`) goes only
  into the thrown error. It never reaches the response.

## Model

The predicates `AiChat.IsOverLimit`, `ChatRoute.KeySet` and `Http.IsOkStatus` transcribe
`charCount > MAX_CHARS`, `!process.env.X` and `response.ok`. What they mean is stated by
the rows of the members that use them: `AiChat.LimitIsInclusive` and `AiChat.GuardTrimsInput`
for the limit, `ChatRoute.GetOpenAIClient`, `ChatRoute.MissingKeyFails` and
`ChatRoute.KeysNotLeaked` for the keys, and `AiChat.ReplyContent`, `ChatRoute.HandleZhipu` and
`ChatRoute.ZhipuFailures` for the ok status.

| member | source | states |
|---|---|---|
| `JsString.TrimStart` | components/AiChat.tsx:30 | the result is a suffix of the input, everything dropped is white space, and it does not start with white space |
| `JsString.TrimEnd` | components/AiChat.tsx:30 | the result is a prefix of the input, everything dropped is white space, and it does not end with white space |
| `JsString.Trim` | components/AiChat.tsx:30 | `s.trim()` is the contiguous middle part of `s` left after dropping white space on both sides; it is empty exactly when every code unit of `s` is white space or a line terminator, and otherwise it neither starts nor ends with one |
| `ChatTypes.ProviderName` | types/chat.ts:1 | the wire name is "openai" exactly for OpenAI and "zhipu" exactly for Zhipu |
| `ChatTypes.ModelName` | types/chat.ts:2 | every Zhipu model has a non-empty wire name |
| `ChatTypes.ModelNameInjective` | components/AiChat.tsx:85-89 | distinct Zhipu models are sent as distinct strings |
| `ChatRoute.GetOpenAIClient` | app/api/chat/route.ts:5-12 | the client is built exactly when `OPENAI_API_KEY` is set and non-empty; otherwise a missing-key error is thrown |
| `ChatRoute.FirstContent` | app/api/chat/route.ts:22-24 | the reply is never empty; it is the first choice's content or the fallback text |
| `ChatRoute.OpenAIFallback` | app/api/chat/route.ts:23 | the fallback is used exactly when there is no choice or its content is null, undefined or empty (or is the fallback text itself) |
| `ChatRoute.HandleOpenAI` | app/api/chat/route.ts:14-29 | an upstream call happens exactly when the key is set; it always carries the client's key, `gpt-3.5-turbo` and the message; success exactly on a completion, with the first content or the fallback |
| `ChatRoute.ZhipuModelField` | app/api/chat/route.ts:31 | the model sent is never absent: a supplied model is sent unchanged, and an absent one becomes `glm-4` |
| `ChatRoute.ZhipuErrorDetail` | app/api/chat/route.ts:52-56 | a readable error body's `error.message` (or "Unknown error") is the thrown detail; an unreadable body throws |
| `ChatRoute.ZhipuReply` | app/api/chat/route.ts:58-59 | the reply exists exactly when the body is readable and has a first choice with a message, and then it is that content |
| `ChatRoute.HandleZhipu` | app/api/chat/route.ts:31-64 | a call happens exactly when the key is set, with the bearer key, the model or `glm-4`, the message and 1500 max tokens; success exactly on an ok status with a first choice that has a `message`; a non-ok status with a readable error body throws the provider error, and one with an unreadable body fails with the upstream error |
| `ChatRoute.SelectProvider` | app/api/chat/route.ts:68-81 | OpenAI exactly for an absent provider or "openai", Zhipu exactly for "zhipu", no handler otherwise |
| `ChatRoute.Dispatch` | app/api/chat/route.ts:67-81 | an unreadable body or an unsupported provider fails without any upstream call; a body selecting OpenAI is handled exactly by `HandleOpenAI`, and one selecting Zhipu exactly by `HandleZhipu` with the request's `model` |
| `ChatRoute.Post` | app/api/chat/route.ts:66-91 | the upstream call is the handler's; the response is a reply exactly when the handler succeeded, and then it is 200 with the handler's `{ message }` and no `error`; otherwise it is the generic 500 response |
| `ChatRoute.ProviderDefaultsToOpenAI` | app/api/chat/route.ts:68-75 | a request without `provider` is handled exactly as "openai", whatever its `model` |
| `ChatRoute.UnsupportedProviderFails` | app/api/chat/route.ts:72-89 | any other provider value gives the generic 500 and calls nothing |
| `ChatRoute.MissingKeyFails` | app/api/chat/route.ts:5-34 | a missing key for the selected provider gives the generic 500 and calls nothing |
| `ChatRoute.OpenAIReplies` | app/api/chat/route.ts:14-24 | with its key set and when OpenAI completes, OpenAI is called with the key, `gpt-3.5-turbo` and the message, and the response is 200 with the first content or the fallback |
| `ChatRoute.OpenAIThrowFails` | app/api/chat/route.ts:17-27 | with its key set, an OpenAI call that throws is made with the key, `gpt-3.5-turbo` and the message, and the response is the generic 500 |
| `ChatRoute.ZhipuModelDefault` | app/api/chat/route.ts:31-45 | the Zhipu call carries the request's `model`, or `glm-4` when it is absent, and the message |
| `ChatRoute.ZhipuFailures` | app/api/chat/route.ts:52-62 | a thrown fetch, a non-ok status or an ok body without a first choice's message gives the generic 500 |
| `ChatRoute.ZhipuReplies` | app/api/chat/route.ts:58-59 | with its key set, an ok Zhipu response whose first choice has a message gets 200 with `{ message }` holding that content unchanged |
| `ChatRoute.FailuresIndistinguishable` | app/api/chat/route.ts:84-90 | any two failed requests get identical responses, whatever the cause |
| `ChatRoute.KeysNotLeaked` | app/api/chat/route.ts:84-90 | the response depends only on whether each key is set, never on its value |
| `AiChat.SubmitAllowed` | components/AiChat.tsx:16-30 | an accepted input is non-empty, within the limit, and no request is in flight |
| `AiChat.GuardTrimsInput` | components/AiChat.tsx:30 | the guard passes exactly when `input.trim()` is non-empty, nothing is loading and the length is at most 2000 |
| `AiChat.LimitIsInclusive` | components/AiChat.tsx:6-17 | a non-blank input of exactly 2000 code units is accepted, and one of 2001 is refused |
| `AiChat.RequestFor` | components/AiChat.tsx:41-45 | the request carries the untrimmed input and the provider, and a model exactly when the provider is Zhipu, and then the selected one |
| `AiChat.ReplyContent` | components/AiChat.tsx:48-59 | the assistant text is the relay's message on an ok status, and the fixed error text on a non-ok status or a throw |
| `AiChat.TurnCounts` | components/AiChat.tsx:32-62 | in an alternating history the user messages number the assistant messages, plus one while a question is open |
| `AiChat.InFlightIsUnanswered` | components/AiChat.tsx:35-61 | `isLoading` holds exactly when one user message is unanswered, and is false exactly when all are answered |
| `AiChat.ChatWidget.constructor` | components/AiChat.tsx:9-13 | the initial state is an empty history, empty input, not loading, OpenAI and `glm-4` |
| `AiChat.ChatWidget.SetInput` | components/AiChat.tsx:156 | the input becomes the typed text and nothing else changes |
| `AiChat.ChatWidget.SetProvider` | components/AiChat.tsx:72 | the provider changes and the history does not |
| `AiChat.ChatWidget.SetZhipuModel` | components/AiChat.tsx:82 | the Zhipu model changes and the history does not |
| `AiChat.ChatWidget.Submit` | components/AiChat.tsx:28-46 | a request is produced exactly when the guard passes; a refused submit changes nothing; an accepted one appends one user message with the untrimmed input to the unchanged history, clears the input, sets loading and returns the request for the current selection |
| `AiChat.ChatWidget.Complete` | components/AiChat.tsx:47-62 | exactly one assistant message is appended after the unchanged history (the reply or the error text), and loading is cleared |
| `ChatExchange.WireBody` | components/AiChat.tsx:38-46 | the relay reads the widget's message, selects the widget's provider, and sees the model exactly when the widget sent one |
| `ChatExchange.Delivered` | components/AiChat.tsx:48-53 | the widget sees the relay's status, and the reply's message when there is one |
| `ChatExchange.UpstreamGetsSelection` | app/api/chat/route.ts:72-78 | OpenAI is called with its key and `gpt-3.5-turbo`, and Zhipu with the widget's selected model, both with the untrimmed input |
| `ChatExchange.WidgetShowsRelayReply` | components/AiChat.tsx:48-59 | the widget shows the relay's reply when there is one and the error text otherwise |
| `ChatExchange.OpenAIConversation` | components/AiChat.tsx:28-63 | a message that OpenAI answers gets a 200 reply, and the history becomes the question and the answer |
| `ChatExchange.ZhipuHiUsesGlm4` | app/api/chat/route.ts:31-44 | "Hi" to Zhipu with no model is sent upstream with model `glm-4` |
| `ChatExchange.FailedCallKeepsQuestion` | components/AiChat.tsx:54-62 | a failed relay call keeps the user message, adds the error text after it and leaves the widget ready |
| `ChatExchange.SecondSubmitBlocked` | components/AiChat.tsx:30-35 | while a request is in flight a second submit sends nothing and leaves the history alone |

## Left out

- `components/About.tsx` and `components/Hero.tsx`: static markup with no logic.
- JSX rendering, styling, the `disabled` attributes and auto-scroll (`scrollToBottom`, `useEffect`). These are UI concerns; the disabled button only repeats the submit guard.
- `fetch`, the OpenAI SDK, `request.json()` and `response.json()` are not modelled, and `JSON.stringify` is modelled only as the round trip of the widget's request in `ChatExchange.WireBody`. The other results are input datatypes (`RequestBody`, `OpenAIOutcome`, `ZhipuOutcome`, `FetchOutcome`). A JSON body that is a number, a string, a boolean or an array destructures to three absent fields and is given as `Body(Absent, Absent, Absent)`.
- `temperature` and `top_p` (0.7): floating-point values that are only passed through. `max_tokens = 1500` is kept.
- The request headers (`Content-Type`) and the HTTP method: fixed values with no effect on the logic.
- `console.error` logging: it has no effect on any result.
- Reading environment variables: the keys are the parameter `ApiKeys`.
- React's asynchronous, batched state updates and the closure capture of `input`: `handleSubmit` is modelled as two sequential steps.
- Zhipu reply content that is not a string: Zhipu's API gives a string when a choice has a message, so `ZhipuChoice` holds a string or nothing.
- An ok relay response without a `message` field: the relay never sends one, so `FetchOutcome` carries the message as a string.
- `AiChat.ChatWidget.Complete` requires `isLoading`: in the source it is only reached after an accepted submit, which set the flag.
- `AiChat.SubmitAllowed`: its own contract states only what an accepted input satisfies. The full equivalence with `input.trim()` is `AiChat.GuardTrimsInput`.
