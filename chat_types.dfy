/** The shared chat types: providers, Zhipu models, messages and the handlers' response. */
module ChatTypes {
  import opened Wrappers
  import opened JsString

  /** `ChatProvider`: the two upstream services the widget can select. */
  datatype ChatProvider = OpenAI | Zhipu

  /** `ZhipuModel`: the models the widget offers for the Zhipu provider. */
  datatype ZhipuModel = Glm4 | Glm4Flash | ChatglmTurbo | ChatglmStd | ChatglmLite

  datatype Role = User | Assistant

  /** `ChatMessage`: one entry of the widget's history. */
  datatype ChatMessage = ChatMessage(role: Role, content: JsStr)

  /** `ChatResponse`: what a provider handler returns; `error` is declared but never set by the relay. */
  datatype ChatResponse = ChatResponse(message: JsStr, error: Option<JsStr>)

  const OPENAI_NAME: JsStr := Lit("openai")
  const ZHIPU_NAME: JsStr := Lit("zhipu")

  /** The string value a provider has on the wire. */
  function ProviderName(p: ChatProvider): (name: JsStr)
    ensures name == OPENAI_NAME <==> p == OpenAI
    ensures name == ZHIPU_NAME <==> p == Zhipu
  {
    match p
    case OpenAI => OPENAI_NAME
    case Zhipu => ZHIPU_NAME
  }

  /** The string value a Zhipu model has on the wire. */
  function ModelName(m: ZhipuModel): (name: JsStr)
    ensures name != []
  {
    match m
    case Glm4 => Lit("glm-4")
    case Glm4Flash => Lit("glm-4-flash")
    case ChatglmTurbo => Lit("chatglm_turbo")
    case ChatglmStd => Lit("chatglm_std")
    case ChatglmLite => Lit("chatglm_lite")
  }

  /** Distinct models are sent as distinct strings. */
  lemma ModelNameInjective(a: ZhipuModel, b: ZhipuModel)
    ensures ModelName(a) == ModelName(b) ==> a == b
  {
    var x, y := ModelName(a), ModelName(b);
    // the first unit splits glm-* from chatglm_*, the last unit the rest
    assert x == y ==> x[0] == y[0] && x[|x| - 1] == y[|y| - 1];
  }
}
