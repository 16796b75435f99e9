/** Provider resolution and prompt assembly of `langgraph/model_factory.py`, the model
    entry point the chat graph calls. The chat clients themselves (construction and
    `invoke`) are one function parameter. */
module GraphModelFactory {
  import opened Strings
  import opened PyValue
  import opened Config

  /** A `{"role": ..., "content": ...}` entry of a message-list prompt. */
  datatype ChatMessage = ChatMessage(role: string, content: string)

  /** A prompt is a string or a list of messages. */
  datatype Prompt = Text(text: string) | Messages(items: seq<ChatMessage>)

  /** The two chat clients. */
  datatype Backend = Watsonx | OpenAIChat

  /** Provider and the two model ids the call goes ahead with (None is Python's None). */
  datatype Resolution = Resolution(provider: Option<string>, granite: Option<string>, openai: Option<string>)

  /** The choice at the top of `get_model_response`. */
  function Resolve(cfg: Settings, provider: Option<string>, granite: Option<string>, openai: Option<string>): (r: Resolution)
    ensures cfg.showModelSelector ==> r == Resolution(provider, granite, openai)
    ensures !cfg.showModelSelector ==> r.provider == Some(cfg.provider.Value())
    ensures !cfg.showModelSelector ==> r.granite.None? || r.openai.None?
  {
    if cfg.showModelSelector then Resolution(provider, granite, openai)
    else
      var current := cfg.provider.Value();
      Resolution(Some(current),
        if current == "ibm" then Some(cfg.ibmModel) else None,
        if current == "openai" then Some(cfg.openaiModel) else None)
  }

  /** With the selector off the arguments make no difference, and the configured model id
      of the configured provider is the one used. */
  lemma ResolveIgnoresArguments(cfg: Settings, p1: Option<string>, g1: Option<string>, o1: Option<string>,
                                p2: Option<string>, g2: Option<string>, o2: Option<string>)
    requires !cfg.showModelSelector
    ensures Resolve(cfg, p1, g1, o1) == Resolve(cfg, p2, g2, o2)
    ensures cfg.provider == IBM ==> Resolve(cfg, p1, g1, o1).granite == Some(cfg.ibmModel)
    ensures cfg.provider == OpenAI ==> Resolve(cfg, p1, g1, o1).openai == Some(cfg.openaiModel)
  {
  }

  /** `if system_message:` — None and "" add nothing. */
  predicate HasText(o: Option<string>) {
    o.Some? && o.value != ""
  }

  /** The system-message step shared by `_get_ibm_response` and `_get_openai_response`. */
  function WithSystemMessage(prompt: Prompt, system: Option<string>): (r: Prompt)
    ensures !HasText(system) ==> r == prompt
    ensures r.Text? <==> prompt.Text?
    ensures HasText(system) && prompt.Messages? ==>
      |r.items| == |prompt.items| + 1 && r.items[0] == ChatMessage("system", system.value)
      && r.items[1..] == prompt.items
    ensures HasText(system) && prompt.Text? ==>
      StartsWith(r.text, "System: " + system.value + "\n\n")
      && r.text[|"System: " + system.value + "\n\n"|..] == prompt.text
  {
    if !HasText(system) then prompt
    else match prompt
      case Messages(items) => Messages([ChatMessage("system", system.value)] + items)
      case Text(t) => Text("System: " + system.value + "\n\n" + t)
  }

  /** `str(current_provider)` in the error message. */
  function ShowProvider(p: Option<string>): string {
    match p
    case None => "None"
    case Some(s) => s
  }

  /** `get_model_response(prompt, system_message, provider, granite_model, openai_model)`:
      `invoke(backend, model id, prompt)` stands for building the client and calling it. */
  function GetModelResponse(cfg: Settings, invoke: (Backend, Option<string>, Prompt) -> Outcome<string>,
                            prompt: Prompt, system: Option<string>,
                            provider: Option<string>, granite: Option<string>, openai: Option<string>): (r: Outcome<string>)
    ensures var res := Resolve(cfg, provider, granite, openai);
      res.provider !in {Some("ibm"), Some("openai")} ==>
        r == Raised(ValueError("Unsupported provider: " + ShowProvider(res.provider)))
  {
    var res := Resolve(cfg, provider, granite, openai);
    if res.provider == Some("ibm") then invoke(Watsonx, res.granite, WithSystemMessage(prompt, system))
    else if res.provider == Some("openai") then invoke(OpenAIChat, res.openai, WithSystemMessage(prompt, system))
    else Raised(ValueError("Unsupported provider: " + ShowProvider(res.provider)))
  }

  /** A supported provider gets exactly one call, with its own model id and the prompt with the
      system message in front; whatever that call returns or raises is passed on unchanged. */
  lemma GetModelResponseDispatch(cfg: Settings, invoke: (Backend, Option<string>, Prompt) -> Outcome<string>,
                                 prompt: Prompt, system: Option<string>,
                                 provider: Option<string>, granite: Option<string>, openai: Option<string>)
    ensures var res := Resolve(cfg, provider, granite, openai);
      var p := WithSystemMessage(prompt, system);
      (res.provider == Some("ibm") ==> GetModelResponse(cfg, invoke, prompt, system, provider, granite, openai) == invoke(Watsonx, res.granite, p))
      && (res.provider == Some("openai") ==> GetModelResponse(cfg, invoke, prompt, system, provider, granite, openai) == invoke(OpenAIChat, res.openai, p))
  {
  }

  /** With the selector off the call never fails for want of a provider: the configured one
      is always supported. */
  lemma ConfiguredProviderSupported(cfg: Settings, invoke: (Backend, Option<string>, Prompt) -> Outcome<string>,
                                    prompt: Prompt, system: Option<string>,
                                    provider: Option<string>, granite: Option<string>, openai: Option<string>)
    requires !cfg.showModelSelector
    ensures var r := GetModelResponse(cfg, invoke, prompt, system, provider, granite, openai);
      r == invoke(if cfg.provider == IBM then Watsonx else OpenAIChat,
                  Some(if cfg.provider == IBM then cfg.ibmModel else cfg.openaiModel),
                  WithSystemMessage(prompt, system))
  {
  }
}
