/** Client selection, credential checks and message assembly of the top-level
    `model_factory.py`. Building a client is a value; calling it is a function parameter. */
module ModelFactory {
  import opened Strings
  import opened PyValue
  import opened Config

  /** The client `get_chat_model` builds, with the settings that pick the model. */
  datatype ChatModel =
    | OpenAIClient(model: string, apiKey: string)
    | WatsonxClient(modelId: string, url: string, apiKey: string, projectId: string)

  /** `x if x else fallback` for an optional string: None and "" both fall back. */
  function OrElse(x: Option<string>, fallback: string): (r: string)
    ensures (x.Some? && x.value != "") ==> r == x.value
    ensures (x.None? || x.value == "") ==> r == fallback
  {
    if x.Some? && x.value != "" then x.value else fallback
  }

  /** A credential that is set and not empty. */
  predicate Present(x: Option<string>) {
    x.Some? && x.value != ""
  }

  /** The messages of the ValueErrors `get_chat_model` raises. */
  const NotInEnvironment := " not found in environment variables"
  const MissingOpenAIKey := "OpenAI API key" + NotInEnvironment
  const MissingIbmCredentials := "IBM Cloud credentials" + NotInEnvironment
  const UnsupportedProvider := "Unsupported model provider: "

  /** `get_chat_model(provider, granite_model, openai_model)`. */
  function GetChatModel(cfg: Settings, provider: Option<string>, granite: Option<string>, openai: Option<string>): (r: Outcome<ChatModel>)
    ensures var current := OrElse(provider, cfg.provider.Value());
      (current == "openai" && !Present(cfg.openaiApiKey) ==>
         r == Raised(ValueError(MissingOpenAIKey)))
      && (current == "ibm" && !(Present(cfg.ibmApiKey) && Present(cfg.ibmEndpoint) && Present(cfg.ibmProjectId)) ==>
         r == Raised(ValueError(MissingIbmCredentials)))
      && (current !in ["openai", "ibm"] ==> r == Raised(ValueError(UnsupportedProvider + current)))
    ensures var current := OrElse(provider, cfg.provider.Value());
      (current == "openai" && Present(cfg.openaiApiKey) ==>
         r == Returned(OpenAIClient(OrElse(openai, cfg.openaiModel), cfg.openaiApiKey.value)))
      && (current == "ibm" && Present(cfg.ibmApiKey) && Present(cfg.ibmEndpoint) && Present(cfg.ibmProjectId) ==>
         r == Returned(WatsonxClient(OrElse(granite, cfg.ibmModel), cfg.ibmEndpoint.value,
                                     cfg.ibmApiKey.value, cfg.ibmProjectId.value)))
    ensures r.Returned? ==>
      match r.value
      case OpenAIClient(model, key) => model == OrElse(openai, cfg.openaiModel) && Some(key) == cfg.openaiApiKey
      case WatsonxClient(id, url, apiKey, projectId) =>
        id == OrElse(granite, cfg.ibmModel) && Some(url) == cfg.ibmEndpoint
        && Some(apiKey) == cfg.ibmApiKey && Some(projectId) == cfg.ibmProjectId
  {
    var current := OrElse(provider, cfg.provider.Value());
    var currentGranite := OrElse(granite, cfg.ibmModel);
    var currentOpenAI := OrElse(openai, cfg.openaiModel);
    if current == "openai" then
      if !Present(cfg.openaiApiKey) then Raised(ValueError(MissingOpenAIKey))
      else Returned(OpenAIClient(currentOpenAI, cfg.openaiApiKey.value))
    else if current == "ibm" then
      if !(Present(cfg.ibmApiKey) && Present(cfg.ibmEndpoint) && Present(cfg.ibmProjectId)) then
        Raised(ValueError(MissingIbmCredentials))
      else Returned(WatsonxClient(currentGranite, cfg.ibmEndpoint.value, cfg.ibmApiKey.value, cfg.ibmProjectId.value))
    else Raised(ValueError(UnsupportedProvider + current))
  }

  /** An empty provider argument is the same as none: the configured provider is used, and
      it always names a supported provider. */
  lemma EmptyProviderFallsBack(cfg: Settings, granite: Option<string>, openai: Option<string>)
    ensures GetChatModel(cfg, Some(""), granite, openai) == GetChatModel(cfg, None, granite, openai)
    ensures GetChatModel(cfg, None, granite, openai).Raised? ==>
      GetChatModel(cfg, None, granite, openai).exc.message != UnsupportedProvider + cfg.provider.Value()
  {
  }

  /** A client is built only with complete credentials for its provider. */
  lemma ClientNeedsCredentials(cfg: Settings, provider: Option<string>, granite: Option<string>, openai: Option<string>)
    requires GetChatModel(cfg, provider, granite, openai).Returned?
    ensures match GetChatModel(cfg, provider, granite, openai).value
      case OpenAIClient(_, _) => Present(cfg.openaiApiKey)
      case WatsonxClient(_, _, _, _) => Present(cfg.ibmApiKey) && Present(cfg.ibmEndpoint) && Present(cfg.ibmProjectId)
  {
  }

  /** `SystemMessage` and `HumanMessage`. */
  datatype Message = SystemMessage(content: string) | HumanMessage(content: string)

  /** The message list of `get_model_response`: the system message first when it has text,
      the prompt always last. */
  function MessageList(system: Option<string>, prompt: string): (r: seq<Message>)
    ensures |r| == if Present(system) then 2 else 1
    ensures r[|r| - 1] == HumanMessage(prompt)
    ensures Present(system) ==> r[0] == SystemMessage(system.value)
    ensures forall i :: 0 <= i < |r| - 1 ==> r[i].SystemMessage?
  {
    (if Present(system) then [SystemMessage(system.value)] else []) + [HumanMessage(prompt)]
  }

  /** `get_model_response(prompt, system_message, provider, granite_model, openai_model)`:
      `invoke(client, messages)` stands for `chat.invoke(messages).content`. */
  function GetModelResponse(cfg: Settings, invoke: (ChatModel, seq<Message>) -> Outcome<string>,
                            prompt: string, system: Option<string>,
                            provider: Option<string>, granite: Option<string>, openai: Option<string>): (r: Outcome<string>)
    ensures GetChatModel(cfg, provider, granite, openai).Raised? ==>
      r == Raised(GetChatModel(cfg, provider, granite, openai).exc)
    ensures GetChatModel(cfg, provider, granite, openai).Returned? ==>
      r == invoke(GetChatModel(cfg, provider, granite, openai).value, MessageList(system, prompt))
  {
    var chat :- GetChatModel(cfg, provider, granite, openai);
    invoke(chat, MessageList(system, prompt))
  }
}
