/** Settings read once from the environment at import time (`config.py`). The environment
    is a map from variable names to values; a name absent from the map is unset. */
module Config {
  import opened Strings

  type Env = map<string, string>

  /** `ModelProvider`, whose values are "openai" and "ibm". */
  datatype Provider = OpenAI | IBM {
    function Value(): (r: string)
      ensures r in ["openai", "ibm"]
    {
      match this
      case OpenAI => "openai"
      case IBM => "ibm"
    }
  }

  /** `os.getenv(name, default)`: an empty value is returned as it is, not replaced. */
  function GetEnv(env: Env, name: string, default: string): string {
    if name in env then env[name] else default
  }

  /** `os.getenv(name)` with no default: None when unset. */
  function GetEnvOpt(env: Env, name: string): Option<string> {
    if name in env then Some(env[name]) else None
  }

  /** `MODEL_PROVIDER`: the lower-cased, stripped value if it names a provider, IBM otherwise
      (the ValueError of the enum lookup is caught and logged). */
  function ModelProvider(env: Env): (r: Provider)
    ensures r == OpenAI <==> Strip(Lower(GetEnv(env, "MODEL_PROVIDER", "ibm"))) == "openai"
  {
    var value := Strip(Lower(GetEnv(env, "MODEL_PROVIDER", "ibm")));
    if value == OpenAI.Value() then OpenAI
    else if value == IBM.Value() then IBM
    else IBM
  }

  /** Unset, the provider is IBM. */
  lemma ModelProviderUnset(env: Env)
    requires "MODEL_PROVIDER" !in env
    ensures ModelProvider(env) == IBM
  {
    PlainWord("ibm");
  }

  /** Case and surrounding blanks do not matter: " OpenAI " selects OpenAI. */
  lemma ModelProviderNormalised(env: Env)
    ensures ModelProvider(env[ "MODEL_PROVIDER" := " OpenAI " ]) == OpenAI
  {
    LowerOpenAI();
    StripOpenAI();
  }

  /** A value naming no provider falls back to IBM rather than raising. */
  lemma ModelProviderFallback(env: Env)
    ensures ModelProvider(env[ "MODEL_PROVIDER" := "watson" ]) == IBM
  {
    PlainWord("watson");
  }

  /** A lower-case word without blanks is left alone by lower-casing and stripping. */
  lemma PlainWord(w: string)
    requires w != [] && forall i :: 0 <= i < |w| ==> 'a' <= w[i] <= 'z'
    ensures Strip(Lower(w)) == w
  {
    LowerKeepsLowerCase(w);
    StripKeepsWord(w);
  }

  lemma LowerKeepsLowerCase(w: string)
    requires forall i :: 0 <= i < |w| ==> 'a' <= w[i] <= 'z'
    ensures Lower(w) == w
  {
    forall i | 0 <= i < |w| ensures Lower(w)[i] == w[i] { }
  }

  lemma StripKeepsWord(w: string)
    requires w != [] && forall i :: 0 <= i < |w| ==> 'a' <= w[i] <= 'z'
    ensures Strip(w) == w
  {
    assert !IsSpace(w[0]);
    assert StripLeft(w) == w;
    assert !IsSpace(w[|w| - 1]);
  }

  lemma LowerOpenAI()
    ensures Lower(" OpenAI ") == " openai "
  {
  }

  lemma StripOpenAI()
    ensures Strip(" openai ") == "openai"
  {
    assert StripLeft(" openai ") == "openai ";
    assert StripRight("openai ") == "openai";
  }

  /** The spellings of true that `SHOW_MODEL_SELECTOR` accepts. */
  const TrueSpellings: seq<string> := ["true", "1", "yes", "y"]

  /** `SHOW_MODEL_SELECTOR`: the lower-cased raw value (not stripped) is a spelling of true. */
  function ShowModelSelector(env: Env): (r: bool)
    ensures r <==> "SHOW_MODEL_SELECTOR" in env && Lower(env["SHOW_MODEL_SELECTOR"]) in TrueSpellings
  {
    var raw := GetEnv(env, "SHOW_MODEL_SELECTOR", "false");
    assert Lower("false") == "false";
    Lower(raw) in TrueSpellings
  }

  /** Blanks around the value are not removed, so " true" does not enable the selector. */
  lemma ShowModelSelectorExamples(env: Env)
    ensures ShowModelSelector(env[ "SHOW_MODEL_SELECTOR" := "YES" ])
    ensures !ShowModelSelector(env[ "SHOW_MODEL_SELECTOR" := " true" ])
  {
    assert Lower("YES") == "yes";
    assert Lower(" true") == " true";
  }

  /** `OPENAI_MODELS`: display label and model id, in declaration order. */
  const OpenAIModels: seq<(string, string)> := [
    ("GPT-3.5 Turbo", "gpt-3.5-turbo"),
    ("GPT-4o", "gpt-4o"),
    ("GPT-4 Turbo", "gpt-4-turbo"),
    ("GPT-4o Mini", "gpt-4o-mini")]

  /** `GRANITE_MODELS`: display label and model id, in declaration order. */
  const GraniteModels: seq<(string, string)> := [
    ("Granite 13B Instruct", "ibm/granite-13b-instruct-v2"),
    ("Granite 20B Code Instruct", "ibm/granite-20b-code-instruct"),
    ("Granite 3.2 8B Instruct", "ibm/granite-3-2-8b-instruct"),
    ("Granite 3.2B Instruct", "ibm/granite-3-2b-instruct"),
    ("Granite 3.3 8B Instruct", "ibm/granite-3-3-8b-instruct"),
    ("Granite 3.8B Instruct", "ibm/granite-3-8b-instruct"),
    ("Granite 34B Code Instruct", "ibm/granite-34b-code-instruct"),
    ("Granite 3B Code Instruct", "ibm/granite-3b-code-instruct"),
    ("Granite 8B Code Instruct", "ibm/granite-8b-code-instruct"),
    ("Granite Guardian 3.2B", "ibm/granite-guardian-3-2b"),
    ("Granite Guardian 3.8B", "ibm/granite-guardian-3-8b"),
    ("Granite Vision 3.2 2B", "ibm/granite-vision-3-2-2b")]

  /** The settings other modules import. */
  datatype Settings = Settings(
    provider: Provider,
    openaiApiKey: Option<string>,
    openaiModel: string,
    ibmApiKey: Option<string>,
    ibmEndpoint: Option<string>,
    ibmProjectId: Option<string>,
    ibmModel: string,
    showModelSelector: bool)

  /** Everything `config.py` reads, with the documented defaults for the two model ids. */
  function Load(env: Env): (r: Settings)
    ensures "OPENAI_MODEL" !in env ==> r.openaiModel == "gpt-3.5-turbo"
    ensures "IBM_MODEL" !in env ==> r.ibmModel == "ibm/granite-13b-chat-v2"
    ensures "OPENAI_MODEL" in env ==> r.openaiModel == env["OPENAI_MODEL"]
    ensures "IBM_MODEL" in env ==> r.ibmModel == env["IBM_MODEL"]
    ensures r.openaiApiKey.Some? <==> "OPENAI_API_KEY" in env
  {
    Settings(
      ModelProvider(env),
      GetEnvOpt(env, "OPENAI_API_KEY"),
      GetEnv(env, "OPENAI_MODEL", "gpt-3.5-turbo"),
      GetEnvOpt(env, "IBM_CLOUD_API_KEY"),
      GetEnvOpt(env, "IBM_CLOUD_ENDPOINT"),
      GetEnvOpt(env, "IBM_CLOUD_PROJECT_ID"),
      GetEnv(env, "IBM_MODEL", "ibm/granite-13b-chat-v2"),
      ShowModelSelector(env))
  }
}
