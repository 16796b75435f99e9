/** The session state of the Streamlit front end (`app.py`): what the init block, the
    storage helpers, the clear and logout actions, the profile form and a chat turn do to
    `st.session_state`. A session key that is absent is `None` here. */
module App {
  import opened Strings
  import opened PyValue
  import opened Config
  import ModelFactory

  /** One `{"role": ..., "content": ...}` entry of the chat. */
  datatype ChatEntry = ChatEntry(role: string, content: string)

  /** `user_info`: the name and the selected respiratory conditions. */
  datatype Profile = Profile(name: string, conditions: seq<string>)

  const EmptyProfile := Profile("", [])

  /** A snapshot of the session keys the modelled code reads or writes. */
  datatype SessionState = SessionState(
    messages: Option<seq<ChatEntry>>,
    chatHistory: Option<seq<ChatEntry>>,
    userInfo: Option<Profile>,
    modelPreferences: Option<Entries>,
    showLogoutConfirm: Option<bool>)

  /** `st.session_state` */
  class Session {
    var messages: Option<seq<ChatEntry>>
    var chatHistory: Option<seq<ChatEntry>>
    var userInfo: Option<Profile>
    var modelPreferences: Option<Entries>
    var showLogoutConfirm: Option<bool>

    /** A new browser session: no keys at all. */
    constructor ()
      ensures State() == SessionState(None, None, None, None, None)
    {
      messages := None;
      chatHistory := None;
      userInfo := None;
      modelPreferences := None;
      showLogoutConfirm := None;
    }

    function State(): SessionState
      reads this
    {
      SessionState(messages, chatHistory, userInfo, modelPreferences, showLogoutConfirm)
    }
  }

  /** The `model_preferences` the init block and `logout` install: the configured provider,
      and, when the selector is shown, the first Granite entry's display label (a key of
      `GRANITE_MODELS`, not its model id). */
  function DefaultPreferences(cfg: Settings): (r: Entries)
    ensures Lookup(r, "provider") == Some(Str(cfg.provider.Value()))
    ensures Lookup(r, "granite_model") ==
      Some(if cfg.showModelSelector then Str("Granite 13B Instruct") else Null)
  {
    Cons("provider", Str(cfg.provider.Value()),
      Cons("granite_model", if cfg.showModelSelector then Str(GraniteModels[0].0) else Null, []))
  }

  // ---------------------------------------------------------------- storage helpers

  /** `save_to_local_storage()`: the chat history becomes the current messages. Without
      `messages` the AttributeError is caught and nothing changes. */
  function Save(s: SessionState): SessionState {
    if s.messages.Some? then s.(chatHistory := s.messages) else s
  }

  /** `load_from_local_storage()`: messages come back from the chat history, or start empty;
      the stored profile, or the empty one, is returned. */
  function Load(s: SessionState): (SessionState, Profile) {
    (s.(messages := if s.chatHistory.Some? then s.chatHistory else Some([])),
     if s.userInfo.Some? then s.userInfo.value else EmptyProfile)
  }

  method SaveToLocalStorage(session: Session)
    modifies session
    ensures session.State() == Save(old(session.State()))
  {
    if session.messages.Some? {
      session.chatHistory := session.messages;
    }
  }

  method LoadFromLocalStorage(session: Session) returns (profile: Profile)
    modifies session
    ensures (session.State(), profile) == Load(old(session.State()))
  {
    if session.chatHistory.Some? {
      session.messages := session.chatHistory;
    } else {
      session.messages := Some([]);
    }
    if session.userInfo.Some? {
      return session.userInfo.value;
    }
    return EmptyProfile;
  }

  /** Loading what was just saved gives the same messages back, and the profile if there is one. */
  lemma SaveThenLoad(s: SessionState)
    requires s.messages.Some?
    ensures Load(Save(s)).0 == Save(s)
    ensures Load(Save(s)).1 == if s.userInfo.Some? then s.userInfo.value else EmptyProfile
  {
  }

  /** Saving never touches anything but the chat history, and saving twice is saving once. */
  lemma SaveFrame(s: SessionState)
    ensures var r := Save(s);
      r.messages == s.messages && r.userInfo == s.userInfo && r.modelPreferences == s.modelPreferences
      && r.showLogoutConfirm == s.showLogoutConfirm
      && Save(r) == r
  {
  }

  // ---------------------------------------------------------------- init block

  /** The init block at the top of every script run: each of `messages`, `model_preferences`
      and `user_info` is filled in only if missing; filling `user_info` also reloads the
      messages from the chat history. */
  function Init(cfg: Settings, s: SessionState): SessionState {
    var s1 := if s.messages.None? then s.(messages := Some([])) else s;
    var s2 := if s1.modelPreferences.None? then s1.(modelPreferences := Some(DefaultPreferences(cfg))) else s1;
    if s2.userInfo.None? then
      var (s3, profile) := Load(s2);
      s3.(userInfo := Some(profile))
    else s2
  }

  method InitSession(session: Session, cfg: Settings)
    modifies session
    ensures session.State() == Init(cfg, old(session.State()))
  {
    if session.messages.None? {
      session.messages := Some([]);
    }
    if session.modelPreferences.None? {
      session.modelPreferences := Some(DefaultPreferences(cfg));
    }
    if session.userInfo.None? {
      var profile := LoadFromLocalStorage(session);
      session.userInfo := Some(profile);
    }
  }

  /** After the init block the three keys the page relies on are all present. */
  predicate Initialised(s: SessionState) {
    s.messages.Some? && s.userInfo.Some? && s.modelPreferences.Some?
  }

  lemma InitEstablishes(cfg: Settings, s: SessionState)
    ensures Initialised(Init(cfg, s))
    ensures Init(cfg, Init(cfg, s)) == Init(cfg, s)
  {
  }

  /** With a profile in place, the init block keeps every key that is present and changes
      nothing but what is missing. */
  lemma InitKeepsPresent(cfg: Settings, s: SessionState)
    requires s.userInfo.Some?
    ensures var r := Init(cfg, s);
      (s.messages.Some? ==> r.messages == s.messages)
      && (s.modelPreferences.Some? ==> r.modelPreferences == s.modelPreferences)
      && r.userInfo == s.userInfo && r.chatHistory == s.chatHistory
      && r.showLogoutConfirm == s.showLogoutConfirm
  {
  }

  /** Without a profile, the messages are replaced by the saved chat history (or emptied),
      even when they were present, and the profile starts empty. */
  lemma InitWithoutProfile(cfg: Settings, s: SessionState)
    requires s.userInfo.None?
    ensures var r := Init(cfg, s);
      r.messages == (if s.chatHistory.Some? then s.chatHistory else Some([]))
      && r.userInfo == Some(EmptyProfile)
  {
  }

  // ---------------------------------------------------------------- actions

  /** `clear_chat_history()` */
  function ClearChat(s: SessionState): SessionState {
    Save(s.(messages := Some([])))
  }

  method ClearChatHistory(session: Session)
    modifies session
    ensures session.State() == ClearChat(old(session.State()))
  {
    session.messages := Some([]);
    SaveToLocalStorage(session);
  }

  /** Clearing the chat empties both the messages and the saved history and keeps the profile,
      the model preferences and the logout prompt. */
  lemma ClearChatKeepsProfile(s: SessionState)
    ensures var r := ClearChat(s);
      r.messages == Some([]) && r.chatHistory == Some([])
      && r.userInfo == s.userInfo && r.modelPreferences == s.modelPreferences
      && r.showLogoutConfirm == s.showLogoutConfirm
  {
  }

  /** `logout()` (before `st.rerun()`): every key deleted, then three reinstalled. */
  function LogoutState(cfg: Settings): SessionState {
    SessionState(Some([]), None, Some(EmptyProfile), Some(DefaultPreferences(cfg)), None)
  }

  method Logout(session: Session, cfg: Settings)
    modifies session
    ensures session.State() == LogoutState(cfg)
  {
    session.messages := None;
    session.chatHistory := None;
    session.userInfo := None;
    session.modelPreferences := None;
    session.showLogoutConfirm := None;
    session.messages := Some([]);
    session.modelPreferences := Some(DefaultPreferences(cfg));
    session.userInfo := Some(EmptyProfile);
  }

  /** After logout nothing of the old session survives: the saved history and the confirmation
      flag are gone, the profile is empty so the profile form shows again, and the next init
      block changes nothing. */
  lemma LogoutForgets(cfg: Settings)
    ensures var r := LogoutState(cfg);
      r.chatHistory.None? && r.showLogoutConfirm.None?
      && r.messages == Some([]) && ShowsProfileForm(r)
      && Init(cfg, r) == r
  {
  }

  /** The profile form is shown while the stored name is empty. */
  predicate ShowsProfileForm(s: SessionState)
    requires s.userInfo.Some?
  {
    s.userInfo.value.name == ""
  }

  const NameRequired := "Please enter your name"

  /** Submitting the profile form: a name is required; with one, name and conditions are
      stored and saved. The error shown, if any, is returned. */
  function SubmitProfileSpec(s: SessionState, name: string, conditions: seq<string>): (SessionState, Option<string>)
    requires s.userInfo.Some?
  {
    if name != "" then (Save(s.(userInfo := Some(Profile(name, conditions)))), None)
    else (s, Some(NameRequired))
  }

  method SubmitProfile(session: Session, name: string, conditions: seq<string>) returns (error: Option<string>)
    requires session.userInfo.Some?
    modifies session
    ensures (session.State(), error) == SubmitProfileSpec(old(session.State()), name, conditions)
  {
    if name == "" {
      return Some(NameRequired);
    }
    session.userInfo := Some(session.userInfo.value.(name := name));
    session.userInfo := Some(session.userInfo.value.(conditions := conditions));
    SaveToLocalStorage(session);
    error := None;
  }

  /** An empty name changes nothing and asks for a name; any other name is stored with the
      conditions, after which the form is no longer shown. */
  lemma SubmitProfileOutcome(s: SessionState, name: string, conditions: seq<string>)
    requires s.userInfo.Some?
    ensures var (r, error) := SubmitProfileSpec(s, name, conditions);
      r.userInfo.Some?
      && (name == "" ==> r == s && error == Some(NameRequired))
      && (name != "" ==> r.userInfo == Some(Profile(name, conditions)) && !ShowsProfileForm(r) && error.None?
                         && r.messages == s.messages && r.modelPreferences == s.modelPreferences)
  {
  }

  // ---------------------------------------------------------------- errors and chat

  const ApiKeyReply := "API key is missing or invalid. Please check your API credentials in the .env file."
  const EndpointReply := "API endpoint is not accessible. Please check your internet connection and endpoint URL."
  const ProjectReply := "Project ID is missing or invalid. Please check your IBM Cloud project settings."
  const TimeoutReply := "Request timed out. The service might be experiencing high load. Please try again in a few minutes."
  const RateLimitReply := "Rate limit exceeded. Please wait a few minutes before trying again."

  /** `handle_api_error(error)` on `str(error)`: the first of five phrases found in the
      lower-cased message decides the reply; otherwise the message itself is shown. */
  function HandleApiError(message: string): (r: string)
    ensures var m := Lower(message);
      (Contains(m, "api key") ==> r == ApiKeyReply)
      && (!Contains(m, "api key") && Contains(m, "endpoint") ==> r == EndpointReply)
      && (!Contains(m, "api key") && !Contains(m, "endpoint") && Contains(m, "project") ==> r == ProjectReply)
      && ((!Contains(m, "api key") && !Contains(m, "endpoint") && !Contains(m, "project")
           && Contains(m, "timeout")) ==> r == TimeoutReply)
      && ((!Contains(m, "api key") && !Contains(m, "endpoint") && !Contains(m, "project")
           && !Contains(m, "timeout") && Contains(m, "rate limit")) ==> r == RateLimitReply)
      && ((!Contains(m, "api key") && !Contains(m, "endpoint") && !Contains(m, "project")
           && !Contains(m, "timeout") && !Contains(m, "rate limit")) ==> r == "An error occurred: " + message)
  {
    var m := Lower(message);
    if Contains(m, "api key") then ApiKeyReply
    else if Contains(m, "endpoint") then EndpointReply
    else if Contains(m, "project") then ProjectReply
    else if Contains(m, "timeout") then TimeoutReply
    else if Contains(m, "rate limit") then RateLimitReply
    else "An error occurred: " + message
  }

  /** Any message naming the "API key", in whatever case, gets the API key reply, whatever
      else it mentions. */
  lemma ApiKeyMentioned(message: string, i: int)
    requires 0 <= i <= |message| - 7
    requires Lower(message[i..i + 7]) == "api key"
    ensures HandleApiError(message) == ApiKeyReply
  {
    var m := Lower(message);
    assert m[i..i + 7] == Lower(message[i..i + 7]);
    assert OccursAt(m, "api key", i);
  }

  /** The phrase "API key" anywhere in a message is enough for the API key reply. */
  lemma KeyPhraseReported(front: string, back: string)
    ensures HandleApiError(front + "API key" + back) == ApiKeyReply
  {
    var message := front + "API key" + back;
    assert message[|front|..|front| + 7] == "API key";
    ApiKeyMentioned(message, |front|);
  }

  /** Any message naming an "endpoint", in whatever case, and no "api key", gets the
      endpoint reply. */
  lemma EndpointMentioned(message: string, i: int)
    requires 0 <= i <= |message| - 8 && Lower(message[i..i + 8]) == "endpoint"
    requires !Contains(Lower(message), "api key")
    ensures HandleApiError(message) == EndpointReply
  {
    MentionedAt(message, "endpoint", i);
  }

  /** A "project" mention, in whatever case, with neither phrase before it in the table, gets
      the project reply. */
  lemma ProjectMentioned(message: string, i: int)
    requires 0 <= i <= |message| - 7 && Lower(message[i..i + 7]) == "project"
    requires !Contains(Lower(message), "api key") && !Contains(Lower(message), "endpoint")
    ensures HandleApiError(message) == ProjectReply
  {
    MentionedAt(message, "project", i);
  }

  /** A "timeout" mention, in whatever case, with none of the three phrases before it, gets
      the timeout reply. */
  lemma TimeoutMentioned(message: string, i: int)
    requires 0 <= i <= |message| - 7 && Lower(message[i..i + 7]) == "timeout"
    requires !Contains(Lower(message), "api key") && !Contains(Lower(message), "endpoint")
    requires !Contains(Lower(message), "project")
    ensures HandleApiError(message) == TimeoutReply
  {
    MentionedAt(message, "timeout", i);
  }

  /** A "rate limit" mention, in whatever case, with none of the four phrases before it, gets
      the rate-limit reply. */
  lemma RateLimitMentioned(message: string, i: int)
    requires 0 <= i <= |message| - 10 && Lower(message[i..i + 10]) == "rate limit"
    requires !Contains(Lower(message), "api key") && !Contains(Lower(message), "endpoint")
    requires !Contains(Lower(message), "project") && !Contains(Lower(message), "timeout")
    ensures HandleApiError(message) == RateLimitReply
  {
    MentionedAt(message, "rate limit", i);
  }

  /** A phrase that lower-cases the message's slice at i occurs in the lower-cased message. */
  lemma MentionedAt(message: string, phrase: string, i: int)
    requires 0 <= i <= |message| - |phrase|
    requires Lower(message[i..i + |phrase|]) == phrase
    ensures Contains(Lower(message), phrase)
  {
    LowerSlice(message, i, i + |phrase|);
    assert OccursAt(Lower(message), phrase, i);
  }

  const SystemMessage := "You are Vayu, an AI assistant focused on providing weather-based travel health advisories. You help users make informed decisions about travel based on weather conditions, air quality, and respiratory health factors. Be concise, informative, and always prioritize user health and safety."

  /** The `try` block of a chat turn up to the reply: the provider (and, for IBM, the Granite
      model) are read with `[]` for logging, then the model factory is called. */
  function AppReply(cfg: Settings, invoke: (ModelFactory.ChatModel, seq<ModelFactory.Message>) -> Outcome<string>,
                    prefs: Entries, prompt: string): Outcome<string> {
    var provider :- Subscript(Dict(prefs), "provider");
    var logged :- if provider == Str("ibm") then Subscript(Dict(prefs), "granite_model") else Returned(Null);
    ModelFactory.GetModelResponse(cfg, invoke, prompt, Some(SystemMessage),
      AsOption(provider), AsOption(Get(Dict(prefs), "granite_model")), AsOption(Get(Dict(prefs), "openai_model")))
  }

  /** A chat turn for the text typed in: nothing for an empty input; otherwise the user's
      message is appended and saved, then either the reply is appended and saved, or the
      classified error is shown (the returned message). */
  function ChatSpec(cfg: Settings, invoke: (ModelFactory.ChatModel, seq<ModelFactory.Message>) -> Outcome<string>,
                    s: SessionState, prompt: string): (SessionState, Option<string>)
    requires s.messages.Some? && s.modelPreferences.Some?
  {
    if prompt == "" then (s, None)
    else
      var s1 := Save(s.(messages := Some(s.messages.value + [ChatEntry("user", prompt)])));
      match AppReply(cfg, invoke, s.modelPreferences.value, prompt)
      case Returned(text) => (Save(s1.(messages := Some(s1.messages.value + [ChatEntry("assistant", text)]))), None)
      case Raised(e) => (s1, Some(HandleApiError(Message(e))))
  }

  method ChatInput(session: Session, cfg: Settings,
                   invoke: (ModelFactory.ChatModel, seq<ModelFactory.Message>) -> Outcome<string>, prompt: string)
    returns (shown: Option<string>)
    requires session.messages.Some? && session.modelPreferences.Some?
    modifies session
    ensures (session.State(), shown) == ChatSpec(cfg, invoke, old(session.State()), prompt)
  {
    if prompt == "" {
      return None;
    }
    session.messages := Some(session.messages.value + [ChatEntry("user", prompt)]);
    SaveToLocalStorage(session);
    var reply := AppReply(cfg, invoke, session.modelPreferences.value, prompt);
    if reply.Raised? {
      return Some(HandleApiError(Message(reply.exc)));
    }
    session.messages := Some(session.messages.value + [ChatEntry("assistant", reply.value)]);
    SaveToLocalStorage(session);
    shown := None;
  }

  /** A turn appends the user's message first and the assistant's only when the reply came
      back; either way the saved history equals the messages, and the profile and the
      preferences are untouched. */
  lemma ChatAppends(cfg: Settings, invoke: (ModelFactory.ChatModel, seq<ModelFactory.Message>) -> Outcome<string>,
                    s: SessionState, prompt: string)
    requires s.messages.Some? && s.modelPreferences.Some?
    requires prompt != ""
    ensures var (r, shown) := ChatSpec(cfg, invoke, s, prompt);
      var reply := AppReply(cfg, invoke, s.modelPreferences.value, prompt);
      var user := s.messages.value + [ChatEntry("user", prompt)];
      r.chatHistory == r.messages
      && r.userInfo == s.userInfo && r.modelPreferences == s.modelPreferences
      && (reply.Returned? ==> r.messages == Some(user + [ChatEntry("assistant", reply.value)]) && shown.None?)
      && (reply.Raised? ==> r.messages == Some(user) && shown == Some(HandleApiError(Message(reply.exc))))
  {
  }

  /** With the default preferences, OpenAI configured and no key, the reply is the model
      factory's missing-key error, so a turn (`ChatAppends`) keeps the user's message, adds
      no reply and shows the API key advice (`MissingOpenAIKeyReported`). */
  lemma ReplyWithoutOpenAIKey(cfg: Settings, invoke: (ModelFactory.ChatModel, seq<ModelFactory.Message>) -> Outcome<string>,
                              prompt: string)
    requires cfg.provider == OpenAI && cfg.openaiApiKey.None?
    ensures AppReply(cfg, invoke, DefaultPreferences(cfg), prompt) == Raised(ValueError(ModelFactory.MissingOpenAIKey))
  {
    var prefs := DefaultPreferences(cfg);
    LookupKeys(prefs, "provider");
    assert Subscript(Dict(prefs), "provider") == Returned(Str("openai"));
    assert ModelFactory.GetChatModel(cfg, Some("openai"), AsOption(Get(Dict(prefs), "granite_model")),
      AsOption(Get(Dict(prefs), "openai_model"))) == Raised(ValueError(ModelFactory.MissingOpenAIKey));
  }

  /** The model factory's missing-key error for OpenAI is reported as an API key problem
      (`Message` of a ValueError is its text). */
  lemma MissingOpenAIKeyReported()
    ensures HandleApiError(ModelFactory.MissingOpenAIKey) == ApiKeyReply
  {
    assert ModelFactory.MissingOpenAIKey == "OpenAI " + "API key" + ModelFactory.NotInEnvironment;
    KeyPhraseReported("OpenAI ", ModelFactory.NotInEnvironment);
  }
}
