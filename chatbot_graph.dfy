/** The chat graph of `langgraph/chatbot_graph.py`: a state dict passed through four nodes
    in a fixed order, each of which updates the state in place and swallows its own
    exceptions. The language model, the JSON decoder, the prompt text and the two tools
    are parameters (`Services`). */
module ChatbotGraph {
  import opened Strings
  import opened PyValue
  import opened Conversation
  import QueryParser
  import opened Config
  import GraphModelFactory

  /** What the graph calls out to. `invoke` stands for the chat clients of the model
      factory, `parserPrompt` for `create_parser_prompt`, `decode` for `json.loads`, `show`
      for `str()` inside f-strings; `weather` and `medical` are the two tool calls. */
  datatype Services = Services(
    cfg: Settings,
    invoke: (GraphModelFactory.Backend, Option<string>, GraphModelFactory.Prompt) -> Outcome<string>,
    parserPrompt: (Value, Context) -> string,
    systemPrompt: string,
    decode: string -> ModelOutput,
    weather: Value -> Outcome<Value>,
    medical: Value -> Outcome<Value>,
    show: Value -> string)

  /** A snapshot of an `AgentState`. */
  datatype Snapshot = Snapshot(
    messages: seq<Entries>,
    context: Context,
    parsedQuery: Value,
    weatherData: Value,
    medicalInfo: Value,
    modelPreferences: Value)

  /** The `AgentState` dict: every node updates it in place, and the conversation context
      is an object of its own that the parser updates too. */
  class AgentState {
    var messages: seq<Entries>
    var context: ConversationContext
    var parsedQuery: Value
    var weatherData: Value
    var medicalInfo: Value
    var modelPreferences: Value

    constructor (s: Snapshot)
      ensures fresh(context)
      ensures State() == s
    {
      messages := s.messages;
      context := new ConversationContext(s.context.userInfo, s.context.previousQueries,
        s.context.extractedInfo, s.context.lastIntent, s.context.lastRequiredActions);
      parsedQuery := s.parsedQuery;
      weatherData := s.weatherData;
      medicalInfo := s.medicalInfo;
      modelPreferences := s.modelPreferences;
    }

    function State(): Snapshot
      reads this, context
    {
      Snapshot(messages, context.State(), parsedQuery, weatherData, medicalInfo, modelPreferences)
    }
  }

  // ---------------------------------------------------------------- default state

  /** The `model_preferences` of a fresh state. */
  function DefaultPreferences(cfg: Settings): (r: Value)
    ensures r.Dict?
    ensures cfg.showModelSelector ==>
      Get(r, "provider") == Str("ibm") && Get(r, "granite_model") == Str("ibm/granite-3-2b-instruct")
    ensures !cfg.showModelSelector ==> Get(r, "provider") == Str(cfg.provider.Value())
  {
    if cfg.showModelSelector then
      Dict(Cons("provider", Str("ibm"),
        Cons("granite_model", Str("ibm/granite-3-2b-instruct"),
        Cons("granite_model_label", Str("Granite 3.2B Instruct"), []))))
    else
      var p := cfg.provider.Value();
      Dict(Cons("provider", Str(p),
        Cons("granite_model", if p == "ibm" then Str(cfg.ibmModel) else Null,
        Cons("openai_model", if p == "openai" then Str(cfg.openaiModel) else Null, []))))
  }

  /** `get_default_state()` */
  function DefaultSnapshot(cfg: Settings): (r: Snapshot)
    ensures r.messages == [] && !Truthy(r.parsedQuery) && !Truthy(r.weatherData) && !Truthy(r.medicalInfo)
    ensures r.context.previousQueries == [] && r.context.extractedInfo == []
    ensures Get(Dict(r.context.userInfo), "name") == Str("") && Get(Dict(r.context.userInfo), "conditions") == List([])
    ensures r.modelPreferences == DefaultPreferences(cfg)
  {
    Snapshot([],
      Context(Cons("name", Str(""), Cons("conditions", List([]), [])), [], [], Null, Null),
      Dict([]), Dict([]), List([]), DefaultPreferences(cfg))
  }

  method GetDefaultState(cfg: Settings) returns (st: AgentState)
    ensures fresh(st) && fresh(st.context)
    ensures st.State() == DefaultSnapshot(cfg)
  {
    st := new AgentState(DefaultSnapshot(cfg));
  }

  /** With the selector off, the default preferences name exactly the provider and model ids
      the model factory would pick on its own. */
  lemma DefaultPreferencesMatchConfig(cfg: Settings)
    requires !cfg.showModelSelector
    ensures var p := DefaultPreferences(cfg);
      GraphModelFactory.Resolution(AsOption(Get(p, "provider")), AsOption(Get(p, "granite_model")), AsOption(Get(p, "openai_model")))
      == GraphModelFactory.Resolve(cfg, None, None, None)
  {
    var p := DefaultPreferences(cfg);
    if cfg.provider == IBM {
      assert Get(p, "granite_model") == Str(cfg.ibmModel);
      assert Get(p, "openai_model") == Null;
    } else {
      assert Get(p, "granite_model") == Null;
      assert Get(p, "openai_model") == Str(cfg.openaiModel);
    }
  }

  /** With the selector on, a fresh state asks IBM's Granite 3.2B Instruct. */
  lemma DefaultPreferencesSelector(cfg: Settings)
    requires cfg.showModelSelector
    ensures var p := DefaultPreferences(cfg);
      GraphModelFactory.Resolve(cfg, AsOption(Get(p, "provider")), AsOption(Get(p, "granite_model")), AsOption(Get(p, "openai_model")))
      == GraphModelFactory.Resolution(Some("ibm"), Some("ibm/granite-3-2b-instruct"), None)
  {
    var p := DefaultPreferences(cfg);
    assert Get(p, "openai_model") == Null;
  }

  // ---------------------------------------------------------------- parse_query node

  /** `last_msg.get("content", None)` of the last message. */
  function LastContent(messages: seq<Entries>): Value
    requires messages != []
  {
    match Lookup(messages[|messages| - 1], "content")
    case Some(c) => c
    case None => Null
  }

  /** The model call of the node, with the preferences read by `.get`. */
  function ParserReply(svc: Services, query: Value, s: Snapshot): Outcome<string> {
    var p := s.modelPreferences;
    GraphModelFactory.GetModelResponse(svc.cfg, svc.invoke,
      GraphModelFactory.Text(svc.parserPrompt(query, s.context)), Some(svc.systemPrompt),
      AsOption(Get(p, "provider")), AsOption(Get(p, "granite_model")), AsOption(Get(p, "openai_model")))
  }

  /** `if "extracted_info" in parsed_result: extracted_info.update(parsed_result["extracted_info"])` */
  function MergeExtracted(info: Entries, rec: Value): Outcome<Entries> {
    var has :- In("extracted_info", rec);
    if !has then Returned(info)
    else
      var extracted :- Subscript(rec, "extracted_info");
      DictUpdate(info, extracted)
  }

  /** The node's own update of the context after a truthy result: append the record, copy its
      whole `extracted_info` over the stored one, then take its intent and actions. A raise
      stops the update where it is. */
  function GraphUpdate(c: Context, rec: Value): (r: Context)
    ensures r.previousQueries == c.previousQueries + [rec]
    ensures r.userInfo == c.userInfo
  {
    var c1 := c.(previousQueries := c.previousQueries + [rec]);
    match MergeExtracted(c1.extractedInfo, rec)
    case Raised(_) => c1
    case Returned(info) =>
      var c2 := c1.(extractedInfo := info);
      match DictGet(rec, "intent", Null)
      case Raised(_) => c2
      case Returned(intent) =>
        var c3 := c2.(lastIntent := intent);
        match DictGet(rec, "required_actions", Null)
        case Raised(_) => c3
        case Returned(actions) => c3.(lastRequiredActions := actions)
  }

  /** `parse_query(state)`: every exception is caught and the state, as far as it was
      updated, is returned. */
  function ParseNode(svc: Services, s: Snapshot): Snapshot {
    if s.messages == [] || !s.modelPreferences.Dict? then s
    else
      var query := LastContent(s.messages);
      match ParserReply(svc, query, s)
      case Raised(_) => s
      case Returned(text) =>
        var e := QueryParser.ParseQuerySpec(query, s.context, svc.decode(text));
        match e.outcome
        case Raised(_) => s.(context := e.after)
        case Returned(rec) =>
          s.(context := if Truthy(rec) then GraphUpdate(e.after, rec) else e.after, parsedQuery := rec)
  }

  method ParseQueryNode(st: AgentState, svc: Services)
    modifies st, st.context
    ensures st.context == old(st.context)
    ensures st.State() == ParseNode(svc, old(st.State()))
  {
    if st.messages == [] || !st.modelPreferences.Dict? {
      return;
    }
    var query := LastContent(st.messages);
    var reply := ParserReply(svc, query, st.State());
    if reply.Raised? {
      return;
    }
    var parsed := QueryParser.ParseQuery(query, st.context, svc.decode(reply.value));
    if parsed.Raised? {
      return;
    }
    var rec := parsed.value;
    st.parsedQuery := rec;
    if Truthy(rec) {
      ApplyGraphUpdate(st.context, rec);
    }
  }

  /** The node's update of the shared context after a truthy result, step by step; a raise
      leaves the steps before it in place. */
  method ApplyGraphUpdate(ctx: ConversationContext, rec: Value)
    modifies ctx
    ensures ctx.State() == GraphUpdate(old(ctx.State()), rec)
  {
    ctx.previousQueries := ctx.previousQueries + [rec];
    var merged := MergeExtracted(ctx.extractedInfo, rec);
    if merged.Raised? {
      return;
    }
    ctx.extractedInfo := merged.value;
    var intent := DictGet(rec, "intent", Null);
    if intent.Raised? {
      return;
    }
    ctx.lastIntent := intent.value;
    var actions := DictGet(rec, "required_actions", Null);
    if actions.Raised? {
      return;
    }
    ctx.lastRequiredActions := actions.value;
  }

  /** Without messages, or without a preferences dict, the node changes nothing. */
  lemma ParseNodeIdle(svc: Services, s: Snapshot)
    requires s.messages == [] || !s.modelPreferences.Dict?
    ensures ParseNode(svc, s) == s
  {
  }

  /** The node never touches the messages, the fetched data or the preferences. */
  lemma ParseNodeFrame(svc: Services, s: Snapshot)
    ensures var r := ParseNode(svc, s);
      r.messages == s.messages && r.weatherData == s.weatherData
      && r.medicalInfo == s.medicalInfo && r.modelPreferences == s.modelPreferences
  {
  }

  /** When the parser returns a record, the node stores it as the parsed query, and the
      previous queries grow by the raw message (when the reply decoded) and then, if the
      record is truthy, by the record itself: a turn can leave two entries behind. */
  lemma ParseNodeRecords(svc: Services, s: Snapshot)
    requires s.messages != [] && s.modelPreferences.Dict?
    requires ParserReply(svc, LastContent(s.messages), s).Returned?
    requires var text := ParserReply(svc, LastContent(s.messages), s).value;
      QueryParser.ParseQuerySpec(LastContent(s.messages), s.context, svc.decode(text)).outcome.Returned?
    ensures var text := ParserReply(svc, LastContent(s.messages), s).value;
      var rec := QueryParser.ParseQuerySpec(LastContent(s.messages), s.context, svc.decode(text)).outcome.value;
      var r := ParseNode(svc, s);
      r.parsedQuery == rec
      && r.context.previousQueries == s.context.previousQueries
           + (if svc.decode(text).Decoded? then [LastContent(s.messages)] else [])
           + (if Truthy(rec) then [rec] else [])
  {
    var query := LastContent(s.messages);
    var text := ParserReply(svc, query, s).value;
    var out := svc.decode(text);
    if out.Decoded? {
      QueryParser.ParseAppendsQuery(query, s.context, out.record);
    }
  }

  /** The graph's update copies the record's `extracted_info` wholesale: each of its keys,
      None included, replaces what the parser stored; intent and actions follow the record. */
  lemma {:induction false} GraphUpdateOverwrites(c: Context, rec: Value, info: Entries, k: string)
    requires rec.Dict? && Lookup(rec.entries, "extracted_info") == Some(Dict(info)) && UniqueKeys(info)
    ensures var t := GraphUpdate(c, rec);
      Lookup(t.extractedInfo, k) == (if k in Keys(info) then Lookup(info, k) else Lookup(c.extractedInfo, k))
      && t.lastIntent == Get(rec, "intent")
      && t.lastRequiredActions == Get(rec, "required_actions")
      && t.previousQueries == c.previousQueries + [rec]
  {
    LookupKeys(rec.entries, "extracted_info");
    assert MergeExtracted(c.extractedInfo, rec) == Returned(StoreAll(c.extractedInfo, info));
    StoreAllOverrides(c.extractedInfo, info, k);
  }

  /** So a record that reports the location as None erases a location the parser had kept:
      after the node the location is no longer known, whatever was stored before. */
  lemma ParseNodeErasesLocation(svc: Services, s: Snapshot, info: Entries)
    requires s.messages != [] && s.modelPreferences.Dict?
    requires ParserReply(svc, LastContent(s.messages), s).Returned?
    requires var text := ParserReply(svc, LastContent(s.messages), s).value;
      var rec := QueryParser.ParseQuerySpec(LastContent(s.messages), s.context, svc.decode(text)).outcome;
      rec.Returned? && rec.value.Dict? && Lookup(rec.value.entries, "extracted_info") == Some(Dict(info))
    requires UniqueKeys(info) && Lookup(info, "location") == Some(Null)
    ensures !Known(ParseNode(svc, s).context.extractedInfo, "location")
  {
    var query := LastContent(s.messages);
    var text := ParserReply(svc, query, s).value;
    var e := QueryParser.ParseQuerySpec(query, s.context, svc.decode(text));
    var rec := e.outcome.value;
    assert rec.entries != [];
    LookupKeys(info, "location");
    GraphUpdateOverwrites(e.after, rec, info, "location");
  }

  // ---------------------------------------------------------------- tool nodes

  /** The gate and call shared by `get_weather_data` and `get_medical_info`: with a truthy
      parsed query whose intent is `intent` and whose `extracted_info[key]` is truthy, the
      tool's result; nothing when the gate is closed or anything raises. */
  function Fetch(pq: Value, intent: string, key: string, tool: Value -> Outcome<Value>): (r: Option<Value>)
    ensures r.Some? ==>
      Truthy(pq) && Get(pq, "intent") == Str(intent)
      && Truthy(Get(Get(pq, "extracted_info"), key))
      && tool(Get(Get(pq, "extracted_info"), key)) == Returned(r.value)
    ensures (pq.Dict? && pq.entries != [] && Get(pq, "intent") == Str(intent)
             && (Get(pq, "extracted_info").Dict? || Lookup(pq.entries, "extracted_info").None?)
             && Truthy(Get(Get(pq, "extracted_info"), key))
             && tool(Get(Get(pq, "extracted_info"), key)).Returned?) ==>
      r == Some(tool(Get(Get(pq, "extracted_info"), key)).value)
  {
    if !Truthy(pq) then None
    else match DictGet(pq, "intent", Null)
      case Raised(_) => None
      case Returned(i) =>
        if i != Str(intent) then None
        else match DictGet(pq, "extracted_info", Dict([]))
          case Raised(_) => None
          case Returned(info) =>
            match DictGet(info, key, Null)
            case Raised(_) => None
            case Returned(arg) =>
              if !Truthy(arg) then None
              else match tool(arg)
                case Raised(_) => None
                case Returned(v) => Some(v)
  }

  /** `get_weather_data(state)` */
  function WeatherNode(svc: Services, s: Snapshot): Snapshot {
    match Fetch(s.parsedQuery, "weather_inquiry", "location", svc.weather)
    case None => s
    case Some(w) => s.(weatherData := w)
  }

  /** `get_medical_info(state)` */
  function MedicalNode(svc: Services, s: Snapshot): Snapshot {
    match Fetch(s.parsedQuery, "health_inquiry", "condition", svc.medical)
    case None => s
    case Some(m) => s.(medicalInfo := m)
  }

  method GetWeatherDataNode(st: AgentState, svc: Services)
    modifies st
    ensures st.context == old(st.context)
    ensures st.State() == WeatherNode(svc, old(st.State()))
  {
    var fetched := Fetch(st.parsedQuery, "weather_inquiry", "location", svc.weather);
    if fetched.Some? {
      st.weatherData := fetched.value;
    }
  }

  method GetMedicalInfoNode(st: AgentState, svc: Services)
    modifies st
    ensures st.context == old(st.context)
    ensures st.State() == MedicalNode(svc, old(st.State()))
  {
    var fetched := Fetch(st.parsedQuery, "health_inquiry", "condition", svc.medical);
    if fetched.Some? {
      st.medicalInfo := fetched.value;
    }
  }

  /** The weather node changes the weather data and nothing else, and only for a
      `weather_inquiry` with a truthy location, to what the tool returned for it. */
  lemma WeatherNodeGate(svc: Services, s: Snapshot)
    ensures var r := WeatherNode(svc, s);
      var loc := Get(Get(s.parsedQuery, "extracted_info"), "location");
      r == s.(weatherData := r.weatherData)
      && (r != s ==> Get(s.parsedQuery, "intent") == Str("weather_inquiry") && Truthy(loc)
                     && svc.weather(loc) == Returned(r.weatherData))
  {
  }

  /** The medical node changes the medical info and nothing else, and only for a
      `health_inquiry` with a truthy condition, to what the tool returned for it. */
  lemma MedicalNodeGate(svc: Services, s: Snapshot)
    ensures var r := MedicalNode(svc, s);
      var cond := Get(Get(s.parsedQuery, "extracted_info"), "condition");
      r == s.(medicalInfo := r.medicalInfo)
      && (r != s ==> Get(s.parsedQuery, "intent") == Str("health_inquiry") && Truthy(cond)
                     && svc.medical(cond) == Returned(r.medicalInfo))
  {
  }

  // ---------------------------------------------------------------- responses

  const NoWeather := "I couldn't retrieve the weather information."
  const NoMedical := "I couldn't find specific medical information for your query."
  const MedicalHeader := "Here's what I found:\n\n"
  const Fallback := "I understand your query. How can I help you further?"

  /** `d.get(k, default)` on a dict's entries. */
  function GetOr(es: Entries, k: string, default: Value): Value {
    match Lookup(es, k)
    case Some(x) => x
    case None => default
  }

  /** The AttributeError of `v.get(...)` on a value that is not a dict. */
  function NoGet(v: Value): Exception {
    AttributeError("'" + TypeName(v) + NoGetMessage)
  }

  /** The first line of a weather report. */
  function WeatherHeadline(show: Value -> string, es: Entries): string {
    "Current weather in " + Format(show, GetOr(es, "location", Str("the specified location"))) + ":\n"
  }

  /** The four lines after it. */
  function WeatherDetails(show: Value -> string, es: Entries): (r: string)
    ensures |r| >= 5 && r[|r| - 5..] == " km/h"
  {
    var front := "Temperature: " + Format(show, GetOr(es, "temperature", Str("N/A"))) + "°C\n"
      + "Conditions: " + Format(show, GetOr(es, "conditions", Str("N/A"))) + "\n"
      + "Humidity: " + Format(show, GetOr(es, "humidity", Str("N/A"))) + "%\n"
      + "Wind Speed: " + Format(show, GetOr(es, "wind_speed", Str("N/A")));
    front + " km/h"
  }

  /** `format_weather_response(weather_data)`: five lines, each value `str()`-ed, with a
      default for each missing key. */
  function FormatWeather(show: Value -> string, wd: Value): (r: Outcome<string>)
    ensures !Truthy(wd) ==> r == Returned(NoWeather)
    ensures r.Returned? <==> !Truthy(wd) || wd.Dict?
    ensures Truthy(wd) && r.Returned? ==>
      StartsWith(r.value, "Current weather in ") && |r.value| >= 5 && r.value[|r.value| - 5..] == " km/h"
  {
    if !Truthy(wd) then Returned(NoWeather)
    else match wd
      case Dict(es) =>
        var head := WeatherHeadline(show, es);
        var details := WeatherDetails(show, es);
        assert (head + details)[..|"Current weather in "|] == "Current weather in ";
        assert (head + details)[|head + details| - 5..] == details[|details| - 5..];
        Returned(head + details)
      case _ => Raised(NoGet(wd))
  }

  /** The first line names the stored location, or "the specified location" when there is none. */
  lemma WeatherTextNamesLocation(show: Value -> string, wd: Value)
    requires wd.Dict? && wd.entries != []
    ensures var loc := match Lookup(wd.entries, "location") case Some(l) => Format(show, l) case None => "the specified location";
      StartsWith(FormatWeather(show, wd).value, "Current weather in " + loc + ":\n")
  {
    var head := WeatherHeadline(show, wd.entries);
    assert FormatWeather(show, wd).value == head + WeatherDetails(show, wd.entries);
    assert (head + WeatherDetails(show, wd.entries))[..|head|] == head;
  }

  /** One `• title` / `  summary` pair of `format_medical_response`. */
  function Bullet(show: Value -> string, info: Value): (r: Outcome<string>)
    ensures r.Returned? <==> info.Dict?
    ensures r.Returned? ==> StartsWith(r.value, "• ")
    ensures r.Raised? ==> r.exc == NoGet(info)
  {
    match info
    case Dict(es) =>
      var title := "• " + Format(show, GetOr(es, "title", Str("N/A"))) + "\n";
      var summary := "  " + Format(show, GetOr(es, "summary", Str("No summary available"))) + "\n\n";
      assert (title + summary)[..|"• "|] == "• ";
      Returned(title + summary)
    case _ => Raised(NoGet(info))
  }

  /** The bullets of the items, in order; the first item that is not a dict raises. */
  function Bullets(show: Value -> string, items: seq<Value>): Outcome<string>
    decreases |items|
  {
    if items == [] then Returned("")
    else
      var init :- Bullets(show, items[..|items| - 1]);
      var last :- Bullet(show, items[|items| - 1]);
      Returned(init + last)
  }

  /** `format_medical_response(medical_info)` */
  function FormatMedical(show: Value -> string, mi: Value): Outcome<string> {
    if !Truthy(mi) then Returned(NoMedical)
    else
      var items :- Iterate(mi);
      var body :- Bullets(show, items);
      Returned(MedicalHeader + body)
  }

  /** Once a prefix of the items raises, the whole loop raises the same exception. */
  lemma {:induction false} BulletsPrefixRaises(show: Value -> string, items: seq<Value>, i: nat)
    requires i <= |items|
    requires Bullets(show, items[..i]).Raised?
    ensures Bullets(show, items) == Bullets(show, items[..i])
    decreases |items| - i
  {
    if i < |items| {
      assert items[..i + 1][..i] == items[..i];
      assert Bullets(show, items[..i + 1]) == Bullets(show, items[..i]);
      BulletsPrefixRaises(show, items, i + 1);
    } else {
      assert items[..i] == items;
    }
  }

  /** One more item adds its bullet, or raises its error. */
  lemma BulletsStep(show: Value -> string, items: seq<Value>, i: nat)
    requires i < |items| && Bullets(show, items[..i]).Returned?
    ensures Bullets(show, items[..i + 1]) ==
      if items[i].Dict? then Returned(Bullets(show, items[..i]).value + Bullet(show, items[i]).value)
      else Raised(NoGet(items[i]))
  {
    assert items[..i + 1][..i] == items[..i];
    assert items[..i + 1][i] == items[i];
  }

  /** One pass of the loop: `info`'s two lines appended to `response`, or the AttributeError
      of `info.get` when `info` is not a dict. */
  method AddBullet(show: Value -> string, response: string, info: Value) returns (r: Outcome<string>)
    ensures r == match Bullet(show, info) case Returned(b) => Returned(response + b) case Raised(e) => Raised(e)
  {
    var title := DictGet(info, "title", Str("N/A"));
    if title.Raised? {
      return Raised(title.exc);
    }
    var es := info.entries;
    var titleLine := "• " + Format(show, title.value) + "\n";
    var summaryLine := "  " + Format(show, GetOr(es, "summary", Str("No summary available"))) + "\n\n";
    assert Bullet(show, info) == Returned(titleLine + summaryLine);
    Assoc(response, titleLine, summaryLine);
    r := Returned(response + titleLine + summaryLine);
  }

  method FormatMedicalResponse(show: Value -> string, mi: Value) returns (r: Outcome<string>)
    ensures r == FormatMedical(show, mi)
  {
    if !Truthy(mi) {
      return Returned(NoMedical);
    }
    var iterated := Iterate(mi);
    if iterated.Raised? {
      return Raised(iterated.exc);
    }
    var items := iterated.value;
    var response := MedicalHeader;
    var i := 0;
    while i < |items|
      invariant 0 <= i <= |items|
      invariant Bullets(show, items[..i]).Returned?
      invariant response == MedicalHeader + Bullets(show, items[..i]).value
    {
      BulletsStep(show, items, i);
      var next := AddBullet(show, response, items[i]);
      if next.Raised? {
        BulletsPrefixRaises(show, items, i + 1);
        return next;
      }
      Assoc(MedicalHeader, Bullets(show, items[..i]).value, Bullet(show, items[i]).value);
      response := next.value;
      i := i + 1;
    }
    assert items[..i] == items;
    r := Returned(response);
  }

  /** The loop's last step: the bullets of all but the last item, then the last one's. */
  lemma BulletsSnoc(show: Value -> string, zs: seq<Value>)
    requires zs != []
    ensures var init := Bullets(show, zs[..|zs| - 1]);
      var last := Bullet(show, zs[|zs| - 1]);
      Bullets(show, zs) ==
        if init.Raised? then init
        else if last.Raised? then Raised(last.exc)
        else Returned(init.value + last.value)
  {
  }

  lemma Assoc(a: string, b: string, c: string)
    ensures (a + b) + c == a + (b + c)
  {
  }

  /** Bulleting two runs of items one after the other gives the two texts one after the other. */
  lemma {:induction false} BulletsAppend(show: Value -> string, xs: seq<Value>, ys: seq<Value>)
    requires Bullets(show, xs).Returned? && Bullets(show, ys).Returned?
    ensures Bullets(show, xs + ys) == Returned(Bullets(show, xs).value + Bullets(show, ys).value)
    decreases |ys|
  {
    if ys == [] {
      assert xs + ys == xs;
      assert Bullets(show, xs).value + "" == Bullets(show, xs).value;
    } else {
      var init := ys[..|ys| - 1];
      var last := ys[|ys| - 1];
      BulletsSnoc(show, ys);
      BulletsSnoc(show, xs + ys);
      assert (xs + ys)[..|xs + ys| - 1] == xs + init;
      assert (xs + ys)[|xs + ys| - 1] == last;
      BulletsAppend(show, xs, init);
      Assoc(Bullets(show, xs).value, Bullets(show, init).value, Bullet(show, last).value);
    }
  }

  /** With dicts only, the text splits around any one item's bullet. */
  lemma BulletsAround(show: Value -> string, items: seq<Value>, i: nat)
    requires forall j :: 0 <= j < |items| ==> items[j].Dict?
    requires i < |items|
    ensures Bullets(show, items[..i]).Returned? && Bullets(show, items[i + 1..]).Returned?
    ensures Bullets(show, items) == Returned((Bullets(show, items[..i]).value + Bullet(show, items[i]).value)
                                             + Bullets(show, items[i + 1..]).value)
  {
    BulletsOfDicts(show, items[..i]);
    BulletsOfDicts(show, items[i + 1..]);
    BulletsStep(show, items, i);
    BulletsAppend(show, items[..i + 1], items[i + 1..]);
    assert items[..i + 1] + items[i + 1..] == items;
  }

  /** A list of dicts is reported in full and in order: after the header, item `i`'s bullet
      starts right after the bullets of the items before it. */
  lemma MedicalTextListsEach(show: Value -> string, items: seq<Value>, i: nat)
    requires items != [] && forall j :: 0 <= j < |items| ==> items[j].Dict?
    requires i < |items|
    ensures FormatMedical(show, List(items)).Returned? && Bullets(show, items[..i]).Returned?
    ensures OccursAt(FormatMedical(show, List(items)).value, Bullet(show, items[i]).value,
                     |MedicalHeader| + |Bullets(show, items[..i]).value|)
  {
    BulletsAround(show, items, i);
    var before, bullet, after := Bullets(show, items[..i]).value, Bullet(show, items[i]).value,
      Bullets(show, items[i + 1..]).value;
    FormatMedicalOfList(show, items, (before + bullet) + after);
    OccursBetween(MedicalHeader, before, bullet, after);
  }

  /** A non-empty list whose bullets are built is reported as the header followed by them. */
  lemma FormatMedicalOfList(show: Value -> string, items: seq<Value>, body: string)
    requires items != [] && Bullets(show, items) == Returned(body)
    ensures FormatMedical(show, List(items)) == Returned(MedicalHeader + body)
  {
    assert Iterate(List(items)) == Returned(items);
  }

  lemma OccursBetween(h: string, x: string, p: string, y: string)
    ensures OccursAt(h + ((x + p) + y), p, |h| + |x|)
  {
    assert h + ((x + p) + y) == (h + x) + p + y;
    assert ((h + x) + p + y)[|h + x|..|h + x| + |p|] == p;
  }

  lemma {:induction false} BulletsOfDicts(show: Value -> string, items: seq<Value>)
    requires forall j :: 0 <= j < |items| ==> items[j].Dict?
    ensures Bullets(show, items).Returned?
    decreases |items|
  {
    if items != [] {
      BulletsOfDicts(show, items[..|items| - 1]);
    }
  }

  /** The reply `generate_response` builds for the parsed intent. */
  function ResponseText(show: Value -> string, s: Snapshot): Outcome<string> {
    var intent :- DictGet(s.parsedQuery, "intent", Null);
    if intent == Str("weather_inquiry") then FormatWeather(show, s.weatherData)
    else if intent == Str("health_inquiry") then FormatMedical(show, s.medicalInfo)
    else Returned(Fallback)
  }

  /** `{"role": "assistant", "content": text}` */
  function AssistantMessage(text: string): Entries {
    Cons("role", Str("assistant"), Cons("content", Str(text), []))
  }

  /** `generate_response(state)` */
  function GenerateNode(svc: Services, s: Snapshot): Snapshot {
    if !Truthy(s.parsedQuery) then s
    else match ResponseText(svc.show, s)
      case Raised(_) => s
      case Returned(t) => s.(messages := s.messages + [AssistantMessage(t)])
  }

  method GenerateResponseNode(st: AgentState, svc: Services)
    modifies st
    ensures st.context == old(st.context)
    ensures st.State() == GenerateNode(svc, old(st.State()))
  {
    if !Truthy(st.parsedQuery) {
      return;
    }
    var intent := DictGet(st.parsedQuery, "intent", Null);
    if intent.Raised? {
      return;
    }
    var response: Outcome<string>;
    if intent.value == Str("weather_inquiry") {
      response := FormatWeather(svc.show, st.weatherData);
    } else if intent.value == Str("health_inquiry") {
      response := FormatMedicalResponse(svc.show, st.medicalInfo);
    } else {
      response := Returned(Fallback);
    }
    if response.Raised? {
      return;
    }
    st.messages := st.messages + [AssistantMessage(response.value)];
  }

  /** The node appends at most one message, an assistant message, and changes nothing else;
      for a truthy dict as parsed query it appends exactly when the reply can be built. */
  lemma GenerateNodeAppends(svc: Services, s: Snapshot)
    ensures var r := GenerateNode(svc, s);
      r == s.(messages := r.messages)
      && (r.messages == s.messages
          || (ResponseText(svc.show, s).Returned?
              && r.messages == s.messages + [AssistantMessage(ResponseText(svc.show, s).value)]))
    ensures s.parsedQuery.Dict? && s.parsedQuery.entries != [] && ResponseText(svc.show, s).Returned? ==>
      GenerateNode(svc, s).messages == s.messages + [AssistantMessage(ResponseText(svc.show, s).value)]
  {
  }

  /** The intents the parser's prompt offers. */
  const PromptIntents: seq<string> := ["weather_health", "medical_research", "general_health", "irrelevant"]

  /** The graph tests for `weather_inquiry` and `health_inquiry`, which the prompt never
      offers: for any intent the prompt does offer, neither tool runs and the reply is the
      fixed fallback. */
  lemma PromptIntentsFallBack(svc: Services, s: Snapshot)
    requires s.parsedQuery.Dict? && s.parsedQuery.entries != []
    requires Get(s.parsedQuery, "intent").Str? && Get(s.parsedQuery, "intent").s in PromptIntents
    ensures WeatherNode(svc, s) == s
    ensures MedicalNode(svc, s) == s
    ensures GenerateNode(svc, s).messages == s.messages + [AssistantMessage(Fallback)]
  {
    OtherIntentFallsBack(svc, s);
  }

  /** A non-empty parsed record whose intent is neither of the two the graph tests for. */
  predicate OtherIntent(pq: Value) {
    pq.Dict? && pq.entries != [] && Get(pq, "intent") !in [Str("weather_inquiry"), Str("health_inquiry")]
  }

  /** Any intent other than the two the graph tests for: no tool runs, the fallback is the reply. */
  lemma OtherIntentFallsBack(svc: Services, s: Snapshot)
    requires OtherIntent(s.parsedQuery)
    ensures WeatherNode(svc, s) == s
    ensures MedicalNode(svc, s) == s
    ensures GenerateNode(svc, s) == s.(messages := s.messages + [AssistantMessage(Fallback)])
  {
  }

  // ---------------------------------------------------------------- the graph

  const EntryPoint := "parse_query"

  /** The edges `create_chatbot` adds, in order. */
  const Edges: seq<(string, string)> := [
    ("parse_query", "get_weather_data"),
    ("get_weather_data", "get_medical_info"),
    ("get_medical_info", "generate_response")]

  /** The target of the first edge out of `n`. */
  function Successor(edges: seq<(string, string)>, n: string): Option<string> {
    if edges == [] then None
    else if edges[0].0 == n then Some(edges[0].1)
    else Successor(edges[1..], n)
  }

  /** The nodes visited from `n` along at most `steps` edges. */
  function Path(edges: seq<(string, string)>, n: string, steps: nat): seq<string>
    decreases steps
  {
    [n] + if steps == 0 then [] else match Successor(edges, n)
      case None => []
      case Some(m) => Path(edges, m, steps - 1)
  }

  /** The node called `name`. */
  function RunNode(svc: Services, name: string, s: Snapshot): Snapshot {
    if name == "parse_query" then ParseNode(svc, s)
    else if name == "get_weather_data" then WeatherNode(svc, s)
    else if name == "get_medical_info" then MedicalNode(svc, s)
    else if name == "generate_response" then GenerateNode(svc, s)
    else s
  }

  function RunPath(svc: Services, path: seq<string>, s: Snapshot): Snapshot
    decreases |path|
  {
    if path == [] then s else RunPath(svc, path[1..], RunNode(svc, path[0], s))
  }

  /** One invocation of the compiled graph. */
  function Turn(svc: Services, s: Snapshot): Snapshot {
    RunPath(svc, Path(Edges, EntryPoint, |Edges|), s)
  }

  /** The edges chain the four nodes from the entry point, each once, so one turn is the four
      nodes in edge order. */
  lemma TurnUnfolds(svc: Services, s: Snapshot)
    ensures Path(Edges, EntryPoint, |Edges|) == ["parse_query", "get_weather_data", "get_medical_info", "generate_response"]
    ensures Turn(svc, s) == GenerateNode(svc, MedicalNode(svc, WeatherNode(svc, ParseNode(svc, s))))
  {
    assert Successor(Edges, "parse_query") == Some("get_weather_data");
    assert Successor(Edges[1..], "get_weather_data") == Some("get_medical_info");
    assert Successor(Edges, "get_weather_data") == Some("get_medical_info");
    assert Successor(Edges[1..][1..], "get_medical_info") == Some("generate_response");
    assert Successor(Edges, "get_medical_info") == Some("generate_response");
    assert Path(Edges, "generate_response", 0) == ["generate_response"];
    assert Path(Edges, "get_medical_info", 1) == ["get_medical_info", "generate_response"];
    assert Path(Edges, "get_weather_data", 2) == ["get_weather_data", "get_medical_info", "generate_response"];
    var path := ["parse_query", "get_weather_data", "get_medical_info", "generate_response"];
    assert path[1..][1..][1..][1..] == [];
  }

  method RunTurn(st: AgentState, svc: Services)
    modifies st, st.context
    ensures st.context == old(st.context)
    ensures st.State() == Turn(svc, old(st.State()))
  {
    TurnUnfolds(svc, st.State());
    ParseQueryNode(st, svc);
    GetWeatherDataNode(st, svc);
    GetMedicalInfoNode(st, svc);
    GenerateResponseNode(st, svc);
  }

  /** A turn keeps every message it was given and adds at most one, from the assistant. */
  lemma TurnKeepsMessages(svc: Services, s: Snapshot)
    ensures var r := Turn(svc, s);
      r.messages == s.messages || (|r.messages| == |s.messages| + 1 && r.messages[..|s.messages|] == s.messages
                                   && Lookup(r.messages[|s.messages|], "role") == Some(Str("assistant")))
  {
    TurnUnfolds(svc, s);
    var s3 := MedicalNode(svc, WeatherNode(svc, ParseNode(svc, s)));
    ParseNodeFrame(svc, s);
    WeatherNodeGate(svc, ParseNode(svc, s));
    MedicalNodeGate(svc, WeatherNode(svc, ParseNode(svc, s)));
    GenerateNodeAppends(svc, s3);
  }
  /** A reply that is not JSON: the parser's error record becomes the parsed query and the
      one new previous query, neither tool runs, and the turn ends with the fallback reply. */
  lemma TurnMalformedReply(svc: Services, s: Snapshot)
    requires s.messages != [] && s.modelPreferences.Dict?
    requires ParserReply(svc, LastContent(s.messages), s).Returned?
    requires svc.decode(ParserReply(svc, LastContent(s.messages), s).value) == Malformed
    ensures var rec := QueryParser.DecodeErrorRecord();
      Turn(svc, s) == s.(context := GraphUpdate(s.context, rec), parsedQuery := rec,
                         messages := s.messages + [AssistantMessage(Fallback)])
  {
    MalformedParse(svc, s);
    ErrorRecordOtherIntent();
    TurnFallsBack(svc, s);
  }

  /** The parse step of a turn whose reply is not JSON stores the error record, which is
      truthy, so the graph's update appends it as well. */
  lemma MalformedParse(svc: Services, s: Snapshot)
    requires s.messages != [] && s.modelPreferences.Dict?
    requires ParserReply(svc, LastContent(s.messages), s).Returned?
    requires svc.decode(ParserReply(svc, LastContent(s.messages), s).value) == Malformed
    ensures var rec := QueryParser.DecodeErrorRecord();
      ParseNode(svc, s) == s.(context := GraphUpdate(s.context, rec), parsedQuery := rec)
  {
    var rec := QueryParser.DecodeErrorRecord();
    assert Lookup(rec.entries, "intent").Some?;
  }

  /** The error record's intent is "error", which neither tool answers. */
  lemma ErrorRecordOtherIntent()
    ensures OtherIntent(QueryParser.DecodeErrorRecord())
  {
    var rec := QueryParser.DecodeErrorRecord();
    assert Lookup(rec.entries, "intent").Some?;
  }

  /** A turn whose parse step leaves an intent neither tool answers: the turn is that step
      followed by the fallback reply. */
  lemma TurnFallsBack(svc: Services, s: Snapshot)
    requires OtherIntent(ParseNode(svc, s).parsedQuery)
    ensures Turn(svc, s) == ParseNode(svc, s).(messages := s.messages + [AssistantMessage(Fallback)])
  {
    TurnUnfolds(svc, s);
    ParseNodeFrame(svc, s);
    OtherIntentFallsBack(svc, ParseNode(svc, s));
  }
}
