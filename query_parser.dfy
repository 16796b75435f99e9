/** `QueryParserTool` of the `langgraph/query_parser` package, the parser the chat graph
    imports. Its `parse_query` appends the raw query, merges only truthy values of three
    fixed keys, forces the data-fetch flags of a complete record, and catches nothing but
    a JSON decoding error; it does not call `_update_context`. */
module QueryParser {
  import opened Strings
  import opened PyValue
  import opened Conversation

  /** The `required_actions` of the decoding-error record: nothing to fetch, nothing missing. */
  function DecodeErrorActions(): (r: Value)
    ensures Get(r, "needs_weather_data") == Bool(false) && Get(r, "needs_medical_research") == Bool(false)
    ensures Get(r, "missing_info") == List([])
  {
    Dict(
      Cons("needs_weather_data", Bool(false),
      Cons("needs_medical_research", Bool(false),
      Cons("missing_info", List([]), []))))
  }

  /** The apology the decoding-error record shows. */
  const DecodeErrorText := "I apologize, but I encountered an error processing your request. Please try again."

  /** The `response` of the decoding-error record: an apology of type "error". */
  function DecodeErrorReply(): (r: Value)
    ensures Get(r, "type") == Str("error")
  {
    Dict(
      Cons("text", Str(DecodeErrorText),
      Cons("type", Str("error"), [])))
  }

  /** The record `parse_query` returns when the model's reply is not JSON. */
  function DecodeErrorRecord(): (r: Value)
    ensures Get(r, "intent") == Str("error")
    ensures Get(r, "extracted_info") == Dict([])
  {
    Dict(
      Cons("intent", Str("error"),
      Cons("extracted_info", Dict([]),
      Cons("relevance", Dict(
        Cons("is_relevant", Bool(false),
        Cons("reason", Str("Invalid response format"), []))),
      Cons("required_actions", DecodeErrorActions(),
      Cons("is_complete", Bool(false),
      Cons("can_answer", Bool(false),
      Cons("context_used", Dict(
        Cons("previous_queries", Bool(false),
        Cons("user_health_info", Bool(false), []))),
      Cons("response", DecodeErrorReply(),
      [])))))))))
  }

  /** `if parsed["extracted_info"][key]: context.extracted_info[key] = ...` */
  function MergeTruthy(rec: Value, info: Entries, key: string): Outcome<Entries> {
    var extracted :- Subscript(rec, "extracted_info");
    var v :- Subscript(extracted, key);
    Returned(if Truthy(v) then Store(info, key, v) else info)
  }

  /** One truthy merge stores the record's value under its key when that value is truthy, and
      changes nothing else. */
  lemma MergeTruthyEffect(rec: Value, info: Entries, key: string, k: string)
    requires MergeTruthy(rec, info, key).Returned?
    ensures var v := Get(Get(rec, "extracted_info"), key);
      Lookup(MergeTruthy(rec, info, key).value, k) == if k == key && Truthy(v) then Some(v) else Lookup(info, k)
  {
  }

  /** Both `needs_*` flags of a `required_actions` value set to True, in that order. */
  function ForceActions(actions: Value): Outcome<Value> {
    var withWeather :- SetItem(actions, "needs_weather_data", Bool(true));
    SetItem(withWeather, "needs_medical_research", Bool(true))
  }

  /** `after` is the dict `before` with both `needs_*` flags True and every other entry kept. */
  ghost predicate FlagsForced(before: Value, after: Value) {
    before.Dict? && after.Dict?
    && Get(after, "needs_weather_data") == Bool(true) && Get(after, "needs_medical_research") == Bool(true)
    && forall k :: k != "needs_weather_data" && k != "needs_medical_research" ==>
         Lookup(after.entries, k) == Lookup(before.entries, k)
  }

  /** Forcing the actions succeeds exactly on a dict, leaves both flags True and keeps every
      other entry (`missing_info` among them). */
  lemma ForceActionsSets(actions: Value)
    ensures ForceActions(actions).Returned? <==> actions.Dict?
    ensures ForceActions(actions).Returned? ==> FlagsForced(actions, ForceActions(actions).value)
  {
    if actions.Dict? {
      var a1 := SetItem(actions, "needs_weather_data", Bool(true)).value;
      assert ForceActions(actions) == SetItem(a1, "needs_medical_research", Bool(true));
      assert Lookup(a1.entries, "needs_weather_data") == Some(Bool(true));
    }
  }

  /** `if parsed["is_complete"]:` both `needs_*` flags of `required_actions` are set to True. */
  function ForceFlags(rec: Value): Outcome<Value> {
    var complete :- Subscript(rec, "is_complete");
    if !Truthy(complete) then Returned(rec)
    else
      var actions :- Subscript(rec, "required_actions");
      var forced :- ForceActions(actions);
      SetItem(rec, "required_actions", forced)
  }

  /** Forcing the flags gives back a dict that differs from the record at most under
      `required_actions`. */
  lemma ForceFlagsKeeps(rec: Value)
    requires ForceFlags(rec).Returned?
    ensures var r := ForceFlags(rec).value;
      r.Dict? && rec.Dict? && forall k :: k != "required_actions" ==> Lookup(r.entries, k) == Lookup(rec.entries, k)
  {
    if Truthy(Subscript(rec, "is_complete").value) {
      var actions := Subscript(rec, "required_actions").value;
      var forced := ForceActions(actions).value;
      assert ForceFlags(rec) == SetItem(rec, "required_actions", forced);
    }
  }

  /** `parse_query(query, context, model_response)` on a context snapshot. */
  function ParseQuerySpec(query: Value, s: Context, out: ModelOutput): Effect<Context, Value> {
    match out
    case Malformed => Effect(s, Returned(DecodeErrorRecord()))
    case Decoded(rec) =>
      var s1 := s.(previousQueries := s.previousQueries + [query]);
      match MergeTruthy(rec, s1.extractedInfo, "location")
      case Raised(e) => Effect(s1, Raised(e))
      case Returned(i1) =>
        var s2 := s1.(extractedInfo := i1);
        match MergeTruthy(rec, i1, "date_range")
        case Raised(e) => Effect(s2, Raised(e))
        case Returned(i2) =>
          var s3 := s2.(extractedInfo := i2);
          match MergeTruthy(rec, i2, "health_condition")
          case Raised(e) => Effect(s3, Raised(e))
          case Returned(i3) => Effect(s3.(extractedInfo := i3), ForceFlags(rec))
  }

  method ParseQuery(query: Value, ctx: ConversationContext, out: ModelOutput) returns (r: Outcome<Value>)
    modifies ctx
    ensures Effect(ctx.State(), r) == ParseQuerySpec(query, old(ctx.State()), out)
  {
    if out.Malformed? {
      return Returned(DecodeErrorRecord());
    }
    var rec := out.record;
    ctx.previousQueries := ctx.previousQueries + [query];
    var location := MergeTruthy(rec, ctx.extractedInfo, "location");
    if location.Raised? {
      return Raised(location.exc);
    }
    ctx.extractedInfo := location.value;
    var dates := MergeTruthy(rec, ctx.extractedInfo, "date_range");
    if dates.Raised? {
      return Raised(dates.exc);
    }
    ctx.extractedInfo := dates.value;
    var condition := MergeTruthy(rec, ctx.extractedInfo, "health_condition");
    if condition.Raised? {
      return Raised(condition.exc);
    }
    ctx.extractedInfo := condition.value;
    r := ForceFlags(rec);
  }

  /** A reply that is not JSON yields the fixed error record and leaves the context untouched. */
  lemma ParseMalformed(query: Value, s: Context)
    ensures var e := ParseQuerySpec(query, s, Malformed);
      e.after == s && e.outcome.Returned?
      && var r := e.outcome.value;
      Get(r, "intent") == Str("error")
      && Get(r, "is_complete") == Bool(false)
      && Get(r, "can_answer") == Bool(false)
      && Get(Get(r, "required_actions"), "needs_weather_data") == Bool(false)
      && Get(Get(r, "required_actions"), "needs_medical_research") == Bool(false)
      && Get(Get(r, "required_actions"), "missing_info") == List([])
      && Get(Get(r, "response"), "type") == Str("error")
  {
    DecodeErrorIncomplete();
    DecodeErrorParts();
  }

  /** The decoding-error record is neither complete nor answerable. */
  lemma DecodeErrorIncomplete()
    ensures Get(DecodeErrorRecord(), "is_complete") == Bool(false)
    ensures Get(DecodeErrorRecord(), "can_answer") == Bool(false)
  {
    var r := DecodeErrorRecord();
    assert Lookup(r.entries, "is_complete") == Some(Bool(false));
  }

  /** The actions and the response of the decoding-error record are the fixed ones above. */
  lemma DecodeErrorParts()
    ensures Get(DecodeErrorRecord(), "required_actions") == DecodeErrorActions()
    ensures Get(DecodeErrorRecord(), "response") == DecodeErrorReply()
  {
    var r := DecodeErrorRecord();
    assert Lookup(r.entries, "required_actions") == Some(DecodeErrorActions());
  }

  /** A decoded reply appends exactly the raw query (a string, or None when the message has
      no content) to the previous queries, before anything can raise, and nothing else
      touches them. */
  lemma ParseAppendsQuery(query: Value, s: Context, rec: Value)
    ensures ParseQuerySpec(query, s, Decoded(rec)).after.previousQueries == s.previousQueries + [query]
  {
  }

  /** On success each of `location`, `date_range` and `health_condition` holds the record's
      value when that value is truthy and keeps its old value otherwise; no other key, and
      neither the intent nor the actions of the context, changes. */
  lemma {:induction false} ParseTruthyMerge(query: Value, s: Context, rec: Value, k: string)
    requires ParseQuerySpec(query, s, Decoded(rec)).outcome.Returned?
    ensures var t := ParseQuerySpec(query, s, Decoded(rec)).after;
      t.userInfo == s.userInfo && t.lastIntent == s.lastIntent && t.lastRequiredActions == s.lastRequiredActions
      && (k in ["location", "date_range", "health_condition"] ==>
            var v := Get(Get(rec, "extracted_info"), k);
            Lookup(t.extractedInfo, k) == if Truthy(v) then Some(v) else Lookup(s.extractedInfo, k))
      && (k !in ["location", "date_range", "health_condition"] ==> Lookup(t.extractedInfo, k) == Lookup(s.extractedInfo, k))
  {
    var i1 := MergeTruthy(rec, s.extractedInfo, "location").value;
    var i2 := MergeTruthy(rec, i1, "date_range").value;
    MergeTruthyEffect(rec, s.extractedInfo, "location", k);
    MergeTruthyEffect(rec, i1, "date_range", k);
    MergeTruthyEffect(rec, i2, "health_condition", k);
  }

  /** Whenever a decoded reply gets through the merges, what comes back is `ForceFlags`'s result. */
  lemma ParseReturnsForced(query: Value, s: Context, rec: Value)
    requires ParseQuerySpec(query, s, Decoded(rec)).outcome.Returned?
    ensures ParseQuerySpec(query, s, Decoded(rec)).outcome == ForceFlags(rec)
  {
  }

  /** Forcing the flags of a complete record sets both of them and touches no other key. */
  lemma ForceFlagsSets(rec: Value)
    requires ForceFlags(rec).Returned?
    requires Truthy(Get(rec, "is_complete"))
    ensures var r := ForceFlags(rec).value;
      r.Dict? && rec.Dict?
      && (forall k :: k != "required_actions" ==> Lookup(r.entries, k) == Lookup(rec.entries, k))
      && FlagsForced(Get(rec, "required_actions"), Get(r, "required_actions"))
  {
    ForceFlagsKeeps(rec);
    var actions := Subscript(rec, "required_actions").value;
    var forced := ForceActions(actions).value;
    assert ForceFlags(rec) == SetItem(rec, "required_actions", forced);
    ForceActionsSets(actions);
  }

  /** A complete record comes back with both fetch flags True and is otherwise unchanged. */
  lemma ParseForcesFlags(query: Value, s: Context, rec: Value)
    requires ParseQuerySpec(query, s, Decoded(rec)).outcome.Returned?
    requires Truthy(Get(rec, "is_complete"))
    ensures var r := ParseQuerySpec(query, s, Decoded(rec)).outcome.value;
      r.Dict? && rec.Dict?
      && (forall k :: k != "required_actions" ==> Lookup(r.entries, k) == Lookup(rec.entries, k))
      && FlagsForced(Get(rec, "required_actions"), Get(r, "required_actions"))
  {
    ParseReturnsForced(query, s, rec);
    ForceFlagsSets(rec);
  }

  /** A record that is not complete comes back exactly as decoded. */
  lemma ParseKeepsIncomplete(query: Value, s: Context, rec: Value)
    requires ParseQuerySpec(query, s, Decoded(rec)).outcome.Returned?
    requires !Truthy(Get(rec, "is_complete"))
    ensures ParseQuerySpec(query, s, Decoded(rec)).outcome == Returned(rec)
  {
    ParseReturnsForced(query, s, rec);
  }

  /** A decoded record whose `extracted_info` has no location raises KeyError out of
      `parse_query` (only decoding errors are caught), after the query has been appended and
      before anything is merged. */
  lemma ParseMissingKeyRaises(query: Value, s: Context, rec: Value, info: Entries)
    requires rec.Dict? && Lookup(rec.entries, "extracted_info") == Some(Dict(info))
    requires "location" !in Keys(info)
    ensures ParseQuerySpec(query, s, Decoded(rec)) ==
      Effect(s.(previousQueries := s.previousQueries + [query]), Raised(KeyError(StrKey("location"))))
  {
  }

  /** A decoded record whose `extracted_info` has a location but no `date_range` raises
      KeyError after the query is appended and the location merged: the caller sees that
      partial update of the shared context. */
  lemma ParseMissingDateRangeRaises(query: Value, s: Context, rec: Value, info: Entries)
    requires rec.Dict? && Lookup(rec.entries, "extracted_info") == Some(Dict(info))
    requires "location" in Keys(info) && "date_range" !in Keys(info)
    ensures var e := ParseQuerySpec(query, s, Decoded(rec));
      var location := Get(Dict(info), "location");
      e.outcome == Raised(KeyError(StrKey("date_range")))
      && e.after == s.(previousQueries := s.previousQueries + [query], extractedInfo := e.after.extractedInfo)
      && forall k :: Lookup(e.after.extractedInfo, k) ==
           if k == "location" && Truthy(location) then Some(location) else Lookup(s.extractedInfo, k)
  {
    LookupKeys(info, "location");
  }

  /** A decoded record whose `extracted_info` has a location and a date range but no
      `health_condition` raises KeyError after the query is appended and both merges are
      done. */
  lemma ParseMissingHealthRaises(query: Value, s: Context, rec: Value, info: Entries)
    requires rec.Dict? && Lookup(rec.entries, "extracted_info") == Some(Dict(info))
    requires "location" in Keys(info) && "date_range" in Keys(info) && "health_condition" !in Keys(info)
    ensures var e := ParseQuerySpec(query, s, Decoded(rec));
      var location, dates := Get(Dict(info), "location"), Get(Dict(info), "date_range");
      e.outcome == Raised(KeyError(StrKey("health_condition")))
      && e.after == s.(previousQueries := s.previousQueries + [query], extractedInfo := e.after.extractedInfo)
      && forall k :: Lookup(e.after.extractedInfo, k) ==
           if k == "location" && Truthy(location) then Some(location)
           else if k == "date_range" && Truthy(dates) then Some(dates)
           else Lookup(s.extractedInfo, k)
  {
    LookupKeys(info, "location");
    LookupKeys(info, "date_range");
  }

  /** A merge that succeeds has read a dict `extracted_info` out of a dict record. */
  lemma MergeTruthyReadsDict(rec: Value, info: Entries, key: string)
    requires MergeTruthy(rec, info, key).Returned?
    ensures rec.Dict? && Lookup(rec.entries, "extracted_info").Some? && Lookup(rec.entries, "extracted_info").value.Dict?
  {
  }

  /** What `parse_query` returns is always a dict whose `extracted_info` is a dict. */
  lemma ParseResultShape(query: Value, s: Context, out: ModelOutput)
    requires ParseQuerySpec(query, s, out).outcome.Returned?
    ensures var r := ParseQuerySpec(query, s, out).outcome.value;
      r.Dict? && Lookup(r.entries, "extracted_info").Some? && Lookup(r.entries, "extracted_info").value.Dict?
  {
    if out.Decoded? {
      var rec := out.record;
      MergeTruthyReadsDict(rec, s.extractedInfo, "location");
      ParseReturnsForced(query, s, rec);
      ForceFlagsKeeps(rec);
    }
  }

  /** The apology an error record's `response` text starts with. */
  const Apology := "I apologize, but I'm having trouble processing your request. "

  /** The `relevance` of an error record: not relevant, with the message as the reason. */
  function ErrorRelevance(message: string): (r: Value)
    ensures Get(r, "is_relevant") == Bool(false)
    ensures Get(r, "reason") == Str("Error: " + message)
  {
    Dict(
      Cons("is_relevant", Bool(false),
      Cons("confidence", Float(0.0),
      Cons("reason", Str("Error: " + message), []))))
  }

  /** The `response` of an error record: the apology followed by the message, of type "error". */
  function ErrorReply(message: string): (r: Value)
    ensures Get(r, "text") == Str(Apology + message)
    ensures Get(r, "type") == Str("error")
  {
    Dict(
      Cons("text", Str(Apology + message),
      Cons("type", Str("error"),
      Cons("missing_info", Null,
      Cons("data_sources", Null, [])))))
  }

  /** `_create_error_response(error_message)` of this package. */
  function ErrorResponse(message: string): (r: Value)
    ensures Get(r, "intent") == Str("error")
    ensures Get(r, "required_actions") == List([Str("error_handling")])
  {
    Dict(
      Cons("intent", Str("error"),
      Cons("extracted_info", Dict([]),
      Cons("relevance", ErrorRelevance(message),
      Cons("required_actions", List([Str("error_handling")]),
      Cons("is_complete", Bool(false),
      Cons("can_answer", Bool(false),
      Cons("context_used", List([]),
      Cons("response", ErrorReply(message),
      [])))))))))
  }

  /** An error record is neither complete nor answerable. */
  lemma ErrorResponseIncomplete(message: string)
    ensures Get(ErrorResponse(message), "is_complete") == Bool(false)
    ensures Get(ErrorResponse(message), "can_answer") == Bool(false)
  {
    var r := ErrorResponse(message);
    assert Lookup(r.entries, "is_complete") == Some(Bool(false));
  }

  /** An error record carries the message twice: as the reason it is not relevant, and after
      the apology in its "error" response. */
  lemma ErrorResponseExplains(message: string)
    ensures var r := ErrorResponse(message);
      Get(Get(r, "relevance"), "reason") == Str("Error: " + message)
      && Get(Get(r, "response"), "text") == Str(Apology + message)
      && Get(Get(r, "response"), "type") == Str("error")
  {
    var r := ErrorResponse(message);
    assert Get(r, "relevance") == ErrorRelevance(message);
    assert Get(r, "response") == ErrorReply(message);
  }

  /** `is_conversation_complete(context)` of this package: location and dates known, and for a
      `weather_inquiry` or `health_impact` intent also weather data and medical insights. */
  function IsConversationComplete(s: Context): (r: bool)
    ensures r ==> Known(s.extractedInfo, "location") && Known(s.extractedInfo, "date_range")
    ensures r && s.lastIntent in [Str("weather_inquiry"), Str("health_impact")] ==>
      Known(s.extractedInfo, "weather_data") && Known(s.extractedInfo, "medical_insights")
  {
    var complete := Known(s.extractedInfo, "location") && Known(s.extractedInfo, "date_range");
    if complete && s.lastIntent in [Str("weather_inquiry"), Str("health_impact")] then
      Known(s.extractedInfo, "weather_data") && Known(s.extractedInfo, "medical_insights")
    else complete
  }

  /** Completeness survives any `_update_context`, returned or raised, unless the record moves
      the last intent to one that also needs weather data and medical insights. */
  lemma UpdateKeepsComplete(s: Context, parsed: Value)
    requires IsConversationComplete(s)
    requires var t := UpdateContextSpec(s, parsed).after;
      t.lastIntent in [Str("weather_inquiry"), Str("health_impact")] ==> s.lastIntent in [Str("weather_inquiry"), Str("health_impact")]
    ensures IsConversationComplete(UpdateContextSpec(s, parsed).after)
  {
    UpdateContextKeepsKnown(s, parsed, "location");
    UpdateContextKeepsKnown(s, parsed, "date_range");
    if s.lastIntent in [Str("weather_inquiry"), Str("health_impact")] {
      UpdateContextKeepsKnown(s, parsed, "weather_data");
      UpdateContextKeepsKnown(s, parsed, "medical_insights");
    }
  }
}
