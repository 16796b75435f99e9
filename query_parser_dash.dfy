/** `QueryParserTool` of the `langgraph/query-parser` package. Its `parse_query` runs
    `_update_context` on the decoded record and never raises: a decoding error and any
    exception out of the update both become an error record. */
module QueryParserDash {
  import opened Strings
  import opened PyValue
  import opened Conversation
  import QueryParser

  /** `_create_error_response(error_message)` of this package: no `response` entry. */
  function ErrorResponse(message: string): (r: Value)
    ensures Get(r, "intent") == Str("error")
    ensures Get(r, "required_actions") == List([Str("error_handling")])
  {
    Dict(
      Cons("intent", Str("error"),
      Cons("extracted_info", Dict([]),
      Cons("relevance", QueryParser.ErrorRelevance(message),
      Cons("required_actions", List([Str("error_handling")]),
      Cons("is_complete", Bool(false),
      Cons("can_answer", Bool(false),
      Cons("context_used", List([]), []))))))))
  }

  /** The error record is neither complete nor answerable, and has nothing extracted. */
  lemma ErrorResponseIncomplete(message: string)
    ensures Get(ErrorResponse(message), "is_complete") == Bool(false)
    ensures Get(ErrorResponse(message), "can_answer") == Bool(false)
    ensures Get(ErrorResponse(message), "extracted_info") == Dict([])
  {
    var r := ErrorResponse(message);
    assert Lookup(r.entries, "is_complete") == Some(Bool(false));
  }

  /** The error record is not relevant, gives the message as the reason, and has no
      `response` entry. */
  lemma ErrorResponseExplains(message: string)
    ensures var r := ErrorResponse(message);
      Get(Get(r, "relevance"), "reason") == Str("Error: " + message)
      && Get(Get(r, "relevance"), "is_relevant") == Bool(false)
      && r.Dict? && Lookup(r.entries, "response").None?
  {
    var r := ErrorResponse(message);
    assert Get(r, "relevance") == QueryParser.ErrorRelevance(message);
  }

  /** The message `parse_query` passes on for a reply that is not JSON. */
  const InvalidFormat := "Invalid model response format"

  /** `parse_query(query, context, model_response)` on a context snapshot: the context after
      the call and the record returned. The query string itself is only logged. */
  function ParseQuerySpec(s: Context, out: ModelOutput): (Context, Value) {
    match out
    case Malformed => (s, ErrorResponse(InvalidFormat))
    case Decoded(rec) =>
      var e := UpdateContextSpec(s, rec);
      match e.outcome
      case Returned(_) => (e.after, rec)
      case Raised(x) => (e.after, ErrorResponse(Message(x)))
  }

  method ParseQuery(ctx: ConversationContext, out: ModelOutput) returns (r: Value)
    modifies ctx
    ensures (ctx.State(), r) == ParseQuerySpec(old(ctx.State()), out)
  {
    if out.Malformed? {
      return ErrorResponse(InvalidFormat);
    }
    var updated := UpdateContext(ctx, out.record);
    if updated.Raised? {
      return ErrorResponse(Message(updated.exc));
    }
    r := out.record;
  }

  /** A reply that is not JSON leaves the context alone and yields the error record for the
      message "Invalid model response format" (so intent "error", reason
      "Error: Invalid model response format", actions ["error_handling"]). */
  lemma ParseMalformed(s: Context)
    ensures ParseQuerySpec(s, Malformed).0 == s
    ensures ParseQuerySpec(s, Malformed).1 == ErrorResponse("Invalid model response format")
  {
  }

  /** Any exception out of the update becomes the error record built from its message; the
      record is then not among the previous queries. */
  lemma ParseCatchesUpdateError(s: Context, rec: Value)
    requires UpdateContextSpec(s, rec).outcome.Raised?
    ensures var (t, r) := ParseQuerySpec(s, Decoded(rec));
      r == ErrorResponse(Message(UpdateContextSpec(s, rec).outcome.exc))
      && Get(r, "intent") == Str("error")
      && t.previousQueries == s.previousQueries
  {
    UpdateContextRaises(s, rec);
  }

  /** A record the update accepts comes back unchanged, relevant or not; it is appended as the
      one new previous query, and the last intent and actions are the record's own. */
  lemma ParseReturnsRecord(s: Context, rec: Value)
    requires UpdateContextSpec(s, rec).outcome.Returned?
    ensures var (t, r) := ParseQuerySpec(s, Decoded(rec));
      r == rec
      && t.previousQueries == s.previousQueries + [rec]
      && Subscript(rec, "intent") == Returned(t.lastIntent)
      && Subscript(rec, "required_actions") == Returned(t.lastRequiredActions)
  {
    UpdateContextRecords(s, rec);
  }

  /** Whatever the reply, `previous_queries` grows by at most the decoded record. */
  lemma ParseAppendsAtMostOnce(s: Context, out: ModelOutput)
    ensures var (t, r) := ParseQuerySpec(s, out);
      t.previousQueries == s.previousQueries
      || (out.Decoded? && r == out.record && t.previousQueries == s.previousQueries + [out.record])
  {
    if out.Decoded? {
      UpdateContextRaises(s, out.record);
      if UpdateContextSpec(s, out.record).outcome.Returned? {
        UpdateContextRecords(s, out.record);
      }
    }
  }

  /** A value that is known (`is not None`) stays known whatever the reply. */
  lemma ParseKeepsKnown(s: Context, out: ModelOutput, k: string)
    requires Known(s.extractedInfo, k)
    ensures Known(ParseQuerySpec(s, out).0.extractedInfo, k)
  {
    if out.Decoded? {
      UpdateContextKeepsKnown(s, out.record, k);
    }
  }

  /** Once a date range with a start is stored, no later reply replaces it. */
  lemma ParseKeepsFixedRange(s: Context, out: ModelOutput)
    requires RangeFixed(s.extractedInfo)
    ensures Lookup(ParseQuerySpec(s, out).0.extractedInfo, "date_range") == Lookup(s.extractedInfo, "date_range")
  {
    if out.Decoded? {
      var rec := out.record;
      var e := ExtractedItems(rec);
      if Subscript(rec, "intent").Returned? && Subscript(rec, "required_actions").Returned? && e.Returned? {
        MergeItemsKeepFixedRange(s.extractedInfo, e.value);
      }
    }
  }

  /** `is_conversation_complete(context)` of this package: location and dates are known. */
  function IsConversationComplete(s: Context): bool {
    Known(s.extractedInfo, "location") && Known(s.extractedInfo, "date_range")
  }

  /** A complete conversation stays complete whatever the reply. */
  lemma ParseKeepsComplete(s: Context, out: ModelOutput)
    requires IsConversationComplete(s)
    ensures IsConversationComplete(ParseQuerySpec(s, out).0)
  {
    ParseKeepsKnown(s, out, "location");
    ParseKeepsKnown(s, out, "date_range");
  }

  /** The other package's check asks for more: what it calls complete is complete here, and
      the two agree unless the last intent is `weather_inquiry` or `health_impact`. */
  lemma CompletenessVariants(s: Context)
    ensures QueryParser.IsConversationComplete(s) ==> IsConversationComplete(s)
    ensures s.lastIntent !in [Str("weather_inquiry"), Str("health_impact")] ==>
      (QueryParser.IsConversationComplete(s) <==> IsConversationComplete(s))
  {
  }

  /** A record whose `extracted_info` holds exactly the three keys the prompt asks for. */
  function Reply(intent: string, location: Value, dates: Value): (r: Value)
    ensures Subscript(r, "intent") == Returned(Str(intent))
    ensures ExtractedItems(r) == Returned(Cons("location", location, Cons("date_range", dates,
      Cons("specific_concerns", Null, []))))
  {
    Dict(Cons("intent", Str(intent),
      Cons("extracted_info", Dict(Cons("location", location, Cons("date_range", dates,
        Cons("specific_concerns", Null, [])))),
      Cons("required_actions", List([]), []))))
  }

  /** The first reply of the follow-up conversation stores Mumbai and nothing else. */
  lemma FollowUpFirst(s: Context)
    requires s.extractedInfo == []
    ensures var first := Reply("travel_planning", Str("Mumbai"), Null);
      var (t1, r1) := ParseQuerySpec(s, Decoded(first));
      r1 == first && t1.previousQueries == s.previousQueries + [first]
      && t1.extractedInfo == [("location", Str("Mumbai"))]
  {
    var first := Reply("travel_planning", Str("Mumbai"), Null);
    var items := ExtractedItems(first).value;
    var info := Store([], "location", Str("Mumbai"));
    assert info == [("location", Str("Mumbai"))];
    assert items == [("location", Str("Mumbai")), ("date_range", Null), ("specific_concerns", Null)];
    assert MergeItem([], "location", Str("Mumbai")) == Returned(info);
    assert MergeItems([], items) == MergeItems(info, items[1..]);
    assert MergeItems(info, items[1..]) == MergeItems(info, items[2..]);
    assert MergeItems([], items) == Effect(info, Returned(()));
    UpdateContextRecords(s, first);
  }

  /** The second reply, with dates and a null location, keeps Mumbai and stores the dates. */
  lemma FollowUpSecond(t1: Context, range: Entries)
    requires t1.extractedInfo == [("location", Str("Mumbai"))]
    ensures var second := Reply("travel_planning", Null, Dict(range));
      var (t2, r2) := ParseQuerySpec(t1, Decoded(second));
      r2 == second && t2.previousQueries == t1.previousQueries + [second]
      && Lookup(t2.extractedInfo, "location") == Some(Str("Mumbai"))
      && Lookup(t2.extractedInfo, "date_range") == Some(Dict(range))
  {
    var second := Reply("travel_planning", Null, Dict(range));
    var info1 := t1.extractedInfo;
    var items := ExtractedItems(second).value;
    assert items == [("location", Null), ("date_range", Dict(range)), ("specific_concerns", Null)];
    assert MergeItem(info1, "location", Null) == Returned(info1);
    assert Lookup(info1, "date_range") == None;
    var info2 := Store(info1, "date_range", Dict(range));
    assert MergeItem(info1, "date_range", Dict(range)) == Returned(info2);
    assert MergeItems(info1, items) == MergeItems(info2, items[2..]);
    assert MergeItems(info1, items) == Effect(info2, Returned(()));
    UpdateContextRecords(t1, second);
  }

  /** The follow-up conversation: a first reply naming Mumbai without dates, then a reply
      with dates and no location. Both records are kept, Mumbai survives the null location,
      and the dates of the second reply are stored. */
  lemma FollowUpKeepsLocation(s: Context, range: Entries)
    requires s.previousQueries == [] && s.extractedInfo == []
    ensures var first := Reply("travel_planning", Str("Mumbai"), Null);
      var second := Reply("travel_planning", Null, Dict(range));
      var (t1, r1) := ParseQuerySpec(s, Decoded(first));
      var (t2, r2) := ParseQuerySpec(t1, Decoded(second));
      r1 == first && r2 == second
      && |t2.previousQueries| == 2
      && Lookup(t2.extractedInfo, "location") == Some(Str("Mumbai"))
      && Lookup(t2.extractedInfo, "date_range") == Some(Dict(range))
  {
    FollowUpFirst(s);
    FollowUpSecond(ParseQuerySpec(s, Decoded(Reply("travel_planning", Str("Mumbai"), Null))).0, range);
  }
}
