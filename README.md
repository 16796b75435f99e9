# Vayu: a verified model of the travel-health assistant's deterministic core

Vayu answers travellers' questions about weather, air quality and health risks. A Streamlit
chat page (`src/app.py`) keeps the conversation in the session state. A LangGraph pipeline
(`src/langgraph/chatbot_graph.py`) takes each question through four nodes in turn:

1. parse the query with a language model;
2. fetch weather data;
3. fetch medical research;
4. write the reply.

Around it sit the parts this model covers:

- a query parser that keeps a conversation context (two copies, in
  `src/langgraph/query_parser/` and `src/langgraph/query-parser/`);
- two model factories that choose an OpenAI or an IBM watsonx chat client from the
  configuration;
- an Open-Meteo weather client;
- an Elasticsearch journal searcher;
- a PDF journal indexer.

This project models the code of those files that decides things, and proves properties of it.

**How the model is built**

- Python values (dicts, lists, strings, None, numbers) are one sum type `PyValue.Value`.
  - A dict is an ordered list of key/value pairs, so insertion order is kept.
  - A Python exception is a value of `PyValue.Exception`, with the message CPython gives.
- A function that may raise returns an `Outcome` (`Returned(value)` or `Raised(exception)`).
- A method that changes state and may raise is specified by an `Effect`: the state left
  behind, even when the call raised, together with the outcome.
- Objects whose fields the source updates in place are classes whose methods are proved
  against a specification function of the old state. These are the Streamlit session, the
  `ConversationContext` and the graph's `AgentState`.
- The source's loops are methods with loop invariants:
  - formatting previous queries;
  - formatting medical results;
  - shaping search hits;
  - cleaning markdown;
  - reading page markers;
  - collecting tables and images;
  - building index actions;
  - counting indexed files.
- Whatever lies outside the code is a parameter of the model:
  - the environment;
  - the language model's reply;
  - HTTP calls;
  - Elasticsearch;
  - the embedder and the text splitter;
  - the PDF converter;
  - "today";
  - `strftime`, `json.dumps` and `str()` of non-string values.
- Dates are day numbers.

## Model

| member | source | states |
|---|---|---|
| Config.Provider.Value | src/config.py:20-22 | the provider enum's value is "openai" or "ibm" |
| Config.ModelProvider | src/config.py:24-35 | the provider is OpenAI exactly when the lower-cased, stripped MODEL_PROVIDER (default "ibm") is "openai"; every other value falls back to IBM |
| Config.ModelProviderUnset | src/config.py:26 | with MODEL_PROVIDER unset the provider is IBM |
| Config.ModelProviderNormalised | src/config.py:26-29 | " OpenAI " selects OpenAI after lower-casing and stripping |
| Config.ModelProviderFallback | src/config.py:31-35 | an unknown value such as "watson" falls back to IBM instead of failing |
| Config.PlainWord | src/config.py:26 | lower-casing and stripping leave a non-empty lower-case word unchanged |
| Config.LowerKeepsLowerCase | src/config.py:26 | `lower()` leaves lower-case text unchanged |
| Config.StripKeepsWord | src/config.py:26 | `strip()` leaves a word without whitespace unchanged |
| Config.ShowModelSelector | src/config.py:71-74 | the selector is shown exactly when SHOW_MODEL_SELECTOR is set and its lower-cased value is one of "true", "1", "yes", "y" |
| Config.ShowModelSelectorExamples | src/config.py:74 | "YES" switches the selector on; " true" (not stripped) leaves it off |
| Config.Load | src/config.py:37-52 | the model names default to "gpt-3.5-turbo" and "ibm/granite-13b-chat-v2" when unset and are taken verbatim otherwise; the OpenAI key is present exactly when set |
| RetrieverEnv.MissingAmong | src/medical_retriever_tool/searcher.py:18-44 | the missing names are exactly the required names whose value is unset or empty, in declaration order |
| RetrieverEnv.Missing | src/medical-retriever-tool/journal-indexer.py:29-56 | the same over the eight required settings of the searcher and the indexer |
| RetrieverEnv.CheckEnvironment | src/medical_retriever_tool/searcher.py:18-44 | raises exactly when some required setting is missing, with a ValueError listing all of them joined by ", "; otherwise it gives the non-empty index name, "medical_journal" by default |
| RetrieverEnv.IndexNameOnlyMissingWhenEmpty | src/medical_retriever_tool/searcher.py:23-44 | the index name is reported missing only when it is set to the empty string, never when unset |
| PyValue.Keys | src/langgraph/query_parser/query_parser_tool.py:209 | a dict's keys, one per entry and in order |
| PyValue.LookupKeys | src/medical_retriever_tool/searcher.py:185-186 | `d.get(k)` finds a value exactly when k is one of the dict's keys |
| PyValue.Cons | src/langgraph/chatbot_graph.py:62-75 | a dict literal maps its first key to its value and every other key as the rest of the literal does |
| PyValue.Store | src/langgraph/query_parser/query_parser_tool.py:139 | `d[k] = x` makes k map to x and leaves every other key's value as it was |
| PyValue.StoreKeys | src/langgraph/query_parser/query_parser_tool.py:139 | storing keeps the key order and appends a new key at the end |
| PyValue.StoreKeepsKeysUnique | src/langgraph/query_parser/query_parser_tool.py:139 | storing never duplicates a key |
| PyValue.StoreAll | src/langgraph/chatbot_graph.py:115 | after `d.update(other)` a key of other maps to other's last value for it, and every other key keeps its value |
| PyValue.StoreAllOverrides | src/langgraph/chatbot_graph.py:115 | for a dict with distinct keys, `update` gives other's value for its keys and the old value for the rest |
| PyValue.Reverse | src/langgraph/chatbot_graph.py:115 | reversing keeps the length |
| PyValue.ReverseSnoc | src/langgraph/chatbot_graph.py:115 | reversing a list with one more entry puts that entry first |
| PyValue.KeysSnoc | src/langgraph/chatbot_graph.py:115 | appending an entry appends its key |
| PyValue.UniqueReverseLookup | src/langgraph/chatbot_graph.py:115 | with distinct keys, lookups do not depend on the entry order |
| PyValue.LookupAppend | src/langgraph/chatbot_graph.py:115 | a lookup in a dict with one more entry finds the old value first, then the new entry, then nothing |
| PyValue.Subscript | src/langgraph/query_parser/query_parser_tool.py:138 | `v[k]` succeeds exactly on a dict holding k, with the stored value; on a dict without k it raises KeyError(k) |
| PyValue.Index | src/weather_integration/weather_api.py:68 | `xs[n]` gives the n-th item in range, and IndexError on an empty list |
| PyValue.DictGet | src/langgraph/query_parser/query_parser_tool.py:212 | `v.get(k, d)` succeeds exactly on a dict and gives the stored value or the default |
| PyValue.SetItem | src/langgraph/query_parser/query_parser_tool.py:149-150 | `v[k] = x` succeeds exactly on a dict; afterwards k maps to x and every other key is unchanged |
| PyValue.In | src/langgraph/chatbot_graph.py:114 | `k in d` on a dict is membership among its keys |
| PyValue.DictUpdate | src/langgraph/chatbot_graph.py:115 | `update` with a dict stores all its items; `update(None)` raises |
| PyValue.Items | src/langgraph/query_parser/query_parser_tool.py:209 | `items()` succeeds exactly on a dict and gives its entries in order |
| PyValue.Len | src/medical-retriever-tool/journal-indexer.py:275 | `len` succeeds exactly on strings, lists and dicts |
| PyValue.Iterate | src/medical_retriever_tool/searcher.py:179 | iteration succeeds exactly on strings, lists and dicts; a list gives its items |
| Strings.Lower | src/config.py:26 | `lower()` keeps the length and lowers each character |
| Strings.StripLeftShape | src/config.py:26 | `lstrip()` removes a whitespace-only prefix and stops at a non-blank character |
| Strings.StripRightShape | src/config.py:26 | `rstrip()` removes a whitespace-only suffix and stops at a non-blank character |
| Strings.StripShape | src/config.py:26 | `strip()` gives a piece of the string that neither starts nor ends with whitespace |
| Strings.StripEmpty | src/medical-retriever-tool/journal-indexer.py:337 | `s.strip()` is empty exactly when every character is whitespace |
| Strings.Split | src/medical-retriever-tool/journal-indexer.py:309 | `split` always gives at least one piece |
| Strings.SplitJoin | src/medical-retriever-tool/journal-indexer.py:309-327 | no piece of `split(c)` holds c, and joining the pieces with c gives back the string |
| Strings.IndexOf | src/medical-retriever-tool/journal-indexer.py:348 | the first position where the pattern occurs, or none exactly when it never occurs |
| Strings.Before | src/medical-retriever-tool/journal-indexer.py:348 | `split(sep)[0]` is a prefix of the string |
| Strings.SecondPiece | src/medical-retriever-tool/journal-indexer.py:348 | `split(sep)[1]` fails (IndexError) exactly when the separator does not occur |
| Strings.NatToString | src/medical-retriever-tool/journal-indexer.py:376 | `str(n)` is a non-empty run of digits, at least two of them from 10 on |
| Strings.NatToStringInjective | src/medical-retriever-tool/journal-indexer.py:376 | distinct numbers print differently |
| Strings.ParseInt | src/medical-retriever-tool/journal-indexer.py:348 | `int(s)` succeeds only on a non-empty string |
| Strings.ParseNatToString | src/medical-retriever-tool/journal-indexer.py:348 | `int(str(n)) == n` |
| Strings.RemoveCharMembers | src/medical-retriever-tool/journal-indexer.py:322 | `replace('-', '')` keeps exactly the characters other than '-' |
| Conversation.ConversationContext.constructor | src/langgraph/query_parser/query_parser_tool.py:19-30 | the context holds the five fields it is given |
| Conversation.UpdateContext | src/langgraph/query_parser/query_parser_tool.py:196-228 | the new context, and the raise if any, are those of `_update_context` on the old context |
| Conversation.UpdateContextSpec | src/langgraph/query_parser/query_parser_tool.py:196-228 | the specification of `_update_context` on a context snapshot: intent, then required actions, then the merge of the extracted items, then the append of the record, each raise keeping the writes before it; its properties are UpdateContextRecords, UpdateContextRaises and UpdateContextKeepsKnown |
| Conversation.MergeItemEffect | src/langgraph/query_parser/query_parser_tool.py:209-221 | one item stores a non-None value under its key, except a date_range once a start is known; nothing else changes |
| Conversation.MergeItemsKeepKnown | src/langgraph/query_parser/query_parser_tool.py:209-221 | a key with a non-None value keeps a non-None value through the whole loop |
| Conversation.MergeItemsKeepFixedRange | src/langgraph/query_parser/query_parser_tool.py:211-213 | a date range with a start is never replaced |
| Conversation.MergeItemsLookup | src/langgraph/query_parser/query_parser_tool.py:208-221 | after the loop each key holds the new non-None value, or the old value when the new one is None or the date range is fixed |
| Conversation.UpdateContextRecords | src/langgraph/query_parser/query_parser_tool.py:201-224 | a successful update records the reply's intent and required actions, merges its items, appends the reply to the previous queries and leaves user_info alone |
| Conversation.UpdateContextRaises | src/langgraph/query_parser/query_parser_tool.py:202-224 | an update that raises appends nothing to the previous queries |
| Conversation.UpdateContextKeepsKnown | src/langgraph/query_parser/query_parser_tool.py:210 | a known value is never erased, whether the update returns or raises |
| Conversation.FirstNonString | src/langgraph/query_parser/query_parser_tool.py:191 | the first item that makes `', '.join` fail, or none when every item is a string |
| Conversation.JoinActions | src/langgraph/query_parser/query_parser_tool.py:191 | `', '.join` of the required actions succeeds exactly on a dict, a string or a list of strings, and otherwise raises TypeError |
| Conversation.FormatPreviousQueries | src/langgraph/query_parser/query_parser_tool.py:178-194 | the loop's result is the specified text, and "No previous queries." for an empty list |
| Conversation.QueryLinesPrefixRaises | src/langgraph/query_parser/query_parser_tool.py:187-192 | the first query that cannot be formatted decides the exception |
| Conversation.QueryLinesShape | src/langgraph/query_parser/query_parser_tool.py:187-192 | five lines per query, opening with "Query k:" (numbered from 1) and closing with "---" |
| Conversation.QueryLinesSucceed | src/langgraph/query_parser/query_parser_tool.py:187-192 | formatting succeeds exactly when every query is a dict with intent, extracted_info and joinable required_actions |
| Conversation.BlockSucceeds | src/langgraph/query_parser/query_parser_tool.py:188-192 | one query's block succeeds exactly when that query can be formatted |
| QueryParser.MergeTruthyEffect | src/langgraph/query_parser/query_parser_tool.py:138-145 | a truthy reply value is stored under its key and nothing else changes |
| QueryParser.MergeTruthy | src/langgraph/query_parser/query_parser_tool.py:138-145 | one `if parsed['extracted_info'][key]:` merge: reads the key by subscript (KeyError when absent) and stores a truthy value; MergeTruthyEffect states its effect |
| QueryParser.ParseQuery | src/langgraph/query_parser/query_parser_tool.py:129-176 | the new context and the result are those of `parse_query` on the old context |
| QueryParser.ParseQuerySpec | src/langgraph/query_parser/query_parser_tool.py:129-176 | the specification of `parse_query` on a context snapshot: the fixed error record for an undecodable reply; otherwise the query appended, the three truthy merges, and the record with its flags forced; ParseAppendsQuery, ParseTruthyMerge, ParseReturnsForced and ParseForcesFlags state its properties |
| QueryParser.ParseMalformed | src/langgraph/query_parser/query_parser_tool.py:153-176 | an undecodable reply leaves the context alone and gives the fixed error record (intent "error", nothing complete, no actions) |
| QueryParser.DecodeErrorRecord | src/langgraph/query_parser/query_parser_tool.py:154-176 | the decoding-error record has intent "error" and empty extracted info |
| QueryParser.DecodeErrorActions | src/langgraph/query_parser/query_parser_tool.py:161-165 | its actions fetch nothing and miss nothing |
| QueryParser.DecodeErrorReply | src/langgraph/query_parser/query_parser_tool.py:172-175 | its response is of type "error" |
| QueryParser.DecodeErrorIncomplete | src/langgraph/query_parser/query_parser_tool.py:166-167 | the decoding-error record is neither complete nor answerable |
| QueryParser.DecodeErrorParts | src/langgraph/query_parser/query_parser_tool.py:161-175 | its actions and response are the fixed ones |
| QueryParser.ParseAppendsQuery | src/langgraph/query_parser/query_parser_tool.py:135 | a decoded reply appends the user's query itself to the previous queries |
| QueryParser.ParseTruthyMerge | src/langgraph/query_parser/query_parser_tool.py:137-145 | only location, date_range and health_condition may change, each to the reply's value when truthy; other fields are untouched |
| QueryParser.ParseReturnsForced | src/langgraph/query_parser/query_parser_tool.py:147-152 | the result is the reply after the completeness flags are forced |
| QueryParser.ForceFlagsSets | src/langgraph/query_parser/query_parser_tool.py:148-150 | a complete reply gets both data-collection flags set to True; every other key of the record, and every other entry of `required_actions` (such as `missing_info`), is unchanged |
| QueryParser.ForceActionsSets | src/langgraph/query_parser/query_parser_tool.py:149-150 | setting the two flags succeeds exactly on a dict, leaves both True and keeps every other entry |
| QueryParser.ForceFlagsKeeps | src/langgraph/query_parser/query_parser_tool.py:148-150 | forcing the flags gives a dict that differs from the reply at most under required_actions |
| QueryParser.MergeTruthyReadsDict | src/langgraph/query_parser/query_parser_tool.py:137-145 | a merge that succeeds read a dict reply whose extracted_info is a dict |
| QueryParser.ParseForcesFlags | src/langgraph/query_parser/query_parser_tool.py:147-152 | a complete reply comes back with both flags set, the other keys as they were and the other `required_actions` entries as they were |
| QueryParser.ParseKeepsIncomplete | src/langgraph/query_parser/query_parser_tool.py:147-152 | an incomplete reply comes back unchanged |
| QueryParser.ParseMissingKeyRaises | src/langgraph/query_parser/query_parser_tool.py:135-138 | a reply without extracted_info.location raises KeyError('location') after the query is appended and before anything is merged |
| QueryParser.ParseMissingDateRangeRaises | src/langgraph/query_parser/query_parser_tool.py:135-142 | a reply with a location but no date_range raises KeyError('date_range') after the query is appended and the location merged: the context keeps that partial update, and nothing else in it changes |
| QueryParser.ParseMissingHealthRaises | src/langgraph/query_parser/query_parser_tool.py:135-145 | a reply with location and date_range but no health_condition raises KeyError('health_condition') after the query is appended and both merges are done: the context keeps that partial update, and nothing else in it changes |
| QueryParser.ParseResultShape | src/langgraph/query_parser/query_parser_tool.py:129-176 | every result is a dict whose extracted_info is a dict |
| QueryParser.ErrorResponse | src/langgraph/query_parser/query_parser_tool.py:230-251 | the error record has intent "error" and the single action "error_handling" |
| QueryParser.ErrorRelevance | src/langgraph/query_parser/query_parser_tool.py:236-240 | the relevance part is not relevant, for the reason "Error: " + message |
| QueryParser.ErrorReply | src/langgraph/query_parser/query_parser_tool.py:245-250 | the response part is the apology followed by the message, of type "error" |
| QueryParser.ErrorResponseIncomplete | src/langgraph/query_parser/query_parser_tool.py:242-243 | the error record is neither complete nor answerable |
| QueryParser.ErrorResponseExplains | src/langgraph/query_parser/query_parser_tool.py:236-250 | the error record carries the message as its reason and after the apology in its "error" response |
| QueryParser.UpdateKeepsComplete | src/langgraph/query_parser/query_parser_tool.py:259-276 | a complete conversation stays complete after an update unless the intent moves to one that needs weather and medical data |
| QueryParser.IsConversationComplete | src/langgraph/query_parser/query_parser_tool.py:259-276 | a complete conversation knows its location and dates, and, for a `weather_inquiry` or `health_impact` intent, its weather data and medical insights too |
| QueryParserDash.ErrorResponse | src/langgraph/query-parser/query_parser_tool.py:188-203 | the error record has intent "error" and the single action "error_handling" |
| QueryParserDash.ErrorResponseIncomplete | src/langgraph/query-parser/query_parser_tool.py:193-201 | the error record is neither complete nor answerable and has empty extracted info |
| QueryParserDash.ErrorResponseExplains | src/langgraph/query-parser/query_parser_tool.py:194-203 | the error record is not relevant, for the reason "Error: " + message, and has no response part |
| QueryParserDash.ParseQuery | src/langgraph/query-parser/query_parser_tool.py:124-156 | the new context and the result are those of `parse_query` on the old context |
| QueryParserDash.ParseQuerySpec | src/langgraph/query-parser/query_parser_tool.py:124-156 | the specification of this package's `parse_query`: "Invalid model response format" for an undecodable reply; otherwise `_update_context`, whose exception becomes an error record; ParseCatchesUpdateError, ParseReturnsRecord and ParseKeepsKnown state its properties |
| QueryParserDash.ParseMalformed | src/langgraph/query-parser/query_parser_tool.py:150-153 | an undecodable reply leaves the context alone and gives the "Invalid model response format" error record |
| QueryParserDash.ParseCatchesUpdateError | src/langgraph/query-parser/query_parser_tool.py:154-156 | an exception from the update is turned into an error record with its message, and no query is recorded |
| QueryParserDash.ParseReturnsRecord | src/langgraph/query-parser/query_parser_tool.py:146-148 | a successful update returns the reply itself, appends it to the previous queries and records its intent and actions |
| QueryParserDash.ParseAppendsAtMostOnce | src/langgraph/query-parser/query_parser_tool.py:124-186 | a call appends nothing, or the decoded reply once |
| QueryParserDash.ParseKeepsKnown | src/langgraph/query-parser/query_parser_tool.py:171-179 | no call erases a known extracted value |
| QueryParserDash.ParseKeepsFixedRange | src/langgraph/query-parser/query_parser_tool.py:173-176 | no call replaces a date range that has a start |
| QueryParserDash.ParseKeepsComplete | src/langgraph/query-parser/query_parser_tool.py:211-221 | a complete conversation stays complete whatever the reply |
| QueryParserDash.IsConversationComplete | src/langgraph/query-parser/query_parser_tool.py:211-221 | this package's completeness: location and dates both known, with no part that depends on the intent; ParseKeepsComplete and CompletenessVariants state its properties |
| QueryParserDash.CompletenessVariants | src/langgraph/query_parser/query_parser_tool.py:259-276 | the underscore package's completeness implies the dash package's, and they agree unless the intent needs weather and medical data |
| QueryParserDash.FollowUpKeepsLocation | src/langgraph/query-parser/test_query_parser_tool.py:76-145 | a follow-up that gives only dates keeps the location of the first query and records both queries |
| QueryParserDash.FollowUpFirst | src/langgraph/query-parser/test_query_parser_tool.py:79-103 | the first reply is returned, appended, and stores exactly the location Mumbai |
| QueryParserDash.FollowUpSecond | src/langgraph/query-parser/test_query_parser_tool.py:107-144 | the follow-up with a null location keeps Mumbai and stores the dates |
| GraphModelFactory.Resolve | src/langgraph/model_factory.py:46-56 | with the selector shown the arguments are used as given; otherwise the configured provider is used and only its model is set |
| GraphModelFactory.ResolveIgnoresArguments | src/langgraph/model_factory.py:52-56 | without the selector the arguments make no difference and the configured model id is used |
| GraphModelFactory.WithSystemMessage | src/langgraph/model_factory.py:96-101 | a non-empty system message goes first in a message list, or as a "System: …" prefix of a text prompt; an empty one changes nothing |
| GraphModelFactory.GetModelResponse | src/langgraph/model_factory.py:60-69 | a provider other than "ibm" or "openai" raises "Unsupported provider: …" |
| GraphModelFactory.GetModelResponseDispatch | src/langgraph/model_factory.py:60-64 | "ibm" calls watsonx with the granite model and "openai" calls OpenAI with the OpenAI model, on the prompt with its system message |
| GraphModelFactory.ConfiguredProviderSupported | src/langgraph/model_factory.py:52-64 | without the selector the call always goes to the configured backend with its configured model |
| ModelFactory.OrElse | src/model_factory.py:31-33 | a non-empty argument is used, and the configured default otherwise |
| ModelFactory.GetChatModel | src/model_factory.py:28-69 | a missing OpenAI key or missing IBM credentials raise their ValueError; an unknown provider raises "Unsupported model provider: …"; an OpenAI client gets the chosen model and the configured key; a Watsonx client gets the chosen model with the configured endpoint, API key and project id; conversely a supported provider whose credentials are all present always gets the client of its kind with exactly those settings |
| ModelFactory.EmptyProviderFallsBack | src/model_factory.py:31 | an empty provider acts as no provider, and the configured provider is never unsupported |
| ModelFactory.ClientNeedsCredentials | src/model_factory.py:43-55 | a client is only built when its credentials are all present |
| ModelFactory.MessageList | src/model_factory.py:84-87 | the human prompt comes last, after the system message when one is given |
| ModelFactory.GetModelResponse | src/model_factory.py:71-90 | the factory's exception passes through; otherwise the client is invoked on the message list |
| WeatherApi.ForecastWindow | src/weather_integration/weather_api.py:86-100 | a date is in range exactly from today to 16 days ahead |
| WeatherApi.IsWithinForecastRange | src/weather_integration/weather_api.py:86-100 | today through today + 16 days, both included; ForecastWindow states the bounds |
| WeatherApi.CityNotFound | src/weather_integration/weather_api.py:64-66 | no geocoding results raise "City '…' not found" |
| WeatherApi.CityFromResponse | src/weather_integration/weather_api.py:62-77 | a city comes back only from a dict with truthy results; a dict without results names the city as not found |
| WeatherApi.GetCityCoordinates | src/weather_integration/weather_api.py:36-84 | a city comes only from a returned response; a KeyError or IndexError from reading the response is replaced by "Invalid API response format" and never escapes; a failed request becomes "Failed to fetch city coordinates: …" |
| WeatherApi.CityMalformed | src/weather_integration/weather_api.py:68-84 | results given as a non-empty dict, which `[0]` cannot index, raise "Invalid API response format" |
| WeatherApi.CityMissingField | src/weather_integration/weather_api.py:68-84 | a list of results whose first result lacks name, latitude, longitude or country raises "Invalid API response format" |
| WeatherApi.CityCopied | src/weather_integration/weather_api.py:68-77 | the first result's name, country and coordinates are copied, and admin1 defaults to "" |
| WeatherApi.CityFields | src/weather_integration/weather_api.py:68-75 | a result with the four required keys gives a city with their values, admin1 defaulting to "" |
| WeatherApi.BeyondRangeMessage | src/weather_integration/weather_api.py:145-147 | the message names the 16-day range |
| WeatherApi.AirQualityRangeGuard | src/weather_integration/weather_api.py:145-147 | an end date beyond the range raises before any request is made |
| WeatherApi.AirQualityStartUnchecked | src/weather_integration/weather_api.py:145-147 | only the end date is checked: a start in the past still gives the service's data |
| WeatherApi.GetAirQualityData | src/weather_integration/weather_api.py:129-176 | the response body comes back unchanged, and only with the end date in range; a failed request becomes "Failed to fetch air quality data: …" |
| WeatherApi.GetWeatherData | src/weather_integration/weather_api.py:178-268 | every exception leaves as a WeatherAPIError |
| WeatherApi.GetWeatherDataWraps | src/weather_integration/weather_api.py:263-268 | a failure carries the message of the geocoding or air-quality error, or wraps an unexpected one |
| WeatherApi.UnknownCityFirst | src/weather_integration/weather_api.py:64-66 | an unknown city fails with "not found" whatever the dates |
| WeatherApi.WeatherRecordDates | src/weather_integration/weather_api.py:253-256 | the record's date range is the formatted start and end |
| WeatherApi.WeatherRecord | src/weather_integration/weather_api.py:243-258 | the record holds exactly city, date_range and air_quality, in that order, with the air-quality data as given |
| WeatherApi.WeatherRecordCity | src/weather_integration/weather_api.py:244-251 | the record's city is the geocoded city |
| WeatherApi.GetWeatherDataSucceeds | src/weather_integration/weather_api.py:178-259 | a success means the city was found, the end date is in range and the record holds the city and the air quality |
| Searcher.RequestBody | src/medical_retriever_tool/searcher.py:95-175 | every body asks for k hits; an unknown search type raises "Invalid search type"; bm25 matches the query on the text fields; vector and hybrid fail exactly when embedding fails |
| Searcher.HasImage | src/medical_retriever_tool/searcher.py:186 | has_image is False when the metadata has no image_info |
| Searcher.Record | src/medical_retriever_tool/searcher.py:180-187 | the result holds score, text, source, page, metadata and has_image, and no image_info |
| Searcher.WithImageInfo | src/medical_retriever_tool/searcher.py:188-189 | image_info is added exactly when has_image is truthy; nothing else changes |
| Searcher.ShapeResults | src/medical_retriever_tool/searcher.py:178-192 | the loop's results are the specified shaping of the response |
| Searcher.MapEachPrefixRaises | src/medical_retriever_tool/searcher.py:179-190 | the first hit that fails decides the exception |
| Searcher.SearchDocuments | src/medical_retriever_tool/searcher.py:82-196 | the results are those of the specification |
| Searcher.SearchSpec | src/medical_retriever_tool/searcher.py:82-196 | the specification of `search_documents`: every failure (request body, search, shaping) gives [], otherwise the shaped hits; UnknownSearchType, RequestsAskForK and MissingMetadataEmptiesSearch state its properties |
| Searcher.UnknownSearchType | src/medical_retriever_tool/searcher.py:174-196 | an unknown search type gives no results |
| Searcher.RequestsAskForK | src/medical_retriever_tool/searcher.py:111-170 | any result comes from a request asking for k hits |
| Searcher.MapEachEach | src/medical_retriever_tool/searcher.py:179-190 | shaping succeeds exactly when every hit does, and then the i-th result is the i-th hit's |
| Searcher.MapHitsEach | src/medical_retriever_tool/searcher.py:179-190 | the same for the search hits |
| Searcher.HitFields | src/medical_retriever_tool/searcher.py:180-185 | each result copies the hit's score, text, source_pdf and page_number |
| Searcher.HitResult | src/medical_retriever_tool/searcher.py:179-190 | the result record of one hit; HitSource, HitFields and ImageInfoIffHasImage state its properties |
| Searcher.ImageInfoIffHasImage | src/medical_retriever_tool/searcher.py:186-189 | a result has image_info exactly when has_image is truthy, and then it is the stored one |
| Searcher.HasImageDefault | src/medical_retriever_tool/searcher.py:186 | metadata without image_info gives has_image False and no image_info |
| Searcher.HitSource | src/medical_retriever_tool/searcher.py:181-186 | a hit that shapes reads its score and source by subscript |
| Searcher.SourceFields | src/medical_retriever_tool/searcher.py:180-185 | the result copies the score and the chunk's text, file name and page |
| Searcher.SourceImage | src/medical_retriever_tool/searcher.py:186-189 | has_image is set; image_info is present exactly when has_image is truthy, and is the stored one |
| Searcher.MissingMetadataRaises | src/medical_retriever_tool/searcher.py:186 | a hit whose source has no metadata raises |
| Searcher.MissingMetadataEmptiesSearch | src/medical_retriever_tool/searcher.py:186-196 | one such hit makes the whole search return no results |
| JournalIndexer.CleanLine | src/medical-retriever-tool/journal-indexer.py:310-325 | one iteration decides keep and the new in-table flag as the cleaning step specifies |
| JournalIndexer.CleanLines | src/medical-retriever-tool/journal-indexer.py:307-325 | the loop keeps the lines the cleaning specification keeps |
| JournalIndexer.CleanMarkdown | src/medical-retriever-tool/journal-indexer.py:307-327 | the cleaned text is the kept lines of the split markdown, joined by newlines |
| JournalIndexer.CleanFromStep | src/medical-retriever-tool/journal-indexer.py:309-325 | the cleaning of a list unfolds one line at a time |
| JournalIndexer.StripEach | src/medical-retriever-tool/journal-indexer.py:310 | every line is stripped, in order |
| JournalIndexer.HyphensOnlyMeans | src/medical-retriever-tool/journal-indexer.py:322 | `line.replace('-', '').strip() == ''` holds exactly when the line has only hyphens and whitespace |
| JournalIndexer.TableLineMeaningful | src/medical-retriever-tool/journal-indexer.py:313 | a table line is never blank nor hyphens only |
| JournalIndexer.CleanStepKeeps | src/medical-retriever-tool/journal-indexer.py:313-325 | a line is kept exactly when it is meaningful, whatever the in-table flag |
| JournalIndexer.CleanKeepsMeaningful | src/medical-retriever-tool/journal-indexer.py:307-325 | the in-table flag never changes the output: cleaning keeps exactly the meaningful stripped lines |
| JournalIndexer.KeptLines | src/medical-retriever-tool/journal-indexer.py:307-325 | the kept lines are an ordered selection of the stripped lines, all meaningful, and every meaningful line is among them |
| JournalIndexer.ExtractPageNumber | src/medical-retriever-tool/journal-indexer.py:344-351 | the loop's page is the specified page number of the chunk's lines |
| JournalIndexer.FirstPageIsFirst | src/medical-retriever-tool/journal-indexer.py:345-349 | the first readable line decides, and the loop stops there |
| JournalIndexer.FirstPageDefault | src/medical-retriever-tool/journal-indexer.py:344 | with no readable line the page is 0 |
| JournalIndexer.PageNumberIsFirst | src/medical-retriever-tool/journal-indexer.py:345-351 | the first "<!-- Page" line whose number parses gives the page |
| JournalIndexer.MarkerPage | src/medical-retriever-tool/journal-indexer.py:348 | the number between "Page" and "-->" of a marker line, stripped, or none where `int` or the indexing fails; PageNumberIsFirst and PageNumberDefault state how it is used |
| JournalIndexer.PageNumberDefault | src/medical-retriever-tool/journal-indexer.py:344-351 | with no such line the page is 0 |
| JournalIndexer.CollectTables | src/medical-retriever-tool/journal-indexer.py:266-277 | one table info per table, in order, with its index, content, structure and first page (0 if none) |
| JournalIndexer.ImageInfos | src/medical-retriever-tool/journal-indexer.py:282-296 | at most one image per picture |
| JournalIndexer.CollectImages | src/medical-retriever-tool/journal-indexer.py:282-296 | the loop gives the specified images |
| JournalIndexer.ImagePages | src/medical-retriever-tool/journal-indexer.py:284-296 | every image's page is some picture's first page, and every picture with a page gives an image on it |
| JournalIndexer.ContentType | src/medical-retriever-tool/journal-indexer.py:353-358 | "image" when an image is on the chunk's page, else "table" when a table is, else "text" |
| JournalIndexer.DropNoneKeeps | src/medical-retriever-tool/journal-indexer.py:371-372 | dropping None keeps every other entry in order and no None |
| JournalIndexer.DropNoneKeepsAll | src/medical-retriever-tool/journal-indexer.py:371-372 | without None values nothing is dropped |
| JournalIndexer.MetadataKeys | src/medical-retriever-tool/journal-indexer.py:360-372 | the metadata keys are title (when the document has a name), keywords, headings, tables and images: author and date are always dropped |
| JournalIndexer.Metadata | src/medical-retriever-tool/journal-indexer.py:360-372 | the chunk metadata with the None values dropped; MetadataKeys states its keys |
| JournalIndexer.Basename | src/medical-retriever-tool/journal-indexer.py:376 | `os.path.basename`: the characters after the last '/'; BasenameShape states what they are |
| JournalIndexer.BasenameShape | src/medical-retriever-tool/journal-indexer.py:376 | the base name is the whole suffix after the last '/': it holds no '/', and the character before it, if any, is '/' |
| JournalIndexer.DocumentIdInjective | src/medical-retriever-tool/journal-indexer.py:376 | `<basename>_<i>` ids of different files or chunks differ |
| JournalIndexer.DocumentId | src/medical-retriever-tool/journal-indexer.py:376 | the `<basename>_<i>` id of a chunk; DocumentIdInjective states that it is injective |
| JournalIndexer.BuildActions | src/medical-retriever-tool/journal-indexer.py:333-395 | the loop builds the specified actions |
| JournalIndexer.ActionsFromChunks | src/medical-retriever-tool/journal-indexer.py:334-387 | each action comes from a non-blank chunk, in chunk order, with the id of its chunk number |
| JournalIndexer.ActionIdsDistinct | src/medical-retriever-tool/journal-indexer.py:376 | the ids of one file's actions are pairwise distinct |
| JournalIndexer.ChunkActionFrom | src/medical-retriever-tool/journal-indexer.py:334-386 | an action comes from a non-blank chunk and carries its number, its text and its id |
| JournalIndexer.StoredHitHasNoImage | src/medical_retriever_tool/searcher.py:180-190 | a hit on a stored chunk without image_info is shaped with has_image False and no image_info |
| JournalIndexer.IndexedChunkHasNoImageInfo | src/medical-retriever-tool/journal-indexer.py:361-372 | the indexer never stores image_info in a chunk's metadata, so the searcher never reports an image for an indexed chunk |
| JournalIndexer.ProcessFile | src/medical-retriever-tool/journal-indexer.py:260-396 | one file gives the specified actions |
| JournalIndexer.IndexFile | src/medical-retriever-tool/journal-indexer.py:244-416 | one file of the loop is counted exactly when it is indexed (converted, with actions, and no failed bulk item), and then adds its number of actions |
| JournalIndexer.TallyFile | src/medical-retriever-tool/journal-indexer.py:244-416 | given the counts for the first i files, returns the counts for the first i + 1: the i-th file adds one success and its number of actions exactly when it is indexed |
| JournalIndexer.ProcessAndIndexPdfs | src/medical-retriever-tool/journal-indexer.py:204-431 | the counts are those specified, and the result is True exactly when some file was indexed |
| JournalIndexer.CountsMeanIndexed | src/medical-retriever-tool/journal-indexer.py:398-410 | the success count is positive exactly when some file was fully indexed, and it is at most the chunk count and the file count |
| JournalIndexer.CountsMean | src/medical-retriever-tool/journal-indexer.py:398-410 | for any success test and chunk sizes: some success exactly when the count is positive, and the count bounded by chunks and files |
| JournalIndexer.MainIndexesWhenReady | src/medical-retriever-tool/journal-indexer.py:467-508 | PDFs are indexed exactly when the index is reused under --append or set up (after a successful delete when one existed); indexing comes last, and --append never deletes |
| JournalIndexer.MainSteps | src/medical-retriever-tool/journal-indexer.py:436-511 | the index steps `main` takes, in order, ending at the first failure; MainIndexesWhenReady states when PDFs are indexed |
| ChatbotGraph.AgentState.constructor | src/langgraph/chatbot_graph.py:36-42 | the state holds the snapshot it is given, with a fresh context |
| ChatbotGraph.DefaultPreferences | src/langgraph/chatbot_graph.py:47-60 | with the selector: ibm and granite-3-2b-instruct; without it: the configured provider |
| ChatbotGraph.DefaultSnapshot | src/langgraph/chatbot_graph.py:62-75 | no messages, empty query and data, an empty context with an empty profile, the default preferences |
| ChatbotGraph.GetDefaultState | src/langgraph/chatbot_graph.py:44-75 | a fresh state holding the default snapshot |
| ChatbotGraph.DefaultPreferencesMatchConfig | src/langgraph/chatbot_graph.py:54-60 | without the selector the default preferences resolve to exactly what the configuration selects |
| ChatbotGraph.DefaultPreferencesSelector | src/langgraph/chatbot_graph.py:47-53 | with the selector the default preferences resolve to ibm with granite-3-2b-instruct and no OpenAI model |
| ChatbotGraph.GraphUpdate | src/langgraph/chatbot_graph.py:111-117 | the graph's own update appends the parsed record and leaves user_info alone |
| ChatbotGraph.ParseQueryNode | src/langgraph/chatbot_graph.py:77-123 | the node changes the state as the parse step specifies and keeps the same context object |
| ChatbotGraph.ParseNode | src/langgraph/chatbot_graph.py:77-123 | the specification of the parse node on a state snapshot; ParseNodeIdle, ParseNodeFrame and ParseNodeRecords state its properties |
| ChatbotGraph.ApplyGraphUpdate | src/langgraph/chatbot_graph.py:110-117 | the context after the in-place update is the graph's update of the old one |
| ChatbotGraph.ParseNodeIdle | src/langgraph/chatbot_graph.py:81-83 | no messages means no change |
| ChatbotGraph.ParseNodeFrame | src/langgraph/chatbot_graph.py:77-123 | parsing never touches messages, weather, medical data or preferences |
| ChatbotGraph.ParseNodeRecords | src/langgraph/chatbot_graph.py:100-117 | a successful parse stores the parsed record; the previous queries gain the user's message (for a decoded reply) and then the record itself when it is truthy |
| ChatbotGraph.GraphUpdateOverwrites | src/langgraph/chatbot_graph.py:113-117 | the graph's update copies every extracted item (None included) and the intent and actions |
| ChatbotGraph.ParseNodeErasesLocation | src/langgraph/chatbot_graph.py:115 | a reply whose location is None erases a location the context knew |
| ChatbotGraph.Fetch | src/langgraph/chatbot_graph.py:128-136 | data is fetched only for a truthy parsed query with the matching intent and a truthy argument, and then is the tool's result |
| ChatbotGraph.GetWeatherDataNode | src/langgraph/chatbot_graph.py:125-141 | the node changes the state as the weather step specifies |
| ChatbotGraph.WeatherNode | src/langgraph/chatbot_graph.py:125-141 | the specification of the weather node; WeatherNodeGate states its gate and frame |
| ChatbotGraph.GetMedicalInfoNode | src/langgraph/chatbot_graph.py:143-159 | the node changes the state as the medical step specifies |
| ChatbotGraph.MedicalNode | src/langgraph/chatbot_graph.py:143-159 | the specification of the medical node; MedicalNodeGate states its gate and frame |
| ChatbotGraph.WeatherNodeGate | src/langgraph/chatbot_graph.py:128-136 | the state changes only for a weather inquiry with a location, and then to the tool's data |
| ChatbotGraph.MedicalNodeGate | src/langgraph/chatbot_graph.py:146-154 | the state changes only for a health inquiry with a condition, and then to the tool's data |
| ChatbotGraph.WeatherDetails | src/langgraph/chatbot_graph.py:167-170 | the weather details end with " km/h" |
| ChatbotGraph.FormatWeather | src/langgraph/chatbot_graph.py:161-170 | empty data gives the apology; otherwise it succeeds exactly on a dict, with text from "Current weather in " to " km/h" |
| ChatbotGraph.WeatherTextNamesLocation | src/langgraph/chatbot_graph.py:166 | the text names the location, or "the specified location" |
| ChatbotGraph.Bullet | src/langgraph/chatbot_graph.py:179-180 | an item gives a bullet starting "• " exactly when it is a dict, and raises the `.get` AttributeError otherwise |
| ChatbotGraph.BulletsPrefixRaises | src/langgraph/chatbot_graph.py:178-180 | the first item that is not a dict decides the exception |
| ChatbotGraph.FormatMedicalResponse | src/langgraph/chatbot_graph.py:172-181 | the loop's text is the specified one |
| ChatbotGraph.FormatMedical | src/langgraph/chatbot_graph.py:172-181 | the specification of `format_medical_response`; MedicalTextListsEach, FormatMedicalOfList and BulletsOfDicts state its properties |
| ChatbotGraph.BulletsSnoc | src/langgraph/chatbot_graph.py:178-180 | the bullets of a longer list add the last item's bullet |
| ChatbotGraph.BulletsStep | src/langgraph/chatbot_graph.py:178-180 | one more item adds its bullet, or raises the error of its `.get` |
| ChatbotGraph.AddBullet | src/langgraph/chatbot_graph.py:178-180 | one pass of the loop appends the item's bullet or raises its error |
| ChatbotGraph.BulletsAppend | src/langgraph/chatbot_graph.py:178-180 | the bullets of two lists are the concatenation of their bullets |
| ChatbotGraph.BulletsAround | src/langgraph/chatbot_graph.py:178-180 | each item's bullet sits between the bullets before and after it |
| ChatbotGraph.MedicalTextListsEach | src/langgraph/chatbot_graph.py:177-181 | every result's bullet occurs in the text, in list order |
| ChatbotGraph.FormatMedicalOfList | src/langgraph/chatbot_graph.py:172-181 | a non-empty list whose bullets format is the header followed by them |
| ChatbotGraph.BulletsOfDicts | src/langgraph/chatbot_graph.py:178-180 | a list of dicts always formats |
| ChatbotGraph.GenerateResponseNode | src/langgraph/chatbot_graph.py:183-213 | the node changes the state as the reply step specifies |
| ChatbotGraph.GenerateNode | src/langgraph/chatbot_graph.py:183-213 | the specification of the reply node; GenerateNodeAppends states that it appends at most one assistant message |
| ChatbotGraph.GenerateNodeAppends | src/langgraph/chatbot_graph.py:186-208 | the node appends at most one assistant message, and always one for a non-empty parsed query whose text formats |
| ChatbotGraph.PromptIntentsFallBack | src/langgraph/chatbot_graph.py:197-202 | the prompt's other intents fetch nothing and get the fallback reply |
| ChatbotGraph.OtherIntentFallsBack | src/langgraph/chatbot_graph.py:197-202 | any intent other than weather or health fetches nothing and only appends the fallback |
| ChatbotGraph.TurnUnfolds | src/langgraph/chatbot_graph.py:215-234 | the edges lead from parse_query through weather and medical to generate_response, each once, and a turn runs the four nodes in that order |
| ChatbotGraph.RunTurn | src/langgraph/chatbot_graph.py:215-234 | running the nodes one after another gives the turn |
| ChatbotGraph.Turn | src/langgraph/chatbot_graph.py:215-234 | one run of the compiled graph along its edge list; TurnUnfolds, TurnKeepsMessages and TurnMalformedReply state its properties |
| ChatbotGraph.TurnKeepsMessages | src/langgraph/chatbot_graph.py:205-208 | a turn keeps the messages, adding at most one assistant message at the end |
| ChatbotGraph.TurnMalformedReply | src/langgraph/chatbot_graph.py:100-208 | an undecodable model reply makes the error record the parsed query and the last previous query, fetches nothing, keeps the data and answers with the fallback |
| ChatbotGraph.MalformedParse | src/langgraph/chatbot_graph.py:100-117 | parsing an undecodable reply stores the error record and applies the graph's update with it |
| ChatbotGraph.ErrorRecordOtherIntent | src/langgraph/chatbot_graph.py:132-150 | the error record's intent is one neither tool answers |
| ChatbotGraph.TurnFallsBack | src/langgraph/chatbot_graph.py:197-234 | after a parse that leaves any other intent, the turn only appends the fallback reply |
| App.Session.constructor | src/app.py:136 | a new session holds no keys |
| App.DefaultPreferences | src/app.py:140-145 | the configured provider, and the first Granite label when the selector is shown |
| App.SaveToLocalStorage | src/app.py:121-133 | the chat history becomes the messages, if any |
| App.Save | src/app.py:121-133 | the specification of `save_to_local_storage`; SaveFrame and SaveThenLoad state its properties |
| App.LoadFromLocalStorage | src/app.py:99-119 | messages come back from the chat history or start empty; the stored or the empty profile is returned |
| App.Load | src/app.py:99-119 | the specification of `load_from_local_storage`; SaveThenLoad states the round trip |
| App.SaveThenLoad | src/app.py:99-133 | loading after saving gives back the saved state and the stored profile |
| App.SaveFrame | src/app.py:121-133 | saving only copies the messages to the history, and saving twice is saving once |
| App.InitSession | src/app.py:136-149 | the session is initialised as specified |
| App.Init | src/app.py:136-149 | the specification of the session initialisation; InitEstablishes, InitKeepsPresent and InitWithoutProfile state its properties |
| App.InitEstablishes | src/app.py:136-149 | after init messages, preferences and profile are present, and init is idempotent |
| App.InitKeepsPresent | src/app.py:136-149 | with a profile present, init keeps every present key |
| App.InitWithoutProfile | src/app.py:99-149 | without a profile, init also resets the messages from the chat history (or to empty) and installs the empty profile |
| App.ClearChatHistory | src/app.py:151-155 | the session becomes the cleared state |
| App.ClearChatKeepsProfile | src/app.py:151-155 | messages and history become empty; profile and preferences stay |
| App.Logout | src/app.py:157-172 | every key is dropped and the defaults are installed |
| App.LogoutForgets | src/app.py:157-172 | logging out forgets the history, shows the profile form again and needs no further init |
| App.SubmitProfile | src/app.py:214-222 | the session and the message are those of the specified submission |
| App.SubmitProfileOutcome | src/app.py:197-222 | an empty name changes nothing and asks for a name; otherwise the profile is stored and the form goes away |
| App.HandleApiError | src/app.py:174-190 | the phrase table of `handle_api_error`; ApiKeyMentioned, EndpointMentioned, ProjectMentioned, TimeoutMentioned and RateLimitMentioned state what it promises |
| App.ApiKeyMentioned | src/app.py:179-180 | any mention of "api key", in any case, gives the API-key message |
| App.KeyPhraseReported | src/app.py:179-180 | an error text containing "API key" gives the API-key message |
| App.EndpointMentioned | src/app.py:179-182 | an "endpoint" at any index, in any case, without "api key" gives the endpoint message |
| App.ProjectMentioned | src/app.py:179-184 | a "project" at any index, in any case, without the two earlier phrases gives the project message |
| App.TimeoutMentioned | src/app.py:179-186 | a "timeout" at any index, in any case, without the three earlier phrases gives the timeout message |
| App.RateLimitMentioned | src/app.py:179-188 | a "rate limit" at any index, in any case, without the four earlier phrases gives the rate-limit message |
| App.ChatInput | src/app.py:349-382 | the chat turn changes the session as specified |
| App.ChatSpec | src/app.py:349-382 | the specification of a chat turn; ChatAppends states its properties |
| App.AppReply | src/app.py:362-373 | the reply part of a chat turn: the preferences read by subscript, then the model factory; ReplyWithoutOpenAIKey and MissingOpenAIKeyReported state its error path |
| App.ChatAppends | src/app.py:349-382 | the user's message is appended and saved, then the reply or, on an exception, the classified error is shown |
| App.ReplyWithoutOpenAIKey | src/app.py:362-372 | with OpenAI configured and no key, the default preferences make the reply fail with the missing-key error |
| App.MissingOpenAIKeyReported | src/app.py:174-180 | that missing-key error is shown as the API-key message |

## Left out

- The Streamlit page itself: layout, sidebar widgets, CSS, `st.rerun`, spinners, the model
  selector widgets and the logout confirmation dialog. Only the session-state changes of
  init, save, load, clear, logout, profile submission and the chat turn are modelled.
- Prompt texts: the parser's system prompt and `create_parser_prompt`, which only formats
  with `json.dumps`. The prompt given to the model is a parameter.
- Logging and the debug file the indexer writes (`pdf_processing_output.txt`).
- The outer `try` around that file write is not modelled.
- Every call into services: HTTP (geocoding, air quality), the language models,
  Elasticsearch (search, bulk, index setup, deletion, existence, the connection test),
  embeddings, the text splitter and the PDF converter. Each is a parameter whose outcome the
  model takes as given.
- `setup_elasticsearch_index` and `delete_index` are a `succeeds` parameter of the main
  function.
- `datetime.now()`, `strftime` and `str()` of non-string values are parameters.
- Dates are day numbers.
- `Strings.Lower` only lowers ASCII letters; `str.lower` on other scripts is not modelled.
- `Strings.ParseInt` accepts an optional sign and ASCII digits only. Unicode digits and
  underscores are not modelled.
- Floating-point values are opaque `real`s; no arithmetic is done on them.
- Aliasing: the graph and the parser share one `ConversationContext`, and app.py's
  `chat_history` is the same list as `messages`.
  - The model copies values and states the result of each step.
  - The graph's node methods keep the context object and replace its contents.
- LangGraph's `StateGraph` machinery is not modelled. The compiled graph is the explicit edge
  list and its run in order (`ChatbotGraph.Turn`).
- The weather and medical tool adapters (`WeatherTool`, `MedicalResearchTool`) are parameters.
  Their `get_weather` and `get_medical_info` are not defined on those tool classes, so the
  model does not say what those calls do.
- `PyValue.DictUpdate`: `dict.update` with a non-empty list or string argument raises at its
  first element; a list of pairs is never passed in the modelled code and is not modelled.
- `PyValue.Message` of a KeyError is the quoted key, which is what `str(e)` gives; the `repr`
  of other key types is not modelled.
- `PyValue.AsOption`: a non-string preference value passed on as a model name is read as None; a non-string provider is read as None too, so it falls back to the configured provider where the source would raise "Unsupported model provider: …" (app.py only ever stores strings there).
- The `hasattr` checks on tables and pictures in the indexer are fields that may be absent
  (`Option`).
- The document `name` attribute is likewise an optional field.
- Request bodies of the searcher are a datatype, not JSON text.
- `Searcher.SearchSpec` and `Searcher.SearchDocuments` take the search type and k as arguments: the
  defaults of `search_documents` (`search_type="hybrid"`, `k=5`) are not modelled, since Dafny has
  no default arguments and the one caller passes both.
- `src/langgraph/chatbot.py`, the frontend modules, the tool modules and the test scripts are
  not part of this model. Only one test scenario of the dash parser is restated, as
  `QueryParserDash.FollowUpKeepsLocation` and its two steps.
- `Conversation.UpdateContext` serves both parser packages. The underscore package defines
  `_update_context` but its `parse_query` never calls it; the graph uses that package.
- `ChatbotGraph.ParseNodeErasesLocation` states behaviour as written: the graph's
  `extracted_info.update(...)` runs after the parser's truthy merge and puts back the None
  values the parser had skipped.
- `App.InitWithoutProfile` states behaviour as written: when `user_info` is missing, init
  also resets `messages` through `load_from_local_storage`, so init does not only fill
  missing keys.
- `App.DefaultPreferences` states behaviour as written: with the selector shown, the
  `granite_model` preference holds the first Granite display label ("Granite 13B Instruct"),
  a key of `GRANITE_MODELS`, not a model id.
- Page markers: there is no lemma that `JournalIndexer.MarkerPage` reads back a marker the
  converter wrote, because the converter's marker format is not part of this model.
- `Conversation.QueryLinesSucceed` counts a dict, a string or a list of strings as joinable
  `required_actions`. What `json.dumps` does with unusual values is the `dumps` parameter's
  affair.
