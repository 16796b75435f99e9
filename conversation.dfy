/** The conversation context kept by both query parsers, the context update
    (`_update_context`) and the prompt summary of earlier queries
    (`_format_previous_queries`). The two parser packages declare the same
    dataclass and the same two helpers; they are modelled once here. */
module Conversation {
  import opened Strings
  import opened PyValue

  /** What the language model's reply gives `json.loads`: a decoding error or a value. */
  datatype ModelOutput = Malformed | Decoded(record: Value)

  /** A snapshot of a `ConversationContext`. */
  datatype Context = Context(
    userInfo: Entries,
    previousQueries: seq<Value>,
    extractedInfo: Entries,
    lastIntent: Value,
    lastRequiredActions: Value)

  class ConversationContext {
    var userInfo: Entries
    var previousQueries: seq<Value>
    var extractedInfo: Entries
    var lastIntent: Value
    var lastRequiredActions: Value

    constructor (userInfo: Entries, previousQueries: seq<Value>, extractedInfo: Entries,
                 lastIntent: Value, lastRequiredActions: Value)
      ensures State() == Context(userInfo, previousQueries, extractedInfo, lastIntent, lastRequiredActions)
    {
      this.userInfo := userInfo;
      this.previousQueries := previousQueries;
      this.extractedInfo := extractedInfo;
      this.lastIntent := lastIntent;
      this.lastRequiredActions := lastRequiredActions;
    }

    function State(): Context
      reads this
    {
      Context(userInfo, previousQueries, extractedInfo, lastIntent, lastRequiredActions)
    }
  }

  /** Effect of one `(key, value)` item of a record's `extracted_info` on the accumulated info:
      None is skipped; `date_range` is written only while the stored range has no start
      (which raises AttributeError when the stored range is not a dict); any other key is stored. */
  function MergeItem(info: Entries, key: string, value: Value): Outcome<Entries> {
    if value.Null? then Returned(info)
    else if key == "date_range" then
      var stored := match Lookup(info, "date_range") case Some(d) => d case None => Dict([]);
      var start :- DictGet(stored, "start", Null);
      Returned(if start.Null? then Store(info, "date_range", value) else info)
    else Returned(Store(info, key, value))
  }

  /** The `for key, value in new_info.items()` loop: the info after the items processed
      before a raise, or after all of them. */
  function MergeItems(info: Entries, items: Entries): (r: Effect<Entries, ()>)
    decreases |items|
  {
    if items == [] then Effect(info, Returned(()))
    else
      match MergeItem(info, items[0].0, items[0].1)
      case Raised(e) => Effect(info, Raised(e))
      case Returned(next) => MergeItems(next, items[1..])
  }

  /** `parsed_response["extracted_info"].items()` */
  function ExtractedItems(parsed: Value): Outcome<Entries> {
    var info :- Subscript(parsed, "extracted_info");
    Items(info)
  }

  /** `_update_context(context, parsed_response)`: intent and required actions first, then the
      extracted items, then the record is appended to the previous queries. A raise leaves the
      writes made before it in place. */
  function UpdateContextSpec(s: Context, parsed: Value): Effect<Context, ()> {
    match Subscript(parsed, "intent")
    case Raised(e) => Effect(s, Raised(e))
    case Returned(intent) =>
      var s1 := s.(lastIntent := intent);
      match Subscript(parsed, "required_actions")
      case Raised(e) => Effect(s1, Raised(e))
      case Returned(actions) =>
        var s2 := s1.(lastRequiredActions := actions);
        match ExtractedItems(parsed)
        case Raised(e) => Effect(s2, Raised(e))
        case Returned(items) =>
          var m := MergeItems(s2.extractedInfo, items);
          var s3 := s2.(extractedInfo := m.after);
          if m.outcome.Raised? then Effect(s3, m.outcome)
          else Effect(s3.(previousQueries := s3.previousQueries + [parsed]), Returned(()))
  }

  method UpdateContext(ctx: ConversationContext, parsed: Value) returns (r: Outcome<()>)
    modifies ctx
    ensures Effect(ctx.State(), r) == UpdateContextSpec(old(ctx.State()), parsed)
  {
    var intent := Subscript(parsed, "intent");
    if intent.Raised? {
      return Raised(intent.exc);
    }
    ctx.lastIntent := intent.value;
    var actions := Subscript(parsed, "required_actions");
    if actions.Raised? {
      return Raised(actions.exc);
    }
    ctx.lastRequiredActions := actions.value;
    var newInfo := ExtractedItems(parsed);
    if newInfo.Raised? {
      return Raised(newInfo.exc);
    }
    var items := newInfo.value;
    var i := 0;
    while i < |items|
      invariant 0 <= i <= |items|
      invariant ctx.State() == old(ctx.State()).(lastIntent := intent.value,
        lastRequiredActions := actions.value, extractedInfo := ctx.extractedInfo)
      invariant MergeItems(ctx.extractedInfo, items[i..]) == MergeItems(old(ctx.extractedInfo), items)
    {
      var (key, value) := items[i];
      if !value.Null? {
        if key == "date_range" {
          var stored := DictGet(Dict(ctx.extractedInfo), "date_range", Dict([]));
          var start := DictGet(stored.value, "start", Null);
          if start.Raised? {
            return Raised(start.exc);
          }
          if start.value.Null? {
            ctx.extractedInfo := Store(ctx.extractedInfo, "date_range", value);
          }
        } else if key in ["weather_data", "medical_insights"] {
          ctx.extractedInfo := Store(ctx.extractedInfo, key, value);
        } else {
          ctx.extractedInfo := Store(ctx.extractedInfo, key, value);
        }
      }
      i := i + 1;
    }
    ctx.previousQueries := ctx.previousQueries + [parsed];
    r := Returned(());
  }

  /** Stored non-None under `key`: `extracted_info.get(key) is not None`. */
  predicate Known(info: Entries, key: string) {
    Lookup(info, key).Some? && !Lookup(info, key).value.Null?
  }

  /** A date range whose start is set: later ranges no longer replace it. */
  predicate RangeFixed(info: Entries) {
    match Lookup(info, "date_range")
    case Some(Dict(d)) => Known(d, "start")
    case _ => false
  }

  /** A None item never overwrites, a non-None item other than a fixed date range is stored,
      and nothing but the item's own key changes. */
  lemma MergeItemEffect(info: Entries, key: string, value: Value, k: string)
    ensures var r := MergeItem(info, key, value);
      r.Returned? ==>
        Lookup(r.value, k) ==
          (if k == key && !value.Null? && !(key == "date_range" && RangeFixed(info)) then Some(value)
           else Lookup(info, k))
  {
  }

  /** Merging keeps every key known that was known before: None never overwrites,
      and what is written is not None. */
  lemma {:induction false} MergeItemsKeepKnown(info: Entries, items: Entries, k: string)
    requires Known(info, k)
    ensures Known(MergeItems(info, items).after, k)
    decreases |items|
  {
    if items != [] {
      var r := MergeItem(info, items[0].0, items[0].1);
      if r.Returned? {
        MergeItemEffect(info, items[0].0, items[0].1, k);
        MergeItemsKeepKnown(r.value, items[1..], k);
      }
    }
  }

  /** Once a date range with a start is stored, no later merge replaces it. */
  lemma {:induction false} MergeItemsKeepFixedRange(info: Entries, items: Entries)
    requires RangeFixed(info)
    ensures Lookup(MergeItems(info, items).after, "date_range") == Lookup(info, "date_range")
    decreases |items|
  {
    if items != [] {
      var r := MergeItem(info, items[0].0, items[0].1);
      if r.Returned? {
        MergeItemEffect(info, items[0].0, items[0].1, "date_range");
        MergeItemsKeepFixedRange(r.value, items[1..]);
      }
    }
  }

  /** For a record with distinct keys that merges without raising: each key ends up holding
      the record's value when that value is not None (and, for `date_range`, the stored range
      had no start), and keeps its old value otherwise. */
  lemma {:induction false} MergeItemsLookup(info: Entries, items: Entries, k: string)
    requires UniqueKeys(items)
    requires MergeItems(info, items).outcome.Returned?
    ensures Lookup(MergeItems(info, items).after, k) ==
      match Lookup(items, k)
      case Some(v) => if !v.Null? && !(k == "date_range" && RangeFixed(info)) then Some(v) else Lookup(info, k)
      case None => Lookup(info, k)
    decreases |items|
  {
    if items != [] {
      var key, value := items[0].0, items[0].1;
      var next := MergeItem(info, key, value).value;
      MergeItemEffect(info, key, value, k);
      assert UniqueKeys(items[1..]);
      MergeItemsLookup(next, items[1..], k);
      assert Keys(items) == [key] + Keys(items[1..]);
      if k == key {
        assert k !in Keys(items[1..]);
        LookupKeys(items[1..], k);
      } else if k == "date_range" {
        MergeItemEffect(info, key, value, "date_range");
        assert RangeFixed(next) == RangeFixed(info);
      }
    }
  }

  /** A successful update sets the last intent and actions from the record, appends the record
      as the one new previous query, and leaves the user info alone. */
  lemma UpdateContextRecords(s: Context, parsed: Value)
    requires UpdateContextSpec(s, parsed).outcome.Returned?
    ensures var t := UpdateContextSpec(s, parsed).after;
      Subscript(parsed, "intent") == Returned(t.lastIntent)
      && Subscript(parsed, "required_actions") == Returned(t.lastRequiredActions)
      && t.previousQueries == s.previousQueries + [parsed]
      && t.userInfo == s.userInfo
      && t.extractedInfo == MergeItems(s.extractedInfo, ExtractedItems(parsed).value).after
  {
  }

  /** An update that raises has not appended the record and has not touched the user info. */
  lemma UpdateContextRaises(s: Context, parsed: Value)
    ensures var e := UpdateContextSpec(s, parsed);
      e.outcome.Raised? ==> e.after.previousQueries == s.previousQueries && e.after.userInfo == s.userInfo
  {
  }

  /** A key known before an update (`is not None`) is still known after it, whether the update
      returned or raised. */
  lemma UpdateContextKeepsKnown(s: Context, parsed: Value, k: string)
    requires Known(s.extractedInfo, k)
    ensures Known(UpdateContextSpec(s, parsed).after.extractedInfo, k)
  {
    var e := ExtractedItems(parsed);
    if Subscript(parsed, "intent").Returned? && Subscript(parsed, "required_actions").Returned? && e.Returned? {
      MergeItemsKeepKnown(s.extractedInfo, e.value, k);
    }
  }

  const NotJoinable := "can only join an iterable"

  /** `', '.join(actions)`: a list of strings, the keys of a dict, or the characters of a string.
      Anything else, and a list holding a non-string, raises TypeError. */
  function JoinActions(actions: Value): (r: Outcome<string>)
    ensures r.Returned? <==>
      actions.Dict? || actions.Str? || (actions.List? && forall i :: 0 <= i < |actions.items| ==> actions.items[i].Str?)
    ensures r.Raised? ==> r.exc.TypeError?
  {
    match actions
    case List(xs) =>
      (match FirstNonString(xs)
       case Some(i) =>
         Raised(TypeError("sequence item " + NatToString(i) + ": expected str instance, " + TypeName(xs[i]) + " found"))
       case None => Returned(Join(", ", seq(|xs|, i requires 0 <= i < |xs| => xs[i].s))))
    case Dict(es) => Returned(Join(", ", Keys(es)))
    case Str(s) => Returned(Join(", ", seq(|s|, i requires 0 <= i < |s| => [s[i]])))
    case _ => Raised(TypeError(NotJoinable))
  }

  function FirstNonString(xs: seq<Value>): (r: Option<nat>)
    ensures r.Some? ==> r.value < |xs| && !xs[r.value].Str?
    ensures r.None? ==> forall i :: 0 <= i < |xs| ==> xs[i].Str?
  {
    if xs == [] then None
    else if !xs[0].Str? then Some(0)
    else match FirstNonString(xs[1..]) case Some(i) => Some(i + 1) case None => None
  }

  /** The five lines written for the `number`-th previous query. */
  function QueryBlock(dumps: Value -> string, show: Value -> string, number: nat, q: Value): Outcome<seq<string>> {
    var intent :- Subscript(q, "intent");
    var info :- Subscript(q, "extracted_info");
    var actions :- Subscript(q, "required_actions");
    var joined :- JoinActions(actions);
    Returned(["Query " + NatToString(number) + ":", "Intent: " + Format(show, intent),
              "Extracted Info: " + dumps(info), "Required Actions: " + joined, "---"])
  }

  /** The lines for a list of queries, numbered from 1; the first query that cannot be
      formatted decides the exception. */
  function QueryLines(dumps: Value -> string, show: Value -> string, qs: seq<Value>): Outcome<seq<string>>
    decreases |qs|
  {
    if qs == [] then Returned([])
    else
      var earlier :- QueryLines(dumps, show, qs[..|qs| - 1]);
      var block :- QueryBlock(dumps, show, |qs|, qs[|qs| - 1]);
      Returned(earlier + block)
  }

  /** `_format_previous_queries(previous_queries)`; `json.dumps` and `str()` are the parameters. */
  function PreviousQueriesText(dumps: Value -> string, show: Value -> string, qs: seq<Value>): Outcome<string> {
    if qs == [] then Returned("No previous queries.")
    else
      var lines :- QueryLines(dumps, show, qs);
      Returned(Join("\n", lines))
  }

  method FormatPreviousQueries(dumps: Value -> string, show: Value -> string, qs: seq<Value>)
    returns (r: Outcome<string>)
    ensures r == PreviousQueriesText(dumps, show, qs)
    ensures qs == [] ==> r == Returned("No previous queries.")
  {
    if qs == [] {
      return Returned("No previous queries.");
    }
    var formatted: seq<string> := [];
    var i := 0;
    while i < |qs|
      invariant 0 <= i <= |qs|
      invariant QueryLines(dumps, show, qs[..i]) == Returned(formatted)
    {
      var block := QueryBlock(dumps, show, i + 1, qs[i]);
      assert qs[..i + 1][..i] == qs[..i];
      if block.Raised? {
        r := Raised(block.exc);
        assert QueryLines(dumps, show, qs[..i + 1]) == Raised(block.exc);
        QueryLinesPrefixRaises(dumps, show, qs, i + 1);
        return;
      }
      formatted := formatted + block.value;
      i := i + 1;
    }
    assert qs[..|qs|] == qs;
    r := Returned(Join("\n", formatted));
  }

  /** Once a prefix of the queries cannot be formatted, neither can the whole list, with the
      same exception. */
  lemma {:induction false} QueryLinesPrefixRaises(dumps: Value -> string, show: Value -> string, qs: seq<Value>, n: nat)
    requires n <= |qs|
    requires QueryLines(dumps, show, qs[..n]).Raised?
    ensures QueryLines(dumps, show, qs) == QueryLines(dumps, show, qs[..n])
    decreases |qs| - n
  {
    if n < |qs| {
      var m := |qs| - 1;
      if n == m {
        assert qs[..|qs| - 1] == qs[..n];
      } else {
        assert qs[..m][..n] == qs[..n];
        QueryLinesPrefixRaises(dumps, show, qs[..m], n);
        assert qs[..|qs| - 1] == qs[..m];
      }
    } else {
      assert qs[..n] == qs;
    }
  }

  /** Each query contributes five lines: a numbered header, intent, info, actions and `---`. */
  lemma {:induction false} QueryLinesShape(dumps: Value -> string, show: Value -> string, qs: seq<Value>)
    requires QueryLines(dumps, show, qs).Returned?
    ensures |QueryLines(dumps, show, qs).value| == 5 * |qs|
    ensures forall k :: 0 <= k < |qs| ==>
      QueryLines(dumps, show, qs).value[5 * k] == "Query " + NatToString(k + 1) + ":"
      && QueryLines(dumps, show, qs).value[5 * k + 4] == "---"
    decreases |qs|
  {
    if qs != [] {
      var init := qs[..|qs| - 1];
      var prev := QueryLines(dumps, show, init);
      var b := QueryBlock(dumps, show, |qs|, qs[|qs| - 1]);
      assert prev.Returned? && b.Returned?;
      var lines := prev.value + b.value;
      assert QueryLines(dumps, show, qs).value == lines;
      QueryLinesShape(dumps, show, init);
      assert |b.value| == 5 && b.value[0] == "Query " + NatToString(|qs|) + ":" && b.value[4] == "---";
      forall k | 0 <= k < |qs|
        ensures lines[5 * k] == "Query " + NatToString(k + 1) + ":" && lines[5 * k + 4] == "---"
      {
        if k < |init| {
          assert lines[5 * k] == prev.value[5 * k];
          assert lines[5 * k + 4] == prev.value[5 * k + 4];
        } else {
          assert k == |init|;
          assert lines[5 * k] == b.value[0];
          assert lines[5 * k + 4] == b.value[4];
        }
      }
    }
  }

  /** A query `_format_previous_queries` can print: a dict with intent, extracted info and
      required actions that `', '.join` accepts. */
  predicate Formattable(q: Value) {
    Subscript(q, "intent").Returned? && Subscript(q, "extracted_info").Returned?
    && match Subscript(q, "required_actions")
       case Returned(actions) => JoinActions(actions).Returned?
       case Raised(_) => false
  }

  /** Formatting succeeds exactly when every query is formattable. */
  lemma {:induction false} QueryLinesSucceed(dumps: Value -> string, show: Value -> string, qs: seq<Value>)
    ensures QueryLines(dumps, show, qs).Returned? <==> forall k :: 0 <= k < |qs| ==> Formattable(qs[k])
    decreases |qs|
  {
    if qs != [] {
      var init := qs[..|qs| - 1];
      var prev := QueryLines(dumps, show, init);
      var b := QueryBlock(dumps, show, |qs|, qs[|qs| - 1]);
      assert QueryLines(dumps, show, qs).Returned? <==> prev.Returned? && b.Returned?;
      BlockSucceeds(dumps, show, |qs|, qs[|qs| - 1]);
      QueryLinesSucceed(dumps, show, init);
      AllSnoc(Formattable, qs, init);
    }
  }

  /** A property holds of every element exactly when it holds of every element but the last,
      and of the last. */
  lemma AllSnoc<T>(p: T -> bool, xs: seq<T>, init: seq<T>)
    requires xs != [] && init == xs[..|xs| - 1]
    ensures (forall k :: 0 <= k < |xs| ==> p(xs[k])) <==>
      (forall k :: 0 <= k < |init| ==> p(init[k])) && p(xs[|xs| - 1])
  {
    if forall k :: 0 <= k < |init| ==> p(init[k]) {
      forall k | 0 <= k < |xs| - 1
        ensures p(xs[k])
      {
        assert xs[k] == init[k];
      }
    }
  }

  lemma BlockSucceeds(dumps: Value -> string, show: Value -> string, number: nat, q: Value)
    ensures QueryBlock(dumps, show, number, q).Returned? <==> Formattable(q)
  {
  }
}
