/** Python values, dictionaries and exceptions, as far as the modelled code uses them.
    A dict is an ordered association list with string keys: Python dicts keep
    insertion order, and every dict in the modelled code is JSON-like. */
module PyValue {
  import opened Strings

  datatype Value =
    | Null
    | Bool(b: bool)
    | Int(i: int)
    | Float(r: real)
    | Str(s: string)
    | List(items: seq<Value>)
    | Dict(entries: Entries)

  type Entries = seq<(string, Value)>

  /** The key of a failed lookup: `data["results"]` or `data["results"][0]`. */
  datatype Key = StrKey(s: string) | IntKey(n: int)

  /** The exceptions the modelled code raises or catches. */
  datatype Exception =
    | KeyError(key: Key)
    | TypeError(message: string)
    | AttributeError(message: string)
    | IndexError(message: string)
    | ValueError(message: string)
    | WeatherAPIError(message: string)
    | RequestException(message: string)

  /** What a Python call does: return a value or raise. */
  datatype Outcome<+T> = Returned(value: T) | Raised(exc: Exception)
  {
    predicate IsFailure() { Raised? }

    function PropagateFailure<U>(): Outcome<U>
      requires Raised?
    {
      Raised(exc)
    }

    function Extract(): T
      requires Returned?
    {
      value
    }
  }

  /** A call that changes state: the state when it returned or raised, and what it did. */
  datatype Effect<S, T> = Effect(after: S, outcome: Outcome<T>)

  /** `str(e)` */
  function Message(e: Exception): string {
    match e
    case KeyError(k) => (match k case StrKey(s) => "'" + s + "'" case IntKey(n) => IntToString(n))
    case TypeError(m) => m
    case AttributeError(m) => m
    case IndexError(m) => m
    case ValueError(m) => m
    case WeatherAPIError(m) => m
    case RequestException(m) => m
  }

  /** `bool(v)` */
  predicate Truthy(v: Value) {
    match v
    case Null => false
    case Bool(b) => b
    case Int(i) => i != 0
    case Float(r) => r != 0.0
    case Str(s) => s != ""
    case List(xs) => xs != []
    case Dict(es) => es != []
  }

  /** `type(v).__name__` */
  function TypeName(v: Value): string {
    match v
    case Null => "NoneType"
    case Bool(_) => "bool"
    case Int(_) => "int"
    case Float(_) => "float"
    case Str(_) => "str"
    case List(_) => "list"
    case Dict(_) => "dict"
  }

  function Keys(es: Entries): (r: seq<string>)
    ensures |r| == |es|
    ensures forall i :: 0 <= i < |es| ==> r[i] == es[i].0
  {
    if es == [] then [] else [es[0].0] + Keys(es[1..])
  }

  predicate UniqueKeys(es: Entries) {
    forall i, j :: 0 <= i < j < |es| ==> es[i].0 != es[j].0
  }

  /** `d.get(k)` on a dict: the value stored under `k`, if any. */
  function Lookup(es: Entries, k: string): Option<Value> {
    if es == [] then None
    else if es[0].0 == k then Some(es[0].1)
    else Lookup(es[1..], k)
  }

  /** A lookup finds something exactly when the key is among the dict's keys. */
  lemma {:induction false} LookupKeys(es: Entries, k: string)
    ensures Lookup(es, k).Some? <==> k in Keys(es)
  {
    if es != [] {
      assert Keys(es) == [es[0].0] + Keys(es[1..]);
      LookupKeys(es[1..], k);
    }
  }

  /** A dict display `{k: v, ...rest}` built one entry at a time, so that a lookup in it
      takes one step per entry. */
  function Cons(k: string, v: Value, rest: Entries): (r: Entries)
    ensures forall k' :: Lookup(r, k') == if k' == k then Some(v) else Lookup(rest, k')
  {
    var r := [(k, v)] + rest;
    assert r[1..] == rest;
    r
  }

  /** `d[k] = x` on a dict: replaces the value in place, or appends a new key at the end. */
  function Store(es: Entries, k: string, x: Value): (r: Entries)
    ensures Lookup(r, k) == Some(x)
    ensures forall k' :: k' != k ==> Lookup(r, k') == Lookup(es, k')
  {
    if es == [] then [(k, x)]
    else if es[0].0 == k then
      var r := [(k, x)] + es[1..];
      assert r[1..] == es[1..];
      r
    else
      var rest := Store(es[1..], k, x);
      var r := [es[0]] + rest;
      assert r[1..] == rest;
      r
  }

  /** Storing keeps the key order: an existing key stays where it is, a new one goes last. */
  lemma {:induction false} StoreKeys(es: Entries, k: string, x: Value)
    ensures Keys(Store(es, k, x)) == if k in Keys(es) then Keys(es) else Keys(es) + [k]
  {
    if es != [] {
      assert Keys(es) == [es[0].0] + Keys(es[1..]);
      if es[0].0 != k {
        StoreKeys(es[1..], k, x);
        assert Keys(Store(es, k, x)) == [es[0].0] + Keys(Store(es[1..], k, x));
      }
    }
  }

  /** Storing into a dict never creates a second copy of a key. */
  lemma StoreKeepsKeysUnique(es: Entries, k: string, x: Value)
    requires UniqueKeys(es)
    ensures UniqueKeys(Store(es, k, x))
  {
    var r := Store(es, k, x);
    StoreKeys(es, k, x);
    forall i, j | 0 <= i < j < |r|
      ensures r[i].0 != r[j].0
    {
      assert Keys(r)[i] == r[i].0 && Keys(r)[j] == r[j].0;
    }
  }

  /** `d.update(other)` for a dict argument: each key of `other`, in order, stored into `d`. */
  function StoreAll(es: Entries, other: Entries): (r: Entries)
    ensures forall k :: k in Keys(other) ==> Lookup(r, k) == Lookup(Reverse(other), k)
    ensures forall k :: k !in Keys(other) ==> Lookup(r, k) == Lookup(es, k)
    decreases |other|
  {
    if other == [] then es
    else
      var init := other[..|other| - 1];
      var last := other[|other| - 1];
      assert other == init + [last];
      var r := Store(StoreAll(es, init), last.0, last.1);
      ReverseSnoc(init, last);
      KeysSnoc(init, last);
      r
  }

  function Reverse(es: Entries): (r: Entries)
    ensures |r| == |es|
  {
    if es == [] then [] else Reverse(es[1..]) + [es[0]]
  }

  lemma {:induction false} ReverseSnoc(es: Entries, e: (string, Value))
    ensures Reverse(es + [e]) == [e] + Reverse(es)
  {
    if es != [] {
      assert (es + [e])[1..] == es[1..] + [e];
      ReverseSnoc(es[1..], e);
    }
  }

  lemma KeysSnoc(es: Entries, e: (string, Value))
    ensures Keys(es + [e]) == Keys(es) + [e.0]
  {
  }

  /** With distinct keys in `other`, `d.update(other)` leaves each key of `other` holding `other`'s value. */
  lemma {:induction false} StoreAllOverrides(es: Entries, other: Entries, k: string)
    requires UniqueKeys(other)
    ensures Lookup(StoreAll(es, other), k) == (if k in Keys(other) then Lookup(other, k) else Lookup(es, k))
  {
    if k in Keys(other) {
      UniqueReverseLookup(other, k);
    }
  }

  lemma {:induction false} UniqueReverseLookup(es: Entries, k: string)
    requires UniqueKeys(es)
    ensures Lookup(Reverse(es), k) == Lookup(es, k)
  {
    if es != [] {
      assert UniqueKeys(es[1..]);
      UniqueReverseLookup(es[1..], k);
      LookupAppend(Reverse(es[1..]), es[0], k);
      LookupKeys(Reverse(es[1..]), k);
      LookupKeys(es[1..], k);
      if es[0].0 == k {
        assert k !in Keys(es[1..]);
      }
    }
  }

  lemma {:induction false} LookupAppend(es: Entries, e: (string, Value), k: string)
    ensures Lookup(es + [e], k) == (if k in Keys(es) then Lookup(es, k) else if e.0 == k then Some(e.1) else None)
  {
    if es != [] {
      assert (es + [e])[1..] == es[1..] + [e];
      assert Keys(es) == [es[0].0] + Keys(es[1..]);
      LookupAppend(es[1..], e, k);
    }
  }

  /* The messages of the built-in exceptions raised below, as CPython 3.11 words them.
     Each is a named constant so that a proof sees the text only when it needs it. */
  const StrIndices := "string indices must be integers, not 'str'"
  const ListIndices := "list indices must be integers or slices, not str"
  const ListIndexRange := "list index out of range"
  const StrIndexRange := "string index out of range"
  const NotSubscriptable := "' object is not subscriptable"
  const NoGetMessage := "' object has no attribute 'get'"
  const NoItemAssignment := "' object does not support item assignment"
  const ArgumentOfType := "argument of type '"
  const ArgumentNotIterable := "' is not iterable"
  const UpdateElementNotPair := "cannot convert dictionary update sequence element #0 to a sequence"
  const UpdateElementLength := "dictionary update sequence element #0 has length 1; 2 is required"
  const NotIterable := "' object is not iterable"
  const NoItems := "' object has no attribute 'items'"
  const ObjectOfType := "object of type '"
  const NoLen := "' has no len()"

  /** `v[k]` with a string key. */
  function Subscript(v: Value, k: string): (r: Outcome<Value>)
    ensures r.Returned? <==> v.Dict? && k in Keys(v.entries)
    ensures r.Returned? ==> Lookup(v.entries, k) == Some(r.value)
    ensures v.Dict? && k !in Keys(v.entries) ==> r == Raised(KeyError(StrKey(k)))
  {
    match v
    case Dict(es) =>
      LookupKeys(es, k);
      (match Lookup(es, k) case Some(x) => Returned(x) case None => Raised(KeyError(StrKey(k))))
    case Str(_) => Raised(TypeError(StrIndices))
    case List(_) => Raised(TypeError(ListIndices))
    case _ => Raised(TypeError("'" + TypeName(v) + NotSubscriptable))
  }

  /** `v[n]` with an integer index (negative indices count from the end). */
  function Index(v: Value, n: int): (r: Outcome<Value>)
    ensures v.List? && 0 <= n < |v.items| ==> r == Returned(v.items[n])
    ensures v.List? && v.items == [] ==> r == Raised(IndexError(ListIndexRange))
  {
    match v
    case List(xs) =>
      if 0 <= n < |xs| then Returned(xs[n])
      else if -|xs| <= n < 0 then Returned(xs[|xs| + n])
      else Raised(IndexError(ListIndexRange))
    case Str(s) =>
      if 0 <= n < |s| then Returned(Str([s[n]]))
      else if -|s| <= n < 0 then Returned(Str([s[|s| + n]]))
      else Raised(IndexError(StrIndexRange))
    case Dict(_) => Raised(KeyError(IntKey(n)))
    case _ => Raised(TypeError("'" + TypeName(v) + NotSubscriptable))
  }

  /** `v.get(k, default)` */
  function DictGet(v: Value, k: string, default: Value): (r: Outcome<Value>)
    ensures r.Returned? <==> v.Dict?
    ensures v.Dict? ==> r.value == (match Lookup(v.entries, k) case Some(x) => x case None => default)
  {
    match v
    case Dict(es) => Returned(match Lookup(es, k) case Some(x) => x case None => default)
    case _ => Raised(AttributeError("'" + TypeName(v) + NoGetMessage))
  }

  /** `v[k] = x` with a string key: the updated value, since the modelled values are immutable. */
  function SetItem(v: Value, k: string, x: Value): (r: Outcome<Value>)
    ensures r.Returned? <==> v.Dict?
    ensures r.Returned? ==> r.value.Dict? && Lookup(r.value.entries, k) == Some(x)
    ensures r.Returned? ==> forall k' :: k' != k ==> Lookup(r.value.entries, k') == Lookup(v.entries, k')
  {
    match v
    case Dict(es) => Returned(Dict(Store(es, k, x)))
    case List(_) => Raised(TypeError(ListIndices))
    case _ => Raised(TypeError("'" + TypeName(v) + NoItemAssignment))
  }

  /** `k in v` with a string `k`: a key of a dict, an element of a list, a substring of a str. */
  function In(k: string, v: Value): (r: Outcome<bool>)
    ensures v.Dict? ==> r == Returned(k in Keys(v.entries))
  {
    match v
    case Dict(es) => Returned(k in Keys(es))
    case List(xs) => Returned(Str(k) in xs)
    case Str(s) => Returned(Strings.Contains(s, k))
    case _ => Raised(TypeError(ArgumentOfType + TypeName(v) + ArgumentNotIterable))
  }

  /** `d.update(other)` for a dict `d`. */
  function DictUpdate(es: Entries, other: Value): (r: Outcome<Entries>)
    ensures other.Dict? ==> r == Returned(StoreAll(es, other.entries))
    ensures other.Null? ==> r.Raised?
  {
    match other
    case Dict(os) => Returned(StoreAll(es, os))
    case List(xs) =>
      if xs == [] then Returned(es)
      else Raised(TypeError(UpdateElementNotPair))
    case Str(s) =>
      if s == "" then Returned(es)
      else Raised(ValueError(UpdateElementLength))
    case _ => Raised(TypeError("'" + TypeName(other) + NotIterable))
  }

  /** `v.items()` */
  function Items(v: Value): (r: Outcome<Entries>)
    ensures r.Returned? <==> v.Dict?
    ensures v.Dict? ==> r.value == v.entries
  {
    match v
    case Dict(es) => Returned(es)
    case _ => Raised(AttributeError("'" + TypeName(v) + NoItems))
  }

  /** `len(v)` */
  function Len(v: Value): (r: Outcome<nat>)
    ensures r.Returned? <==> (v.Str? || v.List? || v.Dict?)
  {
    match v
    case Str(s) => Returned(|s|)
    case List(xs) => Returned(|xs|)
    case Dict(es) => Returned(|es|)
    case _ => Raised(TypeError(ObjectOfType + TypeName(v) + NoLen))
  }

  /** What `for x in v` visits: list items, dict keys, or the characters of a string. */
  function Iterate(v: Value): (r: Outcome<seq<Value>>)
    ensures v.List? ==> r == Returned(v.items)
    ensures r.Returned? <==> (v.Str? || v.List? || v.Dict?)
  {
    match v
    case List(xs) => Returned(xs)
    case Dict(es) => Returned(seq(|es|, i requires 0 <= i < |es| => Str(es[i].0)))
    case Str(s) => Returned(seq(|s|, i requires 0 <= i < |s| => Str([s[i]])))
    case _ => Raised(TypeError("'" + TypeName(v) + NotIterable))
  }

  /** A string as an f-string shows it: strings verbatim, anything else through `str()`,
      which the model leaves to the caller-supplied `show`. */
  function Format(show: Value -> string, v: Value): string {
    if v.Str? then v.s else show(v)
  }

  /** A value passed on where a `str` or None is expected: a string, or None for anything else. */
  function AsOption(v: Value): Option<string> {
    if v.Str? then Some(v.s) else None
  }

  /** `v.get(k)` for a dict, and None for anything else: for stating what a record holds. */
  function Get(v: Value, k: string): Value {
    if v.Dict? then (match Lookup(v.entries, k) case Some(x) => x case None => Null) else Null
  }
}
