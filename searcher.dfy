/** `search_documents` of the medical journal searcher: the request body for each search
    type, and the shaping of Elasticsearch hits into result records. The embedding model
    and the Elasticsearch client are parameters; any exception makes the search return []. */
module Searcher {
  import opened Strings
  import opened PyValue

  /** The fields the keyword part of a search matches, with their boosts. */
  const TextFields: seq<string> := ["text^2", "metadata.image_info.caption^1.5",
    "metadata.image_info.description^1.2", "metadata.image_info.ocr_text"]

  /** The query part of a request body. */
  datatype Query =
    | MultiMatch(query: string, fields: seq<string>)
    | CosineScore(queryVector: Value)
    | Should(clauses: seq<Query>)

  datatype SearchBody = SearchBody(query: Query, size: int)

  /** The embedder (`initialize_watsonx().embed_query`) and the client (`es.search`), either of
      which may raise. */
  datatype SearchServices = SearchServices(
    embed: string -> Outcome<Value>,
    search: (string, SearchBody) -> Outcome<Value>)

  const SearchTypes: seq<string> := ["bm25", "vector", "hybrid"]

  /** The request body for `search_type`: keyword matching, cosine similarity to the query's
      embedding, or both; anything else is a ValueError. */
  function RequestBody(svc: SearchServices, searchType: string, query: string, k: int): (r: Outcome<SearchBody>)
    ensures r.Returned? ==> r.value.size == k
    ensures searchType !in SearchTypes ==> r == Raised(ValueError("Invalid search type: " + searchType))
    ensures searchType == "bm25" ==> r.Returned? && r.value.query == MultiMatch(query, TextFields)
    ensures searchType in ["vector", "hybrid"] ==> (r.Raised? <==> svc.embed(query).Raised?)
    ensures searchType == "hybrid" && r.Returned? ==>
      r.value.query == Should([MultiMatch(query, TextFields), CosineScore(svc.embed(query).value)])
  {
    if searchType == "bm25" then
      Returned(SearchBody(MultiMatch(query, TextFields), k))
    else if searchType == "vector" then
      var queryVector :- svc.embed(query);
      Returned(SearchBody(CosineScore(queryVector), k))
    else if searchType == "hybrid" then
      var queryVector :- svc.embed(query);
      Returned(SearchBody(Should([MultiMatch(query, TextFields), CosineScore(queryVector)]), k))
    else
      Raised(ValueError("Invalid search type: " + searchType))
  }

  /** The result record for one hit, built in the order of the dict literal; a missing key
      anywhere raises. `image_info` is added only when `has_image` is truthy. */
  function HitResult(hit: Value): Outcome<Entries>
  {
    var score :- Subscript(hit, "_score");
    var source :- Subscript(hit, "_source");
    SourceResult(score, source)
  }

  /** The part of `HitResult` that reads the stored chunk. */
  function SourceResult(score: Value, source: Value): Outcome<Entries>
  {
    var text :- Subscript(source, "text");
    var pdf :- Subscript(source, "source_pdf");
    var page :- Subscript(source, "page_number");
    var metadata :- DictGet(source, "metadata", Dict([]));
    var stored :- Subscript(source, "metadata");
    var hasImage :- HasImage(stored);
    WithImageInfo(Record(score, text, pdf, page, metadata, hasImage), stored, hasImage)
  }

  /** `metadata.get("image_info", {}).get("has_image", False)` */
  function HasImage(stored: Value): (r: Outcome<Value>)
    ensures stored.Dict? && Lookup(stored.entries, "image_info").None? ==> r == Returned(Bool(false))
  {
    var imageInfo :- DictGet(stored, "image_info", Dict([]));
    DictGet(imageInfo, "has_image", Bool(false))
  }

  /** The six keys every result has. */
  function Record(score: Value, text: Value, pdf: Value, page: Value, metadata: Value, hasImage: Value): (r: Entries)
    ensures Lookup(r, "score") == Some(score) && Lookup(r, "text") == Some(text)
    ensures Lookup(r, "source") == Some(pdf) && Lookup(r, "page") == Some(page)
    ensures Lookup(r, "metadata") == Some(metadata) && Lookup(r, "has_image") == Some(hasImage)
    ensures Lookup(r, "image_info").None?
  {
    Cons("score", score, Cons("text", text, Cons("source", pdf, Cons("page", page,
      Cons("metadata", metadata, Cons("has_image", hasImage, []))))))
  }

  /** `if result["has_image"]: result["image_info"] = metadata["image_info"]` */
  function WithImageInfo(result: Entries, stored: Value, hasImage: Value): (r: Outcome<Entries>)
    ensures r.Returned? ==> forall k :: k != "image_info" ==> Lookup(r.value, k) == Lookup(result, k)
    ensures r.Returned? && Truthy(hasImage) ==> Lookup(r.value, "image_info") == Some(Get(stored, "image_info"))
    ensures !Truthy(hasImage) ==> r == Returned(result)
  {
    if Truthy(hasImage) then
      var info :- Subscript(stored, "image_info");
      Returned(Store(result, "image_info", info))
    else Returned(result)
  }

  /** `f` applied to each element in order, stopping at the first exception. */
  function MapEach<A, B>(f: A -> Outcome<B>, xs: seq<A>): Outcome<seq<B>>
  {
    if xs == [] then Returned([])
    else
      var front :- MapEach(f, xs[..|xs| - 1]);
      var last :- f(xs[|xs| - 1]);
      Returned(front + [last])
  }

  /** The results for the hits. */
  function MapHits(hits: seq<Value>): Outcome<seq<Entries>>
  {
    MapEach(HitResult, hits)
  }

  /** `response["hits"]["hits"]` turned into results, or the exception on the way. */
  function Shape(response: Value): Outcome<seq<Entries>>
  {
    var outer :- Subscript(response, "hits");
    var inner :- Subscript(outer, "hits");
    var hits :- Iterate(inner);
    MapHits(hits)
  }

  /** The result loop. */
  method ShapeResults(response: Value) returns (r: Outcome<seq<Entries>>)
    ensures r == Shape(response)
  {
    var outer := Subscript(response, "hits");
    if outer.Raised? {
      return Raised(outer.exc);
    }
    var inner := Subscript(outer.value, "hits");
    if inner.Raised? {
      return Raised(inner.exc);
    }
    var iterated := Iterate(inner.value);
    if iterated.Raised? {
      return Raised(iterated.exc);
    }
    var hits := iterated.value;
    var results: seq<Entries> := [];
    var i := 0;
    while i < |hits|
      invariant 0 <= i <= |hits|
      invariant MapHits(hits[..i]) == Returned(results)
    {
      var result := HitResult(hits[i]);
      MapEachStep(HitResult, hits, i);
      if result.Raised? {
        MapEachPrefixRaises(HitResult, hits, i + 1);
        return Raised(result.exc);
      }
      results := results + [result.value];
      i := i + 1;
    }
    assert hits[..i] == hits;
    return Returned(results);
  }

  /** Mapping one more element extends the prefix's results, or raises. */
  lemma MapEachStep<A, B>(f: A -> Outcome<B>, xs: seq<A>, i: nat)
    requires i < |xs|
    ensures MapEach(f, xs[..i + 1]) ==
      match MapEach(f, xs[..i])
      case Raised(e) => Raised(e)
      case Returned(front) => match f(xs[i]) case Raised(e) => Raised(e) case Returned(last) => Returned(front + [last])
  {
    assert xs[..i + 1][..i] == xs[..i] && xs[..i + 1][i] == xs[i];
  }

  /** Once a prefix raises, the whole sequence raises the same exception. */
  lemma {:induction false} MapEachPrefixRaises<A, B>(f: A -> Outcome<B>, xs: seq<A>, n: nat)
    requires n <= |xs| && MapEach(f, xs[..n]).Raised?
    ensures MapEach(f, xs) == MapEach(f, xs[..n])
    decreases |xs| - n
  {
    if n < |xs| {
      assert xs[..n + 1][..n] == xs[..n];
      MapEachPrefixRaises(f, xs, n + 1);
    } else {
      assert xs[..n] == xs;
    }
  }

  /** `search_documents(query, search_type, k)`: never raises; every failure is []. */
  function SearchSpec(svc: SearchServices, index: string, query: string, searchType: string, k: int): seq<Entries>
  {
    match RequestBody(svc, searchType, query, k)
    case Raised(_) => []
    case Returned(body) =>
      match svc.search(index, body)
      case Raised(_) => []
      case Returned(response) =>
        match Shape(response)
        case Raised(_) => []
        case Returned(results) => results
  }

  method SearchDocuments(svc: SearchServices, index: string, query: string, searchType: string, k: int)
    returns (results: seq<Entries>)
    ensures results == SearchSpec(svc, index, query, searchType, k)
  {
    var body := RequestBody(svc, searchType, query, k);
    if body.Raised? {
      return [];
    }
    var response := svc.search(index, body.value);
    if response.Raised? {
      return [];
    }
    var shaped := ShapeResults(response.value);
    if shaped.Raised? {
      return [];
    }
    return shaped.value;
  }

  /** An unknown search type gives no results. */
  lemma UnknownSearchType(svc: SearchServices, index: string, query: string, searchType: string, k: int)
    requires searchType !in SearchTypes
    ensures SearchSpec(svc, index, query, searchType, k) == []
  {
  }

  /** Every request sent asks for exactly k hits. */
  lemma RequestsAskForK(svc: SearchServices, index: string, query: string, searchType: string, k: int)
    requires SearchSpec(svc, index, query, searchType, k) != []
    ensures RequestBody(svc, searchType, query, k).Returned?
    ensures RequestBody(svc, searchType, query, k).value.size == k
  {
  }

  /** Results and inputs correspond one to one, in order: either every element is mapped or
      the whole mapping raises. */
  lemma {:induction false} MapEachEach<A, B>(f: A -> Outcome<B>, xs: seq<A>)
    ensures MapEach(f, xs).Returned? <==> forall i :: 0 <= i < |xs| ==> f(xs[i]).Returned?
    ensures MapEach(f, xs).Returned? ==>
      |MapEach(f, xs).value| == |xs|
      && forall i :: 0 <= i < |xs| ==> MapEach(f, xs).value[i] == f(xs[i]).value
  {
    if xs != [] {
      var front := xs[..|xs| - 1];
      MapEachEach(f, front);
      assert forall i :: 0 <= i < |front| ==> front[i] == xs[i];
    }
  }

  /** One result per hit, in hit order, or no results at all. */
  lemma MapHitsEach(hits: seq<Value>)
    ensures MapHits(hits).Returned? <==> forall i :: 0 <= i < |hits| ==> HitResult(hits[i]).Returned?
    ensures MapHits(hits).Returned? ==>
      |MapHits(hits).value| == |hits|
      && forall i :: 0 <= i < |hits| ==> MapHits(hits).value[i] == HitResult(hits[i]).value
  {
    MapEachEach(HitResult, hits);
  }

  /** A hit that gives a result reads its score and stored chunk by key. */
  lemma HitSource(hit: Value)
    requires HitResult(hit).Returned?
    ensures Subscript(hit, "_score") == Returned(Get(hit, "_score"))
    ensures Subscript(hit, "_source") == Returned(Get(hit, "_source"))
    ensures HitResult(hit) == SourceResult(Get(hit, "_score"), Get(hit, "_source"))
  {
  }

  /** The stored chunk's text, file name and page are copied, beside the score. */
  lemma SourceFields(score: Value, source: Value)
    requires SourceResult(score, source).Returned?
    ensures var r := SourceResult(score, source).value;
      Lookup(r, "score") == Some(score)
      && Lookup(r, "text") == Some(Get(source, "text"))
      && Lookup(r, "source") == Some(Get(source, "source_pdf"))
      && Lookup(r, "page") == Some(Get(source, "page_number"))
  {
    var text, pdf, page := Subscript(source, "text"), Subscript(source, "source_pdf"), Subscript(source, "page_number");
    var metadata, stored := DictGet(source, "metadata", Dict([])), Subscript(source, "metadata");
    var hasImage := HasImage(stored.value);
    var rec := Record(score, text.value, pdf.value, page.value, metadata.value, hasImage.value);
    assert SourceResult(score, source) == WithImageInfo(rec, stored.value, hasImage.value);
  }

  /** `image_info` is in the record exactly when `has_image` is truthy, and then it is the
      stored one. */
  lemma SourceImage(score: Value, source: Value)
    requires SourceResult(score, source).Returned?
    ensures var r := SourceResult(score, source).value;
      Lookup(r, "has_image").Some?
      && (Lookup(r, "image_info").Some? <==> Truthy(Lookup(r, "has_image").value))
      && (Lookup(r, "image_info").Some? ==> Lookup(r, "image_info").value == Get(Get(source, "metadata"), "image_info"))
      && (Get(source, "metadata").Dict? && Lookup(Get(source, "metadata").entries, "image_info").None? ==>
            Lookup(r, "has_image") == Some(Bool(false)))
  {
    var text, pdf, page := Subscript(source, "text"), Subscript(source, "source_pdf"), Subscript(source, "page_number");
    var metadata, stored := DictGet(source, "metadata", Dict([])), Subscript(source, "metadata");
    var hasImage := HasImage(stored.value);
    var rec := Record(score, text.value, pdf.value, page.value, metadata.value, hasImage.value);
    assert SourceResult(score, source) == WithImageInfo(rec, stored.value, hasImage.value);
    assert stored.value == Get(source, "metadata");
  }

  /** A hit's result copies the score, text, file name and page of the stored chunk. */
  lemma HitFields(hit: Value)
    requires HitResult(hit).Returned?
    ensures var r := HitResult(hit).value;
      var source := Get(hit, "_source");
      Lookup(r, "score") == Some(Get(hit, "_score"))
      && Lookup(r, "text") == Some(Get(source, "text"))
      && Lookup(r, "source") == Some(Get(source, "source_pdf"))
      && Lookup(r, "page") == Some(Get(source, "page_number"))
  {
    HitSource(hit);
    SourceFields(Get(hit, "_score"), Get(hit, "_source"));
  }

  /** `image_info` is in a result exactly when its `has_image` is truthy; then it is the
      stored image information. */
  lemma ImageInfoIffHasImage(hit: Value)
    requires HitResult(hit).Returned?
    ensures var r := HitResult(hit).value;
      Lookup(r, "has_image").Some?
      && (Lookup(r, "image_info").Some? <==> Truthy(Lookup(r, "has_image").value))
      && (Lookup(r, "image_info").Some? ==>
            Lookup(r, "image_info").value == Get(Get(Get(hit, "_source"), "metadata"), "image_info"))
  {
    HitSource(hit);
    SourceImage(Get(hit, "_score"), Get(hit, "_source"));
  }

  /** Without stored image information `has_image` is False and no `image_info` is added. */
  lemma HasImageDefault(hit: Value)
    requires HitResult(hit).Returned?
    requires Get(Get(hit, "_source"), "metadata").Dict?
    requires Lookup(Get(Get(hit, "_source"), "metadata").entries, "image_info").None?
    ensures Lookup(HitResult(hit).value, "has_image") == Some(Bool(false))
    ensures Lookup(HitResult(hit).value, "image_info").None?
  {
    HitSource(hit);
    SourceImage(Get(hit, "_score"), Get(hit, "_source"));
  }

  /** A stored chunk without `metadata` fails its hit, although the `metadata` field of the
      result has a default: `has_image` indexes it directly. */
  lemma MissingMetadataRaises(hit: Value)
    requires hit.Dict? && Lookup(hit.entries, "_source").Some?
    requires var source := Lookup(hit.entries, "_source").value;
      source.Dict? && Lookup(source.entries, "metadata").None?
    ensures HitResult(hit).Raised?
  {
    var source := Lookup(hit.entries, "_source").value;
    LookupKeys(hit.entries, "_source");
    LookupKeys(source.entries, "metadata");
  }

  /** So one such hit among the hits empties the whole answer. */
  lemma MissingMetadataEmptiesSearch(svc: SearchServices, index: string, query: string, searchType: string, k: int,
                                     response: Value, i: nat)
    requires RequestBody(svc, searchType, query, k).Returned?
    requires svc.search(index, RequestBody(svc, searchType, query, k).value) == Returned(response)
    requires Iterate(Get(Get(response, "hits"), "hits")).Returned?
    requires var hits := Iterate(Get(Get(response, "hits"), "hits")).value;
      i < |hits| && HitResult(hits[i]).Raised?
    ensures SearchSpec(svc, index, query, searchType, k) == []
  {
    var hits := Iterate(Get(Get(response, "hits"), "hits")).value;
    MapHitsEach(hits);
  }
}
