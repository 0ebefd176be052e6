/** The filter stage: choosing which search results to keep, then enriching each chosen result
    with the text of its page. */
module Filter {
  import opened Wrappers
  import opened Models
  import opened Seqs

  /** How many results the fallback keeps when the model's reply cannot be used. */
  const FallbackCount: nat := 3

  /** What decoding the model's reply as JSON produced: decoding failed; an empty array, object
      or string (iterating it yields nothing); a number, boolean or null (it cannot be iterated);
      or a non-empty array, object or string. */
  datatype JsonParse = JsonFailure | JsonEmptyIterable | JsonNotIterable | JsonNonEmptyIterable

  /** Raised while enriching a decoded JSON value: iterating a number, boolean or null fails
      before any item is read, and the items of a non-empty array, object or string are plain
      JSON values (or characters), which have no `url` attribute. */
  datatype FilterError = NotIterable | ItemHasNoUrl

  /** The unranked fallback: the first three results, or all of them when there are fewer. */
  function FallbackSelection(results: seq<SearchResult>): (sel: seq<SearchResult>)
    ensures sel <= results
    ensures |sel| <= FallbackCount
    ensures |results| >= FallbackCount ==> |sel| == FallbackCount
    ensures |results| <= FallbackCount ==> sel == results
  {
    results[..Min(FallbackCount, |results|)]
  }

  /** `e` is `s` with its content replaced by the text fetched from `s`'s url. */
  predicate EnrichedFrom(e: SearchResult, s: SearchResult, fetch: string -> string)
  {
    e.content == fetch(s.url) && e.title == s.title && e.url == s.url && e.snippet == s.snippet
  }

  /** The enrichment loop: one fetch per selected result, in selection order. */
  method Enrich(selection: seq<SearchResult>, fetch: string -> string) returns (enriched: seq<SearchResult>)
    ensures |enriched| == |selection|
    ensures forall i :: 0 <= i < |selection| ==> EnrichedFrom(enriched[i], selection[i], fetch)
  {
    enriched := [];
    var i := 0;
    while i < |selection|
      invariant 0 <= i <= |selection|
      invariant |enriched| == i
      invariant forall j :: 0 <= j < i ==> EnrichedFrom(enriched[j], selection[j], fetch)
    {
      var item := selection[i];
      var content := fetch(item.url);
      enriched := enriched + [SetContent(item, content)];
      i := i + 1;
    }
  }

  /** The whole stage. An unreadable reply falls back to the first three results; a decoded
      empty value selects nothing; a decoded value that cannot be iterated, or whose first item
      is read for a `url`, raises before a page is fetched.
      Whatever succeeds holds at most three results, each carrying the text of its own url. */
  method FilterAndEnrich(searchResults: seq<SearchResult>, parse: JsonParse, fetch: string -> string)
    returns (outcome: Result<seq<SearchResult>, FilterError>)
    ensures outcome.Failure? <==> parse.JsonNotIterable? || parse.JsonNonEmptyIterable?
    ensures parse.JsonNotIterable? ==> outcome == Failure(NotIterable)
    ensures parse.JsonNonEmptyIterable? ==> outcome == Failure(ItemHasNoUrl)
    ensures parse.JsonEmptyIterable? ==> outcome == Success([])
    ensures parse.JsonFailure? ==>
              outcome.Success?
              && |outcome.value| == Min(FallbackCount, |searchResults|)
              && forall i :: 0 <= i < |outcome.value| ==> EnrichedFrom(outcome.value[i], searchResults[i], fetch)
    ensures outcome.Success? ==>
              |outcome.value| <= FallbackCount
              && forall i :: 0 <= i < |outcome.value| ==> outcome.value[i].content == fetch(outcome.value[i].url)
  {
    match parse
    case JsonFailure =>
      var selection := FallbackSelection(searchResults);
      var enriched := Enrich(selection, fetch);
      outcome := Success(enriched);
    case JsonEmptyIterable =>
      outcome := Success([]);
    case JsonNotIterable =>
      outcome := Failure(NotIterable);
    case JsonNonEmptyIterable =>
      outcome := Failure(ItemHasNoUrl);
  }
}
