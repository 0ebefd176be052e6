/** The search stage: mapping one search API reply to records, and concatenating the records of
    every planner topic into one flat collection. */
module Search {
  import opened Wrappers
  import opened Models
  import opened Seqs

  /** The HTTP status the search stage treats as success. */
  const HttpOk: int := 200

  /** The search API's reply to one query: its HTTP status and, when the JSON body has an
      `items` key, that array. */
  datatype GoogleResponse = GoogleResponse(status: int, items: Option<seq<RawItem>>)

  /** The body's `items` array, or the empty array when the key is missing. */
  function ItemsOrEmpty(resp: GoogleResponse): seq<RawItem>
  {
    match resp.items
    case Some(xs) => xs
    case None => []
  }

  /** One record per raw item, in the items' order. */
  function MapItems(items: seq<RawItem>): (results: seq<SearchResult>)
    ensures |results| == |items|
    ensures forall i :: 0 <= i < |items| ==> results[i] == FromGoogleResult(items[i])
  {
    seq(|items|, i requires 0 <= i < |items| => FromGoogleResult(items[i]))
  }

  /** The records of one search: on status 200 one fresh record per item, in order (none when
      `items` is missing); on any other status none at all. */
  function SearchTopic(resp: GoogleResponse): (results: seq<SearchResult>)
    ensures resp.status != HttpOk ==> results == []
    ensures resp.status == HttpOk && resp.items.None? ==> results == []
    ensures resp.status == HttpOk && resp.items.Some? ==>
              |results| == |resp.items.value|
              && forall i :: 0 <= i < |results| ==> results[i] == FromGoogleResult(resp.items.value[i])
    ensures forall i :: 0 <= i < |results| ==> results[i].content == ""
  {
    if resp.status == HttpOk then MapItems(ItemsOrEmpty(resp)) else []
  }

  /** The search results of each topic, in topic order. */
  function PerTopic(topics: seq<string>, google: string -> GoogleResponse): (blocks: seq<seq<SearchResult>>)
    ensures |blocks| == |topics|
    ensures forall k :: 0 <= k < |topics| ==> blocks[k] == SearchTopic(google(topics[k]))
  {
    seq(|topics|, k requires 0 <= k < |topics| => SearchTopic(google(topics[k])))
  }

  /** The topic loop: one search per topic, each topic's records appended in topic order, with
      duplicates across topics kept. */
  method CollectResults(topics: seq<string>, google: string -> GoogleResponse) returns (all: seq<SearchResult>)
    ensures all == Flatten(PerTopic(topics, google))
    ensures |all| == TotalLength(PerTopic(topics, google))
  {
    ghost var blocks := PerTopic(topics, google);
    all := [];
    var i := 0;
    while i < |topics|
      invariant 0 <= i <= |topics|
      invariant all == Flatten(blocks[..i])
    {
      var searchResults := SearchTopic(google(topics[i]));
      assert blocks[..i + 1] == blocks[..i] + [searchResults];
      FlattenSnoc(blocks[..i], searchResults);
      all := all + searchResults;
      i := i + 1;
    }
    assert blocks[..i] == blocks;
  }

  /** Topic k's records sit in the collected results right after those of topics 0..k-1. */
  lemma {:induction false} TopicBlockInOrder(topics: seq<string>, google: string -> GoogleResponse, k: nat)
    requires k < |topics|
    ensures ContainsAt(Flatten(PerTopic(topics, google)), SearchTopic(google(topics[k])),
                       TotalLength(PerTopic(topics, google)[..k]))
  {
    BlockAtOffset(PerTopic(topics, google), k);
  }

  /** When every search fails, nothing is collected. */
  lemma {:induction false} AllSearchesFailed(topics: seq<string>, google: string -> GoogleResponse)
    requires forall k :: 0 <= k < |topics| ==> google(topics[k]).status != HttpOk
    ensures Flatten(PerTopic(topics, google)) == []
  {
    FlattenOfEmptyBlocks(PerTopic(topics, google));
  }
}
