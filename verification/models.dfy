/** The search-hit record (`SearchResult` in models.py) and its two operations. */
module Models {

  /** One raw item of the search API's `items` array, as a string-to-string dictionary. */
  type RawItem = map<string, string>

  /** One search hit. `content` holds the fetched page text once the hit has been enriched. */
  datatype SearchResult = SearchResult(title: string, url: string, snippet: string, content: string)

  /** Dictionary lookup with an empty-string default (`item.get(key, "")`). */
  function GetOrEmpty(item: RawItem, key: string): string
  {
    if key in item then item[key] else ""
  }

  /** Builds a record from a raw API item: `url` is read from the `link` key, every missing key
      becomes the empty string, and `content` is never supplied, so it keeps its empty default. */
  function FromGoogleResult(item: RawItem): (r: SearchResult)
    ensures "title" in item ==> r.title == item["title"]
    ensures "title" !in item ==> r.title == ""
    ensures "link" in item ==> r.url == item["link"]
    ensures "link" !in item ==> r.url == ""
    ensures "snippet" in item ==> r.snippet == item["snippet"]
    ensures "snippet" !in item ==> r.snippet == ""
    ensures r.content == ""
  {
    SearchResult(GetOrEmpty(item, "title"), GetOrEmpty(item, "link"), GetOrEmpty(item, "snippet"), "")
  }

  /** The record depends on the `title`, `link` and `snippet` keys only. */
  lemma FromGoogleResultReadsOnlyKnownKeys(a: RawItem, b: RawItem)
    requires GetOrEmpty(a, "title") == GetOrEmpty(b, "title")
    requires GetOrEmpty(a, "link") == GetOrEmpty(b, "link")
    requires GetOrEmpty(a, "snippet") == GetOrEmpty(b, "snippet")
    ensures FromGoogleResult(a) == FromGoogleResult(b)
  {
  }

  /** The `url` key of a raw item plays no part: the record's url comes from `link`. */
  lemma UrlKeyIgnored(item: RawItem, u: string)
    ensures FromGoogleResult(item["url" := u]) == FromGoogleResult(item)
  {
    var item' := item["url" := u];
    assert "url" != "title" && "url" != "link" && "url" != "snippet";
    assert GetOrEmpty(item', "title") == GetOrEmpty(item, "title");
    assert GetOrEmpty(item', "link") == GetOrEmpty(item, "link");
    assert GetOrEmpty(item', "snippet") == GetOrEmpty(item, "snippet");
  }

  /** Attaches page text to a record, leaving the three search fields as they were. */
  function SetContent(r: SearchResult, content: string): (r': SearchResult)
    ensures r'.content == content
    ensures r'.title == r.title && r'.url == r.url && r'.snippet == r.snippet
  {
    r.(content := content)
  }

  /** Setting the content twice keeps only the second value; setting the same value twice is the
      same as setting it once; setting a record's own content changes nothing. */
  lemma SetContentLastWriteWins(r: SearchResult, a: string, b: string)
    ensures SetContent(SetContent(r, a), b) == SetContent(r, b)
    ensures SetContent(SetContent(r, a), a) == SetContent(r, a)
    ensures SetContent(r, r.content) == r
  {
  }
}
