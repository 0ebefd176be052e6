# seep-desearch: the research pipeline, modelled in Dafny

seep-desearch is a chat application that turns a user's message into a Wikipedia-style report.
It plans search topics with a language model, runs one web search per topic, picks (or falls
back to) a handful of results, fetches their pages, and builds the Markdown context the report
prompt is written from. This project models the deterministic part of that pipeline and proves
what it does for every reply the model admits from the external services (a decoded search
reply per topic, a page text per url; see "Left out" for what that excludes).

Every external call is an input of the model:

- the planner's reply, already parsed as a literal, is a `Planner.Parsed`: a parse error, a
  value that is not a list, or a list of topics;
- the search API is a function from a topic to a `Search.GoogleResponse` (HTTP status and the
  optional `items` array of string-to-string dictionaries);
- the relevancy filter's reply, parsed as JSON, is a `Filter.JsonParse`: a decode error, an empty
  array/object/string, a number/boolean/null, or a non-empty array/object/string;
- the page fetcher is a function from a url to the page text.

Modules follow the program: `Models` (the `SearchResult` record), `Planner`, `Search` (one
search, and the loop over topics), `Filter` (fallback selection and enrichment), `Report` (the
context string), `Pipeline` (the message handler). `Seqs` holds generic lemmas about flattening
and about a sequence occurring at an offset of another (`ContainsAt`); `Wrappers` holds `Option`
and `Result`.

Where the program's prompts and comments promise more than its code does, the model follows the
code:

- the planner prompt asks for "a maximum of 5 topics" and for an empty list when the intent is
  unclear (app.py:37-40), but the code never truncates the parsed list, and replaces an empty
  list with `[prompt]`, exactly like a parse failure (app.py:63-66);
- the search request carries `num: 5` (app.py:84), but that is only a request to the search API:
  the code keeps every item the reply holds, so the model caps neither the number of topics nor
  the number of results per topic;
- the filter prompt asks for "a Python list" (app.py:146), but the reply is decoded with
  `json.loads` (app.py:153) and, on success, iterated with `.url` read from each element
  (app.py:159-160). A number, boolean or null cannot be iterated, and no element of a JSON array,
  object or string has a `url` attribute, so the model returns `Failure(NotIterable)` or
  `Failure(ItemHasNoUrl)` for those; an empty array, object or string selects nothing and gives
  `Success([])`.

## Model

| member | source | states |
|---|---|---|
| Models.FromGoogleResult | models.py:16-25 | title, url and snippet are the item's `title`, `link` and `snippet` values when present and empty otherwise; content is always empty |
| Models.UrlKeyIgnored | models.py:21-25 | a raw item's `url` key has no effect on the record: the url comes from `link` only |
| Models.FromGoogleResultReadsOnlyKnownKeys | models.py:21-25 | two items that agree on `title`, `link` and `snippet` give the same record |
| Models.SetContent | models.py:27-29 | the record's content becomes the given text and title, url and snippet are unchanged |
| Models.SetContentLastWriteWins | models.py:27-29 | setting content twice keeps the second value, is idempotent, and setting a record's own content is the identity |
| Planner.PlanTopics | app.py:61-68 | at least one topic; a non-empty parsed list is returned unchanged; an empty list, a non-list or a parse error gives `[prompt]`; every topic is the prompt or comes from the parsed list |
| Planner.EmptyListIsFallback | app.py:63-68 | an empty list, a non-list and a parse error all give the same single-topic plan `[prompt]` |
| Planner.NoLengthCap | app.py:63-64 | every positive number of topics is possible: the planner does not truncate the list |
| Search.MapItems | app.py:90-96 | one record per raw item, in item order, each built by `FromGoogleResult` |
| Search.SearchTopic | app.py:88-99 | a non-200 status gives no results; a 200 reply without `items` gives none; otherwise one record per item in order; every record's content is empty |
| Search.CollectResults | app.py:234-238 | the collected list is the concatenation of the per-topic result lists in topic order, and its length is the sum of their lengths |
| Search.TopicBlockInOrder | app.py:236-238 | topic k's results occur contiguously in the collected list, starting right after the results of topics 0..k-1 |
| Search.AllSearchesFailed | app.py:97-99 | when every topic's search returns a non-200 status the collected list is empty |
| Filter.FallbackSelection | app.py:154-156 | the fallback is a prefix of the results of length three, or all of them when there are fewer |
| Filter.Enrich | app.py:158-165 | one output per selected result, in order, each the selected result with its content set to the fetched text of its own url |
| Filter.FilterAndEnrich | app.py:152-165 | fails exactly when the reply decodes to a number, boolean or null (not iterable) or to a non-empty array, object or string (item has no url); an empty decoded value gives no results; an undecodable reply gives the enriched first min(3, n) results; any success holds at most three results whose content is the fetch of their url |
| Report.Excerpt | app.py:180 | empty content gives the placeholder sentence; otherwise the excerpt is a prefix of the content of at most 200 characters (all of it when shorter, exactly 200 when longer) followed by `...` |
| Report.Context | app.py:174-181 | the context always starts with the query header; with no results it is exactly the header |
| Report.ContextSnoc | app.py:176-181 | one more result appends exactly its section to the context, which is what each loop iteration does |
| Report.ContextPrefix | app.py:176-181 | the context of the first j results is a prefix of the context of all results |
| Report.SectionInOrder | app.py:176-181 | result i's section occurs in the context starting where the context of results 0..i-1 ends |
| Report.SectionLines | app.py:177-181 | each of the four lines of a section (title, URL, snippet, excerpt) occurs at its offset, in that order |
| Report.SectionShowsField | app.py:177-181 | each field's text occurs in the section right after its label |
| Report.InSectionInContext | app.py:176-181 | anything occurring in result i's section occurs in the whole context at the shifted offset |
| Report.HeaderShowsQuery | app.py:174-175 | the query occurs in the header right after `**Search Query:** ` |
| Report.ContextShowsQuery | app.py:174-181 | the query occurs in the context right after `**Search Query:** `, whatever the results |
| Pipeline.HandleMessage | app.py:209-253 | the topics are the planner's (at least one); the collected results are the per-topic concatenation; an undecodable filter reply gives the enriched first min(3, n) of those collected results; the handler fails exactly when the filter reply decodes to a non-iterable value (with `NotIterable`) or a non-empty one (with `ItemHasNoUrl`); otherwise the context is built from the filtered results, at most three; an empty decoded filter reply, or an undecodable one after every search failed, yields the bare header |

## Left out

- The language-model calls and their prompts (planner, filter, report): their replies are inputs.
  None of the calls is guarded (`llm.invoke` at app.py:60 sits before the planner's `try`, the
  filter's at app.py:149, the report stream at app.py:193), so a failing model call raises out of
  the handler; the model has no such failure.
- The report model's streamed output and the chat UI (steps, messages, token streaming): the model
  ends at the context string the report prompt embeds.
- HTTP requests, API keys and the `num=5` request parameter: the search reply is an input.
- Exceptions from the search request itself: `requests.get` in `search_agent` (app.py:87) is not
  guarded, so a connection error or timeout on any topic escapes the handler; the model gives
  every topic a reply, so inside the model the handler's failures are only the filter's. (`fetch_content`, by
  contrast, catches everything and returns "", app.py:117-128, which the fetcher input covers.)
- Repeated requests: the search API and the fetcher are modelled as functions, so a topic the
  planner lists twice, or a url selected twice, gets the same reply both times; the program sends
  a fresh request each time and could see different answers.
- `fetch_content`'s HTML parsing, timeout and error handling: the fetcher is an input.
- `response.json()` failing on a 200 reply whose body is not JSON, and `items` elements that are
  not dictionaries of strings: the reply is taken as already decoded.
- Planner lists whose elements are not strings: topics are modelled as strings.
- The inner workings of `ast.literal_eval` and `json.loads`: only the outcome classes matter.
- Printing of errors and page text: it has no effect on the results.
- `set_content` mutates the record in place and returns it; the model is value-based, which makes
  no difference here since no record is read again after enrichment.
- The welcome message on chat start and the `LlmModels` enumeration: no pipeline logic.
