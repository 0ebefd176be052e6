/** The message handler: planner, one search per topic, filter and enrichment, then the context
    the report prompt is built from. Every external call is an input: the planner's parsed reply,
    the search API's reply per topic, the filter's parsed reply and the page fetcher. */
module Pipeline {
  import opened Wrappers
  import opened Models
  import opened Seqs
  import Planner
  import Search
  import Filter
  import Report

  method HandleMessage(message: string, plan: Planner.Parsed, google: string -> Search.GoogleResponse,
                       filterReply: Filter.JsonParse, fetch: string -> string)
    returns (topics: seq<string>, allResults: seq<SearchResult>,
             filtered: Result<seq<SearchResult>, Filter.FilterError>,
             context: Result<string, Filter.FilterError>)
    ensures topics == Planner.PlanTopics(message, plan) && |topics| >= 1
    ensures allResults == Flatten(Search.PerTopic(topics, google))
    ensures filtered.Success? <==> context.Success?
    ensures filtered.Success? ==> |filtered.value| <= Filter.FallbackCount
    ensures context.Success? ==> context.value == Report.Context(message, filtered.value)
    ensures context.Failure? ==> filtered.Failure? && context.error == filtered.error
    ensures filterReply.JsonFailure? ==>
              filtered.Success?
              && |filtered.value| == Min(Filter.FallbackCount, |allResults|)
              && forall i :: 0 <= i < |filtered.value| ==> Filter.EnrichedFrom(filtered.value[i], allResults[i], fetch)
    ensures context.Failure? <==> filterReply.JsonNotIterable? || filterReply.JsonNonEmptyIterable?
    ensures filterReply.JsonNotIterable? ==> context == Failure(Filter.NotIterable)
    ensures filterReply.JsonNonEmptyIterable? ==> context == Failure(Filter.ItemHasNoUrl)
    ensures filterReply.JsonEmptyIterable? ==> context == Success(Report.Header(message))
    ensures (filterReply.JsonFailure? && forall k :: 0 <= k < |topics| ==> google(topics[k]).status != Search.HttpOk)
              ==> context == Success(Report.Header(message))
  {
    topics := Planner.PlanTopics(message, plan);
    allResults := Search.CollectResults(topics, google);
    filtered := Filter.FilterAndEnrich(allResults, filterReply, fetch);
    match filtered
    case Success(results) =>
      ghost var allFailed := forall k :: 0 <= k < |topics| ==> google(topics[k]).status != Search.HttpOk;
      if filterReply.JsonFailure? && allFailed {
        Search.AllSearchesFailed(topics, google);
        assert |results| == 0;
      }
      context := Success(Report.Context(message, results));
    case Failure(e) =>
      context := Failure(e);
  }
}
