/** The decision the topic planner takes once the language model's reply has been parsed. */
module Planner {

  /** What parsing the model's reply as a literal produced: an error, a value that is not a
      list, or a list of topics. */
  datatype Parsed = ParseFailure | NotAList | ListOf(elems: seq<string>)

  /** The reply was accepted: a list with at least one element. */
  predicate IsNonEmptyList(p: Parsed)
  {
    p.ListOf? && |p.elems| > 0
  }

  /** The planner's topics: the parsed list when it is non-empty, otherwise the prompt itself as
      the single topic. The list is passed through unchanged, with no cap on its length. */
  function PlanTopics(prompt: string, parsed: Parsed): (topics: seq<string>)
    ensures |topics| >= 1
    ensures IsNonEmptyList(parsed) ==> topics == parsed.elems
    ensures !IsNonEmptyList(parsed) ==> topics == [prompt]
    ensures forall t :: t in topics ==> t == prompt || (parsed.ListOf? && t in parsed.elems)
  {
    if IsNonEmptyList(parsed) then parsed.elems else [prompt]
  }

  /** An empty list from the model is indistinguishable from a parse failure: both fall back to
      the prompt. */
  lemma EmptyListIsFallback(prompt: string)
    ensures PlanTopics(prompt, ListOf([])) == PlanTopics(prompt, ParseFailure)
    ensures PlanTopics(prompt, NotAList) == PlanTopics(prompt, ParseFailure)
    ensures PlanTopics(prompt, ParseFailure) == [prompt]
  {
  }

  /** Every positive number of topics can come out of the planner: nothing caps the list. */
  lemma NoLengthCap(prompt: string, n: nat)
    requires n >= 1
    ensures exists parsed :: |PlanTopics(prompt, parsed)| == n
  {
    var elems := seq(n, _ => prompt);
    assert |PlanTopics(prompt, ListOf(elems))| == n;
  }
}
