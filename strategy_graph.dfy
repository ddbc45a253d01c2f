/** The pipeline formatter: a summary header, the predicted outcome, then the
    narrative built from the documents. */
module StrategyGraph {
  import opened Common
  import GenaiAgent

  function SummaryHeader(query: string, domain: string): string
  {
    "### Strategy Summary for '" + query + "' in " + domain + "\n\n"
  }

  function OutcomeLine(prediction: string): string
  {
    "**Predicted Outcome:** " + prediction + "\n\n"
  }

  /** Builds the narrative, then puts the header and the prediction, unchecked, in front of it. */
  method RunStrategyPipeline(domain: string, query: string, docs: seq<Doc>, prediction: string)
    returns (finalOutput: string)
    ensures finalOutput == SummaryHeader(query, domain) + OutcomeLine(prediction) + GenaiAgent.Narrative(docs, query)
    ensures var header, outcome := SummaryHeader(query, domain), OutcomeLine(prediction);
      && |header| + |outcome| <= |finalOutput|
      && finalOutput[..|header|] == header
      && finalOutput[|header|..|header| + |outcome|] == outcome
      && finalOutput[|header| + |outcome|..] == GenaiAgent.Narrative(docs, query)
    ensures |docs| == 0 ==>
      finalOutput[|SummaryHeader(query, domain)| + |OutcomeLine(prediction)|..]
      == "No relevant strategies found for '" + query + "'. Try refining your prompt."
  {
    var baseStrategy := GenaiAgent.GenerateStrategy(docs, query);
    finalOutput := "### Strategy Summary for '" + query + "' in " + domain + "\n\n"
      + "**Predicted Outcome:** " + prediction + "\n\n"
      + baseStrategy;
  }
}
