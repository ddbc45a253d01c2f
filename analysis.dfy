/** Properties of the steps chained together: retrieve documents, compute
    features, predict an outcome, and format the report. */
module Analysis {
  import opened Common
  import Text
  import FeatureEngineer
  import Predictor
  import Retriever
  import StrategyDocs
  import GenaiAgent

  /** The stub features never carry the scored entries, so every query and
      domain gets the lowest label, and the explanation shows three `None`s. */
  lemma StubFeaturesAlwaysLowFit(query: string, domain: string)
    ensures Predictor.Predict(FeatureEngineer.Transform(query, domain))
      == Ok(Predictor.Prediction("Low Strategic Fit",
              "Prediction based on query length (" + "None" + "), keyword matches (" + "None"
              + "), and average step count (" + "None" + ")."))
  {
    var features := FeatureEngineer.Transform(query, domain);
    FeatureEngineer.LacksScoredEntries(query, domain);
    assert Predictor.Shown(features, Predictor.QueryLength) == "None";
    assert Predictor.Shown(features, Predictor.KeywordHits) == "None";
    assert Predictor.Shown(features, Predictor.AvgSteps) == "None";
    Predictor.ScoreIsWeightedSum(features);
  }

  /** With the shipped catalog, the narrative for the retrieved documents always
      begins with a document header, never with the no-strategies message. */
  lemma ShippedNarrativeHasDocuments(domain: string, strategy: string, query: string)
    ensures Retriever.GetRelevantDocs(StrategyDocs.Shipped, domain, strategy).Ok?
    ensures var docs := Retriever.GetRelevantDocs(StrategyDocs.Shipped, domain, strategy).value;
      && |docs| > 0
      && Text.IsPrefix(GenaiAgent.HeaderLine(docs[0]), GenaiAgent.Narrative(docs, query))
      && GenaiAgent.Narrative(docs, query) != GenaiAgent.NoDocsMessage(query)
  {
    StrategyDocs.ShippedRetrievalNonEmpty(domain, strategy);
    var docs := Retriever.GetRelevantDocs(StrategyDocs.Shipped, domain, strategy).value;
    GenaiAgent.NarrativeStartsWithFirstHeader(docs, query);
    var narrative := GenaiAgent.Narrative(docs, query);
    assert narrative[0] == GenaiAgent.HeaderLine(docs[0])[0] == '\U{1F539}';
    assert GenaiAgent.NoDocsMessage(query)[0] == 'N';
  }
}
