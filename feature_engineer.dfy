/** The feature step of the strategy assistant, in its stub form: a constant
    feature vector plus the two inputs echoed back. */
module FeatureEngineer {
  import opened Common

  const FeatureVectorKey := "feature_vector"
  const DomainKey := "domain"
  const QueryKey := "query"

  /** The feature dictionary built from a query and a domain. */
  function Transform(query: string, domain: string): (features: Features)
    ensures features.Keys == {FeatureVectorKey, DomainKey, QueryKey}
    ensures features[FeatureVectorKey] == IntList([1, 0, 0])
    ensures features[DomainKey] == Str(domain) && features[QueryKey] == Str(query)
  {
    map[FeatureVectorKey := IntList([1, 0, 0]), DomainKey := Str(domain), QueryKey := Str(query)]
  }

  /** The stub never produces the three entries the scorer reads. */
  lemma LacksScoredEntries(query: string, domain: string)
    ensures "query_length" !in Transform(query, domain)
    ensures "keyword_hits" !in Transform(query, domain)
    ensures "avg_steps" !in Transform(query, domain)
  {
  }
}
