/** The strategy lists shipped with the assistant, one per domain, as the
    catalog the retriever looks domains up in. */
module StrategyDocs {
  import opened Common
  import Retriever
  import Text

  const EdTech: seq<Doc> := [
    Doc(Some("Personalized Learning Pathways"),
        Some("Adaptive learning models that adjust content difficulty based on learner performance."),
        Some(["Integrate assessment tools at key learning milestones",
              "Deploy recommendation engine for next content",
              "Monitor engagement metrics to refine pathways"])),
    Doc(Some("Gamification for Retention"),
        Some("Using points, badges, and leaderboards to sustain learner motivation."),
        Some(["Define achievement milestones",
              "Integrate reward triggers in platform",
              "Collect feedback to ensure game mechanics support learning"]))
  ]

  const FinTech: seq<Doc> := [
    Doc(Some("AI\U{2011}Powered Credit Scoring"),
        Some("Using alternative data sources to evaluate creditworthiness."),
        Some(["Aggregate transaction & behavioral data",
              "Apply ML model to assess risk",
              "Provide transparent score explanations to customers"])),
    Doc(Some("Fraud Detection Automation"),
        Some("Real\U{2011}time anomaly detection to flag suspicious transactions."),
        Some(["Ingest transaction streams via event pipelines",
              "Run anomaly detection models",
              "Trigger manual review or customer verification"]))
  ]

  const SaaS: seq<Doc> := [
    Doc(Some("Freemium to Paid Conversion"),
        Some("Onboarding free\U{2011}tier users toward premium plans via targeted nudges."),
        Some(["Identify high\U{2011}intent user segments",
              "Introduce feature previews in free accounts",
              "Send contextual upgrade prompts at usage thresholds"])),
    Doc(Some("Churn Reduction Playbook"),
        Some("Proactive engagement to retain at\U{2011}risk customers."),
        Some(["Detect declining engagement via product analytics",
              "Send personalized offers or re\U{2011}engagement campaigns",
              "Launch exit surveys to capture churn reasons"]))
  ]

  /** The module lookup `assets.strategy_docs.<domain>_strategies`, as a map. */
  const Shipped: Retriever.Catalog := map["edtech" := EdTech, "fintech" := FinTech, "saas" := SaaS]

  /** Every shipped list is non-empty and every shipped document has a title and a description. */
  lemma ShippedIsWellFormed()
    ensures forall key :: key in Shipped ==> |Shipped[key]| > 0
    ensures forall key, i :: key in Shipped && 0 <= i < |Shipped[key]| ==>
      Shipped[key][i].title.Some? && Shipped[key][i].description.Some?
  {
    assert Shipped.Keys == {"edtech", "fintech", "saas"};
  }

  /** With the shipped catalog, retrieval never raises and never comes back empty. */
  lemma ShippedRetrievalNonEmpty(domain: string, strategy: string)
    ensures Retriever.GetRelevantDocs(Shipped, domain, strategy).Ok?
    ensures |Retriever.GetRelevantDocs(Shipped, domain, strategy).value| > 0
  {
    ShippedIsWellFormed();
    Retriever.WellFormedNeverFails(Shipped, domain, strategy);
    if Text.Lower(domain) in Shipped && |strategy| > 0 {
      Retriever.KnownDomainResult(Shipped, domain, strategy);
    }
  }

  /** The domain "EdTech", in any letter case, resolves to the EdTech list;
      a domain with no list gets the placeholder naming it as typed. */
  lemma LookupExamples()
    ensures Retriever.GetRelevantDocs(Shipped, "EdTech", "") == Ok(EdTech)
    ensures Retriever.GetRelevantDocs(Shipped, "edtech", "") == Ok(EdTech)
    ensures Retriever.GetRelevantDocs(Shipped, "Retail", "")
      == Ok([Doc(Some("N/A"), Some("No strategies found for " + "Retail"), Some([]))])
  {
    assert Text.Lower("EdTech") == "edtech";
    assert Text.Lower("edtech") == "edtech";
    assert Text.Lower("Retail") == "retail";
    assert "retail" !in Shipped;
  }
}
