/** The outcome scorer: a linear score over three feature entries, a label from
    two strict thresholds, and a fixed-format explanation. */
module Predictor {
  import opened Common
  import opened Text

  const QueryLength := "query_length"
  const KeywordHits := "keyword_hits"
  const AvgSteps := "avg_steps"

  const HighGrowth := "High Growth Potential"
  const Moderate := "Moderate Potential"
  const LowFit := "Low Strategic Fit"

  /** A prediction: the outcome label and the explanation shown beside it. */
  datatype Prediction = Prediction(outcome: string, explanation: string)

  // ----- Score -----

  /** `features.get(key, 0)` used as a number: a missing entry reads as 0. An
      entry that is not an integer makes the score raise a TypeError: the sum
      raises when it mixes kinds (`0 + "b"`, `"a" + [1]`, `None + 0`), and when
      all three entries are strings or all three lists (`"a" + "b" * 2 + "c"`), the
      comparison `score > 10` raises instead. */
  function Feature(features: Features, key: string): Result<int>
  {
    if key !in features then Ok(0)
    else if features[key].Int? then Ok(features[key].n)
    else Err(TypeError)
  }

  /** The entry under `key` can take part in the score. */
  predicate Readable(features: Features, key: string)
  {
    key !in features || features[key].Int?
  }

  predicate Numeric(features: Features)
  {
    Readable(features, QueryLength) && Readable(features, KeywordHits) && Readable(features, AvgSteps)
  }

  /** The number an entry contributes: its integer, or 0 when it is missing. */
  function Reading(features: Features, key: string): int
    requires Readable(features, key)
  {
    if key in features then features[key].n else 0
  }

  function Score(features: Features): Result<int>
  {
    var queryLength :- Feature(features, QueryLength);
    var keywordHits :- Feature(features, KeywordHits);
    var avgSteps :- Feature(features, AvgSteps);
    Ok(queryLength + keywordHits * 2 + avgSteps)
  }

  /** The score is query length plus twice the keyword hits plus the average
      step count, each missing entry counting 0; any other entry raises. */
  lemma ScoreIsWeightedSum(features: Features)
    ensures Score(features).Ok? <==> Numeric(features)
    ensures Numeric(features) ==>
      Score(features).value
      == Reading(features, QueryLength) + 2 * Reading(features, KeywordHits) + Reading(features, AvgSteps)
  {
  }

  // ----- Label -----

  function Classify(score: int): (outcome: string)
    ensures outcome == HighGrowth <==> score > 10
    ensures outcome == Moderate <==> 5 < score <= 10
    ensures outcome == LowFit <==> score <= 5
  {
    if score > 10 then HighGrowth
    else if score > 5 then Moderate
    else LowFit
  }

  /** The order of the labels, from least to most promising. */
  function Rank(outcome: string): nat
  {
    if outcome == HighGrowth then 2 else if outcome == Moderate then 1 else 0
  }

  // ----- Explanation -----

  /** How an f-string shows a dictionary value. */
  function Render(v: Value): string
  {
    match v
    case NoneValue => "None"
    case Int(n) => IntToDecimal(n)
    case Str(s) => s
    case IntList(items) => "[" + RenderItems(items) + "]"
  }

  function RenderItems(items: seq<int>): string
    decreases |items|
  {
    if |items| == 0 then ""
    else if |items| == 1 then IntToDecimal(items[0])
    else IntToDecimal(items[0]) + ", " + RenderItems(items[1..])
  }

  /** `features.get(key)` shown in an f-string: `None` when the key is missing. */
  function Shown(features: Features, key: string): string
  {
    if key in features then Render(features[key]) else "None"
  }

  function Explanation(features: Features): string
  {
    "Prediction based on query length (" + Shown(features, QueryLength)
    + "), keyword matches (" + Shown(features, KeywordHits)
    + "), and average step count (" + Shown(features, AvgSteps) + ")."
  }

  // ----- Prediction -----

  /** Scores the features and labels the score. Raises exactly when an entry
      the score reads is present but not an integer; otherwise the label is one
      of the three outcomes, fixed by the weighted sum and the two thresholds. */
  function Predict(features: Features): (r: Result<Prediction>)
    ensures r.Ok? <==> Numeric(features)
    ensures r.Err? ==> r.error == TypeError
    ensures r.Ok? ==> r.value.outcome in {HighGrowth, Moderate, LowFit}
    ensures r.Ok? ==> r.value.explanation == Explanation(features)
  {
    var score :- Score(features);
    Ok(Prediction(Classify(score), Explanation(features)))
  }

  /** The label of a well-formed dictionary is the threshold label of the weighted sum. */
  lemma PredictLabelsWeightedSum(features: Features)
    requires Numeric(features)
    ensures Predict(features).Ok?
    ensures var score := Reading(features, QueryLength) + 2 * Reading(features, KeywordHits) + Reading(features, AvgSteps);
      && (Predict(features).value.outcome == HighGrowth <==> score > 10)
      && (Predict(features).value.outcome == Moderate <==> 5 < score <= 10)
      && (Predict(features).value.outcome == LowFit <==> score <= 5)
  {
    ScoreIsWeightedSum(features);
  }

  /** Worked cases at and around the thresholds. */
  lemma ThresholdCases()
    ensures Predict(map[QueryLength := Int(8), KeywordHits := Int(1), AvgSteps := Int(2)]) == Ok(Prediction(HighGrowth, "Prediction based on query length (" + "8" + "), keyword matches (" + "1" + "), and average step count (" + "2" + ")."))
    ensures Predict(map[QueryLength := Int(10)]).value.outcome == Moderate
    ensures Predict(map[KeywordHits := Int(2), AvgSteps := Int(1)]).value.outcome == LowFit
    ensures Predict(map[]) == Ok(Prediction(LowFit, "Prediction based on query length (" + "None" + "), keyword matches (" + "None" + "), and average step count (" + "None" + ")."))
    ensures Predict(map[QueryLength := Str("8")]) == Err(TypeError)
  {
    assert IntToDecimal(8) == "8" && IntToDecimal(1) == "1" && IntToDecimal(2) == "2";
    var high: Features := map[QueryLength := Int(8), KeywordHits := Int(1), AvgSteps := Int(2)];
    assert Shown(high, QueryLength) == "8";
    assert Shown(high, KeywordHits) == "1";
    assert Shown(high, AvgSteps) == "2";
    var empty: Features := map[];
    assert Shown(empty, QueryLength) == "None";
    assert Shown(empty, KeywordHits) == "None";
    assert Shown(empty, AvgSteps) == "None";
  }

  /** Raising any one scored entry never moves the label to a lower rank. */
  lemma RaisingFeatureNeverLowersLabel(features: Features, key: string, n: int)
    requires key == QueryLength || key == KeywordHits || key == AvgSteps
    requires Numeric(features)
    requires n >= Reading(features, key)
    ensures Predict(features).Ok? && Predict(features[key := Int(n)]).Ok?
    ensures Rank(Predict(features).value.outcome) <= Rank(Predict(features[key := Int(n)]).value.outcome)
  {
    var raised := features[key := Int(n)];
    ScoreIsWeightedSum(features);
    ScoreIsWeightedSum(raised);
    assert Reading(raised, key) == n;
  }

  /** An integer entry is shown in decimal and reads back as the same integer. */
  lemma ShownEntryReadsBack(features: Features, key: string)
    requires key in features && features[key].Int?
    ensures IsIntText(Shown(features, key)) && ParseInt(Shown(features, key)) == features[key].n
  {
    IntRoundTrip(features[key].n);
  }

  /** Two texts that agree up to `prefix` and then continue with different characters differ. */
  lemma DivergeAfter(prefix: string, x: string, y: string, restX: string, restY: string)
    requires |x| > 0 && |y| > 0 && x[0] != y[0]
    ensures prefix + x + restX != prefix + y + restY
  {
    assert (prefix + x + restX)[|prefix|] == x[0];
    assert (prefix + y + restY)[|prefix|] == y[0];
  }

  /** A missing entry is shown as `None`, so the explanation tells it apart
      from an entry that holds 0, although both score the same. */
  lemma MissingIsNotZero(features: Features, key: string)
    requires key == QueryLength || key == KeywordHits || key == AvgSteps
    requires key !in features
    ensures Shown(features, key) == "None"
    ensures Explanation(features) != Explanation(features[key := Int(0)])
  {
    var zeroed := features[key := Int(0)];
    assert Shown(zeroed, key) == "0";
    var p1 := "Prediction based on query length (";
    var p2 := "), keyword matches (";
    var p3 := "), and average step count (";
    var q, k, a := Shown(features, QueryLength), Shown(features, KeywordHits), Shown(features, AvgSteps);
    var q0, k0, a0 := Shown(zeroed, QueryLength), Shown(zeroed, KeywordHits), Shown(zeroed, AvgSteps);
    if key == QueryLength {
      assert k0 == k && a0 == a;
      DivergeAfter(p1, "None", "0", p2 + k + p3 + a + ").", p2 + k + p3 + a + ").");
    } else if key == KeywordHits {
      assert q0 == q && a0 == a;
      DivergeAfter(p1 + q + p2, "None", "0", p3 + a + ").", p3 + a + ").");
    } else {
      assert q0 == q && k0 == k;
      DivergeAfter(p1 + q + p2 + k + p3, "None", "0", ").", ").");
    }
  }
}
