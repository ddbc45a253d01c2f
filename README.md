# StratoMind strategy pipeline in Dafny

StratoMind is a small strategy assistant. A user picks a business domain (EdTech,
FinTech, SaaS) and types a strategy prompt. The assistant then:

1. retrieves the domain's canned strategy documents, narrowed by the prompt;
2. turns the prompt and domain into a feature dictionary;
3. scores the features into one of three outcome labels, with an explanation;
4. renders a report: a summary header, the predicted outcome, and a narrative
   listing each document's title, description and numbered steps.

This project models those four steps and proves what each one promises.

| file | module | models |
|---|---|---|
| `common.dfy` | `Common` | optional dictionary entries, the `KeyError`/`TypeError` exceptions as a `Result`, dictionary values, strategy documents, subsequences |
| `text.dfy` | `Text` | lower-casing, Python's substring `in`, `str(int)`, `"\n".join` and `split("\n")` |
| `feature_engineer.dfy` | `FeatureEngineer` | `transform`, the constant-feature stub |
| `predictor.dfy` | `Predictor` | `predict`: score, thresholds, explanation |
| `retriever.dfy` | `Retriever` | `get_relevant_docs`: lookup, filter, fallback, placeholder |
| `strategy_docs.dfy` | `StrategyDocs` | the three shipped strategy lists as the retriever's catalog |
| `genai_agent.dfy` | `GenaiAgent` | `generate_strategy`, a method with nested loops that appends lines to a list |
| `strategy_graph.dfy` | `StrategyGraph` | `run_strategy_pipeline`, a method that calls `GenerateStrategy` |
| `analysis.dfy` | `Analysis` | properties of the steps chained together |

Modelling choices:

- A feature dictionary is a `map<string, Value>`. A `Value` is `None`, an
  integer, a string, or a list of integers.
- A scored entry that is present but is not an integer makes `predict` raise
  a `TypeError`. Usually the sum at `modules/predictor.py:14-18` raises, since
  it mixes kinds (`0 + "b"`, `None + 0`). When all three entries are strings,
  or all three are lists, the sum succeeds (`"a" + "b" * 2 + "c"` is `"abbc"`), and
  the comparison `score > 10` at `modules/predictor.py:21` raises instead.
  `Predict` returns `Err(TypeError)` exactly when such an entry is present.
- The retriever reads `s["title"]` and `s["description"]` directly. A missing
  entry raises a `KeyError`, and `except ModuleNotFoundError` does not catch
  it. `FilterDocs` returns that error. Python's `or` short-circuits, so the
  description is read only when the title does not match.
- The dynamic module import `assets.strategy_docs.<domain>_strategies` is a
  lookup in a map keyed by lower-cased domain name. A missing key stands for
  `ModuleNotFoundError`.
- Strings are Dafny strings of Unicode characters, written exactly as in the
  source. The header line uses U+1F539 and an em dash (U+2014). Step lines are
  indented by two em spaces (U+2003), as `modules/genai_agent.py:25` has them.
- `GenerateStrategy` is imperative, like the source: a loop over documents with
  an inner loop over steps, appending to `summaryLines`. It is proved equal to
  the specification function `Narrative`. Lemmas about `Narrative` state the
  line count, the layout, and the start and end of the text. `RunStrategyPipeline`
  calls the method, as the source calls `generate_strategy`.
- Both steps in the middle are stubs, by their own comments. `transform` is
  marked as a stub to be replaced by a Spark/Pandas feature pipeline
  (`modules/feature_engineer.py:4`). The linear scorer is marked as a stub to be
  replaced by an XGBoost model (`modules/predictor.py:13`). The scorer reads
  `query_length`, `keyword_hits` and `avg_steps`
  (`modules/predictor.py:14-17`), and `transform` produces none of them. This
  project follows the code as it stands, so the stub features always score 0.

## Model

| member | source | states |
|---|---|---|
| `FeatureEngineer.Transform` | modules/feature_engineer.py:6-10 | the result has exactly the keys `feature_vector`, `domain` and `query`; the vector is `[1, 0, 0]`; domain and query are echoed unchanged |
| `FeatureEngineer.LacksScoredEntries` | modules/feature_engineer.py:6-10 | the result has no `query_length`, `keyword_hits` or `avg_steps` entry |
| `Predictor.ScoreIsWeightedSum` | modules/predictor.py:14-18 | the score exists exactly when each scored entry is missing or an integer; it is then query_length + 2 × keyword_hits + avg_steps, a missing entry counting 0 |
| `Predictor.Classify` | modules/predictor.py:20-26 | "High Growth Potential" iff score > 10, "Moderate Potential" iff 5 < score ≤ 10, "Low Strategic Fit" iff score ≤ 5 |
| `Predictor.Predict` | modules/predictor.py:14-34 | succeeds iff every scored entry is missing or an integer, otherwise raises `TypeError`; on success the label is one of the three labels and the explanation is the fixed-format text |
| `Predictor.PredictLabelsWeightedSum` | modules/predictor.py:14-26 | for a well-formed dictionary, the label is fixed by the weighted sum and the strict thresholds 10 and 5 |
| `Predictor.ThresholdCases` | modules/predictor.py:21-26 | 8 + 2×1 + 2 = 12 is High with explanation values 8, 1, 2; a score of exactly 10 is Moderate; exactly 5 is Low; the empty dictionary is Low and shows three `None`s; a string entry raises |
| `Predictor.RaisingFeatureNeverLowersLabel` | modules/predictor.py:14-26 | raising any one scored entry never lowers the label's rank |
| `Predictor.ShownEntryReadsBack` | modules/predictor.py:29-32 | an integer entry is shown in decimal, and that text reads back as the same integer |
| `Predictor.MissingIsNotZero` | modules/predictor.py:29-32 | a missing entry is shown as `None`, so the explanation differs from the one for an entry holding 0, in each of the three positions |
| `Text.ContainsIffOccurs` | modules/retriever.py:22-24 | the substring test holds iff the term occurs at some position of the text |
| `Text.SplitJoin` | modules/genai_agent.py:27 | splitting a newline-joined list on newlines gives the list back when no line holds a newline |
| `Text.DecimalRoundTrip` | modules/genai_agent.py:24-25 | the decimal digits written for a step number read back as that number |
| `Retriever.MatchIsSubstringTest` | modules/retriever.py:22-24 | a document with a title and a description matches iff the lower-cased term occurs in its lower-cased title or lower-cased description |
| `Retriever.FilterFailsIffFaulty` | modules/retriever.py:21-25 | the filter raises iff some document lacks a title, or lacks a description and its title does not match; the error is a `KeyError` on `title` or `description` |
| `Retriever.FilterKeepsExactlyMatches` | modules/retriever.py:21-25 | a successful filter returns a subsequence of its input, keeps every matching document, keeps only matching documents, and keeps as many as match |
| `Retriever.UnknownDomainYieldsPlaceholder` | modules/retriever.py:30-35 | an unknown domain yields exactly one document: title "N/A", description "No strategies found for " + the domain as typed, no steps |
| `Retriever.CaseInsensitive` | modules/retriever.py:16 | domain names and search terms that differ only in letter case give the same result for a known domain |
| `Retriever.EmptyTermGivesFullList` | modules/retriever.py:20-28 | without a search term a known domain's list comes back whole and in order |
| `Retriever.KnownDomainResult` | modules/retriever.py:20-28 | with a term: if some document matches, the result is exactly the matching documents in order; if none does, it is the full list; it is a subsequence of the list and non-empty when the list is |
| `Retriever.KnownDomainSubsequence` | modules/retriever.py:17-28 | for a known domain the result is always a subsequence of the domain's list |
| `Retriever.WellFormedNeverFails` | modules/retriever.py:15-28 | when every catalogued document has a title and a description, retrieval never raises |
| `StrategyDocs.ShippedIsWellFormed` | assets/strategy_docs/edtech_strategies.py:6-25 | each shipped domain list is non-empty and each shipped document has a title and a description |
| `StrategyDocs.ShippedRetrievalNonEmpty` | modules/retriever.py:15-35 | with the shipped lists, retrieval never raises and never returns an empty list |
| `StrategyDocs.LookupExamples` | modules/retriever.py:16-17 | "EdTech" and "edtech" both resolve to the EdTech list; "Retail" yields the placeholder naming "Retail" |
| `GenaiAgent.GenerateStrategy` | modules/genai_agent.py:14-27 | the text built by the nested loops equals `Narrative`; with no documents it is exactly the "No relevant strategies found for '…'. Try refining your prompt." message |
| `GenaiAgent.SummaryLinesAppend` | modules/genai_agent.py:19-25 | documents contribute their lines in input order: the lines for `a + b` are those of `a` followed by those of `b` |
| `GenaiAgent.SummaryLineCount` | modules/genai_agent.py:18-25 | the number of lines is the sum over documents of 1 + the number of steps |
| `GenaiAgent.SummaryLayout` | modules/genai_agent.py:19-25 | document k's header line follows the lines of the earlier documents, and its step lines follow the header directly, numbered from 1 as "  {i}. {step}" |
| `GenaiAgent.NarrativeLines` | modules/genai_agent.py:18-27 | when no text holds a newline, splitting the narrative on newlines gives exactly the summary lines, and their count is the sum of 1 + steps per document |
| `GenaiAgent.NarrativeStartsWithFirstHeader` | modules/genai_agent.py:19-27 | a non-empty document list's narrative begins with the first document's header line |
| `GenaiAgent.NoTrailingNewline` | modules/genai_agent.py:27 | when no text holds a newline, the narrative is non-empty and does not end with a newline |
| `StrategyGraph.RunStrategyPipeline` | modules/strategy_graph.py:17-27 | the output is the summary header, then "**Predicted Outcome:** {prediction}\n\n" with the prediction unchecked, then the narrative, and nothing else; with no documents the suffix is the no-strategies message |
| `Analysis.StubFeaturesAlwaysLowFit` | modules/feature_engineer.py:6-10 | predicting on the stub features always gives "Low Strategic Fit", and the explanation shows `None` for all three values |
| `Analysis.ShippedNarrativeHasDocuments` | modules/genai_agent.py:14-27 | `generate_strategy` applied to the result of `get_relevant_docs` (modules/retriever.py:15-35) over the shipped lists: the narrative begins with a document header and is never the no-strategies message |

## Left out

- `streamlit_app.py`: page layout, widgets, the CSS read and the CSV upload are
  user interface and I/O. Documents given as a DataFrame are not modelled.
  The app calls `transform` with three arguments at line 46, but `transform`
  takes two, so that call shape is not modelled.
- `modules/spark_etl.py` and `modules/config_loader.py`: file, Spark, pandas
  and YAML I/O.
- `modules/fallback.py`: a catch-all exception wrapper. Dafny has no
  exceptions. Errors are `Result` values here instead.
- Python floats, booleans and other value types in a feature dictionary are
  not modelled. Values are `None`, integers, strings or integer lists, so
  float rendering in the explanation is not modelled either.
- Lower-casing covers ASCII letters only. Python's `str.lower()` also
  lower-cases other Unicode letters.
- The dynamic import is a map lookup. The model leaves out two cases: a module
  that exists but has no `STRATEGIES`, and domain names that the import system
  would read as other module paths.
- Document entries are strings, and steps are lists of strings. The model
  leaves out an entry that is present but is not a string, such as a `None`
  title, which would make `.lower()` raise. It also leaves out a `steps` entry
  that is not a list.
