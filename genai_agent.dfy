/** The narrative builder: one header line per strategy document followed by its
    numbered steps, joined with newlines; a fixed message when there are no
    documents. */
module GenaiAgent {
  import opened Common
  import opened Text

  // ----- The lines, as a specification -----

  /** The entries as `doc.get(key, default)` reads them. */
  function Title(d: Doc): string { d.title.GetOr("Untitled") }
  function Description(d: Doc): string { d.description.GetOr("") }
  function Steps(d: Doc): seq<string> { d.steps.GetOr([]) }

  /** The header line of a document: a blue diamond, the title in bold, an em dash, the description. */
  function HeaderLine(d: Doc): string
  {
    "\U{1F539} **" + Title(d) + "** \U{2014} " + Description(d)
  }

  /** Step `number` (counted from 1), indented by two em spaces. */
  function StepLine(number: nat, step: string): string
  {
    "\U{2003}\U{2003}" + NatToDecimal(number) + ". " + step
  }

  function StepLines(steps: seq<string>): seq<string>
  {
    seq(|steps|, i requires 0 <= i < |steps| => StepLine(i + 1, steps[i]))
  }

  function DocLines(d: Doc): seq<string>
  {
    [HeaderLine(d)] + StepLines(Steps(d))
  }

  /** The summary lines of all documents, in document order. */
  function SummaryLines(docs: seq<Doc>): seq<string>
    decreases |docs|
  {
    if |docs| == 0 then [] else SummaryLines(docs[..|docs| - 1]) + DocLines(docs[|docs| - 1])
  }

  function NoDocsMessage(query: string): string
  {
    "No relevant strategies found for '" + query + "'. Try refining your prompt."
  }

  function Narrative(docs: seq<Doc>, query: string): string
  {
    if |docs| == 0 then NoDocsMessage(query) else JoinLines(SummaryLines(docs))
  }

  // ----- The builder -----

  /** Builds the narrative line by line, appending to a list of summary lines. */
  method GenerateStrategy(docs: seq<Doc>, query: string) returns (narrative: string)
    ensures narrative == Narrative(docs, query)
    ensures |docs| == 0 ==> narrative == "No relevant strategies found for '" + query + "'. Try refining your prompt."
  {
    if |docs| == 0 {
      return "No relevant strategies found for '" + query + "'. Try refining your prompt.";
    }
    var summaryLines: seq<string> := [];
    for k := 0 to |docs|
      invariant summaryLines == SummaryLines(docs[..k])
    {
      var doc := docs[k];
      var title := doc.title.GetOr("Untitled");
      var desc := doc.description.GetOr("");
      var steps := doc.steps.GetOr([]);
      summaryLines := summaryLines + ["\U{1F539} **" + title + "** \U{2014} " + desc];
      for i := 0 to |steps|
        invariant summaryLines == SummaryLines(docs[..k]) + [HeaderLine(doc)] + StepLines(steps[..i])
      {
        assert StepLines(steps[..i + 1]) == StepLines(steps[..i]) + [StepLine(i + 1, steps[i])];
        summaryLines := summaryLines + ["\U{2003}\U{2003}" + NatToDecimal(i + 1) + ". " + steps[i]];
      }
      assert steps[..|steps|] == steps;
      assert docs[..k + 1][..k] == docs[..k];
    }
    assert docs[..|docs|] == docs;
    narrative := JoinLines(summaryLines);
  }

  // ----- Properties of the narrative -----

  /** The lines a list of documents contributes, counted one document at a time
      from the front: one header plus one line per step. */
  function LineCount(docs: seq<Doc>): nat
    decreases |docs|
  {
    if |docs| == 0 then 0 else 1 + |Steps(docs[0])| + LineCount(docs[1..])
  }

  /** The lines of a concatenation are the lines of each part, in order. */
  lemma {:induction false} SummaryLinesAppend(a: seq<Doc>, b: seq<Doc>)
    ensures SummaryLines(a + b) == SummaryLines(a) + SummaryLines(b)
    decreases |b|
  {
    if |b| == 0 {
      assert a + b == a;
    } else {
      var init, last := b[..|b| - 1], b[|b| - 1];
      assert b == init + [last];
      assert a + b == (a + init) + [last];
      SummaryLinesAppend(a, init);
      SummaryLinesSnoc(a + init, last);
      SummaryLinesSnoc(init, last);
    }
  }

  lemma SummaryLinesSnoc(docs: seq<Doc>, d: Doc)
    ensures SummaryLines(docs + [d]) == SummaryLines(docs) + DocLines(d)
  {
    assert (docs + [d])[..|docs|] == docs;
  }

  lemma SummaryLinesOfOne(d: Doc)
    ensures SummaryLines([d]) == DocLines(d)
  {
    assert [d][..0] == [];
  }

  /** There are as many lines as headers plus steps. */
  lemma {:induction false} SummaryLineCount(docs: seq<Doc>)
    ensures |SummaryLines(docs)| == LineCount(docs)
    decreases |docs|
  {
    if |docs| > 0 {
      assert docs == [docs[0]] + docs[1..];
      SummaryLinesAppend([docs[0]], docs[1..]);
      SummaryLinesOfOne(docs[0]);
      SummaryLineCount(docs[1..]);
    }
  }

  /** Document `k`'s header sits right after the lines of the documents before
      it, and its steps follow immediately, numbered from 1. */
  lemma SummaryLayout(docs: seq<Doc>, k: nat)
    requires k < |docs|
    ensures var offset := LineCount(docs[..k]);
      && offset + 1 + |Steps(docs[k])| <= |SummaryLines(docs)|
      && SummaryLines(docs)[offset] == HeaderLine(docs[k])
      && forall j :: 0 <= j < |Steps(docs[k])| ==>
           SummaryLines(docs)[offset + 1 + j] == StepLine(j + 1, Steps(docs[k])[j])
  {
    assert docs == docs[..k] + [docs[k]] + docs[k + 1..];
    LinesAround(docs, docs[..k], docs[k], docs[k + 1..]);
  }

  /** The lines of `before + [d] + after`: those of `before`, then `d`'s, then those of `after`. */
  lemma LinesAround(docs: seq<Doc>, before: seq<Doc>, d: Doc, after: seq<Doc>)
    requires docs == before + [d] + after
    ensures var lines, offset := SummaryLines(docs), LineCount(before);
      && offset + 1 + |Steps(d)| <= |lines|
      && lines[offset] == HeaderLine(d)
      && forall j :: 0 <= j < |Steps(d)| ==> lines[offset + 1 + j] == StepLine(j + 1, Steps(d)[j])
  {
    var prior, own, rest := SummaryLines(before), DocLines(d), SummaryLines(after);
    SplitAround(before, d, after);
    SummaryLineCount(before);
    MiddleIndex(prior, own, rest, 0);
    forall j | 0 <= j < |Steps(d)|
      ensures (prior + (own + rest))[|prior| + 1 + j] == StepLine(j + 1, Steps(d)[j])
    {
      MiddleIndex(prior, own, rest, 1 + j);
    }
  }

  lemma SplitAround(before: seq<Doc>, d: Doc, after: seq<Doc>)
    ensures SummaryLines(before + [d] + after) == SummaryLines(before) + (DocLines(d) + SummaryLines(after))
  {
    SummaryLinesAppend(before + [d], after);
    SummaryLinesAppend(before, [d]);
    SummaryLinesOfOne(d);
  }

  lemma MiddleIndex(prior: seq<string>, lines: seq<string>, rest: seq<string>, t: nat)
    requires t < |lines|
    ensures (prior + (lines + rest))[|prior| + t] == lines[t]
  {
  }

  /** No title, description or step of any document holds a newline. */
  predicate SingleLineTexts(docs: seq<Doc>)
  {
    forall k :: 0 <= k < |docs| ==>
      '\n' !in Title(docs[k]) && '\n' !in Description(docs[k]) && NoLineBreaks(Steps(docs[k]))
  }

  /** Each line is non-empty and holds no newline. */
  predicate ProperLines(lines: seq<string>)
  {
    forall i :: 0 <= i < |lines| ==> |lines[i]| > 0 && '\n' !in lines[i]
  }

  lemma DocLinesProper(d: Doc)
    requires '\n' !in Title(d) && '\n' !in Description(d) && NoLineBreaks(Steps(d))
    ensures ProperLines(DocLines(d))
  {
    var steps := Steps(d);
    forall j | 0 <= j < |steps|
      ensures |StepLine(j + 1, steps[j])| > 0 && '\n' !in StepLine(j + 1, steps[j])
    {
      DigitsHaveNoNewline(NatToDecimal(j + 1));
    }
  }

  lemma ProperLinesAppend(a: seq<string>, b: seq<string>)
    requires ProperLines(a) && ProperLines(b)
    ensures ProperLines(a + b)
  {
    forall i | 0 <= i < |a + b|
      ensures |(a + b)[i]| > 0 && '\n' !in (a + b)[i]
    {
      if i >= |a| {
        assert (a + b)[i] == b[i - |a|];
      }
    }
  }

  lemma {:induction false} SummaryLinesProper(docs: seq<Doc>)
    requires SingleLineTexts(docs)
    ensures ProperLines(SummaryLines(docs))
    decreases |docs|
  {
    if |docs| > 0 {
      var init, last := docs[..|docs| - 1], docs[|docs| - 1];
      assert SingleLineTexts(init) by {
        forall k | 0 <= k < |init| ensures init[k] == docs[k] { }
      }
      SummaryLinesProper(init);
      DocLinesProper(last);
      ProperLinesAppend(SummaryLines(init), DocLines(last));
    }
  }

  /** Split on newlines, the narrative gives back exactly its summary lines:
      one per header and one per step. */
  lemma NarrativeLines(docs: seq<Doc>, query: string)
    requires |docs| > 0 && SingleLineTexts(docs)
    ensures SplitLines(Narrative(docs, query)) == SummaryLines(docs)
    ensures |SplitLines(Narrative(docs, query))| == LineCount(docs)
  {
    SummaryLineCount(docs);
    SummaryLinesProper(docs);
    SplitJoin(SummaryLines(docs));
  }

  /** The narrative begins with the first document's header. */
  lemma NarrativeStartsWithFirstHeader(docs: seq<Doc>, query: string)
    requires |docs| > 0
    ensures IsPrefix(HeaderLine(docs[0]), Narrative(docs, query))
  {
    SummaryLayout(docs, 0);
    assert docs[..0] == [];
    JoinStartsWithFirstLine(SummaryLines(docs));
  }

  /** The narrative ends with its last summary line and no newline after it. */
  lemma NoTrailingNewline(docs: seq<Doc>, query: string)
    requires |docs| > 0 && SingleLineTexts(docs)
    ensures |Narrative(docs, query)| > 0
    ensures Narrative(docs, query)[|Narrative(docs, query)| - 1] != '\n'
  {
    var lines := SummaryLines(docs);
    SummaryLineCount(docs);
    SummaryLinesProper(docs);
    JoinEndsWithLastLine(lines);
    var last := lines[|lines| - 1];
    var n := Narrative(docs, query);
    assert n[|n| - |last|..] == last;
    assert n[|n| - 1] == last[|last| - 1];
  }
}
