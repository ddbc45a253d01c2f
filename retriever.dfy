/** Strategy retrieval: look up a domain's strategy list by its lower-cased name,
    filter it by a case-insensitive search term, fall back to the whole list when
    nothing matches, and answer an unknown domain with a placeholder document. */
module Retriever {
  import opened Common
  import opened Text

  /** The strategy lists, keyed by lower-cased domain name. */
  type Catalog = map<string, seq<Doc>>

  /** The single document returned for a domain with no strategy list. */
  function NotFound(domain: string): Doc
  {
    Doc(Some("N/A"), Some("No strategies found for " + domain), Some([]))
  }

  /** Whether the lower-cased term `term` occurs in the document's lower-cased
      title or, failing that, description. Reading a missing entry raises a
      KeyError; the description is read only when the title does not match. */
  function DocMatches(term: string, d: Doc): Result<bool>
  {
    match d.title
    case None => Err(KeyError("title"))
    case Some(title) =>
      if Contains(Lower(title), term) then Ok(true)
      else
        match d.description
        case None => Err(KeyError("description"))
        case Some(description) => Ok(Contains(Lower(description), term))
  }

  predicate Selected(term: string, d: Doc)
  {
    DocMatches(term, d) == Ok(true)
  }

  predicate Faulty(term: string, d: Doc)
  {
    DocMatches(term, d).Err?
  }

  /** The list comprehension: the documents that match, in order; the first
      document whose match test raises makes the whole filter raise. */
  function FilterDocs(term: string, docs: seq<Doc>): Result<seq<Doc>>
    decreases |docs|
  {
    if |docs| == 0 then Ok([])
    else
      var keep :- DocMatches(term, docs[0]);
      var rest :- FilterDocs(term, docs[1..]);
      Ok(if keep then [docs[0]] + rest else rest)
  }

  /** Strategies for `domain`, narrowed by the search term `strategy` when one is given. */
  function GetRelevantDocs(catalog: Catalog, domain: string, strategy: string): Result<seq<Doc>>
  {
    var key := Lower(domain);
    if key !in catalog then Ok([NotFound(domain)])
    else if |strategy| == 0 then Ok(catalog[key])
    else
      var filtered :- FilterDocs(Lower(strategy), catalog[key]);
      Ok(if |filtered| == 0 then catalog[key] else filtered)
  }

  // ----- Properties of the filter -----

  /** The number of documents the filter keeps. */
  function CountSelected(term: string, docs: seq<Doc>): nat
    decreases |docs|
  {
    if |docs| == 0 then 0
    else (if Selected(term, docs[0]) then 1 else 0) + CountSelected(term, docs[1..])
  }

  /** A document with both a title and a description matches exactly when the
      term is a substring of its lower-cased title or lower-cased description. */
  lemma MatchIsSubstringTest(term: string, d: Doc)
    requires d.title.Some? && d.description.Some?
    ensures !Faulty(term, d)
    ensures Selected(term, d) <==>
      (exists i :: OccursAt(Lower(d.title.value), term, i))
      || (exists i :: OccursAt(Lower(d.description.value), term, i))
  {
    ContainsIffOccurs(Lower(d.title.value), term);
    ContainsIffOccurs(Lower(d.description.value), term);
  }

  /** The filter raises exactly when some document's match test raises. */
  lemma {:induction false} FilterFailsIffFaulty(term: string, docs: seq<Doc>)
    ensures FilterDocs(term, docs).Err? <==> exists i :: 0 <= i < |docs| && Faulty(term, docs[i])
    ensures FilterDocs(term, docs).Err? ==>
      FilterDocs(term, docs).error in {KeyError("title"), KeyError("description")}
    decreases |docs|
  {
    if |docs| > 0 {
      FilterFailsIffFaulty(term, docs[1..]);
      if exists i :: 0 <= i < |docs| && Faulty(term, docs[i]) {
        var i :| 0 <= i < |docs| && Faulty(term, docs[i]);
        if i > 0 {
          assert docs[1..][i - 1] == docs[i];
        }
      }
      if exists i :: 0 <= i < |docs[1..]| && Faulty(term, docs[1..][i]) {
        var i :| 0 <= i < |docs[1..]| && Faulty(term, docs[1..][i]);
        assert docs[i + 1] == docs[1..][i];
      }
    }
  }

  /** When the filter succeeds it keeps exactly the matching documents: its
      result is a subsequence of the input, every kept document matches, every
      matching document is kept, and as many are kept as match. */
  lemma {:induction false} FilterKeepsExactlyMatches(term: string, docs: seq<Doc>)
    requires FilterDocs(term, docs).Ok?
    ensures IsSubsequence(FilterDocs(term, docs).value, docs)
    ensures forall d :: d in FilterDocs(term, docs).value ==> Selected(term, d)
    ensures forall i :: 0 <= i < |docs| && Selected(term, docs[i]) ==> docs[i] in FilterDocs(term, docs).value
    ensures |FilterDocs(term, docs).value| == CountSelected(term, docs)
    decreases |docs|
  {
    if |docs| > 0 {
      FilterKeepsExactlyMatches(term, docs[1..]);
      var rest := FilterDocs(term, docs[1..]).value;
      var r := FilterDocs(term, docs).value;
      if Selected(term, docs[0]) {
        assert r == [docs[0]] + rest;
        assert r[1..] == rest;
      } else {
        assert r == rest;
        if |rest| > 0 {
          assert IsSubsequence(rest, docs);
        }
      }
      forall i | 0 <= i < |docs| && Selected(term, docs[i])
        ensures docs[i] in r
      {
        if i > 0 {
          assert docs[1..][i - 1] == docs[i];
        }
      }
    }
  }

  // ----- Properties of retrieval -----

  /** An unknown domain yields the one placeholder document, naming the domain as given. */
  lemma UnknownDomainYieldsPlaceholder(catalog: Catalog, domain: string, strategy: string)
    requires Lower(domain) !in catalog
    ensures GetRelevantDocs(catalog, domain, strategy)
      == Ok([Doc(Some("N/A"), Some("No strategies found for " + domain), Some([]))])
  {
  }

  /** Domain names and search terms that differ only in letter case retrieve the same documents. */
  lemma CaseInsensitive(catalog: Catalog, domain1: string, domain2: string, strategy1: string, strategy2: string)
    requires Lower(domain1) == Lower(domain2) && Lower(domain1) in catalog
    requires Lower(strategy1) == Lower(strategy2)
    ensures GetRelevantDocs(catalog, domain1, strategy1) == GetRelevantDocs(catalog, domain2, strategy2)
  {
  }

  /** Without a search term a known domain's full list comes back unchanged. */
  lemma EmptyTermGivesFullList(catalog: Catalog, domain: string)
    requires Lower(domain) in catalog
    ensures GetRelevantDocs(catalog, domain, "") == Ok(catalog[Lower(domain)])
  {
  }

  /** For a known domain and a non-empty term: when some document matches, the
      result is exactly the matching documents in their original order; when
      none matches, it is the full list. Either way it is a subsequence of the
      domain's list, and it is non-empty whenever that list is. */
  lemma {:induction false} KnownDomainResult(catalog: Catalog, domain: string, strategy: string)
    requires Lower(domain) in catalog && |strategy| > 0
    requires GetRelevantDocs(catalog, domain, strategy).Ok?
    ensures var docs, r := catalog[Lower(domain)], GetRelevantDocs(catalog, domain, strategy).value;
      && IsSubsequence(r, docs)
      && (|docs| > 0 ==> |r| > 0)
      && (CountSelected(Lower(strategy), docs) == 0 ==> r == docs)
      && (CountSelected(Lower(strategy), docs) > 0 ==>
            r == FilterDocs(Lower(strategy), docs).value
            && |r| == CountSelected(Lower(strategy), docs)
            && forall d :: d in r ==> Selected(Lower(strategy), d))
  {
    var docs, term := catalog[Lower(domain)], Lower(strategy);
    FilterKeepsExactlyMatches(term, docs);
    SubsequenceOfSelf(docs);
  }

  /** Every known domain's result is a subsequence of its list, with or without a term. */
  lemma KnownDomainSubsequence(catalog: Catalog, domain: string, strategy: string)
    requires Lower(domain) in catalog
    requires GetRelevantDocs(catalog, domain, strategy).Ok?
    ensures IsSubsequence(GetRelevantDocs(catalog, domain, strategy).value, catalog[Lower(domain)])
  {
    SubsequenceOfSelf(catalog[Lower(domain)]);
    if |strategy| > 0 {
      KnownDomainResult(catalog, domain, strategy);
    }
  }

  /** Documents with both a title and a description never make retrieval raise. */
  lemma WellFormedNeverFails(catalog: Catalog, domain: string, strategy: string)
    requires forall key, i :: key in catalog && 0 <= i < |catalog[key]| ==>
      catalog[key][i].title.Some? && catalog[key][i].description.Some?
    ensures GetRelevantDocs(catalog, domain, strategy).Ok?
  {
    var key := Lower(domain);
    if key in catalog && |strategy| > 0 {
      FilterFailsIffFaulty(Lower(strategy), catalog[key]);
    }
  }
}
