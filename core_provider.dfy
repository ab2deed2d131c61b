// ai_scholar/providers/core_provider.py: the CORE search adapter without
// its HTTP exchange. `_make_request` (rate limiting, retries and sleeps) is
// one parameter per endpoint, `fetchV3` and `fetchV2`, each giving the
// decoded JSON body of a 200 response, or no response, or the error it
// raised. The current year is a parameter.

module CoreProviders {
  import opened Base
  import opened Text
  import opened Values
  import opened Lists
  import opened Sorting
  import opened SearchCommon

  // ---------------------------------------------------------------- the requests

  /** The parameters of a v3 works search. */
  datatype V3Params = V3Params(q: string, limit: int, offset: int, sort: string)

  /** The parameters of a v2 article search. */
  datatype V2Params = V2Params(query: string, page: int, pageSize: int, apiKey: string)

  const MinQueryLength: nat := 2
  const MaxV3Limit: int := 100
  const MaxV2PageSize: int := 100
  /** Without year bounds, v3 asks for papers of the last fifteen years. */
  const RecentSpan: int := 15

  /** validate_query: a non-blank query of at least two characters once stripped. */
  predicate ValidQuery(query: string)
  {
    QueryOk(query, MinQueryLength)
  }

  /** `yearPublished:[lo TO hi]`. */
  function YearRange(lo: string, hi: string): string
  {
    "yearPublished:[" + lo + " TO " + hi + "]"
  }

  /** _build_year_filter: a closed, half-open or empty range; 0 and None count as absent. */
  function YearFilter(minYear: Option<int>, maxYear: Option<int>): string
  {
    if Given(minYear) && Given(maxYear) then YearRange(IntToString(minYear.value), IntToString(maxYear.value))
    else if Given(minYear) then YearRange(IntToString(minYear.value), "*")
    else if Given(maxYear) then YearRange("*", IntToString(maxYear.value))
    else ""
  }

  /** The year filter is empty exactly when neither bound is given, and a missing bound reads `*`. */
  lemma YearFilterSpec(minYear: Option<int>, maxYear: Option<int>)
    ensures YearFilter(minYear, maxYear) == "" <==> !Given(minYear) && !Given(maxYear)
    ensures Given(minYear) && !Given(maxYear) ==> YearFilter(minYear, maxYear) == YearRange(IntToString(minYear.value), "*")
    ensures !Given(minYear) && Given(maxYear) ==> YearFilter(minYear, maxYear) == YearRange("*", IntToString(maxYear.value))
    ensures Given(minYear) && Given(maxYear) ==>
      YearFilter(minYear, maxYear) == YearRange(IntToString(minYear.value), IntToString(maxYear.value))
  {
    if Given(minYear) || Given(maxYear) {
      var lo := if Given(minYear) then IntToString(minYear.value) else "*";
      var hi := if Given(maxYear) then IntToString(maxYear.value) else "*";
      assert YearFilter(minYear, maxYear) == YearRange(lo, hi);
      assert |YearRange(lo, hi)| > 0;
    }
  }

  /** `q AND filter` for a non-empty filter. */
  function WithFilter(q: string, filter: string): string
  {
    if filter != "" then q + " AND " + filter else q
  }

  /** The v3 `q`: the stripped query with the year filter, or with a last-fifteen-years filter when no year is given. */
  function V3Query(query: string, minYear: Option<int>, maxYear: Option<int>, currentYear: int): string
  {
    if Given(minYear) || Given(maxYear) then WithFilter(Strip(query), YearFilter(minYear, maxYear))
    else WithFilter(Strip(query), YearFilter(Some(currentYear - RecentSpan), None))
  }

  function V3SearchParams(query: string, limit: int, minYear: Option<int>, maxYear: Option<int>, currentYear: int): V3Params
  {
    V3Params(V3Query(query, minYear, maxYear, currentYear), Min(limit * 2, MaxV3Limit), 0, "relevance")
  }

  /** `self.api_key if self.api_key else ''`. */
  function ApiKeyText(apiKey: Option<string>): string
  {
    if apiKey.Some? then apiKey.value else ""
  }

  function V2SearchParams(query: string, limit: int, apiKey: Option<string>): V2Params
  {
    V2Params(Strip(query), 1, Min(limit, MaxV2PageSize), ApiKeyText(apiKey))
  }

  /**
   * v3 asks for twice the limit, never more than 100; v2 for the limit,
   * never more than 100. The v3 query carries the year filter when a year is
   * given, and otherwise a start fifteen years before the current one.
   */
  lemma V3ParamsSpec(query: string, limit: int, minYear: Option<int>, maxYear: Option<int>, currentYear: int,
                     apiKey: Option<string>)
    ensures var p := V3SearchParams(query, limit, minYear, maxYear, currentYear);
      p.limit <= MaxV3Limit && p.limit <= 2 * limit && (p.limit == MaxV3Limit || p.limit == 2 * limit)
    ensures var p := V2SearchParams(query, limit, apiKey);
      p.pageSize <= MaxV2PageSize && p.pageSize <= limit && p.page == 1
    ensures Given(minYear) || Given(maxYear) ==>
      V3SearchParams(query, limit, minYear, maxYear, currentYear).q == Strip(query) + " AND " + YearFilter(minYear, maxYear)
    ensures !Given(minYear) && !Given(maxYear) && currentYear != RecentSpan ==>
      V3SearchParams(query, limit, minYear, maxYear, currentYear).q ==
        Strip(query) + " AND " + YearRange(IntToString(currentYear - RecentSpan), "*")
  {
    YearFilterSpec(minYear, maxYear);
    YearFilterSpec(Some(currentYear - RecentSpan), None);
  }

  // ---------------------------------------------------------------- standardisation

  /** A standardised paper; `source` is always 'core' and `provider` 'CORE'. */
  datatype Paper = Paper(title: Value, authors: string, year: Value, abstractText: Value, url: Value,
                         citations: Value, doi: Value, repository: Value, language: Value, subjects: Value,
                         publisher: Value, journal: Value, oaiId: Value, coreId: Value,
                         publishedDate: Value, depositedDate: Value)

  const NotAvailable: string := "N/A"

  /** `f"https://doi.org/{doi}"`. */
  function DoiUrl(doi: Value): Value
  {
    StrV("https://doi.org/" + PyStr(doi))
  }

  /** `url = first or second or ''`, then the DOI link when a DOI exists and there is still no url. */
  function LinkOf(first: Value, second: Value, doi: Value): Value
  {
    var url := Or(first, Or(second, StrV("")));
    if Truthy(doi) && !Truthy(url) then DoiUrl(doi) else url
  }

  /** The url falls back from the first link to the second to the DOI link, and is '' only without all three. */
  lemma LinkOfSpec(first: Value, second: Value, doi: Value)
    ensures Truthy(first) ==> LinkOf(first, second, doi) == first
    ensures !Truthy(first) && Truthy(second) ==> LinkOf(first, second, doi) == second
    ensures !Truthy(first) && !Truthy(second) && Truthy(doi) ==> LinkOf(first, second, doi) == DoiUrl(doi)
    ensures Truthy(LinkOf(first, second, doi)) <==> Truthy(first) || Truthy(second) || Truthy(doi)
  {
  }

  /** `str(authors_list) if authors_list else 'Unknown'` for an authors entry that is not a list. */
  function NonListAuthors(v: Value): string
  {
    if Truthy(v) then PyStr(v) else "Unknown"
  }

  /** One turn of the v3 author loop: a dict's `name` or a string, kept when truthy; other elements are skipped. */
  function V3AuthorStep(names: seq<Value>, author: Value): seq<Value>
  {
    var name := if author.DictV? then Some(Get(author.fields, "name", StrV("")))
                else if author.StrV? then Some(author) else None;
    if name.Some? && Truthy(name.value) then names + [name.value] else names
  }

  function V3AuthorNames(authors: seq<Value>): (r: seq<Value>)
    ensures |r| <= |authors| && forall v :: v in r ==> Truthy(v)
  {
    if authors == [] then []
    else V3AuthorStep(V3AuthorNames(authors[..|authors| - 1]), authors[|authors| - 1])
  }

  /** The v3 authors string, None where the join raises on a name that is not a string. */
  function V3Authors(v: Value): Option<string>
  {
    if v.ListV? then JoinedNames(V3AuthorNames(v.items)) else Some(NonListAuthors(v))
  }

  /** `int(date.split('-')[0])` under a bare except: a string date gives its year or 'Unknown', anything else 'Unknown'. */
  function DateYear(date: Value): Value
  {
    if date.StrV? then YearOfDate(date.s) else StrV("Unknown")
  }

  /** The v3 year: a truthy `yearPublished`, else the year of `publishedDate or depositedDate` when that is truthy. */
  function V3Year(fields: PaperDict): Value
  {
    var year := Get(fields, "yearPublished", StrV("Unknown"));
    if Truthy(year) then year
    else
      var date := Or(Get(fields, "publishedDate", NoneV), Get(fields, "depositedDate", NoneV));
      if Truthy(date) then DateYear(date) else year
  }

  /** The v3 citation count: 'N/A' for a missing count, 'N/A' itself or anything equal to 0. */
  function V3Citations(v: Value): (r: Value)
    ensures PyEq(v, IntV(0)) || v == StrV(NotAvailable) ==> r == StrV(NotAvailable)
    ensures !PyEq(v, IntV(0)) ==> r == v
  {
    if v == StrV(NotAvailable) || PyEq(v, IntV(0)) then StrV(NotAvailable) else v
  }

  /** `repositories[0].get('name', '') if repositories else ''`. */
  function RepositoryName(repositories: Value): Option<Value>
  {
    if !Truthy(repositories) then Some(StrV(""))
    else
      match Head(repositories)
      case Item(first) => Field(first, "name", StrV(""))
      case _ => None
  }

  /** `paper.get('journals', [{}])[0].get('title', '') if paper.get('journals') else ''`. */
  function JournalTitle(journals: Value): Option<Value>
  {
    if !Truthy(journals) then Some(StrV(""))
    else
      match Head(journals)
      case Item(first) => Field(first, "title", StrV(""))
      case _ => None
  }

  /** The entries that only need a lookup, with the repository, language and journal given. */
  function BuildPaper(fields: PaperDict, title: Value, authors: string, year: Value, abstractText: Value, url: Value,
                      citations: Value, doi: Value, repository: Value, language: Value, journal: Value,
                      publishedKey: string): Paper
  {
    Paper(title, authors, year, abstractText, url, citations, doi, repository, language,
          Get(fields, "subjects", ListV([])), Get(fields, "publisher", StrV("")), journal,
          Get(fields, "oai", StrV("")), Get(fields, "id", StrV("")),
          Get(fields, publishedKey, StrV("")), Get(fields, "depositedDate", StrV("")))
  }

  /** The body of the v3 standardisation loop: the paper, or None where it raises and the loop continues. */
  function StandardizedV3(item: Value): Option<Paper>
  {
    if !item.DictV? then None
    else
      var fields := item.fields;
      var authors := V3Authors(Get(fields, "authors", ListV([])));
      var pdf := Field(Get(fields, "fulltextUrls", DictV(map[])), "pdf", StrV(""));
      var repository := RepositoryName(Get(fields, "repositories", ListV([])));
      var language := Field(Get(fields, "language", DictV(map[])), "code", StrV(""));
      var journal := JournalTitle(Get(fields, "journals", NoneV));
      if authors.None? || pdf.None? || repository.None? || language.None? || journal.None? then None
      else
        var doi := Get(fields, "doi", StrV(""));
        Some(BuildPaper(fields, Get(fields, "title", StrV("No title")), authors.value, V3Year(fields),
                        Get(fields, "abstract", StrV("")), LinkOf(Get(fields, "downloadUrl", StrV("")), pdf.value, doi),
                        V3Citations(Get(fields, "citationCount", StrV(NotAvailable))), doi,
                        repository.value, language.value, journal.value, "publishedDate"))
  }

  /** One turn of the v2 author loop: strings are kept as they are; a dict gives `name`, else "firstname surname" stripped, when truthy. */
  function V2AuthorStep(names: seq<Value>, author: Value): seq<Value>
  {
    if author.StrV? then names + [author]
    else if author.DictV? then
      var full := StrV(Strip(PyStr(Get(author.fields, "firstname", StrV(""))) + " " +
                             PyStr(Get(author.fields, "surname", StrV("")))));
      var name := Or(Get(author.fields, "name", StrV("")), full);
      if Truthy(name) then names + [name] else names
    else names
  }

  function V2AuthorNames(authors: seq<Value>): (r: seq<Value>)
    ensures |r| <= |authors|
  {
    if authors == [] then []
    else V2AuthorStep(V2AuthorNames(authors[..|authors| - 1]), authors[|authors| - 1])
  }

  function V2Authors(v: Value): Option<string>
  {
    if v.ListV? then JoinedNames(V2AuthorNames(v.items)) else Some(NonListAuthors(v))
  }

  /** The v2 year: a truthy `year`, else the year of a truthy `datePublished`. */
  function V2Year(fields: PaperDict): Value
  {
    var year := Get(fields, "year", StrV("Unknown"));
    if Truthy(year) then year
    else
      var date := Get(fields, "datePublished", NoneV);
      if Truthy(date) then DateYear(date) else year
  }

  /** The v2 citation count: a `citedBy` list counts its entries; 'N/A', 0 or a missing entry give 'N/A'. */
  function V2Citations(v: Value): (r: Value)
    ensures v.ListV? ==> r == IntV(|v.items|)
    ensures !v.ListV? && (PyEq(v, IntV(0)) || v == StrV(NotAvailable)) ==> r == StrV(NotAvailable)
  {
    if v.ListV? then IntV(|v.items|)
    else if v == StrV(NotAvailable) || PyEq(v, IntV(0)) then StrV(NotAvailable)
    else v
  }

  /** `paper.get('doi', '') or paper.get('identifiers', {}).get('doi', '')`; the second lookup raises on a non-dict. */
  function V2Doi(fields: PaperDict): Option<Value>
  {
    var doi := Get(fields, "doi", StrV(""));
    if Truthy(doi) then Some(doi) else Field(Get(fields, "identifiers", DictV(map[])), "doi", StrV(""))
  }

  /** The body of the v2 standardisation loop. */
  function StandardizedV2(item: Value): Option<Paper>
  {
    if !item.DictV? then None
    else
      var fields := item.fields;
      var authors := V2Authors(Get(fields, "authors", ListV([])));
      var pdf := FirstOr(Get(fields, "fulltextUrls", ListV([])), StrV(""));
      var doi := V2Doi(fields);
      var repository := RepositoryName(Get(fields, "repositories", ListV([])));
      if authors.None? || pdf.None? || doi.None? || repository.None? then None
      else
        Some(BuildPaper(fields, Get(fields, "title", StrV("No title")), authors.value, V2Year(fields),
                        Or(Get(fields, "description", StrV("")), Get(fields, "abstract", StrV(""))),
                        LinkOf(Get(fields, "downloadUrl", StrV("")), pdf.value, doi.value),
                        V2Citations(Get(fields, "citedBy", StrV(NotAvailable))), doi.value,
                        repository.value, Get(fields, "language", StrV("")), Get(fields, "journal", StrV("")),
                        "datePublished"))
  }

  /**
   * In v3 a missing or zero citation count reads 'N/A' and the url falls
   * back from `downloadUrl` to the pdf link to the DOI link; in v2 a
   * `citedBy` list becomes its length.
   */
  lemma StandardizedCitations(item: Value)
    requires item.DictV?
    ensures var v := Get(item.fields, "citationCount", StrV(NotAvailable));
      StandardizedV3(item).Some? && (PyEq(v, IntV(0)) || "citationCount" !in item.fields) ==>
        StandardizedV3(item).value.citations == StrV(NotAvailable)
    ensures var v := Get(item.fields, "citedBy", StrV(NotAvailable));
      StandardizedV2(item).Some? && v.ListV? ==> StandardizedV2(item).value.citations == IntV(|v.items|)
  {
  }

  lemma StandardizedV3Url(item: Value)
    requires item.DictV? && StandardizedV3(item).Some?
    ensures var f := item.fields;
      var p := StandardizedV3(item).value;
      var download := Get(f, "downloadUrl", StrV(""));
      var pdf := Get(Get(f, "fulltextUrls", DictV(map[])).fields, "pdf", StrV(""));
      (Truthy(download) ==> p.url == download) &&
      (!Truthy(download) && Truthy(pdf) ==> p.url == pdf) &&
      (!Truthy(download) && !Truthy(pdf) && Truthy(p.doi) ==> p.url == DoiUrl(p.doi))
  {
    var f := item.fields;
    LinkOfSpec(Get(f, "downloadUrl", StrV("")), Get(Get(f, "fulltextUrls", DictV(map[])).fields, "pdf", StrV("")),
               Get(f, "doi", StrV("")));
  }

  /** The v3 author loop renders exactly the truthy names of dict and string authors. */
  lemma {:induction false} V3AuthorNamesSpec(authors: seq<Value>)
    ensures V3AuthorNames(authors) == [] <==>
      forall i :: 0 <= i < |authors| ==> (!(authors[i].StrV? && Truthy(authors[i])) &&
        !(authors[i].DictV? && Truthy(Get(authors[i].fields, "name", StrV("")))))
    decreases |authors|
  {
    if authors != [] {
      var n := |authors| - 1;
      V3AuthorNamesSpec(authors[..n]);
      assert forall i :: 0 <= i < n ==> authors[..n][i] == authors[i];
    }
  }

  // ---------------------------------------------------------------- the quality filter

  const MinTitleLength: nat := 10
  const MinAbstractLength: nat := 50
  const LongAbstract: nat := 200

  /**
   * `.strip()` on a title or abstract that is not a string raises. The text
   * stands in for the `str(e)` of that AttributeError, which Python words
   * after the value's type.
   */
  const NoStrip: string := "object has no attribute 'strip'"

  /** `2·has_doi + has_url + (abstract longer than 200)`. */
  function QualityScore(p: Paper, abstractText: string): (r: int)
    ensures 0 <= r <= 4
  {
    (if Truthy(p.doi) then 2 else 0) + (if Truthy(p.url) then 1 else 0) + (if |abstractText| > LongAbstract then 1 else 0)
  }

  /**
   * One turn of the filter loop: Err where `.strip()` raises, None for a
   * paper it skips, else the quality score. A short title skips the paper
   * before the abstract is looked at.
   */
  function Assessed(p: Paper): Result<Option<int>>
  {
    if !p.title.StrV? then Err(NoStrip)
    else if |Strip(p.title.s)| < MinTitleLength then Ok(None)
    else if p.authors == [] || p.authors == "Unknown" then Ok(None)
    else if !p.abstractText.StrV? then Err(NoStrip)
    else
      var a := Strip(p.abstractText.s);
      if |a| < MinAbstractLength then Ok(None)
      else if !Truthy(p.doi) && !Truthy(p.url) then Ok(None)
      else Ok(Some(QualityScore(p, a)))
  }

  /** The score of a paper the loop keeps. */
  function Score(p: Paper): Option<int>
  {
    if Assessed(p).Ok? then Assessed(p).value else None
  }

  /** Whether the filter loop gets past a paper without raising. */
  predicate Passes(p: Paper)
  {
    Assessed(p).Ok?
  }

  /** No paper makes the filter loop raise. */
  predicate AllAssessed(papers: seq<Paper>)
  {
    Every(papers, Passes)
  }

  /** _filter_quality_papers: the kept papers by non-increasing score, or the error of the first paper that raises. */
  function FilterQuality(papers: seq<Paper>): Result<seq<Paper>>
  {
    if AllAssessed(papers) then Ok(Ranked(papers, Score)) else Err(NoStrip)
  }

  /**
   * A kept paper has a stripped title of at least 10 characters, real
   * authors, a stripped abstract of at least 50 characters and a DOI or a
   * url; its score is 2·has_doi + has_url + (abstract over 200).
   */
  lemma ScoreSpec(p: Paper)
    requires Score(p).Some?
    ensures p.title.StrV? && |Strip(p.title.s)| >= MinTitleLength
    ensures p.authors != [] && p.authors != "Unknown"
    ensures p.abstractText.StrV? && |Strip(p.abstractText.s)| >= MinAbstractLength
    ensures Truthy(p.doi) || Truthy(p.url)
    ensures Score(p).value == (if Truthy(p.doi) then 2 else 0) + (if Truthy(p.url) then 1 else 0) +
                              (if |Strip(p.abstractText.s)| > LongAbstract then 1 else 0)
    ensures 1 <= Score(p).value <= 4
  {
  }

  /** The filter returns the papers it scores, each once, by non-increasing score, ties in input order. */
  lemma FilterQualitySpec(papers: seq<Paper>)
    requires FilterQuality(papers).Ok?
    ensures var r := FilterQuality(papers).value;
      multiset(r) == multiset(Filter(papers, Admitted(Score))) &&
      (forall p :: p in r ==> p in papers && Score(p).Some?) &&
      (forall i, j :: 0 <= i < j < |r| ==> Score(r[i]).value >= Score(r[j]).value)
  {
    RankedSpec(papers, Score);
    RankedAdmitted(papers, Score);
  }

  /** The filter loop: the papers it keeps, then the stable sort by score. */
  method FilterQualityPapers(papers: seq<Paper>) returns (r: Result<seq<Paper>>)
    ensures r == FilterQuality(papers)
  {
    var kept: seq<Paper> := [];
    for i := 0 to |papers|
      invariant kept == Filter(papers[..i], Admitted(Score))
      invariant AllAssessed(papers[..i])
    {
      var next := FilterTurn(papers, i, kept);
      if next.Err? {
        return Err(NoStrip);
      }
      kept := next.value;
    }
    assert papers[..|papers|] == papers;
    r := Ok(SortDesc(kept, ScoreOf(Score)));
  }

  /** One turn of the filter loop: the paper is kept, skipped, or raises. */
  method FilterTurn(papers: seq<Paper>, i: nat, kept: seq<Paper>) returns (next: Result<seq<Paper>>)
    requires i < |papers| && kept == Filter(papers[..i], Admitted(Score)) && AllAssessed(papers[..i])
    ensures next.Err? ==> !AllAssessed(papers)
    ensures next.Ok? ==> next.value == Filter(papers[..i + 1], Admitted(Score)) && AllAssessed(papers[..i + 1])
  {
    FilterStep(papers, i, Admitted(Score));
    var outcome := Assessed(papers[i]);
    if outcome.Err? {
      EverySpec(papers, Passes);
      assert !Passes(papers[i]);
      return Err(NoStrip);
    }
    assert papers[..i + 1][..i] == papers[..i];
    KeepStep(papers[i]);
    if outcome.value.Some? {
      return Ok(kept + [papers[i]]);
    }
    return Ok(kept);
  }

  lemma KeepStep(p: Paper)
    requires Assessed(p).Ok?
    ensures Admitted(Score)(p) <==> Assessed(p).value.Some?
  {
    assert Admitted(Score)(p) == Score(p).Some?;
  }

  // ---------------------------------------------------------------- the standardisation loops

  /** _standardize_papers_v3 and _v2: the accumulator loop with the body of either; a record that raises is skipped. */
  method StandardizePapers(items: seq<Value>, standardize: Value -> Option<Paper>) returns (standardized: seq<Paper>)
    ensures standardized == FilterMap(items, standardize)
  {
    standardized := [];
    for i := 0 to |items|
      invariant standardized == FilterMap(items[..i], standardize)
    {
      FilterMapStep(items, i, standardize);
      var paper := standardize(items[i]);
      if paper.Some? {
        standardized := standardized + [paper.value];
      }
    }
    assert items[..|items|] == items;
  }

  // ---------------------------------------------------------------- search

  /**
   * The list under `key` of a 200 body, Crashed where `.get` or the
   * iteration raises; the two error texts stand in for Python's `str(e)`.
   */
  function Listed(body: Value, key: string): Result<seq<Value>>
  {
    match Field(body, key, ListV([]))
    case None => Err("'get' on a body that is not an object")
    case Some(papers) =>
      if !Truthy(papers) then Ok([])
      else
        match Records(papers)
        case Some(items) => Ok(items)
        case None => Err("the result list is not iterable")
  }

  /** What _search_v3 makes of a 200 body: the filtered papers cut to `limit`, [] for an empty result. */
  function V3Outcome(body: Value, limit: int): Found<Paper>
  {
    match Listed(body, "results")
    case Err(e) => Failed(Failure(Crashed, e))
    case Ok(items) =>
      match FilterQuality(FilterMap(items, StandardizedV3))
      case Ok(kept) => Found(Slice(kept, limit))
      case Err(e) => Failed(Failure(Crashed, e))
  }

  /** _search_v3; without a 200 response it raises APIUnavailableError. */
  function SearchedV3(query: string, limit: int, minYear: Option<int>, maxYear: Option<int>, currentYear: int,
                      fetch: V3Params -> Fetched<Value>): Found<Paper>
  {
    match fetch(V3SearchParams(query, limit, minYear, maxYear, currentYear))
    case Fetched(body) => V3Outcome(body, limit)
    case NoResponse => Failed(Failure(Unavailable, "CORE v3 API request failed"))
    case Threw(f) => Failed(f)
  }

  /** What _search_v2 makes of a 200 body: the standardised papers, unfiltered and uncut. */
  function V2Outcome(body: Value): Found<Paper>
  {
    match Listed(body, "data")
    case Err(e) => Failed(Failure(Crashed, e))
    case Ok(items) => Found(FilterMap(items, StandardizedV2))
  }

  /** _search_v2; without a 200 response it raises APIUnavailableError. */
  function SearchedV2(query: string, limit: int, apiKey: Option<string>, fetch: V2Params -> Fetched<Value>): Found<Paper>
  {
    match fetch(V2SearchParams(query, limit, apiKey))
    case Fetched(body) => V2Outcome(body)
    case NoResponse => Failed(Failure(Unavailable, "CORE v2 API request failed"))
    case Threw(f) => Failed(f)
  }

  /** The v3 → v2 decision: a non-empty v3 result stands; an empty one, a RateLimitError or an APIUnavailableError falls through. */
  function Fallback(v3: Found<Paper>, v2: Found<Paper>): Found<Paper>
  {
    match v3
    case Found(papers) => if papers != [] then v3 else v2
    case Failed(f) => if f.kind == RateLimited || f.kind == Unavailable then v2 else v3
  }

  /** The outcome of the `try` around v3 and the v2 fallback, before the decorator. */
  function Attempted(query: string, limit: int, minYear: Option<int>, maxYear: Option<int>, currentYear: int,
                     apiKey: Option<string>, fetchV3: V3Params -> Fetched<Value>,
                     fetchV2: V2Params -> Fetched<Value>): Found<Paper>
  {
    Fallback(SearchedV3(query, limit, minYear, maxYear, currentYear, fetchV3), SearchedV2(query, limit, apiKey, fetchV2))
  }

  /** search under `handle_provider_error`. */
  function Searched(query: string, limit: int, minYear: Option<int>, maxYear: Option<int>, currentYear: int,
                    apiKey: Option<string>, fetchV3: V3Params -> Fetched<Value>,
                    fetchV2: V2Params -> Fetched<Value>): Found<Paper>
  {
    if !ValidQuery(query) then Failed(Failure(InvalidQuery, "Invalid query: " + query))
    else
      Decorated(Attempted(query, limit, minYear, maxYear, currentYear, apiKey, fetchV3, fetchV2))
  }

  method FromV3Body(body: Value, limit: int) returns (r: Found<Paper>)
    ensures r == V3Outcome(body, limit)
  {
    var items := Listed(body, "results");
    if items.Err? {
      return Failed(Failure(Crashed, items.error));
    }
    var standardized := StandardizePapers(items.value, StandardizedV3);
    var quality := FilterQualityPapers(standardized);
    if quality.Err? {
      return Failed(Failure(Crashed, quality.error));
    }
    return Found(Slice(quality.value, limit));
  }

  method SearchV3(query: string, limit: int, minYear: Option<int>, maxYear: Option<int>, currentYear: int,
                  fetch: V3Params -> Fetched<Value>) returns (r: Found<Paper>)
    ensures r == SearchedV3(query, limit, minYear, maxYear, currentYear, fetch)
  {
    var outcome := fetch(V3SearchParams(query, limit, minYear, maxYear, currentYear));
    match outcome
    case Fetched(body) =>
      r := FromV3Body(body, limit);
    case NoResponse =>
      return Failed(Failure(Unavailable, "CORE v3 API request failed"));
    case Threw(f) =>
      return Failed(f);
  }

  method FromV2Body(body: Value) returns (r: Found<Paper>)
    ensures r == V2Outcome(body)
  {
    var items := Listed(body, "data");
    if items.Err? {
      return Failed(Failure(Crashed, items.error));
    }
    var standardized := StandardizePapers(items.value, StandardizedV2);
    return Found(standardized);
  }

  method SearchV2(query: string, limit: int, apiKey: Option<string>, fetch: V2Params -> Fetched<Value>)
    returns (r: Found<Paper>)
    ensures r == SearchedV2(query, limit, apiKey, fetch)
  {
    var outcome := fetch(V2SearchParams(query, limit, apiKey));
    if outcome.Fetched? {
      r := FromV2Body(outcome.body);
    } else if outcome.NoResponse? {
      r := Failed(Failure(Unavailable, "CORE v2 API request failed"));
    } else {
      r := Failed(outcome.failure);
    }
  }

  method Search(query: string, limit: int, minYear: Option<int>, maxYear: Option<int>, currentYear: int,
                apiKey: Option<string>, fetchV3: V3Params -> Fetched<Value>, fetchV2: V2Params -> Fetched<Value>)
    returns (r: Found<Paper>)
    ensures r == Searched(query, limit, minYear, maxYear, currentYear, apiKey, fetchV3, fetchV2)
  {
    if !ValidQuery(query) {
      return Failed(Failure(InvalidQuery, "Invalid query: " + query));
    }
    var v3 := SearchV3(query, limit, minYear, maxYear, currentYear, fetchV3);
    if v3.Found? && v3.papers != [] {
      return v3;
    }
    if v3.Failed? && v3.failure.kind != RateLimited && v3.failure.kind != Unavailable {
      return Decorated(v3);
    }
    var v2 := SearchV2(query, limit, apiKey, fetchV2);
    return Decorated(v2);
  }

  /**
   * An invalid query raises SearchError. A non-empty v3 result is returned
   * as it is; an empty v3 result, or a RateLimitError or APIUnavailableError
   * from v3, gives the v2 outcome; any other v3 error is raised.
   */
  lemma FallbackSpec(query: string, limit: int, minYear: Option<int>, maxYear: Option<int>, currentYear: int,
                     apiKey: Option<string>, fetchV3: V3Params -> Fetched<Value>, fetchV2: V2Params -> Fetched<Value>)
    requires ValidQuery(query)
    ensures var v3 := SearchedV3(query, limit, minYear, maxYear, currentYear, fetchV3);
      var r := Searched(query, limit, minYear, maxYear, currentYear, apiKey, fetchV3, fetchV2);
      (v3.Found? && v3.papers != [] ==> r == v3) &&
      ((v3.Found? && v3.papers == []) || (v3.Failed? && v3.failure.kind in {RateLimited, Unavailable}) ==>
         r == Decorated(SearchedV2(query, limit, apiKey, fetchV2))) &&
      (v3.Failed? && v3.failure.kind !in {RateLimited, Unavailable} ==> r == Decorated(v3))
  {
    var v3 := SearchedV3(query, limit, minYear, maxYear, currentYear, fetchV3);
    var v2 := SearchedV2(query, limit, apiKey, fetchV2);
    assert Searched(query, limit, minYear, maxYear, currentYear, apiKey, fetchV3, fetchV2) == Decorated(Fallback(v3, v2));
    FallbackCases(v3, v2);
  }

  lemma FallbackCases(v3: Found<Paper>, v2: Found<Paper>)
    ensures v3.Found? && v3.papers != [] ==> Decorated(Fallback(v3, v2)) == v3
    ensures (v3.Found? && v3.papers == []) || (v3.Failed? && v3.failure.kind in {RateLimited, Unavailable}) ==>
      Fallback(v3, v2) == v2
    ensures v3.Failed? && v3.failure.kind !in {RateLimited, Unavailable} ==> Fallback(v3, v2) == v3
  {
  }

  /** A v3 result holds at most `limit` papers, all scored by the filter, by non-increasing score. */
  lemma SearchedV3Spec(query: string, limit: int, minYear: Option<int>, maxYear: Option<int>, currentYear: int,
                       fetch: V3Params -> Fetched<Value>)
    ensures var r := SearchedV3(query, limit, minYear, maxYear, currentYear, fetch);
      r.Found? ==> ((limit >= 0 ==> |r.papers| <= limit) &&
        (forall p :: p in r.papers ==> Score(p).Some?) &&
        (forall i, j :: 0 <= i < j < |r.papers| ==> Score(r.papers[i]).value >= Score(r.papers[j]).value))
  {
    var outcome := fetch(V3SearchParams(query, limit, minYear, maxYear, currentYear));
    if outcome.Fetched? && Listed(outcome.body, "results").Ok? {
      var standardized := FilterMap(Listed(outcome.body, "results").value, StandardizedV3);
      if FilterQuality(standardized).Ok? {
        CutRanked(FilterQuality(standardized).value, standardized, limit);
      }
    }
  }

  lemma CutRanked(kept: seq<Paper>, standardized: seq<Paper>, limit: int)
    requires FilterQuality(standardized) == Ok(kept)
    ensures var r := Slice(kept, limit);
      (forall p :: p in r ==> Score(p).Some?) &&
      (forall i, j :: 0 <= i < j < |r| ==> Score(r[i]).value >= Score(r[j]).value)
  {
    FilterQualitySpec(standardized);
    var r := Slice(kept, limit);
    assert forall i :: 0 <= i < |r| ==> r[i] == kept[i];
  }
}
