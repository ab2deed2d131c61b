// ai_scholar/providers/semantic_scholar_provider.py: the Semantic Scholar
// search adapter without its HTTP exchange. `_make_request` (rate-limit
// sleeps, retries, the 403 and 429 handling) is the parameter `fetch`,
// which gives the decoded JSON body of a 200 response, or no response, or
// the error raised on the way; `search` turns every one of those errors
// into an empty list.

module SemanticScholarProviders {
  import opened Base
  import opened Text
  import opened Values
  import opened Lists
  import opened SearchCommon

  // ---------------------------------------------------------------- the request

  /** The query parameters of a paper search; `year` is sent only when a bound is given. */
  datatype Params = Params(query: string, limit: int, fields: string, year: Option<string>)

  const ApiLimit: int := 100
  const MinQueryLength: nat := 3
  const DefaultFields: string := "paperId,title,authors,year,abstract,citationCount,url,venue,publicationDate"
  const PaperPage: string := "https://www.semanticscholar.org/paper/"

  /** validate_query: a non-blank query of at least three characters once stripped. */
  predicate ValidQuery(query: string)
  {
    QueryOk(query, MinQueryLength)
  }

  /** The `year` parameter: `min-` for a truthy min_year, then `min-max` or `-max` for a truthy max_year. */
  function YearParam(minYear: Option<int>, maxYear: Option<int>): Option<string>
  {
    if Given(maxYear) then
      if Given(minYear) then Some(IntToString(minYear.value) + "-" + IntToString(maxYear.value))
      else Some("-" + IntToString(maxYear.value))
    else if Given(minYear) then Some(IntToString(minYear.value) + "-")
    else None
  }

  /** The text of an optional bound: the year, or nothing. */
  function BoundText(year: Option<int>): string
  {
    if Given(year) then IntToString(year.value) else ""
  }

  /**
   * A year range is sent exactly when a bound is given; it is the lower
   * bound, a dash and the upper bound, either side left empty when open;
   * a non-negative lower bound is what the range's leading year reads back as.
   */
  lemma YearParamSpec(minYear: Option<int>, maxYear: Option<int>)
    ensures YearParam(minYear, maxYear).Some? <==> Given(minYear) || Given(maxYear)
    ensures YearParam(minYear, maxYear).Some? ==>
      YearParam(minYear, maxYear).value == BoundText(minYear) + "-" + BoundText(maxYear)
    ensures Given(minYear) && minYear.value >= 0 ==> YearOfDate(YearParam(minYear, maxYear).value) == IntV(minYear.value)
  {
    if Given(minYear) && minYear.value >= 0 {
      YearOfDateRoundTrip(minYear.value, BoundText(maxYear));
    }
  }

  function SearchParams(query: string, limit: int, minYear: Option<int>, maxYear: Option<int>): (p: Params)
    ensures p.limit <= ApiLimit && (limit <= ApiLimit ==> p.limit == limit)
    ensures p.query == Strip(query) && p.year == YearParam(minYear, maxYear)
  {
    Params(Strip(query), Min(limit, ApiLimit), DefaultFields, YearParam(minYear, maxYear))
  }

  // ---------------------------------------------------------------- authors and year

  /** The name an author contributes: `author.get('name', '')` for a dict, `str(author)` otherwise. */
  function AuthorName(author: Value): Value
  {
    if author.DictV? then Get(author.fields, "name", StrV("")) else StrV(PyStr(author))
  }

  /** A truthy name is appended; a falsy one is skipped. */
  function KeptName(author: Value): Option<Value>
  {
    var name := AuthorName(author);
    if Truthy(name) then Some(name) else None
  }

  /**
   * _extract_authors: the comma-joined truthy names of a list, or 'Unknown'
   * when there are none; `str()` of any other truthy value, or 'Unknown'.
   * None stands for the TypeError of joining a name that is not a string.
   */
  function ExtractAuthors(authors: Value): Option<string>
  {
    if authors.ListV? then JoinedNames(FilterMap(authors.items, KeptName))
    else Some(if Truthy(authors) then PyStr(authors) else "Unknown")
  }

  /** The name loop of _extract_authors. */
  method CollectNames(authors: seq<Value>) returns (names: seq<Value>)
    ensures names == FilterMap(authors, KeptName)
  {
    names := [];
    for i := 0 to |authors|
      invariant names == FilterMap(authors[..i], KeptName)
    {
      FilterMapStep(authors, i, KeptName);
      var name := AuthorName(authors[i]);
      if Truthy(name) {
        names := names + [name];
      }
    }
    assert authors[..|authors|] == authors;
  }

  method ExtractAuthorsOf(authors: Value) returns (r: Option<string>)
    ensures r == ExtractAuthors(authors)
  {
    if !authors.ListV? {
      return Some(if Truthy(authors) then PyStr(authors) else "Unknown");
    }
    var names := CollectNames(authors.items);
    r := JoinedNames(names);
  }

  /**
   * A falsy value or a list without a truthy name gives 'Unknown'; a list
   * whose kept names are strings gives their non-empty join; only a kept
   * name that is not a string makes the call raise.
   */
  lemma ExtractAuthorsSpec(authors: Value)
    ensures !Truthy(authors) ==> ExtractAuthors(authors) == Some("Unknown")
    ensures authors.ListV? && (forall i :: 0 <= i < |authors.items| ==> KeptName(authors.items[i]).None?) ==>
      ExtractAuthors(authors) == Some("Unknown")
    ensures authors.ListV? && ExtractAuthors(authors).Some? ==> ExtractAuthors(authors).value != []
    ensures authors.ListV? && (forall i :: 0 <= i < |authors.items| ==> AuthorName(authors.items[i]).StrV?) ==>
      ExtractAuthors(authors).Some?
  {
    if authors.ListV? {
      var names := FilterMap(authors.items, KeptName);
      NamesKept(authors.items);
      JoinedNamesNonEmpty(names);
      if forall i :: 0 <= i < |authors.items| ==> KeptName(authors.items[i]).None? {
        NoNamesKept(authors.items);
      }
      if names != [] && forall i :: 0 <= i < |authors.items| ==> AuthorName(authors.items[i]).StrV? {
        assert forall i :: 0 <= i < |names| ==> NameText(names[i]).Ok? by {
          forall i | 0 <= i < |names| ensures NameText(names[i]).Ok? {
            assert names[i] in names;
          }
        }
      }
    }
  }

  /** Every kept name is a truthy name of some author. */
  lemma NamesKept(authors: seq<Value>)
    ensures forall v :: v in FilterMap(authors, KeptName) ==>
      Truthy(v) && exists i :: 0 <= i < |authors| && AuthorName(authors[i]) == v
  {
    FilterMapMembers(authors, KeptName);
  }

  lemma {:induction false} NoNamesKept(authors: seq<Value>)
    requires forall i :: 0 <= i < |authors| ==> KeptName(authors[i]).None?
    ensures FilterMap(authors, KeptName) == []
    decreases |authors|
  {
    if authors != [] {
      NoNamesKept(authors[..|authors| - 1]);
    }
  }

  /**
   * _extract_year: a truthy `year` as it is, else the integer before the
   * first '-' of a truthy string `publicationDate`, else 'Unknown'.
   */
  function ExtractYear(paper: PaperDict): Value
  {
    var year := Get(paper, "year", NoneV);
    if Truthy(year) then year
    else
      var date := Get(paper, "publicationDate", StrV(""));
      if Truthy(date) && date.StrV? then YearOfDate(date.s) else StrV("Unknown")
  }

  /**
   * A truthy year is kept; otherwise the year is an integer or 'Unknown',
   * and a date that starts with a year and a dash gives that year.
   */
  lemma ExtractYearSpec(paper: PaperDict)
    ensures Truthy(Get(paper, "year", NoneV)) ==> ExtractYear(paper) == paper["year"]
    ensures !Truthy(Get(paper, "year", NoneV)) ==> ExtractYear(paper).IntV? || ExtractYear(paper) == StrV("Unknown")
    ensures forall y: nat, rest: string ::
      !Truthy(Get(paper, "year", NoneV)) && Get(paper, "publicationDate", StrV("")) == StrV(NatToString(y) + "-" + rest) ==>
      ExtractYear(paper) == IntV(y)
  {
    forall y: nat, rest: string |
      !Truthy(Get(paper, "year", NoneV)) && Get(paper, "publicationDate", StrV("")) == StrV(NatToString(y) + "-" + rest)
      ensures ExtractYear(paper) == IntV(y)
    {
      YearOfDateRoundTrip(y, rest);
    }
  }

  // ---------------------------------------------------------------- standardisation

  /** A standardized paper; `source` and `provider` are both the constant 'semantic_scholar'. */
  datatype Paper = Paper(title: Value, authors: string, year: Value, abstractText: Value, url: Value,
                         citations: Value, venue: Value, paperId: Value, publicationDate: Value)

  const NotAvailable: string := "N/A"

  /** `citationCount`, with None (or a missing key) shown as 'N/A'. */
  function CitationsOf(paper: PaperDict): Value
  {
    var count := Get(paper, "citationCount", NoneV);
    if count.NoneV? then StrV(NotAvailable) else count
  }

  /** `url`, or the paper's Semantic Scholar page when the url is falsy and the id truthy. */
  function UrlOf(paper: PaperDict): Value
  {
    var url := Get(paper, "url", StrV(""));
    var id := Get(paper, "paperId", StrV(""));
    if !Truthy(url) && Truthy(id) then StrV(PaperPage + PyStr(id)) else url
  }

  /**
   * One iteration of _standardize_papers; None is a paper the `except:
   * continue` skips (not a dict, or authors that cannot be joined).
   */
  function Standardized(item: Value): Option<Paper>
  {
    if !item.DictV? then None
    else
      var paper := item.fields;
      match ExtractAuthors(Get(paper, "authors", ListV([])))
      case None => None
      case Some(authors) =>
        Some(Paper(Get(paper, "title", StrV("No title")), authors, ExtractYear(paper),
                   Get(paper, "abstract", StrV("")), UrlOf(paper), CitationsOf(paper),
                   Get(paper, "venue", StrV("")), Get(paper, "paperId", StrV("")),
                   Get(paper, "publicationDate", StrV(""))))
  }

  /**
   * A dict is skipped only when its authors cannot be joined; a missing or
   * None citation count reads 'N/A' while any other count, 0 included, is
   * kept; a falsy url with a truthy id becomes the paper's page.
   */
  lemma StandardizedSpec(item: Value)
    ensures Standardized(item).Some? <==> item.DictV? && ExtractAuthors(Get(item.fields, "authors", ListV([]))).Some?
    ensures Standardized(item).Some? ==> (
      var paper := item.fields;
      var p := Standardized(item).value;
      (Get(paper, "citationCount", NoneV).NoneV? ==> p.citations == StrV(NotAvailable)) &&
      (!Get(paper, "citationCount", NoneV).NoneV? ==> p.citations == paper["citationCount"]) &&
      (Truthy(Get(paper, "url", StrV(""))) ==> p.url == paper["url"]) &&
      (!Truthy(Get(paper, "url", StrV(""))) && Truthy(Get(paper, "paperId", StrV(""))) ==>
         p.url == StrV(PaperPage + PyStr(paper["paperId"]))) &&
      p.title == Get(paper, "title", StrV("No title")))
  {
  }

  method StandardizePapers(items: seq<Value>) returns (papers: seq<Paper>)
    ensures papers == FilterMap(items, Standardized)
  {
    papers := [];
    for i := 0 to |items|
      invariant papers == FilterMap(items[..i], Standardized)
    {
      FilterMapStep(items, i, Standardized);
      var paper := Standardized(items[i]);
      if paper.Some? {
        papers := papers + [paper.value];
      }
    }
    assert items[..|items|] == items;
  }

  // ---------------------------------------------------------------- search

  /** `data.get('data', [])` iterated over; None is the error of a body or a `data` that cannot be. */
  function Items(body: Value): Option<seq<Value>>
  {
    match Field(body, "data", ListV([]))
    case None => None
    case Some(papers) => Records(papers)
  }

  /** search: nothing for an invalid query or any failure; otherwise the standardized items. */
  function Searched(query: string, limit: int, minYear: Option<int>, maxYear: Option<int>,
                    fetch: Params -> Fetched<Value>): seq<Paper>
  {
    if !ValidQuery(query) then []
    else
      var outcome := fetch(SearchParams(query, limit, minYear, maxYear));
      if outcome.Fetched? && Items(outcome.body).Some? then FilterMap(Items(outcome.body).value, Standardized)
      else []
  }

  method Search(query: string, limit: int, minYear: Option<int>, maxYear: Option<int>,
                fetch: Params -> Fetched<Value>) returns (r: seq<Paper>)
    ensures r == Searched(query, limit, minYear, maxYear, fetch)
  {
    if !ValidQuery(query) {
      return [];
    }
    var outcome := fetch(SearchParams(query, limit, minYear, maxYear));
    if outcome.Fetched? && Items(outcome.body).Some? {
      r := StandardizePapers(Items(outcome.body).value);
    } else {
      r := [];
    }
  }

  /**
   * An invalid query or a failed request gives nothing; otherwise every
   * paper is the standardisation of a returned item, and every item that
   * standardizes is returned.
   */
  lemma SearchSpec(query: string, limit: int, minYear: Option<int>, maxYear: Option<int>,
                   fetch: Params -> Fetched<Value>)
    ensures !ValidQuery(query) ==> Searched(query, limit, minYear, maxYear, fetch) == []
    ensures !fetch(SearchParams(query, limit, minYear, maxYear)).Fetched? ==> Searched(query, limit, minYear, maxYear, fetch) == []
    ensures ValidQuery(query) && fetch(SearchParams(query, limit, minYear, maxYear)).Fetched? ==> (
      var body := fetch(SearchParams(query, limit, minYear, maxYear)).body;
      var r := Searched(query, limit, minYear, maxYear, fetch);
      body.DictV? && "data" in body.fields && body.fields["data"].ListV? ==> (
        var items := body.fields["data"].items;
        |r| <= |items| &&
        (forall p :: p in r ==> exists i :: 0 <= i < |items| && Standardized(items[i]) == Some(p)) &&
        (forall i :: 0 <= i < |items| && Standardized(items[i]).Some? ==> Standardized(items[i]).value in r)))
  {
    var outcome := fetch(SearchParams(query, limit, minYear, maxYear));
    if ValidQuery(query) && outcome.Fetched? {
      var body := outcome.body;
      if body.DictV? && "data" in body.fields && body.fields["data"].ListV? {
        var items := body.fields["data"].items;
        assert Items(body) == Some(items);
        FilterMapMembers(items, Standardized);
        forall i | 0 <= i < |items| && Standardized(items[i]).Some?
          ensures Standardized(items[i]).value in FilterMap(items, Standardized)
        {
          FilterMapComplete(items, Standardized, i);
        }
      }
    }
  }
}
