// ai_scholar/providers/arxiv_search_provider.py: the arXiv search adapter
// without its HTTP exchange and XML parser. `_make_request` (retries and
// sleeps) is the parameter `fetch`; what ElementTree finds in an Atom feed
// is given as a sequence of `Entry` values, or None for a document that
// does not parse.

module ArxivProviders {
  import opened Base
  import opened Text
  import opened Values
  import opened Lists
  import opened SearchCommon
  import Helpers

  // ---------------------------------------------------------------- the request

  /** The query parameters of an arXiv API call. */
  datatype Params = Params(searchQuery: string, start: nat, maxResults: int, sortBy: string, sortOrder: string)

  const MinQueryLength: nat := 3
  const MaxResultsPerRequest: int := 100

  /** validate_query: a non-blank query of at least three characters once stripped. */
  predicate ValidQuery(query: string)
  {
    QueryOk(query, MinQueryLength)
  }

  /** `all:"<query>"`: the stripped query searched in every field. */
  function AllFields(query: string): string
  {
    "all:\"" + Strip(query) + "\""
  }

  /**
   * The date range _build_arxiv_query appends for a truthy bound; the
   * f-string literals are written in pieces.
   */
  function DateRange(minYear: Option<int>, maxYear: Option<int>): string
  {
    if Given(minYear) && Given(maxYear) then
      " AND submittedDate:[" + (IntToString(minYear.value) + "0101") + " TO " + (IntToString(maxYear.value) + "1231") + "]"
    else if Given(minYear) then
      " AND submittedDate:[" + (IntToString(minYear.value) + "0101") + " TO " + "*" + "]"
    else if Given(maxYear) then
      " AND submittedDate:[" + "*" + " TO " + (IntToString(maxYear.value) + "1231") + "]"
    else ""
  }

  /** _build_arxiv_query: the quoted query, then the date range. */
  function ArxivQuery(query: string, minYear: Option<int>, maxYear: Option<int>): (q: string)
    ensures StartsWith(q, AllFields(query))
  {
    var q := AllFields(query) + DateRange(minYear, maxYear);
    assert q[..|AllFields(query)|] == AllFields(query);
    q
  }

  /** The first day of a lower bound year, or `*` when there is none. */
  function RangeStart(minYear: Option<int>): string
  {
    if Given(minYear) then IntToString(minYear.value) + "0101" else "*"
  }

  /** The last day of an upper bound year, or `*` when there is none. */
  function RangeEnd(maxYear: Option<int>): string
  {
    if Given(maxYear) then IntToString(maxYear.value) + "1231" else "*"
  }

  /**
   * The query is the quoted stripped query, followed by one
   * `submittedDate:[start TO end]` range when either bound is given, an
   * open end written `*`.
   */
  lemma DateRangeSpec(minYear: Option<int>, maxYear: Option<int>)
    ensures DateRange(minYear, maxYear) ==
      if Given(minYear) || Given(maxYear)
      then " AND submittedDate:[" + RangeStart(minYear) + " TO " + RangeEnd(maxYear) + "]"
      else ""
  {
  }

  function SearchParams(query: string, limit: int, minYear: Option<int>, maxYear: Option<int>): (p: Params)
    ensures p.maxResults <= MaxResultsPerRequest && (limit <= MaxResultsPerRequest ==> p.maxResults == limit)
    ensures p.searchQuery == ArxivQuery(query, minYear, maxYear)
  {
    Params(ArxivQuery(query, minYear, maxYear), 0, Min(limit, MaxResultsPerRequest), "relevance", "descending")
  }

  // ---------------------------------------------------------------- the feed

  /** An XML element `find` looks for: absent, present without text (`.text` is None), or with text. */
  datatype Element = Missing | Blank | Text(text: string)

  /**
   * An `atom:entry`: its title, the `atom:name` of each `atom:author`, its
   * summary, published date and id, and the `term` attribute of each
   * `atom:category`.
   */
  datatype Entry = Entry(title: Element, authorNames: seq<Element>, summary: Element, published: Element,
                         id: Element, terms: seq<Option<string>>)

  /** The paper dict built for an entry; the keys it may lack are options. */
  datatype Record = Record(title: string, authors: string, abstractText: Option<string>, year: Option<Value>,
                           url: Option<string>, arxivId: Option<string>, categories: seq<string>)

  /** Neither end of `s` is whitespace, as after `strip()`. */
  predicate Trimmed(s: string)
  {
    s == [] || (!IsSpace(s[0]) && !IsSpace(s[|s| - 1]))
  }

  /** `text.strip().replace('\n', ' ')`. */
  function Flattened(text: string): (r: string)
    ensures |r| == |Strip(text)| && '\n' !in r && Trimmed(r)
  {
    OneLine(Strip(text));
    ReplaceAll(Strip(text), "\n", " ")
  }

  /** Replacing the newlines of a stripped text keeps its length and its non-space ends. */
  lemma OneLine(s: string)
    requires s == [] || (!IsSpace(s[0]) && !IsSpace(s[|s| - 1]))
    ensures var r := ReplaceAll(s, "\n", " ");
      |r| == |s| && '\n' !in r && Trimmed(r)
  {
    var r := ReplaceAll(s, "\n", " ");
    NewlinesReplaced(s);
    assert IsSpace('\n');
    forall i | 0 <= i < |r|
      ensures r[i] != '\n'
    {
      assert r[i] == (if s[i] == '\n' then ' ' else s[i]);
    }
    if r != [] {
      assert r[0] == s[0];
      assert r[|r| - 1] == s[|s| - 1];
    }
  }

  /** `s.replace('\n', ' ')` changes every newline into a space and nothing else. */
  lemma {:induction false} NewlinesReplaced(s: string)
    ensures var r := ReplaceAll(s, "\n", " ");
      |r| == |s| && forall i :: 0 <= i < |s| ==> r[i] == (if s[i] == '\n' then ' ' else s[i])
    decreases |s|
  {
    if s != [] {
      NewlinesReplaced(s[1..]);
      assert StartsWith(s, "\n") <==> s[0] == '\n';
    }
  }

  /** An element whose `.text.strip()` is reached: a Blank one raises AttributeError. */
  predicate Raises(e: Entry)
  {
    e.title.Blank? || Blank in e.authorNames || e.summary.Blank? || e.published.Blank? || e.id.Blank?
  }

  /** The stripped name of an author that has an `atom:name`. */
  function NameOf(name: Element): Option<string>
  {
    if name.Text? then Some(Strip(name.text)) else None
  }

  /** `', '.join(authors) if authors else 'Unknown'`. */
  function AuthorsText(names: seq<Element>): (r: string)
    ensures FilterMap(names, NameOf) == [] ==> r == "Unknown"
  {
    var authors := FilterMap(names, NameOf);
    if authors == [] then "Unknown" else Join(", ", authors)
  }

  /** A truthy `term` attribute. */
  function TermOf(term: Option<string>): Option<string>
  {
    if term.Some? && term.value != [] then term else None
  }

  /** `arxiv_url.split('/')[-1]`. */
  function LastPart(url: string): (r: string)
    ensures '/' !in r && |r| <= |url| && r == url[|url| - |r|..]
  {
    match Helpers.AfterLastSlash(url)
    case Some(t) => t
    case None => url
  }

  /** What the per-entry code keeps of a record. */
  predicate WellFormed(r: Record)
  {
    r.title != [] && '\n' !in r.title && Trimmed(r.title) &&
    (r.abstractText.Some? ==> '\n' !in r.abstractText.value) &&
    (r.year.Some? ==> r.year.value.IntV? || r.year.value == StrV("Unknown")) &&
    (r.arxivId.Some? ==> (r.url.Some? && Contains(r.url.value, "arxiv.org/abs/") &&
                          '/' !in r.arxivId.value && EndsWith(r.url.value, r.arxivId.value)))
  }

  /**
   * The paper dict of an entry that does not raise, or None when it has no
   * title left after stripping (the `if paper.get('title')` test).
   */
  function EntryRecord(e: Entry): (r: Option<Record>)
    ensures r.Some? ==> WellFormed(r.value)
    ensures r.Some? <==> e.title.Text? && Strip(e.title.text) != []
  {
    if !(e.title.Text? && Strip(e.title.text) != []) then None
    else Some(RecordOf(e))
  }

  /** The dict of an entry with a title: one-line title and abstract, year, url and arXiv id, categories. */
  function RecordOf(e: Entry): (r: Record)
    requires e.title.Text? && Strip(e.title.text) != []
    ensures WellFormed(r)
  {
    var title := Flattened(e.title.text);
    var url := if e.id.Text? then Some(Strip(e.id.text)) else None;
    var arxivId := ArxivIdOf(url);
    assert title != [];
    Record(
      title,
      AuthorsText(e.authorNames),
      if e.summary.Text? then Some(Flattened(e.summary.text)) else None,
      if e.published.Text? then Some(YearOfDate(Strip(e.published.text))) else None,
      url,
      arxivId,
      FilterMap(e.terms, TermOf))
  }

  /** `arxiv_id` is set only for an `arxiv.org/abs/` url, to its last segment. */
  function ArxivIdOf(url: Option<string>): (r: Option<string>)
    ensures r.Some? ==> (url.Some? && Contains(url.value, "arxiv.org/abs/") &&
                         '/' !in r.value && EndsWith(url.value, r.value))
  {
    if url.Some? && Contains(url.value, "arxiv.org/abs/") then Some(LastPart(url.value)) else None
  }

  /** The position of the first entry that raises, or the number of entries. */
  function FirstRaise(entries: seq<Entry>): (k: nat)
    ensures k <= |entries|
    ensures forall j :: 0 <= j < k ==> !Raises(entries[j])
    ensures k < |entries| ==> Raises(entries[k])
  {
    if entries == [] || Raises(entries[0]) then 0 else 1 + FirstRaise(entries[1..])
  }

  /**
   * _parse_arxiv_response: the exception an entry raises ends the loop and
   * is swallowed, so the papers of the entries before it come back.
   */
  function Parsed(entries: seq<Entry>): (r: seq<Record>)
    ensures forall rec :: rec in r ==> WellFormed(rec)
    ensures (forall i :: 0 <= i < |entries| ==> !Raises(entries[i])) ==> r == FilterMap(entries, EntryRecord)
  {
    FilterMapMembers(entries[..FirstRaise(entries)], EntryRecord);
    assert FirstRaise(entries) == |entries| ==> entries[..FirstRaise(entries)] == entries;
    FilterMap(entries[..FirstRaise(entries)], EntryRecord)
  }

  /** An entry that raises hides itself and every later entry. */
  lemma ParsedStopsAt(entries: seq<Entry>, k: nat)
    requires k < |entries| && Raises(entries[k])
    ensures |Parsed(entries)| <= k
    ensures forall rec :: rec in Parsed(entries) ==> exists j :: 0 <= j < k && EntryRecord(entries[j]) == Some(rec)
  {
    var n := FirstRaise(entries);
    FilterMapMembers(entries[..n], EntryRecord);
    forall rec | rec in Parsed(entries)
      ensures exists j :: 0 <= j < k && EntryRecord(entries[j]) == Some(rec)
    {
      var j :| 0 <= j < n && EntryRecord(entries[..n][j]) == Some(rec);
      assert EntryRecord(entries[j]) == Some(rec);
    }
  }

  /** The parse loop: entries are visited in order until one raises. */
  method ParseEntries(entries: seq<Entry>) returns (papers: seq<Record>)
    ensures papers == Parsed(entries)
  {
    papers := [];
    for i := 0 to |entries|
      invariant i <= FirstRaise(entries)
      invariant papers == FilterMap(entries[..i], EntryRecord)
    {
      if Raises(entries[i]) {
        return;
      }
      FilterMapStep(entries, i, EntryRecord);
      var paper := EntryRecord(entries[i]);
      if paper.Some? {
        papers := papers + [paper.value];
      }
    }
    assert entries[..|entries|] == entries;
  }

  // ---------------------------------------------------------------- standardisation

  const NotAvailable: string := "N/A"

  /** A standardized arXiv paper; `source` and `provider` are the constants 'arxiv' and 'arXiv'. */
  datatype Paper = Paper(title: string, authors: string, year: Value, abstractText: string, url: string,
                         citations: string, categories: seq<string>, arxivId: string)

  /**
   * What a returned paper satisfies: a one-line stripped title, no newline
   * in the abstract, citations 'N/A', an integer year or 'Unknown', and an
   * arXiv id only for an `arxiv.org/abs/` url, where it is the last path
   * segment.
   */
  predicate GoodPaper(p: Paper)
  {
    p.title != [] && '\n' !in p.title && Trimmed(p.title) && '\n' !in p.abstractText &&
    p.citations == NotAvailable && (p.year.IntV? || p.year == StrV("Unknown")) &&
    (p.arxivId != [] ==> Contains(p.url, "arxiv.org/abs/") && '/' !in p.arxivId && EndsWith(p.url, p.arxivId))
  }

  /** The `paper.get(key, default)` of each field; every record has a title, so 'No title' is never used. */
  function Standardized(r: Record): (p: Paper)
    ensures WellFormed(r) ==> GoodPaper(p)
    ensures p.title == r.title && p.authors == r.authors && p.categories == r.categories
    ensures p.citations == NotAvailable
    ensures r.year.None? ==> p.year == StrV("Unknown")
    ensures r.url.None? ==> p.url == []
    ensures r.abstractText.None? ==> p.abstractText == []
    ensures r.arxivId.None? ==> p.arxivId == []
  {
    Paper(r.title, r.authors,
          if r.year.Some? then r.year.value else StrV("Unknown"),
          if r.abstractText.Some? then r.abstractText.value else "",
          if r.url.Some? then r.url.value else "",
          NotAvailable, r.categories,
          if r.arxivId.Some? then r.arxivId.value else "")
  }

  method StandardizePapers(records: seq<Record>) returns (papers: seq<Paper>)
    ensures papers == Map(records, Standardized)
  {
    papers := [];
    for i := 0 to |records|
      invariant papers == Map(records[..i], Standardized)
    {
      MapStep(records, i, Standardized);
      papers := papers + [Standardized(records[i])];
    }
    assert records[..|records|] == records;
  }

  // ---------------------------------------------------------------- search

  /**
   * search: nothing for an invalid query, no response, an exception or a
   * feed that does not parse; otherwise the standardized parsed entries.
   * The result is not cut to `limit`: at most `min(limit, 100)` entries are asked for.
   */
  function Searched(query: string, limit: int, minYear: Option<int>, maxYear: Option<int>,
                    fetch: Params -> Fetched<Option<seq<Entry>>>): seq<Paper>
  {
    if !ValidQuery(query) then []
    else
      var outcome := fetch(SearchParams(query, limit, minYear, maxYear));
      if outcome.Fetched? && outcome.body.Some? then Map(Parsed(outcome.body.value), Standardized) else []
  }

  method Search(query: string, limit: int, minYear: Option<int>, maxYear: Option<int>,
                fetch: Params -> Fetched<Option<seq<Entry>>>) returns (r: seq<Paper>)
    ensures r == Searched(query, limit, minYear, maxYear, fetch)
  {
    if !ValidQuery(query) {
      return [];
    }
    var outcome := fetch(SearchParams(query, limit, minYear, maxYear));
    if outcome.Fetched? && outcome.body.Some? {
      var records := ParseEntries(outcome.body.value);
      r := StandardizePapers(records);
    } else {
      r := [];
    }
  }

  /**
   * Nothing comes back for an invalid query, a missing response or an
   * unparsable feed; otherwise each paper is the standardisation of one
   * titled entry before the first entry that raises.
   */
  lemma SearchSpec(query: string, limit: int, minYear: Option<int>, maxYear: Option<int>,
                   fetch: Params -> Fetched<Option<seq<Entry>>>)
    ensures !ValidQuery(query) ==> Searched(query, limit, minYear, maxYear, fetch) == []
    ensures var outcome := fetch(SearchParams(query, limit, minYear, maxYear));
      !(outcome.Fetched? && outcome.body.Some?) ==> Searched(query, limit, minYear, maxYear, fetch) == []
    ensures forall p :: p in Searched(query, limit, minYear, maxYear, fetch) ==> GoodPaper(p)
  {
    if ValidQuery(query) {
      var outcome := fetch(SearchParams(query, limit, minYear, maxYear));
      if outcome.Fetched? && outcome.body.Some? {
        StandardizedGood(Parsed(outcome.body.value));
      }
    }
  }

  lemma StandardizedGood(records: seq<Record>)
    requires forall rec :: rec in records ==> WellFormed(rec)
    ensures forall p :: p in Map(records, Standardized) ==> GoodPaper(p)
  {
    var r := Map(records, Standardized);
    forall p | p in r
      ensures GoodPaper(p)
    {
      var i :| 0 <= i < |r| && r[i] == p;
      assert records[i] in records;
    }
  }

  /** Without a named author the authors are 'Unknown'. */
  lemma NoNamesUnknown(names: seq<Element>)
    requires forall i :: 0 <= i < |names| ==> !names[i].Text?
    ensures AuthorsText(names) == "Unknown"
  {
    FilterMapNothing(names);
  }

  /** A single named author is the whole authors string. */
  lemma OneAuthor(name: string)
    ensures AuthorsText([Text(name)]) == Strip(name)
  {
    assert [Text(name)][..0] == [];
    assert FilterMap([Text(name)], NameOf) == [Strip(name)];
  }

  lemma {:induction false} FilterMapNothing(names: seq<Element>)
    requires forall i :: 0 <= i < |names| ==> !names[i].Text?
    ensures FilterMap(names, NameOf) == []
    decreases |names|
  {
    if names != [] {
      FilterMapNothing(names[..|names| - 1]);
    }
  }
}
