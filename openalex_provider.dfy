// ai_scholar/providers/openalex_provider.py: the OpenAlex search adapter
// without its HTTP exchange. `_make_request` (rate limiting, retries and
// sleeps) is the parameter `fetch`, which gives the `results` list of a 200
// response, or no response, or the error it raised.

module OpenAlexProviders {
  import opened Base
  import opened Text
  import opened Values
  import opened Lists
  import opened Sorting
  import opened SearchCommon

  // ---------------------------------------------------------------- the request

  /** The query parameters of a works search; `filter` is absent when no year is given. */
  datatype Params = Params(search: string, perPage: int, sort: string, filter: Option<string>)

  const MinQueryLength: nat := 3
  const MaxPerPage: int := 200

  /** validate_query: a non-blank query of at least three characters once stripped. */
  predicate ValidQuery(query: string)
  {
    QueryOk(query, MinQueryLength)
  }

  /** `query.strip().replace('"', '')`. */
  function CleanQuery(query: string): string
  {
    ReplaceAll(Strip(query), "\"", "")
  }

  /** The date clause of a truthy min_year. */
  function FromClause(year: int): string
  {
    "from_publication_date:" + IntToString(year) + "-01-01"
  }

  /** The date clause of a truthy max_year. */
  function ToClause(year: int): string
  {
    "to_publication_date:" + IntToString(year) + "-12-31"
  }

  /** The `filters` list: a start date for a truthy min_year, an end date for a truthy max_year. */
  function YearFilters(minYear: Option<int>, maxYear: Option<int>): seq<string>
  {
    (if Given(minYear) then [FromClause(minYear.value)] else []) +
    (if Given(maxYear) then [ToClause(maxYear.value)] else [])
  }

  function SearchParams(query: string, limit: int, minYear: Option<int>, maxYear: Option<int>): Params
  {
    var filters := YearFilters(minYear, maxYear);
    Params(CleanQuery(query), Min(limit * 3, MaxPerPage), "relevance_score:desc",
           if filters == [] then None else Some(Join(",", filters)))
  }

  /**
   * Three times the limit is requested, never more than 200 per page, and the
   * quotes are gone from the search text. The filter is present exactly when
   * a year is given, and holds one date clause per given year, comma-joined.
   */
  lemma SearchParamsSpec(query: string, limit: int, minYear: Option<int>, maxYear: Option<int>)
    ensures var p := SearchParams(query, limit, minYear, maxYear);
      p.perPage <= MaxPerPage && p.perPage <= 3 * limit &&
      (p.perPage == MaxPerPage || p.perPage == 3 * limit) &&
      '"' !in p.search &&
      (p.filter.None? <==> !Given(minYear) && !Given(maxYear))
    ensures Given(minYear) && Given(maxYear) ==>
      SearchParams(query, limit, minYear, maxYear).filter == Some(FromClause(minYear.value) + "," + ToClause(maxYear.value))
    ensures Given(minYear) && !Given(maxYear) ==>
      SearchParams(query, limit, minYear, maxYear).filter == Some(FromClause(minYear.value))
    ensures !Given(minYear) && Given(maxYear) ==>
      SearchParams(query, limit, minYear, maxYear).filter == Some(ToClause(maxYear.value))
  {
    NoQuoteLeft(Strip(query));
    if Given(minYear) && Given(maxYear) {
      var a, b := FromClause(minYear.value), ToClause(maxYear.value);
      assert YearFilters(minYear, maxYear) == [a, b];
      assert Join(",", [a, b]) == a + "," + Join(",", [b]);
    }
  }

  lemma {:induction false} NoQuoteLeft(s: string)
    ensures '"' !in ReplaceAll(s, "\"", "")
    decreases |s|
  {
    if s != [] {
      if StartsWith(s, "\"") {
        NoQuoteLeft(s[1..]);
      } else {
        NoQuoteLeft(s[1..]);
        assert s[0] != '"';
      }
    }
  }

  // ---------------------------------------------------------------- standardisation

  /**
   * One element of the `results` list: a work object with its
   * `abstract_inverted_index` as (word, positions) pairs in the dict's own
   * order (the entry under that key in `fields` is not read), or an element
   * that is not an object.
   */
  datatype Work = Work(fields: PaperDict, invertedIndex: seq<(string, seq<int>)>) | NotAnObject

  /** A standardised paper; `source` is always 'openalex' and `provider` 'OpenAlex'. */
  datatype Paper = Paper(title: string, authors: seq<Value>, year: Value, abstractText: string, url: Value,
                         citations: Value, venue: Value, doi: Value, publicationType: Value,
                         openalexId: Value, isOa: Value, oaUrl: Value, publishedDate: Value)

  /** One turn of the authorships loop: the display name of a truthy author is added; None once a `.get` has raised. */
  function AuthorStep(names: Option<seq<Value>>, authorship: Value): Option<seq<Value>>
  {
    match names
    case None => None
    case Some(ns) =>
      match Field(authorship, "author", DictV(map[]))
      case None => None
      case Some(author) =>
        match Field(author, "display_name", StrV(""))
        case None => None
        case Some(name) => Some(ns + (if Truthy(name) then [name] else []))
  }

  /** The loop over a list of authorships: the truthy author display names, None where a `.get` raises. */
  function AuthorNames(authorships: seq<Value>): (r: Option<seq<Value>>)
    ensures r.Some? ==> |r.value| <= |authorships| && forall v :: v in r.value ==> Truthy(v)
  {
    if authorships == [] then Some([])
    else AuthorStep(AuthorNames(authorships[..|authorships| - 1]), authorships[|authorships| - 1])
  }

  /**
   * `for authorship in paper.get('authorships', [])`: a list is walked; an
   * empty string or dict gives no author; iterating anything else raises, or
   * yields elements (characters, keys) on which `.get` raises.
   */
  function AuthorsOf(authorships: Value): (r: Option<seq<Value>>)
    ensures r.Some? ==> forall v :: v in r.value ==> Truthy(v)
  {
    match authorships
    case ListV(items) => AuthorNames(items)
    case StrV(s) => if s == [] then Some([]) else None
    case DictV(m) => if m == map[] then Some([]) else None
    case _ => None
  }

  /** `publication_year` when truthy, else the year before the first dash of `publication_date`, else 'Unknown'. */
  function WorkYear(fields: PaperDict): Value
  {
    var year := Get(fields, "publication_year", NoneV);
    if Truthy(year) then year
    else
      var date := Get(fields, "publication_date", StrV(""));
      if Truthy(date) && date.StrV? then YearOfDate(date.s) else StrV("Unknown")
  }

  /** Every word of the index at each of its positions, as (position, word), in the order the loops visit them. */
  function Occurrences(index: seq<(string, seq<int>)>): seq<(int, string)>
  {
    if index == [] then []
    else
      var n := |index| - 1;
      Occurrences(index[..n]) + Placed(index[n].0, index[n].1)
  }

  function Placed(word: string, positions: seq<int>): seq<(int, string)>
  {
    if positions == [] then []
    else Placed(word, positions[..|positions| - 1]) + [(positions[|positions| - 1], word)]
  }

  /** `sort(key=lambda x: x[0])`: ascending position, as the stable descending sort of the negated position. */
  function PositionKey(): ((int, string)) -> Key
  {
    (x: (int, string)) => NumKey(-(x.0 as real))
  }

  function WordOf(): ((int, string)) -> string
  {
    (x: (int, string)) => x.1
  }

  const AbstractLimit: nat := 1000
  const Ellipsis: string := "..."

  /** `abstract[:1000] + "..."` for an abstract longer than 1000 characters. */
  function Truncated(a: string): (r: string)
    ensures |r| <= AbstractLimit + |Ellipsis|
    ensures |a| <= AbstractLimit ==> r == a
    ensures |a| > AbstractLimit ==> StartsWith(r, a[..AbstractLimit]) && EndsWith(r, Ellipsis)
  {
    if |a| > AbstractLimit then a[..AbstractLimit] + Ellipsis else a
  }

  /** The abstract rebuilt from the inverted index: the words by position, space-joined, then truncated. */
  function Abstract(index: seq<(string, seq<int>)>): string
  {
    if index == [] then ""
    else Truncated(Join(" ", Map(SortDesc(Occurrences(index), PositionKey()), WordOf())))
  }

  /** `primary_location.source.display_name`, '' where a level is missing or falsy, None where a `.get` raises. */
  function Venue(location: Value): Option<Value>
  {
    if !Truthy(location) then Some(StrV(""))
    else
      match Field(location, "source", DictV(map[]))
      case None => None
      case Some(source) => if Truthy(source) then Field(source, "display_name", StrV("")) else Some(StrV(""))
  }

  /** `not title or title.lower() == 'unknown'`, where `.lower()` raises on a title that is not a string. */
  predicate TitleDropped(title: Value)
  {
    !Truthy(title) || !title.StrV? || Lower(title.s) == "unknown"
  }

  /** `doi if doi else paper.get('id', '')`. */
  function UrlOf(fields: PaperDict): Value
  {
    var doi := Get(fields, "doi", StrV(""));
    if Truthy(doi) then doi else Get(fields, "id", StrV(""))
  }

  /** The standardised dict of a work whose title, authorships, location and open-access entry were usable. */
  function Build(fields: PaperDict, title: string, authors: seq<Value>, abstractText: string, venue: Value,
                 access: map<string, Value>): Paper
  {
    Paper(title, authors, WorkYear(fields), abstractText, UrlOf(fields),
          Get(fields, "cited_by_count", IntV(0)), venue, Get(fields, "doi", StrV("")),
          Get(fields, "type", StrV("journal-article")), Get(fields, "id", StrV("")),
          Get(access, "is_oa", BoolV(false)), Get(access, "oa_url", StrV("")),
          Get(fields, "publication_date", StrV("")))
  }

  /** The body of the standardisation loop for one result: the paper, or None where it `continue`s or raises. */
  function Standardized(w: Work): Option<Paper>
  {
    match w
    case NotAnObject => None
    case Work(fields, index) =>
      var title := Get(fields, "display_name", StrV("No title available"));
      var authors := AuthorsOf(Get(fields, "authorships", ListV([])));
      var venue := Venue(Get(fields, "primary_location", DictV(map[])));
      var access := Get(fields, "open_access", DictV(map[]));
      if TitleDropped(title) || authors.None? || venue.None? || !access.DictV? then None
      else Some(Build(fields, title.s, authors.value, Abstract(index), venue.value, access.fields))
  }

  /** A record is dropped when its title is missing-but-falsy, empty, or 'unknown' in any case. */
  lemma StandardizedDropsTitle(w: Work)
    requires w.Work? && "display_name" in w.fields && TitleDropped(w.fields["display_name"])
    ensures Standardized(w).None?
  {
  }

  /** A kept record's title is a string other than 'unknown', and every author it lists is truthy. */
  lemma StandardizedTitle(w: Work)
    requires Standardized(w).Some?
    ensures w.Work? && var p := Standardized(w).value;
      p.title != [] && Lower(p.title) != "unknown" && forall a :: a in p.authors ==> Truthy(a)
  {
    var title := Get(w.fields, "display_name", StrV("No title available"));
    var authors := AuthorsOf(Get(w.fields, "authorships", ListV([])));
    assert !TitleDropped(title) && authors.Some?;
    assert Standardized(w).value.title == title.s;
    assert Standardized(w).value.authors == authors.value;
  }

  /** The url is the DOI when there is one, the OpenAlex id otherwise; the citation count defaults to 0. */
  lemma StandardizedUrl(w: Work)
    requires Standardized(w).Some?
    ensures w.Work? && var p := Standardized(w).value; var f := w.fields;
      (Truthy(Get(f, "doi", StrV(""))) ==> p.url == Get(f, "doi", StrV("")) && p.doi == p.url) &&
      (!Truthy(Get(f, "doi", StrV(""))) ==> p.url == Get(f, "id", StrV(""))) &&
      p.citations == Get(f, "cited_by_count", IntV(0))
  {
    StandardizedBuilds(w);
  }

  /** A kept work's paper is the one Build makes of its fields. */
  lemma StandardizedBuilds(w: Work)
    requires Standardized(w).Some?
    ensures w.Work? && exists title, authors, abstractText, venue, access ::
      Standardized(w).value == Build(w.fields, title, authors, abstractText, venue, access)
  {
    var f := w.fields;
    var title := Get(f, "display_name", StrV("No title available"));
    var authors := AuthorsOf(Get(f, "authorships", ListV([])));
    var venue := Venue(Get(f, "primary_location", DictV(map[])));
    var access := Get(f, "open_access", DictV(map[]));
    assert Standardized(w).value == Build(f, title.s, authors.value, Abstract(w.invertedIndex), venue.value, access.fields);
  }

  /** The year is `publication_year` when truthy, otherwise an int read from the date or 'Unknown'; the abstract is at most 1003 characters. */
  lemma StandardizedYear(w: Work)
    requires Standardized(w).Some?
    ensures w.Work? && var p := Standardized(w).value; var f := w.fields;
      (Truthy(Get(f, "publication_year", NoneV)) ==> p.year == f["publication_year"]) &&
      (!Truthy(Get(f, "publication_year", NoneV)) ==> p.year.IntV? || p.year == StrV("Unknown")) &&
      |p.abstractText| <= AbstractLimit + |Ellipsis|
  {
  }

  /** A work without a display_name is kept under the title 'No title available' as far as the title goes. */
  lemma MissingTitleDefault(w: Work)
    requires w.Work? && "display_name" !in w.fields && Standardized(w).Some?
    ensures Standardized(w).value.title == "No title available"
  {
  }

  /** Each word of the inverted index occurs at exactly its listed positions. */
  lemma {:induction false} OccurrencesMembers(index: seq<(string, seq<int>)>)
    ensures forall pos, word :: (pos, word) in Occurrences(index) <==>
      exists k :: 0 <= k < |index| && index[k].0 == word && pos in index[k].1
    decreases |index|
  {
    if index != [] {
      var n := |index| - 1;
      OccurrencesMembers(index[..n]);
      PlacedMembers(index[n].0, index[n].1);
      forall pos, word
        ensures (pos, word) in Occurrences(index) <==>
          exists k :: 0 <= k < |index| && index[k].0 == word && pos in index[k].1
      {
        if (pos, word) in Occurrences(index[..n]) {
          var k :| 0 <= k < n && index[..n][k].0 == word && pos in index[..n][k].1;
          assert index[k] == index[..n][k];
        }
        if exists k :: 0 <= k < |index| && index[k].0 == word && pos in index[k].1 {
          var k :| 0 <= k < |index| && index[k].0 == word && pos in index[k].1;
          if k < n {
            assert index[..n][k] == index[k];
          }
        }
      }
    }
  }

  lemma {:induction false} PlacedMembers(word: string, positions: seq<int>)
    ensures forall pos, w :: (pos, w) in Placed(word, positions) <==> w == word && pos in positions
    decreases |positions|
  {
    if positions != [] {
      var n := |positions| - 1;
      PlacedMembers(word, positions[..n]);
      assert positions == positions[..n] + [positions[n]];
    }
  }

  /**
   * The words are laid out by ascending position, every (position, word) of
   * the index exactly once, and words sharing a position keep the order in
   * which the index lists them.
   */
  lemma AbstractOrder(index: seq<(string, seq<int>)>)
    ensures var s := SortDesc(Occurrences(index), PositionKey());
      multiset(s) == multiset(Occurrences(index)) &&
      (forall i, j :: 0 <= i < j < |s| ==> s[i].0 <= s[j].0) &&
      (forall k :: KeyClass(s, PositionKey(), k) == KeyClass(Occurrences(index), PositionKey(), k))
  {
    var occ := Occurrences(index);
    var s := SortDesc(occ, PositionKey());
    SortDescMultiset(occ, PositionKey());
    SortDescSorted(occ, PositionKey());
    forall i, j | 0 <= i < j < |s|
      ensures s[i].0 <= s[j].0
    {
      assert KeyGe(PositionKey()(s[i]), PositionKey()(s[j]));
    }
    forall k
      ensures KeyClass(s, PositionKey(), k) == KeyClass(occ, PositionKey(), k)
    {
      SortDescStable(occ, PositionKey(), k);
    }
  }

  /** The authorships loop of one result. */
  method CollectAuthors(authorships: Value) returns (r: Option<seq<Value>>)
    ensures r == AuthorsOf(authorships)
  {
    if !authorships.ListV? {
      return AuthorsOf(authorships);
    }
    var items := authorships.items;
    var names: seq<Value> := [];
    for i := 0 to |items|
      invariant AuthorNames(items[..i]) == Some(names)
    {
      assert items[..i + 1][..i] == items[..i];
      assert AuthorNames(items[..i + 1]) == AuthorStep(Some(names), items[i]);
      var author := Field(items[i], "author", DictV(map[]));
      if author.None? {
        ErrorSticks(items, i + 1);
        return None;
      }
      var name := Field(author.value, "display_name", StrV(""));
      if name.None? {
        ErrorSticks(items, i + 1);
        return None;
      }
      assert AuthorStep(Some(names), items[i]) == Some(names + (if Truthy(name.value) then [name.value] else []));
      if Truthy(name.value) {
        names := names + [name.value];
      } else {
        assert names + [] == names;
      }
    }
    assert items[..|items|] == items;
    return Some(names);
  }

  /** Once a `.get` has raised, the rest of the authorships do not matter. */
  lemma {:induction false} ErrorSticks(items: seq<Value>, i: nat)
    requires i <= |items| && AuthorNames(items[..i]).None?
    ensures AuthorNames(items).None?
    decreases |items| - i
  {
    if i < |items| {
      assert items[..i + 1][..i] == items[..i];
      ErrorSticks(items, i + 1);
    } else {
      assert items[..i] == items;
    }
  }

  /** The two loops that lay out the inverted index, the sort by position, the join and the truncation. */
  method RebuildAbstract(index: seq<(string, seq<int>)>) returns (abstractText: string)
    ensures abstractText == Abstract(index)
  {
    if index == [] {
      return "";
    }
    var pairs: seq<(int, string)> := [];
    for i := 0 to |index|
      invariant pairs == Occurrences(index[..i])
    {
      assert index[..i + 1][..i] == index[..i];
      var (word, positions) := index[i];
      for j := 0 to |positions|
        invariant pairs == Occurrences(index[..i]) + Placed(word, positions[..j])
      {
        assert positions[..j + 1][..j] == positions[..j];
        pairs := pairs + [(positions[j], word)];
      }
      assert positions[..|positions|] == positions;
    }
    assert index[..|index|] == index;
    var sorted := SortDesc(pairs, PositionKey());
    abstractText := Truncated(Join(" ", Map(sorted, WordOf())));
  }

  /** The body of the standardisation loop. */
  method StandardizeWork(w: Work) returns (r: Option<Paper>)
    ensures r == Standardized(w)
  {
    if w.NotAnObject? {
      return None;
    }
    var fields := w.fields;
    var title := Get(fields, "display_name", StrV("No title available"));
    if TitleDropped(title) {
      return None;
    }
    var authors := CollectAuthors(Get(fields, "authorships", ListV([])));
    if authors.None? {
      return None;
    }
    var abstractText := RebuildAbstract(w.invertedIndex);
    var venue := Venue(Get(fields, "primary_location", DictV(map[])));
    if venue.None? {
      return None;
    }
    var access := Get(fields, "open_access", DictV(map[]));
    if !access.DictV? {
      return None;
    }
    return Some(Build(fields, title.s, authors.value, abstractText, venue.value, access.fields));
  }

  /** _standardize_papers: the accumulator loop over the results. */
  method StandardizePapers(works: seq<Work>) returns (standardized: seq<Paper>)
    ensures standardized == FilterMap(works, Standardized)
  {
    standardized := [];
    for i := 0 to |works|
      invariant standardized == FilterMap(works[..i], Standardized)
    {
      FilterMapStep(works, i, Standardized);
      var paper := StandardizeWork(works[i]);
      if paper.Some? {
        standardized := standardized + [paper.value];
      }
    }
    assert works[..|works|] == works;
  }

  // ---------------------------------------------------------------- the quality filter

  /** `query.lower().split() if query else []`. */
  function QueryWords(query: string): seq<string>
  {
    Split(Lower(query))
  }

  /** A word of more than two characters; shorter words score nothing. */
  predicate Long(w: string)
  {
    |w| > 2
  }

  /** The points one query word earns: 5 for a whole-word match in the title (3 inside a word), 2 or 1 in the abstract. */
  function WordPoints(w: string, title: string, abstractText: string): (r: nat)
    ensures r <= 7
    ensures !Long(w) ==> r == 0
  {
    if !Long(w) then 0
    else
      (if Contains(" " + title + " ", " " + w + " ") || StartsWith(title, w) || EndsWith(title, w) then 5
       else if Contains(title, w) then 3 else 0) +
      (if Contains(" " + abstractText + " ", " " + w + " ") && abstractText != [] then 2
       else if Contains(abstractText, w) && abstractText != [] then 1 else 0)
  }

  /** The relevance accumulated over the query words. */
  function Points(words: seq<string>, title: string, abstractText: string): (r: nat)
    ensures r <= 7 * |words|
  {
    if words == [] then 0
    else Points(words[..|words| - 1], title, abstractText) + WordPoints(words[|words| - 1], title, abstractText)
  }

  /** Whether a long query word appears in the title or the abstract. */
  function FoundIn(title: string, abstractText: string): string -> bool
  {
    w => Long(w) && (Contains(title, w) || Contains(abstractText, w))
  }

  function IsLong(): string -> bool
  {
    w => Long(w)
  }

  /** `words_found == len([w for w in query_words if len(w) > 2])`. */
  predicate AllFound(words: seq<string>, title: string, abstractText: string)
  {
    |Filter(words, FoundIn(title, abstractText))| == |Filter(words, IsLong())|
  }

  const AllWordsBonus: nat := 3

  /** relevance_score: the points of every word, plus 3 when a query of several words is found in full. */
  function Relevance(words: seq<string>, title: string, abstractText: string): nat
  {
    Points(words, title, abstractText) + (if |words| > 1 && AllFound(words, title, abstractText) then AllWordsBonus else 0)
  }

  /** A single word of at most four characters needs 3, a query of at most two words needs 2. */
  predicate MeetsThreshold(words: seq<string>, relevance: int)
  {
    if |words| == 1 && |words[0]| <= 4 then relevance >= 3
    else if |words| <= 2 then relevance >= 2
    else true
  }

  /** 3, 2 or 1 for an int citation count of at least 100, 50 or 10. */
  function CitationBonus(citations: Value): (r: nat)
    ensures r <= 3
    ensures !citations.IntV? ==> r == 0
  {
    if citations.IntV? && citations.i > 0 then
      if citations.i >= 100 then 3 else if citations.i >= 50 then 2 else if citations.i >= 10 then 1 else 0
    else 0
  }

  /** The quality score: relevance plus DOI, abstract, citation, recency and open-access bonuses. */
  function Quality(p: Paper, relevance: int): (r: int)
    ensures relevance <= r <= relevance + 9
  {
    relevance +
    (if Truthy(p.doi) then 2 else 0) +
    (if Strip(p.abstractText) != [] && |p.abstractText| > 30 then 2 else 0) +
    CitationBonus(p.citations) +
    (if p.year.IntV? && p.year.i >= 2014 then 1 else 0) +
    (if Truthy(p.isOa) then 1 else 0)
  }

  const MinTitleLength: nat := 10

  /** The body of the filter loop: the paper's quality score, or None where it `continue`s. */
  function Assessed(words: seq<string>, p: Paper): Option<int>
  {
    var title := Strip(p.title);
    if |title| < MinTitleLength || p.authors == [] || (!Truthy(p.url) && !Truthy(p.doi)) then None
    else
      var relevance := Relevance(words, Lower(title), Lower(p.abstractText));
      if !MeetsThreshold(words, relevance) then None else Some(Quality(p, relevance))
  }

  function Assess(words: seq<string>): Paper -> Option<int>
  {
    p => Assessed(words, p)
  }

  /** _filter_quality_papers. */
  function FilterQuality(papers: seq<Paper>, query: string): seq<Paper>
  {
    Ranked(papers, Assess(QueryWords(query)))
  }

  /** The all-words bonus is earned exactly when every long query word appears in the title or the abstract. */
  lemma AllFoundSpec(words: seq<string>, title: string, abstractText: string)
    ensures AllFound(words, title, abstractText) <==>
      forall i :: 0 <= i < |words| && Long(words[i]) ==> Contains(title, words[i]) || Contains(abstractText, words[i])
  {
    SubFilterCount(words, FoundIn(title, abstractText), IsLong());
  }

  /** For a test `p` that implies `q`, `p` keeps as many as `q` exactly when `p` holds wherever `q` does. */
  lemma {:induction false} SubFilterCount<T>(s: seq<T>, p: T -> bool, q: T -> bool)
    requires forall x :: p(x) ==> q(x)
    ensures |Filter(s, p)| <= |Filter(s, q)|
    ensures |Filter(s, p)| == |Filter(s, q)| <==> forall i :: 0 <= i < |s| && q(s[i]) ==> p(s[i])
    decreases |s|
  {
    if s != [] {
      var n := |s| - 1;
      SubFilterCount(s[..n], p, q);
      assert forall i :: 0 <= i < n ==> s[..n][i] == s[i];
    }
  }

  /**
   * Every paper the filter keeps has a stripped title of at least ten
   * characters, at least one author, a url or a DOI, and the relevance its
   * query needs; each kept paper has the quality score it is sorted by.
   */
  lemma FilterQualityAdmits(papers: seq<Paper>, query: string)
    ensures var words := QueryWords(query);
      forall p :: p in FilterQuality(papers, query) ==>
        p in papers &&
        |Strip(p.title)| >= MinTitleLength && p.authors != [] && (Truthy(p.url) || Truthy(p.doi)) &&
        MeetsThreshold(words, Relevance(words, Lower(Strip(p.title)), Lower(p.abstractText)))
  {
    RankedAdmitted(papers, Assess(QueryWords(query)));
  }

  /**
   * The filter returns the admitted papers, each as often as in the input,
   * by non-increasing quality score, ties in input order.
   */
  lemma FilterQualitySorted(papers: seq<Paper>, query: string)
    ensures var words := QueryWords(query);
      var r := FilterQuality(papers, query);
      multiset(r) == multiset(Filter(papers, Admitted(Assess(words)))) &&
      (forall i :: 0 <= i < |r| ==> Assessed(words, r[i]).Some?) &&
      (forall i, j :: 0 <= i < j < |r| ==> Assessed(words, r[i]).value >= Assessed(words, r[j]).value)
  {
    var words := QueryWords(query);
    RankedSpec(papers, Assess(words));
    var r := FilterQuality(papers, query);
    assert forall i :: 0 <= i < |r| ==> Assess(words)(r[i]) == Assessed(words, r[i]);
  }

  /** A single short query word keeps only papers it matches somewhere: at least 3 points, so at least a partial title match or the word in the abstract. */
  lemma ShortWordNeedsMatch(papers: seq<Paper>, query: string)
    requires var words := QueryWords(query); |words| == 1 && |words[0]| <= 4
    ensures var w := QueryWords(query)[0];
      forall p :: p in FilterQuality(papers, query) ==>
        Long(w) && (Contains(Lower(Strip(p.title)), w) || Contains(Lower(p.abstractText), w))
  {
    var words := QueryWords(query);
    var w := words[0];
    FilterQualityAdmits(papers, query);
    forall p | p in FilterQuality(papers, query)
      ensures Long(w) && (Contains(Lower(Strip(p.title)), w) || Contains(Lower(p.abstractText), w))
    {
      var t, a := Lower(Strip(p.title)), Lower(p.abstractText);
      assert words[..0] == [];
      assert Points(words, t, a) == WordPoints(w, t, a);
      if !Contains(t, w) && !Contains(a, w) {
        NotContainedMatches(t, w);
        NotContainedMatches(a, w);
      }
    }
  }

  /** A word not inside a text is not a whole word of it, nor its start or end. */
  lemma NotContainedMatches(t: string, w: string)
    requires !Contains(t, w)
    ensures !Contains(" " + t + " ", " " + w + " ") && !StartsWith(t, w) && !EndsWith(t, w)
  {
    if Contains(" " + t + " ", " " + w + " ") {
      SpacedContains(t, w);
    }
    if EndsWith(t, w) {
      SuffixContains(t, w);
    }
  }

  lemma {:induction false} SuffixContains(t: string, w: string)
    requires EndsWith(t, w)
    ensures Contains(t, w)
    decreases |t|
  {
    if |t| > |w| {
      assert t[1..][|t[1..]| - |w|..] == t[|t| - |w|..];
      SuffixContains(t[1..], w);
    } else {
      assert t[..|w|] == t;
    }
  }

  lemma {:induction false} SpacedContains(t: string, w: string)
    requires Contains(" " + t + " ", " " + w + " ")
    ensures Contains(t, w)
  {
    var k := ContainsAt(" " + t + " ", " " + w + " ");
    var s := " " + t + " ";
    assert s[k..k + |w| + 2] == " " + w + " ";
    assert |w| <= |t|;
    assert t[k..k + |w|] == w by {
      forall i | 0 <= i < |w|
        ensures t[k + i] == w[i]
      {
        assert s[k + 1 + i] == (" " + w + " ")[1 + i];
      }
    }
    ContainsAtIndex(t, w, k);
  }

  /** A position where `sub` starts inside `s`. */
  lemma {:induction false} ContainsAt(s: string, sub: string) returns (k: nat)
    requires Contains(s, sub)
    ensures k + |sub| <= |s| && s[k..k + |sub|] == sub
    decreases |s|
  {
    if StartsWith(s, sub) {
      k := 0;
    } else {
      var k' := ContainsAt(s[1..], sub);
      k := k' + 1;
      assert s[1..][k'..k' + |sub|] == s[k..k + |sub|];
    }
  }

  lemma {:induction false} ContainsAtIndex(s: string, sub: string, k: nat)
    requires k + |sub| <= |s| && s[k..k + |sub|] == sub
    ensures Contains(s, sub)
    decreases k
  {
    if k > 0 {
      assert s[1..][k - 1..k - 1 + |sub|] == s[k..k + |sub|];
      ContainsAtIndex(s[1..], sub, k - 1);
    } else {
      assert s[..|sub|] == sub;
    }
  }

  /** The relevance of one query word, as the loop adds it up. */
  method RelevanceScore(words: seq<string>, title: string, abstractText: string) returns (score: int)
    ensures score == Relevance(words, title, abstractText)
  {
    score := 0;
    for i := 0 to |words|
      invariant score == Points(words[..i], title, abstractText)
    {
      assert words[..i + 1][..i] == words[..i];
      score := score + WordPoints(words[i], title, abstractText);
    }
    assert words[..|words|] == words;
    if |words| > 1 && AllFound(words, title, abstractText) {
      score := score + AllWordsBonus;
    }
  }

  /** The body of the filter loop. */
  method AssessPaper(words: seq<string>, p: Paper) returns (score: Option<int>)
    ensures score == Assessed(words, p)
  {
    var title := Strip(p.title);
    if |title| < MinTitleLength || p.authors == [] || (!Truthy(p.url) && !Truthy(p.doi)) {
      return None;
    }
    var relevance := RelevanceScore(words, Lower(title), Lower(p.abstractText));
    if !MeetsThreshold(words, relevance) {
      return None;
    }
    return Some(Quality(p, relevance));
  }

  /** _filter_quality_papers: the loop that scores and keeps, then the sort by score. */
  method FilterQualityPapers(papers: seq<Paper>, query: string) returns (r: seq<Paper>)
    ensures r == FilterQuality(papers, query)
  {
    var words := QueryWords(query);
    var kept: seq<Paper> := [];
    for i := 0 to |papers|
      invariant kept == Filter(papers[..i], Admitted(Assess(words)))
    {
      FilterStep(papers, i, Admitted(Assess(words)));
      var score := AssessPaper(words, papers[i]);
      if score.Some? {
        kept := kept + [papers[i]];
      }
    }
    assert papers[..|papers|] == papers;
    r := SortDesc(kept, ScoreOf(Assess(words)));
  }

  // ---------------------------------------------------------------- search

  /** search: [] for an invalid query, for a failed or empty response and for any exception. */
  function Searched(query: string, limit: int, minYear: Option<int>, maxYear: Option<int>,
                    fetch: Params -> Fetched<seq<Work>>): seq<Paper>
  {
    if !ValidQuery(query) then []
    else
      match fetch(SearchParams(query, limit, minYear, maxYear))
      case Fetched(works) =>
        if works == [] then []
        else Slice(FilterQuality(FilterMap(works, Standardized), CleanQuery(query)), limit)
      case _ => []
  }

  method Search(query: string, limit: int, minYear: Option<int>, maxYear: Option<int>,
                fetch: Params -> Fetched<seq<Work>>) returns (r: seq<Paper>)
    ensures r == Searched(query, limit, minYear, maxYear, fetch)
  {
    if !ValidQuery(query) {
      return [];
    }
    var outcome := fetch(SearchParams(query, limit, minYear, maxYear));
    if !outcome.Fetched? || outcome.body == [] {
      return [];
    }
    var standardized := StandardizePapers(outcome.body);
    var quality := FilterQualityPapers(standardized, CleanQuery(query));
    r := Slice(quality, limit);
  }

  /** A query shorter than three characters once stripped gives [] without a request; no more than `limit` papers come back. */
  lemma SearchBounds(query: string, limit: int, minYear: Option<int>, maxYear: Option<int>,
                     fetch: Params -> Fetched<seq<Work>>)
    ensures !ValidQuery(query) ==> Searched(query, limit, minYear, maxYear, fetch) == []
    ensures limit >= 0 ==> |Searched(query, limit, minYear, maxYear, fetch)| <= limit
  {
  }

  /**
   * Every paper of `r` is the standardisation of one of `works` and passes
   * the quality filter of `words`, and they come in non-increasing quality order.
   */
  predicate FromWorks(r: seq<Paper>, works: seq<Work>, words: seq<string>)
  {
    (forall p :: p in r ==> (Assessed(words, p).Some? && exists w :: w in works && Standardized(w) == Some(p))) &&
    (forall i, j :: 0 <= i < j < |r| ==> Assessed(words, r[i]).value >= Assessed(words, r[j]).value)
  }

  /** Nothing comes back without a response; otherwise the papers are filtered, ranked standardisations of the works. */
  lemma SearchSpec(query: string, limit: int, minYear: Option<int>, maxYear: Option<int>,
                   fetch: Params -> Fetched<seq<Work>>)
    ensures var outcome := fetch(SearchParams(query, limit, minYear, maxYear));
      var r := Searched(query, limit, minYear, maxYear, fetch);
      (!outcome.Fetched? ==> r == []) &&
      (outcome.Fetched? ==> FromWorks(r, outcome.body, QueryWords(CleanQuery(query))))
  {
    var outcome := fetch(SearchParams(query, limit, minYear, maxYear));
    if ValidQuery(query) && outcome.Fetched? && outcome.body != [] {
      var works := outcome.body;
      assert Searched(query, limit, minYear, maxYear, fetch) ==
        Slice(FilterQuality(FilterMap(works, Standardized), CleanQuery(query)), limit);
      ResultOfWorks(works, CleanQuery(query), limit);
    }
  }

  lemma ResultOfWorks(works: seq<Work>, query: string, limit: int)
    ensures FromWorks(Slice(FilterQuality(FilterMap(works, Standardized), query), limit), works, QueryWords(query))
  {
    var standardized := FilterMap(works, Standardized);
    var q := FilterQuality(standardized, query);
    var r := Slice(q, limit);
    FilterQualityAdmits(standardized, query);
    FilterQualitySorted(standardized, query);
    FilterMapMembers(works, Standardized);
    forall p | p in r
      ensures Assessed(QueryWords(query), p).Some? && exists w :: w in works && Standardized(w) == Some(p)
    {
      assert p in q;
      var i :| 0 <= i < |works| && Standardized(works[i]) == Some(p);
      assert works[i] in works;
    }
  }
}
