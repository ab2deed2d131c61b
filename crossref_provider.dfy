// ai_scholar/providers/crossref_provider.py: the CrossRef search adapter
// without its HTTP exchange. `_make_request` (polite delay, retries and
// sleeps) is the parameter `fetch`, which gives the `message.items` list of
// a 200 response, or no response, or the error it raised. The current year
// and the HTML-tag regex are parameters as well.

module CrossRefProviders {
  import opened Base
  import opened Text
  import opened Values
  import opened Lists
  import opened SearchCommon

  // ---------------------------------------------------------------- the request

  /** The query parameters of a works search. */
  datatype Params = Params(query: string, rows: int, sort: string, order: string, filter: string)

  const MinQueryLength: nat := 2
  const MaxRows: int := 500
  const JournalArticles: string := "type:journal-article"
  /** Without a max_year, papers of the last twenty years are asked for. */
  const DefaultSpan: int := 20

  /** validate_query: a non-blank query of at least two characters once stripped. */
  predicate ValidQuery(query: string)
  {
    QueryOk(query, MinQueryLength)
  }

  function FromClause(year: int): string
  {
    "from-pub-date:" + IntToString(year)
  }

  function UntilClause(year: int): string
  {
    "until-pub-date:" + IntToString(year)
  }

  /**
   * The `filters` list: journal articles only, a start year for a truthy
   * min_year, and an end year for a truthy max_year or else a start twenty
   * years before the current one.
   */
  function Filters(minYear: Option<int>, maxYear: Option<int>, currentYear: int): seq<string>
  {
    [JournalArticles] +
    (if Given(minYear) then [FromClause(minYear.value)] else []) +
    (if Given(maxYear) then [UntilClause(maxYear.value)] else [FromClause(currentYear - DefaultSpan)])
  }

  function SearchParams(query: string, limit: int, minYear: Option<int>, maxYear: Option<int>, currentYear: int): Params
  {
    Params(Strip(query), Min(limit * 2, MaxRows), "is-referenced-by-count", "desc",
           Join(",", Filters(minYear, maxYear, currentYear)))
  }

  /**
   * Twice the limit is requested, never more than 500 rows, most-cited
   * first. The filter always starts with the journal-article clause, and the
   * twenty-year default start is added whenever max_year is absent, even
   * when min_year is given.
   */
  lemma SearchParamsSpec(query: string, limit: int, minYear: Option<int>, maxYear: Option<int>, currentYear: int)
    ensures var p := SearchParams(query, limit, minYear, maxYear, currentYear);
      p.rows <= MaxRows && p.rows <= 2 * limit && (p.rows == MaxRows || p.rows == 2 * limit) &&
      p.query == Strip(query) && StartsWith(p.filter, JournalArticles)
    ensures var f := SearchParams(query, limit, minYear, maxYear, currentYear).filter;
      var tail := if Given(maxYear) then UntilClause(maxYear.value) else FromClause(currentYear - DefaultSpan);
      (Given(minYear) ==> f == JournalArticles + "," + (FromClause(minYear.value) + "," + tail)) &&
      (!Given(minYear) ==> f == JournalArticles + "," + tail)
  {
    var tail := if Given(maxYear) then UntilClause(maxYear.value) else FromClause(currentYear - DefaultSpan);
    var fs := Filters(minYear, maxYear, currentYear);
    if Given(minYear) {
      var a := FromClause(minYear.value);
      assert fs == [JournalArticles, a, tail];
      assert fs[1..] == [a, tail];
      assert Join(",", [a, tail]) == a + "," + Join(",", [tail]);
      assert Join(",", fs) == JournalArticles + "," + Join(",", [a, tail]);
    } else {
      assert fs == [JournalArticles, tail];
      assert fs[1..] == [tail];
      assert Join(",", fs) == JournalArticles + "," + Join(",", [tail]);
    }
    assert StartsWith(Join(",", fs), JournalArticles);
  }

  // ---------------------------------------------------------------- standardisation

  /** A standardised paper; `source` is always 'crossref' and `provider` 'CrossRef'. */
  datatype Paper = Paper(title: Value, authors: string, year: Value, abstractText: Value, url: Value,
                         citations: Value, venue: Value, doi: Value, publisher: Value, workType: Value,
                         createdDate: Value, indexedDate: Value)

  /** One turn of the author loop: "given family" when both are truthy, else a truthy family; None once `.get` raises. */
  function AuthorStep(names: Option<seq<Value>>, author: Value): Option<seq<Value>>
  {
    match names
    case None => None
    case Some(ns) =>
      if !author.DictV? then None
      else
        var given := Get(author.fields, "given", StrV(""));
        var family := Get(author.fields, "family", StrV(""));
        if Truthy(given) && Truthy(family) then Some(ns + [StrV(PyStr(given) + " " + PyStr(family))])
        else if Truthy(family) then Some(ns + [family])
        else Some(ns)
  }

  /** The author loop over a list: the rendered names, None where `.get` raises. */
  function AuthorNames(authors: seq<Value>): (r: Option<seq<Value>>)
    ensures r.Some? ==> |r.value| <= |authors| && forall v :: v in r.value ==> Truthy(v)
  {
    if authors == [] then Some([])
    else AuthorStep(AuthorNames(authors[..|authors| - 1]), authors[|authors| - 1])
  }

  /** `for author in paper.get('author', [])`: a list is walked, an empty string or dict gives no author, anything else raises. */
  function AuthorsOf(authors: Value): (r: Option<seq<Value>>)
    ensures r.Some? ==> forall v :: v in r.value ==> Truthy(v)
  {
    match authors
    case ListV(items) => AuthorNames(items)
    case StrV(s) => if s == [] then Some([]) else None
    case DictV(m) => if m == map[] then Some([]) else None
    case _ => None
  }

  /** An author whose family name is truthy: exactly the authors the loop renders. */
  predicate HasFamily(author: Value)
  {
    author.DictV? && Truthy(Get(author.fields, "family", StrV("")))
  }

  /**
   * The year of `published-print or published-online`: the first element of
   * the first `date-parts` entry. A missing, empty or unindexable part gives
   * 'Unknown'; a KeyError or a `in` test on a number drops the record (None).
   */
  function PubYear(pubDate: Value): Option<Value>
  {
    if !Truthy(pubDate) then Some(StrV("Unknown"))
    else
      match pubDate
      case DictV(m) => if "date-parts" in m then DatePartsYear(m["date-parts"]) else Some(StrV("Unknown"))
      // `'date-parts' in` a list or string is a test; indexing either by a string is a caught TypeError
      case ListV(_) => Some(StrV("Unknown"))
      case StrV(_) => Some(StrV("Unknown"))
      case _ => None
  }

  /** `year_parts = date_parts[0]` and then `year_parts[0]` when truthy, inside the IndexError/TypeError guard. */
  function DatePartsYear(dateParts: Value): Option<Value>
  {
    match Head(dateParts)
    case KeyError => None
    case IndexOrTypeError => Some(StrV("Unknown"))
    case Item(parts) =>
      if !Truthy(parts) then Some(StrV("Unknown"))
      else
        match Head(parts)
        case KeyError => None
        case IndexOrTypeError => Some(StrV("Unknown"))
        case Item(y) => Some(y)
  }

  /** `paper.get('published-print') or paper.get('published-online')`. */
  function PubDate(fields: PaperDict): Value
  {
    Or(Get(fields, "published-print", NoneV), Get(fields, "published-online", NoneV))
  }

  const DoiPrefix: string := "https://doi.org/"

  /** `f"https://doi.org/{doi}" if doi else paper.get('URL', '')`. */
  function UrlOf(fields: PaperDict): Value
  {
    var doi := Get(fields, "DOI", StrV(""));
    if Truthy(doi) then StrV(DoiPrefix + PyStr(doi)) else Get(fields, "URL", StrV(""))
  }

  /**
   * The citation normalisation: None and anything equal to 0 give 0, an int
   * (bools are ints) is kept, anything else goes through int(), 0 where that
   * raises. The result is always an int.
   */
  function CitationCount(v: Value): (r: Value)
    ensures r.IntV? || r == BoolV(true)
    ensures v.IntV? ==> r == v
    ensures v.NoneV? ==> r == IntV(0)
    ensures !v.IntV? && !v.BoolV? && PyInt(v).None? ==> r == IntV(0)
    ensures v.StrV? && ParseInt(v.s).Some? ==> r == IntV(ParseInt(v.s).value)
  {
    if v.NoneV? || PyEq(v, IntV(0)) then IntV(0)
    else if v.IntV? || v.BoolV? then v
    else
      match PyInt(v)
      case Some(n) => IntV(n)
      case None => IntV(0)
  }

  /** The two entity replacements. */
  function Unescaped(s: string): string
  {
    ReplaceAll(ReplaceAll(s, "&nbsp;", " "), "&amp;", "&")
  }

  /** `' '.join(s.split())`. */
  function Normalized(s: string): string
  {
    Join(" ", Split(s))
  }

  /**
   * The abstract: a falsy value is kept as it is; a string has its tags
   * removed (`stripTags` is `re.sub('<[^<]+?>', '', …)`), its two entities
   * replaced and its whitespace normalised; re.sub raises on anything else.
   */
  function CleanAbstract(v: Value, stripTags: string -> string): (r: Option<Value>)
    ensures !Truthy(v) ==> r == Some(v)
    ensures r.Some? && Truthy(v) ==> r.value.StrV? && Tidy(r.value.s)
  {
    if !Truthy(v) then Some(v)
    else if v.StrV? then
      NormalizedTidy(Unescaped(stripTags(v.s)));
      Some(StrV(Normalized(Unescaped(stripTags(v.s)))))
    else None
  }

  /** Whitespace-normalised text: only single spaces, none at either end. */
  predicate Tidy(t: string)
  {
    (t == [] || (!IsSpace(t[0]) && !IsSpace(t[|t| - 1]))) &&
    (forall i :: 0 <= i < |t| && IsSpace(t[i]) ==> t[i] == ' ') &&
    (forall i :: 0 <= i < |t| - 1 ==> !IsSpace(t[i]) || !IsSpace(t[i + 1]))
  }

  /** The standardised dict of a record whose title, authors, year, abstract and venue were usable. */
  function Build(fields: PaperDict, title: Value, authors: string, year: Value, abstractText: Value,
                 venue: Value, created: Value, indexed: Value): Paper
  {
    Paper(title, authors, year, abstractText, UrlOf(fields),
          CitationCount(Get(fields, "is-referenced-by-count", IntV(0))), venue,
          Get(fields, "DOI", StrV("")), Get(fields, "publisher", StrV("")), Get(fields, "type", StrV("")),
          created, indexed)
  }

  /** The authors string of a record, None where the loop or the join raises. */
  function RecordAuthors(fields: PaperDict): Option<string>
  {
    match AuthorsOf(Get(fields, "author", ListV([])))
    case None => None
    case Some(names) => JoinedNames(names)
  }

  /** The body of the standardisation loop for one item: the paper, or None where it raises and the loop continues. */
  function Standardized(item: Value, stripTags: string -> string): Option<Paper>
  {
    if !item.DictV? then None
    else
      var fields := item.fields;
      var title := FirstOr(Get(fields, "title", ListV([])), StrV("No title"));
      var authors := RecordAuthors(fields);
      var year := PubYear(PubDate(fields));
      var abstractText := CleanAbstract(Get(fields, "abstract", StrV("")), stripTags);
      var venue := FirstOr(Get(fields, "container-title", ListV([])), StrV(""));
      var created := Field(Get(fields, "created", DictV(map[])), "date-time", StrV(""));
      var indexed := Field(Get(fields, "indexed", DictV(map[])), "date-time", StrV(""));
      if title.None? || authors.None? || year.None? || abstractText.None? || venue.None? ||
         created.None? || indexed.None? then None
      else Some(Build(fields, title.value, authors.value, year.value, abstractText.value, venue.value,
                      created.value, indexed.value))
  }

  function StandardizedWith(stripTags: string -> string): Value -> Option<Paper>
  {
    x => Standardized(x, stripTags)
  }

  /** The title is the first element of a non-empty title list, and 'No title' when the list is missing or empty. */
  lemma StandardizedTitle(item: Value, stripTags: string -> string)
    requires item.DictV? && Standardized(item, stripTags).Some?
    ensures var t := Get(item.fields, "title", ListV([]));
      var p := Standardized(item, stripTags).value;
      (t.ListV? && t.items != [] ==> p.title == t.items[0]) &&
      (!Truthy(t) ==> p.title == StrV("No title"))
  {
  }

  /** A record with a DOI links to doi.org; without one, its own URL entry is kept. */
  lemma StandardizedUrl(item: Value, stripTags: string -> string)
    requires item.DictV? && Standardized(item, stripTags).Some?
    ensures var p := Standardized(item, stripTags).value;
      (Truthy(p.doi) ==> (p.url.StrV? && StartsWith(p.url.s, DoiPrefix) &&
         (p.doi.StrV? ==> p.url.s == DoiPrefix + p.doi.s))) &&
      (!Truthy(p.doi) ==> p.url == Get(item.fields, "URL", StrV("")))
  {
    var p := Standardized(item, stripTags).value;
    if Truthy(p.doi) {
      assert p.url == StrV(DoiPrefix + PyStr(p.doi));
      assert (DoiPrefix + PyStr(p.doi))[..|DoiPrefix|] == DoiPrefix;
    }
  }

  /**
   * The authors string is never empty: it is 'Unknown' exactly when no author
   * has a truthy family name, and the citation count is an int, never 'N/A'.
   */
  lemma StandardizedAuthorsAndCitations(item: Value, stripTags: string -> string)
    requires item.DictV? && Standardized(item, stripTags).Some?
    ensures var p := Standardized(item, stripTags).value;
      p.authors != [] && (p.citations.IntV? || p.citations == BoolV(true))
    ensures var p := Standardized(item, stripTags).value;
      var a := Get(item.fields, "author", ListV([]));
      a.ListV? ==> (p.authors == "Unknown" <== forall i :: 0 <= i < |a.items| ==> !HasFamily(a.items[i]))
  {
    var fields := item.fields;
    var names := AuthorsOf(Get(fields, "author", ListV([]))).value;
    var a := Get(fields, "author", ListV([]));
    JoinedNamesNonEmpty(names);
    if a.ListV? {
      NoFamilyNoNames(a.items);
    }
  }

  /** The author loop renders a name for an author exactly when it has a truthy family name. */
  lemma {:induction false} NoFamilyNoNames(authors: seq<Value>)
    ensures AuthorNames(authors).Some? ==>
      (AuthorNames(authors).value == [] <==> forall i :: 0 <= i < |authors| ==> !HasFamily(authors[i]))
    decreases |authors|
  {
    if authors != [] {
      var n := |authors| - 1;
      NoFamilyNoNames(authors[..n]);
      if AuthorNames(authors).Some? {
        assert AuthorNames(authors[..n]).Some?;
        var a := authors[n];
        if forall i :: 0 <= i < |authors| ==> !HasFamily(authors[i]) {
          assert !HasFamily(a);
          assert forall i :: 0 <= i < n ==> authors[..n][i] == authors[i];
        } else if AuthorNames(authors[..n]).value == [] {
          assert forall i :: 0 <= i < n ==> authors[..n][i] == authors[i];
          assert HasFamily(a);
        }
      }
    }
  }

  /** A date-parts list whose first entry starts with a year gives that year. */
  lemma PubYearOfDateParts(m: map<string, Value>, y: Value, rest: seq<Value>, more: seq<Value>)
    requires "date-parts" in m && m["date-parts"] == ListV([ListV([y] + rest)] + more)
    ensures PubYear(DictV(m)) == Some(y)
  {
    assert Truthy(DictV(m));
  }

  /** `' '.join(s.split())` is whitespace-normalised. */
  lemma NormalizedTidy(s: string)
    ensures Tidy(Normalized(s))
  {
    JoinWordsTidy(Split(s));
  }

  lemma {:induction false} JoinWordsTidy(words: seq<string>)
    requires forall w :: w in words ==> w != [] && forall i :: 0 <= i < |w| ==> !IsSpace(w[i])
    ensures Tidy(Join(" ", words)) && (words != [] ==> Join(" ", words) != [])
    decreases |words|
  {
    if |words| > 1 {
      assert forall v :: v in words[1..] ==> v in words;
      JoinWordsTidy(words[1..]);
      assert words[0] in words;
      TidyJoin(words[0], Join(" ", words[1..]));
    } else if |words| == 1 {
      assert words[0] in words;
    }
  }

  /** A word, a space and tidy non-empty text make tidy text. */
  lemma TidyJoin(w: string, rest: string)
    requires w != [] && forall i :: 0 <= i < |w| ==> !IsSpace(w[i])
    requires rest != [] && Tidy(rest)
    ensures Tidy(w + " " + rest)
  {
    var t := w + " " + rest;
    assert forall i :: 0 <= i < |w| ==> t[i] == w[i];
    assert t[|w|] == ' ';
    assert forall i :: |w| < i < |t| ==> t[i] == rest[i - |w| - 1];
  }

  // ---------------------------------------------------------------- the standardisation loops

  /** The author loop of one record. */
  method CollectAuthors(authors: Value) returns (r: Option<seq<Value>>)
    ensures r == AuthorsOf(authors)
  {
    if !authors.ListV? {
      return AuthorsOf(authors);
    }
    var items := authors.items;
    var names: seq<Value> := [];
    for i := 0 to |items|
      invariant AuthorNames(items[..i]) == Some(names)
    {
      assert items[..i + 1][..i] == items[..i];
      assert AuthorNames(items[..i + 1]) == AuthorStep(Some(names), items[i]);
      var author := items[i];
      if !author.DictV? {
        AuthorErrorSticks(items, i + 1);
        return None;
      }
      var given := Get(author.fields, "given", StrV(""));
      var family := Get(author.fields, "family", StrV(""));
      if Truthy(given) && Truthy(family) {
        names := names + [StrV(PyStr(given) + " " + PyStr(family))];
      } else if Truthy(family) {
        names := names + [family];
      }
    }
    assert items[..|items|] == items;
    return Some(names);
  }

  /** Once an author raises, the rest of the list does not matter. */
  lemma {:induction false} AuthorErrorSticks(items: seq<Value>, i: nat)
    requires i <= |items| && AuthorNames(items[..i]).None?
    ensures AuthorNames(items).None?
    decreases |items| - i
  {
    if i < |items| {
      assert items[..i + 1][..i] == items[..i];
      AuthorErrorSticks(items, i + 1);
    } else {
      assert items[..i] == items;
    }
  }

  /** The body of the standardisation loop. */
  method StandardizeRecord(item: Value, stripTags: string -> string) returns (r: Option<Paper>)
    ensures r == Standardized(item, stripTags)
  {
    if !item.DictV? {
      return None;
    }
    var fields := item.fields;
    var title := FirstOr(Get(fields, "title", ListV([])), StrV("No title"));
    var names := CollectAuthors(Get(fields, "author", ListV([])));
    if title.None? || names.None? {
      return None;
    }
    var authors := JoinedNames(names.value);
    var year := PubYear(PubDate(fields));
    var abstractText := CleanAbstract(Get(fields, "abstract", StrV("")), stripTags);
    var venue := FirstOr(Get(fields, "container-title", ListV([])), StrV(""));
    var created := Field(Get(fields, "created", DictV(map[])), "date-time", StrV(""));
    var indexed := Field(Get(fields, "indexed", DictV(map[])), "date-time", StrV(""));
    if authors.None? || year.None? || abstractText.None? || venue.None? || created.None? || indexed.None? {
      return None;
    }
    return Some(Build(fields, title.value, authors.value, year.value, abstractText.value, venue.value,
                      created.value, indexed.value));
  }

  /** _standardize_papers: the accumulator loop over the items; a record that raises is skipped. */
  method StandardizePapers(items: seq<Value>, stripTags: string -> string) returns (standardized: seq<Paper>)
    ensures standardized == FilterMap(items, StandardizedWith(stripTags))
  {
    standardized := [];
    for i := 0 to |items|
      invariant standardized == FilterMap(items[..i], StandardizedWith(stripTags))
    {
      FilterMapStep(items, i, StandardizedWith(stripTags));
      var paper := StandardizeRecord(items[i], stripTags);
      if paper.Some? {
        standardized := standardized + [paper.value];
      }
    }
    assert items[..|items|] == items;
  }

  // ---------------------------------------------------------------- generic titles

  const GenericPatterns: seq<string> := [
    "machine learning", "artificial intelligence", "deep learning", "neural networks", "data mining",
    "introduction to", "overview of", "survey of", "review of"
  ]

  /** `pattern in title_clean and len(title_clean.replace(pattern, '').strip()) < 5`. */
  predicate Vague(clean: string, pattern: string)
  {
    pattern != [] && Contains(clean, pattern) && |Strip(ReplaceAll(clean, pattern, ""))| < 5
  }

  /** The loop over the patterns: some pattern satisfies `matches`. */
  predicate AnyMatch(patterns: seq<string>, matches: string -> bool)
  {
    patterns != [] && (matches(patterns[0]) || AnyMatch(patterns[1..], matches))
  }

  /** _is_generic_title: the stripped, lowercased title is a pattern, or has at most three words and is vague. */
  predicate IsGenericTitle(title: string)
  {
    var clean := Strip(Lower(title));
    clean in GenericPatterns || (|Split(clean)| <= 3 && AnyMatch(GenericPatterns, (p: string) => Vague(clean, p)))
  }

  lemma {:induction false} AnyMatchSpec(patterns: seq<string>, matches: string -> bool)
    ensures AnyMatch(patterns, matches) <==> exists k :: 0 <= k < |patterns| && matches(patterns[k])
    decreases |patterns|
  {
    if patterns != [] {
      AnyMatchSpec(patterns[1..], matches);
      if exists k :: 0 <= k < |patterns| && matches(patterns[k]) {
        var k :| 0 <= k < |patterns| && matches(patterns[k]);
        if k > 0 {
          assert patterns[1..][k - 1] == patterns[k];
        }
      }
      if AnyMatch(patterns[1..], matches) {
        var k :| 0 <= k < |patterns[1..]| && matches(patterns[1..][k]);
        assert patterns[k + 1] == patterns[1..][k];
      }
    }
  }

  /**
   * A title is generic exactly when, stripped and lowercased, it is one of
   * the patterns, or it has at most three words, contains a pattern, and
   * removing that pattern leaves fewer than five characters.
   */
  lemma GenericTitleSpec(title: string)
    ensures var clean := Strip(Lower(title));
      IsGenericTitle(title) <==>
        clean in GenericPatterns ||
        (|Split(clean)| <= 3 && exists k :: 0 <= k < |GenericPatterns| && Vague(clean, GenericPatterns[k]))
  {
    var clean := Strip(Lower(title));
    AnyMatchSpec(GenericPatterns, (p: string) => Vague(clean, p));
  }

  /** A title that mentions none of the patterns is never generic. */
  lemma NoPatternNotGeneric(title: string)
    requires forall k :: 0 <= k < |GenericPatterns| ==> !Contains(Strip(Lower(title)), GenericPatterns[k])
    ensures !IsGenericTitle(title)
  {
    NothingContained(Strip(Lower(title)), GenericPatterns);
  }

  lemma NothingContained(clean: string, patterns: seq<string>)
    requires forall k :: 0 <= k < |patterns| ==> !Contains(clean, patterns[k])
    ensures clean !in patterns && !AnyMatch(patterns, (p: string) => Vague(clean, p))
  {
    AnyMatchSpec(patterns, (p: string) => Vague(clean, p));
    if clean in patterns {
      ContainsSelf(clean);
      assert false;
    }
  }

  // ---------------------------------------------------------------- the quality filter

  /**
   * `paper.get('title', '').lower()` raises on a title that is not a string.
   * The text stands in for the `str(e)` of that AttributeError, which
   * Python words after the title's type.
   */
  const NoLower: string := "title has no attribute 'lower'"

  /** Whether the loop keeps a paper whose title is a string. */
  predicate Kept(p: Paper)
    requires p.title.StrV?
  {
    !IsGenericTitle(Lower(p.title.s)) &&
    p.authors != [] && p.authors != "Unknown" &&
    !(p.citations == StrV("N/A") && ((p.year.IntV? && p.year.i < 2020) || p.year.BoolV?))
  }

  /** _filter_quality_papers: the kept papers in input order; the first title that is not a string raises. */
  function FilterQuality(papers: seq<Paper>): (r: Result<seq<Paper>>)
  {
    if papers == [] then Ok([])
    else
      var n := |papers| - 1;
      match FilterQuality(papers[..n])
      case Err(e) => Err(e)
      case Ok(kept) =>
        var p := papers[n];
        if !p.title.StrV? then Err(NoLower)
        else Ok(kept + (if Kept(p) then [p] else []))
  }

  /** A paper the filter keeps. */
  predicate KeptPaper(p: Paper)
  {
    p.title.StrV? && Kept(p)
  }

  /**
   * The filter raises exactly when some title is not a string; otherwise it
   * keeps exactly the papers with a non-generic title and real authors, in
   * input order.
   */
  lemma {:induction false} FilterQualitySpec(papers: seq<Paper>)
    ensures FilterQuality(papers).Ok? <==> forall i :: 0 <= i < |papers| ==> papers[i].title.StrV?
    ensures FilterQuality(papers).Ok? ==> FilterQuality(papers).value == Filter(papers, KeptPaper)
    decreases |papers|
  {
    if papers != [] {
      var n := |papers| - 1;
      FilterQualitySpec(papers[..n]);
      assert forall i :: 0 <= i < n ==> papers[..n][i] == papers[i];
      assert papers == papers[..n] + [papers[n]];
      FilterSnoc(papers[..n], papers[n], KeptPaper);
    }
  }

  /** After standardisation the 'N/A' rule never fires: a kept paper is one with a non-generic title and real authors. */
  lemma NaRuleNeverFires(item: Value, stripTags: string -> string)
    requires item.DictV? && Standardized(item, stripTags).Some?
    requires Standardized(item, stripTags).value.title.StrV?
    ensures var p := Standardized(item, stripTags).value;
      KeptPaper(p) <==> !IsGenericTitle(Lower(p.title.s)) && p.authors != "Unknown"
  {
    StandardizedAuthorsAndCitations(item, stripTags);
  }

  /** The filter loop. */
  method FilterQualityPapers(papers: seq<Paper>) returns (r: Result<seq<Paper>>)
    ensures r == FilterQuality(papers)
  {
    var kept: seq<Paper> := [];
    for i := 0 to |papers|
      invariant FilterQuality(papers[..i]) == Ok(kept)
    {
      assert papers[..i + 1][..i] == papers[..i];
      var p := papers[i];
      if !p.title.StrV? {
        FilterErrorSticks(papers, i + 1);
        return Err(NoLower);
      }
      if Kept(p) {
        kept := kept + [p];
      } else {
        assert kept + [] == kept;
      }
    }
    assert papers[..|papers|] == papers;
    return Ok(kept);
  }

  lemma {:induction false} FilterErrorSticks(papers: seq<Paper>, i: nat)
    requires i <= |papers| && FilterQuality(papers[..i]).Err?
    ensures FilterQuality(papers) == FilterQuality(papers[..i])
    decreases |papers| - i
  {
    if i < |papers| {
      assert papers[..i + 1][..i] == papers[..i];
      FilterErrorSticks(papers, i + 1);
    } else {
      assert papers[..i] == papers;
    }
  }

  // ---------------------------------------------------------------- search

  /**
   * search under `handle_provider_error`: an invalid query raises
   * SearchError, a missing response APIUnavailableError, an exception of the
   * request passes through, and the AttributeError of the filter becomes
   * APIUnavailableError.
   */
  function Searched(query: string, limit: int, minYear: Option<int>, maxYear: Option<int>, currentYear: int,
                    fetch: Params -> Fetched<seq<Value>>, stripTags: string -> string): Found<Paper>
  {
    if !ValidQuery(query) then Failed(Failure(InvalidQuery, "Invalid query: " + query))
    else
      match fetch(SearchParams(query, limit, minYear, maxYear, currentYear))
      case Fetched(items) =>
        (match FilterQuality(FilterMap(items, StandardizedWith(stripTags)))
         case Ok(kept) => Found(Slice(kept, limit))
         case Err(e) => Failed(Failure(Unavailable, e)))
      case NoResponse => Failed(Failure(Unavailable, "No response received from CrossRef API"))
      case Threw(f) => Failed(f)
  }

  method Search(query: string, limit: int, minYear: Option<int>, maxYear: Option<int>, currentYear: int,
                fetch: Params -> Fetched<seq<Value>>, stripTags: string -> string) returns (r: Found<Paper>)
    ensures r == Searched(query, limit, minYear, maxYear, currentYear, fetch, stripTags)
  {
    if !ValidQuery(query) {
      return Failed(Failure(InvalidQuery, "Invalid query: " + query));
    }
    var outcome := fetch(SearchParams(query, limit, minYear, maxYear, currentYear));
    match outcome
    case Fetched(items) =>
      var standardized := StandardizePapers(items, stripTags);
      var quality := FilterQualityPapers(standardized);
      if quality.Err? {
        return Failed(Failure(Unavailable, quality.error));
      }
      return Found(Slice(quality.value, limit));
    case NoResponse =>
      return Failed(Failure(Unavailable, "No response received from CrossRef API"));
    case Threw(f) =>
      return Failed(f);
  }

  /** A query under two characters once stripped raises SearchError without a request. */
  lemma SearchRejects(query: string, limit: int, minYear: Option<int>, maxYear: Option<int>, currentYear: int,
                      fetch: Params -> Fetched<seq<Value>>, stripTags: string -> string)
    ensures !ValidQuery(query) ==>
      Searched(query, limit, minYear, maxYear, currentYear, fetch, stripTags) == Failed(Failure(InvalidQuery, "Invalid query: " + query))
    ensures ValidQuery(query) && fetch(SearchParams(query, limit, minYear, maxYear, currentYear)).NoResponse? ==>
      Searched(query, limit, minYear, maxYear, currentYear, fetch, stripTags).failure.kind == Unavailable
  {
  }

  /**
   * At most `limit` papers come back, each the standardisation of a
   * returned item that passed the quality filter.
   */
  lemma SearchSpec(query: string, limit: int, minYear: Option<int>, maxYear: Option<int>, currentYear: int,
                   fetch: Params -> Fetched<seq<Value>>, stripTags: string -> string)
    ensures var r := Searched(query, limit, minYear, maxYear, currentYear, fetch, stripTags);
      r.Found? ==> ((limit >= 0 ==> |r.papers| <= limit) &&
        forall p :: p in r.papers ==> (KeptPaper(p) &&
          exists x :: x in fetch(SearchParams(query, limit, minYear, maxYear, currentYear)).body &&
            Standardized(x, stripTags) == Some(p)))
  {
    if ValidQuery(query) {
      var outcome := fetch(SearchParams(query, limit, minYear, maxYear, currentYear));
      if outcome.Fetched? && FilterQuality(FilterMap(outcome.body, StandardizedWith(stripTags))).Ok? {
        ResultOfItems(outcome.body, stripTags, limit);
      }
    }
  }

  lemma ResultOfItems(items: seq<Value>, stripTags: string -> string, limit: int)
    requires FilterQuality(FilterMap(items, StandardizedWith(stripTags))).Ok?
    ensures var r := Slice(FilterQuality(FilterMap(items, StandardizedWith(stripTags))).value, limit);
      forall p :: p in r ==> KeptPaper(p) && exists x :: x in items && Standardized(x, stripTags) == Some(p)
  {
    var standardized := FilterMap(items, StandardizedWith(stripTags));
    FilterQualitySpec(standardized);
    var kept := FilterQuality(standardized).value;
    FilterMembers(standardized, KeptPaper);
    FilterMapMembers(items, StandardizedWith(stripTags));
    var r := Slice(kept, limit);
    forall p | p in r
      ensures KeptPaper(p) && exists x :: x in items && Standardized(x, stripTags) == Some(p)
    {
      assert p in kept;
      var i :| 0 <= i < |items| && StandardizedWith(stripTags)(items[i]) == Some(p);
      assert items[i] in items;
    }
  }
}
