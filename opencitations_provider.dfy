// ai_scholar/providers/opencitations_provider.py: the OpenCitations
// adapter, which makes no request at all: `_search_simulation` generates
// up to `limit` records from fixed title, author and journal tables. The
// salted `hash` of a title is the parameter `hash`; the rate-limit sleep
// reads the clock and is not modelled.

module OpenCitationsProviders {
  import opened Base
  import opened Text
  import opened Values
  import opened Lists
  import opened SearchCommon

  // ---------------------------------------------------------------- validation

  const MinQueryLength: nat := 2
  const MaxQueryLength: nat := 500

  /** validate_query: at least two characters once stripped, at most 500 as given. */
  predicate ValidQuery(query: string)
  {
    query != [] && |Strip(query)| >= MinQueryLength && |query| <= MaxQueryLength
  }

  // ---------------------------------------------------------------- the generator's tables

  const CurrentYear: int := 2025
  const MaxIterations: nat := 1000

  /** A title pattern: the text around its one `{query}` placeholder. */
  datatype Pattern = Pattern(before: string, after: string)

  const TitlePatterns: seq<Pattern> := [
    Pattern("Citation Analysis of ", " Research: A Comprehensive Study"),
    Pattern("Bibliometric Analysis of ", " Publications"),
    Pattern("Network Analysis of ", " Citation Patterns"),
    Pattern("Scholarly Impact Assessment in ", " Domain"),
    Pattern("Citation Dynamics in ", " Literature"),
    Pattern("Systematic Review of ", ": A Citation-Based Approach"),
    Pattern("Measuring Research Impact in ", ": Citation Metrics"),
    Pattern("Temporal Citation Patterns in ", " Research"),
    Pattern("Cross-Disciplinary Citation Analysis: ", " Studies"),
    Pattern("Emerging Trends in ", ": A Bibliometric Study"),
    Pattern("Citation Behavior and ", " Research Evolution"),
    Pattern("Meta-Analysis of ", " Citation Networks"),
    Pattern("Research Collaboration Patterns in ", ": Citation Evidence"),
    Pattern("Geographic Distribution of ", " Citations"),
    Pattern("Open Access Impact on ", " Citation Rates"),
    Pattern("Journal Impact and ", " Citation Dynamics"),
    Pattern("Author Influence Networks in ", " Research"),
    Pattern("Interdisciplinary Citations in ", " Studies"),
    Pattern("Research Quality Indicators: ", " Citation Analysis"),
    Pattern("Publication Patterns and Citation Impact in ", ""),
    Pattern("Conference vs Journal Citations in ", " Research"),
    Pattern("Self-Citation Patterns in ", " Literature"),
    Pattern("International Collaboration and ", " Citations"),
    Pattern("Funding Impact on ", " Research Citations"),
    Pattern("Language Barriers and ", " Citation Accessibility"),
    Pattern("Peer Review and ", " Citation Quality"),
    Pattern("Altmetrics vs Traditional Citations in ", ""),
    Pattern("Gender Bias in ", " Citation Patterns"),
    Pattern("Preprint Impact on ", " Citation Rates"),
    Pattern("Institutional Prestige and ", " Citations")
  ]

  const Modifiers: seq<string> := [
    "Advanced", "Novel", "Comprehensive", "Comparative", "Longitudinal",
    "Empirical", "Theoretical", "Applied", "Experimental", "Statistical",
    "Machine Learning-Based", "AI-Driven", "Data-Driven", "Evidence-Based"
  ]

  const AuthorPools: seq<seq<string>> := [
    ["Zhang, L.", "Wang, H.", "Liu, Y.", "Chen, X."],
    ["Smith, J.", "Johnson, A.", "Williams, M.", "Brown, R."],
    ["Garcia, M.", "Rodriguez, A.", "Martinez, L.", "Lopez, C."],
    ["Kumar, S.", "Sharma, R.", "Patel, V.", "Singh, A."],
    ["Müller, H.", "Schmidt, A.", "Weber, M.", "Fischer, T."]
  ]

  /** The journal names: the text around the title-cased query. */
  const JournalTypes: seq<Pattern> := [
    Pattern("Nature ", ""),
    Pattern("Science ", ""),
    Pattern("Proceedings of ", " Research"),
    Pattern("IEEE Transactions on ", ""),
    Pattern("Journal of ", " Science"),
    Pattern("International Conference on ", ""),
    Pattern("ACM Computing Surveys: ", ""),
    Pattern("", " Reviews"),
    Pattern("Frontiers in ", ""),
    Pattern("Annual Review of ", "")
  ]

  function Filled(p: Pattern, query: string): string
  {
    p.before + Title(query) + p.after
  }

  /** The title of an iteration: its pattern, preceded by a modifier from the 31st iteration on. */
  function TitleAt(query: string, iteration: nat): string
  {
    var pattern := Filled(TitlePatterns[iteration % |TitlePatterns|], query);
    if iteration >= |TitlePatterns| then Modifiers[iteration % |Modifiers|] + " " + pattern else pattern
  }

  /** The year of an iteration: one of the fifteen years before 2025. */
  function YearAt(iteration: nat): (y: int)
    ensures CurrentYear - 15 <= y <= CurrentYear - 1
  {
    CurrentYear - (iteration % 15 + 1)
  }

  /** Whether an iteration's year passes the truthy bounds. */
  predicate InBounds(year: int, minYear: Option<int>, maxYear: Option<int>)
  {
    !(Given(minYear) && year < minYear.value) && !(Given(maxYear) && year > maxYear.value)
  }

  /** The impact factor a title's lower-cased words select. */
  function ImpactFactor(title: string): (f: real)
    ensures 1.0 <= f <= 2.5
  {
    var t := Lower(title);
    if Contains(t, "comprehensive") || Contains(t, "systematic") then 2.0
    else if Contains(t, "novel") || Contains(t, "advanced") then 1.8
    else if Contains(t, "meta-analysis") then 2.5
    else if Contains(t, "survey") || Contains(t, "review") then 1.9
    else 1.0
  }

  /** The base citations of the `generated`-th record, by tier. */
  function BaseCitations(generated: nat): (b: int)
    ensures b >= 200
  {
    if generated < 3 then 15000 + generated * 5000
    else if generated < 10 then 5000 + generated * 2000
    else if generated < 20 then 1000 + generated * 500
    else 200 + generated * 100
  }

  /** `max(0, int((base + variation) * impact))`, the variation in [-50, 49]. */
  function CitationCount(title: string, generated: nat, hash: string -> int): (c: int)
    ensures c >= BaseCitations(generated) - 50 && c >= 0
  {
    var variation := hash(title) % 100 - 50;
    var product := (BaseCitations(generated) + variation) as real * ImpactFactor(title);
    assert product >= (BaseCitations(generated) + variation) as real;
    var n := Trunc(product);
    if n > 0 then n else 0
  }

  /** `min(4, max(2, 2 + generated % 3))`: how many names of the pool are taken. */
  function AuthorCount(generated: nat): (n: int)
    ensures 2 <= n <= 4
  {
    Min(4, Max(2, 2 + generated % 3))
  }

  function Max(a: int, b: int): (r: int)
    ensures r >= a && r >= b && (r == a || r == b)
  {
    if a >= b then a else b
  }

  function AuthorsAt(generated: nat): string
  {
    Join("; ", AuthorPools[generated % |AuthorPools|][..AuthorCount(generated)])
  }

  function Abs(n: int): nat
  {
    if n < 0 then -n else n
  }

  /** A generated paper dict; the dict holds `str(year)`, and `citing_papers` is always empty. */
  datatype Record = Record(workUri: string, title: string, authors: string, year: int, citationCount: int,
                           doi: string, journal: string, volume: string, issue: string, pages: string)

  /** The record of an iteration that passes the bounds, as the `generated`-th result. */
  function RecordAt(query: string, hash: string -> int, iteration: nat, generated: nat): Record
  {
    var title := TitleAt(query, iteration);
    Record(
      "https://opencitations.net/meta/br/" + IntToString(Abs(hash(title)) % 1000000),
      title,
      AuthorsAt(generated),
      YearAt(iteration),
      CitationCount(title, generated, hash),
      "10.1000/citation" + IntToString(Abs(hash(title)) % 10000),
      Filled(JournalTypes[generated % |JournalTypes|], query),
      IntToString(20 + generated % 10),
      IntToString(generated % 4 + 1),
      IntToString(100 + generated * 10) + "-" + IntToString(115 + generated * 10))
  }

  /**
   * What the generator promises of its `generated`-th record: a year among
   * the fifteen before 2025 and within the bounds, two to four names of one
   * pool, and a citation count of at least its tier's base less 50.
   */
  predicate GoodRecord(r: Record, generated: nat, minYear: Option<int>, maxYear: Option<int>)
  {
    CurrentYear - 15 <= r.year <= CurrentYear - 1 && InBounds(r.year, minYear, maxYear) &&
    r.citationCount >= BaseCitations(generated) - 50 &&
    r.authors == Join("; ", AuthorPools[generated % |AuthorPools|][..AuthorCount(generated)]) &&
    r.workUri != []
  }

  // ---------------------------------------------------------------- the generator loop

  /** The record builder of a query and a title hash, from the iteration and the records so far. */
  function Maker(query: string, hash: string -> int): (nat, nat) -> Record
  {
    (iteration: nat, generated: nat) => RecordAt(query, hash, iteration, generated)
  }

  /** Whether the iteration's year passes the bounds, so that the iteration produces a record. */
  function Kept(minYear: Option<int>, maxYear: Option<int>): nat -> bool
  {
    (iteration: nat) => InBounds(YearAt(iteration), minYear, maxYear)
  }

  /**
   * The records the loop still produces from `iteration`, having produced
   * `generated`: it stops at `limit` records or at iteration 1000, and an
   * iteration that is not `kept` produces nothing.
   */
  function SimulatedFrom(limit: int, kept: nat -> bool, make: (nat, nat) -> Record,
                         iteration: nat, generated: nat): (r: seq<Record>)
    ensures generated < limit ==> |r| <= limit - generated
    ensures generated >= limit ==> r == []
    ensures |r| <= MaxIterations - iteration || r == []
    decreases MaxIterations - iteration
  {
    if generated >= limit || iteration >= MaxIterations then []
    else if !kept(iteration) then
      SimulatedFrom(limit, kept, make, iteration + 1, generated)
    else
      [make(iteration, generated)] + SimulatedFrom(limit, kept, make, iteration + 1, generated + 1)
  }

  /** One turn of the generator loop: an iteration not kept is skipped, any other produces the next record. */
  lemma SimulatedStep(limit: int, kept: nat -> bool, make: (nat, nat) -> Record, iteration: nat, generated: nat)
    requires generated < limit && iteration < MaxIterations
    ensures !kept(iteration) ==>
      SimulatedFrom(limit, kept, make, iteration, generated) == SimulatedFrom(limit, kept, make, iteration + 1, generated)
    ensures kept(iteration) ==>
      SimulatedFrom(limit, kept, make, iteration, generated) ==
      [make(iteration, generated)] + SimulatedFrom(limit, kept, make, iteration + 1, generated + 1)
  {
  }

  /** The `k`-th record the loop produces has a property `good` of its position when every record built for a kept iteration does. */
  lemma {:induction false} SimulatedGood(limit: int, kept: nat -> bool, make: (nat, nat) -> Record,
                                         good: (Record, nat) -> bool, iteration: nat, generated: nat, k: nat)
    requires forall i: nat, g: nat :: kept(i) ==> good(make(i, g), g)
    requires k < |SimulatedFrom(limit, kept, make, iteration, generated)|
    ensures good(SimulatedFrom(limit, kept, make, iteration, generated)[k], generated + k)
    decreases MaxIterations - iteration
  {
    SimulatedStep(limit, kept, make, iteration, generated);
    if !kept(iteration) {
      SimulatedGood(limit, kept, make, good, iteration + 1, generated, k);
    } else if k > 0 {
      SimulatedGood(limit, kept, make, good, iteration + 1, generated + 1, k - 1);
    }
  }

  /** When every iteration is kept, exactly `limit` records come back for a limit up to 1000. */
  lemma {:induction false} AllKeptFills(limit: int, kept: nat -> bool, make: (nat, nat) -> Record,
                                        iteration: nat, generated: nat)
    requires forall i: nat :: kept(i)
    requires generated <= limit && limit - generated <= MaxIterations - iteration
    ensures |SimulatedFrom(limit, kept, make, iteration, generated)| == limit - generated
    decreases MaxIterations - iteration
  {
    if generated < limit && iteration < MaxIterations {
      AllKeptFills(limit, kept, make, iteration + 1, generated + 1);
    }
  }

  /** When no iteration is kept, the loop produces nothing. */
  lemma {:induction false} NoneKept(limit: int, kept: nat -> bool, make: (nat, nat) -> Record,
                                    iteration: nat, generated: nat)
    requires forall i: nat :: !kept(i)
    ensures SimulatedFrom(limit, kept, make, iteration, generated) == []
    decreases MaxIterations - iteration
  {
    if generated < limit && iteration < MaxIterations {
      NoneKept(limit, kept, make, iteration + 1, generated);
    }
  }

  /** A record built for a kept iteration keeps the generator's promises. */
  lemma MakerGood(query: string, hash: string -> int, minYear: Option<int>, maxYear: Option<int>)
    ensures forall i: nat, g: nat :: Kept(minYear, maxYear)(i) ==>
      GoodRecord(Maker(query, hash)(i, g), g, minYear, maxYear)
  {
    forall i: nat, g: nat | Kept(minYear, maxYear)(i)
      ensures GoodRecord(Maker(query, hash)(i, g), g, minYear, maxYear)
    {
      RecordAtGood(query, hash, i, g, minYear, maxYear);
    }
  }

  lemma RecordAtGood(query: string, hash: string -> int, iteration: nat, generated: nat,
                     minYear: Option<int>, maxYear: Option<int>)
    requires InBounds(YearAt(iteration), minYear, maxYear)
    ensures GoodRecord(RecordAt(query, hash, iteration, generated), generated, minYear, maxYear)
  {
  }

  function Simulated(query: string, limit: int, minYear: Option<int>, maxYear: Option<int>,
                     hash: string -> int): seq<Record>
  {
    SimulatedFrom(limit, Kept(minYear, maxYear), Maker(query, hash), 0, 0)
  }

  /** _search_simulation: the generator loop, with the record builder of the query and the hash. */
  method SearchSimulation(query: string, limit: int, minYear: Option<int>, maxYear: Option<int>,
                          hash: string -> int) returns (papers: seq<Record>)
    ensures papers == Simulated(query, limit, minYear, maxYear, hash)
  {
    papers := Generate(limit, minYear, maxYear, Maker(query, hash));
  }

  /** The while loop of _search_simulation; `make` builds the dict of an iteration that passes the bounds. */
  method Generate(limit: int, minYear: Option<int>, maxYear: Option<int>, make: (nat, nat) -> Record)
    returns (papers: seq<Record>)
    ensures papers == SimulatedFrom(limit, Kept(minYear, maxYear), make, 0, 0)
  {
    papers := [];
    var generated: nat := 0;
    var iteration: nat := 0;
    while generated < limit
      invariant iteration <= MaxIterations && generated == |papers|
      invariant papers + SimulatedFrom(limit, Kept(minYear, maxYear), make, iteration, generated) ==
                SimulatedFrom(limit, Kept(minYear, maxYear), make, 0, 0)
      decreases MaxIterations - iteration
    {
      if iteration >= MaxIterations {
        break;
      }
      papers, generated := GenerateTurn(limit, minYear, maxYear, make, iteration, generated, papers);
      iteration := iteration + 1;
    }
  }

  /** The body of the generator loop at `iteration`: skip a year out of bounds, or append a record. */
  method GenerateTurn(limit: int, minYear: Option<int>, maxYear: Option<int>, make: (nat, nat) -> Record,
                      iteration: nat, generated: nat, papers: seq<Record>)
    returns (next: seq<Record>, count: nat)
    requires generated < limit && iteration < MaxIterations && generated == |papers|
    ensures count == |next|
    ensures next + SimulatedFrom(limit, Kept(minYear, maxYear), make, iteration + 1, count) ==
            papers + SimulatedFrom(limit, Kept(minYear, maxYear), make, iteration, generated)
  {
    var year := YearAt(iteration);
    SimulatedStep(limit, Kept(minYear, maxYear), make, iteration, generated);
    if Given(minYear) && year < minYear.value {
      return papers, generated;
    }
    if Given(maxYear) && year > maxYear.value {
      return papers, generated;
    }
    ghost var tail := SimulatedFrom(limit, Kept(minYear, maxYear), make, iteration + 1, generated + 1);
    assert papers + ([make(iteration, generated)] + tail) == (papers + [make(iteration, generated)]) + tail;
    next := papers + [make(iteration, generated)];
    count := generated + 1;
  }

  /** Without year bounds every iteration produces a record: exactly `limit` records for a limit up to 1000. */
  lemma UnboundedFills(query: string, limit: int, hash: string -> int)
    requires 0 <= limit <= MaxIterations
    ensures |Simulated(query, limit, None, None, hash)| == limit
  {
    AllKeptFills(limit, Kept(None, None), Maker(query, hash), 0, 0);
  }

  /** A lower bound after 2024 or an upper bound before 2010 leaves nothing to generate. */
  lemma NoYearInBounds(query: string, limit: int, minYear: Option<int>, maxYear: Option<int>, hash: string -> int)
    requires (Given(minYear) && minYear.value > CurrentYear - 1) || (Given(maxYear) && maxYear.value < CurrentYear - 15)
    ensures Simulated(query, limit, minYear, maxYear, hash) == []
  {
    NoneKept(limit, Kept(minYear, maxYear), Maker(query, hash), 0, 0);
  }

  // ---------------------------------------------------------------- standardisation

  const Attribution: string := "Citation and bibliometric data from OpenCitations"

  /** `int(str(year).split("-")[0])`, None where int() raises. */
  function LeadingInt(text: string): Option<int>
  {
    ParseInt(UpTo(text, '-'))
  }

  /** A printed non-negative year reads back as itself. */
  lemma LeadingIntOfYear(y: nat)
    ensures LeadingInt(IntToString(y)) == Some(y)
  {
    var s := IntToString(y);
    assert '-' !in s by {
      assert IsDigits(NatToString(y));
    }
    var u := UpTo(s, '-');
    assert u == s;
    IntToStringRoundTrip(y);
  }

  /**
   * _calculate_relevance_score: 0.7 times the citation score (count/50
   * capped at 1, or 0.1 for no citations) plus 0.3 times the recency score
   * (one less age/20, at least 0.1), the recency 0.5 for a year int() rejects.
   */
  function RelevanceScore(citationCount: int, year: string): (s: real)
    ensures 0.0 < s <= 1.0
  {
    var citationScore := if citationCount > 0 then MinReal(1.0, citationCount as real / 50.0) else 0.1;
    var recencyScore :=
      match LeadingInt(year)
      case None => 0.5
      case Some(y) =>
        var age := if CurrentYear - y > 0 then CurrentYear - y else 0;
        if 1.0 - age as real / 20.0 > 0.1 then 1.0 - age as real / 20.0 else 0.1;
    citationScore * 0.7 + recencyScore * 0.3
  }

  /** Among cited papers of the same year the score never falls as the count grows. */
  lemma RelevanceByCount(c1: int, c2: int, y: nat)
    requires 0 < c1 <= c2
    ensures RelevanceScore(c1, IntToString(y)) <= RelevanceScore(c2, IntToString(y))
  {
    LeadingIntOfYear(y);
  }

  /** Among papers of the same count the score never falls for a later year. */
  lemma RelevanceByYear(c: int, y1: nat, y2: nat)
    requires y1 <= y2
    ensures RelevanceScore(c, IntToString(y1)) <= RelevanceScore(c, IntToString(y2))
  {
    LeadingIntOfYear(y1);
    LeadingIntOfYear(y2);
  }

  /** A paper with no citations outscores one of the same year with one to four. */
  lemma RelevanceOfNoCitations(c: int, y: nat)
    requires 1 <= c <= 4
    ensures RelevanceScore(0, IntToString(y)) > RelevanceScore(c, IntToString(y))
  {
    LeadingIntOfYear(y);
  }

  /** A standardized paper; `citations` repeats `citation_count`, and the constant fields are left out. */
  datatype Paper = Paper(id: string, title: string, authors: string, abstractText: string, publishedDate: string,
                         year: Option<int>, url: string, doi: string, venue: string, citationCount: int,
                         volume: string, issue: string, pages: string, relevance: real)

  /** The abstract parts: the journal if any, the citation count if positive, then the attribution. */
  function AbstractParts(r: Record): (parts: seq<string>)
    ensures 1 <= |parts| <= 3 && parts[|parts| - 1] == Attribution
  {
    (if r.journal != [] then ["Published in " + r.journal] else []) +
    (if r.citationCount > 0 then ["Cited by " + IntToString(r.citationCount) + " papers"] else []) +
    [Attribution]
  }

  /** The work URI, or the DOI's resolver address when the URI is empty and a DOI is given. */
  function UrlOf(r: Record): string
  {
    if r.workUri == [] && r.doi != [] then "https://doi.org/" + r.doi else r.workUri
  }

  function Standardized(r: Record): Paper
  {
    var published := IntToString(r.year);
    Paper(r.workUri, r.title, r.authors, Join(". ", AbstractParts(r)), published,
          if published != [] then LeadingInt(published) else None,
          UrlOf(r), r.doi, r.journal, r.citationCount, r.volume, r.issue, r.pages,
          RelevanceScore(r.citationCount, published))
  }

  /**
   * A generated record standardizes to a paper whose integer year is the
   * record's, whose url is its work URI, and whose relevance lies in (0, 1].
   */
  lemma StandardizedSpec(r: Record, generated: nat, minYear: Option<int>, maxYear: Option<int>)
    requires GoodRecord(r, generated, minYear, maxYear)
    ensures var p := Standardized(r);
      p.year == Some(r.year) && p.publishedDate == IntToString(r.year) && p.url == r.workUri &&
      p.citationCount == r.citationCount && 0.0 < p.relevance <= 1.0 && GoodPaper(p, minYear, maxYear)
  {
    LeadingIntOfYear(r.year);
  }

  method StandardizePapers(records: seq<Record>) returns (papers: seq<Paper>)
    ensures papers == Map(records, Standardized)
  {
    papers := [];
    for i := 0 to |records|
      invariant papers == Map(records[..i], Standardized)
    {
      MapStep(records, i, Standardized);
      papers := papers + [Standardized(records[i])];
    }
    assert records[..|records|] == records;
  }

  // ---------------------------------------------------------------- search

  /** search: nothing for an invalid query, otherwise the standardized simulated records. */
  function Searched(query: string, limit: int, minYear: Option<int>, maxYear: Option<int>,
                    hash: string -> int): seq<Paper>
  {
    if !ValidQuery(query) then [] else Map(Simulated(query, limit, minYear, maxYear, hash), Standardized)
  }

  method Search(query: string, limit: int, minYear: Option<int>, maxYear: Option<int>,
                hash: string -> int) returns (r: seq<Paper>)
    ensures r == Searched(query, limit, minYear, maxYear, hash)
  {
    if !ValidQuery(query) {
      return [];
    }
    var records := SearchSimulation(query, limit, minYear, maxYear, hash);
    r := StandardizePapers(records);
  }

  /** What search promises of each paper it returns. */
  predicate GoodPaper(p: Paper, minYear: Option<int>, maxYear: Option<int>)
  {
    p.year.Some? && CurrentYear - 15 <= p.year.value <= CurrentYear - 1 &&
    InBounds(p.year.value, minYear, maxYear) && p.citationCount > 0 && 0.0 < p.relevance <= 1.0
  }

  /** The `k`-th simulated record keeps the generator's promises for position `k`. */
  lemma SimulatedRecordsGood(query: string, limit: int, minYear: Option<int>, maxYear: Option<int>, hash: string -> int)
    ensures var r := Simulated(query, limit, minYear, maxYear, hash);
      forall k :: 0 <= k < |r| ==> GoodRecord(r[k], k, minYear, maxYear)
  {
    var good := (r: Record, g: nat) => GoodRecord(r, g, minYear, maxYear);
    MakerGood(query, hash, minYear, maxYear);
    forall k | 0 <= k < |Simulated(query, limit, minYear, maxYear, hash)|
      ensures GoodRecord(Simulated(query, limit, minYear, maxYear, hash)[k], k, minYear, maxYear)
    {
      SimulatedGood(limit, Kept(minYear, maxYear), Maker(query, hash), good, 0, 0, k);
    }
  }

  /** Records that keep the generator's promises standardize to papers search promises. */
  lemma StandardizedGood(records: seq<Record>, minYear: Option<int>, maxYear: Option<int>)
    requires forall k :: 0 <= k < |records| ==> GoodRecord(records[k], k, minYear, maxYear)
    ensures forall p :: p in Map(records, Standardized) ==> GoodPaper(p, minYear, maxYear)
  {
    var r := Map(records, Standardized);
    forall k | 0 <= k < |r|
      ensures GoodPaper(r[k], minYear, maxYear)
    {
      StandardizedSpec(records[k], k, minYear, maxYear);
    }
  }

  /**
   * At most `limit` papers, and at most 1000; each with a year among the
   * fifteen before 2025 inside the bounds, a positive citation count and a
   * relevance in (0, 1].
   */
  lemma SearchSpec(query: string, limit: int, minYear: Option<int>, maxYear: Option<int>, hash: string -> int)
    ensures var r := Searched(query, limit, minYear, maxYear, hash);
      |r| <= MaxIterations && (limit >= 0 ==> |r| <= limit) &&
      (forall p :: p in r ==> GoodPaper(p, minYear, maxYear))
  {
    if ValidQuery(query) {
      var records := Simulated(query, limit, minYear, maxYear, hash);
      SimulatedRecordsGood(query, limit, minYear, maxYear, hash);
      StandardizedGood(records, minYear, maxYear);
    }
  }

  /** Exactly `limit` papers for a valid query when no bound is given and `0 <= limit <= 1000`. */
  lemma SearchFills(query: string, limit: int, hash: string -> int)
    requires ValidQuery(query) && 0 <= limit <= MaxIterations
    ensures |Searched(query, limit, None, None, hash)| == limit
  {
    UnboundedFills(query, limit, hash);
  }
}
