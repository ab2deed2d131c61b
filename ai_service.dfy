// AIService: the ranking-mode dispatch in front of an AI provider, its two
// plain sorts (by citation count, by year) and the error wrapping of the
// summary and insights calls. The provider is an oracle: what each of its
// calls returns, or Err for an exception, is given by the functions it holds.

module AIService {
  import opened Base
  import opened Text
  import opened Values
  import opened Sorting
  import opened PaperRanking

  /** What the AI provider's calls return for given arguments; Err stands for an exception. */
  datatype AIProvider = AIProvider(
    rank: (string, seq<PaperDict>, int) -> Result<seq<PaperDict>>,
    summarize: (seq<PaperDict>, string) -> Result<string>,
    insights: (seq<PaperDict>, string) -> Result<map<string, Value>>)

  /** The service holds an optional provider; None is a provider that is not configured. */
  datatype Service = Service(provider: Option<AIProvider>)

  /** `paper` without its `explanation` field. */
  function Unexplained(p: PaperDict): PaperDict
  {
    p - {"explanation"}
  }

  lemma UnexplainedExplained(p: PaperDict, e: string)
    ensures Unexplained(Explained(p, e)) == Unexplained(p)
    ensures "explanation" in Explained(p, e) && Explained(p, e)["explanation"] == StrV(e)
  {
    var a := Unexplained(Explained(p, e));
    var b := Unexplained(p);
    forall k
      ensures k in a <==> k in b
      ensures k in a ==> a[k] == b[k]
    {
    }
  }

  // ---------------------------------------------------------------- the two plain sorts
  // `get_citations` reads the count as PaperRanking.CitationKey does.

  /** `get_year`: `int(year)`, default 0, with 'Unknown year' and what int() rejects read as 0. */
  function YearSortKey(p: PaperDict): Key
  {
    NumKey(RankYear(p) as real)
  }

  /** "Ranked #n by citations: <citations, or N/A> citations". */
  function CitationNote(p: PaperDict, rank: nat): Result<string>
  {
    Ok(RankHead(rank) + " by citations: " + PyStr(Get(p, "citations", StrV("N/A"))) + " citations")
  }

  /** "Ranked #n by year: <year, or Unknown> publication year". */
  function YearNote(p: PaperDict, rank: nat): Result<string>
  {
    Ok(RankHead(rank) + " by year: " + PyStr(Get(p, "year", StrV("Unknown"))) + " publication year")
  }

  /** `explain` never raises. */
  ghost predicate NeverRaises(explain: (PaperDict, nat) -> Result<string>)
  {
    forall p, rank :: explain(p, rank).Ok?
  }

  /** `sorted(papers, key=key, reverse=True)[:limit]`, each then given its explanation. */
  function SortedAndExplained(papers: seq<PaperDict>, limit: int, key: PaperDict -> Key,
                              explain: (PaperDict, nat) -> Result<string>): Result<seq<PaperDict>>
  {
    ExplainAll(Slice(SortDesc(papers, key), limit), explain)
  }

  /** _rank_by_citations / _rank_by_year: sort, cut to `limit`, write the explanations. */
  method SortAndExplain(papers: seq<PaperDict>, limit: int, key: PaperDict -> Key,
                        explain: (PaperDict, nat) -> Result<string>)
    returns (r: Result<seq<PaperDict>>)
    ensures r == SortedAndExplained(papers, limit, key, explain)
  {
    var sortedPapers := SortDesc(papers, key);
    r := WriteExplanations(Slice(sortedPapers, limit), explain);
  }

  /**
   * A sort by `key` cut to `limit` and explained: as many papers as the
   * slice holds, in non-increasing key order, each an input paper with only
   * its explanation set to `explain` at its 1-based place, and papers of
   * equal key in input order (the first ones of that key).
   */
  lemma SortedAndExplainedShape(papers: seq<PaperDict>, limit: int, key: PaperDict -> Key,
                                explain: (PaperDict, nat) -> Result<string>)
    requires NeverRaises(explain) && IgnoresExplanation(key)
    ensures SortedAndExplained(papers, limit, key, explain).Ok?
    ensures var r := SortedAndExplained(papers, limit, key, explain).value;
      var top := Slice(SortDesc(papers, key), limit);
      |r| == |Slice(papers, limit)| && SortedDesc(r, key) &&
      (forall i :: 0 <= i < |r| ==> (Unexplained(r[i]) == Unexplained(top[i]) &&
        "explanation" in r[i] && r[i]["explanation"] == StrV(explain(top[i], i + 1).value))) &&
      (forall k :: KeyClass(top, key, k) <= KeyClass(papers, key, k))
  {
    var sorted := SortDesc(papers, key);
    var top := Slice(sorted, limit);
    forall i | 0 <= i < |top|
      ensures explain(top[i], i + 1).Ok?
    {
    }
    var r := ExplainAll(top, explain).value;
    SortDescSorted(papers, key);
    SortedPrefix(sorted, |top|, key);
    ExplainAllKeepsOrder(top, explain, key);
    forall i | 0 <= i < |r|
      ensures Unexplained(r[i]) == Unexplained(top[i])
      ensures "explanation" in r[i] && r[i]["explanation"] == StrV(explain(top[i], i + 1).value)
    {
      UnexplainedExplained(top[i], explain(top[i], i + 1).value);
    }
    forall k
      ensures KeyClass(top, key, k) <= KeyClass(papers, key, k)
    {
      SortedTopStable(papers, key, |top|, k);
    }
  }

  lemma CitationKeyIgnoresExplanation()
    ensures IgnoresExplanation(CitationKey)
  {
    forall p, e
      ensures CitationKey(Explained(p, e)) == CitationKey(p)
    {
      assert Get(Explained(p, e), "citations", NoneV) == Get(p, "citations", NoneV);
      assert Get(Explained(p, e), "citation", NoneV) == Get(p, "citation", NoneV);
    }
  }

  lemma YearSortKeyIgnoresExplanation()
    ensures IgnoresExplanation(YearSortKey)
  {
    forall p, e
      ensures YearSortKey(Explained(p, e)) == YearSortKey(p)
    {
      assert Get(Explained(p, e), "year", IntV(0)) == Get(p, "year", IntV(0));
    }
  }

  lemma NotesNeverRaise()
    ensures NeverRaises(CitationNote) && NeverRaises(YearNote)
  {
  }

  /**
   * _rank_by_citations: every paper, cited or not, sorted by non-increasing
   * citation count and cut to `limit`; the i-th states rank i + 1 and the
   * paper's own `citations` value.
   */
  lemma RankByCitationCountShape(papers: seq<PaperDict>, limit: int)
    ensures SortedAndExplained(papers, limit, CitationKey, CitationNote).Ok?
    ensures var r := SortedAndExplained(papers, limit, CitationKey, CitationNote).value;
      var top := Slice(SortDesc(papers, CitationKey), limit);
      |r| == |Slice(papers, limit)| && SortedDesc(r, CitationKey) &&
      (forall i :: 0 <= i < |r| ==> (Unexplained(r[i]) == Unexplained(top[i]) &&
        "explanation" in r[i] && r[i]["explanation"] == StrV(CitationNote(top[i], i + 1).value))) &&
      (forall k :: KeyClass(top, CitationKey, k) <= KeyClass(papers, CitationKey, k))
  {
    NotesNeverRaise();
    CitationKeyIgnoresExplanation();
    SortedAndExplainedShape(papers, limit, CitationKey, CitationNote);
  }

  /**
   * _rank_by_year: sorted by non-increasing year, cut to `limit`; the i-th
   * states rank i + 1 and the paper's own `year` value.
   */
  lemma RankByYearValueShape(papers: seq<PaperDict>, limit: int)
    ensures SortedAndExplained(papers, limit, YearSortKey, YearNote).Ok?
    ensures var r := SortedAndExplained(papers, limit, YearSortKey, YearNote).value;
      var top := Slice(SortDesc(papers, YearSortKey), limit);
      |r| == |Slice(papers, limit)| && SortedDesc(r, YearSortKey) &&
      (forall i :: 0 <= i < |r| ==> (Unexplained(r[i]) == Unexplained(top[i]) &&
        "explanation" in r[i] && r[i]["explanation"] == StrV(YearNote(top[i], i + 1).value))) &&
      (forall k :: KeyClass(top, YearSortKey, k) <= KeyClass(papers, YearSortKey, k))
  {
    NotesNeverRaise();
    YearSortKeyIgnoresExplanation();
    SortedAndExplainedShape(papers, limit, YearSortKey, YearNote);
  }

  // ---------------------------------------------------------------- dispatch

  /** rank_papers: the provider for 'ai' when one is configured, the plain sorts for 'citations' and 'year', else `papers[:limit]`. */
  function RankPapers(s: Service, query: string, papers: seq<PaperDict>, mode: string, limit: int): Result<seq<PaperDict>>
  {
    if mode == "ai" && s.provider.Some? then s.provider.value.rank(query, papers, limit)
    else if mode == "citations" then SortedAndExplained(papers, limit, CitationKey, CitationNote)
    else if mode == "year" then SortedAndExplained(papers, limit, YearSortKey, YearNote)
    else Ok(Slice(papers, limit))
  }

  /**
   * Only the provider can fail: every other mode, and 'ai' without a
   * provider, returns `len(papers[:limit])` input papers, at most `limit`,
   * changed at most in their explanation; an unknown mode returns the prefix itself.
   */
  lemma RankPapersWithoutProvider(s: Service, query: string, papers: seq<PaperDict>, mode: string, limit: int)
    requires mode != "ai" || s.provider.None?
    ensures var r := RankPapers(s, query, papers, mode, limit);
      r.Ok? && |r.value| == |Slice(papers, limit)| &&
      (limit >= 0 ==> |r.value| <= limit) &&
      (mode != "citations" && mode != "year" ==> r.value == papers[..|r.value|])
  {
    if mode == "citations" {
      RankByCitationCountShape(papers, limit);
    } else if mode == "year" {
      RankByYearValueShape(papers, limit);
    }
  }

  // ---------------------------------------------------------------- summary and insights

  /** generate_summary: never raises; a missing provider or an exception becomes a message. */
  function GenerateSummary(s: Service, papers: seq<PaperDict>, query: string): (r: string)
    ensures s.provider.None? ==> r == "AI provider not available for summary generation"
    ensures s.provider.Some? && s.provider.value.summarize(papers, query).Err? ==>
      r == "Failed to generate summary: " + s.provider.value.summarize(papers, query).error
    ensures s.provider.Some? && s.provider.value.summarize(papers, query).Ok? ==>
      r == s.provider.value.summarize(papers, query).value
  {
    match s.provider
    case None => "AI provider not available for summary generation"
    case Some(ai) =>
      match ai.summarize(papers, query)
      case Ok(text) => text
      case Err(e) => "Failed to generate summary: " + e
  }

  /** generate_research_insights: never raises; a missing provider or an exception becomes `{"error": ...}`. */
  function GenerateInsights(s: Service, papers: seq<PaperDict>, query: string): (r: map<string, Value>)
    ensures s.provider.None? ==> r == map["error" := StrV("AI provider not available")]
    ensures s.provider.Some? && s.provider.value.insights(papers, query).Err? ==>
      r.Keys == {"error"} && r["error"].StrV? && StartsWith(r["error"].s, "Failed to generate insights: ")
    ensures s.provider.Some? && s.provider.value.insights(papers, query).Ok? ==>
      r == s.provider.value.insights(papers, query).value
  {
    match s.provider
    case None => map["error" := StrV("AI provider not available")]
    case Some(ai) =>
      match ai.insights(papers, query)
      case Ok(d) => d
      case Err(e) =>
        assert StartsWith("Failed to generate insights: " + e, "Failed to generate insights: ") by {
          assert ("Failed to generate insights: " + e)[..|"Failed to generate insights: "|] == "Failed to generate insights: ";
        }
        map["error" := StrV("Failed to generate insights: " + e)]
  }
}
