// PaperService.aggregate_and_rank_papers (ai_scholar/services/paper_service.py):
// the provider loop with its failure isolation and statistics, then the
// year filter, deduplication, truncation to the AI capacity, the ranking
// dispatch, cleanup, the merge with the full details and the final slice.
// Back-ends and the AI provider are oracles; the clock is a parameter.

module Aggregation {
  import opened Base
  import opened Values
  import opened Lists
  import opened Config
  import opened Dedup
  import opened Helpers
  import opened PaperProcessingUtils
  import opened PaperRanking
  import opened PaperService
  import opened Models

  /** One registered back-end: its registry key and what calling it returns; Err stands for an exception. */
  datatype Backend = Backend(name: string, search: (string, Value, Option<int>, Option<int>) -> Result<Value>)

  /** The arguments of aggregate_and_rank_papers. */
  datatype Request = Request(query: string, limit: int, aiResultLimit: int, mode: string,
                             minYear: Option<int>, maxYear: Option<int>)

  /**
   * What the service is built with: the back-end registry in insertion
   * order, the AI provider's ranking call when one is configured, the
   * settings, the environment, and the prose after "Ranked #n" of the two
   * explanation builders.
   */
  datatype Context = Context(
    backends: seq<Backend>,
    aiRank: Option<(string, seq<PaperDict>, int) -> Result<seq<PaperDict>>>,
    settings: Settings, env: Env,
    citationTail: (PaperDict, nat) -> string, yearTail: (PaperDict, nat) -> string)

  function Names(bs: seq<Backend>): (r: seq<string>)
    ensures |r| == |bs| && forall i :: 0 <= i < |bs| ==> r[i] == bs[i].name
  {
    Map(bs, (b: Backend) => b.name)
  }

  /** A dict has each key once. */
  predicate DistinctNames(bs: seq<Backend>)
  {
    forall i, j :: 0 <= i < j < |bs| ==> bs[i].name != bs[j].name
  }

  // ---------------------------------------------------------------- the provider loop

  /** What the provider loop has built so far: the papers, the contributing back-ends, the counters. */
  datatype Gathered = Gathered(papers: seq<PaperDict>, sources: seq<string>, collected: nat,
                               used: map<string, ProviderCounts>)

  /** A back-end that raised or returned no papers: recorded with zero counts, nothing added. */
  function Empty(g: Gathered, name: string): Gathered
  {
    g.(used := g.used[name := ProviderCounts(0, 0)])
  }

  /** A back-end's extracted papers: when there are any, the pre-filtered ones are appended and counted. */
  function Absorb(g: Gathered, name: string, papers: seq<PaperDict>,
                  preFilter: seq<PaperDict> -> seq<PaperDict>): Gathered
  {
    if papers == [] then Empty(g, name)
    else
      var kept := preFilter(papers);
      Gathered(g.papers + kept, g.sources + [name], g.collected + |papers|,
               g.used[name := ProviderCounts(|papers|, |kept|)])
  }

  /**
   * One iteration for back-end `b`: skipped when not selected; a call that
   * raises, or returns no papers, is recorded with zero counts; otherwise
   * its papers are pre-filtered and appended.
   */
  function Visit(g: Gathered, b: Backend, use: seq<string>, limits: map<string, Value>, req: Request,
                 preFilter: seq<PaperDict> -> seq<PaperDict>): Gathered
  {
    if b.name !in use then g
    else
      match b.search(req.query, Get(limits, b.name, IntV(req.limit)), req.minYear, req.maxYear)
      case Err(_) => Empty(g, b.name)
      case Ok(result) => Absorb(g, b.name, Extracted(result, b.name), preFilter)
  }

  /** The loop over the registry, in order. */
  function Gather(bs: seq<Backend>, use: seq<string>, limits: map<string, Value>, req: Request,
                  preFilter: seq<PaperDict> -> seq<PaperDict>): Gathered
  {
    if bs == [] then Gathered([], [], 0, map[])
    else Visit(Gather(bs[..|bs| - 1], use, limits, req, preFilter), bs[|bs| - 1], use, limits, req, preFilter)
  }

  /** _pre_filter_papers for the request's query. */
  function PreFilterFor(req: Request, ctx: Context): seq<PaperDict> -> seq<PaperDict>
  {
    (papers: seq<PaperDict>) => PreFiltered(papers, req.query, ctx.env, ServiceCopy, ctx.settings)
  }

  /** A back-end that raises whatever it is asked, for this query. */
  ghost predicate Raises(b: Backend, query: string)
  {
    forall v, lo, hi :: b.search(query, v, lo, hi).Err?
  }

  /** The two loop states agree on everything but the per-provider counts. */
  predicate SameHarvest(g: Gathered, h: Gathered)
  {
    g.papers == h.papers && g.sources == h.sources && g.collected == h.collected
  }

  /** Every selected back-end gets a counts entry, whatever it did, and no other name does. */
  lemma {:induction false} GatherUsed(bs: seq<Backend>, use: seq<string>, limits: map<string, Value>, req: Request,
                                      preFilter: seq<PaperDict> -> seq<PaperDict>)
    ensures var g := Gather(bs, use, limits, req, preFilter);
      forall n :: n in g.used <==> n in use && n in Names(bs)
    decreases |bs|
  {
    if bs != [] {
      GatherUsed(bs[..|bs| - 1], use, limits, req, preFilter);
      assert Names(bs) == Names(bs[..|bs| - 1]) + [bs[|bs| - 1].name];
    }
  }

  /** One iteration adds the back-end to the sources, or leaves them alone. */
  lemma VisitSources(g: Gathered, b: Backend, use: seq<string>, limits: map<string, Value>, req: Request,
                     preFilter: seq<PaperDict> -> seq<PaperDict>)
    ensures var h := Visit(g, b, use, limits, req, preFilter);
      h.sources == g.sources || (b.name in use && h.sources == g.sources + [b.name])
  {
  }

  /** The contributing back-ends are selected ones, each listed once per registry entry, in registry order. */
  lemma {:induction false} GatherSources(bs: seq<Backend>, use: seq<string>, limits: map<string, Value>, req: Request,
                                         preFilter: seq<PaperDict> -> seq<PaperDict>)
    ensures var g := Gather(bs, use, limits, req, preFilter);
      SubseqOf(g.sources, Names(bs)) && forall n :: n in g.sources ==> n in use
    decreases |bs|
  {
    if bs != [] {
      var init := bs[..|bs| - 1];
      var b := bs[|bs| - 1];
      GatherSources(init, use, limits, req, preFilter);
      assert Names(bs) == Names(init) + [b.name];
      var g := Gather(init, use, limits, req, preFilter);
      VisitSources(g, b, use, limits, req, preFilter);
      SubseqExtend(g.sources, Names(init), b.name);
      SubseqAppendBoth(g.sources, Names(init), b.name);
    }
  }

  /**
   * With a pre-filter that never adds papers, the aggregated list is no
   * longer than the total collected; nothing is collected exactly when no
   * back-end contributed, and then nothing is aggregated.
   */
  lemma {:induction false} GatherCollected(bs: seq<Backend>, use: seq<string>, limits: map<string, Value>, req: Request,
                                           preFilter: seq<PaperDict> -> seq<PaperDict>)
    requires forall ps :: |preFilter(ps)| <= |ps|
    ensures var g := Gather(bs, use, limits, req, preFilter);
      |g.papers| <= g.collected && (g.collected == 0 <==> g.sources == []) && (g.sources == [] ==> g.papers == [])
    decreases |bs|
  {
    if bs != [] {
      GatherCollected(bs[..|bs| - 1], use, limits, req, preFilter);
    }
  }

  /** A back-end that raises contributes nothing and stops none of the others. */
  lemma {:induction false} GatherIsolation(bs: seq<Backend>, i: nat, use: seq<string>, limits: map<string, Value>,
                                           req: Request, preFilter: seq<PaperDict> -> seq<PaperDict>)
    requires i < |bs| && Raises(bs[i], req.query)
    ensures SameHarvest(Gather(bs, use, limits, req, preFilter),
                        Gather(bs[..i] + bs[i + 1..], use, limits, req, preFilter))
    decreases |bs|
  {
    var rest := bs[..i] + bs[i + 1..];
    if i == |bs| - 1 {
      assert rest == bs[..|bs| - 1];
      var b := bs[i];
      assert b.search(req.query, Get(limits, b.name, IntV(req.limit)), req.minYear, req.maxYear).Err?;
    } else {
      var init := bs[..|bs| - 1];
      GatherIsolation(init, i, use, limits, req, preFilter);
      assert init[..i] + init[i + 1..] == rest[..|rest| - 1];
      assert rest[|rest| - 1] == bs[|bs| - 1];
    }
  }

  // ---------------------------------------------------------------- ranking dispatch

  /** The citation explanation builder, with the given reading of `int(year)`. */
  function CitationExplain(ctx: Context, reading: YearReading): (PaperDict, nat) -> Result<string>
  {
    CitationExplainer(ctx.citationTail, reading)
  }

  /**
   * The dispatch: the AI provider for 'ai' when one is configured, falling
   * back to _rank_by_citations when it raises; the diversity ranking for
   * 'citations'; _rank_by_year for 'year'; otherwise the first `ai_result_limit`.
   * `reading` says how the citation explanations read `int(year)`.
   */
  function Ranked(pre: seq<PaperDict>, req: Request, ctx: Context, reading: YearReading): Result<seq<PaperDict>>
  {
    if req.mode == "ai" && ctx.aiRank.Some? then
      match ctx.aiRank.value(req.query, pre, req.aiResultLimit)
      case Ok(r) => Ok(r)
      case Err(_) => RankedByCitations(pre, req.aiResultLimit, CitationExplain(ctx, reading))
    else if req.mode == "citations" then DiverseRanked(pre, req.aiResultLimit, CitationExplain(ctx, reading))
    else if req.mode == "year" then RankedByYear(pre, req.aiResultLimit, YearExplainer(ctx.yearTail))
    else Ok(Slice(pre, req.aiResultLimit))
  }

  /**
   * In AI mode a failing AI provider does not fail the search: the
   * citation ranking takes over and, on papers whose text fields are
   * strings, succeeds; without an AI provider the mode falls through to
   * the plain cut.
   */
  lemma AiRankingFallback(pre: seq<PaperDict>, req: Request, ctx: Context)
    requires req.mode == "ai"
    requires forall i :: 0 <= i < |pre| ==> StringFields(pre[i])
    requires CitationOrdered(pre, req.aiResultLimit).Ok?
    ensures ctx.aiRank.None? ==> Ranked(pre, req, ctx, Corrected) == Ok(Slice(pre, req.aiResultLimit))
    ensures ctx.aiRank.Some? && ctx.aiRank.value(req.query, pre, req.aiResultLimit).Err? ==>
      Ranked(pre, req, ctx, Corrected) == RankedByCitations(pre, req.aiResultLimit, CitationExplain(ctx, Corrected)) &&
      Ranked(pre, req, ctx, Corrected).Ok?
  {
    CorrectedRankingTotal(pre, req.aiResultLimit, ctx.citationTail);
  }

  // ---------------------------------------------------------------- the result

  /** The Paper built from a merged dict; it reads only these nine keys. */
  function ToPaper(d: PaperDict): Paper
  {
    Paper(Get(d, "title", StrV("")), Get(d, "authors", StrV("")), Get(d, "abstract", StrV("")),
          Get(d, "year", NoneV), Get(d, "url", StrV("")), Get(d, "citations", IntV(0)),
          Get(d, "source", StrV("")), Get(d, "published", StrV("")), Get(d, "explanation", StrV("")),
          NoneV, NoneV, None, None)
  }

  function SourceList(sources: seq<string>): Value
  {
    ListV(Map(sources, (s: string) => StrV(s)))
  }

  function Outcome(papers: seq<Paper>, totalFound: nat, req: Request, sources: seq<string>, stats: Stats,
                   now: Stamp, elapsed: Value): SearchResult
  {
    NewSearchResult(papers, StrV(req.query), IntV(totalFound), elapsed, StrV(req.mode), SourceList(sources),
                    NoneV, BoolV(false), None, Some(stats), now)
  }

  /**
   * The stages after the provider loop, with the ranking given as `rank`:
   * an empty aggregation returns at once; otherwise year filter,
   * deduplication, fast pre-ranking beyond the AI capacity, ranking,
   * cleanup, merge against the (filtered) aggregated papers, final slice.
   */
  function Finish(g: Gathered, req: Request, ctx: Context, rank: seq<PaperDict> -> Result<seq<PaperDict>>,
                  now: Stamp, elapsed: Value): Result<SearchResult>
  {
    if g.papers == [] then
      Ok(Outcome([], 0, req, g.sources, Stats(g.collected, 0, 0, 0, g.used, false), now, elapsed))
    else
      var all := YearFiltered(g.papers, req.minYear, req.maxYear);
      match DedupBy(all, TitleDedupKey)
      case Err(e) => Err(e)
      case Ok(unique) =>
        var max := ctx.settings.maxPapersForAi;
        var pre := if |unique| > max then FastPreRanked(unique, req.query, max, ctx.env, ServiceCopy) else unique;
        var stats := Stats(g.collected, |g.papers|, |unique|, |pre|, g.used, |unique| > max);
        Deliver(rank(pre), all, req, g.sources, stats, now, elapsed)
  }

  /** The ranked papers, cleaned, merged with their full details in `all`, cut to `ai_result_limit` and converted. */
  function Deliver(ranked: Result<seq<PaperDict>>, all: seq<PaperDict>, req: Request, sources: seq<string>,
                   stats: Stats, now: Stamp, elapsed: Value): Result<SearchResult>
  {
    match ranked
    case Err(e) => Err(e)
    case Ok(ranked) =>
      match MapResult(Map(ranked, Cleaned), MergeEntryFn(all))
      case Err(e) => Err(e)
      case Ok(final) =>
        Ok(Outcome(Map(Slice(final, req.aiResultLimit), ToPaper), |final|, req, sources, stats, now, elapsed))
  }

  /**
   * What aggregate_and_rank_papers returns once its two defects are
   * corrected (the provider selection of _optimize_provider_usage, and the
   * `int(year)` of the citation explanation), at time `now` and after
   * `elapsed` seconds; Err is an exception it lets through. The rest of
   * this module states its properties about this corrected pipeline.
   */
  function Aggregated(req: Request, ctx: Context, now: Stamp, elapsed: Value): Result<SearchResult>
  {
    match ProviderUsage(Names(ctx.backends), req.mode, req.limit, req.aiResultLimit, ctx.settings)
    case Err(e) => Err(e)
    case Ok((use, limits)) =>
      var g := Gather(ctx.backends, use, limits, req, PreFilterFor(req, ctx));
      Finish(g, req, ctx, (pre: seq<PaperDict>) => Ranked(pre, req, ctx, Corrected), now, elapsed)
  }

  /**
   * aggregate_and_rank_papers as written: the provider selection is the one
   * that reads ProviderType.OPENCITATIONS, and the citation explanations call
   * `int(year)` outside any `try`.
   */
  function AggregatedAsWritten(req: Request, ctx: Context, now: Stamp, elapsed: Value): Result<SearchResult>
  {
    match ProviderUsageAsWritten(Names(ctx.backends), req.mode, req.limit, req.aiResultLimit, ctx.settings)
    case Err(e) => Err(e)
    case Ok((use, limits)) =>
      var g := Gather(ctx.backends, use, limits, req, PreFilterFor(req, ctx));
      Finish(g, req, ctx, (pre: seq<PaperDict>) => Ranked(pre, req, ctx, AsWritten), now, elapsed)
  }

  /**
   * As written, every search raises AttributeError before the first
   * back-end is called, whatever the request, the registered back-ends and
   * the AI provider.
   */
  lemma AggregatedAsWrittenRaises(req: Request, ctx: Context, now: Stamp, elapsed: Value)
    ensures AggregatedAsWritten(req, ctx, now, elapsed) == Err("AttributeError: OPENCITATIONS")
  {
    ProviderUsageAsWrittenRaises(Names(ctx.backends), req.mode, req.limit, req.aiResultLimit, ctx.settings);
  }

  // ---------------------------------------------------------------- properties of the result

  /** The statistics of a successful aggregation, read off the result. */
  function StatsOf(r: SearchResult): Stats
    requires r.aggregationStats.Some?
  {
    r.aggregationStats.value
  }

  /**
   * The funnel only narrows: no more papers survive the year filter and
   * deduplication than the pre-filters kept, and no more than were
   * collected; pre-ranking is applied exactly when more unique papers
   * remain than MAX_PAPERS_FOR_AI, and then exactly that many go on.
   */
  lemma FinishFunnel(g: Gathered, req: Request, ctx: Context, rank: seq<PaperDict> -> Result<seq<PaperDict>>,
                     now: Stamp, elapsed: Value)
    requires |g.papers| <= g.collected && ctx.settings.maxPapersForAi >= 0
    requires Finish(g, req, ctx, rank, now, elapsed).Ok?
    ensures var r := Finish(g, req, ctx, rank, now, elapsed).value;
      var max := ctx.settings.maxPapersForAi;
      r.aggregationStats.Some? &&
      var s := StatsOf(r);
      s.totalCollected == g.collected && s.providersUsed == g.used &&
      s.afterDedup <= s.afterPreFilter <= s.totalCollected &&
      (s.preRankingApplied <==> s.afterDedup > max) &&
      s.sentToAi == (if s.afterDedup > max then max else s.afterDedup)
  {
    if g.papers != [] {
      var all := YearFiltered(g.papers, req.minYear, req.maxYear);
      if req.minYear.Some? || req.maxYear.Some? {
        YearFilterExact(g.papers, req.minYear, req.maxYear);
        SubseqLength(all, g.papers);
      }
      var unique := DedupBy(all, TitleDedupKey);
      DedupDistinct(all, TitleDedupKey);
      SubseqLength(unique.value, all);
      var max := ctx.settings.maxPapersForAi;
      if |unique.value| > max {
        FastPreRankProperties(unique.value, req.query, max, ctx.env, ServiceCopy);
      }
    }
  }

  /**
   * The result holds at most `ai_result_limit` papers, names the
   * contributing back-ends, and is stamped with its creation time; an
   * empty aggregation gives an empty result with nothing found.
   */
  lemma FinishShape(g: Gathered, req: Request, ctx: Context, rank: seq<PaperDict> -> Result<seq<PaperDict>>,
                    now: Stamp, elapsed: Value)
    requires Finish(g, req, ctx, rank, now, elapsed).Ok?
    ensures var r := Finish(g, req, ctx, rank, now, elapsed).value;
      (req.aiResultLimit >= 0 ==> |r.papers| <= req.aiResultLimit) &&
      r.backendsUsed == SourceList(g.sources) && r.createdAt == Some(now) &&
      r.query == StrV(req.query) && r.rankingMode == StrV(req.mode) &&
      (g.papers == [] ==> r.papers == [] && r.totalFound == IntV(0))
  {
  }

  /** A back-end loop in which every back-end raises gathers nothing and records zero counts for each selected one. */
  lemma {:induction false} GatherAllRaise(bs: seq<Backend>, use: seq<string>, limits: map<string, Value>,
                                          req: Request, preFilter: seq<PaperDict> -> seq<PaperDict>)
    requires forall i :: 0 <= i < |bs| ==> Raises(bs[i], req.query)
    ensures var g := Gather(bs, use, limits, req, preFilter);
      g.papers == [] && g.sources == [] && g.collected == 0 &&
      forall n :: n in g.used ==> g.used[n] == ProviderCounts(0, 0)
    decreases |bs|
  {
    if bs != [] {
      var b := bs[|bs| - 1];
      assert Raises(b, req.query);
      assert b.search(req.query, Get(limits, b.name, IntV(req.limit)), req.minYear, req.maxYear).Err?;
      GatherAllRaise(bs[..|bs| - 1], use, limits, req, preFilter);
    }
  }

  /**
   * When every back-end raises, the search still succeeds (unless the
   * provider selection itself raises): no papers, nothing found, no
   * back-end used, and a zero entry for every selected back-end.
   */
  lemma AllProvidersRaise(req: Request, ctx: Context, now: Stamp, elapsed: Value)
    requires forall i :: 0 <= i < |ctx.backends| ==> Raises(ctx.backends[i], req.query)
    requires ProviderUsage(Names(ctx.backends), req.mode, req.limit, req.aiResultLimit, ctx.settings).Ok?
    ensures Aggregated(req, ctx, now, elapsed).Ok?
    ensures var r := Aggregated(req, ctx, now, elapsed).value;
      r.papers == [] && r.totalFound == IntV(0) && r.backendsUsed == ListV([]) &&
      r.aggregationStats.Some? && StatsOf(r).totalCollected == 0 &&
      forall n :: n in StatsOf(r).providersUsed ==> StatsOf(r).providersUsed[n] == ProviderCounts(0, 0)
  {
    var (use, limits) := ProviderUsage(Names(ctx.backends), req.mode, req.limit, req.aiResultLimit, ctx.settings).value;
    GatherAllRaise(ctx.backends, use, limits, req, PreFilterFor(req, ctx));
  }

  // ---------------------------------------------------------------- the registered callables

  /**
   * The callable service_factory registers for a search provider: it accepts
   * (query, max_results=10) only, so the four-argument call of the provider
   * loop raises TypeError before the wrapper's body runs.
   */
  function FactoryBackend(name: string): Backend
  {
    Backend(name, (q: string, lim: Value, lo: Option<int>, hi: Option<int>) =>
      Err("TypeError: search_func() takes from 1 to 2 positional arguments but 4 were given"))
  }

  /**
   * In the application as wired, where every registered back-end is a
   * factory callable, a search whose provider selection succeeds returns no
   * papers at all, whatever the providers would have found.
   */
  lemma FactoryWiredFindsNothing(req: Request, ctx: Context, now: Stamp, elapsed: Value)
    requires forall i :: 0 <= i < |ctx.backends| ==> ctx.backends[i] == FactoryBackend(ctx.backends[i].name)
    requires ProviderUsage(Names(ctx.backends), req.mode, req.limit, req.aiResultLimit, ctx.settings).Ok?
    ensures Aggregated(req, ctx, now, elapsed).Ok?
    ensures var r := Aggregated(req, ctx, now, elapsed).value;
      r.papers == [] && r.totalFound == IntV(0) && r.backendsUsed == ListV([])
  {
    FactoryBackendsRaise(ctx.backends, req.query);
    AllProvidersRaise(req, ctx, now, elapsed);
  }

  /** Every factory callable raises, for any query and any arguments after it. */
  lemma FactoryBackendsRaise(bs: seq<Backend>, query: string)
    requires forall i :: 0 <= i < |bs| ==> bs[i] == FactoryBackend(bs[i].name)
    ensures forall i :: 0 <= i < |bs| ==> Raises(bs[i], query)
  {
    forall i | 0 <= i < |bs|
      ensures Raises(bs[i], query)
    {
      var b := bs[i];
      forall v, lo, hi ensures b.search(query, v, lo, hi).Err? {
        assert b == FactoryBackend(b.name);
      }
    }
  }

  /**
   * With callables that take the loop's four arguments, a selected
   * back-end whose call returns papers is among the contributing
   * back-ends, whatever the back-ends around it do.
   */
  lemma {:induction false} GatherContributes(bs: seq<Backend>, i: nat, use: seq<string>, limits: map<string, Value>,
                                            req: Request, preFilter: seq<PaperDict> -> seq<PaperDict>)
    requires i < |bs| && bs[i].name in use
    requires var r := bs[i].search(req.query, Get(limits, bs[i].name, IntV(req.limit)), req.minYear, req.maxYear);
      r.Ok? && Extracted(r.value, bs[i].name) != []
    ensures bs[i].name in Gather(bs, use, limits, req, preFilter).sources
    decreases |bs|
  {
    var init := bs[..|bs| - 1];
    if i < |bs| - 1 {
      GatherContributes(init, i, use, limits, req, preFilter);
      VisitSources(Gather(init, use, limits, req, preFilter), bs[|bs| - 1], use, limits, req, preFilter);
    }
  }

  /** The pre-filter never adds papers. */
  lemma PreFilterShrinks(req: Request, ctx: Context)
    ensures forall ps :: |PreFilterFor(req, ctx)(ps)| <= |ps|
  {
    forall ps: seq<PaperDict>
      ensures |PreFilterFor(req, ctx)(ps)| <= |ps|
    {
      PreFilterProperties(ps, req.query, ctx.env, ServiceCopy, ctx.settings);
    }
  }

  /**
   * What a successful aggregate_and_rank_papers reports: at most
   * `ai_result_limit` papers; a counts entry for exactly the selected
   * back-ends; the back-ends used, selected ones in registry order; the
   * narrowing funnel of FinishFunnel.
   */
  lemma AggregatedProperties(req: Request, ctx: Context, now: Stamp, elapsed: Value)
    requires ctx.settings.maxPapersForAi >= 0
    requires Aggregated(req, ctx, now, elapsed).Ok?
    ensures var r := Aggregated(req, ctx, now, elapsed).value;
      var max := ctx.settings.maxPapersForAi;
      (req.aiResultLimit >= 0 ==> |r.papers| <= req.aiResultLimit) && r.createdAt == Some(now) &&
      r.aggregationStats.Some? &&
      var s := StatsOf(r);
      (forall n :: n in s.providersUsed ==> n in Names(ctx.backends)) &&
      (exists sources :: r.backendsUsed == SourceList(sources) && SubseqOf(sources, Names(ctx.backends))) &&
      s.afterDedup <= s.afterPreFilter <= s.totalCollected &&
      (s.preRankingApplied <==> s.afterDedup > max) &&
      s.sentToAi == (if s.afterDedup > max then max else s.afterDedup)
  {
    var (use, limits) := ProviderUsage(Names(ctx.backends), req.mode, req.limit, req.aiResultLimit, ctx.settings).value;
    var pf := PreFilterFor(req, ctx);
    var g := Gather(ctx.backends, use, limits, req, pf);
    var rank := (pre: seq<PaperDict>) => Ranked(pre, req, ctx, Corrected);
    PreFilterShrinks(req, ctx);
    GatherCollected(ctx.backends, use, limits, req, pf);
    GatherUsed(ctx.backends, use, limits, req, pf);
    GatherSources(ctx.backends, use, limits, req, pf);
    FinishFunnel(g, req, ctx, rank, now, elapsed);
    FinishShape(g, req, ctx, rank, now, elapsed);
  }

  // ---------------------------------------------------------------- the methods

  /** _pre_filter_papers for the request's query. */
  method FilterProviderPapers(papers: seq<PaperDict>, req: Request, ctx: Context) returns (kept: seq<PaperDict>)
    ensures kept == PreFilterFor(req, ctx)(papers)
  {
    kept := PreFilterPapers(papers, req.query, ctx.env, ServiceCopy, ctx.settings);
  }

  /** The bookkeeping for one back-end's extracted papers, `kept` being what the pre-filter left of them. */
  method AbsorbPapers(g: Gathered, name: string, papers: seq<PaperDict>, kept: seq<PaperDict>,
                      ghost preFilter: seq<PaperDict> -> seq<PaperDict>) returns (next: Gathered)
    requires papers != [] ==> kept == preFilter(papers)
    ensures next == Absorb(g, name, papers, preFilter)
  {
    if papers == [] {
      return g.(used := g.used[name := ProviderCounts(0, 0)]);
    }
    next := Gathered(g.papers + kept, g.sources + [name], g.collected + |papers|,
                     g.used[name := ProviderCounts(|papers|, |kept|)]);
  }

  /** One iteration of the provider loop. */
  method VisitBackend(g: Gathered, b: Backend, use: seq<string>, limits: map<string, Value>, req: Request,
                      ctx: Context) returns (next: Gathered)
    ensures next == Visit(g, b, use, limits, req, PreFilterFor(req, ctx))
  {
    if b.name !in use {
      return g;
    }
    var outcome := b.search(req.query, Get(limits, b.name, IntV(req.limit)), req.minYear, req.maxYear);
    if outcome.Err? {
      return g.(used := g.used[b.name := ProviderCounts(0, 0)]);
    }
    var papers := ExtractPapersFromResult(outcome.value, b.name);
    var kept := [];
    if papers != [] {
      kept := FilterProviderPapers(papers, req, ctx);
    }
    next := AbsorbPapers(g, b.name, papers, kept, PreFilterFor(req, ctx));
  }

  /** The provider loop of aggregate_and_rank_papers, over the registry in order. */
  method CollectFromProviders(req: Request, ctx: Context, use: seq<string>, limits: map<string, Value>)
    returns (g: Gathered)
    ensures g == Gather(ctx.backends, use, limits, req, PreFilterFor(req, ctx))
  {
    var bs := ctx.backends;
    g := Gathered([], [], 0, map[]);
    var i := 0;
    while i < |bs|
      invariant 0 <= i <= |bs|
      invariant g == Gather(bs[..i], use, limits, req, PreFilterFor(req, ctx))
    {
      assert bs[..i + 1][..i] == bs[..i];
      g := VisitBackend(g, bs[i], use, limits, req, ctx);
      i := i + 1;
    }
    assert bs[..i] == bs;
  }

  /** The ranking dispatch of aggregate_and_rank_papers. */
  method RankCandidates(pre: seq<PaperDict>, req: Request, ctx: Context) returns (r: Result<seq<PaperDict>>)
    ensures r == Ranked(pre, req, ctx, Corrected)
  {
    if req.mode == "ai" && ctx.aiRank.Some? {
      r := ctx.aiRank.value(req.query, pre, req.aiResultLimit);
      if r.Err? {
        r := RankByCitations(pre, req.aiResultLimit, CitationExplain(ctx, Corrected));
      }
    } else if req.mode == "citations" {
      r := RankByCitationsWithDiversity(pre, req.aiResultLimit, CitationExplain(ctx, Corrected));
    } else if req.mode == "year" {
      r := RankByYear(pre, req.aiResultLimit, YearExplainer(ctx.yearTail));
    } else {
      r := Ok(Slice(pre, req.aiResultLimit));
    }
  }

  /** The Paper objects of the final slice. */
  method BuildPapers(top: seq<PaperDict>) returns (papers: seq<Paper>)
    ensures papers == Map(top, ToPaper)
  {
    papers := [];
    for i := 0 to |top|
      invariant papers == Map(top[..i], ToPaper)
    {
      MapStep(top, i, ToPaper);
      papers := papers + [ToPaper(top[i])];
    }
    assert top[..|top|] == top;
  }

  /** The stages after the provider loop. */
  method FinishSearch(g: Gathered, req: Request, ctx: Context, now: Stamp, elapsed: Value)
    returns (r: Result<SearchResult>)
    ensures r == Finish(g, req, ctx, (pre: seq<PaperDict>) => Ranked(pre, req, ctx, Corrected), now, elapsed)
  {
    if g.papers == [] {
      return Ok(Outcome([], 0, req, g.sources, Stats(g.collected, 0, 0, 0, g.used, false), now, elapsed));
    }
    var all := g.papers;
    if req.minYear.Some? || req.maxYear.Some? {
      all := FilterResultsByYear(g.papers, req.minYear, req.maxYear);
    }
    var unique := RemoveDuplicates(all);
    if unique.Err? {
      return Err(unique.error);
    }
    var max := ctx.settings.maxPapersForAi;
    var pre := unique.value;
    if |unique.value| > max {
      pre := FastPreRank(unique.value, req.query, max, ctx.env, ServiceCopy);
    }
    var stats := Stats(g.collected, |g.papers|, |unique.value|, |pre|, g.used, |unique.value| > max);
    var ranked := RankCandidates(pre, req, ctx);
    r := DeliverResults(ranked, all, req, g.sources, stats, now, elapsed);
  }

  /** The tail of aggregate_and_rank_papers: cleanup, merge, the Paper objects and the SearchResult. */
  method DeliverResults(ranked: Result<seq<PaperDict>>, all: seq<PaperDict>, req: Request, sources: seq<string>,
                        stats: Stats, now: Stamp, elapsed: Value) returns (r: Result<SearchResult>)
    ensures r == Deliver(ranked, all, req, sources, stats, now, elapsed)
  {
    if ranked.Err? {
      return Err(ranked.error);
    }
    var cleaned := CleanupTemporaryFields(ranked.value);
    var merged := MergeRankedWithDetails(cleaned, all);
    if merged.Err? {
      return Err(merged.error);
    }
    var papers := BuildPapers(Slice(merged.value, req.aiResultLimit));
    r := Ok(Outcome(papers, |merged.value|, req, sources, stats, now, elapsed));
  }

  /** aggregate_and_rank_papers. */
  method AggregateAndRankPapers(req: Request, ctx: Context, now: Stamp, elapsed: Value)
    returns (r: Result<SearchResult>)
    ensures r == Aggregated(req, ctx, now, elapsed)
  {
    var usage := OptimizeProviderUsage(Names(ctx.backends), req.mode, req.limit, req.aiResultLimit, ctx.settings);
    if usage.Err? {
      return Err(usage.error);
    }
    var (use, limits) := usage.value;
    var g := CollectFromProviders(req, ctx, use, limits);
    r := FinishSearch(g, req, ctx, now, elapsed);
  }
}
