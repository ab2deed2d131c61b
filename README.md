# ai_scholar in Dafny

A model of the search-and-ranking core of ai_scholar, a tool that searches
several scholarly databases for a query, merges what they return, and
ranks the merged papers by AI relevance, by citations or by recency.

What is modelled, one Dafny module per source file:

- **The aggregation pipeline.** `PaperService.aggregate_and_rank_papers`
  is modelled in `Aggregation`. It covers:
  - the provider loop, where a back-end that raises is isolated;
  - the per-provider pre-filter, the year filter and deduplication on the
    normalised title;
  - the fast pre-ranking beyond the AI capacity, the ranking dispatch,
    cleanup, the merge with the full details, and the final slice.

  The stages themselves are modelled as follows:
  - `PaperProcessingUtils` models the static helpers and their copies in
    `PaperService`; the `Copy` parameter tells the two apart where they
    differ.
  - `PaperRanking` models both ranking copies: `rank_by_citations` and
    `rank_by_year` in `PaperRankingService`, and `_rank_by_citations` and
    `_rank_by_year` in `PaperService`.
  - `PaperService` models the provider selection, the diversity ranking
    and the comparison tables. `PaperComparison` models `compare_papers`.
- **The legacy pipelines.** `AIService` models the ranking dispatch. The two
  `paper_aggregator.py` modules are modelled in `LegacyAggregators`. The
  batch ranker `ai_ranker` is modelled in `AiRanker`, with its batch loops
  stated once in `Batching`.
- **The search providers, minus HTTP.** `OpenAlexProviders`,
  `CrossRefProviders`, `CoreProviders`, `ArxivProviders`,
  `SemanticScholarProviders` and `OpenCitationsProviders` each model one
  adapter: query validation, request parameters, per-record
  standardisation and the quality filters. What they share is in
  `SearchCommon`.
- **The AI providers.** The quota state of the Gemini and OpenRouter
  back-ends is modelled in `Quotas`, `GeminiProviders` and
  `OpenRouterProviders`. Gemini's matching of an AI reply back to the
  candidate papers is in `GeminiProviders`. The key manager
  `AIModelManager` is in `AiModels`, and the AI response helpers (both
  identical copies) are in `AiUtils`.
- **The utilities.**
  - `Validators`, and `SearchRequests` for the `SearchRequest` model.
  - `Models`, for the `Paper` and `SearchResult` data classes.
  - `Cache`, for the TTL search cache: a class whose map is updated in place.
  - `SearchServices`, for `SearchService`'s cache-then-call flow.
  - `Helpers`, for `ai_scholar/utils/helpers.py` and its copy `utils/utils.py`.
  - `WebHelpers`, `ErrorHandling`, `CitationMatcher`, `PaperIndexer`, and
    `Pagination` for the pagination of the history page.

Shared modules:
- `Values` holds the dynamic values of a paper dict: `None`, bool, int,
  float, str, list and dict. It also holds the Python built-ins applied to
  them: truthiness, `int()`, `str()` and `dict.get`.
- `Text` holds the string primitives. `Lists` holds list comprehensions
  and the subsequence relation. `Sorting` holds the stable descending sort
  that `sorted(..., reverse=True)` performs, proved sorted, a permutation
  and stable. `Dedup` holds the first-seen-wins keyed scans.
- `Config` holds the settings and the environment. `Base` holds Option and
  Result.

Conventions:
- A paper dict is a value, `map<string, Value>`.
- An exception the code lets through is `Err`.
- Every call the code makes to something outside the core is a parameter
  of the model: HTTP, an AI model, a JSON or XML parser, the clock, hashing
  and `math.log10`.
- A loop in the source is a method with a `while` or `for` loop. Its
  `ensures` ties the result to the function that specifies it, and lemmas
  state what that function promises.
- The source has four defects. The model records each of them as written
  and as corrected; see "Findings". The rest of the pipeline is stated
  about the corrected code.

## Model

| member | source | states |
|---|---|---|
| PaperService.OpenCitationsIsNoMember | ai_scholar/services/paper_service.py:214-216 | the provider enum has no OPENCITATIONS member, so building the citation list raises AttributeError |
| PaperService.MinNumBound | ai_scholar/services/paper_service.py:224-237 | Python's min of a limit and MAX_PER_PROVIDER is within both |
| PaperService.CitationModeAsWrittenRaises | ai_scholar/services/paper_service.py:219-240 | as written, the citation branch writes to per_provider_limits before it is bound, so it raises wherever the corrected branch returns limits |
| PaperService.ProviderUsageAsWrittenRaises | ai_scholar/services/paper_service.py:201-275 | as written, every call raises AttributeError: OPENCITATIONS, whatever the mode and the registered back-ends |
| PaperService.FillLimits | ai_scholar/services/paper_service.py:226-264 | the limit loop gives each selected back-end its mode's limit and no other back-end one |
| PaperService.OptimizeProviderUsage | ai_scholar/services/paper_service.py:201-275 | the corrected provider choice returns what ProviderUsageProperties characterises |
| PaperService.ProviderUsageProperties | ai_scholar/services/paper_service.py:201-275 | corrected, the citation mode uses exactly the registered citation back-ends, the other modes all of them; it fails (division by zero) exactly when that list is empty in citation or year mode; every used back-end and no other gets a limit, none above MAX_PER_PROVIDER, and in standard mode each is min(limit, MAX_PER_PROVIDER) |
| PaperService.RuleLimitBound | ai_scholar/services/paper_service.py:224-264 | each mode's rule gives every back-end a limit within MAX_PER_PROVIDER |
| PaperService.ReservedPlaces | ai_scholar/services/paper_service.py:730 | at least two places are reserved for OpenCitations papers, and more only up to their number and a third of the limit; never more than a limit of at least 2 |
| PaperService.FirstPassSaturated | ai_scholar/services/paper_service.py:742-744 | once the first loop holds limit papers, the rest of the ranking changes nothing |
| PaperService.FillPassSaturated | ai_scholar/services/paper_service.py:758-760 | once the second loop holds limit papers, the rest of the ranking changes nothing |
| PaperService.PickReserved | ai_scholar/services/paper_service.py:738-753 | the first loop, with its early exit, takes what FirstPass describes |
| PaperService.FillRemaining | ai_scholar/services/paper_service.py:755-762 | the second loop, with its early exit, adds what FillPass describes |
| PaperService.RankByCitationsWithDiversity | ai_scholar/services/paper_service.py:721-769 | the two loops over the ranking of twice the limit return what DiverseByFallback and DiverseByShares characterise |
| PaperService.FirstPassCounts | ai_scholar/services/paper_service.py:742-753 | the first loop takes min(reserved, available) OpenCitations papers and min(limit - reserved, available) others, nothing else |
| PaperService.FirstPassKinds | ai_scholar/services/paper_service.py:742-753 | the first loop's papers come in ranking order, and its OpenCitations count is the number of them from OpenCitations |
| PaperService.UsedTitleIsPyEq | ai_scholar/services/paper_service.py:757-761 | two titles take the same place in the set of used titles exactly when Python's == holds between them |
| PaperService.FillPassShape | ai_scholar/services/paper_service.py:755-762 | the second loop keeps what the first took, stops at limit, and adds only ranked papers whose title is unused |
| PaperService.ExtendedCounts | ai_scholar/services/paper_service.py:755-762 | extending the list can only raise the number of each kind |
| PaperService.DiversifiedExtends | ai_scholar/services/paper_service.py:738-767 | the result starts with what the first loop took, holds at most limit papers, and adds only ranked papers |
| PaperService.DiversifiedShape | ai_scholar/services/paper_service.py:738-767 | at most limit ranked papers, of which at least min(reserved, available) are from OpenCitations and at least min(limit - reserved, available) are not |
| PaperService.DiverseByFallback | ai_scholar/services/paper_service.py:724-769 | without both OpenCitations and other papers the result is the plain citation ranking to limit; with both it fails exactly when the ranking of twice the limit fails |
| PaperService.DiverseByShares | ai_scholar/services/paper_service.py:727-767 | with both kinds present and a limit of at least 2, at most limit papers of the ranking of twice the limit, at least min(reserved, available) from OpenCitations and at least min(limit - reserved, available) from elsewhere |
| PaperService.DiverseWithShares | ai_scholar/services/paper_service.py:727-767 | the same shares for any source test and reservation rule that reserves between 0 and limit places |
| Aggregation.Names | ai_scholar/services/paper_service.py:59 | the back-end names, one per registry entry, in registry order |
| Aggregation.GatherUsed | ai_scholar/services/paper_service.py:59-109 | a counts entry is recorded for exactly the selected registered back-ends, whatever each did |
| Aggregation.VisitSources | ai_scholar/services/paper_service.py:61-109 | one iteration either appends its back-end, a selected one, to the sources or leaves them alone |
| Aggregation.GatherSources | ai_scholar/services/paper_service.py:59-109 | the contributing back-ends are selected ones, in registry order |
| Aggregation.GatherCollected | ai_scholar/services/paper_service.py:72-94 | with a pre-filter that never adds papers, no more papers are aggregated than collected; nothing is collected exactly when no back-end contributed, and then nothing is aggregated |
| Aggregation.GatherIsolation | ai_scholar/services/paper_service.py:103-109 | a back-end that raises contributes nothing and stops none of the others: the loop gathers what it gathers without that back-end |
| Aggregation.AiRankingFallback | ai_scholar/services/paper_service.py:143-169 | in AI mode, a failing AI provider hands over to the citation ranking, which then succeeds on papers with string text fields; without an AI provider the first ai_result_limit papers are kept |
| Aggregation.FinishFunnel | ai_scholar/services/paper_service.py:122-138 | the statistics only narrow: after dedup ≤ after pre-filter ≤ collected; pre-ranking is applied exactly when more unique papers than MAX_PAPERS_FOR_AI remain, and then exactly that many are sent on |
| Aggregation.FinishShape | ai_scholar/services/paper_service.py:111-199 | at most ai_result_limit papers, the contributing back-ends as backends_used, the query, the mode and the creation time; no aggregated paper gives no paper and nothing found |
| Aggregation.GatherAllRaise | ai_scholar/services/paper_service.py:59-109 | when every back-end raises, nothing is collected or aggregated and every selected back-end has zero counts |
| Aggregation.AllProvidersRaise | ai_scholar/services/paper_service.py:22-120 | with the corrected provider selection, when every back-end raises the search still returns: no papers, nothing found, no back-end used, zero counts for every selected back-end |
| Aggregation.PreFilterShrinks | ai_scholar/services/paper_service.py:76 | the pre-filter never adds papers |
| Aggregation.AggregatedProperties | ai_scholar/services/paper_service.py:22-199 | corrected, a successful search returns at most ai_result_limit papers, counts only registered back-ends, names selected back-ends in registry order as used, and reports the narrowing funnel of FinishFunnel |
| Aggregation.FilterProviderPapers | ai_scholar/services/paper_service.py:76 | the pre-filter of one back-end's papers for the request's query |
| Aggregation.AbsorbPapers | ai_scholar/services/paper_service.py:72-101 | the bookkeeping of one back-end's papers: counted, pre-filtered, appended, and the back-end recorded as used when there are any |
| Aggregation.VisitBackend | ai_scholar/services/paper_service.py:60-109 | one iteration of the provider loop does what Visit describes |
| Aggregation.CollectFromProviders | ai_scholar/services/paper_service.py:59-109 | the provider loop gathers what the Gather lemmas characterise |
| Aggregation.RankCandidates | ai_scholar/services/paper_service.py:140-169 | the ranking dispatch ranks as AiRankingFallback characterises |
| Aggregation.BuildPapers | ai_scholar/services/paper_service.py:175-189 | one Paper per dict of the final slice, in order |
| Aggregation.FinishSearch | ai_scholar/services/paper_service.py:111-199 | the stages after the provider loop return what FinishFunnel and FinishShape characterise |
| Aggregation.DeliverResults | ai_scholar/services/paper_service.py:171-199 | cleanup, merge, conversion and the result object, as Deliver describes |
| Aggregation.AggregateAndRankPapers | ai_scholar/services/paper_service.py:22-199 | the corrected aggregate_and_rank_papers returns what AggregatedProperties and AllProvidersRaise characterise |
| Aggregation.FactoryBackendsRaise | ai_scholar/services/service_factory.py:66-80 | the callable service_factory registers takes at most two arguments, so every four-argument call of the provider loop raises, for any query |
| Aggregation.FactoryWiredFindsNothing | ai_scholar/services/paper_service.py:59-120 | with every back-end registered through service_factory, a search whose (corrected) provider selection succeeds returns no papers, a total of 0 and no back-ends used |
| Aggregation.GatherContributes | ai_scholar/services/paper_service.py:59-100 | with four-argument callables, a selected back-end whose call returns papers is always listed among the contributing back-ends, whatever the others do |
| Aggregation.AggregatedAsWrittenRaises | ai_scholar/services/paper_service.py:53-55 | as written, aggregate_and_rank_papers raises AttributeError for every request, before any back-end is called, because the provider selection reads ProviderType.OPENCITATIONS |
| PaperProcessingUtils.Extracted | ai_scholar/utils/paper_processing_utils.py:11-29 | a result that is not a list of dicts gives []; a list of dicts comes back paper for paper |
| PaperProcessingUtils.ExtractPapersFromResult | ai_scholar/utils/paper_processing_utils.py:11-29 | the tagging loop returns what Extracted and ExtractedSource characterise |
| PaperProcessingUtils.ExtractedSource | ai_scholar/utils/paper_processing_utils.py:25-29 | every extracted paper names its back-end as source and keeps every other field of its item |
| PaperProcessingUtils.RemoveDuplicates | ai_scholar/utils/paper_processing_utils.py:49-59 | the loop with the seen set returns what RemoveDuplicatesProperties characterises |
| PaperProcessingUtils.RemoveDuplicatesProperties | ai_scholar/utils/paper_processing_utils.py:49-59 | deduplication raises exactly when some title is not a string; otherwise it keeps, in input order, one paper per non-empty normalised title, covers every such title of the input, and is idempotent |
| PaperProcessingUtils.RemoveDuplicatesKeepsFirst | ai_scholar/utils/paper_processing_utils.py:53-57 | the first paper of each non-empty normalised title survives |
| PaperProcessingUtils.SafeStringConversionCases | ai_scholar/utils/paper_processing_utils.py:160-165 | None converts to '', a string to itself stripped, and no converted non-list value has surrounding whitespace |
| PaperProcessingUtils.SafeStringConversionIdempotent | ai_scholar/utils/paper_processing_utils.py:160-165 | converting an already converted string changes nothing |
| PaperProcessingUtils.MatchCount | ai_scholar/utils/paper_processing_utils.py:174-184 | the number of matching query words is at most the number of query words, and positive only for a non-empty text sharing a word with the query |
| PaperProcessingUtils.Share | ai_scholar/utils/paper_processing_utils.py:176-184 | a share of matching words lies in [0, 1] and is 0 exactly when nothing matched |
| PaperProcessingUtils.PhraseOfFewWords | ai_scholar/utils/paper_processing_utils.py:186 | with a set order that lists each query word once, the joined query of one word is that word, and of no word the empty string |
| PaperProcessingUtils.RelevanceFromTexts | ai_scholar/utils/paper_processing_utils.py:168-192 | the relevance score lies in [0, 1] |
| PaperProcessingUtils.RelevanceWithoutMatch | ai_scholar/utils/paper_processing_utils.py:168-192 | a paper sharing no query word and not containing the joined query scores 0 |
| PaperProcessingUtils.RelevancePhraseInTitle | ai_scholar/utils/paper_processing_utils.py:186-188 | the joined query inside the title earns at least 0.3 |
| PaperProcessingUtils.Relevance | ai_scholar/utils/paper_processing_utils.py:168-192 | the relevance score of a paper lies in [0, 1] |
| PaperProcessingUtils.QualityFromParts | ai_scholar/utils/paper_processing_utils.py:195-232 | the quality score lies in [0, 1] |
| PaperProcessingUtils.QualityScore | ai_scholar/utils/paper_processing_utils.py:195-232 | the quality score of a paper lies in [0, 1] |
| PaperProcessingUtils.QualityAbstractCopiesAgree | ai_scholar/services/paper_service.py:470-474 | both copies measure the same abstract when it is an already stripped string |
| PaperProcessingUtils.UtilsAbstractOfString | ai_scholar/utils/paper_processing_utils.py:204 | the utilities copy measures a string abstract stripped |
| PaperProcessingUtils.ServiceAbstractOfString | ai_scholar/services/paper_service.py:470-474 | the service copy measures a string abstract as it is |
| PaperProcessingUtils.QualityCopiesAgree | ai_scholar/services/paper_service.py:458-504 | for an already stripped string abstract, both copies of the quality score agree unless the year reads as 2014, which only the service copy, with 2024 as the current year, counts as recent |
| PaperProcessingUtils.QualityPartsAgree | ai_scholar/utils/paper_processing_utils.py:195-232 | parts earning the same recency credit under two current years give the same quality score |
| PaperProcessingUtils.YearQualityCopies | ai_scholar/utils/paper_processing_utils.py:222-230 | the recency credit differs between the current years 2025 and 2024 exactly for a year that reads as 2014 |
| PaperProcessingUtils.PreFilterStepPasses | ai_scholar/utils/paper_processing_utils.py:70-91 | every paper the loop body keeps has a title of at least ten characters, authors that are not a placeholder, and a score above the minimum |
| PaperProcessingUtils.StampedPasses | ai_scholar/utils/paper_processing_utils.py:80-91 | the cleaned paper with its score passes the pre-filter once its title, authors and score pass the body's tests |
| PaperProcessingUtils.PreFilterScore | ai_scholar/utils/paper_processing_utils.py:87 | the combined pre-filter score lies in [0, 1] |
| PaperProcessingUtils.PreFilterPapers | ai_scholar/utils/paper_processing_utils.py:62-98 | the scoring loop, the sort and the cut return what PreFilterProperties and PreFilterSelection characterise |
| PaperProcessingUtils.ScorePapers | ai_scholar/utils/paper_processing_utils.py:69-94 | the scoring loop keeps, in order, the papers the body keeps |
| PaperProcessingUtils.PreFilterSelection | ai_scholar/utils/paper_processing_utils.py:62-98 | which papers survive: every paper passing the scoring loop when they fit under MAX_PER_PROVIDER_AFTER_FILTER; otherwise the best-scoring ones, each one left out scoring no higher than any returned; equal scores keep their input order |
| PaperProcessingUtils.CutOfSorted | ai_scholar/utils/paper_processing_utils.py:96-98 | sorting by descending key and cutting to a maximum keeps everything that fits, keeps the best otherwise, and keeps equal keys in input order |
| PaperProcessingUtils.PreFilterProperties | ai_scholar/utils/paper_processing_utils.py:62-98 | every kept paper passes the pre-filter; the list is in non-increasing score order, no longer than the input nor than the per-provider maximum |
| PaperProcessingUtils.FastPreRank | ai_scholar/utils/paper_processing_utils.py:101-129 | the scoring loop, the sort and the cut return what FastPreRankProperties characterises |
| PaperProcessingUtils.FastPreRankProperties | ai_scholar/utils/paper_processing_utils.py:101-129 | a list longer than the target comes back cut to exactly target papers, in non-increasing fast score, each an input paper with its score added |
| PaperProcessingUtils.CleanupTemporaryFields | ai_scholar/utils/paper_processing_utils.py:132-137 | every paper loses exactly the five scoring keys and keeps every other field |
| PaperProcessingUtils.CleanupIdempotent | ai_scholar/utils/paper_processing_utils.py:132-137 | cleaning a list of papers twice gives the same list as cleaning it once |
| PaperProcessingUtils.FindByTitle | ai_scholar/utils/paper_processing_utils.py:147-153 | the inner loop finds the first full paper with the ranked title, or raises at a title that is not a string |
| PaperProcessingUtils.MergeEntry | ai_scholar/utils/paper_processing_utils.py:144-155 | an entry is merged only when the ranked paper's title reads |
| PaperProcessingUtils.MergeEntryMatched | ai_scholar/utils/paper_processing_utils.py:147-153 | the first full paper with the ranked title is copied, carrying the ranked explanation when there is one |
| PaperProcessingUtils.MergeEntryUnmatched | ai_scholar/utils/paper_processing_utils.py:154-155 | a ranked paper whose title no full paper shares is kept as it is |
| PaperProcessingUtils.MergeEntryRaises | ai_scholar/utils/paper_processing_utils.py:145-148 | a full paper scanned before a match whose title is not a string makes the merge raise |
| PaperProcessingUtils.MergeRankedWithDetails | ai_scholar/utils/paper_processing_utils.py:140-157 | one output paper per ranked paper, in ranked order, each as MergeEntry characterises, or the first error |
| PaperProcessingUtils.FastCitationScoreMonotone | ai_scholar/utils/paper_processing_utils.py:117-123 | with a log10 that is non-decreasing and zero at 1, the citation part of the fast score lies in [0, 0.2] and never falls as the citation count grows |
| PaperRanking.ExplainAll | ai_scholar/services/paper_ranking_service.py:43-61 | the explanation loop succeeds exactly when every kept paper's explanation does, and then gives paper i the explanation for rank i + 1 and changes nothing else |
| PaperRanking.ExplainAllStep | ai_scholar/services/paper_ranking_service.py:43-61 | one more turn of the loop explains one more paper |
| PaperRanking.ExplainAllErrPrefix | ai_scholar/services/paper_ranking_service.py:43-61 | once an explanation raises, the later papers do not change the outcome |
| PaperRanking.WriteExplanations | ai_scholar/services/paper_ranking_service.py:43-61 | the enumerate loop writes what ExplainAll describes |
| PaperRanking.CitationCountReads | ai_scholar/services/paper_ranking_service.py:15-20 | the count reads citations first, falls back to citation, and reads 'N/A' and missing data as 0 |
| PaperRanking.RankByCitations | ai_scholar/services/paper_ranking_service.py:14-63 | partition loop, two sorts and explanation loop return what the CitationOrdered lemmas and RankedByCitationsHeads characterise |
| PaperRanking.OrderByCitations | ai_scholar/services/paper_ranking_service.py:22-41 | the partition loop and the sorts give the ranking before explanations |
| PaperRanking.OrderParts | ai_scholar/services/paper_ranking_service.py:32-41 | the two sorts and the cut to limit order the two halves |
| PaperRanking.SplitByCitations | ai_scholar/services/paper_ranking_service.py:22-30 | the partition loop keeps, in input order, the papers with a positive count in one list and the others in the other |
| PaperRanking.PartitionLength | ai_scholar/services/paper_ranking_service.py:22-30 | every paper lands in exactly one of the two lists |
| PaperRanking.CitationOrderedLength | ai_scholar/services/paper_ranking_service.py:32-63 | with a non-negative limit, the ranking holds min(limit, len(papers)) papers |
| PaperRanking.FrontFirst | ai_scholar/services/paper_ranking_service.py:39 | cutting a sorted front joined to a back keeps the front's elements first, in key order |
| PaperRanking.PartitionFrontFirst | ai_scholar/services/paper_ranking_service.py:32-39 | the sorted cited half comes before the uncited half in the cut |
| PaperRanking.CitationOrderedShape | ai_scholar/services/paper_ranking_service.py:32-41 | cited papers come before uncited ones, in non-increasing citation order, and every ranked paper is an input paper |
| PaperRanking.CitationOrderedKeepsCited | ai_scholar/services/paper_ranking_service.py:32-41 | when at most limit papers are cited, every cited paper is ranked |
| PaperRanking.CitationOrderedRaises | ai_scholar/services/paper_ranking_service.py:34-38 | the ranking raises exactly when fewer than limit papers are cited and the uncited papers mix int and str year keys |
| PaperRanking.ExplainAllHeads | ai_scholar/services/paper_ranking_service.py:43-61 | when every explanation for rank n starts with a head for n, each ranked paper's explanation starts with the head of its 1-based place |
| PaperRanking.CitationExplanationHead | ai_scholar/services/paper_ranking_service.py:196-201 | a citation explanation starts "Ranked #n" |
| PaperRanking.CitationHeadStarts | ai_scholar/services/paper_ranking_service.py:198-201 | both citation heads start "Ranked #n" |
| PaperRanking.RankedByCitationsHeads | ai_scholar/services/paper_ranking_service.py:43-61 | each paper of the citation ranking carries an explanation starting "Ranked #n", n its 1-based place |
| PaperRanking.UnknownYearPaperRanked | ai_scholar/services/paper_ranking_service.py:32-41 | a single uncited paper with the year 'Unknown' is ranked |
| PaperRanking.UnknownIsNotInt | ai_scholar/services/paper_ranking_service.py:246 | int() rejects 'Unknown' |
| PaperRanking.GraphsNotRecent | ai_scholar/services/paper_ranking_service.py:246 | a title without '2024' or '2025' does not look recent |
| PaperRanking.UnknownYearPaperFields | ai_scholar/services/paper_ranking_service.py:43-49 | the counterexample paper has string fields, the year 'Unknown' and no citations |
| PaperRanking.IntYearRaises | ai_scholar/services/paper_ranking_service.py:246 | as written, an uncited paper whose year is truthy, rejected by int() and whose title does not look recent makes the explanation raise ValueError |
| PaperRanking.UnknownYearPaperRaises | ai_scholar/services/paper_ranking_service.py:246 | as written, the explanation of the counterexample paper raises |
| PaperRanking.UnknownYearRaises | ai_scholar/services/paper_ranking_service.py:14-63 | as written, one uncited paper with the year 'Unknown', as several adapters write it, makes the whole citation ranking raise |
| PaperRanking.CorrectedExplanationTotal | ai_scholar/services/paper_ranking_service.py:162-251 | corrected, the explanation of a paper whose text fields are strings never raises |
| PaperRanking.ExplainAllTotal | ai_scholar/services/paper_ranking_service.py:43-61 | the loop never raises when every explanation it needs succeeds |
| PaperRanking.CorrectedRankingTotal | ai_scholar/services/paper_ranking_service.py:14-63 | corrected, the citation ranking never raises in its explanation loop on papers whose text fields are strings |
| PaperRanking.RecencyMonotone | ai_scholar/services/paper_ranking_service.py:75-91 | recency lies in [0, 1] and a newer year never scores lower |
| PaperRanking.CitationBonusRange | ai_scholar/services/paper_ranking_service.py:95-110 | the citation bonus lies in [0, 0.2] |
| PaperRanking.VenueBonusRange | ai_scholar/services/paper_ranking_service.py:112-117 | the venue bonus lies in [0, 0.15] |
| PaperRanking.YearScoreBounds | ai_scholar/services/paper_ranking_service.py:119 | for a pre-filter score in [0, 1], the combined score lies in [0, 0.8375] and is at least half the recency |
| PaperRanking.RankByYear | ai_scholar/services/paper_ranking_service.py:66-159 | the scoring loop, the sort and the explanation loop return what RankedByYearOrder, RankedByYearScores and RankedByYearHeads characterise |
| PaperRanking.ExplainAllKeepsOrder | ai_scholar/services/paper_ranking_service.py:139-159 | writing explanations keeps a sorted list sorted |
| PaperRanking.YearRankKeyIgnoresExplanation | ai_scholar/services/paper_ranking_service.py:135-137 | the (score, year) key does not read the explanation |
| PaperRanking.RankedByYearOrder | ai_scholar/services/paper_ranking_service.py:135-159 | the year ranking holds min(limit, len(papers)) papers in non-increasing (score, year) order |
| PaperRanking.YearExplanationHead | ai_scholar/services/paper_ranking_service.py:335 | a year explanation starts "Ranked #n for " |
| PaperRanking.RankedByYearHeads | ai_scholar/services/paper_ranking_service.py:139-159 | each paper of the year ranking carries an explanation starting "Ranked #n for ", n its 1-based place |
| PaperRanking.EachFromMembers | ai_scholar/services/paper_ranking_service.py:135-137 | sorting and cutting keep every paper related to an input paper |
| PaperRanking.EachFromExplained | ai_scholar/services/paper_ranking_service.py:139-157 | writing explanations keeps every paper related to an input paper |
| PaperRanking.ScoredFromExplained | ai_scholar/services/paper_ranking_service.py:157 | writing the explanation keeps the stored score |
| PaperRanking.WithYearScoreScored | ai_scholar/services/paper_ranking_service.py:121-133 | the scoring loop stores the combined score computed for the paper |
| PaperRanking.RankedByYearScores | ai_scholar/services/paper_ranking_service.py:66-159 | every paper of the year ranking carries the combined score computed for one of the input papers |
| PaperRanking.RankedByYearRaises | ai_scholar/services/paper_ranking_service.py:93-119 | a paper whose venue is not a string or whose pre-filter score is not a number makes the year ranking raise |
| PaperComparison.MeasureRows | ai_scholar/services/paper_service.py:794-801 | the measuring loop builds the rows RowsSpec characterises |
| PaperComparison.CompareBy | ai_scholar/services/paper_service.py:792-841 | each comparison measures, sorts and reports as RankingShape and ReportedExtremes characterise |
| PaperComparison.ComparePapers | ai_scholar/services/paper_service.py:278-296 | the loop over the criteria returns what ComparedSpec characterises |
| PaperComparison.RowsErrPrefix | ai_scholar/services/paper_service.py:795-801 | once a measure raises, the later papers do not change the outcome |
| PaperComparison.ComparedErrPrefix | ai_scholar/services/paper_service.py:288-294 | once a report raises, the later criteria do not change the outcome |
| PaperComparison.RowsSpec | ai_scholar/services/paper_service.py:795-801 | one row per paper in input order, holding its index and measure; the rows fail exactly when some paper's measure raises |
| PaperComparison.TotalBounds | ai_scholar/services/paper_service.py:807 | a sum of measures that all lie in [lo, hi] lies between n·lo and n·hi |
| PaperComparison.RankingShape | ai_scholar/services/paper_service.py:794-803 | one row per paper, holding its index and measure, in non-increasing measure order, equal measures in input order; it fails exactly when some paper's measure raises |
| PaperComparison.QuotientBounds | ai_scholar/services/paper_service.py:807 | a sum between n·lo and n·hi divided by n lies in [lo, hi] |
| PaperComparison.AverageBounds | ai_scholar/services/paper_service.py:807 | the average of measures that all lie in [lo, hi] lies in [lo, hi] |
| PaperComparison.SortedBetweenEnds | ai_scholar/services/paper_service.py:821-826 | every measure of a non-increasing ranking lies between its last and its first |
| PaperComparison.ReportedExtremes | ai_scholar/services/paper_service.py:804-841 | the highest (newest, most relevant) row is the first and the oldest the last, present exactly when there are rows; the average lies between them, and is 0 without rows |
| PaperComparison.CriterionReportFails | ai_scholar/services/paper_service.py:792-841 | the citation and year comparisons never raise; the relevance comparison raises exactly when some title has no length |
| PaperComparison.ComparedSpec | ai_scholar/services/paper_service.py:278-296 | compare_papers keeps the papers and criteria, leaves the summary empty, and holds a report for exactly the known criteria given, each that criterion's report; it raises exactly when one of those reports raises |
| AIService.UnexplainedExplained | ai_scholar/services/ai_service.py:66-83 | writing an explanation changes no other field, and the explanation is the string written |
| AIService.SortAndExplain | ai_scholar/services/ai_service.py:53-85 | the sort followed by the explanation loop gives what SortedAndExplainedShape characterises |
| AIService.SortedAndExplainedShape | ai_scholar/services/ai_service.py:62-85 | as many papers as papers[:limit] holds, in non-increasing key order, each the paper at that place of the sort with only its explanation set, naming its 1-based place; papers of equal key are the first ones of that key in the input, in input order, as the stable sort keeps them |
| AIService.CitationKeyIgnoresExplanation | ai_scholar/services/ai_service.py:55-60 | the citation sort key does not read the explanation |
| AIService.YearSortKeyIgnoresExplanation | ai_scholar/services/ai_service.py:72-77 | the year sort key does not read the explanation |
| AIService.NotesNeverRaise | ai_scholar/services/ai_service.py:66-83 | formatting either explanation never raises |
| AIService.RankByCitationCountShape | ai_scholar/services/ai_service.py:53-68 | every paper, cited or not, sorted by non-increasing citation count and cut to limit; the i-th names rank i + 1 and the paper's own citations value |
| AIService.RankByYearValueShape | ai_scholar/services/ai_service.py:70-85 | sorted by non-increasing year and cut to limit; the i-th names rank i + 1 and the paper's own year value |
| AIService.RankPapersWithoutProvider | ai_scholar/services/ai_service.py:10-31 | only the AI provider can fail; every other mode returns len(papers[:limit]) input papers changed at most in their explanation, and an unknown mode returns papers[:limit] unchanged |
| AIService.GenerateSummary | ai_scholar/services/ai_service.py:33-41 | never raises: no provider gives the fixed message, an exception gives the failure message with its text, otherwise the provider's summary |
| AIService.GenerateInsights | ai_scholar/services/ai_service.py:43-51 | never raises: no provider or an exception gives a dict with only an "error" message, otherwise the provider's insights |
| LegacyAggregators.Dicts | ai_scholar/paper_aggregator.py:28-31 | a list known to hold only dicts gives their fields, item for item |
| LegacyAggregators.CollectPapers | ai_scholar/paper_aggregator.py:8-34 | the back-end loop aggregates what CollectedMembers and CollectedEmpty characterise |
| LegacyAggregators.CollectedMembers | ai_scholar/paper_aggregator.py:8-34 | a paper is aggregated exactly when some back-end contributed it, so a back-end that raised or returned a malformed shape adds nothing and stops none of the others |
| LegacyAggregators.CollectedEmpty | ai_scholar/paper_aggregator.py:36-37 | nothing is aggregated exactly when every back-end was skipped or contributed an empty list |
| LegacyAggregators.RemoveDuplicates | ai_scholar/paper_aggregator.py:48-56 | the seen-set loop deduplicates as RemoveDuplicatesProperties characterises |
| LegacyAggregators.RemoveDuplicatesProperties | ai_scholar/paper_aggregator.py:48-56 | deduplication raises exactly when some title or year is unhashable; otherwise it keeps an order-preserving subsequence with no two papers of equal title and year, and every input paper has its (title, year) pair kept |
| LegacyAggregators.DedupIsCaseSensitive | ai_scholar/paper_aggregator.py:52 | titles are compared exactly: two papers whose titles differ only in case are both kept |
| LegacyAggregators.KeyIndex | ai_scholar/paper_aggregator.py:59-62 | a key's place in the dict, or none when the dict lacks it |
| LegacyAggregators.FirstWith | ai_scholar/paper_aggregator.py:59-62 | the first paper with a given normalised title |
| LegacyAggregators.LastWith | ai_scholar/paper_aggregator.py:59-62 | the last paper with a given normalised title |
| LegacyAggregators.LastWithIsLast | ai_scholar/paper_aggregator.py:59-62 | no later paper has that title, and a last one exists exactly when a first one does |
| LegacyAggregators.FirstWithSnoc | ai_scholar/paper_aggregator.py:59-62 | appending a paper changes the first and last positions only for its own title |
| LegacyAggregators.PutKeys | ai_scholar/paper_aggregator.py:59-62 | storing a paper with a string title keeps every existing key in place and adds its key at the end only when it is new; a paper without a string title changes nothing |
| LegacyAggregators.PutDistinct | ai_scholar/paper_aggregator.py:59-62 | storing keeps each key once |
| LegacyAggregators.PutKeysOfPapers | ai_scholar/paper_aggregator.py:59-62 | after storing, the keys are exactly the papers' normalised titles |
| LegacyAggregators.PutEntries | ai_scholar/paper_aggregator.py:59-62 | storing changes only the entry of the paper's key, which then holds the paper |
| LegacyAggregators.PutLast | ai_scholar/paper_aggregator.py:59-62 | after storing, each key holds the last paper with it |
| LegacyAggregators.PutOrder | ai_scholar/paper_aggregator.py:59-62 | after storing, the keys stay in the order of their first paper |
| LegacyAggregators.DetailsByTitleSpec | ai_scholar/paper_aggregator.py:59-62 | details_by_title holds each normalised string title once, in the order of its first paper, mapped to the last paper with it; papers whose title is not a string are left out |
| LegacyAggregators.FirstOverlap | ai_scholar/paper_aggregator.py:70-74 | the scan finds the first key that contains the ranked title or is contained in it, or none when no key overlaps |
| LegacyAggregators.MatchDetail | ai_scholar/paper_aggregator.py:71-74 | the loop that breaks at the first overlapping key finds what FirstOverlap finds |
| LegacyAggregators.FirstOverlapIs | ai_scholar/paper_aggregator.py:71-74 | the scan's answer is the place of the first overlap |
| LegacyAggregators.EmptyTitleMatchesFirst | ai_scholar/paper_aggregator.py:72 | an empty ranked title is contained in every key, so it matches the first one |
| LegacyAggregators.Or | ai_scholar/paper_aggregator.py:65-68 | Python's or: the first operand when truthy, the second otherwise |
| LegacyAggregators.SentenceEnds | ai_scholar/paper_aggregator.py:81 | a replacement sentence starts as its first part and ends as its last part |
| LegacyAggregators.SentenceNotBlank | ai_scholar/paper_aggregator.py:78-81 | a sentence framed by non-space characters is not blank and is none of the texts that begin otherwise |
| LegacyAggregators.MergeRankedWithDetails | ai_scholar/paper_aggregator.py:58-103 | one entry per ranked item, in order, as MergeShape characterises |
| LegacyAggregators.MergeItemMatched | ai_scholar/paper_aggregator.py:70-91 | a ranked entry whose title overlaps a detail key is merged with the paper under the first such key, in dict order |
| LegacyAggregators.MergeItemUnmatched | ai_scholar/paper_aggregator.py:92-102 | a ranked entry that overlaps no key yields a new entry |
| LegacyAggregators.MergedMatchedFields | ai_scholar/paper_aggregator.py:76-91 | a matched entry keeps every detail field other than the explanation and citation keys, takes the ranked explanation when usable, and has citations only when they are adoptable |
| LegacyAggregators.MergedUnmatchedFields | ai_scholar/paper_aggregator.py:93-101 | an unmatched entry holds a title-cased title or 'Unknown Title', truthy authors, an explanation, and citations exactly when the ranked ones are adoptable |
| LegacyAggregators.TemplateChars | ai_scholar/paper_aggregator.py:78-96 | the replacement sentences start with 'T' and end with '.'; the placeholders start with 'N' and 'A' |
| LegacyAggregators.MatchedFramed | ai_scholar/paper_aggregator.py:78-81 | the sentence for a matched paper is framed against the placeholders |
| LegacyAggregators.UnmatchedFramed | ai_scholar/paper_aggregator.py:96 | the sentence for an unmatched entry is framed against the placeholders |
| LegacyAggregators.MatchedTemplateUsable | ai_scholar/paper_aggregator.py:81 | the sentence for a matched paper is neither blank nor a placeholder |
| LegacyAggregators.UnmatchedTemplateUsable | ai_scholar/paper_aggregator.py:96 | the sentence for an unmatched entry is neither blank nor a placeholder |
| LegacyAggregators.MergedHasExplanation | ai_scholar/paper_aggregator.py:76-101 | every merged entry carries the explanation chosen for it |
| LegacyAggregators.MergeDropsPlaceholders | ai_scholar/paper_aggregator.py:78-96 | an empty or placeholder explanation never survives the merge: a sentence replaces it |
| LegacyAggregators.MergeShape | ai_scholar/paper_aggregator.py:58-103 | the merge raises exactly when some entry raises; otherwise it has one entry per ranked item, in order |
| LegacyAggregators.AggregateAndRankPapers | ai_scholar/paper_aggregator.py:5-46 | aggregate_and_rank_papers returns what AggregateProperties characterises |
| LegacyAggregators.AggregateProperties | ai_scholar/paper_aggregator.py:5-46 | with nothing aggregated the result is [], whatever the ranker would do; a result never holds more than ai_result_limit papers |
| LegacyAggregators.AggregateAndRankPapersTop | paper_aggregator.py:8-59 | the older aggregate_and_rank_papers returns what AggregateTopProperties characterises |
| LegacyAggregators.AggregateTopProperties | paper_aggregator.py:8-59 | with nothing aggregated the result is []; it never holds more than 10 papers, whatever the limit |
| LegacyAggregators.MergeRankedWithDetailsTop | paper_aggregator.py:77-97 | the older merge gives one entry per ranked item, as MergeTopShape characterises |
| LegacyAggregators.MergeItemTopCases | paper_aggregator.py:83-96 | a matched entry is a copy of the detail that always takes the ranked explanation, even an empty one; an unmatched one passes through unchanged |
| LegacyAggregators.MergeTopShape | paper_aggregator.py:77-97 | the older merge raises exactly when some ranked title is not a string; otherwise one entry per ranked item, in order |
| AiRanker.PairReplies | ai_scholar/ai_ranker.py:66-81 | the loop over a batch's replies pairs reply i with paper i, as PairedWithShape states |
| AiRanker.RankBatch | ai_scholar/ai_ranker.py:65-87 | one batch of ai_ranker gives the papers BatchRankedShape characterises |
| AiRanker.RankFieldsHas | ai_scholar/ai_ranker.py:77-79 | a paper with the three rank fields written in has a real final score and a string explanation |
| AiRanker.ScoredFields | ai_scholar/ai_ranker.py:68-79 | a paper paired with its reply is the batch paper with the relevance, the final score and the stripped explanation written in; it fails exactly when the reply's explanation is not a string |
| AiRanker.UnrankedFields | ai_scholar/ai_ranker.py:83-87 | a paper of an unanswered batch has relevance 5, final score 5.0 and an empty explanation, and keeps every other field |
| AiRanker.BatchRankedShape | ai_scholar/ai_ranker.py:65-87 | an unanswered batch keeps every paper, unranked; an answered one keeps the first min(len(replies), len(batch)) papers, each paired with its own reply |
| AiRanker.RankedBatchesShape | ai_scholar/ai_ranker.py:55-87 | the batch loop returns no more papers than it was given, each with a real score and a string explanation |
| AiRanker.RankedBatchesUnanswered | ai_scholar/ai_ranker.py:82-87 | a model that never answers leaves every paper unranked, in input order |
| AiRanker.DescribedUpdates | ai_scholar/ai_ranker.py:36-39 | a description reply leaves the paper alone or gives it an explanation that passes the check with the forbidden openings; it fails exactly when the reply's explanation is not a string |
| AiRanker.DescribedBatchShape | ai_scholar/ai_ranker.py:34-39 | each paper of a description batch is left alone or updated by its own reply |
| AiRanker.GenerateDescriptionsShape | ai_scholar/ai_ranker.py:13-41 | generate_ai_descriptions returns the first min(len(papers), DEFAULT_LIMIT) papers and changes at most the explanation of each, to one that passes the check |
| AiRanker.DescribePaper | ai_scholar/ai_ranker.py:37-39 | the loop body for one reply gives the paper DescribedUpdates characterises |
| AiRanker.DescribeBatch | ai_scholar/ai_ranker.py:34-39 | the reply loop of one description batch gives what DescribedBatchShape characterises |
| AiRanker.DescribeBatchNumber | ai_scholar/ai_ranker.py:25-39 | batch k starts inside the papers, and the batch body is one step of the description loop |
| AiRanker.GenerateAiDescriptions | ai_scholar/ai_ranker.py:13-41 | the batch loop returns what GenerateDescriptionsShape characterises |
| AiRanker.Patched | ai_scholar/ai_ranker.py:91-97 | writing the descriptions back keeps the ranked list's length |
| AiRanker.PatchedWith | ai_scholar/ai_ranker.py:91-97 | writing back, for any test of a missing explanation, keeps the list's length |
| AiRanker.PatchedShape | ai_scholar/ai_ranker.py:91-97 | after the descriptions are written back through the shared dicts, every paper is itself or updated, and papers with a valid explanation are unchanged |
| AiRanker.PatchedAt | ai_scholar/ai_ranker.py:91-97 | paper i receives the description of the j-th paper lacking one, where j counts the lacking papers before it, while there is such a description |
| AiRanker.UpdatedKeepsScore | ai_scholar/ai_ranker.py:39-89 | updating an explanation leaves the sort key unchanged |
| AiRanker.RankBatchNumber | ai_scholar/ai_ranker.py:56-63 | batch k starts inside the papers, and the batch body is one step of the ranking loop |
| AiRanker.RankAll | ai_scholar/ai_ranker.py:55-87 | the batch loop returns the concatenated ranked batches |
| AiRanker.RankPapers | ai_scholar/ai_ranker.py:43-99 | ai_ranker returns what AiRankedProperties characterises |
| AiRanker.PatchedKeepsOrder | ai_scholar/ai_ranker.py:89-97 | writing the descriptions back keeps the list sorted by score and keeps the rank fields |
| AiRanker.AiRankedProperties | ai_scholar/ai_ranker.py:43-99 | no papers gives []; otherwise at most 2 * ai_result_limit papers come back, sorted by non-increasing final score, each with a real score and a string explanation |
| AiRanker.AiRankedKeepsExplained | ai_scholar/ai_ranker.py:89-99 | papers that already hold a valid explanation come back as ranked; only the others can gain a description |
| AiRanker.RankedWithoutAnswers | ai_scholar/ai_ranker.py:82-89 | a model that never answers gives every processed paper the score 5.0 and no explanation, in input order |
| AiRanker.ToProcessBounds | ai_scholar/ai_ranker.py:48 | at most 2 * ai_result_limit papers are processed, taken from the front, and all of them when there are no more |
| Batching.MulMono | ai_scholar/ai_ranker.py:20-53 | multiplying by a non-negative factor keeps the order (the step behind the batch bounds) |
| Batching.BatchCountBounds | ai_scholar/ai_ranker.py:20-27 | (total + batch_size - 1) // batch_size batches reach the whole input, each batch starts inside it, and there are none exactly when there is no input |
| Batching.BatchesCover | ai_scholar/ai_ranker.py:24-27 | the first n batches are the first min(n * batch_size, len) elements, so all of them together are the whole input, in order |
| Batching.BatchesWithStep | ai_scholar/ai_ranker.py:55-58 | batch k + 1 starts inside the input, and the loop over k + 1 batches is the loop over k followed by batch k + 1 |
| Batching.BatchesWithErr | ai_scholar/ai_ranker.py:55-87 | once a batch raises, the later batches do not change the outcome |
| Batching.BatchesWithBounded | ai_scholar/ai_ranker.py:55-87 | when no batch returns more than it was given and every element returned is good, the whole loop returns no more than the input, all good |
| Batching.PointwiseAppend | ai_scholar/ai_ranker.py:24-39 | two element-by-element matches placed one after the other match element by element |
| Batching.BatchesWithPointwise | ai_scholar/ai_ranker.py:24-39 | when each batch's output matches its batch element by element, the whole loop's output matches the input |
| Batching.BatchesWithMap | ai_scholar/ai_ranker.py:55-87 | when every batch maps its elements by f, the loop maps the batched input by f |
| Batching.PairedWithShape | ai_scholar/ai_ranker.py:65-81 | reply i is paired with batch element i, only the first min(len(batch), len(replies)) pairs are made, and the pairing raises exactly when one of them does |
| Batching.PairedWithErr | ai_scholar/ai_ranker.py:66-81 | once pair i raises, the later replies do not change the outcome |
| Batching.InPlaceWith | ai_scholar/ai_ranker.py:35-39 | updating in place keeps the batch's length |
| Batching.InPlaceWithShape | ai_scholar/ai_ranker.py:35-39 | each of the first min(len(batch), len(replies)) elements is replaced by its own update, the others are kept, and the loop raises exactly when one update does |
| Batching.InPlaceWithStep | ai_scholar/ai_ranker.py:35-39 | applying reply i is one more turn of the in-place loop |
| Batching.InPlaceWithErr | ai_scholar/ai_ranker.py:35-39 | once update i raises, the later replies do not change the outcome |
| GeminiProviders.Jaccard | ai_scholar/providers/ai/gemini_provider.py:325-339 | the word overlap lies in [0, 1], and is 0.0 when either word set is empty |
| GeminiProviders.Ratio | ai_scholar/providers/ai/gemini_provider.py:336-339 | intersection over union lies in [0, 1] and is 1 exactly when the two counts are equal |
| GeminiProviders.CleanSimilarity | ai_scholar/providers/ai/gemini_provider.py:311-339 | the similarity of two cleaned titles lies in [0, 1] |
| GeminiProviders.SubsetCard | ai_scholar/providers/ai/gemini_provider.py:336-337 | a subset is no larger than its superset, and equal to it when the sizes agree (so overlap 1 means equal word sets) |
| GeminiProviders.JaccardProperties | ai_scholar/providers/ai/gemini_provider.py:325-339 | the word overlap is in [0, 1], symmetric, and 1 exactly for equal non-empty word sets |
| GeminiProviders.CleanSimilaritySymmetric | ai_scholar/providers/ai/gemini_provider.py:314-339 | the similarity of cleaned titles does not depend on their order |
| GeminiProviders.SimilarityBoundsAndSymmetry | ai_scholar/providers/ai/gemini_provider.py:308-339 | _calculate_title_similarity lies in [0, 1] and is symmetric |
| GeminiProviders.TitlesMatchSimilar | ai_scholar/providers/ai/gemini_provider.py:308-406 | _titles_match is symmetric; matching titles are at least 0.9 similar; for non-matching non-empty titles the similarity is the overlap of their words outside the stop words |
| GeminiProviders.BlankTitleMatchesAnything | ai_scholar/providers/ai/gemini_provider.py:308-322 | a title of spaces only is 0.9 similar to every title that is not blank, so it clears the 0.7 matching threshold |
| GeminiProviders.EmptyCleanTitle | ai_scholar/providers/ai/gemini_provider.py:317-322 | an empty cleaned title against a different non-empty one scores 0.9, because "" is a substring of every string |
| GeminiProviders.StripBlank | ai_scholar/providers/ai/gemini_provider.py:314 | stripping a string of whitespace only gives "" |
| GeminiProviders.LStripBlank | ai_scholar/providers/ai/gemini_provider.py:314 | stripping the left of a string of whitespace only gives "" |
| GeminiProviders.BestOver | ai_scholar/providers/ai/gemini_provider.py:276-289 | a best match found among the first n papers is one of them and is more than 0.7 similar |
| GeminiProviders.BestOverSpec | ai_scholar/providers/ai/gemini_provider.py:276-289 | the match is an untaken paper more than 0.7 similar, as similar as every other untaken paper and more similar than every earlier one; with no match, no untaken paper is more than 0.7 similar |
| GeminiProviders.AnnotatedKeepsTitle | ai_scholar/providers/ai/gemini_provider.py:291-295 | the annotated copy of a paper keeps its title |
| GeminiProviders.WellParsedSnoc | ai_scholar/providers/ai/gemini_provider.py:291-295 | appending an annotated copy whose title has not been found, and recording that title, keeps the ranked copies distinct-titled and drawn from the candidates |
| GeminiProviders.SimilarityStringsOnly | ai_scholar/providers/ai/gemini_provider.py:308-316 | only string titles can get a match score; any other value scores 0.0 or raises |
| GeminiProviders.RankEntryShape | ai_scholar/providers/ai/gemini_provider.py:270-295 | one reply entry yields at most an annotated copy of an untaken candidate, whose title is then recorded as found |
| GeminiProviders.ParseEntriesShape | ai_scholar/providers/ai/gemini_provider.py:266-295 | each entry adds at most one paper; every paper added is an annotated copy of a candidate; no title is matched twice |
| GeminiProviders.ParseRankingAccepted | ai_scholar/providers/ai/gemini_provider.py:256-306 | the result is the fallback ranking, or else a reply that parsed, with between min(3, limit) and limit distinct-titled annotated copies of candidates |
| GeminiProviders.NonPositiveLimitAcceptsAnything | ai_scholar/providers/ai/gemini_provider.py:270-298 | with a limit of at most 0, a reply that parses is accepted even when it matches nothing |
| GeminiProviders.FindBestMatch | ai_scholar/providers/ai/gemini_provider.py:276-289 | the loop over the papers finds the match BestOverSpec characterises |
| GeminiProviders.MatchPaper | ai_scholar/providers/ai/gemini_provider.py:277-285 | one turn of the loop extends the best match from the first n papers to the first n + 1 |
| GeminiProviders.BestOverErr | ai_scholar/providers/ai/gemini_provider.py:276-285 | once scoring a paper raises, the search over all papers raises the same error |
| GeminiProviders.ParseEntriesErr | ai_scholar/providers/ai/gemini_provider.py:270-302 | once an entry raises, parsing the whole reply raises |
| GeminiProviders.ParseRanking | ai_scholar/providers/ai/gemini_provider.py:256-306 | the loops over the entries and the papers return the ranking ParseRankingAccepted characterises |
| GeminiProviders.EmptyReplyKeepsOrder | ai_scholar/providers/ai/gemini_provider.py:109-110 | a missing or empty reply keeps the first limit papers in their order, and a None reply is handled like an empty one |
| GeminiProviders.GeminiProvider.constructor | ai_scholar/providers/ai/gemini_provider.py:12-22 | a new provider has the flag down, no error time, and the configured batch size |
| GeminiProviders.GeminiProvider.GenerateContent | ai_scholar/providers/ai/gemini_provider.py:24-62 | a non-empty reply is returned stripped and clears the quota flag; an exception is re-raised and sets the flag and the time exactly when it is a quota error |
| GeminiProviders.GeminiProvider.IsAvailable | ai_scholar/providers/ai/gemini_provider.py:77-88 | answers and updates the attributes as the cooldown lemmas describe |
| GeminiProviders.GeminiProvider.ResetQuotaStatus | ai_scholar/providers/ai/gemini_provider.py:95-98 | both quota attributes are cleared |
| GeminiProviders.GeminiProvider.RankPapers | ai_scholar/providers/ai/gemini_provider.py:100-113 | no papers gives [] without calling the model; a model error is re-raised; otherwise the reply is ranked as ParseRankingAccepted and EmptyReplyKeepsOrder describe |
| GeminiProviders.GeminiBatchSizePositive | ai_scholar/providers/ai/gemini_provider.py:90-93 | the batch size is positive for every operation, so the batch loops that use it make progress |
| OpenRouterProviders.GeneratedOutcomes | ai_scholar/providers/ai/openrouter_provider.py:22-67 | a 429 raises with the flag set and the time recorded; a 200 reply with non-blank content returns it stripped and clears the flag; any other status returns None and leaves the attributes as they were |
| OpenRouterProviders.OpenRouterProvider.constructor | ai_scholar/providers/ai/openrouter_provider.py:11-20 | a new provider has the flag down, no error time, and the configured batch size |
| OpenRouterProviders.OpenRouterProvider.GenerateContent | ai_scholar/providers/ai/openrouter_provider.py:22-67 | the reply and the new quota attributes are those GeneratedOutcomes describes |
| OpenRouterProviders.OpenRouterProvider.IsAvailable | ai_scholar/providers/ai/openrouter_provider.py:82-93 | answers and updates the attributes as the cooldown lemmas describe |
| OpenRouterProviders.OpenRouterProvider.ResetQuotaStatus | ai_scholar/providers/ai/openrouter_provider.py:100-103 | both quota attributes are cleared |
| OpenRouterProviders.RateLimitCooldown | ai_scholar/providers/ai/openrouter_provider.py:56-59 | after a 429 at time t the provider is unavailable for exactly the cooldown that follows t |
| Quotas.TransitionsConsistent | ai_scholar/providers/ai/gemini_provider.py:50-98 | is_available, a successful reply and a failed call each keep "flag set exactly when a time is recorded", and a success leaves the flag down |
| Quotas.CooldownAfterQuotaError | ai_scholar/providers/ai/gemini_provider.py:57-88 | after a quota error at time t the provider is unavailable until more than QUOTA_COOLDOWN_HOURS hours have passed and available afterwards, and that answer clears both attributes |
| Quotas.AvailabilityStable | ai_scholar/providers/ai/gemini_provider.py:77-88 | asking is_available twice at the same time gives the same answer and the second call changes nothing; the answer is true exactly when the flag ends up down |
| Quotas.OtherErrorsKeepQuota | ai_scholar/providers/ai/gemini_provider.py:57-62 | an exception whose text names no quota indicator leaves both attributes unchanged |
| Quotas.OptimalBatchSize | ai_scholar/providers/ai/gemini_provider.py:90-93 | descriptions get five more papers per batch than the configured size, every other operation the configured size |
| AiModels.InitModels | ai_scholar/ai_models.py:15-53 | the loop over the keys registers what Registered lists, or raises the ValueError when no key is set |
| AiModels.GoogleEntriesFields | ai_scholar/ai_models.py:16-32 | every Google entry belongs to a non-empty key i, is enabled and not exhausted, and has priority i + 1 |
| AiModels.GoogleEntriesCover | ai_scholar/ai_models.py:16-32 | every non-empty Google key has its entry, and there are none exactly when every key is empty |
| AiModels.KeyNumberOfName | ai_scholar/ai_models.py:18-19 | the number in a Google model name is the key's position plus one |
| AiModels.GoogleNamesDiffer | ai_scholar/ai_models.py:18-19 | different keys give different model names |
| AiModels.GoogleEntriesDistinct | ai_scholar/ai_models.py:16-32 | the Google entries have distinct names, numbered from 1 to the number of keys |
| AiModels.RegisteredEmpty | ai_scholar/ai_models.py:49-50 | _init_models raises exactly when no Google key and no OpenRouter key is set |
| AiModels.RegisteredModels | ai_scholar/ai_models.py:15-47 | every model starts enabled with no quota error; Google key i is registered with priority i + 1; the OpenRouter model comes last with priority 4 |
| AiModels.RegisteredDistinct | ai_scholar/ai_models.py:20-35 | the registered names are distinct, so no entry overwrites another in the dict |
| AiModels.ConfigMapKeys | ai_scholar/ai_models.py:52 | the dict's keys are exactly the registered names |
| AiModels.AvailableMembers | ai_scholar/ai_models.py:62-65 | the available list holds exactly the enabled models without a quota error |
| AiModels.BestIndex | ai_scholar/ai_models.py:78 | the index chosen is inside the list |
| AiModels.BestIndexSpec | ai_scholar/ai_models.py:78 | min with a key picks a model of least priority, and every model before it has a greater priority |
| AiModels.SelectDomain | ai_scholar/ai_models.py:61-82 | selection keeps the dict's keys and picks a registered model |
| AiModels.SelectSpec | ai_scholar/ai_models.py:61-82 | the pick is a usable model of least priority; the cooldown pass runs only when no model is usable and clears only flags whose error is older than the cooldown; with no pick, no model is usable |
| AiModels.Recorded | ai_scholar/ai_models.py:156-166 | recording an attempt's outcome keeps the dict's keys |
| AiModels.Attempt | ai_scholar/ai_models.py:145-168 | one attempt keeps the manager sound and the dict's keys, and returns text only when it is the attempt's own non-empty reply |
| AiModels.RunStep | ai_scholar/ai_models.py:144-172 | the retry loop is one attempt followed by the rest of the loop, unless that attempt succeeded |
| AiModels.RunUsesBudget | ai_scholar/ai_models.py:141-144 | only the attempts below the budget matter, so at most len(available_models) + 1 calls are made |
| AiModels.RunSpec | ai_scholar/ai_models.py:140-174 | the text returned is the non-empty reply of one of the attempts, and the dict keeps its keys |
| AiModels.BatchSizeOf | ai_scholar/ai_models.py:55-59 | the batch size is positive whenever every registered model has a positive size |
| AiModels.RegisteredBatchSizes | ai_scholar/ai_models.py:29-44 | every registered model has a positive batch size |
| AiModels.AIModelManager.constructor | ai_scholar/ai_models.py:10-53 | the manager holds the registered models, in order, with the first as the current model |
| AiModels.AIModelManager.CoolDownAll | ai_scholar/ai_models.py:68-70 | the loop clears the flag of every model whose error is older than the cooldown and changes nothing else |
| AiModels.AIModelManager.SelectBestModel | ai_scholar/ai_models.py:61-82 | the dict and the pick are those SelectSpec characterises; the current model becomes the pick |
| AiModels.AIModelManager.TryModel | ai_scholar/ai_models.py:145-168 | one pass of the retry loop updates the manager as Attempt does |
| AiModels.AIModelManager.MarkModelQuotaExceeded | ai_scholar/ai_models.py:87-90 | a registered model gets its flag set and the time recorded; an unknown name changes nothing |
| AiModels.AIModelManager.RetryStep | ai_scholar/ai_models.py:144-172 | one attempt of the loop, followed by the rest, gives what the whole loop gives |
| AiModels.AIModelManager.GenerateContent | ai_scholar/ai_models.py:140-174 | the while loop returns what RunSpec characterises: a non-empty reply of some attempt, or None after len(available_models) + 1 failures |
| AiModels.NewManager | ai_scholar/ai_models.py:10-53 | construction raises exactly when no key is set; otherwise the manager holds the registered models |
| AiUtils.ReplaceAfterTickFree | ai_scholar/utils/ai_utils.py:8-10 | replacing a backtick-led pattern leaves a backtick-free prefix untouched |
| AiUtils.ShortUnchanged | ai_scholar/utils/ai_utils.py:8-10 | replacing a pattern longer than the text changes nothing |
| AiUtils.ConcatParts | ai_scholar/utils/ai_utils.py:7-9 | a concatenation starts with its first part, and what follows that part is the second |
| AiUtils.TickFreeStrip | ai_scholar/utils/ai_utils.py:8-10 | stripping keeps a text backtick-free |
| AiUtils.TickFreeSlice | ai_scholar/utils/ai_utils.py:8-10 | every slice of a backtick-free text is backtick-free |
| AiUtils.UnfenceJson | ai_scholar/utils/ai_utils.py:7-8 | removing the fences from ```json + body + ``` leaves the stripped body |
| AiUtils.UnfenceBare | ai_scholar/utils/ai_utils.py:9-10 | removing the fences from ``` + body + ``` leaves the stripped body |
| AiUtils.UnfenceTickFree | ai_scholar/utils/ai_utils.py:7-11 | an unfenced, already stripped text is returned as it is |
| AiUtils.FencedStripped | ai_scholar/utils/ai_utils.py:6 | a text that opens and closes with a fence has nothing to strip |
| AiUtils.CleanWithJson | ai_scholar/utils/ai_utils.py:4-11 | cleaning a ```json-fenced body gives the stripped body, for any pair of fences |
| AiUtils.CleanWithBare | ai_scholar/utils/ai_utils.py:4-11 | cleaning a bare-fenced body gives the stripped body, for any pair of fences |
| AiUtils.CleanWithPlain | ai_scholar/utils/ai_utils.py:4-11 | cleaning an unfenced backtick-free body gives the stripped body |
| AiUtils.FencesArePair | ai_scholar/utils/ai_utils.py:7-10 | the two fence strings open and close with a backtick, and ```json is ``` followed by 'j' |
| AiUtils.CleanFenced | ai_scholar/utils/ai_utils.py:4-11 | a backtick-free body wrapped in a ```json fence, or in a bare fence when it does not begin with 'j', cleans to the stripped body, as does the body itself |
| AiUtils.Decoded | ai_scholar/utils/ai_utils.py:17-27 | a list is returned as it is, a dict's "papers" value is returned, and anything else or a decode error gives None |
| AiUtils.ParseFenced | ai_scholar/utils/ai_utils.py:13-27 | wrapping a backtick-free body in a fence does not change what is parsed |
| AiUtils.ContainsAfter | ai_scholar/utils/ai_utils.py:32-34 | text found in a string is still found after something is put in front of it |
| AiUtils.ContainsInfix | ai_scholar/utils/ai_utils.py:32-34 | text found in a string is still found after anything is put around it |
| AiUtils.IsQuotaErrorEmbedded | ai_scholar/utils/ai_utils.py:29-34 | quota detection survives any surrounding text and ignores letter case |
| AiUtils.ShortNotQuota | ai_scholar/utils/ai_utils.py:32-34 | every indicator is at least three characters long, so a shorter message is never a quota error |
| AiUtils.IsQuotaErrorExamples | ai_scholar/utils/ai_utils.py:29-34 | a message carrying the status 429 is a quota error; an empty message is not |
| AiUtils.SummariesAgree | ai_scholar/utils/ai_utils.py:36-51 | the description summary is the paper summary cut down to title and authors; the paper summary has the five prompt keys and depends only on the five fields it reads |
| AiUtils.FinalScoreBounds | ai_scholar/utils/ai_utils.py:53-57 | the citation share saturates at 100 citations; for a weight in [0, 1] more citations never lower the score; a relevance in 0..10 and a non-negative count give a score in [0, 10] |
| AiUtils.Weighted | ai_scholar/utils/ai_utils.py:56-57 | the weighted sum times ten is monotone in the citation share and lies in [0, 10] for shares in [0, 1] |
| AiUtils.MulMono | ai_scholar/utils/ai_utils.py:56 | multiplying by a non-negative weight keeps the order |
| AiUtils.Scale10 | ai_scholar/utils/ai_utils.py:57 | multiplying by ten keeps the order |
| AiUtils.Fraction | ai_scholar/utils/ai_utils.py:56 | a weight in [0, 1] times a non-negative share is between 0 and the share |
| AiUtils.ValidExplanationCase | ai_scholar/utils/ai_utils.py:59-67 | the letter case of the explanation never matters, and a forbidden opening that holds an upper-case letter never matches |
| OpenAlexProviders.SearchParamsSpec | ai_scholar/providers/openalex_provider.py:27-46 | three times the limit is requested, at most 200 per page; the search text has no quote left; the filter is present exactly when a year is given, with a from-date clause for a given start year and a to-date clause for a given end year, comma-joined |
| OpenAlexProviders.NoQuoteLeft | ai_scholar/providers/openalex_provider.py:30 | removing every double quote leaves none |
| OpenAlexProviders.AuthorNames | ai_scholar/providers/openalex_provider.py:177-181 | the authorships loop renders at most one name per authorship, each truthy, or raises |
| OpenAlexProviders.AuthorsOf | ai_scholar/providers/openalex_provider.py:175-184 | every author name collected for a record is truthy |
| OpenAlexProviders.Truncated | ai_scholar/providers/openalex_provider.py:216-217 | an abstract of at most 1000 characters is kept; a longer one becomes its first 1000 characters followed by '...', so never more than 1003 |
| OpenAlexProviders.StandardizedDropsTitle | ai_scholar/providers/openalex_provider.py:170-172 | a record whose title is empty, falsy or 'unknown' in any case is skipped |
| OpenAlexProviders.StandardizedTitle | ai_scholar/providers/openalex_provider.py:170-184 | a kept record has a non-empty title other than 'unknown' and only truthy author names |
| OpenAlexProviders.StandardizedUrl | ai_scholar/providers/openalex_provider.py:220-224 | the url is the DOI when there is one and the OpenAlex id otherwise; the citation count is cited_by_count, 0 when missing |
| OpenAlexProviders.StandardizedBuilds | ai_scholar/providers/openalex_provider.py:236-252 | a kept record's paper is the dict built from its fields, its title, authors, abstract, venue and open-access entry |
| OpenAlexProviders.StandardizedYear | ai_scholar/providers/openalex_provider.py:186-217 | the year is publication_year when truthy, otherwise an int read from publication_date or 'Unknown'; the abstract has at most 1003 characters |
| OpenAlexProviders.MissingTitleDefault | ai_scholar/providers/openalex_provider.py:170 | a record without display_name that is kept carries the title 'No title available' |
| OpenAlexProviders.OccurrencesMembers | ai_scholar/providers/openalex_provider.py:206-209 | the (position, word) pairs gathered are exactly those the inverted index lists |
| OpenAlexProviders.AbstractOrder | ai_scholar/providers/openalex_provider.py:206-213 | the words are laid out by ascending position, each (position, word) of the index exactly once, words sharing a position in the order the index lists them |
| OpenAlexProviders.CollectAuthors | ai_scholar/providers/openalex_provider.py:175-184 | the authorships loop collects the names AuthorsOf describes |
| OpenAlexProviders.ErrorSticks | ai_scholar/providers/openalex_provider.py:177-179 | once an authorship raises, the rest of the list does not matter |
| OpenAlexProviders.RebuildAbstract | ai_scholar/providers/openalex_provider.py:200-217 | the loops, the sort by position, the join and the truncation rebuild the abstract AbstractOrder and Truncated characterise |
| OpenAlexProviders.StandardizeWork | ai_scholar/providers/openalex_provider.py:167-258 | the loop body gives the paper the Standardized lemmas characterise, or skips the record |
| OpenAlexProviders.StandardizePapers | ai_scholar/providers/openalex_provider.py:163-260 | the accumulator loop keeps, in order, every record that is neither skipped nor raises |
| OpenAlexProviders.WordPoints | ai_scholar/providers/openalex_provider.py:292-306 | one query word earns at most 7 points, and a word of at most two characters earns none |
| OpenAlexProviders.Points | ai_scholar/providers/openalex_provider.py:292-306 | the words together earn at most 7 points each |
| OpenAlexProviders.CitationBonus | ai_scholar/providers/openalex_provider.py:336-343 | the citation bonus is at most 3, and nothing for a count that is not an int |
| OpenAlexProviders.Quality | ai_scholar/providers/openalex_provider.py:325-352 | the quality score adds between 0 and 9 bonus points to the relevance |
| OpenAlexProviders.AllFoundSpec | ai_scholar/providers/openalex_provider.py:309-312 | the all-words bonus is earned exactly when every query word longer than two characters appears in the title or the abstract |
| OpenAlexProviders.FilterQualityAdmits | ai_scholar/providers/openalex_provider.py:262-356 | every kept paper is an input paper with a stripped title of at least ten characters, an author, a url or a DOI, and the relevance its query length demands |
| OpenAlexProviders.FilterQualitySorted | ai_scholar/providers/openalex_provider.py:262-364 | the filter returns the admitted papers, each as often as in the input, by non-increasing quality score |
| OpenAlexProviders.ShortWordNeedsMatch | ai_scholar/providers/openalex_provider.py:315-318 | a single query word of at most four characters keeps only papers whose title or abstract contains it, and only when it is longer than two characters |
| OpenAlexProviders.NotContainedMatches | ai_scholar/providers/openalex_provider.py:295-306 | a word that is not inside a text is neither a whole word of it nor its start or end, so it earns nothing there |
| OpenAlexProviders.RelevanceScore | ai_scholar/providers/openalex_provider.py:287-312 | the scoring loop computes the relevance the points and the all-words bonus add up to |
| OpenAlexProviders.AssessPaper | ai_scholar/providers/openalex_provider.py:266-354 | the filter loop body gives a paper's quality score, or skips it where a check or the threshold fails |
| OpenAlexProviders.FilterQualityPapers | ai_scholar/providers/openalex_provider.py:262-364 | the scoring loop and the sort return what FilterQualityAdmits and FilterQualitySorted characterise |
| OpenAlexProviders.Search | ai_scholar/providers/openalex_provider.py:21-70 | search returns what SearchBounds and SearchSpec characterise |
| OpenAlexProviders.SearchBounds | ai_scholar/providers/openalex_provider.py:21-70 | a query shorter than three characters once stripped gives [] without a request; no more than limit papers come back |
| OpenAlexProviders.SearchSpec | ai_scholar/providers/openalex_provider.py:48-70 | nothing comes back without a response; otherwise every paper is the standardisation of a returned work that passes the quality filter, by non-increasing quality score |
| OpenAlexProviders.ResultOfWorks | ai_scholar/providers/openalex_provider.py:58-64 | the cut of the filtered standardisations keeps only quality-ordered standardisations of the works |
| CrossRefProviders.SearchParamsSpec | ai_scholar/providers/crossref_provider.py:27-49 | twice the limit is requested, at most 500 rows; the filter starts with the journal-article clause, then the start year when given, then the end year when given and otherwise a start twenty years back, even beside a given start year |
| CrossRefProviders.AuthorNames | ai_scholar/providers/crossref_provider.py:174-181 | the author loop renders at most one truthy name per author |
| CrossRefProviders.AuthorsOf | ai_scholar/providers/crossref_provider.py:173-181 | every name rendered from a record's author entry is truthy |
| CrossRefProviders.CitationCount | ai_scholar/providers/crossref_provider.py:200-208 | the count is always an int (True stays as it is): an int is kept, None gives 0 |
| CrossRefProviders.CleanAbstract | ai_scholar/providers/crossref_provider.py:211-217 | a falsy abstract is kept as it is; a cleaned one is whitespace-normalised text |
| CrossRefProviders.StandardizedTitle | ai_scholar/providers/crossref_provider.py:169-170 | the title is the first element of a non-empty title list, and 'No title' when the list is missing or empty |
| CrossRefProviders.StandardizedUrl | ai_scholar/providers/crossref_provider.py:196-197 | a record with a DOI links to https://doi.org/ followed by the DOI; without one, its own URL entry is kept |
| CrossRefProviders.StandardizedAuthorsAndCitations | ai_scholar/providers/crossref_provider.py:173-208 | the authors string is never empty and is 'Unknown' when no author has a truthy family name; the citation count is an int, never 'N/A' |
| CrossRefProviders.NoFamilyNoNames | ai_scholar/providers/crossref_provider.py:175-181 | the author loop renders a name for an author exactly when it has a truthy family name |
| CrossRefProviders.PubYearOfDateParts | ai_scholar/providers/crossref_provider.py:185-193 | a date-parts list whose first entry starts with a year gives that year |
| CrossRefProviders.NormalizedTidy | ai_scholar/providers/crossref_provider.py:217 | `' '.join(s.split())` has only single spaces and none at either end |
| CrossRefProviders.JoinWordsTidy | ai_scholar/providers/crossref_provider.py:217 | joining words with single spaces gives tidy text, non-empty when there is a word |
| CrossRefProviders.TidyJoin | ai_scholar/providers/crossref_provider.py:217 | a word, a space and tidy non-empty text make tidy text |
| CrossRefProviders.CollectAuthors | ai_scholar/providers/crossref_provider.py:173-181 | the author loop of one record renders the names AuthorsOf describes |
| CrossRefProviders.AuthorErrorSticks | ai_scholar/providers/crossref_provider.py:175-177 | once an author raises, the rest of the list does not matter |
| CrossRefProviders.StandardizeRecord | ai_scholar/providers/crossref_provider.py:167-240 | the loop body gives the standardized paper the lemmas above characterise, or skips the record where it raises |
| CrossRefProviders.StandardizePapers | ai_scholar/providers/crossref_provider.py:162-245 | the accumulator loop keeps, in order, every record that does not raise |
| CrossRefProviders.AnyMatchSpec | ai_scholar/providers/crossref_provider.py:324-326 | the loop over the patterns returns true exactly when some pattern matches |
| CrossRefProviders.GenericTitleSpec | ai_scholar/providers/crossref_provider.py:303-328 | a title is generic exactly when, stripped and lower-cased, it is one of the patterns, or it has at most three words, contains a pattern, and removing that pattern leaves fewer than five characters |
| CrossRefProviders.NoPatternNotGeneric | ai_scholar/providers/crossref_provider.py:303-328 | a title that contains none of the patterns is never generic |
| CrossRefProviders.NothingContained | ai_scholar/providers/crossref_provider.py:319-326 | a text containing no pattern is no pattern and matches none |
| CrossRefProviders.FilterQualitySpec | ai_scholar/providers/crossref_provider.py:270-301 | the filter raises exactly when some title is not a string; otherwise it keeps exactly the papers with a non-generic title and real authors, in input order |
| CrossRefProviders.NaRuleNeverFires | ai_scholar/providers/crossref_provider.py:286-291 | after standardisation the citations are never 'N/A', so the old-paper rule never drops a paper |
| CrossRefProviders.FilterQualityPapers | ai_scholar/providers/crossref_provider.py:270-301 | the filter loop returns what FilterQualitySpec characterises |
| CrossRefProviders.FilterErrorSticks | ai_scholar/providers/crossref_provider.py:276 | once a title raises, the later papers do not change the outcome |
| CrossRefProviders.Search | ai_scholar/providers/crossref_provider.py:20-66 | search returns what SearchRejects and SearchSpec characterise |
| CrossRefProviders.SearchRejects | ai_scholar/providers/crossref_provider.py:21-66 | an invalid query raises SearchError without a request; a missing response raises APIUnavailableError |
| CrossRefProviders.SearchSpec | ai_scholar/providers/crossref_provider.py:21-66 | at most limit papers come back, each the standardisation of a returned item that passed the quality filter |
| CrossRefProviders.ResultOfItems | ai_scholar/providers/crossref_provider.py:56-63 | every paper of the cut, filtered, standardized list is a kept standardisation of a returned item |
| CoreProviders.YearFilterSpec | ai_scholar/providers/core_provider.py:177-185 | the year filter is empty exactly when neither bound is given, and a missing bound reads `*` |
| CoreProviders.V3ParamsSpec | ai_scholar/providers/core_provider.py:53-105 | v3 asks for twice the limit, at most 100; v2 for the limit, at most 100, page 1; the v3 query carries the year filter when a year is given and otherwise a start fifteen years before the current year |
| CoreProviders.LinkOfSpec | ai_scholar/providers/core_provider.py:290-297 | the url falls back from the download url to the pdf link to the DOI link |
| CoreProviders.V3AuthorNames | ai_scholar/providers/core_provider.py:261-270 | the v3 author loop keeps at most one truthy name per author |
| CoreProviders.V3Citations | ai_scholar/providers/core_provider.py:301-304 | a count equal to 0 or 'N/A' reads 'N/A'; any other count is kept |
| CoreProviders.V2AuthorNames | ai_scholar/providers/core_provider.py:426-433 | the v2 author loop keeps at most one name per author |
| CoreProviders.V2Citations | ai_scholar/providers/core_provider.py:464-468 | a citedBy list counts its entries; 0 or 'N/A' reads 'N/A' |
| CoreProviders.StandardizedCitations | ai_scholar/providers/core_provider.py:301-468 | in v3 a missing or zero count reads 'N/A'; in v2 a citedBy list becomes its length |
| CoreProviders.StandardizedV3Url | ai_scholar/providers/core_provider.py:290-297 | a standardized v3 paper's url is the download url, else the pdf link, else the DOI link when there is a DOI |
| CoreProviders.V3AuthorNamesSpec | ai_scholar/providers/core_provider.py:259-271 | the v3 author loop keeps no name exactly when no author is a truthy string or a dict with a truthy name |
| CoreProviders.QualityScore | ai_scholar/providers/core_provider.py:370-377 | the quality score lies in 0..4 |
| CoreProviders.ScoreSpec | ai_scholar/providers/core_provider.py:342-377 | a kept paper has a stripped title of at least 10 characters, real authors, a stripped abstract of at least 50 characters and a DOI or a url; its score is between 1 and 4 |
| CoreProviders.FilterQualitySpec | ai_scholar/providers/core_provider.py:338-389 | the filter returns the papers it scores, each as often as in the input, by non-increasing score |
| CoreProviders.FilterQualityPapers | ai_scholar/providers/core_provider.py:338-389 | the loop and the sort return what FilterQualitySpec characterises, or the error of the first paper whose title or abstract cannot be stripped |
| CoreProviders.FilterTurn | ai_scholar/providers/core_provider.py:342-380 | one turn of the filter loop extends the kept papers by the paper when it scores, or raises |
| CoreProviders.KeepStep | ai_scholar/providers/core_provider.py:342-380 | a paper is kept exactly when the loop body gives it a score |
| CoreProviders.StandardizePapers | ai_scholar/providers/core_provider.py:249-500 | the accumulator loop keeps, in order, every record whose standardisation does not raise |
| CoreProviders.FromV3Body | ai_scholar/providers/core_provider.py:79-92 | a v3 body gives the filtered papers cut to limit, and [] for an empty result list |
| CoreProviders.SearchV3 | ai_scholar/providers/core_provider.py:50-95 | _search_v3 gives what SearchedV3Spec characterises, or raises APIUnavailableError without a 200 response |
| CoreProviders.FromV2Body | ai_scholar/providers/core_provider.py:110-119 | a v2 body gives the standardized papers, unfiltered |
| CoreProviders.SearchV2 | ai_scholar/providers/core_provider.py:97-122 | _search_v2 gives the standardized v2 papers, or raises APIUnavailableError without a 200 response |
| CoreProviders.Search | ai_scholar/providers/core_provider.py:23-48 | search gives what FallbackSpec characterises |
| CoreProviders.FallbackSpec | ai_scholar/providers/core_provider.py:24-48 | a non-empty v3 result is returned as it is; an empty v3 result, a RateLimitError or an APIUnavailableError gives the v2 outcome; any other v3 error is raised |
| CoreProviders.FallbackCases | ai_scholar/providers/core_provider.py:36-48 | the v3-to-v2 decision keeps a non-empty v3 result, falls through on an empty one or the two named errors, and lets any other error out |
| CoreProviders.SearchedV3Spec | ai_scholar/providers/core_provider.py:79-92 | a v3 result holds at most limit papers, all scored by the filter, by non-increasing score |
| CoreProviders.CutRanked | ai_scholar/providers/core_provider.py:92 | cutting the filtered list to limit keeps every paper scored and the order by score |
| ArxivProviders.ArxivQuery | ai_scholar/providers/arxiv_search_provider.py:61-79 | the arXiv query always starts with the stripped query searched in every field |
| ArxivProviders.DateRangeSpec | ai_scholar/providers/arxiv_search_provider.py:70-77 | one submittedDate range is appended exactly when a bound is given, from January 1 of the lower year to December 31 of the upper, an open end written `*` |
| ArxivProviders.SearchParams | ai_scholar/providers/arxiv_search_provider.py:23-29 | max_results is the limit capped at the per-request maximum (kept when below it), and the query is the built arXiv query |
| ArxivProviders.Flattened | ai_scholar/providers/arxiv_search_provider.py:136-150 | `strip().replace('\n', ' ')` keeps the stripped length, leaves no newline and no whitespace at either end |
| ArxivProviders.OneLine | ai_scholar/providers/arxiv_search_provider.py:136-150 | replacing the newlines of a stripped text keeps its length and its non-space ends |
| ArxivProviders.NewlinesReplaced | ai_scholar/providers/arxiv_search_provider.py:136-150 | every newline becomes a space and every other character is kept |
| ArxivProviders.AuthorsText | ai_scholar/providers/arxiv_search_provider.py:139-145 | no named author gives 'Unknown' |
| ArxivProviders.LastPart | ai_scholar/providers/arxiv_search_provider.py:169 | split('/')[-1] is the suffix after the last slash |
| ArxivProviders.EntryRecord | ai_scholar/providers/arxiv_search_provider.py:130-184 | an entry is kept exactly when its title is not blank after stripping, and a kept record is well formed |
| ArxivProviders.RecordOf | ai_scholar/providers/arxiv_search_provider.py:131-181 | the record of a titled entry has a one-line title and abstract, an int year or 'Unknown', citations 'N/A' and an arXiv id only for an abs url |
| ArxivProviders.ArxivIdOf | ai_scholar/providers/arxiv_search_provider.py:163-169 | the arXiv id is set only for a url containing arxiv.org/abs/, to its last path segment |
| ArxivProviders.FirstRaise | ai_scholar/providers/arxiv_search_provider.py:130-189 | the position of the first entry whose missing text raises, no entry before it raising |
| ArxivProviders.Parsed | ai_scholar/providers/arxiv_search_provider.py:113-191 | every record returned is well formed, and without a raising entry every titled entry's record comes back, in order |
| ArxivProviders.ParsedStopsAt | ai_scholar/providers/arxiv_search_provider.py:130-189 | an entry that raises ends the loop: only entries before it contribute, at most one record each |
| ArxivProviders.ParseEntries | ai_scholar/providers/arxiv_search_provider.py:130-191 | the parse loop returns what Parsed and ParsedStopsAt characterise |
| ArxivProviders.Standardized | ai_scholar/providers/arxiv_search_provider.py:197-210 | a standardized paper keeps the record's title, authors and categories, has citations 'N/A', and is a good paper when the record is well formed |
| ArxivProviders.StandardizePapers | ai_scholar/providers/arxiv_search_provider.py:193-212 | one standardized paper per record, in order |
| ArxivProviders.Search | ai_scholar/providers/arxiv_search_provider.py:14-41 | search returns what SearchSpec characterises |
| ArxivProviders.SearchSpec | ai_scholar/providers/arxiv_search_provider.py:14-41 | nothing for an invalid query, a missing response or an unparsable feed; otherwise each paper is the standardisation of one titled entry before the first entry that raises, and every paper is good |
| ArxivProviders.StandardizedGood | ai_scholar/providers/arxiv_search_provider.py:193-212 | standardizing well-formed records gives only good papers |
| ArxivProviders.NoNamesUnknown | ai_scholar/providers/arxiv_search_provider.py:145 | without a named author the authors read 'Unknown' |
| ArxivProviders.OneAuthor | ai_scholar/providers/arxiv_search_provider.py:141-145 | a single named author is the whole authors string |
| ArxivProviders.FilterMapNothing | ai_scholar/providers/arxiv_search_provider.py:141-144 | authors without a name element give no names |
| SemanticScholarProviders.YearParamSpec | ai_scholar/providers/semantic_scholar_provider.py:33-39 | a year range is sent exactly when a bound is given; it is the lower bound, a dash and the upper bound, an open side left empty; the range's leading year reads back as the lower bound |
| SemanticScholarProviders.SearchParams | ai_scholar/providers/semantic_scholar_provider.py:27-39 | the stripped query, the limit capped at API_LIMIT (kept when below it) and the year range |
| SemanticScholarProviders.CollectNames | ai_scholar/providers/semantic_scholar_provider.py:129-136 | the loop keeps the truthy names of the authors, in order |
| SemanticScholarProviders.ExtractAuthorsOf | ai_scholar/providers/semantic_scholar_provider.py:127-138 | _extract_authors gives what ExtractAuthorsSpec characterises |
| SemanticScholarProviders.ExtractAuthorsSpec | ai_scholar/providers/semantic_scholar_provider.py:127-138 | a falsy value or a list without a truthy name gives 'Unknown'; a list of string names gives their non-empty join; only a kept name that is not a string makes the call raise |
| SemanticScholarProviders.NamesKept | ai_scholar/providers/semantic_scholar_provider.py:130-136 | every kept name is a truthy name of one of the authors |
| SemanticScholarProviders.NoNamesKept | ai_scholar/providers/semantic_scholar_provider.py:130-137 | authors without a truthy name keep nothing |
| SemanticScholarProviders.ExtractYearSpec | ai_scholar/providers/semantic_scholar_provider.py:140-151 | a truthy year is kept; otherwise the year is an int or 'Unknown', and a date that starts with a year and a dash gives that year |
| SemanticScholarProviders.StandardizedSpec | ai_scholar/providers/semantic_scholar_provider.py:156-187 | a dict is skipped only when its authors cannot be joined; a missing or None count reads 'N/A' and any other count, 0 included, is kept; a falsy url with a truthy id becomes the paper's page |
| SemanticScholarProviders.StandardizePapers | ai_scholar/providers/semantic_scholar_provider.py:153-189 | the loop keeps, in order, the standardisation of every item that does not raise |
| SemanticScholarProviders.Search | ai_scholar/providers/semantic_scholar_provider.py:22-51 | search returns what SearchSpec characterises |
| SemanticScholarProviders.SearchSpec | ai_scholar/providers/semantic_scholar_provider.py:22-51 | an invalid query or a failed request gives []; otherwise every paper is the standardisation of a returned item, and every item that standardizes is returned |
| OpenCitationsProviders.YearAt | ai_scholar/providers/opencitations_provider.py:123 | every generated year is one of the fifteen years before 2025 |
| OpenCitationsProviders.ImpactFactor | ai_scholar/providers/opencitations_provider.py:132-140 | the impact factor a title selects lies between 1.0 and 2.5 |
| OpenCitationsProviders.BaseCitations | ai_scholar/providers/opencitations_provider.py:142-149 | every tier's base citation count is at least 200 |
| OpenCitationsProviders.CitationCount | ai_scholar/providers/opencitations_provider.py:151-152 | the citation count is never negative and never more than 50 below the tier's base |
| OpenCitationsProviders.AuthorCount | ai_scholar/providers/opencitations_provider.py:162 | two to four names of the pool are taken |
| OpenCitationsProviders.SimulatedFrom | ai_scholar/providers/opencitations_provider.py:104-196 | the loop never produces more than limit records nor more than the iterations left, and nothing once limit records exist |
| OpenCitationsProviders.SimulatedStep | ai_scholar/providers/opencitations_provider.py:107-194 | an iteration whose year is out of bounds is skipped; any other appends the next record |
| OpenCitationsProviders.SimulatedGood | ai_scholar/providers/opencitations_provider.py:107-194 | the k-th record produced keeps any promise that every record built for a kept iteration keeps of its position |
| OpenCitationsProviders.AllKeptFills | ai_scholar/providers/opencitations_provider.py:107-109 | when no iteration is skipped, exactly limit records come back for a limit up to 1000 |
| OpenCitationsProviders.NoneKept | ai_scholar/providers/opencitations_provider.py:125-130 | when every iteration is skipped, nothing comes back |
| OpenCitationsProviders.MakerGood | ai_scholar/providers/opencitations_provider.py:111-191 | a record built for an in-bounds iteration has its year within the bounds and among the fifteen before 2025, two to four names of one pool, and at least its tier's base less 50 citations |
| OpenCitationsProviders.RecordAtGood | ai_scholar/providers/opencitations_provider.py:111-191 | each built record keeps the generator's promises |
| OpenCitationsProviders.SearchSimulation | ai_scholar/providers/opencitations_provider.py:59-196 | _search_simulation returns the records the generator loop characterised above produces |
| OpenCitationsProviders.Generate | ai_scholar/providers/opencitations_provider.py:104-196 | the while loop produces exactly the records SimulatedFrom describes from iteration 0 |
| OpenCitationsProviders.GenerateTurn | ai_scholar/providers/opencitations_provider.py:111-194 | one turn appends at most the one record of its iteration and leaves the rest of the run unchanged |
| OpenCitationsProviders.UnboundedFills | ai_scholar/providers/opencitations_provider.py:104-196 | without year bounds, exactly limit records for a limit up to 1000 |
| OpenCitationsProviders.NoYearInBounds | ai_scholar/providers/opencitations_provider.py:123-130 | a lower bound after 2024 or an upper bound before 2010 leaves nothing to generate |
| OpenCitationsProviders.LeadingIntOfYear | ai_scholar/providers/opencitations_provider.py:216 | a year printed by the generator reads back as the same int |
| OpenCitationsProviders.RelevanceScore | ai_scholar/providers/opencitations_provider.py:256-270 | the relevance score lies in (0, 1] |
| OpenCitationsProviders.RelevanceByCount | ai_scholar/providers/opencitations_provider.py:258-260 | among cited papers of one year, the score never falls as the count grows |
| OpenCitationsProviders.RelevanceByYear | ai_scholar/providers/opencitations_provider.py:262-266 | among papers with one count, the score never falls for a later year |
| OpenCitationsProviders.RelevanceOfNoCitations | ai_scholar/providers/opencitations_provider.py:260 | a paper with no citations outscores one of the same year with one to four, since 0.1 exceeds count/50 there |
| OpenCitationsProviders.AbstractParts | ai_scholar/providers/opencitations_provider.py:204-209 | the abstract has one to three parts and always ends with the OpenCitations attribution |
| OpenCitationsProviders.StandardizedSpec | ai_scholar/providers/opencitations_provider.py:198-246 | a generated record standardizes to a paper with the record's year as an int, its work URI as url, and a relevance in (0, 1] |
| OpenCitationsProviders.StandardizePapers | ai_scholar/providers/opencitations_provider.py:198-254 | the standardisation loop maps every record, in order |
| OpenCitationsProviders.Search | ai_scholar/providers/opencitations_provider.py:19-30 | search returns what SearchSpec and SearchFills characterise |
| OpenCitationsProviders.SimulatedRecordsGood | ai_scholar/providers/opencitations_provider.py:104-196 | the k-th simulated record keeps the generator's promises for position k |
| OpenCitationsProviders.StandardizedGood | ai_scholar/providers/opencitations_provider.py:198-254 | records that keep the generator's promises standardize to papers search promises |
| OpenCitationsProviders.SearchSpec | ai_scholar/providers/opencitations_provider.py:19-30 | at most limit papers and at most 1000, each with a year among the fifteen before 2025 inside the bounds, a positive citation count and a relevance in (0, 1] |
| OpenCitationsProviders.SearchFills | ai_scholar/providers/opencitations_provider.py:19-196 | a valid query without bounds gives exactly limit papers for 0 <= limit <= 1000 |
| SearchCommon.Min | ai_scholar/providers/semantic_scholar_provider.py:29 | Python's min of two ints is one of them and no larger than either |
| SearchCommon.UpTo | ai_scholar/providers/semantic_scholar_provider.py:146 | split(c)[0] is the prefix before the first c: it holds no c, and c follows it unless it is the whole text |
| SearchCommon.YearOfDate | ai_scholar/providers/semantic_scholar_provider.py:144-148 | the year read from a date is an int, or 'Unknown' where int() raises |
| SearchCommon.YearOfDateRoundTrip | ai_scholar/providers/semantic_scholar_provider.py:146 | a date that starts with a printed year and a dash gives that year back |
| SearchCommon.UpToStopsAt | ai_scholar/providers/semantic_scholar_provider.py:146 | the prefix ends at the first occurrence of the separator |
| SearchCommon.Decorated | ai_scholar/utils/error_handler.py:169-190 | after handle_provider_error no unexpected exception escapes a search: found papers pass unchanged and a failure keeps its message |
| SearchCommon.Records | ai_scholar/providers/semantic_scholar_provider.py:156 | iterating over a list visits its elements |
| SearchCommon.Head | ai_scholar/providers/crossref_provider.py:170 | v[0] of a non-empty list is its first element |
| SearchCommon.FirstOr | ai_scholar/providers/crossref_provider.py:170-221 | `v[0] if v else d` gives d for a falsy value and the first element of a non-empty list |
| SearchCommon.Or | ai_scholar/services/ai_service.py:56 | `a or b` is truthy exactly when either operand is |
| SearchCommon.JoinedNames | ai_scholar/providers/semantic_scholar_provider.py:137 | no names give 'Unknown' |
| SearchCommon.JoinedNamesNonEmpty | ai_scholar/providers/semantic_scholar_provider.py:137 | the join of truthy names is never empty |
| SearchCommon.EverySpec | ai_scholar/providers/crossref_provider.py:270-301 | the element-by-element check holds exactly when the condition holds of every element |
| SearchCommon.RankedSpec | ai_scholar/providers/openalex_provider.py:262-364 | a quality filter returns exactly the papers it scores, each as often as in the input, ordered by non-increasing score, papers of equal score in input order |
| SearchCommon.RankedAdmitted | ai_scholar/providers/openalex_provider.py:355-358 | every paper returned is an input paper that was scored |
| SearchCommon.RankedMember | ai_scholar/providers/openalex_provider.py:355-358 | a paper of the sorted kept list is an input paper that was scored |
| SearchCommon.RankedSorted | ai_scholar/providers/openalex_provider.py:358 | the papers returned are ordered by non-increasing score |
| Helpers.FormatItems | ai_scholar/utils/helpers.py:7-8 | one dict per item, each with exactly the mapping's keys, the value of key k being mapping[k] applied to the item |
| Helpers.YearOf | ai_scholar/utils/helpers.py:30-31 | a missing year reads as 0, an int year as itself, and a list or dict year fails (the TypeError that drops the paper) |
| Helpers.FilterResultsByYear | ai_scholar/utils/helpers.py:23-36 | the accumulator loop returns the year-filtered list |
| Helpers.YearFilterExact | ai_scholar/utils/helpers.py:23-36 | the filter keeps, in input order, exactly the papers whose year parses and lies within the given bounds |
| Helpers.YearFilterUnbounded | ai_scholar/utils/helpers.py:24-25 | without bounds the input list comes back unchanged, unparsable years included |
| Helpers.SafeIntConversion | ai_scholar/utils/helpers.py:38-53 | None and the placeholder strings give 0, an int gives itself, and every value gives some int |
| Helpers.SafeIntOfPrintedInt | ai_scholar/utils/helpers.py:38-53 | a printed integer converts back to itself: no printed integer is a placeholder |
| Helpers.CutVersion | ai_scholar/utils/helpers.py:62 | the lazy group of the arXiv pattern: the shortest non-empty prefix of the segment after which only a `v<digits>` suffix or nothing remains |
| Helpers.ArxivIdOf | ai_scholar/utils/helpers.py:62-64 | a captured id is non-empty and holds no '/' |
| Helpers.ArxivIdIsLastSegment | ai_scholar/utils/helpers.py:62-64 | the captured id is a prefix of the URL's last path segment, either the whole segment or the segment without its version suffix |
| Helpers.ArxivIdWithoutVersion | ai_scholar/utils/helpers.py:62-64 | a last segment with no version suffix is captured whole |
| Helpers.WithArxivId | ai_scholar/utils/helpers.py:56-64 | a non-dict element or one without 'url' is left alone; an element changes only by gaining 'roi' = the captured id of a string URL containing 'arxiv'; a non-string URL raises TypeError |
| Helpers.ExtractArxivIds | ai_scholar/utils/helpers.py:55-65 | succeeds exactly when every element's step succeeds, and then returns each element with its step applied, in order; otherwise the TypeError |
| Helpers.StatusErrorMessage | ai_scholar/utils/helpers.py:10-21 | no error string exactly for status 200; every error string starts with "Error: " |
| Helpers.StatusErrorMessagesDistinct | ai_scholar/utils/helpers.py:12-19 | distinct failing statuses give distinct error strings |
| Helpers.StatusApiError | utils/utils.py:10-27 | an API error is raised exactly for a status other than 200, with provider "generic" and that status code |
| Helpers.StatusMappingsAgree | utils/utils.py:16-24 | the two copies of generic_requests_search fail on the same statuses |
| Validators.CollapseSpaceCollapsed | ai_scholar/utils/validators.py:33 | after `re.sub(r'\s+', ' ', ·)` the only whitespace left is single plain spaces |
| Validators.CollapseSpaceEnds | ai_scholar/utils/validators.py:33 | collapsing keeps a text that has no surrounding whitespace free of it |
| Validators.CollapseSpaceOfCollapsed | ai_scholar/utils/validators.py:33 | collapsing an already collapsed text changes nothing |
| Validators.ValidateQueryAccepts | ai_scholar/utils/validators.py:8-35 | a query passes exactly when it is a string whose stripped length, measured before collapsing, is 1 to 500 |
| Validators.ValidateQueryCleaned | ai_scholar/utils/validators.py:24-35 | the cleaned query is non-empty, has no surrounding whitespace, only single spaces inside, and is no longer than the stripped input |
| Validators.ValidateQueryIdempotent | ai_scholar/utils/validators.py:8-35 | validating a cleaned query returns it unchanged |
| Validators.ValidateYearRangeIff | ai_scholar/utils/validators.py:37-63 | the range passes exactly when each bound is None or an int (bools included) on its side of [1900, 2030] and a given minimum is not above a given maximum; a passing range is returned unchanged |
| Validators.ValidateLimitIff | ai_scholar/utils/validators.py:65-85 | exactly the ints 1..max_limit pass, unchanged; with the default maximum 1000 passes and 1001 does not |
| Validators.ValidateRankingModeIff | ai_scholar/utils/validators.py:87-108 | only 'ai_ranking' and 'citation_ranking' pass, unchanged; the mode names the aggregation uses ('ai', 'citations', 'year') are all rejected |
| SearchRequests.PostInitIff | ai_scholar/models/search_request.py:16-40 | a request passes __post_init__ exactly when the stripped query is non-empty, both limits are positive, the mode is one of the two names, and every non-zero year is within its bound with a non-zero minimum not above a non-zero maximum; years of 0 behave like None |
| SearchRequests.SortedNamesAscending | ai_scholar/models/search_request.py:44 | `sorted(backends)` is a rearrangement of the names in ascending order |
| SearchRequests.SortedNamesOrderFree | ai_scholar/models/search_request.py:44 | every rearrangement of the backend names sorts to the same list |
| SearchRequests.BackendsPartOrderFree | ai_scholar/models/search_request.py:44 | the backends part of the key depends only on which backends were listed, not their order; None and an empty list both give "all" |
| SearchRequests.SearchRequest.constructor | ai_scholar/models/search_request.py:4-14 | the dataclass fields hold the given values |
| SearchRequests.SearchRequest.PostInit | ai_scholar/models/search_request.py:16-40 | the query is replaced by its stripped form, no other field changes, and the outcome is the first failing check's ValueError or success |
| SearchRequests.SearchRequest.ToCacheKey | ai_scholar/models/search_request.py:42-45 | the key starts with "search:", the query's hash and a colon |
| Models.PaperToDictKeys | ai_scholar/models/paper.py:27-43 | to_dict has exactly the thirteen field names as keys |
| Models.PaperToDictAt | ai_scholar/models/paper.py:27-43 | each key of to_dict maps to its own field's value, the two timestamps as ISO text or None |
| Models.PaperToDictGets | ai_scholar/models/paper.py:27-70 | reading to_dict back with from_dict's defaults gives each plain field |
| Models.FromIso | ai_scholar/models/paper.py:51 | fromisoformat reads a string exactly when the ISO grammar accepts it, and keeps its text; a non-string or rejected text raises |
| Models.PaperRoundTrip | ai_scholar/models/paper.py:27-70 | from_dict(to_dict(p)) reproduces every field of p whose timestamps fromisoformat reads back |
| Models.PaperFromDictFails | ai_scholar/models/paper.py:50-53 | from_dict succeeds exactly when each timestamp is falsy or readable ISO text; a rejected creation time raises ValueError |
| Models.PaperFromEmptyDict | ai_scholar/models/paper.py:46-70 | from_dict of a dict holding none of the keys gives empty title and authors and None everywhere else |
| Models.CompleteMetadataIff | ai_scholar/models/paper.py:72-79 | for string title, authors and abstract and an int year: complete exactly when title and authors are not blank, the stripped abstract is over ten characters and the year is after 1900 |
| Models.NewSearchResult | ai_scholar/models/search_result.py:23-26 | after __post_init__ created_at is always set, to the given time when one was given |
| Models.PapersToDicts | ai_scholar/models/search_result.py:31 | one dict per paper, each the paper's to_dict, in order |
| Models.SearchResultToDictKeys | ai_scholar/models/search_result.py:28-40 | to_dict has exactly the nine keys |
| Models.SearchResultToDictGets | ai_scholar/models/search_result.py:28-61 | reading to_dict back with from_dict's defaults gives each field |
| Models.PapersRoundTrip | ai_scholar/models/search_result.py:31-45 | turning the papers into dicts and back gives the same papers when their timestamps read back |
| Models.SearchResultRoundTrip | ai_scholar/models/search_result.py:28-61 | from_dict(to_dict(r)) gives back every field of a constructed result except aggregation_stats, which to_dict drops and comes back as None |
| Models.TopPapers | ai_scholar/models/search_result.py:63-65 | `papers[:count]`: a prefix of the papers, count long for a count in range and len+count long for a negative count |
| Models.PapersWithExplanationsSpec | ai_scholar/models/search_result.py:67-69 | raises exactly when some paper has a truthy explanation that is not a string; otherwise keeps, in order, the papers whose explanation is a non-blank string |
| Models.IsExplainedMeans | ai_scholar/models/search_result.py:69 | a paper counts as explained exactly when its explanation is a string with a non-space character |
| Models.SuccessRateBounds | ai_scholar/models/search_result.py:71-77 | 0.0 for no papers; otherwise the share of explained papers, in [0, 1] and 1 exactly when every paper is explained |
| Cache.CacheDataSeparates | ai_scholar/cache.py:8-10 | two requests with the same query and years but a different limit or backend format different key strings, so they get different entries unless md5 collides |
| Cache.PrunedSpec | ai_scholar/cache.py:45-55 | pruning keeps exactly the non-expired entries, unchanged; it is idempotent and no lookup at the same time sees a difference |
| Cache.LookupAfterStore | ai_scholar/cache.py:12-23 | a stored result is returned by lookups less than an hour later and not from the hour on; other keys are unaffected |
| Cache.StatsPartition | ai_scholar/cache.py:30-43 | every entry is either expired or active, so total = expired + active |
| Cache.SearchCache.constructor | ai_scholar/cache.py:5 | the cache starts empty |
| Cache.SearchCache.GetCachedResult | ai_scholar/cache.py:12-20 | returns the value while it is fresh, else None; an expired entry is deleted and nothing else changes |
| Cache.SearchCache.CacheResult | ai_scholar/cache.py:22-23 | the entry for the key becomes (result, now), whatever it held before |
| Cache.SearchCache.Clear | ai_scholar/cache.py:25-28 | the cache becomes empty |
| Cache.SearchCache.Stats | ai_scholar/cache.py:30-43 | total is the entry count, expired the number of expired entries, active their difference, which equals the number of entries that survive pruning |
| Cache.SearchCache.CleanupExpired | ai_scholar/cache.py:45-55 | the cache afterwards is exactly the old cache with the expired entries removed |
| Cache.SearchCache.CollectExpired | ai_scholar/cache.py:48-52 | the collected keys are exactly the keys of expired entries |
| Cache.SearchCache.DeleteKeys | ai_scholar/cache.py:54-55 | exactly the listed keys are removed; every other entry is unchanged |
| SearchServices.SearchService.constructor | ai_scholar/services/search_service.py:16-18 | the service holds the given providers, the default back-end and the shared cache |
| SearchServices.SearchService.SearchPapers | ai_scholar/services/search_service.py:20-122 | search_papers returns, and leaves the cache as, the Search lemmas characterise |
| SearchServices.SearchUnknownBackend | ai_scholar/services/search_service.py:30-41 | only the first listed back-end is used, the default when none is listed; an unknown one raises ValueError after only pruning the cache |
| SearchServices.SearchCacheHit | ai_scholar/services/search_service.py:51-77 | a fresh cache entry answers the search: a cache hit with processing time 0.0, the stored dict items as papers, independent of the provider and the fetched value, cache only pruned |
| SearchServices.SearchMiss | ai_scholar/services/search_service.py:79-122 | on a miss with the provider available, the fetched value is cached exactly when truthy and not a string; a string starting "Error:" raises RuntimeError; otherwise a result that is no cache hit, with the elapsed time |
| SearchServices.SearchUnavailable | ai_scholar/services/search_service.py:130-142 | an unavailable provider raises RuntimeError on a miss, leaving the cache only pruned |
| SearchServices.SearchTotalFound | ai_scholar/services/search_service.py:52-117 | every result lists only papers built from dict items, and total_found counts them |
| SearchServices.SearchTwice | ai_scholar/services/search_service.py:43-90 | a search that fetched a non-empty list, repeated with the same request within the hour, is answered from the cache with the same papers |
| SearchServices.ValidateSearchRequestIff | ai_scholar/services/search_service.py:149-167 | a request is valid exactly when its query is not blank, its first back-end (or the default) is registered, and that provider accepts the query |
| WebHelpers.DetailsFields | ai_scholar/utils/web_helpers.py:22-33 | a display dict has the five fields with their defaults, a zero or missing count shown as 'N/A', and an explanation key exactly when the paper's explanation is truthy |
| WebHelpers.IndexOf | ai_scholar/utils/web_helpers.py:19 | the group found has a key equal to the source, and no group's key is equal when none is found |
| WebHelpers.GroupResultsBySource | ai_scholar/utils/web_helpers.py:12-44 | the grouping loop gives the groups GroupedProperties characterises, or the TypeError |
| WebHelpers.ErrSticks | ai_scholar/utils/web_helpers.py:16-20 | once an unhashable source raises, the later papers do not change the outcome |
| WebHelpers.PyEqEquivalence | ai_scholar/utils/web_helpers.py:19 | Python equality of dict keys is reflexive, symmetric and transitive |
| WebHelpers.MembersSnoc | ai_scholar/utils/web_helpers.py:16-35 | one more paper adds its display dict to the members of its own source only |
| WebHelpers.TotalSizeAppend | ai_scholar/utils/web_helpers.py:20-35 | a new group adds its size to the total |
| WebHelpers.TotalSizeUpdate | ai_scholar/utils/web_helpers.py:35 | replacing a group changes the total by the difference of the sizes |
| WebHelpers.AddNew | ai_scholar/utils/web_helpers.py:19-35 | a paper with a new source opens a group holding just it, and no other group changes |
| WebHelpers.AddNewDistinct | ai_scholar/utils/web_helpers.py:19-20 | a group with a new key keeps the keys distinct |
| WebHelpers.AddNewExact | ai_scholar/utils/web_helpers.py:19-35 | after a new group, each group still holds exactly the display dicts of its papers |
| WebHelpers.AddNewCovered | ai_scholar/utils/web_helpers.py:19-20 | after a new group, every source seen has a group |
| WebHelpers.AddKnown | ai_scholar/utils/web_helpers.py:19-35 | a paper with a known source joins the one group whose key equals it, and the invariant is kept |
| WebHelpers.IndexOfAt | ai_scholar/utils/web_helpers.py:19 | a key equal to some group's key is found |
| WebHelpers.AddPaperKeeps | ai_scholar/utils/web_helpers.py:16-35 | one loop step keeps the grouping invariant and the count of grouped papers |
| WebHelpers.GroupedOk | ai_scholar/utils/web_helpers.py:16-20 | grouping succeeds exactly when every dict paper's source is hashable |
| WebHelpers.GroupedProperties | ai_scholar/utils/web_helpers.py:12-44 | the groups have pairwise different sources, each holds the display dicts of exactly the papers with its source, in input order, every source has a group, and the sizes add up to the number of dict papers |
| WebHelpers.ParseDigitsCases | ai_scholar/utils/web_helpers.py:47-51 | every printed non-negative int parses back; a sign, an empty string and a missing value give the default |
| ErrorHandling.RetryAfterWins | ai_scholar/utils/error_handler.py:43-56 | a number in Retry-After is read back exactly whatever the reset header says, and a non-empty Retry-After that int() rejects gives None even beside a valid reset header |
| ErrorHandling.RetryResetFallback | ai_scholar/utils/error_handler.py:52-56 | without Retry-After, a number in X-RateLimit-Reset is read back exactly |
| ErrorHandling.ProviderRequestErrorCases | ai_scholar/utils/error_handler.py:20-67 | a requests exception is classified by its kind alone and its response is never read; otherwise a 429 becomes a rate-limit error with the retry delay, another response an API error with its status and body, and no response an unavailable-provider error |
| ErrorHandling.ProviderErrorWrapperCases | ai_scholar/utils/error_handler.py:169-190 | a wrapped provider call passes values unchanged, re-raises application errors as they are, turns every requests exception into a network or timeout error and anything else into an unavailable-provider error |
| ErrorHandling.FormatErrorStatus | ai_scholar/utils/error_handler.py:70-119 | rate limits answer 429, authentication failures 401, unavailable providers, network and timeout errors 503, other application errors 400 and anything else 500 with UNKNOWN_ERROR; every body has error true, a message and a code; the provider appears exactly for the three provider-specific kinds |
| ErrorHandling.FormatErrorDetails | ai_scholar/utils/error_handler.py:102-117 | the technical details appear exactly when asked for, and asking adds just those two keys to the same body and status |
| ErrorHandling.FlashAgreesWithJson | ai_scholar/utils/error_handler.py:122-128 | the flash message has category 'error' and shows the same text as the JSON response's message |
| ErrorHandling.ApiErrorWrapperCases | ai_scholar/utils/error_handler.py:152-167 | a route's value passes through; a failure is answered with an error body with the status of its kind and without technical details |
| CitationMatcher.ExtractArxivIdCases | ai_scholar/utils/arxvic_configs/citation_matcher.py:7-13 | for a record whose externalIds is a dict or absent: None exactly when the lowercase key 'arxiv' is missing, the first element of a non-empty list, any other value as it is |
| CitationMatcher.MatchNone | ai_scholar/utils/arxvic_configs/citation_matcher.py:16-22 | match_by_title returns None exactly when every indexed paper has a readable title whose normalised form differs from the record's |
| CitationMatcher.MatchSome | ai_scholar/utils/arxvic_configs/citation_matcher.py:16-22 | a returned id belongs to the first entry, in dict order, whose paper's normalised title equals the record's |
| CitationMatcher.MatchErr | ai_scholar/utils/arxvic_configs/citation_matcher.py:19-21 | an exception comes from the first entry whose title cannot be read, with no match before it |
| CitationMatcher.IndexedTitlesReadable | ai_scholar/utils/arxvic_configs/citation_matcher.py:19-21 | on an index built from the same papers every entry points at a dict paper, so matching raises only for a title that is not a string |
| CitationMatcher.UpdatePaperCitation | ai_scholar/utils/arxvic_configs/citation_matcher.py:25-31 | writes into the caller's list exactly what the value-level update computes and returns its flag, or raises as it does |
| CitationMatcher.CitationUpdateEffect | ai_scholar/utils/arxvic_configs/citation_matcher.py:25-31 | the flag is true exactly when the id is a key; an unknown id changes nothing, a known one changes only the 'citation' key of the paper it maps to, to int(count) |
| CitationMatcher.CitationUpdateErrors | ai_scholar/utils/arxvic_configs/citation_matcher.py:27-29 | the update raises only for an unhashable id, or for a known id with a count int() rejects or a position outside the list |
| CitationMatcher.UpdateListedId | ai_scholar/utils/arxvic_configs/citation_matcher.py:25-31 | with an index built from the same papers, a listed id and an int-like count always update and return true |
| PaperIndexer.Find | ai_scholar/utils/arxvic_configs/paper_indexer.py:15 | dict lookup by Python equality: None exactly when no key equals the id, otherwise the position of an equal key |
| PaperIndexer.CreateArxivIndex | ai_scholar/utils/arxvic_configs/paper_indexer.py:3-17 | the loop builds exactly the index the step-by-step definition gives, or raises its TypeError |
| PaperIndexer.HasArxivPapers | ai_scholar/utils/arxvic_configs/paper_indexer.py:20-25 | true exactly when some dict paper has a truthy 'roi' |
| PaperIndexer.IndexedOk | ai_scholar/utils/arxvic_configs/paper_indexer.py:8-15 | the index is built exactly when every listed id can be a dict key |
| PaperIndexer.IndexedProperties | ai_scholar/utils/arxvic_configs/paper_indexer.py:3-17 | the ids list holds the truthy 'roi' of every dict paper, in order and with repeats; the dict has one key per distinct id, every listed id is a key, and each key maps to the last position whose id equals it |
| PaperIndexer.IndexPointsBack | ai_scholar/utils/arxvic_configs/paper_indexer.py:3-17 | looking up a listed id leads back to the last dict paper whose 'roi' equals it |
| PaperIndexer.HasArxivIffIds | ai_scholar/utils/arxvic_configs/paper_indexer.py:20-25 | has_arxiv_papers holds exactly when create_arxiv_index would list some id |
| PaperIndexer.StepDescribes | ai_scholar/utils/arxvic_configs/paper_indexer.py:9-15 | one turn of the loop keeps the index a description of the papers visited so far |
| Pagination.PageCountCeiling | ai_scholar/endpoints/history.py:25 | the page count is the ceiling of total / per_page: the fewest pages that hold every entry |
| Pagination.PaginateLinks | ai_scholar/endpoints/history.py:20-29 | a previous page is offered exactly when the page is past the first and a next page exactly when it is before the last, each with its number |
| Pagination.Range | ai_scholar/endpoints/history.py:32 | `range(lo, hi)` holds hi - lo consecutive numbers from lo, or none |
| Pagination.IterPagesWindow | ai_scholar/endpoints/history.py:31-33 | the offered page numbers are the consecutive pages from max(1, page-2) to min(pages, page+2): at most five, all real pages, the current page among them exactly when it is a real page |
| Pagination.FirstPagesPrefix | ai_scholar/endpoints/history.py:17 | showing the first k pages in turn lists exactly the first k*20 rows |
| Pagination.PagesCoverAll | ai_scholar/endpoints/history.py:16-25 | pages 1..pages shown in turn list every row exactly once, in order, and no page holds more than 20 |

## Left out

- HTTP transport is not modelled: every provider's `_make_request` with its retries, sleeps and backoff, the `tenacity` retry of `_search_with_retry`, and the network half of `generic_requests_search`. Each request is a parameter `fetch` (or an oracle `search`) whose outcome is given.
- The network helpers are not modelled: the providers' `is_available` probes, `get_paper_details`, `get_paper_by_doi` and `get_paper_by_core_id`, and `SearchService.get_available_backends` and `get_provider_info`, which call `is_available`.
- Foreign parsers are not modelled; what they produce is an input:
  - ElementTree's reading of the arXiv Atom feed;
  - `json.loads` and the `\[.*\]` regular expression in Gemini and the AI utilities;
  - the HTML-tag regular expression of CrossRef abstracts (the parameter `stripTags`);
  - the `google.genai` client and the OpenRouter `requests.post`.
- Nondeterminism is a parameter of the model:
  - Gemini's `_fallback_ranking`, which uses `random.uniform`, is the parameter `fallback`;
  - Python's salted `hash()` in OpenCitations and `SearchRequest.to_cache_key`, and the md5 digest of the cache key, are parameter functions;
  - the iteration order of a set of query words is `Env.setOrder`;
  - the clock (`time.time()`, `datetime.now()`, the current year) is the parameter `now` or a year argument.
- The OpenCitations rate-limit wait `_enforce_rate_limit` is not modelled; it reads the clock and sleeps.
- Floating point is not modelled: scores are exact `real`s.
  - AiUtils.FinalScore: the final `round(…, 1)` of `calculate_final_score` is not modelled.
  - `math.log10` is `Env.log10`, and a lemma that depends on it requires `Config.ValidEnv`.
  - `{:,}` formatting appears only inside the explanation prose, which is not modelled.
- Values.PyStr: `str()` of a float prints its truncation followed by ".0". That is Python's text only for a float with an integral value, so 12.5 prints as "12.0". A dict prints as "{}", which is Python's text only for an empty dict. `PyStr` feeds the texts built in the processing utilities, the rankings, the CORE, CrossRef and Semantic Scholar providers, the legacy aggregator and the AI service.
- The explanation prose is modelled only up to its head: every `_generate_*_explanation` and the prompt templates of `prompts.py` and `ranking_prompt.py` become "Ranked #n" followed by a `tail` parameter. The conditions under which the citation explanation raises are modelled in full.
- `process_batch` and `process_ai_batch` (the AI calls of the rankers) are oracles that return a reply list or fail; `_build_ranking_prompt` is not modelled.
- AiRanker.Reply: the oracle's reply holds dict items only. An item that is not a dict would raise AttributeError on `.get` at ai_scholar/ai_ranker.py:69, which the model does not capture.
- Text.Lower: maps ASCII letters only. Python's `str.lower` also lower-cases non-ASCII letters, so titles with accented capitals normalise differently.
- Text.Title: capitalises ASCII letters only, where Python's `str.title` also treats non-ASCII letters as letters.
- Text.IsDigit: accepts only the ASCII digits, where Python's `str.isdigit` also accepts other Unicode digits (in `parse_int` and the version suffix of arXiv ids).
- PaperProcessingUtils.Extracted: a dict result gives `[]`. The source passes a dict result to `format_items` (arXiv) or to the network call of `generic_requests_search` (paper_service.py:302-312). Every provider of the application returns a list, and `generic_requests_search` is network I/O.
- Aggregation.Absorb: the `except` branch of the pre-filter call (paper_service.py:84-95) is not modelled. That branch tags the source, records `after_filter = len(papers)` and keeps the unfiltered papers. It cannot be reached for a `str` query:
  - the scoring of each paper is inside its own `try` (paper_service.py:363-414);
  - every kept paper carries a float `_pre_filter_score`, so the sort cannot raise either.
- In-place mutation and aliasing of paper dicts are modelled as value semantics, so no aliasing between lists is captured. Each stage returns updated copies:
  - the pre-filter rewrites `title`, `authors` and `abstract` and adds its score;
  - the rankings write `explanation` and score keys;
  - `fast_pre_rank` sorts the caller's list;
  - cleanup pops keys;
  - `extract_arxiv_ids` and `update_paper_citation` write into the dicts.

  In Python, the year-filtered list that the merge reads shares its dicts with the ranked ones, so those dicts can carry the keys written by ranking. The model's merge reads the year-filtered copies instead. The result is the same, because the output `Paper` reads only the nine keys of `ToPaper`, and its explanation comes from the ranked entry.
- Aggregation.AggregatedProperties: `processing_time` and `ai_processing_time` are taken from the clock, so the model has them as a parameter `elapsed` and omits `ai_processing_time`.
- `log_error`, `logger` calls and `print` are not modelled; they have no effect on the results.
- Persistence is not modelled: `WebHelpers.save_search_history` and `get_user_stats`, and the database queries of `ai_scholar/endpoints/history.py`. Only `SimplePagination` and the page offset are modelled.
- `AiModels`: `ai_scholar/ai_models.py` imports `AIConfig` from `ai_scholar/config.py`, which defines no such class. The model takes the API keys and batch sizes as parameters.
- The exception classes `RateLimitError`, `APIUnavailableError`, `AuthenticationError`, `NetworkError` and `TimeoutError` are imported from `ai_scholar/utils/exceptions.py` but not defined there. Their kinds are derived from how `error_handler.py` and the providers use them (`SearchCommon.ErrorKind`, `ErrorHandling.ScholarKind`).
- The providers' constructors, `get_provider_name`, and the wiring of `app_factory.py` and the provider registry are not modelled. They only construct objects; the effect of `service_factory`'s wrapper is recorded under "Findings".
- PaperService.UsedTitle: an unhashable title (a list or a dict) would make the set of used titles raise TypeError; the model files it as an ordinary entry. In the pipeline every title is a string by then, because the pre-filter rewrites it.
- Pagination.PageItems: a page below 1 gives the database a negative offset, and what the database does with it is not modelled; pages are taken from 1 on.
- Models.FromIso: the ISO 8601 grammar that `datetime.fromisoformat` accepts is the parameter `isIso`, not a parser of the model; what it accepts depends on the Python version.
- OpenAlexProviders.Work: the inverted abstract index is a list of (word, positions) pairs. A malformed index (a non-list of positions, a non-integer position) raises inside the record's `try` in Python, and that record is skipped. The model cannot express a malformed index, so it does not capture that skip.
- ErrorHandling.Header: header names are looked up case-sensitively in a map. The headers of a `requests` response are case-insensitive, so "retry-after" is read there and not here.
- Text.ParseInt: accepts surrounding whitespace, an optional sign and ASCII digits. The underscores between digits that Python's `int()` also accepts ("1_000") are rejected.
- The failure texts of the CrossRef and CORE providers (`NoLower`, `NoStrip` and the two texts of `CoreProviders.Listed`) stand in for the `str(e)` of the exception Python raises; only the failure kind is exact.

## Findings

| source | as written | input that shows it | evidently intended | confidence | as-written member | corrected member |
|---|---|---|---|---|---|---|
| ai_scholar/services/paper_service.py:214-216 | the citation provider list reads `ProviderType.OPENCITATIONS`, which the enum of ai_scholar/enums/providers.py does not define, so `_optimize_provider_usage` and with it every search raise AttributeError | any request, for example mode 'ai' with any registered back-ends | the list names the OpenCitations back-end by its registry key 'opencitations' | not executed | Aggregation.AggregatedAsWrittenRaises | Aggregation.AggregatedProperties |
| ai_scholar/services/paper_service.py:219-240 | the citation branch writes `per_provider_limits[provider]` before `per_provider_limits` is assigned, so it raises UnboundLocalError | mode 'citations' with at least one citation back-end registered | the branch starts from an empty dict of limits | not executed | PaperService.CitationModeAsWrittenRaises | PaperService.ProviderUsageProperties |
| ai_scholar/services/service_factory.py:66-81 | the callable registered for each search provider takes `(query, max_results=10)`, while the provider loop calls it with four arguments (paper_service.py:68), so every call raises TypeError and is skipped as a failed provider | any search through the application's wiring, for example query 'graph neural networks' with limit 10 | the wrapper takes `(query, limit, min_year, max_year)` and passes the year bounds on | not executed | Aggregation.FactoryWiredFindsNothing | Aggregation.GatherContributes |
| ai_scholar/services/paper_ranking_service.py:246 | the citation explanation of an uncited paper calls `int(year)` outside any `try`, so a year such as 'Unknown' raises ValueError and the whole citation ranking fails (the same line is at paper_service.py:943) | one uncited paper with title 'Graphs', year 'Unknown', empty authors and abstract, ranked with limit 1 | a year `int()` rejects counts as not recent, as the `try` around the earlier `int(year)` does | not executed | PaperRanking.UnknownYearRaises | PaperRanking.CorrectedRankingTotal |
