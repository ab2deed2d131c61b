// The static helpers of ai_scholar/utils/paper_processing_utils.py, which
// ai_scholar/services/paper_service.py repeats as private methods with small
// differences in how text fields are converted and in the current year. One
// definition covers both copies; `Copy` selects the differing details.

module PaperProcessingUtils {
  import opened Base
  import opened Text
  import opened Values
  import opened Lists
  import opened Sorting
  import opened Config
  import opened Dedup

  /** Which of the two copies of the helpers is meant. */
  datatype Copy = UtilsCopy | ServiceCopy

  // ---------------------------------------------------------------- extraction

  predicate AllDicts(xs: seq<Value>)
  {
    forall i :: 0 <= i < |xs| ==> xs[i].DictV?
  }

  /**
   * What extract_papers_from_result (list branch) returns: a list of dicts
   * comes back with every paper's `source` set to the back-end; anything else gives [].
   */
  function Extracted(result: Value, backendName: string): (papers: seq<PaperDict>)
    ensures !result.ListV? || !AllDicts(result.items) ==> papers == []
    ensures result.ListV? && AllDicts(result.items) ==>
              |papers| == |result.items| &&
              forall i :: 0 <= i < |papers| ==> papers[i] == result.items[i].fields["source" := StrV(backendName)]
  {
    if !result.ListV? || !AllDicts(result.items) then []
    else Map(result.items, (item: Value) => (if item.DictV? then item.fields else map[])["source" := StrV(backendName)])
  }

  /** extract_papers_from_result / _extract_papers_from_result: the tagging loop over a list of dicts. */
  method ExtractPapersFromResult(result: Value, backendName: string) returns (papers: seq<PaperDict>)
    ensures papers == Extracted(result, backendName)
  {
    if !result.ListV? || !AllDicts(result.items) {
      return [];
    }
    var items := result.items;
    papers := [];
    var i := 0;
    while i < |items|
      invariant 0 <= i <= |items|
      invariant |papers| == i
      invariant forall j :: 0 <= j < i ==> papers[j] == items[j].fields["source" := StrV(backendName)]
    {
      papers := papers + [items[i].fields["source" := StrV(backendName)]];
      i := i + 1;
    }
  }

  /** Every extracted paper names its back-end as its source, and keeps every other field of its item. */
  lemma ExtractedSource(result: Value, backendName: string)
    ensures forall p :: p in Extracted(result, backendName) ==> "source" in p && p["source"] == StrV(backendName)
    ensures forall i :: 0 <= i < |Extracted(result, backendName)| ==>
      Extracted(result, backendName)[i] - {"source"} == result.items[i].fields - {"source"}
  {
    var r := Extracted(result, backendName);
    forall i | 0 <= i < |r|
      ensures r[i] - {"source"} == result.items[i].fields - {"source"}
    {
      assert r[i] == result.items[i].fields["source" := StrV(backendName)];
    }
  }

  // ---------------------------------------------------------------- deduplication

  /**
   * The deduplication key of a paper: its normalised title, or none when
   * that is empty; Err where `.lower()` raises on a title that is not a string.
   */
  function TitleDedupKey(p: PaperDict): Result<Option<string>>
  {
    match TitleKey(p)
    case None => Err("AttributeError")
    case Some(t) => Ok(if t == [] then None else Some(t))
  }

  /** remove_duplicates / _remove_duplicates: the loop with a `seen` set of normalised titles. */
  method RemoveDuplicates(papers: seq<PaperDict>) returns (r: Result<seq<PaperDict>>)
    ensures r == DedupBy(papers, TitleDedupKey)
  {
    var seen: set<string> := {};
    var unique: seq<PaperDict> := [];
    var i := 0;
    while i < |papers|
      invariant 0 <= i <= |papers|
      invariant DedupBy(papers[..i], TitleDedupKey) == Ok(unique)
      invariant seen == KeysOf(unique, TitleDedupKey)
    {
      DedupByStep(papers, i, TitleDedupKey);
      var title := TitleKey(papers[i]);
      if title.None? {
        DedupErrPrefix(papers, i + 1, TitleDedupKey);
        return Err("AttributeError");
      }
      if title.value != [] && title.value !in seen {
        KeysOfAppend(unique, papers[i], TitleDedupKey);
        seen := seen + {title.value};
        unique := unique + [papers[i]];
      }
      i := i + 1;
    }
    assert papers[..i] == papers;
    return Ok(unique);
  }

  /**
   * Deduplication fails exactly when some title is not a string; otherwise
   * it keeps, in input order, the first paper of each non-empty normalised
   * title and nothing else, so that applying it again changes nothing.
   */
  lemma RemoveDuplicatesProperties(papers: seq<PaperDict>)
    ensures DedupBy(papers, TitleDedupKey).Ok? <==> forall i :: 0 <= i < |papers| ==> TitleKey(papers[i]).Some?
    ensures DedupBy(papers, TitleDedupKey).Ok? ==>
      var u := DedupBy(papers, TitleDedupKey).value;
      SubseqOf(u, papers) &&
      (forall i :: 0 <= i < |u| ==> TitleKey(u[i]).Some? && TitleKey(u[i]).value != []) &&
      (forall i, j :: 0 <= i < j < |u| ==> TitleKey(u[i]) != TitleKey(u[j])) &&
      KeysOf(u, TitleDedupKey) == KeysOf(papers, TitleDedupKey) &&
      DedupBy(u, TitleDedupKey) == Ok(u)
  {
    DedupOk(papers, TitleDedupKey);
    if DedupBy(papers, TitleDedupKey).Ok? {
      var u := DedupBy(papers, TitleDedupKey).value;
      DedupDistinct(papers, TitleDedupKey);
      DedupKeys(papers, TitleDedupKey);
      DedupIdempotent(papers, TitleDedupKey);
      forall i, j | 0 <= i < j < |u| ensures TitleKey(u[i]) != TitleKey(u[j]) {
        assert TitleDedupKey(u[i]) != TitleDedupKey(u[j]);
      }
    }
  }

  /** The first paper of each non-empty normalised title survives deduplication. */
  lemma RemoveDuplicatesKeepsFirst(papers: seq<PaperDict>, i: nat)
    requires i < |papers| && DedupBy(papers, TitleDedupKey).Ok?
    requires TitleKey(papers[i]).Some? && TitleKey(papers[i]).value != []
    requires forall j :: 0 <= j < i ==> TitleKey(papers[j]) != TitleKey(papers[i])
    ensures papers[i] in DedupBy(papers, TitleDedupKey).value
  {
    var t := TitleKey(papers[i]).value;
    KeysOfMembers(papers[..i], TitleDedupKey, t);
    DedupKeepsFirst(papers, TitleDedupKey, i);
  }

  // ---------------------------------------------------------------- text conversion

  /** `str(v)` of every element that is not None. */
  function StrsNonNone(xs: seq<Value>): seq<string>
  {
    Map(Filter(xs, IsNotNone), PyStr)
  }

  /**
   * _safe_string_conversion: a list is space-joined without its None
   * elements (and not stripped), None is '', anything else is str() stripped.
   */
  function SafeStringConversion(v: Value): string
  {
    match v
    case ListV(xs) => Join(" ", StrsNonNone(xs))
    case NoneV => ""
    case _ => Strip(PyStr(v))
  }

  /** None converts to '', a string to itself stripped, and no converted scalar has surrounding spaces. */
  lemma SafeStringConversionCases(v: Value)
    ensures v.NoneV? ==> SafeStringConversion(v) == []
    ensures v.StrV? ==> SafeStringConversion(v) == Strip(v.s)
    ensures !v.ListV? ==> var r := SafeStringConversion(v);
              r == [] || (!IsSpace(r[0]) && !IsSpace(r[|r| - 1]))
  {
    if !v.ListV? {
      assert SafeStringConversion(v) == (if v.NoneV? then [] else Strip(PyStr(v)));
    }
  }

  /** Converting an already converted string changes nothing. */
  lemma SafeStringConversionIdempotent(v: Value)
    requires !v.ListV?
    ensures SafeStringConversion(StrV(SafeStringConversion(v))) == SafeStringConversion(v)
  {
    SafeStringConversionCases(v);
    StripOfNonSpaceEnds(SafeStringConversion(v));
  }

  /**
   * How the pre-filter cleans title, authors and abstract. The service copy
   * joins a list with `sep` and strips the result; the utils copy joins with
   * a space and does not strip lists.
   */
  function CleanField(v: Value, sep: string, copy: Copy): string
  {
    match copy
    case UtilsCopy => SafeStringConversion(v)
    case ServiceCopy =>
      match v
      case ListV(xs) => Strip(Join(sep, StrsNonNone(xs)))
      case NoneV => ""
      case _ => Strip(PyStr(v))
  }

  /** The lowered text the relevance score reads from a title or abstract value. */
  function RelevanceText(v: Value, copy: Copy): string
  {
    match copy
    case UtilsCopy => Lower(SafeStringConversion(v))
    case ServiceCopy =>
      match v
      // the service joins every element, None included
      case ListV(xs) => Lower(Join(" ", Map(xs, PyStr)))
      case _ => if Truthy(v) then Lower(PyStr(v)) else ""
  }

  /** The abstract text the quality score measures. */
  function QualityAbstract(v: Value, copy: Copy): string
  {
    match copy
    case UtilsCopy => SafeStringConversion(v)
    case ServiceCopy =>
      match v
      case ListV(xs) => Join(" ", Map(xs, PyStr))
      case _ => if Truthy(v) then PyStr(v) else ""
  }

  function CurrentYear(copy: Copy): int
  {
    match copy
    case UtilsCopy => 2025
    case ServiceCopy => 2024
  }

  // ---------------------------------------------------------------- scores

  function WordSet(s: string): set<string>
  {
    set w | w in Split(s)
  }

  /** `set(query.lower().split())`. */
  function QueryWords(query: string): set<string>
  {
    WordSet(Lower(query))
  }

  /** `' '.join(query_words)`, in the order the set happens to iterate. */
  function Phrase(qw: set<string>, env: Env): string
  {
    Join(" ", env.setOrder(qw))
  }

  /** Whatever order the set iterates in, a one-word query joins to that word and an empty one to the empty string. */
  lemma PhraseOfFewWords(qw: set<string>, env: Env)
    requires ValidEnv(env)
    ensures qw == {} ==> Phrase(qw, env) == ""
    ensures forall w :: qw == {w} ==> Phrase(qw, env) == w
  {
    var order := env.setOrder(qw);
    assert |order| == |qw|;
    if |order| == 1 {
      assert order[0] in qw;
    }
  }

  lemma SubsetCard<T>(a: set<T>, b: set<T>)
    requires a <= b
    ensures |a| <= |b|
  {
    assert b == a + (b - a);
  }

  /** How many query words a (lowered) text contains as words; none for an empty text. */
  function MatchCount(text: string, qw: set<string>): (n: nat)
    ensures n <= |qw|
    ensures n > 0 ==> text != [] && qw * WordSet(text) != {}
  {
    SubsetCard(qw * WordSet(text), qw);
    if text != [] then |qw * WordSet(text)| else 0
  }

  /** `m / n` for `0 <= m <= n`, with 0 standing for the branch where no word matched. */
  function Share(m: nat, n: nat): (r: real)
    requires m <= n
    ensures 0.0 <= r <= 1.0
    ensures r == 0.0 <==> m == 0
  {
    if m == 0 then 0.0
    else
      var q := m as real / n as real;
      assert q * (n as real) == m as real;
      q
  }

  /**
   * The relevance score on already lowered title and abstract texts:
   * the share of query words in the title (weight 0.6) and in the abstract
   * (weight 0.4), plus 0.3 when the joined query occurs in the title or else
   * 0.2 when it occurs in the abstract, capped at 1.0.
   */
  function RelevanceFromTexts(title: string, abstr: string, qw: set<string>, phrase: string): (r: real)
    ensures 0.0 <= r <= 1.0
  {
    var bonus := if Contains(title, phrase) then 0.3 else if Contains(abstr, phrase) then 0.2 else 0.0;
    MinReal(Share(MatchCount(title, qw), |qw|) * 0.6 + Share(MatchCount(abstr, qw), |qw|) * 0.4 + bonus, 1.0)
  }

  /** A paper sharing no word and no phrase with the query scores 0. */
  lemma RelevanceWithoutMatch(title: string, abstr: string, qw: set<string>, phrase: string)
    requires qw * WordSet(title) == {} && qw * WordSet(abstr) == {}
    requires !Contains(title, phrase) && !Contains(abstr, phrase)
    ensures RelevanceFromTexts(title, abstr, qw, phrase) == 0.0
  {
  }

  /** The phrase in the title earns at least 0.3, whatever else matches. */
  lemma RelevancePhraseInTitle(title: string, abstr: string, qw: set<string>, phrase: string)
    requires Contains(title, phrase)
    ensures RelevanceFromTexts(title, abstr, qw, phrase) >= 0.3
  {
  }

  /** _calculate_relevance_score of a paper dict. */
  function Relevance(p: PaperDict, qw: set<string>, phrase: string, copy: Copy): (r: real)
    ensures 0.0 <= r <= 1.0
  {
    RelevanceFromTexts(
      RelevanceText(Get(p, "title", StrV("")), copy),
      RelevanceText(Get(p, "abstract", StrV("")), copy),
      qw, phrase)
  }

  /** The citation part of the quality score; an unparsable count adds nothing. */
  function CitationQuality(cit: Value): real
  {
    if Truthy(cit) && cit != StrV("N/A") then
      match PyInt(cit)
      case Some(c) => if c > 100 then 0.2 else if c > 10 then 0.1 else 0.0
      case None => 0.0
    else 0.0
  }

  /** The recency part of the quality score: 0.1 for the last ten years. */
  function YearQuality(year: Value, currentYear: int): real
  {
    if Truthy(year) && year != StrV("Unknown") then
      match PyInt(year)
      case Some(y) => if currentYear - y <= 10 then 0.1 else 0.0
      case None => 0.0
    else 0.0
  }

  /** The quality score from its parts: DOI 0.3, url 0.2, abstract up to 0.3, citations up to 0.2, recency 0.1, capped at 1.0. */
  function QualityFromParts(hasDoi: bool, hasUrl: bool, abstractLength: nat, cit: Value, year: Value, currentYear: int): (r: real)
    ensures 0.0 <= r <= 1.0
  {
    var doi := if hasDoi then 0.3 else 0.0;
    var url := if hasUrl then 0.2 else 0.0;
    var fromAbstract := if abstractLength > 100 then 0.3 else if abstractLength > 50 then 0.2 else 0.0;
    MinReal(doi + url + fromAbstract + CitationQuality(cit) + YearQuality(year, currentYear), 1.0)
  }

  /** _calculate_quality_score of a paper dict. */
  function QualityScore(p: PaperDict, copy: Copy): (r: real)
    ensures 0.0 <= r <= 1.0
  {
    QualityFromParts(Truthy(Get(p, "doi", NoneV)), Truthy(Get(p, "url", NoneV)),
                     |QualityAbstract(Get(p, "abstract", StrV("")), copy)|,
                     Get(p, "citations", NoneV), Get(p, "year", NoneV), CurrentYear(copy))
  }

  /** The two copies measure the same abstract when it is an already stripped string. */
  lemma QualityAbstractCopiesAgree(v: Value)
    requires v.StrV? && Strip(v.s) == v.s
    ensures QualityAbstract(v, UtilsCopy) == QualityAbstract(v, ServiceCopy)
  {
    UtilsAbstractOfString(v);
    ServiceAbstractOfString(v);
  }

  lemma UtilsAbstractOfString(v: Value)
    requires v.StrV?
    ensures QualityAbstract(v, UtilsCopy) == Strip(v.s)
  {
    SafeStringConversionCases(v);
  }

  lemma ServiceAbstractOfString(v: Value)
    requires v.StrV?
    ensures QualityAbstract(v, ServiceCopy) == v.s
  {
  }

  /**
   * For a paper whose abstract is an already stripped string, the two
   * copies of the quality score agree unless the year parses as 2014, which
   * the service copy (current year 2024) counts as recent and the utils copy
   * (2025) does not.
   */
  lemma QualityCopiesAgree(p: PaperDict)
    requires Get(p, "abstract", StrV("")).StrV?
    requires Strip(Get(p, "abstract", StrV("")).s) == Get(p, "abstract", StrV("")).s
    requires PyInt(Get(p, "year", NoneV)) != Some(2014)
    ensures QualityScore(p, UtilsCopy) == QualityScore(p, ServiceCopy)
  {
    var abstr := Get(p, "abstract", StrV(""));
    var year := Get(p, "year", NoneV);
    QualityAbstractCopiesAgree(abstr);
    YearQualityCopies(year);
    QualityPartsAgree(Truthy(Get(p, "doi", NoneV)), Truthy(Get(p, "url", NoneV)), |QualityAbstract(abstr, UtilsCopy)|,
                      Get(p, "citations", NoneV), year, CurrentYear(UtilsCopy), CurrentYear(ServiceCopy));
  }

  /** Parts with the same recency credit under two current years give the same score. */
  lemma QualityPartsAgree(hasDoi: bool, hasUrl: bool, abstractLength: nat, cit: Value, year: Value, y1: int, y2: int)
    requires YearQuality(year, y1) == YearQuality(year, y2)
    ensures QualityFromParts(hasDoi, hasUrl, abstractLength, cit, year, y1) == QualityFromParts(hasDoi, hasUrl, abstractLength, cit, year, y2)
  {
  }

  /** The recency part differs between the current years 2025 and 2024 only for the year 2014. */
  lemma YearQualityCopies(year: Value)
    ensures YearQuality(year, 2025) != YearQuality(year, 2024) <==> PyInt(year) == Some(2014) && Truthy(year) && year != StrV("Unknown")
  {
  }

  // ---------------------------------------------------------------- pre-filter

  /** The author strings the pre-filter treats as missing, compared after lowering. */
  predicate IsAuthorPlaceholder(a: string)
  {
    a in ["unknown", "n/a", "no authors"]
  }

  /**
   * What every paper leaving the pre-filter satisfies: a title of at least
   * ten characters, authors that are not a placeholder, and a score above
   * the minimum.
   */
  predicate PassesPreFilter(p: PaperDict, minScore: real)
  {
    "title" in p && p["title"].StrV? && |p["title"].s| >= 10 &&
    "authors" in p && p["authors"].StrV? && p["authors"].s != [] &&
    !IsAuthorPlaceholder(Lower(p["authors"].s)) &&
    "_pre_filter_score" in p && p["_pre_filter_score"].RealV? &&
    p["_pre_filter_score"].r > minScore
  }

  /**
   * One paper of the pre-filter, given the scoring of a cleaned paper: None
   * when it is skipped or scores too low, otherwise the paper with cleaned
   * fields and its `_pre_filter_score`.
   */
  function PreFilterStep(p: PaperDict, score: PaperDict -> real, copy: Copy, minScore: real): Option<PaperDict>
  {
    var title := CleanField(Get(p, "title", StrV("")), " ", copy);
    var authors := CleanField(Get(p, "authors", StrV("")), ", ", copy);
    if title == [] || |title| < 10 then None
    else if authors == [] || IsAuthorPlaceholder(Lower(authors)) then None
    else
      var q := p["title" := StrV(title)]["authors" := StrV(authors)]
                ["abstract" := StrV(CleanField(Get(p, "abstract", StrV("")), " ", copy))];
      if score(q) > minScore then Some(q["_pre_filter_score" := RealV(score(q))]) else None
  }

  /** Every paper the step keeps passes the pre-filter. */
  lemma PreFilterStepPasses(p: PaperDict, score: PaperDict -> real, copy: Copy, minScore: real)
    ensures PreFilterStep(p, score, copy, minScore).Some? ==>
              PassesPreFilter(PreFilterStep(p, score, copy, minScore).value, minScore)
  {
    var title := CleanField(Get(p, "title", StrV("")), " ", copy);
    var authors := CleanField(Get(p, "authors", StrV("")), ", ", copy);
    var abstr := CleanField(Get(p, "abstract", StrV("")), " ", copy);
    if PreFilterStep(p, score, copy, minScore).Some? {
      var q := p["title" := StrV(title)]["authors" := StrV(authors)]["abstract" := StrV(abstr)];
      StampedPasses(p, title, authors, abstr, score(q), minScore);
    }
  }

  /** The dict the step builds passes the pre-filter once its title, authors and score pass the step's tests. */
  lemma StampedPasses(p: PaperDict, title: string, authors: string, abstr: string, s: real, minScore: real)
    requires |title| >= 10 && authors != [] && !IsAuthorPlaceholder(Lower(authors)) && s > minScore
    ensures PassesPreFilter(p["title" := StrV(title)]["authors" := StrV(authors)]["abstract" := StrV(abstr)]
                             ["_pre_filter_score" := RealV(s)], minScore)
  {
  }

  /** The combined pre-filter score: relevance weighted 0.7, quality 0.3. */
  function PreFilterScore(p: PaperDict, qw: set<string>, phrase: string, copy: Copy): (r: real)
    ensures 0.0 <= r <= 1.0
  {
    Relevance(p, qw, phrase, copy) * 0.7 + QualityScore(p, copy) * 0.3
  }

  function PreFilterScoreFn(qw: set<string>, phrase: string, copy: Copy): PaperDict -> real
  {
    p => PreFilterScore(p, qw, phrase, copy)
  }

  function PreFilterStepFn(qw: set<string>, phrase: string, copy: Copy, minScore: real): PaperDict -> Option<PaperDict>
  {
    p => PreFilterStep(p, PreFilterScoreFn(qw, phrase, copy), copy, minScore)
  }

  function PreFilterKey(p: PaperDict): Key
  {
    NumKey(NumField(p, "_pre_filter_score"))
  }

  /** What pre_filter_papers returns: the kept papers by descending score, cut to the per-provider maximum. */
  function PreFiltered(papers: seq<PaperDict>, query: string, env: Env, copy: Copy, settings: Settings): seq<PaperDict>
  {
    if papers == [] then []
    else
      var qw := QueryWords(query);
      var kept := FilterMap(papers, PreFilterStepFn(qw, Phrase(qw, env), copy, settings.preFilterMinScore));
      Slice(SortDesc(kept, PreFilterKey), settings.maxPerProviderAfterFilter)
  }

  /** pre_filter_papers / _pre_filter_papers: the scoring loop, then the sort and the cut. */
  method PreFilterPapers(papers: seq<PaperDict>, query: string, env: Env, copy: Copy, settings: Settings)
    returns (r: seq<PaperDict>)
    ensures r == PreFiltered(papers, query, env, copy, settings)
  {
    if papers == [] {
      return papers;
    }
    var qw := QueryWords(query);
    var step := PreFilterStepFn(qw, Phrase(qw, env), copy, settings.preFilterMinScore);
    var filtered := ScorePapers(papers, step);
    r := Slice(SortDesc(filtered, PreFilterKey), settings.maxPerProviderAfterFilter);
  }

  /** The scoring loop of the pre-filter: each paper through `step`, the kept ones in order. */
  method ScorePapers(papers: seq<PaperDict>, step: PaperDict -> Option<PaperDict>) returns (filtered: seq<PaperDict>)
    ensures filtered == FilterMap(papers, step)
  {
    filtered := [];
    var i := 0;
    while i < |papers|
      invariant 0 <= i <= |papers|
      invariant filtered == FilterMap(papers[..i], step)
    {
      FilterMapStep(papers, i, step);
      var scored := step(papers[i]);
      if scored.Some? {
        filtered := filtered + [scored.value];
      }
      i := i + 1;
    }
    assert papers[..i] == papers;
  }

  /**
   * Every paper the pre-filter keeps has a title of at least ten characters,
   * real authors and a score above the minimum; the list is in descending
   * score order and no longer than the per-provider maximum.
   */
  lemma PreFilterProperties(papers: seq<PaperDict>, query: string, env: Env, copy: Copy, settings: Settings)
    ensures var r := PreFiltered(papers, query, env, copy, settings);
      SortedDesc(r, PreFilterKey) &&
      |r| <= |papers| &&
      (settings.maxPerProviderAfterFilter >= 0 ==> |r| <= settings.maxPerProviderAfterFilter) &&
      forall p :: p in r ==> PassesPreFilter(p, settings.preFilterMinScore)
  {
    if papers != [] {
      var qw := QueryWords(query);
      var step := PreFilterStepFn(qw, Phrase(qw, env), copy, settings.preFilterMinScore);
      var kept := FilterMap(papers, step);
      var sorted := SortDesc(kept, PreFilterKey);
      var r := Slice(sorted, settings.maxPerProviderAfterFilter);
      SortDescSorted(kept, PreFilterKey);
      SortedPrefix(sorted, |r|, PreFilterKey);
      SortDescMembers(kept, PreFilterKey);
      FilterMapMembers(papers, step);
      forall p | p in r
        ensures PassesPreFilter(p, settings.preFilterMinScore)
      {
        assert p in sorted;
        var i :| 0 <= i < |papers| && step(papers[i]) == Some(p);
        PreFilterStepPasses(papers[i], PreFilterScoreFn(qw, Phrase(qw, env), copy), copy, settings.preFilterMinScore);
      }
    }
  }

  /** The papers the scoring loop of the pre-filter keeps, cleaned and scored, in input order. */
  function PreFilterKept(papers: seq<PaperDict>, query: string, env: Env, copy: Copy, settings: Settings): seq<PaperDict>
  {
    var qw := QueryWords(query);
    FilterMap(papers, PreFilterStepFn(qw, Phrase(qw, env), copy, settings.preFilterMinScore))
  }

  /**
   * Which papers survive the pre-filter: all the kept ones when there are
   * no more than the per-provider maximum; otherwise the best-scoring ones,
   * since every kept paper left out scores no higher than every paper
   * returned; and papers of equal score keep their input order.
   */
  lemma PreFilterSelection(papers: seq<PaperDict>, query: string, env: Env, copy: Copy, settings: Settings)
    ensures var kept := PreFilterKept(papers, query, env, copy, settings);
      CutSelects(PreFiltered(papers, query, env, copy, settings), kept, PreFilterKey, settings.maxPerProviderAfterFilter)
  {
    var kept := PreFilterKept(papers, query, env, copy, settings);
    CutOfSorted(kept, PreFilterKey, settings.maxPerProviderAfterFilter);
  }

  /**
   * `r` is what a cut to `max` of `kept` sorted by `key` should be: all of
   * `kept` when it fits, otherwise nothing left out beats anything kept,
   * and equal keys stay in the order of `kept`.
   */
  ghost predicate CutSelects(r: seq<PaperDict>, kept: seq<PaperDict>, key: PaperDict -> Key, max: int)
  {
    (|kept| <= max ==> multiset(r) == multiset(kept)) &&
    (forall q, p :: q in kept && q !in r && p in r ==> KeyGe(key(p), key(q))) &&
    (forall k :: KeyClass(r, key, k) <= KeyClass(kept, key, k))
  }

  /** The cut of the sorted list selects in that sense. */
  lemma CutOfSorted(kept: seq<PaperDict>, key: PaperDict -> Key, max: int)
    ensures CutSelects(Slice(SortDesc(kept, key), max), kept, key, max)
  {
    var sorted := SortDesc(kept, key);
    var r := Slice(sorted, max);
    SortDescMultiset(kept, key);
    assert |sorted| == |kept| by { assert |multiset(sorted)| == |multiset(kept)|; }
    TopDominates(kept, key, |r|);
    forall k
      ensures KeyClass(r, key, k) <= KeyClass(kept, key, k)
    {
      SortedTopStable(kept, key, |r|, k);
    }
  }

  // ---------------------------------------------------------------- fast pre-rank

  /** The log-scaled citation part of the fast score; a count for which log10 raises adds nothing. */
  function FastCitationScore(cit: Value, env: Env): real
  {
    if Truthy(cit) && cit != StrV("N/A") then
      match PyInt(cit)
      case Some(c) => if c + 1 > 0 then MinReal(env.log10((c + 1) as real) / 3.0, 1.0) * 0.2 else 0.0
      case None => 0.0
    else 0.0
  }

  /**
   * With Python's log10, the citation part of the fast score lies in
   * [0, 0.2] and never falls as the citation count grows.
   */
  lemma FastCitationScoreMonotone(a: int, b: int, env: Env)
    requires ValidEnv(env)
    requires 0 <= a <= b
    ensures 0.0 <= FastCitationScore(IntV(a), env) <= 0.2
    ensures FastCitationScore(IntV(a), env) <= FastCitationScore(IntV(b), env)
  {
    assert env.log10(1.0) <= env.log10((a + 1) as real);
    assert env.log10((a + 1) as real) <= env.log10((b + 1) as real);
  }

  /** The fast score: relevance weighted 0.5, quality 0.3, log-scaled citations 0.2. */
  function FastScore(p: PaperDict, qw: set<string>, phrase: string, copy: Copy, env: Env): real
  {
    Relevance(p, qw, phrase, copy) * 0.5 + QualityScore(p, copy) * 0.3
    + FastCitationScore(Get(p, "citations", IntV(0)), env)
  }

  /** A paper with its `_fast_rank_score`: relevance 0.5, quality 0.3, citations 0.2. */
  function WithFastScore(p: PaperDict, qw: set<string>, phrase: string, copy: Copy, env: Env): PaperDict
  {
    p["_fast_rank_score" := RealV(FastScore(p, qw, phrase, copy, env))]
  }

  function WithFastScoreFn(qw: set<string>, phrase: string, copy: Copy, env: Env): PaperDict -> PaperDict
  {
    p => WithFastScore(p, qw, phrase, copy, env)
  }

  function FastKey(p: PaperDict): Key
  {
    NumKey(NumField(p, "_fast_rank_score"))
  }

  /** What fast_pre_rank returns. */
  function FastPreRanked(papers: seq<PaperDict>, query: string, target: int, env: Env, copy: Copy): seq<PaperDict>
  {
    if |papers| <= target then papers
    else
      var qw := QueryWords(query);
      Slice(SortDesc(Map(papers, WithFastScoreFn(qw, Phrase(qw, env), copy, env)), FastKey), target)
  }

  /** fast_pre_rank / _fast_pre_rank: score every paper in a loop, sort, keep the first `target`. */
  method FastPreRank(papers: seq<PaperDict>, query: string, target: int, env: Env, copy: Copy)
    returns (r: seq<PaperDict>)
    ensures r == FastPreRanked(papers, query, target, env, copy)
  {
    if |papers| <= target {
      return papers;
    }
    var qw := QueryWords(query);
    var score := WithFastScoreFn(qw, Phrase(qw, env), copy, env);
    var scored: seq<PaperDict> := [];
    var i := 0;
    while i < |papers|
      invariant 0 <= i <= |papers|
      invariant scored == Map(papers[..i], score)
    {
      MapStep(papers, i, score);
      scored := scored + [score(papers[i])];
      i := i + 1;
    }
    assert papers[..i] == papers;
    r := Slice(SortDesc(scored, FastKey), target);
  }

  /**
   * A list longer than the target comes back cut to exactly `target`
   * papers, in descending fast score, each an input paper with its score added.
   */
  lemma FastPreRankProperties(papers: seq<PaperDict>, query: string, target: int, env: Env, copy: Copy)
    requires |papers| > target >= 0
    ensures var r := FastPreRanked(papers, query, target, env, copy);
      var qw := QueryWords(query);
      |r| == target && SortedDesc(r, FastKey) &&
      forall q :: q in r ==> q in Map(papers, WithFastScoreFn(qw, Phrase(qw, env), copy, env))
  {
    var qw := QueryWords(query);
    var scored := Map(papers, WithFastScoreFn(qw, Phrase(qw, env), copy, env));
    TopOfSorted(scored, FastKey, target);
    assert FastPreRanked(papers, query, target, env, copy) == SortDesc(scored, FastKey)[..target];
  }

  // ---------------------------------------------------------------- cleanup

  const TempFields: set<string> :=
    {"_pre_filter_score", "_fast_rank_score", "_quality_score", "_year_relevance_score", "_year_score_components"}

  /** A paper without the five scoring keys. */
  function Cleaned(p: PaperDict): PaperDict
  {
    p - TempFields
  }

  /** cleanup_temporary_fields: pops the five scoring keys from every paper. */
  method CleanupTemporaryFields(papers: seq<PaperDict>) returns (r: seq<PaperDict>)
    ensures |r| == |papers|
    ensures forall i :: 0 <= i < |r| ==> r[i].Keys == papers[i].Keys - TempFields
    ensures forall i, k :: 0 <= i < |r| && k in r[i] ==> r[i][k] == papers[i][k]
    ensures r == Map(papers, Cleaned)
  {
    r := [];
    var i := 0;
    while i < |papers|
      invariant 0 <= i <= |papers|
      invariant |r| == i
      invariant forall j :: 0 <= j < i ==> r[j] == papers[j] - TempFields
    {
      r := r + [papers[i] - TempFields];
      i := i + 1;
    }
  }

  /** Cleaning a list twice is cleaning it once: the second pass finds no scoring key left to pop. */
  lemma CleanupIdempotent(papers: seq<PaperDict>)
    ensures Map(Map(papers, Cleaned), Cleaned) == Map(papers, Cleaned)
  {
    var once := Map(papers, Cleaned);
    forall i | 0 <= i < |once|
      ensures Cleaned(once[i]) == once[i]
    {
      assert once[i].Keys !! TempFields;
    }
  }

  // ---------------------------------------------------------------- merge

  /** A paper's normalised title, or Err where `.lower()` raises. */
  function TitleOrError(p: PaperDict): Result<string>
  {
    match TitleKey(p)
    case None => Err("AttributeError")
    case Some(t) => Ok(t)
  }

  /** The inner loop of the merge: the first full paper with the normalised title `t`. */
  method FindByTitle(all: seq<PaperDict>, t: string) returns (r: Result<Option<nat>>)
    ensures r == FirstMatch(all, TitleOrError, t, 0)
  {
    var j := 0;
    while j < |all|
      invariant 0 <= j <= |all|
      invariant FirstMatch(all, TitleOrError, t, 0) == FirstMatch(all, TitleOrError, t, j)
    {
      var title := TitleOrError(all[j]);
      if title.Err? {
        return Err(title.error);
      }
      if title.value == t {
        return Ok(Some(j));
      }
      j := j + 1;
    }
    return Ok(None);
  }

  /**
   * One entry of merge_ranked_with_details: a copy of the first full paper
   * with the same normalised title, given the ranked explanation when the
   * ranked paper has one; the ranked paper itself when none matches.
   */
  function MergeEntry(rp: PaperDict, all: seq<PaperDict>): (r: Result<PaperDict>)
    ensures r.Ok? ==> TitleOrError(rp).Ok?
  {
    match TitleOrError(rp)
    case Err(e) => Err(e)
    case Ok(t) =>
      match FirstMatch(all, TitleOrError, t, 0)
      case Err(e) => Err(e)
      case Ok(None) => Ok(rp)
      case Ok(Some(i)) => Ok(if "explanation" in rp then all[i]["explanation" := rp["explanation"]] else all[i])
  }

  /** The first full paper with the ranked paper's title is the one merged, carrying the ranked explanation. */
  lemma MergeEntryMatched(rp: PaperDict, all: seq<PaperDict>, i: nat)
    requires TitleOrError(rp).Ok? && i < |all| && TitleOrError(all[i]) == TitleOrError(rp)
    requires forall j :: 0 <= j < i ==> TitleOrError(all[j]).Ok? && TitleOrError(all[j]) != TitleOrError(rp)
    ensures MergeEntry(rp, all) == Ok(if "explanation" in rp then all[i]["explanation" := rp["explanation"]] else all[i])
  {
    FirstMatchAt(all, TitleOrError, TitleOrError(rp).value, 0, i);
  }

  /** A ranked paper no full paper shares a title with is kept as it is. */
  lemma MergeEntryUnmatched(rp: PaperDict, all: seq<PaperDict>)
    requires TitleOrError(rp).Ok?
    requires forall j :: 0 <= j < |all| ==> TitleOrError(all[j]).Ok? && TitleOrError(all[j]) != TitleOrError(rp)
    ensures MergeEntry(rp, all) == Ok(rp)
  {
    FirstMatchNone(all, TitleOrError, TitleOrError(rp).value, 0);
  }

  /** A title that is not a string, in the ranked paper or in a full paper scanned before the match, raises. */
  lemma MergeEntryRaises(rp: PaperDict, all: seq<PaperDict>, i: nat)
    requires i < |all| && TitleOrError(all[i]).Err?
    requires forall j :: 0 <= j < i ==> TitleOrError(all[j]) != TitleOrError(rp)
    ensures MergeEntry(rp, all).Err?
  {
    if TitleOrError(rp).Ok? {
      FirstMatchRaises(all, TitleOrError, TitleOrError(rp).value, 0, i);
    }
  }

  function MergeEntryFn(all: seq<PaperDict>): PaperDict -> Result<PaperDict>
  {
    rp => MergeEntry(rp, all)
  }

  /** merge_ranked_with_details / _merge_ranked_with_details: one output paper per ranked paper, in ranked order. */
  method MergeRankedWithDetails(ranked: seq<PaperDict>, all: seq<PaperDict>) returns (r: Result<seq<PaperDict>>)
    ensures r == MapResult(ranked, MergeEntryFn(all))
  {
    var merged: seq<PaperDict> := [];
    var i := 0;
    while i < |ranked|
      invariant 0 <= i <= |ranked|
      invariant MapResult(ranked[..i], MergeEntryFn(all)) == Ok(merged)
    {
      MapResultStep(ranked, i, MergeEntryFn(all));
      var title := TitleOrError(ranked[i]);
      if title.Err? {
        MapResultErrPrefix(ranked, i + 1, MergeEntryFn(all));
        return Err(title.error);
      }
      var found := FindByTitle(all, title.value);
      if found.Err? {
        MapResultErrPrefix(ranked, i + 1, MergeEntryFn(all));
        return Err(found.error);
      }
      var entry := ranked[i];
      if found.value.Some? {
        entry := all[found.value.value];
        if "explanation" in ranked[i] {
          entry := entry["explanation" := ranked[i]["explanation"]];
        }
      }
      merged := merged + [entry];
      i := i + 1;
    }
    assert ranked[..i] == ranked;
    return Ok(merged);
  }
}
