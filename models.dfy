// The Paper and SearchResult data classes: conversion to and from dicts,
// the metadata completeness check and the result views. Python does not
// enforce the annotated field types, so the fields a dict can set to
// anything hold a Value.

module Models {
  import opened Base
  import opened Text
  import opened Values
  import opened Lists

  /** A datetime, known by the text `isoformat()` gives for it (never empty). */
  datatype Stamp = Stamp(iso: string)

  /**
   * `datetime.fromisoformat(v)`: a string that `isIso` (the ISO 8601 grammar
   * of the running Python) accepts is read back; a string it rejects raises
   * ValueError; anything else raises TypeError.
   */
  function FromIso(v: Value, isIso: string -> bool): (r: Result<Stamp>)
    ensures r.Ok? <==> v.StrV? && isIso(v.s)
    ensures r.Ok? ==> r.value.iso == v.s
  {
    if !v.StrV? then Err("TypeError: fromisoformat: argument must be str")
    else if !isIso(v.s) then Err("ValueError: Invalid isoformat string: " + v.s)
    else Ok(Stamp(v.s))
  }

  /** `x.isoformat() if x else None`. */
  function IsoOrNone(s: Option<Stamp>): Value
  {
    match s
    case Some(t) => StrV(t.iso)
    case None => NoneV
  }

  // ---------------------------------------------------------------- Paper

  datatype Paper = Paper(
    title: Value, authors: Value, summary: Value, year: Value, url: Value, citations: Value,
    source: Value, published: Value, explanation: Value,
    aiRelevanceScore: Value, finalRelevanceScore: Value,
    createdAt: Option<Stamp>, updatedAt: Option<Stamp>)

  /** `Paper(title, authors)`: every other field at its default None. */
  function NewPaper(title: Value, authors: Value): Paper
  {
    Paper(title, authors, NoneV, NoneV, NoneV, NoneV, NoneV, NoneV, NoneV, NoneV, NoneV, None, None)
  }

  /** The keys of Paper.to_dict, in its order. */
  const PaperKeyList: seq<string> := ["title", "authors", "abstract", "year", "url", "citations", "source",
    "published", "explanation", "ai_relevance_score", "final_relevance_score", "created_at", "updated_at"]

  /** The values of Paper.to_dict, in the order of PaperKeyList. */
  function PaperValues(p: Paper): (r: seq<Value>)
    ensures |r| == |PaperKeyList|
  {
    [p.title, p.authors, p.summary, p.year, p.url, p.citations, p.source, p.published, p.explanation,
     p.aiRelevanceScore, p.finalRelevanceScore, IsoOrNone(p.createdAt), IsoOrNone(p.updatedAt)]
  }

  /** The dict literal `{keys[0]: vals[0], ...}`: a later entry overrides an earlier one of the same key. */
  function Zipped(keys: seq<string>, vals: seq<Value>): map<string, Value>
    requires |keys| == |vals|
  {
    if keys == [] then map[]
    else Zipped(keys[..|keys| - 1], vals[..|vals| - 1])[keys[|keys| - 1] := vals[|vals| - 1]]
  }

  lemma {:induction false} ZippedKeys(keys: seq<string>, vals: seq<Value>)
    requires |keys| == |vals|
    ensures Zipped(keys, vals).Keys == set k | k in keys
    decreases |keys|
  {
    if keys != [] {
      ZippedKeys(keys[..|keys| - 1], vals[..|vals| - 1]);
      assert keys == keys[..|keys| - 1] + [keys[|keys| - 1]];
    }
  }

  /** A key that does not occur again later maps to its own value. */
  lemma {:induction false} ZippedAt(keys: seq<string>, vals: seq<Value>, i: nat)
    requires |keys| == |vals| && i < |keys|
    requires forall j :: i < j < |keys| ==> keys[j] != keys[i]
    ensures keys[i] in Zipped(keys, vals) && Zipped(keys, vals)[keys[i]] == vals[i]
    decreases |keys|
  {
    if i < |keys| - 1 {
      ZippedAt(keys[..|keys| - 1], vals[..|vals| - 1], i);
    }
  }

  /** Paper.to_dict. */
  function PaperToDict(p: Paper): PaperDict
  {
    Zipped(PaperKeyList, PaperValues(p))
  }

  /** to_dict has exactly the thirteen fields as keys. */
  lemma PaperToDictKeys(p: Paper)
    ensures PaperToDict(p).Keys == set k | k in PaperKeyList
  {
    ZippedKeys(PaperKeyList, PaperValues(p));
  }

  /** The i-th key of to_dict maps to the i-th field's value. */
  lemma PaperToDictAt(p: Paper, i: nat)
    requires i < |PaperKeyList|
    ensures PaperKeyList[i] in PaperToDict(p) && PaperToDict(p)[PaperKeyList[i]] == PaperValues(p)[i]
  {
    ZippedAt(PaperKeyList, PaperValues(p), i);
  }

  /** `fromisoformat(data[key]) if data.get(key) else None`. */
  function StampField(data: PaperDict, key: string, isIso: string -> bool): Result<Option<Stamp>>
  {
    if Truthy(Get(data, key, NoneV)) then
      match FromIso(data[key], isIso)
      case Ok(s) => Ok(Some(s))
      case Err(e) => Err(e)
    else Ok(None)
  }

  /** Paper.from_dict: `title` and `authors` default to '', every other field to None. */
  function PaperFromDict(data: PaperDict, isIso: string -> bool): Result<Paper>
  {
    match StampField(data, "created_at", isIso)
    case Err(e) => Err(e)
    case Ok(created) =>
      match StampField(data, "updated_at", isIso)
      case Err(e) => Err(e)
      case Ok(updated) =>
        Ok(Paper(Get(data, "title", StrV("")), Get(data, "authors", StrV("")), Get(data, "abstract", NoneV),
                 Get(data, "year", NoneV), Get(data, "url", NoneV), Get(data, "citations", NoneV),
                 Get(data, "source", NoneV), Get(data, "published", NoneV), Get(data, "explanation", NoneV),
                 Get(data, "ai_relevance_score", NoneV), Get(data, "final_relevance_score", NoneV),
                 created, updated))
  }

  predicate StampsNonEmpty(p: Paper)
  {
    (p.createdAt.Some? ==> p.createdAt.value.iso != "") && (p.updatedAt.Some? ==> p.updatedAt.value.iso != "")
  }

  /** `fromisoformat` reads back the text of each timestamp p holds, as it does for any `isoformat()` output. */
  predicate StampsReadable(p: Paper, isIso: string -> bool)
  {
    (p.createdAt.Some? ==> isIso(p.createdAt.value.iso)) && (p.updatedAt.Some? ==> isIso(p.updatedAt.value.iso))
  }

  /** Reading to_dict back with from_dict's defaults gives each plain field. */
  lemma PaperToDictGets(p: Paper)
    ensures Get(PaperToDict(p), "title", StrV("")) == p.title
    ensures Get(PaperToDict(p), "authors", StrV("")) == p.authors
    ensures Get(PaperToDict(p), "abstract", NoneV) == p.summary
    ensures Get(PaperToDict(p), "year", NoneV) == p.year
    ensures Get(PaperToDict(p), "url", NoneV) == p.url
    ensures Get(PaperToDict(p), "citations", NoneV) == p.citations
    ensures Get(PaperToDict(p), "source", NoneV) == p.source
    ensures Get(PaperToDict(p), "published", NoneV) == p.published
    ensures Get(PaperToDict(p), "explanation", NoneV) == p.explanation
    ensures Get(PaperToDict(p), "ai_relevance_score", NoneV) == p.aiRelevanceScore
    ensures Get(PaperToDict(p), "final_relevance_score", NoneV) == p.finalRelevanceScore
  {
    PaperToDictAt(p, 0);
    PaperToDictAt(p, 1);
    PaperToDictAt(p, 2);
    PaperToDictAt(p, 3);
    PaperToDictAt(p, 4);
    PaperToDictAt(p, 5);
    PaperToDictAt(p, 6);
    PaperToDictAt(p, 7);
    PaperToDictAt(p, 8);
    PaperToDictAt(p, 9);
    PaperToDictAt(p, 10);
  }

  /** from_dict(to_dict(p)) reproduces every field of p. */
  lemma PaperRoundTrip(p: Paper, isIso: string -> bool)
    requires StampsNonEmpty(p) && StampsReadable(p, isIso)
    ensures PaperFromDict(PaperToDict(p), isIso) == Ok(p)
  {
    PaperToDictGets(p);
    var d := PaperToDict(p);
    assert StampField(d, "created_at", isIso) == Ok(p.createdAt) by { PaperToDictAt(p, 11); }
    assert StampField(d, "updated_at", isIso) == Ok(p.updatedAt) by { PaperToDictAt(p, 12); }
  }

  /** `data.get(key)` is falsy, or it is text that `fromisoformat` reads. */
  predicate StampReadable(data: PaperDict, key: string, isIso: string -> bool)
  {
    !Truthy(Get(data, key, NoneV)) || (data[key].StrV? && isIso(data[key].s))
  }

  /**
   * from_dict succeeds exactly when both timestamps are absent, falsy or
   * readable; a creation time that is text `fromisoformat` rejects raises
   * ValueError naming that text.
   */
  lemma PaperFromDictFails(data: PaperDict, isIso: string -> bool)
    ensures PaperFromDict(data, isIso).Ok? <==>
            StampReadable(data, "created_at", isIso) && StampReadable(data, "updated_at", isIso)
    ensures "created_at" in data && data["created_at"].StrV? && data["created_at"].s != [] && !isIso(data["created_at"].s) ==>
            PaperFromDict(data, isIso) == Err("ValueError: Invalid isoformat string: " + data["created_at"].s)
  {
  }

  /** from_dict of a dict without any of the keys: empty title and authors, everything else None. */
  lemma PaperFromEmptyDict(isIso: string -> bool)
    ensures PaperFromDict(map[], isIso) == Ok(NewPaper(StrV(""), StrV("")))
  {
  }

  /** `x and len(x.strip()) > n` as an element of the `all([...])` list; `.strip()` on a truthy non-string raises. */
  function StrippedLongerThan(x: Value, n: nat): Result<bool>
  {
    if !Truthy(x) then Ok(false)
    else if x.StrV? then Ok(|Strip(x.s)| > n)
    else Err("AttributeError: strip")
  }

  /** `year and year > 1900`: a truthy non-number raises on the comparison. */
  function YearAfter1900(y: Value): Result<bool>
  {
    if !Truthy(y) then Ok(false)
    else
      match NumOf(y)
      case Some(x) => Ok(x > 1900.0)
      case None => Err("TypeError: '>' not supported")
  }

  /**
   * Paper.has_complete_metadata: `all([...])` over a list literal, so all
   * four checks are evaluated first and the first that raises raises.
   */
  function HasCompleteMetadata(p: Paper): Result<bool>
  {
    var title := StrippedLongerThan(p.title, 0);
    var authors := StrippedLongerThan(p.authors, 0);
    var summary := StrippedLongerThan(p.summary, 10);
    var year := YearAfter1900(p.year);
    if title.Err? then Err(title.error)
    else if authors.Err? then Err(authors.error)
    else if summary.Err? then Err(summary.error)
    else if year.Err? then Err(year.error)
    else Ok(title.value && authors.value && summary.value && year.value)
  }

  lemma StrippedLongerThanStr(x: Value, n: nat)
    requires x.StrV?
    ensures StrippedLongerThan(x, n) == Ok(|Strip(x.s)| > n)
  {
  }

  /**
   * For string title, authors and abstract and an int year, metadata is
   * complete iff title and authors are not blank, the stripped abstract is
   * over ten characters and the year is after 1900.
   */
  lemma CompleteMetadataIff(p: Paper)
    requires p.title.StrV? && p.authors.StrV? && p.summary.StrV? && p.year.IntV?
    ensures HasCompleteMetadata(p) == Ok(|Strip(p.title.s)| > 0 && |Strip(p.authors.s)| > 0 &&
                                         |Strip(p.summary.s)| > 10 && p.year.i > 1900)
  {
    StrippedLongerThanStr(p.title, 0);
    StrippedLongerThanStr(p.authors, 0);
    StrippedLongerThanStr(p.summary, 10);
    YearAfter1900Int(p.year);
  }

  lemma YearAfter1900Int(y: Value)
    requires y.IntV?
    ensures YearAfter1900(y) == Ok(y.i > 1900)
  {
    assert (y.i as real > 1900.0) == (y.i > 1900);
  }

  // ---------------------------------------------------------------- SearchResult

  /** The per-provider counts of the aggregation statistics. */
  datatype ProviderCounts = ProviderCounts(rawCount: nat, afterFilter: nat)

  /** The `aggregation_stats` dict aggregate_and_rank_papers fills in. */
  datatype Stats = Stats(
    totalCollected: nat, afterPreFilter: nat, afterDedup: nat, sentToAi: nat,
    providersUsed: map<string, ProviderCounts>, preRankingApplied: bool)

  datatype SearchResult = SearchResult(
    papers: seq<Paper>, query: Value, totalFound: Value, processingTime: Value, rankingMode: Value,
    backendsUsed: Value, aiProviderUsed: Value, cacheHit: Value, createdAt: Option<Stamp>,
    aggregationStats: Option<Stats>)

  /** The constructor with `__post_init__`: a missing `created_at` becomes `now`. */
  function NewSearchResult(papers: seq<Paper>, query: Value, totalFound: Value, processingTime: Value,
                           rankingMode: Value, backendsUsed: Value, aiProviderUsed: Value, cacheHit: Value,
                           createdAt: Option<Stamp>, aggregationStats: Option<Stats>, now: Stamp): (r: SearchResult)
    ensures r.createdAt.Some?
    ensures createdAt.Some? ==> r.createdAt == createdAt
  {
    SearchResult(papers, query, totalFound, processingTime, rankingMode, backendsUsed, aiProviderUsed, cacheHit,
                 if createdAt.Some? then createdAt else Some(now), aggregationStats)
  }

  function PapersToDicts(ps: seq<Paper>): (r: seq<Value>)
    ensures |r| == |ps| && forall i :: 0 <= i < |ps| ==> r[i] == DictV(PaperToDict(ps[i]))
  {
    if ps == [] then [] else PapersToDicts(ps[..|ps| - 1]) + [DictV(PaperToDict(ps[|ps| - 1]))]
  }

  /** The keys of SearchResult.to_dict, in its order; `aggregation_stats` is not among them. */
  const ResultKeyList: seq<string> := ["papers", "query", "total_found", "processing_time", "ranking_mode",
    "backends_used", "ai_provider_used", "cache_hit", "created_at"]

  function ResultValues(r: SearchResult): (v: seq<Value>)
    ensures |v| == |ResultKeyList|
  {
    [ListV(PapersToDicts(r.papers)), r.query, r.totalFound, r.processingTime, r.rankingMode,
     r.backendsUsed, r.aiProviderUsed, r.cacheHit, IsoOrNone(r.createdAt)]
  }

  /** SearchResult.to_dict. */
  function SearchResultToDict(r: SearchResult): map<string, Value>
  {
    Zipped(ResultKeyList, ResultValues(r))
  }

  /** to_dict has exactly the nine keys. */
  lemma SearchResultToDictKeys(r: SearchResult)
    ensures SearchResultToDict(r).Keys == set k | k in ResultKeyList
  {
    ZippedKeys(ResultKeyList, ResultValues(r));
  }

  /** Reading to_dict back with from_dict's defaults gives each field. */
  lemma SearchResultToDictGets(r: SearchResult)
    ensures Get(SearchResultToDict(r), "papers", ListV([])) == ListV(PapersToDicts(r.papers))
    ensures Get(SearchResultToDict(r), "query", StrV("")) == r.query
    ensures Get(SearchResultToDict(r), "total_found", IntV(0)) == r.totalFound
    ensures Get(SearchResultToDict(r), "processing_time", RealV(0.0)) == r.processingTime
    ensures Get(SearchResultToDict(r), "ranking_mode", StrV("ai_ranking")) == r.rankingMode
    ensures Get(SearchResultToDict(r), "backends_used", ListV([])) == r.backendsUsed
    ensures Get(SearchResultToDict(r), "ai_provider_used", NoneV) == r.aiProviderUsed
    ensures Get(SearchResultToDict(r), "cache_hit", BoolV(false)) == r.cacheHit
    ensures Get(SearchResultToDict(r), "created_at", NoneV) == IsoOrNone(r.createdAt)
  {
    ZippedAt(ResultKeyList, ResultValues(r), 0);
    ZippedAt(ResultKeyList, ResultValues(r), 1);
    ZippedAt(ResultKeyList, ResultValues(r), 2);
    ZippedAt(ResultKeyList, ResultValues(r), 3);
    ZippedAt(ResultKeyList, ResultValues(r), 4);
    ZippedAt(ResultKeyList, ResultValues(r), 5);
    ZippedAt(ResultKeyList, ResultValues(r), 6);
    ZippedAt(ResultKeyList, ResultValues(r), 7);
    ZippedAt(ResultKeyList, ResultValues(r), 8);
  }

  /** `[Paper.from_dict(d) for d in items]`: an item that is not a dict raises on `.get`. */
  function PapersFromItems(items: seq<Value>, isIso: string -> bool): Result<seq<Paper>>
  {
    MapResult(items, v => PaperOfItem(v, isIso))
  }

  /** `Paper.from_dict(d)` for one item of the list. */
  function PaperOfItem(v: Value, isIso: string -> bool): Result<Paper>
  {
    if !v.DictV? then Err("AttributeError: get") else PaperFromDict(v.fields, isIso)
  }

  /** Iterating `data.get('papers', [])`: a list gives its items; an empty str or dict gives nothing; a non-empty one gives strings, on which `.get` raises; anything else is not iterable. */
  function PapersFromValue(v: Value, isIso: string -> bool): Result<seq<Paper>>
  {
    match v
    case ListV(items) => PapersFromItems(items, isIso)
    case StrV(s) => if s == [] then Ok([]) else Err("AttributeError: get")
    case DictV(m) => if m == map[] then Ok([]) else Err("AttributeError: get")
    case _ => Err("TypeError: not iterable")
  }

  /** SearchResult.from_dict, with `now` for the `__post_init__` of a result without `created_at`. */
  function SearchResultFromDict(data: map<string, Value>, now: Stamp, isIso: string -> bool): Result<SearchResult>
  {
    match PapersFromValue(Get(data, "papers", ListV([])), isIso)
    case Err(e) => Err(e)
    case Ok(papers) =>
      match StampField(data, "created_at", isIso)
      case Err(e) => Err(e)
      case Ok(created) =>
        Ok(NewSearchResult(papers, Get(data, "query", StrV("")), Get(data, "total_found", IntV(0)),
                           Get(data, "processing_time", RealV(0.0)), Get(data, "ranking_mode", StrV("ai_ranking")),
                           Get(data, "backends_used", ListV([])), Get(data, "ai_provider_used", NoneV),
                           Get(data, "cache_hit", BoolV(false)), created, None, now))
  }

  lemma PapersRoundTrip(ps: seq<Paper>, isIso: string -> bool)
    requires forall i :: 0 <= i < |ps| ==> StampsNonEmpty(ps[i]) && StampsReadable(ps[i], isIso)
    ensures PapersFromItems(PapersToDicts(ps), isIso) == Ok(ps)
  {
    var items := PapersToDicts(ps);
    var f := v => PaperOfItem(v, isIso);
    forall i | 0 <= i < |ps|
      ensures f(items[i]) == Ok(ps[i])
    {
      PaperRoundTrip(ps[i], isIso);
    }
    MapResultAllOk(items, f, ps);
  }

  /**
   * from_dict(to_dict(r)) gives back every field of a constructed result
   * except the aggregation statistics, which come back as None.
   */
  lemma SearchResultRoundTrip(r: SearchResult, now: Stamp, isIso: string -> bool)
    requires r.createdAt.Some? && r.createdAt.value.iso != "" && isIso(r.createdAt.value.iso)
    requires forall i :: 0 <= i < |r.papers| ==> StampsNonEmpty(r.papers[i]) && StampsReadable(r.papers[i], isIso)
    ensures SearchResultFromDict(SearchResultToDict(r), now, isIso) == Ok(r.(aggregationStats := None))
  {
    var d := SearchResultToDict(r);
    SearchResultToDictGets(r);
    PapersRoundTrip(r.papers, isIso);
    assert PapersFromValue(Get(d, "papers", ListV([])), isIso) == Ok(r.papers);
    assert StampField(d, "created_at", isIso) == Ok(r.createdAt);
  }

  /** SearchResult.get_top_papers: `papers[:count]`, where a negative count drops that many from the end. */
  function TopPapers(r: SearchResult, count: int): (top: seq<Paper>)
    ensures |top| <= |r.papers| && top == r.papers[..|top|]
    ensures 0 <= count ==> |top| == (if count < |r.papers| then count else |r.papers|)
    ensures count < 0 ==> |top| == (if |r.papers| + count >= 0 then |r.papers| + count else 0)
  {
    Slice(r.papers, count)
  }

  /** `paper.explanation and paper.explanation.strip()`: `.strip()` on a truthy non-string raises. */
  function Explained(p: Paper): Result<bool>
  {
    if !Truthy(p.explanation) then Ok(false)
    else if p.explanation.StrV? then Ok(Strip(p.explanation.s) != [])
    else Err("AttributeError: strip")
  }

  /** SearchResult.get_papers_with_explanations. */
  function PapersWithExplanations(ps: seq<Paper>): Result<seq<Paper>>
  {
    if ps == [] then Ok([])
    else
      match PapersWithExplanations(ps[..|ps| - 1])
      case Err(e) => Err(e)
      case Ok(kept) =>
        match Explained(ps[|ps| - 1])
        case Err(e) => Err(e)
        case Ok(b) => Ok(if b then kept + [ps[|ps| - 1]] else kept)
  }

  /** SearchResult.get_success_rate. */
  function SuccessRate(r: SearchResult): Result<real>
  {
    if r.papers == [] then Ok(0.0)
    else
      match PapersWithExplanations(r.papers)
      case Err(e) => Err(e)
      case Ok(kept) => Ok(|kept| as real / |r.papers| as real)
  }

  predicate IsExplained(p: Paper)
  {
    Explained(p) == Ok(true)
  }

  /**
   * get_papers_with_explanations raises exactly when some paper has a truthy
   * explanation that is not a string; otherwise it keeps, in order, the
   * papers whose explanation is a string that is not blank.
   */
  lemma {:induction false} PapersWithExplanationsSpec(ps: seq<Paper>)
    ensures PapersWithExplanations(ps).Ok? <==> forall i :: 0 <= i < |ps| ==> Explained(ps[i]).Ok?
    ensures PapersWithExplanations(ps).Ok? ==> PapersWithExplanations(ps).value == Filter(ps, IsExplained)
    decreases |ps|
  {
    if ps != [] {
      var init := ps[..|ps| - 1];
      PapersWithExplanationsSpec(init);
      assert forall i :: 0 <= i < |init| ==> init[i] == ps[i];
      FilterSnoc(init, ps[|ps| - 1], IsExplained);
      assert init + [ps[|ps| - 1]] == ps;
    }
  }

  /** An explained paper's explanation is a string with a non-space character. */
  lemma IsExplainedMeans(p: Paper)
    ensures IsExplained(p) <==> p.explanation.StrV? && Strip(p.explanation.s) != []
  {
    var e := p.explanation;
    if e.StrV? {
      if e.s == [] {
        StripOfNonSpaceEnds(e.s);
      } else {
        assert Truthy(e);
      }
    }
  }

  /** A share `k / n` of a non-empty whole lies in [0, 1] and is 1 only for the whole. */
  lemma ShareBounds(k: nat, n: nat)
    requires 0 < n && k <= n
    ensures 0.0 <= k as real / n as real <= 1.0
    ensures k as real / n as real == 1.0 <==> k == n
  {
    var q := k as real / n as real;
    assert q * n as real == k as real;
  }

  /**
   * get_success_rate: 0.0 for no papers; otherwise the share of explained
   * papers, which lies in [0, 1] and is 1 exactly when every paper is explained.
   */
  lemma SuccessRateBounds(r: SearchResult)
    ensures r.papers == [] ==> SuccessRate(r) == Ok(0.0)
    ensures SuccessRate(r).Ok? <==> forall i :: 0 <= i < |r.papers| ==> Explained(r.papers[i]).Ok?
    ensures SuccessRate(r).Ok? ==> 0.0 <= SuccessRate(r).value <= 1.0
    ensures SuccessRate(r).Ok? && r.papers != [] ==>
      (SuccessRate(r).value == 1.0 <==> forall i :: 0 <= i < |r.papers| ==> IsExplained(r.papers[i]))
  {
    PapersWithExplanationsSpec(r.papers);
    if r.papers != [] && SuccessRate(r).Ok? {
      FilterKeepsAll(r.papers, IsExplained);
      ShareBounds(|Filter(r.papers, IsExplained)|, |r.papers|);
    }
  }
}
