// ai_scholar/services/search_service.py: SearchService.search_papers, the
// single-backend search behind the TTL cache, with the availability guard
// of _search_with_retry and validate_search_request.
//
// A provider is known by whether it is available and by its own
// validate_query. What its `search` returns (or raises) is the parameter
// `fetch`; the time the call took is `elapsed`, the clock is `now` and the
// datetime the result is stamped with is `stamp`.

module SearchServices {
  import opened Base
  import opened Text
  import opened Values
  import opened Lists
  import opened Models
  import opened Cache
  import SearchRequests

  /** The parts of a registered search provider the service consults. */
  datatype Provider = Provider(available: bool, validateQuery: string -> bool)

  /** `(search_request.backends or [self.default_backend])[0]`. */
  function ChosenBackend(backends: Option<seq<string>>, default: string): string
  {
    if backends.None? || backends.value == [] then default else backends.value[0]
  }

  /** The Paper built from one result dict. */
  function ToPaper(d: PaperDict): Paper
  {
    Paper(Get(d, "title", StrV("")), Get(d, "authors", StrV("")), Get(d, "abstract", StrV("")),
          Get(d, "year", NoneV), Get(d, "url", StrV("")), Get(d, "citations", NoneV),
          Get(d, "source", StrV("")), Get(d, "published", StrV("")),
          NoneV, NoneV, NoneV, None, None)
  }

  /** The Paper for an item that is a dict; other items are skipped. */
  function PaperOf(v: Value): Option<Paper>
  {
    if v.DictV? then Some(ToPaper(v.fields)) else None
  }

  /**
   * `for paper_dict in v`: a list yields its items; a str yields one-character
   * strings and a dict its keys, none of which is a dict, so they yield no
   * paper; any other value is not iterable.
   */
  function ItemsOf(v: Value): Result<seq<Value>>
  {
    match v
    case ListV(items) => Ok(items)
    case StrV(_) => Ok([])
    case DictV(_) => Ok([])
    case _ => Err("TypeError: object is not iterable")
  }

  /** The SearchResult returned for `items`. */
  function ResultOf(items: seq<Value>, query: string, rankingMode: string, backend: string,
                    time: real, hit: bool, stamp: Stamp): SearchResult
  {
    var papers := FilterMap(items, PaperOf);
    NewSearchResult(papers, StrV(query), IntV(|papers|), RealV(time), StrV(rankingMode),
                    ListV([StrV(backend)]), NoneV, BoolV(hit), None, None, stamp)
  }

  /** What search_papers returns, and the cache after it. */
  datatype Searched = Searched(result: Result<SearchResult>, cache: map<string, CacheEntry>)

  /** A value get_cached_result returns that counts as a hit (`is not None`). */
  predicate IsHit(c: Option<Value>)
  {
    c.Some? && !c.value.NoneV?
  }

  /** Fresh results are cached only when truthy and not a string. */
  predicate Cacheable(papers: Value)
  {
    Truthy(papers) && !papers.StrV?
  }

  /** search_papers, from the cache before the call. */
  function Search(entries: map<string, CacheEntry>, providers: map<string, Provider>, default: string,
                  query: string, limit: int, rankingMode: string, minYear: Option<int>, maxYear: Option<int>,
                  backends: Option<seq<string>>, md5: string -> string, now: real, stamp: Stamp,
                  fetch: Result<Value>, elapsed: real): Searched
  {
    var pruned := Pruned(entries, now);
    var backend := ChosenBackend(backends, default);
    if backend !in providers then Searched(Err("ValueError: Unknown backend '" + backend + "' specified"), pruned)
    else
      var key := GetCacheKey(md5, query, limit, backend, minYear, maxYear);
      var cached := Lookup(pruned, key, now);
      if IsHit(cached) then
        match ItemsOf(cached.value)
        case Err(e) => Searched(Err(e), pruned)
        case Ok(items) => Searched(Ok(ResultOf(items, query, rankingMode, backend, 0.0, true, stamp)), pruned)
      else if !providers[backend].available then
        Searched(Err("RuntimeError: Provider " + backend + " is not available"), pruned)
      else match fetch
        case Err(e) => Searched(Err(e), pruned)
        case Ok(papers) =>
          var after := if Cacheable(papers) then pruned[key := CacheEntry(papers, now)] else pruned;
          if papers.StrV? && StartsWith(papers.s, "Error:") then Searched(Err("RuntimeError: " + papers.s), after)
          else match ItemsOf(if Truthy(papers) then papers else ListV([]))
            case Err(e) => Searched(Err(e), after)
            case Ok(items) => Searched(Ok(ResultOf(items, query, rankingMode, backend, elapsed, false, stamp)), after)
  }

  class SearchService {
    const providers: map<string, Provider>
    const defaultBackend: string
    const cache: SearchCache

    /** `__init__`, over the shared module-level cache. */
    constructor (providers: map<string, Provider>, defaultBackend: string, cache: SearchCache)
      ensures this.providers == providers && this.defaultBackend == defaultBackend && this.cache == cache
    {
      this.providers := providers;
      this.defaultBackend := defaultBackend;
      this.cache := cache;
    }

    /** The Paper objects for the dict items, built one by one. */
    static method ConvertPapers(items: seq<Value>) returns (papers: seq<Paper>)
      ensures papers == FilterMap(items, PaperOf)
    {
      papers := [];
      for i := 0 to |items|
        invariant papers == FilterMap(items[..i], PaperOf)
      {
        FilterMapStep(items, i, PaperOf);
        var item := items[i];
        if item.DictV? {
          papers := papers + [ToPaper(item.fields)];
        }
      }
      assert items[..|items|] == items;
    }

    /** search_papers. */
    method SearchPapers(req: SearchRequests.SearchRequest, md5: string -> string, now: real, stamp: Stamp,
                        fetch: Result<Value>, elapsed: real) returns (r: Result<SearchResult>)
      modifies cache
      ensures Searched(r, cache.entries) ==
        Search(old(cache.entries), providers, defaultBackend, req.query, req.limit, req.rankingMode,
               req.minYear, req.maxYear, req.backends, md5, now, stamp, fetch, elapsed)
    {
      ghost var before := cache.entries;
      cache.CleanupExpired(now);
      var backend := ChosenBackend(req.backends, defaultBackend);
      if backend !in providers {
        return Err("ValueError: Unknown backend '" + backend + "' specified");
      }
      var key := GetCacheKey(md5, req.query, req.limit, backend, req.minYear, req.maxYear);
      var cached := cache.GetCachedResult(key, now);
      if IsHit(cached) {
        var items := ItemsOf(cached.value);
        if items.Err? {
          return Err(items.error);
        }
        var objs := ConvertPapers(items.value);
        return Ok(NewSearchResult(objs, StrV(req.query), IntV(|objs|), RealV(0.0), StrV(req.rankingMode),
                                  ListV([StrV(backend)]), NoneV, BoolV(true), None, None, stamp));
      }
      // _search_with_retry
      if !providers[backend].available {
        return Err("RuntimeError: Provider " + backend + " is not available");
      }
      if fetch.Err? {
        return Err(fetch.error);
      }
      var papers := fetch.value;
      if Cacheable(papers) {
        cache.CacheResult(key, papers, now);
      }
      if papers.StrV? && StartsWith(papers.s, "Error:") {
        return Err("RuntimeError: " + papers.s);
      }
      if !Truthy(papers) {
        papers := ListV([]);
      }
      var items := ItemsOf(papers);
      if items.Err? {
        return Err(items.error);
      }
      var objs := ConvertPapers(items.value);
      r := Ok(NewSearchResult(objs, StrV(req.query), IntV(|objs|), RealV(elapsed), StrV(req.rankingMode),
                              ListV([StrV(backend)]), NoneV, BoolV(false), None, None, stamp));
    }
  }

  // ---------------------------------------------------------------- what a search does

  /**
   * Only the first listed backend is used, or the default when none is
   * listed; an unknown one raises ValueError, having only pruned the cache.
   */
  lemma SearchUnknownBackend(entries: map<string, CacheEntry>, providers: map<string, Provider>, default: string,
                             query: string, limit: int, rankingMode: string, minYear: Option<int>, maxYear: Option<int>,
                             backends: Option<seq<string>>, md5: string -> string, now: real, stamp: Stamp,
                             fetch: Result<Value>, elapsed: real)
    requires (if backends.Some? && backends.value != [] then backends.value[0] else default) !in providers
    ensures var s := Search(entries, providers, default, query, limit, rankingMode, minYear, maxYear, backends,
                            md5, now, stamp, fetch, elapsed);
      s.result.Err? && s.cache == Pruned(entries, now)
  {
  }

  /**
   * A fresh cache entry answers the search: the result is marked as a cache
   * hit with processing time 0.0, lists the dict items of the stored value
   * as papers, and depends neither on the provider's availability nor on
   * what its search would return.
   */
  lemma SearchCacheHit(entries: map<string, CacheEntry>, providers: map<string, Provider>, default: string,
                       query: string, limit: int, rankingMode: string, minYear: Option<int>, maxYear: Option<int>,
                       backends: Option<seq<string>>, md5: string -> string, now: real, stamp: Stamp,
                       fetch: Result<Value>, elapsed: real, other: Result<Value>, elapsed2: real, items: seq<Value>)
    requires ChosenBackend(backends, default) in providers
    requires IsHit(Cache.Lookup(entries, GetCacheKey(md5, query, limit, ChosenBackend(backends, default), minYear, maxYear), now))
    requires ItemsOf(Cache.Lookup(entries, GetCacheKey(md5, query, limit, ChosenBackend(backends, default), minYear, maxYear), now).value) == Ok(items)
    ensures var s := Search(entries, providers, default, query, limit, rankingMode, minYear, maxYear, backends,
                            md5, now, stamp, fetch, elapsed);
      var p := providers[ChosenBackend(backends, default)];
      s.result.Ok? && s.result.value.cacheHit == BoolV(true) && s.result.value.processingTime == RealV(0.0) &&
      s.result.value.papers == FilterMap(items, PaperOf) &&
      s.cache == Pruned(entries, now) &&
      s == Search(entries, providers[ChosenBackend(backends, default) := Provider(!p.available, p.validateQuery)],
                  default, query, limit, rankingMode, minYear, maxYear, backends, md5, now, stamp, other, elapsed2)
  {
    PrunedSpec(entries, now);
  }

  /**
   * On a miss with the provider available and a returned value, the value
   * is cached exactly when it is truthy and not a string; a string starting
   * with "Error:" raises RuntimeError; otherwise the result is not a cache
   * hit and lists the dict items it holds.
   */
  lemma SearchMiss(entries: map<string, CacheEntry>, providers: map<string, Provider>, default: string,
                   query: string, limit: int, rankingMode: string, minYear: Option<int>, maxYear: Option<int>,
                   backends: Option<seq<string>>, md5: string -> string, now: real, stamp: Stamp,
                   papers: Value, elapsed: real)
    requires ChosenBackend(backends, default) in providers && providers[ChosenBackend(backends, default)].available
    requires !IsHit(Cache.Lookup(entries, GetCacheKey(md5, query, limit, ChosenBackend(backends, default), minYear, maxYear), now))
    ensures var key := GetCacheKey(md5, query, limit, ChosenBackend(backends, default), minYear, maxYear);
      var s := Search(entries, providers, default, query, limit, rankingMode, minYear, maxYear, backends,
                      md5, now, stamp, Ok(papers), elapsed);
      (s.cache == if Cacheable(papers) then Pruned(entries, now)[key := CacheEntry(papers, now)] else Pruned(entries, now)) &&
      (papers.StrV? && StartsWith(papers.s, "Error:") ==> s.result.Err?) &&
      (papers.ListV? ==> (s.result.Ok? && s.result.value.cacheHit == BoolV(false) &&
                          s.result.value.papers == FilterMap(papers.items, PaperOf) &&
                          s.result.value.processingTime == RealV(elapsed))) &&
      (!Truthy(papers) ==> s.result.Ok? && s.result.value.papers == [])
  {
    PrunedSpec(entries, now);
  }

  /** An unavailable provider raises RuntimeError on a miss, without touching the cache beyond pruning. */
  lemma SearchUnavailable(entries: map<string, CacheEntry>, providers: map<string, Provider>, default: string,
                          query: string, limit: int, rankingMode: string, minYear: Option<int>, maxYear: Option<int>,
                          backends: Option<seq<string>>, md5: string -> string, now: real, stamp: Stamp,
                          fetch: Result<Value>, elapsed: real)
    requires ChosenBackend(backends, default) in providers && !providers[ChosenBackend(backends, default)].available
    requires !IsHit(Cache.Lookup(entries, GetCacheKey(md5, query, limit, ChosenBackend(backends, default), minYear, maxYear), now))
    ensures var s := Search(entries, providers, default, query, limit, rankingMode, minYear, maxYear, backends,
                            md5, now, stamp, fetch, elapsed);
      s.result.Err? && s.cache == Pruned(entries, now)
  {
    PrunedSpec(entries, now);
  }

  /** Every result lists only papers built from dict items, and `total_found` counts them. */
  lemma SearchTotalFound(entries: map<string, CacheEntry>, providers: map<string, Provider>, default: string,
                         query: string, limit: int, rankingMode: string, minYear: Option<int>, maxYear: Option<int>,
                         backends: Option<seq<string>>, md5: string -> string, now: real, stamp: Stamp,
                         fetch: Result<Value>, elapsed: real)
    ensures var s := Search(entries, providers, default, query, limit, rankingMode, minYear, maxYear, backends,
                            md5, now, stamp, fetch, elapsed);
      s.result.Ok? ==> (s.result.value.totalFound == IntV(|s.result.value.papers|) &&
                        s.result.value.backendsUsed == ListV([StrV(ChosenBackend(backends, default))]) &&
                        s.result.value.query == StrV(query) && s.result.value.createdAt == Some(stamp))
  {
  }

  /**
   * A search that fetched a non-empty list, repeated with the same request
   * less than an hour later, is answered from the cache with the same papers.
   */
  lemma SearchTwice(entries: map<string, CacheEntry>, providers: map<string, Provider>, default: string,
                    query: string, limit: int, rankingMode: string, minYear: Option<int>, maxYear: Option<int>,
                    backends: Option<seq<string>>, md5: string -> string, now: real, stamp: Stamp,
                    items: seq<Value>, elapsed: real, later: real, stamp2: Stamp, fetch2: Result<Value>, elapsed2: real)
    requires items != [] && now <= later < now + CacheDuration
    requires var s := Search(entries, providers, default, query, limit, rankingMode, minYear, maxYear, backends,
                             md5, now, stamp, Ok(ListV(items)), elapsed);
      s.result.Ok? && !s.result.value.cacheHit.b
    ensures var s := Search(entries, providers, default, query, limit, rankingMode, minYear, maxYear, backends,
                            md5, now, stamp, Ok(ListV(items)), elapsed);
      var t := Search(s.cache, providers, default, query, limit, rankingMode, minYear, maxYear, backends,
                      md5, later, stamp2, fetch2, elapsed2);
      t.result.Ok? && t.result.value.cacheHit == BoolV(true) && t.result.value.papers == s.result.value.papers
  {
    var backend := ChosenBackend(backends, default);
    var key := GetCacheKey(md5, query, limit, backend, minYear, maxYear);
    var s := Search(entries, providers, default, query, limit, rankingMode, minYear, maxYear, backends,
                    md5, now, stamp, Ok(ListV(items)), elapsed);
    assert s.cache == Pruned(entries, now)[key := CacheEntry(ListV(items), now)];
    assert Cache.Lookup(Pruned(s.cache, later), key, later) == Some(ListV(items));
  }

  // ---------------------------------------------------------------- validate_search_request

  /** validate_search_request; Err is the KeyError of an empty backend name when the default is not registered. */
  function ValidateSearchRequest(providers: map<string, Provider>, default: string, query: string,
                                 backends: Option<seq<string>>): Result<bool>
  {
    if query == [] || Strip(query) == [] then Ok(false)
    else
      var backend := ChosenBackend(backends, default);
      if backend !in providers then Ok(false)
      else
        var name := if backend == [] then default else backend;
        if name !in providers then Err("KeyError: " + name)
        else Ok(providers[name].validateQuery(query))
  }

  /**
   * A request is valid exactly when its query is not blank, its first
   * backend (or the default) is registered, and that provider accepts the
   * query.
   */
  lemma ValidateSearchRequestIff(providers: map<string, Provider>, default: string, query: string,
                                 backends: Option<seq<string>>)
    requires ChosenBackend(backends, default) != []
    ensures ValidateSearchRequest(providers, default, query, backends) ==
      Ok(Strip(query) != [] && ChosenBackend(backends, default) in providers &&
         providers[ChosenBackend(backends, default)].validateQuery(query))
  {
    if query == [] {
      assert Strip(query) == [];
    }
  }
}
