// ai_scholar/models/search_request.py: the SearchRequest dataclass. Its
// __post_init__ strips the query in place and then raises ValueError on a
// bad field; to_cache_key renders the request as a colon-separated key.
// Python's salted hash() of the query is a parameter.

module SearchRequests {
  import opened Base
  import opened Text
  import opened Sorting

  const MinYearFloor := 1900
  const MaxYearCeiling := 2030
  const DefaultRankingMode := "ai_ranking"
  const ValidModes: seq<string> := ["ai_ranking", "citation_ranking"]

  /** `if x` on an Optional[int]: None and 0 are false. */
  predicate Given(y: Option<int>)
  {
    y.Some? && y.value != 0
  }

  /** The checks of __post_init__, in order, on the already stripped query. */
  function PostInitCheck(query: string, limit: int, aiResultLimit: int, rankingMode: string,
                         minYear: Option<int>, maxYear: Option<int>): Result<()>
  {
    if |query| == 0 then Err("Query cannot be empty")
    else if limit <= 0 then Err("Limit must be positive")
    else if aiResultLimit <= 0 then Err("AI result limit must be positive")
    else if rankingMode !in ValidModes then Err("Ranking mode must be one of: ['ai_ranking', 'citation_ranking']")
    else if Given(minYear) && minYear.value < MinYearFloor then Err("Minimum year must be >= 1900")
    else if Given(maxYear) && maxYear.value > MaxYearCeiling then Err("Maximum year must be <= 2030")
    else if Given(minYear) && Given(maxYear) && minYear.value > maxYear.value then
      Err("Minimum year cannot be greater than maximum year")
    else Ok(())
  }

  /**
   * A request is accepted exactly when its stripped query is non-empty,
   * both limits are positive, the mode is one of the two names, and each
   * non-zero year is on its side of [1900, 2030] with a non-zero minimum
   * not above a non-zero maximum; a year of 0 is never checked.
   */
  lemma PostInitIff(query: string, limit: int, aiResultLimit: int, rankingMode: string,
                    minYear: Option<int>, maxYear: Option<int>)
    ensures PostInitCheck(query, limit, aiResultLimit, rankingMode, minYear, maxYear).Ok? <==>
      |query| > 0 && limit > 0 && aiResultLimit > 0 &&
      (rankingMode == "ai_ranking" || rankingMode == "citation_ranking") &&
      (Given(minYear) ==> minYear.value >= MinYearFloor) &&
      (Given(maxYear) ==> maxYear.value <= MaxYearCeiling) &&
      (Given(minYear) && Given(maxYear) ==> minYear.value <= maxYear.value)
    ensures PostInitCheck(query, limit, aiResultLimit, rankingMode, Some(0), Some(0)).Ok? <==>
      PostInitCheck(query, limit, aiResultLimit, rankingMode, None, None).Ok?
  {
  }

  // ---------------------------------------------------------------- the cache key

  function StrKey(s: string): Key
  {
    Key(0.0, 0, s)
  }

  function Reverse<T>(s: seq<T>): (r: seq<T>)
    ensures |r| == |s| && forall i :: 0 <= i < |s| ==> r[i] == s[|s| - 1 - i]
  {
    if s == [] then [] else Reverse(s[1..]) + [s[0]]
  }

  /** Python's `sorted(names)`: ascending code-point order. */
  function SortedNames(names: seq<string>): seq<string>
  {
    Reverse(SortDesc(names, StrKey))
  }

  /** Two descending string orders of one multiset start with the same string. */
  lemma SortedDescSameHead(a: seq<string>, b: seq<string>)
    requires a != [] && SortedDesc(a, StrKey) && SortedDesc(b, StrKey) && multiset(a) == multiset(b)
    ensures b != [] && a[0] == b[0]
  {
    assert a[0] in multiset(b);
    var k :| 0 <= k < |b| && b[k] == a[0];
    assert b[0] in multiset(a);
    var j :| 0 <= j < |a| && a[j] == b[0];
    KeyGeRefl(StrKey(a[0]));
    KeyGeRefl(StrKey(b[0]));
    assert KeyGe(StrKey(a[0]), StrKey(a[j]));
    assert KeyGe(StrKey(b[0]), StrKey(b[k]));
    StrGeAntisym(a[0], b[0]);
  }

  lemma SortedTail(a: seq<string>)
    requires a != [] && SortedDesc(a, StrKey)
    ensures SortedDesc(a[1..], StrKey)
  {
    forall i, j | 0 <= i < j < |a[1..]|
      ensures KeyGe(StrKey(a[1..][i]), StrKey(a[1..][j]))
    {
      assert a[1..][i] == a[i + 1] && a[1..][j] == a[j + 1];
    }
  }

  /** A descending string order is fixed by its multiset. */
  lemma {:induction false} SortedDescUnique(a: seq<string>, b: seq<string>)
    requires SortedDesc(a, StrKey) && SortedDesc(b, StrKey) && multiset(a) == multiset(b)
    ensures a == b
    decreases |a|
  {
    if a == [] {
      assert |multiset(b)| == 0;
    } else {
      SortedDescSameHead(a, b);
      assert a == [a[0]] + a[1..] && b == [b[0]] + b[1..];
      assert multiset(a) == multiset{a[0]} + multiset(a[1..]);
      assert multiset(b) == multiset{b[0]} + multiset(b[1..]);
      assert multiset(a[1..]) == multiset(a) - multiset{a[0]};
      assert multiset(b[1..]) == multiset(b) - multiset{b[0]};
      SortedTail(a);
      SortedTail(b);
      SortedDescUnique(a[1..], b[1..]);
    }
  }

  /** The sorted names are a rearrangement of the input in ascending order. */
  lemma SortedNamesAscending(names: seq<string>)
    ensures multiset(SortedNames(names)) == multiset(names)
    ensures var r := SortedNames(names); forall i, j :: 0 <= i < j < |r| ==> StrGe(r[j], r[i])
  {
    var d := SortDesc(names, StrKey);
    SortDescMultiset(names, StrKey);
    SortDescSorted(names, StrKey);
    ReverseMultiset(d);
    var r := SortedNames(names);
    forall i, j | 0 <= i < j < |r|
      ensures StrGe(r[j], r[i])
    {
      assert KeyGe(StrKey(d[|d| - 1 - j]), StrKey(d[|d| - 1 - i]));
    }
  }

  /** Any rearrangement of the names sorts the same. */
  lemma SortedNamesOrderFree(names: seq<string>, other: seq<string>)
    requires multiset(other) == multiset(names)
    ensures SortedNames(other) == SortedNames(names)
  {
    SortDescMultiset(names, StrKey);
    SortDescSorted(names, StrKey);
    SortDescMultiset(other, StrKey);
    SortDescSorted(other, StrKey);
    SortedDescUnique(SortDesc(other, StrKey), SortDesc(names, StrKey));
  }

  lemma {:induction false} ReverseMultiset<T>(s: seq<T>)
    ensures multiset(Reverse(s)) == multiset(s)
    decreases |s|
  {
    if s != [] {
      ReverseMultiset(s[1..]);
      assert s == [s[0]] + s[1..];
    }
  }

  /** f"{x}" for an Optional[int]. */
  function OptIntStr(y: Option<int>): string
  {
    match y
    case None => "None"
    case Some(n) => IntToString(n)
  }

  /** The backends part of the key: the sorted names comma-joined, or 'all' for None or an empty list. */
  function BackendsPart(backends: Option<seq<string>>): string
  {
    if backends.None? || backends.value == [] then "all" else Join(",", SortedNames(backends.value))
  }

  /** The key depends on the set of backends, not on the order they were listed in. */
  lemma BackendsPartOrderFree(a: seq<string>, b: seq<string>)
    requires multiset(a) == multiset(b)
    ensures BackendsPart(Some(a)) == BackendsPart(Some(b))
    ensures BackendsPart(None) == BackendsPart(Some([])) == "all"
  {
    SortedNamesOrderFree(a, b);
    if a == [] {
      assert |multiset(b)| == 0;
    }
  }

  class SearchRequest {
    var query: string
    var limit: int
    var aiResultLimit: int
    var rankingMode: string
    var minYear: Option<int>
    var maxYear: Option<int>
    var backends: Option<seq<string>>

    /** The generated __init__: the fields as given. */
    constructor (query: string, limit: int, aiResultLimit: int, rankingMode: string,
                 minYear: Option<int>, maxYear: Option<int>, backends: Option<seq<string>>)
      ensures this.query == query && this.limit == limit && this.aiResultLimit == aiResultLimit
      ensures this.rankingMode == rankingMode && this.minYear == minYear && this.maxYear == maxYear
      ensures this.backends == backends
    {
      this.query := query;
      this.limit := limit;
      this.aiResultLimit := aiResultLimit;
      this.rankingMode := rankingMode;
      this.minYear := minYear;
      this.maxYear := maxYear;
      this.backends := backends;
    }

    /** __post_init__: the query is stripped in place, then the fields are checked; Err is the ValueError. */
    method PostInit() returns (r: Result<()>)
      modifies this
      ensures query == Strip(old(query))
      ensures limit == old(limit) && aiResultLimit == old(aiResultLimit) && rankingMode == old(rankingMode)
      ensures minYear == old(minYear) && maxYear == old(maxYear) && backends == old(backends)
      ensures r == PostInitCheck(query, limit, aiResultLimit, rankingMode, minYear, maxYear)
    {
      query := Strip(query);
      if |query| == 0 {
        return Err("Query cannot be empty");
      }
      if limit <= 0 {
        return Err("Limit must be positive");
      }
      if aiResultLimit <= 0 {
        return Err("AI result limit must be positive");
      }
      if rankingMode !in ValidModes {
        return Err("Ranking mode must be one of: ['ai_ranking', 'citation_ranking']");
      }
      if Given(minYear) && minYear.value < MinYearFloor {
        return Err("Minimum year must be >= 1900");
      }
      if Given(maxYear) && maxYear.value > MaxYearCeiling {
        return Err("Maximum year must be <= 2030");
      }
      if Given(minYear) && Given(maxYear) && minYear.value > maxYear.value {
        return Err("Minimum year cannot be greater than maximum year");
      }
      r := Ok(());
    }

    /** to_cache_key, with `hash` standing for Python's hash() of the query. */
    function ToCacheKey(hash: string -> int): (key: string)
      reads this
      ensures StartsWith(key, "search:" + IntToString(hash(query)) + ":")
    {
      "search:" + IntToString(hash(query)) + ":" + IntToString(limit) + ":" + IntToString(aiResultLimit) + ":" +
      rankingMode + ":" + OptIntStr(minYear) + ":" + OptIntStr(maxYear) + ":" + BackendsPart(backends)
    }
  }
}
