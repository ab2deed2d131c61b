// The two legacy aggregators: ai_scholar/paper_aggregator.py and the older
// top-level paper_aggregator.py. Both query every registered back-end in
// turn, skip the ones that raise or return something other than a list of
// dicts, drop repeated (title, year) pairs and hand the rest to an AI
// ranker; the newer one also filters by year and merges the ranked entries
// back with the full paper details.
//
// A back-end call, the resolution of a dict reply (format_items or the
// network request of generic_requests_search) and the AI rankers are
// oracles; Err stands for an exception they raise.

module LegacyAggregators {
  import opened Base
  import opened Text
  import opened Values
  import opened Lists
  import opened Dedup
  import opened Helpers
  import WebHelpers

  /** What calling a back-end did: it raised, or it returned a value. */
  datatype Reply = Raised | Returned(v: Value)

  /** One entry of BACKENDS: its key and its search function of (query, limit). */
  datatype Backend = Backend(name: string, call: (string, int) -> Reply)

  /** The dict fields of every item of a list known to hold only dicts. */
  function Dicts(items: seq<Value>): (r: seq<PaperDict>)
    requires forall i :: 0 <= i < |items| ==> items[i].DictV?
    ensures |r| == |items| && forall i :: 0 <= i < |items| ==> r[i] == items[i].fields
  {
    Map(items, (v: Value) => if v.DictV? then v.fields else map[])
  }

  /**
   * The papers one back-end adds to the aggregate, or None when the loop
   * skips it: the call raised, returned neither a dict nor a list, its dict
   * could not be resolved, or the papers are not a list of dicts.
   */
  function Contribution(b: Backend, query: string, limit: int, resolve: (string, PaperDict) -> Result<Value>)
    : Option<seq<PaperDict>>
  {
    match b.call(query, limit)
    case Raised => None
    case Returned(v) =>
      var papers := if v.DictV? then resolve(b.name, v.fields) else if v.ListV? then Ok(v) else Err("skipped");
      if papers.Ok? && papers.value.ListV? && forall i :: 0 <= i < |papers.value.items| ==> papers.value.items[i].DictV?
      then Some(Dicts(papers.value.items))
      else None
  }

  /** The papers the back-end loop has aggregated after visiting `bs`, in order. */
  function Collected(bs: seq<Backend>, query: string, limit: int, resolve: (string, PaperDict) -> Result<Value>)
    : seq<PaperDict>
  {
    if bs == [] then []
    else
      var last := Contribution(bs[|bs| - 1], query, limit, resolve);
      Collected(bs[..|bs| - 1], query, limit, resolve) + (if last.Some? then last.value else [])
  }

  /** The back-end loop: each contribution extends the aggregate; a skipped back-end adds nothing. */
  method CollectPapers(bs: seq<Backend>, query: string, limit: int, resolve: (string, PaperDict) -> Result<Value>)
    returns (aggregated: seq<PaperDict>)
    ensures aggregated == Collected(bs, query, limit, resolve)
  {
    aggregated := [];
    for i := 0 to |bs|
      invariant aggregated == Collected(bs[..i], query, limit, resolve)
    {
      assert bs[..i + 1][..i] == bs[..i];
      var papers := Contribution(bs[i], query, limit, resolve);
      if papers.Some? {
        aggregated := aggregated + papers.value;
      }
    }
    assert bs[..|bs|] == bs;
  }

  /**
   * A paper is aggregated exactly when some back-end contributed it, so a
   * back-end that raised or returned a malformed shape adds nothing and
   * does not stop the others.
   */
  lemma {:induction false} CollectedMembers(bs: seq<Backend>, query: string, limit: int,
                                            resolve: (string, PaperDict) -> Result<Value>, p: PaperDict)
    ensures p in Collected(bs, query, limit, resolve) <==>
      exists i :: 0 <= i < |bs| && Contribution(bs[i], query, limit, resolve).Some? &&
                  p in Contribution(bs[i], query, limit, resolve).value
  {
    if bs != [] {
      var init := bs[..|bs| - 1];
      CollectedMembers(init, query, limit, resolve, p);
      var last := Contribution(bs[|bs| - 1], query, limit, resolve);
      var tail := if last.Some? then last.value else [];
      assert Collected(bs, query, limit, resolve) == Collected(init, query, limit, resolve) + tail;
      assert p in Collected(bs, query, limit, resolve) <==> p in Collected(init, query, limit, resolve) || p in tail;
      if exists i :: 0 <= i < |init| && Contribution(init[i], query, limit, resolve).Some? &&
                     p in Contribution(init[i], query, limit, resolve).value {
        var i :| 0 <= i < |init| && Contribution(init[i], query, limit, resolve).Some? &&
                 p in Contribution(init[i], query, limit, resolve).value;
        assert init[i] == bs[i];
      }
      if exists i :: 0 <= i < |bs| && Contribution(bs[i], query, limit, resolve).Some? &&
                     p in Contribution(bs[i], query, limit, resolve).value {
        var i :| 0 <= i < |bs| && Contribution(bs[i], query, limit, resolve).Some? &&
                 p in Contribution(bs[i], query, limit, resolve).value;
        if i < |init| {
          assert init[i] == bs[i];
        }
      }
    }
  }

  /** Nothing is aggregated exactly when every back-end was skipped or contributed an empty list. */
  lemma {:induction false} CollectedEmpty(bs: seq<Backend>, query: string, limit: int,
                                          resolve: (string, PaperDict) -> Result<Value>)
    ensures Collected(bs, query, limit, resolve) == [] <==>
      forall i :: 0 <= i < |bs| ==> Contribution(bs[i], query, limit, resolve) in {None, Some([])}
  {
    if bs != [] {
      var init := bs[..|bs| - 1];
      CollectedEmpty(init, query, limit, resolve);
      if forall i :: 0 <= i < |bs| ==> Contribution(bs[i], query, limit, resolve) in {None, Some([])} {
        forall i | 0 <= i < |init| ensures Contribution(init[i], query, limit, resolve) in {None, Some([])} {
          assert init[i] == bs[i];
        }
      }
    }
  }

  // ---------------------------------------------------------------- (title, year) deduplication

  /**
   * The `seen` key `(paper.get('title'), paper.get('year'))`: the exact values,
   * with no case folding or stripping. Hashing the tuple raises TypeError
   * when either value is a list or a dict.
   */
  function TitleYearKey(p: PaperDict): Result<Option<(Value, Value)>>
  {
    var t := Get(p, "title", NoneV);
    var y := Get(p, "year", NoneV);
    if WebHelpers.Hashable(t) && WebHelpers.Hashable(y) then Ok(Some((Canon(t), Canon(y))))
    else Err("TypeError: unhashable type")
  }

  /** remove_duplicates, and the same loop inside rank_and_remove_duplicates. */
  method RemoveDuplicates(papers: seq<PaperDict>) returns (r: Result<seq<PaperDict>>)
    ensures r == DedupBy(papers, TitleYearKey)
  {
    var seen: set<(Value, Value)> := {};
    var unique: seq<PaperDict> := [];
    for i := 0 to |papers|
      invariant DedupBy(papers[..i], TitleYearKey) == Ok(unique)
      invariant seen == KeysOf(unique, TitleYearKey)
    {
      DedupByStep(papers, i, TitleYearKey);
      var key := TitleYearKey(papers[i]);
      if key.Err? {
        DedupErrPrefix(papers, i + 1, TitleYearKey);
        return Err(key.error);
      }
      if key.value.value !in seen {
        KeysOfAppend(unique, papers[i], TitleYearKey);
        seen := seen + {key.value.value};
        unique := unique + [papers[i]];
      }
    }
    assert papers[..|papers|] == papers;
    return Ok(unique);
  }

  /** The title and year a paper is deduplicated on. */
  function TitleOf(p: PaperDict): Value { Get(p, "title", NoneV) }
  function YearValue(p: PaperDict): Value { Get(p, "year", NoneV) }

  /**
   * Deduplication raises exactly when some title or year is unhashable.
   * Otherwise it keeps an order-preserving subsequence in which no two
   * papers have equal titles and equal years, and every input paper has
   * such an equal pair among the kept ones.
   */
  lemma RemoveDuplicatesProperties(papers: seq<PaperDict>)
    ensures DedupBy(papers, TitleYearKey).Ok? <==>
      forall i :: 0 <= i < |papers| ==> WebHelpers.Hashable(TitleOf(papers[i])) && WebHelpers.Hashable(YearValue(papers[i]))
    ensures DedupBy(papers, TitleYearKey).Ok? ==>
      var u := DedupBy(papers, TitleYearKey).value;
      SubseqOf(u, papers) &&
      (forall i, j :: 0 <= i < j < |u| ==> !(PyEq(TitleOf(u[i]), TitleOf(u[j])) && PyEq(YearValue(u[i]), YearValue(u[j])))) &&
      (forall i :: 0 <= i < |papers| ==> (exists j :: (0 <= j < |u| &&
         PyEq(TitleOf(u[j]), TitleOf(papers[i])) && PyEq(YearValue(u[j]), YearValue(papers[i])))))
  {
    DedupOk(papers, TitleYearKey);
    if DedupBy(papers, TitleYearKey).Ok? {
      var u := DedupBy(papers, TitleYearKey).value;
      DedupDistinct(papers, TitleYearKey);
      DedupKeys(papers, TitleYearKey);
      forall i, j | 0 <= i < j < |u|
        ensures !(PyEq(TitleOf(u[i]), TitleOf(u[j])) && PyEq(YearValue(u[i]), YearValue(u[j])))
      {
        CanonPyEq(TitleOf(u[i]), TitleOf(u[j]));
        CanonPyEq(YearValue(u[i]), YearValue(u[j]));
      }
      forall i | 0 <= i < |papers|
        ensures (exists j :: (0 <= j < |u| &&
          PyEq(TitleOf(u[j]), TitleOf(papers[i])) && PyEq(YearValue(u[j]), YearValue(papers[i]))))
      {
        var t := TitleYearKey(papers[i]).value.value;
        KeysOfMembers(papers, TitleYearKey, t);
        KeysOfMembers(u, TitleYearKey, t);
        var j :| 0 <= j < |u| && TitleYearKey(u[j]) == Ok(Some(t));
        CanonPyEq(TitleOf(u[j]), TitleOf(papers[i]));
        CanonPyEq(YearValue(u[j]), YearValue(papers[i]));
      }
    }
  }

  /** Titles are compared exactly: two papers whose titles differ only in case are both kept. */
  lemma DedupIsCaseSensitive(p: PaperDict, q: PaperDict, a: string, b: string)
    requires "title" in p && p["title"] == StrV(a) && "title" in q && q["title"] == StrV(b) && a != b
    requires WebHelpers.Hashable(YearValue(p)) && WebHelpers.Hashable(YearValue(q))
    ensures DedupBy([p, q], TitleYearKey) == Ok([p, q])
  {
    var kp := TitleYearKey(p).value.value;
    var kq := TitleYearKey(q).value.value;
    assert kp.0 == StrV(a) && kq.0 == StrV(b);
    DedupTwoDistinct(p, q, TitleYearKey, kp, kq);
  }

  // ---------------------------------------------------------------- merging with the details

  /** The key of a paper in `details_by_title`: its stripped, lower-cased title, for string titles only. */
  function DetailKey(p: PaperDict): Option<string>
  {
    if "title" in p && p["title"].StrV? then Some(Lower(Strip(p["title"].s))) else None
  }

  /** One entry of the `details_by_title` dict. */
  datatype Detail = Detail(key: string, paper: PaperDict)

  /** Where key `k` sits in the dict. */
  function KeyIndex(ds: seq<Detail>, k: string): (r: Option<nat>)
    ensures r.None? ==> forall i :: 0 <= i < |ds| ==> ds[i].key != k
    ensures r.Some? ==> r.value < |ds| && ds[r.value].key == k
  {
    if ds == [] then None
    else if ds[|ds| - 1].key == k then Some(|ds| - 1)
    else KeyIndex(ds[..|ds| - 1], k)
  }

  /** `details_by_title[key] = paper` for one paper: a new key goes last, a known key keeps its place and takes the paper. */
  function Put(ds: seq<Detail>, p: PaperDict): seq<Detail>
  {
    match DetailKey(p)
    case None => ds
    case Some(k) =>
      match KeyIndex(ds, k)
      case None => ds + [Detail(k, p)]
      case Some(i) => ds[i := Detail(k, p)]
  }

  /** The dict comprehension over the aggregated papers, one paper at a time. */
  function DetailsByTitle(agg: seq<PaperDict>): seq<Detail>
  {
    if agg == [] then [] else Put(DetailsByTitle(agg[..|agg| - 1]), agg[|agg| - 1])
  }

  /** The first position of a paper with key `k`. */
  function FirstWith(agg: seq<PaperDict>, k: string): (r: Option<nat>)
    ensures r.Some? ==> r.value < |agg| && DetailKey(agg[r.value]) == Some(k)
  {
    if agg == [] then None
    else if FirstWith(agg[..|agg| - 1], k).Some? then FirstWith(agg[..|agg| - 1], k)
    else if DetailKey(agg[|agg| - 1]) == Some(k) then Some(|agg| - 1)
    else None
  }

  /** The last position of a paper with key `k`. */
  function LastWith(agg: seq<PaperDict>, k: string): (r: Option<nat>)
    ensures r.Some? ==> r.value < |agg| && DetailKey(agg[r.value]) == Some(k)
  {
    if agg == [] then None
    else if DetailKey(agg[|agg| - 1]) == Some(k) then Some(|agg| - 1)
    else LastWith(agg[..|agg| - 1], k)
  }

  /** No paper after the last one with key `k` has that key, and there is a last one exactly when there is a first. */
  lemma {:induction false} LastWithIsLast(agg: seq<PaperDict>, k: string)
    ensures LastWith(agg, k).Some? ==> forall j :: LastWith(agg, k).value < j < |agg| ==> DetailKey(agg[j]) != Some(k)
    ensures LastWith(agg, k).None? <==> FirstWith(agg, k).None?
  {
    if agg != [] {
      var init := agg[..|agg| - 1];
      LastWithIsLast(init, k);
      if DetailKey(agg[|agg| - 1]) != Some(k) && LastWith(init, k).Some? {
        forall j | LastWith(agg, k).value < j < |agg| ensures DetailKey(agg[j]) != Some(k) {
          if j < |init| {
            assert agg[j] == init[j];
          }
        }
      }
    }
  }

  /** Each key once. */
  ghost predicate DistinctDetailKeys(ds: seq<Detail>)
  {
    forall i, j :: 0 <= i < j < |ds| ==> ds[i].key != ds[j].key
  }

  /** The keys are exactly those of the papers. */
  ghost predicate KeysOfPapers(ds: seq<Detail>, agg: seq<PaperDict>)
  {
    forall k :: KeyIndex(ds, k).Some? <==> FirstWith(agg, k).Some?
  }

  /** Each key holds the last paper with that key. */
  ghost predicate LastPaperWins(ds: seq<Detail>, agg: seq<PaperDict>)
  {
    forall i :: 0 <= i < |ds| ==> LastWith(agg, ds[i].key).Some? && ds[i].paper == agg[LastWith(agg, ds[i].key).value]
  }

  /** The keys are in the order of their first paper. */
  ghost predicate FirstSeenOrder(ds: seq<Detail>, agg: seq<PaperDict>)
  {
    forall i, j :: 0 <= i < j < |ds| && FirstWith(agg, ds[i].key).Some? && FirstWith(agg, ds[j].key).Some? ==>
      FirstWith(agg, ds[i].key).value < FirstWith(agg, ds[j].key).value
  }

  lemma FirstWithSnoc(agg: seq<PaperDict>, p: PaperDict, k: string)
    ensures FirstWith(agg + [p], k) ==
      if FirstWith(agg, k).Some? then FirstWith(agg, k) else if DetailKey(p) == Some(k) then Some(|agg|) else None
    ensures LastWith(agg + [p], k) == if DetailKey(p) == Some(k) then Some(|agg|) else LastWith(agg, k)
  {
    assert (agg + [p])[..|agg|] == agg;
  }

  /** Where each key of `Put(ds, p)` sits. */
  lemma PutKeys(ds: seq<Detail>, p: PaperDict)
    ensures DetailKey(p).None? ==> Put(ds, p) == ds
    ensures DetailKey(p).Some? ==> (|Put(ds, p)| >= |ds| &&
      (forall i :: 0 <= i < |ds| ==> Put(ds, p)[i].key == ds[i].key) &&
      (forall i :: |ds| <= i < |Put(ds, p)| ==> Put(ds, p)[i].key == DetailKey(p).value && KeyIndex(ds, DetailKey(p).value).None?) &&
      |Put(ds, p)| <= |ds| + 1)
  {
  }

  lemma PutDistinct(ds: seq<Detail>, p: PaperDict)
    requires DistinctDetailKeys(ds)
    ensures DistinctDetailKeys(Put(ds, p))
  {
    PutKeys(ds, p);
  }

  lemma PutKeysOfPapers(ds: seq<Detail>, agg: seq<PaperDict>, p: PaperDict)
    requires KeysOfPapers(ds, agg)
    ensures KeysOfPapers(Put(ds, p), agg + [p])
  {
    var ds' := Put(ds, p);
    PutKeys(ds, p);
    forall k ensures KeyIndex(ds', k).Some? <==> FirstWith(agg + [p], k).Some? {
      FirstWithSnoc(agg, p, k);
      if KeyIndex(ds', k).Some? {
        var i := KeyIndex(ds', k).value;
        if i < |ds| {
          assert KeyIndex(ds, k).Some?;
        }
      }
      if KeyIndex(ds, k).Some? {
        var i := KeyIndex(ds, k).value;
        assert ds'[i].key == k;
      }
      if DetailKey(p) == Some(k) {
        assert KeyIndex(ds', k).Some? by {
          if KeyIndex(ds, k).None? {
            assert ds'[|ds|].key == k;
          }
        }
      }
    }
  }

  /** Put changes only the entry of the paper's key, which then holds the paper. */
  lemma PutEntries(ds: seq<Detail>, p: PaperDict)
    requires DistinctDetailKeys(ds)
    ensures forall i :: 0 <= i < |Put(ds, p)| ==>
      if DetailKey(p) == Some(Put(ds, p)[i].key) then Put(ds, p)[i].paper == p
      else i < |ds| && Put(ds, p)[i] == ds[i]
  {
    PutKeys(ds, p);
  }

  lemma PutLast(ds: seq<Detail>, agg: seq<PaperDict>, p: PaperDict)
    requires DistinctDetailKeys(ds) && LastPaperWins(ds, agg)
    ensures LastPaperWins(Put(ds, p), agg + [p])
  {
    var ds' := Put(ds, p);
    PutEntries(ds, p);
    forall i | 0 <= i < |ds'|
      ensures LastWith(agg + [p], ds'[i].key).Some? && ds'[i].paper == (agg + [p])[LastWith(agg + [p], ds'[i].key).value]
    {
      FirstWithSnoc(agg, p, ds'[i].key);
    }
  }

  lemma PutOrder(ds: seq<Detail>, agg: seq<PaperDict>, p: PaperDict)
    requires KeysOfPapers(ds, agg) && FirstSeenOrder(ds, agg)
    ensures FirstSeenOrder(Put(ds, p), agg + [p])
  {
    var ds' := Put(ds, p);
    PutKeys(ds, p);
    forall i, j | 0 <= i < j < |ds'| && FirstWith(agg + [p], ds'[i].key).Some? && FirstWith(agg + [p], ds'[j].key).Some?
      ensures FirstWith(agg + [p], ds'[i].key).value < FirstWith(agg + [p], ds'[j].key).value
    {
      FirstWithSnoc(agg, p, ds'[i].key);
      FirstWithSnoc(agg, p, ds'[j].key);
      assert KeyIndex(ds, ds[i].key).Some?;
      if j < |ds| {
        assert KeyIndex(ds, ds[j].key).Some?;
      }
    }
  }

  /**
   * `details_by_title` holds each normalised string title once, in the order
   * of the first paper with it, mapped to the LAST paper with it; papers
   * whose title is not a string are left out.
   */
  lemma {:induction false} DetailsByTitleSpec(agg: seq<PaperDict>)
    ensures var ds := DetailsByTitle(agg);
      DistinctDetailKeys(ds) && KeysOfPapers(ds, agg) && LastPaperWins(ds, agg) && FirstSeenOrder(ds, agg)
  {
    if agg != [] {
      var init := agg[..|agg| - 1];
      var p := agg[|agg| - 1];
      DetailsByTitleSpec(init);
      assert init + [p] == agg;
      PutDistinct(DetailsByTitle(init), p);
      PutKeysOfPapers(DetailsByTitle(init), init, p);
      PutLast(DetailsByTitle(init), init, p);
      PutOrder(DetailsByTitle(init), init, p);
    }
  }

  /** The match test: either title contains the other. */
  predicate TitlesOverlap(key: string, t: string)
  {
    Contains(key, t) || Contains(t, key)
  }

  /** The `for key in details_by_title` scan: the first key that overlaps the ranked title. */
  function FirstOverlap(ds: seq<Detail>, t: string): (r: Option<nat>)
    ensures r.None? ==> forall i :: 0 <= i < |ds| ==> !TitlesOverlap(ds[i].key, t)
    ensures r.Some? ==> r.value < |ds| && TitlesOverlap(ds[r.value].key, t) &&
                        forall i :: 0 <= i < r.value ==> !TitlesOverlap(ds[i].key, t)
  {
    if ds == [] then None
    else if TitlesOverlap(ds[0].key, t) then Some(0)
    else match FirstOverlap(ds[1..], t)
      case None => None
      case Some(i) => Some(i + 1)
  }

  /** The scan as the loop that breaks at the first overlapping key. */
  method MatchDetail(ds: seq<Detail>, t: string) returns (r: Option<nat>)
    ensures r == FirstOverlap(ds, t)
  {
    var i := 0;
    while i < |ds|
      invariant 0 <= i <= |ds|
      invariant forall j :: 0 <= j < i ==> !TitlesOverlap(ds[j].key, t)
    {
      if Contains(ds[i].key, t) || Contains(t, ds[i].key) {
        FirstOverlapIs(ds, t, i);
        return Some(i);
      }
      i := i + 1;
    }
    FirstOverlapIs(ds, t, |ds|);
    return None;
  }

  /** The scan's answer is determined by where the first overlap is. */
  lemma {:induction false} FirstOverlapIs(ds: seq<Detail>, t: string, i: nat)
    requires i <= |ds| && forall j :: 0 <= j < i ==> !TitlesOverlap(ds[j].key, t)
    requires i < |ds| ==> TitlesOverlap(ds[i].key, t)
    ensures FirstOverlap(ds, t) == if i < |ds| then Some(i) else None
  {
    if FirstOverlap(ds, t).Some? {
      var r := FirstOverlap(ds, t).value;
      assert !(r < i);
      assert !(i < r && i < |ds|);
    }
  }

  /** An empty ranked title is contained in every key, so it matches the first one. */
  lemma EmptyTitleMatchesFirst(ds: seq<Detail>)
    requires ds != []
    ensures FirstOverlap(ds, []) == Some(0)
  {
    ContainsEmpty(ds[0].key);
  }

  /** `a or b`. */
  function Or(a: Value, b: Value): (r: Value)
    ensures Truthy(a) ==> r == a
    ensures !Truthy(a) ==> r == b
  {
    if Truthy(a) then a else b
  }

  /** `(rank_item.get("title") or rank_item.get("t", "")).strip().lower()`; a non-string raises. */
  function RankTitle(item: PaperDict): Result<string>
  {
    var v := Or(Get(item, "title", NoneV), Get(item, "t", StrV("")));
    if v.StrV? then Ok(Lower(Strip(v.s))) else Err("AttributeError: object has no attribute 'strip'")
  }

  const NoExplanation: string := "No explanation provided"
  const Placeholders: seq<string> := [NoExplanation, "AI ranking based on relevance to query"]

  /** `explanation and explanation.strip() and explanation not in [...]`; `.strip()` raises on a truthy non-string. */
  function UsableExplanation(e: Value): Result<bool>
  {
    if !Truthy(e) then Ok(false)
    else if !e.StrV? then Err("AttributeError: object has no attribute 'strip'")
    else Ok(Strip(e.s) != [] && e.s !in Placeholders)
  }

  /** `citation and citation not in (None, "Not available", 0, "0")`. */
  predicate Adoptable(c: Value)
  {
    Truthy(c) && c != StrV("Not available") && c != StrV("0")
  }

  /** A sentence with a value filled in between two fixed parts. */
  function Sentence(pre: string, x: string, post: string): string
  {
    pre + x + post
  }

  const MatchedPre: string := "This paper is relevant to your query '"
  const MatchedPost: string := "' based on content analysis and research methodology."
  // Written in two pieces so that the verifier can see its first character.
  const UnmatchedPre: string := "This research provides insights " + "relevant to your '"
  const UnmatchedPost: string := "' based on comprehensive analysis."

  /** The sentence that replaces an unusable explanation of a matched paper. */
  function MatchedTemplate(title: Value): string
  {
    Sentence(MatchedPre, PyStr(title), MatchedPost)
  }

  /** The sentence that replaces an unusable explanation of an unmatched entry. */
  function UnmatchedTemplate(t: string): string
  {
    Sentence(UnmatchedPre, if t != [] then t else "query", UnmatchedPost)
  }

  /** A sentence starts as its first part does and ends as its last part does. */
  lemma SentenceEnds(pre: string, x: string, post: string)
    requires pre != [] && post != []
    ensures Sentence(pre, x, post)[0] == pre[0]
    ensures Sentence(pre, x, post)[|Sentence(pre, x, post)| - 1] == post[|post| - 1]
  {
  }

  /** The fixed parts begin and end with a non-space, and every one of `others` begins differently. */
  predicate Framed(pre: string, post: string, others: seq<string>)
  {
    pre != [] && post != [] && !IsSpace(pre[0]) && !IsSpace(post[|post| - 1]) &&
    forall k :: 0 <= k < |others| ==> others[k] != [] && others[k][0] != pre[0]
  }

  /** A sentence that begins and ends with a non-space is unchanged by strip and differs from any text beginning otherwise. */
  lemma SentenceNotBlank(pre: string, x: string, post: string, others: seq<string>)
    requires Framed(pre, post, others)
    ensures Strip(Sentence(pre, x, post)) != [] && Sentence(pre, x, post) !in others
  {
    SentenceEnds(pre, x, post);
    StripOfNonSpaceEnds(Sentence(pre, x, post));
  }

  /** The merged entry, once the title, the explanation test and the match are known. */
  /** The explanation a merged entry gets: the ranked one when usable, otherwise a sentence. */
  function MergedExplanation(item: PaperDict, t: string, usable: bool, at: Option<nat>, ds: seq<Detail>): Value
    requires at.Some? ==> at.value < |ds|
  {
    if usable then Get(item, "explanation", StrV(NoExplanation))
    else match at
      case Some(i) => StrV(MatchedTemplate(Get(ds[i].paper, "title", StrV("research"))))
      case None => StrV(UnmatchedTemplate(t))
  }

  function Merged(item: PaperDict, t: string, usable: bool, at: Option<nat>, ds: seq<Detail>): PaperDict
    requires at.Some? ==> at.value < |ds|
  {
    var explanation := MergedExplanation(item, t, usable, at, ds);
    var citation := Or(Get(item, "citations", NoneV), Get(item, "c", NoneV));
    match at
    case Some(i) =>
      var d := ds[i].paper;
      var m := d["explanation" := explanation];
      if Adoptable(citation) then m["citations" := citation]
      else if "citation" in d && Adoptable(d["citation"]) then m["citations" := d["citation"]]
      else m - {"citation", "citations"}
    case None =>
      var authors := Or(Get(item, "authors", NoneV), Get(item, "a", StrV("")));
      var n := map["title" := StrV(if t != [] then Title(t) else "Unknown Title"),
                   "authors" := (if Truthy(authors) then authors else StrV("Unknown Authors")),
                   "explanation" := explanation];
      if Adoptable(citation) then n["citations" := citation] else n
  }

  /** One iteration of merge_ranked_with_details (ai_scholar/paper_aggregator.py). */
  function MergeItem(item: PaperDict, ds: seq<Detail>): Result<PaperDict>
  {
    match RankTitle(item)
    case Err(e) => Err(e)
    case Ok(t) =>
      match UsableExplanation(Get(item, "explanation", StrV(NoExplanation)))
      case Err(e) => Err(e)
      case Ok(usable) => Ok(Merged(item, t, usable, FirstOverlap(ds, t), ds))
  }

  function MergeItemFn(ds: seq<Detail>): PaperDict -> Result<PaperDict>
  {
    item => MergeItem(item, ds)
  }

  /** merge_ranked_with_details (ai_scholar/paper_aggregator.py): one entry per ranked item, built in order. */
  method MergeRankedWithDetails(ranked: seq<PaperDict>, aggregated: seq<PaperDict>) returns (r: Result<seq<PaperDict>>)
    ensures r == MapResult(ranked, MergeItemFn(DetailsByTitle(aggregated)))
  {
    var ds := DetailsByTitle(aggregated);
    var merged: seq<PaperDict> := [];
    for i := 0 to |ranked|
      invariant MapResult(ranked[..i], MergeItemFn(ds)) == Ok(merged)
    {
      MapResultStep(ranked, i, MergeItemFn(ds));
      var item := ranked[i];
      var t := RankTitle(item);
      var usable := UsableExplanation(Get(item, "explanation", StrV(NoExplanation)));
      if t.Err? || usable.Err? {
        MapResultErrPrefix(ranked, i + 1, MergeItemFn(ds));
        return if t.Err? then Err(t.error) else Err(usable.error);
      }
      var at := MatchDetail(ds, t.value);
      merged := merged + [Merged(item, t.value, usable.value, at, ds)];
    }
    assert ranked[..|ranked|] == ranked;
    return Ok(merged);
  }

  /**
   * A ranked entry whose title overlaps a detail key is merged with the
   * paper under the FIRST such key, in the order of `details_by_title`.
   */
  lemma MergeItemMatched(item: PaperDict, ds: seq<Detail>, t: string, i: nat)
    requires RankTitle(item) == Ok(t) && UsableExplanation(Get(item, "explanation", StrV(NoExplanation))).Ok?
    requires i < |ds| && TitlesOverlap(ds[i].key, t) && forall j :: 0 <= j < i ==> !TitlesOverlap(ds[j].key, t)
    ensures MergeItem(item, ds) ==
      Ok(Merged(item, t, UsableExplanation(Get(item, "explanation", StrV(NoExplanation))).value, Some(i), ds))
  {
    FirstOverlapIs(ds, t, i);
  }

  /** A ranked entry that overlaps no key yields a fresh entry. */
  lemma MergeItemUnmatched(item: PaperDict, ds: seq<Detail>, t: string)
    requires RankTitle(item) == Ok(t) && UsableExplanation(Get(item, "explanation", StrV(NoExplanation))).Ok?
    requires forall j :: 0 <= j < |ds| ==> !TitlesOverlap(ds[j].key, t)
    ensures MergeItem(item, ds) ==
      Ok(Merged(item, t, UsableExplanation(Get(item, "explanation", StrV(NoExplanation))).value, None, ds))
  {
    FirstOverlapIs(ds, t, |ds|);
  }

  /**
   * A matched entry is a copy of the detail paper: every field other than
   * the explanation and the citation keys is kept; the explanation is the
   * ranked one when usable; a citation count is present only when adoptable.
   */
  lemma MergedMatchedFields(item: PaperDict, t: string, usable: bool, i: nat, ds: seq<Detail>)
    requires i < |ds|
    ensures var m := Merged(item, t, usable, Some(i), ds);
      var d := ds[i].paper;
      (forall k :: k in d && k !in {"explanation", "citation", "citations"} ==> k in m && m[k] == d[k]) &&
      m.Keys <= d.Keys + {"explanation", "citations"} &&
      "explanation" in m && (usable ==> m["explanation"] == Get(item, "explanation", StrV(NoExplanation))) &&
      ("citations" in m ==> Adoptable(m["citations"]))
  {
  }

  /**
   * An unmatched entry holds only a title-cased title (or "Unknown Title"),
   * the ranked authors (or "Unknown Authors"), an explanation, and a
   * citation count exactly when the ranked one is adoptable.
   */
  lemma MergedUnmatchedFields(item: PaperDict, t: string, usable: bool, ds: seq<Detail>)
    ensures var m := Merged(item, t, usable, None, ds);
      m.Keys <= {"title", "authors", "explanation", "citations"} &&
      {"title", "authors", "explanation"} <= m.Keys &&
      m["title"] == StrV(if t != [] then Title(t) else "Unknown Title") &&
      Truthy(m["authors"]) &&
      ("citations" in m <==> Adoptable(Or(Get(item, "citations", NoneV), Get(item, "c", NoneV))))
  {
  }

  /** The characters the replacement sentences and the placeholders begin and end with. */
  lemma TemplateChars()
    ensures MatchedPre[0] == 'T' && UnmatchedPre[0] == 'T'
    ensures MatchedPost[|MatchedPost| - 1] == '.' && UnmatchedPost[|UnmatchedPost| - 1] == '.'
    ensures |Placeholders| == 2 && Placeholders[0][0] == 'N' && Placeholders[1][0] == 'A'
  {
  }

  /** The sentence for a matched paper is framed against the placeholders. */
  lemma MatchedFramed()
    ensures Framed(MatchedPre, MatchedPost, Placeholders)
  {
    TemplateChars();
  }

  /** The sentence for an unmatched entry is framed against the placeholders. */
  lemma UnmatchedFramed()
    ensures Framed(UnmatchedPre, UnmatchedPost, Placeholders)
  {
    TemplateChars();
  }

  /** The sentence for a matched paper is not blank and is not a placeholder. */
  lemma MatchedTemplateUsable(title: Value)
    ensures Strip(MatchedTemplate(title)) != [] && MatchedTemplate(title) !in Placeholders
  {
    MatchedFramed();
    SentenceNotBlank(MatchedPre, PyStr(title), MatchedPost, Placeholders);
  }

  /** The sentence for an unmatched entry is not blank and is not a placeholder. */
  lemma UnmatchedTemplateUsable(t: string)
    ensures Strip(UnmatchedTemplate(t)) != [] && UnmatchedTemplate(t) !in Placeholders
  {
    UnmatchedFramed();
    SentenceNotBlank(UnmatchedPre, if t != [] then t else "query", UnmatchedPost, Placeholders);
  }

  /** A merged entry carries the explanation chosen for it. */
  lemma MergedHasExplanation(item: PaperDict, t: string, usable: bool, at: Option<nat>, ds: seq<Detail>)
    requires at.Some? ==> at.value < |ds|
    ensures var m := Merged(item, t, usable, at, ds);
      "explanation" in m && m["explanation"] == MergedExplanation(item, t, usable, at, ds)
  {
  }

  /** An empty or placeholder explanation never survives the merge: it is replaced by a sentence. */
  lemma MergeDropsPlaceholders(item: PaperDict, t: string, usable: bool, at: Option<nat>, ds: seq<Detail>)
    requires at.Some? ==> at.value < |ds|
    requires UsableExplanation(Get(item, "explanation", StrV(NoExplanation))) == Ok(usable)
    ensures var m := Merged(item, t, usable, at, ds);
      "explanation" in m && m["explanation"].StrV? && Strip(m["explanation"].s) != [] &&
      m["explanation"].s !in Placeholders
  {
    MergedHasExplanation(item, t, usable, at, ds);
    if at.Some? {
      MatchedTemplateUsable(Get(ds[at.value].paper, "title", StrV("research")));
    } else {
      UnmatchedTemplateUsable(t);
    }
  }

  /** The merge raises exactly when some entry raises; otherwise it has one entry per ranked item, in order. */
  lemma MergeShape(ranked: seq<PaperDict>, aggregated: seq<PaperDict>)
    ensures var r := MapResult(ranked, MergeItemFn(DetailsByTitle(aggregated)));
      (r.Ok? <==> forall i :: 0 <= i < |ranked| ==> MergeItem(ranked[i], DetailsByTitle(aggregated)).Ok?) &&
      (r.Ok? ==> (|r.value| == |ranked| &&
         forall i :: 0 <= i < |ranked| ==> r.value[i] == MergeItem(ranked[i], DetailsByTitle(aggregated)).value))
  {
    var ds := DetailsByTitle(aggregated);
    var f := MergeItemFn(ds);
    forall i | 0 <= i < |ranked| ensures f(ranked[i]) == MergeItem(ranked[i], ds) {
    }
  }

  // ---------------------------------------------------------------- ai_scholar/paper_aggregator.py

  /** aggregate_and_rank_papers of ai_scholar/paper_aggregator.py; `rank` is ai_ranker(query, papers, mode, limit). */
  function Aggregate(bs: seq<Backend>, resolve: (string, PaperDict) -> Result<Value>,
                     rank: (string, seq<PaperDict>, string, int) -> Result<seq<PaperDict>>,
                     query: string, limit: int, aiResultLimit: int, mode: string,
                     minYear: Option<int>, maxYear: Option<int>): Result<seq<PaperDict>>
  {
    var agg := Collected(bs, query, limit, resolve);
    if agg == [] then Ok([])
    else
      var filtered := YearFiltered(agg, minYear, maxYear);
      match DedupBy(filtered, TitleYearKey)
      case Err(e) => Err(e)
      case Ok(unique) =>
        match rank(query, unique, mode, aiResultLimit)
        case Err(e) => Err(e)
        case Ok(ranked) =>
          match MapResult(ranked, MergeItemFn(DetailsByTitle(filtered)))
          case Err(e) => Err(e)
          case Ok(merged) => Ok(Slice(merged, aiResultLimit))
  }

  method AggregateAndRankPapers(bs: seq<Backend>, resolve: (string, PaperDict) -> Result<Value>,
                                rank: (string, seq<PaperDict>, string, int) -> Result<seq<PaperDict>>,
                                query: string, limit: int, aiResultLimit: int, mode: string,
                                minYear: Option<int>, maxYear: Option<int>) returns (r: Result<seq<PaperDict>>)
    ensures r == Aggregate(bs, resolve, rank, query, limit, aiResultLimit, mode, minYear, maxYear)
  {
    var aggregated := CollectPapers(bs, query, limit, resolve);
    if aggregated == [] {
      return Ok([]);
    }
    aggregated := FilterResultsByYear(aggregated, minYear, maxYear);
    var unique := RemoveDuplicates(aggregated);
    if unique.Err? {
      return Err(unique.error);
    }
    var ranked := rank(query, unique.value, mode, aiResultLimit);
    if ranked.Err? {
      return Err(ranked.error);
    }
    var merged := MergeRankedWithDetails(ranked.value, aggregated);
    if merged.Err? {
      return Err(merged.error);
    }
    return Ok(Slice(merged.value, aiResultLimit));
  }

  /**
   * With nothing aggregated the result is [] whatever the ranker would do;
   * otherwise the ranker sees only deduplicated papers, and the result
   * never holds more than `ai_result_limit` papers.
   */
  lemma AggregateProperties(bs: seq<Backend>, resolve: (string, PaperDict) -> Result<Value>,
                            rank: (string, seq<PaperDict>, string, int) -> Result<seq<PaperDict>>,
                            query: string, limit: int, aiResultLimit: int, mode: string,
                            minYear: Option<int>, maxYear: Option<int>)
    ensures (forall i :: 0 <= i < |bs| ==> Contribution(bs[i], query, limit, resolve) in {None, Some([])}) ==>
      Aggregate(bs, resolve, rank, query, limit, aiResultLimit, mode, minYear, maxYear) == Ok([])
    ensures var r := Aggregate(bs, resolve, rank, query, limit, aiResultLimit, mode, minYear, maxYear);
      r.Ok? && aiResultLimit >= 0 ==> |r.value| <= aiResultLimit
  {
    CollectedEmpty(bs, query, limit, resolve);
  }

  // ---------------------------------------------------------------- paper_aggregator.py (top level)

  /**
   * aggregate_and_rank_papers of paper_aggregator.py: rank_and_remove_duplicates,
   * then the first 10; `rank` is ai_rank_papers(query, papers).
   */
  function AggregateTop(bs: seq<Backend>, resolve: (string, PaperDict) -> Result<Value>,
                        rank: (string, seq<PaperDict>) -> Result<seq<Value>>, query: string, limit: int)
    : Result<seq<Value>>
  {
    var agg := Collected(bs, query, limit, resolve);
    if agg == [] then Ok([])
    else
      match DedupBy(agg, TitleYearKey)
      case Err(e) => Err(e)
      case Ok(unique) =>
        match rank(query, unique)
        case Err(e) => Err(e)
        case Ok(ranked) => Ok(Slice(ranked, 10))
  }

  method AggregateAndRankPapersTop(bs: seq<Backend>, resolve: (string, PaperDict) -> Result<Value>,
                                   rank: (string, seq<PaperDict>) -> Result<seq<Value>>, query: string, limit: int)
    returns (r: Result<seq<Value>>)
    ensures r == AggregateTop(bs, resolve, rank, query, limit)
  {
    var aggregated := CollectPapers(bs, query, limit, resolve);
    if aggregated == [] {
      return Ok([]);
    }
    var unique := RemoveDuplicates(aggregated);
    if unique.Err? {
      return Err(unique.error);
    }
    var ranked := rank(query, unique.value);
    if ranked.Err? {
      return Err(ranked.error);
    }
    return Ok(Slice(ranked.value, 10));
  }

  /** The result is [] when nothing is aggregated, and never holds more than 10 papers, whatever `limit` is. */
  lemma AggregateTopProperties(bs: seq<Backend>, resolve: (string, PaperDict) -> Result<Value>,
                               rank: (string, seq<PaperDict>) -> Result<seq<Value>>, query: string, limit: int)
    ensures (forall i :: 0 <= i < |bs| ==> Contribution(bs[i], query, limit, resolve) in {None, Some([])}) ==>
      AggregateTop(bs, resolve, rank, query, limit) == Ok([])
    ensures AggregateTop(bs, resolve, rank, query, limit).Ok? ==> |AggregateTop(bs, resolve, rank, query, limit).value| <= 10
  {
    CollectedEmpty(bs, query, limit, resolve);
  }

  /** `rank_item.get("title", "").strip().lower()`; a non-string raises. */
  function RankTitleTop(item: PaperDict): Result<string>
  {
    var v := Get(item, "title", StrV(""));
    if v.StrV? then Ok(Lower(Strip(v.s))) else Err("AttributeError: object has no attribute 'strip'")
  }

  /** One iteration of merge_ranked_with_details (paper_aggregator.py). */
  function MergeItemTop(item: PaperDict, ds: seq<Detail>): Result<PaperDict>
  {
    match RankTitleTop(item)
    case Err(e) => Err(e)
    case Ok(t) =>
      match FirstOverlap(ds, t)
      case Some(i) => Ok(ds[i].paper["explanation" := Get(item, "explanation", StrV(""))])
      case None => Ok(item)
  }

  function MergeItemTopFn(ds: seq<Detail>): PaperDict -> Result<PaperDict>
  {
    item => MergeItemTop(item, ds)
  }

  /** merge_ranked_with_details (paper_aggregator.py). */
  method MergeRankedWithDetailsTop(ranked: seq<PaperDict>, aggregated: seq<PaperDict>) returns (r: Result<seq<PaperDict>>)
    ensures r == MapResult(ranked, MergeItemTopFn(DetailsByTitle(aggregated)))
  {
    var ds := DetailsByTitle(aggregated);
    var merged: seq<PaperDict> := [];
    for i := 0 to |ranked|
      invariant MapResult(ranked[..i], MergeItemTopFn(ds)) == Ok(merged)
    {
      MapResultStep(ranked, i, MergeItemTopFn(ds));
      var item := ranked[i];
      var t := RankTitleTop(item);
      if t.Err? {
        MapResultErrPrefix(ranked, i + 1, MergeItemTopFn(ds));
        return Err(t.error);
      }
      var at := MatchDetail(ds, t.value);
      if at.Some? {
        var m := ds[at.value].paper["explanation" := Get(item, "explanation", StrV(""))];
        assert MergeItemTopFn(ds)(item) == Ok(m);
        merged := merged + [m];
      } else {
        assert MergeItemTopFn(ds)(item) == Ok(item);
        merged := merged + [item];
      }
    }
    assert ranked[..|ranked|] == ranked;
    return Ok(merged);
  }

  /**
   * A matched entry is a copy of the detail that always takes the ranked
   * explanation, even an empty one; an unmatched one is passed through
   * unchanged.
   */
  lemma MergeItemTopCases(item: PaperDict, ds: seq<Detail>)
    requires MergeItemTop(item, ds).Ok?
    ensures var t := RankTitleTop(item).value;
      var m := MergeItemTop(item, ds).value;
      (FirstOverlap(ds, t).None? ==> m == item) &&
      (FirstOverlap(ds, t).Some? ==>
         m - {"explanation"} == ds[FirstOverlap(ds, t).value].paper - {"explanation"} &&
         "explanation" in m && m["explanation"] == Get(item, "explanation", StrV("")))
  {
    match FirstOverlap(ds, RankTitleTop(item).value)
    case Some(i) =>
      OverwriteExplanation(ds[i].paper, Get(item, "explanation", StrV("")));
    case None =>
  }

  /** Setting the explanation changes nothing else. */
  lemma OverwriteExplanation(d: PaperDict, v: Value)
    ensures var m := d["explanation" := v];
      m - {"explanation"} == d - {"explanation"} && "explanation" in m && m["explanation"] == v
  {
    assert d["explanation" := v] - {"explanation"} == d - {"explanation"};
  }

  /** The merge has one entry per ranked item, in order, each merged on its own. */
  lemma MergeTopShape(ranked: seq<PaperDict>, aggregated: seq<PaperDict>)
    ensures var r := MapResult(ranked, MergeItemTopFn(DetailsByTitle(aggregated)));
      (r.Ok? <==> forall i :: 0 <= i < |ranked| ==> RankTitleTop(ranked[i]).Ok?) &&
      (r.Ok? ==> (|r.value| == |ranked| &&
         forall i :: 0 <= i < |ranked| ==> r.value[i] == MergeItemTop(ranked[i], DetailsByTitle(aggregated)).value))
  {
    var ds := DetailsByTitle(aggregated);
    var f := MergeItemTopFn(ds);
    forall i | 0 <= i < |ranked| ensures f(ranked[i]) == MergeItemTop(ranked[i], ds) {
    }
  }
}
