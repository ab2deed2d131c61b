// PaperService (ai_scholar/services/paper_service.py): the choice of
// back-ends and per-back-end limits for a ranking mode, the citation ranking
// that reserves places for OpenCitations papers, the comparison tables, and
// the aggregation pipeline that chains the stages of PaperProcessingUtils
// and PaperRanking. Back-ends and the AI provider are oracles.

module PaperService {
  import opened Base
  import opened Text
  import opened Values
  import opened Lists
  import opened Sorting
  import opened Config
  import opened PaperRanking

  // ---------------------------------------------------------------- provider usage

  /** `ProviderType.<name>.value`; Err is the AttributeError for a member the enum lacks. */
  function MemberValue(name: string): Result<string>
  {
    match ProviderMember(name)
    case None => Err("AttributeError: " + name)
    case Some(t) => Ok(t.Value())
  }

  function MemberValueFn(): string -> Result<string>
  {
    name => MemberValue(name)
  }

  /** The members the citation list names, in the order the list display evaluates them. */
  const CitationMemberNames: seq<string> := ["SEMANTIC_SCHOLAR", "CROSSREF", "OPENALEX", "CORE", "OPENCITATIONS"]

  /** The citation list as the list display builds it: the last lookup raises. */
  function CitationProvidersAsWritten(): Result<seq<string>>
  {
    MapResult(CitationMemberNames, MemberValueFn())
  }

  lemma OpenCitationsIsNoMember()
    ensures MemberValue("OPENCITATIONS").Err?
    ensures CitationProvidersAsWritten().Err?
  {
    assert CitationMemberNames[4] == "OPENCITATIONS";
  }

  /** The citation list as evidently intended, naming the OpenCitations back-end by its registry key. */
  const CitationProviders: seq<string> := ["semantic_scholar", "crossref", "openalex", "core", "opencitations"]

  predicate IsCitationProvider(name: string)
  {
    name in CitationProviders
  }

  /** Python `min(a, b)` for a number `a` and an int `b`: `a` unless `b < a`. */
  function MinNum(a: real, b: int, aIsInt: bool): Value
  {
    if (b as real) < a then IntV(b)
    else if aIsInt then IntV(a.Floor) else RealV(a)
  }

  /** The numeric value of a limit. */
  function LimitValue(v: Value): real
  {
    match NumOf(v) case Some(x) => x case None => 0.0
  }

  lemma MinNumBound(a: real, b: int, aIsInt: bool)
    requires aIsInt ==> a == a.Floor as real
    ensures LimitValue(MinNum(a, b, aIsInt)) <= b as real
    ensures LimitValue(MinNum(a, b, aIsInt)) <= a
  {
  }

  /** The citation-mode limit of one back-end, from the common base. */
  function CitationLimit(provider: string, base: int, maxPerProvider: int): Value
  {
    if provider == "semantic_scholar" then MinNum((base * 2) as real, maxPerProvider, true)
    else if provider == "crossref" || provider == "openalex" then MinNum(base as real * 1.5, maxPerProvider, false)
    else if provider == "opencitations" then MinNum(base as real * 1.3, maxPerProvider, false)
    else IntV(base)
  }

  /** The year-mode limit of one back-end, from the common base. */
  function YearLimit(provider: string, base: int, maxPerProvider: int): Value
  {
    if provider == "arxiv" then MinNum((base * 2) as real, maxPerProvider, true)
    else if provider == "semantic_scholar" then MinNum(base as real * 1.8, maxPerProvider, false)
    else if provider == "openalex" then MinNum(base as real * 1.5, maxPerProvider, false)
    else if provider == "crossref" then MinNum(base as real * 1.3, maxPerProvider, false)
    else IntV(base)
  }

  /** How a mode sets a back-end's limit. */
  datatype LimitRule = CitationRule(base: int) | YearRule(base: int) | Uniform(n: int)

  function LimitBy(rule: LimitRule, provider: string, maxPerProvider: int): Value
  {
    match rule
    case CitationRule(base) => CitationLimit(provider, base, maxPerProvider)
    case YearRule(base) => YearLimit(provider, base, maxPerProvider)
    case Uniform(n) => IntV(n)
  }

  /** The limits dict the loop over `providers` fills in. */
  function LimitsFor(providers: seq<string>, rule: LimitRule, maxPerProvider: int): map<string, Value>
  {
    map p | p in providers :: LimitBy(rule, p, maxPerProvider)
  }

  /** The back-ends a mode uses and the rule for their limits; Err is the ZeroDivisionError of an empty selection. */
  function UsagePlan(all: seq<string>, mode: string, limit: int, aiResultLimit: int, settings: Settings): Result<(seq<string>, LimitRule)>
  {
    var maxPer := settings.maxPerProvider;
    if mode == "citations" then
      var use := Filter(all, IsCitationProvider);
      if |use| == 0 then Err("ZeroDivisionError")
      else
        var target := if aiResultLimit * 10 > 500 then aiResultLimit * 10 else 500;
        var q := target / |use|;
        Ok((use, CitationRule(if maxPer < q then maxPer else q)))
    else if mode == "year" then
      if |all| == 0 then Err("ZeroDivisionError")
      else
        var target := if aiResultLimit * 8 > 400 then aiResultLimit * 8 else 400;
        var q := target / |all|;
        Ok((all, YearRule(if maxPer < q then maxPer else q)))
    else
      Ok((all, Uniform(if maxPer < limit then maxPer else limit)))
  }

  /** What _optimize_provider_usage returns, corrected: the back-ends to call and the limit of each. */
  function ProviderUsage(all: seq<string>, mode: string, limit: int, aiResultLimit: int, settings: Settings)
    : Result<(seq<string>, map<string, Value>)>
  {
    match UsagePlan(all, mode, limit, aiResultLimit, settings)
    case Err(e) => Err(e)
    case Ok((use, rule)) => Ok((use, LimitsFor(use, rule, settings.maxPerProvider)))
  }

  /**
   * The three branches of _optimize_provider_usage as written: the citation
   * branch writes to `per_provider_limits` before assigning it, so it raises
   * (dividing by zero first when no citation back-end is registered).
   */
  function ModeBranchesAsWritten(all: seq<string>, mode: string, limit: int, aiResultLimit: int, settings: Settings)
    : Result<(seq<string>, map<string, Value>)>
  {
    if mode == "citations" then
      if Filter(all, IsCitationProvider) == [] then Err("ZeroDivisionError")
      else Err("UnboundLocalError: per_provider_limits")
    else ProviderUsage(all, mode, limit, aiResultLimit, settings)
  }

  /** As written, the citation branch raises wherever the corrected one returns limits. */
  lemma CitationModeAsWrittenRaises(all: seq<string>, limit: int, aiResultLimit: int, settings: Settings)
    requires Filter(all, IsCitationProvider) != []
    ensures ModeBranchesAsWritten(all, "citations", limit, aiResultLimit, settings).Err?
    ensures ProviderUsage(all, "citations", limit, aiResultLimit, settings).Ok?
  {
  }

  /** _optimize_provider_usage as written: the citation list is built before any branch, and its OPENCITATIONS lookup raises. */
  function ProviderUsageAsWritten(all: seq<string>, mode: string, limit: int, aiResultLimit: int, settings: Settings)
    : Result<(seq<string>, map<string, Value>)>
  {
    match CitationProvidersAsWritten()
    case Err(e) => Err(e)
    case Ok(_) => ModeBranchesAsWritten(all, mode, limit, aiResultLimit, settings)
  }

  /** As written, every call raises, whatever the mode and the registered back-ends. */
  lemma ProviderUsageAsWrittenRaises(all: seq<string>, mode: string, limit: int, aiResultLimit: int, settings: Settings)
    ensures ProviderUsageAsWritten(all, mode, limit, aiResultLimit, settings) == Err("AttributeError: OPENCITATIONS")
  {
    OpenCitationsIsNoMember();
    assert MapResult(CitationMemberNames[..4], MemberValueFn()).Ok?;
    MapResultStep(CitationMemberNames, 4, MemberValueFn());
    assert CitationMemberNames[..5] == CitationMemberNames;
  }

  /** The limit loop of a mode: one entry per selected back-end, in the order they are listed. */
  method FillLimits(use: seq<string>, rule: LimitRule, maxPerProvider: int) returns (limits: map<string, Value>)
    ensures limits == LimitsFor(use, rule, maxPerProvider)
  {
    limits := map[];
    var i := 0;
    while i < |use|
      invariant 0 <= i <= |use|
      invariant limits == LimitsFor(use[..i], rule, maxPerProvider)
    {
      assert use[..i + 1] == use[..i] + [use[i]];
      limits := limits[use[i] := LimitBy(rule, use[i], maxPerProvider)];
      i := i + 1;
    }
    assert use[..i] == use;
  }

  /** _optimize_provider_usage, corrected. */
  method OptimizeProviderUsage(all: seq<string>, mode: string, limit: int, aiResultLimit: int, settings: Settings)
    returns (r: Result<(seq<string>, map<string, Value>)>)
    ensures r == ProviderUsage(all, mode, limit, aiResultLimit, settings)
  {
    var plan := UsagePlan(all, mode, limit, aiResultLimit, settings);
    if plan.Err? {
      return Err(plan.error);
    }
    var (use, rule) := plan.value;
    var limits := FillLimits(use, rule, settings.maxPerProvider);
    return Ok((use, limits));
  }

  /**
   * Corrected, the citation mode calls exactly the registered citation
   * back-ends, the year mode and any other mode all of them; every called
   * back-end gets a limit and no other does; no limit exceeds
   * MAX_PER_PROVIDER, and outside the citation and year modes every limit
   * is `min(limit, MAX_PER_PROVIDER)`. Only an empty selection in the
   * citation or year mode raises.
   */
  lemma ProviderUsageProperties(all: seq<string>, mode: string, limit: int, aiResultLimit: int, settings: Settings)
    ensures var r := ProviderUsage(all, mode, limit, aiResultLimit, settings);
      (r.Err? <==> (mode == "citations" && Filter(all, IsCitationProvider) == []) ||
                   (mode == "year" && all == [])) &&
      (r.Ok? ==> var (use, limits) := r.value;
        (mode == "citations" ==> use == Filter(all, IsCitationProvider)) &&
        (mode != "citations" ==> use == all) &&
        limits.Keys == set p | p in use &&
        (forall p :: p in limits ==> LimitValue(limits[p]) <= settings.maxPerProvider as real) &&
        (mode != "citations" && mode != "year" ==>
          forall p :: p in limits ==> limits[p] == IntV(if settings.maxPerProvider < limit then settings.maxPerProvider else limit)))
  {
    var maxPer := settings.maxPerProvider;
    var plan := UsagePlan(all, mode, limit, aiResultLimit, settings);
    if plan.Ok? {
      var (use, rule) := plan.value;
      forall p | p in use
        ensures LimitValue(LimitBy(rule, p, maxPer)) <= maxPer as real
      {
        RuleLimitBound(rule, p, maxPer);
      }
    }
  }

  /** A rule whose base is within `maxPer` gives every back-end a limit within `maxPer`. */
  lemma RuleLimitBound(rule: LimitRule, p: string, maxPer: int)
    requires if rule.Uniform? then rule.n <= maxPer else rule.base <= maxPer
    ensures LimitValue(LimitBy(rule, p, maxPer)) <= maxPer as real
  {
    match rule
    case CitationRule(base) =>
      MinNumBound((base * 2) as real, maxPer, true);
      MinNumBound(base as real * 1.5, maxPer, false);
      MinNumBound(base as real * 1.3, maxPer, false);
    case YearRule(base) =>
      MinNumBound((base * 2) as real, maxPer, true);
      MinNumBound(base as real * 1.8, maxPer, false);
      MinNumBound(base as real * 1.5, maxPer, false);
      MinNumBound(base as real * 1.3, maxPer, false);
    case Uniform(n) =>
  }

  // ---------------------------------------------------------------- citation ranking with diversity
  // The two loops are stated over any element type, with the OpenCitations
  // test and the title reader as parameters, so that their proofs do not
  // see the paper dictionaries.

  /** `p.get('source') == 'opencitations'`. */
  predicate FromOpenCitations(p: PaperDict)
  {
    Get(p, "source", NoneV) == StrV("opencitations")
  }

  predicate NotFromOpenCitations(p: PaperDict)
  {
    !FromOpenCitations(p)
  }

  /** The entry `p.get('title', '')` takes in the set of used titles: titles Python's `==` equates share one. */
  function UsedTitle(p: PaperDict): Value
  {
    Canon(Get(p, "title", StrV("")))
  }

  /** Two papers' titles are the same used title exactly when Python's `==` holds between them. */
  lemma UsedTitleIsPyEq(p: PaperDict, q: PaperDict)
    ensures UsedTitle(p) == UsedTitle(q) <==> PyEq(Get(p, "title", StrV("")), Get(q, "title", StrV("")))
  {
    CanonPyEq(Get(p, "title", StrV("")), Get(q, "title", StrV("")));
  }

  /**
   * The places reserved for OpenCitations papers: `max(2, min(n, max(limit // 3, limit // 5)))`.
   * At least two; more only up to the number of OpenCitations papers and a third of the limit.
   */
  function ReservedPlaces(ocCount: nat, limit: int): (r: int)
    ensures 2 <= r
    ensures r == 2 || (r <= ocCount && 3 * r <= limit)
    ensures limit >= 2 ==> r <= limit
  {
    var m := if limit / 3 > limit / 5 then limit / 3 else limit / 5;
    var k := if ocCount < m then ocCount else m;
    if 2 > k then 2 else k
  }

  /** The papers the first loop has taken, and how many of each kind. */
  datatype Picks<T> = Picks(papers: seq<T>, oc: int, other: int)

  /**
   * The first loop over the ranked papers: OpenCitations papers while fewer
   * than `reserved` are taken, other papers while fewer than
   * `limit - reserved` are, and nothing once `limit` papers are taken.
   */
  function FirstPass<T>(ranked: seq<T>, limit: int, reserved: int, isOc: T -> bool): Picks<T>
  {
    if ranked == [] then Picks([], 0, 0)
    else
      var a := FirstPass(ranked[..|ranked| - 1], limit, reserved, isOc);
      var p := ranked[|ranked| - 1];
      if |a.papers| >= limit then a
      else if isOc(p) && a.oc < reserved then Picks(a.papers + [p], a.oc + 1, a.other)
      else if !isOc(p) && a.other < limit - reserved then Picks(a.papers + [p], a.oc, a.other + 1)
      else a
  }

  /** `{title(p) for p in s}`. */
  function Titles<T, U(==)>(s: seq<T>, title: T -> U): set<U>
  {
    set i | 0 <= i < |s| :: title(s[i])
  }

  /** The second loop: after `start`, every ranked paper whose title is not in `used`, until `limit` papers. */
  function FillPass<T, U(==)>(ranked: seq<T>, limit: int, used: set<U>, title: T -> U, start: seq<T>): seq<T>
  {
    if ranked == [] then start
    else
      var a := FillPass(ranked[..|ranked| - 1], limit, used, title, start);
      var p := ranked[|ranked| - 1];
      if |a| >= limit then a
      else if title(p) !in used then a + [p]
      else a
  }

  /** What the two loops leave of the ranking `all`, cut to `limit`. */
  function Diversified<T, U(==)>(all: seq<T>, limit: int, reserved: int, isOc: T -> bool, title: T -> U): seq<T>
  {
    var first := FirstPass(all, limit, reserved, isOc).papers;
    var final := if limit - |first| > 0 then FillPass(all, limit, Titles(first, title), title, first) else first;
    Slice(final, limit)
  }

  /**
   * _rank_by_citations_with_diversity over a ranking `rank(n)` of the papers
   * cut to `n`: the two loops over the ranking of twice the limit when both
   * OpenCitations and other papers are present, else the ranking itself.
   */
  function DiverseBy(papers: seq<PaperDict>, limit: int, rank: int -> Result<seq<PaperDict>>): Result<seq<PaperDict>>
  {
    DiverseWith(papers, limit, rank, FromOpenCitations, NotFromOpenCitations, ReservedPlaces, UsedTitle)
  }

  /** `DiverseBy` with the source test, its negation, the reservation rule and the title as parameters. */
  function DiverseWith<T, U(==)>(papers: seq<T>, limit: int, rank: int -> Result<seq<T>>, isOc: T -> bool, notOc: T -> bool,
                             reserve: (nat, int) -> int, title: T -> U): Result<seq<T>>
  {
    var oc := Filter(papers, isOc);
    var others := Filter(papers, notOc);
    if oc != [] && |others| > 0 then
      match rank(limit * 2)
      case Err(e) => Err(e)
      case Ok(all) => Ok(Diversified(all, limit, reserve(|oc|, limit), isOc, title))
    else rank(limit)
  }

  /** What _rank_by_citations_with_diversity returns: DiverseBy over the citation ranking. */
  function DiverseRanked(papers: seq<PaperDict>, limit: int, explain: (PaperDict, nat) -> Result<string>): Result<seq<PaperDict>>
  {
    DiverseBy(papers, limit, (n: int) => RankedByCitations(papers, n, explain))
  }

  lemma {:induction false} FirstPassSaturated<T>(s: seq<T>, i: nat, limit: int, reserved: int, isOc: T -> bool)
    requires i <= |s| && |FirstPass(s[..i], limit, reserved, isOc).papers| >= limit
    ensures FirstPass(s, limit, reserved, isOc) == FirstPass(s[..i], limit, reserved, isOc)
    decreases |s| - i
  {
    if i < |s| {
      assert s[..i + 1][..i] == s[..i];
      FirstPassSaturated(s, i + 1, limit, reserved, isOc);
    } else {
      assert s[..i] == s;
    }
  }

  lemma {:induction false} FillPassSaturated<T, U>(s: seq<T>, i: nat, limit: int, used: set<U>, title: T -> U, start: seq<T>)
    requires i <= |s| && |FillPass(s[..i], limit, used, title, start)| >= limit
    ensures FillPass(s, limit, used, title, start) == FillPass(s[..i], limit, used, title, start)
    decreases |s| - i
  {
    if i < |s| {
      assert s[..i + 1][..i] == s[..i];
      FillPassSaturated(s, i + 1, limit, used, title, start);
    } else {
      assert s[..i] == s;
    }
  }

  /** The first loop of _rank_by_citations_with_diversity, with its early exit at `limit`. */
  method PickReserved(all: seq<PaperDict>, limit: int, reserved: int) returns (picks: Picks<PaperDict>)
    ensures picks == FirstPass(all, limit, reserved, FromOpenCitations)
  {
    var final: seq<PaperDict> := [];
    var ocUsed := 0;
    var otherUsed := 0;
    var i := 0;
    while i < |all|
      invariant 0 <= i <= |all|
      invariant FirstPass(all[..i], limit, reserved, FromOpenCitations) == Picks(final, ocUsed, otherUsed)
    {
      if |final| >= limit {
        FirstPassSaturated(all, i, limit, reserved, FromOpenCitations);
        break;
      }
      assert all[..i + 1][..i] == all[..i];
      var isOc := FromOpenCitations(all[i]);
      if isOc && ocUsed < reserved {
        final := final + [all[i]];
        ocUsed := ocUsed + 1;
      } else if !isOc && otherUsed < limit - reserved {
        final := final + [all[i]];
        otherUsed := otherUsed + 1;
      }
      i := i + 1;
    }
    if i == |all| {
      assert all[..i] == all;
    }
    picks := Picks(final, ocUsed, otherUsed);
  }

  /** The second loop of _rank_by_citations_with_diversity, with its early exit at `limit`. */
  method FillRemaining(all: seq<PaperDict>, limit: int, used: set<Value>, start: seq<PaperDict>) returns (final: seq<PaperDict>)
    ensures final == FillPass(all, limit, used, UsedTitle, start)
  {
    final := start;
    var j := 0;
    while j < |all|
      invariant 0 <= j <= |all|
      invariant FillPass(all[..j], limit, used, UsedTitle, start) == final
    {
      if |final| >= limit {
        FillPassSaturated(all, j, limit, used, UsedTitle, start);
        break;
      }
      assert all[..j + 1][..j] == all[..j];
      if UsedTitle(all[j]) !in used {
        final := final + [all[j]];
      }
      j := j + 1;
    }
    if j == |all| {
      assert all[..j] == all;
    }
  }

  /** _rank_by_citations_with_diversity: the two loops over the citation ranking of twice the limit. */
  method RankByCitationsWithDiversity(papers: seq<PaperDict>, limit: int, explain: (PaperDict, nat) -> Result<string>)
    returns (r: Result<seq<PaperDict>>)
    ensures r == DiverseRanked(papers, limit, explain)
  {
    var oc := Filter(papers, FromOpenCitations);
    var others := Filter(papers, NotFromOpenCitations);
    if !(oc != [] && |others| > 0) {
      r := RankByCitations(papers, limit, explain);
      return;
    }
    var ranked := RankByCitations(papers, limit * 2, explain);
    if ranked.Err? {
      return Err(ranked.error);
    }
    var all := ranked.value;
    assert DiverseRanked(papers, limit, explain) ==
      Ok(Diversified(all, limit, ReservedPlaces(|oc|, limit), FromOpenCitations, UsedTitle));
    var picks := PickReserved(all, limit, ReservedPlaces(|oc|, limit));
    var final := picks.papers;
    if limit - |final| > 0 {
      final := FillRemaining(all, limit, Titles(final, UsedTitle), final);
    }
    r := Ok(Slice(final, limit));
  }

  function Min(a: int, b: int): int
  {
    if a < b then a else b
  }

  /**
   * When the reservation fits in the limit, the first loop takes the first
   * `reserved` OpenCitations papers (or all of them) and the first
   * `limit - reserved` others (or all of them).
   */
  lemma {:induction false} FirstPassCounts<T>(s: seq<T>, limit: int, reserved: int, isOc: T -> bool)
    requires 0 <= reserved <= limit
    ensures var a := FirstPass(s, limit, reserved, isOc);
      a.oc == Min(reserved, |Filter(s, isOc)|) && a.other == Min(limit - reserved, |s| - |Filter(s, isOc)|) &&
      |a.papers| == a.oc + a.other
    decreases |s|
  {
    if s != [] {
      var init := s[..|s| - 1];
      var p := s[|s| - 1];
      FirstPassCounts(init, limit, reserved, isOc);
      var a := FirstPass(init, limit, reserved, isOc);
      assert s == init + [p];
      FilterSnoc(init, p, isOc);
      var r := FirstPass(s, limit, reserved, isOc);
      if |a.papers| >= limit {
        // both kinds are already at their caps
        assert a.oc == reserved && a.other == limit - reserved;
        assert r == a;
      } else if isOc(p) && a.oc < reserved {
        assert r == Picks(a.papers + [p], a.oc + 1, a.other);
      } else if !isOc(p) && a.other < limit - reserved {
        assert r == Picks(a.papers + [p], a.oc, a.other + 1);
      } else {
        assert r == a;
      }
    }
  }

  /** The first loop's papers are taken in ranking order, and `oc` counts those that pass `isOc`. */
  lemma {:induction false} FirstPassKinds<T>(s: seq<T>, limit: int, reserved: int, isOc: T -> bool)
    ensures var a := FirstPass(s, limit, reserved, isOc);
      |Filter(a.papers, isOc)| == a.oc && SubseqOf(a.papers, s)
    decreases |s|
  {
    if s != [] {
      var init := s[..|s| - 1];
      var p := s[|s| - 1];
      FirstPassKinds(init, limit, reserved, isOc);
      var a := FirstPass(init, limit, reserved, isOc);
      assert init + [p] == s;
      SubseqExtend(a.papers, init, p);
      if FirstPass(s, limit, reserved, isOc) != a {
        FilterSnoc(a.papers, p, isOc);
        SubseqAppendBoth(a.papers, init, p);
      }
    }
  }

  /** The second loop keeps what the first took, stops at `limit`, and adds only ranked papers whose title is unused. */
  lemma {:induction false} FillPassShape<T, U>(s: seq<T>, limit: int, used: set<U>, title: T -> U, start: seq<T>)
    ensures var r := FillPass(s, limit, used, title, start);
      start <= r && (|start| <= limit ==> |r| <= limit) &&
      forall i :: |start| <= i < |r| ==> (r[i] in s && title(r[i]) !in used)
    decreases |s|
  {
    if s != [] {
      var init := s[..|s| - 1];
      FillPassShape(init, limit, used, title, start);
      var a := FillPass(init, limit, used, title, start);
      forall i | |start| <= i < |a|
        ensures a[i] in s
      {
        assert a[i] in init;
      }
    }
  }

  /** Extending a list adds to neither count negatively: both kinds can only grow. */
  lemma ExtendedCounts<T>(first: seq<T>, final: seq<T>, isOc: T -> bool)
    requires first <= final
    ensures |Filter(final, isOc)| >= |Filter(first, isOc)|
    ensures |final| - |Filter(final, isOc)| >= |first| - |Filter(first, isOc)|
  {
    assert final == first + final[|first|..];
    FilterAppend(first, final[|first|..], isOc);
  }

  /** What the first loop took, extended by the second. */
  lemma DiversifiedExtends<T, U>(all: seq<T>, limit: int, reserved: int, isOc: T -> bool, title: T -> U)
    requires 0 <= reserved <= limit
    ensures var first := FirstPass(all, limit, reserved, isOc).papers;
      var r := Diversified(all, limit, reserved, isOc, title);
      first <= r && |r| <= limit && (forall i :: |first| <= i < |r| ==> r[i] in all)
  {
    FirstPassCounts(all, limit, reserved, isOc);
    var first := FirstPass(all, limit, reserved, isOc).papers;
    FillPassShape(all, limit, Titles(first, title), title, first);
  }

  /**
   * The two loops return at most `limit` papers of the ranking, of which at
   * least min(reserved, available) pass `isOc` and at least
   * min(limit - reserved, available) do not.
   */
  lemma DiversifiedShape<T, U>(all: seq<T>, limit: int, reserved: int, isOc: T -> bool, title: T -> U)
    requires 0 <= reserved <= limit
    ensures var r := Diversified(all, limit, reserved, isOc, title);
      |r| <= limit && (forall q :: q in r ==> q in all) &&
      |Filter(r, isOc)| >= Min(reserved, |Filter(all, isOc)|) &&
      |r| - |Filter(r, isOc)| >= Min(limit - reserved, |all| - |Filter(all, isOc)|)
  {
    var first := FirstPass(all, limit, reserved, isOc).papers;
    var r := Diversified(all, limit, reserved, isOc, title);
    FirstPassCounts(all, limit, reserved, isOc);
    FirstPassKinds(all, limit, reserved, isOc);
    DiversifiedExtends(all, limit, reserved, isOc, title);
    ExtendedCounts(first, r, isOc);
    SubseqMembers(first, all);
    forall q | q in r
      ensures q in all
    {
      var i :| 0 <= i < |r| && r[i] == q;
      if i < |first| {
        assert first[i] == q;
      }
    }
  }

  /**
   * _rank_by_citations_with_diversity without both OpenCitations and other
   * papers is the plain ranking; with both it fails exactly when the
   * ranking of twice the limit fails.
   */
  lemma DiverseByFallback(papers: seq<PaperDict>, limit: int, rank: int -> Result<seq<PaperDict>>)
    ensures !(Filter(papers, FromOpenCitations) != [] && Filter(papers, NotFromOpenCitations) != []) ==>
      DiverseBy(papers, limit, rank) == rank(limit)
    ensures Filter(papers, FromOpenCitations) != [] && Filter(papers, NotFromOpenCitations) != [] ==>
      (DiverseBy(papers, limit, rank).Ok? <==> rank(limit * 2).Ok?)
  {
  }

  /**
   * With both kinds present and a limit of at least 2, the result holds at
   * most `limit` papers of the ranking of twice the limit, among which at
   * least min(reserved, available) are from OpenCitations and at least
   * min(limit - reserved, available) are not.
   */
  lemma DiverseByShares(papers: seq<PaperDict>, limit: int, rank: int -> Result<seq<PaperDict>>, all: seq<PaperDict>)
    requires Filter(papers, FromOpenCitations) != [] && Filter(papers, NotFromOpenCitations) != []
    requires rank(limit * 2) == Ok(all) && limit >= 2
    ensures DiverseBy(papers, limit, rank).Ok?
    ensures Shares(DiverseBy(papers, limit, rank).value, all, limit, ReservedPlaces(|Filter(papers, FromOpenCitations)|, limit), FromOpenCitations)
  {
    var reserved := ReservedPlaces(|Filter(papers, FromOpenCitations)|, limit);
    DiverseWithShares(papers, limit, rank, all, FromOpenCitations, NotFromOpenCitations, ReservedPlaces, UsedTitle, reserved);
  }

  /**
   * `r` holds at most `limit` papers of `all`, among which at least
   * min(reserved, available) pass `isOc` and at least
   * min(limit - reserved, available) do not.
   */
  ghost predicate Shares<T>(r: seq<T>, all: seq<T>, limit: int, reserved: int, isOc: T -> bool)
  {
    var ocAll := |Filter(all, isOc)|;
    var ocKept := |Filter(r, isOc)|;
    |r| <= limit && (forall q :: q in r ==> q in all) &&
    ocKept >= Min(reserved, ocAll) && |r| - ocKept >= Min(limit - reserved, |all| - ocAll)
  }

  lemma DiverseWithShares<T, U>(papers: seq<T>, limit: int, rank: int -> Result<seq<T>>, all: seq<T>, isOc: T -> bool,
                                notOc: T -> bool, reserve: (nat, int) -> int, title: T -> U, reserved: int)
    requires Filter(papers, isOc) != [] && Filter(papers, notOc) != []
    requires rank(limit * 2) == Ok(all) && reserved == reserve(|Filter(papers, isOc)|, limit) && 0 <= reserved <= limit
    ensures DiverseWith(papers, limit, rank, isOc, notOc, reserve, title).Ok?
    ensures Shares(DiverseWith(papers, limit, rank, isOc, notOc, reserve, title).value, all, limit, reserved, isOc)
  {
    DiversifiedShape(all, limit, reserved, isOc, title);
  }
}
