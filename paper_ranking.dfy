// PaperRankingService.rank_by_citations and rank_by_year
// (ai_scholar/services/paper_ranking_service.py). PaperService repeats both,
// line for line, as _rank_by_citations and _rank_by_year
// (ai_scholar/services/paper_service.py), so one model covers the two copies.
//
// Both rankings sort, cut to `limit`, then write an `explanation` into each
// kept paper. Only the head of an explanation ("Ranked #n ...") is modelled;
// the rest of the sentence is the parameter `tail`. What is modelled in full
// is where building an explanation raises.

module PaperRanking {
  import opened Base
  import opened Text
  import opened Values
  import opened Lists
  import opened Sorting

  const CurrentYear: int := 2025

  // ---------------------------------------------------------------- explanations in rank order

  /** `paper['explanation'] = e`. */
  function Explained(p: PaperDict, e: string): PaperDict
  {
    p["explanation" := StrV(e)]
  }

  /**
   * The explanation loop over the kept papers: paper i gets the explanation
   * for rank i + 1; the first explanation that raises ends the ranking.
   */
  function ExplainAll(top: seq<PaperDict>, explain: (PaperDict, nat) -> Result<string>): (r: Result<seq<PaperDict>>)
    ensures r.Ok? <==> forall i :: 0 <= i < |top| ==> explain(top[i], i + 1).Ok?
    ensures r.Ok? ==> |r.value| == |top|
    ensures r.Ok? ==> forall i :: 0 <= i < |top| ==> r.value[i] == Explained(top[i], explain(top[i], i + 1).value)
  {
    if top == [] then Ok([])
    else
      var n := |top|;
      match ExplainAll(top[..n - 1], explain)
      case Err(e) => Err(e)
      case Ok(u) =>
        match explain(top[n - 1], n)
        case Err(e) => Err(e)
        case Ok(x) => Ok(u + [Explained(top[n - 1], x)])
  }

  lemma ExplainAllStep(top: seq<PaperDict>, i: nat, explain: (PaperDict, nat) -> Result<string>)
    requires i < |top|
    ensures ExplainAll(top[..i + 1], explain) ==
      match ExplainAll(top[..i], explain)
      case Err(e) => Err(e)
      case Ok(u) =>
        match explain(top[i], i + 1)
        case Err(e) => Err(e)
        case Ok(x) => Ok(u + [Explained(top[i], x)])
  {
    assert top[..i + 1][..i] == top[..i];
  }

  /** Once a prefix raises, the whole loop raises the same error. */
  lemma {:induction false} ExplainAllErrPrefix(top: seq<PaperDict>, i: nat, explain: (PaperDict, nat) -> Result<string>)
    requires i <= |top| && ExplainAll(top[..i], explain).Err?
    ensures ExplainAll(top, explain) == ExplainAll(top[..i], explain)
    decreases |top| - i
  {
    if i < |top| {
      ExplainAllStep(top, i, explain);
      ExplainAllErrPrefix(top, i + 1, explain);
    } else {
      assert top[..i] == top;
    }
  }

  /** `for i, paper in enumerate(top): paper['explanation'] = ...(rank=i + 1)`. */
  method WriteExplanations(top: seq<PaperDict>, explain: (PaperDict, nat) -> Result<string>)
    returns (r: Result<seq<PaperDict>>)
    ensures r == ExplainAll(top, explain)
  {
    var out: seq<PaperDict> := [];
    var i := 0;
    while i < |top|
      invariant 0 <= i <= |top|
      invariant ExplainAll(top[..i], explain) == Ok(out)
    {
      ExplainAllStep(top, i, explain);
      var e := explain(top[i], i + 1);
      if e.Err? {
        ExplainAllErrPrefix(top, i + 1, explain);
        return Err(e.error);
      }
      out := out + [Explained(top[i], e.value)];
      i := i + 1;
    }
    assert top[..i] == top;
    return Ok(out);
  }

  /** Python's `f"{n:,}"`: decimal digits in groups of three separated by commas. */
  function Thousands(n: nat): string
    decreases n
  {
    if n < 1000 then NatToString(n)
    else
      var d := n % 1000;
      Thousands(n / 1000) + [',', Digit(d / 100), Digit(d / 10 % 10), Digit(d % 10)]
  }

  function Digit(d: nat): char
    requires d < 10
  {
    ('0' as int + d) as char
  }

  /** "Ranked #n": the head every explanation starts with. */
  function RankHead(rank: nat): string
  {
    "Ranked #" + NatToString(rank)
  }

  // ---------------------------------------------------------------- ranking by citations

  /**
   * get_citations: `paper.get('citations') or paper.get('citation') or 0`;
   * 'N/A' and anything int() rejects count as 0.
   */
  function CitationValue(p: PaperDict): Value
  {
    var c := Get(p, "citations", NoneV);
    if Truthy(c) then c
    else
      var d := Get(p, "citation", NoneV);
      if Truthy(d) then d else IntV(0)
  }

  function CitationCount(p: PaperDict): int
  {
    var c := CitationValue(p);
    if c == StrV("N/A") then 0
    else match PyInt(c) case Some(n) => n case None => 0
  }

  /** The count reads `citations` first, falls back to `citation`, and maps 'N/A' and missing data to 0. */
  lemma CitationCountReads(p: PaperDict)
    ensures "citations" in p && p["citations"].IntV? && p["citations"].i != 0 ==> CitationCount(p) == p["citations"].i
    ensures !Truthy(Get(p, "citations", NoneV)) && "citation" in p && p["citation"].IntV? ==> CitationCount(p) == p["citation"].i
    ensures !Truthy(Get(p, "citations", NoneV)) && !Truthy(Get(p, "citation", NoneV)) ==> CitationCount(p) == 0
    ensures Get(p, "citations", NoneV) == StrV("N/A") ==> CitationCount(p) == 0
  {
  }

  predicate IsCited(p: PaperDict)
  {
    CitationCount(p) > 0
  }

  predicate IsUncited(p: PaperDict)
  {
    !IsCited(p)
  }

  function CitationKey(p: PaperDict): Key
  {
    NumKey(CitationCount(p) as real)
  }

  /**
   * The key of an uncited paper: `p.get('year', 0)` itself when
   * `str(...).isdigit()`, else the int 0. A digit string stays a string, a
   * non-negative int stays an int.
   */
  datatype YearKey = IntYear(n: int) | StrYear(s: string)

  function UncitedYearKey(p: PaperDict): YearKey
  {
    var y := Get(p, "year", IntV(0));
    if !IsDigits(PyStr(y)) then IntYear(0)
    else match y
      case IntV(n) => IntYear(n)
      case StrV(s) => StrYear(s)
      case _ => IntYear(0)
  }

  function UncitedKey(p: PaperDict): Key
  {
    match UncitedYearKey(p)
    case IntYear(n) => NumKey(n as real)
    case StrYear(s) => Key(0.0, 0, s)
  }

  /**
   * Python cannot order an int key against a str key: sorting raises
   * TypeError exactly when both kinds occur (a finished sort has compared
   * every pair of neighbours, and some neighbours would differ in kind).
   */
  predicate MixedYearKeys(u: seq<PaperDict>)
  {
    (exists i :: 0 <= i < |u| && UncitedYearKey(u[i]).StrYear?) &&
    (exists j :: 0 <= j < |u| && UncitedYearKey(u[j]).IntYear?)
  }

  /**
   * The ranked list before explanations: cited papers by descending count;
   * when fewer than `limit` are cited, uncited papers by descending year
   * fill the remaining places; the whole cut to `limit`.
   */
  function CitationOrdered(papers: seq<PaperDict>, limit: int): Result<seq<PaperDict>>
  {
    PartsOrdered(Filter(papers, IsCited), Filter(papers, IsUncited), limit)
  }

  /** CitationOrdered once the papers are split into the cited and the uncited ones. */
  function PartsOrdered(cited: seq<PaperDict>, uncited: seq<PaperDict>, limit: int): Result<seq<PaperDict>>
  {
    var sortedCited := SortDesc(cited, CitationKey);
    if |sortedCited| < limit && uncited != [] then
      if MixedYearKeys(uncited) then Err("TypeError: '<' not supported between 'str' and 'int'")
      else Ok(Slice(sortedCited + Slice(SortDesc(uncited, UncitedKey), limit - |sortedCited|), limit))
    else Ok(Slice(sortedCited, limit))
  }

  /** What rank_by_citations returns, with `explain` building each explanation. */
  function RankedByCitations(papers: seq<PaperDict>, limit: int, explain: (PaperDict, nat) -> Result<string>): Result<seq<PaperDict>>
  {
    match CitationOrdered(papers, limit)
    case Err(e) => Err(e)
    case Ok(top) => ExplainAll(top, explain)
  }

  /** rank_by_citations / _rank_by_citations: partition loop, two sorts, explanation loop. */
  method RankByCitations(papers: seq<PaperDict>, limit: int, explain: (PaperDict, nat) -> Result<string>)
    returns (r: Result<seq<PaperDict>>)
    ensures r == RankedByCitations(papers, limit, explain)
  {
    var ordered := OrderByCitations(papers, limit);
    if ordered.Err? {
      return Err(ordered.error);
    }
    r := WriteExplanations(ordered.value, explain);
  }

  /** The partition loop and the two sorts of rank_by_citations, before the explanations. */
  method OrderByCitations(papers: seq<PaperDict>, limit: int) returns (r: Result<seq<PaperDict>>)
    ensures r == CitationOrdered(papers, limit)
  {
    var withCitations, withoutCitations := SplitByCitations(papers);
    r := OrderParts(withCitations, withoutCitations, limit);
  }

  /** The two sorts of rank_by_citations and the cut to `limit`. */
  method OrderParts(withCitations: seq<PaperDict>, withoutCitations: seq<PaperDict>, limit: int)
    returns (r: Result<seq<PaperDict>>)
    ensures r == PartsOrdered(withCitations, withoutCitations, limit)
  {
    var sortedCited := SortDesc(withCitations, CitationKey);
    var sortedPapers := sortedCited;
    if |sortedCited| < limit && withoutCitations != [] {
      if MixedYearKeys(withoutCitations) {
        return Err("TypeError: '<' not supported between 'str' and 'int'");
      }
      sortedPapers := sortedCited + Slice(SortDesc(withoutCitations, UncitedKey), limit - |sortedCited|);
    }
    r := Ok(Slice(sortedPapers, limit));
  }

  /** The partition loop of rank_by_citations: papers with a positive count, and the others, each in input order. */
  method SplitByCitations(papers: seq<PaperDict>) returns (withCitations: seq<PaperDict>, withoutCitations: seq<PaperDict>)
    ensures withCitations == Filter(papers, IsCited) && withoutCitations == Filter(papers, IsUncited)
  {
    withCitations := [];
    withoutCitations := [];
    var i := 0;
    while i < |papers|
      invariant 0 <= i <= |papers|
      invariant withCitations == Filter(papers[..i], IsCited)
      invariant withoutCitations == Filter(papers[..i], IsUncited)
    {
      FilterStep(papers, i, IsCited);
      FilterStep(papers, i, IsUncited);
      if CitationCount(papers[i]) > 0 {
        withCitations := withCitations + [papers[i]];
      } else {
        withoutCitations := withoutCitations + [papers[i]];
      }
      i := i + 1;
    }
    assert papers[..i] == papers;
  }

  lemma {:induction false} PartitionLength(papers: seq<PaperDict>)
    ensures |Filter(papers, IsCited)| + |Filter(papers, IsUncited)| == |papers|
    decreases |papers|
  {
    if papers != [] {
      PartitionLength(papers[..|papers| - 1]);
    }
  }

  /** With a non-negative limit the ranking holds min(limit, len(papers)) papers. */
  lemma CitationOrderedLength(papers: seq<PaperDict>, limit: int)
    requires limit >= 0 && CitationOrdered(papers, limit).Ok?
    ensures |CitationOrdered(papers, limit).value| == if |papers| < limit then |papers| else limit
  {
    PartitionLength(papers);
  }

  /** In `top`, the elements satisfying `keep` come first, in non-increasing key order. */
  predicate KeptFirst(top: seq<PaperDict>, keep: PaperDict -> bool, key: PaperDict -> Key)
  {
    forall i, j :: 0 <= i < j < |top| && keep(top[j]) ==> keep(top[i]) && KeyGe(key(top[i]), key(top[j]))
  }

  /**
   * Cutting `front + back` to `n`, where the front is sorted and satisfies
   * `keep` and the back does not: `keep` elements come first, in key order.
   */
  lemma FrontFirst(front: seq<PaperDict>, back: seq<PaperDict>, n: int, keep: PaperDict -> bool, key: PaperDict -> Key)
    requires SortedDesc(front, key)
    requires forall k :: 0 <= k < |front| ==> keep(front[k])
    requires forall k :: 0 <= k < |back| ==> !keep(back[k])
    ensures KeptFirst(Slice(front + back, n), keep, key)
    ensures forall x :: x in Slice(front + back, n) ==> x in front || x in back
  {
    var top := Slice(front + back, n);
    assert top == (front + back)[..|top|];
    forall i | 0 <= i < |top|
      ensures (i < |front| ==> top[i] == front[i]) && (i >= |front| ==> top[i] == back[i - |front|])
    {
    }
    forall x | x in top
      ensures x in front || x in back
    {
      var i :| 0 <= i < |top| && top[i] == x;
      if i >= |front| {
        assert back[i - |front|] in back;
      }
    }
  }

  /** FrontFirst for the two sorted halves of a partition. */
  lemma PartitionFrontFirst(s: seq<PaperDict>, keep: PaperDict -> bool, drop: PaperDict -> bool,
                            key: PaperDict -> Key, backKey: PaperDict -> Key, n: int, m: int, withBack: bool)
    requires forall x :: drop(x) ==> !keep(x)
    ensures var front := SortDesc(Filter(s, keep), key);
      var back := if withBack then Slice(SortDesc(Filter(s, drop), backKey), m) else [];
      KeptFirst(Slice(front + back, n), keep, key) && forall x :: x in Slice(front + back, n) ==> x in s
  {
    var front := SortDesc(Filter(s, keep), key);
    var back := if withBack then Slice(SortDesc(Filter(s, drop), backKey), m) else [];
    FilterMembers(s, keep);
    FilterMembers(s, drop);
    SortDescMembers(Filter(s, keep), key);
    SortDescSorted(Filter(s, keep), key);
    SortDescMembers(Filter(s, drop), backKey);
    forall k | 0 <= k < |back|
      ensures !keep(back[k]) && back[k] in s
    {
      assert back[k] in SortDesc(Filter(s, drop), backKey);
    }
    forall k | 0 <= k < |front|
      ensures keep(front[k]) && front[k] in s
    {
      assert front[k] in front;
    }
    FrontFirst(front, back, n, keep, key);
  }

  /**
   * Cited papers come before uncited ones and in non-increasing citation
   * order, and every ranked paper is an input paper.
   */
  lemma CitationOrderedShape(papers: seq<PaperDict>, limit: int)
    requires CitationOrdered(papers, limit).Ok?
    ensures KeptFirst(CitationOrdered(papers, limit).value, IsCited, CitationKey)
    ensures forall q :: q in CitationOrdered(papers, limit).value ==> q in papers
  {
    var sc := SortDesc(Filter(papers, IsCited), CitationKey);
    var uncited := Filter(papers, IsUncited);
    var withBack := |sc| < limit && uncited != [];
    var back := if withBack then Slice(SortDesc(uncited, UncitedKey), limit - |sc|) else [];
    if withBack {
      assert CitationOrdered(papers, limit).value == Slice(sc + back, limit);
    } else {
      assert sc + back == sc;
    }
    PartitionFrontFirst(papers, IsCited, IsUncited, CitationKey, UncitedKey, limit, limit - |sc|, withBack);
  }

  /** When at most `limit` papers are cited, every cited paper is ranked. */
  lemma CitationOrderedKeepsCited(papers: seq<PaperDict>, limit: int, q: PaperDict)
    requires CitationOrdered(papers, limit).Ok?
    requires q in papers && IsCited(q) && |Filter(papers, IsCited)| <= limit
    ensures q in CitationOrdered(papers, limit).value
  {
    var cited := Filter(papers, IsCited);
    var sc := SortDesc(cited, CitationKey);
    FilterMembers(papers, IsCited);
    SortDescMembers(cited, CitationKey);
    var top := CitationOrdered(papers, limit).value;
    var k :| 0 <= k < |sc| && sc[k] == q;
    assert top[k] == q;
  }

  /** Ranking fails only on mixed int and str year keys among the uncited papers it needs. */
  lemma CitationOrderedRaises(papers: seq<PaperDict>, limit: int)
    ensures CitationOrdered(papers, limit).Err? <==>
      |Filter(papers, IsCited)| < limit && MixedYearKeys(Filter(papers, IsUncited))
  {
  }

  // ---------------------------------------------------------------- citation explanations

  /**
   * `authors and ',' in authors` then `authors.split(',')`: a truthy
   * number is not iterable, and a list or dict that holds ',' has no split.
   */
  predicate AuthorsRaise(a: Value)
  {
    match a
    case NoneV => false
    case StrV(_) => false
    case ListV(xs) => StrV(",") in xs
    case DictV(m) => "," in m
    case _ => Truthy(a)
  }

  predicate MentionsRecentYear(title: string)
  {
    Contains(Lower(title), "2024") || Contains(Lower(title), "2025")
  }

  /**
   * How the recent-contribution note reads the year: as written it calls
   * `int(year)` with no `try`; the corrected reading treats a year int()
   * rejects as not recent, as the `try` around the earlier `int(year)` does.
   */
  datatype YearReading = AsWritten | Corrected

  /** Where _generate_citation_explanation raises, in the order it gets there. */
  function CitationExplanationError(p: PaperDict, reading: YearReading): Option<string>
  {
    var title := Get(p, "title", StrV(""));
    var abstr := Get(p, "abstract", StrV(""));
    var year := Get(p, "year", StrV(""));
    if !title.StrV? then Some("AttributeError: title.lower()")
    else if AuthorsRaise(Get(p, "authors", StrV(""))) then Some("TypeError: authors.split(',')")
    else if Truthy(abstr) && !abstr.StrV? then Some("AttributeError: abstract.lower()")
    else if reading == AsWritten && CitationCount(p) <= 0 && !MentionsRecentYear(title.s) &&
            Truthy(year) && PyInt(year).None?
    then Some("ValueError: int(year)")
    else None
  }

  function CitationHead(rank: nat, citations: int): string
  {
    if citations > 0 then RankHead(rank) + " with " + Thousands(citations) + " citations"
    else RankHead(rank) + " (limited citation data available)"
  }

  /** _generate_citation_explanation: the head, then `tail` for the rest of the sentence. */
  function CitationExplanation(p: PaperDict, rank: nat, tail: (PaperDict, nat) -> string, reading: YearReading): Result<string>
  {
    match CitationExplanationError(p, reading)
    case Some(e) => Err(e)
    case None => Ok(CitationHead(rank, CitationCount(p)) + tail(p, rank))
  }

  function CitationExplainer(tail: (PaperDict, nat) -> string, reading: YearReading): (PaperDict, nat) -> Result<string>
  {
    (p: PaperDict, rank: nat) => CitationExplanation(p, rank, tail, reading)
  }

  /** Every explanation `explain` builds for rank n starts with `head(n)`. */
  ghost predicate HeadsWith(explain: (PaperDict, nat) -> Result<string>, head: nat -> string)
  {
    forall p, rank :: explain(p, rank).Ok? ==> StartsWith(explain(p, rank).value, head(rank))
  }

  lemma ExplainAllHeads(top: seq<PaperDict>, explain: (PaperDict, nat) -> Result<string>, head: nat -> string)
    requires HeadsWith(explain, head) && ExplainAll(top, explain).Ok?
    ensures var r := ExplainAll(top, explain).value;
      forall i :: 0 <= i < |r| ==> r[i]["explanation"].StrV? && StartsWith(r[i]["explanation"].s, head(i + 1))
  {
    var r: seq<PaperDict> := ExplainAll(top, explain).value;
    forall i | 0 <= i < |r|
      ensures r[i]["explanation"].StrV? && StartsWith(r[i]["explanation"].s, head(i + 1))
    {
      assert r[i] == Explained(top[i], explain(top[i], i + 1).value);
    }
  }

  lemma PrefixOfConcat(a: string, b: string, c: string)
    ensures StartsWith(a + b + c, a)
  {
    assert (a + b + c)[..|a|] == a;
  }

  lemma CitationExplanationHead(p: PaperDict, rank: nat, tail: (PaperDict, nat) -> string, reading: YearReading)
    requires CitationExplanation(p, rank, tail, reading).Ok?
    ensures StartsWith(CitationExplanation(p, rank, tail, reading).value, RankHead(rank))
  {
    CitationHeadStarts(rank, CitationCount(p), tail(p, rank));
  }

  lemma CitationHeadStarts(rank: nat, c: int, t: string)
    ensures StartsWith(CitationHead(rank, c) + t, RankHead(rank))
  {
    var h := RankHead(rank);
    if c > 0 {
      var mid := " with " + Thousands(c) + " citations";
      assert CitationHead(rank, c) + t == h + mid + t;
      PrefixOfConcat(h, mid, t);
    } else {
      PrefixOfConcat(h, " (limited citation data available)", t);
    }
  }

  /** Each ranked paper's explanation starts "Ranked #n", n its 1-based place. */
  lemma RankedByCitationsHeads(papers: seq<PaperDict>, limit: int, tail: (PaperDict, nat) -> string, reading: YearReading)
    requires RankedByCitations(papers, limit, CitationExplainer(tail, reading)).Ok?
    ensures var r := RankedByCitations(papers, limit, CitationExplainer(tail, reading)).value;
      forall i :: 0 <= i < |r| ==> r[i]["explanation"].StrV? && StartsWith(r[i]["explanation"].s, RankHead(i + 1))
  {
    var explain := CitationExplainer(tail, reading);
    forall p, rank | explain(p, rank).Ok?
      ensures StartsWith(explain(p, rank).value, RankHead(rank))
    {
      CitationExplanationHead(p, rank, tail, reading);
    }
    ExplainAllHeads(CitationOrdered(papers, limit).value, explain, RankHead);
  }

  /** Text fields as the providers write them: missing or strings. */
  predicate StringFields(p: PaperDict)
  {
    Get(p, "title", StrV("")).StrV? && Get(p, "authors", StrV("")).StrV? && Get(p, "abstract", StrV("")).StrV?
  }

  /** The paper of the counterexample below. */
  function UnknownYearPaper(): PaperDict
  {
    map["title" := StrV("Graphs"), "year" := StrV("Unknown")]
  }

  lemma UnknownYearPaperRanked()
    ensures CitationOrdered([UnknownYearPaper()], 1) == Ok([UnknownYearPaper()])
  {
    var p := UnknownYearPaper();
    assert CitationCount(p) == 0;
    assert !IsDigits("Unknown") by { assert !IsDigit("Unknown"[0]); }
    assert UncitedYearKey(p) == IntYear(0);
    assert Filter([p], IsCited) == [];
    assert Filter([p], IsUncited) == [p];
  }

  lemma UnknownIsNotInt()
    ensures PyInt(StrV("Unknown")).None?
  {
    var u := "Unknown";
    StripOfNonSpaceEnds(u);
    ParseIntOfWord(u);
  }

  lemma GraphsLower()
    ensures Lower("Graphs") == "graphs"
  {
  }

  lemma GraphsNotRecent()
    ensures !MentionsRecentYear("Graphs")
  {
    GraphsLower();
    assert !Contains("graphs", "2024");
    assert !Contains("graphs", "2025");
  }

  lemma UnknownYearPaperFields()
    ensures var p := UnknownYearPaper();
      Get(p, "title", StrV("")) == StrV("Graphs") && Get(p, "year", StrV("")) == StrV("Unknown") &&
      Get(p, "authors", StrV("")) == StrV("") && Get(p, "abstract", StrV("")) == StrV("") &&
      CitationCount(p) == 0
  {
  }

  /** The as-written note raises on an uncited paper whose year is truthy, not recent-looking and rejected by int(). */
  lemma IntYearRaises(p: PaperDict)
    requires Get(p, "title", StrV("")).StrV? && !AuthorsRaise(Get(p, "authors", StrV("")))
    requires !Truthy(Get(p, "abstract", StrV("")))
    requires CitationCount(p) <= 0 && !MentionsRecentYear(Get(p, "title", StrV("")).s)
    requires Truthy(Get(p, "year", StrV(""))) && PyInt(Get(p, "year", StrV(""))).None?
    ensures CitationExplanationError(p, AsWritten) == Some("ValueError: int(year)")
  {
  }

  lemma UnknownYearPaperRaises()
    ensures CitationExplanationError(UnknownYearPaper(), AsWritten).Some?
  {
    UnknownYearPaperFields();
    UnknownIsNotInt();
    GraphsNotRecent();
    IntYearRaises(UnknownYearPaper());
  }

  /**
   * As written, one uncited paper whose year int() rejects (the 'Unknown'
   * the arXiv, CORE and Semantic Scholar adapters write) makes the whole
   * ranking raise.
   */
  lemma UnknownYearRaises(tail: (PaperDict, nat) -> string)
    ensures StringFields(UnknownYearPaper())
    ensures RankedByCitations([UnknownYearPaper()], 1, CitationExplainer(tail, AsWritten)).Err?
  {
    UnknownYearPaperRanked();
    UnknownYearPaperRaises();
  }

  /** Corrected, the explanation of a paper whose text fields are strings never raises. */
  lemma CorrectedExplanationTotal(p: PaperDict, rank: nat, tail: (PaperDict, nat) -> string)
    requires StringFields(p)
    ensures CitationExplanation(p, rank, tail, Corrected).Ok?
  {
  }

  /** `explain` succeeds on every paper `ok` accepts, whatever the rank. */
  ghost predicate TotalOn(explain: (PaperDict, nat) -> Result<string>, ok: PaperDict -> bool)
  {
    forall p, rank :: ok(p) ==> explain(p, rank).Ok?
  }

  lemma ExplainAllTotal(top: seq<PaperDict>, papers: seq<PaperDict>, explain: (PaperDict, nat) -> Result<string>, ok: PaperDict -> bool)
    requires TotalOn(explain, ok)
    requires forall i :: 0 <= i < |papers| ==> ok(papers[i])
    requires forall q :: q in top ==> q in papers
    ensures ExplainAll(top, explain).Ok?
  {
    forall i | 0 <= i < |top|
      ensures explain(top[i], i + 1).Ok?
    {
      assert top[i] in papers;
      var k :| 0 <= k < |papers| && papers[k] == top[i];
      assert ok(papers[k]);
    }
  }

  /** Corrected, the explanation loop never raises on papers whose text fields are strings. */
  lemma CorrectedRankingTotal(papers: seq<PaperDict>, limit: int, tail: (PaperDict, nat) -> string)
    requires forall i :: 0 <= i < |papers| ==> StringFields(papers[i])
    requires CitationOrdered(papers, limit).Ok?
    ensures RankedByCitations(papers, limit, CitationExplainer(tail, Corrected)).Ok?
  {
    var explain := CitationExplainer(tail, Corrected);
    forall p, rank | StringFields(p)
      ensures explain(p, rank).Ok?
    {
      CorrectedExplanationTotal(p, rank, tail);
    }
    CitationOrderedShape(papers, limit);
    ExplainAllTotal(CitationOrdered(papers, limit).value, papers, explain, StringFields);
  }

  // ---------------------------------------------------------------- ranking by year

  /** get_year: `int(paper.get('year', 0))`; 'Unknown year' and anything int() rejects read as 0. */
  function RankYear(p: PaperDict): int
  {
    var y := Get(p, "year", IntV(0));
    if y == StrV("Unknown year") then 0
    else match PyInt(y) case Some(n) => n case None => 0
  }

  /** The recency step function of the paper's age in years. */
  function Recency(year: int): real
  {
    if year <= 0 then 0.0
    else
      var age := CurrentYear - year;
      if age <= 1 then 1.0
      else if age <= 2 then 0.9
      else if age <= 3 then 0.8
      else if age <= 5 then 0.7
      else if age <= 10 then 0.5
      else 0.2
  }

  /** A newer year never scores lower; scores lie in [0, 1]. */
  lemma RecencyMonotone(older: int, newer: int)
    requires older <= newer
    ensures 0.0 <= Recency(older) <= 1.0
    ensures older > 0 ==> Recency(older) <= Recency(newer)
  {
  }

  /** Citation bonus, only for papers from 2020 on with a count int() accepts. */
  function CitationBonus(citations: Value, year: int): real
  {
    if !Truthy(citations) || citations == StrV("N/A") then 0.0
    else
      match PyInt(citations)
      case None => 0.0
      case Some(n) =>
        if year < 2020 then 0.0
        else if n > 100 then 0.2
        else if n > 50 then 0.15
        else if n > 20 then 0.1
        else if n > 5 then 0.05
        else 0.0
  }

  const TopVenues: seq<string> := ["nature", "science", "cell", "nejm", "lancet"]
  const Publishers: seq<string> := ["ieee", "acm", "springer", "elsevier"]

  /** `any(term in text for term in terms)`. */
  predicate MentionsAny(text: string, terms: seq<string>)
  {
    exists i :: 0 <= i < |terms| && Contains(text, terms[i])
  }

  function VenueBonus(venue: string): real
  {
    var v := Lower(venue);
    if MentionsAny(v, TopVenues) then 0.15
    else if MentionsAny(v, Publishers) then 0.1
    else 0.0
  }

  datatype YearComponents = YearComponents(
    recency: real, quality: real, citationBonus: real, venueBonus: real, final: real, year: int)

  /**
   * calculate_year_relevance_score: recency 50%, the pre-filter score 30%,
   * citation bonus 15%, venue bonus 5%. `venue.lower()` raises on a venue
   * that is not a string, the weighting on a pre-filter score that is not a number.
   */
  function YearComponentsOf(p: PaperDict): Result<YearComponents>
  {
    var year := RankYear(p);
    var venue := Get(p, "venue", StrV(""));
    if !venue.StrV? then Err("AttributeError: venue.lower()")
    else
      match NumOf(Get(p, "_pre_filter_score", RealV(0.5)))
      case None => Err("TypeError: quality_score * 0.3")
      case Some(q) =>
        var r := Recency(year);
        var c := CitationBonus(Get(p, "citations", IntV(0)), year);
        var v := VenueBonus(venue.s);
        Ok(YearComponents(r, q, c, v, r * 0.5 + q * 0.3 + c * 0.15 + v * 0.05, year))
  }

  lemma CitationBonusRange(citations: Value, year: int)
    ensures 0.0 <= CitationBonus(citations, year) <= 0.2
  {
  }

  lemma VenueBonusRange(venue: string)
    ensures 0.0 <= VenueBonus(venue) <= 0.15
  {
  }

  /** For a pre-filter score in [0, 1] the combined score lies in [0, 0.8375], at least half the recency. */
  lemma YearScoreBounds(p: PaperDict)
    requires YearComponentsOf(p).Ok?
    requires 0.0 <= YearComponentsOf(p).value.quality <= 1.0
    ensures var c := YearComponentsOf(p).value;
      c.recency * 0.5 <= c.final <= 0.8375 && c.final >= 0.0
  {
    var year := RankYear(p);
    RecencyMonotone(year, year);
    CitationBonusRange(Get(p, "citations", IntV(0)), year);
    VenueBonusRange(Get(p, "venue", StrV("")).s);
  }

  /** The `_year_score_components` dict. */
  function ComponentsValue(c: YearComponents, quality: Value): Value
  {
    DictV(map[
      "recency" := RealV(c.recency),
      "quality" := quality,
      "citation_bonus" := RealV(c.citationBonus),
      "venue_bonus" := RealV(c.venueBonus),
      "final" := RealV(c.final),
      "year" := IntV(c.year)])
  }

  /** One pass of the scoring loop: the components and the score written into the paper. */
  function WithYearScore(p: PaperDict): Result<PaperDict>
  {
    match YearComponentsOf(p)
    case Err(e) => Err(e)
    case Ok(c) =>
      Ok(p["_year_score_components" := ComponentsValue(c, Get(p, "_pre_filter_score", RealV(0.5)))]
          ["_year_relevance_score" := RealV(c.final)])
  }

  /** `(p.get('_year_relevance_score', 0), get_year(p))`. */
  function YearRankKey(p: PaperDict): Key
  {
    Key(NumField(p, "_year_relevance_score"), RankYear(p), "")
  }

  /** A stored score component, as `score_components.get(name, 0)` reads it. */
  function Component(p: PaperDict, name: string): real
  {
    match Get(p, "_year_score_components", DictV(map[]))
    case DictV(m) => (match NumOf(if name in m then m[name] else IntV(0)) case Some(x) => x case None => 0.0)
    case _ => 0.0
  }

  function PrimaryFactor(recency: real, quality: real, citationBonus: real, venueBonus: real): string
  {
    if recency >= 0.9 && citationBonus > 0.1 then "exceptional recent impact"
    else if recency >= 0.9 then "cutting-edge recency"
    else if citationBonus > 0.15 then "high-impact contemporary work"
    else if venueBonus > 0.1 then "prestigious venue publication"
    else if quality > 0.7 then "high relevance and quality"
    else "balanced recency and relevance"
  }

  /** _generate_enhanced_year_explanation: "Ranked #n for <primary factor>", then `tail`; `title.lower()` raises on a non-string title. */
  function YearExplanation(p: PaperDict, rank: nat, tail: (PaperDict, nat) -> string): Result<string>
  {
    if !Get(p, "title", StrV("")).StrV? then Err("AttributeError: title.lower()")
    else
      var factor := PrimaryFactor(Component(p, "recency"), Component(p, "quality"),
                                  Component(p, "citation_bonus"), Component(p, "venue_bonus"));
      Ok(RankHead(rank) + " for " + factor + tail(p, rank))
  }

  function YearExplainer(tail: (PaperDict, nat) -> string): (PaperDict, nat) -> Result<string>
  {
    (p: PaperDict, rank: nat) => YearExplanation(p, rank, tail)
  }

  /** What rank_by_year returns. */
  function RankedByYear(papers: seq<PaperDict>, limit: int, explain: (PaperDict, nat) -> Result<string>): Result<seq<PaperDict>>
  {
    match MapResult(papers, WithYearScore)
    case Err(e) => Err(e)
    case Ok(scored) => ExplainAll(Slice(SortDesc(scored, YearRankKey), limit), explain)
  }

  /** rank_by_year / _rank_by_year: score every paper, sort by (score, year), explain the first `limit`. */
  method RankByYear(papers: seq<PaperDict>, limit: int, explain: (PaperDict, nat) -> Result<string>)
    returns (r: Result<seq<PaperDict>>)
    ensures r == RankedByYear(papers, limit, explain)
  {
    var scored: seq<PaperDict> := [];
    var i := 0;
    while i < |papers|
      invariant 0 <= i <= |papers|
      invariant MapResult(papers[..i], WithYearScore) == Ok(scored)
    {
      MapResultStep(papers, i, WithYearScore);
      var s := WithYearScore(papers[i]);
      if s.Err? {
        MapResultErrPrefix(papers, i + 1, WithYearScore);
        return Err(s.error);
      }
      scored := scored + [s.value];
      i := i + 1;
    }
    assert papers[..i] == papers;
    r := WriteExplanations(Slice(SortDesc(scored, YearRankKey), limit), explain);
  }

  /** `key` does not read the `explanation` field. */
  ghost predicate IgnoresExplanation(key: PaperDict -> Key)
  {
    forall p, e :: key(Explained(p, e)) == key(p)
  }

  /** Writing explanations keeps the order of a sorted list. */
  lemma ExplainAllKeepsOrder(top: seq<PaperDict>, explain: (PaperDict, nat) -> Result<string>, key: PaperDict -> Key)
    requires IgnoresExplanation(key) && SortedDesc(top, key) && ExplainAll(top, explain).Ok?
    ensures SortedDesc(ExplainAll(top, explain).value, key)
  {
    var r := ExplainAll(top, explain).value;
    forall i | 0 <= i < |r|
      ensures key(r[i]) == key(top[i])
    {
      assert r[i] == Explained(top[i], explain(top[i], i + 1).value);
    }
  }

  lemma YearRankKeyIgnoresExplanation()
    ensures IgnoresExplanation(YearRankKey)
  {
    forall p, e
      ensures YearRankKey(Explained(p, e)) == YearRankKey(p)
    {
      assert Get(Explained(p, e), "year", IntV(0)) == Get(p, "year", IntV(0));
      assert Get(Explained(p, e), "_year_relevance_score", IntV(0)) == Get(p, "_year_relevance_score", IntV(0));
    }
  }

  /**
   * The year ranking holds min(limit, len(papers)) papers in non-increasing
   * (score, year) order.
   */
  lemma RankedByYearOrder(papers: seq<PaperDict>, limit: int, explain: (PaperDict, nat) -> Result<string>)
    requires limit >= 0 && RankedByYear(papers, limit, explain).Ok?
    ensures var r := RankedByYear(papers, limit, explain).value;
      |r| == (if |papers| < limit then |papers| else limit) && SortedDesc(r, YearRankKey)
  {
    var scored := MapResult(papers, WithYearScore).value;
    var sorted := SortDesc(scored, YearRankKey);
    SortDescSorted(scored, YearRankKey);
    SortedPrefix(sorted, |Slice(sorted, limit)|, YearRankKey);
    YearRankKeyIgnoresExplanation();
    ExplainAllKeepsOrder(Slice(sorted, limit), explain, YearRankKey);
  }

  lemma YearExplanationHead(p: PaperDict, rank: nat, tail: (PaperDict, nat) -> string)
    requires YearExplanation(p, rank, tail).Ok?
    ensures StartsWith(YearExplanation(p, rank, tail).value, RankHead(rank) + " for ")
  {
    var factor := PrimaryFactor(Component(p, "recency"), Component(p, "quality"),
                                Component(p, "citation_bonus"), Component(p, "venue_bonus"));
    PrefixOfConcat(RankHead(rank) + " for ", factor, tail(p, rank));
  }

  /** Each explanation of the year ranking starts "Ranked #n for ", n the paper's 1-based place. */
  lemma RankedByYearHeads(papers: seq<PaperDict>, limit: int, tail: (PaperDict, nat) -> string)
    requires RankedByYear(papers, limit, YearExplainer(tail)).Ok?
    ensures var r := RankedByYear(papers, limit, YearExplainer(tail)).value;
      forall i :: 0 <= i < |r| ==> r[i]["explanation"].StrV? && StartsWith(r[i]["explanation"].s, RankHead(i + 1) + " for ")
  {
    var explain := YearExplainer(tail);
    var head := (rank: nat) => RankHead(rank) + " for ";
    forall p, rank | explain(p, rank).Ok?
      ensures StartsWith(explain(p, rank).value, head(rank))
    {
      YearExplanationHead(p, rank, tail);
    }
    var scored := MapResult(papers, WithYearScore).value;
    ExplainAllHeads(Slice(SortDesc(scored, YearRankKey), limit), explain, head);
  }

  /** `q` carries, as `_year_relevance_score`, the combined score computed for `p`. */
  predicate ScoredFrom(q: PaperDict, p: PaperDict)
  {
    "_year_relevance_score" in q && YearComponentsOf(p).Ok? &&
    q["_year_relevance_score"] == RealV(YearComponentsOf(p).value.final)
  }

  /** `q` is related by `rel` to some element of `papers`. */
  ghost predicate FromSome(q: PaperDict, papers: seq<PaperDict>, rel: (PaperDict, PaperDict) -> bool)
  {
    exists k :: 0 <= k < |papers| && rel(q, papers[k])
  }

  /** Every element of `r` is related by `rel` to some element of `papers`. */
  ghost predicate EachFrom(r: seq<PaperDict>, papers: seq<PaperDict>, rel: (PaperDict, PaperDict) -> bool)
  {
    forall i :: 0 <= i < |r| ==> FromSome(r[i], papers, rel)
  }

  lemma EachFromMembers(r: seq<PaperDict>, s: seq<PaperDict>, papers: seq<PaperDict>, rel: (PaperDict, PaperDict) -> bool)
    requires EachFrom(s, papers, rel)
    requires forall q :: q in r ==> q in s
    ensures EachFrom(r, papers, rel)
  {
    forall i | 0 <= i < |r|
      ensures FromSome(r[i], papers, rel)
    {
      assert r[i] in s;
      var j :| 0 <= j < |s| && s[j] == r[i];
      assert FromSome(s[j], papers, rel);
    }
  }

  lemma EachFromExplained(top: seq<PaperDict>, papers: seq<PaperDict>, explain: (PaperDict, nat) -> Result<string>,
                          rel: (PaperDict, PaperDict) -> bool)
    requires EachFrom(top, papers, rel) && ExplainAll(top, explain).Ok?
    requires forall q, p, e :: rel(q, p) ==> rel(Explained(q, e), p)
    ensures EachFrom(ExplainAll(top, explain).value, papers, rel)
  {
    var r := ExplainAll(top, explain).value;
    forall i | 0 <= i < |r|
      ensures FromSome(r[i], papers, rel)
    {
      assert FromSome(top[i], papers, rel);
      var k :| 0 <= k < |papers| && rel(top[i], papers[k]);
      assert r[i] == Explained(top[i], explain(top[i], i + 1).value);
      assert rel(r[i], papers[k]);
    }
  }

  lemma ScoredFromExplained(q: PaperDict, p: PaperDict, e: string)
    requires ScoredFrom(q, p)
    ensures ScoredFrom(Explained(q, e), p)
  {
  }

  lemma WithYearScoreScored(p: PaperDict)
    requires WithYearScore(p).Ok?
    ensures ScoredFrom(WithYearScore(p).value, p)
  {
  }

  /** Every paper of the year ranking carries the combined score computed for one of the input papers. */
  lemma RankedByYearScores(papers: seq<PaperDict>, limit: int, explain: (PaperDict, nat) -> Result<string>)
    requires RankedByYear(papers, limit, explain).Ok?
    ensures EachFrom(RankedByYear(papers, limit, explain).value, papers, ScoredFrom)
  {
    var scored := MapResult(papers, WithYearScore).value;
    var top := Slice(SortDesc(scored, YearRankKey), limit);
    forall i | 0 <= i < |scored|
      ensures FromSome(scored[i], papers, ScoredFrom)
    {
      WithYearScoreScored(papers[i]);
      assert ScoredFrom(scored[i], papers[i]);
    }
    SortDescMembers(scored, YearRankKey);
    EachFromMembers(top, scored, papers, ScoredFrom);
    forall q, p, e | ScoredFrom(q, p)
      ensures ScoredFrom(Explained(q, e), p)
    {
      ScoredFromExplained(q, p, e);
    }
    EachFromExplained(top, papers, explain, ScoredFrom);
  }

  /** A paper whose venue is not a string, or whose pre-filter score is not a number, makes the year ranking raise. */
  lemma RankedByYearRaises(papers: seq<PaperDict>, limit: int, explain: (PaperDict, nat) -> Result<string>, k: nat)
    requires k < |papers| && YearComponentsOf(papers[k]).Err?
    ensures RankedByYear(papers, limit, explain).Err?
  {
    assert WithYearScore(papers[k]).Err?;
  }
}
