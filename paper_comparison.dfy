// PaperService.compare_papers and its three criteria: each criterion
// measures every paper, sorts the (index, measure) rows into non-increasing
// order, and reports the top row (the bottom one too for years) and the
// mean measure.

module PaperComparison {
  import opened Base
  import opened Values
  import opened Sorting
  import opened PaperRanking

  /** One row of a criterion's ranking: the paper's position in the input and its measure. */
  datatype Row = Row(index: nat, measure: real)

  /** The dict each `_compare_by_*` returns. */
  datatype Report =
    | CitationReport(ranking: seq<Row>, highest: Option<Row>, average: real)
    | YearReport(ranking: seq<Row>, newest: Option<Row>, oldest: Option<Row>, average: real)
    | RelevanceReport(ranking: seq<Row>, mostRelevant: Option<Row>, average: real)

  /** The dict compare_papers returns; `summary` stays empty. */
  datatype Comparison = Comparison(papers: seq<PaperDict>, criteria: seq<string>,
                                   matrix: map<string, Report>, summary: map<string, Value>)

  /** `citations = p.get('citations') or p.get('citation') or 0`, then `int(...)`, with 'N/A' and what int() rejects read as 0. */
  function CitationMeasure(p: PaperDict): Result<real>
  {
    Ok(CitationCount(p) as real)
  }

  /** `int(p.get('year', 0))`, with 'Unknown year' and what int() rejects read as 0. */
  function YearMeasure(p: PaperDict): Result<real>
  {
    Ok(RankYear(p) as real)
  }

  /** `len(p.get('title', '')) / 100.0`; a title without a length raises. */
  function RelevanceMeasure(p: PaperDict): Result<real>
  {
    match PyLen(Get(p, "title", StrV("")))
    case Some(n) => Ok(n as real / 100.0)
    case None => Err("TypeError: object has no len()")
  }

  /** The rows `{'index': i, <measure>: measure(papers[i])}` in input order; the first exception ends the loop. */
  function Rows(papers: seq<PaperDict>, measure: PaperDict -> Result<real>): Result<seq<Row>>
  {
    if papers == [] then Ok([])
    else
      match Rows(papers[..|papers| - 1], measure)
      case Err(e) => Err(e)
      case Ok(rows) =>
        match measure(papers[|papers| - 1])
        case Err(e) => Err(e)
        case Ok(m) => Ok(rows + [Row(|papers| - 1, m)])
  }

  function RowKey(r: Row): Key
  {
    NumKey(r.measure)
  }

  /** `sum(r.measure for r in rows)`. */
  function Total(rows: seq<Row>): real
  {
    if rows == [] then 0.0 else Total(rows[..|rows| - 1]) + rows[|rows| - 1].measure
  }

  /** `sum(...) / len(rows) if rows else 0`. */
  function Average(rows: seq<Row>): real
  {
    if rows == [] then 0.0 else Total(rows) / |rows| as real
  }

  function First(rows: seq<Row>): Option<Row>
  {
    if rows == [] then None else Some(rows[0])
  }

  function Last(rows: seq<Row>): Option<Row>
  {
    if rows == [] then None else Some(rows[|rows| - 1])
  }

  /** The rows of a criterion, sorted as `rows.sort(key=..., reverse=True)` sorts them. */
  function Ranking(papers: seq<PaperDict>, measure: PaperDict -> Result<real>): Result<seq<Row>>
  {
    match Rows(papers, measure)
    case Err(e) => Err(e)
    case Ok(rows) => Ok(SortDesc(rows, RowKey))
  }

  /** What `_compare_by_<criterion>` returns. */
  function CriterionReport(papers: seq<PaperDict>, criterion: string): Result<Report>
    requires IsCriterion(criterion)
  {
    if criterion == "citations" then
      match Ranking(papers, CitationMeasure)
      case Err(e) => Err(e)
      case Ok(ranking) => Ok(CitationReport(ranking, First(ranking), Average(ranking)))
    else if criterion == "year" then
      match Ranking(papers, YearMeasure)
      case Err(e) => Err(e)
      case Ok(ranking) => Ok(YearReport(ranking, First(ranking), Last(ranking), Average(ranking)))
    else
      match Ranking(papers, RelevanceMeasure)
      case Err(e) => Err(e)
      case Ok(ranking) => Ok(RelevanceReport(ranking, First(ranking), Average(ranking)))
  }

  predicate IsCriterion(c: string)
  {
    c == "citations" || c == "year" || c == "relevance"
  }

  /** compare_papers: one report per known criterion, in the order given (a repeated criterion is computed again); other criteria are skipped. */
  function Compared(papers: seq<PaperDict>, criteria: seq<string>): Result<Comparison>
  {
    if criteria == [] then Ok(Comparison(papers, [], map[], map[]))
    else
      var c := criteria[|criteria| - 1];
      match Compared(papers, criteria[..|criteria| - 1])
      case Err(e) => Err(e)
      case Ok(cmp) =>
        if !IsCriterion(c) then Ok(cmp.(criteria := criteria))
        else
          match CriterionReport(papers, c)
          case Err(e) => Err(e)
          case Ok(rep) => Ok(cmp.(criteria := criteria, matrix := cmp.matrix[c := rep]))
  }

  // ---------------------------------------------------------------- the loops

  /** The measuring loop of each `_compare_by_*`. */
  method MeasureRows(papers: seq<PaperDict>, measure: PaperDict -> Result<real>) returns (r: Result<seq<Row>>)
    ensures r == Rows(papers, measure)
  {
    var rows: seq<Row> := [];
    var i := 0;
    while i < |papers|
      invariant 0 <= i <= |papers|
      invariant Rows(papers[..i], measure) == Ok(rows)
    {
      assert papers[..i + 1][..i] == papers[..i];
      var m := measure(papers[i]);
      if m.Err? {
        RowsErrPrefix(papers, i + 1, measure);
        return Err(m.error);
      }
      rows := rows + [Row(i, m.value)];
      i := i + 1;
    }
    assert papers[..i] == papers;
    r := Ok(rows);
  }

  /** `_compare_by_<criterion>`: measure, sort, report. */
  method CompareBy(papers: seq<PaperDict>, criterion: string) returns (r: Result<Report>)
    requires IsCriterion(criterion)
    ensures r == CriterionReport(papers, criterion)
  {
    var measure := if criterion == "citations" then CitationMeasure
      else if criterion == "year" then YearMeasure else RelevanceMeasure;
    var rows := MeasureRows(papers, measure);
    if rows.Err? {
      return Err(rows.error);
    }
    var ranking := SortDesc(rows.value, RowKey);
    if criterion == "citations" {
      r := Ok(CitationReport(ranking, First(ranking), Average(ranking)));
    } else if criterion == "year" {
      r := Ok(YearReport(ranking, First(ranking), Last(ranking), Average(ranking)));
    } else {
      r := Ok(RelevanceReport(ranking, First(ranking), Average(ranking)));
    }
  }

  /** compare_papers: the loop over the criteria. */
  method ComparePapers(papers: seq<PaperDict>, criteria: seq<string>) returns (r: Result<Comparison>)
    ensures r == Compared(papers, criteria)
  {
    var matrix: map<string, Report> := map[];
    var i := 0;
    while i < |criteria|
      invariant 0 <= i <= |criteria|
      invariant Compared(papers, criteria[..i]) == Ok(Comparison(papers, criteria[..i], matrix, map[]))
    {
      assert criteria[..i + 1][..i] == criteria[..i];
      var c := criteria[i];
      if IsCriterion(c) {
        var rep := CompareBy(papers, c);
        if rep.Err? {
          ComparedErrPrefix(papers, criteria, i + 1);
          return Err(rep.error);
        }
        matrix := matrix[c := rep.value];
      }
      i := i + 1;
    }
    assert criteria[..i] == criteria;
    r := Ok(Comparison(papers, criteria, matrix, map[]));
  }

  lemma {:induction false} RowsErrPrefix(papers: seq<PaperDict>, i: nat, measure: PaperDict -> Result<real>)
    requires i <= |papers| && Rows(papers[..i], measure).Err?
    ensures Rows(papers, measure) == Rows(papers[..i], measure)
    decreases |papers| - i
  {
    if i < |papers| {
      assert papers[..i + 1][..i] == papers[..i];
      RowsErrPrefix(papers, i + 1, measure);
    } else {
      assert papers[..i] == papers;
    }
  }

  lemma {:induction false} ComparedErrPrefix(papers: seq<PaperDict>, criteria: seq<string>, i: nat)
    requires i <= |criteria| && Compared(papers, criteria[..i]).Err?
    ensures Compared(papers, criteria) == Compared(papers, criteria[..i])
    decreases |criteria| - i
  {
    if i < |criteria| {
      assert criteria[..i + 1][..i] == criteria[..i];
      ComparedErrPrefix(papers, criteria, i + 1);
    } else {
      assert criteria[..i] == criteria;
    }
  }

  // ---------------------------------------------------------------- properties

  /** The rows are built for every paper in order, and fail exactly when some paper's measure raises. */
  lemma {:induction false} RowsSpec(papers: seq<PaperDict>, measure: PaperDict -> Result<real>)
    ensures Rows(papers, measure).Ok? <==> forall i :: 0 <= i < |papers| ==> measure(papers[i]).Ok?
    ensures Rows(papers, measure).Ok? ==>
      var rows := Rows(papers, measure).value;
      |rows| == |papers| && forall i :: 0 <= i < |rows| ==> rows[i] == Row(i, measure(papers[i]).value)
    decreases |papers|
  {
    if papers != [] {
      var init := papers[..|papers| - 1];
      RowsSpec(init, measure);
      assert forall i :: 0 <= i < |init| ==> init[i] == papers[i];
    }
  }

  /** Total of a list whose measures all lie in [lo, hi]. */
  lemma {:induction false} TotalBounds(rows: seq<Row>, lo: real, hi: real)
    requires forall i :: 0 <= i < |rows| ==> lo <= rows[i].measure <= hi
    ensures |rows| as real * lo <= Total(rows) <= |rows| as real * hi
    decreases |rows|
  {
    if rows != [] {
      TotalBounds(rows[..|rows| - 1], lo, hi);
    }
  }

  /**
   * A criterion's ranking: one row per paper, holding the paper's index and
   * measure, in non-increasing measure order, rows of equal measure in
   * input order; it fails exactly when some paper's measure raises.
   */
  lemma RankingShape(papers: seq<PaperDict>, measure: PaperDict -> Result<real>)
    ensures Ranking(papers, measure).Ok? <==> forall i :: 0 <= i < |papers| ==> measure(papers[i]).Ok?
    ensures Ranking(papers, measure).Ok? ==>
      var rows := Rows(papers, measure).value;
      var ranking := Ranking(papers, measure).value;
      |rows| == |papers| && (forall i :: 0 <= i < |rows| ==> rows[i] == Row(i, measure(papers[i]).value)) &&
      multiset(ranking) == multiset(rows) && SortedDesc(ranking, RowKey) &&
      forall k :: KeyClass(ranking, RowKey, k) == KeyClass(rows, RowKey, k)
  {
    RowsSpec(papers, measure);
    if Rows(papers, measure).Ok? {
      var rows := Rows(papers, measure).value;
      SortDescMultiset(rows, RowKey);
      SortDescSorted(rows, RowKey);
      forall k
        ensures KeyClass(SortDesc(rows, RowKey), RowKey, k) == KeyClass(rows, RowKey, k)
      {
        SortDescStable(rows, RowKey, k);
      }
    }
  }

  lemma QuotientBounds(a: real, n: real, lo: real, hi: real)
    requires n > 0.0 && n * lo <= a <= n * hi
    ensures lo <= a / n <= hi
  {
    assert a / n * n == a;
  }

  /** The mean of measures that all lie in [lo, hi] lies in [lo, hi]. */
  lemma AverageBounds(rows: seq<Row>, lo: real, hi: real)
    requires rows != [] && forall i :: 0 <= i < |rows| ==> lo <= rows[i].measure <= hi
    ensures lo <= Average(rows) <= hi
  {
    TotalBounds(rows, lo, hi);
    QuotientBounds(Total(rows), |rows| as real, lo, hi);
  }

  /** A list in non-increasing order lies between its last and first measures. */
  lemma SortedBetweenEnds(ranking: seq<Row>)
    requires SortedDesc(ranking, RowKey) && ranking != []
    ensures forall i :: 0 <= i < |ranking| ==>
      ranking[|ranking| - 1].measure <= ranking[i].measure <= ranking[0].measure
  {
    forall i | 0 <= i < |ranking|
      ensures ranking[|ranking| - 1].measure <= ranking[i].measure <= ranking[0].measure
    {
      if 0 < i {
        assert KeyGe(RowKey(ranking[0]), RowKey(ranking[i]));
      }
      if i < |ranking| - 1 {
        assert KeyGe(RowKey(ranking[i]), RowKey(ranking[|ranking| - 1]));
      }
    }
  }

  /**
   * A ranking in non-increasing order has its largest measure first and its
   * smallest last, and its average lies between the two; an empty one has
   * neither and averages 0.
   */
  lemma ReportedExtremes(ranking: seq<Row>)
    requires SortedDesc(ranking, RowKey)
    ensures First(ranking).None? <==> ranking == []
    ensures Last(ranking).None? <==> ranking == []
    ensures ranking == [] ==> Average(ranking) == 0.0
    ensures ranking != [] ==>
      (forall q :: q in ranking ==> Last(ranking).value.measure <= q.measure <= First(ranking).value.measure) &&
      Last(ranking).value.measure <= Average(ranking) <= First(ranking).value.measure
  {
    if ranking != [] {
      SortedBetweenEnds(ranking);
      AverageBounds(ranking, ranking[|ranking| - 1].measure, ranking[0].measure);
    }
  }

  /**
   * `_compare_by_citations` and `_compare_by_year` never raise;
   * `_compare_by_relevance` raises exactly when some paper's title has no length.
   */
  lemma CriterionReportFails(papers: seq<PaperDict>, criterion: string)
    requires IsCriterion(criterion)
    ensures CriterionReport(papers, criterion).Err? <==>
      criterion == "relevance" && exists i :: 0 <= i < |papers| && PyLen(Get(papers[i], "title", StrV(""))).None?
  {
    RankingShape(papers, CitationMeasure);
    RankingShape(papers, YearMeasure);
    RankingShape(papers, RelevanceMeasure);
  }

  /**
   * compare_papers: keeps the papers and the criteria, leaves the summary
   * empty, and holds the report of each known criterion it was given and of
   * nothing else; it raises exactly when a known criterion's report raises.
   */
  lemma {:induction false} ComparedSpec(papers: seq<PaperDict>, criteria: seq<string>)
    ensures Compared(papers, criteria).Ok? <==>
      forall i :: 0 <= i < |criteria| && IsCriterion(criteria[i]) ==> CriterionReport(papers, criteria[i]).Ok?
    ensures Compared(papers, criteria).Ok? ==>
      var cmp := Compared(papers, criteria).value;
      cmp.papers == papers && cmp.criteria == criteria && cmp.summary == map[] &&
      (forall c :: c in cmp.matrix <==> c in criteria && IsCriterion(c)) &&
      forall c :: c in cmp.matrix ==> IsCriterion(c) && Ok(cmp.matrix[c]) == CriterionReport(papers, c)
    decreases |criteria|
  {
    if criteria != [] {
      var init := criteria[..|criteria| - 1];
      ComparedSpec(papers, init);
      assert criteria == init + [criteria[|criteria| - 1]];
    }
  }
}
