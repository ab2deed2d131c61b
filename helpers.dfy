// The small result helpers of ai_scholar/utils/helpers.py and their copies in
// utils/utils.py: item formatting, the year filter, the lenient integer
// conversion, arXiv id extraction from urls, and the mapping from an HTTP
// status to the error a generic search reports. The year filter is also the
// code of filter_papers_by_year in ai_scholar/utils/paper_processing_utils.py
// and of _filter_papers_by_year in ai_scholar/services/paper_service.py.

module Helpers {
  import opened Base
  import opened Text
  import opened Values
  import opened Lists

  /** `[{key: func(item) for key, func in mapping.items()} for item in items]`. */
  function FormatItems(items: seq<Value>, mapping: map<string, Value -> Value>): (r: seq<PaperDict>)
    ensures |r| == |items|
    ensures forall i :: 0 <= i < |r| ==> r[i].Keys == mapping.Keys
    ensures forall i, k :: 0 <= i < |r| && k in mapping ==> r[i][k] == mapping[k](items[i])
  {
    Map(items, (item: Value) => map k | k in mapping :: mapping[k](item))
  }

  // ---------------------------------------------------------------- year filter

  /**
   * The year the filter compares: `int(paper.get('year', 0))`, with None
   * read as 0. None here is the ValueError or TypeError that drops the paper.
   */
  function YearOf(p: PaperDict): (r: Option<int>)
    ensures "year" !in p ==> r == Some(0)
    ensures "year" in p && p["year"].IntV? ==> r == Some(p["year"].i)
    ensures "year" in p && (p["year"].ListV? || p["year"].DictV?) ==> r == None
  {
    var v := Get(p, "year", IntV(0));
    if v.NoneV? then Some(0) else PyInt(v)
  }

  predicate InYearRange(y: int, minYear: Option<int>, maxYear: Option<int>)
  {
    (minYear.None? || y >= minYear.value) && (maxYear.None? || y <= maxYear.value)
  }

  predicate KeepForYears(p: PaperDict, minYear: Option<int>, maxYear: Option<int>)
  {
    YearOf(p).Some? && InYearRange(YearOf(p).value, minYear, maxYear)
  }

  /** The filter's test as a function value, so that the loop and its specification share it. */
  function YearKeep(minYear: Option<int>, maxYear: Option<int>): PaperDict -> bool
  {
    p => KeepForYears(p, minYear, maxYear)
  }

  /** What the year filter returns: the input itself without bounds, otherwise the kept papers in order. */
  function YearFiltered(papers: seq<PaperDict>, minYear: Option<int>, maxYear: Option<int>): seq<PaperDict>
  {
    if minYear.None? && maxYear.None? then papers
    else Filter(papers, YearKeep(minYear, maxYear))
  }

  /** filter_results_by_year: an accumulator loop over the papers. */
  method FilterResultsByYear(papers: seq<PaperDict>, minYear: Option<int>, maxYear: Option<int>)
    returns (filtered: seq<PaperDict>)
    ensures filtered == YearFiltered(papers, minYear, maxYear)
  {
    if minYear.None? && maxYear.None? {
      return papers;
    }
    filtered := [];
    var i := 0;
    while i < |papers|
      invariant 0 <= i <= |papers|
      invariant filtered == Filter(papers[..i], YearKeep(minYear, maxYear))
    {
      FilterStep(papers, i, YearKeep(minYear, maxYear));
      var paper := papers[i];
      if KeepForYears(paper, minYear, maxYear) {
        filtered := filtered + [paper];
      }
      i := i + 1;
    }
    assert papers[..i] == papers;
  }

  /**
   * The filter keeps, in input order, exactly the papers whose year parses
   * and lies in range; an unparsable year drops the paper.
   */
  lemma YearFilterExact(papers: seq<PaperDict>, minYear: Option<int>, maxYear: Option<int>)
    requires minYear.Some? || maxYear.Some?
    ensures SubseqOf(YearFiltered(papers, minYear, maxYear), papers)
    ensures forall p :: p in YearFiltered(papers, minYear, maxYear) <==>
              p in papers && YearOf(p).Some? && InYearRange(YearOf(p).value, minYear, maxYear)
  {
    var keep := YearKeep(minYear, maxYear);
    FilterSubseq(papers, keep);
    FilterMembers(papers, keep);
  }

  /** Without bounds the input comes back unchanged, unparsable years included. */
  lemma YearFilterUnbounded(papers: seq<PaperDict>)
    ensures YearFiltered(papers, None, None) == papers
  {
  }

  // ---------------------------------------------------------------- safe int

  /** The strings `_safe_int_conversion` reads as "no number", compared after lower(). */
  predicate IsPlaceholder(s: string)
  {
    Lower(s) in ["not available", "n/a", "", "none"]
  }

  /** _safe_int_conversion: every value maps to an int, with 0 for anything unusable. */
  function SafeIntConversion(v: Value): (r: int)
    ensures v.NoneV? ==> r == 0
    ensures v.IntV? ==> r == v.i
    ensures v.StrV? && IsPlaceholder(v.s) ==> r == 0
    ensures v.StrV? && !IsPlaceholder(v.s) && ParseInt(v.s).Some? ==> r == ParseInt(v.s).value
    ensures v.StrV? && ParseInt(v.s).None? ==> r == 0
    ensures v.ListV? || v.DictV? ==> r == 0
  {
    match v
    case NoneV => 0
    case BoolV(b) => if b then 1 else 0
    case IntV(i) => i
    case StrV(s) =>
      if IsPlaceholder(s) then 0
      else if ParseInt(s).Some? then ParseInt(s).value else 0
    case RealV(x) => Trunc(x)
    case _ => 0
  }

  lemma {:induction false} LowerOfIntString(n: int)
    ensures Lower(IntToString(n)) == IntToString(n)
  {
    var s := IntToString(n);
    forall i | 0 <= i < |s| ensures !IsUpper(s[i]) {
      if n < 0 {
        if i > 0 {
          assert s[i] == NatToString(-n)[i - 1];
        }
      }
    }
  }

  /** No printed integer reads as a placeholder: it starts with '-' or a digit. */
  lemma IntStringNotPlaceholder(n: int)
    ensures !IsPlaceholder(IntToString(n))
  {
    var s := IntToString(n);
    LowerOfIntString(n);
    assert s[0] == '-' || IsDigit(s[0]);
    assert s != [] && s[0] != 'n';
    assert "not available"[0] == 'n' && "n/a"[0] == 'n' && "none"[0] == 'n';
  }

  /** A printed integer converts back to itself. */
  lemma SafeIntOfPrintedInt(n: int)
    ensures SafeIntConversion(StrV(IntToString(n))) == n
  {
    IntStringNotPlaceholder(n);
    IntToStringRoundTrip(n);
  }

  // ---------------------------------------------------------------- arXiv ids

  /** The text after the last '/', or None when there is no '/'. */
  function AfterLastSlash(u: string): (r: Option<string>)
    ensures r.Some? ==> |r.value| < |u| && r.value == u[|u| - |r.value|..]
    ensures r.Some? ==> u[|u| - |r.value| - 1] == '/' && '/' !in r.value
    ensures r.None? ==> '/' !in u
  {
    if u == [] then None
    else if u[|u| - 1] == '/' then Some([])
    else
      match AfterLastSlash(u[..|u| - 1])
      case None => None
      case Some(t) => Some(t + [u[|u| - 1]])
  }

  /** `v` followed by one or more digits: the arXiv version suffix. */
  predicate IsVersionSuffix(t: string)
  {
    |t| >= 2 && t[0] == 'v' && IsDigits(t[1..])
  }

  /**
   * The lazy group of `([^/]+?)(?:v\d+)?$` on a slash-free segment: the
   * shortest non-empty prefix after which only a version suffix or nothing
   * remains, searched from position `k`.
   */
  function CutVersion(seg: string, k: nat): (r: string)
    requires 1 <= k <= |seg|
    ensures 0 < |r| <= |seg| && r == seg[..|r|]
    ensures |r| >= k
    ensures |r| == |seg| || IsVersionSuffix(seg[|r|..])
    ensures forall j :: k <= j < |r| ==> !IsVersionSuffix(seg[j..])
    decreases |seg| - k
  {
    if k == |seg| || IsVersionSuffix(seg[k..]) then seg[..k]
    else CutVersion(seg, k + 1)
  }

  /**
   * What `re.search(r'/([^/]+?)(?:v\d+)?/?$', url).group(1)` captures, or
   * None when the pattern does not match.
   */
  function ArxivIdOf(url: string): (r: Option<string>)
    ensures r.Some? ==> r.value != [] && '/' !in r.value
  {
    var u := if url != [] && url[|url| - 1] == '/' then url[..|url| - 1] else url;
    match AfterLastSlash(u)
    case None => None
    case Some(seg) => if seg == [] then None else Some(CutVersion(seg, 1))
  }

  /** The captured id is the last path segment with its version suffix removed. */
  lemma ArxivIdIsLastSegment(url: string, seg: string)
    requires url != [] && url[|url| - 1] != '/'
    requires AfterLastSlash(url) == Some(seg) && seg != []
    ensures ArxivIdOf(url).Some?
    ensures var id := ArxivIdOf(url).value;
            StartsWith(seg, id) && (id == seg || IsVersionSuffix(seg[|id|..]))
  {
  }

  /** A segment without a version suffix is captured whole. */
  lemma ArxivIdWithoutVersion(url: string, seg: string)
    requires url != [] && url[|url| - 1] != '/'
    requires AfterLastSlash(url) == Some(seg) && seg != []
    requires forall j :: 1 <= j < |seg| ==> !IsVersionSuffix(seg[j..])
    ensures ArxivIdOf(url) == Some(seg)
  {
    CutVersionWhole(seg, 1);
  }

  lemma {:induction false} CutVersionWhole(seg: string, k: nat)
    requires 1 <= k <= |seg|
    requires forall j :: k <= j < |seg| ==> !IsVersionSuffix(seg[j..])
    ensures CutVersion(seg, k) == seg
    decreases |seg| - k
  {
    if k < |seg| {
      CutVersionWhole(seg, k + 1);
    }
  }

  /** What extract_arxiv_ids does to one list element: Err is the TypeError it lets escape. */
  function WithArxivId(paper: Value): (r: Result<Value>)
    ensures !paper.DictV? || "url" !in paper.fields ==> r == Ok(paper)
    ensures r.Ok? && r.value != paper ==>
              paper.DictV? && "url" in paper.fields && paper.fields["url"].StrV? &&
              Contains(paper.fields["url"].s, "arxiv") && ArxivIdOf(paper.fields["url"].s).Some? &&
              r.value == DictV(paper.fields["roi" := StrV(ArxivIdOf(paper.fields["url"].s).value)])
  {
    if !paper.DictV? || "url" !in paper.fields then Ok(paper)
    else
      match paper.fields["url"]
      case StrV(url) =>
        if Contains(url, "arxiv") then
          match ArxivIdOf(url)
          case Some(id) => Ok(DictV(paper.fields["roi" := StrV(id)]))
          case None => Ok(paper)
        else Ok(paper)
      // `'arxiv' in url` is a membership test on a list or dict; re.search then rejects it
      case ListV(xs) => if StrV("arxiv") in xs then Err("TypeError") else Ok(paper)
      case DictV(m) => if "arxiv" in m then Err("TypeError") else Ok(paper)
      case _ => Err("TypeError")
  }

  /** extract_arxiv_ids: the loop that sets `roi` on every arXiv paper. */
  method ExtractArxivIds(papers: seq<Value>) returns (r: Result<seq<Value>>)
    ensures r.Ok? <==> forall i :: 0 <= i < |papers| ==> WithArxivId(papers[i]).Ok?
    ensures r.Ok? ==> (|r.value| == |papers| &&
              forall i :: 0 <= i < |papers| ==> r.value[i] == WithArxivId(papers[i]).value)
    ensures r.Err? ==> r.error == "TypeError"
  {
    var out: seq<Value> := [];
    var i := 0;
    while i < |papers|
      invariant 0 <= i <= |papers|
      invariant |out| == i
      invariant forall j :: 0 <= j < i ==> WithArxivId(papers[j]).Ok? && out[j] == WithArxivId(papers[j]).value
    {
      var step := WithArxivId(papers[i]);
      if step.Err? {
        return Err(step.error);
      }
      out := out + [step.value];
      i := i + 1;
    }
    return Ok(out);
  }

  // ---------------------------------------------------------------- status mapping

  const ErrorPrefix := "Error: "

  /** The part of generic_requests_search's error string that follows "Error: ". */
  function StatusErrorDetail(status: int): string
  {
    if status == 429 then "Rate limit exceeded." + " Please try again later."
    else if status == 401 then "Authentication failed." + " Please check your API key."
    else if status == 403 then "Access forbidden." + " Your API key may not have the required permissions."
    else "Unable to fetch papers (Status Code: " + IntToString(status) + ")"
  }

  /**
   * generic_requests_search in ai_scholar/utils/helpers.py: the error string
   * returned for a failing status; None means the status is 200 and the
   * response is parsed.
   */
  function StatusErrorMessage(status: int): (r: Option<string>)
    ensures r.None? <==> status == 200
    ensures r.Some? ==> StartsWith(r.value, ErrorPrefix)
  {
    if status == 200 then None else Some(ErrorPrefix + StatusErrorDetail(status))
  }

  lemma {:induction false} IntToStringInjective(a: int, b: int)
    requires IntToString(a) == IntToString(b)
    ensures a == b
  {
    IntToStringRoundTrip(a);
    IntToStringRoundTrip(b);
  }

  predicate IsNamedStatus(status: int)
  {
    status == 429 || status == 401 || status == 403
  }

  lemma NamedDetailStart(status: int)
    requires IsNamedStatus(status)
    ensures StatusErrorDetail(status)[0] != 'U'
  {
    if status == 429 {
      assert StatusErrorDetail(status) == "Rate limit exceeded." + " Please try again later.";
      assert StatusErrorDetail(status)[0] == 'R';
    } else if status == 401 {
      assert StatusErrorDetail(status) == "Authentication failed." + " Please check your API key.";
      assert StatusErrorDetail(status)[0] == 'A';
    } else {
      assert StatusErrorDetail(status) == "Access forbidden." + " Your API key may not have the required permissions.";
      assert StatusErrorDetail(status)[0] == 'A';
    }
  }

  lemma StatusErrorDetailsDistinct(a: int, b: int)
    requires a != b
    ensures StatusErrorDetail(a) != StatusErrorDetail(b)
  {
    var da, db := StatusErrorDetail(a), StatusErrorDetail(b);
    var pre := "Unable to fetch papers (Status Code: ";
    if !IsNamedStatus(a) && !IsNamedStatus(b) {
      if da == db {
        assert da[|pre|..|da| - 1] == IntToString(a);
        assert db[|pre|..|db| - 1] == IntToString(b);
        IntToStringInjective(a, b);
      }
    } else if !IsNamedStatus(a) {
      NamedDetailStart(b);
      assert da[0] == 'U';
    } else if !IsNamedStatus(b) {
      NamedDetailStart(a);
      assert db[0] == 'U';
    }
  }

  /** Distinct failing statuses give distinct messages, so the message identifies the status. */
  lemma StatusErrorMessagesDistinct(a: int, b: int)
    requires a != b && a != 200 && b != 200
    ensures StatusErrorMessage(a) != StatusErrorMessage(b)
  {
    var da, db := StatusErrorDetail(a), StatusErrorDetail(b);
    StatusErrorDetailsDistinct(a, b);
    assert (ErrorPrefix + da)[|ErrorPrefix|..] == da;
    assert (ErrorPrefix + db)[|ErrorPrefix|..] == db;
  }

  /** The error create_api_error builds: provider, status code and message. */
  datatype ApiError = ApiError(provider: string, statusCode: int, message: string)

  /** generic_requests_search in utils/utils.py: the error it raises for a failing status. */
  function StatusApiError(status: int): (r: Option<ApiError>)
    ensures r.None? <==> status == 200
    ensures r.Some? ==> r.value.provider == "generic" && r.value.statusCode == status
  {
    if status == 429 then Some(ApiError("generic", 429, "Rate limit exceeded"))
    else if status == 401 then Some(ApiError("generic", 401, "Authentication failed"))
    else if status == 403 then Some(ApiError("generic", 403, "Access forbidden"))
    else if status != 200 then Some(ApiError("generic", status, "HTTP " + IntToString(status)))
    else None
  }

  /** The two copies fail on the same statuses: one returns a string where the other raises. */
  lemma StatusMappingsAgree(status: int)
    ensures StatusErrorMessage(status).Some? <==> StatusApiError(status).Some?
  {
  }
}
