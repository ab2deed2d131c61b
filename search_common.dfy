// What the search providers under ai_scholar/providers/ have in common:
// the truthiness test on an optional year, the query length check, the
// `int(date.split('-')[0])` year rule, the outcome of a provider's
// `_make_request` (its retry and sleep loop is not modelled), and the
// "sort by a temporary quality score, then drop it" step of the filters.

module SearchCommon {
  import opened Base
  import opened Text
  import opened Values
  import opened Lists
  import opened Sorting

  /** An optional year as `if min_year:` sees it: given and not 0. */
  predicate Given(y: Option<int>)
  {
    y.Some? && y.value != 0
  }

  /** validate_query: `query` is non-blank and its stripped length is at least `minLength`. */
  predicate QueryOk(query: string, minLength: nat)
  {
    Strip(query) != [] && |Strip(query)| >= minLength
  }

  /** Python min on ints. */
  function Min(a: int, b: int): (r: int)
    ensures r <= a && r <= b && (r == a || r == b)
  {
    if a <= b then a else b
  }

  /** `s.split(c)[0]`: the text before the first `c`. */
  function UpTo(s: string, c: char): (r: string)
    ensures |r| <= |s| && r == s[..|r|] && c !in r
    ensures |r| < |s| ==> s[|r|] == c
  {
    if s == [] || s[0] == c then []
    else
      [s[0]] + UpTo(s[1..], c)
  }

  /** `int(date.split('-')[0])`, and 'Unknown' where int() raises. */
  function YearOfDate(date: string): (r: Value)
    ensures r.IntV? || r == StrV("Unknown")
  {
    match ParseInt(UpTo(date, '-'))
    case Some(n) => IntV(n)
    case None => StrV("Unknown")
  }

  /** A date that starts with a year and a dash gives that year back. */
  lemma YearOfDateRoundTrip(year: nat, rest: string)
    ensures YearOfDate(NatToString(year) + "-" + rest) == IntV(year)
  {
    var digits := NatToString(year);
    var s := digits + "-" + rest;
    assert forall k :: 0 <= k < |digits| ==> s[k] == digits[k] && s[k] != '-';
    UpToStopsAt(s, |digits|, '-');
    assert s[..|digits|] == digits;
    DigitsValueOfNatToString(year);
    StripOfNonSpaceEnds(digits);
  }

  /** UpTo stops at the first occurrence of `c`. */
  lemma {:induction false} UpToStopsAt(s: string, n: nat, c: char)
    requires n < |s| && s[n] == c && forall k :: 0 <= k < n ==> s[k] != c
    ensures UpTo(s, c) == s[..n]
    decreases n
  {
    if n > 0 {
      UpToStopsAt(s[1..], n - 1, c);
      assert s[..n] == [s[0]] + s[1..][..n - 1];
    }
  }

  /**
   * The exception classes a provider's search raises: SearchError,
   * RateLimitError, APIUnavailableError, AuthenticationError, NetworkError,
   * TimeoutError, and any other exception (a Python AttributeError or
   * TypeError), which `handle_provider_error` turns into APIUnavailableError.
   */
  datatype ErrorKind = InvalidQuery | RateLimited | Unavailable | AuthFailed | NetworkDown | TimedOut | Crashed

  datatype Failure = Failure(kind: ErrorKind, message: string)

  /** What `_make_request` ends with: the body of a 200 response, None, or a raised error. */
  datatype Fetched<T> = Fetched(body: T) | NoResponse | Threw(failure: Failure)

  /** What a raising `search` ends with: its papers, or the exception. */
  datatype Found<T> = Found(papers: seq<T>) | Failed(failure: Failure)

  /** `v.get(k, d)` on a JSON value; None stands for the AttributeError of a value that is not a dict. */
  function Field(v: Value, k: string, d: Value): Option<Value>
  {
    if v.DictV? then Some(Get(v.fields, k, d)) else None
  }

  /** What `handle_provider_error` lets out of a search: any other exception becomes APIUnavailableError. */
  function Decorated<T>(r: Found<T>): (d: Found<T>)
    ensures d.Failed? ==> d.failure.kind != Crashed
    ensures r.Found? ==> d == r
    ensures r.Failed? ==> d.Failed? && d.failure.message == r.failure.message
  {
    if r.Failed? && r.failure.kind == Crashed then Failed(Failure(Unavailable, r.failure.message)) else r
  }

  /**
   * What `for paper in papers` visits: a list gives its elements; a string
   * or dict gives strings (characters, keys), which the loop bodies, calling
   * `.get` on each, all skip, so they stand for no element; any other value
   * raises TypeError (None).
   */
  function Records(v: Value): (r: Option<seq<Value>>)
    ensures v.ListV? ==> r == Some(v.items)
  {
    match v
    case ListV(items) => Some(items)
    case StrV(_) => Some([])
    case DictV(_) => Some([])
    case _ => None
  }

  /** `v[0]`: an element, an IndexError or TypeError, or the KeyError of a dict (its keys are strings). */
  datatype Indexed = Item(value: Value) | IndexOrTypeError | KeyError

  function Head(v: Value): (r: Indexed)
    ensures v.ListV? && v.items != [] ==> r == Item(v.items[0])
  {
    match v
    case ListV(items) => if items == [] then IndexOrTypeError else Item(items[0])
    case StrV(s) => if s == [] then IndexOrTypeError else Item(StrV([s[0]]))
    case DictV(_) => KeyError
    case _ => IndexOrTypeError
  }

  /** `v[0] if v else d`; None stands for an exception. */
  function FirstOr(v: Value, d: Value): (r: Option<Value>)
    ensures !Truthy(v) ==> r == Some(d)
    ensures v.ListV? && v.items != [] ==> r == Some(v.items[0])
  {
    if !Truthy(v) then Some(d)
    else
      match Head(v)
      case Item(x) => Some(x)
      case _ => None
  }

  /** `a or b`. */
  function Or(a: Value, b: Value): (r: Value)
    ensures Truthy(r) <==> Truthy(a) || Truthy(b)
  {
    if Truthy(a) then a else b
  }

  /** A name `', '.join` accepts. */
  function NameText(v: Value): Result<string>
  {
    if v.StrV? then Ok(v.s) else Err("sequence item: expected str instance")
  }

  /** `', '.join(names) if names else 'Unknown'`; a name that is not a string makes join raise (None). */
  function JoinedNames(names: seq<Value>): (r: Option<string>)
    ensures names == [] ==> r == Some("Unknown")
  {
    if names == [] then Some("Unknown")
    else
      match MapResult(names, NameText)
      case Ok(texts) => Some(Join(", ", texts))
      case Err(_) => None
  }

  /** The join of truthy names is never empty. */
  lemma JoinedNamesNonEmpty(names: seq<Value>)
    requires forall v :: v in names ==> Truthy(v)
    ensures JoinedNames(names).Some? ==> JoinedNames(names).value != []
  {
    if names != [] && MapResult(names, NameText).Ok? {
      var texts := MapResult(names, NameText).value;
      assert names[0] in names;
      assert texts[0] == names[0].s;
      if |texts| > 1 {
        assert Join(", ", texts) == texts[0] + ", " + Join(", ", texts[1..]);
      }
    }
  }

  /** `ok` holds of every element, checked from the last one back (a loop that stops at the first failure). */
  predicate Every<T>(s: seq<T>, ok: T -> bool)
  {
    s == [] || (Every(s[..|s| - 1], ok) && ok(s[|s| - 1]))
  }

  /** Every is the universal quantifier over the elements. */
  lemma {:induction false} EverySpec<T>(s: seq<T>, ok: T -> bool)
    ensures Every(s, ok) <==> forall i :: 0 <= i < |s| ==> ok(s[i])
    decreases |s|
  {
    if s != [] {
      var n := |s| - 1;
      EverySpec(s[..n], ok);
      assert forall i :: 0 <= i < n ==> s[..n][i] == s[i];
    }
  }

  /** Whether a quality filter keeps a paper: it gives the paper a score. */
  function Admitted<T>(assess: T -> Option<int>): T -> bool
  {
    x => assess(x).Some?
  }

  /** The temporary `_quality_score` a filter writes into a kept paper, as a sort key. */
  function ScoreOf<T>(assess: T -> Option<int>): T -> Key
  {
    x => NumKey(if assess(x).Some? then assess(x).value as real else 0.0)
  }

  /**
   * A quality filter: the loop keeps the papers it scores, then
   * `sort(key=score, reverse=True)` orders them and the score is removed again.
   */
  function Ranked<T>(papers: seq<T>, assess: T -> Option<int>): seq<T>
  {
    SortDesc(Filter(papers, Admitted(assess)), ScoreOf(assess))
  }

  /**
   * A quality filter returns exactly the papers it admits, each as often as
   * in the input, ordered by non-increasing score, papers of equal score in
   * input order.
   */
  lemma RankedSpec<T>(papers: seq<T>, assess: T -> Option<int>)
    ensures var r := Ranked(papers, assess);
      multiset(r) == multiset(Filter(papers, Admitted(assess))) &&
      (forall i :: 0 <= i < |r| ==> assess(r[i]).Some?) &&
      (forall i, j :: 0 <= i < j < |r| ==> assess(r[i]).value >= assess(r[j]).value) &&
      (forall k :: KeyClass(r, ScoreOf(assess), k) == KeyClass(Filter(papers, Admitted(assess)), ScoreOf(assess), k))
  {
    var kept := Filter(papers, Admitted(assess));
    SortDescMultiset(kept, ScoreOf(assess));
    RankedAdmitted(papers, assess);
    RankedSorted(papers, assess);
    forall k
      ensures KeyClass(Ranked(papers, assess), ScoreOf(assess), k) == KeyClass(kept, ScoreOf(assess), k)
    {
      SortDescStable(kept, ScoreOf(assess), k);
    }
  }

  lemma RankedAdmitted<T>(papers: seq<T>, assess: T -> Option<int>)
    ensures forall x :: x in Ranked(papers, assess) ==> x in papers && assess(x).Some?
  {
    forall x | x in Ranked(papers, assess)
      ensures x in papers && assess(x).Some?
    {
      RankedMember(papers, assess, x);
    }
  }

  lemma RankedMember<T>(papers: seq<T>, assess: T -> Option<int>, x: T)
    requires x in SortDesc(Filter(papers, Admitted(assess)), ScoreOf(assess))
    ensures x in papers && assess(x).Some?
  {
    SortDescMembers(Filter(papers, Admitted(assess)), ScoreOf(assess));
    FilterMembers(papers, Admitted(assess));
    assert Admitted(assess)(x);
  }

  lemma RankedSorted<T>(papers: seq<T>, assess: T -> Option<int>)
    ensures var r := Ranked(papers, assess);
      forall i, j :: 0 <= i < j < |r| ==> assess(r[i]).Some? && assess(r[j]).Some? && assess(r[i]).value >= assess(r[j]).value
  {
    var kept := Filter(papers, Admitted(assess));
    var r := Ranked(papers, assess);
    SortDescSorted(kept, ScoreOf(assess));
    RankedAdmitted(papers, assess);
    forall i, j | 0 <= i < j < |r|
      ensures assess(r[i]).Some? && assess(r[j]).Some? && assess(r[i]).value >= assess(r[j]).value
    {
      assert r[i] in r && r[j] in r;
      assert KeyGe(ScoreOf(assess)(r[i]), ScoreOf(assess)(r[j]));
    }
  }
}
