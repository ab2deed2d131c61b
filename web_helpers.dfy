// ai_scholar/utils/web_helpers.py: grouping search results by source for
// display, and the query-string integer parser. Python dicts keep
// insertion order and match keys by ==, so groups come out in first-seen
// source order and a source equal to an earlier one (1 and 1.0, say)
// joins that group.

module WebHelpers {
  import opened Base
  import opened Text
  import opened Values

  datatype Group = Group(source: Value, papers: seq<PaperDict>)

  /** `paper.get('citations') or paper.get('citation') or 'N/A'`. */
  function CitationDisplay(p: PaperDict): Value
  {
    if Truthy(Get(p, "citations", NoneV)) then p["citations"]
    else if Truthy(Get(p, "citation", NoneV)) then p["citation"]
    else StrV("N/A")
  }

  /** The display dict of one paper; `explanation` only when truthy. */
  function Details(p: PaperDict): PaperDict
  {
    var base := map["title" := Get(p, "title", StrV("No title")), "year" := Get(p, "year", StrV("Unknown year")),
                    "authors" := Get(p, "authors", StrV("No authors")), "citations" := CitationDisplay(p),
                    "url" := Get(p, "url", StrV("#"))];
    if Truthy(Get(p, "explanation", NoneV)) then base["explanation" := p["explanation"]] else base
  }

  /** The display fields: the defaults, a zero count shown as 'N/A', an explanation key only when truthy. */
  lemma DetailsFields(p: PaperDict)
    ensures var d := Details(p);
      d.Keys == {"title", "year", "authors", "citations", "url"} + (if Truthy(Get(p, "explanation", NoneV)) then {"explanation"} else {}) &&
      ("title" !in p ==> d["title"] == StrV("No title")) &&
      ("year" !in p ==> d["year"] == StrV("Unknown year")) &&
      (!Truthy(Get(p, "citations", NoneV)) && !Truthy(Get(p, "citation", NoneV)) ==> d["citations"] == StrV("N/A")) &&
      (Get(p, "citations", NoneV) == IntV(0) && "citation" !in p ==> d["citations"] == StrV("N/A"))
  {
  }

  /** A value a dict can use as a key. */
  predicate Hashable(v: Value)
  {
    !v.ListV? && !v.DictV?
  }

  function SourceOf(p: PaperDict, default: Value): Value
  {
    Get(p, "source", default)
  }

  /** The position of the group whose key equals `key`, if any. */
  function IndexOf(groups: seq<Group>, key: Value): (r: Option<nat>)
    ensures r.None? ==> forall k :: 0 <= k < |groups| ==> !PyEq(groups[k].source, key)
    ensures r.Some? ==> r.value < |groups| && PyEq(groups[r.value].source, key)
  {
    if groups == [] then None
    else match IndexOf(groups[..|groups| - 1], key)
      case Some(i) => Some(i)
      case None => if PyEq(groups[|groups| - 1].source, key) then Some(|groups| - 1) else None
  }

  /** One iteration of the grouping loop; an unhashable source is the TypeError of `source not in groups`. */
  function AddPaper(groups: seq<Group>, paper: Value, default: Value): Result<seq<Group>>
  {
    if !paper.DictV? then Ok(groups)
    else
      var source := SourceOf(paper.fields, default);
      if !Hashable(source) then Err("TypeError: unhashable type")
      else match IndexOf(groups, source)
        case None => Ok(groups + [Group(source, [Details(paper.fields)])])
        case Some(i) => Ok(groups[i := Group(groups[i].source, groups[i].papers + [Details(paper.fields)])])
  }

  /** group_results_by_source: the groups after the whole loop. */
  function Grouped(papers: seq<Value>, default: Value): Result<seq<Group>>
  {
    if papers == [] then Ok([])
    else match Grouped(papers[..|papers| - 1], default)
      case Err(e) => Err(e)
      case Ok(groups) => AddPaper(groups, papers[|papers| - 1], default)
  }

  method GroupResultsBySource(papers: seq<Value>, default: Value) returns (r: Result<seq<Group>>)
    ensures r == Grouped(papers, default)
  {
    var groups: seq<Group> := [];
    var i := 0;
    while i < |papers|
      invariant 0 <= i <= |papers|
      invariant Grouped(papers[..i], default) == Ok(groups)
    {
      assert papers[..i + 1][..i] == papers[..i];
      var paper := papers[i];
      if paper.DictV? {
        var source := SourceOf(paper.fields, default);
        if !Hashable(source) {
          ErrSticks(papers, i + 1, default);
          return Err("TypeError: unhashable type");
        }
        var at := IndexOf(groups, source);
        if at.None? {
          groups := groups + [Group(source, [Details(paper.fields)])];
        } else {
          var k := at.value;
          groups := groups[k := Group(groups[k].source, groups[k].papers + [Details(paper.fields)])];
        }
      }
      i := i + 1;
    }
    assert papers[..i] == papers;
    r := Ok(groups);
  }

  lemma {:induction false} ErrSticks(papers: seq<Value>, i: nat, default: Value)
    requires i <= |papers| && Grouped(papers[..i], default).Err?
    ensures Grouped(papers, default) == Grouped(papers[..i], default)
    decreases |papers| - i
  {
    if i < |papers| {
      assert papers[..i + 1][..i] == papers[..i];
      ErrSticks(papers, i + 1, default);
    } else {
      assert papers[..i] == papers;
    }
  }

  // ---------------------------------------------------------------- what the groups hold

  /** The display dicts of the dict papers whose source equals `key`, in input order. */
  function Members(papers: seq<Value>, default: Value, key: Value): seq<PaperDict>
  {
    if papers == [] then []
    else
      var last := papers[|papers| - 1];
      Members(papers[..|papers| - 1], default, key) +
        (if last.DictV? && PyEq(SourceOf(last.fields, default), key) then [Details(last.fields)] else [])
  }

  /** How many entries are dicts. */
  function DictCount(papers: seq<Value>): nat
  {
    if papers == [] then 0
    else DictCount(papers[..|papers| - 1]) + (if papers[|papers| - 1].DictV? then 1 else 0)
  }

  function TotalSize(groups: seq<Group>): nat
  {
    if groups == [] then 0 else TotalSize(groups[..|groups| - 1]) + |groups[|groups| - 1].papers|
  }

  lemma PyEqEquivalence(a: Value, b: Value, c: Value)
    ensures PyEq(a, a)
    ensures PyEq(a, b) ==> PyEq(b, a)
    ensures PyEq(a, b) && PyEq(b, c) ==> PyEq(a, c)
  {
  }

  /** The loop invariant of the grouping: distinct keys, each group exactly its members, every present source grouped. */
  ghost predicate GroupsOf(groups: seq<Group>, papers: seq<Value>, default: Value)
  {
    DistinctKeys(groups) && ExactGroups(groups, papers, default) && Covered(groups, papers, default)
  }

  /** No two groups have equal keys. */
  ghost predicate DistinctKeys(groups: seq<Group>)
  {
    forall i, j :: 0 <= i < j < |groups| ==> !PyEq(groups[i].source, groups[j].source)
  }

  /** Each group holds exactly the display dicts of the papers with its key. */
  ghost predicate ExactGroups(groups: seq<Group>, papers: seq<Value>, default: Value)
  {
    forall k :: 0 <= k < |groups| ==> groups[k].papers == Members(papers, default, groups[k].source)
  }

  /** Every source some paper has is the key of a group. */
  ghost predicate Covered(groups: seq<Group>, papers: seq<Value>, default: Value)
  {
    forall key :: Members(papers, default, key) != [] ==> IndexOf(groups, key).Some?
  }

  /** Members of one more paper. */
  lemma MembersSnoc(papers: seq<Value>, x: Value, default: Value, key: Value)
    ensures Members(papers + [x], default, key) == Members(papers, default, key) +
      (if x.DictV? && PyEq(SourceOf(x.fields, default), key) then [Details(x.fields)] else [])
  {
    assert (papers + [x])[..|papers|] == papers;
  }

  lemma TotalSizeAppend(groups: seq<Group>, g: Group)
    ensures TotalSize(groups + [g]) == TotalSize(groups) + |g.papers|
  {
    assert (groups + [g])[..|groups|] == groups;
  }

  lemma {:induction false} TotalSizeUpdate(groups: seq<Group>, i: nat, g: Group)
    requires i < |groups|
    ensures TotalSize(groups[i := g]) == TotalSize(groups) - |groups[i].papers| + |g.papers|
    decreases |groups|
  {
    var n := |groups| - 1;
    if i < n {
      TotalSizeUpdate(groups[..n], i, g);
      assert groups[i := g][..n] == groups[..n][i := g];
    } else {
      assert groups[i := g][..n] == groups[..n];
    }
  }

  /** A paper with a new source: the new group holds just it, and no other group changes. */
  lemma AddNew(groups: seq<Group>, papers: seq<Value>, x: Value, default: Value)
    requires GroupsOf(groups, papers, default)
    requires x.DictV? && Hashable(SourceOf(x.fields, default)) && IndexOf(groups, SourceOf(x.fields, default)).None?
    ensures GroupsOf(groups + [Group(SourceOf(x.fields, default), [Details(x.fields)])], papers + [x], default)
  {
    var src := SourceOf(x.fields, default);
    assert Members(papers, default, src) == [];
    AddNewDistinct(groups, src, [Details(x.fields)]);
    AddNewExact(groups, papers, x, default);
    AddNewCovered(groups, papers, x, default);
  }

  lemma AddNewDistinct(groups: seq<Group>, src: Value, ps: seq<PaperDict>)
    requires DistinctKeys(groups) && IndexOf(groups, src).None?
    ensures DistinctKeys(groups + [Group(src, ps)])
  {
  }

  lemma AddNewExact(groups: seq<Group>, papers: seq<Value>, x: Value, default: Value)
    requires x.DictV? && ExactGroups(groups, papers, default)
    requires IndexOf(groups, SourceOf(x.fields, default)).None? && Members(papers, default, SourceOf(x.fields, default)) == []
    ensures ExactGroups(groups + [Group(SourceOf(x.fields, default), [Details(x.fields)])], papers + [x], default)
  {
    var src := SourceOf(x.fields, default);
    var g := groups + [Group(src, [Details(x.fields)])];
    forall k | 0 <= k < |g|
      ensures g[k].papers == Members(papers + [x], default, g[k].source)
    {
      MembersSnoc(papers, x, default, g[k].source);
      if k < |groups| {
        PyEqEquivalence(src, groups[k].source, src);
      } else {
        PyEqEquivalence(src, src, src);
      }
    }
  }

  lemma AddNewCovered(groups: seq<Group>, papers: seq<Value>, x: Value, default: Value)
    requires x.DictV? && Covered(groups, papers, default)
    ensures Covered(groups + [Group(SourceOf(x.fields, default), [Details(x.fields)])], papers + [x], default)
  {
    var src := SourceOf(x.fields, default);
    var g := groups + [Group(src, [Details(x.fields)])];
    forall key | Members(papers + [x], default, key) != []
      ensures IndexOf(g, key).Some?
    {
      MembersSnoc(papers, x, default, key);
      if Members(papers, default, key) == [] {
        IndexOfAt(g, key, |groups|);
      } else {
        IndexOfAt(g, key, IndexOf(groups, key).value);
      }
    }
  }

  /** A paper with a known source joins the one group whose key equals it. */
  lemma AddKnown(groups: seq<Group>, papers: seq<Value>, x: Value, default: Value, i: nat)
    requires GroupsOf(groups, papers, default)
    requires x.DictV? && IndexOf(groups, SourceOf(x.fields, default)) == Some(i)
    ensures var g := groups[i := Group(groups[i].source, groups[i].papers + [Details(x.fields)])];
      GroupsOf(g, papers + [x], default)
  {
    var src := SourceOf(x.fields, default);
    var s := papers + [x];
    var g := groups[i := Group(groups[i].source, groups[i].papers + [Details(x.fields)])];
    assert s[..|s| - 1] == papers;
    forall k | 0 <= k < |g|
      ensures g[k].papers == Members(s, default, g[k].source)
    {
      if k != i {
        PyEqEquivalence(groups[k].source, src, groups[i].source);
        PyEqEquivalence(groups[i].source, groups[k].source, src);
        PyEqEquivalence(groups[i].source, src, groups[k].source);
      }
    }
    forall key | Members(s, default, key) != []
      ensures IndexOf(g, key).Some?
    {
      var m := if Members(papers, default, key) != [] then IndexOf(groups, key).value else i;
      if Members(papers, default, key) == [] {
        PyEqEquivalence(groups[i].source, src, key);
      }
      IndexOfAt(g, key, m);
    }
  }

  lemma {:induction false} IndexOfAt(groups: seq<Group>, key: Value, m: nat)
    requires m < |groups| && PyEq(groups[m].source, key)
    ensures IndexOf(groups, key).Some?
    decreases |groups|
  {
    if m < |groups| - 1 {
      IndexOfAt(groups[..|groups| - 1], key, m);
    }
  }

  /** One loop step keeps the invariant and the size count. */
  lemma AddPaperKeeps(groups: seq<Group>, init: seq<Value>, x: Value, default: Value)
    requires GroupsOf(groups, init, default) && TotalSize(groups) == DictCount(init)
    requires AddPaper(groups, x, default).Ok?
    ensures GroupsOf(AddPaper(groups, x, default).value, init + [x], default)
    ensures TotalSize(AddPaper(groups, x, default).value) == DictCount(init + [x])
  {
    var s := init + [x];
    assert s[..|s| - 1] == init;
    if x.DictV? {
      var src := SourceOf(x.fields, default);
      match IndexOf(groups, src)
      case None =>
        AddNew(groups, init, x, default);
        TotalSizeAppend(groups, Group(src, [Details(x.fields)]));
      case Some(i) =>
        AddKnown(groups, init, x, default, i);
        TotalSizeUpdate(groups, i, Group(groups[i].source, groups[i].papers + [Details(x.fields)]));
    } else {
      forall k | 0 <= k < |groups|
        ensures groups[k].papers == Members(s, default, groups[k].source)
      {
      }
    }
  }

  /** Grouping succeeds exactly when every dict paper has a hashable source. */
  lemma {:induction false} GroupedOk(papers: seq<Value>, default: Value)
    ensures Grouped(papers, default).Ok? <==>
      forall i :: 0 <= i < |papers| && papers[i].DictV? ==> Hashable(SourceOf(papers[i].fields, default))
    decreases |papers|
  {
    if papers != [] {
      var init := papers[..|papers| - 1];
      GroupedOk(init, default);
      assert forall i :: 0 <= i < |init| ==> init[i] == papers[i];
    }
  }

  /**
   * The groups have pairwise different sources, each holds the display
   * dicts of exactly the papers with its source, in input order, every
   * dict paper's source has a group, and the group sizes add up to the
   * number of dict papers.
   */
  lemma {:induction false} GroupedProperties(papers: seq<Value>, default: Value)
    requires Grouped(papers, default).Ok?
    ensures GroupsOf(Grouped(papers, default).value, papers, default)
    ensures TotalSize(Grouped(papers, default).value) == DictCount(papers)
    decreases |papers|
  {
    if papers != [] {
      var init := papers[..|papers| - 1];
      var x := papers[|papers| - 1];
      GroupedProperties(init, default);
      assert init + [x] == papers;
      AddPaperKeeps(Grouped(init, default).value, init, x, default);
    }
  }

  // ---------------------------------------------------------------- parse_int

  /** parse_int: `int(value)` for a non-empty string of digits, the default otherwise (ASCII digits). */
  function ParseDigits(value: Option<string>, default: Option<int>): Option<int>
  {
    if value.Some? && IsDigits(value.value) then Some(DigitsValue(value.value)) else default
  }

  /** Every printed non-negative int parses back; a sign, a blank and a missing value give the default. */
  lemma ParseDigitsCases(n: nat, default: Option<int>)
    ensures ParseDigits(Some(NatToString(n)), default) == Some(n)
    ensures ParseDigits(Some("-" + NatToString(n)), default) == default
    ensures ParseDigits(Some(""), default) == default && ParseDigits(None, default) == default
  {
    DigitsValueOfNatToString(n);
    assert !IsDigit(("-" + NatToString(n))[0]);
  }
}
