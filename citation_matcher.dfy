// ai_scholar/utils/arxvic_configs/citation_matcher.py: reading the arXiv id
// out of a Semantic Scholar record, matching a record to an indexed paper by
// title, and writing a citation count into the indexed paper in place.
// Err stands for the exception Python raises (TypeError, AttributeError,
// IndexError, ValueError).

module CitationMatcher {
  import opened Base
  import opened Text
  import opened Values
  import opened PaperIndexer
  import WebHelpers

  // ---------------------------------------------------------------- extract_arxiv_id_from_paper

  /** Python's `'arxiv' in external_ids` for a dict, a string or a list; Err for a value that is not iterable. */
  function HasArxivKey(ext: Value): Result<bool>
  {
    match ext
    case DictV(m) => Ok("arxiv" in m)
    case StrV(s) => Ok(Contains(s, "arxiv"))
    case ListV(xs) => Ok(exists i :: 0 <= i < |xs| && PyEq(xs[i], StrV("arxiv")))
    case _ => Err("TypeError: argument is not iterable")
  }

  /** extract_arxiv_id_from_paper: Ok(NoneV) is the None it returns. */
  function ExtractArxivId(paper: PaperDict): Result<Value>
  {
    var ext := Get(paper, "externalIds", DictV(map[]));
    match HasArxivKey(ext)
    case Err(e) => Err(e)
    case Ok(false) => Ok(NoneV)
    case Ok(true) =>
      if !ext.DictV? then Err("TypeError: indices must be integers")
      else
        var id := ext.fields["arxiv"];
        if id.ListV? then (if id.items == [] then Err("IndexError: list index out of range") else Ok(id.items[0]))
        else Ok(id)
  }

  /**
   * For the usual record, whose externalIds is a dict (or absent): the id is
   * None exactly when the lowercase key 'arxiv' is missing, a list gives its
   * first element, any other value is returned as it is; only an empty list
   * raises.
   */
  lemma ExtractArxivIdCases(paper: PaperDict, ids: map<string, Value>)
    requires Get(paper, "externalIds", DictV(map[])) == DictV(ids)
    ensures "arxiv" !in ids ==> ExtractArxivId(paper) == Ok(NoneV)
    ensures "arxiv" in ids && ids["arxiv"].ListV? && ids["arxiv"].items != [] ==>
      ExtractArxivId(paper) == Ok(ids["arxiv"].items[0])
    ensures "arxiv" in ids && !ids["arxiv"].ListV? ==> ExtractArxivId(paper) == Ok(ids["arxiv"])
    ensures ExtractArxivId(paper).Err? <==> "arxiv" in ids && ids["arxiv"] == ListV([])
    ensures "externalIds" !in paper ==> ExtractArxivId(paper) == Ok(NoneV)
  {
  }

  // ---------------------------------------------------------------- match_by_title

  /** `s.strip().lower()`. */
  function Normalised(s: string): string
  {
    Lower(Strip(s))
  }

  /** `papers[idx].get('title', '').strip().lower()`, or the exception it raises. */
  function TitleAt(papers: seq<Value>, idx: nat): Result<string>
  {
    if idx >= |papers| then Err("IndexError: list index out of range")
    else if !papers[idx].DictV? then Err("AttributeError: object has no attribute 'get'")
    else
      var t := Get(papers[idx].fields, "title", StrV(""));
      if t.StrV? then Ok(Normalised(t.s)) else Err("AttributeError: object has no attribute 'strip'")
  }

  /** The loop of match_by_title over the dict's entries, in order, with `read` giving the normalised title at a position. */
  function FirstMatch(index: seq<Entry>, read: nat -> Result<string>, title: string): Result<Option<Value>>
  {
    if index == [] then Ok(None)
    else match read(index[0].index)
      case Err(e) => Err(e)
      case Ok(t) => if t == title then Ok(Some(index[0].id)) else FirstMatch(index[1..], read, title)
  }

  /** match_by_title. */
  function MatchByTitle(paper: PaperDict, papers: seq<Value>, index: seq<Entry>): Result<Option<Value>>
  {
    var t := Get(paper, "title", StrV(""));
    if !t.StrV? then Err("AttributeError: object has no attribute 'strip'")
    else FirstMatch(index, (i: nat) => TitleAt(papers, i), Normalised(t.s))
  }

  /** The entries before `k` all have a readable title different from `title`. */
  ghost predicate NoMatchBefore(index: seq<Entry>, read: nat -> Result<string>, title: string, k: nat)
    requires k <= |index|
  {
    forall j :: 0 <= j < k ==> read(index[j].index).Ok? && read(index[j].index).value != title
  }

  /** The search returns None exactly when every entry has a readable title different from `title`. */
  lemma {:induction false} MatchNone(index: seq<Entry>, read: nat -> Result<string>, title: string)
    ensures FirstMatch(index, read, title) == Ok(None) <==> NoMatchBefore(index, read, title, |index|)
  {
    if index != [] {
      var rest := index[1..];
      MatchNone(rest, read, title);
      assert forall j :: 0 <= j < |rest| ==> rest[j] == index[j + 1];
      if read(index[0].index).Ok? && read(index[0].index).value != title {
        if NoMatchBefore(rest, read, title, |rest|) {
          assert NoMatchBefore(index, read, title, |index|);
        }
      }
    }
  }

  /** A returned id belongs to the first entry, in dict order, whose paper's normalised title equals `title`. */
  lemma {:induction false} MatchSome(index: seq<Entry>, read: nat -> Result<string>, title: string)
    requires FirstMatch(index, read, title).Ok? && FirstMatch(index, read, title).value.Some?
    ensures exists k :: (0 <= k < |index| && index[k].id == FirstMatch(index, read, title).value.value &&
                         read(index[k].index) == Ok(title) && NoMatchBefore(index, read, title, k))
  {
    var rest := index[1..];
    if read(index[0].index).value != title {
      MatchSome(rest, read, title);
      var k :| 0 <= k < |rest| && rest[k].id == FirstMatch(rest, read, title).value.value &&
        read(rest[k].index) == Ok(title) && NoMatchBefore(rest, read, title, k);
      assert forall j :: 0 <= j < |rest| ==> rest[j] == index[j + 1];
      assert NoMatchBefore(index, read, title, k + 1);
    } else {
      assert NoMatchBefore(index, read, title, 0);
    }
  }

  /** An exception comes from the first entry whose title cannot be read, with no match before it. */
  lemma {:induction false} MatchErr(index: seq<Entry>, read: nat -> Result<string>, title: string)
    requires FirstMatch(index, read, title).Err?
    ensures exists k :: 0 <= k < |index| && read(index[k].index).Err? && NoMatchBefore(index, read, title, k)
  {
    var rest := index[1..];
    if read(index[0].index).Ok? {
      MatchErr(rest, read, title);
      var k :| 0 <= k < |rest| && read(rest[k].index).Err? && NoMatchBefore(rest, read, title, k);
      assert forall j :: 0 <= j < |rest| ==> rest[j] == index[j + 1];
      assert NoMatchBefore(index, read, title, k + 1);
    } else {
      assert NoMatchBefore(index, read, title, 0);
    }
  }

  /** On an index built from `papers` every entry points at a dict paper, so matching raises only for a title that is not a string. */
  lemma IndexedTitlesReadable(papers: seq<Value>, k: nat)
    requires Indexed(papers).Ok? && k < |Indexed(papers).value.index|
    ensures var e := Indexed(papers).value.index[k];
      e.index < |papers| && papers[e.index].DictV? &&
      (TitleAt(papers, e.index).Err? <==> !Get(papers[e.index].fields, "title", StrV("")).StrV?)
  {
    IndexedProperties(papers);
    var e := Indexed(papers).value.index[k];
    assert LastAt(papers, |papers|, e.id, e.index);
  }

  // ---------------------------------------------------------------- update_paper_citation

  /** The paper list after update_paper_citation, and the flag it returns. */
  datatype Update = Update(found: bool, papers: seq<Value>)

  /** update_paper_citation on values: `papers[idx]['citation'] = int(count)` for the indexed paper. */
  function CitationUpdate(papers: seq<Value>, index: seq<Entry>, id: Value, count: Value): Result<Update>
  {
    if !WebHelpers.Hashable(id) then Err("TypeError: unhashable type")
    else match Lookup(index, id)
      case None => Ok(Update(false, papers))
      case Some(i) =>
        match PyInt(count)
        case None => Err("ValueError: invalid literal for int()")
        case Some(c) =>
          if i >= |papers| then Err("IndexError: list index out of range")
          else if !papers[i].DictV? then Err("TypeError: object does not support item assignment")
          else Ok(Update(true, papers[i := DictV(papers[i].fields["citation" := IntV(c)])]))
  }

  /** update_paper_citation, writing into the caller's list in place. */
  method UpdatePaperCitation(papers: array<Value>, index: seq<Entry>, id: Value, count: Value) returns (r: Result<bool>)
    modifies papers
    ensures r.Ok? <==> CitationUpdate(old(papers[..]), index, id, count).Ok?
    ensures r.Ok? ==> r.value == CitationUpdate(old(papers[..]), index, id, count).value.found
    ensures r.Ok? ==> papers[..] == CitationUpdate(old(papers[..]), index, id, count).value.papers
    ensures r.Err? ==> papers[..] == old(papers[..])
  {
    ghost var before := papers[..];
    ghost var u := CitationUpdate(before, index, id, count);
    if !WebHelpers.Hashable(id) {
      return Err("TypeError: unhashable type");
    }
    var idx := Lookup(index, id);
    if idx.None? {
      assert u == Ok(Update(false, before));
      return Ok(false);
    }
    var i := idx.value;
    var c := PyInt(count);
    if c.None? || i >= papers.Length || !papers[i].DictV? {
      assert u.Err?;
      return Err(if c.None? then "ValueError: invalid literal for int()"
                 else if i >= papers.Length then "IndexError: list index out of range"
                 else "TypeError: object does not support item assignment");
    }
    papers[i] := DictV(papers[i].fields["citation" := IntV(c.value)]);
    assert papers[..] == u.value.papers;
    r := Ok(true);
  }

  /**
   * The flag is true exactly when the id is a key; an unknown id changes
   * nothing, and a known one changes only the `citation` key of the one
   * paper it maps to, which becomes the integer value of the count.
   */
  lemma CitationUpdateEffect(papers: seq<Value>, index: seq<Entry>, id: Value, count: Value)
    requires CitationUpdate(papers, index, id, count).Ok?
    ensures var u := CitationUpdate(papers, index, id, count).value;
      |u.papers| == |papers| &&
      (u.found <==> Lookup(index, id).Some?) &&
      (!u.found ==> u.papers == papers) &&
      (u.found ==> var i := Lookup(index, id).value;
         i < |papers| && papers[i].DictV? && u.papers[i].DictV? &&
         (forall j :: 0 <= j < |papers| && j != i ==> u.papers[j] == papers[j]) &&
         u.papers[i].fields.Keys == papers[i].fields.Keys + {"citation"} &&
         Some(u.papers[i].fields["citation"].i) == PyInt(count) && u.papers[i].fields["citation"].IntV? &&
         (forall k :: k in papers[i].fields && k != "citation" ==> u.papers[i].fields[k] == papers[i].fields[k]))
  {
  }

  /** The update raises only for an unhashable id, or for a known id with a count int() rejects or a bad position. */
  lemma CitationUpdateErrors(papers: seq<Value>, index: seq<Entry>, id: Value, count: Value)
    ensures CitationUpdate(papers, index, id, count).Err? <==>
      !WebHelpers.Hashable(id) ||
      (Lookup(index, id).Some? &&
       (PyInt(count).None? || Lookup(index, id).value >= |papers| || !papers[Lookup(index, id).value].DictV?))
  {
  }

  /** With an index built from the same papers, a listed id and an int-like count always update, and return true. */
  lemma UpdateListedId(papers: seq<Value>, j: nat, count: Value)
    requires Indexed(papers).Ok? && j < |Indexed(papers).value.ids| && PyInt(count).Some?
    ensures var a := Indexed(papers).value;
      CitationUpdate(papers, a.index, a.ids[j], count).Ok? && CitationUpdate(papers, a.index, a.ids[j], count).value.found
  {
    var a := Indexed(papers).value;
    IndexPointsBack(papers, j);
    IndexedOk(papers);
    FilterMapIds(papers, j);
  }

  /** A listed id is the `roi` of some paper, hence hashable on a built index. */
  lemma FilterMapIds(papers: seq<Value>, j: nat)
    requires Indexed(papers).Ok? && j < |Indexed(papers).value.ids|
    ensures WebHelpers.Hashable(Indexed(papers).value.ids[j])
  {
    var a := Indexed(papers).value;
    IndexedProperties(papers);
    IndexedOk(papers);
    Lists.FilterMapMembers(papers, RoiOf);
    assert a.ids[j] in Lists.FilterMap(papers, RoiOf);
  }
}
