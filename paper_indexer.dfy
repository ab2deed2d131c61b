// ai_scholar/utils/arxvic_configs/paper_indexer.py: the index from arXiv
// ids (the `roi` field that extract_arxiv_ids writes) to positions in the
// paper list, and the check whether any paper carries such an id.
//
// The index is a Python dict keyed by the id values. It is kept here as a
// list of entries in first-insertion order, because a dict iterates in that
// order and citation matching walks it; keys compare as Python compares
// them (1 == 1.0 == True).

module PaperIndexer {
  import opened Base
  import opened Values
  import opened Lists
  import WebHelpers

  /** One key of `arxiv_id_to_index` with the position it maps to. */
  datatype Entry = Entry(id: Value, index: nat)

  /** The two results of create_arxiv_index. */
  datatype ArxivIndex = ArxivIndex(ids: seq<Value>, index: seq<Entry>)

  /** The id create_arxiv_index lists for a paper: the truthy `roi` of a dict paper. */
  function RoiOf(p: Value): Option<Value>
  {
    if p.DictV? && Truthy(Get(p.fields, "roi", NoneV)) then Some(p.fields["roi"]) else None
  }

  /** The entry whose key equals `key`, as a dict finds it. */
  function Find(index: seq<Entry>, key: Value): (r: Option<nat>)
    ensures r.None? ==> forall k :: 0 <= k < |index| ==> !PyEq(index[k].id, key)
    ensures r.Some? ==> r.value < |index| && PyEq(index[r.value].id, key)
  {
    if index == [] then None
    else if PyEq(index[0].id, key) then Some(0)
    else match Find(index[1..], key)
      case None => None
      case Some(k) => Some(k + 1)
  }

  /** `d.get(key)`. */
  function Lookup(index: seq<Entry>, key: Value): Option<nat>
  {
    match Find(index, key)
    case None => None
    case Some(k) => Some(index[k].index)
  }

  /** `d[key] = idx`: a key already present keeps its place and its original key object; a new key goes last. */
  function Put(index: seq<Entry>, key: Value, idx: nat): (r: seq<Entry>)
  {
    match Find(index, key)
    case Some(k) => index[k := Entry(index[k].id, idx)]
    case None => index + [Entry(key, idx)]
  }

  /** One turn of the loop of create_arxiv_index, over the paper at position `n`; Err is the TypeError of an unhashable id. */
  function Step(acc: ArxivIndex, paper: Value, n: nat): Result<ArxivIndex>
  {
    match RoiOf(paper)
    case None => Ok(acc)
    case Some(id) =>
      if !WebHelpers.Hashable(id) then Err("TypeError: unhashable type")
      else Ok(ArxivIndex(acc.ids + [id], Put(acc.index, id, n)))
  }

  /** The index after the loop of create_arxiv_index has visited every paper. */
  function Indexed(papers: seq<Value>): Result<ArxivIndex>
  {
    if papers == [] then Ok(ArxivIndex([], []))
    else
      var n := |papers| - 1;
      match Indexed(papers[..n])
      case Err(e) => Err(e)
      case Ok(acc) => Step(acc, papers[n], n)
  }

  lemma {:induction false} ErrSticks(papers: seq<Value>, i: nat)
    requires i <= |papers| && Indexed(papers[..i]).Err?
    ensures Indexed(papers) == Indexed(papers[..i])
    decreases |papers| - i
  {
    if i < |papers| {
      assert papers[..i + 1][..i] == papers[..i];
      ErrSticks(papers, i + 1);
    } else {
      assert papers[..i] == papers;
    }
  }

  /** create_arxiv_index. */
  method CreateArxivIndex(papers: seq<Value>) returns (r: Result<ArxivIndex>)
    ensures r == Indexed(papers)
  {
    var ids: seq<Value> := [];
    var index: seq<Entry> := [];
    var i := 0;
    while i < |papers|
      invariant 0 <= i <= |papers|
      invariant Indexed(papers[..i]) == Ok(ArxivIndex(ids, index))
    {
      assert papers[..i + 1][..i] == papers[..i];
      var paper := papers[i];
      if paper.DictV? {
        var id := Get(paper.fields, "roi", NoneV);
        if Truthy(id) {
          ids := ids + [id];
          if !WebHelpers.Hashable(id) {
            ErrSticks(papers, i + 1);
            return Err("TypeError: unhashable type");
          }
          index := Put(index, id, i);
        }
      }
      i := i + 1;
    }
    assert papers[..i] == papers;
    r := Ok(ArxivIndex(ids, index));
  }

  /** has_arxiv_papers. */
  method HasArxivPapers(papers: seq<Value>) returns (r: bool)
    ensures r <==> exists i :: 0 <= i < |papers| && RoiOf(papers[i]).Some?
  {
    for i := 0 to |papers|
      invariant forall k :: 0 <= k < i ==> RoiOf(papers[k]).None?
    {
      var paper := papers[i];
      if paper.DictV? && Truthy(Get(paper.fields, "roi", NoneV)) {
        return true;
      }
    }
    return false;
  }

  // ---------------------------------------------------------------- what the index holds

  /** Position `p` holds the last paper before `n` whose id equals `id`. */
  ghost predicate LastAt(papers: seq<Value>, n: nat, id: Value, p: nat)
    requires n <= |papers|
  {
    p < n && RoiOf(papers[p]).Some? && PyEq(RoiOf(papers[p]).value, id) &&
    forall m :: p < m < n && RoiOf(papers[m]).Some? ==> !PyEq(RoiOf(papers[m]).value, id)
  }

  /** No two keys of the dict are equal. */
  ghost predicate DistinctKeys(index: seq<Entry>)
  {
    forall j, k :: 0 <= j < k < |index| ==> !PyEq(index[j].id, index[k].id)
  }

  /** Every key is a listed id and every listed id is a key. */
  ghost predicate KeysAreIds(a: ArxivIndex)
  {
    (forall k :: 0 <= k < |a.index| ==> a.index[k].id in a.ids) &&
    (forall j :: 0 <= j < |a.ids| ==> Find(a.index, a.ids[j]).Some?)
  }

  /** Every key maps to the last position before `n` whose id equals it. */
  ghost predicate AllLast(papers: seq<Value>, n: nat, index: seq<Entry>)
    requires n <= |papers|
  {
    forall k :: 0 <= k < |index| ==> LastAt(papers, n, index[k].id, index[k].index)
  }

  /** The index built from papers[..n]: the listed ids, distinct keys drawn from them, each at its last position. */
  ghost predicate Describes(papers: seq<Value>, n: nat, a: ArxivIndex)
    requires n <= |papers|
  {
    a.ids == FilterMap(papers[..n], RoiOf) && DistinctKeys(a.index) && KeysAreIds(a) && AllLast(papers, n, a.index)
  }

  /** A step over a paper without an id keeps the description. */
  lemma SkipStep(papers: seq<Value>, n: nat, a: ArxivIndex)
    requires n < |papers| && Describes(papers, n, a) && RoiOf(papers[n]).None?
    ensures Describes(papers, n + 1, a)
  {
    FilterMapStep(papers, n, RoiOf);
    forall k | 0 <= k < |a.index|
      ensures LastAt(papers, n + 1, a.index[k].id, a.index[k].index)
    {
      assert LastAt(papers, n, a.index[k].id, a.index[k].index);
    }
  }

  /** Moving a present key to the new position: it is now last, and every other key stays last. */
  lemma KnownLast(papers: seq<Value>, n: nat, index: seq<Entry>, id: Value, k0: nat)
    requires n < |papers| && DistinctKeys(index) && AllLast(papers, n, index) && RoiOf(papers[n]) == Some(id)
    requires k0 < |index| && PyEq(index[k0].id, id)
    ensures AllLast(papers, n + 1, index[k0 := Entry(index[k0].id, n)])
  {
    var idx := index[k0 := Entry(index[k0].id, n)];
    forall k | 0 <= k < |idx|
      ensures LastAt(papers, n + 1, idx[k].id, idx[k].index)
    {
      if k == k0 {
        WebHelpers.PyEqEquivalence(index[k0].id, id, id);
      } else {
        assert LastAt(papers, n, index[k].id, index[k].index);
        if k < k0 {
          assert !PyEq(index[k].id, index[k0].id);
        } else {
          assert !PyEq(index[k0].id, index[k].id);
          WebHelpers.PyEqEquivalence(index[k].id, index[k0].id, index[k].id);
        }
        WebHelpers.PyEqEquivalence(id, index[k0].id, index[k].id);
        WebHelpers.PyEqEquivalence(id, index[k].id, index[k0].id);
      }
    }
  }

  /** Moving a present key keeps the keys, so they are still the listed ids. */
  lemma KnownKeys(a: ArxivIndex, id: Value, n: nat, k0: nat)
    requires KeysAreIds(a) && k0 < |a.index| && PyEq(a.index[k0].id, id)
    ensures KeysAreIds(ArxivIndex(a.ids + [id], a.index[k0 := Entry(a.index[k0].id, n)]))
  {
    var idx := a.index[k0 := Entry(a.index[k0].id, n)];
    var ids := a.ids + [id];
    forall j | 0 <= j < |ids|
      ensures Find(idx, ids[j]).Some?
    {
      if j < |a.ids| {
        var f := Find(a.index, a.ids[j]).value;
        assert PyEq(idx[f].id, ids[j]);
      } else {
        assert PyEq(idx[k0].id, ids[j]);
      }
    }
    forall k | 0 <= k < |idx|
      ensures idx[k].id in ids
    {
      assert idx[k].id == a.index[k].id;
    }
  }

  /** Putting an id already present moves its entry to the new position. */
  lemma KnownStep(papers: seq<Value>, n: nat, a: ArxivIndex, id: Value, k0: nat)
    requires n < |papers| && Describes(papers, n, a) && RoiOf(papers[n]) == Some(id)
    requires Find(a.index, id) == Some(k0)
    ensures Describes(papers, n + 1, ArxivIndex(a.ids + [id], Put(a.index, id, n)))
  {
    FilterMapStep(papers, n, RoiOf);
    assert Put(a.index, id, n) == a.index[k0 := Entry(a.index[k0].id, n)];
    KnownLast(papers, n, a.index, id, k0);
    KnownKeys(a, id, n, k0);
  }

  /** Appending a new key at the new position: it is last, and every other key stays last. */
  lemma NewLast(papers: seq<Value>, n: nat, index: seq<Entry>, id: Value)
    requires n < |papers| && AllLast(papers, n, index) && RoiOf(papers[n]) == Some(id)
    requires forall k :: 0 <= k < |index| ==> !PyEq(index[k].id, id)
    ensures AllLast(papers, n + 1, index + [Entry(id, n)])
  {
    var idx := index + [Entry(id, n)];
    WebHelpers.PyEqEquivalence(id, id, id);
    forall k | 0 <= k < |idx|
      ensures LastAt(papers, n + 1, idx[k].id, idx[k].index)
    {
      if k < |index| {
        assert LastAt(papers, n, index[k].id, index[k].index);
        assert !PyEq(index[k].id, id);
        WebHelpers.PyEqEquivalence(id, index[k].id, id);
      }
    }
  }

  /** Appending a new key keeps the keys distinct and equal to the listed ids. */
  lemma NewKeys(a: ArxivIndex, id: Value, n: nat)
    requires DistinctKeys(a.index) && KeysAreIds(a)
    requires forall k :: 0 <= k < |a.index| ==> !PyEq(a.index[k].id, id)
    ensures DistinctKeys(a.index + [Entry(id, n)])
    ensures KeysAreIds(ArxivIndex(a.ids + [id], a.index + [Entry(id, n)]))
  {
    var idx := a.index + [Entry(id, n)];
    var ids := a.ids + [id];
    WebHelpers.PyEqEquivalence(id, id, id);
    forall j, k | 0 <= j < k < |idx|
      ensures !PyEq(idx[j].id, idx[k].id)
    {
      if k == |a.index| {
        assert !PyEq(a.index[j].id, id);
      }
    }
    forall j | 0 <= j < |ids|
      ensures Find(idx, ids[j]).Some?
    {
      if j < |a.ids| {
        var f := Find(a.index, a.ids[j]).value;
        assert PyEq(idx[f].id, ids[j]);
      } else {
        assert PyEq(idx[|a.index|].id, ids[j]);
      }
    }
  }

  /** Putting a new id appends its entry at the new position. */
  lemma NewStep(papers: seq<Value>, n: nat, a: ArxivIndex, id: Value)
    requires n < |papers| && Describes(papers, n, a) && RoiOf(papers[n]) == Some(id)
    requires Find(a.index, id).None?
    ensures Describes(papers, n + 1, ArxivIndex(a.ids + [id], Put(a.index, id, n)))
  {
    FilterMapStep(papers, n, RoiOf);
    assert Put(a.index, id, n) == a.index + [Entry(id, n)];
    NewLast(papers, n, a.index, id);
    NewKeys(a, id, n);
  }

  /** Whatever the index holds after papers[..n], it describes those papers. */
  lemma {:induction false} IndexedDescribes(papers: seq<Value>, n: nat)
    requires n <= |papers| && Indexed(papers[..n]).Ok?
    ensures Describes(papers, n, Indexed(papers[..n]).value)
  {
    if n > 0 {
      assert papers[..n][..n - 1] == papers[..n - 1];
      IndexedDescribes(papers, n - 1);
      var a := Indexed(papers[..n - 1]).value;
      var r := Step(a, papers[n - 1], n - 1);
      assert Indexed(papers[..n]) == r;
      StepDescribes(papers, n - 1, a);
    }
  }

  /** One turn of the loop keeps the description. */
  lemma StepDescribes(papers: seq<Value>, n: nat, a: ArxivIndex)
    requires n < |papers| && Describes(papers, n, a) && Step(a, papers[n], n).Ok?
    ensures Describes(papers, n + 1, Step(a, papers[n], n).value)
  {
    match RoiOf(papers[n])
    case None => SkipStep(papers, n, a);
    case Some(id) =>
      match Find(a.index, id)
      case None => NewStep(papers, n, a, id);
      case Some(k0) => KnownStep(papers, n, a, id, k0);
  }

  /** The index is built exactly when every listed id can be a dict key. */
  lemma {:induction false} IndexedOk(papers: seq<Value>)
    ensures Indexed(papers).Ok? <==> forall i :: 0 <= i < |papers| && RoiOf(papers[i]).Some? ==> WebHelpers.Hashable(RoiOf(papers[i]).value)
  {
    if papers != [] {
      var n := |papers| - 1;
      IndexedOk(papers[..n]);
      assert forall i :: 0 <= i < n ==> papers[..n][i] == papers[i];
    }
  }

  /**
   * create_arxiv_index lists the truthy `roi` of every dict paper, in paper
   * order and with repeats; the dict has one key per distinct id, each
   * listed id is a key, and each key maps to the last position whose id
   * equals it, so `papers[d[id]]['roi'] == id`.
   */
  lemma IndexedProperties(papers: seq<Value>)
    requires Indexed(papers).Ok?
    ensures var a := Indexed(papers).value;
      a.ids == FilterMap(papers, RoiOf) &&
      (forall j, k :: 0 <= j < k < |a.index| ==> !PyEq(a.index[j].id, a.index[k].id)) &&
      (forall k :: 0 <= k < |a.index| ==> a.index[k].id in a.ids) &&
      (forall j :: 0 <= j < |a.ids| ==> Lookup(a.index, a.ids[j]).Some?) &&
      (forall k :: 0 <= k < |a.index| ==> LastAt(papers, |papers|, a.index[k].id, a.index[k].index))
  {
    assert papers[..|papers|] == papers;
    IndexedDescribes(papers, |papers|);
  }

  /** Looking up a listed id leads back to a dict paper whose `roi` equals it, the last such paper. */
  lemma IndexPointsBack(papers: seq<Value>, j: nat)
    requires Indexed(papers).Ok? && j < |Indexed(papers).value.ids|
    ensures var a := Indexed(papers).value;
      var p := Lookup(a.index, a.ids[j]);
      p.Some? && p.value < |papers| && papers[p.value].DictV? && "roi" in papers[p.value].fields &&
      PyEq(papers[p.value].fields["roi"], a.ids[j]) &&
      forall m :: p.value < m < |papers| && RoiOf(papers[m]).Some? ==> !PyEq(RoiOf(papers[m]).value, a.ids[j])
  {
    var a := Indexed(papers).value;
    IndexedProperties(papers);
    var k := Find(a.index, a.ids[j]).value;
    var p := a.index[k].index;
    assert LastAt(papers, |papers|, a.index[k].id, p);
    WebHelpers.PyEqEquivalence(RoiOf(papers[p]).value, a.index[k].id, a.ids[j]);
    forall m | p < m < |papers| && RoiOf(papers[m]).Some?
      ensures !PyEq(RoiOf(papers[m]).value, a.ids[j])
    {
      WebHelpers.PyEqEquivalence(RoiOf(papers[m]).value, a.ids[j], a.index[k].id);
      WebHelpers.PyEqEquivalence(a.ids[j], a.index[k].id, a.index[k].id);
    }
  }

  /** has_arxiv_papers holds exactly when create_arxiv_index would list some id, and it never raises. */
  lemma {:induction false} HasArxivIffIds(papers: seq<Value>)
    ensures (exists i :: 0 <= i < |papers| && RoiOf(papers[i]).Some?) <==> FilterMap(papers, RoiOf) != []
  {
    if exists i :: 0 <= i < |papers| && RoiOf(papers[i]).Some? {
      var i :| 0 <= i < |papers| && RoiOf(papers[i]).Some?;
      FilterMapComplete(papers, RoiOf, i);
    }
    if FilterMap(papers, RoiOf) != [] {
      FilterMapMembers(papers, RoiOf);
      assert FilterMap(papers, RoiOf)[0] in FilterMap(papers, RoiOf);
    }
  }
}
