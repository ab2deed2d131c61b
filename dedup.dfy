// Keyed scans over a list, independent of what the elements are: keeping
// the first element of each key (the `seen` set loops of the deduplication
// stages) and finding the first element with a given key (the title lookup
// of the merge stage). Computing a key may raise, which is Err; an element
// whose key is Ok(None) takes no part in the deduplication.

module Dedup {
  import opened Base
  import opened Lists

  /** The keys of the elements of `u` that have one. */
  function KeysOf<T, K(==)>(u: seq<T>, key: T -> Result<Option<K>>): set<K>
  {
    if u == [] then {}
    else KeysOf(u[..|u| - 1], key) + (match key(u[|u| - 1]) case Ok(Some(t)) => {t} case _ => {})
  }

  /** Keep each element whose key is new; stop at the first key that raises. */
  function DedupBy<T, K(==)>(s: seq<T>, key: T -> Result<Option<K>>): Result<seq<T>>
  {
    if s == [] then Ok([])
    else
      match DedupBy(s[..|s| - 1], key)
      case Err(e) => Err(e)
      case Ok(u) =>
        match key(s[|s| - 1])
        case Err(e) => Err(e)
        case Ok(None) => Ok(u)
        case Ok(Some(t)) => if t !in KeysOf(u, key) then Ok(u + [s[|s| - 1]]) else Ok(u)
  }

  /** Two elements with different keys are both kept. */
  lemma DedupTwoDistinct<T, K>(x: T, y: T, key: T -> Result<Option<K>>, kx: K, ky: K)
    requires key(x) == Ok(Some(kx)) && key(y) == Ok(Some(ky)) && kx != ky
    ensures DedupBy([x, y], key) == Ok([x, y])
  {
    assert [x][..0] == [];
    assert KeysOf([x][..0], key) == {};
    assert [] + [x] == [x];
    assert DedupBy([x], key) == Ok([x]);
    assert KeysOf([x], key) == {kx};
    assert [x, y][..1] == [x] && [x, y][1] == y;
    assert [x] + [y] == [x, y];
  }

  lemma DedupByStep<T, K>(s: seq<T>, i: nat, key: T -> Result<Option<K>>)
    requires i < |s|
    ensures DedupBy(s[..i + 1], key) ==
      match DedupBy(s[..i], key)
      case Err(e) => Err(e)
      case Ok(u) =>
        match key(s[i])
        case Err(e) => Err(e)
        case Ok(None) => Ok(u)
        case Ok(Some(t)) => if t !in KeysOf(u, key) then Ok(u + [s[i]]) else Ok(u)
  {
    assert s[..i + 1][..i] == s[..i];
  }

  lemma KeysOfAppend<T, K>(u: seq<T>, x: T, key: T -> Result<Option<K>>)
    ensures KeysOf(u + [x], key) == KeysOf(u, key) + (match key(x) case Ok(Some(t)) => {t} case _ => {})
  {
    assert (u + [x])[..|u|] == u;
  }

  lemma {:induction false} KeysOfMembers<T, K>(u: seq<T>, key: T -> Result<Option<K>>, t: K)
    ensures t in KeysOf(u, key) <==> exists i :: 0 <= i < |u| && key(u[i]) == Ok(Some(t))
    decreases |u|
  {
    if u != [] {
      KeysOfMembers(u[..|u| - 1], key, t);
      if t in KeysOf(u[..|u| - 1], key) {
        var i :| 0 <= i < |u| - 1 && key(u[..|u| - 1][i]) == Ok(Some(t));
        assert key(u[i]) == Ok(Some(t));
      }
      if exists i :: 0 <= i < |u| && key(u[i]) == Ok(Some(t)) {
        var i :| 0 <= i < |u| && key(u[i]) == Ok(Some(t));
        if i < |u| - 1 {
          assert key(u[..|u| - 1][i]) == Ok(Some(t));
        }
      }
    }
  }

  /** Every element has a key, and no two share one. */
  predicate DistinctKeys<T, K(==)>(u: seq<T>, key: T -> Result<Option<K>>)
  {
    (forall i :: 0 <= i < |u| ==> key(u[i]).Ok? && key(u[i]).value.Some?) &&
    (forall i, j :: 0 <= i < j < |u| ==> key(u[i]) != key(u[j]))
  }

  /** The kept elements have distinct keys and appear in input order. */
  lemma {:induction false} DedupDistinct<T, K>(s: seq<T>, key: T -> Result<Option<K>>)
    requires DedupBy(s, key).Ok?
    ensures DistinctKeys(DedupBy(s, key).value, key)
    ensures SubseqOf(DedupBy(s, key).value, s)
    decreases |s|
  {
    if s != [] {
      var init := s[..|s| - 1];
      var x := s[|s| - 1];
      DedupDistinct(init, key);
      var u := DedupBy(init, key).value;
      assert init + [x] == s;
      if key(x).value.Some? && key(x).value.value !in KeysOf(u, key) {
        KeysOfMembers(u, key, key(x).value.value);
        SubseqAppendBoth(u, init, x);
      } else {
        SubseqExtend(u, init, x);
      }
    }
  }

  /** The scan succeeds exactly when no key raises. */
  lemma {:induction false} DedupOk<T, K>(s: seq<T>, key: T -> Result<Option<K>>)
    ensures DedupBy(s, key).Ok? <==> forall i :: 0 <= i < |s| ==> key(s[i]).Ok?
    decreases |s|
  {
    if s != [] {
      var init := s[..|s| - 1];
      DedupOk(init, key);
      if DedupBy(init, key).Err? {
        var i :| 0 <= i < |init| && key(init[i]).Err?;
        assert key(s[i]).Err?;
      }
      if forall i :: 0 <= i < |s| - 1 ==> key(s[i]).Ok? {
        assert forall i :: 0 <= i < |init| ==> key(init[i]).Ok?;
      }
    }
  }

  /** Exactly the keys of the input survive. */
  lemma {:induction false} DedupKeys<T, K>(s: seq<T>, key: T -> Result<Option<K>>)
    requires DedupBy(s, key).Ok?
    ensures KeysOf(DedupBy(s, key).value, key) == KeysOf(s, key)
    decreases |s|
  {
    if s != [] {
      var init := s[..|s| - 1];
      var x := s[|s| - 1];
      DedupKeys(init, key);
      var u := DedupBy(init, key).value;
      KeysOfAppend(u, x, key);
      assert init + [x] == s;
      KeysOfAppend(init, x, key);
    }
  }

  /** The first element carrying each key is the one kept. */
  lemma {:induction false} DedupKeepsFirst<T, K>(s: seq<T>, key: T -> Result<Option<K>>, i: nat)
    requires i < |s| && DedupBy(s, key).Ok?
    requires key(s[i]).Ok? && key(s[i]).value.Some?
    requires key(s[i]).value.value !in KeysOf(s[..i], key)
    ensures s[i] in DedupBy(s, key).value
    decreases |s|
  {
    var init := s[..|s| - 1];
    if i < |s| - 1 {
      assert init[..i] == s[..i];
      DedupKeepsFirst(init, key, i);
    } else {
      assert init == s[..i];
      DedupKeys(init, key);
    }
  }

  /** A list whose keys are already distinct comes back unchanged. */
  lemma {:induction false} DedupOfDistinct<T, K>(u: seq<T>, key: T -> Result<Option<K>>)
    requires DistinctKeys(u, key)
    ensures DedupBy(u, key) == Ok(u)
    decreases |u|
  {
    if u != [] {
      var init := u[..|u| - 1];
      assert DistinctKeys(init, key) by {
        forall i, j | 0 <= i < j < |init| ensures key(init[i]) != key(init[j]) {
          assert init[i] == u[i] && init[j] == u[j];
        }
      }
      DedupOfDistinct(init, key);
      var t := key(u[|u| - 1]).value.value;
      KeysOfMembers(init, key, t);
      forall i | 0 <= i < |init| ensures key(init[i]) != Ok(Some(t)) {
        assert init[i] == u[i];
      }
      assert init + [u[|u| - 1]] == u;
    }
  }

  /** Deduplicating twice is deduplicating once. */
  lemma DedupIdempotent<T, K>(s: seq<T>, key: T -> Result<Option<K>>)
    requires DedupBy(s, key).Ok?
    ensures DedupBy(DedupBy(s, key).value, key) == DedupBy(s, key)
  {
    DedupDistinct(s, key);
    DedupOfDistinct(DedupBy(s, key).value, key);
  }

  /** Once a prefix raises, the whole scan raises the same error. */
  lemma {:induction false} DedupErrPrefix<T, K>(s: seq<T>, i: nat, key: T -> Result<Option<K>>)
    requires i <= |s| && DedupBy(s[..i], key).Err?
    ensures DedupBy(s, key) == DedupBy(s[..i], key)
    decreases |s| - i
  {
    if i < |s| {
      DedupByStep(s, i, key);
      DedupErrPrefix(s, i + 1, key);
    } else {
      assert s[..i] == s;
    }
  }

  /**
   * The index of the first element of `s`, from `k` on, whose key is `t`;
   * Err when a key computed on the way raises.
   */
  function FirstMatch<T, K(==)>(s: seq<T>, key: T -> Result<K>, t: K, k: nat): (r: Result<Option<nat>>)
    requires k <= |s|
    ensures r.Ok? && r.value.Some? ==>
              k <= r.value.value < |s| && key(s[r.value.value]) == Ok(t) &&
              forall j :: k <= j < r.value.value ==> key(s[j]).Ok? && key(s[j]) != Ok(t)
    ensures r.Ok? && r.value.None? ==>
              forall j :: k <= j < |s| ==> key(s[j]).Ok? && key(s[j]) != Ok(t)
    ensures r.Err? ==> exists j :: k <= j < |s| && key(s[j]).Err?
    decreases |s| - k
  {
    if k == |s| then Ok(None)
    else
      match key(s[k])
      case Err(e) => Err(e)
      case Ok(u) => if u == t then Ok(Some(k)) else FirstMatch(s, key, t, k + 1)
  }

  /** The scan stops at the first matching key when every earlier key is computed. */
  lemma {:induction false} FirstMatchAt<T, K>(s: seq<T>, key: T -> Result<K>, t: K, k: nat, i: nat)
    requires k <= i < |s| && key(s[i]) == Ok(t)
    requires forall j :: k <= j < i ==> key(s[j]).Ok? && key(s[j]) != Ok(t)
    ensures FirstMatch(s, key, t, k) == Ok(Some(i))
    decreases i - k
  {
    if k < i {
      FirstMatchAt(s, key, t, k + 1, i);
    }
  }

  /** With every key computed and none matching, nothing is found. */
  lemma {:induction false} FirstMatchNone<T, K>(s: seq<T>, key: T -> Result<K>, t: K, k: nat)
    requires k <= |s|
    requires forall j :: k <= j < |s| ==> key(s[j]).Ok? && key(s[j]) != Ok(t)
    ensures FirstMatch(s, key, t, k) == Ok(None)
    decreases |s| - k
  {
    if k < |s| {
      FirstMatchNone(s, key, t, k + 1);
    }
  }

  /** A key that raises before any match makes the scan raise. */
  lemma {:induction false} FirstMatchRaises<T, K>(s: seq<T>, key: T -> Result<K>, t: K, k: nat, i: nat)
    requires k <= i < |s| && key(s[i]).Err?
    requires forall j :: k <= j < i ==> key(s[j]) != Ok(t)
    ensures FirstMatch(s, key, t, k).Err?
    decreases i - k
  {
    if k < i && key(s[k]).Ok? {
      FirstMatchRaises(s, key, t, k + 1, i);
    }
  }
}
