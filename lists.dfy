// List comprehensions as the pipeline uses them: filtering, filter-and-map,
// mapping, and the order-preserving subsequence relation. The list
// functions recurse on the last element so that a loop over a prefix
// `s[..i]` can keep `acc == Filter(s[..i], keep)` as its invariant.

module Lists {
  import opened Base

  /** `[x for x in s if keep(x)]`. */
  function Filter<T>(s: seq<T>, keep: T -> bool): (r: seq<T>)
    ensures |r| <= |s|
  {
    if s == [] then []
    else Filter(s[..|s| - 1], keep) + (if keep(s[|s| - 1]) then [s[|s| - 1]] else [])
  }

  /** `[f(x).value for x in s if f(x) is not None]`. */
  function FilterMap<T, U>(s: seq<T>, f: T -> Option<U>): (r: seq<U>)
    ensures |r| <= |s|
  {
    if s == [] then []
    else FilterMap(s[..|s| - 1], f) + (if f(s[|s| - 1]).Some? then [f(s[|s| - 1]).value] else [])
  }

  /** `[f(x) for x in s]`. */
  function Map<T, U>(s: seq<T>, f: T -> U): (r: seq<U>)
    ensures |r| == |s|
    ensures forall i :: 0 <= i < |s| ==> r[i] == f(s[i])
  {
    if s == [] then [] else Map(s[..|s| - 1], f) + [f(s[|s| - 1])]
  }

  lemma {:induction false} FilterMembers<T>(s: seq<T>, keep: T -> bool)
    ensures forall x :: x in Filter(s, keep) <==> x in s && keep(x)
    decreases |s|
  {
    if s != [] {
      FilterMembers(s[..|s| - 1], keep);
      assert s == s[..|s| - 1] + [s[|s| - 1]];
    }
  }

  lemma {:induction false} FilterAll<T>(s: seq<T>, keep: T -> bool)
    requires forall i :: 0 <= i < |s| ==> keep(s[i])
    ensures Filter(s, keep) == s
    decreases |s|
  {
    if s != [] {
      FilterAll(s[..|s| - 1], keep);
    }
  }

  lemma {:induction false} FilterNone<T>(s: seq<T>, keep: T -> bool)
    requires forall i :: 0 <= i < |s| ==> !keep(s[i])
    ensures Filter(s, keep) == []
    decreases |s|
  {
    if s != [] {
      FilterNone(s[..|s| - 1], keep);
    }
  }

  /** Nothing is dropped exactly when every element is kept. */
  lemma {:induction false} FilterKeepsAll<T>(s: seq<T>, keep: T -> bool)
    ensures |Filter(s, keep)| == |s| <==> forall i :: 0 <= i < |s| ==> keep(s[i])
    decreases |s|
  {
    if s != [] {
      var init := s[..|s| - 1];
      FilterKeepsAll(init, keep);
      assert forall i :: 0 <= i < |init| ==> init[i] == s[i];
    }
  }

  lemma FilterStep<T>(s: seq<T>, i: nat, keep: T -> bool)
    requires i < |s|
    ensures Filter(s[..i + 1], keep) == Filter(s[..i], keep) + (if keep(s[i]) then [s[i]] else [])
  {
    assert s[..i + 1][..i] == s[..i];
  }

  lemma FilterSnoc<T>(s: seq<T>, x: T, keep: T -> bool)
    ensures Filter(s + [x], keep) == Filter(s, keep) + (if keep(x) then [x] else [])
  {
    assert (s + [x])[..|s|] == s;
  }

  lemma {:induction false} FilterAppend<T>(a: seq<T>, b: seq<T>, keep: T -> bool)
    ensures Filter(a + b, keep) == Filter(a, keep) + Filter(b, keep)
    decreases |b|
  {
    if b == [] {
      assert a + b == a;
    } else {
      FilterAppend(a, b[..|b| - 1], keep);
      assert (a + b)[..|a + b| - 1] == a + b[..|b| - 1];
    }
  }

  lemma FilterMapStep<T, U>(s: seq<T>, i: nat, f: T -> Option<U>)
    requires i < |s|
    ensures FilterMap(s[..i + 1], f) == FilterMap(s[..i], f) + (if f(s[i]).Some? then [f(s[i]).value] else [])
  {
    assert s[..i + 1][..i] == s[..i];
  }

  lemma MapStep<T, U>(s: seq<T>, i: nat, f: T -> U)
    requires i < |s|
    ensures Map(s[..i + 1], f) == Map(s[..i], f) + [f(s[i])]
  {
    assert s[..i + 1][..i] == s[..i];
  }

  lemma {:induction false} FilterMapMembers<T, U>(s: seq<T>, f: T -> Option<U>)
    ensures forall u :: u in FilterMap(s, f) ==> exists i :: 0 <= i < |s| && f(s[i]) == Some(u)
    decreases |s|
  {
    if s != [] {
      FilterMapMembers(s[..|s| - 1], f);
      forall u | u in FilterMap(s, f)
        ensures exists i :: 0 <= i < |s| && f(s[i]) == Some(u)
      {
        if u in FilterMap(s[..|s| - 1], f) {
          var i :| 0 <= i < |s| - 1 && f(s[..|s| - 1][i]) == Some(u);
          assert f(s[i]) == Some(u);
        } else {
          assert f(s[|s| - 1]) == Some(u);
        }
      }
    }
  }

  lemma {:induction false} FilterMapComplete<T, U>(s: seq<T>, f: T -> Option<U>, i: nat)
    requires i < |s| && f(s[i]).Some?
    ensures f(s[i]).value in FilterMap(s, f)
    decreases |s|
  {
    if i < |s| - 1 {
      FilterMapComplete(s[..|s| - 1], f, i);
    }
  }

  /** Applies a step that may raise to every element, stopping at the first error. */
  function MapResult<T, U>(s: seq<T>, f: T -> Result<U>): (r: Result<seq<U>>)
    ensures r.Ok? <==> forall i :: 0 <= i < |s| ==> f(s[i]).Ok?
    ensures r.Ok? ==> |r.value| == |s| && forall i :: 0 <= i < |s| ==> r.value[i] == f(s[i]).value
  {
    if s == [] then Ok([])
    else
      match MapResult(s[..|s| - 1], f)
      case Err(e) => Err(e)
      case Ok(u) => match f(s[|s| - 1]) case Err(e) => Err(e) case Ok(x) => Ok(u + [x])
  }

  lemma MapResultStep<T, U>(s: seq<T>, i: nat, f: T -> Result<U>)
    requires i < |s|
    ensures MapResult(s[..i + 1], f) ==
      match MapResult(s[..i], f)
      case Err(e) => Err(e)
      case Ok(u) => match f(s[i]) case Err(e) => Err(e) case Ok(x) => Ok(u + [x])
  {
    assert s[..i + 1][..i] == s[..i];
  }

  /** Once a prefix raises, the whole map raises the same error. */
  lemma {:induction false} MapResultErrPrefix<T, U>(s: seq<T>, i: nat, f: T -> Result<U>)
    requires i <= |s| && MapResult(s[..i], f).Err?
    ensures MapResult(s, f) == MapResult(s[..i], f)
    decreases |s| - i
  {
    if i < |s| {
      MapResultStep(s, i, f);
      MapResultErrPrefix(s, i + 1, f);
    } else {
      assert s[..i] == s;
    }
  }

  /** When f gives `Ok(out[i])` at every index, the whole map gives `out`. */
  lemma MapResultAllOk<T, U>(s: seq<T>, f: T -> Result<U>, out: seq<U>)
    requires |out| == |s| && forall i :: 0 <= i < |s| ==> f(s[i]) == Ok(out[i])
    ensures MapResult(s, f) == Ok(out)
  {
    assert MapResult(s, f).value == out;
  }

  /** `a` is an order-preserving subsequence of `b` (matched greedily from the back). */
  predicate SubseqOf<T(==)>(a: seq<T>, b: seq<T>)
    decreases |b|
  {
    if a == [] then true
    else if b == [] then false
    else if a[|a| - 1] == b[|b| - 1] then SubseqOf(a[..|a| - 1], b[..|b| - 1])
    else SubseqOf(a, b[..|b| - 1])
  }

  lemma {:induction false} SubseqDropLast<T>(a: seq<T>, b: seq<T>)
    requires a != [] && SubseqOf(a, b)
    ensures SubseqOf(a[..|a| - 1], b)
    decreases |b|, 0
  {
    if a[|a| - 1] == b[|b| - 1] {
      SubseqExtend(a[..|a| - 1], b[..|b| - 1], b[|b| - 1]);
      assert b[..|b| - 1] + [b[|b| - 1]] == b;
    } else {
      SubseqDropLast(a, b[..|b| - 1]);
      SubseqExtend(a[..|a| - 1], b[..|b| - 1], b[|b| - 1]);
      assert b[..|b| - 1] + [b[|b| - 1]] == b;
    }
  }

  /** Appending to the longer list keeps the relation. */
  lemma {:induction false} SubseqExtend<T>(a: seq<T>, b: seq<T>, x: T)
    requires SubseqOf(a, b)
    ensures SubseqOf(a, b + [x])
    decreases |b|, 1
  {
    var bx := b + [x];
    assert bx[..|bx| - 1] == b;
    if a != [] && a[|a| - 1] == x {
      SubseqDropLast(a, b);
    }
  }

  /** Appending the same element to both keeps the relation. */
  lemma SubseqAppendBoth<T>(a: seq<T>, b: seq<T>, x: T)
    requires SubseqOf(a, b)
    ensures SubseqOf(a + [x], b + [x])
  {
    var ax := a + [x];
    var bx := b + [x];
    assert ax[..|ax| - 1] == a;
    assert bx[..|bx| - 1] == b;
  }

  lemma {:induction false} SubseqRefl<T>(a: seq<T>)
    ensures SubseqOf(a, a)
    decreases |a|
  {
    if a != [] {
      SubseqRefl(a[..|a| - 1]);
    }
  }

  lemma {:induction false} SubseqMembers<T>(a: seq<T>, b: seq<T>)
    requires SubseqOf(a, b)
    ensures forall x :: x in a ==> x in b
    decreases |b|
  {
    if a != [] {
      if a[|a| - 1] == b[|b| - 1] {
        SubseqMembers(a[..|a| - 1], b[..|b| - 1]);
        assert a == a[..|a| - 1] + [a[|a| - 1]];
        assert b == b[..|b| - 1] + [b[|b| - 1]];
      } else {
        SubseqMembers(a, b[..|b| - 1]);
        assert b == b[..|b| - 1] + [b[|b| - 1]];
      }
    }
  }

  lemma {:induction false} SubseqLength<T>(a: seq<T>, b: seq<T>)
    requires SubseqOf(a, b)
    ensures |a| <= |b|
    decreases |b|
  {
    if a != [] {
      if a[|a| - 1] == b[|b| - 1] {
        SubseqLength(a[..|a| - 1], b[..|b| - 1]);
      } else {
        SubseqLength(a, b[..|b| - 1]);
      }
    }
  }

  lemma {:induction false} FilterSubseq<T>(s: seq<T>, keep: T -> bool)
    ensures SubseqOf(Filter(s, keep), s)
    decreases |s|
  {
    if s != [] {
      var init := s[..|s| - 1];
      FilterSubseq(init, keep);
      assert init + [s[|s| - 1]] == s;
      if keep(s[|s| - 1]) {
        SubseqAppendBoth(Filter(init, keep), init, s[|s| - 1]);
      } else {
        assert Filter(s, keep) == Filter(init, keep);
        SubseqExtend(Filter(init, keep), init, s[|s| - 1]);
      }
    }
  }

  lemma {:induction false} PrefixSubseq<T>(s: seq<T>, n: nat)
    requires n <= |s|
    ensures SubseqOf(s[..n], s)
    decreases |s|
  {
    if n == |s| {
      SubseqRefl(s);
      assert s[..n] == s;
    } else {
      PrefixSubseq(s[..|s| - 1], n);
      assert s[..|s| - 1][..n] == s[..n];
      SubseqExtend(s[..n], s[..|s| - 1], s[|s| - 1]);
      assert s[..|s| - 1] + [s[|s| - 1]] == s;
    }
  }

  lemma {:induction false} SubseqTrans<T>(a: seq<T>, b: seq<T>, c: seq<T>)
    requires SubseqOf(a, b) && SubseqOf(b, c)
    ensures SubseqOf(a, c)
    decreases |c|
  {
    if a != [] {
      SubseqLength(a, b);
      var cl := c[|c| - 1];
      if b[|b| - 1] == cl {
        // b's last element is matched to c's last element
        SubseqTrans'(a, b, c);
      } else {
        SubseqTrans(a, b, c[..|c| - 1]);
        SubseqExtend(a, c[..|c| - 1], cl);
        assert c[..|c| - 1] + [cl] == c;
      }
    }
  }

  lemma {:induction false} SubseqTrans'<T>(a: seq<T>, b: seq<T>, c: seq<T>)
    requires a != [] && b != [] && c != []
    requires SubseqOf(a, b) && SubseqOf(b, c) && b[|b| - 1] == c[|c| - 1]
    ensures SubseqOf(a, c)
    decreases |c|, 0
  {
    var b' := b[..|b| - 1];
    var c' := c[..|c| - 1];
    assert SubseqOf(b', c');
    if a[|a| - 1] == b[|b| - 1] {
      assert SubseqOf(a[..|a| - 1], b');
      SubseqTrans(a[..|a| - 1], b', c');
    } else {
      assert SubseqOf(a, b');
      SubseqTrans(a, b', c');
      SubseqExtend(a, c', c[|c| - 1]);
      assert c' + [c[|c| - 1]] == c;
    }
  }
}
