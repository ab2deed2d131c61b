// Python's `sorted(xs, key=..., reverse=True)` and `xs.sort(key=..., reverse=True)`:
// a stable sort into non-increasing key order. Keys are compared
// lexicographically as (primary, secondary, text) so that tuple keys and
// string keys are covered.

module Sorting {

  /** Python's `a >= b` on strings: code point by code point, a proper prefix being smaller. */
  predicate StrGe(a: string, b: string)
    decreases |b|
  {
    b == [] || (a != [] && (a[0] > b[0] || (a[0] == b[0] && StrGe(a[1..], b[1..]))))
  }

  lemma {:induction false} StrGeRefl(a: string)
    ensures StrGe(a, a)
    decreases |a|
  {
    if a != [] {
      StrGeRefl(a[1..]);
    }
  }

  lemma {:induction false} StrGeTotal(a: string, b: string)
    ensures StrGe(a, b) || StrGe(b, a)
    decreases |b|
  {
    if a != [] && b != [] && a[0] == b[0] {
      StrGeTotal(a[1..], b[1..]);
    }
  }

  lemma {:induction false} StrGeTrans(a: string, b: string, c: string)
    requires StrGe(a, b) && StrGe(b, c)
    ensures StrGe(a, c)
    decreases |c|
  {
    if c != [] && a[0] == b[0] && b[0] == c[0] {
      StrGeTrans(a[1..], b[1..], c[1..]);
    }
  }

  lemma {:induction false} StrGeAntisym(a: string, b: string)
    requires StrGe(a, b) && StrGe(b, a)
    ensures a == b
    decreases |b|
  {
    if a != [] && b != [] {
      StrGeAntisym(a[1..], b[1..]);
      assert a == [a[0]] + a[1..] && b == [b[0]] + b[1..];
    }
  }

  /** A sort key; numeric keys leave `secondary` at 0 and `text` empty. */
  datatype Key = Key(primary: real, secondary: int, text: string)

  function NumKey(x: real): Key
  {
    Key(x, 0, "")
  }

  /** Tuple comparison `a >= b`. */
  predicate KeyGe(a: Key, b: Key)
  {
    a.primary > b.primary ||
    (a.primary == b.primary && (a.secondary > b.secondary || (a.secondary == b.secondary && StrGe(a.text, b.text))))
  }

  lemma KeyGeRefl(a: Key)
    ensures KeyGe(a, a)
  {
    StrGeRefl(a.text);
  }

  lemma KeyGeTotal(a: Key, b: Key)
    ensures KeyGe(a, b) || KeyGe(b, a)
  {
    StrGeTotal(a.text, b.text);
  }

  lemma KeyGeTrans(a: Key, b: Key, c: Key)
    requires KeyGe(a, b) && KeyGe(b, c)
    ensures KeyGe(a, c)
  {
    if a.primary == b.primary == c.primary && a.secondary == b.secondary == c.secondary {
      StrGeTrans(a.text, b.text, c.text);
    }
  }

  predicate SortedDesc<T>(s: seq<T>, key: T -> Key)
  {
    forall i, j :: 0 <= i < j < |s| ==> KeyGe(key(s[i]), key(s[j]))
  }

  /** The elements of `s` whose key equals `k`, in order. */
  function KeyClass<T>(s: seq<T>, key: T -> Key, k: Key): (r: seq<T>)
    ensures |r| <= |s|
  {
    if s == [] then []
    else (if key(s[0]) == k then [s[0]] else []) + KeyClass(s[1..], key, k)
  }

  /** Places `x` before the first element whose key it is at least. */
  function Insert<T>(x: T, s: seq<T>, key: T -> Key): (r: seq<T>)
    ensures |r| == |s| + 1
  {
    if s == [] || KeyGe(key(x), key(s[0])) then [x] + s
    else [s[0]] + Insert(x, s[1..], key)
  }

  /** The stable descending sort, as insertion of each element into the sorted rest. */
  function SortDesc<T>(s: seq<T>, key: T -> Key): (r: seq<T>)
    ensures |r| == |s|
  {
    if s == [] then [] else Insert(s[0], SortDesc(s[1..], key), key)
  }

  lemma {:induction false} InsertMultiset<T>(x: T, s: seq<T>, key: T -> Key)
    ensures multiset(Insert(x, s, key)) == multiset(s) + multiset{x}
    decreases |s|
  {
    if s != [] && !KeyGe(key(x), key(s[0])) {
      InsertMultiset(x, s[1..], key);
      assert s == [s[0]] + s[1..];
    }
  }

  lemma {:induction false} InsertSorted<T>(x: T, s: seq<T>, key: T -> Key)
    requires SortedDesc(s, key)
    ensures SortedDesc(Insert(x, s, key), key)
    decreases |s|
  {
    if s == [] || KeyGe(key(x), key(s[0])) {
      var r := [x] + s;
      forall i, j | 0 <= i < j < |r|
        ensures KeyGe(key(r[i]), key(r[j]))
      {
        if i == 0 && j > 1 {
          KeyGeTrans(key(x), key(s[0]), key(s[j - 1]));
        }
      }
    } else {
      InsertSorted(x, s[1..], key);
      var t := Insert(x, s[1..], key);
      InsertMultiset(x, s[1..], key);
      var r := [s[0]] + t;
      forall i, j | 0 <= i < j < |r|
        ensures KeyGe(key(r[i]), key(r[j]))
      {
        if i == 0 {
          assert t[j - 1] in multiset(t);
          assert t[j - 1] == x || t[j - 1] in multiset(s[1..]);
          if t[j - 1] == x {
            KeyGeTotal(key(x), key(s[0]));
          } else {
            var m :| 0 <= m < |s[1..]| && s[1..][m] == t[j - 1];
            assert s[1 + m] == t[j - 1];
          }
        }
      }
    }
  }

  /** The output is a permutation of the input. */
  lemma {:induction false} SortDescMultiset<T>(s: seq<T>, key: T -> Key)
    ensures multiset(SortDesc(s, key)) == multiset(s)
    decreases |s|
  {
    if s != [] {
      SortDescMultiset(s[1..], key);
      InsertMultiset(s[0], SortDesc(s[1..], key), key);
      assert s == [s[0]] + s[1..];
    }
  }

  /** The output is in non-increasing key order. */
  lemma {:induction false} SortDescSorted<T>(s: seq<T>, key: T -> Key)
    ensures SortedDesc(SortDesc(s, key), key)
    decreases |s|
  {
    if s != [] {
      SortDescSorted(s[1..], key);
      InsertSorted(s[0], SortDesc(s[1..], key), key);
    }
  }

  lemma {:induction false} InsertKeyClass<T>(x: T, s: seq<T>, key: T -> Key, k: Key)
    requires SortedDesc(s, key)
    ensures KeyClass(Insert(x, s, key), key, k) ==
            (if key(x) == k then [x] else []) + KeyClass(s, key, k)
    decreases |s|
  {
    if s == [] || KeyGe(key(x), key(s[0])) {
      assert Insert(x, s, key)[1..] == s;
    } else {
      InsertKeyClass(x, s[1..], key, k);
      assert Insert(x, s, key)[1..] == Insert(x, s[1..], key);
      if key(x) == k {
        // s[0] has a strictly greater key than x, so it is not in x's class
        KeyGeRefl(k);
        assert key(s[0]) != k;
      }
    }
  }

  /** Stability: elements with equal keys keep their input order. */
  lemma {:induction false} SortDescStable<T>(s: seq<T>, key: T -> Key, k: Key)
    ensures KeyClass(SortDesc(s, key), key, k) == KeyClass(s, key, k)
    decreases |s|
  {
    if s != [] {
      SortDescStable(s[1..], key, k);
      SortDescSorted(s[1..], key);
      InsertKeyClass(s[0], SortDesc(s[1..], key), key, k);
    }
  }

  /** A list already in non-increasing order is returned unchanged. */
  lemma {:induction false} SortDescOfSorted<T>(s: seq<T>, key: T -> Key)
    requires SortedDesc(s, key)
    ensures SortDesc(s, key) == s
    decreases |s|
  {
    if s != [] {
      assert SortedDesc(s[1..], key);
      SortDescOfSorted(s[1..], key);
      if |s| > 1 {
        assert KeyGe(key(s[0]), key(s[1]));
      }
    }
  }

  lemma {:induction false} KeyClassPrefix<T>(s: seq<T>, n: nat, key: T -> Key, k: Key)
    requires n <= |s|
    ensures KeyClass(s[..n], key, k) <= KeyClass(s, key, k)
    decreases n
  {
    if n > 0 {
      assert s[..n][1..] == s[1..][..n - 1];
      KeyClassPrefix(s[1..], n - 1, key, k);
    }
  }

  /**
   * Stability of a truncated sort: among the first `n` of the sorted list, the
   * elements of each key are the first ones of that key in the input, in input order.
   */
  lemma SortedTopStable<T>(s: seq<T>, key: T -> Key, n: nat, k: Key)
    requires n <= |s|
    ensures KeyClass(SortDesc(s, key)[..n], key, k) <= KeyClass(s, key, k)
  {
    KeyClassPrefix(SortDesc(s, key), n, key, k);
    SortDescStable(s, key, k);
  }

  /** Sortedness survives taking a prefix. */
  lemma SortedPrefix<T>(s: seq<T>, n: nat, key: T -> Key)
    requires SortedDesc(s, key) && n <= |s|
    ensures SortedDesc(s[..n], key)
  {
  }

  /** Every element of the sorted list comes from the input. */
  lemma SortDescMembers<T>(s: seq<T>, key: T -> Key)
    ensures forall x :: x in SortDesc(s, key) <==> x in s
  {
    SortDescMultiset(s, key);
    forall x
      ensures x in SortDesc(s, key) <==> x in s
    {
      assert x in SortDesc(s, key) <==> x in multiset(SortDesc(s, key));
      assert x in s <==> x in multiset(s);
    }
  }

  /** An element of a prefix of the sorted list is an element of the input. */
  lemma TopMember<T>(s: seq<T>, key: T -> Key, q: T, n: nat)
    requires n <= |s|
    requires q in SortDesc(s, key)[..n]
    ensures q in s
  {
    SortDescMembers(s, key);
    assert q in SortDesc(s, key);
  }

  /** The first `n` of the sorted list: `n` elements, in order, each from the input. */
  lemma TopOfSorted<T>(s: seq<T>, key: T -> Key, n: nat)
    requires n <= |s|
    ensures var r := SortDesc(s, key)[..n];
      |r| == n && SortedDesc(r, key) && forall q :: q in r ==> q in s
  {
    var sorted := SortDesc(s, key);
    SortDescSorted(s, key);
    SortedPrefix(sorted, n, key);
    forall q | q in sorted[..n]
      ensures q in s
    {
      TopMember(s, key, q, n);
    }
  }

  /**
   * A cut of the sorted list keeps the best: every element it leaves out
   * has a key no greater than every element it keeps, and a cut that keeps
   * as many as there are is a permutation of the input.
   */
  lemma TopDominates<T>(s: seq<T>, key: T -> Key, n: nat)
    requires n <= |s|
    ensures var r := SortDesc(s, key)[..n];
      (n == |s| ==> multiset(r) == multiset(s)) &&
      forall q, p :: q in s && q !in r && p in r ==> KeyGe(key(p), key(q))
  {
    var sorted := SortDesc(s, key);
    var r := sorted[..n];
    SortDescMultiset(s, key);
    SortDescSorted(s, key);
    SortDescMembers(s, key);
    if n == |s| {
      assert r == sorted;
    }
    forall q, p | q in s && q !in r && p in r
      ensures KeyGe(key(p), key(q))
    {
      var j :| 0 <= j < |sorted| && sorted[j] == q;
      var i :| 0 <= i < n && r[i] == p;
    }
  }
}
