// The batch loops of the AI rankers, stated once over any element types:
// `for batch_num in range(total_batches)` over consecutive slices of
// `batch_size` elements, the pairing of a reply list with a batch by
// position (`for i, x in enumerate(result): if i < len(batch): ...`), and
// the same pairing when each reply updates its batch element in place.
// The per-element work is a function parameter, so that these facts are
// proved once, whatever the work is.

module Batching {
  import opened Base
  import opened Lists

  function Min(a: int, b: int): int
  {
    if a <= b then a else b
  }

  /** `(total + batch_size - 1) // batch_size`. */
  function BatchCount(total: nat, size: nat): nat
    requires size > 0
  {
    (total + size - 1) / size
  }

  lemma MulMono(a: nat, b: nat, c: nat)
    requires a <= b
    ensures a * c <= b * c
  {
    assert b * c - a * c == (b - a) * c;
  }

  /** The batches reach the whole input, each one starts inside it, and there are none for no input. */
  lemma BatchCountBounds(total: nat, size: nat, k: nat)
    requires size > 0
    ensures BatchCount(total, size) * size >= total
    ensures k < BatchCount(total, size) ==> k * size < total
    ensures total == 0 <==> BatchCount(total, size) == 0
  {
    var q := BatchCount(total, size);
    var r := (total + size - 1) % size;
    assert total + size - 1 == q * size + r;
    if k < q {
      MulMono(k, q - 1, size);
      assert (q - 1) * size == q * size - size;
    }
    if q == 0 {
      assert total + size - 1 == r;
    } else {
      MulMono(1, q, size);
    }
  }

  /** `s[k*size:min(k*size + size, len(s))]`. */
  function Batch<T>(s: seq<T>, size: nat, k: nat): seq<T>
    requires size > 0 && k * size <= |s|
  {
    s[k * size..Min(k * size + size, |s|)]
  }

  /** The first `n` batches, one after the other. */
  function Batched<T>(s: seq<T>, size: nat, n: nat): seq<T>
    requires size > 0 && n <= BatchCount(|s|, size)
  {
    if n == 0 then []
    else
      BatchCountBounds(|s|, size, n - 1);
      Batched(s, size, n - 1) + Batch(s, size, n - 1)
  }

  /** The first `n` batches are the first `min(n*size, len(s))` elements, so all of them together are `s`. */
  lemma {:induction false} BatchesCover<T>(s: seq<T>, size: nat, n: nat)
    requires size > 0 && n <= BatchCount(|s|, size)
    ensures Batched(s, size, n) == s[..Min(n * size, |s|)]
    ensures n == BatchCount(|s|, size) ==> Batched(s, size, n) == s
  {
    BatchCountBounds(|s|, size, n);
    if n > 0 {
      BatchesCover(s, size, n - 1);
      BatchCountBounds(|s|, size, n - 1);
      assert (n - 1) * size + size == n * size;
      assert Min((n - 1) * size, |s|) == (n - 1) * size;
      assert s[..(n - 1) * size] + s[(n - 1) * size..Min(n * size, |s|)] == s[..Min(n * size, |s|)];
    }
    if n == BatchCount(|s|, size) {
      assert s[..|s|] == s;
    }
  }

  // ---------------------------------------------------------------- the batch loop

  /**
   * The outputs of the first `n` batches, concatenated; `step` is given the
   * batch number, counted from 1, and the batch. The first batch that
   * raises ends the loop with its error.
   */
  function BatchesWith<T, U>(s: seq<T>, size: nat, step: (nat, seq<T>) -> Result<seq<U>>, n: nat): Result<seq<U>>
    requires size > 0 && n <= BatchCount(|s|, size)
  {
    if n == 0 then Ok([])
    else
      BatchCountBounds(|s|, size, n - 1);
      match BatchesWith(s, size, step, n - 1)
      case Err(e) => Err(e)
      case Ok(u) =>
        match step(n, Batch(s, size, n - 1))
        case Err(e) => Err(e)
        case Ok(v) => Ok(u + v)
  }

  /** One more batch: the loop body of BatchesWith for batch number k + 1. */
  lemma BatchesWithStep<T, U>(s: seq<T>, size: nat, step: (nat, seq<T>) -> Result<seq<U>>, k: nat)
    requires size > 0 && k < BatchCount(|s|, size)
    ensures k * size < |s|
    ensures BatchesWith(s, size, step, k + 1) ==
      match BatchesWith(s, size, step, k)
      case Err(e) => Err(e)
      case Ok(u) => (match step(k + 1, Batch(s, size, k)) case Err(e) => Err(e) case Ok(v) => Ok(u + v))
  {
    BatchCountBounds(|s|, size, k);
  }

  lemma {:induction false} BatchesWithErr<T, U>(s: seq<T>, size: nat, step: (nat, seq<T>) -> Result<seq<U>>, k: nat, n: nat)
    requires size > 0 && k <= n <= BatchCount(|s|, size)
    requires BatchesWith(s, size, step, k).Err?
    ensures BatchesWith(s, size, step, n) == BatchesWith(s, size, step, k)
    decreases n
  {
    if k < n {
      BatchesWithErr(s, size, step, k, n - 1);
    }
  }

  predicate AllGood<U>(v: seq<U>, good: U -> bool)
  {
    forall j :: 0 <= j < |v| ==> good(v[j])
  }

  /** When no batch grows and every output element is good, the same holds of the whole loop. */
  lemma {:induction false} BatchesWithBounded<T, U>(s: seq<T>, size: nat, step: (nat, seq<T>) -> Result<seq<U>>,
                                                    good: U -> bool, n: nat)
    requires size > 0 && n <= BatchCount(|s|, size)
    requires forall k: nat, b: seq<T> :: step(k, b).Ok? ==> |step(k, b).value| <= |b| && AllGood(step(k, b).value, good)
    ensures var r := BatchesWith(s, size, step, n);
      r.Ok? ==> |r.value| <= |Batched(s, size, n)| && AllGood(r.value, good)
  {
    if n > 0 {
      BatchesWithBounded(s, size, step, good, n - 1);
      BatchCountBounds(|s|, size, n - 1);
      var r := BatchesWith(s, size, step, n);
      if r.Ok? {
        var u := BatchesWith(s, size, step, n - 1).value;
        var v := step(n, Batch(s, size, n - 1)).value;
        assert r.value == u + v;
        assert forall j :: 0 <= j < |v| ==> r.value[|u| + j] == v[j];
      }
    }
  }

  predicate Pointwise<T, U>(xs: seq<T>, ys: seq<U>, rel: (T, U) -> bool)
  {
    |xs| == |ys| && forall i :: 0 <= i < |xs| ==> rel(xs[i], ys[i])
  }

  lemma PointwiseAppend<T, U>(xs: seq<T>, ys: seq<U>, xs': seq<T>, ys': seq<U>, rel: (T, U) -> bool)
    requires Pointwise(xs, ys, rel) && Pointwise(xs', ys', rel)
    ensures Pointwise(xs + xs', ys + ys', rel)
  {
  }

  /** When every batch's output matches the batch element by element, so does the whole loop's. */
  lemma {:induction false} BatchesWithPointwise<T, U>(s: seq<T>, size: nat, step: (nat, seq<T>) -> Result<seq<U>>,
                                                      rel: (T, U) -> bool, n: nat)
    requires size > 0 && n <= BatchCount(|s|, size)
    requires forall k: nat, b: seq<T> :: step(k, b).Ok? ==> Pointwise(b, step(k, b).value, rel)
    ensures var r := BatchesWith(s, size, step, n);
      r.Ok? ==> Pointwise(Batched(s, size, n), r.value, rel)
  {
    if n > 0 {
      BatchesWithPointwise(s, size, step, rel, n - 1);
      BatchCountBounds(|s|, size, n - 1);
      var r := BatchesWith(s, size, step, n);
      if r.Ok? {
        var b := Batch(s, size, n - 1);
        PointwiseAppend(Batched(s, size, n - 1), BatchesWith(s, size, step, n - 1).value, b, step(n, b).value, rel);
      }
    }
  }

  /** When every batch maps its elements by `f`, the loop maps the batched input by `f`. */
  lemma {:induction false} BatchesWithMap<T, U>(s: seq<T>, size: nat, step: (nat, seq<T>) -> Result<seq<U>>, f: T -> U, n: nat)
    requires size > 0 && n <= BatchCount(|s|, size)
    requires forall k: nat, b: seq<T> :: step(k, b) == Ok(Map(b, f))
    ensures BatchesWith(s, size, step, n) == Ok(Map(Batched(s, size, n), f))
  {
    if n > 0 {
      BatchesWithMap(s, size, step, f, n - 1);
      BatchCountBounds(|s|, size, n - 1);
      var b := Batch(s, size, n - 1);
      assert step(n, b) == Ok(Map(b, f));
      assert Map(Batched(s, size, n), f) == Map(Batched(s, size, n - 1), f) + Map(b, f);
    }
  }

  // ---------------------------------------------------------------- pairing replies with a batch

  /** `[f(xs[i], ys[i]) for i, y in enumerate(ys) if i < len(xs)]`, stopping at the first that raises. */
  function PairedWith<T, U, V>(xs: seq<T>, ys: seq<U>, f: (T, U) -> Result<V>): Result<seq<V>>
  {
    if ys == [] then Ok([])
    else
      var i := |ys| - 1;
      match PairedWith(xs, ys[..i], f)
      case Err(e) => Err(e)
      case Ok(u) =>
        if i < |xs| then
          match f(xs[i], ys[i])
          case Err(e) => Err(e)
          case Ok(q) => Ok(u + [q])
        else Ok(u)
  }

  /**
   * Reply i is paired with element i, and only the first
   * `min(len(xs), len(ys))` pairs are made; the pairing raises exactly
   * when one of those pairs does.
   */
  lemma {:induction false} PairedWithShape<T, U, V>(xs: seq<T>, ys: seq<U>, f: (T, U) -> Result<V>)
    ensures var r := PairedWith(xs, ys, f);
      var n := Min(|xs|, |ys|);
      (r.Ok? <==> forall i :: 0 <= i < n ==> f(xs[i], ys[i]).Ok?) &&
      (r.Ok? ==> |r.value| == n && forall i :: 0 <= i < n ==> r.value[i] == f(xs[i], ys[i]).value)
  {
    if ys != [] {
      var i := |ys| - 1;
      PairedWithShape(xs, ys[..i], f);
      assert forall j :: 0 <= j < i ==> ys[..i][j] == ys[j];
    }
  }

  lemma {:induction false} PairedWithErr<T, U, V>(xs: seq<T>, ys: seq<U>, f: (T, U) -> Result<V>, i: nat)
    requires i <= |ys| && PairedWith(xs, ys[..i], f).Err?
    ensures PairedWith(xs, ys, f) == PairedWith(xs, ys[..i], f)
    decreases |ys|
  {
    if i < |ys| {
      var n := |ys| - 1;
      assert ys[..n][..i] == ys[..i];
      PairedWithErr(xs, ys[..n], f, i);
    } else {
      assert ys[..i] == ys;
    }
  }

  /** Reply i applied in place to element i while i < len(xs), stopping at the first that raises. */
  function InPlaceWith<T, U>(xs: seq<T>, ys: seq<U>, f: (T, U) -> Result<T>): (r: Result<seq<T>>)
    ensures r.Ok? ==> |r.value| == |xs|
  {
    if ys == [] then Ok(xs)
    else
      var i := |ys| - 1;
      match InPlaceWith(xs, ys[..i], f)
      case Err(e) => Err(e)
      case Ok(b) =>
        if i < |xs| then
          match f(b[i], ys[i])
          case Err(e) => Err(e)
          case Ok(q) => Ok(b[i := q])
        else Ok(b)
  }

  /**
   * Each of the first `min(len(xs), len(ys))` elements is replaced by its
   * own update, the others are kept, and the loop raises exactly when one
   * of those updates does.
   */
  lemma {:induction false} InPlaceWithShape<T, U>(xs: seq<T>, ys: seq<U>, f: (T, U) -> Result<T>)
    ensures var r := InPlaceWith(xs, ys, f);
      var n := Min(|xs|, |ys|);
      (r.Ok? <==> forall i :: 0 <= i < n ==> f(xs[i], ys[i]).Ok?) &&
      (r.Ok? ==> forall i :: 0 <= i < |xs| ==> r.value[i] == if i < n then f(xs[i], ys[i]).value else xs[i])
  {
    if ys != [] {
      var i := |ys| - 1;
      InPlaceWithShape(xs, ys[..i], f);
      assert forall j :: 0 <= j < i ==> ys[..i][j] == ys[j];
    }
  }

  /** One more reply applied: the loop body of InPlaceWith at index i. */
  lemma InPlaceWithStep<T, U>(xs: seq<T>, ys: seq<U>, f: (T, U) -> Result<T>, i: nat)
    requires i < |ys| && InPlaceWith(xs, ys[..i], f).Ok?
    ensures var b := InPlaceWith(xs, ys[..i], f).value;
      InPlaceWith(xs, ys[..i + 1], f) ==
        if i < |xs| then (match f(b[i], ys[i]) case Err(e) => Err(e) case Ok(q) => Ok(b[i := q])) else Ok(b)
  {
    assert ys[..i + 1][..i] == ys[..i];
  }

  lemma {:induction false} InPlaceWithErr<T, U>(xs: seq<T>, ys: seq<U>, f: (T, U) -> Result<T>, i: nat)
    requires i <= |ys| && InPlaceWith(xs, ys[..i], f).Err?
    ensures InPlaceWith(xs, ys, f) == InPlaceWith(xs, ys[..i], f)
    decreases |ys|
  {
    if i < |ys| {
      var n := |ys| - 1;
      assert ys[..n][..i] == ys[..i];
      InPlaceWithErr(xs, ys[..n], f, i);
    } else {
      assert ys[..i] == ys;
    }
  }
}
