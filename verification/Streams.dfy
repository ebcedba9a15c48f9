/** Finite streams of keyed items, and the projections the proofs compare them by. */
module Streams {

  datatype Keyed<+T> = Keyed(key: nat, value: T)

  /** The items at exactly key `k`, in stream order. */
  function At<T>(es: seq<Keyed<T>>, k: nat): seq<T> {
    if es == [] then [] else
      var last := es[|es| - 1];
      if last.key == k then At(es[..|es| - 1], k) + [last.value] else At(es[..|es| - 1], k)
  }

  /** The stream without everything at or above key `k`. */
  function Below<T>(es: seq<Keyed<T>>, k: nat): seq<Keyed<T>> {
    if es == [] then [] else
      var last := es[|es| - 1];
      if last.key < k then Below(es[..|es| - 1], k) + [last] else Below(es[..|es| - 1], k)
  }

  /** The stream restricted to the inclusive key range `lo ..= hi`. */
  function Range<T>(es: seq<Keyed<T>>, lo: nat, hi: nat): seq<Keyed<T>> {
    if es == [] then [] else
      var last := es[|es| - 1];
      if lo <= last.key <= hi then Range(es[..|es| - 1], lo, hi) + [last] else Range(es[..|es| - 1], lo, hi)
  }

  /** Sort-key order is stream order. */
  ghost predicate Ordered<T>(es: seq<Keyed<T>>) {
    forall i, j | 0 <= i < j < |es| :: es[i].key <= es[j].key
  }

  lemma AtPush<T>(es: seq<Keyed<T>>, e: Keyed<T>, k: nat)
    ensures At(es + [e], k) == if e.key == k then At(es, k) + [e.value] else At(es, k)
  {
    assert (es + [e])[..|es|] == es;
  }

  lemma {:induction false} AtAbsent<T>(es: seq<Keyed<T>>, k: nat)
    requires forall e | e in es :: e.key != k
    ensures At(es, k) == []
  {
    if es != [] {
      AtAbsent(es[..|es| - 1], k);
    }
  }

  lemma {:induction false} AtBelow<T>(es: seq<Keyed<T>>, k: nat, j: nat)
    ensures At(Below(es, k), j) == if j < k then At(es, j) else []
  {
    if es != [] {
      var front, last := es[..|es| - 1], es[|es| - 1];
      AtBelow(front, k, j);
      if last.key < k {
        AtPush(Below(front, k), last, j);
      }
    }
  }

  lemma {:induction false} BelowKeeps<T(!new)>(es: seq<Keyed<T>>, k: nat)
    ensures forall e :: e in Below(es, k) <==> e in es && e.key < k
  {
    if es != [] {
      var front, last := es[..|es| - 1], es[|es| - 1];
      BelowKeeps(front, k);
      assert es == front + [last];
    }
  }

  lemma OrderedPush<T>(es: seq<Keyed<T>>, e: Keyed<T>)
    requires Ordered(es) && forall x | x in es :: x.key <= e.key
    ensures Ordered(es + [e])
  {
  }

  lemma {:induction false} BelowOrdered<T(!new)>(es: seq<Keyed<T>>, k: nat)
    requires Ordered(es)
    ensures Ordered(Below(es, k))
  {
    if es != [] {
      var front, last := es[..|es| - 1], es[|es| - 1];
      BelowOrdered(front, k);
      BelowKeeps(front, k);
      if last.key < k { OrderedPush(Below(front, k), last); }
    }
  }

  lemma {:induction false} AtConcat<T>(a: seq<Keyed<T>>, b: seq<Keyed<T>>, k: nat)
    ensures At(a + b, k) == At(a, k) + At(b, k)
  {
    if b == [] {
      assert a + b == a;
    } else {
      var front, last := b[..|b| - 1], b[|b| - 1];
      AtConcat(a, front, k);
      AtConcatStep(a, front, last, k);
      assert b == front + [last];
    }
  }

  lemma AtConcatStep<T>(a: seq<Keyed<T>>, front: seq<Keyed<T>>, last: Keyed<T>, k: nat)
    requires At(a + front, k) == At(a, k) + At(front, k)
    ensures At(a + (front + [last]), k) == At(a, k) + At(front + [last], k)
  {
    hide At;
    AtPush(a + front, last, k);
    AtPush(front, last, k);
    assert a + (front + [last]) == (a + front) + [last];
    assert (At(a, k) + At(front, k)) + [last.value] == At(a, k) + (At(front, k) + [last.value]);
  }

  /** `rows`, all keyed `k`. */
  function Tag<T>(k: nat, rows: seq<T>): seq<Keyed<T>> {
    seq(|rows|, i requires 0 <= i < |rows| => Keyed(k, rows[i]))
  }

  lemma {:induction false} AtTag<T>(k: nat, rows: seq<T>, j: nat)
    ensures At(Tag(k, rows), j) == if j == k then rows else []
  {
    if rows != [] {
      var front, last := rows[..|rows| - 1], rows[|rows| - 1];
      AtTag(k, front, j);
      assert Tag(k, rows) == Tag(k, front) + [Keyed(k, last)];
      AtPush(Tag(k, front), Keyed(k, last), j);
      assert front + [last] == rows;
    }
  }

  ghost predicate SameAt<T>(a: seq<Keyed<T>>, b: seq<Keyed<T>>) {
    forall k: nat :: At(a, k) == At(b, k)
  }

  lemma FrontsAgree<T>(fa: seq<Keyed<T>>, fb: seq<Keyed<T>>, x: Keyed<T>, y: Keyed<T>)
    requires SameAt(fa + [x], fb + [y]) && x.key == y.key
    ensures x == y && SameAt(fa, fb)
  {
    forall k: nat ensures At(fa, k) == At(fb, k) && (k == x.key ==> x.value == y.value) {
      assert At(fa + [x], k) == At(fb + [y], k);
      AtPush(fa, x, k);
      AtPush(fb, y, k);
      if k == x.key {
        var u, v := At(fa, k) + [x.value], At(fb, k) + [y.value];
        assert u == v && u[|u| - 1] == v[|v| - 1] && u[..|u| - 1] == At(fa, k) && v[..|v| - 1] == At(fb, k);
      }
    }
    assert At(fa, x.key) == At(fb, x.key);
  }

  /** An ordered stream is determined by what it holds at each key. */
  lemma {:induction false} OrderedDetermined<T>(a: seq<Keyed<T>>, b: seq<Keyed<T>>)
    requires Ordered(a) && Ordered(b) && SameAt(a, b)
    ensures a == b
  {
    if a == [] || b == [] {
      assert a != [] ==> At(a, a[|a| - 1].key) == At(b, a[|a| - 1].key);
      assert b != [] ==> At(a, b[|b| - 1].key) == At(b, b[|b| - 1].key);
    } else {
      var fa, fb, x, y := a[..|a| - 1], b[..|b| - 1], a[|a| - 1], b[|b| - 1];
      assert a == fa + [x] && b == fb + [y];
      assert At(a, x.key) != [] && At(b, x.key) == At(a, x.key);
      assert At(b, y.key) != [] && At(b, y.key) == At(a, y.key);
      if x.key < y.key { AtAbsent(a, y.key); }
      if y.key < x.key { AtAbsent(b, x.key); }
      FrontsAgree(fa, fb, x, y);
      OrderedDetermined(fa, fb);
    }
  }

  function Values<T>(es: seq<Keyed<T>>): seq<T> {
    seq(|es|, i requires 0 <= i < |es| => es[i].value)
  }

  lemma ValuesPush<T>(es: seq<Keyed<T>>, e: Keyed<T>)
    ensures Values(es + [e]) == Values(es) + [e.value]
  {
  }
}
