/** The canonical source (no reorg): an ordered stream and its index slices. */
module Source {
  import opened Streams

  /** How many events lie below key `k`. */
  function Count<T>(src: seq<Keyed<T>>, k: nat): (n: nat)
    ensures n <= |src|
  {
    if src == [] then 0
    else if src[|src| - 1].key < k then |src|
    else Count(src[..|src| - 1], k)
  }

  lemma {:induction false} CountSplits<T>(src: seq<Keyed<T>>, k: nat)
    requires Ordered(src)
    ensures forall i | 0 <= i < |src| :: src[i].key < k <==> i < Count(src, k)
  {
    if src != [] && src[|src| - 1].key >= k {
      var front := src[..|src| - 1];
      CountSplits(front, k);
      assert forall i | 0 <= i < |front| :: src[i] == front[i];
    }
  }

  function Clamp(n: nat, lo: nat, hi: nat): nat
    requires lo <= hi
  {
    if n < lo then lo else if n > hi then hi else n
  }

  lemma BelowPush<T>(es: seq<Keyed<T>>, e: Keyed<T>, k: nat)
    ensures Below(es + [e], k) == if e.key < k then Below(es, k) + [e] else Below(es, k)
  {
    assert (es + [e])[..|es|] == es;
  }

  lemma {:induction false} BelowSlice<T>(src: seq<Keyed<T>>, i: nat, j: nat, k: nat)
    requires Ordered(src) && i <= j <= |src|
    ensures Below(src[i..j], k) == src[i..Clamp(Count(src, k), i, j)]
    decreases j
  {
    CountSplits(src, k);
    if i == j {
      BelowNone<T>(k);
      assert src[i..j] == [] == src[i..Clamp(Count(src, k), i, j)];
    } else {
      assert src[j - 1].key < k <==> j - 1 < Count(src, k);
      hide *;
      BelowSlice(src, i, j - 1, k);
      SliceStep(src, i, j, Count(src, k));
      BelowPush(src[i..j - 1], src[j - 1], k);
    }
  }

  lemma SliceStep<T>(src: seq<T>, i: nat, j: nat, n: nat)
    requires i < j <= |src|
    ensures src[i..j] == src[i..j - 1] + [src[j - 1]]
    ensures i <= Clamp(n, i, j - 1) <= j - 1 && i <= Clamp(n, i, j) <= j
    ensures src[i..Clamp(n, i, j)] == if j - 1 < n then src[i..Clamp(n, i, j - 1)] + [src[j - 1]]
        else src[i..Clamp(n, i, j - 1)]
  {
  }

  lemma BelowNone<T>(k: nat)
    ensures Below<T>([], k) == []
  {
  }

  lemma {:induction false} RangeIsSlice<T>(src: seq<Keyed<T>>, lo: nat, hi: nat)
    requires Ordered(src) && lo <= hi + 1
    ensures Count(src, lo) <= Count(src, hi + 1)
    ensures Range(src, lo, hi) == src[Count(src, lo)..Count(src, hi + 1)]
  {
    if src != [] {
      var front, last := src[..|src| - 1], src[|src| - 1];
      RangeIsSlice(front, lo, hi);
      CountFront(src, lo);
      CountFront(src, hi + 1);
      RangeDef(src, lo, hi);
      hide Range, Count, Ordered;
      SliceOfFront(src, Count(front, lo), Count(front, hi + 1));
    }
  }

  lemma SliceOfFront<T>(s: seq<T>, i: nat, j: nat)
    requires i <= j < |s|
    ensures s[..|s| - 1][i..j] == s[i..j] && s[|s|..|s|] == s[i..i]
    ensures s[i..|s|] == s[i..|s| - 1] + [s[|s| - 1]]
  {
  }

  lemma RangeDef<T>(src: seq<Keyed<T>>, lo: nat, hi: nat)
    requires src != []
    ensures var front, last := src[..|src| - 1], src[|src| - 1];
      Range(src, lo, hi) == if lo <= last.key <= hi then Range(front, lo, hi) + [last] else Range(front, lo, hi)
  {
  }

  lemma CountFront<T>(src: seq<Keyed<T>>, k: nat)
    requires Ordered(src) && src != []
    ensures var front := src[..|src| - 1];
      if src[|src| - 1].key < k then Count(src, k) == |src|
          && Count(front, k) == |front| else Count(src, k) == Count(front, k)
  {
    if src[|src| - 1].key < k {
      assert forall i | 0 <= i < |src| - 1 :: src[i].key <= src[|src| - 1].key;
      CountWhole(src[..|src| - 1], k);
    }
  }

  lemma CountWhole<T>(src: seq<Keyed<T>>, k: nat)
    requires Ordered(src) && forall e | e in src :: e.key < k
    ensures Count(src, k) == |src|
  {
  }

  /** A slice holds everything at `k` once it contains every event at `k`. */
  lemma AtSlice<T>(src: seq<Keyed<T>>, i: nat, j: nat, k: nat)
    requires i <= j <= |src|
    requires forall n | 0 <= n < |src| && !(i <= n < j) :: src[n].key != k
    ensures At(src[i..j], k) == At(src, k)
  {
    assert src == src[..i] + src[i..j] + src[j..];
    AtConcat(src[..i] + src[i..j], src[j..], k);
    AtConcat(src[..i], src[i..j], k);
    AtAbsent(src[..i], k);
    AtAbsent(src[j..], k);
  }
}
