/** Slicing a backfill range into provider-sized queries. */
module Slices {
  import opened Base
  import opened Streams

  /** How the provider answers one `query_range` call. */
  datatype Verdict = Fits | TooLarge | Broken

  /** The inclusive key range of one query. */
  datatype Query = Query(from: nat, to: nat)

  /** `answer(n, from, to)`: the verdict on the `n`-th call, for the range `from ..= to`. */
  type Provider = (nat, nat, nat) -> Verdict

  /** What a query yields, the windows that fitted, and every range asked, in order. */
  datatype Fetch<+T> = Fetch(items: Option<seq<Keyed<T>>>, windows: seq<Query>, asked: seq<Query>)

  /** One window, bisected on a size rejection (`query_range_split`); `calls` queries have been asked before. */
  function QuerySplit<T>(src: seq<Keyed<T>>, answer: Provider, calls: nat, from: nat, to: nat): (r: Fetch<T>)
    requires from <= to
    decreases (to - from)
  {
    match answer(calls, from, to)
    case Fits => Fetch(Some(Range(src, from, to)), [Query(from, to)], [Query(from, to)])
    case Broken => Fetch(None, [], [Query(from, to)])
    case TooLarge =>
      if from == to then Fetch(None, [], [Query(from, to)])
      else
        var mid := from + (to - from) / 2;
        var lo := QuerySplit(src, answer, calls + 1, from, mid);
        if lo.items.None? then Fetch(None, lo.windows, [Query(from, to)] + lo.asked)
        else
          var hi := QuerySplit(src, answer, calls + 1 + |lo.asked|, mid + 1, to);
          Fetch(if hi.items.None? then None else Some(lo.items.value + hi.items.value), lo.windows + hi.windows,
                [Query(from, to)] + lo.asked + hi.asked)
  }

  function WindowEnd(from: nat, to: nat, chunk: nat): nat
    requires chunk >= 1
  {
    Min(SatAdd(from, chunk - 1), to)
  }

  /** `windows` tile `from ..= to`: adjacent, in order, none inverted. */
  ghost predicate Tiles(windows: seq<Query>, from: nat, to: nat) {
    && windows != [] && windows[0].from == from && windows[|windows| - 1].to == to
    && (forall i | 0 <= i < |windows| :: windows[i].from <= windows[i].to)
    && (forall i | 0 < i < |windows| :: windows[i].from == windows[i - 1].to + 1)
  }

  lemma {:induction false} RangeSplits<T>(src: seq<Keyed<T>>, from: nat, mid: nat, to: nat)
    requires Ordered(src) && from <= mid + 1 && mid <= to
    ensures Range(src, from, to) == Range(src, from, mid) + Range(src, mid + 1, to)
  {
    if src != [] {
      var front, last := src[..|src| - 1], src[|src| - 1];
      RangeSplits(front, from, mid, to);
      if last.key <= mid {
        RangeEmpty(front, mid + 1, to);
      }
    }
  }

  lemma {:induction false} RangeEmpty<T>(src: seq<Keyed<T>>, from: nat, to: nat)
    requires forall e | e in src :: e.key < from
    ensures Range(src, from, to) == []
  {
    if src != [] {
      RangeEmpty(src[..|src| - 1], from, to);
    }
  }

  lemma TilesConcat(a: seq<Query>, b: seq<Query>, lo: nat, mid: nat, hi: nat)
    requires Tiles(a, lo, mid) && Tiles(b, mid + 1, hi)
    ensures Tiles(a + b, lo, hi)
  {
  }

  /** A query that ends the backfill: any other error than a size rejection, or a single position that is too large. */
  predicate Fatal(v: Verdict, range: Query) {
    v.Broken? || (v.TooLarge? && range.from == range.to)
  }

  /** One round of bisection, and a query that is not bisected. */
  lemma Bisected<T>(src: seq<Keyed<T>>, answer: Provider, calls: nat, from: nat, to: nat)
    requires from < to && answer(calls, from, to).TooLarge?
    ensures var r, mid := QuerySplit(src, answer, calls, from, to), from + (to - from) / 2;
      var lo := QuerySplit(src, answer, calls + 1, from, mid);
      var hi := QuerySplit(src, answer, calls + 1 + |lo.asked|, mid + 1, to);
      && (r.items.None? <==> lo.items.None? || hi.items.None?)
      && (r.items.Some? ==> r.items.value == lo.items.value + hi.items.value)
      && (lo.items.None? ==> r.asked == [Query(from, to)] + lo.asked && r.windows == lo.windows)
      && (lo.items.Some? ==> r.asked == [Query(from, to)] + lo.asked + hi.asked && r.windows == lo.windows + hi.windows)
  {
  }

  lemma Unsplit<T>(src: seq<Keyed<T>>, answer: Provider, calls: nat, from: nat, to: nat)
    requires from <= to && !(answer(calls, from, to).TooLarge? && from < to)
    ensures var r := QuerySplit(src, answer, calls, from, to);
      && r.asked == [Query(from, to)] && r.windows == (if r.items.Some? then [Query(from, to)] else [])
      && (r.items.None? <==> Fatal(answer(calls, from, to), Query(from, to)))
      && (r.items.Some? ==> r.items.value == Range(src, from, to))
  {
  }

  /** Bisection changes neither the items nor their order, and its leaf queries tile the window. */
  lemma {:induction false} SplitIsQuery<T>(src: seq<Keyed<T>>, answer: Provider, calls: nat, from: nat, to: nat)
    requires from <= to && Ordered(src)
    ensures var r := QuerySplit(src, answer, calls, from, to);
      r.items.Some? ==> r.items.value == Range(src, from, to) && Tiles(r.windows, from, to)
    decreases (to - from)
  {
    hide *;
    if answer(calls, from, to).TooLarge? && from < to {
      var mid := from + (to - from) / 2;
      var lo := QuerySplit(src, answer, calls + 1, from, mid);
      var hi := QuerySplit(src, answer, calls + 1 + |lo.asked|, mid + 1, to);
      SplitIsQuery(src, answer, calls + 1, from, mid);
      SplitIsQuery(src, answer, calls + 1 + |lo.asked|, mid + 1, to);
      RangeSplits(src, from, mid, to);
      Bisected(src, answer, calls, from, to);
      if lo.items.Some? && hi.items.Some? { TilesConcat(lo.windows, hi.windows, from, mid, to); }
    } else {
      Unsplit(src, answer, calls, from, to);
      OneTile(from, to);
    }
  }

  lemma OneTile(from: nat, to: nat)
    requires from <= to
    ensures Tiles([Query(from, to)], from, to)
  {
  }

  /** A rejection for size never fails a backfill by itself: unless some query breaks, or a single position is too
      large, bisection ends in success after fewer than two calls per position. */
  lemma {:induction false} SplitSucceeds<T>(src: seq<Keyed<T>>, answer: Provider, calls: nat, from: nat, to: nat)
    requires from <= to
    requires forall n, a, b :: !answer(n, a, b).Broken? && (a == b ==> answer(n, a, b).Fits?)
    ensures var r := QuerySplit(src, answer, calls, from, to);
      r.items.Some? && 0 < |r.asked| <= 2 * (to - from) + 1 && |r.windows| <= to - from + 1
    decreases (to - from)
  {
    if answer(calls, from, to).TooLarge? {
      var mid := from + (to - from) / 2;
      assert from < to;
      SplitSucceeds(src, answer, calls + 1, from, mid);
      var lo := QuerySplit(src, answer, calls + 1, from, mid);
      SplitSucceeds(src, answer, calls + 1 + |lo.asked|, mid + 1, to);
    }
  }

  /** Where the chunk loop goes after the window that starts at `from` (`next_from`). */
  function NextFrom(from: nat, to: nat, chunk: nat): nat
    requires chunk >= 1
  {
    SatAdd(WindowEnd(from, to, chunk), 1)
  }

  /** The chunk loop makes progress from every window start exactly when the range stops
      short of the last 64-bit key; at that key the loop asks for the same window for ever. */
  lemma ProgressIffBelowMax(to: nat, chunk: nat)
    requires chunk >= 1 && to <= U64_MAX
    ensures (forall from: nat :: from <= to ==> from < NextFrom(from, to, chunk)) <==> to < U64_MAX
  {
    assert to == U64_MAX ==> NextFrom(to, to, chunk) == to;
  }

  /** The window start after `n` rounds of the chunk loop. */
  function WindowStart(from: nat, to: nat, chunk: nat, n: nat): nat
    requires chunk >= 1
  {
    if n == 0 then from else NextFrom(WindowStart(from, to, chunk, n - 1), to, chunk)
  }

  lemma {:induction false} Advances(from: nat, to: nat, chunk: nat, n: nat)
    requires chunk >= 1 && from <= to < U64_MAX
    ensures WindowStart(from, to, chunk, n) > to || WindowStart(from, to, chunk, n) >= from + n
             || exists m: nat :: m < n && WindowStart(from, to, chunk, m) > to
  {
    if n > 0 { Advances(from, to, chunk, n - 1); }
  }

  lemma {:induction false} NeverPasses(from: nat, chunk: nat, n: nat)
    requires chunk >= 1 && from <= U64_MAX
    ensures WindowStart(from, U64_MAX, chunk, n) <= U64_MAX
  {
    if n > 0 { NeverPasses(from, chunk, n - 1); }
  }

  /** Whole runs: the loop guard holds for ever, from any start, if and only if the range ends at the last 64-bit
      key. */
  lemma LoopsForeverIffAtMax(from: nat, to: nat, chunk: nat)
    requires chunk >= 1 && from <= to <= U64_MAX
    ensures (forall n: nat :: WindowStart(from, to, chunk, n) <= to) <==> to == U64_MAX
  {
    if to == U64_MAX {
      forall n: nat ensures WindowStart(from, to, chunk, n) <= to { NeverPasses(from, chunk, n); }
    } else {
      Advances(from, to, chunk, to - from + 1);
    }
  }

  datatype Sliced<+T> = Sliced(items: seq<Keyed<T>>, windows: seq<Query>, failed: Option<nat>,
                               asked: seq<Query>)

  /** The windows from `from` on: what they yield, and the start of the first one that fails. */
  function Chunks<T>(src: seq<Keyed<T>>, answer: Provider, calls: nat, from: nat, to: nat, chunk: nat): Sliced<T>
    requires chunk >= 1 && to < U64_MAX
    decreases (to + 1 - from)
  {
    if from > to then Sliced([], [], None, [])
    else
      var w := QuerySplit(src, answer, calls, from, WindowEnd(from, to, chunk));
      if w.items.None? then Sliced([], [], Some(from), w.asked)
      else
        var rest := Chunks(src, answer, calls + |w.asked|, NextFrom(from, to, chunk), to, chunk);
        Sliced(w.items.value + rest.items, w.windows + rest.windows, rest.failed, w.asked + rest.asked)
  }

  /** The items are one query over the whole range, or over the part below the failed window. */
  ghost predicate Faithful<T>(src: seq<Keyed<T>>, r: Sliced<T>, from: nat, to: nat) {
    match r.failed
    case None => r.items == Range(src, from, to) && Tiles(r.windows, from, to)
    case Some(x) =>
      && from <= x <= to
      && (x == from ==> r.items == [] && r.windows == [])
      && (x > from ==> r.items == Range(src, from, x - 1) && Tiles(r.windows, from, x - 1))
  }

  lemma FaithfulConcat<T>(src: seq<Keyed<T>>, windows: seq<Query>, rest: Sliced<T>, from: nat, end: nat, to: nat,
                          asked: seq<Query>)
    requires Ordered(src) && from <= end < to
    requires Tiles(windows, from, end) && Faithful(src, rest, end + 1, to)
    ensures Faithful(src, Sliced(Range(src, from, end) + rest.items, windows + rest.windows, rest.failed, asked), from,
                     to)
  {
    var top := if rest.failed.None? then to else rest.failed.value - 1;
    if top > end {
      RangeSplits(src, from, end, top);
      TilesConcat(windows, rest.windows, from, end, top);
    }
  }

  lemma {:induction false} ChunksAreQuery<T>(src: seq<Keyed<T>>, answer: Provider, calls: nat, from: nat, to: nat,
                                             chunk: nat)
    requires chunk >= 1 && from <= to < U64_MAX && Ordered(src)
    ensures Faithful(src, Chunks(src, answer, calls, from, to, chunk), from, to)
    decreases (to + 1 - from)
  {
    hide *;
    FirstChunk(from, to, chunk);
    NextChunk(src, answer, calls, from, to, chunk);
    var end := WindowEnd(from, to, chunk);
    var w := QuerySplit(src, answer, calls, from, end);
    SplitIsQuery(src, answer, calls, from, end);
    if w.items.None? {
      FailsAtOnce(src, Chunks(src, answer, calls, from, to, chunk), from, to);
    } else {
      var rest := Chunks(src, answer, calls + |w.asked|, end + 1, to, chunk);
      if end < to {
        ChunksAreQuery(src, answer, calls + |w.asked|, end + 1, to, chunk);
        FaithfulConcat(src, w.windows, rest, from, end, to, w.asked + rest.asked);
      } else {
        NoMoreChunks(src, answer, calls + |w.asked|, end + 1, to, chunk);
        assert w.items.value + [] == w.items.value && w.windows + [] == w.windows;
        WholeAtOnce(src, Chunks(src, answer, calls, from, to, chunk), from, to);
      }
    }
  }

  lemma FailsAtOnce<T>(src: seq<Keyed<T>>, r: Sliced<T>, from: nat, to: nat)
    requires from <= to && r.items == [] && r.windows == [] && r.failed == Some(from)
    ensures Faithful(src, r, from, to)
  {
  }

  lemma WholeAtOnce<T>(src: seq<Keyed<T>>, r: Sliced<T>, from: nat, to: nat)
    requires r.items == Range(src, from, to) && Tiles(r.windows, from, to) && r.failed == None
    ensures Faithful(src, r, from, to)
  {
  }

  /** No query before the last asked was fatal, and the last one was exactly if the whole failed. */
  ghost predicate StopsAtFatal(answer: Provider, calls: nat, asked: seq<Query>, failed: bool) {
    && (forall i | 0 <= i < |asked| - 1 :: !Fatal(answer(calls + i, asked[i].from, asked[i].to), asked[i]))
    && (asked == [] ==> !failed)
    && (asked != [] ==>
          var n := |asked| - 1;
          failed <==> Fatal(answer(calls + n, asked[n].from, asked[n].to), asked[n]))
  }

  lemma StopsConcat(answer: Provider, calls: nat, a: seq<Query>, b: seq<Query>, failed: bool)
    requires StopsAtFatal(answer, calls, a, false) && StopsAtFatal(answer, calls + |a|, b, failed)
    ensures StopsAtFatal(answer, calls, a + b, failed)
  {
    var all := a + b;
    forall i | 0 <= i < |all| - (if failed then 1 else 0)
      ensures !Fatal(answer(calls + i, all[i].from, all[i].to), all[i])
    {
      if i >= |a| { assert all[i] == b[i - |a|] && calls + i == calls + |a| + (i - |a|); }
    }
    if failed { assert all[|all| - 1] == b[|b| - 1] && calls + |all| - 1 == calls + |a| + (|b| - 1); }
  }

  /** Bisection fails on the first fatal answer, with nothing asked after it, and on nothing else. */
  lemma {:induction false} SplitFailsExactly<T>(src: seq<Keyed<T>>, answer: Provider, calls: nat, from: nat, to: nat)
    requires from <= to
    ensures var r := QuerySplit(src, answer, calls, from, to);
      r.asked != [] && StopsAtFatal(answer, calls, r.asked, r.items.None?)
    decreases (to - from)
  {
    hide *;
    if answer(calls, from, to).TooLarge? && from < to {
      var mid := from + (to - from) / 2;
      var lo := QuerySplit(src, answer, calls + 1, from, mid);
      var hi := QuerySplit(src, answer, calls + 1 + |lo.asked|, mid + 1, to);
      SplitFailsExactly(src, answer, calls + 1, from, mid);
      SplitFailsExactly(src, answer, calls + 1 + |lo.asked|, mid + 1, to);
      Bisected(src, answer, calls, from, to);
      Stops(answer, calls, Query(from, to), lo.asked, lo.items.None?, hi.asked, hi.items.None?);
    } else {
      Unsplit(src, answer, calls, from, to);
      OneAsked(answer, calls, Query(from, to));
    }
  }

  lemma Stops(answer: Provider, calls: nat, range: Query, lo: seq<Query>, loFailed: bool, hi: seq<Query>,
              hiFailed: bool)
    requires answer(calls, range.from, range.to).TooLarge? && range.from < range.to
    requires StopsAtFatal(answer, calls + 1, lo, loFailed) && StopsAtFatal(answer, calls + 1 + |lo|, hi, hiFailed)
    ensures StopsAtFatal(answer, calls, [range] + lo, loFailed)
    ensures !loFailed ==> StopsAtFatal(answer, calls, [range] + lo + hi, hiFailed)
  {
    hide *;
    NotFatal(answer, calls, range);
    StopsConcat(answer, calls, [range], lo, loFailed);
    if !loFailed {
      StopsConcat(answer, calls, [range] + lo, hi, hiFailed);
    }
  }

  lemma OneAsked(answer: Provider, calls: nat, range: Query)
    ensures StopsAtFatal(answer, calls, [range], Fatal(answer(calls, range.from, range.to), range))
  {
  }

  lemma NotFatal(answer: Provider, calls: nat, range: Query)
    requires answer(calls, range.from, range.to).TooLarge? && range.from < range.to
    ensures StopsAtFatal(answer, calls, [range], false)
  {
  }

  /** The sliced backfill fails on the first fatal answer, with nothing asked after it, and on nothing else. */
  lemma {:induction false} ChunksFailExactly<T>(src: seq<Keyed<T>>, answer: Provider, calls: nat, from: nat, to: nat,
                                                chunk: nat)
    requires chunk >= 1 && to < U64_MAX
    ensures var r := Chunks(src, answer, calls, from, to, chunk);
      StopsAtFatal(answer, calls, r.asked, r.failed.Some?)
    decreases (to + 1 - from)
  {
    hide *;
    if from <= to {
      NextChunk(src, answer, calls, from, to, chunk);
      var w := QuerySplit(src, answer, calls, from, WindowEnd(from, to, chunk));
      SplitFailsExactly(src, answer, calls, from, WindowEnd(from, to, chunk));
      if w.items.Some? {
        var rest := Chunks(src, answer, calls + |w.asked|, NextFrom(from, to, chunk), to, chunk);
        ChunksFailExactly(src, answer, calls + |w.asked|, NextFrom(from, to, chunk), to, chunk);
        StopsConcat(answer, calls, w.asked, rest.asked, rest.failed.Some?);
      }
    } else {
      NoMoreChunks(src, answer, calls, from, to, chunk);
      NothingAsked(answer, calls);
    }
  }

  lemma NextChunk<T>(src: seq<Keyed<T>>, answer: Provider, calls: nat, from: nat, to: nat, chunk: nat)
    requires chunk >= 1 && from <= to < U64_MAX
    ensures from <= WindowEnd(from, to, chunk) < NextFrom(from, to, chunk)
    ensures var w := QuerySplit(src, answer, calls, from, WindowEnd(from, to, chunk));
      var r := Chunks(src, answer, calls, from, to, chunk);
      var rest := Chunks(src, answer, calls + |w.asked|, NextFrom(from, to, chunk), to, chunk);
      && (w.items.None? ==> r == Sliced([], [], Some(from), w.asked))
      && (w.items.Some? ==>
            r == Sliced(w.items.value + rest.items, w.windows + rest.windows, rest.failed, w.asked + rest.asked))
  {
    hide QuerySplit, Range;
  }

  lemma NothingAsked(answer: Provider, calls: nat)
    ensures StopsAtFatal(answer, calls, [], false)
  {
  }

  /** Ranges of at least one and at most `chunk` positions within `from ..= to`. */
  ghost predicate Within(ranges: seq<Query>, from: nat, to: nat, chunk: nat) {
    forall r | r in ranges :: from <= r.from <= r.to <= to && 1 <= r.to - r.from + 1 <= chunk
  }

  lemma {:induction false} SplitWithin<T>(src: seq<Keyed<T>>, answer: Provider, calls: nat, from: nat, to: nat)
    requires from <= to
    ensures var r := QuerySplit(src, answer, calls, from, to);
      Within(r.asked, from, to, to - from + 1) && Within(r.windows, from, to, to - from + 1)
    decreases (to - from)
  {
    hide *;
    if answer(calls, from, to).TooLarge? && from < to {
      var mid := from + (to - from) / 2;
      var lo := QuerySplit(src, answer, calls + 1, from, mid);
      var hi := QuerySplit(src, answer, calls + 1 + |lo.asked|, mid + 1, to);
      SplitWithin(src, answer, calls + 1, from, mid);
      SplitWithin(src, answer, calls + 1 + |lo.asked|, mid + 1, to);
      WithinHalves(lo.asked, hi.asked, from, mid, to);
      WithinHalves(lo.windows, hi.windows, from, mid, to);
      Bisected(src, answer, calls, from, to);
    } else {
      Unsplit(src, answer, calls, from, to);
      OneWithin(from, to);
    }
  }

  lemma OneWithin(from: nat, to: nat)
    requires from <= to
    ensures Within([Query(from, to)], from, to, to - from + 1) && Within([], from, to, to - from + 1)
  {
  }

  lemma WithinHalves(lo: seq<Query>, hi: seq<Query>, from: nat, mid: nat, to: nat)
    requires from <= mid < to && Within(lo, from, mid, mid - from + 1) && Within(hi, mid + 1, to, to - (mid + 1) + 1)
    ensures Within([Query(from, to)] + lo, from, to, to - from + 1) && Within(lo, from, to, to - from + 1)
    ensures Within([Query(from, to)] + lo + hi, from, to, to - from + 1) && Within(lo + hi, from, to, to - from + 1)
  {
  }

  /** No query asks for more than `chunk` positions, whatever the answers. */
  lemma {:induction false} ChunkBoundsQueries<T>(src: seq<Keyed<T>>, answer: Provider, calls: nat, from: nat, to: nat,
                                                 chunk: nat)
    requires chunk >= 1 && to < U64_MAX
    ensures var r := Chunks(src, answer, calls, from, to, chunk);
      Within(r.asked, from, to, chunk) && Within(r.windows, from, to, chunk)
    decreases (to + 1 - from)
  {
    hide *;
    if from <= to {
      var end := WindowEnd(from, to, chunk);
      FirstChunk(from, to, chunk);
      NextChunk(src, answer, calls, from, to, chunk);
      var w := QuerySplit(src, answer, calls, from, end);
      SplitWithin(src, answer, calls, from, end);
      if w.items.Some? {
        var rest := Chunks(src, answer, calls + |w.asked|, end + 1, to, chunk);
        ChunkBoundsQueries(src, answer, calls + |w.asked|, end + 1, to, chunk);
        WithinJoin(w.asked, rest.asked, from, end, to, chunk);
        WithinJoin(w.windows, rest.windows, from, end, to, chunk);
      } else {
        WithinJoin(w.asked, [], from, end, to, chunk);
        assert w.asked + [] == w.asked;
        NoneWithin(from, to, chunk);
      }
    } else {
      NoMoreChunks(src, answer, calls, from, to, chunk);
      NoneWithin(from, to, chunk);
    }
  }

  lemma NoneWithin(from: nat, to: nat, chunk: nat)
    ensures Within([], from, to, chunk)
  {
  }

  lemma WithinJoin(a: seq<Query>, b: seq<Query>, from: nat, end: nat, to: nat, chunk: nat)
    requires from <= end <= to && end - from + 1 <= chunk && Within(a, from, end, end - from + 1)
    requires Within(b, end + 1, to, chunk) || b == []
    ensures Within(a + b, from, to, chunk)
  {
  }

  /** `queries` cut `from ..= to` into runs of `chunk` positions, only the last one shorter. */
  ghost predicate Aligned(queries: seq<Query>, from: nat, to: nat, chunk: nat) {
    && from + (|queries| - 1) * chunk <= to < from + |queries| * chunk
    && forall i | 0 <= i < |queries| ::
        queries[i].from == from + i * chunk && queries[i].to == Min(from + i * chunk + (chunk - 1), to)
  }

  lemma AlignedPush(rest: seq<Query>, from: nat, to: nat, chunk: nat)
    requires chunk >= 1 && Aligned(rest, from + chunk, to, chunk)
    ensures from + chunk <= to ==> Aligned([Query(from, from + (chunk - 1))] + rest, from, to, chunk)
  {
    var all := [Query(from, from + (chunk - 1))] + rest;
    OneLess(from, |all|, chunk);
    OneLess(from, |all| - 1, chunk);
    forall i | 0 <= i < |all|
      ensures from + chunk <= to ==>
        all[i].from == from + i * chunk && all[i].to == Min(from + i * chunk + (chunk - 1), to)
    {
      OneLess(from, i, chunk);
      if i > 0 { assert all[i] == rest[i - 1]; }
    }
  }

  lemma OneLess(from: nat, i: int, chunk: nat)
    ensures from + i * chunk == from + chunk + (i - 1) * chunk
  {
  }

  /** When every answer fits, the `i`-th query is the `i`-th run of `chunk` positions, the last one cut at the end of
      the range, and there are no others. */
  lemma {:induction false} ChunksAreAligned<T>(src: seq<Keyed<T>>, answer: Provider, calls: nat, from: nat, to: nat,
                                               chunk: nat)
    requires chunk >= 1 && from <= to < U64_MAX && forall n, a, b :: answer(n, a, b).Fits?
    ensures var r := Chunks(src, answer, calls, from, to, chunk);
      r.failed.None? && r.asked == r.windows && Aligned(r.asked, from, to, chunk)
    decreases (to + 1 - from)
  {
    NextChunk(src, answer, calls, from, to, chunk);
    AllFit(src, answer, calls, from, WindowEnd(from, to, chunk));
    FirstChunk(from, to, chunk);
    hide Chunks, QuerySplit, WindowEnd, NextFrom, Aligned;
    var end := WindowEnd(from, to, chunk);
    if end < to {
      ChunksAreAligned(src, answer, calls + 1, end + 1, to, chunk);
      AlignedPush(Chunks(src, answer, calls + 1, end + 1, to, chunk).asked, from, to, chunk);
    } else {
      NoMoreChunks(src, answer, calls + 1, NextFrom(from, to, chunk), to, chunk);
      assert [Query(from, to)] + [] == [Query(from, to)];
    }
  }

  lemma AllFit<T>(src: seq<Keyed<T>>, answer: Provider, calls: nat, from: nat, to: nat)
    requires from <= to && answer(calls, from, to).Fits?
    ensures var w := QuerySplit(src, answer, calls, from, to);
      w.items.Some? && w.asked == [Query(from, to)] && w.windows == [Query(from, to)]
  {
  }

  lemma FirstChunk(from: nat, to: nat, chunk: nat)
    requires chunk >= 1 && from <= to < U64_MAX
    ensures var end := WindowEnd(from, to, chunk);
      && from <= end <= to && end - from + 1 <= chunk && NextFrom(from, to, chunk) == end + 1
      && (end < to ==> end == from + (chunk - 1)) && (end == to ==> Aligned([Query(from, to)], from, to, chunk))
  {
  }

  lemma NoMoreChunks<T>(src: seq<Keyed<T>>, answer: Provider, calls: nat, from: nat, to: nat, chunk: nat)
    requires chunk >= 1 && to < U64_MAX && to < from
    ensures Chunks(src, answer, calls, from, to, chunk) == Sliced([], [], None, [])
  {
  }

  /** Against a provider that takes at most `limit` positions, what fits is the whole window or at least half of what
      would have been allowed. */
  lemma {:induction false} SplitStaysLarge<T>(src: seq<Keyed<T>>, answer: Provider, calls: nat, from: nat, to: nat,
                                              limit: nat)
    requires from <= to && 1 <= limit
    requires forall n: nat, a: nat, b: nat | a <= b :: answer(n, a, b) == if b - a + 1 <= limit then Fits else TooLarge
    ensures var r := QuerySplit(src, answer, calls, from, to);
      r.items.Some? && (r.windows == [Query(from, to)] || forall w | w in r.windows :: limit <= 2 * (w.to - w.from + 1))
    decreases (to - from)
  {
    hide QuerySplit, Range;
    if to - from + 1 > limit {
      Bisected(src, answer, calls, from, to);
      var mid := from + (to - from) / 2;
      SplitStaysLarge(src, answer, calls + 1, from, mid, limit);
      SplitStaysLarge(src, answer, calls + 1 + |QuerySplit(src, answer, calls + 1, from, mid).asked|, mid + 1, to,
                      limit);
    } else {
      AllFit(src, answer, calls, from, to);
    }
  }

  /** The sliced backfill: the first window eagerly, the others one by one. A failed first
      window is the caller's error; a later one ends the stream and poisons the live tail. */
  method ChunkedQuery<T>(src: seq<Keyed<T>>, answer: Provider, from: nat, to: nat, chunk: nat) returns (r: Sliced<T>)
    requires chunk >= 1 && from <= to < U64_MAX && Ordered(src)
    ensures r == Chunks(src, answer, 0, from, to, chunk)
    ensures Faithful(src, r, from, to) && StopsAtFatal(answer, 0, r.asked, r.failed.Some?)
    ensures Within(r.asked, from, to, chunk) && Within(r.windows, from, to, chunk)
  {
    hide Range, Tiles, QuerySplit, StopsAtFatal, Within;
    ChunksAreQuery(src, answer, 0, from, to, chunk);
    ChunksFailExactly(src, answer, 0, from, to, chunk);
    ChunkBoundsQueries(src, answer, 0, from, to, chunk);
    var first := QuerySplit(src, answer, 0, from, WindowEnd(from, to, chunk));
    if first.items.None? {
      return Sliced([], [], Some(from), first.asked);
    }
    var items, windows, asked := first.items.value, first.windows, first.asked;
    var nextFrom := NextFrom(from, to, chunk);
    while nextFrom <= to
      invariant from < nextFrom
      invariant var rest := Chunks(src, answer, |asked|, nextFrom, to, chunk);
        Chunks(src, answer, 0, from, to, chunk)
        == Sliced(items + rest.items, windows + rest.windows, rest.failed, asked + rest.asked)
      decreases (to + 1 - nextFrom)
    {
      var window := QuerySplit(src, answer, |asked|, nextFrom, WindowEnd(nextFrom, to, chunk));
      if window.items.None? {
        assert items + [] == items && windows + [] == windows;
        return Sliced(items, windows, Some(nextFrom), asked + window.asked);
      }
      ghost var rest := Chunks(src, answer, |asked + window.asked|, NextFrom(nextFrom, to, chunk), to, chunk);
      assert items + (window.items.value + rest.items) == items + window.items.value + rest.items;
      assert windows + (window.windows + rest.windows) == windows + window.windows + rest.windows;
      assert asked + (window.asked + rest.asked) == asked + window.asked + rest.asked;
      items, windows, asked := items + window.items.value, windows + window.windows, asked + window.asked;
      nextFrom := NextFrom(nextFrom, to, chunk);
    }
    assert items + [] == items && windows + [] == windows && asked + [] == asked;
    return Sliced(items, windows, None, asked);
  }
}
