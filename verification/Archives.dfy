/** Blocks without reorgs: over any sequence of subscriptions the store is a gap-free prefix of the source. */
module Archives {
  import opened Base
  import opened Positions
  import opened Store
  import opened Streams
  import opened WindowSpec
  import opened Chain
  import opened Pipeline
  import opened Canonical
  import opened Backfill
  import opened Session
  import opened Slices
  import opened Source
  import opened Subscribe
  import opened Durable

  function EmitOf(e: Keyed<Event>): Indexed {
    Emit(Positioned(FromSortKey(e.key), e.value))
  }

  function Emits(es: seq<Keyed<Event>>): seq<Indexed> {
    seq(|es|, i requires 0 <= i < |es| => EmitOf(es[i]))
  }

  lemma EmitsPush(es: seq<Keyed<Event>>, e: Keyed<Event>)
    ensures Emits(es + [e]) == Emits(es) + [EmitOf(e)]
  {
  }

  /** A live tail that announces whole positions from `from` on: the source's events in order. */
  function LiveFrom(src: seq<Keyed<Event>>, from: nat, n: nat): seq<Indexed>
    requires Count(src, from) + n <= |src|
  {
    Emits(src[Count(src, from)..Count(src, from) + n])
  }

  lemma FirstAnnounced(src: seq<Keyed<Event>>, i: nat, tipCount: nat, j: nat)
    requires Ordered(src) && i <= j <= tipCount <= |src| && j < |src|
    requires forall n | 0 <= n < j :: src[n].key < src[j].key
    ensures Announce(SeedChain(src[i..tipCount]), src[j].key, src[j].value)
         == Chain(src[i..j + 1], Some(src[j].key), Some(src[j].key))
  {
    var k := src[j].key;
    CountSplits(src, k);
    BelowSlice(src, i, tipCount, k);
    var m := Count(src, k);
    assert m <= j;
    assert m < |src| ==> src[m].key >= k;
    assert Below(src[i..tipCount], k) == src[i..j];
    assert src[i..j + 1] == src[i..j] + [Keyed(k, src[j].value)];
  }

  /** The chain after `n` live events: the source slice from `i` up to the last one announced. */
  function SliceChain(src: seq<Keyed<Event>>, i: nat, tipCount: nat, j: nat, n: nat): Chain
    requires i <= tipCount <= |src| && j + n <= |src| && (n > 0 ==> i <= j)
  {
    if n == 0 then SeedChain(src[i..tipCount])
    else Chain(src[i..j + n], Some(src[j + n - 1].key), Some(src[j].key))
  }

  lemma SliceChainStep(src: seq<Keyed<Event>>, i: nat, tipCount: nat, from: nat, n: nat)
    requires Ordered(src) && i <= Count(src, from) <= tipCount <= |src|
    requires n > 0 && Count(src, from) + n <= |src|
    ensures var j := Count(src, from); var e := src[j + n - 1];
      Announce(SliceChain(src, i, tipCount, j, n - 1), e.key, e.value) == SliceChain(src, i, tipCount, j, n)
  {
    hide Below, Count;
    var j := Count(src, from);
    if n == 1 {
      CountSplits(src, from);
      FirstAnnounced(src, i, tipCount, j);
    } else {
      var e := src[j + n - 1];
      assert src[i..j + n] == src[i..j + (n - 1)] + [Keyed(e.key, e.value)];
    }
  }

  lemma LiveFromPush(src: seq<Keyed<Event>>, from: nat, n: nat)
    requires n > 0 && Count(src, from) + n <= |src|
    ensures LiveFrom(src, from, n) == LiveFrom(src, from, n - 1) + [EmitOf(src[Count(src, from) + n - 1])]
  {
    var j := Count(src, from);
    EmitsPush(src[j..j + (n - 1)], src[j + n - 1]);
    assert src[j..j + n] == src[j..j + (n - 1)] + [src[j + n - 1]];
  }

  lemma {:induction false} ChainIsSlice(src: seq<Keyed<Event>>, i: nat, tipCount: nat, from: nat, n: nat)
    requires Ordered(src) && Count(src, from) + n <= |src|
    requires i <= tipCount <= |src| && Count(src, from) <= tipCount
    requires n > 0 ==> i <= Count(src, from)
    ensures ChainRun(SeedChain(src[i..tipCount]), LiveFrom(src, from, n))
        == SliceChain(src, i, tipCount, Count(src, from), n)
  {
    hide Below, Count, Announce;
    if n > 0 {
      var e, seeds := src[Count(src, from) + n - 1], SeedChain(src[i..tipCount]);
      ChainIsSlice(src, i, tipCount, from, n - 1);
      LiveFromPush(src, from, n);
      ChainRunPush(seeds, LiveFrom(src, from, n - 1), EmitOf(e));
      SliceChainStep(src, i, tipCount, from, n);
    }
  }

  /** A flush never moves the watermark closer than `depth` to the head. */
  lemma {:induction false} FlushLags(env: Env, w: Window, s: StoreState)
    requires w.head.Some? && w.head.value < U64_MAX
    ensures var f := FlushMatured(env, w, s).0.flushed;
      f == w.flushed || (f.Some? && f.value + env.depth <= w.head.value)
    decreases |w.pending|
  {
    var due := Matured(env.depth, w);
    if due != {} {
      var b := Least(due);
      var (core, s', ok) := Flush(env, w.core, s, GroupOf(w.pending[b]));
      if ok {
        SmallerMap(w.pending, b);
        FlushLags(env, FlushOne(w, b).(core := core), s');
      }
    }
  }

  /** The watermark stayed put, or trails key `k` by at least `depth`. */
  predicate Lags(depth: nat, before: Option<nat>, after: Option<nat>, k: nat) {
    after == before || (after.Some? && after.value + depth <= k)
  }

  lemma RecordLags(env: Env, w: Window, s: StoreState, pos: Position, ev: Event)
    requires env.policy.Halt? && pos.key < U64_MAX
    ensures Lags(env.depth, w.flushed, Record(env, w, s, pos, ev).window.flushed, pos.key)
  {
    if env.encode(ev).Some? {
      FlushLags(env, Buffer(Halt, w.(core := w.core.(captured := true)), pos, env.encode(ev).value).0, s);
    }
  }

  lemma LiveStepLags(env: Env, q: Pipe, p: Pipe, e: Keyed<Event>, k: nat)
    requires env.policy.Halt? && k <= e.key < U64_MAX
    requires Lags(env.depth, q.window.flushed, p.window.flushed, k)
    ensures Lags(env.depth, q.window.flushed, LiveStep(env, p, EmitOf(e)).window.flushed, e.key)
  {
    RecordLags(env, p.window, p.store, FromSortKey(e.key), e.value);
  }

  lemma {:induction false} LiveLags(env: Env, q: Pipe, es: seq<Keyed<Event>>)
    requires env.policy.Halt? && Ordered(es)
    requires forall e | e in es :: e.key < U64_MAX
    ensures var f := LiveRun(env, q, Emits(es)).window.flushed;
      if es == [] then f == q.window.flushed else Lags(env.depth, q.window.flushed, f, es[|es| - 1].key)
  {
    if es == [] {
      assert Emits(es) == [];
    } else {
      hide *;
      var front, e := es[..|es| - 1], es[|es| - 1];
      assert front + [e] == es && e in es;
      OrderedFront(es);
      LiveLags(env, q, front);
      LiveLagsStep(env, q, front, e);
    }
  }

  lemma OrderedFront(es: seq<Keyed<Event>>)
    requires Ordered(es) && es != []
    ensures Ordered(es[..|es| - 1]) && forall e | e in es[..|es| - 1] :: e in es && e.key <= es[|es| - 1].key
  {
  }

  lemma LiveLagsStep(env: Env, q: Pipe, front: seq<Keyed<Event>>, e: Keyed<Event>)
    requires env.policy.Halt? && e.key < U64_MAX && forall x | x in front :: x.key <= e.key
    requires var f := LiveRun(env, q, Emits(front)).window.flushed;
      if front == [] then f == q.window.flushed else Lags(env.depth, q.window.flushed, f, front[|front| - 1].key)
    ensures Lags(env.depth, q.window.flushed, LiveRun(env, q, Emits(front + [e])).window.flushed, e.key)
  {
    hide *;
    EmitsPush(front, e);
    LiveRunPush(env, q, Emits(front), EmitOf(e));
    if front == [] { LagsNot(env.depth, q.window.flushed, e.key); } else { assert front[|front| - 1] in front; }
    LiveStepLags(env, q, LiveRun(env, q, Emits(front)), e, if front == [] then e.key else front[|front| - 1].key);
    EmitIsBlock(e);
  }

  lemma EmitIsBlock(e: Keyed<Event>)
    ensures EmitOf(e) == Emit(Positioned(FromSortKey(e.key), e.value))
  {
  }

  lemma LagsNot(depth: nat, f: Option<nat>, k: nat)
    ensures Lags(depth, f, f, k)
  {
  }

  /** Where the cut falls inside the source slice `i..j`. */
  function CutIndex(src: seq<Keyed<Event>>, cut: Option<nat>, i: nat, j: nat): nat
    requires i <= j
  {
    if cut.None? then i else Clamp(Count(src, cut.value + 1), i, j)
  }

  lemma CutIndexStep(src: seq<Keyed<Event>>, cut: Option<nat>, i: nat, j: nat)
    requires Ordered(src) && i < j <= |src|
    ensures var m, m' := CutIndex(src, cut, i, j - 1), CutIndex(src, cut, i, j);
      if Settles(cut, src[j - 1].key) then m == j - 1 && m' == j else m' == m
  {
    if cut.Some? { CountSplits(src, cut.value + 1); }
  }

  lemma PartPush(cut: Option<nat>, es: seq<Keyed<Event>>, e: Keyed<Event>, settled: bool)
    ensures Part(cut, AsBlocks(es + [e]), settled)
         == if Settles(cut, e.key) == settled then Part(cut, AsBlocks(es), settled) + [e]
             else Part(cut, AsBlocks(es), settled)
  {
    var items := AsBlocks(es + [e]);
    assert items[..|items| - 1] == AsBlocks(es);
    assert Keyed(e.key, e.value) == e;
  }

  lemma SliceEnd<T>(src: seq<T>, i: nat, j: nat)
    requires i < j <= |src|
    ensures src[i..j] == src[i..j - 1] + [src[j - 1]]
  {
  }

  lemma {:induction false} PartOfSlice(src: seq<Keyed<Event>>, cut: Option<nat>, i: nat, j: nat)
    requires Ordered(src) && i <= j <= |src|
    ensures var m := CutIndex(src, cut, i, j);
      && Part(cut, AsBlocks(src[i..j]), true) == src[i..m]
      && Part(cut, AsBlocks(src[i..j]), false) == src[m..j]
    decreases j
  {
    hide *;
    if i == j {
      PartOfNothing(src, cut, i);
    } else {
      PartOfSlice(src, cut, i, j - 1);
      CutIndexBounds(src, cut, i, j - 1);
      PartOfSliceStep(src, cut, i, j, CutIndex(src, cut, i, j - 1));
      CutIndexStep(src, cut, i, j);
    }
  }

  lemma PartOfNothing(src: seq<Keyed<Event>>, cut: Option<nat>, i: nat)
    requires i <= |src|
    ensures CutIndex(src, cut, i, i) == i && src[i..i] == []
    ensures Part(cut, AsBlocks(src[i..i]), true) == [] && Part(cut, AsBlocks(src[i..i]), false) == []
  {
  }

  lemma PartOfSliceStep(src: seq<Keyed<Event>>, cut: Option<nat>, i: nat, j: nat, m: nat)
    requires i < j <= |src| && i <= m <= j - 1
    requires Part(cut, AsBlocks(src[i..j - 1]), true) == src[i..m]
    requires Part(cut, AsBlocks(src[i..j - 1]), false) == src[m..j - 1]
    ensures Settles(cut, src[j - 1].key) && m == j - 1 ==>
      Part(cut, AsBlocks(src[i..j]), true) == src[i..j] && Part(cut, AsBlocks(src[i..j]), false) == src[j..j]
    ensures !Settles(cut, src[j - 1].key) ==>
      Part(cut, AsBlocks(src[i..j]), true) == src[i..m] && Part(cut, AsBlocks(src[i..j]), false) == src[m..j]
  {
    hide *;
    SliceEnd(src, i, j);
    SliceEnd(src, m, j);
    PartPush(cut, src[i..j - 1], src[j - 1], true);
    PartPush(cut, src[i..j - 1], src[j - 1], false);
  }

  lemma CutIndexBounds(src: seq<Keyed<Event>>, cut: Option<nat>, i: nat, j: nat)
    requires i <= j
    ensures i <= CutIndex(src, cut, i, j) <= j
  {
  }

  /** The log holds the source's rows at exactly the keys `lo ..= hi`. */
  ghost predicate StoredRange(env: Env, src: seq<Keyed<Event>>, log: seq<Group>, lo: nat, hi: nat) {
    forall k: nat :: if lo <= k <= hi then HoldsAt(env, log, src, k) else LogAt(log, k) == []
  }

  lemma StoredRangeJoin(env: Env, src: seq<Keyed<Event>>, a: seq<Group>, b: seq<Group>, lo: nat, mid: nat, hi: nat)
    requires StoredRange(env, src, a, lo, mid) && StoredRange(env, src, b, Max(lo, mid + 1), hi) && mid <= hi
    ensures StoredRange(env, src, a + b, lo, hi)
  {
    forall k: nat ensures if lo <= k <= hi then HoldsAt(env, a + b, src, k) else LogAt(a + b, k) == [] {
      LogAtConcat(a, b, k);
      assert if lo <= k <= mid then HoldsAt(env, a, src, k) else LogAt(a, k) == [];
      assert if Max(lo, mid + 1) <= k <= hi then HoldsAt(env, b, src, k) else LogAt(b, k) == [];
    }
  }

  /** A writer that took in the source from `lo` on, past everything it wrote, wrote a gap-free range. */
  lemma SliceStored(env: Env, src: seq<Keyed<Event>>, log: seq<Group>, j: nat, low: Option<nat>, upTo: nat, lo: nat)
    requires Ordered(src) && Count(src, lo) <= j <= |src|
    requires StoredUpTo(env, log, src[Count(src, lo)..j], low, Some(upTo))
    requires j < |src| ==> upTo < src[j].key
    ensures StoredRange(env, src, log, lo, upTo)
  {
    hide At, LogAt, Count;
    var i := Count(src, lo);
    CountSplits(src, lo);
    forall k: nat ensures if lo <= k <= upTo then HoldsAt(env, log, src, k) else LogAt(log, k) == [] {
      assert if Above(Some(upTo), k) then LogAt(log, k) == [] else HoldsAt(env, log, src[i..j], k);
      if lo <= k <= upTo {
        AtSlice(src, i, j, k);
      } else if k < lo {
        AtAbsent(src[i..j], k);
      }
    }
  }

  /** Trimming the range to the last key actually written. */
  lemma RangeToLast(env: Env, src: seq<Keyed<Event>>, log: seq<Group>, lo: nat, hi: nat)
    requires log != [] && Increasing(log) && StoredRange(env, src, log, lo, hi)
    requires log[|log| - 1].position.key <= hi
    ensures StoredRange(env, src, log, lo, log[|log| - 1].position.key)
  {
    forall k: nat | log[|log| - 1].position.key < k ensures LogAt(log, k) == [] {
      LogAtAbsent(log, k);
    }
  }

  /** The archive: everything the source has from `start` through the last key written is
      stored, in order, each event once, and that key is the durable position. */
  ghost predicate GapFree(env: Env, src: seq<Keyed<Event>>, start: nat, s: StoreState) {
    && Synced(s) && Increasing(s.log)
    && (forall g | g in s.log :: IsBlock(g.position))
    && (s.log != [] ==> StoredRange(env, src, s.log, start, s.log[|s.log| - 1].position.key))
  }

  /** Groups a session may add: block positions in order, above `low` and up to `hi`. */
  ghost predicate Continues(more: seq<Group>, low: Option<nat>, hi: nat) {
    Increasing(more) && forall g | g in more ::
        IsBlock(g.position) && Above(low, g.position.key) && g.position.key <= hi
  }

  lemma ContinuesJoin(log: seq<Group>, more: seq<Group>, hi: nat)
    requires Increasing(log) && log != [] && more != []
    requires Continues(more, Some(log[|log| - 1].position.key), hi)
    ensures Increasing(log + more) && log[|log| - 1].position.key <= hi
  {
    assert more[0] in more;
    IncreasingConcat(log, more);
  }

  function ResumeAfter(last: Option<Position>, start: nat): nat {
    Max(if last.None? then 0 else last.value.key + 1, start)
  }

  /** A session's new groups continue the archive without a gap. */
  lemma ExtendArchive(env: Env, src: seq<Keyed<Event>>, start: nat, s: StoreState, s': StoreState, more: seq<Group>,
                      hi: nat)
    requires GapFree(env, src, start, s) && Synced(s') && s'.log == s.log + more
    requires Continues(more, KeyOf(s.position), hi)
    requires more != [] ==> StoredRange(env, src, more, ResumeAfter(s.position, start), hi)
    ensures GapFree(env, src, start, s')
  {
    hide At, LogAt, Rows, HoldsAt, FoldPositions;
    FoldIsLast(s.log);
    if more == [] {
      assert s'.log == s.log;
    } else {
      if s.log == [] {
        assert s'.log == more;
      } else {
        var p := s.log[|s.log| - 1].position.key;
        ContinuesJoin(s.log, more, hi);
        StoredRangeJoin(env, src, s.log, more, start, p, hi);
      }
      RangeToLast(env, src, s'.log, start, hi);
    }
  }

  /** A writer that was cut short has written only complete positions: it holds a later event. */
  lemma CutShortRange(env: Env, src: seq<Keyed<Event>>, log: seq<Group>, n: nat, low: Option<nat>, upTo: Option<nat>,
                      lo: nat)
    requires Ordered(src) && Count(src, lo) + n <= |src|
    requires StoredUpTo(env, log, src[Count(src, lo)..Count(src, lo) + n], low, upTo)
    requires upTo != low ==> n > 0 && Above(upTo, src[Count(src, lo) + n - 1].key)
    ensures log != [] ==> upTo.Some? && Continues(log, low, upTo.value) && StoredRange(env, src, log, lo, upTo.value)
  {
    hide At, LogAt, Rows, HoldsAt, Count;
    if log != [] {
      var j := Count(src, lo) + n;
      assert log[0] in log && Above(low, log[0].position.key) && !Above(upTo, log[0].position.key);
      assert upTo.Some? && upTo != low && upTo.value < src[j - 1].key;
      assert j < |src| ==> src[j - 1].key <= src[j].key;
      SliceStored(env, src, log, j, low, upTo.value, lo);
    }
  }

  lemma CountMonotone(src: seq<Keyed<Event>>, a: nat, b: nat)
    requires Ordered(src) && a <= b
    ensures Count(src, a) <= Count(src, b)
  {
    CountSplits(src, a);
    CountSplits(src, b);
    var n := Count(src, b);
    assert n < |src| ==> src[n].key >= b;
  }

  /** The slice boundaries of a session whose backfill covers `lo ..= eff`. */
  lemma CutIndexIsCount(src: seq<Keyed<Event>>, cut: Option<nat>, lo: nat, eff: nat)
    requires Ordered(src) && (cut.Some? ==> cut.value <= eff)
    ensures Count(src, lo) <= Count(src, Max(lo, eff + 1))
    ensures CutIndex(src, cut, Count(src, lo), Count(src, Max(lo, eff + 1)))
         == Count(src, if cut.None? then lo else Max(lo, cut.value + 1))
  {
    CountMonotone(src, lo, Max(lo, eff + 1));
    if cut.Some? {
      CountMonotone(src, cut.value + 1, Max(lo, eff + 1));
      if lo <= cut.value + 1 { CountMonotone(src, lo, cut.value + 1); } else { CountMonotone(src, cut.value + 1, lo); }
    }
  }

  /** The first key the window is responsible for, in a session that resumes at `lo`. */
  function TailFrom(g: Gap, lo: nat): nat {
    if g.cut.None? then lo else Max(lo, g.cut.value + 1)
  }

  /** A finished, healthy settled part holds every position up to the window's floor. */
  lemma FinishedRange(env: Env, src: seq<Keyed<Event>>, g: Gap, b: Settled, log: seq<Group>, lo: nat)
    requires Ordered(src) && b.core.healthy && (g.seed.Some? ==> g.seed.value.key < lo)
    requires var m := Count(src, TailFrom(g, lo));
      Count(src, lo) <= m && Finished(env, g, b, log, src[Count(src, lo)..m])
    ensures match Floor(g)
      case None => log == []
      case Some(f) => StoredRange(env, src, log, lo, f) && Continues(log, KeyOf(g.seed), f)
  {
    var hi := TailFrom(g, lo);
    var i, m, wm := Count(src, lo), Count(src, hi), KeyOf(b.watermark);
    CountSplits(src, lo);
    CountSplits(src, hi);
    var es := src[i..m];
    if log != [] { assert log[0] in log; }
    if Floor(g).Some? {
      var f := Floor(g).value;
      forall k: nat ensures if lo <= k <= f then HoldsAt(env, log, src, k) else LogAt(log, k) == [] {
        assert if Above(wm, k) then LogAt(log, k) == [] else HoldsAt(env, log, es, k);
        if lo <= k <= f {
          forall n | 0 <= n < |src| && !(i <= n < m) ensures src[n].key != k {}
          AtSlice(src, i, m, k);
          if Above(wm, k) { AtAbsent(es, k); }
        } else if k < lo {
          AtAbsent(es, k);
        }
      }
    }
  }

  /** A live tail that starts at or below the watermark halts at once and writes nothing. */
  lemma {:induction false} FirstHalts(env: Env, q: Pipe, items: seq<Indexed>)
    requires env.policy.Halt? && items != [] && !Above(q.window.flushed, PositionOf(items[0]).key)
    ensures LiveRun(env, q, items).store == q.store && !LiveRun(env, q, items).window.core.healthy
  {
    var front := items[..|items| - 1];
    if front != [] {
      FirstHalts(env, q, front);
    }
  }

  /** The cut never splits a position. */
  lemma CutBoundary(src: seq<Keyed<Event>>, cut: Option<nat>, lo: nat, y: nat)
    requires Ordered(src) && Count(src, lo) <= Count(src, y)
    ensures var m := CutIndex(src, cut, Count(src, lo), Count(src, y));
      Count(src, lo) < m < |src| ==> src[m - 1].key < src[m].key
  {
    CountSplits(src, y);
    if cut.Some? { CountSplits(src, cut.value + 1); }
  }

  lemma SettledWhole(env: Env, src: seq<Keyed<Event>>, g: Gap, b: Settled, log: seq<Group>, lo: nat, m: nat)
    requires Ordered(src) && Count(src, lo) <= m <= |src| && b.core.healthy && log != []
    requires Finished(env, g, b, log, src[Count(src, lo)..m])
    requires Count(src, lo) < m < |src| ==> src[m - 1].key < src[m].key
    ensures var wm := KeyOf(b.watermark);
      wm.Some? && Continues(log, KeyOf(g.seed), wm.value) && StoredRange(env, src, log, lo, wm.value)
  {
    hide At, LogAt, Rows, Count, Range;
    var es, wm := src[Count(src, lo)..m], KeyOf(b.watermark);
    assert log[0] in log && Above(KeyOf(g.seed), log[0].position.key) && !Above(wm, log[0].position.key);
    assert es != [] && es[|es| - 1] == src[m - 1];
    SliceStored(env, src, log, m, KeyOf(g.seed), wm.value, lo);
  }

  lemma SettledHalted(env: Env, src: seq<Keyed<Event>>, g: Gap, b: Settled, log: seq<Group>, lo: nat, n: nat)
    requires Ordered(src) && Count(src, lo) + n <= |src| && !b.core.healthy
    requires Finished(env, g, b, log, src[Count(src, lo)..Count(src, lo) + n])
    ensures var wm := KeyOf(b.watermark);
      log != [] ==> wm.Some? && Continues(log, KeyOf(g.seed), wm.value) && StoredRange(env, src, log, lo, wm.value)
  {
    hide At, LogAt, Rows, StoredUpTo, StoredRange, Continues, Count, Ordered;
    var i := Count(src, lo);
    var es := src[i..i + n];
    assert es != [] ==> es[|es| - 1] == src[i + n - 1];
    CutShortRange(env, src, log, n, KeyOf(g.seed), KeyOf(b.watermark), lo);
  }

  /** The stored part of a session that wrote nothing through the window. */
  lemma SettledOnly(env: Env, src: seq<Keyed<Event>>, g: Gap, b: Settled, log: seq<Group>, es: seq<Keyed<Event>>,
                    lo: nat, y: nat)
    requires Ordered(src) && Count(src, lo) <= Count(src, y)
    requires var m := CutIndex(src, g.cut, Count(src, lo), Count(src, y));
      Finished(env, g, b, log, es) && Taken(b.core.healthy, es, src[Count(src, lo)..m])
    ensures var wm := KeyOf(b.watermark);
      log != [] ==> wm.Some? && Continues(log, KeyOf(g.seed), wm.value) && StoredRange(env, src, log, lo, wm.value)
  {
    hide Finished, StoredRange, Continues, Count, Ordered;
    var i := Count(src, lo);
    var m := CutIndex(src, g.cut, i, Count(src, y));
    CutBoundary(src, g.cut, lo, y);
    if b.core.healthy && log != [] {
      SettledWhole(env, src, g, b, log, lo, m);
    } else if !b.core.healthy {
      assert es == src[i..i + |es|];
      SettledHalted(env, src, g, b, log, lo, |es|);
    }
  }

  /** Everything the window wrote continues, without a gap, what the settled writer wrote. */
  lemma TailedRange(env: Env, src: seq<Keyed<Event>>, g: Gap, settled: seq<Group>, tailed: seq<Group>, lo: nat, n: nat,
                    upTo: Option<nat>)
    requires var lo2 := TailFrom(g, lo);
      && Count(src, lo2) + n <= |src|
      && StoredUpTo(env, tailed, src[Count(src, lo2)..Count(src, lo2) + n], Floor(g), upTo)
      && (upTo != Floor(g) ==> n > 0 && Above(upTo, src[Count(src, lo2) + n - 1].key))
    requires Ordered(src) && tailed != [] && (g.seed.Some? ==> g.seed.value.key < lo)
    requires match Floor(g) case None => settled == []
             case Some(f) => StoredRange(env, src, settled, lo, f) && Continues(settled, KeyOf(g.seed), f)
    ensures upTo.Some? && StoredRange(env, src, settled + tailed, lo, upTo.value)
        && Continues(settled + tailed, KeyOf(g.seed), upTo.value)
  {
    hide At, LogAt, Rows, HoldsAt, StoredRange, StoredUpTo, Count;
    var lo2 := TailFrom(g, lo);
    CutShortRange(env, src, tailed, n, Floor(g), upTo, lo2);
    if Floor(g).None? {
      assert settled + tailed == tailed;
    } else {
      var f := Floor(g).value;
      assert lo2 == Max(lo, f + 1);
      assert tailed[0] in tailed;
      StoredRangeJoin(env, src, settled, tailed, lo, f, upTo.value);
      IncreasingConcat(settled, tailed);
    }
  }

  /** The backfill of a session is the source slice with keys in `lo .. y`. */
  function Slice(src: seq<Keyed<Event>>, lo: nat, y: nat): seq<Keyed<Event>>
    requires Count(src, lo) <= Count(src, y)
  {
    src[Count(src, lo)..Count(src, y)]
  }

  lemma SliceInGap(src: seq<Keyed<Event>>, seed: Option<Position>, start: nat, tip: nat, y: nat)
    requires Ordered(src) && ResumeAfter(seed, start) <= y <= Max(ResumeAfter(seed, start), tip + 1)
    ensures Count(src, ResumeAfter(seed, start)) <= Count(src, y)
    ensures InGap(AsBlocks(Slice(src, ResumeAfter(seed, start), y)), KeyOf(seed), tip)
  {
    var lo := ResumeAfter(seed, start);
    CountMonotone(src, lo, y);
    CountSplits(src, lo);
    CountSplits(src, y);
    var es := Slice(src, lo, y);
    forall i | i in AsBlocks(es) ensures IsBlock(i.position) && Above(KeyOf(seed), i.position.key)
        && i.position.key <= tip {
      var n :| 0 <= n < |es| && AsBlocks(es)[n] == i;
      assert es[n] == src[Count(src, lo) + n];
    }
  }

  lemma RunSynced(env: Env, g: Gap, s: StoreState, items: seq<Positioned>, live: seq<Indexed>)
    requires Synced(s)
    ensures Synced(Run(env, g, s, items, live).store)
  {
    hide Synced, BackfillRun, LiveRun, Boundary;
    BackfillSynced(env, g.cut, Open(g.cut, g.seed, s), items);
    BoundarySynced(env, BackfillRun(env, g.cut, Open(g.cut, g.seed, s), items));
    LiveSynced(env, Boundary(env, BackfillRun(env, g.cut, Open(g.cut, g.seed, s), items)), live);
  }

  /** A session whose window wrote nothing: crash, failed chunk, bounded run, or an early halt. */
  lemma QuietGapFree(env: Env, src: seq<Keyed<Event>>, start: nat, g: Gap, s: StoreState, y: nat,
                     q: Pipe, settled: seq<Group>, es: seq<Keyed<Event>>)
    requires Ordered(src) && GapFree(env, src, start, s) && g.seed == s.position && Synced(q.store)
    requires Count(src, ResumeAfter(g.seed, start)) <= Count(src, y)
    requires q.store.log == s.log + settled && Finished(env, g, q.settled, settled, es)
    requires Taken(q.settled.core.healthy, es, Part(g.cut, AsBlocks(Slice(src, ResumeAfter(g.seed, start), y)), true))
    ensures GapFree(env, src, start, q.store)
  {
    hide GapFree, Finished, StoredUpTo, Part, AsBlocks, Count, Continues, StoredRange;
    var lo := ResumeAfter(g.seed, start);
    PartOfSlice(src, g.cut, Count(src, lo), Count(src, y));
    SettledOnly(env, src, g, q.settled, settled, es, lo, y);
    if settled == [] {
      NothingAdded(env, src, start, s, q.store);
    } else {
      ExtendArchive(env, src, start, s, q.store, settled, KeyOf(q.settled.watermark).value);
    }
  }

  lemma NothingAdded(env: Env, src: seq<Keyed<Event>>, start: nat, s: StoreState, s': StoreState)
    requires GapFree(env, src, start, s) && Synced(s') && s'.log == s.log + []
    ensures GapFree(env, src, start, s')
  {
    assert s'.log == s.log;
  }

  /** Once the window writes, the live tail has started above everything it may not rewrite. */
  lemma LiveStartsAboveFloor(env: Env, src: seq<Keyed<Event>>, start: nat, g: Gap, p: Pipe, lo2: nat, from: nat, n: nat)
    requires env.policy.Halt? && Ordered(src) && n > 0 && Count(src, from) + n <= |src|
    requires p.window.flushed == Floor(g) && start <= from
    requires lo2 == TailFrom(g, ResumeAfter(g.seed, start))
    requires LiveRun(env, p, LiveFrom(src, from, n)).store.log != p.store.log
    ensures Count(src, lo2) <= Count(src, from)
  {
    var j, live := Count(src, from), LiveFrom(src, from, n);
    CountSplits(src, from);
    CountSplits(src, lo2);
    if !Above(Floor(g), src[j].key) {
      FirstHalts(env, p, live);
    }
    assert src[j].key >= lo2;
  }

  lemma TakenPrefix(src: seq<Keyed<Event>>, from: nat, n: nat, k: nat)
    requires Count(src, from) + n <= |src| && k <= n
    ensures LiveFrom(src, from, n)[..k] == LiveFrom(src, from, k)
  {
  }

  lemma LiveFromBlocks(src: seq<Keyed<Event>>, from: nat, n: nat)
    requires Count(src, from) + n <= |src|
    ensures LiveBlocks(LiveFrom(src, from, n))
  {
  }

  lemma SliceLags(env: Env, p: Pipe, src: seq<Keyed<Event>>, from: nat, k: nat)
    requires env.policy.Halt? && env.depth >= 1 && Ordered(src) && Count(src, from) + k <= |src|
    requires forall e | e in src :: e.key < U64_MAX
    ensures var f := LiveRun(env, p, LiveFrom(src, from, k)).window.flushed;
      f != p.window.flushed ==> k > 0 && Above(f, src[Count(src, from) + k - 1].key)
  {
    hide LiveRun, Count;
    var es := src[Count(src, from)..Count(src, from) + k];
    LiveLags(env, p, es);
  }

  /** The two parts of a complete backfill, as slices. */
  lemma CompleteParts(src: seq<Keyed<Event>>, g: Gap, lo: nat)
    requires Ordered(src) && (g.cut.Some? ==> g.cut.value <= g.tip)
    ensures var y := Max(lo, g.tip + 1); var m := Count(src, TailFrom(g, lo));
      && Count(src, lo) <= m <= Count(src, y)
      && Part(g.cut, AsBlocks(Slice(src, lo, y)), true) == src[Count(src, lo)..m]
      && Part(g.cut, AsBlocks(Slice(src, lo, y)), false) == src[m..Count(src, y)]
  {
    hide Part, AsBlocks, Count;
    var y := Max(lo, g.tip + 1);
    CutIndexIsCount(src, g.cut, lo, g.tip);
    CutIndexBounds(src, g.cut, Count(src, lo), Count(src, y));
    PartOfSlice(src, g.cut, Count(src, lo), Count(src, y));
  }

  /** What the window stored, in terms of the source. */
  lemma TailedStored(env: Env, src: seq<Keyed<Event>>, g: Gap, p: Pipe, log: seq<Group>, m: nat, tipCount: nat,
                     from: nat, k: nat, upTo: Option<nat>)
    requires Ordered(src) && (forall e | e in src :: e.key < U64_MAX) && env.depth >= 1 && env.policy.Halt?
    requires Count(src, from) + k <= |src| && m <= Count(src, from) <= tipCount <= |src|
    requires p.window.flushed == Floor(g) && upTo == LiveRun(env, p, LiveFrom(src, from, k)).window.flushed
    requires StoredUpTo(env, log, ChainRun(SeedChain(src[m..tipCount]), LiveFrom(src, from, k)).events, Floor(g), upTo)
    requires log != []
    ensures k > 0 && Above(upTo, src[Count(src, from) + k - 1].key) && upTo != Floor(g)
    ensures StoredUpTo(env, log, src[m..m + (Count(src, from) + k - m)], Floor(g), upTo)
  {
    hide StoredUpTo, Count, LiveRun, ChainRun, LiveFrom, SliceChain;
    SliceLags(env, p, src, from, k);
    if upTo == Floor(g) {
      NothingStored(env, log, ChainRun(SeedChain(src[m..tipCount]), LiveFrom(src, from, k)).events, upTo);
    }
    ChainIsSlice(src, m, tipCount, from, k);
    TailedEvents(src, m, tipCount, Count(src, from), k);
  }

  lemma BusyStart(env: Env, src: seq<Keyed<Event>>, start: nat, g: Gap, p: Pipe, q: Pipe, lo2: nat, from: nat, n: nat)
    requires env.policy.Halt? && Ordered(src) && Count(src, from) + n <= |src|
    requires p.window.flushed == Floor(g) && start <= from && lo2 == TailFrom(g, ResumeAfter(g.seed, start))
    requires q == LiveRun(env, p, LiveFrom(src, from, n)) && |q.store.log| > |p.store.log|
    ensures Count(src, lo2) <= Count(src, from)
  {
    hide Count, LiveRun, LiveFrom, Floor, TailFrom;
    if n == 0 { LiveRunNone(env, p, src, from); }
    LiveStartsAboveFloor(env, src, start, g, p, lo2, from, n);
  }

  /** Settled and window writes of one session, joined. */
  lemma BusyRange(env: Env, src: seq<Keyed<Event>>, g: Gap, b: Settled, settled: seq<Group>, tailed: seq<Group>,
                  lo: nat, n: nat, upTo: Option<nat>)
    requires Ordered(src) && b.core.healthy && tailed != [] && (g.seed.Some? ==> g.seed.value.key < lo)
    requires var m := Count(src, TailFrom(g, lo));
      && Count(src, lo) <= m && m + n <= |src|
      && Finished(env, g, b, settled, src[Count(src, lo)..m])
      && StoredUpTo(env, tailed, src[m..m + n], Floor(g), upTo)
      && n > 0 && Above(upTo, src[m + n - 1].key)
    ensures upTo.Some? && StoredRange(env, src, settled + tailed, lo, upTo.value)
        && Continues(settled + tailed, KeyOf(g.seed), upTo.value)
  {
    hide Finished, StoredUpTo, Count, Continues, StoredRange, TailFrom, Floor;
    FinishedRange(env, src, g, b, settled, lo);
    TailedRange(env, src, g, settled, tailed, lo, n, upTo);
  }

  /** The session's window writes: the chain it stored is the source slice above the floor. */
  lemma BusyGapFree(env: Env, src: seq<Keyed<Event>>, start: nat, g: Gap, s: StoreState, p: Pipe, q: Pipe,
                    settled: seq<Group>, tailed: seq<Group>, lo: nat, tipCount: nat, from: nat, n: nat, k: nat)
    requires Ordered(src) && (forall e | e in src :: e.key < U64_MAX) && env.depth >= 1 && env.policy.Halt?
    requires GapFree(env, src, start, s) && g.seed == s.position && Synced(q.store) && lo == ResumeAfter(g.seed, start)
    requires start <= from && Count(src, from) + n <= |src| && k <= n
    requires q == LiveRun(env, p, LiveFrom(src, from, n)) && p.store.log == s.log + settled
        && p.window.flushed == Floor(g)
    requires q.window.flushed == LiveRun(env, p, LiveFrom(src, from, k)).window.flushed
    requires q.store.log == s.log + settled + tailed && tailed != [] && q.settled.core.healthy
    requires Count(src, lo) <= Count(src, TailFrom(g, lo)) <= tipCount <= |src| && Count(src, from) <= tipCount
    requires Finished(env, g, q.settled, settled, src[Count(src, lo)..Count(src, TailFrom(g, lo))])
    requires StoredUpTo(env, tailed, ChainRun(SeedChain(src[Count(src, TailFrom(g, lo))..tipCount]),
        LiveFrom(src, from, k)).events, Floor(g), q.window.flushed)
    ensures GapFree(env, src, start, q.store)
  {
    hide GapFree, Finished, StoredUpTo, Count, Continues, StoredRange, LiveRun, ChainRun, LiveFrom, TailFrom, Floor,
        Synced, Ordered;
    var lo2, j := TailFrom(g, lo), Count(src, from);
    assert |q.store.log| > |p.store.log|;
    BusyStart(env, src, start, g, p, q, lo2, from, n);
    TailedStored(env, src, g, p, tailed, Count(src, lo2), tipCount, from, k, q.window.flushed);
    BusyRange(env, src, g, q.settled, settled, tailed, lo, j + k - Count(src, lo2), q.window.flushed);
    assert s.log + settled + tailed == s.log + (settled + tailed);
    ExtendArchive(env, src, start, s, q.store, settled + tailed, q.window.flushed.value);
  }

  lemma TailedEvents(src: seq<Keyed<Event>>, m: nat, tipCount: nat, j: nat, k: nat)
    requires m <= tipCount <= |src| && j + k <= |src| && k > 0 && m <= j
    ensures SliceChain(src, m, tipCount, j, k).events == src[m..m + (j + k - m)]
  {
  }

  lemma LiveRunNone(env: Env, p: Pipe, src: seq<Keyed<Event>>, from: nat)
    requires Count(src, from) <= |src|
    ensures LiveRun(env, p, LiveFrom(src, from, 0)) == p
  {
  }

  lemma NothingStored(env: Env, log: seq<Group>, es: seq<Keyed<Event>>, low: Option<nat>)
    requires StoredUpTo(env, log, es, low, low)
    ensures log == []
  {
    NonEmptyHas(log);
    assert forall g | g in log :: Above(low, g.position.key) && !Above(low, g.position.key);
  }

  lemma NonEmptyHas<T>(xs: seq<T>)
    ensures xs != [] ==> exists x :: x in xs
  {
    assert xs != [] ==> xs[0] in xs;
  }

  /** A subscription that gets as far as its live tail keeps the archive gap-free. */
  lemma LiveSessionGapFree(env: Env, src: seq<Keyed<Event>>, start: nat, g: Gap, s: StoreState, y: nat, from: nat,
                           n: nat)
    requires Ordered(src) && (forall e | e in src :: e.key < U64_MAX) && env.depth >= 1
    requires Sound(env, g) && (g.cut.Some? ==> g.cut.value <= g.tip)
    requires GapFree(env, src, start, s) && g.seed == s.position
    requires var lo := ResumeAfter(g.seed, start);
      && lo <= y <= Max(lo, g.tip + 1) && Count(src, lo) <= Count(src, y)
      && (n > 0 ==> y == Max(lo, g.tip + 1))
    requires Count(src, from) + n <= |src| && (n > 0 ==> start <= from <= y)
    ensures GapFree(env, src, start, Run(env, g, s, AsBlocks(Slice(src, ResumeAfter(g.seed, start), y)),
        LiveFrom(src, from, n)).store)
  {
    hide Increasing, StoredRange, Finished, StoredUpTo, Part, AsBlocks, Count, LiveRun, ChainRun, LiveFrom, Joined,
        Unripe, Slice, Buffers, FoldPositions;
    var lo := ResumeAfter(g.seed, start);
    var items, live := AsBlocks(Slice(src, lo, y)), LiveFrom(src, from, n);
    SliceInGap(src, g.seed, start, g.tip, y);
    LiveFromBlocks(src, from, n);
    var settled, tailed, es, tail, k := SessionKeepsChain(env, g, s, items, live);
    var q := Run(env, g, s, items, live);
    RunSynced(env, g, s, items, live);
    if tailed == [] {
      assert s.log + settled + tailed == s.log + settled;
      QuietGapFree(env, src, start, g, s, y, q, settled, es);
    } else {
      LiveFromLength(src, from, n);
      assert n > 0;
      TakenPrefix(src, from, n, k);
      CompleteParts(src, g, lo);
      CountMonotone(src, from, y);
      BusyGapFree(env, src, start, g, s, Joined(env, g, s, items), q, settled, tailed, lo, Count(src, y), from, n, k);
    }
  }

  lemma LiveFromLength(src: seq<Keyed<Event>>, from: nat, n: nat)
    requires Count(src, from) + n <= |src|
    ensures |LiveFrom(src, from, n)| == n
  {
  }

  lemma AsBlocksPrefix(src: seq<Keyed<Event>>, i: nat, j: nat, n: nat)
    requires i <= j <= |src| && n <= j - i
    ensures AsBlocks(src[i..j])[..n] == AsBlocks(src[i..i + n])
  {
  }

  lemma InGapPrefix(items: seq<Positioned>, n: nat, seed: Option<nat>, tip: nat)
    requires InGap(items, seed, tip) && n <= |items|
    ensures InGap(items[..n], seed, tip)
  {
  }

  /** A crash anywhere in the backfill keeps the archive gap-free. */
  lemma CrashGapFree(env: Env, src: seq<Keyed<Event>>, start: nat, g: Gap, s: StoreState, y: nat, n: nat)
    requires Ordered(src) && Sound(env, g) && GapFree(env, src, start, s) && g.seed == s.position
    requires var lo := ResumeAfter(g.seed, start);
      lo <= y <= Max(lo, g.tip + 1) && Count(src, lo) <= Count(src, y) && n <= Count(src, y) - Count(src, lo)
    ensures GapFree(env, src, start,
      BackfillRun(env, g.cut, Open(g.cut, g.seed, s), AsBlocks(Slice(src, ResumeAfter(g.seed, start), y))[..n]).store)
  {
    hide Increasing, StoredRange, StoredUpTo, Part, AsBlocks, Count, BackfillRun, Unripe, TailTracks, OpenGroup,
        FoldPositions, Continues;
    var lo, i := ResumeAfter(g.seed, start), Count(src, ResumeAfter(g.seed, start));
    var items := AsBlocks(Slice(src, lo, y));
    AsBlocksPrefix(src, i, Count(src, y), n);
    AsBlocksLength(Slice(src, lo, y));
    SliceInGap(src, g.seed, start, g.tip, y);
    InGapPrefix(items, n, KeyOf(g.seed), g.tip);
    var mine, es, tail := BackfillKeepsChain(env, g, s, items[..n]);
    var p := BackfillRun(env, g.cut, Open(g.cut, g.seed, s), items[..n]);
    PartOfSlice(src, g.cut, i, i + n);
    CutIndexBounds(src, g.cut, i, i + n);
    assert es == src[i..i + |es|];
    CutShortRange(env, src, mine, |es|, KeyOf(g.seed), KeyOf(p.settled.watermark), lo);
    BackfillSynced(env, g.cut, Open(g.cut, g.seed, s), items[..n]);
    if mine == [] {
      NothingAdded(env, src, start, s, p.store);
    } else {
      ExtendArchive(env, src, start, s, p.store, mine, KeyOf(p.settled.watermark).value);
    }
  }

  lemma AsBlocksLength(es: seq<Keyed<Event>>)
    ensures |AsBlocks(es)| == |es|
  {
  }

  /** A live tail without events below the start block may be taken to begin at the start block. */
  lemma FromStartOn(src: seq<Keyed<Event>>, start: nat, from: nat)
    requires Ordered(src) && Count(src, from) < |src| && start <= src[Count(src, from)].key
    ensures Count(src, Max(start, from)) == Count(src, from)
  {
    CountSplits(src, from);
    CountSplits(src, Max(start, from));
    var j := Count(src, Max(start, from));
    assert j < |src| ==> src[j].key >= Max(start, from);
  }

  /** A subscription against a source that does not reorg: the live tail, when reached, re-announces
      whole positions, from no later than the tip, and no event of it lies below the start block. */
  ghost predicate Peaceful(src: seq<Keyed<Event>>, start: nat, v: Visit) {
    && v.cfg.chunk >= 1 && v.tip < U64_MAX && v.cfg.startBlock == start
    && (v.stop.InLive? ==> exists from: nat, n: nat ::
          Count(src, from) + n <= |src| && from <= v.tip + 1 && v.stop.live == LiveFrom(src, from, n)
          && (n > 0 ==> start <= src[Count(src, from)].key))
  }

  /** Where a visit's backfill ends: just above the last position it covers. */
  function CoveredTo(env: Env, src: seq<Keyed<Event>>, v: Visit, last: Option<Position>): nat
    requires v.cfg.chunk >= 1 && v.tip < U64_MAX
  {
    var lo, eff := ResumeAfter(last, v.cfg.startBlock), EffectiveTip(v.cfg, v.tip);
    var b := Backfilled(env, src, v, last);
    if lo > eff then lo else if b.failed.Some? then b.failed.value else eff + 1
  }

  lemma BackfilledIsSlice(env: Env, src: seq<Keyed<Event>>, v: Visit, last: Option<Position>)
    requires Ordered(src) && v.cfg.chunk >= 1 && v.tip < U64_MAX && env.policy.Halt?
    ensures var lo, y := ResumeAfter(last, v.cfg.startBlock), CoveredTo(env, src, v, last);
      && lo <= y <= Max(lo, EffectiveTip(v.cfg, v.tip) + 1) && Count(src, lo) <= Count(src, y)
      && Backfilled(env, src, v, last).items == Slice(src, lo, y)
      && (Backfilled(env, src, v, last).failed.None? ==> y == Max(lo, EffectiveTip(v.cfg, v.tip) + 1))
  {
    hide Range, Count, Chunks, Tiles;
    var lo, eff := ResumeAfter(last, v.cfg.startBlock), EffectiveTip(v.cfg, v.tip);
    var b := Backfilled(env, src, v, last);
    if lo <= eff {
      ChunksAreQuery(src, v.answer, 0, lo, eff, v.cfg.chunk);
      if b.failed.None? {
        RangeIsSlice(src, lo, eff);
      } else if b.failed.value > lo {
        RangeIsSlice(src, lo, b.failed.value - 1);
      }
    }
  }

  /** One subscription, however it ends, keeps the archive gap-free. */
  lemma VisitGapFree(env: Env, src: seq<Keyed<Event>>, start: nat, v: Visit, s: StoreState)
    requires env.policy.Halt? && env.depth >= 1 && Ordered(src) && (forall e | e in src :: e.key < U64_MAX)
    requires Peaceful(src, start, v) && GapFree(env, src, start, s)
    ensures GapFree(env, src, start, After(env, src, v, s))
  {
    hide Increasing, StoredRange, AsBlocks, Count, LiveRun, LiveFrom, BackfillRun, Joined, Unripe, Slice,
        FoldPositions, Backfilled, Run, Ordered;
    var lo, y := ResumeAfter(s.position, start), CoveredTo(env, src, v, s.position);
    var g, b := GapOf(env, v.cfg, v.tip, s.position), Backfilled(env, src, v, s.position);
    BackfilledIsSlice(env, src, v, s.position);
    CutIsUnripe(env, v.cfg, v.tip);
    PositionIsBlock(env, src, start, s);
    AsBlocksLength(b.items);
    match v.stop
    case InBackfill(n) =>
      SliceLength(src, lo, y);
      CrashGapFree(env, src, start, g, s, y, Min(n, |b.items|));
    case InLive(live) =>
      var from: nat, n: nat :| Count(src, from) + n <= |src| && from <= v.tip + 1 && live == LiveFrom(src, from, n)
        && (n > 0 ==> start <= src[Count(src, from)].key);
      if b.failed.Some? || v.cfg.toBlock.Some? {
        NoLive(src, start);
        LiveSessionGapFree(env, src, start, g, s, y, start, 0);
      } else {
        if n > 0 { FromStartOn(src, start, from); } else { NoLive(src, from); NoLive(src, start); }
        SameLive(src, from, if n > 0 then Max(start, from) else start, n);
        LiveSessionGapFree(env, src, start, g, s, y, if n > 0 then Max(start, from) else start, n);
      }
  }

  lemma SameLive(src: seq<Keyed<Event>>, a: nat, b: nat, n: nat)
    requires Count(src, a) + n <= |src| && (n > 0 ==> Count(src, a) == Count(src, b))
    ensures Count(src, b) + n <= |src| && LiveFrom(src, a, n) == LiveFrom(src, b, n)
  {
  }

  lemma PositionIsBlock(env: Env, src: seq<Keyed<Event>>, start: nat, s: StoreState)
    requires GapFree(env, src, start, s)
    ensures s.position.Some? ==> IsBlock(s.position.value)
  {
    FoldIsLast(s.log);
  }

  lemma NoLive(src: seq<Keyed<Event>>, from: nat)
    ensures Count(src, from) <= |src| && LiveFrom(src, from, 0) == []
  {
  }

  lemma SliceLength(src: seq<Keyed<Event>>, lo: nat, y: nat)
    requires Count(src, lo) <= Count(src, y)
    ensures |Slice(src, lo, y)| == Count(src, y) - Count(src, lo)
  {
  }

  /** The store after a whole history of subscriptions. */
  function Archive(env: Env, src: seq<Keyed<Event>>, visits: seq<Visit>, s: StoreState): StoreState
    requires forall i | 0 <= i < |visits| :: visits[i].cfg.chunk >= 1 && visits[i].tip < U64_MAX
  {
    if visits == [] then s
    else After(env, src, visits[|visits| - 1], Archive(env, src, visits[..|visits| - 1], s))
  }

  /** Main theorem: through any history of subscriptions, crashes, failed writes and failed chunks,
      the archive stays a gap-free prefix. */
  lemma {:induction false} ArchiveGapFree(env: Env, src: seq<Keyed<Event>>, start: nat, visits: seq<Visit>)
    requires env.policy.Halt? && env.depth >= 1 && Ordered(src) && (forall e | e in src :: e.key < U64_MAX)
    requires forall i | 0 <= i < |visits| ::
        visits[i].cfg.chunk >= 1 && visits[i].tip < U64_MAX && Peaceful(src, start, visits[i])
    ensures GapFree(env, src, start, Archive(env, src, visits, StoreState([], None, 0)))
  {
    if visits != [] {
      ArchiveGapFree(env, src, start, visits[..|visits| - 1]);
      VisitGapFree(env, src, start, visits[|visits| - 1],
          Archive(env, src, visits[..|visits| - 1], StoreState([], None, 0)));
    }
  }

  /** Read off as a sequence: the stored rows are the images of the source events from `start`
      through the stored position, in source order, none missing, none twice. */
  lemma GapFreeIsExact(env: Env, src: seq<Keyed<Event>>, start: nat, s: StoreState)
    requires Ordered(src) && GapFree(env, src, start, s)
    ensures match s.position
      case None => s.log == []
      case Some(p) =>
        && Flat(s.log) == Encoded(env, Range(src, start, p.key))
        && forall e | e in Range(src, start, p.key) :: env.encode(e.value).Some?
  {
    FoldIsLast(s.log);
    if s.position.Some? {
      var p := s.position.value.key;
      RangeOrdered(src, start, p);
      forall k: nat ensures LogAt(s.log, k) == Rows(env, At(Range(src, start, p), k)) {
        AtRange(src, start, p, k);
        assert if start <= k <= p then HoldsAt(env, s.log, src, k) else LogAt(s.log, k) == [];
      }
      LogIsStream(env, s.log, Range(src, start, p));
      forall e | e in Range(src, start, p) ensures env.encode(e.value).Some? {
        InRange(src, start, p, e);
        AtHas(src, e);
        assert HoldsAt(env, s.log, src, e.key);
      }
    }
  }

  lemma {:induction false} AtRange<T>(es: seq<Keyed<T>>, lo: nat, hi: nat, k: nat)
    ensures At(Range(es, lo, hi), k) == if lo <= k <= hi then At(es, k) else []
  {
    if es != [] {
      var front, last := es[..|es| - 1], es[|es| - 1];
      AtRange(front, lo, hi, k);
      if lo <= last.key <= hi { AtPush(Range(front, lo, hi), last, k); }
    }
  }

  lemma {:induction false} InRange<T(!new)>(es: seq<Keyed<T>>, lo: nat, hi: nat, e: Keyed<T>)
    ensures e in Range(es, lo, hi) <==> e in es && lo <= e.key <= hi
  {
    if es != [] {
      var front, last := es[..|es| - 1], es[|es| - 1];
      InRange(front, lo, hi, e);
      assert es == front + [last];
    }
  }

  lemma {:induction false} AtHas<T(!new)>(es: seq<Keyed<T>>, e: Keyed<T>)
    requires e in es
    ensures e.value in At(es, e.key)
  {
    var front, last := es[..|es| - 1], es[|es| - 1];
    assert es == front + [last];
    if e != last { AtHas(front, e); }
  }

  lemma {:induction false} RangeOrdered<T(!new)>(es: seq<Keyed<T>>, lo: nat, hi: nat)
    requires Ordered(es)
    ensures Ordered(Range(es, lo, hi))
  {
    if es != [] {
      var front, last := es[..|es| - 1], es[|es| - 1];
      RangeOrdered(front, lo, hi);
      forall e | e in Range(front, lo, hi) ensures e.key <= last.key { InRange(front, lo, hi, e); }
      if lo <= last.key <= hi { OrderedPush(Range(front, lo, hi), last); }
    }
  }
}
