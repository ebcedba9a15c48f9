/** Progress: a complete backfill over working writes brings the archive up to the cut. */
module CatchUp {
  import opened Base
  import opened Positions
  import opened Store
  import opened Streams
  import opened WindowSpec
  import opened Chain
  import opened Canonical
  import opened Pipeline
  import opened Backfill
  import opened Session
  import opened Source
  import opened Subscribe
  import opened Durable
  import opened Archives
  import opened Watermarks
  import opened Delivery
  import opened StartBlock

  /** The key of the last source event a session that resumes at `lo` settles; the stored one when there is none. */
  function LastSettled(src: seq<Keyed<Event>>, g: Gap, lo: nat): Option<nat> {
    var m := Count(src, TailFrom(g, lo));
    if Count(src, lo) < m then Some(src[m - 1].key) else KeyOf(g.seed)
  }

  /** A healthy finished settled part reaches the last event it was given. */
  lemma FinishedReaches(env: Env, g: Gap, b: Settled, settled: seq<Group>, es: seq<Keyed<Event>>)
    requires Finished(env, g, b, settled, es) && b.core.healthy && forall e | e in es :: Above(KeyOf(g.seed), e.key)
    ensures KeyOf(b.watermark) == if es == [] then KeyOf(g.seed) else Some(es[|es| - 1].key)
  {
    hide StoredUpTo;
    if es != [] {
      assert es[|es| - 1] in es;
    }
  }

  /** With encodable events and working writes a complete backfill leaves the stored position at the last source key
      at or below the cut. */
  lemma BackfillCatchesUp(env: Env, src: seq<Keyed<Event>>, start: nat, g: Gap, s: StoreState)
    requires (forall i: nat :: !env.fails(i)) && Sound(env, g) && (g.cut.Some? ==> g.cut.value <= g.tip)
        && g.seed == s.position
    requires Ordered(src) && forall e | e in src :: env.encode(e.value).Some?
    ensures var lo := ResumeAfter(g.seed, start);
      && Count(src, lo) <= Count(src, Max(lo, g.tip + 1))
      && KeyOf(Joined(env, g, s, AsBlocks(Slice(src, lo, Max(lo, g.tip + 1)))).store.position)
          == LastSettled(src, g, lo)
  {
    hide Joined, Part, LiveRun, Count, InGap, Ordered, Slice, AsBlocks, Buffers, StoredUpTo, BackfillRun, Boundary,
        Finished, TailFrom;
    var lo, y := ResumeAfter(g.seed, start), Max(ResumeAfter(g.seed, start), g.tip + 1);
    CountMonotone(src, lo, y);
    SliceInGap(src, g.seed, start, g.tip, y);
    SliceIsOrdered(src, lo, y);
    var es := Slice(src, lo, y);
    var settled, tailed, taken, tail, n := SessionKeepsChain(env, g, s, AsBlocks(es), []);
    var p := Joined(env, g, s, AsBlocks(es));
    SettledHealthy(env, g, s, es);
    NoLiveRun(env, p);
    CompleteParts(src, g, lo);
    SettledAbove(src, g, lo, y);
    FinishedReaches(env, g, p.settled, settled, taken);
    ItemsWithin(AsBlocks(es), KeyOf(g.seed), g.tip);
    WatermarksAgree(env, g, s, AsBlocks(es), []);
  }

  lemma NoLiveRun(env: Env, p: Pipe)
    ensures LiveRun(env, p, []) == p
  {
  }

  lemma SettledHealthy(env: Env, g: Gap, s: StoreState, es: seq<Keyed<Event>>)
    requires Sound(env, g) && (forall n: nat :: !env.fails(n))
    requires Ordered(es) && (forall e | e in es :: env.encode(e.value).Some?)
        && InGap(AsBlocks(es), KeyOf(g.seed), g.tip)
    ensures Joined(env, g, s, AsBlocks(es)).settled.core.healthy
  {
    hide BackfillRun, Boundary;
    BackfillHealthy(env, g, s, es);
    FinishHealthy(env, BackfillRun(env, g.cut, Open(g.cut, g.seed, s), AsBlocks(es)));
  }

  lemma SettledAbove(src: seq<Keyed<Event>>, g: Gap, lo: nat, y: nat)
    requires Ordered(src) && (g.seed.Some? ==> g.seed.value.key < lo) && Count(src, lo) <= Count(src, TailFrom(g, lo))
    ensures forall e | e in src[Count(src, lo)..Count(src, TailFrom(g, lo))] :: Above(KeyOf(g.seed), e.key)
  {
    CountSplits(src, lo);
  }

  lemma ItemsWithin(items: seq<Positioned>, seed: Option<nat>, tip: nat)
    requires InGap(items, seed, tip)
    ensures forall i | i in items :: i.position.key <= tip
  {
  }

  /** A bounded subscription ends with everything through the bound or the tip stored, one that stops when the live tail
      starts with everything `depth` deep at the tip. */
  lemma VisitCatchesUp(env: Env, src: seq<Keyed<Event>>, start: nat, v: Visit, s: StoreState)
    requires env.policy.Halt? && env.depth >= 1 && (forall i: nat :: !env.fails(i)) && GapFree(env, src, start, s)
    requires Ordered(src) && forall e | e in src :: e.key < U64_MAX && env.encode(e.value).Some?
    requires v.cfg.chunk >= 1 && v.tip < U64_MAX && v.cfg.startBlock == start
        && Backfilled(env, src, v, s.position).failed.None?
    requires v.stop.InLive? && (v.cfg.toBlock.Some? || v.stop.live == [])
    ensures var after, g := After(env, src, v, s), GapOf(env, v.cfg, v.tip, s.position);
      && GapFree(env, src, start, after)
      && KeyOf(after.position) == LastSettled(src, g, ResumeAfter(s.position, start))
      && forall e | e in src && start <= e.key && DeepEnough(v.cfg, env.depth, v.tip, e.key) ::
           !Above(KeyOf(after.position), e.key)
  {
    PositionIsBlock(env, src, start, s);
    hide *;
    JoinedCatchesUp(env, src, start, v, s);
    QuietIsPeaceful(src, start, v.(stop := InLive([])));
    VisitGapFree(env, src, start, v.(stop := InLive([])), s);
    AfterQuiet(env, src, v, s);
    SettledCovered(src, GapOf(env, v.cfg, v.tip, s.position), start);
    GapSeed(env, v, s);
    GapSettles(env, v, s);
  }

  lemma GapSettles(env: Env, v: Visit, s: StoreState)
    ensures forall k: nat :: DeepEnough(v.cfg, env.depth, v.tip, k) ==>
      Settles(GapOf(env, v.cfg, v.tip, s.position).cut, k)
  {
    forall k: nat | DeepEnough(v.cfg, env.depth, v.tip, k)
      ensures Settles(GapOf(env, v.cfg, v.tip, s.position).cut, k)
    {
      CutExactly(v.cfg, env.depth, v.tip, k);
    }
  }

  lemma GapSeed(env: Env, v: Visit, s: StoreState)
    ensures GapOf(env, v.cfg, v.tip, s.position).seed == s.position
  {
  }

  lemma JoinedCatchesUp(env: Env, src: seq<Keyed<Event>>, start: nat, v: Visit, s: StoreState)
    requires env.policy.Halt? && (forall i: nat :: !env.fails(i)) && (s.position.Some? ==> IsBlock(s.position.value))
    requires Ordered(src) && forall e | e in src :: env.encode(e.value).Some?
    requires v.cfg.chunk >= 1 && v.tip < U64_MAX && v.cfg.startBlock == start
        && Backfilled(env, src, v, s.position).failed.None?
    ensures var g := GapOf(env, v.cfg, v.tip, s.position);
      KeyOf(Joined(env, g, s, AsBlocks(Backfilled(env, src, v, s.position).items)).store.position)
      == LastSettled(src, g, ResumeAfter(s.position, start))
  {
    hide Joined, Count, Slice, Backfilled, LastSettled, Ordered, AsBlocks, Unripe;
    BackfilledIsSlice(env, src, v, s.position);
    CutIsUnripe(env, v.cfg, v.tip);
    BackfillCatchesUp(env, src, start, GapOf(env, v.cfg, v.tip, s.position), s);
  }

  lemma QuietIsPeaceful(src: seq<Keyed<Event>>, start: nat, v: Visit)
    requires v.cfg.chunk >= 1 && v.tip < U64_MAX && v.cfg.startBlock == start && v.stop == InLive([])
    ensures Peaceful(src, start, v)
  {
    NoLive(src, 0);
    assert Count(src, 0) + 0 <= |src| && v.stop.live == LiveFrom(src, 0, 0);
  }

  lemma AfterQuiet(env: Env, src: seq<Keyed<Event>>, v: Visit, s: StoreState)
    requires v.cfg.chunk >= 1 && v.tip < U64_MAX && Backfilled(env, src, v, s.position).failed.None?
    requires v.stop.InLive? && (v.cfg.toBlock.Some? || v.stop.live == [])
    ensures var joined := Joined(env, GapOf(env, v.cfg, v.tip, s.position), s,
        AsBlocks(Backfilled(env, src, v, s.position).items));
      && After(env, src, v, s) == joined.store && After(env, src, v.(stop := InLive([])), s) == joined.store
  {
    hide Joined, Backfilled, AsBlocks;
    NoLiveRun(env, Joined(env, GapOf(env, v.cfg, v.tip, s.position), s,
        AsBlocks(Backfilled(env, src, v, s.position).items)));
    var quiet := v.(stop := InLive([]));
    SameBackfill(env, src, v, quiet, s.position);
  }

  lemma SameBackfill(env: Env, src: seq<Keyed<Event>>, v: Visit, w: Visit, last: Option<Position>)
    requires v.cfg.chunk >= 1 && v.tip < U64_MAX && w == v.(stop := w.stop)
    ensures Backfilled(env, src, v, last) == Backfilled(env, src, w, last)
  {
  }

  lemma SettledCovered(src: seq<Keyed<Event>>, g: Gap, start: nat)
    requires Ordered(src)
    ensures forall e | e in src && start <= e.key && Settles(g.cut, e.key) ::
      !Above(LastSettled(src, g, ResumeAfter(g.seed, start)), e.key)
  {
    var lo := ResumeAfter(g.seed, start);
    CountSplits(src, lo);
    CountSplits(src, TailFrom(g, lo));
    forall e | e in src && start <= e.key && Settles(g.cut, e.key) ensures !Above(LastSettled(src, g, lo), e.key) {
      var n :| 0 <= n < |src| && src[n] == e;
      if e.key < lo {
        assert g.seed.Some? && e.key <= g.seed.value.key;
      }
    }
  }

  /** The window's state after a healthy ordered live tail, in terms of the source. */
  ghost predicate TailStored(env: Env, src: seq<Keyed<Event>>, m: nat, x: nat, w: Window, tailed: seq<Group>,
                             floor: Option<nat>)
    requires m < x <= |src|
  {
    && StoredUpTo(env, tailed, src[m..x], floor, w.flushed) && NothingMissing(Chain(src[m..x], None, None), w)
    && Matured(env.depth, w) == {} && w.head == Some(src[x - 1].key)
  }

  /** A session over working writes whose ordered live tail `j .. j + n` starts above the watermark. */
  lemma LiveStores(env: Env, src: seq<Keyed<Event>>, start: nat, g: Gap, s: StoreState, from: nat, n: nat)
    returns (settled: seq<Group>, tailed: seq<Group>)
    requires env.depth >= 1 && (forall i: nat :: !env.fails(i)) && Sound(env, g)
        && (g.cut.Some? ==> g.cut.value <= g.tip)
    requires Ordered(src) && forall e | e in src :: e.key < U64_MAX && env.encode(e.value).Some?
    requires 0 < n && Count(src, from) + n <= |src| && start <= from <= Max(ResumeAfter(g.seed, start), g.tip + 1)
    requires Above(Floor(g), src[Count(src, from)].key)
    ensures var lo, y := ResumeAfter(g.seed, start), Max(ResumeAfter(g.seed, start), g.tip + 1);
      && Count(src, lo) <= Count(src, y) && Count(src, TailFrom(g, lo)) <= Count(src, from)
      && var p := Joined(env, g, s, AsBlocks(Slice(src, lo, y)));
         var q := LiveRun(env, p, LiveFrom(src, from, n));
      && p.store.log == s.log + settled && q.store.log == s.log + settled + tailed
      && TailStored(env, src, Count(src, TailFrom(g, lo)), Count(src, from) + n, q.window, tailed, Floor(g))
  {
    assert env.policy.Halt?;
    hide *;
    var lo, y, j := ResumeAfter(g.seed, start), Max(ResumeAfter(g.seed, start), g.tip + 1), Count(src, from);
    Larger(lo, g.tip + 1);
    CountMonotone(src, lo, y);
    CountMonotone(src, from, y);
    SliceInGap(src, g.seed, start, g.tip, y);
    SliceIsOrdered(src, lo, y);
    JoinedHealthy(env, g, s, Slice(src, lo, y));
    CompleteParts(src, g, lo);
    StartAboveFloor(src, start, g, TailFrom(g, lo), from);
    LiveFromBlocks(src, from, n);
    var p := Joined(env, g, s, AsBlocks(Slice(src, lo, y)));
    LiveEndsHealthy(env, src, p, from, n);
    RunIs(env, g, s, AsBlocks(Slice(src, lo, y)), LiveFrom(src, from, n));
    var es, tail, k;
    settled, tailed, es, tail, k := SessionKeepsChain(env, g, s, AsBlocks(Slice(src, lo, y)), LiveFrom(src, from, n));
    TailIsWhole(p.window.core.healthy, tail, Part(g.cut, AsBlocks(Slice(src, lo, y)), false));
    ChainIsSlice(src, Count(src, TailFrom(g, lo)), Count(src, y), from, n);
    TailIs(env, src, g, s, p, LiveRun(env, p, LiveFrom(src, from, n)), settled, tailed, es, tail, from, n, k,
           Count(src, TailFrom(g, lo)), Count(src, y));
  }

  lemma Larger(a: nat, b: nat)
    ensures a <= Max(a, b) && b <= Max(a, b)
  {
  }

  lemma RunIs(env: Env, g: Gap, s: StoreState, backfill: seq<Positioned>, live: seq<Indexed>)
    ensures Run(env, g, s, backfill, live) == LiveRun(env, Joined(env, g, s, backfill), live)
  {
  }

  lemma TailIsWhole(healthy: bool, tail: seq<Keyed<Event>>, all: seq<Keyed<Event>>)
    requires Taken(healthy, tail, all) && healthy
    ensures tail == all
  {
  }

  lemma LiveEndsHealthy(env: Env, src: seq<Keyed<Event>>, p: Pipe, from: nat, n: nat)
    requires env.policy.Halt? && env.depth >= 1 && (forall i: nat :: !env.fails(i)) && p.window.core.healthy
    requires Ordered(src) && forall e | e in src :: e.key < U64_MAX && env.encode(e.value).Some?
    requires 0 < n && Count(src, from) + n <= |src| && Above(p.window.flushed, src[Count(src, from)].key)
    ensures var q := LiveRun(env, p, LiveFrom(src, from, n));
      q.window.core.healthy && Matured(env.depth, q.window) == {}
  {
    hide *;
    var j := Count(src, from);
    SliceOrdered(src, j, j + n);
    SliceAbove(src, j, j + n, p.window.flushed);
    LiveIsSlice(src, from, n);
    OrderedLiveIsHealthy(env, p, src[j..j + n]);
    NoneMaturedAfter(env, p, src[j..j + n]);
  }

  lemma TailIs(env: Env, src: seq<Keyed<Event>>, g: Gap, s: StoreState, p: Pipe, q: Pipe, settled: seq<Group>,
               tailed: seq<Group>, es: seq<Keyed<Event>>, tail: seq<Keyed<Event>>, from: nat, n: nat, k: nat,
               m: nat, t: nat)
    requires 0 < n && Count(src, from) + n <= |src| && m <= Count(src, from) && m <= t <= |src|
    requires q.window.core.healthy && p.window.core.healthy && k == |LiveFrom(src, from, n)| && tail == src[m..t]
    requires Matured(env.depth, q.window) == {}
    requires SessionTracks(env, g, q, s.log, es, ChainRun(SeedChain(tail), LiveFrom(src, from, n)[..k]), settled,
        tailed)
    requires ChainRun(SeedChain(src[m..t]), LiveFrom(src, from, n)) == SliceChain(src, m, t, Count(src, from), n)
    ensures q.store.log == s.log + settled + tailed
    ensures TailStored(env, src, m, Count(src, from) + n, q.window, tailed, Floor(g))
  {
    hide ChainRun, LiveFrom, StoredUpTo, Count, Matured, Finished, Floor, SlotsMatch, WellFormed, At;
    assert LiveFrom(src, from, n)[..k] == LiveFrom(src, from, n);
  }

  /** What the archive holds at a key, its position covers. */
  lemma GroupCovered(env: Env, src: seq<Keyed<Event>>, start: nat, s: StoreState, i: nat)
    requires GapFree(env, src, start, s) && i < |s.log|
    ensures !Above(KeyOf(s.position), s.log[i].position.key)
  {
    FoldIsLast(s.log);
  }

  /** Positions buried `depth` deep under the last live key have been written by the window. */
  lemma BuriedWritten(env: Env, src: seq<Keyed<Event>>, m: nat, x: nat, w: Window, tailed: seq<Group>,
                      floor: Option<nat>, i: nat)
    returns (n: nat)
    requires m <= i < x <= |src| && m < x && TailStored(env, src, m, x, w, tailed, floor)
    requires src[i].key + env.depth <= src[x - 1].key < U64_MAX
    ensures n < |tailed| && tailed[n].position.key == src[i].key
  {
    hide Matured, LogAt, At, Rows, StoredUpTo;
    var k, es := src[i].key, src[m..x];
    NotBuffered(env, w, k);
    assert es[i - m] == src[i] && es[i - m] in es;
    AtHas(es, src[i]);
    assert !Above(w.flushed, k);
    HeldBelow(env, tailed, es, floor, w.flushed, k);
    RowsThere(env, At(es, k));
    if forall h | h in tailed :: h.position.key != k {
      LogAtAbsent(tailed, k);
      assert false;
    }
    var h :| h in tailed && h.position.key == k;
    n :| 0 <= n < |tailed| && tailed[n] == h;
  }

  lemma HeldBelow(env: Env, log: seq<Group>, es: seq<Keyed<Event>>, low: Option<nat>, upTo: Option<nat>, k: nat)
    requires StoredUpTo(env, log, es, low, upTo) && !Above(upTo, k)
    ensures LogAt(log, k) == Rows(env, At(es, k)) && Encodable(env, At(es, k))
  {
    assert HoldsAt(env, log, es, k);
  }

  /** A session over working writes keeps up with its live tail: every source event from the start block that is buried
      `depth` deep under the last live key is stored. */
  lemma LiveCatchesUp(env: Env, src: seq<Keyed<Event>>, start: nat, g: Gap, s: StoreState, from: nat, n: nat)
    requires env.depth >= 1 && (forall i: nat :: !env.fails(i)) && Sound(env, g)
        && (g.cut.Some? ==> g.cut.value <= g.tip)
    requires Ordered(src) && forall e | e in src :: e.key < U64_MAX && env.encode(e.value).Some?
    requires GapFree(env, src, start, s) && g.seed == s.position
    requires 0 < n && Count(src, from) + n <= |src| && start <= from <= Max(ResumeAfter(g.seed, start), g.tip + 1)
    requires Above(Floor(g), src[Count(src, from)].key)
    ensures var lo, y := ResumeAfter(g.seed, start), Max(ResumeAfter(g.seed, start), g.tip + 1);
      && Count(src, lo) <= Count(src, y)
      && var after := Run(env, g, s, AsBlocks(Slice(src, lo, y)), LiveFrom(src, from, n)).store;
      && GapFree(env, src, start, after)
      && forall i | 0 <= i < |src| && start <= src[i].key
          && src[i].key + env.depth <= src[Count(src, from) + n - 1].key ::
           !Above(KeyOf(after.position), src[i].key)
  {
    hide *;
    var lo, y, x := ResumeAfter(g.seed, start), Max(ResumeAfter(g.seed, start), g.tip + 1), Count(src, from) + n;
    assert src[x - 1] in src;
    Larger(lo, g.tip + 1);
    CountMonotone(src, lo, y);
    RunIs(env, g, s, AsBlocks(Slice(src, lo, y)), LiveFrom(src, from, n));
    LiveSessionGapFree(env, src, start, g, s, y, from, n);
    JoinedIsGapFree(env, src, start, g, s, y);
    BackfillCatchesUp(env, src, start, g, s);
    var settled, tailed := LiveStores(env, src, start, g, s, from, n);
    var p := Joined(env, g, s, AsBlocks(Slice(src, lo, y)));
    AllCaughtUp(env, src, start, g, s, p, LiveRun(env, p, LiveFrom(src, from, n)).store, settled, tailed,
                LiveRun(env, p, LiveFrom(src, from, n)).window, x);
  }

  lemma AllCaughtUp(env: Env, src: seq<Keyed<Event>>, start: nat, g: Gap, s: StoreState, p: Pipe, after: StoreState,
                    settled: seq<Group>, tailed: seq<Group>, w: Window, x: nat)
    requires Ordered(src) && GapFree(env, src, start, p.store) && GapFree(env, src, start, after)
    requires var lo := ResumeAfter(g.seed, start); var m := Count(src, TailFrom(g, lo));
      && KeyOf(p.store.position) == LastSettled(src, g, lo)
      && m < x <= |src| && TailStored(env, src, m, x, w, tailed, Floor(g))
    requires p.store.log == s.log + settled && after.log == s.log + settled + tailed
    requires src[x - 1].key < U64_MAX && env.depth >= 1
    ensures forall i | 0 <= i < |src| && start <= src[i].key && src[i].key + env.depth <= src[x - 1].key ::
      !Above(KeyOf(after.position), src[i].key)
  {
    hide *;
    forall i | 0 <= i < |src| && start <= src[i].key && src[i].key + env.depth <= src[x - 1].key
      ensures !Above(KeyOf(after.position), src[i].key)
    {
      OneCaughtUp(env, src, start, g, s, p, after, settled, tailed, w, x, i);
    }
  }

  lemma JoinedIsGapFree(env: Env, src: seq<Keyed<Event>>, start: nat, g: Gap, s: StoreState, y: nat)
    requires Ordered(src) && (forall e | e in src :: e.key < U64_MAX) && env.depth >= 1
    requires Sound(env, g) && (g.cut.Some? ==> g.cut.value <= g.tip) && GapFree(env, src, start, s)
        && g.seed == s.position
    requires var lo := ResumeAfter(g.seed, start); lo <= y <= Max(lo, g.tip + 1) && Count(src, lo) <= Count(src, y)
    ensures GapFree(env, src, start, Joined(env, g, s, AsBlocks(Slice(src, ResumeAfter(g.seed, start), y))).store)
  {
    hide GapFree, Joined, Slice, AsBlocks, Count, Ordered, Unripe, LiveRun;
    var items := AsBlocks(Slice(src, ResumeAfter(g.seed, start), y));
    NoLive(src, start);
    LiveSessionGapFree(env, src, start, g, s, y, start, 0);
    NoLiveRun(env, Joined(env, g, s, items));
  }

  /** One source event: settled earlier, settled by the backfill, or written by the window. */
  lemma OneCaughtUp(env: Env, src: seq<Keyed<Event>>, start: nat, g: Gap, s: StoreState, p: Pipe, after: StoreState,
                    settled: seq<Group>, tailed: seq<Group>, w: Window, x: nat, i: nat)
    requires Ordered(src) && i < |src| && GapFree(env, src, start, p.store) && GapFree(env, src, start, after)
    requires var lo := ResumeAfter(g.seed, start); var m := Count(src, TailFrom(g, lo));
      && KeyOf(p.store.position) == LastSettled(src, g, lo)
      && m < x <= |src| && TailStored(env, src, m, x, w, tailed, Floor(g))
    requires p.store.log == s.log + settled && after.log == s.log + settled + tailed
    requires start <= src[i].key && src[i].key + env.depth <= src[x - 1].key < U64_MAX && env.depth >= 1
    ensures !Above(KeyOf(after.position), src[i].key)
  {
    hide GapFree, Count, TailFrom, LastSettled, TailStored, Ordered;
    var lo, k := ResumeAfter(g.seed, start), src[i].key;
    var m := Count(src, TailFrom(g, lo));
    CountSplits(src, TailFrom(g, lo));
    assert src[i] in src;
    if i < m {
      SettledBelow(src, g, start, i);
      PositionGrows(env, src, start, p.store, after, tailed);
    } else {
      WithinTail(src, x, i, env.depth);
      var n := BuriedWritten(env, src, m, x, w, tailed, Floor(g), i);
      assert after.log[|s.log + settled| + n] == tailed[n];
      GroupCovered(env, src, start, after, |s.log + settled| + n);
    }
  }

  lemma SettledBelow(src: seq<Keyed<Event>>, g: Gap, start: nat, i: nat)
    requires Ordered(src) && i < |src| && start <= src[i].key
    requires i < Count(src, TailFrom(g, ResumeAfter(g.seed, start)))
    ensures !Above(LastSettled(src, g, ResumeAfter(g.seed, start)), src[i].key)
  {
    var lo := ResumeAfter(g.seed, start);
    CountSplits(src, lo);
    CountSplits(src, TailFrom(g, lo));
  }

  lemma WithinTail(src: seq<Keyed<Event>>, x: nat, i: nat, depth: nat)
    requires Ordered(src) && i < |src| && 0 < x <= |src| && depth >= 1 && src[i].key + depth <= src[x - 1].key
    ensures i < x
  {
  }

  lemma PositionGrows(env: Env, src: seq<Keyed<Event>>, start: nat, s: StoreState, s': StoreState, more: seq<Group>)
    requires GapFree(env, src, start, s) && GapFree(env, src, start, s') && s'.log == s.log + more && s.position.Some?
    ensures !Above(KeyOf(s'.position), s.position.value.key)
  {
    FoldIsLast(s.log);
    assert s'.log[|s.log| - 1] == s.log[|s.log| - 1];
    GroupCovered(env, src, start, s', |s.log| - 1);
  }

  /** The same for one whole subscription: over working writes and a complete backfill, an unbounded subscription
      whose live tail starts above the cut and the stored position ends with everything stored that is buried `depth`
      deep under the last live key. */
  lemma VisitKeepsUp(env: Env, src: seq<Keyed<Event>>, start: nat, v: Visit, s: StoreState, from: nat, n: nat)
    requires env.policy.Halt? && env.depth >= 1 && (forall i: nat :: !env.fails(i)) && GapFree(env, src, start, s)
    requires Ordered(src) && forall e | e in src :: e.key < U64_MAX && env.encode(e.value).Some?
    requires v.cfg.chunk >= 1 && v.tip < U64_MAX && v.cfg.startBlock == start && v.cfg.toBlock.None?
    requires Backfilled(env, src, v, s.position).failed.None?
    requires 0 < n && Count(src, from) + n <= |src| && from <= v.tip + 1 && v.stop == InLive(LiveFrom(src, from, n))
    requires start <= src[Count(src, from)].key
    requires Above(Floor(GapOf(env, v.cfg, v.tip, s.position)), src[Count(src, from)].key)
    ensures var after, x := After(env, src, v, s), Count(src, from) + n;
      && GapFree(env, src, start, after)
      && forall i | 0 <= i < |src| && start <= src[i].key && src[i].key + env.depth <= src[x - 1].key ::
           !Above(KeyOf(after.position), src[i].key)
  {
    hide GapFree, Run, LiveRun, LiveFrom, Joined, Backfilled, Slice, Unripe, Ordered, Count, AsBlocks, Floor;
    var g := GapOf(env, v.cfg, v.tip, s.position);
    BackfilledIsSlice(env, src, v, s.position);
    CutIsUnripe(env, v.cfg, v.tip);
    PositionIsBlock(env, src, start, s);
    FromStartOn(src, start, from);
    SameLive(src, from, Max(start, from), n);
    LiveCatchesUp(env, src, start, g, s, Max(start, from), n);
  }
}
