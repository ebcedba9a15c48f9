/** One process over many subscriptions, without reorgs: nothing is skipped, and what is repeated lies above the
    position stored when the process subscribed again. */
module Resubscribes {
  import opened Base
  import opened Positions
  import opened Store
  import opened Streams
  import opened WindowSpec
  import opened Chain
  import opened Pipeline
  import opened Canonical
  import opened Backfill
  import opened Session
  import opened Source
  import opened Subscribe
  import opened Durable
  import opened Archives
  import opened Delivery
  import opened StartBlock
  import opened CatchUp
  import Reorgs

  /** What a subscription delivers: the source from `a` up to `t`, then its live part from `h` up to `x`. */
  datatype Shape = Shape(a: nat, t: nat, h: nat, x: nat)

  ghost predicate Shaped(src: seq<Keyed<Event>>, sh: Shape, out: seq<Event>) {
    && sh.a <= sh.t <= |src| && sh.h <= sh.t && sh.x <= |src|
    && out == Values(src[sh.a..sh.t]) + Values(Rest(src, sh.h, sh.x))
  }

  function Reach(sh: Shape): nat {
    Max(sh.t, sh.x)
  }

  /** The first event a window no longer takes in. */
  lemma {:induction false} FirstUnhealthy(env: Env, p: Pipe, src: seq<Keyed<Event>>, j: nat, i: nat) returns (h: nat)
    requires j <= i <= |src| && p.window.core.healthy
    requires !LiveRun(env, p, LiveSlice(src, j, i)).window.core.healthy
    ensures j < h <= i && !LiveRun(env, p, LiveSlice(src, j, h)).window.core.healthy
    ensures LiveRun(env, p, LiveSlice(src, j, h - 1)).window.core.healthy
    decreases i
  {
    hide *;
    LiveNothing(env, p, src, j);
    assert i != j;
    if LiveRun(env, p, LiveSlice(src, j, i - 1)).window.core.healthy {
      h := i;
    } else {
      h := FirstUnhealthy(env, p, src, j, i - 1);
    }
  }

  /** Whatever happens to the window, the live part of a delivery is one stretch that leaves no gap to the backfill. */
  lemma OverlapShape(env: Env, p: Pipe, src: seq<Keyed<Event>>, m: nat, t: nat, j: nat, x: nat) returns (h: nat)
    requires Overlapping(env, p, src, m, t, j) && j < x <= |src|
    ensures j <= h <= t <= |src| && LiveRun(env, p, LiveSlice(src, j, x)).out == p.out + Values(Rest(src, h, x))
  {
    hide *;
    OverlapFacts(env, p, src, m, t, j);
    OverlapDelivers(env, p, src, m, t, j, x);
    MinIs(t, x);
    if j == t || LiveRun(env, p, LiveSlice(src, j, Min(t, x) - 1)).window.core.healthy {
      h := t;
    } else {
      h := FirstUnhealthy(env, p, src, j, Min(t, x) - 1);
      LiveDelivers(env, p, src, m, t, j, h);
      DeliveredOut(env, p, LiveRun(env, p, LiveSlice(src, j, h)), src, h, t);
      LiveSliceSplits(env, p, src, j, h, x);
      HaltedDelivers(env, LiveRun(env, p, LiveSlice(src, j, h)), src[h..x]);
      RestBefore(src, t, h, x, p.out);
    }
  }

  lemma RestBefore(src: seq<Keyed<Event>>, t: nat, h: nat, x: nat, out: seq<Event>)
    requires h <= t <= |src| && h <= x <= |src|
    ensures out + Values(Rest(src, t, h)) + Values(src[h..x]) == out + Values(Rest(src, h, x))
  {
  }

  /** The same from any joined pipeline. */
  lemma LiveShape(env: Env, src: seq<Keyed<Event>>, start: nat, g: Gap, p: Pipe, lo: nat, y: nat, from: nat, n: nat)
    returns (h: nat)
    requires env.policy.Halt? && env.depth >= 1 && Ordered(src) && (forall e | e in src :: e.key < U64_MAX)
    requires lo == ResumeAfter(g.seed, start)
    requires 0 < n && Count(src, from) + n <= |src| && start <= from && Count(src, from) <= Count(src, y)
    requires Count(src, TailFrom(g, lo)) <= Count(src, y) && p.window.flushed == Floor(g)
    requires p.window.core.healthy ==>
      Buffers(env, SeedChain(src[Count(src, TailFrom(g, lo))..Count(src, y)]), p.window)
    ensures Count(src, from) <= h <= Count(src, y)
    ensures LiveRun(env, p, LiveFrom(src, from, n)).out == p.out + Values(Rest(src, h, Count(src, from) + n))
  {
    hide *;
    var j, t, m := Count(src, from), Count(src, y), Count(src, TailFrom(g, lo));
    LiveFromIs(src, from, n);
    if p.window.core.healthy && Above(p.window.flushed, src[j].key) {
      LiveOverlaps(env, src, start, g, p, m, t, from);
      h := OverlapShape(env, p, src, m, t, j, j + n);
    } else {
      h := j;
      BelowFloorDelivers(env, p, src, j, j + n);
      RestIs(src, j, j + n);
    }
  }

  lemma LiveFromIs(src: seq<Keyed<Event>>, from: nat, n: nat)
    requires Count(src, from) + n <= |src|
    ensures LiveFrom(src, from, n) == LiveSlice(src, Count(src, from), Count(src, from) + n)
  {
  }

  lemma RestIs(src: seq<Keyed<Event>>, h: nat, x: nat)
    requires h < x <= |src|
    ensures Rest(src, h, x) == src[h..x]
  {
  }

  lemma CountAfter(src: seq<Keyed<Event>>, k: nat, i: nat)
    requires Ordered(src) && i < |src| && k < src[i].key
    ensures Count(src, k + 1) <= i
  {
    CountSplits(src, k + 1);
  }

  /** Resuming after `k` starts within `reach`, if nothing at or below `k` lies past it. */
  lemma ResumeWithin(src: seq<Keyed<Event>>, start: nat, position: Option<Position>, k: nat, a: nat, reach: nat)
    requires Ordered(src) && position.Some? && position.value.key == k && Count(src, start) <= a <= reach
    requires Count(src, k + 1) <= reach
    ensures Count(src, ResumeAfter(position, start)) <= reach
  {
  }

  /** The last group a settled writer has written lies within what it took in. */
  lemma SettledWithin(src: seq<Keyed<Event>>, env: Env, b: Settled, log: seq<Group>, es: seq<Keyed<Event>>,
                      low: Option<nat>, a: nat, k: nat)
    requires Ordered(src) && a + |es| <= |src| && es == src[a..a + |es|]
    requires StoredUpTo(env, log, es, low, KeyOf(b.watermark)) && log != [] && log[|log| - 1].position.key == k
    requires KeyOf(b.watermark) != low ==> es != [] && Above(KeyOf(b.watermark), es[|es| - 1].key)
    ensures Count(src, k + 1) <= a + |es|
  {
    assert log[|log| - 1] in log;
    CountAfter(src, k, a + |es| - 1);
  }

  /** The backfill part alone, wherever it stops. */
  lemma StoppedInBackfill(env: Env, src: seq<Keyed<Event>>, start: nat, g: Gap, s: StoreState, y: nat, n: nat)
    requires Ordered(src) && Sound(env, g) && GapFree(env, src, start, s) && g.seed == s.position
    requires var lo := ResumeAfter(g.seed, start);
      lo <= y <= Max(lo, g.tip + 1) && Count(src, lo) <= Count(src, y) && n <= Count(src, y) - Count(src, lo)
    ensures var lo := ResumeAfter(g.seed, start);
      var p := BackfillRun(env, g.cut, Open(g.cut, g.seed, s), AsBlocks(Slice(src, lo, y))[..n]);
      && Count(src, lo) + n <= |src| && p.out == Values(src[Count(src, lo)..Count(src, lo) + n])
      && Count(src, ResumeAfter(p.store.position, start)) <= Count(src, lo) + n
  {
    hide *;
    var lo, a := ResumeAfter(g.seed, start), Count(src, ResumeAfter(g.seed, start));
    SliceLength(src, lo, y);
    AsBlocksLength(Slice(src, lo, y));
    var p := BackfillRun(env, g.cut, Open(g.cut, g.seed, s), AsBlocks(Slice(src, lo, y))[..n]);
    CrashGapFree(env, src, start, g, s, y, n);
    var mine, es := StoppedTracks(env, src, start, g, s, y, n);
    StartBefore(src, start, g.seed);
    if mine == [] {
      SameStore(env, src, start, s, p.store);
    } else {
      LastIsPosition(env, src, start, s, p.store, mine);
      SettledWithin(src, env, p.settled, mine, es, KeyOf(g.seed), a, mine[|mine| - 1].position.key);
      ResumeWithin(src, start, p.store.position, mine[|mine| - 1].position.key, a, a + n);
    }
  }

  lemma StartBefore(src: seq<Keyed<Event>>, start: nat, last: Option<Position>)
    requires Ordered(src)
    ensures Count(src, start) <= Count(src, ResumeAfter(last, start))
  {
    CountMonotone(src, start, ResumeAfter(last, start));
  }

  lemma StoppedTracks(env: Env, src: seq<Keyed<Event>>, start: nat, g: Gap, s: StoreState, y: nat, n: nat)
    returns (mine: seq<Group>, es: seq<Keyed<Event>>)
    requires Ordered(src) && Sound(env, g) && g.seed == s.position
    requires var lo := ResumeAfter(g.seed, start);
      lo <= y <= Max(lo, g.tip + 1) && Count(src, lo) <= Count(src, y) && n <= Count(src, y) - Count(src, lo)
    ensures var lo, a := ResumeAfter(g.seed, start), Count(src, ResumeAfter(g.seed, start));
      var p := BackfillRun(env, g.cut, Open(g.cut, g.seed, s), AsBlocks(Slice(src, lo, y))[..n]);
      && a + n <= |src| && |es| <= n && es == src[a..a + |es|]
      && p.store.log == s.log + mine && p.out == Values(src[a..a + n])
      && StoredUpTo(env, mine, es, KeyOf(g.seed), KeyOf(p.settled.watermark))
      && (KeyOf(p.settled.watermark) != KeyOf(g.seed) ==>
          es != [] && Above(KeyOf(p.settled.watermark), es[|es| - 1].key))
  {
    hide StoredUpTo, Part, AsBlocks, Count, BackfillRun, Unripe, TailTracks, OpenGroup, InGap, Ordered, Events;
    var lo, a := ResumeAfter(g.seed, start), Count(src, ResumeAfter(g.seed, start));
    var items := AsBlocks(Slice(src, lo, y));
    AsBlocksPrefix(src, a, Count(src, y), n);
    AsBlocksLength(Slice(src, lo, y));
    SliceInGap(src, g.seed, start, g.tip, y);
    InGapPrefix(items, n, KeyOf(g.seed), g.tip);
    var tail;
    mine, es, tail := BackfillKeepsChain(env, g, s, items[..n]);
    EventsAreValues(src[a..a + n]);
    var healthy := BackfillRun(env, g.cut, Open(g.cut, g.seed, s), items[..n]).settled.core.healthy;
    Reorgs.TakenIsSlice(src, g.cut, a, n, healthy, es);
    TakenShort(healthy, es, Part(g.cut, items[..n], true), src[a..a + n], g.cut);
  }

  lemma EventsAreValues(es: seq<Keyed<Event>>)
    ensures Events(AsBlocks(es)) == Values(es)
  {
  }

  lemma {:induction false} PartShort(cut: Option<nat>, items: seq<Positioned>, settled: bool)
    ensures |Part(cut, items, settled)| <= |items|
  {
    if items != [] { PartShort(cut, items[..|items| - 1], settled); }
  }

  lemma TakenShort(healthy: bool, es: seq<Keyed<Event>>, part: seq<Keyed<Event>>, all: seq<Keyed<Event>>,
                   cut: Option<nat>)
    requires Taken(healthy, es, part) && part == Part(cut, AsBlocks(all), true)
    ensures |es| <= |all|
  {
    PartShort(cut, AsBlocks(all), true);
    AsBlocksLength(all);
  }

  lemma SameStore(env: Env, src: seq<Keyed<Event>>, start: nat, s: StoreState, s': StoreState)
    requires GapFree(env, src, start, s) && GapFree(env, src, start, s') && s'.log == s.log + []
    ensures s'.position == s.position
  {
    assert s'.log == s.log;
  }

  lemma LastIsPosition(env: Env, src: seq<Keyed<Event>>, start: nat, s: StoreState, s': StoreState, more: seq<Group>)
    requires GapFree(env, src, start, s') && s'.log == s.log + more && more != []
    ensures s'.position == Some(more[|more| - 1].position)
  {
    FoldIsLast(s'.log);
    assert s'.log[|s'.log| - 1] == more[|more| - 1];
  }

  /** The pipeline where the live tail starts: the whole backfill delivered, and nothing beyond it stored. */
  lemma JoinedWithin(env: Env, src: seq<Keyed<Event>>, start: nat, g: Gap, s: StoreState, y: nat)
    requires Ordered(src) && (forall e | e in src :: e.key < U64_MAX) && env.depth >= 1
        && (g.cut.Some? ==> g.cut.value <= g.tip)
    requires Sound(env, g) && GapFree(env, src, start, s) && g.seed == s.position
    requires var lo := ResumeAfter(g.seed, start);
      lo <= y <= Max(lo, g.tip + 1) && Count(src, lo) <= Count(src, y)
    ensures var lo := ResumeAfter(g.seed, start);
      var p := Joined(env, g, s, AsBlocks(Slice(src, lo, y)));
      && p.out == Values(src[Count(src, lo)..Count(src, y)]) && GapFree(env, src, start, p.store)
      && Count(src, ResumeAfter(p.store.position, start)) <= Count(src, y)
  {
    assert env.policy.Halt?;
    hide *;
    var lo := ResumeAfter(g.seed, start);
    var items := AsBlocks(Slice(src, lo, y));
    SliceInGap(src, g.seed, start, g.tip, y);
    JoinedOut(env, g, s, Slice(src, lo, y));
    SliceIs(src, lo, y);
    JoinedIsGapFree(env, src, start, g, s, y);
    var settled, es := JoinedSettles(env, g, s, items);
    StartBefore(src, start, g.seed);
    JoinedStore(env, src, start, g, s, Joined(env, g, s, items), settled, es, y);
  }

  lemma JoinedSettles(env: Env, g: Gap, s: StoreState, items: seq<Positioned>)
    returns (settled: seq<Group>, es: seq<Keyed<Event>>)
    requires Sound(env, g) && InGap(items, KeyOf(g.seed), g.tip)
    ensures var p := Joined(env, g, s, items);
      && p.store.log == s.log + settled && Finished(env, g, p.settled, settled, es)
      && Taken(p.settled.core.healthy, es, Part(g.cut, items, true))
  {
    hide Joined, LiveRun, Finished, Taken, Part, Sound, InGap, StoredUpTo, Buffers, ChainRun;
    NoLiveAtAll();
    var tailed, tail, n;
    settled, tailed, es, tail, n := SessionKeepsChain(env, g, s, items, []);
    NoLiveRun(env, Joined(env, g, s, items));
  }

  lemma JoinedStore(env: Env, src: seq<Keyed<Event>>, start: nat, g: Gap, s: StoreState, p: Pipe, settled: seq<Group>,
                    es: seq<Keyed<Event>>, y: nat)
    requires Ordered(src) && GapFree(env, src, start, s) && g.seed == s.position && GapFree(env, src, start, p.store)
    requires Count(src, start) <= Count(src, ResumeAfter(g.seed, start)) <= Count(src, y)
    requires p.store.log == s.log + settled && Finished(env, g, p.settled, settled, es)
    requires Taken(p.settled.core.healthy, es,
                   Part(g.cut, AsBlocks(Slice(src, ResumeAfter(g.seed, start), y)), true))
    ensures Count(src, ResumeAfter(p.store.position, start)) <= Count(src, y)
  {
    hide *;
    if settled == [] {
      SameStore(env, src, start, s, p.store);
    } else {
      LastIsPosition(env, src, start, s, p.store, settled);
      SettledBeforeEnd(env, src, start, g, p.settled, settled, es, y);
      ResumeWithin(src, start, p.store.position, settled[|settled| - 1].position.key, Count(src, start), Count(src, y));
    }
  }

  lemma NoLiveAtAll()
    ensures LiveBlocks([])
  {
  }

  /** What a finished settled part has written lies within the backfill. */
  lemma SettledBeforeEnd(env: Env, src: seq<Keyed<Event>>, start: nat, g: Gap, b: Settled, settled: seq<Group>,
                         es: seq<Keyed<Event>>, y: nat)
    requires Ordered(src) && Count(src, ResumeAfter(g.seed, start)) <= Count(src, y) && settled != []
    requires Finished(env, g, b, settled, es)
    requires Taken(b.core.healthy, es, Part(g.cut, AsBlocks(Slice(src, ResumeAfter(g.seed, start), y)), true))
    ensures Count(src, settled[|settled| - 1].position.key + 1) <= Count(src, y)
  {
    hide Count, AsBlocks, Part;
    var lo := ResumeAfter(g.seed, start);
    PartOfSlice(src, g.cut, Count(src, lo), Count(src, y));
    CutIndexBounds(src, g.cut, Count(src, lo), Count(src, y));
    CountSplits(src, y);
    assert settled[|settled| - 1] in settled;
    assert KeyOf(b.watermark) != KeyOf(g.seed);
    assert es[|es| - 1] == src[Count(src, lo) + |es| - 1];
    CountMonotone(src, settled[|settled| - 1].position.key + 1, y);
  }

  /** What the window has written lies within what was live. */
  lemma TailedBeforeEnd(env: Env, src: seq<Keyed<Event>>, p: Pipe, from: nat, n: nat, k: nat, tailed: seq<Group>,
                        es: seq<Keyed<Event>>, floor: Option<nat>, upTo: Option<nat>)
    requires env.policy.Halt? && env.depth >= 1 && Ordered(src) && (forall e | e in src :: e.key < U64_MAX)
    requires Count(src, from) + n <= |src| && k <= n && tailed != [] && p.window.flushed == floor
    requires StoredUpTo(env, tailed, es, floor, upTo)
    requires upTo == LiveRun(env, p, LiveFrom(src, from, n)[..k]).window.flushed
    ensures Count(src, tailed[|tailed| - 1].position.key + 1) <= Count(src, from) + n
  {
    hide Count, LiveRun, LiveFrom, LogAt, At, Rows;
    TakenPrefix(src, from, n, k);
    SliceLags(env, p, src, from, k);
    assert tailed[|tailed| - 1] in tailed;
    assert upTo != floor;
    CountAfter(src, tailed[|tailed| - 1].position.key, Count(src, from) + k - 1);
  }

  /** A whole session: one gapless shape, and nothing beyond it stored. */
  lemma SessionWithin(env: Env, src: seq<Keyed<Event>>, start: nat, g: Gap, s: StoreState, from: nat, n: nat)
    returns (h: nat)
    requires Ordered(src) && (forall e | e in src :: e.key < U64_MAX) && env.depth >= 1
        && (g.cut.Some? ==> g.cut.value <= g.tip)
    requires Sound(env, g) && GapFree(env, src, start, s) && g.seed == s.position
    requires 0 < n && Count(src, from) + n <= |src| && start <= from <= Max(ResumeAfter(g.seed, start), g.tip + 1)
    ensures var lo, y, x := ResumeAfter(g.seed, start), Max(ResumeAfter(g.seed, start), g.tip + 1),
        Count(src, from) + n;
      && Count(src, lo) <= Count(src, y) && Count(src, from) <= h <= Count(src, y)
      && var q := Run(env, g, s, AsBlocks(Slice(src, lo, y)), LiveFrom(src, from, n));
      && q.out == Values(src[Count(src, lo)..Count(src, y)]) + Values(Rest(src, h, x))
      && Count(src, ResumeAfter(q.store.position, start)) <= Max(Count(src, y), x)
  {
    assert env.policy.Halt?;
    hide *;
    var lo, y, x := ResumeAfter(g.seed, start), Max(ResumeAfter(g.seed, start), g.tip + 1), Count(src, from) + n;
    Larger(lo, g.tip + 1);
    CountMonotone(src, lo, y);
    CountMonotone(src, from, y);
    h := SessionShape(env, src, start, g, s, lo, y, from, n);
    SessionStore(env, src, start, g, s, lo, y, from, n);
  }

  lemma SessionShape(env: Env, src: seq<Keyed<Event>>, start: nat, g: Gap, s: StoreState, lo: nat, y: nat, from: nat,
                     n: nat)
    returns (h: nat)
    requires env.policy.Halt? && env.depth >= 1 && Ordered(src) && (forall e | e in src :: e.key < U64_MAX)
    requires Sound(env, g) && (g.cut.Some? ==> g.cut.value <= g.tip)
    requires lo == ResumeAfter(g.seed, start) && y == Max(lo, g.tip + 1) && lo <= y && g.tip + 1 <= y
    requires Count(src, lo) <= Count(src, y) && Count(src, from) <= Count(src, y)
    requires 0 < n && Count(src, from) + n <= |src| && start <= from
    ensures Count(src, from) <= h <= Count(src, y)
    ensures Run(env, g, s, AsBlocks(Slice(src, lo, y)), LiveFrom(src, from, n)).out
      == Values(src[Count(src, lo)..Count(src, y)]) + Values(Rest(src, h, Count(src, from) + n))
  {
    hide *;
    var items := AsBlocks(Slice(src, lo, y));
    SliceInGap(src, g.seed, start, g.tip, y);
    SliceIs(src, lo, y);
    JoinedOut(env, g, s, Slice(src, lo, y));
    CompleteParts(src, g, lo);
    h := LiveShape(env, src, start, g, Joined(env, g, s, items), lo, y, from, n);
    RunIs(env, g, s, items, LiveFrom(src, from, n));
  }

  lemma SessionStore(env: Env, src: seq<Keyed<Event>>, start: nat, g: Gap, s: StoreState, lo: nat, y: nat, from: nat,
                     n: nat)
    requires env.policy.Halt? && env.depth >= 1 && Ordered(src) && (forall e | e in src :: e.key < U64_MAX)
    requires Sound(env, g) && (g.cut.Some? ==> g.cut.value <= g.tip) && GapFree(env, src, start, s)
        && g.seed == s.position
    requires lo == ResumeAfter(g.seed, start) && y == Max(lo, g.tip + 1) && lo <= y && g.tip + 1 <= y
    requires Count(src, lo) <= Count(src, y) && 0 < n && Count(src, from) + n <= |src| && start <= from <= y
    ensures var q := Run(env, g, s, AsBlocks(Slice(src, lo, y)), LiveFrom(src, from, n));
      Count(src, ResumeAfter(q.store.position, start)) <= Max(Count(src, y), Count(src, from) + n)
  {
    hide *;
    var items, live := AsBlocks(Slice(src, lo, y)), LiveFrom(src, from, n);
    SliceInGap(src, g.seed, start, g.tip, y);
    JoinedWithin(env, src, start, g, s, y);
    LiveFromBlocks(src, from, n);
    LiveFromLength(src, from, n);
    LiveSessionGapFree(env, src, start, g, s, y, from, n);
    StartBefore(src, start, g.seed);
    var settled, tailed, es, tail, k := SessionKeepsChain(env, g, s, items, live);
    StoreWithin(env, src, start, g, s, Joined(env, g, s, items), Run(env, g, s, items, live), settled, tailed, es,
                ChainRun(SeedChain(tail), live[..k]), from, n, k, Count(src, y));
  }

  lemma StoreWithin(env: Env, src: seq<Keyed<Event>>, start: nat, g: Gap, s: StoreState, p: Pipe, q: Pipe,
                    settled: seq<Group>, tailed: seq<Group>, es: seq<Keyed<Event>>, c: Chain, from: nat, n: nat,
                        k: nat, t: nat)
    requires env.policy.Halt? && env.depth >= 1 && Ordered(src) && (forall e | e in src :: e.key < U64_MAX)
    requires Count(src, from) + n <= |src| && k <= n && p.window.flushed == Floor(g) && Count(src, start) <= t
    requires GapFree(env, src, start, p.store) && GapFree(env, src, start, q.store) && p.store.log == s.log + settled
    requires SessionTracks(env, g, q, s.log, es, c, settled, tailed)
    requires q.window.flushed == LiveRun(env, p, LiveFrom(src, from, n)[..k]).window.flushed
    requires Count(src, ResumeAfter(p.store.position, start)) <= t
    ensures Count(src, ResumeAfter(q.store.position, start)) <= Max(t, Count(src, from) + n)
  {
    hide GapFree, Count, LiveRun, LiveFrom, Ordered, Floor, StoredUpTo, Finished, ResumeAfter, Buffers;
    var x := Count(src, from) + n;
    if tailed == [] {
      assert q.store.log == p.store.log + [];
      SameStore(env, src, start, p.store, q.store);
    } else {
      LastIsPosition(env, src, start, p.store, q.store, tailed);
      TailedBeforeEnd(env, src, p, from, n, k, tailed, c.events, Floor(g), q.window.flushed);
      ResumeWithin(src, start, q.store.position, tailed[|tailed| - 1].position.key, Count(src, start), Max(t, x));
    }
  }

  /** The live tail, if it says anything, starts above the stored position and not below the start block. */
  predicate StartsAbove(v: Visit, last: Option<Position>, start: nat) {
    v.stop.InLive? && v.stop.live != [] ==> ResumeAfter(last, start) <= PositionOf(v.stop.live[0]).key
  }

  /** One subscription of a process, however it ends and whatever fails: it delivers one stretch of the source from
      the resume point and one live stretch that leaves no gap to it; it stores nothing beyond what it delivers; and
      when its live tail starts above the stored position, it delivers nothing at or below that position. */
  lemma VisitShape(env: Env, src: seq<Keyed<Event>>, start: nat, v: Visit, s: StoreState) returns (sh: Shape)
    requires env.policy.Halt? && env.depth >= 1 && Ordered(src) && (forall e | e in src :: e.key < U64_MAX)
    requires Peaceful(src, start, v) && GapFree(env, src, start, s)
    ensures sh.a == Count(src, ResumeAfter(s.position, start))
    ensures Shaped(src, sh, OutOf(env, src, v, s))
    ensures Count(src, ResumeAfter(After(env, src, v, s).position, start)) <= Reach(sh)
    ensures StartsAbove(v, s.position, start) ==> sh.a <= sh.h
  {
    if Subscription(env, src, v, s).None? {
      hide *;
      var a := Count(src, ResumeAfter(s.position, start));
      sh := Shape(a, a, a, 0);
      NothingSaid(env, src, v, s);
      EmptyShape(src, a);
      ReachIs(sh);
    } else if v.stop.InBackfill? {
      sh := StoppedVisit(env, src, start, v, s);
    } else if Backfilled(env, src, v, s.position).failed.Some? || v.cfg.toBlock.Some? || v.stop.live == [] {
      sh := QuietVisit(env, src, start, v, s);
    } else {
      sh := LiveVisit(env, src, start, v, s);
    }
  }

  lemma NothingSaid(env: Env, src: seq<Keyed<Event>>, v: Visit, s: StoreState)
    requires v.cfg.chunk >= 1 && v.tip < U64_MAX && Subscription(env, src, v, s).None?
    ensures OutOf(env, src, v, s) == [] && After(env, src, v, s) == s
  {
  }

  lemma ReachIs(sh: Shape)
    ensures sh.t <= Reach(sh) && sh.x <= Reach(sh)
  {
  }

  lemma StoppedVisit(env: Env, src: seq<Keyed<Event>>, start: nat, v: Visit, s: StoreState) returns (sh: Shape)
    requires env.policy.Halt? && Ordered(src) && v.cfg.chunk >= 1 && v.tip < U64_MAX && v.cfg.startBlock == start
    requires GapFree(env, src, start, s) && Subscription(env, src, v, s).Some? && v.stop.InBackfill?
    ensures sh.a == sh.h == Count(src, ResumeAfter(s.position, start)) && Shaped(src, sh, OutOf(env, src, v, s))
    ensures Count(src, ResumeAfter(After(env, src, v, s).position, start)) <= Reach(sh)
  {
    hide GapFree, BackfillRun, Slice, Backfilled, Ordered, Count, AsBlocks, Unripe, Values, Shaped;
    var lo, y := ResumeAfter(s.position, start), CoveredTo(env, src, v, s.position);
    var g, b := GapOf(env, v.cfg, v.tip, s.position), Backfilled(env, src, v, s.position);
    BackfilledIsSlice(env, src, v, s.position);
    CutIsUnripe(env, v.cfg, v.tip);
    PositionIsBlock(env, src, start, s);
    var a, n := Count(src, lo), Min(v.stop.taken, |b.items|);
    SliceLength(src, lo, y);
    AsBlocksLength(b.items);
    StoppedInBackfill(env, src, start, g, s, y, n);
    sh := Shape(a, a + n, a, 0);
    QuietShape(src, a, a + n);
  }

  lemma QuietVisit(env: Env, src: seq<Keyed<Event>>, start: nat, v: Visit, s: StoreState) returns (sh: Shape)
    requires env.policy.Halt? && env.depth >= 1 && Ordered(src) && (forall e | e in src :: e.key < U64_MAX)
    requires v.cfg.chunk >= 1 && v.tip < U64_MAX && v.cfg.startBlock == start && GapFree(env, src, start, s)
    requires Subscription(env, src, v, s).Some? && v.stop.InLive?
    requires Backfilled(env, src, v, s.position).failed.Some? || v.cfg.toBlock.Some? || v.stop.live == []
    ensures sh.a == sh.h == Count(src, ResumeAfter(s.position, start)) && Shaped(src, sh, OutOf(env, src, v, s))
    ensures Count(src, ResumeAfter(After(env, src, v, s).position, start)) <= Reach(sh)
  {
    hide GapFree, Joined, Run, Slice, Backfilled, Ordered, Count, AsBlocks, Unripe, Values, Shaped;
    var lo, y := ResumeAfter(s.position, start), CoveredTo(env, src, v, s.position);
    var g, b := GapOf(env, v.cfg, v.tip, s.position), Backfilled(env, src, v, s.position);
    BackfilledIsSlice(env, src, v, s.position);
    CutIsUnripe(env, v.cfg, v.tip);
    PositionIsBlock(env, src, start, s);
    JoinedWithin(env, src, start, g, s, y);
    RunIs(env, g, s, AsBlocks(b.items), []);
    NoLiveRun(env, Joined(env, g, s, AsBlocks(b.items)));
    sh := Shape(Count(src, lo), Count(src, y), Count(src, lo), 0);
    QuietShape(src, Count(src, lo), Count(src, y));
  }

  lemma LiveVisit(env: Env, src: seq<Keyed<Event>>, start: nat, v: Visit, s: StoreState) returns (sh: Shape)
    requires env.policy.Halt? && env.depth >= 1 && Ordered(src) && (forall e | e in src :: e.key < U64_MAX)
    requires Peaceful(src, start, v) && GapFree(env, src, start, s)
    requires v.stop.InLive? && v.stop.live != [] && v.cfg.toBlock.None?
        && Backfilled(env, src, v, s.position).failed.None?
    ensures sh.a == Count(src, ResumeAfter(s.position, start)) && Shaped(src, sh, OutOf(env, src, v, s))
    ensures Count(src, ResumeAfter(After(env, src, v, s).position, start)) <= Reach(sh)
    ensures StartsAbove(v, s.position, start) ==> sh.a <= sh.h
  {
    hide GapFree, LiveFrom, Run, Slice, Backfilled, Ordered, Count, AsBlocks, Unripe, Values, Rest;
    var lo, g := ResumeAfter(s.position, start), GapOf(env, v.cfg, v.tip, s.position);
    var y := Max(lo, g.tip + 1);
    BackfilledIsSlice(env, src, v, s.position);
    CutIsUnripe(env, v.cfg, v.tip);
    PositionIsBlock(env, src, start, s);
    var from: nat, n: nat :| Count(src, from) + n <= |src| && from <= v.tip + 1 && v.stop.live == LiveFrom(src, from, n)
      && (n > 0 ==> start <= src[Count(src, from)].key);
    LiveFromLength(src, from, n);
    FromStartOn(src, start, from);
    SameLive(src, from, Max(start, from), n);
    var h := SessionWithin(env, src, start, g, s, Max(start, from), n);
    sh := Shape(Count(src, lo), Count(src, y), h, Count(src, from) + n);
    LiveStartsAt(src, from, n, lo);
  }

  /** What a subscription's consumer receives after replay. */
  function OutOf(env: Env, src: seq<Keyed<Event>>, v: Visit, s: StoreState): seq<Event>
    requires v.cfg.chunk >= 1 && v.tip < U64_MAX
  {
    var p := Subscription(env, src, v, s);
    if p.None? then [] else p.value.out
  }

  lemma EmptyShape(src: seq<Keyed<Event>>, a: nat)
    requires a <= |src|
    ensures Shaped(src, Shape(a, a, a, 0), [])
  {
  }

  lemma QuietShape(src: seq<Keyed<Event>>, a: nat, t: nat)
    requires a <= t <= |src|
    ensures Shaped(src, Shape(a, t, a, 0), Values(src[a..t]))
  {
    assert Values(src[a..t]) + Values(Rest(src, a, 0)) == Values(src[a..t]);
  }

  lemma LiveStartsAt(src: seq<Keyed<Event>>, from: nat, n: nat, lo: nat)
    requires Ordered(src) && 0 < n && Count(src, from) + n <= |src|
    ensures PositionOf(LiveFrom(src, from, n)[0]).key == src[Count(src, from)].key
    ensures lo <= src[Count(src, from)].key ==> Count(src, lo) <= Count(src, from)
  {
    CountSplits(src, lo);
  }

  /** Stretches `b .. e` of the source, each starting within what the earlier ones have reached. */
  predicate Seamless(stretches: seq<(nat, nat)>, from: nat, reach: nat) {
    if stretches == [] then reach == from else
      var (b, e) := stretches[|stretches| - 1];
      exists r: nat | r <= reach :: Seamless(stretches[..|stretches| - 1], from, r) && b <= r && reach == Max(r, e)
  }

  function Said(src: seq<Keyed<Event>>, stretches: seq<(nat, nat)>): seq<Event>
    requires forall st | st in stretches :: st.1 <= |src|
  {
    if stretches == [] then [] else
      Said(src, stretches[..|stretches| - 1])
      + Values(Rest(src, stretches[|stretches| - 1].0, stretches[|stretches| - 1].1))
  }

  /** Seamless stretches leave nothing out. */
  lemma {:induction false} SeamlessCovers(stretches: seq<(nat, nat)>, from: nat, reach: nat, i: nat)
    requires Seamless(stretches, from, reach) && from <= i < reach
    ensures exists st :: st in stretches && st.0 <= i < st.1
  {
    if stretches != [] {
      var front, last := stretches[..|stretches| - 1], stretches[|stretches| - 1];
      var r: nat :| r <= reach && Seamless(front, from, r) && last.0 <= r && reach == Max(r, last.1);
      if i < r {
        SeamlessCovers(front, from, r, i);
        var st :| st in front && st.0 <= i < st.1;
        assert st in stretches;
      } else {
        assert last in stretches;
      }
    }
  }

  lemma SeamlessPush(stretches: seq<(nat, nat)>, from: nat, reach: nat, b: nat, e: nat)
    requires Seamless(stretches, from, reach) && b <= reach
    ensures Seamless(stretches + [(b, e)], from, Max(reach, e))
  {
    var longer := stretches + [(b, e)];
    assert longer[..|longer| - 1] == stretches && longer[|longer| - 1] == (b, e);
    assert Seamless(longer[..|longer| - 1], from, reach) && reach <= Max(reach, e);
  }

  lemma SaidPush(src: seq<Keyed<Event>>, stretches: seq<(nat, nat)>, b: nat, e: nat)
    requires e <= |src| && forall st | st in stretches :: st.1 <= |src|
    ensures Said(src, stretches + [(b, e)]) == Said(src, stretches) + Values(Rest(src, b, e))
  {
    assert (stretches + [(b, e)])[..|stretches|] == stretches;
  }

  /** All a process delivers after its replay. */
  function Outs(env: Env, src: seq<Keyed<Event>>, visits: seq<Visit>, s: StoreState): seq<Event>
    requires forall i | 0 <= i < |visits| :: visits[i].cfg.chunk >= 1 && visits[i].tip < U64_MAX
  {
    if visits == [] then [] else
      var front := visits[..|visits| - 1];
      Outs(env, src, front, s) + OutOf(env, src, visits[|visits| - 1], Archive(env, src, front, s))
  }

  /** Main theorem: a process that starts over any gap-free archive and subscribes any number of times - ended
      streams, failed writes, failed chunks and halts included - delivers stretches of the source that leave nothing
      out from the start block through everything delivered, which includes everything stored. */
  lemma {:induction false} ProcessDelivers(env: Env, decode: Row -> Option<Event>, src: seq<Keyed<Event>>, start: nat,
                                           s: StoreState, visits: seq<Visit>)
    returns (stretches: seq<(nat, nat)>, reach: nat)
    requires env.policy.Halt? && env.depth >= 1 && RoundTrips(env, decode) && Ordered(src)
    requires (forall e | e in src :: e.key < U64_MAX) && GapFree(env, src, start, s)
    requires forall i | 0 <= i < |visits| ::
      visits[i].cfg.chunk >= 1 && visits[i].tip < U64_MAX && Peaceful(src, start, visits[i])
    ensures (forall st | st in stretches :: st.1 <= |src|) && Seamless(stretches, Count(src, start), reach)
    ensures Replay(decode, s, s.position).Some?
    ensures Replay(decode, s, s.position).value + Outs(env, src, visits, s) == Said(src, stretches)
    ensures GapFree(env, src, start, Archive(env, src, visits, s))
    ensures Count(src, ResumeAfter(Archive(env, src, visits, s).position, start)) <= reach
  {
    if visits == [] {
      hide GapFree, Ordered, Count, Replay;
      stretches, reach := ReplayStretch(env, decode, src, start, s);
    } else {
      var front, v := visits[..|visits| - 1], visits[|visits| - 1];
      forall i | 0 <= i < |front| ensures front[i] == visits[i] {}
      stretches, reach := ProcessDelivers(env, decode, src, start, s, front);
      ArchiveNext(env, src, visits, s);
      hide *;
      var sh := VisitShape(env, src, start, v, Archive(env, src, front, s));
      VisitGapFree(env, src, start, v, Archive(env, src, front, s));
      stretches, reach := AddShape(src, stretches, Count(src, start), reach, sh,
                                   OutOf(env, src, v, Archive(env, src, front, s)),
                                   Replay(decode, s, s.position).value + Outs(env, src, front, s));
      Regroup(Replay(decode, s, s.position).value, Outs(env, src, front, s),
              OutOf(env, src, v, Archive(env, src, front, s)));
    }
  }

  lemma Regroup<T>(a: seq<T>, b: seq<T>, c: seq<T>)
    ensures (a + b) + c == a + (b + c)
  {
  }

  lemma ArchiveNext(env: Env, src: seq<Keyed<Event>>, visits: seq<Visit>, s: StoreState)
    requires visits != [] && forall i | 0 <= i < |visits| :: visits[i].cfg.chunk >= 1 && visits[i].tip < U64_MAX
    ensures var front, v := visits[..|visits| - 1], visits[|visits| - 1];
      && Archive(env, src, visits, s) == After(env, src, v, Archive(env, src, front, s))
      && Outs(env, src, visits, s) == Outs(env, src, front, s) + OutOf(env, src, v, Archive(env, src, front, s))
  {
  }

  lemma ReplayStretch(env: Env, decode: Row -> Option<Event>, src: seq<Keyed<Event>>, start: nat, s: StoreState)
    returns (stretches: seq<(nat, nat)>, reach: nat)
    requires RoundTrips(env, decode) && Ordered(src) && GapFree(env, src, start, s)
    ensures (forall st | st in stretches :: st.1 <= |src|) && Seamless(stretches, Count(src, start), reach)
    ensures Replay(decode, s, s.position).Some?
    ensures Replay(decode, s, s.position).value + [] == Said(src, stretches)
    ensures Count(src, ResumeAfter(s.position, start)) <= reach
  {
    hide GapFree, Ordered, Count, Replay, Values, Range;
    var lo := ResumeAfter(s.position, start);
    ReplayIsSource(env, decode, src, start, s);
    StartBefore(src, start, s.position);
    ReplayMeetsBackfill(src, start, s.position, lo);
    SliceEmpty(src, lo);
    ValuesNone();
    var replay := Replay(decode, s, s.position).value;
    assert replay + [] == replay;
    stretches, reach := [(Count(src, start), Count(src, lo))], Count(src, lo);
    SeamlessPush([], Count(src, start), Count(src, start), Count(src, start), Count(src, lo));
    SaidPush(src, [], Count(src, start), Count(src, lo));
    assert [] + stretches == stretches;
    RestOrNone(src, Count(src, start), Count(src, lo));
    assert [] + Values(src[Count(src, start)..Count(src, lo)]) == Values(src[Count(src, start)..Count(src, lo)]);
  }

  lemma RestOrNone(src: seq<Keyed<Event>>, a: nat, t: nat)
    requires a <= t <= |src|
    ensures Rest(src, a, t) == src[a..t]
  {
  }

  lemma AddShape(src: seq<Keyed<Event>>, stretches: seq<(nat, nat)>, from: nat, reach: nat, sh: Shape, out: seq<Event>,
                 said: seq<Event>)
    returns (stretches': seq<(nat, nat)>, reach': nat)
    requires (forall st | st in stretches :: st.1 <= |src|) && Seamless(stretches, from, reach)
    requires Shaped(src, sh, out) && sh.a <= reach && said == Said(src, stretches)
    ensures (forall st | st in stretches' :: st.1 <= |src|) && Seamless(stretches', from, reach')
    ensures said + out == Said(src, stretches') && Reach(sh) <= reach'
  {
    hide Values, Said, Seamless;
    SeamlessPush(stretches, from, reach, sh.a, sh.t);
    SaidPush(src, stretches, sh.a, sh.t);
    RestOrNone(src, sh.a, sh.t);
    var once := stretches + [(sh.a, sh.t)];
    SeamlessPush(once, from, Max(reach, sh.t), sh.h, sh.x);
    SaidPush(src, once, sh.h, sh.x);
    stretches', reach' := once + [(sh.h, sh.x)], Max(Max(reach, sh.t), sh.x);
    Regroup(said, Values(src[sh.a..sh.t]), Values(Rest(src, sh.h, sh.x)));
  }
}
