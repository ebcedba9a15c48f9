/** Blocks with reorgs: as long as what is buried `depth` deep stays, any history of subscriptions stores the final
    chain. */
module Reorgs {
  import opened Base
  import opened Positions
  import opened Store
  import opened Streams
  import opened WindowSpec
  import opened Chain
  import opened Pipeline
  import opened Canonical
  import opened Backfill
  import opened Session
  import opened Source
  import opened Subscribe
  import opened Durable
  import opened Archives
  import opened Guarantees
  import Slices

  /** One subscription to a source that may reorg: `now` is what its range queries see. */
  datatype Reorged = Reorged(visit: Visit, now: seq<Keyed<Event>>)

  /** The unsettled part of a complete backfill. */
  function TailOf(now: seq<Keyed<Event>>, g: Gap, lo: nat): seq<Keyed<Event>>
    requires Count(now, TailFrom(g, lo)) <= Count(now, Max(lo, g.tip + 1))
  {
    now[Count(now, TailFrom(g, lo))..Count(now, Max(lo, g.tip + 1))]
  }

  /** Finality: at every moment, each position buried `depth` deep under the highest one seen (the tip included)
      carries its final events in the chain announced so far. */
  ghost predicate FinalWhenBuried(depth: nat, src: seq<Keyed<Event>>, g: Gap, lo: nat, tail: seq<Keyed<Event>>,
                                  live: seq<Indexed>) {
    forall n: nat, k: nat | n <= |live| && TailFrom(g, lo) <= k && k + depth <= Peak(g.tip, live[..n]) ::
      At(ChainRun(SeedChain(tail), live[..n]).events, k) == At(src, k)
  }

  /** Settled positions are final in the snapshot the backfill reads. */
  ghost predicate FinalWhenSettled(src: seq<Keyed<Event>>, now: seq<Keyed<Event>>, cut: Option<nat>) {
    forall k: nat | Settles(cut, k) :: At(now, k) == At(src, k)
  }

  /** Live blocks, none announced below the start block. */
  ghost predicate LiveAbove(live: seq<Indexed>, start: nat) {
    LiveBlocks(live) && forall i | i in live :: PositionOf(i).key < U64_MAX && (i.Emit? ==> start <= PositionOf(i).key)
  }

  lemma StoredRangeTransfers(env: Env, a: seq<Keyed<Event>>, b: seq<Keyed<Event>>, log: seq<Group>, lo: nat, hi: nat)
    requires StoredRange(env, a, log, lo, hi) && forall k: nat | lo <= k <= hi :: At(a, k) == At(b, k)
    ensures StoredRange(env, b, log, lo, hi)
  {
    hide At, LogAt, Rows;
    forall k: nat ensures if lo <= k <= hi then HoldsAt(env, log, b, k) else LogAt(log, k) == [] {
      assert if lo <= k <= hi then HoldsAt(env, log, a, k) else LogAt(log, k) == [];
    }
  }

  /** Settled writes extend the archive by final positions only. */
  lemma SettledIsFinal(env: Env, src: seq<Keyed<Event>>, now: seq<Keyed<Event>>, start: nat, g: Gap, s: StoreState,
                       s': StoreState, more: seq<Group>, hi: nat)
    requires GapFree(env, src, start, s) && g.seed == s.position && Synced(s') && s'.log == s.log + more
    requires FinalWhenSettled(src, now, g.cut) && Settles(g.cut, hi)
    requires Continues(more, KeyOf(g.seed), hi) && StoredRange(env, now, more, ResumeAfter(g.seed, start), hi)
    ensures GapFree(env, src, start, s')
  {
    hide GapFree, Continues, StoredRange;
    StoredRangeTransfers(env, now, src, more, ResumeAfter(g.seed, start), hi);
    ExtendArchive(env, src, start, s, s', more, hi);
  }

  /** A crash anywhere in the backfill. */
  lemma CrashStaysFinal(env: Env, src: seq<Keyed<Event>>, now: seq<Keyed<Event>>, start: nat, g: Gap, s: StoreState,
                        y: nat, n: nat)
    requires Ordered(now) && Sound(env, g) && GapFree(env, src, start, s) && g.seed == s.position
        && FinalWhenSettled(src, now, g.cut)
    requires var lo := ResumeAfter(g.seed, start);
      lo <= y <= Max(lo, g.tip + 1) && Count(now, lo) <= Count(now, y) && n <= Count(now, y) - Count(now, lo)
    ensures GapFree(env, src, start,
      BackfillRun(env, g.cut, Open(g.cut, g.seed, s), AsBlocks(Slice(now, ResumeAfter(g.seed, start), y))[..n]).store)
  {
    assert Synced(s);
    hide GapFree, Increasing, StoredRange, StoredUpTo, Part, AsBlocks, Count, BackfillRun, Unripe, TailTracks,
        OpenGroup, Continues, Synced, FinalWhenSettled, Ordered, InGap, SettledTracks;
    var lo, i := ResumeAfter(g.seed, start), Count(now, ResumeAfter(g.seed, start));
    var items := AsBlocks(Slice(now, lo, y));
    AsBlocksPrefix(now, i, Count(now, y), n);
    AsBlocksLength(Slice(now, lo, y));
    SliceInGap(now, g.seed, start, g.tip, y);
    InGapPrefix(items, n, KeyOf(g.seed), g.tip);
    var mine, es, tail := BackfillKeepsChain(env, g, s, items[..n]);
    var p := BackfillRun(env, g.cut, Open(g.cut, g.seed, s), items[..n]);
    TakenIsSlice(now, g.cut, i, n, p.settled.core.healthy, es);
    BackfillSynced(env, g.cut, Open(g.cut, g.seed, s), items[..n]);
    UnfinishedIsFinal(env, src, now, start, g, s, p, mine, es, lo);
  }

  lemma TakenIsSlice(now: seq<Keyed<Event>>, cut: Option<nat>, i: nat, n: nat, healthy: bool, es: seq<Keyed<Event>>)
    requires Ordered(now) && i + n <= |now| && Taken(healthy, es, Part(cut, AsBlocks(now[i..i + n]), true))
    ensures i + |es| <= |now| && es == now[i..i + |es|]
  {
    hide Part, AsBlocks, Ordered, Count;
    PartOfSlice(now, cut, i, i + n);
    CutIndexBounds(now, cut, i, i + n);
  }

  lemma UnfinishedIsFinal(env: Env, src: seq<Keyed<Event>>, now: seq<Keyed<Event>>, start: nat, g: Gap, s: StoreState,
                          p: Pipe,
                          mine: seq<Group>, es: seq<Keyed<Event>>, lo: nat)
    requires Ordered(now) && GapFree(env, src, start, s) && g.seed == s.position && FinalWhenSettled(src, now, g.cut)
        && Synced(p.store)
    requires lo == ResumeAfter(g.seed, start) && Count(now, lo) + |es| <= |now|
        && es == now[Count(now, lo)..Count(now, lo) + |es|]
    requires p.store.log == s.log + mine && SettledTracks(env, p.settled, mine, es, KeyOf(g.seed), g.cut)
    ensures GapFree(env, src, start, p.store)
  {
    hide GapFree, StoredRange, StoredUpTo, Count, OpenGroup, Continues, Synced, FinalWhenSettled, Ordered;
    assert es != [] ==> es[|es| - 1] == now[Count(now, lo) + |es| - 1];
    CutShortRange(env, now, mine, |es|, KeyOf(g.seed), KeyOf(p.settled.watermark), lo);
    if mine == [] {
      NothingAdded(env, src, start, s, p.store);
    } else {
      WroteSomething(env, mine, es, KeyOf(g.seed), KeyOf(p.settled.watermark));
      SettledIsFinal(env, src, now, start, g, s, p.store, mine, p.settled.watermark.value.key);
    }
  }

  lemma WroteSomething(env: Env, log: seq<Group>, es: seq<Keyed<Event>>, low: Option<nat>, upTo: Option<nat>)
    requires StoredUpTo(env, log, es, low, upTo) && log != []
    ensures upTo.Some? && upTo != low
  {
    assert log[0] in log;
  }

  /** A session whose window wrote nothing. */
  lemma QuietStaysFinal(env: Env, src: seq<Keyed<Event>>, now: seq<Keyed<Event>>, start: nat, g: Gap, s: StoreState,
                        y: nat,
                        q: Pipe, settled: seq<Group>, es: seq<Keyed<Event>>)
    requires Ordered(now) && GapFree(env, src, start, s) && g.seed == s.position && Synced(q.store)
        && FinalWhenSettled(src, now, g.cut)
    requires Count(now, ResumeAfter(g.seed, start)) <= Count(now, y)
    requires q.store.log == s.log + settled && Finished(env, g, q.settled, settled, es)
    requires Taken(q.settled.core.healthy, es, Part(g.cut, AsBlocks(Slice(now, ResumeAfter(g.seed, start), y)), true))
    ensures GapFree(env, src, start, q.store)
  {
    hide GapFree, StoredUpTo, Part, AsBlocks, Count, Continues, StoredRange, Ordered;
    var lo := ResumeAfter(g.seed, start);
    PartOfSlice(now, g.cut, Count(now, lo), Count(now, y));
    SettledOnly(env, now, g, q.settled, settled, es, lo, y);
    if settled == [] {
      NothingAdded(env, src, start, s, q.store);
    } else {
      WroteSomething(env, settled, es, KeyOf(g.seed), KeyOf(q.settled.watermark));
      SettledIsFinal(env, src, now, start, g, s, q.store, settled, q.settled.watermark.value.key);
    }
  }

  lemma {:induction false} ChainStaysAbove(c: Chain, items: seq<Indexed>, start: nat)
    requires forall e | e in c.events :: start <= e.key
    requires forall i | i in items :: i.Emit? ==> start <= PositionOf(i).key
    ensures forall e | e in ChainRun(c, items).events :: start <= e.key
  {
    if items != [] {
      var front, last := items[..|items| - 1], items[|items| - 1];
      assert last in items;
      ChainStaysAbove(c, front, start);
      BelowKeeps(ChainRun(c, front).events, PositionOf(last).key);
    }
  }

  /** Whatever happens live, the watermark trails the highest key ever seen by the depth. */
  lemma {:induction false} RunTrails(env: Env, p: Pipe, items: seq<Indexed>, peak: nat)
    requires env.policy.Halt? && peak < U64_MAX && (p.window.head.Some? ==> p.window.head.value <= peak)
    requires forall i | i in items :: PositionOf(i).key < U64_MAX
    ensures Trails(env.depth, LiveRun(env, p, items).window, p.window.flushed, Peak(peak, items))
        && Peak(peak, items) < U64_MAX
  {
    if items != [] {
      var front, last := items[..|items| - 1], items[|items| - 1];
      assert last in items;
      RunTrails(env, p, front, peak);
      assert Peak(Peak(peak, front), [last]) == Peak(peak, items) by { assert [last][..0] == []; }
      LiveStepTrails(env, LiveRun(env, p, front), last, p.window.flushed, Peak(peak, front));
    }
  }

  /** What the window wrote is final, position by position. */
  lemma TailedIsFinal(env: Env, src: seq<Keyed<Event>>, start: nat, g: Gap, tailed: seq<Group>, c: Chain,
                      upTo: Option<nat>, peak: nat)
    requires var lo := ResumeAfter(g.seed, start);
      forall k: nat | TailFrom(g, lo) <= k && k + env.depth <= peak :: At(c.events, k) == At(src, k)
    requires StoredUpTo(env, tailed, c.events, Floor(g), upTo) && tailed != []
    requires forall e | e in c.events :: start <= e.key
    requires upTo == Floor(g) || (upTo.Some? && upTo.value + env.depth <= peak)
    ensures upTo.Some? && StoredRange(env, src, tailed, TailFrom(g, ResumeAfter(g.seed, start)), upTo.value)
    ensures Continues(tailed, Floor(g), upTo.value)
  {
    hide At, LogAt, Rows;
    WroteSomething(env, tailed, c.events, Floor(g), upTo);
    var lo := ResumeAfter(g.seed, start);
    forall k: nat ensures if TailFrom(g, lo) <= k <= upTo.value then HoldsAt(env, tailed, src, k)
        else LogAt(tailed, k) == [] {
      assert if Above(upTo, k) then LogAt(tailed, k) == [] else HoldsAt(env, tailed, c.events, k);
      if !Above(Floor(g), k) {
        LogAtAbsent(tailed, k);
      } else if k < TailFrom(g, lo) {
        assert k < start;
        AtAbsent(c.events, k);
        NoRows(env);
      }
    }
  }

  lemma NoRows(env: Env)
    ensures Rows(env, []) == []
  {
  }

  /** Settled part and window part of one session, joined. */
  lemma JoinedIsFinal(env: Env, src: seq<Keyed<Event>>, now: seq<Keyed<Event>>, start: nat, g: Gap, s: StoreState,
                      s': StoreState,
                      settled: seq<Group>, tailed: seq<Group>, upTo: nat)
    requires GapFree(env, src, start, s) && g.seed == s.position && Synced(s') && s'.log == s.log + settled + tailed
        && tailed != []
    requires FinalWhenSettled(src, now, g.cut)
    requires var lo := ResumeAfter(g.seed, start);
      && StoredRange(env, src, tailed, TailFrom(g, lo), upTo) && Continues(tailed, Floor(g), upTo)
      && match Floor(g)
         case None => settled == []
         case Some(f) => StoredRange(env, now, settled, lo, f) && Continues(settled, KeyOf(g.seed), f)
    ensures GapFree(env, src, start, s')
  {
    hide GapFree, StoredRange, At;
    var lo := ResumeAfter(g.seed, start);
    assert tailed[0] in tailed;
    match Floor(g) {
      case None =>
        assert s.log + settled + tailed == s.log + tailed;
        ExtendArchive(env, src, start, s, s', tailed, upTo);
      case Some(f) =>
        StoredRangeTransfers(env, now, src, settled, lo, f);
        StoredRangeJoin(env, src, settled, tailed, lo, f, upTo);
        IncreasingConcat(settled, tailed);
        assert s.log + settled + tailed == s.log + (settled + tailed);
        ExtendArchive(env, src, start, s, s', settled + tailed, upTo);
    }
  }

  /** A whole session, with any live reorgs. */
  lemma SessionStaysFinal(env: Env, src: seq<Keyed<Event>>, now: seq<Keyed<Event>>, start: nat, g: Gap, s: StoreState,
                          y: nat, live: seq<Indexed>)
    requires Ordered(now) && env.depth >= 1 && Sound(env, g) && (g.cut.Some? ==> g.cut.value <= g.tip)
        && g.tip < U64_MAX
    requires GapFree(env, src, start, s) && g.seed == s.position && FinalWhenSettled(src, now, g.cut)
        && LiveAbove(live, start)
    requires var lo := ResumeAfter(g.seed, start);
      && lo <= y <= Max(lo, g.tip + 1) && Count(now, lo) <= Count(now, y)
      && (live == [] || (y == Max(lo, g.tip + 1) && Count(now, TailFrom(g, lo)) <= Count(now, y)
                         && FinalWhenBuried(env.depth, src, g, lo, TailOf(now, g, lo), live)))
    ensures GapFree(env, src, start, Run(env, g, s, AsBlocks(Slice(now, ResumeAfter(g.seed, start), y)), live).store)
  {
    assert Synced(s);
    hide GapFree, StoredRange, Finished, StoredUpTo, Part, AsBlocks, Count, LiveRun, ChainRun, Joined, Unripe, Buffers,
        Synced, FinalWhenSettled, Ordered, FinalWhenBuried, InGap, TailFrom;
    var lo := ResumeAfter(g.seed, start);
    var items := AsBlocks(Slice(now, lo, y));
    SliceInGap(now, g.seed, start, g.tip, y);
    var settled, tailed, es, tail, n := SessionKeepsChain(env, g, s, items, live);
    var q := Run(env, g, s, items, live);
    RunSynced(env, g, s, items, live);
    if tailed == [] {
      assert s.log + settled + tailed == s.log + settled;
      QuietStaysFinal(env, src, now, start, g, s, y, q, settled, es);
    } else {
      CompleteParts(now, g, lo);
      BusyIsFinal(env, src, now, start, g, s, Joined(env, g, s, items), q, settled, tailed, live, n);
    }
  }

  lemma BusyIsFinal(env: Env, src: seq<Keyed<Event>>, now: seq<Keyed<Event>>, start: nat, g: Gap, s: StoreState,
                    p: Pipe, q: Pipe,
                    settled: seq<Group>, tailed: seq<Group>, live: seq<Indexed>, n: nat)
    requires Ordered(now) && env.policy.Halt? && g.tip < U64_MAX && LiveAbove(live, start) && n <= |live|
        && tailed != []
    requires GapFree(env, src, start, s) && g.seed == s.position && FinalWhenSettled(src, now, g.cut)
    requires Synced(q.store) && q.store.log == s.log + settled + tailed && q.settled.core.healthy
    requires var lo := ResumeAfter(g.seed, start);
      && Count(now, lo) <= Count(now, TailFrom(g, lo)) <= Count(now, Max(lo, g.tip + 1))
      && var tail := TailOf(now, g, lo);
      && Finished(env, g, q.settled, settled, now[Count(now, lo)..Count(now, TailFrom(g, lo))])
      && FinalWhenBuried(env.depth, src, g, lo, tail, live)
      && Buffers(env, SeedChain(tail), p.window) && p.window.flushed == Floor(g)
      && StoredUpTo(env, tailed, ChainRun(SeedChain(tail), live[..n]).events, Floor(g), q.window.flushed)
    requires q.window.flushed == LiveRun(env, p, live[..n]).window.flushed
    ensures GapFree(env, src, start, q.store)
  {
    hide GapFree, StoredRange, Finished, StoredUpTo, Count, LiveRun, ChainRun, Buffers, Synced, FinalWhenSettled,
        FinalWhenBuried, Ordered, Continues, TailFrom;
    FinishedRange(env, now, g, q.settled, settled, ResumeAfter(g.seed, start));
    BusyTail(env, src, now, start, g, p, tailed, live, n, q.window.flushed);
    JoinedIsFinal(env, src, now, start, g, s, q.store, settled, tailed, q.window.flushed.value);
  }

  lemma BusyTail(env: Env, src: seq<Keyed<Event>>, now: seq<Keyed<Event>>, start: nat, g: Gap, p: Pipe,
                 tailed: seq<Group>,
                 live: seq<Indexed>, n: nat, upTo: Option<nat>)
    requires Ordered(now) && env.policy.Halt? && g.tip < U64_MAX && LiveAbove(live, start) && n <= |live|
        && tailed != []
    requires var lo := ResumeAfter(g.seed, start);
      && Count(now, TailFrom(g, lo)) <= Count(now, Max(lo, g.tip + 1))
      && var tail := TailOf(now, g, lo);
      && FinalWhenBuried(env.depth, src, g, lo, tail, live)
      && Buffers(env, SeedChain(tail), p.window) && p.window.flushed == Floor(g)
      && StoredUpTo(env, tailed, ChainRun(SeedChain(tail), live[..n]).events, Floor(g), upTo)
    requires upTo == LiveRun(env, p, live[..n]).window.flushed
    ensures upTo.Some? && StoredRange(env, src, tailed, TailFrom(g, ResumeAfter(g.seed, start)), upTo.value)
    ensures Continues(tailed, Floor(g), upTo.value)
  {
    hide StoredRange, StoredUpTo, Continues, ChainRun, LiveRun, Count, TailFrom, At;
    var lo := ResumeAfter(g.seed, start);
    var tail := TailOf(now, g, lo);
    TailBounds(now, g, lo, start);
    forall i | i in live[..n] ensures i in live {}
    RunTrails(env, p, live[..n], g.tip);
    ChainStaysAbove(SeedChain(tail), live[..n], start);
    TailedIsFinal(env, src, start, g, tailed, ChainRun(SeedChain(tail), live[..n]), upTo, Peak(g.tip, live[..n]));
  }

  lemma TailBounds(now: seq<Keyed<Event>>, g: Gap, lo: nat, start: nat)
    requires Ordered(now) && start <= lo && Count(now, TailFrom(g, lo)) <= Count(now, Max(lo, g.tip + 1))
    ensures forall e | e in TailOf(now, g, lo) :: start <= e.key <= g.tip
  {
    CountSplits(now, TailFrom(g, lo));
    CountSplits(now, Max(lo, g.tip + 1));
  }

  /** What the world owes one subscription: settled positions are final in what it reads, and live announcements
      leave alone what is buried `depth` deep. */
  ghost predicate Shallow(env: Env, src: seq<Keyed<Event>>, start: nat, r: Reorged, last: Option<Position>) {
    var v, now := r.visit, r.now;
    && v.cfg.chunk >= 1 && v.tip < U64_MAX && v.cfg.startBlock == start && Ordered(now)
    && var g, lo := GapOf(env, v.cfg, v.tip, last), ResumeAfter(last, start);
    && FinalWhenSettled(src, now, g.cut)
    && (v.stop.InLive? && v.cfg.toBlock.None? ==>
          && LiveAbove(v.stop.live, start) && Count(now, TailFrom(g, lo)) <= Count(now, Max(lo, g.tip + 1))
          && FinalWhenBuried(env.depth, src, g, lo, TailOf(now, g, lo), v.stop.live))
  }

  /** One subscription, however it ends and whatever it reorgs above the depth, keeps the archive on the final chain. */
  lemma VisitStaysFinal(env: Env, src: seq<Keyed<Event>>, start: nat, r: Reorged, s: StoreState)
    requires env.policy.Halt? && env.depth >= 1 && GapFree(env, src, start, s)
        && Shallow(env, src, start, r, s.position)
    ensures GapFree(env, src, start, After(env, r.now, r.visit, s))
  {
    hide GapFree, Count, LiveRun, BackfillRun, Joined, Unripe, Slice, Backfilled, Run, Ordered, FinalWhenSettled,
        FinalWhenBuried, LiveAbove, TailFrom, AsBlocks;
    var v, now := r.visit, r.now;
    var lo, y := ResumeAfter(s.position, start), CoveredTo(env, now, v, s.position);
    var g, b := GapOf(env, v.cfg, v.tip, s.position), Backfilled(env, now, v, s.position);
    BackfilledIsSlice(env, now, v, s.position);
    CutIsUnripe(env, v.cfg, v.tip);
    PositionIsBlock(env, src, start, s);
    NoLiveAbove(start);
    match v.stop
    case InBackfill(n) =>
      SliceLength(now, lo, y);
      CrashStaysFinal(env, src, now, start, g, s, y, Min(n, |b.items|));
      AsBlocksLength(b.items);
    case InLive(live) =>
      SessionStaysFinal(env, src, now, start, g, s, y, if b.failed.Some? || v.cfg.toBlock.Some? then [] else live);
  }

  lemma NoLiveAbove(start: nat)
    ensures LiveAbove([], start)
  {
  }

  /** The store after a history of subscriptions, each reading its own snapshot. */
  function Stored(env: Env, visits: seq<Reorged>, s: StoreState): StoreState
    requires forall i | 0 <= i < |visits| :: visits[i].visit.cfg.chunk >= 1 && visits[i].visit.tip < U64_MAX
  {
    if visits == [] then s
    else After(env, visits[|visits| - 1].now, visits[|visits| - 1].visit, Stored(env, visits[..|visits| - 1], s))
  }

  /** Main theorem: through any history of subscriptions, crashes, failed writes, failed chunks and reorgs that
      respect the depth, the store never holds an orphaned row: it is a gap-free prefix of the final chain. */
  lemma {:induction false} ArchiveStaysFinal(env: Env, src: seq<Keyed<Event>>, start: nat, visits: seq<Reorged>)
    requires env.policy.Halt? && env.depth >= 1
    requires forall i | 0 <= i < |visits| :: visits[i].visit.cfg.chunk >= 1 && visits[i].visit.tip < U64_MAX
    requires forall i | 0 <= i < |visits| ::
      Shallow(env, src, start, visits[i], Stored(env, visits[..i], StoreState([], None, 0)).position)
    ensures GapFree(env, src, start, Stored(env, visits, StoreState([], None, 0)))
  {
    if visits != [] {
      var front := visits[..|visits| - 1];
      forall i | 0 <= i < |front| ensures visits[i] == front[i] && visits[..i] == front[..i] {}
      ArchiveStaysFinal(env, src, start, front);
      assert Shallow(env, src, start, visits[|front|],
          Stored(env, visits[..|front|], StoreState([], None, 0)).position);
      VisitStaysFinal(env, src, start, visits[|front|], Stored(env, front, StoreState([], None, 0)));
    }
  }

  /** Such reorgs exist: at tip 6 with depth 2, block 6 is withdrawn, replaced, and followed by block 7. */
  lemma OneBlockReorgIsShallow(env: Env, a: Event, orphan: Event, canonical: Event, next: Event,
                               answer: Slices.Provider)
    requires env.depth == 2
    ensures var live := [Retraction(FromSortKey(6)), Emit(Positioned(FromSortKey(6), canonical)),
        Emit(Positioned(FromSortKey(7), next))];
      var visit := Visit(Config(0, 1000, None), 6, answer, InLive(live));
      Shallow(env, [Keyed(5, a), Keyed(6, canonical), Keyed(7, next)], 0,
          Reorged(visit, [Keyed(5, a), Keyed(6, orphan)]), None)
  {
    var live := [Retraction(FromSortKey(6)), Emit(Positioned(FromSortKey(6), canonical)),
        Emit(Positioned(FromSortKey(7), next))];
    var src, now := [Keyed(5, a), Keyed(6, canonical), Keyed(7, next)], [Keyed(5, a), Keyed(6, orphan)];
    var visit := Visit(Config(0, 1000, None), 6, answer, InLive(live));
    var g := GapOf(env, visit.cfg, visit.tip, None);
    forall k: nat | k <= 4 ensures At(now, k) == At(src, k) {
      AtAbsent(now, k);
      AtAbsent(src, k);
    }
    CountMonotone(now, TailFrom(g, 0), 7);
    CountSplits(now, 5);
    CountSplits(now, 7);
    assert now[0].key == 5 && now[1].key == 6;
    assert TailOf(now, g, 0) == now;
    forall n: nat, k: nat | n <= 3 && 5 <= k && k + 2 <= Peak(6, live[..n])
      ensures At(ChainRun(SeedChain(now), live[..n]).events, k) == At(src, k)
    {
      ReorgPeaks(live, n);
      assert n == 3 && k == 5 && live[..3] == live && now == [Keyed(5, a)] + [Keyed(6, orphan)];
      ReorgChain(a, orphan, canonical, next);
    }
  }

  lemma ReorgPeaks(live: seq<Indexed>, n: nat)
    requires n <= 3 && |live| == 3 && live[0].Retraction?
    requires live[1].Emit? && live[1].item.position.key == 6 && live[2].Emit? && live[2].item.position.key == 7
    ensures Peak(6, live[..n]) == if n == 3 then 7 else 6
  {
    if n > 0 {
      ReorgPeaks(live, n - 1);
      assert live[..n][..n - 1] == live[..n - 1];
    }
  }

  lemma ReorgChain(a: Event, orphan: Event, canonical: Event, next: Event)
    ensures var live := [Retraction(FromSortKey(6)), Emit(Positioned(FromSortKey(6), canonical)),
        Emit(Positioned(FromSortKey(7), next))];
      ChainRun(SeedChain([Keyed(5, a)] + [Keyed(6, orphan)]), live).events
          == [Keyed(5, a), Keyed(6, canonical), Keyed(7, next)]
  {
    var r, e, f := Retraction(FromSortKey(6)), Emit(Positioned(FromSortKey(6), canonical)),
        Emit(Positioned(FromSortKey(7), next));
    hide ChainRun, Below;
    var five, seeds := [Keyed(5, a)], SeedChain([Keyed(5, a)] + [Keyed(6, orphan)]);
    ThreeSteps(seeds, r, e, f);
    BelowSix(a, orphan);
    assert ChainStep(seeds, r) == Chain(five, Some(5), Some(6));
    var c := Chain(five + [Keyed(6, canonical)], Some(6), Some(6));
    assert ChainStep(Chain(five, Some(5), Some(6)), e) == c;
    assert ChainStep(c, f) == Chain(c.events + [Keyed(7, next)], Some(7), Some(6));
    assert five + [Keyed(6, canonical)] + [Keyed(7, next)] == [Keyed(5, a), Keyed(6, canonical), Keyed(7, next)];
  }

  lemma ThreeSteps(c: Chain, x: Indexed, y: Indexed, z: Indexed)
    ensures ChainRun(c, [x, y, z]) == ChainStep(ChainStep(ChainStep(c, x), y), z)
  {
    ChainStart(c);
    hide ChainRun, ChainStep;
    ChainRunPush(c, [], x);
    ChainRunPush(c, [x], y);
    ChainRunPush(c, [x, y], z);
    assert [] + [x] == [x] && [x] + [y] == [x, y] && [x, y] + [z] == [x, y, z];
  }

  lemma ChainStart(c: Chain)
    ensures ChainRun(c, []) == c
  {
  }

  lemma BelowSix(a: Event, orphan: Event)
    ensures Below([Keyed(5, a)] + [Keyed(6, orphan)], 6) == [Keyed(5, a)]
  {
    assert ([Keyed(5, a)] + [Keyed(6, orphan)])[..1] == [Keyed(5, a)] && [Keyed(5, a)][..0] == [];
    assert Below<Event>([], 6) == [];
    assert Below([Keyed(5, a)], 6) == [] + [Keyed(5, a)];
  }
}
