/** Bounded subscriptions settle through their bound without waiting for confirmations: exactly when that is safe. */
module BoundedReorgs {
  import opened Base
  import opened Store
  import opened Streams
  import opened Chain
  import opened Pipeline
  import opened Canonical
  import opened Backfill
  import opened Session
  import opened Source
  import opened Subscribe
  import opened Durable
  import opened Archives
  import opened Reorgs
  import opened CatchUp
  import Slices

  /** The snapshot the backfill read encodes, at `k`, to the same rows as the final chain. */
  ghost predicate SameRows(env: Env, now: seq<Keyed<Event>>, src: seq<Keyed<Event>>, k: nat) {
    Rows(env, At(now, k)) == Rows(env, At(src, k)) && Encodable(env, At(src, k))
  }

  /** Groups read from a snapshot continue an archive of the final chain exactly when snapshot and final chain have
      the same rows from the resume point through the new stored position. */
  lemma ExtensionIsFinalExactly(env: Env, src: seq<Keyed<Event>>, now: seq<Keyed<Event>>, start: nat, s: StoreState,
                                s': StoreState, more: seq<Group>, hi: nat)
    requires GapFree(env, src, start, s) && Synced(s') && s'.log == s.log + more
    requires Continues(more, KeyOf(s.position), hi)
    requires more != [] ==> StoredRange(env, now, more, ResumeAfter(s.position, start), hi)
    ensures GapFree(env, src, start, s')
      <==> forall k: nat | ResumeAfter(s.position, start) <= k && !Above(KeyOf(s'.position), k) ::
          SameRows(env, now, src, k)
  {
    hide GapFree, StoredRange, SameRows, Continues;
    if more == [] {
      NothingNew(env, src, start, s, s');
    } else {
      var p := more[|more| - 1].position.key;
      PositionAfter(env, src, start, s, s', more, hi);
      ContinuesToLast(more, KeyOf(s.position), hi);
      RangeToLast(env, now, more, ResumeAfter(s.position, start), hi);
      if GapFree(env, src, start, s') {
        forall k: nat | ResumeAfter(s.position, start) <= k <= p ensures SameRows(env, now, src, k) {
          SameRowsNeeded(env, src, now, start, s, s', more, k);
        }
      }
      if forall k: nat | ResumeAfter(s.position, start) <= k <= p :: SameRows(env, now, src, k) {
        SameRowsSuffice(env, src, now, more, ResumeAfter(s.position, start), p);
        ExtendArchive(env, src, start, s, s', more, p);
      }
    }
  }

  lemma NothingNew(env: Env, src: seq<Keyed<Event>>, start: nat, s: StoreState, s': StoreState)
    requires GapFree(env, src, start, s) && Synced(s') && s'.log == s.log + []
    ensures GapFree(env, src, start, s') && s'.position == s.position
  {
    assert s'.log == s.log;
  }

  lemma PositionAfter(env: Env, src: seq<Keyed<Event>>, start: nat, s: StoreState, s': StoreState, more: seq<Group>,
                      hi: nat)
    requires GapFree(env, src, start, s) && Synced(s') && s'.log == s.log + more && more != []
    requires Continues(more, KeyOf(s.position), hi)
    ensures s'.position == Some(more[|more| - 1].position) && s'.log != [] && s'.log[|s'.log| - 1] == more[|more| - 1]
  {
    hide StoredRange, FoldPositions;
    FoldIsLast(s.log);
    assert more[0] in more;
    IncreasingConcat(s.log, more);
    FoldIsLast(s'.log);
  }

  lemma ContinuesToLast(more: seq<Group>, low: Option<nat>, hi: nat)
    requires Continues(more, low, hi) && more != []
    ensures Continues(more, low, more[|more| - 1].position.key)
    ensures Increasing(more) && more[|more| - 1].position.key <= hi
  {
    assert more[|more| - 1] in more;
    forall g | g in more ensures g.position.key <= more[|more| - 1].position.key {
      var i :| 0 <= i < |more| && more[i] == g;
    }
  }

  lemma SameRowsSuffice(env: Env, src: seq<Keyed<Event>>, now: seq<Keyed<Event>>, log: seq<Group>, lo: nat, hi: nat)
    requires StoredRange(env, now, log, lo, hi) && forall k: nat | lo <= k <= hi :: SameRows(env, now, src, k)
    ensures StoredRange(env, src, log, lo, hi)
  {
    hide At, LogAt, Rows;
    forall k: nat ensures if lo <= k <= hi then HoldsAt(env, log, src, k) else LogAt(log, k) == [] {
      assert if lo <= k <= hi then HoldsAt(env, log, now, k) else LogAt(log, k) == [];
      assert lo <= k <= hi ==> SameRows(env, now, src, k);
    }
  }

  lemma SameRowsNeeded(env: Env, src: seq<Keyed<Event>>, now: seq<Keyed<Event>>, start: nat, s: StoreState,
                       s': StoreState, more: seq<Group>, k: nat)
    requires GapFree(env, src, start, s) && GapFree(env, src, start, s') && s'.log == s.log + more && more != []
    requires var lo, p := ResumeAfter(s.position, start), more[|more| - 1].position.key;
      lo <= k <= p && StoredRange(env, now, more, lo, p)
    ensures SameRows(env, now, src, k)
  {
    hide At, LogAt, Rows, FoldPositions;
    FoldIsLast(s.log);
    LogAtConcat(s.log, more, k);
    var lo, p := ResumeAfter(s.position, start), more[|more| - 1].position.key;
    assert if lo <= k <= p then HoldsAt(env, more, now, k) else LogAt(more, k) == [];
    assert if start <= k <= p then HoldsAt(env, s'.log, src, k) else LogAt(s'.log, k) == [];
    NothingAt(env, src, start, s, k);
    assert [] + LogAt(more, k) == LogAt(more, k);
  }

  lemma NothingAt(env: Env, src: seq<Keyed<Event>>, start: nat, s: StoreState, k: nat)
    requires GapFree(env, src, start, s) && ResumeAfter(s.position, start) <= k
    ensures LogAt(s.log, k) == []
  {
    FoldIsLast(s.log);
    forall g | g in s.log ensures g.position.key != k {
      var i :| 0 <= i < |s.log| && s.log[i] == g;
    }
    LogAtAbsent(s.log, k);
  }

  /** What a crash in the backfill has added, in terms of the snapshot. */
  lemma CrashAdds(env: Env, now: seq<Keyed<Event>>, start: nat, g: Gap, s: StoreState, y: nat, n: nat)
    returns (more: seq<Group>, hi: nat)
    requires Ordered(now) && Sound(env, g) && Synced(s) && g.seed == s.position
    requires var lo := ResumeAfter(g.seed, start);
      lo <= y <= Max(lo, g.tip + 1) && Count(now, lo) <= Count(now, y) && n <= Count(now, y) - Count(now, lo)
    ensures var lo := ResumeAfter(g.seed, start);
      var after := BackfillRun(env, g.cut, Open(g.cut, g.seed, s), AsBlocks(Slice(now, lo, y))[..n]).store;
      && after.log == s.log + more && Synced(after) && Continues(more, KeyOf(g.seed), hi)
      && (more != [] ==> StoredRange(env, now, more, lo, hi))
  {
    hide Increasing, StoredRange, StoredUpTo, Part, AsBlocks, Count, BackfillRun, Unripe, TailTracks, OpenGroup, Synced,
         Ordered, InGap, SettledTracks, Continues;
    var lo, i := ResumeAfter(g.seed, start), Count(now, ResumeAfter(g.seed, start));
    var items := AsBlocks(Slice(now, lo, y));
    AsBlocksPrefix(now, i, Count(now, y), n);
    AsBlocksLength(Slice(now, lo, y));
    SliceInGap(now, g.seed, start, g.tip, y);
    InGapPrefix(items, n, KeyOf(g.seed), g.tip);
    var es, tail;
    more, es, tail := BackfillKeepsChain(env, g, s, items[..n]);
    var p := BackfillRun(env, g.cut, Open(g.cut, g.seed, s), items[..n]);
    TakenIsSlice(now, g.cut, i, n, p.settled.core.healthy, es);
    BackfillSynced(env, g.cut, Open(g.cut, g.seed, s), items[..n]);
    hi := UnfinishedAdds(env, now, g, p.settled, more, es, lo);
  }

  lemma UnfinishedAdds(env: Env, now: seq<Keyed<Event>>, g: Gap, b: Settled, more: seq<Group>, es: seq<Keyed<Event>>,
                       lo: nat)
    returns (hi: nat)
    requires Ordered(now) && Count(now, lo) + |es| <= |now| && es == now[Count(now, lo)..Count(now, lo) + |es|]
    requires SettledTracks(env, b, more, es, KeyOf(g.seed), g.cut)
    ensures Continues(more, KeyOf(g.seed), hi) && (more != [] ==> StoredRange(env, now, more, lo, hi))
  {
    hide StoredRange, StoredUpTo, Count, OpenGroup, Ordered;
    assert es != [] ==> es[|es| - 1] == now[Count(now, lo) + |es| - 1];
    CutShortRange(env, now, more, |es|, KeyOf(g.seed), KeyOf(b.watermark), lo);
    hi := if more == [] then 0 else b.watermark.value.key;
  }

  /** What a session without a live tail has added, in terms of the snapshot. */
  lemma QuietAdds(env: Env, now: seq<Keyed<Event>>, start: nat, g: Gap, s: StoreState, y: nat)
    returns (more: seq<Group>, hi: nat)
    requires Ordered(now) && Sound(env, g) && Synced(s) && g.seed == s.position
    requires var lo := ResumeAfter(g.seed, start);
      lo <= y <= Max(lo, g.tip + 1) && Count(now, lo) <= Count(now, y)
    ensures var lo := ResumeAfter(g.seed, start);
      var after := Run(env, g, s, AsBlocks(Slice(now, lo, y)), []).store;
      && after.log == s.log + more && Synced(after) && Continues(more, KeyOf(g.seed), hi)
      && (more != [] ==> StoredRange(env, now, more, lo, hi))
  {
    hide StoredRange, Finished, StoredUpTo, Part, AsBlocks, Count, LiveRun, Joined, Unripe, Slice, Buffers, Synced,
         Ordered, InGap, Continues;
    var lo := ResumeAfter(g.seed, start);
    SliceInGap(now, g.seed, start, g.tip, y);
    NoLiveAbove(start);
    var tailed, es, tail, n;
    more, tailed, es, tail, n := SessionKeepsChain(env, g, s, AsBlocks(Slice(now, lo, y)), []);
    RunSynced(env, g, s, AsBlocks(Slice(now, lo, y)), []);
    assert s.log + more + [] == s.log + more;
    hi := SettledAdds(env, now, start, g, Run(env, g, s, AsBlocks(Slice(now, lo, y)), []).settled, more, es, y);
  }

  lemma SettledAdds(env: Env, now: seq<Keyed<Event>>, start: nat, g: Gap, b: Settled, more: seq<Group>,
                    es: seq<Keyed<Event>>, y: nat)
    returns (hi: nat)
    requires Ordered(now) && Count(now, ResumeAfter(g.seed, start)) <= Count(now, y)
    requires Finished(env, g, b, more, es)
    requires Taken(b.core.healthy, es, Part(g.cut, AsBlocks(Slice(now, ResumeAfter(g.seed, start), y)), true))
    ensures Continues(more, KeyOf(g.seed), hi)
    ensures more != [] ==> StoredRange(env, now, more, ResumeAfter(g.seed, start), hi)
  {
    hide Finished, Part, AsBlocks, Count, StoredRange, Ordered;
    var lo := ResumeAfter(g.seed, start);
    PartOfSlice(now, g.cut, Count(now, lo), Count(now, y));
    SettledOnly(env, now, g, b, more, es, lo, y);
    hi := if more == [] then 0 else KeyOf(b.watermark).value;
  }

  /** What a bounded subscription adds, however it ends and whatever fails. */
  lemma BoundedAdds(env: Env, now: seq<Keyed<Event>>, start: nat, v: Visit, s: StoreState)
    returns (more: seq<Group>, hi: nat)
    requires env.policy.Halt? && Ordered(now) && Synced(s) && (s.position.Some? ==> IsBlock(s.position.value))
    requires v.cfg.chunk >= 1 && v.tip < U64_MAX && v.cfg.startBlock == start && v.cfg.toBlock.Some?
    ensures var after, lo := After(env, now, v, s), ResumeAfter(s.position, start);
      && after.log == s.log + more && Synced(after) && Continues(more, KeyOf(s.position), hi)
      && (more != [] ==> StoredRange(env, now, more, lo, hi))
  {
    hide StoredRange, Count, LiveRun, BackfillRun, Joined, Unripe, Slice, Backfilled, Run, Ordered, AsBlocks, Synced;
    var lo, y := ResumeAfter(s.position, start), CoveredTo(env, now, v, s.position);
    var g, b := GapOf(env, v.cfg, v.tip, s.position), Backfilled(env, now, v, s.position);
    BackfilledIsSlice(env, now, v, s.position);
    CutIsUnripe(env, v.cfg, v.tip);
    if Subscription(env, now, v, s).None? {
      more, hi := [], 0;
      assert s.log + [] == s.log;
    } else {
      match v.stop {
        case InBackfill(n) =>
          SliceLength(now, lo, y);
          AsBlocksLength(b.items);
          more, hi := CrashAdds(env, now, start, g, s, y, Min(n, |b.items|));
        case InLive(_) =>
          more, hi := QuietAdds(env, now, start, g, s, y);
      }
    }
  }

  /** A bounded subscription over a source that may still reorg, however it ends and whatever fails, leaves a
      gap-free prefix of the final chain if and only if the snapshot it read and the final chain encode to the same
      rows from the resume point through the position it has stored. The confirmation depth plays no part. */
  lemma BoundedIsFinalExactly(env: Env, src: seq<Keyed<Event>>, start: nat, r: Reorged, s: StoreState)
    requires env.policy.Halt? && Ordered(r.now) && GapFree(env, src, start, s)
    requires r.visit.cfg.chunk >= 1 && r.visit.tip < U64_MAX && r.visit.cfg.startBlock == start
        && r.visit.cfg.toBlock.Some?
    ensures var after := After(env, r.now, r.visit, s);
      GapFree(env, src, start, after)
      <==> forall k: nat | ResumeAfter(s.position, start) <= k && !Above(KeyOf(after.position), k) ::
             SameRows(env, r.now, src, k)
  {
    assert Synced(s);
    PositionIsBlock(env, src, start, s);
    hide *;
    var more, hi := BoundedAdds(env, r.now, start, r.visit, s);
    ExtensionIsFinalExactly(env, src, r.now, start, s, After(env, r.now, r.visit, s), more, hi);
  }

  const EMPTY: StoreState := StoreState([], None, 0)

  ghost predicate WellSet(visits: seq<Reorged>, start: nat) {
    forall i | 0 <= i < |visits| :: visits[i].visit.cfg.chunk >= 1 && visits[i].visit.tip < U64_MAX
      && visits[i].visit.cfg.startBlock == start && Ordered(visits[i].now)
  }

  /** The snapshot the `i`-th subscription of a history read has the final chain's rows over the range it stored. */
  ghost predicate Agrees(env: Env, src: seq<Keyed<Event>>, start: nat, visits: seq<Reorged>, i: nat)
    requires i < |visits| && WellSet(visits, start)
  {
    var before := Stored(env, visits[..i], EMPTY);
    var after := After(env, visits[i].now, visits[i].visit, before);
    forall k: nat | ResumeAfter(before.position, start) <= k && !Above(KeyOf(after.position), k) ::
      SameRows(env, visits[i].now, src, k)
  }

  lemma StoredNext(env: Env, visits: seq<Reorged>, start: nat, i: nat)
    requires i < |visits| && WellSet(visits, start)
    ensures Stored(env, visits[..i + 1], EMPTY)
         == After(env, visits[i].now, visits[i].visit, Stored(env, visits[..i], EMPTY))
  {
    assert visits[..i + 1][..i] == visits[..i];
  }

  /** Main theorem: over any history in which unbounded subscriptions see only reorgs above the depth, whatever the
      bounded ones see, the archive is on the final chain after every subscription if and only if each bounded one
      agreed with the final chain over the range it stored. */
  lemma HistoryIsFinalExactly(env: Env, src: seq<Keyed<Event>>, start: nat, visits: seq<Reorged>)
    requires env.policy.Halt? && env.depth >= 1 && WellSet(visits, start)
    requires forall i | 0 <= i < |visits| && visits[i].visit.cfg.toBlock.None? ::
      Shallow(env, src, start, visits[i], Stored(env, visits[..i], EMPTY).position)
    ensures (forall n | 0 <= n <= |visits| :: GapFree(env, src, start, Stored(env, visits[..n], EMPTY)))
      <==> forall i | 0 <= i < |visits| && visits[i].visit.cfg.toBlock.Some? :: Agrees(env, src, start, visits, i)
  {
    hide GapFree, Shallow, SameRows, After, Ordered;
    if forall n | 0 <= n <= |visits| :: GapFree(env, src, start, Stored(env, visits[..n], EMPTY)) {
      forall i | 0 <= i < |visits| && visits[i].visit.cfg.toBlock.Some? ensures Agrees(env, src, start, visits, i) {
        assert GapFree(env, src, start, Stored(env, visits[..i + 1], EMPTY));
        StoredNext(env, visits, start, i);
        BoundedIsFinalExactly(env, src, start, visits[i], Stored(env, visits[..i], EMPTY));
      }
    }
    if forall i | 0 <= i < |visits| && visits[i].visit.cfg.toBlock.Some? :: Agrees(env, src, start, visits, i) {
      forall n | 0 <= n <= |visits| ensures GapFree(env, src, start, Stored(env, visits[..n], EMPTY)) {
        AgreedIsFinal(env, src, start, visits, n);
      }
    }
  }

  lemma {:induction false} AgreedIsFinal(env: Env, src: seq<Keyed<Event>>, start: nat, visits: seq<Reorged>, n: nat)
    requires env.policy.Halt? && env.depth >= 1 && WellSet(visits, start) && n <= |visits|
    requires forall i | 0 <= i < |visits| ::
      if visits[i].visit.cfg.toBlock.Some? then Agrees(env, src, start, visits, i)
      else Shallow(env, src, start, visits[i], Stored(env, visits[..i], EMPTY).position)
    ensures GapFree(env, src, start, Stored(env, visits[..n], EMPTY))
  {
    if n > 0 {
      AgreedIsFinal(env, src, start, visits, n - 1);
      hide *;
      OneMoreIsFinal(env, src, start, visits, n - 1);
    }
  }

  lemma OneMoreIsFinal(env: Env, src: seq<Keyed<Event>>, start: nat, visits: seq<Reorged>, i: nat)
    requires env.policy.Halt? && env.depth >= 1 && WellSet(visits, start) && i < |visits|
    requires GapFree(env, src, start, Stored(env, visits[..i], EMPTY))
    requires if visits[i].visit.cfg.toBlock.Some? then Agrees(env, src, start, visits, i)
             else Shallow(env, src, start, visits[i], Stored(env, visits[..i], EMPTY).position)
    ensures GapFree(env, src, start, Stored(env, visits[..i + 1], EMPTY))
  {
    hide GapFree, Shallow, SameRows, After, Ordered, Stored;
    StoredNext(env, visits, start, i);
    if visits[i].visit.cfg.toBlock.Some? {
      BoundedIsFinalExactly(env, src, start, visits[i], Stored(env, visits[..i], EMPTY));
    } else {
      VisitStaysFinal(env, src, start, visits[i], Stored(env, visits[..i], EMPTY));
    }
  }

  /** The same as a condition on what is known beforehand: with encodable events, working writes and a complete
      backfill, the range that must agree ends at the snapshot's last position through the bound (or the tip). */
  lemma CompleteBoundedIsFinalExactly(env: Env, src: seq<Keyed<Event>>, start: nat, r: Reorged, s: StoreState)
    requires env.policy.Halt? && Ordered(r.now) && GapFree(env, src, start, s)
    requires (forall i: nat :: !env.fails(i)) && forall e | e in r.now :: env.encode(e.value).Some?
    requires r.visit.cfg.chunk >= 1 && r.visit.tip < U64_MAX && r.visit.cfg.startBlock == start
        && r.visit.cfg.toBlock.Some?
    requires r.visit.stop.InLive? && Backfilled(env, r.now, r.visit, s.position).failed.None?
    ensures var lo, g := ResumeAfter(s.position, start), GapOf(env, r.visit.cfg, r.visit.tip, s.position);
      GapFree(env, src, start, After(env, r.now, r.visit, s))
      <==> forall k: nat | lo <= k && !Above(LastSettled(r.now, g, lo), k) :: SameRows(env, r.now, src, k)
  {
    PositionIsBlock(env, src, start, s);
    hide *;
    BoundedIsFinalExactly(env, src, start, r, s);
    JoinedCatchesUp(env, r.now, start, r.visit, s);
    AfterQuiet(env, r.now, r.visit, s);
  }

  const HONEST: Slices.Provider := (n, from, to) => Slices.Fits

  /** A run in which nothing two deep differs and a depth of two does not help: bounded at the tip, the orphaned tip
      block is stored for good. */
  lemma BoundedStoresOrphan(env: Env, a: Event, orphan: Event, canonical: Event)
    requires env.policy.Halt? && env.depth == 2 && (forall i: nat :: !env.fails(i))
    requires env.encode(a).Some? && env.encode(orphan).Some? && env.encode(canonical).Some?
    requires env.encode(orphan) != env.encode(canonical)
    ensures var now, src := [Keyed(5, a), Keyed(6, orphan)], [Keyed(5, a), Keyed(6, canonical)];
      var visit := Visit(Config(0, 1000, Some(6)), 6, HONEST, InLive([]));
      && (forall k: nat | k + env.depth <= visit.tip :: At(now, k) == At(src, k))
      && !GapFree(env, src, 0, After(env, now, visit, StoreState([], None, 0)))
  {
    var now, src, s := [Keyed(5, a), Keyed(6, orphan)], [Keyed(5, a), Keyed(6, canonical)], StoreState([], None, 0);
    var visit := Visit(Config(0, 1000, Some(6)), 6, HONEST, InLive([]));
    forall k: nat | k + 2 <= 6 ensures At(now, k) == At(src, k) {
      AtAbsent(now, k);
      AtAbsent(src, k);
    }
    TwoRows(env, a, orphan);
    TwoRows(env, a, canonical);
    TwoSettled(now, GapOf(env, visit.cfg, visit.tip, None));
    OneWindow(env, now, visit);
    hide Count, LastSettled, Backfilled, After, At, Rows;
    CompleteBoundedIsFinalExactly(env, src, 0, Reorged(visit, now), s);
    assert !SameRows(env, now, src, 6);
  }

  lemma TwoRows(env: Env, a: Event, b: Event)
    requires env.encode(b).Some?
    ensures Rows(env, At([Keyed(5, a), Keyed(6, b)], 6)) == [env.encode(b).value]
  {
    AtPush([Keyed(5, a)], Keyed(6, b), 6);
    AtAbsent([Keyed(5, a)], 6);
    assert [Keyed(5, a)] + [Keyed(6, b)] == [Keyed(5, a), Keyed(6, b)];
    assert At([Keyed(5, a), Keyed(6, b)], 6) == [b];
    RowsPush(env, [], b);
    assert [] + [b] == [b] && Rows(env, []) == [];
  }

  lemma TwoSettled(now: seq<Keyed<Event>>, g: Gap)
    requires |now| == 2 && now[0].key == 5 && now[1].key == 6 && g.cut == Some(6) && g.seed == None
    ensures LastSettled(now, g, 0) == Some(6) && Ordered(now)
  {
    CountSplits(now, 0);
    CountSplits(now, 7);
  }

  lemma OneWindow(env: Env, now: seq<Keyed<Event>>, v: Visit)
    requires env.policy.Halt? && v.cfg == Config(0, 1000, Some(6)) && v.tip == 6 && v.answer == HONEST
    ensures Backfilled(env, now, v, None).failed.None?
  {
    hide Range;
    assert Slices.WindowEnd(0, 6, 1000) == 6 && Slices.NextFrom(0, 6, 1000) == 7;
    assert Slices.QuerySplit(now, v.answer, 0, 0, 6).items.Some?;
    assert Slices.Chunks(now, v.answer, 1, 7, 6, 1000).failed.None?;
  }
}
