/** The start block bounds the backfill, not the live tail: exactly when a session still leaves a gap-free archive. */
module StartBlock {
  import opened Base
  import opened Positions
  import opened Store
  import opened Streams
  import opened WindowSpec
  import opened Chain
  import opened Pipeline
  import opened Canonical
  import opened Backfill
  import opened Session
  import opened Source
  import opened Subscribe
  import opened Durable
  import opened Archives
  import opened Guarantees
  import opened Delivery

  lemma LastStepLeavesNoneMatured(env: Env, p: Pipe, front: seq<Keyed<Event>>, e: Keyed<Event>)
    requires LiveRun(env, p, Emits(front + [e])).window.core.healthy
    ensures Matured(env.depth, LiveRun(env, p, Emits(front + [e])).window) == {}
        || !LiveRun(env, p, Emits(front)).window.core.healthy
          || env.policy.Dedupe?
  {
    hide FlushMatured, LiveRun, Fold, Matured;
    EmitsPush(front, e);
    LiveRunPush(env, p, Emits(front), EmitOf(e));
    var q := LiveRun(env, p, Emits(front));
    if q.window.core.healthy && env.policy.Halt? && env.encode(e.value).Some? {
      FlushConfirmed(env, Buffer(Halt, q.window.(core := q.window.core.(captured := true)), FromSortKey(e.key),
          env.encode(e.value).value).0, q.store);
    }
  }

  /** The chain of a live tail that begins at or below everything the backfill seeded: the live tail alone. */
  lemma {:induction false} LowChain(seeds: seq<Keyed<Event>>, es: seq<Keyed<Event>>)
    requires es != [] && Ordered(es) && forall e | e in seeds :: es[0].key <= e.key
    ensures ChainRun(SeedChain(seeds), Emits(es)) == Chain(es, Some(es[|es| - 1].key), Some(es[0].key))
  {
    hide ChainRun, Emits, Below;
    var front, e := es[..|es| - 1], es[|es| - 1];
    assert front + [e] == es;
    EmitsPush(front, e);
    ChainRunPush(SeedChain(seeds), Emits(front), EmitOf(e));
    if front == [] {
      NoSteps(SeedChain(seeds));
      BelowNothing(seeds, e.key);
      assert [] + [e] == es;
    } else {
      LowChain(seeds, front);
    }
  }

  lemma NoSteps(c: Chain)
    ensures ChainRun(c, Emits([])) == c
  {
  }

  lemma {:induction false} BelowNothing<T>(es: seq<Keyed<T>>, k: nat)
    requires forall e | e in es :: k <= e.key
    ensures Below(es, k) == []
  {
    if es != [] {
      assert es[|es| - 1] in es;
      BelowNothing(es[..|es| - 1], k);
    }
  }

  /** Below the start block nothing was settled, and the whole backfill went to the window. */
  lemma LowSession(env: Env, src: seq<Keyed<Event>>, start: nat, g: Gap, s: StoreState, k: nat, live: seq<Indexed>)
    returns (tailed: seq<Group>, seeds: seq<Keyed<Event>>)
    requires env.depth >= 1 && (forall i: nat :: !env.fails(i)) && Sound(env, g)
        && (g.cut.Some? ==> g.cut.value <= g.tip)
    requires Ordered(src) && (forall e | e in src :: e.key < U64_MAX && env.encode(e.value).Some?)
    requires k < start && Above(Floor(g), k) && LiveBlocks(live)
    ensures Count(src, start) <= Count(src, Max(start, g.tip + 1)) && ResumeAfter(g.seed, start) == start
    ensures seeds == Slice(src, start, Max(start, g.tip + 1))
    ensures var p := Joined(env, g, s, AsBlocks(seeds)); var q := LiveRun(env, p, live);
      && p.window.core.healthy && p.window.flushed == Floor(g)
      && (q.window.core.healthy ==>
           && q.store.log == s.log + tailed
           && StoredUpTo(env, tailed, ChainRun(SeedChain(seeds), live).events, Floor(g), q.window.flushed)
           && Buffers(env, ChainRun(SeedChain(seeds), live), q.window))
  {
    hide Buffers, StoredUpTo, Joined, LiveRun, ChainRun, Part, AsBlocks, Count, Unripe, InGap, Slice;
    var y := Max(start, g.tip + 1);
    assert Floor(g) == KeyOf(WindowSeed(g.cut, g.seed));
    assert ResumeAfter(g.seed, start) == start && TailFrom(g, start) == start;
    SliceInGap(src, g.seed, start, g.tip, y);
    seeds := Slice(src, start, y);
    SliceWithin(src, start, y);
    JoinedHealthy(env, g, s, seeds);
    CompleteParts(src, g, start);
    var settled, es, tail, n;
    settled, tailed, es, tail, n := SessionKeepsChain(env, g, s, AsBlocks(seeds), live);
    assert live[..|live|] == live;
    if Run(env, g, s, AsBlocks(seeds), live).window.core.healthy {
      assert src[Count(src, start)..Count(src, start)] == [];
      NothingSettled(env, g, Run(env, g, s, AsBlocks(seeds), live).settled, settled, es);
      SliceIs(src, start, y);
      assert s.log + [] + tailed == s.log + tailed;
    }
  }

  lemma SliceIs(src: seq<Keyed<Event>>, lo: nat, y: nat)
    requires Count(src, lo) <= Count(src, y)
    ensures Slice(src, lo, y) == src[Count(src, lo)..Count(src, y)]
  {
  }

  lemma SliceWithin(src: seq<Keyed<Event>>, lo: nat, y: nat)
    requires Ordered(src) && Count(src, lo) <= Count(src, y)
    ensures Ordered(Slice(src, lo, y)) && forall e | e in Slice(src, lo, y) :: e in src && lo <= e.key
  {
    CountSplits(src, lo);
    SliceOrdered(src, Count(src, lo), Count(src, y));
  }

  lemma NothingSettled(env: Env, g: Gap, b: Settled, settled: seq<Group>, es: seq<Keyed<Event>>)
    requires Finished(env, g, b, settled, es) && es == []
    ensures settled == []
  {
    FirstIsMember(settled);
  }

  lemma FirstIsMember(log: seq<Group>)
    ensures log == [] || log[0] in log
  {
  }

  /** A first live position below the start block that got buried is stored, outside the archive's range. */
  lemma BuriedIsStored(env: Env, src: seq<Keyed<Event>>, start: nat, s: StoreState, q: Pipe, tailed: seq<Group>,
                       es: seq<Keyed<Event>>, floor: Option<nat>)
    requires es != [] && es[0].key < start && (forall e | e in es :: e.key < U64_MAX && env.encode(e.value).Some?)
    requires es[0].key + env.depth <= es[|es| - 1].key && Matured(env.depth, q.window) == {}
    requires q.store.log == s.log + tailed && StoredUpTo(env, tailed, es, floor, q.window.flushed)
    requires Buffers(env, Chain(es, Some(es[|es| - 1].key), Some(es[0].key)), q.window)
    ensures !GapFree(env, src, start, q.store)
  {
    hide Rows, LogAt, At, Matured;
    var k, c := es[0].key, Chain(es, Some(es[|es| - 1].key), Some(es[0].key));
    FirstIsThere(es);
    assert es[|es| - 1] in es;
    NotBuffered(env, q.window, k);
    assert !Above(q.window.flushed, k);
    assert HoldsAt(env, tailed, es, k);
    RowsThere(env, At(es, k));
    LogAtConcat(s.log, tailed, k);
    assert LogAt(q.store.log, k) != [];
    LogNonempty(q.store.log, k);
  }

  lemma NotBuffered(env: Env, w: Window, k: nat)
    requires Matured(env.depth, w) == {} && w.head.Some? && k + env.depth <= w.head.value < U64_MAX
    ensures k !in w.pending
  {
    assert k !in Matured(env.depth, w);
  }

  lemma LogNonempty(log: seq<Group>, k: nat)
    requires LogAt(log, k) != []
    ensures log != []
  {
  }

  lemma RowsThere(env: Env, evs: seq<Event>)
    requires evs != [] && Encodable(env, evs)
    ensures Rows(env, evs) != []
  {
    assert evs[|evs| - 1] in evs;
  }

  lemma {:induction false} FirstIsThere<T>(es: seq<Keyed<T>>)
    requires es != []
    ensures At(es, es[0].key) != []
  {
    if |es| > 1 { FirstIsThere(es[..|es| - 1]); }
  }

  /** A first live position below the start block that is not buried yet leaves the archive as it was. */
  lemma UnburiedIsAbsent(env: Env, src: seq<Keyed<Event>>, start: nat, g: Gap, s: StoreState, q: Pipe,
                         tailed: seq<Group>, es: seq<Keyed<Event>>)
    requires GapFree(env, src, start, s) && Synced(q.store) && g.seed == s.position
    requires es != [] && Ordered(es) && Above(Floor(g), es[0].key) && Above(q.window.flushed, es[0].key)
        && es[0].key < start
    requires q.store.log == s.log + tailed && StoredUpTo(env, tailed, es, Floor(g), q.window.flushed)
    ensures GapFree(env, src, start, q.store)
  {
    hide Rows, LogAt, At, HoldsAt, FoldPositions;
    FoldIsLast(s.log);
    if s.log != [] {
      assert g.seed == Some(s.log[|s.log| - 1].position);
      assert Floor(g).Some? && s.log[|s.log| - 1].position.key <= Floor(g).value;
    }
    forall a, b | a in s.log && b in tailed ensures a.position.key < b.position.key {}
    IncreasingConcat(s.log, tailed);
    var all := s.log + tailed;
    forall k: nat ensures LogAt(all, k) == [] {
      LogAtConcat(s.log, tailed, k);
      NothingAtStart(env, src, start, s, k);
      NothingTailed(env, tailed, es, q.window.flushed, k);
    }
    if all != [] {
      assert all[|all| - 1] in all;
      assert all[|all| - 1].position.key < start;
      assert StoredRange(env, src, all, start, all[|all| - 1].position.key);
    }
  }

  lemma NothingAtStart(env: Env, src: seq<Keyed<Event>>, start: nat, s: StoreState, k: nat)
    requires GapFree(env, src, start, s) && (s.log != [] ==> s.log[|s.log| - 1].position.key < start)
    ensures LogAt(s.log, k) == []
  {
    hide HoldsAt;
    if s.log != [] {
      var hi := s.log[|s.log| - 1].position.key;
      assert if start <= k <= hi then HoldsAt(env, s.log, src, k) else LogAt(s.log, k) == [];
    }
  }

  lemma NothingTailed(env: Env, tailed: seq<Group>, es: seq<Keyed<Event>>, upTo: Option<nat>, k: nat)
    requires (forall j: nat :: if Above(upTo, j) then LogAt(tailed, j) == [] else HoldsAt(env, tailed, es, j))
    requires es != [] && Ordered(es) && Above(upTo, es[0].key)
    ensures LogAt(tailed, k) == []
  {
    hide LogAt, At;
    assert if Above(upTo, k) then LogAt(tailed, k) == [] else HoldsAt(env, tailed, es, k);
    if !Above(upTo, k) { AtAbsent(es, k); }
  }

  /** The start block is not applied to live events. A complete session over working writes whose live tail starts at
      `k` leaves the archive gap-free from the start block exactly when `k` is not below the start block, lies at or
      below the watermark (which halts the window), or has not been buried by the end. */
  lemma StartBlockOnLiveTail(env: Env, src: seq<Keyed<Event>>, start: nat, g: Gap, s: StoreState, from: nat, n: nat)
    requires env.depth >= 1 && (forall i: nat :: !env.fails(i)) && Sound(env, g)
        && (g.cut.Some? ==> g.cut.value <= g.tip)
    requires Ordered(src) && (forall e | e in src :: e.key < U64_MAX && env.encode(e.value).Some?)
    requires GapFree(env, src, start, s) && g.seed == s.position
    requires 0 < n <= |src| - Count(src, from) && from <= g.tip + 1
    ensures var lo, j := ResumeAfter(g.seed, start), Count(src, from);
      && Count(src, lo) <= Count(src, Max(lo, g.tip + 1))
      && (GapFree(env, src, start, Run(env, g, s, AsBlocks(Slice(src, lo, Max(lo, g.tip + 1))),
          LiveFrom(src, from, n)).store)
          <==> start <= src[j].key || !Above(Floor(g), src[j].key) || src[j + n - 1].key < src[j].key + env.depth)
  {
    hide GapFree, Run, Slice, AsBlocks, Count, Unripe, Floor, LiveFrom, Ordered;
    var lo, j := ResumeAfter(g.seed, start), Count(src, from);
    CountMonotone(src, lo, Max(lo, g.tip + 1));
    if start <= src[j].key {
      LiveAboveStart(env, src, start, g, s, from, n);
    } else if !Above(Floor(g), src[j].key) {
      LiveHalts(env, src, start, g, s, from, n);
    } else {
      SliceOrdered(src, j, j + n);
      LiveIsSlice(src, from, n);
      var es := src[j..j + n];
      assert es[0] == src[j] && es[|es| - 1] == src[j + n - 1];
      LiveBelowStart(env, src, start, g, s, es);
    }
  }

  lemma LiveHalts(env: Env, src: seq<Keyed<Event>>, start: nat, g: Gap, s: StoreState, from: nat, n: nat)
    requires env.depth >= 1 && Sound(env, g) && (g.cut.Some? ==> g.cut.value <= g.tip)
    requires Ordered(src) && (forall e | e in src :: e.key < U64_MAX)
    requires GapFree(env, src, start, s) && g.seed == s.position
    requires 0 < n <= |src| - Count(src, from) && !Above(Floor(g), src[Count(src, from)].key)
    requires Count(src, ResumeAfter(g.seed, start)) <= Count(src, Max(ResumeAfter(g.seed, start), g.tip + 1))
    ensures var lo := ResumeAfter(g.seed, start);
      GapFree(env, src, start, Run(env, g, s, AsBlocks(Slice(src, lo, Max(lo, g.tip + 1))),
          LiveFrom(src, from, n)).store)
  {
    hide GapFree, Joined, Slice, AsBlocks, Count, Unripe, Floor, Ordered, LiveRun, InGap;
    var lo := ResumeAfter(g.seed, start);
    var y := Max(lo, g.tip + 1);
    NoLive(src, start);
    SliceInGap(src, g.seed, start, g.tip, y);
    JoinedOut(env, g, s, Slice(src, lo, y));
    LiveSessionGapFree(env, src, start, g, s, y, start, 0);
    LiveRunNone(env, Joined(env, g, s, AsBlocks(Slice(src, lo, y))), src, start);
    FirstHalts(env, Joined(env, g, s, AsBlocks(Slice(src, lo, y))), LiveFrom(src, from, n));
  }

  lemma LiveAboveStart(env: Env, src: seq<Keyed<Event>>, start: nat, g: Gap, s: StoreState, from: nat, n: nat)
    requires env.depth >= 1 && Sound(env, g) && (g.cut.Some? ==> g.cut.value <= g.tip)
    requires Ordered(src) && (forall e | e in src :: e.key < U64_MAX)
    requires GapFree(env, src, start, s) && g.seed == s.position
    requires 0 < n <= |src| - Count(src, from) && from <= g.tip + 1 && start <= src[Count(src, from)].key
    requires Count(src, ResumeAfter(g.seed, start)) <= Count(src, Max(ResumeAfter(g.seed, start), g.tip + 1))
    ensures var lo := ResumeAfter(g.seed, start);
      GapFree(env, src, start, Run(env, g, s, AsBlocks(Slice(src, lo, Max(lo, g.tip + 1))),
          LiveFrom(src, from, n)).store)
  {
    hide GapFree, Run, Slice, AsBlocks, Count, Unripe, Floor, LiveFrom, Ordered;
    FromStartOn(src, start, from);
    SameLive(src, from, Max(start, from), n);
    LiveSessionGapFree(env, src, start, g, s, Max(ResumeAfter(g.seed, start), g.tip + 1), Max(start, from), n);
  }

  lemma LiveIsSlice(src: seq<Keyed<Event>>, from: nat, n: nat)
    requires Count(src, from) + n <= |src|
    ensures LiveFrom(src, from, n) == Emits(src[Count(src, from)..Count(src, from) + n])
  {
  }

  lemma LiveBelowStart(env: Env, src: seq<Keyed<Event>>, start: nat, g: Gap, s: StoreState, es: seq<Keyed<Event>>)
    requires env.depth >= 1 && (forall i: nat :: !env.fails(i)) && Sound(env, g)
        && (g.cut.Some? ==> g.cut.value <= g.tip)
    requires Ordered(src) && (forall e | e in src :: e.key < U64_MAX && env.encode(e.value).Some?)
    requires GapFree(env, src, start, s) && g.seed == s.position
    requires es != [] && Ordered(es) && (forall e | e in es :: e in src) && Above(Floor(g), es[0].key)
        && es[0].key < start
    ensures ResumeAfter(g.seed, start) == start && Count(src, start) <= Count(src, Max(start, g.tip + 1))
    ensures GapFree(env, src, start, Run(env, g, s, AsBlocks(Slice(src, start, Max(start, g.tip + 1))),
        Emits(es)).store)
         <==> es[|es| - 1].key < es[0].key + env.depth
  {
    assert Synced(s);
    EmitsBlock(es);
    hide GapFree, Slice, AsBlocks, Count, Unripe, Floor, Emits, Joined, LiveRun, ChainRun, StoredUpTo, Buffers,
        Matured, Synced, Ordered, LiveBlocks, InGap;
    var tailed, seeds := LowSession(env, src, start, g, s, es[0].key, Emits(es));
    SliceWithin(src, start, Max(start, g.tip + 1));
    LowChain(seeds, es);
    AboveFirst(es, Floor(g));
    var p := Joined(env, g, s, AsBlocks(seeds));
    OrderedLiveIsHealthy(env, p, es);
    SliceInGap(src, g.seed, start, g.tip, Max(start, g.tip + 1));
    RunSynced(env, g, s, AsBlocks(seeds), Emits(es));
    LowOutcome(env, src, start, g, s, p, tailed, es);
  }

  lemma EmitsBlock(es: seq<Keyed<Event>>)
    ensures LiveBlocks(Emits(es))
  {
  }

  lemma LowOutcome(env: Env, src: seq<Keyed<Event>>, start: nat, g: Gap, s: StoreState, p: Pipe, tailed: seq<Group>,
                   es: seq<Keyed<Event>>)
    requires env.policy.Halt? && env.depth >= 1 && (forall n: nat :: !env.fails(n)) && p.window.core.healthy
        && p.window.flushed == Floor(g)
    requires es != [] && Ordered(es)
    requires forall e | e in es ::
      Above(p.window.flushed, e.key) && e.key < U64_MAX && env.encode(e.value).Some?
    requires GapFree(env, src, start, s) && g.seed == s.position && es[0].key < start
    requires var q, c := LiveRun(env, p, Emits(es)), Chain(es, Some(es[|es| - 1].key), Some(es[0].key));
      Synced(q.store) && q.store.log == s.log + tailed && StoredUpTo(env, tailed, es, Floor(g), q.window.flushed)
          && Buffers(env, c, q.window)
    ensures GapFree(env, src, start, LiveRun(env, p, Emits(es)).store) <==> es[|es| - 1].key < es[0].key + env.depth
  {
    hide GapFree, Floor, Emits, LiveRun, StoredUpTo, Buffers, Matured, Synced, Ordered;
    var q := LiveRun(env, p, Emits(es));
    if es[|es| - 1].key < es[0].key + env.depth {
      LiveLags(env, p, es);
      UnburiedIsAbsent(env, src, start, g, s, q, tailed, es);
    } else {
      NoneMaturedAfter(env, p, es);
      BuriedIsStored(env, src, start, s, q, tailed, es, Floor(g));
    }
  }

  lemma NoneMaturedAfter(env: Env, p: Pipe, es: seq<Keyed<Event>>)
    requires env.policy.Halt? && env.depth >= 1 && (forall n: nat :: !env.fails(n)) && p.window.core.healthy && es != []
    requires Ordered(es)
    requires forall e | e in es ::
      Above(p.window.flushed, e.key) && e.key < U64_MAX && env.encode(e.value).Some?
    ensures Matured(env.depth, LiveRun(env, p, Emits(es)).window) == {}
  {
    hide Matured, LiveRun, Emits;
    var front, e := es[..|es| - 1], es[|es| - 1];
    assert front + [e] == es;
    OrderedLiveIsHealthy(env, p, front);
    OrderedLiveIsHealthy(env, p, es);
    LastStepLeavesNoneMatured(env, p, front, e);
  }

  lemma AboveFirst(es: seq<Keyed<Event>>, f: Option<nat>)
    requires Ordered(es) && (es != [] ==> Above(f, es[0].key))
    ensures forall e | e in es :: Above(f, e.key)
  {
  }

  /** With start block 10 and the tip at 5, two live blocks are enough: block 6 is stored. */
  lemma BelowStartIsStored(ev: Event, row: Row)
    ensures var env, src := Env(Halt, 1, e => Some(row), n => false), [Keyed(6, ev), Keyed(7, ev)];
      var g, s := Gap(Some(4), None, 5), StoreState([], None, 0);
      && GapFree(env, src, 10, s) && Count(src, 6) == 0
      && !GapFree(env, src, 10, Run(env, g, s, [], LiveFrom(src, 6, 2)).store)
  {
    hide GapFree, Run, LiveFrom, Slice;
    var env, src := Env(Halt, 1, e => Some(row), n => false), [Keyed(6, ev), Keyed(7, ev)];
    var g, s := Gap(Some(4), None, 5), StoreState([], None, 0);
    EmptyArchive(env, src, 10, s);
    CountSplits(src, 6);
    CountSplits(src, 10);
    assert src[0].key == 6 && src[1].key == 7;
    StartBlockOnLiveTail(env, src, 10, g, s, 6, 2);
    NothingToQuery(src, 10);
  }

  lemma EmptyArchive(env: Env, src: seq<Keyed<Event>>, start: nat, s: StoreState)
    requires s.log == [] && s.position == None
    ensures GapFree(env, src, start, s)
  {
  }

  lemma NothingToQuery(src: seq<Keyed<Event>>, lo: nat)
    ensures AsBlocks(Slice(src, lo, lo)) == []
  {
  }
}
