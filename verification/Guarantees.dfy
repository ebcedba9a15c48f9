/** What a Halt session promises step by step: write order, confirmations, bounded buffer, when it halts. */
module Guarantees {
  import opened Base
  import opened Positions
  import opened Store
  import opened Streams
  import opened WindowSpec
  import opened Chain
  import opened Pipeline
  import opened Canonical
  import opened Backfill
  import opened Session
  import opened Subscribe

  /** The whole session's writes have strictly increasing keys: first the settled prefix, above the stored
      seed and up to the cut, then the window's groups, above both. A settled writer that halted leaves
      nothing above its hole. */
  lemma WriteOrder(env: Env, g: Gap, s: StoreState, backfill: seq<Positioned>, live: seq<Indexed>)
    returns (settled: seq<Group>, tailed: seq<Group>)
    requires Sound(env, g) && InGap(backfill, KeyOf(g.seed), g.tip) && LiveBlocks(live)
    ensures var q := Run(env, g, s, backfill, live);
      && q.store.log == s.log + settled + tailed
      && Increasing(settled + tailed)
      && (forall w | w in settled :: Above(KeyOf(g.seed), w.position.key) && Settles(g.cut, w.position.key))
      && (forall w | w in tailed :: Above(KeyOf(g.seed), w.position.key) && !Settles(g.cut, w.position.key))
      && (!q.settled.core.healthy ==> tailed == [])
  {
    hide At, Rows, HoldsAt, LogAt, ChainRun, Part, Taken, Buffers, LiveRun, BackfillRun, Joined, Unripe;
    var es, tail, n;
    settled, tailed, es, tail, n := SessionKeepsChain(env, g, s, backfill, live);
    IncreasingConcat(settled, tailed);
  }

  lemma CutConfirms(cfg: Config, depth: nat, tip: nat, k: nat)
    requires Settles(FinalCut(cfg, depth, tip), k) && cfg.toBlock.None?
    ensures k + depth <= tip
  {
  }

  /** In unbounded mode every group a session settles has `depth` confirmations at the tip, and every group the
      window writes lies above all of those. */
  lemma SettledConfirmed(env: Env, cfg: Config, tip: nat, s: StoreState, backfill: seq<Positioned>, live: seq<Indexed>)
    returns (settled: seq<Group>, tailed: seq<Group>)
    requires env.policy.Halt? && tip < U64_MAX && cfg.toBlock.None? && (s.position.Some? ==> IsBlock(s.position.value))
    requires InGap(backfill, KeyOf(s.position), tip) && LiveBlocks(live)
    ensures var q := Run(env, GapOf(env, cfg, tip, s.position), s, backfill, live);
      && q.store.log == s.log + settled + tailed && Increasing(settled + tailed)
      && (forall w | w in settled :: w.position.key + env.depth <= tip)
      && (forall w | w in tailed :: tip < w.position.key + env.depth)
  {
    hide Run, InGap;
    CutIsUnripe(env, cfg, tip);
    settled, tailed := WriteOrder(env, GapOf(env, cfg, tip, s.position), s, backfill, live);
    forall w | w in settled ensures w.position.key + env.depth <= tip {
      CutConfirms(cfg, env.depth, tip, w.position.key);
    }
  }

  /** Everything one flush writes is buried `depth` deep under the head, and afterwards nothing buried is left. */
  lemma {:induction false} FlushConfirmed(env: Env, w: Window, s: StoreState)
    ensures var (w', s') := FlushMatured(env, w, s);
      && w'.head == w.head && s.log <= s'.log
      && (forall b | b in w'.pending :: b in w.pending && w'.pending[b] == w.pending[b])
      && (forall i | |s.log| <= i < |s'.log| ::
          exists b :: b in w.pending && Matures(w.head, env.depth, b) && s'.log[i] == GroupOf(w.pending[b]))
      && (w'.core.healthy ==> Matured(env.depth, w') == {})
      && (w'.core.healthy ==> forall b | b in w.pending && !Matures(w.head, env.depth, b) :: b in w'.pending)
      && (w'.core.healthy ==> w.core.healthy)
    decreases |w.pending|
  {
    var due := Matured(env.depth, w);
    if due != {} {
      var b := Least(due);
      var (core, s1, ok) := Flush(env, w.core, s, GroupOf(w.pending[b]));
      if ok {
        var w1 := FlushOne(w, b).(core := core);
        SmallerMap(w.pending, b);
        FlushConfirmed(env, w1, s1);
        var s' := FlushMatured(env, w1, s1).1;
        forall i | |s.log| <= i < |s'.log|
          ensures exists b :: b in w.pending && Matures(w.head, env.depth, b) && s'.log[i] == GroupOf(w.pending[b])
        {
          if i < |s1.log| {
            assert s'.log[i] == s1.log[i] == GroupOf(w.pending[b]);
          } else {
            var c :| c in w1.pending && Matures(w1.head, env.depth, c) && s'.log[i] == GroupOf(w1.pending[c]);
            assert c in w.pending;
          }
        }
      }
    }
  }

  ghost predicate SlotKeys(w: Window) {
    forall b | b in w.pending :: w.pending[b].position.key == b
  }

  /** Every group a live step writes has the head, as the step leaves it, `depth` above it (at the last 64-bit key the
      saturating test lets a group through at once). */
  lemma LiveStepConfirmed(env: Env, p: Pipe, item: Indexed)
    requires SlotKeys(p.window)
    ensures var q := LiveStep(env, p, item);
      && SlotKeys(q.window) && p.store.log <= q.store.log
      && (forall i | |p.store.log| <= i < |q.store.log| ::
            && q.window.head.Some? && Matures(q.window.head, env.depth, q.store.log[i].position.key)
            && (q.window.head.value < U64_MAX ==> q.store.log[i].position.key + env.depth <= q.window.head.value))
  {
    hide FlushMatured, FirstIndex, SwapRemove, Contains;
    if item.Emit? && env.encode(item.item.event).Some? {
      var w := Buffer(env.policy, p.window.(core := p.window.core.(captured := true)), item.item.position,
          env.encode(item.item.event).value).0;
      FlushConfirmed(env, w, p.store);
      assert SlotKeys(w);
    }
  }

  lemma {:induction false} FewBelow(s: set<nat>, h: nat, d: nat)
    requires forall k | k in s :: k <= h < k + d
    ensures |s| <= d
    decreases d
  {
    if d == 0 {
      assert s == {};
    } else {
      forall k | k in s - {h} ensures k <= h - 1 < k + (d - 1) {}
      if h > 0 { FewBelow(s - {h}, h - 1, d - 1); } else { assert s - {h} == {}; }
      assert s <= (s - {h}) + {h};
      assert |s| <= |s - {h}| + 1;
    }
  }

  /** A window that was never seeded: nothing buffered is above the head, and nothing buffered is mature. */
  ghost predicate Slim(depth: nat, w: Window) {
    forall k | k in w.pending :: !w.pending[k].seeded && w.head.Some? && k <= w.head.value && !Matures(w.head, depth, k)
  }

  lemma SlimIsShort(depth: nat, w: Window)
    requires Slim(depth, w)
    ensures |w.pending| <= depth
  {
    if w.pending != map[] {
      var k :| k in w.pending;
      FewBelow(w.pending.Keys, w.head.value, depth);
      assert |w.pending| == |w.pending.Keys|;
    }
  }

  lemma LiveStepSlim(env: Env, p: Pipe, item: Indexed)
    requires Slim(env.depth, p.window)
    ensures Slim(env.depth, LiveStep(env, p, item).window)
  {
    match item
    case Retraction(pos) =>
    case Emit(i) =>
      if p.window.core.healthy && env.encode(i.event).Some? {
        hide FlushMatured, FirstIndex, SwapRemove;
        var w := Buffer(env.policy, p.window.(core := p.window.core.(captured := true)), i.position,
            env.encode(i.event).value).0;
        assert forall k | k in w.pending :: !w.pending[k].seeded && w.head.Some? && k <= w.head.value;
        FlushConfirmed(env, w, p.store);
        FlushFails(env, w, p.store);
        var f := FlushMatured(env, w, p.store).0;
        forall k | k in f.pending ensures !Matures(f.head, env.depth, k) {
          assert k !in Matured(env.depth, f);
        }
      }
  }

  lemma {:induction false} FlushFails(env: Env, w: Window, s: StoreState)
    requires w.core.healthy
    ensures var w' := FlushMatured(env, w, s).0; !w'.core.healthy ==> w'.pending == map[]
    decreases |w.pending|
  {
    var due := Matured(env.depth, w);
    if due != {} {
      var b := Least(due);
      var (core, s1, ok) := Flush(env, w.core, s, GroupOf(w.pending[b]));
      if ok {
        SmallerMap(w.pending, b);
        FlushFails(env, FlushOne(w, b).(core := core), s1);
      }
    }
  }

  /** A live-only window, whatever arrives, never holds more than `depth` groups. */
  lemma {:induction false} LiveBufferBounded(env: Env, settled: Settled, seed: Option<Position>, s: StoreState,
                                             items: seq<Indexed>)
    ensures Slim(env.depth, LiveRun(env, Pipe(settled, Fresh(seed), s, []), items).window)
    ensures |LiveRun(env, Pipe(settled, Fresh(seed), s, []), items).window.pending| <= env.depth
  {
    var p := Pipe(settled, Fresh(seed), s, []);
    if items != [] {
      LiveBufferBounded(env, settled, seed, s, items[..|items| - 1]);
      LiveStepSlim(env, LiveRun(env, p, items[..|items| - 1]), items[|items| - 1]);
    }
    SlimIsShort(env.depth, LiveRun(env, p, items).window);
  }

  lemma {:induction false} FlushSucceeds(env: Env, w: Window, s: StoreState)
    requires w.core.healthy && forall n: nat :: !env.fails(n)
    ensures FlushMatured(env, w, s).0.core.healthy
    decreases |w.pending|
  {
    var due := Matured(env.depth, w);
    if due != {} {
      var b := Least(due);
      var (core, s1, ok) := Flush(env, w.core, s, GroupOf(w.pending[b]));
      SmallerMap(w.pending, b);
      FlushSucceeds(env, FlushOne(w, b).(core := core), s1);
    }
  }

  /** With encodable events and working writes, the watermark alone decides: a live item halts the
      window exactly when it lies at or below it, and the halting item itself writes nothing. */
  lemma HaltsExactlyAtWatermark(env: Env, p: Pipe, item: Indexed)
    requires env.policy.Halt? && p.window.core.healthy && (forall n: nat :: !env.fails(n))
    requires item.Emit? ==> env.encode(item.item.event).Some?
    ensures LiveStep(env, p, item).window.core.healthy <==> Above(p.window.flushed, PositionOf(item).key)
    ensures !LiveStep(env, p, item).window.core.healthy ==> LiveStep(env, p, item).store == p.store
  {
    hide FlushMatured, FirstIndex, SwapRemove, Contains;
    if item.Emit? {
      FlushSucceeds(env, Buffer(Halt, p.window.(core := p.window.core.(captured := true)), item.item.position,
          env.encode(item.item.event).value).0, p.store);
    }
  }

  /** A halt is final: whatever arrives afterwards, the store stays as it is. */
  lemma DeepReorgFreezesStore(env: Env, p: Pipe, item: Indexed, later: seq<Indexed>)
    requires env.policy.Halt? && !Above(p.window.flushed, PositionOf(item).key)
    ensures LiveRun(env, LiveStep(env, p, item), later).store == p.store
  {
    HaltedStays(env, LiveStep(env, p, item), later);
  }

  /** The highest key the window has seen. */
  function Peak(peak: nat, items: seq<Indexed>): nat {
    if items == [] then peak else
      var front, last := Peak(peak, items[..|items| - 1]), items[|items| - 1];
      if last.Emit? then Max(front, last.item.position.key) else front
  }

  /** The watermark sits at its floor, or trails the peak by `depth`. */
  ghost predicate Trails(depth: nat, w: Window, floor: Option<nat>, peak: nat) {
    && (w.head.Some? ==> w.head.value <= peak)
    && (w.flushed == floor || (w.flushed.Some? && w.flushed.value + depth <= peak))
  }

  lemma {:induction false} FlushTrails(env: Env, w: Window, s: StoreState, floor: Option<nat>, peak: nat)
    requires Trails(env.depth, w, floor, peak) && peak < U64_MAX
    ensures Trails(env.depth, FlushMatured(env, w, s).0, floor, peak)
    decreases |w.pending|
  {
    var due := Matured(env.depth, w);
    if due != {} {
      var b := Least(due);
      var (core, s1, ok) := Flush(env, w.core, s, GroupOf(w.pending[b]));
      if ok {
        SmallerMap(w.pending, b);
        FlushTrails(env, FlushOne(w, b).(core := core), s1, floor, peak);
      }
    }
  }

  lemma LiveStepTrails(env: Env, p: Pipe, item: Indexed, floor: Option<nat>, peak: nat)
    requires env.policy.Halt? && Trails(env.depth, p.window, floor, peak) && Peak(peak, [item]) < U64_MAX
    ensures Trails(env.depth, LiveStep(env, p, item).window, floor, Peak(peak, [item]))
  {
    hide FlushMatured, FirstIndex, SwapRemove, Contains;
    assert [item][..0] == [];
    if item.Emit? && env.encode(item.item.event).Some? {
      FlushTrails(env, Buffer(Halt, p.window.(core := p.window.core.(captured := true)), item.item.position,
          env.encode(item.item.event).value).0,
                  p.store, floor, Peak(peak, [item]));
    }
  }

  /** Every item reaches back less than `depth` below everything seen before it, and stays above the floor. */
  ghost predicate Shallow(env: Env, floor: Option<nat>, peak: nat, items: seq<Indexed>) {
    forall i | 0 <= i < |items| ::
      && Above(floor, PositionOf(items[i]).key) && PositionOf(items[i]).key < U64_MAX
      && PositionOf(items[i]).key + env.depth > Peak(peak, items[..i])
      && (items[i].Emit? ==> env.encode(items[i].item.event).Some?)
  }

  /** Reorgs shallower than the depth never halt the window: while every re-emission and retraction at `k` has
      `k + depth` above the tip and every key seen so far, and `k` is above the seed, the window stays healthy. */
  lemma {:induction false} ShallowReorgsNeverHalt(env: Env, p: Pipe, items: seq<Indexed>, peak: nat)
    requires env.policy.Halt? && p.window.core.healthy && (forall n: nat :: !env.fails(n)) && peak < U64_MAX
    requires p.window.head.Some? ==> p.window.head.value <= peak
    requires Shallow(env, p.window.flushed, peak, items)
    ensures LiveRun(env, p, items).window.core.healthy
    ensures Trails(env.depth, LiveRun(env, p, items).window, p.window.flushed, Peak(peak, items))
        && Peak(peak, items) < U64_MAX
  {
    if items != [] {
      var front, last := items[..|items| - 1], items[|items| - 1];
      forall i | 0 <= i < |front| ensures front[i] == items[i] && front[..i] == items[..i] {}
      ShallowReorgsNeverHalt(env, p, front, peak);
      assert items[..|items| - 1] == front && last == items[|items| - 1];
      var q := LiveRun(env, p, front);
      assert Peak(Peak(peak, front), [last]) == Peak(peak, items) by { assert [last][..0] == []; }
      HaltsExactlyAtWatermark(env, q, last);
      LiveStepTrails(env, q, last, p.window.flushed, Peak(peak, front));
    }
  }

  /** The same for a whole session: nothing that reaches back less than `depth` below the subscribe tip and every key
      seen since, and stays above the cut and the stored position, halts the window the backfill left healthy. */
  lemma ShallowSessionNeverHalts(env: Env, g: Gap, s: StoreState, backfill: seq<Positioned>, live: seq<Indexed>)
    requires Sound(env, g) && InGap(backfill, KeyOf(g.seed), g.tip) && g.tip < U64_MAX
        && (forall n: nat :: !env.fails(n))
    requires Joined(env, g, s, backfill).window.core.healthy && Shallow(env, Floor(g), g.tip, live)
    ensures Run(env, g, s, backfill, live).window.core.healthy
  {
    hide Joined, LiveRun, Buffers, StoredUpTo, ChainRun, Part, Unripe, Shallow;
    NothingLive();
    var settled, tailed, es, tail, n := SessionKeepsChain(env, g, s, backfill, []);
    PartWithin(g.cut, backfill, false, KeyOf(g.seed), g.tip);
    HeadWithin(env, Joined(env, g, s, backfill).window, tail, g.tip);
    ShallowReorgsNeverHalt(env, Joined(env, g, s, backfill), live, g.tip);
  }

  lemma NothingLive()
    ensures LiveBlocks([])
  {
  }

  lemma HeadWithin(env: Env, w: Window, tail: seq<Keyed<Event>>, tip: nat)
    requires Buffers(env, SeedChain(tail), w) && forall e | e in tail :: e.key <= tip
    ensures w.head.Some? ==> w.head.value <= tip
  {
    assert tail != [] ==> tail[|tail| - 1] in tail;
  }

  /** A writer that has halted holds no rows: nothing grows behind a stopped archive. */
  ghost predicate Emptied(p: Pipe) {
    && (!p.window.core.healthy ==> p.window.pending == map[])
    && (!p.settled.core.healthy ==> p.settled.buffer == [])
  }

  lemma {:induction false} FlushEmpties(env: Env, w: Window, s: StoreState)
    requires w.core.healthy
    ensures var w' := FlushMatured(env, w, s).0; !w'.core.healthy ==> w'.pending == map[]
    decreases |w.pending|
  {
    var due := Matured(env.depth, w);
    if due != {} {
      var b := Least(due);
      var (core, s1, ok) := Flush(env, w.core, s, GroupOf(w.pending[b]));
      SmallerMap(w.pending, b);
      if ok { FlushEmpties(env, FlushOne(w, b).(core := core), s1); }
    }
  }

  lemma BackfillStepEmpties(env: Env, cut: Option<nat>, p: Pipe, item: Positioned)
    requires Emptied(p)
    ensures Emptied(BackfillStep(env, cut, p, item))
  {
    hide FlushMatured, Covered, SettledCovers, BufferSeed, Advance;
    if p.window.core.healthy && env.encode(item.event).Some? {
      var w := BufferSeed(p.window.(core := p.window.core.(captured := true)), item.position,
                          env.encode(item.event).value);
      SeedKeepsCore(p.window.(core := p.window.core.(captured := true)), item.position, env.encode(item.event).value);
      FlushEmpties(env, w, p.store);
    }
  }

  lemma SeedKeepsCore(w: Window, pos: Position, row: Row)
    ensures BufferSeed(w, pos, row).core == w.core
    ensures forall policy :: Buffer(policy, w, pos, row).0.core == w.core
  {
  }

  lemma LiveStepEmpties(env: Env, p: Pipe, item: Indexed)
    requires Emptied(p)
    ensures Emptied(LiveStep(env, p, item))
  {
    hide FlushMatured, Covered, Buffer, Rewind;
    if p.window.core.healthy && item.Emit? && env.encode(item.item.event).Some? {
      var w, row := p.window.(core := p.window.core.(captured := true)), env.encode(item.item.event).value;
      SeedKeepsCore(w, item.item.position, row);
      FlushEmpties(env, Buffer(env.policy, w, item.item.position, row).0, p.store);
    }
  }

  lemma {:induction false} BackfillEmpties(env: Env, cut: Option<nat>, p: Pipe, items: seq<Positioned>)
    requires Emptied(p)
    ensures Emptied(BackfillRun(env, cut, p, items))
  {
    if items != [] {
      hide BackfillStep, Emptied;
      BackfillEmpties(env, cut, p, items[..|items| - 1]);
      BackfillStepEmpties(env, cut, BackfillRun(env, cut, p, items[..|items| - 1]), items[|items| - 1]);
    }
  }

  lemma {:induction false} LiveEmpties(env: Env, p: Pipe, items: seq<Indexed>)
    requires Emptied(p)
    ensures Emptied(LiveRun(env, p, items))
  {
    if items != [] {
      hide LiveStep, Emptied;
      LiveEmpties(env, p, items[..|items| - 1]);
      LiveStepEmpties(env, LiveRun(env, p, items[..|items| - 1]), items[|items| - 1]);
    }
  }

  /** In every subscription, of either policy and wherever it stops, a halted writer holds no rows. */
  lemma HaltedHoldsNothing(env: Env, g: Gap, s: StoreState, backfill: seq<Positioned>, live: seq<Indexed>)
    ensures Emptied(BackfillRun(env, g.cut, Open(g.cut, g.seed, s), backfill))
    ensures Emptied(Run(env, g, s, backfill, live))
  {
    hide BackfillRun, LiveRun;
    BackfillEmpties(env, g.cut, Open(g.cut, g.seed, s), backfill);
    LiveEmpties(env, Joined(env, g, s, backfill), live);
  }
}
