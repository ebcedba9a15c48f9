/** In-memory watermarks agree with the durable position, for both policies. */
module Watermarks {
  import opened Base
  import opened Positions
  import opened Store
  import opened WindowSpec
  import opened Pipeline
  import opened Backfill
  import opened Session

  /** Both writers while the backfill runs: the settled watermark is the durable position, the window has not moved. */
  ghost predicate Agree(g: Gap, p: Pipe) {
    && p.settled.watermark == p.store.position
    && Join(g.seed, p.store.position) == p.store.position
    && (p.settled.core.healthy && p.settled.current.Some? ==> p.settled.core.captured)
    && p.window.watermark == WindowSeed(g.cut, g.seed)
    && (p.window.pending != map[] ==> p.window.core.captured)
    && (p.window.head.Some? ==> p.window.head.value <= g.tip)
    && (forall b | b in p.window.pending :: b <= g.tip && !Settles(g.cut, b))
  }

  lemma Absorbs(seed: Option<Position>, p: Option<Position>, next: Position)
    requires Join(seed, p) == p
    ensures Join(seed, Some(Advance(p, next))) == Some(Advance(p, next))
  {
    JoinAssociates(seed, p, Some(next));
  }

  lemma NotYetDue(env: Env, g: Gap, w: Window, s: StoreState)
    requires Unripe(env.depth, g.cut, g.tip)
    requires w.head.Some? ==> w.head.value <= g.tip
    requires forall b | b in w.pending :: b <= g.tip && !Settles(g.cut, b)
    ensures FlushMatured(env, w, s) == (w, s)
  {
    forall b | b in w.pending ensures !Matures(w.head, env.depth, b) {
      assert !Matures(Some(g.tip), env.depth, b);
    }
    assert Matured(env.depth, w) == {};
  }

  lemma BackfillStepAgrees(env: Env, g: Gap, p: Pipe, item: Positioned)
    requires Unripe(env.depth, g.cut, g.tip) && item.position.key <= g.tip && Agree(g, p)
    ensures Agree(g, BackfillStep(env, g.cut, p, item))
  {
    hide FlushMatured, Advance, Contains;
    var row := env.encode(item.event);
    if Settles(g.cut, item.position.key) {
      if p.settled.current.Some? { Absorbs(g.seed, p.store.position, p.settled.current.value); }
    } else if row.Some? {
      NotYetDue(env, g, BufferSeed(p.window.(core := p.window.core.(captured := true)), item.position, row.value),
          p.store);
    }
  }

  lemma {:induction false} BackfillAgrees(env: Env, g: Gap, s: StoreState, items: seq<Positioned>)
    requires Unripe(env.depth, g.cut, g.tip) && s.position == g.seed
    requires forall i | i in items :: i.position.key <= g.tip
    ensures Agree(g, BackfillRun(env, g.cut, Open(g.cut, g.seed, s), items))
  {
    if items == [] {
      JoinLaws(g.seed, g.seed, g.seed);
    } else {
      BackfillAgrees(env, g, s, items[..|items| - 1]);
      assert items[|items| - 1] in items;
      BackfillStepAgrees(env, g, BackfillRun(env, g.cut, Open(g.cut, g.seed, s), items[..|items| - 1]),
          items[|items| - 1]);
    }
  }

  /** From the boundary on: the window's watermark is the durable position advanced with the cut. */
  ghost predicate WindowAgrees(cut: Option<nat>, w: Window, s: StoreState) {
    && w.watermark == WindowSeed(cut, s.position)
    && (w.pending != map[] ==> w.core.captured)
  }

  lemma BoundaryAgrees(env: Env, g: Gap, p: Pipe)
    requires Agree(g, p)
    ensures var q := Boundary(env, p);
      q.settled.core.healthy ==> q.settled.watermark == q.store.position && WindowAgrees(g.cut, q.window, q.store)
  {
    hide Advance;
    var (b, s) := Finish(env, p.settled, p.store);
    if p.settled.current.Some? { Absorbs(g.seed, p.store.position, p.settled.current.value); }
    var cut := if g.cut.None? then None else Some(FromSortKey(g.cut.value));
    assert WindowSeed(g.cut, g.seed) == Join(g.seed, cut) && WindowSeed(g.cut, s.position) == Join(s.position, cut);
    JoinLaws(g.seed, cut, s.position);
    JoinLaws(cut, s.position, cut);
    JoinLaws(g.seed, s.position, cut);
  }

  lemma {:induction false} FlushAgrees(env: Env, cut: Option<nat>, w: Window, s: StoreState)
    requires WindowAgrees(cut, w, s)
    ensures var (w', s') := FlushMatured(env, w, s); WindowAgrees(cut, w', s')
    decreases |w.pending|
  {
    var due := Matured(env.depth, w);
    if due != {} {
      var b := Least(due);
      var (core, s1, ok) := Flush(env, w.core, s, GroupOf(w.pending[b]));
      if ok {
        SmallerMap(w.pending, b);
        SeedAdvances(cut, s.position, w.pending[b].position);
        FlushAgrees(env, cut, FlushOne(w, b).(core := core), s1);
      }
    }
  }

  lemma SeedAdvances(cut: Option<nat>, p: Option<Position>, next: Position)
    ensures Some(Advance(WindowSeed(cut, p), next)) == WindowSeed(cut, Some(Advance(p, next)))
  {
    var c := if cut.None? then None else Some(FromSortKey(cut.value));
    JoinLaws(p, c, Some(next));
    JoinLaws(c, Some(next), p);
    JoinLaws(p, Some(next), c);
  }

  lemma LiveStepAgrees(env: Env, cut: Option<nat>, p: Pipe, item: Indexed)
    requires WindowAgrees(cut, p.window, p.store)
    ensures var q := LiveStep(env, p, item); WindowAgrees(cut, q.window, q.store)
  {
    hide FlushMatured, Advance, Contains, WindowSeed;
    if item.Emit? && env.encode(item.item.event).Some? {
      FlushAgrees(env, cut, Buffer(env.policy, p.window.(core := p.window.core.(captured := true)), item.item.position,
          env.encode(item.item.event).value).0, p.store);
    }
  }

  lemma {:induction false} LiveAgrees(env: Env, cut: Option<nat>, p: Pipe, items: seq<Indexed>)
    requires WindowAgrees(cut, p.window, p.store)
    ensures var q := LiveRun(env, p, items); WindowAgrees(cut, q.window, q.store)
  {
    if items != [] {
      LiveAgrees(env, cut, p, items[..|items| - 1]);
      LiveStepAgrees(env, cut, LiveRun(env, p, items[..|items| - 1]), items[|items| - 1]);
    }
  }

  /** For any backfill within the tip and any live run, of either policy: the settled writer hands over the durable
      position, and after every later flush the window's watermark is the durable position advanced with the cut. */
  lemma WatermarksAgree(env: Env, g: Gap, s: StoreState, backfill: seq<Positioned>, live: seq<Indexed>)
    requires Unripe(env.depth, g.cut, g.tip) && s.position == g.seed
    requires forall i | i in backfill :: i.position.key <= g.tip
    ensures var p, q := Joined(env, g, s, backfill), Run(env, g, s, backfill, live);
      p.settled.core.healthy ==>
          p.settled.watermark == p.store.position && q.window.watermark == WindowSeed(g.cut, q.store.position)
  {
    hide Boundary, BackfillRun, LiveRun;
    BackfillAgrees(env, g, s, backfill);
    BoundaryAgrees(env, g, BackfillRun(env, g.cut, Open(g.cut, g.seed, s), backfill));
    if Joined(env, g, s, backfill).settled.core.healthy {
      LiveAgrees(env, g.cut, Joined(env, g, s, backfill), live);
    }
  }
}
