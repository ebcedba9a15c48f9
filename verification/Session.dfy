/** One whole subscription of a Halt source: backfill, boundary, live tail. */
module Session {
  import opened Base
  import opened Positions
  import opened Store
  import opened Streams
  import opened WindowSpec
  import opened Chain
  import opened Pipeline
  import opened Canonical
  import opened Backfill

  /** The last key the window may not rewrite when the live tail starts. */
  function Floor(g: Gap): Option<nat> {
    KeyOf(WindowSeed(g.cut, g.seed))
  }

  /** The settled part as `finish` leaves it. */
  ghost predicate Finished(env: Env, g: Gap, b: Settled, mine: seq<Group>, es: seq<Keyed<Event>>) {
    && StoredUpTo(env, mine, es, KeyOf(g.seed), KeyOf(b.watermark))
    && (KeyOf(b.watermark) != KeyOf(g.seed) ==> Settles(g.cut, b.watermark.value.key))
    && (KeyOf(b.watermark) != KeyOf(g.seed) ==> es != [] && b.watermark.value.key <= es[|es| - 1].key)
    && (!b.core.healthy && KeyOf(b.watermark) != KeyOf(g.seed) ==> Above(KeyOf(b.watermark), es[|es| - 1].key))
    && (b.core.healthy ==>
        Ordered(es) && forall e | e in es :: !Above(KeyOf(b.watermark), e.key) && env.encode(e.value).Some?)
  }

  lemma FinishTracks(env: Env, g: Gap, b: Settled, s: StoreState, base: seq<Group>, mine: seq<Group>,
                     es: seq<Keyed<Event>>)
    returns (mine': seq<Group>)
    requires SettledTracks(env, b, mine, es, KeyOf(g.seed), g.cut) && s.log == base + mine
    ensures var (b', s') := Finish(env, b, s);
      && s'.log == base + mine' && Finished(env, g, b', mine', es)
      && (b'.core.healthy ==> b.core.healthy)
  {
    mine' := mine;
    if b.core.healthy && b.current.Some? && !env.fails(s.attempts) {
      CloseStores(env, b, mine, es, KeyOf(g.seed));
      mine' := mine + [Group(b.current.value, b.buffer)];
      assert s.log + [Group(b.current.value, b.buffer)] == base + mine';
    }
  }

  lemma AbsorbKeepsChain(env: Env, w: Window, c: Chain, settled: Option<Position>)
    requires Buffers(env, c, w)
    requires settled.Some? ==> !Above(w.flushed, settled.value.key)
    ensures Absorb(w, settled).flushed == w.flushed && Buffers(env, c, Absorb(w, settled))
  {
    forall k | k in w.pending ensures SlotMatches(env, c, Absorb(w, settled), k) {
      assert SlotMatches(env, c, w, k);
    }
  }

  /** Store and window when the live tail starts. */
  ghost predicate AtBoundary(env: Env, g: Gap, q: Pipe, base: seq<Group>, mine: seq<Group>, es: seq<Keyed<Event>>,
                             tail: seq<Keyed<Event>>) {
    && q.store.log == base + mine
    && Finished(env, g, q.settled, mine, es)
    && q.window.flushed == Floor(g)
    && (q.window.core.healthy ==> Buffers(env, SeedChain(tail), q.window))
  }

  lemma BoundaryTracks(env: Env, g: Gap, p: Pipe, base: seq<Group>, mine: seq<Group>, es: seq<Keyed<Event>>,
                       tail: seq<Keyed<Event>>)
    returns (mine': seq<Group>)
    requires Sound(env, g) && BackfillTracks(env, g, p, base, mine, es, tail)
    ensures AtBoundary(env, g, Boundary(env, p), base, mine', es, tail)
    ensures var q := Boundary(env, p);
      && q.out == p.out
      && (q.settled.core.healthy ==> p.settled.core.healthy)
      && (q.window.core.healthy <==> q.settled.core.healthy && p.window.core.healthy)
  {
    mine' := FinishTracks(env, g, p.settled, p.store, base, mine, es);
    var b := Finish(env, p.settled, p.store).0;
    assert b.watermark.Some? ==> !Above(p.window.flushed, b.watermark.value.key);
    if p.window.core.healthy {
      AbsorbKeepsChain(env, p.window, SeedChain(tail), b.watermark);
    }
  }

  /** The pipeline when the live tail starts. */
  function Joined(env: Env, g: Gap, s: StoreState, backfill: seq<Positioned>): Pipe {
    Boundary(env, BackfillRun(env, g.cut, Open(g.cut, g.seed, s), backfill))
  }

  function Run(env: Env, g: Gap, s: StoreState, backfill: seq<Positioned>, live: seq<Indexed>): Pipe {
    LiveRun(env, Joined(env, g, s, backfill), live)
  }

  lemma {:induction false} PartWithin(cut: Option<nat>, items: seq<Positioned>, settled: bool, seed: Option<nat>,
                                      tip: nat)
    requires InGap(items, seed, tip)
    ensures forall e | e in Part(cut, items, settled) ::
        Above(seed, e.key) && e.key <= tip && Settles(cut, e.key) == settled
  {
    if items != [] {
      PartWithin(cut, items[..|items| - 1], settled, seed, tip);
      assert items[|items| - 1] in items;
    }
  }

  /** What a whole session leaves behind, in terms of what the source delivered. */
  ghost predicate SessionTracks(env: Env, g: Gap, q: Pipe, base: seq<Group>, es: seq<Keyed<Event>>, c: Chain,
                                settled: seq<Group>, tailed: seq<Group>) {
    && q.store.log == base + settled + tailed
    && Finished(env, g, q.settled, settled, es)
    && StoredUpTo(env, tailed, c.events, Floor(g), q.window.flushed)
    && (q.window.core.healthy ==> Buffers(env, c, q.window))
    && (!q.settled.core.healthy ==> tailed == [] && !q.window.core.healthy)
  }

  /** Halt sessions: through any backfill and any live events and retractions, the store is
      the settled prefix followed by the canonical chain. */
  lemma SessionKeepsChain(env: Env, g: Gap, s: StoreState, backfill: seq<Positioned>, live: seq<Indexed>)
    returns (settled: seq<Group>, tailed: seq<Group>, es: seq<Keyed<Event>>, tail: seq<Keyed<Event>>, n: nat)
    requires Sound(env, g) && InGap(backfill, KeyOf(g.seed), g.tip) && LiveBlocks(live)
    ensures n <= |live|
    ensures var q, p := Run(env, g, s, backfill, live), Joined(env, g, s, backfill);
      && SessionTracks(env, g, q, s.log, es, ChainRun(SeedChain(tail), live[..n]), settled, tailed)
      && Taken(q.settled.core.healthy, es, Part(g.cut, backfill, true))
      && Taken(p.window.core.healthy, tail, Part(g.cut, backfill, false))
      && p.store.log == s.log + settled && p.window.flushed == Floor(g)
      && (p.window.core.healthy ==> Buffers(env, SeedChain(tail), p.window))
      && (tailed != [] || q.window.core.healthy ==> p.window.core.healthy)
      && (q.window.core.healthy ==> n == |live|)
      && (live == [] ==> tailed == [])
      && q.window.flushed == LiveRun(env, p, live[..n]).window.flushed
  {
    var mine;
    mine, es, tail := BackfillKeepsChain(env, g, s, backfill);
    var p := BackfillRun(env, g.cut, Open(g.cut, g.seed, s), backfill);
    settled := BoundaryTracks(env, g, p, s.log, mine, es, tail);
    var q := Boundary(env, p);
    PartWithin(g.cut, backfill, false, KeyOf(g.seed), g.tip);
    EmptyStored(env, tail, Floor(g));
    n, tailed := CanonicalChain(env, q, SeedChain(tail), s.log + settled, [], Floor(g), live);
    if !q.window.core.healthy { HaltedStays(env, q, live); }
    SettledUntouched(env, q, live);
  }

  lemma {:induction false} SettledUntouched(env: Env, p: Pipe, items: seq<Indexed>)
    ensures LiveRun(env, p, items).settled == p.settled
  {
    if items != [] {
      SettledUntouched(env, p, items[..|items| - 1]);
    }
  }
}
