/** Whole-session refinement for Halt sources: what is stored is always the canonical chain. */
module Canonical {
  import opened Base
  import opened Positions
  import opened Store
  import opened WindowSpec
  import opened Chain
  import opened Pipeline

  predicate IsBlock(p: Position) {
    p.seen == {}
  }

  function PositionOf(item: Indexed): Position {
    match item
    case Emit(i) => i.position
    case Retraction(p) => p
  }

  ghost predicate LiveBlocks(items: seq<Indexed>) {
    forall i | i in items :: IsBlock(PositionOf(i))
  }

  function ChainRun(c: Chain, items: seq<Indexed>): Chain {
    if items == [] then c else ChainStep(ChainRun(c, items[..|items| - 1]), items[|items| - 1])
  }

  lemma ChainRunPush(c: Chain, items: seq<Indexed>, item: Indexed)
    ensures ChainRun(c, items + [item]) == ChainStep(ChainRun(c, items), item)
  {
    assert (items + [item])[..|items|] == items;
  }

  lemma LiveRunPush(env: Env, p: Pipe, items: seq<Indexed>, item: Indexed)
    ensures LiveRun(env, p, items + [item]) == LiveStep(env, LiveRun(env, p, items), item)
  {
    assert (items + [item])[..|items|] == items;
  }

  /** Store and window together hold the chain: the log above `base` up to `flushed`, the buffer above it. */
  ghost predicate Tracks(env: Env, p: Pipe, c: Chain, base: seq<Group>, mine: seq<Group>, low: Option<nat>) {
    && p.store.log == base + mine
    && StoredUpTo(env, mine, c.events, low, p.window.flushed)
    && (p.window.core.healthy ==> Buffers(env, c, p.window))
  }

  lemma LiveStepKeepsChain(env: Env, p: Pipe, c: Chain, base: seq<Group>, mine: seq<Group>, low: Option<nat>,
                           item: Indexed)
    returns (moved: bool, mine': seq<Group>)
    requires env.policy.Halt? && IsBlock(PositionOf(item))
    requires Tracks(env, p, c, base, mine, low) && p.window.core.healthy
    ensures Tracks(env, LiveStep(env, p, item), if moved then ChainStep(c, item) else c, base, mine', low)
    ensures !moved ==> !LiveStep(env, p, item).window.core.healthy && LiveStep(env, p, item).store == p.store
    ensures !moved ==> LiveStep(env, p, item).window.flushed == p.window.flushed
  {
    mine' := mine;
    moved := false;
    match item
    case Emit(Positioned(pos, ev)) =>
      assert pos == FromSortKey(pos.key);
      if Above(p.window.flushed, pos.key) && env.encode(ev).Some? {
        mine' := RecordKeepsChain(env, p.window, p.store, c, base, mine, low, pos.key, ev);
        moved := true;
      }
    case Retraction(pos) =>
      assert pos == FromSortKey(pos.key);
      if Above(p.window.flushed, pos.key) {
        RetractKeepsChain(env, p.window, c, mine, low, pos.key);
        moved := true;
      }
  }

  lemma {:induction false} HaltedStays(env: Env, p: Pipe, items: seq<Indexed>)
    requires !p.window.core.healthy
    ensures LiveRun(env, p, items).store == p.store && LiveRun(env, p, items).window == p.window
  {
    if items != [] {
      HaltedStays(env, p, items[..|items| - 1]);
    }
  }

  /** Main theorem: after any live events and retractions the store and the buffer
      together are the chain the source announced; once halted, the stored part
      stays the chain as it stood after the first `n` items. */
  lemma {:induction false} CanonicalChain(env: Env, p: Pipe, c: Chain, base: seq<Group>, mine: seq<Group>,
                                          low: Option<nat>, items: seq<Indexed>)
    returns (n: nat, mine': seq<Group>)
    requires env.policy.Halt? && LiveBlocks(items)
    requires Tracks(env, p, c, base, mine, low)
    ensures n <= |items|
    ensures Tracks(env, LiveRun(env, p, items), ChainRun(c, items[..n]), base, mine', low)
    ensures LiveRun(env, p, items).window.core.healthy ==> n == |items|
    ensures items == [] ==> mine' == mine
    ensures LiveRun(env, p, items[..n]).window.flushed == LiveRun(env, p, items).window.flushed
  {
    if items == [] {
      n, mine' := 0, mine;
    } else {
      var front, last := items[..|items| - 1], items[|items| - 1];
      n, mine' := CanonicalChain(env, p, c, base, mine, low, front);
      assert front[..n] == items[..n];
      var q := LiveRun(env, p, front);
      if q.window.core.healthy {
        var moved;
        moved, mine' := LiveStepKeepsChain(env, q, ChainRun(c, front), base, mine', low, last);
        assert front[..n] == front && items[..|items|] == items;
        n := if moved then |items| else |front|;
      }
    }
  }
}
