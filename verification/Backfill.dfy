/** The backfill half of a Halt session: the settled writer and the window's seed phase. */
module Backfill {
  import opened Base
  import opened Positions
  import opened Store
  import opened Streams
  import opened WindowSpec
  import opened Chain
  import opened Pipeline
  import opened Canonical

  function KeyOf(p: Option<Position>): Option<nat> {
    if p.None? then None else Some(p.value.key)
  }

  predicate Settles(cut: Option<nat>, k: nat) {
    cut.Some? && k <= cut.value
  }

  /** The settled (or the tail) part of the delivered backfill, in delivery order. */
  function Part(cut: Option<nat>, items: seq<Positioned>, settled: bool): seq<Keyed<Event>> {
    if items == [] then [] else
      var front, last := Part(cut, items[..|items| - 1], settled), items[|items| - 1];
      if Settles(cut, last.position.key) == settled then front + [Keyed(last.position.key, last.event)] else front
  }

  /** The collector's range law: block positions above the stored seed and up to the tip. */
  ghost predicate InGap(items: seq<Positioned>, seed: Option<nat>, tip: nat) {
    forall i | i in items :: IsBlock(i.position) && Above(seed, i.position.key) && i.position.key <= tip
  }

  /** No position above the cut can have `depth` confirmations at the tip. */
  ghost predicate Unripe(depth: nat, cut: Option<nat>, tip: nat) {
    forall k: nat :: k <= tip && !Settles(cut, k) ==> !Matures(Some(tip), depth, k)
  }

  function SeedChain(es: seq<Keyed<Event>>): Chain {
    Chain(es, if es == [] then None else Some(es[|es| - 1].key), None)
  }

  ghost predicate OpenGroup(env: Env, b: Settled, es: seq<Keyed<Event>>) {
    && Ordered(es)
    && (forall e | e in es :: b.current.Some? && e.key <= b.current.value.key && env.encode(e.value).Some?)
    && match b.current
       case None => b.buffer == []
       case Some(cur) =>
         && es != [] && es[|es| - 1].key == cur.key
         && b.core.captured && IsBlock(cur) && Above(KeyOf(b.watermark), cur.key)
         && b.buffer == Rows(env, At(es, cur.key))
         && (forall k: nat :: Above(KeyOf(b.watermark), k) && k < cur.key ==> At(es, k) == [])
  }

  ghost predicate SettledTracks(env: Env, b: Settled, mine: seq<Group>, es: seq<Keyed<Event>>, low: Option<nat>,
                                cut: Option<nat>) {
    && StoredUpTo(env, mine, es, low, KeyOf(b.watermark))
    && (b.core.healthy ==> OpenGroup(env, b, es))
    && (b.core.healthy && b.current.None? ==> KeyOf(b.watermark) == low)
    && (b.current.Some? ==> Settles(cut, b.current.value.key))
    && (KeyOf(b.watermark) != low ==> es != [] && Above(KeyOf(b.watermark), es[|es| - 1].key))
    && (KeyOf(b.watermark) != low ==> Settles(cut, b.watermark.value.key))
  }

  lemma StoredBelowPush(env: Env, mine: seq<Group>, es: seq<Keyed<Event>>, low: Option<nat>, upTo: Option<nat>,
                        e: Keyed<Event>)
    requires StoredUpTo(env, mine, es, low, upTo) && Above(upTo, e.key)
    ensures StoredUpTo(env, mine, es + [e], low, upTo)
  {
    forall k: nat | !Above(upTo, k) ensures At(es + [e], k) == At(es, k) {
      AtPush(es, e, k);
    }
    StoredTransfers(env, mine, es, es + [e], low, upTo);
  }

  lemma OpenNew(env: Env, b: Settled, es: seq<Keyed<Event>>, k: nat, ev: Event)
    requires Ordered(es) && env.encode(ev).Some? && b.core.captured
    requires forall e | e in es :: !Above(KeyOf(b.watermark), e.key) && env.encode(e.value).Some?
    requires b.current.None? && b.buffer == [] && Above(KeyOf(b.watermark), k)
    ensures OpenGroup(env, Append(b, FromSortKey(k), env.encode(ev).value), es + [Keyed(k, ev)])
  {
    var es' := es + [Keyed(k, ev)];
    AtAbsent(es, k);
    AtPush(es, Keyed(k, ev), k);
    assert Rows(env, [ev]) == [env.encode(ev).value] by { RowsPush(env, [], ev); assert [] + [ev] == [ev]; }
    forall j: nat | Above(KeyOf(b.watermark), j) && j < k ensures At(es', j) == [] {
      AtAbsent(es', j);
    }
  }

  lemma OpenGroupPush(env: Env, b: Settled, es: seq<Keyed<Event>>, k: nat, ev: Event)
    requires OpenGroup(env, b, es) && env.encode(ev).Some?
    requires b.current == Some(FromSortKey(k))
    ensures OpenGroup(env, Append(b, FromSortKey(k), env.encode(ev).value), es + [Keyed(k, ev)])
  {
    var es' := es + [Keyed(k, ev)];
    RowsPush(env, At(es, k), ev);
    AtPush(es, Keyed(k, ev), k);
    forall j: nat | Above(KeyOf(b.watermark), j) && j < k ensures At(es', j) == [] {
      AtPush(es, Keyed(k, ev), j);
    }
  }

  /** Closing the open group stores it next in line. */
  lemma CloseStores(env: Env, b: Settled, mine: seq<Group>, es: seq<Keyed<Event>>, low: Option<nat>)
    requires OpenGroup(env, b, es) && b.current.Some?
    requires StoredUpTo(env, mine, es, low, KeyOf(b.watermark))
    ensures KeyOf(Close(b).watermark) == Some(b.current.value.key)
    ensures StoredUpTo(env, mine + [Group(b.current.value, b.buffer)], es, low, KeyOf(Close(b).watermark))
  {
    EncodableAt(env, es, b.current.value.key);
    StoreNext(env, mine, es, low, KeyOf(b.watermark), Group(b.current.value, b.buffer));
  }

  /** The event joins (or opens) the group being collected. */
  lemma AppendTracks(env: Env, b: Settled, mine: seq<Group>, es: seq<Keyed<Event>>, low: Option<nat>, cut: Option<nat>,
                     k: nat, ev: Event)
    requires SettledTracks(env, b, mine, es, low, cut) && b.core.healthy && env.encode(ev).Some?
    requires Above(low, k) && Settles(cut, k)
    requires b.current.None? || b.current == Some(FromSortKey(k))
    ensures SettledTracks(env, Append(b.(core := b.core.(captured := true)), FromSortKey(k), env.encode(ev).value),
                          mine, es + [Keyed(k, ev)], low, cut)
  {
    var b1 := b.(core := b.core.(captured := true));
    StoredBelowPush(env, mine, es, low, KeyOf(b.watermark), Keyed(k, ev));
    if b.current.None? {
      OpenNew(env, b1, es, k, ev);
    } else {
      OpenGroupPush(env, b1, es, k, ev);
    }
  }

  /** A higher key completes the open group, which is written before the new one opens. */
  lemma AdvanceTracks(env: Env, b: Settled, mine: seq<Group>, es: seq<Keyed<Event>>, low: Option<nat>,
                      cut: Option<nat>, k: nat, ev: Event)
    requires SettledTracks(env, b, mine, es, low, cut) && b.core.healthy && env.encode(ev).Some?
    requires Above(low, k) && Settles(cut, k)
    requires b.current.Some? && b.current.value.key < k
    ensures SettledTracks(env, Append(Close(b), FromSortKey(k), env.encode(ev).value),
                          mine + [Group(b.current.value, b.buffer)], es + [Keyed(k, ev)], low, cut)
  {
    CloseStores(env, b, mine, es, low);
    var mine' := mine + [Group(b.current.value, b.buffer)];
    StoredBelowPush(env, mine', es, low, KeyOf(Close(b).watermark), Keyed(k, ev));
    OpenNew(env, Close(b), es, k, ev);
  }

  lemma SettledStepTracks(env: Env, b: Settled, s: StoreState, base: seq<Group>, mine: seq<Group>,
                          es: seq<Keyed<Event>>,
                          low: Option<nat>, cut: Option<nat>, k: nat, ev: Event)
    returns (moved: bool, mine': seq<Group>)
    requires env.policy.Halt? && b.core.healthy
    requires SettledTracks(env, b, mine, es, low, cut) && s.log == base + mine
    requires Above(low, k) && Settles(cut, k)
    ensures var r := SettledRecord(env, b, s, FromSortKey(k), ev);
      && r.delivered
      && r.store.log == base + mine'
      && SettledTracks(env, r.settled, mine', if moved then es + [Keyed(k, ev)] else es, low, cut)
      && (r.settled.core.healthy ==> moved)
  {
    hide StoredUpTo, Rows, At, LogAt;
    moved, mine' := false, mine;
    if env.encode(ev).Some? {
      if b.current.None? || b.current.value.key == k {
        AppendTracks(env, b, mine, es, low, cut, k, ev);
        moved := true;
      } else if b.current.value.key < k && !env.fails(s.attempts) {
        AdvanceTracks(env, b, mine, es, low, cut, k, ev);
        mine' := mine + [Group(b.current.value, b.buffer)];
        assert s.log + [Group(b.current.value, b.buffer)] == base + mine';
        moved := true;
      }
    }
  }

  /** The window while the backfill runs: it buffers the tail and has written nothing. */
  ghost predicate TailTracks(env: Env, w: Window, es: seq<Keyed<Event>>, initial: Window, cut: Option<nat>, tip: nat) {
    && w.flushed == initial.flushed && w.watermark == initial.watermark
    && (w.core.healthy ==> Buffers(env, SeedChain(es), w))
    && (forall e | e in es :: e.key <= tip)
  }

  lemma NothingDue(env: Env, w: Window, es: seq<Keyed<Event>>, s: StoreState, cut: Option<nat>, tip: nat)
    requires Buffers(env, SeedChain(es), w)
    requires forall e | e in es :: e.key <= tip
    requires Unripe(env.depth, cut, tip)
    requires forall k: nat :: Settles(cut, k) ==> !Above(w.flushed, k)
    ensures FlushMatured(env, w, s) == (w, s)
  {
    forall b | b in w.pending ensures !Matures(w.head, env.depth, b) {
      assert SlotMatches(env, SeedChain(es), w, b);
      assert es[|es| - 1] in es;
      assert !Matures(Some(tip), env.depth, b);
    }
    assert Matured(env.depth, w) == {};
  }

  /** A tail event the window accepts is buffered, and nothing is written. */
  lemma TailAccepts(env: Env, w: Window, s: StoreState, es: seq<Keyed<Event>>, cut: Option<nat>, tip: nat, k: nat,
                    ev: Event)
    requires env.policy.Halt? && Buffers(env, SeedChain(es), w) && env.encode(ev).Some?
    requires forall e | e in es :: e.key <= tip
    requires Unripe(env.depth, cut, tip)
    requires forall j: nat :: Settles(cut, j) ==> !Above(w.flushed, j)
    requires Above(w.flushed, k) && k <= tip && (w.head.None? || w.head.value <= k)
    ensures var w' := BufferSeed(w.(core := w.core.(captured := true)), FromSortKey(k), env.encode(ev).value);
      && RecordSeeded(env, w, s, FromSortKey(k), ev) == Step(w', s, true)
      && Buffers(env, SeedChain(es + [Keyed(k, ev)]), w')
  {
    hide At, Rows, FlushMatured, SlotsMatch, NothingMissing;
    SeedKeepsChain(env, w, SeedChain(es), k, ev);
    assert Seed(SeedChain(es), k, ev) == SeedChain(es + [Keyed(k, ev)]);
    NothingDue(env, BufferSeed(w.(core := w.core.(captured := true)), FromSortKey(k), env.encode(ev).value),
        es + [Keyed(k, ev)], s, cut, tip);
  }

  lemma TailStepTracks(env: Env, w: Window, s: StoreState, es: seq<Keyed<Event>>, initial: Window, cut: Option<nat>,
                       tip: nat, k: nat, ev: Event)
    returns (moved: bool)
    requires env.policy.Halt? && w.core.healthy
    requires TailTracks(env, w, es, initial, cut, tip) && Unripe(env.depth, cut, tip)
    requires forall j: nat :: Settles(cut, j) ==> !Above(w.flushed, j)
    requires Above(w.flushed, k) && k <= tip
    ensures var r := RecordSeeded(env, w, s, FromSortKey(k), ev);
      && r.delivered && r.store == s
      && TailTracks(env, r.window, if moved then es + [Keyed(k, ev)] else es, initial, cut, tip)
      && (r.window.core.healthy ==> moved)
  {
    moved := env.encode(ev).Some? && (w.head.None? || w.head.value <= k);
    if moved {
      TailAccepts(env, w, s, es, cut, tip, k, ev);
    }
  }

  function Events(items: seq<Positioned>): seq<Event> {
    seq(|items|, i requires 0 <= i < |items| => items[i].event)
  }

  /** A session as the source sets it up: stored seed, cut and tip. */
  datatype Gap = Gap(cut: Option<nat>, seed: Option<Position>, tip: nat)

  ghost predicate Sound(env: Env, g: Gap) {
    && env.policy.Halt?
    && (g.seed.Some? ==> IsBlock(g.seed.value))
    && Unripe(env.depth, g.cut, g.tip)
  }

  /** `n` and `m`: how much of the settled and of the tail part was taken in before a writer halted. */
  ghost predicate BackfillTracks(env: Env, g: Gap, p: Pipe, base: seq<Group>, mine: seq<Group>, es: seq<Keyed<Event>>,
                                 tail: seq<Keyed<Event>>) {
    && p.store.log == base + mine
    && SettledTracks(env, p.settled, mine, es, KeyOf(g.seed), g.cut)
    && TailTracks(env, p.window, tail, Fresh(WindowSeed(g.cut, g.seed)), g.cut, g.tip)
  }

  lemma BackfillStepTracks(env: Env, g: Gap, p: Pipe, base: seq<Group>, mine: seq<Group>, es: seq<Keyed<Event>>,
                           tail: seq<Keyed<Event>>, item: Positioned)
    returns (moved: bool, mine': seq<Group>)
    requires Sound(env, g) && InGap([item], KeyOf(g.seed), g.tip)
    requires BackfillTracks(env, g, p, base, mine, es, tail)
    ensures var q, e, settles := BackfillStep(env, g.cut, p, item), Keyed(item.position.key, item.event),
        Settles(g.cut, item.position.key);
      && BackfillTracks(env, g, q, base, mine', if moved && settles then es + [e] else es, if moved
          && !settles then tail + [e] else tail)
      && q.out == p.out + [item.event]
      && (if settles then q.window == p.window && (q.settled.core.healthy ==> moved)
          else q.settled == p.settled && (q.window.core.healthy ==> moved))
      && (moved ==> if settles then p.settled.core.healthy else p.window.core.healthy)
      && (q.settled.core.healthy ==> p.settled.core.healthy) && (q.window.core.healthy ==> p.window.core.healthy)
  {
    var k, ev := item.position.key, item.event;
    assert item in [item] && item.position == FromSortKey(k);
    moved, mine' := false, mine;
    if Settles(g.cut, k) {
      if p.settled.core.healthy {
        moved, mine' := SettledStepTracks(env, p.settled, p.store, base, mine, es, KeyOf(g.seed), g.cut, k, ev);
      }
    } else if p.window.core.healthy {
      moved := TailStepTracks(env, p.window, p.store, tail, Fresh(WindowSeed(g.cut, g.seed)), g.cut, g.tip, k, ev);
    }
  }

  /** `es` is what of `all` a writer took in: everything while healthy, else a prefix. */
  ghost predicate Taken(healthy: bool, es: seq<Keyed<Event>>, all: seq<Keyed<Event>>) {
    es <= all && (healthy ==> es == all)
  }

  lemma EmptyStored(env: Env, es: seq<Keyed<Event>>, low: Option<nat>)
    requires forall e | e in es :: Above(low, e.key)
    ensures StoredUpTo(env, [], es, low, low)
  {
    forall k: nat | !Above(low, k) ensures At(es, k) == [] {
      AtAbsent(es, k);
    }
  }

  lemma OpenTracks(env: Env, g: Gap, s: StoreState)
    requires Sound(env, g)
    ensures BackfillTracks(env, g, Open(g.cut, g.seed, s), s.log, [], [], [])
  {
    EmptyStored(env, [], KeyOf(g.seed));
  }

  /** What a run over `items` has done to store and writers, in terms of what they took in. */
  ghost predicate BackfillDone(env: Env, g: Gap, s: StoreState, items: seq<Positioned>, p: Pipe,
                               mine: seq<Group>, es: seq<Keyed<Event>>, tail: seq<Keyed<Event>>) {
    && BackfillTracks(env, g, p, s.log, mine, es, tail)
    && Taken(p.settled.core.healthy, es, Part(g.cut, items, true))
    && Taken(p.window.core.healthy, tail, Part(g.cut, items, false))
    && p.out == Events(items)
  }

  lemma PartExtend(cut: Option<nat>, items: seq<Positioned>, item: Positioned, settled: bool)
    ensures Part(cut, items + [item], settled)
         == if Settles(cut, item.position.key) == settled
             then Part(cut, items, settled) + [Keyed(item.position.key, item.event)]
            else Part(cut, items, settled)
  {
    assert (items + [item])[..|items|] == items;
  }

  lemma BackfillStepDone(env: Env, g: Gap, s: StoreState, items: seq<Positioned>, p: Pipe,
                         mine: seq<Group>, es: seq<Keyed<Event>>, tail: seq<Keyed<Event>>, item: Positioned)
    returns (mine': seq<Group>, es': seq<Keyed<Event>>, tail': seq<Keyed<Event>>)
    requires Sound(env, g) && InGap([item], KeyOf(g.seed), g.tip)
    requires BackfillDone(env, g, s, items, p, mine, es, tail)
    ensures BackfillDone(env, g, s, items + [item], BackfillStep(env, g.cut, p, item), mine', es', tail')
  {
    hide BackfillStep, BackfillTracks, Part, InGap, Sound;
    var moved;
    moved, mine' := BackfillStepTracks(env, g, p, s.log, mine, es, tail, item);
    var e := Keyed(item.position.key, item.event);
    es' := if moved && Settles(g.cut, item.position.key) then es + [e] else es;
    tail' := if moved && !Settles(g.cut, item.position.key) then tail + [e] else tail;
    PartExtend(g.cut, items, item, true);
    PartExtend(g.cut, items, item, false);
    EventsPush(items, item);
  }

  lemma EventsPush(items: seq<Positioned>, item: Positioned)
    ensures Events(items + [item]) == Events(items) + [item.event]
  {
  }

  lemma {:induction false} BackfillKeepsChain(env: Env, g: Gap, s: StoreState, items: seq<Positioned>)
    returns (mine: seq<Group>, es: seq<Keyed<Event>>, tail: seq<Keyed<Event>>)
    requires Sound(env, g) && InGap(items, KeyOf(g.seed), g.tip)
    ensures BackfillDone(env, g, s, items, BackfillRun(env, g.cut, Open(g.cut, g.seed, s), items), mine, es, tail)
  {
    if items == [] {
      mine, es, tail := [], [], [];
      OpenTracks(env, g, s);
    } else {
      var front, last := items[..|items| - 1], items[|items| - 1];
      mine, es, tail := BackfillKeepsChain(env, g, s, front);
      assert last in items && front + [last] == items;
      mine, es, tail := BackfillStepDone(env, g, s, front, BackfillRun(env, g.cut, Open(g.cut, g.seed, s), front),
          mine, es, tail, last);
    }
  }
}
