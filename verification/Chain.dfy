/** The canonical chain and the window's refinement of it. */
module Chain {
  import opened Base
  import opened Positions
  import opened Store
  import opened Streams
  import opened WindowSpec

  datatype Chain = Chain(events: seq<Keyed<Event>>, head: Option<nat>, liveFrom: Option<nat>)

  /** `k` has not been reached by the live feed yet. */
  predicate Unreached(c: Chain, k: nat) {
    c.liveFrom.None? || k < c.liveFrom.value
  }

  predicate Forks(c: Chain, k: nat) {
    (c.head.Some? && k < c.head.value) || Unreached(c, k)
  }

  function MinOpt(f: Option<nat>, k: nat): Option<nat> {
    if f.None? then Some(k) else Some(Min(f.value, k))
  }

  /** A live event: at a position already passed (or so far known only from the
      backfill) the source is re-announcing, so everything from there up is replaced. */
  function Announce(c: Chain, k: nat, ev: Event): Chain {
    Chain((if Forks(c, k) then Below(c.events, k) else c.events) + [Keyed(k, ev)], Some(k), MinOpt(c.liveFrom, k))
  }

  function Seed(c: Chain, k: nat, ev: Event): Chain {
    c.(events := c.events + [Keyed(k, ev)], head := MaxOpt(c.head, k))
  }

  function Withdraw(c: Chain, k: nat): Chain {
    Chain(Below(c.events, k), if c.head.None? then None else Some(Min(c.head.value, SatSub(k, 1))),
        MinOpt(c.liveFrom, k))
  }

  /** Row images of encodable events. */
  function Rows(env: Env, evs: seq<Event>): seq<Row> {
    if evs == [] then [] else
      var front := Rows(env, evs[..|evs| - 1]);
      match env.encode(evs[|evs| - 1])
      case Some(r) => front + [r]
      case None => front
  }

  lemma RowsPush(env: Env, evs: seq<Event>, ev: Event)
    ensures Rows(env, evs + [ev]) == match env.encode(ev) case Some(r) => Rows(env, evs) + [r] case None => Rows(env,
        evs)
  {
    assert (evs + [ev])[..|evs|] == evs;
  }

  /** Rows the log holds at key `k`. */
  function LogAt(log: seq<Group>, k: nat): seq<Row> {
    if log == [] then [] else
      var last := log[|log| - 1];
      if last.position.key == k then LogAt(log[..|log| - 1], k) + last.rows else LogAt(log[..|log| - 1], k)
  }

  lemma LogAtPush(log: seq<Group>, g: Group, k: nat)
    ensures LogAt(log + [g], k) == if g.position.key == k then LogAt(log, k) + g.rows else LogAt(log, k)
  {
    assert (log + [g])[..|log|] == log;
  }

  ghost predicate Increasing(log: seq<Group>) {
    forall i, j | 0 <= i < j < |log| :: log[i].position.key < log[j].position.key
  }

  /** The log holds exactly what the stream has in the key range above `low`, up to and including `upTo`. */
  ghost predicate StoredUpTo(env: Env, log: seq<Group>, es: seq<Keyed<Event>>, low: Option<nat>, upTo: Option<nat>) {
    && (low.Some? ==> upTo.Some? && low.value <= upTo.value)
    && Increasing(log)
    && (forall g | g in log :: Above(low, g.position.key) && !Above(upTo, g.position.key) && g.position.seen == {})
    && (forall k: nat :: if Above(upTo, k) then LogAt(log, k) == [] else HoldsAt(env, log, es, k))
  }

  ghost predicate Encodable(env: Env, evs: seq<Event>) {
    forall ev | ev in evs :: env.encode(ev).Some?
  }

  ghost predicate HoldsAt(env: Env, log: seq<Group>, es: seq<Keyed<Event>>, k: nat) {
    LogAt(log, k) == Rows(env, At(es, k)) && Encodable(env, At(es, k))
  }

  lemma {:induction false} EncodableAt(env: Env, es: seq<Keyed<Event>>, k: nat)
    requires forall e | e in es :: env.encode(e.value).Some?
    ensures Encodable(env, At(es, k))
  {
    if es != [] {
      EncodableAt(env, es[..|es| - 1], k);
    }
  }

  ghost predicate WellFormed(env: Env, c: Chain) {
    && Ordered(c.events)
    && (forall e | e in c.events :: c.head.Some? && e.key <= c.head.value && env.encode(e.value).Some?)
  }

  ghost predicate SlotMatches(env: Env, c: Chain, w: Window, k: nat)
    requires k in w.pending
  {
    var p := w.pending[k];
    && Above(w.flushed, k)
    && p.position == FromSortKey(k)
    && p.rows == Rows(env, At(c.events, k))
    && (p.seeded <==> Unreached(c, k))
    && (p.seeded ==> c.head.Some? && k <= c.head.value)
  }

  /** The unwritten part of the chain is exactly what the window buffers. */
  ghost predicate Buffers(env: Env, c: Chain, w: Window) {
    && w.core.healthy
    && w.head == c.head
    && WellFormed(env, c)
    && (w.pending != map[] ==> w.core.captured)
    && SlotsMatch(env, c, w)
    && NothingMissing(c, w)
  }

  ghost predicate SlotsMatch(env: Env, c: Chain, w: Window) {
    forall k | k in w.pending :: SlotMatches(env, c, w, k)
  }

  ghost predicate NothingMissing(c: Chain, w: Window) {
    forall k: nat :: Above(w.flushed, k) && k !in w.pending ==> At(c.events, k) == []
  }

  lemma {:induction false} FlushKeepsChain(env: Env, w: Window, s: StoreState, c: Chain, base: seq<Group>,
                                           mine: seq<Group>, low: Option<nat>)
    returns (mine': seq<Group>)
    requires s.log == base + mine
    requires Buffers(env, c, w) && StoredUpTo(env, mine, c.events, low, w.flushed)
    ensures var (w', s') := FlushMatured(env, w, s);
      && s'.log == base + mine'
      && StoredUpTo(env, mine', c.events, low, w'.flushed)
      && (w'.core.healthy ==> Buffers(env, c, w'))
    decreases |w.pending|
  {
    var due := Matured(env.depth, w);
    if due == {} {
      mine' := mine;
    } else {
      var b := Least(due);
      var g := GroupOf(w.pending[b]);
      var (core, s1, ok) := Flush(env, w.core, s, g);
      if !ok {
        mine' := mine;
      } else {
        var w1 := FlushOne(w, b).(core := core);
        assert s1.log == base + (mine + [g]);
        forall k | k in w.pending ensures b <= k {
          assert Matures(w.head, env.depth, b);
          if k <= b { assert Matures(w.head, env.depth, k) && k in due; }
        }
        assert SlotMatches(env, c, w, b);
        EncodableAt(env, c.events, b);
        FlushOneBuffers(env, w, c, b);
        StoreNext(env, mine, c.events, low, w.flushed, g);
        SmallerMap(w.pending, b);
        mine' := FlushKeepsChain(env, w1, s1, c, base, mine + [g], low);
      }
    }
  }

  lemma StoreNext(env: Env, mine: seq<Group>, es: seq<Keyed<Event>>, low: Option<nat>, upTo: Option<nat>, g: Group)
    requires StoredUpTo(env, mine, es, low, upTo)
    requires Above(upTo, g.position.key) && g.position.seen == {}
    requires g.rows == Rows(env, At(es, g.position.key)) && Encodable(env, At(es, g.position.key))
    requires forall k: nat :: Above(upTo, k) && k < g.position.key ==> At(es, k) == []
    ensures StoredUpTo(env, mine + [g], es, low, Some(g.position.key))
  {
    hide At, LogAt;
    var b := g.position.key;
    forall k: nat ensures if b < k then LogAt(mine + [g], k) == [] else HoldsAt(env, mine + [g], es, k) {
      LogAtPush(mine, g, k);
      assert if Above(upTo, k) then LogAt(mine, k) == [] else HoldsAt(env, mine, es, k);
      if k == b { assert [] + g.rows == g.rows; }
    }
    assert forall h | h in mine :: h.position.key < b;
  }

  /** What is stored stays right as long as the stream changes only above it. */
  lemma StoredTransfers(env: Env, mine: seq<Group>, es: seq<Keyed<Event>>, es': seq<Keyed<Event>>, low: Option<nat>,
                        upTo: Option<nat>)
    requires StoredUpTo(env, mine, es, low, upTo)
    requires forall k: nat :: !Above(upTo, k) ==> At(es', k) == At(es, k)
    ensures StoredUpTo(env, mine, es', low, upTo)
  {
    forall k: nat | !Above(upTo, k) ensures HoldsAt(env, mine, es', k) {
      assert HoldsAt(env, mine, es, k);
    }
  }

  lemma FlushOneBuffers(env: Env, w: Window, c: Chain, b: nat)
    requires Buffers(env, c, w)
    requires b in w.pending && forall k | k in w.pending :: b <= k
    ensures Buffers(env, c, FlushOne(w, b))
    ensures FlushOne(w, b).flushed == Some(b)
  {
    assert SlotMatches(env, c, w, b);
    var w1 := FlushOne(w, b);
    assert w1.flushed == Some(b);
    forall k | k in w1.pending ensures SlotMatches(env, c, w1, k) {
      assert SlotMatches(env, c, w, k);
    }
    forall k: nat | Above(w1.flushed, k) && k !in w1.pending ensures At(c.events, k) == [] {
      assert Above(w.flushed, k);
    }
  }

  lemma AnnounceAt(c: Chain, k: nat, ev: Event, j: nat)
    ensures At(Announce(c, k, ev).events, j) ==
            if j == k then (if Forks(c, k) then [] else At(c.events, k)) + [ev]
            else if Forks(c, k) && k < j then []
            else At(c.events, j)
  {
    AtBelow(c.events, k, j);
    AtPush(if Forks(c, k) then Below(c.events, k) else c.events, Keyed(k, ev), j);
  }

  lemma AnnounceWellFormed(env: Env, c: Chain, k: nat, ev: Event)
    requires WellFormed(env, c) && env.encode(ev).Some?
    ensures WellFormed(env, Announce(c, k, ev))
  {
    BelowKeeps(c.events, k);
    BelowOrdered(c.events, k);
  }

  lemma NothingAboveHead(env: Env, c: Chain, k: nat)
    requires WellFormed(env, c)
    requires c.head.None? || c.head.value < k
    ensures At(c.events, k) == []
  {
    AtAbsent(c.events, k);
  }

  /** The chain cut back to the positions below `k`, which the source re-announces. */
  function Cut(c: Chain, k: nat, head: Option<nat>): Chain {
    Chain(Below(c.events, k), head, MinOpt(c.liveFrom, k))
  }

  lemma RewindBuffers(env: Env, w: Window, c: Chain, k: nat, head: Option<nat>)
    requires Buffers(env, c, w) && Above(w.flushed, k)
    requires c.head.Some? ==> head.Some? && Min(c.head.value, SatSub(k, 1)) <= head.value
    ensures Buffers(env, Cut(c, k, head), w.(pending := Rewind(w.pending, k), head := head))
  {
    var c', w' := Cut(c, k, head), w.(pending := Rewind(w.pending, k), head := head);
    BelowKeeps(c.events, k);
    BelowOrdered(c.events, k);
    forall j | j in w'.pending ensures SlotMatches(env, c', w', j) {
      AtBelow(c.events, k, j);
      assert SlotMatches(env, c, w, j);
    }
    forall j: nat | Above(w'.flushed, j) && j !in w'.pending ensures At(c'.events, j) == [] {
      AtBelow(c.events, k, j);
    }
  }

  /** The window after one more live row at or above the head. */
  function Extended(env: Env, w: Window, k: nat, row: Row): Window {
    w.(core := w.core.(captured := true),
       pending := w.pending[k := Fold(env.policy, w.pending, FromSortKey(k), row).0],
       head := Some(k))
  }

  lemma FoldRow(pending: map<nat, Pending>, k: nat, row: Row)
    requires k in pending ==> pending[k].position == FromSortKey(k)
    ensures var p := Fold(Halt, pending, FromSortKey(k), row).0;
      && p.position == FromSortKey(k) && !p.seeded
      && p.rows == (if k in pending && !pending[k].seeded then pending[k].rows else []) + [row]
  {
  }

  lemma RowsNothing(env: Env)
    ensures Rows(env, []) == []
  {
  }

  lemma ExtendSlot(env: Env, w: Window, c: Chain, k: nat, ev: Event)
    requires env.policy.Halt? && env.encode(ev).Some?
    requires Buffers(env, c, w) && Above(w.flushed, k)
    requires w.head.None? || w.head.value <= k
    ensures SlotMatches(env, Announce(c, k, ev), Extended(env, w, k, env.encode(ev).value), k)
  {
    hide At, Rows, Below, Fold;
    AnnounceAt(c, k, ev, k);
    RowsPush(env, if Forks(c, k) then [] else At(c.events, k), ev);
    RowsNothing(env);
    if k in w.pending { assert SlotMatches(env, c, w, k); }
    FoldRow(w.pending, k, env.encode(ev).value);
  }

  lemma ExtendOthers(env: Env, w: Window, c: Chain, k: nat, ev: Event, j: nat)
    requires env.policy.Halt? && env.encode(ev).Some?
    requires Buffers(env, c, w) && Above(w.flushed, k)
    requires w.head.None? || w.head.value <= k
    requires j in w.pending && j != k
    ensures SlotMatches(env, Announce(c, k, ev), Extended(env, w, k, env.encode(ev).value), j)
  {
    hide At, Rows, Fold, Below, NothingMissing;
    AnnounceAt(c, k, ev, j);
    assert SlotMatches(env, c, w, j);
    if k < j { NothingAboveHead(env, c, j); }
  }

  lemma ExtendMisses(env: Env, w: Window, c: Chain, k: nat, ev: Event)
    requires env.policy.Halt? && env.encode(ev).Some?
    requires Buffers(env, c, w) && Above(w.flushed, k)
    ensures NothingMissing(Announce(c, k, ev), Extended(env, w, k, env.encode(ev).value))
  {
    hide At, Rows, Fold, Below, SlotsMatch;
    var c', w' := Announce(c, k, ev), Extended(env, w, k, env.encode(ev).value);
    forall j: nat | Above(w'.flushed, j) && j !in w'.pending ensures At(c'.events, j) == [] {
      AnnounceAt(c, k, ev, j);
    }
  }

  lemma ExtendBuffers(env: Env, w: Window, c: Chain, k: nat, ev: Event)
    requires env.policy.Halt? && env.encode(ev).Some?
    requires Buffers(env, c, w) && Above(w.flushed, k)
    requires w.head.None? || w.head.value <= k
    ensures Buffers(env, Announce(c, k, ev), Extended(env, w, k, env.encode(ev).value))
  {
    var c', w' := Announce(c, k, ev), Extended(env, w, k, env.encode(ev).value);
    AnnounceWellFormed(env, c, k, ev);
    ExtendMisses(env, w, c, k, ev);
    forall j | j in w'.pending ensures SlotMatches(env, c', w', j) {
      if j == k { ExtendSlot(env, w, c, k, ev); } else { ExtendOthers(env, w, c, k, ev, j); }
    }
  }

  function ChainStep(c: Chain, item: Indexed): Chain {
    match item
    case Emit(Positioned(pos, ev)) => Announce(c, pos.key, ev)
    case Retraction(pos) => Withdraw(c, pos.key)
  }

  /** Buffering a live event keeps the window in step with the chain. */
  lemma BufferKeepsChain(env: Env, w: Window, c: Chain, k: nat, ev: Event)
    requires env.policy.Halt? && env.encode(ev).Some?
    requires Buffers(env, c, w) && Above(w.flushed, k)
    ensures var w' := Buffer(Halt, w.(core := w.core.(captured := true)), FromSortKey(k), env.encode(ev).value).0;
      Buffers(env, Announce(c, k, ev), w') && w'.flushed == w.flushed
  {
    assert w.head == c.head;
    hide *;
    BufferExtends(env, w, k, env.encode(ev).value);
    if w.head.Some? && k < w.head.value {
      var cut, w1 := Cut(c, k, Some(k)), w.(pending := Rewind(w.pending, k), head := Some(k));
      HeadCut(c.head.value, k);
      RewindBuffers(env, w, c, k, Some(k));
      ExtendBuffers(env, w1, cut, k, ev);
      AnnounceCut(c, k, ev);
    } else {
      ExtendBuffers(env, w, c, k, ev);
    }
  }

  lemma BufferExtends(env: Env, w: Window, k: nat, row: Row)
    requires env.policy.Halt?
    ensures var met := if w.head.Some? && k < w.head.value
                       then w.(pending := Rewind(w.pending, k), head := Some(k)) else w;
      && Buffer(Halt, w.(core := w.core.(captured := true)), FromSortKey(k), row).0 == Extended(env, met, k, row)
      && Extended(env, met, k, row).flushed == w.flushed
  {
    hide Fold, Rewind;
  }

  lemma HeadCut(head: nat, k: nat)
    requires k < head
    ensures Min(head, SatSub(k, 1)) <= k
  {
  }

  lemma AnnounceCut(c: Chain, k: nat, ev: Event)
    requires c.head.Some? && k < c.head.value
    ensures Announce(Cut(c, k, Some(k)), k, ev) == Announce(c, k, ev)
  {
    BelowTwice(c.events, k);
  }

  lemma {:induction false} BelowTwice<T>(es: seq<Keyed<T>>, k: nat)
    ensures Below(Below(es, k), k) == Below(es, k)
  {
    if es != [] {
      BelowTwice(es[..|es| - 1], k);
    }
  }

  lemma AnnounceKeepsStored(env: Env, mine: seq<Group>, c: Chain, k: nat, ev: Event, low: Option<nat>,
                            upTo: Option<nat>)
    requires StoredUpTo(env, mine, c.events, low, upTo) && Above(upTo, k)
    ensures StoredUpTo(env, mine, Announce(c, k, ev).events, low, upTo)
  {
    forall j: nat | !Above(upTo, j) ensures At(Announce(c, k, ev).events, j) == At(c.events, j) {
      AnnounceAt(c, k, ev, j);
    }
    StoredTransfers(env, mine, c.events, Announce(c, k, ev).events, low, upTo);
  }

  lemma RecordKeepsChain(env: Env, w: Window, s: StoreState, c: Chain, base: seq<Group>, mine: seq<Group>,
                         low: Option<nat>, k: nat, ev: Event)
    returns (mine': seq<Group>)
    requires env.policy.Halt? && env.encode(ev).Some?
    requires Buffers(env, c, w) && Above(w.flushed, k)
    requires s.log == base + mine && StoredUpTo(env, mine, c.events, low, w.flushed)
    ensures var r := Record(env, w, s, FromSortKey(k), ev);
      && r.store.log == base + mine'
      && StoredUpTo(env, mine', Announce(c, k, ev).events, low, r.window.flushed)
      && (r.window.core.healthy ==> Buffers(env, Announce(c, k, ev), r.window))
  {
    assert w.core.healthy;
    hide *;
    RecordFlushes(env, w, s, k, ev);
    var w' := Buffer(Halt, w.(core := w.core.(captured := true)), FromSortKey(k), env.encode(ev).value).0;
    BufferKeepsChain(env, w, c, k, ev);
    AnnounceKeepsStored(env, mine, c, k, ev, low, w.flushed);
    mine' := FlushKeepsChain(env, w', s, Announce(c, k, ev), base, mine, low);
  }

  lemma RecordFlushes(env: Env, w: Window, s: StoreState, k: nat, ev: Event)
    requires env.policy.Halt? && env.encode(ev).Some? && w.core.healthy && Above(w.flushed, k)
    ensures var w' := Buffer(Halt, w.(core := w.core.(captured := true)), FromSortKey(k), env.encode(ev).value).0;
      var r := Record(env, w, s, FromSortKey(k), ev);
      r.window == FlushMatured(env, w', s).0 && r.store == FlushMatured(env, w', s).1
  {
    hide Buffer, FlushMatured, Contains;
  }

  lemma RetractKeepsChain(env: Env, w: Window, c: Chain, mine: seq<Group>, low: Option<nat>, k: nat)
    requires env.policy.Halt?
    requires Buffers(env, c, w) && Above(w.flushed, k)
    requires StoredUpTo(env, mine, c.events, low, w.flushed)
    ensures var w' := Retract(env, w, FromSortKey(k));
      && StoredUpTo(env, mine, Withdraw(c, k).events, low, w'.flushed)
      && Buffers(env, Withdraw(c, k), w')
  {
    RewindBuffers(env, w, c, k, Withdraw(c, k).head);
    forall j: nat | !Above(w.flushed, j) ensures At(Withdraw(c, k).events, j) == At(c.events, j) {
      AtBelow(c.events, k, j);
    }
    StoredTransfers(env, mine, c.events, Withdraw(c, k).events, low, w.flushed);
  }

  /** A backfill-tail event at or above the head extends chain and buffer alike. */
  lemma SeedSlot(env: Env, w: Window, c: Chain, k: nat, ev: Event, j: nat)
    requires env.encode(ev).Some?
    requires Buffers(env, c, w) && c.liveFrom.None? && Above(w.flushed, k)
    requires w.head.None? || w.head.value <= k
    requires j in w.pending || j == k
    ensures SlotMatches(env, Seed(c, k, ev),
        BufferSeed(w.(core := w.core.(captured := true)), FromSortKey(k), env.encode(ev).value), j)
  {
    hide At, Rows, BufferSeed, WellFormed;
    AtPush(c.events, Keyed(k, ev), j);
    RowsPush(env, At(c.events, k), ev);
    if j in w.pending { assert SlotMatches(env, c, w, j); }
    SeedRow(w.(core := w.core.(captured := true)), k, env.encode(ev).value);
    NothingAbove(env, c, w, k);
    RowsNothing(env);
  }

  /** The group a seeded row joins. */
  lemma SeedRow(w: Window, k: nat, row: Row)
    requires k in w.pending ==> w.pending[k].position == FromSortKey(k)
    ensures var w' := BufferSeed(w, FromSortKey(k), row);
      && w'.flushed == w.flushed && k in w'.pending && w'.pending[k].position == FromSortKey(k)
      && w'.pending[k].rows == (if k in w.pending then w.pending[k].rows else []) + [row]
      && w'.pending[k].seeded == (k in w.pending ==> w.pending[k].seeded)
      && (forall j | j != k :: j in w.pending <==> j in w'.pending)
      && (forall j | j in w.pending && j != k :: w'.pending[j] == w.pending[j])
  {
    if k in w.pending { assert FromSortKey(k).seen + FromSortKey(k).seen == {}; }
  }

  lemma NothingAbove(env: Env, c: Chain, w: Window, k: nat)
    requires Buffers(env, c, w) && Above(w.flushed, k)
    ensures k !in w.pending ==> At(c.events, k) == []
  {
  }

  lemma SeedKeepsChain(env: Env, w: Window, c: Chain, k: nat, ev: Event)
    requires env.encode(ev).Some?
    requires Buffers(env, c, w) && c.liveFrom.None? && Above(w.flushed, k)
    requires w.head.None? || w.head.value <= k
    ensures Buffers(env, Seed(c, k, ev), BufferSeed(w.(core := w.core.(captured := true)), FromSortKey(k),
        env.encode(ev).value))
  {
    hide Rows, LogAt;
    var w' := BufferSeed(w.(core := w.core.(captured := true)), FromSortKey(k), env.encode(ev).value);
    forall j | j in w'.pending ensures SlotMatches(env, Seed(c, k, ev), w', j) {
      SeedSlot(env, w, c, k, ev, j);
    }
    forall j: nat | Above(w'.flushed, j) && j !in w'.pending ensures At(Seed(c, k, ev).events, j) == [] {
      AtPush(c.events, Keyed(k, ev), j);
    }
  }

  /** Every row a log holds, keyed by its group's sort key. */
  function Flat(log: seq<Group>): seq<Keyed<Row>> {
    if log == [] then [] else
      var last := log[|log| - 1];
      Flat(log[..|log| - 1]) + Tag(last.position.key, last.rows)
  }

  /** The row image of a stream of events. */
  function Encoded(env: Env, es: seq<Keyed<Event>>): seq<Keyed<Row>> {
    if es == [] then [] else
      var front, last := Encoded(env, es[..|es| - 1]), es[|es| - 1];
      match env.encode(last.value)
      case Some(r) => front + [Keyed(last.key, r)]
      case None => front
  }

  lemma {:induction false} AtFlat(log: seq<Group>, k: nat)
    ensures At(Flat(log), k) == LogAt(log, k)
  {
    if log != [] {
      var front, last := log[..|log| - 1], log[|log| - 1];
      AtFlat(front, k);
      AtConcat(Flat(front), Tag(last.position.key, last.rows), k);
      AtTag(last.position.key, last.rows, k);
    }
  }

  lemma {:induction false} AtEncoded(env: Env, es: seq<Keyed<Event>>, k: nat)
    ensures At(Encoded(env, es), k) == Rows(env, At(es, k))
  {
    if es != [] {
      var front, last := es[..|es| - 1], es[|es| - 1];
      AtEncoded(env, front, k);
      RowsPush(env, At(front, k), last.value);
      if env.encode(last.value).Some? {
        AtPush(Encoded(env, front), Keyed(last.key, env.encode(last.value).value), k);
      }
    }
  }

  lemma {:induction false} FlatOrdered(log: seq<Group>)
    requires Increasing(log)
    ensures Ordered(Flat(log))
    ensures forall e | e in Flat(log) :: log != [] && e.key <= log[|log| - 1].position.key
  {
    if log != [] {
      FlatOrdered(log[..|log| - 1]);
    }
  }

  lemma {:induction false} EncodedOrdered(env: Env, es: seq<Keyed<Event>>)
    requires Ordered(es)
    ensures Ordered(Encoded(env, es))
    ensures forall e | e in Encoded(env, es) :: es != [] && e.key <= es[|es| - 1].key
  {
    if es != [] {
      EncodedOrdered(env, es[..|es| - 1]);
    }
  }

  /** A log that holds an ordered stream's rows key by key holds exactly that stream. */
  lemma LogIsStream(env: Env, log: seq<Group>, es: seq<Keyed<Event>>)
    requires Increasing(log) && Ordered(es)
    requires forall k: nat :: LogAt(log, k) == Rows(env, At(es, k))
    ensures Flat(log) == Encoded(env, es)
  {
    forall k: nat ensures At(Flat(log), k) == At(Encoded(env, es), k) {
      AtFlat(log, k);
      AtEncoded(env, es, k);
      assert LogAt(log, k) == Rows(env, At(es, k));
    }
    FlatOrdered(log);
    EncodedOrdered(env, es);
    OrderedDetermined(Flat(log), Encoded(env, es));
  }

  /** The buffered groups in the order they would be flushed. */
  function Drain(w: Window, keys: seq<nat>): (log: seq<Group>)
    requires forall k | k in keys :: k in w.pending
    ensures |log| == |keys|
    ensures forall i | 0 <= i < |keys| :: log[i] == GroupOf(w.pending[keys[i]])
  {
    seq(|keys|, i requires 0 <= i < |keys| => GroupOf(w.pending[keys[i]]))
  }

  function Unwritten(w: Window): seq<Group> {
    Drain(w, Ascending(w.pending.Keys))
  }

  lemma {:induction false} LogAtUnique(log: seq<Group>, i: nat)
    requires Increasing(log) && i < |log|
    ensures LogAt(log, log[i].position.key) == log[i].rows
  {
    var front, k := log[..|log| - 1], log[i].position.key;
    if i == |log| - 1 {
      LogAtAbsent(front, k);
    } else {
      LogAtUnique(front, i);
    }
  }

  lemma {:induction false} LogAtAbsent(log: seq<Group>, k: nat)
    requires forall g | g in log :: g.position.key != k
    ensures LogAt(log, k) == []
  {
    if log != [] {
      LogAtAbsent(log[..|log| - 1], k);
    }
  }

  lemma {:induction false} LogAtConcat(a: seq<Group>, b: seq<Group>, k: nat)
    ensures LogAt(a + b, k) == LogAt(a, k) + LogAt(b, k)
  {
    if b == [] {
      assert a + b == a;
    } else {
      var front, last := b[..|b| - 1], b[|b| - 1];
      LogAtConcat(a, front, k);
      LogAtConcatStep(a, front, last, k);
      assert b == front + [last];
    }
  }

  lemma LogAtConcatStep(a: seq<Group>, front: seq<Group>, last: Group, k: nat)
    requires LogAt(a + front, k) == LogAt(a, k) + LogAt(front, k)
    ensures LogAt(a + (front + [last]), k) == LogAt(a, k) + LogAt(front + [last], k)
  {
    hide LogAt;
    LogAtPush(a + front, last, k);
    LogAtPush(front, last, k);
    assert a + (front + [last]) == (a + front) + [last];
    assert (LogAt(a, k) + LogAt(front, k)) + last.rows == LogAt(a, k) + (LogAt(front, k) + last.rows);
  }

  lemma UnwrittenAt(w: Window, k: nat)
    requires forall j | j in w.pending :: w.pending[j].position.key == j
    ensures Increasing(Unwritten(w))
    ensures forall g | g in Unwritten(w) :: g.position.key in w.pending
    ensures LogAt(Unwritten(w), k) == if k in w.pending then w.pending[k].rows else []
  {
    hide *;
    UnwrittenInOrder(w);
    if k in w.pending {
      var i := UnwrittenIndex(w, k);
      LogAtUnique(Unwritten(w), i);
    } else {
      LogAtAbsent(Unwritten(w), k);
    }
  }

  lemma UnwrittenInOrder(w: Window)
    requires forall j | j in w.pending :: w.pending[j].position.key == j
    ensures Increasing(Unwritten(w))
    ensures forall g | g in Unwritten(w) :: g.position.key in w.pending
  {
    var keys, rest := Ascending(w.pending.Keys), Unwritten(w);
    hide Ascending;
    forall i | 0 <= i < |keys| ensures keys[i] in w.pending && rest[i].position.key == keys[i] {
      assert keys[i] in keys;
    }
  }

  lemma UnwrittenIndex(w: Window, k: nat) returns (i: nat)
    requires k in w.pending && forall j | j in w.pending :: w.pending[j].position.key == j
    ensures i < |Unwritten(w)| && Unwritten(w)[i].position.key == k && Unwritten(w)[i].rows == w.pending[k].rows
  {
    var keys := Ascending(w.pending.Keys);
    hide Ascending;
    assert k in keys;
    i :| 0 <= i < |keys| && keys[i] == k;
  }

  lemma IncreasingConcat(a: seq<Group>, b: seq<Group>)
    requires Increasing(a) && Increasing(b)
    requires forall g, h | g in a && h in b :: g.position.key < h.position.key
    ensures Increasing(a + b)
  {
  }

  lemma StoredPlusBufferedAt(env: Env, w: Window, c: Chain, mine: seq<Group>, low: Option<nat>, k: nat)
    requires Buffers(env, c, w) && StoredUpTo(env, mine, c.events, low, w.flushed)
    ensures LogAt(mine + Unwritten(w), k) == Rows(env, At(c.events, k))
  {
    LogAtConcat(mine, Unwritten(w), k);
    forall j | j in w.pending ensures w.pending[j].position.key == j { assert SlotMatches(env, c, w, j); }
    UnwrittenAt(w, k);
    if k in w.pending {
      assert SlotMatches(env, c, w, k);
    } else if Above(w.flushed, k) {
      assert At(c.events, k) == [];
    }
  }

  /** Stored rows followed by buffered rows are the chain, row for row and in order. */
  lemma StoredPlusBuffered(env: Env, w: Window, c: Chain, mine: seq<Group>, low: Option<nat>)
    requires Buffers(env, c, w) && StoredUpTo(env, mine, c.events, low, w.flushed)
    ensures Flat(mine + Unwritten(w)) == Encoded(env, c.events)
  {
    forall k: nat ensures LogAt(mine + Unwritten(w), k) == Rows(env, At(c.events, k)) {
      StoredPlusBufferedAt(env, w, c, mine, low, k);
    }
    forall j | j in w.pending ensures w.pending[j].position.key == j
        && Above(w.flushed, j) { assert SlotMatches(env, c, w, j); }
    UnwrittenAt(w, 0);
    IncreasingConcat(mine, Unwritten(w));
    LogIsStream(env, mine + Unwritten(w), c.events);
  }
}
