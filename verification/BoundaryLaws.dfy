/** The backfill/live boundary: which re-announced events are suppressed downstream. */
module BoundaryLaws {
  import opened Base
  import opened Positions
  import opened Store
  import opened Streams
  import opened WindowSpec
  import opened Chain
  import opened Pipeline
  import opened Canonical
  import opened Backfill
  import opened Session
  import opened Archives
  import opened Guarantees

  lemma CancelOne<T>(a: multiset<T>, b: multiset<T>, x: T)
    requires a + multiset{x} == b + multiset{x}
    ensures a == b
  {
    assert a == (a + multiset{x}) - multiset{x};
    assert b == (b + multiset{x}) - multiset{x};
  }

  lemma SwapRemoved<T>(rows: seq<T>, i: nat)
    requires i < |rows|
    ensures multiset(SwapRemove(rows, i)) == multiset(rows) - multiset{rows[i]}
  {
    var last := |rows| - 1;
    var swapped := rows[i := rows[last]];
    assert swapped == swapped[..last] + [rows[last]];
    assert multiset(swapped) == multiset(swapped[..last]) + multiset{rows[last]};
    assert multiset(swapped) == multiset(rows) - multiset{rows[i]} + multiset{rows[last]};
    CancelOne(multiset(swapped[..last]), multiset(rows) - multiset{rows[i]}, rows[last]);
  }

  lemma OneMore<T>(copy: multiset<T>, seen: multiset<T>, row: T)
    ensures row in copy - seen ==>
      copy - seen - multiset{row} == copy - (seen + multiset{row}) && (seen + multiset{row}) - copy == seen - copy
    ensures row !in copy - seen ==>
      copy - seen == copy - (seen + multiset{row}) && (seen + multiset{row}) - copy == (seen - copy) + multiset{row}
  {
  }

  /** The suppression set and the delivered rows stay complementary: with `copy` the backfill copy and `seen` the
      rows re-announced so far, the set holds copy - seen, and downstream has received seen - copy. */
  lemma FoldBalances(pending: map<nat, Pending>, k: nat, row: Row, copy: multiset<Row>, seen: multiset<Row>)
    requires k in pending && !pending[k].seeded
    requires multiset(pending[k].expected) == copy - seen
    ensures var (p, delivered) := Fold(Halt, pending, FromSortKey(k), row);
      && p.rows == pending[k].rows + [row] && !p.seeded
      && multiset(p.expected) == copy - (seen + multiset{row})
      && (delivered <==> row !in multiset(pending[k].expected))
      && (seen + multiset{row}) - copy == (seen - copy) + if delivered then multiset{row} else multiset{}
  {
    var expected := pending[k].expected;
    var i := FirstIndex(expected, row);
    OneMore(copy, seen, row);
    if i < |expected| {
      SwapRemoved(expected, i);
      assert row in expected;
    } else {
      assert row !in expected;
    }
  }

  /** The buffer a live event at `k` is folded into: rewound first where `k` lies below the head. */
  function Rewound(w: Window, k: nat): map<nat, Pending> {
    if w.head.Some? && k < w.head.value then Rewind(w.pending, k) else w.pending
  }

  /** The window as an event at `k` meets it. */
  function MeetAt(w: Window, k: nat): Window {
    w.(pending := Rewound(w, k), head := if w.head.Some? && k < w.head.value then Some(k) else w.head)
  }

  /** The backfill rows a group still awaits: all of them while it is seeded, the suppression set once it is
      converted. */
  function CopyOf(p: Pending): seq<Row> {
    if p.seeded then p.rows else p.expected
  }

  function CopyAt(pending: map<nat, Pending>, k: nat): multiset<Row> {
    if k in pending then multiset(CopyOf(pending[k])) else multiset{}
  }

  /** No live row has reached the group at `k`: it is seeded, converted by a rewind, or not there. */
  predicate Untouched(pending: map<nat, Pending>, k: nat) {
    k in pending && !pending[k].seeded ==> pending[k].rows == []
  }

  /** A group after `seen` was re-announced over the backfill copy `copy`. */
  ghost predicate Echoed(p: Pending, copy: multiset<Row>, seen: seq<Row>) {
    !p.seeded && p.rows == seen && multiset(p.expected) == copy - multiset(seen)
  }

  /** The group the next event at `k` meets: untouched, or already echoing. */
  ghost predicate Awaits(pending: map<nat, Pending>, k: nat, copy: multiset<Row>, seen: seq<Row>) {
    || (k in pending && Echoed(pending[k], copy, seen))
    || (seen == [] && Untouched(pending, k) && copy == CopyAt(pending, k))
  }

  /** One live row: it joins the group, and goes downstream exactly when the copy has no equal row left. */
  lemma FoldEchoes(pending: map<nat, Pending>, k: nat, row: Row, copy: multiset<Row>, seen: seq<Row>)
    requires Awaits(pending, k, copy, seen)
    ensures var (p, delivered) := Fold(Halt, pending, FromSortKey(k), row);
      && Echoed(p, copy, seen + [row])
      && multiset(seen + [row]) - copy == (multiset(seen) - copy) + if delivered then multiset{row} else multiset{}
  {
    assert multiset(seen + [row]) == multiset(seen) + multiset{row};
    if k !in pending {
      assert copy == multiset{};
    } else {
      var met := if pending[k].seeded then pending[k := Unseed(pending[k])] else pending;
      if pending[k].seeded { FoldUnseeds(pending, k, row); }
      assert copy - multiset([]) == copy;
      FoldBalances(met, k, row, copy, multiset(seen));
    }
  }

  /** Folding into a seeded group is folding into its copy. */
  lemma FoldUnseeds(pending: map<nat, Pending>, k: nat, row: Row)
    requires k in pending && pending[k].seeded
    ensures Fold(Halt, pending, FromSortKey(k), row)
        == Fold(Halt, pending[k := Unseed(pending[k])], FromSortKey(k), row)
  {
    hide FirstIndex, SwapRemove, Advance;
  }

  /** What the buffer holds at `b` after the live events `es`, which first met the buffer as `start`. */
  ghost predicate SlotEchoes(env: Env, start: map<nat, Pending>, es: seq<Keyed<Event>>, pending: map<nat, Pending>,
                             b: nat) {
    if At(es, b) == [] then (b in pending <==> b in start) && (b in pending ==> pending[b] == start[b])
    else b in pending && Echoed(pending[b], CopyAt(start, b), Rows(env, At(es, b)))
  }

  /** From `k` up, where the head has not passed, nothing has been flushed. */
  ghost predicate Ahead(env: Env, start: map<nat, Pending>, es: seq<Keyed<Event>>, w: Window, k: nat) {
    && (w.head.Some? ==> w.head.value <= k)
    && forall b: nat | k <= b :: SlotEchoes(env, start, es, w.pending, b)
  }

  /** Every group still buffered at a re-announced key holds its live rows, in order. */
  ghost predicate Kept(env: Env, start: map<nat, Pending>, es: seq<Keyed<Event>>, pending: map<nat, Pending>) {
    forall b: nat | b in pending && At(es, b) != [] :: Echoed(pending[b], CopyAt(start, b), Rows(env, At(es, b)))
  }

  /** What went downstream, key by key: the multiset difference between the live rows and the backfill copy. */
  ghost predicate Difference(env: Env, start: map<nat, Pending>, es: seq<Keyed<Event>>, novel: seq<Keyed<Event>>) {
    forall b: nat :: DifferenceAt(env, start, es, novel, b)
  }

  ghost predicate DifferenceAt(env: Env, start: map<nat, Pending>, es: seq<Keyed<Event>>, novel: seq<Keyed<Event>>,
                               b: nat) {
    && Encodable(env, At(novel, b))
    && multiset(Rows(env, At(novel, b))) == multiset(Rows(env, At(es, b))) - CopyAt(start, b)
  }

  lemma BufferMeets(w: Window, k: nat, row: Row)
    ensures var (w', delivered) := Buffer(Halt, w, FromSortKey(k), row);
      var (p, d) := Fold(Halt, Rewound(w, k), FromSortKey(k), row);
      delivered == d && w'.pending == Rewound(w, k)[k := p] && w'.head == Some(k)
  {
    hide Fold, Rewind;
  }

  /** One more event at `e.key`, at or above everything announced so far. */
  lemma SlotStep(env: Env, start: map<nat, Pending>, es: seq<Keyed<Event>>, pending: map<nat, Pending>,
                 e: Keyed<Event>, p: Pending, b: nat)
    requires env.encode(e.value).Some? && SlotEchoes(env, start, es, pending, b)
    requires Echoed(p, CopyAt(start, e.key), Rows(env, At(es, e.key)) + [env.encode(e.value).value])
    ensures SlotEchoes(env, start, es + [e], pending[e.key := p], b)
  {
    hide At, Rows, Echoed;
    AtPush(es, e, b);
    RowsPush(env, At(es, b), e.value);
  }

  lemma KeptStep(env: Env, start: map<nat, Pending>, es: seq<Keyed<Event>>, pending: map<nat, Pending>,
                 e: Keyed<Event>, p: Pending)
    requires env.encode(e.value).Some? && Kept(env, start, es, pending)
    requires Echoed(p, CopyAt(start, e.key), Rows(env, At(es, e.key)) + [env.encode(e.value).value])
    ensures Kept(env, start, es + [e], pending[e.key := p])
  {
    hide At, Rows, Echoed;
    forall b: nat | b in pending[e.key := p] && At(es + [e], b) != []
      ensures Echoed(pending[e.key := p][b], CopyAt(start, b), Rows(env, At(es + [e], b)))
    {
      AtPush(es, e, b);
      RowsPush(env, At(es, b), e.value);
    }
  }

  lemma DifferenceStep(env: Env, start: map<nat, Pending>, es: seq<Keyed<Event>>, novel: seq<Keyed<Event>>,
                       e: Keyed<Event>, delivered: bool)
    requires env.encode(e.value).Some? && Difference(env, start, es, novel)
    requires var row, copy, seen := env.encode(e.value).value, CopyAt(start, e.key), Rows(env, At(es, e.key));
      multiset(seen + [row]) - copy == (multiset(seen) - copy) + if delivered then multiset{row} else multiset{}
    ensures Difference(env, start, es + [e], if delivered then novel + [e] else novel)
  {
    hide At, Rows, CopyAt;
    var row, novel' := env.encode(e.value).value, if delivered then novel + [e] else novel;
    forall b: nat ensures DifferenceAt(env, start, es + [e], novel', b) {
      assert DifferenceAt(env, start, es, novel, b);
      AtPush(es, e, b);
      AtPush(novel, e, b);
      RowsPush(env, At(es, b), e.value);
      RowsPush(env, At(novel, b), e.value);
      assert multiset(Rows(env, At(novel, b)) + [row]) == multiset(Rows(env, At(novel, b))) + multiset{row};
    }
  }

  /** A healthy flush leaves every group from the head up alone. */
  lemma FlushEchoes(env: Env, start: map<nat, Pending>, es: seq<Keyed<Event>>, w: Window, s: StoreState, k: nat)
    requires env.depth >= 1 && k < U64_MAX && w.head == Some(k) && FlushMatured(env, w, s).0.core.healthy
    requires Ahead(env, start, es, w, k) && Kept(env, start, es, w.pending)
    ensures var w' := FlushMatured(env, w, s).0; Ahead(env, start, es, w', k) && Kept(env, start, es, w'.pending)
  {
    hide FlushMatured, At, Rows, Echoed;
    FlushConfirmed(env, w, s);
    var w' := FlushMatured(env, w, s).0;
    forall b: nat | k <= b ensures SlotEchoes(env, start, es, w'.pending, b) {
      assert SlotEchoes(env, start, es, w.pending, b);
      assert !Matures(w.head, env.depth, b);
    }
  }

  lemma BufferCore(w: Window, k: nat, row: Row)
    ensures var c := w.core.(captured := true);
      Buffer(Halt, w.(core := c), FromSortKey(k), row)
          == (Buffer(Halt, w, FromSortKey(k), row).0.(core := c), Buffer(Halt, w, FromSortKey(k), row).1)
  {
  }

  /** The run so far: what the buffer holds and what went downstream. */
  ghost predicate Overlap(env: Env, p: Pipe, q: Pipe, start: map<nat, Pending>, es: seq<Keyed<Event>>,
                          novel: seq<Keyed<Event>>, k: nat) {
    && Ahead(env, start, es, MeetAt(q.window, k), k) && Kept(env, start, es, Rewound(q.window, k))
    && q.out == p.out + Values(novel) && Difference(env, start, es, novel)
  }

  lemma OverlapStep(env: Env, p: Pipe, q: Pipe, start: map<nat, Pending>, es: seq<Keyed<Event>>,
                    novel: seq<Keyed<Event>>, e: Keyed<Event>)
    returns (novel': seq<Keyed<Event>>)
    requires env.policy.Halt? && env.depth >= 1 && e.key < U64_MAX && env.encode(e.value).Some?
    requires Overlap(env, p, q, start, es, novel, e.key) && (forall x | x in es :: x.key <= e.key)
    requires Untouched(start, e.key) && LiveStep(env, q, EmitOf(e)).window.core.healthy
    ensures var r := LiveStep(env, q, EmitOf(e));
      && r.window.head == Some(e.key) && e.key in r.window.pending
      && Overlap(env, p, r, start, es + [e], novel', e.key)
    ensures novel' == novel || novel' == novel + [e]
  {
    hide FlushMatured, Fold, Rewind, At, Rows, Difference, Kept, Echoed, Untouched, CopyAt;
    var k, row := e.key, env.encode(e.value).value;
    var met := Rewound(q.window, k);
    assert SlotEchoes(env, start, es, met, k);
    AwaitsHere(env, start, es, met, k);
    FoldEchoes(met, k, row, CopyAt(start, k), Rows(env, At(es, k)));
    BufferMeets(q.window, k, row);
    BufferCore(q.window, k, row);
    var (group, delivered) := Fold(Halt, met, FromSortKey(k), row);
    var w := Buffer(Halt, q.window.(core := q.window.core.(captured := true)), FromSortKey(k), row).0;
    forall b: nat | k <= b ensures SlotEchoes(env, start, es + [e], w.pending, b) {
      assert SlotEchoes(env, start, es, met, b);
      SlotStep(env, start, es, met, e, group, b);
    }
    KeptStep(env, start, es, met, e, group);
    DifferenceStep(env, start, es, novel, e, delivered);
    novel' := if delivered then novel + [e] else novel;
    FlushEchoes(env, start, es + [e], w, q.store, k);
    ThereAfter(env, start, es, e, FlushMatured(env, w, q.store).0);
    FlushConfirmed(env, w, q.store);
    AheadLater(env, start, es + [e], FlushMatured(env, w, q.store).0, k, k);
    ValuesPush(novel, e);
  }

  lemma AwaitsHere(env: Env, start: map<nat, Pending>, es: seq<Keyed<Event>>, pending: map<nat, Pending>, k: nat)
    requires SlotEchoes(env, start, es, pending, k) && Untouched(start, k)
    ensures Awaits(pending, k, CopyAt(start, k), Rows(env, At(es, k)))
  {
  }

  lemma ThereAfter(env: Env, start: map<nat, Pending>, es: seq<Keyed<Event>>, e: Keyed<Event>, w: Window)
    requires Ahead(env, start, es + [e], w, e.key)
    ensures e.key in w.pending
  {
    AtPush(es, e, e.key);
    assert SlotEchoes(env, start, es + [e], w.pending, e.key);
  }

  /** After the live events `es`: each re-announced group still buffered holds exactly its live rows, in order;
      downstream has received `novel`, in order, key by key the multiset difference between the live rows and the
      backfill copy. */
  ghost predicate Announced(env: Env, p: Pipe, q: Pipe, start: map<nat, Pending>, es: seq<Keyed<Event>>,
                            novel: seq<Keyed<Event>>)
    requires es != []
  {
    && es[|es| - 1].key in q.window.pending && Kept(env, start, es, q.window.pending)
    && q.out == p.out + Values(novel) && Ordered(novel) && (forall e | e in novel :: e in es)
    && Difference(env, start, es, novel)
    && q.window.head == Some(es[|es| - 1].key) && Ahead(env, start, es, q.window, es[|es| - 1].key)
  }

  lemma AnnounceFirst(env: Env, p: Pipe, e: Keyed<Event>) returns (novel: seq<Keyed<Event>>)
    requires env.policy.Halt? && env.depth >= 1 && e.key < U64_MAX && env.encode(e.value).Some?
    requires Untouched(Rewound(p.window, e.key), e.key) && LiveStep(env, p, EmitOf(e)).window.core.healthy
    ensures Announced(env, p, LiveStep(env, p, EmitOf(e)), Rewound(p.window, e.key), [e], novel)
  {
    hide LiveStep, Ahead, Kept, Difference, Untouched;
    var start := Rewound(p.window, e.key);
    NothingYet(env, p, start, e.key);
    novel := OverlapStep(env, p, p, start, [], [], e);
    assert [] + [e] == [e];
    var q := LiveStep(env, p, EmitOf(e));
    AheadHere(env, start, [e], q.window, e.key);
  }

  lemma AheadHere(env: Env, start: map<nat, Pending>, es: seq<Keyed<Event>>, w: Window, k: nat)
    requires w.head == Some(k)
    ensures MeetAt(w, k) == w && Rewound(w, k) == w.pending
  {
  }

  lemma AnnounceNext(env: Env, p: Pipe, q: Pipe, start: map<nat, Pending>, es: seq<Keyed<Event>>,
                     novel: seq<Keyed<Event>>, e: Keyed<Event>)
    returns (novel': seq<Keyed<Event>>)
    requires env.policy.Halt? && env.depth >= 1 && e.key < U64_MAX && env.encode(e.value).Some?
    requires es != [] && (forall x | x in es :: x.key <= e.key) && Announced(env, p, q, start, es, novel)
    requires Untouched(start, e.key) && LiveStep(env, q, EmitOf(e)).window.core.healthy
    ensures Announced(env, p, LiveStep(env, q, EmitOf(e)), start, es + [e], novel')
  {
    hide LiveStep, Ahead, Kept, Difference, Untouched;
    assert es[|es| - 1] in es;
    AheadLater(env, start, es, q.window, es[|es| - 1].key, e.key);
    novel' := OverlapStep(env, p, q, start, es, novel, e);
    AheadHere(env, start, es + [e], LiveStep(env, q, EmitOf(e)).window, e.key);
    assert (es + [e])[|es + [e]| - 1] == e;
    if novel' != novel { OrderedPush(novel, e); }
  }

  /** Boundary multiset law, for a live tail that re-announces positions in order, the first of them rewinding the
      window where it lies below the head. */
  lemma {:induction false} BoundaryMultisets(env: Env, p: Pipe, es: seq<Keyed<Event>>)
    returns (novel: seq<Keyed<Event>>)
    requires env.policy.Halt? && env.depth >= 1 && es != [] && Ordered(es)
    requires forall e | e in es ::
        e.key < U64_MAX && env.encode(e.value).Some? && Untouched(Rewound(p.window, es[0].key), e.key)
    requires LiveRun(env, p, Emits(es)).window.core.healthy
    ensures Announced(env, p, LiveRun(env, p, Emits(es)), Rewound(p.window, es[0].key), es, novel)
  {
    hide LiveStep, Announced, Untouched, Emits, LiveRun, Rewound;
    var front, e, start := es[..|es| - 1], es[|es| - 1], Rewound(p.window, es[0].key);
    assert front + [e] == es && e in es;
    EmitsPush(front, e);
    LiveRunPush(env, p, Emits(front), EmitOf(e));
    var q := LiveRun(env, p, Emits(front));
    if front == [] {
      NoItems(env, p);
      assert es == [e];
      novel := AnnounceFirst(env, p, e);
    } else {
      HealthyBefore(env, q, EmitOf(e));
      var earlier := BoundaryMultisets(env, p, front);
      novel := AnnounceNext(env, p, q, start, front, earlier, e);
    }
  }

  lemma NoItems(env: Env, p: Pipe)
    ensures LiveRun(env, p, Emits([])) == p
  {
  }

  lemma NothingYet(env: Env, p: Pipe, start: map<nat, Pending>, k: nat)
    requires start == Rewound(p.window, k)
    ensures Overlap(env, p, p, start, [], [], k)
  {
    assert p.out + [] == p.out;
    forall b: nat ensures DifferenceAt(env, start, [], [], b) {}
  }

  /** Later events find no head above them: nothing is rewound again. */
  lemma AheadLater(env: Env, start: map<nat, Pending>, es: seq<Keyed<Event>>, w: Window, k: nat, later: nat)
    requires Ahead(env, start, es, w, k) && k <= later && w.head == Some(k)
    ensures Rewound(w, later) == w.pending && MeetAt(w, later) == w && Ahead(env, start, es, w, later)
  {
  }

  lemma HealthyBefore(env: Env, p: Pipe, item: Indexed)
    requires LiveStep(env, p, item).window.core.healthy
    ensures p.window.core.healthy
  {
  }

  /** The law at one position. */
  lemma BoundaryMultiset(env: Env, p: Pipe, k: nat, evs: seq<Event>) returns (novel: seq<Event>)
    requires env.policy.Halt? && env.depth >= 1 && k < U64_MAX && evs != [] && Encodable(env, evs)
    requires Untouched(Rewound(p.window, k), k) && LiveRun(env, p, Emits(Tag(k, evs))).window.core.healthy
    ensures var q, copy := LiveRun(env, p, Emits(Tag(k, evs))), CopyAt(Rewound(p.window, k), k);
      && k in q.window.pending && q.window.pending[k].rows == Rows(env, evs)
      && q.out == p.out + novel && Encodable(env, novel)
      && multiset(Rows(env, novel)) == multiset(Rows(env, evs)) - copy
  {
    hide LiveRun, Rows, Rewound, CopyAt, Encodable;
    TagKeys(env, k, evs);
    var all := BoundaryMultisets(env, p, Tag(k, evs));
    AtTag(k, evs, k);
    AtAll(all, k);
    novel := Values(all);
    assert DifferenceAt(env, Rewound(p.window, k), Tag(k, evs), all, k);
  }

  lemma TagKeys(env: Env, k: nat, evs: seq<Event>)
    requires Encodable(env, evs)
    ensures |Tag(k, evs)| == |evs| && Ordered(Tag(k, evs)) && forall e | e in Tag(k, evs) ::
        e.key == k && env.encode(e.value).Some?
  {
  }

  lemma {:induction false} AtAll<T>(es: seq<Keyed<T>>, k: nat)
    requires forall e | e in es :: e.key == k
    ensures At(es, k) == Values(es)
  {
    if es != [] {
      var front, e := es[..|es| - 1], es[|es| - 1];
      assert front + [e] == es && e in es;
      AtAll(front, k);
      AtPush(front, e, k);
      ValuesPush(front, e);
    }
  }

  /** What a session's window awaits when its live tail starts: the rows of the unsettled backfill. */
  lemma SeedsAwaited(env: Env, tail: seq<Keyed<Event>>, w: Window, k: nat, b: nat)
    requires Buffers(env, SeedChain(tail), w) && k <= b && Above(w.flushed, b)
    ensures Untouched(Rewound(w, k), b) && CopyAt(Rewound(w, k), b) == multiset(Rows(env, At(tail, b)))
  {
    hide At;
    if b in w.pending {
      assert SlotMatches(env, SeedChain(tail), w, b);
    } else {
      assert At(tail, b) == [];
    }
  }

  /** The law over a whole session: with `tail` the unsettled part of the backfill and `es` the live tail, a healthy
      run delivers, after the backfill, at each position exactly the multiset difference between live and backfilled
      rows. */
  lemma SessionBoundary(env: Env, g: Gap, s: StoreState, backfill: seq<Positioned>, es: seq<Keyed<Event>>)
    returns (novel: seq<Keyed<Event>>)
    requires env.depth >= 1 && Sound(env, g) && InGap(backfill, KeyOf(g.seed), g.tip)
    requires es != [] && Ordered(es) && forall e | e in es :: e.key < U64_MAX && env.encode(e.value).Some?
    requires Run(env, g, s, backfill, Emits(es)).window.core.healthy
    ensures var p, q := Joined(env, g, s, backfill), Run(env, g, s, backfill, Emits(es));
      && q.out == p.out + Values(novel) && Ordered(novel) && (forall e | e in novel :: e in es)
    ensures forall e | e in es ::
      var tail := Part(g.cut, backfill, false);
      && Encodable(env, At(novel, e.key))
      && multiset(Rows(env, At(novel, e.key)))
          == multiset(Rows(env, At(es, e.key))) - multiset(Rows(env, At(tail, e.key)))
  {
    hide LiveRun, Joined, Part, At, Rows, Buffers, Untouched, Rewound, CopyAt, Unripe, InGap, Ahead, Kept, StoredUpTo,
        ChainRun;
    EmitsAreBlocks(es);
    var settled, tailed, taken, tail, n := SessionKeepsChain(env, g, s, backfill, Emits(es));
    var p := Joined(env, g, s, backfill);
    AboveAll(env, p, es);
    forall e | e in es
      ensures Untouched(Rewound(p.window, es[0].key), e.key)
           && CopyAt(Rewound(p.window, es[0].key), e.key) == multiset(Rows(env, At(tail, e.key)))
    {
      SeedsAwaited(env, tail, p.window, es[0].key, e.key);
    }
    novel := BoundaryMultisets(env, p, es);
    forall e | e in es ensures DifferenceAt(env, Rewound(p.window, es[0].key), es, novel, e.key) {}
  }

  lemma EmitsAreBlocks(es: seq<Keyed<Event>>)
    ensures LiveBlocks(Emits(es))
  {
  }

  /** A healthy ordered run started above the watermark. */
  lemma AboveAll(env: Env, p: Pipe, es: seq<Keyed<Event>>)
    requires env.policy.Halt? && es != [] && Ordered(es) && LiveRun(env, p, Emits(es)).window.core.healthy
    ensures forall e | e in es :: es[0].key <= e.key && Above(p.window.flushed, e.key)
  {
    if !Above(p.window.flushed, es[0].key) {
      FirstHalts(env, p, Emits(es));
    }
  }

  /** A live item that rewinds the window at or below `k`: a retraction, or an event below the head. */
  predicate RewindsAt(w: Window, item: Indexed, k: nat) {
    PositionOf(item).key <= k && (item.Emit? ==> w.head.Some? && PositionOf(item).key < w.head.value)
  }

  function Rewinds(env: Env, p: Pipe, items: seq<Indexed>, k: nat): nat {
    if items == [] then 0 else
      var front, last := items[..|items| - 1], items[|items| - 1];
      Rewinds(env, p, front, k) + if RewindsAt(LiveRun(env, p, front).window, last, k) then 1 else 0
  }

  /** A seeded group after `n` rewinds at or below its key, and no live event at it: seeded, converted, dropped. */
  predicate RewoundTimes(seeded: Pending, n: nat, pending: map<nat, Pending>, k: nat) {
    match n
    case 0 => k in pending && pending[k] == seeded
    case 1 => k in pending && pending[k] == Unseed(seeded)
    case _ => k !in pending
  }

  /** What a healthy flush removes lies at or below its watermark, which never falls. */
  lemma {:induction false} FlushedIsBelow(env: Env, w: Window, s: StoreState)
    ensures var w' := FlushMatured(env, w, s).0;
      && (w.flushed.Some? ==> w'.flushed.Some? && w.flushed.value <= w'.flushed.value)
      && (w'.core.healthy ==> forall b | b in w.pending && b !in w'.pending :: !Above(w'.flushed, b))
      && (forall b | b in w'.pending :: b in w.pending && w'.pending[b] == w.pending[b])
    decreases |w.pending|
  {
    var due := Matured(env.depth, w);
    if due != {} {
      var b := Least(due);
      var (core, s1, ok) := Flush(env, w.core, s, GroupOf(w.pending[b]));
      if ok {
        SmallerMap(w.pending, b);
        FlushedIsBelow(env, FlushOne(w, b).(core := core), s1);
      }
    }
  }

  lemma RewindOnce(seeded: Pending, n: nat, pending: map<nat, Pending>, key: nat, k: nat)
    requires seeded.seeded && RewoundTimes(seeded, n, pending, k)
    ensures RewoundTimes(seeded, if key <= k then n + 1 else n, Rewind(pending, key), k)
  {
  }

  lemma RewindsStep(env: Env, p: Pipe, item: Indexed, seeded: Pending, n: nat, k: nat)
    requires env.policy.Halt? && seeded.seeded && (item.Emit? ==> PositionOf(item).key != k)
    requires RewoundTimes(seeded, n, p.window.pending, k)
    requires LiveStep(env, p, item).window.core.healthy && Above(LiveStep(env, p, item).window.flushed, k)
    ensures RewoundTimes(seeded, if RewindsAt(p.window, item, k) then n + 1 else n,
        LiveStep(env, p, item).window.pending, k)
  {
    hide FlushMatured, Fold, Contains, Rewind;
    var key := PositionOf(item).key;
    RewindOnce(seeded, n, p.window.pending, key, k);
    if item.Emit? {
      var w := Buffer(Halt, p.window.(core := p.window.core.(captured := true)), item.item.position,
          env.encode(item.item.event).value).0;
      FlushedIsBelow(env, w, p.store);
    }
  }

  lemma FlushedRises(env: Env, p: Pipe, item: Indexed, k: nat)
    requires Above(LiveStep(env, p, item).window.flushed, k)
    ensures Above(p.window.flushed, k)
  {
    hide FlushMatured, Fold, Contains, Rewind;
    if item.Emit? && env.encode(item.item.event).Some? {
      FlushedIsBelow(env, Buffer(env.policy, p.window.(core := p.window.core.(captured := true)), item.item.position,
                                 env.encode(item.item.event).value).0, p.store);
    }
  }

  /** The number of rewinds alone decides what became of a seeded group. */
  lemma {:induction false} RewindsDecide(env: Env, p: Pipe, pre: seq<Indexed>, k: nat)
    requires env.policy.Halt? && k in p.window.pending && p.window.pending[k].seeded
    requires forall i | i in pre && i.Emit? :: PositionOf(i).key != k
    requires LiveRun(env, p, pre).window.core.healthy && Above(LiveRun(env, p, pre).window.flushed, k)
    ensures RewoundTimes(p.window.pending[k], Rewinds(env, p, pre, k), LiveRun(env, p, pre).window.pending, k)
  {
    if pre != [] {
      hide LiveStep, RewoundTimes, RewindsAt;
      var front, last := pre[..|pre| - 1], pre[|pre| - 1];
      assert last in pre;
      var q := LiveRun(env, p, front);
      HealthyBefore(env, q, last);
      FlushedRises(env, q, last, k);
      RewindsDecide(env, p, front, k);
      RewindsStep(env, q, last, p.window.pending[k], Rewinds(env, p, front, k), k);
    } else {
      assert RewoundTimes(p.window.pending[k], 0, p.window.pending, k);
    }
  }

  /** The rows awaited at first live contact with `k`: the backfill copy, unless a second rewind has dropped it. */
  lemma AwaitedAfterRewinds(seeded: Pending, n: nat, w: Window, k: nat)
    requires seeded.seeded && RewoundTimes(seeded, n, w.pending, k)
    ensures var m := if w.head.Some? && k < w.head.value then n + 1 else n;
      Untouched(Rewound(w, k), k) && CopyAt(Rewound(w, k), k) == if m <= 1 then multiset(seeded.rows) else multiset{}
  {
    RewindOnce(seeded, n, w.pending, k, k);
  }

  lemma {:induction false} LiveRunConcat(env: Env, p: Pipe, a: seq<Indexed>, b: seq<Indexed>)
    ensures LiveRun(env, p, a + b) == LiveRun(env, LiveRun(env, p, a), b)
  {
    if b == [] {
      assert a + b == a;
    } else {
      var front, last := b[..|b| - 1], b[|b| - 1];
      LiveRunConcat(env, p, a, front);
      LiveRunConcatStep(env, p, a, front, last);
      assert b == front + [last];
    }
  }

  lemma LiveRunConcatStep(env: Env, p: Pipe, a: seq<Indexed>, front: seq<Indexed>, last: Indexed)
    requires LiveRun(env, p, a + front) == LiveRun(env, LiveRun(env, p, a), front)
    ensures LiveRun(env, p, a + (front + [last])) == LiveRun(env, LiveRun(env, p, a), front + [last])
  {
    hide LiveRun, LiveStep;
    assert a + (front + [last]) == (a + front) + [last];
    LiveRunPush(env, p, a + front, last);
    LiveRunPush(env, LiveRun(env, p, a), front, last);
  }

  /** The backfill copy survives exactly one rewind. Let `pre` be any live items without an event at the seeded
      position `k`, and let the tail then re-announce `evs` there: the multiset law holds if and only if the window
      has been rewound at or below `k` at most once by then (first contact included), or live and backfilled rows
      have nothing in common. */
  lemma SuppressionSurvivesOneRewind(env: Env, p: Pipe, pre: seq<Indexed>, k: nat, evs: seq<Event>)
    returns (novel: seq<Event>)
    requires env.policy.Halt? && env.depth >= 1 && k < U64_MAX && evs != [] && Encodable(env, evs)
    requires k in p.window.pending && p.window.pending[k].seeded
    requires forall i | i in pre && i.Emit? :: PositionOf(i).key != k
    requires LiveRun(env, p, pre + Emits(Tag(k, evs))).window.core.healthy
    ensures var before, q := LiveRun(env, p, pre), LiveRun(env, p, pre + Emits(Tag(k, evs)));
      var live, copy := multiset(Rows(env, evs)), multiset(p.window.pending[k].rows);
      && k in q.window.pending && q.window.pending[k].rows == Rows(env, evs)
      && q.out == before.out + novel && Encodable(env, novel)
      && (multiset(Rows(env, novel)) == live - copy
          <==> Rewinds(env, p, pre + [EmitOf(Keyed(k, evs[0]))], k) <= 1 || live !! copy)
  {
    var q, es := LiveRun(env, p, pre), Tag(k, evs);
    TagKeys(env, k, evs);
    LiveRunConcat(env, p, pre, Emits(es));
    if !q.window.core.healthy { HaltedStays(env, q, Emits(es)); }
    hide LiveRun, Emits, Rows, RewoundTimes, Encodable, LiveStep;
    AboveAll(env, q, es);
    assert es[0].key == k;
    RewindsDecide(env, p, pre, k);
    assert (pre + [EmitOf(Keyed(k, evs[0]))])[..|pre|] == pre;
    novel := LawAfterRewinds(env, q, p.window.pending[k], Rewinds(env, p, pre, k), k, evs);
  }

  lemma LawAfterRewinds(env: Env, q: Pipe, seeded: Pending, n: nat, k: nat, evs: seq<Event>) returns (novel: seq<Event>)
    requires env.policy.Halt? && env.depth >= 1 && k < U64_MAX && evs != [] && Encodable(env, evs)
    requires seeded.seeded && RewoundTimes(seeded, n, q.window.pending, k)
    requires LiveRun(env, q, Emits(Tag(k, evs))).window.core.healthy
    ensures var r, live, copy := LiveRun(env, q, Emits(Tag(k, evs))), multiset(Rows(env, evs)), multiset(seeded.rows);
      && k in r.window.pending && r.window.pending[k].rows == Rows(env, evs)
      && r.out == q.out + novel && Encodable(env, novel)
      && (multiset(Rows(env, novel)) == live - copy
          <==> n + (if q.window.head.Some? && k < q.window.head.value then 1 else 0) <= 1 || live !! copy)
  {
    hide LiveRun, Emits, Rows, Untouched, CopyAt, RewoundTimes, Encodable, Rewound;
    AwaitedAfterRewinds(seeded, n, q.window, k);
    novel := BoundaryMultiset(env, q, k, evs);
    NothingCancelled(multiset(Rows(env, evs)), multiset(seeded.rows));
  }

  lemma NothingCancelled<T(!new)>(live: multiset<T>, copy: multiset<T>)
    ensures live - multiset{} == live
    ensures live == live - copy <==> live !! copy
  {
    if live == live - copy {
      forall x ensures live[x] == 0 || copy[x] == 0 {
        assert live[x] == (live - copy)[x];
      }
    }
    if live !! copy {
      forall x ensures (live - copy)[x] == live[x] {
        assert live[x] == 0 || copy[x] == 0;
      }
    }
  }

  lemma NothingDueYet(env: Env, w: Window, s: StoreState)
    requires w.head.Some? && forall b | b in w.pending :: w.head.value < SatAdd(b, env.depth)
    ensures FlushMatured(env, w, s) == (w, s)
  {
    assert Matured(env.depth, w) == {};
  }

  lemma LiveThree(env: Env, p: Pipe, x: Indexed, y: Indexed, z: Indexed)
    ensures LiveRun(env, p, [x, y, z]) == LiveStep(env, LiveStep(env, LiveStep(env, p, x), y), z)
  {
    NoItems(env, p);
    hide LiveRun, LiveStep;
    LiveRunPush(env, p, [], x);
    LiveRunPush(env, p, [x], y);
    LiveRunPush(env, p, [x, y], z);
    assert [] + [x] == [x] && [x] + [y] == [x, y] && [x, y] + [z] == [x, y, z] && Emits([]) == [];
  }

  /** The window over the backfill's one block, and what it is when the live tail starts. */
  lemma OneBlockJoined(env: Env, ev: Event, row: Row)
    requires env.policy.Halt? && env.depth == 1 && env.encode(ev) == Some(row)
    ensures var w := Window(Core(true, true), map[6 := Pending(FromSortKey(6), [row], [], true)], Some(6), Some(5),
        Some(FromSortKey(5)));
      Joined(env, Gap(Some(5), None, 6), StoreState([], None, 0), [Positioned(FromSortKey(6), ev)])
      == Pipe(Opened(None), w, StoreState([], None, 0), [ev])
  {
    var s, item := StoreState([], None, 0), Positioned(FromSortKey(6), ev);
    var w := Window(Core(true, true), map[6 := Pending(FromSortKey(6), [row], [], true)], Some(6), Some(5),
        Some(FromSortKey(5)));
    var p := Open(Some(5), None, s);
    NothingDueYet(env, w, s);
    assert BackfillRun(env, Some(5), p, []) == p;
    assert [item][..0] == [] && [] + [ev] == [ev];
    assert BackfillStep(env, Some(5), p, item) == Pipe(Opened(None), w, s, [ev]);
  }

  /** A run that delivers an event twice: the backfill's block is retracted twice before the live tail repeats it. */
  lemma SecondRewindRepeats(env: Env, ev: Event, row: Row)
    requires env.policy.Halt? && env.depth == 1 && env.encode(ev) == Some(row)
    ensures var live := [Retraction(FromSortKey(6)), Retraction(FromSortKey(6)), Emit(Positioned(FromSortKey(6), ev))];
      Run(env, Gap(Some(5), None, 6), StoreState([], None, 0), [Positioned(FromSortKey(6), ev)], live).out == [ev, ev]
  {
    var s, k := StoreState([], None, 0), FromSortKey(6);
    var w := Window(Core(true, true), map[6 := Pending(k, [row], [], true)], Some(6), Some(5), Some(FromSortKey(5)));
    var w1 := w.(pending := map[6 := Pending(k, [], [row], false)], head := Some(5));
    var w2 := w1.(pending := map[]);
    var w3 := w2.(pending := map[6 := Pending(k, [row], [], false)], head := Some(6));
    var p := Pipe(Opened(None), w, s, [ev]);
    OneBlockJoined(env, ev, row);
    LiveThree(env, p, Retraction(k), Retraction(k), Emit(Positioned(k, ev)));
    assert LiveStep(env, p, Retraction(k)) == p.(window := w1);
    assert LiveStep(env, p.(window := w1), Retraction(k)) == p.(window := w2);
    NothingDueYet(env, w3, s);
    assert Buffer(Halt, w2, k, row) == (w3, true);
    assert LiveStep(env, p.(window := w2), Emit(Positioned(k, ev))) == p.(window := w3, out := [ev] + [ev]);
  }
}
