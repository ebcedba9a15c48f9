/** Dedupe sources: over working writes every event that goes downstream is kept, at its instant, and written once it is
    buried. */
module Retention {
  import opened Base
  import opened Positions
  import opened Store
  import opened Streams
  import opened WindowSpec
  import opened Chain
  import opened Pipeline
  import opened Durable
  import opened Backfill
  import opened Session
  import opened Watermarks
  import opened Frontier

  ghost predicate Working(env: Env) {
    forall i: nat :: !env.fails(i)
  }

  /** Rows the window buffers at instant `k`. */
  function SlotAt(w: Window, k: nat): seq<Row> {
    if k in w.pending then w.pending[k].rows else []
  }

  /** Rows of the settled writer's open group, if it is at instant `k`. */
  function OpenAt(b: Settled, k: nat): seq<Row> {
    if b.core.healthy && b.current.Some? && b.current.value.key == k then b.buffer else []
  }

  /** Everything kept at instant `k`: stored, in the open group, or in the window. */
  function Held(p: Pipe, k: nat): seq<Row> {
    LogAt(p.store.log, k) + OpenAt(p.settled, k) + SlotAt(p.window, k)
  }

  /** What any Dedupe window keeps between steps. */
  ghost predicate Tidy(w: Window) {
    && (forall b | b in w.pending :: w.pending[b].position.key == b && w.pending[b].expected == [])
    && (w.pending != map[] ==> w.core.captured)
  }

  /** Flushing over working writes moves rows from the window to the log and loses none. */
  lemma {:induction false} FlushHolds(env: Env, w: Window, s: StoreState, k: nat)
    requires Working(env) && Tidy(w)
    ensures var (w', s') := FlushMatured(env, w, s);
      && Tidy(w') && w'.core.healthy == w.core.healthy && w'.head == w.head && s.log <= s'.log
      && w'.pending.Keys <= w.pending.Keys
      && LogAt(s'.log, k) + SlotAt(w', k) == LogAt(s.log, k) + SlotAt(w, k)
      && (k in w'.pending ==> !Matures(w'.head, env.depth, k))
    decreases |w.pending|
  {
    hide LogAt, Matures;
    var due := Matured(env.depth, w);
    if due != {} {
      var b := Least(due);
      var group := GroupOf(w.pending[b]);
      var (core, s1, ok) := Flush(env, w.core, s, group);
      SmallerMap(w.pending, b);
      LogAtPush(s.log, group, k);
      FlushHolds(env, FlushOne(w, b).(core := core), s1, k);
    } else {
      if k in w.pending { NoneDue(env.depth, w, k); }
    }
  }

  lemma NoneDue(depth: nat, w: Window, k: nat)
    requires Matured(depth, w) == {} && k in w.pending
    ensures !Matures(w.head, depth, k)
  {
    assert k !in Matured(depth, w);
  }

  /** The row an event encodes to. */
  function RowOf(env: Env, ev: Event): Row
    requires env.encode(ev).Some?
  {
    env.encode(ev).value
  }

  /** What one step adds to the rows kept at `k`: the event's row, if it went downstream and lies there. */
  function Added(env: Env, before: Pipe, after: Pipe, item: Indexed, k: nat): seq<Row>
    requires item.Emit? ==> env.encode(item.item.event).Some?
  {
    if item.Emit? && item.item.position.key == k && |after.out| > |before.out| then [RowOf(env, item.item.event)]
    else []
  }

  lemma BufferAdds(w: Window, pos: Position, row: Row, k: nat)
    requires Tidy(w) && w.core.captured
    ensures var (w', delivered) := Buffer(Dedupe, w, pos, row);
      && delivered && Tidy(w') && w'.core == w.core
      && SlotAt(w', k) == SlotAt(w, k) + if pos.key == k then [row] else []
    ensures var w' := BufferSeed(w, pos, row);
      && Tidy(w') && w'.core == w.core && SlotAt(w', k) == SlotAt(w, k) + if pos.key == k then [row] else []
  {
  }

  /** One live item: what goes downstream is kept, at its instant, and nothing is lost. */
  lemma LiveStepHolds(env: Env, p: Pipe, item: Indexed, k: nat)
    requires env.policy.Dedupe? && Working(env) && Tidy(p.window) && p.window.core.healthy
    requires (item.Emit? ==> env.encode(item.item.event).Some?) && OpenAt(p.settled, k) == []
    ensures var q := LiveStep(env, p, item);
      && Tidy(q.window) && q.window.core.healthy && q.settled == p.settled && p.store.log <= q.store.log
      && Held(q, k) == Held(p, k) + Added(env, p, q, item, k)
      && (item.Emit? ==> (q.out == p.out <==> Covered(p.window, item.item.position)))
  {
    hide FlushMatured, Buffer, Covered, LogAt, SlotAt, Tidy, Working;
    var q := LiveStep(env, p, item);
    if item.Emit? && !Covered(p.window, item.item.position) {
      var pos, row := item.item.position, RowOf(env, item.item.event);
      var w := p.window.(core := p.window.core.(captured := true));
      Recore(p.window, w.core, k);
      BufferAdds(w, pos, row, k);
      FlushHolds(env, Buffer(env.policy, w, pos, row).0, p.store, k);
      assert |p.out + [item.item.event]| > |p.out|;
    }
    Regroup(LogAt(p.store.log, k), SlotAt(p.window, k), LogAt(q.store.log, k), SlotAt(q.window, k),
            Added(env, p, q, item, k));
  }

  lemma Recore(w: Window, core: Core, k: nat)
    requires Tidy(w) && core.captured
    ensures Tidy(w.(core := core)) && SlotAt(w.(core := core), k) == SlotAt(w, k)
  {
  }

  lemma Regroup<T>(a: seq<T>, b: seq<T>, a': seq<T>, b': seq<T>, c: seq<T>)
    ensures a' + b' == a + (b + c) ==> a' + [] + b' == a + [] + b + c
    ensures a' == a && b' == b && c == [] ==> a' + [] + b' == a + [] + b + c
  {
    assert a' + [] == a' && a + [] == a;
  }

  lemma EmptySlots(w: Window, w1: Window, w2: Window, k: nat, pos: Position)
    requires k != pos.key && k !in w.pending && w2.pending.Keys <= w1.pending.Keys
    requires exists row :: w1 == BufferSeed(w, pos, row)
    ensures SlotAt(w, k) == [] == SlotAt(w2, k)
  {
    assert k !in w1.pending;
  }

  lemma Unmoved<T>(a: seq<T>, b: seq<T>, a': seq<T>)
    ensures a' + [] == a + [] ==> a' + b + [] == a + b + [] + []
  {
    assert a' + [] == a' && a + [] == a;
  }

  /** One event of the backfill's tail. */
  lemma TailStepHolds(env: Env, cut: Option<nat>, p: Pipe, item: Positioned, k: nat)
    requires env.policy.Dedupe? && Working(env) && Tidy(p.window) && p.window.core.healthy
    requires env.encode(item.event).Some? && !Settles(cut, item.position.key)
    requires OpenAt(p.settled, k) == [] || (k != item.position.key && k !in p.window.pending)
    ensures var q := BackfillStep(env, cut, p, item);
      && Tidy(q.window) && q.window.core.healthy && q.settled == p.settled && p.store.log <= q.store.log
      && Held(q, k) == Held(p, k) + Added(env, p, q, Emit(item), k)
      && (q.out == p.out <==> Covered(p.window, item.position))
  {
    hide FlushMatured, BufferSeed, Covered, LogAt, SlotAt, Tidy, Working, OpenAt;
    var q := BackfillStep(env, cut, p, item);
    if !Covered(p.window, item.position) {
      var pos, row := item.position, RowOf(env, item.event);
      var w := p.window.(core := p.window.core.(captured := true));
      Recore(p.window, w.core, k);
      BufferAdds(w, pos, row, k);
      FlushHolds(env, BufferSeed(w, pos, row), p.store, k);
      assert |p.out + [item.event]| > |p.out|;
      if k != pos.key && k !in p.window.pending { EmptySlots(w, BufferSeed(w, pos, row), q.window, k, pos); }
    }
    Regroup(LogAt(p.store.log, k), SlotAt(p.window, k), LogAt(q.store.log, k), SlotAt(q.window, k),
            Added(env, p, q, Emit(item), k));
    Unmoved(LogAt(p.store.log, k), OpenAt(p.settled, k), LogAt(q.store.log, k));
  }

  /** A settled event that is new but lies below the open group's instant. */
  predicate Backwards(b: Settled, pos: Position) {
    !SettledCovers(b, pos) && b.current.Some? && pos.key < b.current.value.key
  }

  /** One settled event: it halts the writer exactly if it goes backwards; otherwise what goes downstream is kept. */
  lemma SettledStepHolds(env: Env, cut: Option<nat>, p: Pipe, item: Positioned, k: nat)
    requires env.policy.Dedupe? && Working(env) && p.settled.core.healthy
    requires env.encode(item.event).Some? && Settles(cut, item.position.key) && item.position.key !in p.window.pending
    requires p.settled.current.None? ==> p.settled.buffer == []
    ensures var q := BackfillStep(env, cut, p, item);
      && q.window == p.window && p.store.log <= q.store.log
      && (q.settled.core.healthy <==> !Backwards(p.settled, item.position))
      && (q.settled.core.healthy ==>
            && (q.settled.current.None? ==> q.settled.buffer == [])
            && Held(q, k) == Held(p, k) + Added(env, p, q, Emit(item), k)
            && (q.out == p.out <==> SettledCovers(p.settled, item.position)))
  {
    hide LogAt, SettledCovers, Advance;
    var b, pos, row, q := p.settled, item.position, RowOf(env, item.event), BackfillStep(env, cut, p, item);
    assert |p.out + [item.event]| > |p.out|;
    AdvanceKeeps(b.current, pos);
    if b.current.Some? { LogAtPush(p.store.log, Group(b.current.value, b.buffer), k); }
    Moved(LogAt(p.store.log, k), OpenAt(b, k), SlotAt(p.window, k), row);
  }

  lemma AdvanceKeeps(current: Option<Position>, pos: Position)
    ensures Advance(None, pos) == pos
    ensures current.Some? && current.value.key == pos.key ==> Advance(current, pos).key == pos.key
  {
  }

  lemma Moved<T>(log: seq<T>, open: seq<T>, slot: seq<T>, row: T)
    ensures log + open + [] == log + open && log + [] + slot == log + slot
    ensures log + open + slot + [] == log + open + slot
    ensures log + (open + [row]) + [] == log + open + [] + [row] && [] + [row] == [row]
    ensures (log + open) + [] + slot == log + open + slot
  {
  }

  /** `finish` moves the open group to the log. */
  lemma BoundaryHolds(env: Env, p: Pipe, k: nat)
    requires Working(env) && p.settled.core.healthy && Tidy(p.window) && p.window.core.healthy
    requires p.settled.current.Some? ==> p.settled.core.captured
    ensures var q := Boundary(env, p);
      && q.settled.core.healthy && q.settled.current.None? && q.window.core.healthy && Tidy(q.window)
      && q.window.head == p.window.head && q.window.pending == p.window.pending
      && p.store.log <= q.store.log && q.out == p.out && Held(q, k) == Held(p, k)
  {
    hide LogAt, Advance;
    if p.settled.current.Some? {
      LogAtPush(p.store.log, Group(p.settled.current.value, p.settled.buffer), k);
    }
    FinishMoves(LogAt(p.store.log, k), OpenAt(p.settled, k), SlotAt(p.window, k));
  }

  lemma FinishMoves<T>(log: seq<T>, open: seq<T>, slot: seq<T>)
    ensures (log + open) + [] + slot == log + open + slot
  {
  }

  /** The subscription's own gap: it resumes from what is stored. */
  function GapFrom(f: Feed, s: StoreState): Gap {
    f.gap.(seed := s.position)
  }

  function Length(f: Feed): nat {
    |f.backfill| + if f.crashed then 0 else |f.live|
  }

  /** The `n`-th thing a subscription meets. */
  function Arrival(f: Feed, n: nat): Indexed
    requires n < Length(f)
  {
    if n < |f.backfill| then Emit(f.backfill[n]) else f.live[n - |f.backfill|]
  }

  predicate InBackfill(f: Feed, n: nat) {
    n < |f.backfill| || f.crashed
  }

  /** The pipeline before arrival `n`; the writers change over between backfill and live tail. */
  function Reached(env: Env, f: Feed, s: StoreState, n: nat): Pipe
    requires n <= Length(f)
  {
    var g := GapFrom(f, s);
    if InBackfill(f, n) then BackfillRun(env, g.cut, Open(g.cut, g.seed, s), f.backfill[..n])
    else LiveRun(env, Joined(env, g, s, f.backfill), f.live[..n - |f.backfill|])
  }

  ghost predicate AllEncode(env: Env, f: Feed) {
    && (forall i | i in f.backfill :: env.encode(i.event).Some?)
    && (forall i | i in f.live && i.Emit? :: env.encode(i.item.event).Some?)
  }

  /** A fair subscription over working writes whose events all encode. */
  ghost predicate Sure(env: Env, tag: Tag, f: Feed, s: StoreState) {
    && env.policy.Dedupe? && Working(env) && Fair(env, tag, f) && Synced(s) && Once(tag, s.log)
    && AllEncode(env, f)
  }

  lemma ReachedAll(env: Env, f: Feed, s: StoreState)
    ensures Fed(env, f, s) == Reached(env, f, s, Length(f)).store
  {
    assert f.backfill[..|f.backfill|] == f.backfill && f.live[..|f.live|] == f.live;
  }

  lemma BackfillNext(env: Env, f: Feed, s: StoreState, n: nat)
    requires n < |f.backfill|
    ensures var g := GapFrom(f, s);
      BackfillRun(env, g.cut, Open(g.cut, g.seed, s), f.backfill[..n + 1])
      == BackfillStep(env, g.cut, Reached(env, f, s, n), f.backfill[n])
  {
    assert f.backfill[..n + 1][..n] == f.backfill[..n];
  }

  lemma LiveNext(env: Env, f: Feed, s: StoreState, n: nat)
    requires |f.backfill| <= n < Length(f) && !f.crashed
    ensures Reached(env, f, s, n + 1) == LiveStep(env, Reached(env, f, s, n), Arrival(f, n))
  {
    var m := n - |f.backfill|;
    assert f.live[..m + 1][..m] == f.live[..m];
  }

  /** The states between the steps of a subscription whose settled writer has not halted. */
  ghost predicate Good(tag: Tag, f: Feed, s: StoreState, p: Pipe, backfilling: bool) {
    && p.settled.core.healthy && p.window.core.healthy && Tidy(p.window)
    && (backfilling ==> Backfilling(tag, GapFrom(f, s), s, p))
    && (!backfilling ==> Living(tag, f.gap.cut, p) && p.settled.current.None?)
  }

  lemma GoodParts(tag: Tag, f: Feed, s: StoreState, p: Pipe, k: nat)
    requires Good(tag, f, s, p, true)
    ensures forall b | b in p.window.pending :: !Settles(f.gap.cut, b)
    ensures p.settled.current.Some? ==> Settles(f.gap.cut, p.settled.current.value.key) && p.settled.core.captured
    ensures p.settled.current.None? ==> p.settled.buffer == []
    ensures OpenAt(p.settled, k) != [] ==> Settles(f.gap.cut, k)
  {
    hide Tagged, Unstored, Once, Writable;
  }

  /** One backfill step from a good state. */
  lemma GoodStep(env: Env, tag: Tag, f: Feed, s: StoreState, p: Pipe, item: Positioned, k: nat)
    requires Sure(env, tag, f, s) && item in f.backfill && Good(tag, f, s, p, true)
    ensures var q := BackfillStep(env, f.gap.cut, p, item);
      && (q.settled.core.healthy <==> !(Settles(f.gap.cut, item.position.key) && Backwards(p.settled, item.position)))
      && (q.settled.core.healthy ==>
            && q.window.core.healthy && Tidy(q.window) && p.store.log <= q.store.log
            && Held(q, k) == Held(p, k) + Added(env, p, q, Emit(item), k)
            && (q.out == p.out <==> Suppressed(p, f.gap.cut, item, true)))
  {
    hide Held, Added, SettledCovers, Covered, BackfillStep, Backfilling, Living, Fair, Once, Synced, Backwards, Tidy,
        OpenAt;
    GoodParts(tag, f, s, p, k);
    if Settles(f.gap.cut, item.position.key) {
      SettledStepHolds(env, f.gap.cut, p, item, k);
    } else {
      TailStepHolds(env, f.gap.cut, p, item, k);
    }
  }

  /** An arrival the writer it goes to already covers. */
  predicate Suppressed(p: Pipe, cut: Option<nat>, item: Positioned, backfilling: bool) {
    if backfilling && Settles(cut, item.position.key) then SettledCovers(p.settled, item.position)
    else Covered(p.window, item.position)
  }

  lemma SettledSticks(env: Env, cut: Option<nat>, p: Pipe, item: Positioned)
    requires BackfillStep(env, cut, p, item).settled.core.healthy
    ensures p.settled.core.healthy
  {
  }

  lemma {:induction false} GoodBackfill(env: Env, tag: Tag, f: Feed, s: StoreState, n: nat)
    requires Sure(env, tag, f, s) && n <= |f.backfill|
    requires var g := GapFrom(f, s);
      BackfillRun(env, g.cut, Open(g.cut, g.seed, s), f.backfill[..n]).settled.core.healthy
    ensures var g := GapFrom(f, s);
      Good(tag, f, s, BackfillRun(env, g.cut, Open(g.cut, g.seed, s), f.backfill[..n]), true)
  {
    hide Once, Synced, Honest, Unripe, BackfillStep, Backfilling;
    var g := GapFrom(f, s);
    BackfillOnce(env, tag, g, s, f.backfill[..n]);
    if n > 0 {
      BackfillNext(env, f, s, n - 1);
      SettledSticks(env, g.cut, Reached(env, f, s, n - 1), f.backfill[n - 1]);
      GoodBackfill(env, tag, f, s, n - 1);
      GoodStep(env, tag, f, s, Reached(env, f, s, n - 1), f.backfill[n - 1], 0);
    }
  }

  lemma GoodBoundary(env: Env, tag: Tag, f: Feed, s: StoreState, p: Pipe, k: nat)
    requires Working(env) && Good(tag, f, s, p, true)
    ensures var q := Boundary(env, p);
      Good(tag, f, s, q, false) && p.store.log <= q.store.log && q.out == p.out && Held(q, k) == Held(p, k)
  {
    hide Held, Backfilling, Living, Tidy;
    GoodParts(tag, f, s, p, k);
    BoundaryHolds(env, p, k);
    BoundaryOnce(env, tag, GapFrom(f, s), s, p);
  }

  lemma GoodLiveStep(env: Env, tag: Tag, f: Feed, s: StoreState, p: Pipe, item: Indexed, k: nat)
    requires Sure(env, tag, f, s) && item in f.live && Good(tag, f, s, p, false)
    ensures var q := LiveStep(env, p, item);
      && Good(tag, f, s, q, false) && p.store.log <= q.store.log
      && Held(q, k) == Held(p, k) + Added(env, p, q, item, k)
      && (item.Emit? ==> (q.out == p.out <==> Covered(p.window, item.item.position)))
  {
    hide Held, Added, Covered, LiveStep, Synced, Once, SlotsWritable, WindowAgrees, Honest, Unripe, Tidy;
    assert OpenAt(p.settled, k) == [];
    LiveStepHolds(env, p, item, k);
    StepSynced(env, p, item);
    LiveStepOnce(env, tag, f.gap.cut, p, item);
  }

  lemma StepSynced(env: Env, p: Pipe, item: Indexed)
    requires Synced(p.store)
    ensures Synced(LiveStep(env, p, item).store)
  {
    LiveSynced(env, p, [item]);
    assert [item][..0] == [];
    assert LiveRun(env, p, [item]) == LiveStep(env, LiveRun(env, p, []), item);
  }

  lemma {:induction false} GoodLive(env: Env, tag: Tag, f: Feed, s: StoreState, n: nat)
    requires Sure(env, tag, f, s) && !f.crashed && |f.backfill| <= n <= Length(f)
    requires Joined(env, GapFrom(f, s), s, f.backfill).settled.core.healthy
    ensures Good(tag, f, s, Reached(env, f, s, n), false)
  {
    hide Sure, Good, Joined, LiveRun, LiveStep;
    if n == |f.backfill| {
      assert f.backfill[..|f.backfill|] == f.backfill;
      JoinedFrom(env, f, s);
      GoodBackfill(env, tag, f, s, n);
      var g := GapFrom(f, s);
      WorkingIn(env, tag, f, s);
      GoodBoundary(env, tag, f, s, BackfillRun(env, g.cut, Open(g.cut, g.seed, s), f.backfill), 0);
    } else {
      GoodLive(env, tag, f, s, n - 1);
      LiveNext(env, f, s, n - 1);
      assert Arrival(f, n - 1) in f.live;
      GoodLiveStep(env, tag, f, s, Reached(env, f, s, n - 1), Arrival(f, n - 1), 0);
    }
  }

  lemma WorkingIn(env: Env, tag: Tag, f: Feed, s: StoreState)
    requires Sure(env, tag, f, s)
    ensures Working(env)
  {
  }

  lemma JoinedFrom(env: Env, f: Feed, s: StoreState)
    ensures var g := GapFrom(f, s); var p := BackfillRun(env, g.cut, Open(g.cut, g.seed, s), f.backfill);
      && Joined(env, g, s, f.backfill) == Boundary(env, p)
      && (Boundary(env, p).settled.core.healthy ==> p.settled.core.healthy)
    ensures !f.crashed ==> Reached(env, f, s, |f.backfill|) == Joined(env, GapFrom(f, s), s, f.backfill)
  {
    assert f.live[..0] == [];
  }

  /** Between any two arrivals, as long as the settled writer has not halted. */
  lemma GoodAt(env: Env, tag: Tag, f: Feed, s: StoreState, n: nat)
    requires Sure(env, tag, f, s) && n <= Length(f) && Reached(env, f, s, n).settled.core.healthy
    ensures Good(tag, f, s, Reached(env, f, s, n), InBackfill(f, n))
  {
    hide Sure, Good, BackfillRun, LiveRun, Joined;
    if InBackfill(f, n) {
      GoodBackfill(env, tag, f, s, n);
    } else {
      LiveKeepsSettled(env, Joined(env, GapFrom(f, s), s, f.backfill), f.live[..n - |f.backfill|]);
      GoodLive(env, tag, f, s, n);
    }
  }

  lemma {:induction false} LiveKeepsSettled(env: Env, p: Pipe, items: seq<Indexed>)
    ensures LiveRun(env, p, items).settled == p.settled
  {
    if items != [] { LiveKeepsSettled(env, p, items[..|items| - 1]); }
  }

  /** Whether the arrival goes downstream. */
  predicate GoesOut(env: Env, f: Feed, s: StoreState, n: nat)
    requires n < Length(f)
  {
    |Reached(env, f, s, n + 1).out| > |Reached(env, f, s, n).out|
  }

  /** One arrival: what it adds to the rows kept is its own row if it goes downstream, which it does exactly if it is
      not covered; and nothing written is taken back. */
  lemma ArrivalHolds(env: Env, tag: Tag, f: Feed, s: StoreState, n: nat, k: nat)
    requires Sure(env, tag, f, s) && n < Length(f) && Reached(env, f, s, n + 1).settled.core.healthy
    ensures var p, q, item := Reached(env, f, s, n), Reached(env, f, s, n + 1), Arrival(f, n);
      && p.settled.core.healthy && p.store.log <= q.store.log
      && (item.Emit? ==> env.encode(item.item.event).Some?)
      && Held(q, k) == Held(p, k) + Added(env, p, q, item, k)
      && (item.Emit? ==> (GoesOut(env, f, s, n) <==> !Suppressed(p, f.gap.cut, item.item, InBackfill(f, n))))
  {
    hide Good, BackfillRun, LiveRun, Joined, Held, BackfillStep, LiveStep, Boundary, Synced, Once, Fair, Covered,
        SettledCovers;
    var p, q, item := Reached(env, f, s, n), Reached(env, f, s, n + 1), Arrival(f, n);
    if n < |f.backfill| {
      var g := GapFrom(f, s);
      var q1 := BackfillStep(env, g.cut, p, f.backfill[n]);
      BackfillNext(env, f, s, n);
      assert f.backfill[..|f.backfill|] == f.backfill;
      JoinedFrom(env, f, s);
      SettledSticks(env, g.cut, p, f.backfill[n]);
      GoodAt(env, tag, f, s, n);
      GoodStep(env, tag, f, s, p, f.backfill[n], k);
      Outs(env, g.cut, p, f.backfill[n]);
      if !InBackfill(f, n + 1) {
        GoodBackfill(env, tag, f, s, n + 1);
        GoodBoundary(env, tag, f, s, q1, k);
        assert q == Boundary(env, q1);
      }
    } else {
      LiveNext(env, f, s, n);
      LiveOuts(env, p, item);
      assert item in f.live;
      GoodAt(env, tag, f, s, n);
      GoodLiveStep(env, tag, f, s, p, item, k);
    }
  }

  lemma Outs(env: Env, cut: Option<nat>, p: Pipe, item: Positioned)
    ensures |BackfillStep(env, cut, p, item).out| > |p.out| <==> BackfillStep(env, cut, p, item).out != p.out
  {
  }

  lemma LiveOuts(env: Env, p: Pipe, item: Indexed)
    ensures |LiveStep(env, p, item).out| > |p.out| <==> LiveStep(env, p, item).out != p.out
    ensures LiveStep(env, p, item).settled == p.settled
  {
  }

  /** What a subscription has sent downstream before arrival `n`. */
  function Delivered(env: Env, f: Feed, s: StoreState, n: nat): seq<Keyed<Event>>
    requires n <= Length(f)
  {
    if n == 0 then [] else
      var item := Arrival(f, n - 1);
      Delivered(env, f, s, n - 1)
      + if item.Emit? && GoesOut(env, f, s, n - 1) then [Keyed(item.item.position.key, item.item.event)] else []
  }

  lemma StartHeld(env: Env, tag: Tag, f: Feed, s: StoreState, k: nat)
    requires Sure(env, tag, f, s)
    ensures Held(Reached(env, f, s, 0), k) == LogAt(s.log, k)
    ensures s.log <= Reached(env, f, s, 0).store.log && Reached(env, f, s, 0).settled.core.healthy
  {
    hide Good, Backfilling, Living, LogAt, Sure;
    assert f.backfill[..0] == [];
    if !InBackfill(f, 0) {
      assert f.backfill == [] && f.live[..0] == [];
      GoodBackfill(env, tag, f, s, 0);
      WorkingIn(env, tag, f, s);
      GoodBoundary(env, tag, f, s, Open(f.gap.cut, s.position, s), k);
    }
  }

  lemma RowAt(env: Env, es: seq<Keyed<Event>>, key: nat, ev: Event, k: nat)
    requires env.encode(ev).Some?
    ensures Rows(env, At(es + [Keyed(key, ev)], k)) == Rows(env, At(es, k)) + if key == k then [RowOf(env, ev)] else []
  {
    AtPush(es, Keyed(key, ev), k);
    RowsPush(env, At(es, k), ev);
  }

  /** Main theorem: over working writes what a subscription keeps at an instant - stored, in the open group or in the
      window - is what was stored there before, followed by the row of every event it has sent downstream, in order. */
  lemma {:induction false} KeptIsDelivered(env: Env, tag: Tag, f: Feed, s: StoreState, n: nat, k: nat)
    requires Sure(env, tag, f, s) && n <= Length(f) && Reached(env, f, s, n).settled.core.healthy
    ensures Held(Reached(env, f, s, n), k) == LogAt(s.log, k) + Rows(env, At(Delivered(env, f, s, n), k))
  {
    hide Sure, Reached, Held, LogAt, Rows, At, GoesOut;
    if n == 0 {
      StartHeld(env, tag, f, s, k);
      NoRows(env, k);
      assert LogAt(s.log, k) + [] == LogAt(s.log, k);
    } else {
      ArrivalHolds(env, tag, f, s, n - 1, k);
      KeptIsDelivered(env, tag, f, s, n - 1, k);
      var item, es := Arrival(f, n - 1), Delivered(env, f, s, n - 1);
      if item.Emit? { RowAt(env, es, item.item.position.key, item.item.event, k); }
      AddedIs(env, f, s, n - 1, k);
      assert es + [] == es;
      var added := Added(env, Reached(env, f, s, n - 1), Reached(env, f, s, n), item, k);
      assert LogAt(s.log, k) + (Rows(env, At(es, k)) + added) == LogAt(s.log, k) + Rows(env, At(es, k)) + added;
    }
  }

  lemma NoRows(env: Env, k: nat)
    ensures Rows(env, At([], k)) == []
  {
  }

  lemma AddedIs(env: Env, f: Feed, s: StoreState, n: nat, k: nat)
    requires n < Length(f) && (Arrival(f, n).Emit? ==> env.encode(Arrival(f, n).item.event).Some?)
    ensures var item := Arrival(f, n);
      Added(env, Reached(env, f, s, n), Reached(env, f, s, n + 1), item, k)
      == if item.Emit? && item.item.position.key == k && GoesOut(env, f, s, n) then [RowOf(env, item.item.event)]
         else []
  {
  }

  /** Rows once kept stay kept, and what is written stays written. */
  lemma {:induction false} HeldGrows(env: Env, tag: Tag, f: Feed, s: StoreState, n: nat, m: nat, k: nat)
    requires Sure(env, tag, f, s) && n <= m <= Length(f) && Reached(env, f, s, m).settled.core.healthy
    ensures Reached(env, f, s, n).settled.core.healthy
    ensures Held(Reached(env, f, s, n), k) <= Held(Reached(env, f, s, m), k)
    ensures Reached(env, f, s, n).store.log <= Reached(env, f, s, m).store.log
    decreases m
  {
    hide Sure, Reached, Held, Added, Suppressed, GoesOut;
    if n < m {
      ArrivalHolds(env, tag, f, s, m - 1, k);
      HeldGrows(env, tag, f, s, n, m - 1, k);
    }
  }

  /** From any healthy window: what arrives uncovered stays buffered or stored at its instant, whatever comes later. */
  lemma {:induction false} UncoveredIsKept(env: Env, p: Pipe, item: Positioned, later: seq<Indexed>)
    requires env.policy.Dedupe? && Working(env) && Tidy(p.window) && p.window.core.healthy && p.settled.current.None?
    requires env.encode(item.event).Some? && forall i | i in later && i.Emit? :: env.encode(i.item.event).Some?
    requires !Covered(p.window, item.position)
    ensures var q, k := LiveRun(env, LiveStep(env, p, Emit(item)), later), item.position.key;
      && Tidy(q.window) && q.window.core.healthy && q.settled == p.settled
      && RowOf(env, item.event) in LogAt(q.store.log, k) + SlotAt(q.window, k)
  {
    hide LogAt, SlotAt, Tidy, Covered, LiveStep;
    var k := item.position.key;
    assert LogAt(p.store.log, k) + [] == LogAt(p.store.log, k);
    if later == [] {
      var q := LiveStep(env, p, Emit(item));
      LiveStepHolds(env, p, Emit(item), k);
      LiveOuts(env, p, Emit(item));
      assert LogAt(q.store.log, k) + [] == LogAt(q.store.log, k);
      assert RowOf(env, item.event) in Held(p, k) + [RowOf(env, item.event)];
    } else {
      var front, last := later[..|later| - 1], later[|later| - 1];
      assert last in later;
      UncoveredIsKept(env, p, item, front);
      var q := LiveRun(env, LiveStep(env, p, Emit(item)), front);
      LiveStepHolds(env, q, last, k);
      assert LogAt(q.store.log, k) + [] == LogAt(q.store.log, k);
      assert LogAt(LiveStep(env, q, last).store.log, k) + [] == LogAt(LiveStep(env, q, last).store.log, k);
    }
  }

  /** The settled writer halts at the first new event that lies below the open group, and at nothing else. */
  lemma {:induction false} HaltsExactly(env: Env, tag: Tag, f: Feed, s: StoreState, n: nat)
    requires Sure(env, tag, f, s) && n <= |f.backfill|
    ensures var g := GapFrom(f, s);
      BackfillRun(env, g.cut, Open(g.cut, g.seed, s), f.backfill[..n]).settled.core.healthy
      <==> forall i | 0 <= i < n && Settles(g.cut, f.backfill[i].position.key) ::
             !Backwards(Reached(env, f, s, i).settled, f.backfill[i].position)
  {
    hide *;
    if n > 0 {
      HaltsExactly(env, tag, f, s, n - 1);
      HaltsNext(env, tag, f, s, n - 1);
    } else {
      StartsHealthy(env, f, s);
    }
  }

  lemma StartsHealthy(env: Env, f: Feed, s: StoreState)
    ensures var g := GapFrom(f, s);
      BackfillRun(env, g.cut, Open(g.cut, g.seed, s), f.backfill[..0]).settled.core.healthy
  {
  }

  lemma HaltsNext(env: Env, tag: Tag, f: Feed, s: StoreState, n: nat)
    requires Sure(env, tag, f, s) && n < |f.backfill|
    ensures var g, p, item := GapFrom(f, s), Reached(env, f, s, n), f.backfill[n];
      BackfillRun(env, g.cut, Open(g.cut, g.seed, s), f.backfill[..n + 1]).settled.core.healthy
      <==> p.settled.core.healthy && (Settles(g.cut, item.position.key) ==> !Backwards(p.settled, item.position))
    ensures var g := GapFrom(f, s);
      BackfillRun(env, g.cut, Open(g.cut, g.seed, s), f.backfill[..n]) == Reached(env, f, s, n)
  {
    hide Backwards, Once, Synced, Fair, BackfillStep, BackfillRun, Good, Settles;
    var g, p := GapFrom(f, s), Reached(env, f, s, n);
    BackfillNext(env, f, s, n);
    if p.settled.core.healthy {
      GoodBackfill(env, tag, f, s, n);
      GoodStep(env, tag, f, s, p, f.backfill[n], 0);
    } else {
      SettledStuck(env, g.cut, p, f.backfill[n]);
    }
  }

  lemma SettledStuck(env: Env, cut: Option<nat>, p: Pipe, item: Positioned)
    requires !p.settled.core.healthy
    ensures !BackfillStep(env, cut, p, item).settled.core.healthy
  {
  }

  /** So an ordered settled part never halts it. */
  lemma OrderedNeverHalts(env: Env, tag: Tag, f: Feed, s: StoreState)
    requires Sure(env, tag, f, s)
    requires forall i, j | 0 <= i < j < |f.backfill| && Settles(f.gap.cut, f.backfill[i].position.key)
        && Settles(f.gap.cut, f.backfill[j].position.key) :: f.backfill[i].position.key <= f.backfill[j].position.key
    ensures Reached(env, f, s, Length(f)).settled.core.healthy
  {
    hide Once, Synced, Fair, SettledCovers, BackfillRun;
    var g, l := GapFrom(f, s), |f.backfill|;
    HaltsExactly(env, tag, f, s, l);
    forall i | 0 <= i < l && Settles(g.cut, f.backfill[i].position.key)
      ensures !Backwards(Reached(env, f, s, i).settled, f.backfill[i].position)
    {
      OpenWasMet(env, f, s, i);
    }
    assert f.backfill[..l] == f.backfill;
    if !f.crashed {
      GoodBackfill(env, tag, f, s, l);
      WorkingIn(env, tag, f, s);
      GoodBoundary(env, tag, f, s, BackfillRun(env, g.cut, Open(g.cut, g.seed, s), f.backfill), 0);
      LiveKeepsSettled(env, Joined(env, g, s, f.backfill), f.live[..Length(f) - l]);
    }
  }

  /** Something that settles at `k` is among the first `n` arrivals. */
  ghost predicate SettledAt(f: Feed, n: nat, k: nat)
    requires n <= |f.backfill| && Settles(f.gap.cut, k)
  {
    exists i :: 0 <= i < n && f.backfill[i].position.key == k
  }

  /** The open group lies at the instant of something settled before. */
  lemma {:induction false} OpenWasMet(env: Env, f: Feed, s: StoreState, n: nat)
    requires n < |f.backfill|
    ensures var b := Reached(env, f, s, n).settled;
      b.current.Some? ==> Settles(f.gap.cut, b.current.value.key) && SettledAt(f, n, b.current.value.key)
  {
    hide Reached, BackfillStep, Settles;
    if n == 0 {
      NothingOpenYet(env, f, s);
    } else {
      OpenWasMet(env, f, s, n - 1);
      BackfillNext(env, f, s, n - 1);
      StillBackfill(env, f, s, n);
      OpenStays(env, f.gap.cut, Reached(env, f, s, n - 1), f.backfill[n - 1]);
    }
  }

  lemma NothingOpenYet(env: Env, f: Feed, s: StoreState)
    requires f.backfill != []
    ensures Reached(env, f, s, 0).settled.current.None?
  {
  }

  lemma StillBackfill(env: Env, f: Feed, s: StoreState, n: nat)
    requires n < |f.backfill|
    ensures var g := GapFrom(f, s);
      Reached(env, f, s, n) == BackfillRun(env, g.cut, Open(g.cut, g.seed, s), f.backfill[..n])
  {
  }

  lemma OpenStays(env: Env, cut: Option<nat>, p: Pipe, item: Positioned)
    ensures var before, b := p.settled, BackfillStep(env, cut, p, item).settled;
      b.current.Some? ==>
        || (before.current.Some? && before.current.value.key == b.current.value.key)
        || (Settles(cut, item.position.key) && b.current.value.key == item.position.key)
  {
    hide SettledCovers, RecordSeeded;
  }

  /** `Delivered` is what goes downstream. */
  lemma {:induction false} OutIsDelivered(env: Env, f: Feed, s: StoreState, n: nat)
    requires n <= Length(f)
    ensures Reached(env, f, s, n).out == Values(Delivered(env, f, s, n))
  {
    hide BackfillRun, LiveRun, BackfillStep, LiveStep, Joined, Values;
    if n == 0 {
      StartOut(env, f, s);
    } else {
      OutIsDelivered(env, f, s, n - 1);
      StepOut(env, f, s, n - 1);
      var item, es := Arrival(f, n - 1), Delivered(env, f, s, n - 1);
      if item.Emit? { ValuesPush(es, Keyed(item.item.position.key, item.item.event)); }
      assert es + [] == es;
    }
  }

  lemma StartOut(env: Env, f: Feed, s: StoreState)
    ensures Reached(env, f, s, 0).out == [] == Values(Delivered(env, f, s, 0))
  {
    assert f.backfill[..0] == [];
    if !InBackfill(f, 0) { assert f.backfill == [] && f.live[..0] == []; }
  }

  lemma StepOut(env: Env, f: Feed, s: StoreState, n: nat)
    requires n < Length(f)
    ensures Reached(env, f, s, n + 1).out
         == Reached(env, f, s, n).out
         + if Arrival(f, n).Emit? && GoesOut(env, f, s, n) then [Arrival(f, n).item.event] else []
  {
    hide BackfillRun, LiveRun, Record, RecordSeeded, SettledRecord, Retract;
    if n < |f.backfill| {
      BackfillNext(env, f, s, n);
      assert f.backfill[..|f.backfill|] == f.backfill;
      JoinedFrom(env, f, s);
    } else {
      LiveNext(env, f, s, n);
    }
  }
}
