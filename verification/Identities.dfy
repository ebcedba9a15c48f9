/** Dedupe sources over working writes: every identity that arrives in time is stored exactly once when it is due. */
module Identities {
  import opened Base
  import opened Positions
  import opened Store
  import opened WindowSpec
  import opened Chain
  import opened Pipeline
  import opened Durable
  import opened Backfill
  import opened Session
  import opened Watermarks
  import opened Frontier
  import opened Retention

  ghost predicate HasTag(tag: Tag, rows: seq<Row>, id: Id) {
    exists i :: 0 <= i < |rows| && tag(rows[i]) == id
  }

  ghost predicate ExactlyOne(tag: Tag, rows: seq<Row>, id: Id) {
    exists i :: 0 <= i < |rows| && tag(rows[i]) == id && forall j | 0 <= j < |rows| && j != i :: tag(rows[j]) != id
  }

  lemma OneOfDistinct(tag: Tag, rows: seq<Row>, id: Id)
    requires Distinct(tag, rows) && HasTag(tag, rows, id)
    ensures ExactlyOne(tag, rows, id)
  {
    var i :| 0 <= i < |rows| && tag(rows[i]) == id;
  }

  lemma HasTagConcat(tag: Tag, a: seq<Row>, b: seq<Row>, id: Id)
    ensures HasTag(tag, a + b, id) <==> HasTag(tag, a, id) || HasTag(tag, b, id)
  {
    var c := a + b;
    if i :| 0 <= i < |a| && tag(a[i]) == id { assert tag(c[i]) == id; }
    if i :| 0 <= i < |b| && tag(b[i]) == id { assert tag(c[|a| + i]) == id; }
    if i :| 0 <= i < |c| && tag(c[i]) == id { assert c[i] == if i < |a| then a[i] else b[i - |a|]; }
  }

  /** A stored group's identities have their rows in the log, at its instant. */
  lemma {:induction false} GroupTags(tag: Tag, log: seq<Group>, g: Group, id: Id)
    requires Once(tag, log) && g in log && id in g.position.seen
    ensures HasTag(tag, LogAt(log, g.position.key), id)
  {
    hide Tagged;
    var front, last := log[..|log| - 1], log[|log| - 1];
    assert log == front + [last];
    OnceFront(tag, front, last);
    if g == last {
      TaggedHas(tag, last.position.seen, last.rows, id);
      HasTagConcat(tag, LogAt(front, g.position.key), last.rows, id);
    } else {
      GroupTags(tag, front, g, id);
      HasTagConcat(tag, LogAt(front, g.position.key), last.rows, id);
    }
  }

  lemma TaggedHas(tag: Tag, seen: set<Id>, rows: seq<Row>, id: Id)
    requires Tagged(tag, seen, rows) && id in seen
    ensures HasTag(tag, rows, id)
  {
  }

  /** No identity has two of the rows kept at an instant. */
  lemma HeldDistinct(tag: Tag, f: Feed, s: StoreState, p: Pipe, backfilling: bool, k: nat)
    requires Good(tag, f, s, p, backfilling)
    ensures Distinct(tag, Held(p, k))
  {
    hide Tagged, Unstored, Synced, Agree, WindowAgrees, LogAt;
    var log := p.store.log;
    OnceAt(tag, log, k);
    assert LogAt(log, k) + [] == LogAt(log, k) && LogAt(log, k) + [] + [] == LogAt(log, k);
    if OpenAt(p.settled, k) != [] {
      GoodParts(tag, f, s, p, k);
      assert SlotAt(p.window, k) == [];
      WritableDistinct(tag, log, p.settled.current.value, p.settled.buffer);
      assert Held(p, k) == LogAt(log, k) + p.settled.buffer;
    } else if k in p.window.pending {
      WritableDistinct(tag, log, p.window.pending[k].position, p.window.pending[k].rows);
      assert Held(p, k) == LogAt(log, k) + p.window.pending[k].rows;
    } else {
      assert Held(p, k) == LogAt(log, k);
    }
  }

  lemma WritableDistinct(tag: Tag, log: seq<Group>, pos: Position, rows: seq<Row>)
    requires Once(tag, log) && Writable(tag, log, pos, rows)
    ensures Distinct(tag, LogAt(log, pos.key) + rows)
  {
    OnceAt(tag, log, pos.key);
    var stored, all := LogAt(log, pos.key), LogAt(log, pos.key) + rows;
    forall i, j | 0 <= i < j < |all| ensures tag(all[i]) != tag(all[j]) {
      if i < |stored| <= j {
        assert all[i] in stored && all[j] == rows[j - |stored|];
        var g :| g in log && g.position.key == pos.key && tag(all[i]) in g.position.seen;
        assert tag(all[j]) in pos.seen;
      } else if |stored| <= i {
        assert all[i] == rows[i - |stored|] && all[j] == rows[j - |stored|];
      }
    }
  }

  /** An arrival strictly below the instant its writer's watermark has reached. */
  predicate TooLate(p: Pipe, cut: Option<nat>, pos: Position, backfilling: bool) {
    var watermark := if backfilling && Settles(cut, pos.key) then p.settled.watermark else p.window.watermark;
    watermark.Some? && pos.key < watermark.value.key
  }

  /** A covered arrival is too late, or has its row already. */
  lemma CoveredIsKept(tag: Tag, f: Feed, s: StoreState, p: Pipe, pos: Position, id: Id, backfilling: bool)
    requires Good(tag, f, s, p, backfilling) && Synced(s) && Once(tag, s.log) && pos.seen == {id}
    requires if backfilling && Settles(f.gap.cut, pos.key) then SettledCovers(p.settled, pos)
             else Covered(p.window, pos)
    ensures TooLate(p, f.gap.cut, pos, backfilling) || HasTag(tag, Held(p, pos.key), id)
  {
    hide Tagged, Unstored, LogAt, Once;
    var k, cut, log := pos.key, f.gap.cut, p.store.log;
    assert id in pos.seen;
    HasTagConcat(tag, LogAt(log, k), OpenAt(p.settled, k), id);
    HasTagConcat(tag, LogAt(log, k) + OpenAt(p.settled, k), SlotAt(p.window, k), id);
    if k in p.window.pending && id in p.window.pending[k].position.seen {
      TaggedHas(tag, p.window.pending[k].position.seen, p.window.pending[k].rows, id);
    }
    if OpenAt(p.settled, k) == p.settled.buffer && p.settled.current.Some? && id in p.settled.current.value.seen
        && backfilling && p.settled.current.value.key == k {
      TaggedHas(tag, p.settled.current.value.seen, p.settled.buffer, id);
    }
    var w := if backfilling && Settles(cut, k) then p.settled.watermark else p.window.watermark;
    if w.Some? && w.value.key == k && id in w.value.seen {
      hide FoldPositions;
      SeenIsStored(tag, f, s, p, w, k, id, backfilling);
    }
  }

  /** What a watermark has seen at its own instant is in the log. */
  lemma SeenIsStored(tag: Tag, f: Feed, s: StoreState, p: Pipe, w: Option<Position>, k: nat, id: Id, backfilling: bool)
    requires Good(tag, f, s, p, backfilling) && Synced(s) && Once(tag, s.log)
    requires w.Some? && w.value.key == k && id in w.value.seen
    requires w == if backfilling && Settles(f.gap.cut, k) then p.settled.watermark else p.window.watermark
    ensures HasTag(tag, LogAt(p.store.log, k), id)
  {
    hide Tagged, Unstored, Writable, SlotsWritable, LogAt, Once, FoldPositions;
    if backfilling && !Settles(f.gap.cut, k) {
      assert s.position.Some? && s.position.value.key == k && id in s.position.value.seen;
      FoldStored(s.log, id);
      var g :| g in s.log && g.position.key == k && id in g.position.seen;
      InPrefix(s.log, p.store.log, g);
      GroupTags(tag, p.store.log, g, id);
    } else {
      assert p.store.position.Some? && p.store.position.value.key == k && id in p.store.position.value.seen;
      FoldStored(p.store.log, id);
      var g :| g in p.store.log && g.position.key == k && id in g.position.seen;
      GroupTags(tag, p.store.log, g, id);
    }
  }

  lemma InPrefix<T>(a: seq<T>, b: seq<T>, x: T)
    requires a <= b && x in a
    ensures x in b
  {
    var i :| 0 <= i < |a| && a[i] == x;
    assert b[i] == x;
  }

  /** An identity that has arrived was too late, or has its row among those kept, from its arrival on. */
  lemma ArrivedIsKept(env: Env, tag: Tag, f: Feed, s: StoreState, n: nat, id: Id)
    requires Sure(env, tag, f, s) && n < Length(f) && Reached(env, f, s, n + 1).settled.core.healthy
    requires Arrival(f, n).Emit? && Arrival(f, n).item.position.seen == {id}
    ensures var pos := Arrival(f, n).item.position;
      || TooLate(Reached(env, f, s, n), f.gap.cut, pos, InBackfill(f, n))
      || HasTag(tag, Held(Reached(env, f, s, n + 1), pos.key), id)
  {
    hide Reached, Held, Good, Synced, Once, Honest, TooLate, SettledCovers, Covered;
    var item := Arrival(f, n).item;
    var p, q, k := Reached(env, f, s, n), Reached(env, f, s, n + 1), item.position.key;
    ArrivalHolds(env, tag, f, s, n, k);
    GoodAt(env, tag, f, s, n);
    HasTagConcat(tag, Held(p, k), Added(env, p, q, Arrival(f, n), k), id);
    if GoesOut(env, f, s, n) {
      assert item in f.backfill || Emit(item) in f.live;
      HonestRow(env, tag, item, id);
    } else {
      CoveredIsKept(tag, f, s, p, item.position, id, InBackfill(f, n));
    }
  }

  lemma HonestRow(env: Env, tag: Tag, item: Positioned, id: Id)
    requires Honest(env, tag, item) && env.encode(item.event).Some? && item.position.seen == {id}
    ensures HasTag(tag, [RowOf(env, item.event)], id)
  {
    assert tag(RowOf(env, item.event)) in item.position.seen;
    assert tag([RowOf(env, item.event)][0]) == id;
  }

  /** Main theorem for one subscription: whatever arrives later, an identity that was not too late has exactly one row
      among those stored or still buffered at its instant. */
  lemma KeptOnce(env: Env, tag: Tag, f: Feed, s: StoreState, n: nat, m: nat, id: Id)
    requires Sure(env, tag, f, s) && n < m <= Length(f) && Reached(env, f, s, m).settled.core.healthy
    requires Arrival(f, n).Emit? && Arrival(f, n).item.position.seen == {id}
    ensures var pos := Arrival(f, n).item.position;
      || TooLate(Reached(env, f, s, n), f.gap.cut, pos, InBackfill(f, n))
      || ExactlyOne(tag, Held(Reached(env, f, s, m), pos.key), id)
  {
    hide *;
    var k := Arrival(f, n).item.position.key;
    HeldGrows(env, tag, f, s, n + 1, m, k);
    ArrivedIsKept(env, tag, f, s, n, id);
    if HasTag(tag, Held(Reached(env, f, s, n + 1), k), id) {
      GoodAt(env, tag, f, s, m);
      HeldDistinct(tag, f, s, Reached(env, f, s, m), InBackfill(f, m), k);
      PrefixTag(tag, Held(Reached(env, f, s, n + 1), k), Held(Reached(env, f, s, m), k), id);
      OneOfDistinct(tag, Held(Reached(env, f, s, m), k), id);
    }
  }

  lemma PrefixTag(tag: Tag, a: seq<Row>, b: seq<Row>, id: Id)
    requires a <= b && HasTag(tag, a, id)
    ensures HasTag(tag, b, id)
  {
    var i :| 0 <= i < |a| && tag(a[i]) == id;
    assert tag(b[i]) == id;
  }

  /** `a` is at no later instant than `b`. */
  predicate NoLater(a: Option<Position>, b: Option<Position>) {
    a.Some? ==> b.Some? && a.value.key <= b.value.key
  }

  /** Keys the window has met: at or below its head or its watermark. */
  predicate Met(w: Window, k: nat) {
    (w.head.Some? && k <= w.head.value) || (w.watermark.Some? && k <= w.watermark.value.key)
  }

  /** The watermark never falls below its start, rises only with what has matured, and nothing buffered is mature or
      above what was met. */
  ghost predicate Risen(start: Option<Position>, depth: nat, w: Window) {
    && NoLater(start, w.watermark)
    && (NoLater(w.watermark, start) || (w.watermark.Some? && Matures(w.head, depth, w.watermark.value.key)))
    && (forall b | b in w.pending :: !Matures(w.head, depth, b) && Met(w, b))
  }

  lemma {:induction false} FlushRises(env: Env, w: Window, s: StoreState, start: Option<Position>)
    requires Working(env) && Tidy(w) && NoLater(start, w.watermark)
    requires NoLater(w.watermark, start) || (w.watermark.Some? && Matures(w.head, env.depth, w.watermark.value.key))
    requires forall b | b in w.pending :: Met(w, b)
    ensures var w' := FlushMatured(env, w, s).0;
      Risen(start, env.depth, w') && w'.head == w.head && NoLater(w.watermark, w'.watermark)
    decreases |w.pending|
  {
    hide Matures;
    var due := Matured(env.depth, w);
    if due != {} {
      var b := Least(due);
      var (core, s1, ok) := Flush(env, w.core, s, GroupOf(w.pending[b]));
      SmallerMap(w.pending, b);
      FlushRises(env, FlushOne(w, b).(core := core), s1, start);
    } else {
      forall b | b in w.pending ensures !Matures(w.head, env.depth, b) { NoneDue(env.depth, w, b); }
    }
  }

  lemma BufferRises(depth: nat, w: Window, pos: Position, row: Row, start: Option<Position>)
    requires Tidy(w) && w.core.captured && Risen(start, depth, w)
    ensures var w' := Buffer(Dedupe, w, pos, row).0;
      && w'.watermark == w.watermark && w'.head.Some? && pos.key <= w'.head.value
      && (w.head.Some? ==> w.head.value <= w'.head.value)
      && (NoLater(w.watermark, start) || (w.watermark.Some? && Matures(w'.head, depth, w.watermark.value.key)))
      && (forall b | b in w'.pending :: Met(w', b)) && w'.pending.Keys == BufferSeed(w, pos, row).pending.Keys
    ensures BufferSeed(w, pos, row).head == Buffer(Dedupe, w, pos, row).0.head
        && BufferSeed(w, pos, row).watermark == w.watermark
  {
  }

  lemma RecordRises(env: Env, w: Window, s: StoreState, pos: Position, ev: Event, start: Option<Position>, k: nat)
    requires env.policy.Dedupe? && Working(env) && Tidy(w) && w.core.healthy && env.encode(ev).Some?
    requires Risen(start, env.depth, w)
    ensures var w1, w2 := Record(env, w, s, pos, ev).window, RecordSeeded(env, w, s, pos, ev).window;
      && Risen(start, env.depth, w1) && Met(w1, pos.key) && (Met(w, k) ==> Met(w1, k))
      && Risen(start, env.depth, w2) && Met(w2, pos.key) && (Met(w, k) ==> Met(w2, k))
  {
    hide FlushMatured, Matures, Risen, Buffer, BufferSeed;
    RisenParts(start, env.depth, w);
    if !Covered(w, pos) {
      var core, row := w.core.(captured := true), RowOf(env, ev);
      RecoreRises(w, core, start, env.depth);
      BufferAdds(w.(core := core), pos, row, 0);
      BufferRises(env.depth, w.(core := core), pos, row, start);
      FlushRises(env, Buffer(Dedupe, w.(core := core), pos, row).0, s, start);
      FlushRises(env, BufferSeed(w.(core := core), pos, row), s, start);
    }
  }

  lemma RecoreRises(w: Window, core: Core, start: Option<Position>, depth: nat)
    requires Tidy(w) && core.captured && Risen(start, depth, w)
    ensures Tidy(w.(core := core)) && Risen(start, depth, w.(core := core))
  {
  }

  lemma RisenParts(start: Option<Position>, depth: nat, w: Window)
    requires Risen(start, depth, w)
    ensures NoLater(start, w.watermark) && forall b | b in w.pending :: Met(w, b)
  {
  }

  /** The arrival is met by the window. */
  predicate Windowed(f: Feed, n: nat)
    requires n < Length(f)
  {
    Arrival(f, n).Emit? && !(InBackfill(f, n) && Settles(f.gap.cut, Arrival(f, n).item.position.key))
  }

  /** What the settled writer hands over is no later than where the window's watermark began. */
  lemma HandedOver(tag: Tag, f: Feed, s: StoreState, p: Pipe)
    requires Good(tag, f, s, p, true) && Synced(s)
    ensures NoLater(p.store.position, WindowSeed(f.gap.cut, s.position))
    ensures p.settled.current.Some? ==> Settles(f.gap.cut, p.settled.current.value.key)
  {
    hide Once, SlotsWritable, Writable;
    FoldWithin(s.log, p.store.log, f.gap.cut);
  }

  lemma {:induction false} FoldWithin(a: seq<Group>, b: seq<Group>, cut: Option<nat>)
    requires a <= b && forall i | |a| <= i < |b| :: Settles(cut, b[i].position.key)
    ensures NoLater(FoldPositions(b), WindowSeed(cut, FoldPositions(a)))
  {
    if |b| == |a| {
      assert a == b;
    } else {
      FoldWithin(a, b[..|b| - 1], cut);
    }
  }

  lemma BoundaryRises(env: Env, tag: Tag, f: Feed, s: StoreState, p: Pipe)
    requires Working(env) && Good(tag, f, s, p, true) && Synced(s)
    requires var start := WindowSeed(f.gap.cut, s.position); Risen(start, env.depth, p.window)
    ensures var start := WindowSeed(f.gap.cut, s.position);
      && Risen(start, env.depth, Boundary(env, p).window)
      && forall k: nat :: Met(p.window, k) ==> Met(Boundary(env, p).window, k)
  {
    HandedOver(tag, f, s, p);
    GoodParts(tag, f, s, p, 0);
    hide Backfilling, Synced, Once, Writable, Matures;
    AgreeParts(tag, f, s, p);
    assert p.window.watermark == WindowSeed(f.gap.cut, s.position);
  }

  lemma AgreeParts(tag: Tag, f: Feed, s: StoreState, p: Pipe)
    requires Good(tag, f, s, p, true)
    ensures p.settled.watermark == p.store.position && p.window.watermark == WindowSeed(f.gap.cut, s.position)
  {
    hide Once, SlotsWritable, Writable, Synced;
  }

  lemma {:induction false} WindowRises(env: Env, tag: Tag, f: Feed, s: StoreState, n: nat)
    requires Sure(env, tag, f, s) && n <= Length(f) && Reached(env, f, s, n).settled.core.healthy
    ensures var w := Reached(env, f, s, n).window;
      && Risen(WindowSeed(f.gap.cut, s.position), env.depth, w)
      && forall i | 0 <= i < n && Windowed(f, i) :: Met(w, Arrival(f, i).item.position.key)
  {
    hide Sure, Reached, Risen, Met, WindowSeed, InBackfill, Arrival, Length;
    if n == 0 {
      StartRises(env, tag, f, s);
    } else {
      HeldGrows(env, tag, f, s, n - 1, n, 0);
      WindowRises(env, tag, f, s, n - 1);
      ArrivalRises(env, tag, f, s, n - 1);
    }
  }

  lemma StartRises(env: Env, tag: Tag, f: Feed, s: StoreState)
    requires Sure(env, tag, f, s)
    ensures Risen(WindowSeed(f.gap.cut, s.position), env.depth, Reached(env, f, s, 0).window)
  {
    hide Backfilling, Once, Synced;
    assert f.backfill[..0] == [];
    if !InBackfill(f, 0) {
      assert f.backfill == [] && f.live[..0] == [];
      GoodBackfill(env, tag, f, s, 0);
      BoundaryRises(env, tag, f, s, Open(f.gap.cut, s.position, s));
    }
  }

  lemma ArrivalRises(env: Env, tag: Tag, f: Feed, s: StoreState, n: nat)
    requires Sure(env, tag, f, s) && n < Length(f) && Reached(env, f, s, n + 1).settled.core.healthy
    requires Reached(env, f, s, n).settled.core.healthy
    requires Risen(WindowSeed(f.gap.cut, s.position), env.depth, Reached(env, f, s, n).window)
    ensures var w, w' := Reached(env, f, s, n).window, Reached(env, f, s, n + 1).window;
      && Risen(WindowSeed(f.gap.cut, s.position), env.depth, w')
      && (forall k: nat :: Met(w, k) ==> Met(w', k))
      && (Windowed(f, n) ==> Met(w', Arrival(f, n).item.position.key))
  {
    hide BackfillRun, LiveRun, Joined, Boundary, Synced, Once, Fair, Met, Risen, WindowSeed, Record, RecordSeeded,
        Backfilling, Living;
    var p, item, start := Reached(env, f, s, n), Arrival(f, n), WindowSeed(f.gap.cut, s.position);
    GoodAt(env, tag, f, s, n);
    if item.Emit? {
      assert item.item in f.backfill || item in f.live;
      RecordRises(env, p.window, p.store, item.item.position, item.item.event, start, 0);
      forall k: nat ensures Met(p.window, k) ==>
          && Met(Record(env, p.window, p.store, item.item.position, item.item.event).window, k)
          && Met(RecordSeeded(env, p.window, p.store, item.item.position, item.item.event).window, k)
      {
        RecordRises(env, p.window, p.store, item.item.position, item.item.event, start, k);
      }
    }
    if n < |f.backfill| {
      var g := GapFrom(f, s);
      BackfillNext(env, f, s, n);
      assert f.backfill[..|f.backfill|] == f.backfill;
      JoinedFrom(env, f, s);
      if !InBackfill(f, n + 1) {
        GoodBackfill(env, tag, f, s, n + 1);
        BoundaryRises(env, tag, f, s, BackfillStep(env, g.cut, p, f.backfill[n]));
      }
    } else {
      LiveNext(env, f, s, n);
    }
  }

  /** An identity that met the window and lies `depth` below something else that did is stored, or was too late. */
  lemma BuriedIsStored(env: Env, tag: Tag, f: Feed, s: StoreState, n: nat, i: nat, m: nat, id: Id)
    requires Sure(env, tag, f, s) && env.depth >= 1 && n < m <= Length(f) && i < m
    requires Reached(env, f, s, m).settled.core.healthy
    requires Windowed(f, n) && Arrival(f, n).item.position.seen == {id} && Windowed(f, i)
    requires Arrival(f, n).item.position.key + env.depth <= Arrival(f, i).item.position.key
    ensures var pos := Arrival(f, n).item.position;
      || TooLate(Reached(env, f, s, n), f.gap.cut, pos, InBackfill(f, n))
      || ExactlyOne(tag, LogAt(Reached(env, f, s, m).store.log, pos.key), id)
  {
    hide Reached, Held, Good, Fair, Synced, Once, ExactlyOne, LogAt, Risen, Met, WindowSeed;
    var k := Arrival(f, n).item.position.key;
    HeldGrows(env, tag, f, s, n, m, k);
    WindowRises(env, tag, f, s, n);
    WindowRises(env, tag, f, s, m);
    KeptOnce(env, tag, f, s, n, m, id);
    GoodAt(env, tag, f, s, m);
    var start, w := WindowSeed(f.gap.cut, s.position), Reached(env, f, s, m).window;
    Buried(start, env.depth, Reached(env, f, s, n).window, w, k, Arrival(f, i).item.position.key);
    if k !in w.pending {
      NothingOpen(tag, f, s, Reached(env, f, s, m), InBackfill(f, m), k);
    }
  }

  lemma Buried(start: Option<Position>, depth: nat, early: Window, late: Window, k: nat, met: nat)
    requires Risen(start, depth, early) && Risen(start, depth, late) && Met(late, met) && depth >= 1 && k + depth <= met
    ensures k !in late.pending || (early.watermark.Some? && k < early.watermark.value.key)
  {
    if k in late.pending {
      assert !Matures(late.head, depth, k);
    }
  }

  lemma NothingOpen(tag: Tag, f: Feed, s: StoreState, p: Pipe, backfilling: bool, k: nat)
    requires Good(tag, f, s, p, backfilling) && k !in p.window.pending && (backfilling ==> !Settles(f.gap.cut, k))
    ensures Held(p, k) == LogAt(p.store.log, k)
  {
    hide Backfilling, Living, LogAt;
    if backfilling { GoodParts(tag, f, s, p, k); }
    assert LogAt(p.store.log, k) + [] + [] == LogAt(p.store.log, k);
  }

  /** An identity that settled is stored once the backfill is finished, or was too late. */
  lemma SettledIsStored(env: Env, tag: Tag, f: Feed, s: StoreState, n: nat, m: nat, id: Id)
    requires Sure(env, tag, f, s) && !f.crashed && n < |f.backfill| <= m <= Length(f)
    requires Reached(env, f, s, m).settled.core.healthy
    requires f.backfill[n].position.seen == {id} && Settles(f.gap.cut, f.backfill[n].position.key)
    ensures var pos := f.backfill[n].position;
      || TooLate(Reached(env, f, s, n), f.gap.cut, pos, true)
      || ExactlyOne(tag, LogAt(Reached(env, f, s, m).store.log, pos.key), id)
  {
    hide Reached, Held, Good, Sure, ExactlyOne, LogAt, TooLate;
    var k, l := f.backfill[n].position.key, |f.backfill|;
    HeldGrows(env, tag, f, s, l, m, k);
    KeptOnce(env, tag, f, s, n, l, id);
    FinishedHolds(env, tag, f, s, k);
    if ExactlyOne(tag, LogAt(Reached(env, f, s, l).store.log, k), id) {
      GoodAt(env, tag, f, s, m);
      StaysStored(tag, f, s, Reached(env, f, s, m), InBackfill(f, m), Reached(env, f, s, l).store.log, k, id);
    }
  }

  lemma FinishedHolds(env: Env, tag: Tag, f: Feed, s: StoreState, k: nat)
    requires Sure(env, tag, f, s) && !f.crashed && Settles(f.gap.cut, k)
    requires Reached(env, f, s, |f.backfill|).settled.core.healthy
    ensures var p := Reached(env, f, s, |f.backfill|); Held(p, k) == LogAt(p.store.log, k)
  {
    hide Backfilling, Living, LogAt, Joined, BackfillRun, Sure, Tidy;
    var g := GapFrom(f, s);
    JoinedFrom(env, f, s);
    assert f.backfill[..|f.backfill|] == f.backfill;
    GoodBackfill(env, tag, f, s, |f.backfill|);
    var p := BackfillRun(env, g.cut, Open(g.cut, g.seed, s), f.backfill);
    GoodParts(tag, f, s, p, k);
    WorkingIn(env, tag, f, s);
    BoundaryHolds(env, p, k);
    assert LogAt(Boundary(env, p).store.log, k) + [] + [] == LogAt(Boundary(env, p).store.log, k);
  }

  lemma StaysStored(tag: Tag, f: Feed, s: StoreState, p: Pipe, backfilling: bool, before: seq<Group>, k: nat, id: Id)
    requires Good(tag, f, s, p, backfilling) && before <= p.store.log && ExactlyOne(tag, LogAt(before, k), id)
    ensures ExactlyOne(tag, LogAt(p.store.log, k), id)
  {
    hide Tagged, Synced, SlotsWritable, OpenWritable, Agree, WindowAgrees;
    StillStored(tag, before, p.store.log, k, id);
  }

  lemma StillStored(tag: Tag, before: seq<Group>, log: seq<Group>, k: nat, id: Id)
    requires Once(tag, log) && before <= log && HasTag(tag, LogAt(before, k), id)
    ensures ExactlyOne(tag, LogAt(log, k), id)
  {
    hide Once, LogAt;
    assert log == before + log[|before|..];
    LogAtConcat(before, log[|before|..], k);
    HasTagConcat(tag, LogAt(before, k), LogAt(log[|before|..], k), id);
    OnceAt(tag, log, k);
    OneOfDistinct(tag, LogAt(log, k), id);
  }

  lemma {:induction false} FlushGrows(env: Env, w: Window, s: StoreState)
    ensures s.log <= FlushMatured(env, w, s).1.log
    decreases |w.pending|
  {
    var due := Matured(env.depth, w);
    if due != {} {
      var b := Least(due);
      var (core, s1, ok) := Flush(env, w.core, s, GroupOf(w.pending[b]));
      SmallerMap(w.pending, b);
      if ok { FlushGrows(env, FlushOne(w, b).(core := core), s1); }
    }
  }

  lemma {:induction false} BackfillGrows(env: Env, cut: Option<nat>, p: Pipe, items: seq<Positioned>)
    ensures p.store.log <= BackfillRun(env, cut, p, items).store.log
  {
    if items != [] {
      hide FlushMatured, Covered, SettledCovers, BufferSeed, Advance;
      var q, last := BackfillRun(env, cut, p, items[..|items| - 1]), items[|items| - 1];
      BackfillGrows(env, cut, p, items[..|items| - 1]);
      if env.encode(last.event).Some? {
        FlushGrows(env, BufferSeed(q.window.(core := q.window.core.(captured := true)), last.position,
                                   env.encode(last.event).value), q.store);
      }
    }
  }

  lemma {:induction false} LiveGrows(env: Env, p: Pipe, items: seq<Indexed>)
    ensures p.store.log <= LiveRun(env, p, items).store.log
  {
    if items != [] {
      hide FlushMatured, Covered, Buffer;
      var q, last := LiveRun(env, p, items[..|items| - 1]), items[|items| - 1];
      LiveGrows(env, p, items[..|items| - 1]);
      if last.Emit? && env.encode(last.item.event).Some? {
        FlushGrows(env, Buffer(env.policy, q.window.(core := q.window.core.(captured := true)), last.item.position,
                               env.encode(last.item.event).value).0, q.store);
      }
    }
  }

  lemma FeedGrows(env: Env, f: Feed, s: StoreState)
    ensures s.log <= Fed(env, f, s).log
  {
    hide BackfillRun, LiveRun;
    var g := GapFrom(f, s);
    BackfillGrows(env, g.cut, Open(g.cut, g.seed, s), f.backfill);
    LiveGrows(env, Joined(env, g, s, f.backfill), f.live);
  }

  lemma {:induction false} HistoryGrows(env: Env, feeds: seq<Feed>, j: nat, s: StoreState)
    requires j <= |feeds|
    ensures FedAll(env, feeds[..j], s).log <= FedAll(env, feeds, s).log
    decreases |feeds|
  {
    if j == |feeds| {
      assert feeds[..j] == feeds;
    } else {
      var front := feeds[..|feeds| - 1];
      assert front[..j] == feeds[..j];
      HistoryGrows(env, front, j, s);
      FeedGrows(env, feeds[|feeds| - 1], FedAll(env, front, s));
    }
  }

  /** Settled by a finished backfill, or met by the window at least `depth` below something else it met. */
  ghost predicate Due(depth: nat, f: Feed, n: nat)
    requires n < Length(f) && Arrival(f, n).Emit?
  {
    var key := Arrival(f, n).item.position.key;
    || (!f.crashed && InBackfill(f, n) && Settles(f.gap.cut, key))
    || (Windowed(f, n) && exists i: nat ::
          i < Length(f) && Windowed(f, i) && key + depth <= Arrival(f, i).item.position.key)
  }

  lemma DueIsStored(env: Env, tag: Tag, f: Feed, s: StoreState, n: nat, id: Id)
    requires Sure(env, tag, f, s) && env.depth >= 1 && Reached(env, f, s, Length(f)).settled.core.healthy
    requires n < Length(f) && Arrival(f, n).Emit? && Arrival(f, n).item.position.seen == {id} && Due(env.depth, f, n)
    ensures var pos := Arrival(f, n).item.position;
      || TooLate(Reached(env, f, s, n), f.gap.cut, pos, InBackfill(f, n))
      || ExactlyOne(tag, LogAt(Fed(env, f, s).log, pos.key), id)
  {
    hide Reached, Sure, ExactlyOne, LogAt, TooLate, Fed;
    ReachedAll(env, f, s);
    if !f.crashed && InBackfill(f, n) && Settles(f.gap.cut, Arrival(f, n).item.position.key) {
      SettledIsStored(env, tag, f, s, n, Length(f), id);
    } else {
      var i: nat :| i < Length(f) && Windowed(f, i)
          && Arrival(f, n).item.position.key + env.depth <= Arrival(f, i).item.position.key;
      BuriedIsStored(env, tag, f, s, n, i, Length(f), id);
    }
  }

  /** Main theorem: over any history of fair subscriptions and working writes, each identity that arrives while its
      subscription's settled writer runs, and that settles or is buried `depth` deep, was strictly below the instant its
      writer's watermark had reached, or has exactly one row at its instant, for ever. */
  lemma EveryIdentityIsStored(env: Env, tag: Tag, feeds: seq<Feed>, j: nat, n: nat, id: Id)
    requires env.policy.Dedupe? && env.depth >= 1 && Working(env)
    requires forall i | 0 <= i < |feeds| :: Fair(env, tag, feeds[i]) && AllEncode(env, feeds[i])
    requires j < |feeds| && n < Length(feeds[j]) && Arrival(feeds[j], n).Emit?
    requires Arrival(feeds[j], n).item.position.seen == {id} && Due(env.depth, feeds[j], n)
    requires var s := FedAll(env, feeds[..j], StoreState([], None, 0));
      Reached(env, feeds[j], s, Length(feeds[j])).settled.core.healthy
    ensures var s, pos := FedAll(env, feeds[..j], StoreState([], None, 0)), Arrival(feeds[j], n).item.position;
      || TooLate(Reached(env, feeds[j], s, n), feeds[j].gap.cut, pos, InBackfill(feeds[j], n))
      || ExactlyOne(tag, LogAt(FedAll(env, feeds, StoreState([], None, 0)).log, pos.key), id)
  {
    hide Reached, Fair, LogAt, TooLate, Fed, Due, Working, Once, Synced, Distinct;
    var none := StoreState([], None, 0);
    var s, f, k := FedAll(env, feeds[..j], none), feeds[j], Arrival(feeds[j], n).item.position.key;
    AtMostOnce(env, tag, feeds[..j]);
    AtMostOnce(env, tag, feeds);
    DueIsStored(env, tag, f, s, n, id);
    HistoryGrows(env, feeds, j + 1, none);
    assert feeds[..j + 1][..j] == feeds[..j];
    if ExactlyOne(tag, LogAt(Fed(env, f, s).log, k), id) {
      StillStored(tag, Fed(env, f, s).log, FedAll(env, feeds, none).log, k, id);
    }
  }

  /** A run the theorem speaks of: at depth one the first event is stored as soon as the second has arrived. */
  lemma FirstIsStored(env: Env, tag: Tag, a: Event, b: Event, x: Id, y: Id)
    requires env.policy.Dedupe? && env.depth == 1 && Working(env) && env.encode(a).Some? && env.encode(b).Some?
    requires tag(env.encode(a).value) == x && tag(env.encode(b).value) == y
    ensures var live := [Emit(Positioned(Position(10, {x}), a)), Emit(Positioned(Position(20, {y}), b))];
      var f := Feed(Gap(Some(4), None, 5), [], false, live);
      ExactlyOne(tag, LogAt(FedAll(env, [f], StoreState([], None, 0)).log, 10), x)
  {
    var first, second := Positioned(Position(10, {x}), a), Positioned(Position(20, {y}), b);
    var f, none := Feed(Gap(Some(4), None, 5), [], false, [Emit(first), Emit(second)]), StoreState([], None, 0);
    assert first.position.seen == {x} && second.position.seen == {y};
    assert Fair(env, tag, f) && AllEncode(env, f);
    assert Windowed(f, 0) && Windowed(f, 1) && Arrival(f, 1).item.position.key == 20;
    assert Due(env.depth, f, 0);
    assert [f][..0] == [];
    OrderedNeverHalts(env, tag, f, none);
    StartsAtCut(env, f);
    EveryIdentityIsStored(env, tag, [f], 0, 0, x);
  }

  lemma StartsAtCut(env: Env, f: Feed)
    requires f.backfill == [] && !f.crashed && f.gap.cut == Some(4)
    ensures Reached(env, f, StoreState([], None, 0), 0).window.watermark == Some(FromSortKey(4))
  {
    assert f.live[..0] == [];
  }
}
