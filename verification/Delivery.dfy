/** Exactly-once, in-order delivery of a first subscription to a source that does not reorg. */
module Delivery {
  import opened Base
  import opened Positions
  import opened Store
  import opened Streams
  import opened WindowSpec
  import opened Chain
  import opened Pipeline
  import Slices
  import opened Canonical
  import opened Backfill
  import opened Session
  import opened Source
  import opened Subscribe
  import opened Durable
  import opened Archives
  import opened Guarantees
  import opened BoundaryLaws

  /** The slice of `src` from index `x` up to `t`, empty once `x` has passed `t`. */
  function Rest(src: seq<Keyed<Event>>, x: nat, t: nat): seq<Keyed<Event>>
    requires t <= |src|
  {
    if x < t then src[x..t] else []
  }

  /** From key `k` up, the suppression sets are exactly the backfill events not yet re-announced. */
  ghost predicate Echo(env: Env, w: Window, src: seq<Keyed<Event>>, x: nat, t: nat, k: nat)
    requires t <= |src|
  {
    forall b: nat | k <= b :: EchoAt(env, w, src, x, t, b)
  }

  ghost predicate EchoAt(env: Env, w: Window, src: seq<Keyed<Event>>, x: nat, t: nat, b: nat)
    requires t <= |src|
  {
    if b in w.pending then !w.pending[b].seeded
        && multiset(w.pending[b].expected) == multiset(Rows(env, At(Rest(src, x, t), b)))
    else At(Rest(src, x, t), b) == []
  }

  lemma RestHead(env: Env, src: seq<Keyed<Event>>, x: nat, t: nat, b: nat)
    requires x < t <= |src|
    ensures At(Rest(src, x, t), b) == if src[x].key == b then [src[x].value] + At(Rest(src, x + 1, t), b)
        else At(Rest(src, x + 1, t), b)
  {
    var e, rest := src[x], Rest(src, x + 1, t);
    assert Rest(src, x, t) == [e] + rest;
    hide At, Rest;
    AtConcat([e], rest, b);
    AtOne(e, b);
    assert [] + At(rest, b) == At(rest, b);
  }

  lemma AtOne<T>(e: Keyed<T>, b: nat)
    ensures At([e], b) == if e.key == b then [e.value] else []
  {
    AtPush([], e, b);
    assert [] + [e] == [e];
  }

  /** The head event's row is among those still awaited at its key, and at no other. */
  lemma RestRows(env: Env, src: seq<Keyed<Event>>, x: nat, t: nat, b: nat)
    requires x < t <= |src| && env.encode(src[x].value).Some?
    ensures multiset(Rows(env, At(Rest(src, x, t), b))) ==
      if src[x].key == b then multiset{env.encode(src[x].value).value} + multiset(Rows(env, At(Rest(src, x + 1, t), b)))
      else multiset(Rows(env, At(Rest(src, x + 1, t), b)))
  {
    RestHead(env, src, x, t, b);
    if src[x].key == b {
      var ev, rest := src[x].value, At(Rest(src, x + 1, t), b);
      hide At, Rest;
      RowsConcat(env, [ev], rest);
      RowsPush(env, [], ev);
      assert [] + [ev] == [ev] && Rows(env, []) == [];
      assert [] + [env.encode(ev).value] == [env.encode(ev).value];
      hide Rows;
      assert Rows(env, [ev] + rest) == [env.encode(ev).value] + Rows(env, rest);
    }
  }

  lemma {:induction false} RowsConcat(env: Env, a: seq<Event>, b: seq<Event>)
    ensures Rows(env, a + b) == Rows(env, a) + Rows(env, b)
  {
    if b == [] {
      assert a + b == a;
    } else {
      var front, last := b[..|b| - 1], b[|b| - 1];
      RowsConcat(env, a, front);
      RowsConcatStep(env, a, front, last);
      assert b == front + [last];
    }
  }

  lemma RowsConcatStep(env: Env, a: seq<Event>, front: seq<Event>, last: Event)
    requires Rows(env, a + front) == Rows(env, a) + Rows(env, front)
    ensures Rows(env, a + (front + [last])) == Rows(env, a) + Rows(env, front + [last])
  {
    hide Rows;
    RowsPush(env, a + front, last);
    RowsPush(env, front, last);
    assert a + (front + [last]) == (a + front) + [last];
    if env.encode(last).Some? {
      var row := env.encode(last).value;
      assert (Rows(env, a) + Rows(env, front)) + [row] == Rows(env, a) + (Rows(env, front) + [row]);
    }
  }

  /** One live event in order: suppressed exactly when the backfill delivered it. */
  lemma EchoStep(env: Env, w: Window, src: seq<Keyed<Event>>, x: nat, t: nat, k: nat)
    requires Ordered(src) && x < |src| && t <= |src| && env.encode(src[x].value).Some?
    requires Echo(env, w, src, x, t, k) && k <= src[x].key && (w.head.Some? ==> w.head.value <= src[x].key)
    ensures var (w', delivered) := Buffer(Halt, w, FromSortKey(src[x].key), env.encode(src[x].value).value);
      && Echo(env, w', src, x + 1, t, src[x].key) && w'.head == Some(src[x].key)
      && (delivered <==> t <= x)
  {
    hide At, Rows, Fold, Rest;
    var b, row, y := src[x].key, env.encode(src[x].value).value, x + 1;
    var (w', delivered) := Buffer(Halt, w, FromSortKey(b), row);
    assert EchoAt(env, w, src, x, t, b);
    if x < t {
      RestRows(env, src, x, t, b);
      RestHead(env, src, x, t, b);
      EchoFound(env, w, b, row, multiset(Rows(env, At(Rest(src, y, t), b))));
    } else {
      RestDone(env, src, x, t, b);
      EchoNew(w, b, row);
    }
    forall c: nat | b <= c ensures EchoAt(env, w', src, y, t, c) {
      assert EchoAt(env, w, src, x, t, c);
      if x < t { RestHead(env, src, x, t, c); RestRows(env, src, x, t, c); } else { RestDone(env, src, x, t, c); }
    }
  }

  /** A row with nothing left to match is new downstream. */
  lemma EchoNew(w: Window, b: nat, row: Row)
    requires b in w.pending ==> !w.pending[b].seeded && w.pending[b].expected == []
    ensures var (p, delivered) := Fold(Halt, w.pending, FromSortKey(b), row);
      delivered && !p.seeded && p.expected == []
  {
  }

  lemma RestDone(env: Env, src: seq<Keyed<Event>>, x: nat, t: nat, b: nat)
    requires t <= x && t <= |src|
    ensures At(Rest(src, x, t), b) == [] && At(Rest(src, x + 1, t), b) == [] && Rows(env, []) == []
  {
  }

  lemma EchoFound(env: Env, w: Window, b: nat, row: Row, rest: multiset<Row>)
    requires b in w.pending && !w.pending[b].seeded && multiset(w.pending[b].expected) == multiset{row} + rest
    ensures var (p, delivered) := Fold(Halt, w.pending, FromSortKey(b), row);
      !delivered && !p.seeded && multiset(p.expected) == rest
  {
    var expected := w.pending[b].expected;
    assert row in multiset(expected);
    assert row in expected;
    SwapRemoved(expected, FirstIndex(expected, row));
  }

  /** First contact: the live tail's first event finds the seeded groups from its key up turned into copies. */
  function Contacted(w: Window, k: nat): Window {
    w.(pending := Rewind(w.pending, k), head := if w.head.Some? && k < w.head.value then Some(k) else w.head)
  }

  lemma ContactFirst(w: Window, k: nat, row: Row)
    requires forall b | b in w.pending :: w.pending[b].seeded && w.head.Some? && b <= w.head.value
    ensures Buffer(Halt, w, FromSortKey(k), row) == Buffer(Halt, Contacted(w, k), FromSortKey(k), row)
  {
    hide FirstIndex, SwapRemove, Advance;
    var c := Contacted(w, k);
    if !(w.head.Some? && k < w.head.value) {
      assert forall b | b in w.pending && b != k :: b in c.pending && c.pending[b] == w.pending[b];
      assert c.pending.Keys == w.pending.Keys;
      var (p, d) := Fold(Halt, w.pending, FromSortKey(k), row);
      var (p', d') := Fold(Halt, c.pending, FromSortKey(k), row);
      assert (p, d) == (p', d');
      assert w.pending[k := p] == c.pending[k := p];
    }
  }

  lemma EchoFlush(env: Env, w: Window, s: StoreState, src: seq<Keyed<Event>>, x: nat, t: nat, k: nat)
    requires env.depth >= 1 && k < U64_MAX && t <= |src| && w.head == Some(k)
    requires Echo(env, w, src, x, t, k) && FlushMatured(env, w, s).0.core.healthy
    ensures Echo(env, FlushMatured(env, w, s).0, src, x, t, k)
  {
    hide FlushMatured, Rows, At, Rest;
    FlushConfirmed(env, w, s);
    var w' := FlushMatured(env, w, s).0;
    forall b: nat | k <= b ensures EchoAt(env, w', src, x, t, b) {
      assert EchoAt(env, w, src, x, t, b);
      assert !Matures(w.head, env.depth, b);
    }
  }

  /** One live event of a healthy run goes downstream exactly when it is new, even if it is the one that halts the
      window. */
  lemma DeliverStep(env: Env, p: Pipe, c: Window, src: seq<Keyed<Event>>, x: nat, t: nat)
    requires env.policy.Halt? && env.depth >= 1
    requires Ordered(src) && x < |src| && t <= |src| && src[x].key < U64_MAX
        && (x < t ==> env.encode(src[x].value).Some?)
    requires p.window.core.healthy && Above(p.window.flushed, src[x].key)
    requires Echo(env, c, src, x, t, src[x].key) && (c.head.Some? ==> c.head.value <= src[x].key)
    requires env.encode(src[x].value).Some? ==>
      Buffer(Halt, p.window, FromSortKey(src[x].key), env.encode(src[x].value).value)
      == Buffer(Halt, c, FromSortKey(src[x].key), env.encode(src[x].value).value)
    ensures var q := LiveStep(env, p, EmitOf(src[x]));
      && q.out == p.out + (if t <= x then [src[x].value] else [])
      && (q.window.core.healthy ==>
            && q.window.head == Some(src[x].key)
            && Echo(env, q.window, src, x + 1, t, src[x].key)
            && Lags(env.depth, p.window.flushed, q.window.flushed, src[x].key))
  {
    hide FlushMatured, Buffer, Echo, Rest;
    var k, y := src[x].key, x + 1;
    if env.encode(src[x].value).Some? {
      var row := env.encode(src[x].value).value;
      BufferCore(p.window, k, row);
      EchoStep(env, c, src, x, t, k);
      var w := Buffer(Halt, p.window.(core := p.window.core.(captured := true)), FromSortKey(k), row).0;
      EchoCore(env, Buffer(Halt, p.window, FromSortKey(k), row).0, src, y, t, k, w.core);
      FlushConfirmed(env, w, p.store);
      if FlushMatured(env, w, p.store).0.core.healthy { EchoFlush(env, w, p.store, src, y, t, k); }
      RecordLags(env, p.window, p.store, FromSortKey(k), src[x].value);
    }
  }

  lemma EchoCore(env: Env, w: Window, src: seq<Keyed<Event>>, x: nat, t: nat, k: nat, core: Core)
    requires t <= |src| && Echo(env, w, src, x, t, k)
    ensures Echo(env, w.(core := core), src, x, t, k)
  {
    forall b: nat | k <= b ensures EchoAt(env, w.(core := core), src, x, t, b) {
      assert EchoAt(env, w, src, x, t, b);
    }
  }

  /** Seeded groups, turned into copies at first contact, await exactly the backfill events from there on. */
  lemma FirstContactEcho(env: Env, w: Window, src: seq<Keyed<Event>>, m: nat, x: nat, t: nat)
    requires Ordered(src) && m <= x <= t <= |src| && x < |src|
    requires forall n | 0 <= n < x :: src[n].key < src[x].key
    requires Buffers(env, SeedChain(src[m..t]), w) && Above(w.flushed, src[x].key)
    ensures Echo(env, Contacted(w, src[x].key), src, x, t, src[x].key)
  {
    hide At, Rows;
    var k, c := src[x].key, SeedChain(src[m..t]);
    forall b: nat | k <= b ensures EchoAt(env, Contacted(w, k), src, x, t, b) {
      RestOfSlice(src, m, x, t, b);
      if b in w.pending { assert SlotMatches(env, c, w, b); }
    }
  }

  lemma RestOfSlice(src: seq<Keyed<Event>>, m: nat, x: nat, t: nat, b: nat)
    requires m <= x <= t <= |src| && forall n | 0 <= n < x :: src[n].key < b
    ensures At(src[m..t], b) == At(Rest(src, x, t), b)
  {
    assert src[m..t] == src[m..x] + Rest(src, x, t);
    hide At, Rest;
    AtConcat(src[m..x], Rest(src, x, t), b);
    AtAbsent(src[m..x], b);
    assert [] + At(Rest(src, x, t), b) == At(Rest(src, x, t), b);
  }

  lemma SeedsAreSeeded(env: Env, w: Window, es: seq<Keyed<Event>>)
    requires Buffers(env, SeedChain(es), w)
    ensures forall b | b in w.pending :: w.pending[b].seeded && w.head.Some? && b <= w.head.value
  {
    forall b | b in w.pending ensures w.pending[b].seeded && w.head.Some? && b <= w.head.value {
      assert SlotMatches(env, SeedChain(es), w, b);
    }
  }

  /** The state of the delivery after live events up to index `x`. */
  ghost predicate Delivered(env: Env, p: Pipe, q: Pipe, src: seq<Keyed<Event>>, x: nat, t: nat)
    requires 0 < x <= |src| && t <= |src|
  {
    var k := src[x - 1].key;
    && q.out == p.out + Values(Rest(src, t, x))
    && (q.window.core.healthy ==>
          && q.window.head == Some(k)
          && Echo(env, q.window, src, x, t, k)
          && Lags(env.depth, p.window.flushed, q.window.flushed, k))
  }

  lemma DeliverFirst(env: Env, p: Pipe, src: seq<Keyed<Event>>, m: nat, j: nat, t: nat)
    requires env.policy.Halt? && env.depth >= 1
    requires Ordered(src) && m <= j <= t <= |src| && j < |src| && src[j].key < U64_MAX
    requires forall n | 0 <= n < j :: src[n].key < src[j].key
    requires Buffers(env, SeedChain(src[m..t]), p.window) && Above(p.window.flushed, src[j].key)
    ensures Delivered(env, p, LiveStep(env, p, EmitOf(src[j])), src, j + 1, t)
  {
    hide LiveStep, Buffer, Rest, Echo;
    var k := src[j].key;
    FirstContactEcho(env, p.window, src, m, j, t);
    SeedsAreSeeded(env, p.window, src[m..t]);
    TailEncodable(env, p.window, src, m, t);
    if env.encode(src[j].value).Some? { ContactFirst(p.window, k, env.encode(src[j].value).value); }
    DeliverStep(env, p, Contacted(p.window, k), src, j, t);
    RestOne(src, t, j);
  }

  /** What a healthy window was seeded with is encodable. */
  lemma TailEncodable(env: Env, w: Window, src: seq<Keyed<Event>>, m: nat, t: nat)
    requires m <= t <= |src| && Buffers(env, SeedChain(src[m..t]), w)
    ensures forall x | m <= x < t :: env.encode(src[x].value).Some?
  {
    forall x | m <= x < t ensures env.encode(src[x].value).Some? {
      assert src[m..t][x - m] == src[x] && src[x] in src[m..t];
    }
  }

  lemma RestOne(src: seq<Keyed<Event>>, t: nat, x: nat)
    requires t <= |src| && x < |src|
    ensures Values(Rest(src, t, x + 1)) == Values(Rest(src, t, x)) + if t <= x then [src[x].value] else []
    ensures x <= t ==> Values(Rest(src, t, x)) == []
  {
  }

  lemma DeliverNext(env: Env, p: Pipe, q: Pipe, src: seq<Keyed<Event>>, x: nat, t: nat)
    requires env.policy.Halt? && env.depth >= 1 && q.window.core.healthy
    requires Ordered(src) && 0 < x < |src| && t <= |src| && src[x].key < U64_MAX
        && (x < t ==> env.encode(src[x].value).Some?)
    requires Delivered(env, p, q, src, x, t) && Above(p.window.flushed, src[x].key)
    ensures Delivered(env, p, LiveStep(env, q, EmitOf(src[x])), src, x + 1, t)
  {
    hide LiveStep, Buffer, Rest;
    forall b: nat | src[x].key <= b ensures EchoAt(env, q.window, src, x, t, b) {}
    DeliverStep(env, q, q.window, src, x, t);
    RestOne(src, t, x);
  }

  /** The source events `j .. x`, live. */
  function LiveSlice(src: seq<Keyed<Event>>, j: nat, x: nat): seq<Indexed>
    requires j <= x <= |src|
  {
    Emits(src[j..x])
  }

  lemma LiveSlicePush(env: Env, p: Pipe, src: seq<Keyed<Event>>, j: nat, x: nat)
    requires j < x <= |src|
    ensures LiveRun(env, p, LiveSlice(src, j, x))
        == LiveStep(env, LiveRun(env, p, LiveSlice(src, j, x - 1)), EmitOf(src[x - 1]))
  {
    hide LiveStep;
    SliceEnd(src, j, x);
    EmitsPush(src[j..x - 1], src[x - 1]);
    LiveRunPush(env, p, LiveSlice(src, j, x - 1), EmitOf(src[x - 1]));
  }

  /** A window that buffers the backfill's tail `m .. t`, about to meet a live tail that starts at `j` above its
      watermark. */
  ghost predicate Overlapping(env: Env, p: Pipe, src: seq<Keyed<Event>>, m: nat, t: nat, j: nat) {
    && env.policy.Halt? && env.depth >= 1
    && Ordered(src) && (forall e | e in src :: e.key < U64_MAX)
    && m <= j <= t <= |src| && j < |src| && Above(p.window.flushed, src[j].key)
    && (forall n | 0 <= n < j :: src[n].key < src[j].key)
    && Buffers(env, SeedChain(src[m..t]), p.window)
  }

  /** While the window is healthy, downstream receives exactly the events the backfill did not have. */
  lemma {:induction false} LiveDelivers(env: Env, p: Pipe, src: seq<Keyed<Event>>, m: nat, t: nat, j: nat, x: nat)
    requires Overlapping(env, p, src, m, t, j) && j < x <= |src|
    requires LiveRun(env, p, LiveSlice(src, j, x - 1)).window.core.healthy
    ensures Delivered(env, p, LiveRun(env, p, LiveSlice(src, j, x)), src, x, t)
    decreases x
  {
    hide Delivered, Buffers, LiveStep, LiveRun, LiveSlice;
    assert src[x - 1] in src && src[j].key <= src[x - 1].key;
    LiveSlicePush(env, p, src, j, x);
    TailEncodable(env, p.window, src, m, t);
    if x == j + 1 {
      LiveNothing(env, p, src, j);
      DeliverFirst(env, p, src, m, j, t);
    } else {
      LiveSlicePush(env, p, src, j, x - 1);
      HealthyBefore(env, LiveRun(env, p, LiveSlice(src, j, x - 2)), EmitOf(src[x - 2]));
      LiveDelivers(env, p, src, m, t, j, x - 1);
      DeliverNext(env, p, LiveRun(env, p, LiveSlice(src, j, x - 1)), src, x - 1, t);
    }
  }

  /** A halted window lets every event through. */
  lemma {:induction false} HaltedDelivers(env: Env, p: Pipe, es: seq<Keyed<Event>>)
    requires !p.window.core.healthy
    ensures LiveRun(env, p, Emits(es)).out == p.out + Values(es)
  {
    if es == [] {
      NoItems(env, p);
    } else {
      var front, e := es[..|es| - 1], es[|es| - 1];
      assert front + [e] == es;
      HaltedDelivers(env, p, front);
      HaltedStays(env, p, Emits(front));
      EmitsPush(front, e);
      LiveRunPush(env, p, Emits(front), EmitOf(e));
      ValuesPush(front, e);
    }
  }

  lemma {:induction false} OutGrows(env: Env, p: Pipe, items: seq<Indexed>)
    ensures |p.out| <= |LiveRun(env, p, items).out|
  {
    if items != [] { OutGrows(env, p, items[..|items| - 1]); }
  }

  lemma OverlapFacts(env: Env, p: Pipe, src: seq<Keyed<Event>>, m: nat, t: nat, j: nat)
    requires Overlapping(env, p, src, m, t, j)
    ensures p.window.core.healthy && m <= j <= t <= |src| && j < |src| && Above(p.window.flushed, src[j].key)
  {
  }

  lemma DeliveredOut(env: Env, p: Pipe, q: Pipe, src: seq<Keyed<Event>>, x: nat, t: nat)
    requires 0 < x <= |src| && t <= |src| && Delivered(env, p, q, src, x, t)
    ensures q.out == p.out + Values(Rest(src, t, x))
  {
  }

  /** Past the overlap every event is delivered, whether the window is healthy or halted. */
  lemma {:induction false} BeyondOverlap(env: Env, p: Pipe, src: seq<Keyed<Event>>, m: nat, t: nat, j: nat, x: nat)
    requires Overlapping(env, p, src, m, t, j) && t <= x <= |src| && j < x
    requires j < t ==> LiveRun(env, p, LiveSlice(src, j, t - 1)).window.core.healthy
    ensures LiveRun(env, p, LiveSlice(src, j, x)).out == p.out + Values(Rest(src, t, x))
    decreases x
  {
    hide *;
    OverlapFacts(env, p, src, m, t, j);
    LiveNothing(env, p, src, j);
    if x == t || LiveRun(env, p, LiveSlice(src, j, x - 1)).window.core.healthy {
      LiveDelivers(env, p, src, m, t, j, x);
      DeliveredOut(env, p, LiveRun(env, p, LiveSlice(src, j, x)), src, x, t);
    } else {
      LiveSlicePush(env, p, src, j, x);
      BeyondOverlap(env, p, src, m, t, j, x - 1);
      HaltedStepDelivers(env, LiveRun(env, p, LiveSlice(src, j, x - 1)), src[x - 1]);
      OneMoreOut(p.out, src, t, x - 1);
    }
  }

  lemma OneMoreOut(out: seq<Event>, src: seq<Keyed<Event>>, t: nat, x: nat)
    requires t <= x < |src|
    ensures out + Values(Rest(src, t, x)) + [src[x].value] == out + Values(Rest(src, t, x + 1))
  {
    RestOne(src, t, x);
  }

  lemma HaltedStepDelivers(env: Env, p: Pipe, e: Keyed<Event>)
    requires !p.window.core.healthy
    ensures LiveStep(env, p, EmitOf(e)).out == p.out + [e.value]
  {
  }

  /** What was live from `j` on, run in two parts. */
  lemma LiveSliceSplits(env: Env, p: Pipe, src: seq<Keyed<Event>>, j: nat, h: nat, x: nat)
    requires j <= h <= x <= |src|
    ensures LiveRun(env, p, LiveSlice(src, j, x))
        == LiveRun(env, LiveRun(env, p, LiveSlice(src, j, h)), Emits(src[h..x]))
  {
    assert src[j..x] == src[j..h] + src[h..x];
    assert Emits(src[j..x]) == Emits(src[j..h]) + Emits(src[h..x]);
    LiveRunConcat(env, p, Emits(src[j..h]), Emits(src[h..x]));
  }

  /** From a window that buffers the backfill's tail, a live tail `j .. x` that overlaps it up to `t` is delivered
      without its overlap if and only if the window is still healthy when the last overlapping event arrives. */
  lemma OverlapDelivers(env: Env, p: Pipe, src: seq<Keyed<Event>>, m: nat, t: nat, j: nat, x: nat)
    requires Overlapping(env, p, src, m, t, j) && j < x <= |src|
    ensures LiveRun(env, p, LiveSlice(src, j, x)).out == p.out + Values(Rest(src, t, x))
      <==> (j < t ==> LiveRun(env, p, LiveSlice(src, j, Min(t, x) - 1)).window.core.healthy)
  {
    hide *;
    OverlapFacts(env, p, src, m, t, j);
    var h := if t <= x then t else x;
    assert h == Min(t, x) by { MinIs(t, x); }
    if j == t {
      BeyondOverlap(env, p, src, m, t, j, x);
    } else if !LiveRun(env, p, LiveSlice(src, j, h - 1)).window.core.healthy {
      RepeatsFrom(env, p, src, t, j, h - 1, x);
    } else if x <= t {
      LiveDelivers(env, p, src, m, t, j, x);
      DeliveredOut(env, p, LiveRun(env, p, LiveSlice(src, j, x)), src, x, t);
    } else {
      BeyondOverlap(env, p, src, m, t, j, x);
    }
  }

  lemma MinIs(a: nat, b: nat)
    ensures Min(a, b) == if a <= b then a else b
  {
  }

  /** Once the window is halted with overlap still to come, downstream receives too much. */
  lemma RepeatsFrom(env: Env, p: Pipe, src: seq<Keyed<Event>>, t: nat, j: nat, h: nat, x: nat)
    requires j <= h < t <= |src| && h < x <= |src|
    requires !LiveRun(env, p, LiveSlice(src, j, h)).window.core.healthy
    ensures |LiveRun(env, p, LiveSlice(src, j, x)).out| > |p.out + Values(Rest(src, t, x))|
  {
    var q := LiveRun(env, p, LiveSlice(src, j, h));
    OutGrows(env, p, LiveSlice(src, j, h));
    LiveSliceSplits(env, p, src, j, h, x);
    HaltedDelivers(env, q, src[h..x]);
    assert |Values(src[h..x])| == x - h;
  }

  /** A live tail that starts at or below the watermark halts the window with its first event: everything is let
      through. */
  lemma BelowFloorDelivers(env: Env, p: Pipe, src: seq<Keyed<Event>>, j: nat, x: nat)
    requires env.policy.Halt? && j < x <= |src| && (p.window.core.healthy ==> !Above(p.window.flushed, src[j].key))
    ensures LiveRun(env, p, LiveSlice(src, j, x)).out == p.out + Values(src[j..x])
  {
    hide LiveRun, LiveSlice, Emits, LiveStep;
    LiveNothing(env, p, src, j);
    LiveSlicePush(env, p, src, j, j + 1);
    LiveSliceSplits(env, p, src, j, j + 1, x);
    FirstLetThrough(env, p, src[j]);
    HaltedDelivers(env, LiveRun(env, p, LiveSlice(src, j, j + 1)), src[j + 1..x]);
    assert p.out + [src[j].value] + Values(src[j + 1..x]) == p.out + Values(src[j..x]);
  }

  lemma FirstLetThrough(env: Env, p: Pipe, e: Keyed<Event>)
    requires env.policy.Halt? && (p.window.core.healthy ==> !Above(p.window.flushed, e.key))
    ensures var q := LiveStep(env, p, EmitOf(e)); q.out == p.out + [e.value] && !q.window.core.healthy
  {
  }

  /** Ordered, encodable events above the watermark never halt the window when writes succeed. */
  lemma {:induction false} OrderedLiveIsHealthy(env: Env, p: Pipe, es: seq<Keyed<Event>>)
    requires env.policy.Halt? && env.depth >= 1 && (forall n: nat :: !env.fails(n)) && p.window.core.healthy
    requires Ordered(es)
    requires forall e | e in es ::
      Above(p.window.flushed, e.key) && e.key < U64_MAX && env.encode(e.value).Some?
    ensures LiveRun(env, p, Emits(es)).window.core.healthy
  {
    if es != [] {
      hide LiveStep, Emits, LiveRun;
      var front, e := es[..|es| - 1], es[|es| - 1];
      assert front + [e] == es && e in es;
      OrderedLiveIsHealthy(env, p, front);
      LiveLags(env, p, front);
      EmitsPush(front, e);
      LiveRunPush(env, p, Emits(front), EmitOf(e));
      HaltsExactlyAtWatermark(env, LiveRun(env, p, Emits(front)), EmitOf(e));
    } else {
      assert Emits(es) == [];
    }
  }

  lemma LiveNothing(env: Env, p: Pipe, src: seq<Keyed<Event>>, j: nat)
    requires j <= |src|
    ensures LiveRun(env, p, LiveSlice(src, j, j)) == p
  {
  }

  lemma {:induction false} PartMembers(cut: Option<nat>, es: seq<Keyed<Event>>, settled: bool)
    ensures forall e | e in Part(cut, AsBlocks(es), settled) :: e in es
  {
    if es != [] {
      var front, last := es[..|es| - 1], es[|es| - 1];
      PartMembers(cut, front, settled);
      assert front + [last] == es;
      PartPush(cut, front, last, settled);
    }
  }

  lemma SettledAccepts(env: Env, b: Settled, s: StoreState, k: nat, ev: Event)
    requires env.policy.Halt? && b.core.healthy && (forall n: nat :: !env.fails(n)) && env.encode(ev).Some?
    requires b.current.Some? ==> b.current.value.key <= k
    ensures SettledRecord(env, b, s, FromSortKey(k), ev).settled.core.healthy
  {
  }

  lemma SeedAccepted(env: Env, w: Window, s: StoreState, k: nat, ev: Event)
    requires env.policy.Halt? && w.core.healthy && (forall n: nat :: !env.fails(n)) && env.encode(ev).Some?
    requires w.head.Some? ==> w.head.value <= k
    ensures RecordSeeded(env, w, s, FromSortKey(k), ev).window.core.healthy
  {
    hide FlushMatured;
    FlushSucceeds(env, BufferSeed(w.(core := w.core.(captured := true)), FromSortKey(k), env.encode(ev).value), s);
  }

  /** An ordered backfill of encodable events, with working writes, leaves both writers healthy. */
  lemma {:induction false} BackfillHealthy(env: Env, g: Gap, s: StoreState, es: seq<Keyed<Event>>)
    requires Sound(env, g) && (forall n: nat :: !env.fails(n))
    requires Ordered(es) && (forall e | e in es :: env.encode(e.value).Some?)
        && InGap(AsBlocks(es), KeyOf(g.seed), g.tip)
    ensures var p := BackfillRun(env, g.cut, Open(g.cut, g.seed, s), AsBlocks(es));
      p.settled.core.healthy && p.window.core.healthy
  {
    if es != [] {
      hide SettledRecord, RecordSeeded, Part, StoredUpTo, SlotsMatch, NothingMissing, Unripe, Rows, At;
      var front, last := es[..|es| - 1], es[|es| - 1];
      var items, item := AsBlocks(front), Positioned(FromSortKey(last.key), last.value);
      assert AsBlocks(es) == items + [item] && last in es;
      InGapPrefix(AsBlocks(es), |front|, KeyOf(g.seed), g.tip);
      assert AsBlocks(es)[..|front|] == items;
      BackfillHealthy(env, g, s, front);
      var mine, taken, tail := BackfillKeepsChain(env, g, s, items);
      PartMembers(g.cut, front, true);
      PartMembers(g.cut, front, false);
      var p := BackfillRun(env, g.cut, Open(g.cut, g.seed, s), items);
      assert BackfillRun(env, g.cut, Open(g.cut, g.seed, s), AsBlocks(es)) == BackfillStep(env, g.cut, p, item);
      assert p.settled.current.Some? ==> taken[|taken| - 1] in taken;
      assert p.window.head.Some? ==> tail[|tail| - 1] in tail;
      assert forall e | e in front :: e.key <= last.key;
      if Settles(g.cut, last.key) {
        SettledAccepts(env, p.settled, p.store, last.key, last.value);
      } else {
        SeedAccepted(env, p.window, p.store, last.key, last.value);
      }
    }
  }

  /** Whatever fails, the backfill goes downstream whole; a window that is still healthy buffers its whole tail. */
  lemma JoinedOut(env: Env, g: Gap, s: StoreState, es: seq<Keyed<Event>>)
    requires Sound(env, g) && InGap(AsBlocks(es), KeyOf(g.seed), g.tip)
    ensures var p := Joined(env, g, s, AsBlocks(es));
      && p.out == Values(es) && p.window.flushed == Floor(g)
      && (p.window.core.healthy ==> Buffers(env, SeedChain(Part(g.cut, AsBlocks(es), false)), p.window))
  {
    hide BackfillRun, Boundary, Buffers, StoredUpTo, Unripe, Part, OpenGroup;
    var mine, taken, tail := BackfillKeepsChain(env, g, s, AsBlocks(es));
    var p := BackfillRun(env, g.cut, Open(g.cut, g.seed, s), AsBlocks(es));
    var mine' := BoundaryTracks(env, g, p, s.log, mine, taken, tail);
    assert Events(AsBlocks(es)) == Values(es);
  }

  /** With ordered, encodable events and working writes the live tail starts from a healthy window that buffers the
      whole tail. */
  lemma JoinedHealthy(env: Env, g: Gap, s: StoreState, es: seq<Keyed<Event>>)
    requires Sound(env, g) && (forall n: nat :: !env.fails(n))
    requires Ordered(es) && (forall e | e in es :: env.encode(e.value).Some?)
        && InGap(AsBlocks(es), KeyOf(g.seed), g.tip)
    ensures var p := Joined(env, g, s, AsBlocks(es));
      && p.out == Values(es) && p.window.flushed == Floor(g)
      && p.window.core.healthy && Buffers(env, SeedChain(Part(g.cut, AsBlocks(es), false)), p.window)
  {
    hide BackfillRun, Boundary, Buffers, StoredUpTo, Unripe, Part, OpenGroup;
    BackfillHealthy(env, g, s, es);
    var mine, taken, tail := BackfillKeepsChain(env, g, s, AsBlocks(es));
    var p := BackfillRun(env, g.cut, Open(g.cut, g.seed, s), AsBlocks(es));
    var mine' := BoundaryTracks(env, g, p, s.log, mine, taken, tail);
    FinishHealthy(env, p);
    JoinedOut(env, g, s, es);
  }

  lemma FinishHealthy(env: Env, p: Pipe)
    requires p.settled.core.healthy && forall n: nat :: !env.fails(n)
    ensures Boundary(env, p).settled.core.healthy
  {
  }

  /** Replay: the stored rows up to `upTo`, in key order, decoded; a row that cannot be decoded fails the subscribe. */
  function DecodeAll(decode: Row -> Option<Event>, rows: seq<Keyed<Row>>): Option<seq<Event>> {
    if rows == [] then Some([]) else
      var front, last := DecodeAll(decode, rows[..|rows| - 1]), decode(rows[|rows| - 1].value);
      if front.None? || last.None? then None else Some(front.value + [last.value])
  }

  function Replay(decode: Row -> Option<Event>, s: StoreState, upTo: Option<Position>): Option<seq<Event>> {
    if upTo.None? then Some([]) else DecodeAll(decode, Range(Flat(s.log), 0, upTo.value.key))
  }

  /** Nothing if a row does not decode, and otherwise one event a row, in order. */
  ghost predicate Reconstructed(decode: Row -> Option<Event>, rows: seq<Keyed<Row>>, r: Option<seq<Event>>) {
    match r
    case None => exists i :: 0 <= i < |rows| && decode(rows[i].value).None?
    case Some(events) => |events| == |rows| && forall i | 0 <= i < |rows| :: decode(rows[i].value) == Some(events[i])
  }

  /** Replay never skips a row it cannot decode. */
  lemma ReplaySkipsNothing(decode: Row -> Option<Event>, s: StoreState, upTo: Position)
    ensures Reconstructed(decode, Range(Flat(s.log), 0, upTo.key), Replay(decode, s, Some(upTo)))
  {
    hide DecodeAll, Range, Flat, Reconstructed;
    DecodesExactly(decode, Range(Flat(s.log), 0, upTo.key));
  }

  lemma {:induction false} DecodesExactly(decode: Row -> Option<Event>, rows: seq<Keyed<Row>>)
    ensures Reconstructed(decode, rows, DecodeAll(decode, rows))
  {
    if rows != [] {
      var n := |rows| - 1;
      DecodesExactly(decode, rows[..n]);
      assert forall i | 0 <= i < n :: rows[..n][i] == rows[i];
    }
  }

  /** A payload survives the store. */
  ghost predicate RoundTrips(env: Env, decode: Row -> Option<Event>) {
    forall ev: Event :: env.encode(ev).Some? ==> decode(env.encode(ev).value) == Some(ev)
  }

  lemma {:induction false} DecodeEncoded(env: Env, decode: Row -> Option<Event>, es: seq<Keyed<Event>>)
    requires RoundTrips(env, decode) && forall e | e in es :: env.encode(e.value).Some?
    ensures DecodeAll(decode, Encoded(env, es)) == Some(Values(es))
  {
    if es == [] {
      assert Encoded(env, es) == [] && Values(es) == [];
    } else {
      hide DecodeAll, Encoded;
      var front, last := es[..|es| - 1], es[|es| - 1];
      assert last in es && front + [last] == es;
      DecodeEncoded(env, decode, front);
      EncodedPush(env, front, last);
      DecodePush(decode, Encoded(env, front), Keyed(last.key, env.encode(last.value).value));
      ValuesPush(front, last);
      assert decode(env.encode(last.value).value) == Some(last.value);
    }
  }

  lemma DecodePush(decode: Row -> Option<Event>, rows: seq<Keyed<Row>>, row: Keyed<Row>)
    ensures DecodeAll(decode, rows + [row])
         == if DecodeAll(decode, rows).None? || decode(row.value).None? then None
            else Some(DecodeAll(decode, rows).value + [decode(row.value).value])
  {
    assert (rows + [row])[..|rows|] == rows;
  }

  lemma {:induction false} RangeAll<T>(es: seq<Keyed<T>>, hi: nat)
    requires forall e | e in es :: e.key <= hi
    ensures Range(es, 0, hi) == es
  {
    if es != [] {
      RangeAll(es[..|es| - 1], hi);
      assert es[|es| - 1] in es;
    }
  }

  /** Replaying a gap-free archive yields the source events it covers. */
  lemma ReplayIsSource(env: Env, decode: Row -> Option<Event>, src: seq<Keyed<Event>>, start: nat, s: StoreState)
    requires Ordered(src) && GapFree(env, src, start, s) && RoundTrips(env, decode)
    ensures Replay(decode, s, s.position) == Some(if s.position.None? then []
        else Values(Range(src, start, s.position.value.key)))
  {
    GapFreeIsExact(env, src, start, s);
    if s.position.Some? {
      var p := s.position.value.key;
      FoldIsLast(s.log);
      FlatOrdered(s.log);
      RangeAll(Flat(s.log), p);
      DecodeEncoded(env, decode, Range(src, start, p));
    }
  }

  /** Replayed history and resumed backfill meet without overlap or gap. */
  lemma ReplayMeetsBackfill(src: seq<Keyed<Event>>, start: nat, last: Option<Position>, y: nat)
    requires Ordered(src) && ResumeAfter(last, start) <= y && Count(src, ResumeAfter(last, start)) <= Count(src, y)
    ensures Count(src, start) <= Count(src, y)
    ensures (if last.None? then [] else Values(Range(src, start, last.value.key))) + Values(Slice(src,
        ResumeAfter(last, start), y))
         == Values(src[Count(src, start)..Count(src, y)])
  {
    hide Count, Range, Ordered, Values;
    CountMonotone(src, start, y);
    ValuesNone();
    if last.None? {
      assert Values<Event>([]) + Values(Slice(src, start, y)) == Values(Slice(src, start, y));
    } else {
      var p := last.value.key;
      if start <= p + 1 {
        RangeIsSlice(src, start, p);
        CountMonotone(src, p + 1, y);
        ValuesSplit(src, Count(src, start), Count(src, p + 1), Count(src, y));
      } else {
        RangeInverted(src, start, p);
        assert Values<Event>([]) + Values(Slice(src, start, y)) == Values(Slice(src, start, y));
      }
    }
  }

  lemma ValuesSplit(src: seq<Keyed<Event>>, a: nat, b: nat, c: nat)
    requires a <= b <= c <= |src|
    ensures Values(src[a..b]) + Values(src[b..c]) == Values(src[a..c])
  {
  }

  lemma {:induction false} RangeInverted<T>(es: seq<Keyed<T>>, lo: nat, hi: nat)
    requires hi < lo
    ensures Range(es, lo, hi) == []
  {
    if es != [] {
      RangeInverted(es[..|es| - 1], lo, hi);
    }
  }

  /** The window is healthy while the live tail repeats what the backfill delivered: the tail does not overlap the
      backfill, or it starts above the watermark and the window is healthy when the last overlapping event arrives.
      `t` events lie below the end of the backfill. */
  ghost predicate Prompt(env: Env, src: seq<Keyed<Event>>, p: Pipe, t: nat, from: nat, n: nat)
    requires Count(src, from) + n <= |src|
  {
    var j := Count(src, from);
    || n == 0 || t <= j
    || (Above(p.window.flushed, src[j].key)
        && LiveRun(env, p, LiveFrom(src, from, Min(t - j, n) - 1)).window.core.healthy)
  }

  /** What one session delivers, whatever fails: its backfill, and then exactly the live events the backfill did not
      have if and only if the window is healthy while the overlap is repeated. */
  lemma SessionOut(env: Env, src: seq<Keyed<Event>>, start: nat, g: Gap, s: StoreState, from: nat, n: nat)
    requires env.depth >= 1 && Sound(env, g) && (g.cut.Some? ==> g.cut.value <= g.tip)
    requires Ordered(src) && (forall e | e in src :: e.key < U64_MAX)
    requires Count(src, from) + n <= |src| && start <= from <= Max(ResumeAfter(g.seed, start), g.tip + 1)
    requires Count(src, ResumeAfter(g.seed, start)) <= Count(src, Max(ResumeAfter(g.seed, start), g.tip + 1))
    ensures var lo, y := ResumeAfter(g.seed, start), Max(ResumeAfter(g.seed, start), g.tip + 1);
      var p := Joined(env, g, s, AsBlocks(Slice(src, lo, y)));
      Run(env, g, s, AsBlocks(Slice(src, lo, y)), LiveFrom(src, from, n)).out
      == Values(Slice(src, lo, y)) + Values(Rest(src, Count(src, y), if n == 0 then 0 else Count(src, from) + n))
      <==> Prompt(env, src, p, Count(src, y), from, n)
  {
    hide Buffers, Joined, Part, LiveRun, Count, Rest, InGap, Unripe, Floor, Ordered, LiveFrom, TailFrom, Values, Slice;
    var lo, y := ResumeAfter(g.seed, start), Max(ResumeAfter(g.seed, start), g.tip + 1);
    var es := Slice(src, lo, y);
    SliceInGap(src, g.seed, start, g.tip, y);
    JoinedOut(env, g, s, es);
    CompleteParts(src, g, lo);
    var p := Joined(env, g, s, AsBlocks(es));
    if n == 0 {
      LiveRunNone(env, p, src, from);
      RestNone(src, Count(src, y));
    } else {
      CountMonotone(src, from, y);
      LiveOut(env, src, start, g, p, lo, y, from, n);
    }
  }

  /** The live part, from the joined pipeline. */
  lemma LiveOut(env: Env, src: seq<Keyed<Event>>, start: nat, g: Gap, p: Pipe, lo: nat, y: nat, from: nat, n: nat)
    requires env.policy.Halt? && env.depth >= 1 && Ordered(src) && (forall e | e in src :: e.key < U64_MAX)
    requires lo == ResumeAfter(g.seed, start) && y == Max(lo, g.tip + 1) && (g.cut.Some? ==> g.cut.value <= g.tip)
    requires 0 < n && Count(src, from) + n <= |src| && start <= from && Count(src, from) <= Count(src, y)
    requires Count(src, TailFrom(g, lo)) <= Count(src, y) && p.window.flushed == Floor(g)
    requires p.window.core.healthy ==>
        Buffers(env, SeedChain(src[Count(src, TailFrom(g, lo))..Count(src, y)]), p.window)
    ensures LiveRun(env, p, LiveFrom(src, from, n)).out
        == p.out + Values(Rest(src, Count(src, y), Count(src, from) + n))
      <==> Prompt(env, src, p, Count(src, y), from, n)
  {
    assert g.seed.Some? ==> g.seed.value.key < lo;
    hide *;
    var j, t, m := Count(src, from), Count(src, y), Count(src, TailFrom(g, lo));
    if p.window.core.healthy && Above(p.window.flushed, src[j].key) {
      LiveOverlaps(env, src, start, g, p, m, t, from);
      LiveAbove(env, src, p, m, t, from, n);
    } else {
      if p.window.core.healthy && t <= j { PastTheGap(src, g, lo, y, j); }
      LetThrough(env, src, p, t, from, n);
    }
  }

  /** From above the watermark. */
  lemma LiveAbove(env: Env, src: seq<Keyed<Event>>, p: Pipe, m: nat, t: nat, from: nat, n: nat)
    requires 0 < n && Count(src, from) + n <= |src| && Overlapping(env, p, src, m, t, Count(src, from))
    ensures t <= |src|
    ensures LiveRun(env, p, LiveFrom(src, from, n)).out == p.out + Values(Rest(src, t, Count(src, from) + n))
      <==> Prompt(env, src, p, t, from, n)
  {
    hide *;
    var j := Count(src, from);
    OverlapFacts(env, p, src, m, t, j);
    OverlapDelivers(env, p, src, m, t, j, j + n);
    PromptAbove(env, src, p, t, from, n);
  }

  lemma LiveOverlaps(env: Env, src: seq<Keyed<Event>>, start: nat, g: Gap, p: Pipe, m: nat, t: nat, from: nat)
    requires env.policy.Halt? && env.depth >= 1 && Ordered(src) && (forall e | e in src :: e.key < U64_MAX)
    requires Count(src, from) < |src| && start <= from && m == Count(src, TailFrom(g, ResumeAfter(g.seed, start)))
    requires m <= t <= |src| && Count(src, from) <= t && p.window.flushed == Floor(g)
        && Above(Floor(g), src[Count(src, from)].key)
    requires Buffers(env, SeedChain(src[m..t]), p.window)
    ensures Overlapping(env, p, src, m, t, Count(src, from))
  {
    hide *;
    CutBefore(src, from);
    StartAboveFloor(src, start, g, TailFrom(g, ResumeAfter(g.seed, start)), from);
    OverlapBegins(env, p, src, m, t, Count(src, from));
  }

  lemma OverlapBegins(env: Env, p: Pipe, src: seq<Keyed<Event>>, m: nat, t: nat, j: nat)
    requires env.policy.Halt? && env.depth >= 1 && Ordered(src) && (forall e | e in src :: e.key < U64_MAX)
    requires m <= j <= t <= |src| && j < |src| && Above(p.window.flushed, src[j].key)
    requires (forall n | 0 <= n < j :: src[n].key < src[j].key) && Buffers(env, SeedChain(src[m..t]), p.window)
    ensures Overlapping(env, p, src, m, t, j)
  {
  }

  lemma PromptAbove(env: Env, src: seq<Keyed<Event>>, p: Pipe, t: nat, from: nat, n: nat)
    requires 0 < n && Count(src, from) + n <= |src| && Count(src, from) <= t <= |src|
        && Above(p.window.flushed, src[Count(src, from)].key)
    ensures var j := Count(src, from);
      && LiveFrom(src, from, n) == LiveSlice(src, j, j + n)
      && (Prompt(env, src, p, t, from, n)
          <==> (j < t ==> LiveRun(env, p, LiveSlice(src, j, Min(t, j + n) - 1)).window.core.healthy))
  {
    hide Count, LiveRun;
    var j := Count(src, from);
    if j < t { assert LiveFrom(src, from, Min(t - j, n) - 1) == LiveSlice(src, j, Min(t, j + n) - 1); }
  }

  lemma CutBefore(src: seq<Keyed<Event>>, from: nat)
    requires Ordered(src) && Count(src, from) < |src|
    ensures forall n | 0 <= n < Count(src, from) :: src[n].key < src[Count(src, from)].key
  {
    CountSplits(src, from);
  }

  /** From a halted window, or from at or below the watermark, everything is let through. */
  lemma LetThrough(env: Env, src: seq<Keyed<Event>>, p: Pipe, t: nat, from: nat, n: nat)
    requires env.policy.Halt? && 0 < n && Count(src, from) + n <= |src| && Count(src, from) <= t <= |src|
    requires p.window.core.healthy ==> !Above(p.window.flushed, src[Count(src, from)].key) && Count(src, from) < t
    ensures LiveRun(env, p, LiveFrom(src, from, n)).out == p.out + Values(Rest(src, t, Count(src, from) + n))
      <==> Prompt(env, src, p, t, from, n)
  {
    hide LiveRun, Count, Rest, Values;
    var j := Count(src, from);
    BelowFloorDelivers(env, p, src, j, j + n);
    if !p.window.core.healthy && j < t { HaltedStays(env, p, LiveFrom(src, from, Min(t - j, n) - 1)); }
    RestCounts(src, j, t, j + n);
  }

  lemma RestCounts(src: seq<Keyed<Event>>, j: nat, t: nat, x: nat)
    requires j <= t <= |src| && j < x <= |src|
    ensures |Values(src[j..x])| == x - j && |Values(Rest(src, t, x))| == if t < x then x - t else 0
    ensures t == j ==> Rest(src, t, x) == src[j..x]
  {
  }

  /** What lies past the backfill lies above the watermark the window starts with. */
  lemma PastTheGap(src: seq<Keyed<Event>>, g: Gap, lo: nat, y: nat, j: nat)
    requires Ordered(src) && y == Max(lo, g.tip + 1) && (g.cut.Some? ==> g.cut.value <= g.tip)
        && (g.seed.Some? ==> g.seed.value.key < lo)
    requires Count(src, y) <= j < |src|
    ensures Above(Floor(g), src[j].key)
  {
    CountSplits(src, y);
  }

  lemma SliceIsOrdered(src: seq<Keyed<Event>>, lo: nat, y: nat)
    requires Ordered(src) && Count(src, lo) <= Count(src, y)
    ensures Ordered(Slice(src, lo, y)) && forall e | e in Slice(src, lo, y) :: e in src
  {
    SliceOrdered(src, Count(src, lo), Count(src, y));
  }

  lemma SliceOrdered(src: seq<Keyed<Event>>, i: nat, j: nat)
    requires Ordered(src) && i <= j <= |src|
    ensures Ordered(src[i..j]) && forall e | e in src[i..j] :: e in src
  {
  }

  lemma RestNone(src: seq<Keyed<Event>>, t: nat)
    requires t <= |src|
    ensures Values(Rest(src, t, 0)) == []
  {
  }

  /** A live tail that starts above the floor (and never below the start block) starts at or above the window's part. */
  lemma StartAboveFloor(src: seq<Keyed<Event>>, start: nat, g: Gap, lo2: nat, from: nat)
    requires Ordered(src) && Count(src, from) < |src| && start <= from
    requires lo2 == TailFrom(g, ResumeAfter(g.seed, start)) && Above(Floor(g), src[Count(src, from)].key)
    ensures Count(src, lo2) <= Count(src, from)
  {
    CountSplits(src, from);
    CountSplits(src, lo2);
    assert src[Count(src, from)].key >= lo2;
  }

  lemma ValuesJoin(src: seq<Keyed<Event>>, a: nat, t: nat, x: nat)
    requires a <= t <= |src| && x <= |src|
    ensures Values(src[a..t]) + Values(Rest(src, t, x)) == Values(src[a..Max(t, x)])
  {
  }

  lemma CancelFront<T>(a: seq<T>, x: seq<T>, y: seq<T>)
    ensures a + x == a + y <==> x == y
  {
    if a + x == a + y { assert (a + x)[|a|..] == x && (a + y)[|a|..] == y; }
  }

  /** The delivery of a subscription whose backfill fails at the window starting at `x`: nothing when that is the
      first one (the subscribe itself fails), else exactly the source below `x`. */
  ghost predicate CutShort(env: Env, decode: Row -> Option<Event>, src: seq<Keyed<Event>>, start: nat, s: StoreState,
                           v: Visit, x: nat)
    requires v.cfg.chunk >= 1 && v.tip < U64_MAX
  {
    var lo, replay := ResumeAfter(s.position, start), Replay(decode, s, ReplayUpTo(v.cfg, s.position));
    && lo <= x && Count(src, start) <= Count(src, x) && replay.Some?
    && if x == lo then Subscription(env, src, v, s).None?
       else Subscription(env, src, v, s).Some?
            && replay.value + Subscription(env, src, v, s).value.out == Values(src[Count(src, start)..Count(src, x)])
  }

  lemma FailedChunkDelivers(env: Env, decode: Row -> Option<Event>, src: seq<Keyed<Event>>, start: nat, s: StoreState,
                            v: Visit)
    requires env.policy.Halt? && RoundTrips(env, decode) && Ordered(src) && GapFree(env, src, start, s)
    requires v.cfg.chunk >= 1 && v.tip < U64_MAX && v.cfg.startBlock == start && v.stop.InLive?
    requires Backfilled(env, src, v, s.position).failed.Some?
    ensures CutShort(env, decode, src, start, s, v, Backfilled(env, src, v, s.position).failed.value)
  {
    hide GapFree, LiveRun, Joined, Backfilled, Range, Replay, Slice, Unripe, Ordered, Count, Values;
    var lo, g, b := ResumeAfter(s.position, start), GapOf(env, v.cfg, v.tip, s.position),
        Backfilled(env, src, v, s.position);
    FailedWithin(env, src, start, v, s.position);
    BackfilledIsSlice(env, src, v, s.position);
    CutIsUnripe(env, v.cfg, v.tip);
    PositionIsBlock(env, src, start, s);
    ReplayIsClamped(env, decode, src, start, v.cfg, s);
    ReplayMeetsBackfill(src, start, s.position, b.failed.value);
    SliceInGap(src, s.position, start, g.tip, b.failed.value);
    JoinedOut(env, g, s, Slice(src, lo, b.failed.value));
    NothingLiveRun(env, Joined(env, g, s, AsBlocks(b.items)));
  }

  lemma NothingLiveRun(env: Env, p: Pipe)
    ensures LiveRun(env, p, []) == p
  {
  }

  /** Where a backfill fails lies within the gap, and its failing at once is the subscribe's own failure. */
  lemma FailedWithin(env: Env, src: seq<Keyed<Event>>, start: nat, v: Visit, last: Option<Position>)
    requires env.policy.Halt? && v.cfg.chunk >= 1 && v.tip < U64_MAX && v.cfg.startBlock == start && Ordered(src)
    requires Backfilled(env, src, v, last).failed.Some?
    ensures var lo, x, eff := ResumeAfter(last, start), Backfilled(env, src, v, last).failed.value,
        EffectiveTip(v.cfg, v.tip);
      && lo <= x <= eff && ResumeFrom(env.policy, v.cfg, last) == lo && CoveredTo(env, src, v, last) == x
      && ReplayUpTo(v.cfg, last) == last
  {
    hide Range, Slices.Tiles;
    var from, eff := ResumeFrom(env.policy, v.cfg, last), EffectiveTip(v.cfg, v.tip);
    if from <= eff {
      Slices.ChunksAreQuery(src, v.answer, 0, from, eff, v.cfg.chunk);
    }
  }

  /** Main theorem: a process that subscribes for the first time over any gap-free archive receives replay, backfill
      and live events as exactly the source sequence from the start block - none lost, none twice, none out of order
      - if and only if the window is healthy while the live tail repeats the overlap. Writes may fail at any time;
      when a backfill window fails, delivery is exact up to it. */
  lemma FirstSubscriptionDelivers(env: Env, decode: Row -> Option<Event>, src: seq<Keyed<Event>>, start: nat,
                                  s: StoreState, v: Visit, from: nat, n: nat)
    requires env.policy.Halt? && env.depth >= 1 && RoundTrips(env, decode)
    requires Ordered(src) && (forall e | e in src :: e.key < U64_MAX) && GapFree(env, src, start, s)
    requires v.cfg.chunk >= 1 && v.tip < U64_MAX && v.cfg.startBlock == start && v.cfg.toBlock.None?
    requires Count(src, from) + n <= |src| && v.stop == InLive(LiveFrom(src, from, n)) && from <= v.tip + 1
    requires n > 0 ==> start <= src[Count(src, from)].key
    ensures var b := Backfilled(env, src, v, s.position);
      b.failed.Some? ==> CutShort(env, decode, src, start, s, v, b.failed.value)
    ensures var b := Backfilled(env, src, v, s.position);
      b.failed.None? ==>
        var y := Max(ResumeAfter(s.position, start), v.tip + 1);
        var end := Max(Count(src, y), if n == 0 then 0 else Count(src, from) + n);
        var p := Joined(env, GapOf(env, v.cfg, v.tip, s.position), s, AsBlocks(b.items));
        && Count(src, start) <= end <= |src|
        && Replay(decode, s, s.position).Some? && Subscription(env, src, v, s).Some?
        && (Replay(decode, s, s.position).value + Subscription(env, src, v, s).value.out
            == Values(src[Count(src, start)..end])
            <==> Prompt(env, src, p, Count(src, y), from, n))
  {
    hide *;
    if Backfilled(env, src, v, s.position).failed.Some? {
      FailedChunkDelivers(env, decode, src, start, s, v);
    } else {
      CompleteSubscriptionDelivers(env, decode, src, start, s, v, from, n);
    }
  }

  lemma CompleteSubscriptionDelivers(env: Env, decode: Row -> Option<Event>, src: seq<Keyed<Event>>, start: nat,
                                     s: StoreState, v: Visit, from: nat, n: nat)
    requires env.policy.Halt? && env.depth >= 1 && RoundTrips(env, decode)
    requires Ordered(src) && (forall e | e in src :: e.key < U64_MAX) && GapFree(env, src, start, s)
    requires v.cfg.chunk >= 1 && v.tip < U64_MAX && v.cfg.startBlock == start && v.cfg.toBlock.None?
    requires Backfilled(env, src, v, s.position).failed.None?
    requires Count(src, from) + n <= |src| && v.stop == InLive(LiveFrom(src, from, n)) && from <= v.tip + 1
    requires n > 0 ==> start <= src[Count(src, from)].key
    ensures var y := Max(ResumeAfter(s.position, start), v.tip + 1);
      var end := Max(Count(src, y), if n == 0 then 0 else Count(src, from) + n);
      var p := Joined(env, GapOf(env, v.cfg, v.tip, s.position), s,
          AsBlocks(Backfilled(env, src, v, s.position).items));
      && Count(src, start) <= end <= |src|
      && Replay(decode, s, s.position).Some? && Subscription(env, src, v, s).Some?
      && (Replay(decode, s, s.position).value + Subscription(env, src, v, s).value.out
          == Values(src[Count(src, start)..end])
          <==> Prompt(env, src, p, Count(src, y), from, n))
  {
    hide GapFree, Run, LiveRun, LiveFrom, Joined, Backfilled, Range, Replay, Slice, Unripe, Ordered, Rest, Count,
        Values, Prompt;
    var lo, g := ResumeAfter(s.position, start), GapOf(env, v.cfg, v.tip, s.position);
    var y := Max(lo, v.tip + 1);
    BackfilledIsSlice(env, src, v, s.position);
    CutIsUnripe(env, v.cfg, v.tip);
    PositionIsBlock(env, src, start, s);
    SliceInGap(src, s.position, start, v.tip, y);
    ReplayIsSource(env, decode, src, start, s);
    ReplayMeetsBackfill(src, start, s.position, y);
    var from' := if n > 0 then Max(start, from) else start;
    if n > 0 { FromStartOn(src, start, from); }
    SameLive(src, from, from', n);
    SessionOut(env, src, start, g, s, from', n);
    SamePrompt(env, src, Joined(env, g, s, AsBlocks(Slice(src, lo, y))), Count(src, y), from, from', n);
    var x := if n == 0 then 0 else Count(src, from) + n;
    ValuesJoin(src, Count(src, start), Count(src, y), x);
    var before, backfill, live := Replay(decode, s, s.position).value, Values(Slice(src, lo, y)),
        Values(Rest(src, Count(src, y), x));
    assert before + (backfill + live) == before + backfill + live;
    CancelFront(before, Subscription(env, src, v, s).value.out, backfill + live);
  }

  lemma SamePrompt(env: Env, src: seq<Keyed<Event>>, p: Pipe, t: nat, a: nat, b: nat, n: nat)
    requires Count(src, a) + n <= |src| && Count(src, b) + n <= |src| && (n > 0 ==> Count(src, a) == Count(src, b))
    ensures Prompt(env, src, p, t, a, n) <==> Prompt(env, src, p, t, b, n)
  {
    hide LiveRun, Count, LiveFrom;
    var j := Count(src, a);
    if n > 0 && j < t { SameLive(src, a, b, Min(t - j, n) - 1); }
  }

  /** Working writes, encodable events and a live tail that starts above the watermark are enough. */
  lemma WorkingWritesArePrompt(env: Env, src: seq<Keyed<Event>>, start: nat, g: Gap, s: StoreState, from: nat, n: nat)
    requires env.depth >= 1 && (forall i: nat :: !env.fails(i)) && Sound(env, g)
    requires Ordered(src) && (forall e | e in src :: e.key < U64_MAX && env.encode(e.value).Some?)
    requires Count(src, from) + n <= |src| && (n > 0 ==> Above(Floor(g), src[Count(src, from)].key))
    requires Count(src, ResumeAfter(g.seed, start)) <= Count(src, Max(ResumeAfter(g.seed, start), g.tip + 1))
    ensures var lo, y := ResumeAfter(g.seed, start), Max(ResumeAfter(g.seed, start), g.tip + 1);
      Prompt(env, src, Joined(env, g, s, AsBlocks(Slice(src, lo, y))), Count(src, y), from, n)
  {
    hide Buffers, Joined, Part, LiveRun, Count, InGap, Unripe, Floor, Ordered, Slice, AsBlocks;
    var lo, y, j := ResumeAfter(g.seed, start), Max(ResumeAfter(g.seed, start), g.tip + 1), Count(src, from);
    SliceInGap(src, g.seed, start, g.tip, y);
    SliceIsOrdered(src, lo, y);
    JoinedHealthy(env, g, s, Slice(src, lo, y));
    if n > 0 && j < Count(src, y) {
      var o := Min(Count(src, y) - j, n) - 1;
      SliceOrdered(src, j, j + o);
      SliceAbove(src, j, j + o, Floor(g));
      OrderedLiveIsHealthy(env, Joined(env, g, s, AsBlocks(Slice(src, lo, y))), src[j..j + o]);
    }
  }

  /** Hence, with working writes and an overlap above both the cut and the stored position, delivery is exact. */
  lemma WorkingWritesDeliver(env: Env, decode: Row -> Option<Event>, src: seq<Keyed<Event>>, start: nat, s: StoreState,
                             v: Visit, from: nat, n: nat)
    requires env.policy.Halt? && env.depth >= 1 && (forall i: nat :: !env.fails(i)) && RoundTrips(env, decode)
    requires Ordered(src) && (forall e | e in src :: e.key < U64_MAX && env.encode(e.value).Some?)
        && GapFree(env, src, start, s)
    requires v.cfg.chunk >= 1 && v.tip < U64_MAX && v.cfg.startBlock == start && v.cfg.toBlock.None?
    requires Backfilled(env, src, v, s.position).failed.None?
    requires Count(src, from) + n <= |src| && v.stop == InLive(LiveFrom(src, from, n)) && from <= v.tip + 1
    requires n > 0 ==> start <= src[Count(src, from)].key
    requires n > 0 ==> Above(Floor(GapOf(env, v.cfg, v.tip, s.position)), src[Count(src, from)].key)
    ensures var y := Max(ResumeAfter(s.position, start), v.tip + 1);
      var end := Max(Count(src, y), if n == 0 then 0 else Count(src, from) + n);
      && Count(src, start) <= end <= |src|
      && Replay(decode, s, s.position).Some? && Subscription(env, src, v, s).Some?
      && Replay(decode, s, s.position).value + Subscription(env, src, v, s).value.out
          == Values(src[Count(src, start)..end])
  {
    hide GapFree, LiveFrom, Joined, Backfilled, Replay, Slice, Unripe, Ordered, Count, Values, Prompt, Subscription,
        Floor;
    BackfilledIsSlice(env, src, v, s.position);
    CutIsUnripe(env, v.cfg, v.tip);
    PositionIsBlock(env, src, start, s);
    FirstSubscriptionDelivers(env, decode, src, start, s, v, from, n);
    WorkingWritesArePrompt(env, src, start, GapOf(env, v.cfg, v.tip, s.position), s, from, n);
  }

  lemma SliceAbove(src: seq<Keyed<Event>>, j: nat, x: nat, floor: Option<nat>)
    requires Ordered(src) && j <= x <= |src| && j < |src| && Above(floor, src[j].key)
    ensures forall e | e in src[j..x] :: Above(floor, e.key)
  {
  }

  /** A run that delivers an event twice: the one settled write fails, so the window is halted before the overlap. */
  lemma FailedWriteRepeats(env: Env, a: Event, b: Event)
    requires env.policy.Halt? && env.depth == 1 && env.encode(a).Some? && env.encode(b).Some? && env.fails(0)
    ensures var g, s := Gap(Some(5), None, 6), StoreState([], None, 0);
      Run(env, g, s, AsBlocks([Keyed(5, a), Keyed(6, b)]), Emits([Keyed(6, b)])).out == [a, b, b]
  {
    var g, s, es := Gap(Some(5), None, 6), StoreState([], None, 0), [Keyed(5, a), Keyed(6, b)];
    JoinedOut(env, g, s, es);
    SettledWriteFails(env, a, b);
    HaltedDelivers(env, Joined(env, g, s, AsBlocks(es)), [Keyed(6, b)]);
    assert Values(es) + Values([Keyed(6, b)]) == [a, b, b];
  }

  lemma SettledWriteFails(env: Env, a: Event, b: Event)
    requires env.policy.Halt? && env.depth == 1 && env.encode(a).Some? && env.fails(0)
    ensures !Joined(env, Gap(Some(5), None, 6), StoreState([], None, 0),
        AsBlocks([Keyed(5, a), Keyed(6, b)])).window.core.healthy
  {
    hide RecordSeeded;
    var p, items := Open(Some(5), None, StoreState([], None, 0)), AsBlocks([Keyed(5, a), Keyed(6, b)]);
    assert items[..1][..0] == [] && BackfillRun(env, Some(5), p, []) == p;
    var q := BackfillRun(env, Some(5), p, items[..1]);
    assert q == BackfillStep(env, Some(5), p, items[0]);
    assert q.settled.current == Some(FromSortKey(5)) && q.settled.core == Core(true, true) && q.store.attempts == 0;
    assert RecordSeeded(env, q.window, q.store, FromSortKey(6), b).store.attempts
        == 0 by { SeedWritesNothing(env, q, b); }
  }

  lemma SeedWritesNothing(env: Env, q: Pipe, b: Event)
    requires q.window == Fresh(Some(FromSortKey(5))) && env.depth >= 1 && env.policy.Halt?
    ensures RecordSeeded(env, q.window, q.store, FromSortKey(6), b).store == q.store
  {
    if env.encode(b).Some? {
      var w := BufferSeed(q.window.(core := q.window.core.(captured := true)), FromSortKey(6), env.encode(b).value);
      NothingDueYet(env, w, q.store);
    }
  }

  lemma {:induction false} RangeOfRange<T>(es: seq<Keyed<T>>, lo: nat, mid: nat, hi: nat)
    requires mid <= hi
    ensures Range(Range(es, lo, hi), 0, mid) == Range(es, lo, mid)
  {
    if es != [] {
      var front, last := es[..|es| - 1], es[|es| - 1];
      RangeOfRange(front, lo, mid, hi);
      if lo <= last.key <= hi { RangePush(Range(front, lo, hi), last, 0, mid); }
    }
  }

  lemma RangePush<T>(es: seq<Keyed<T>>, e: Keyed<T>, lo: nat, hi: nat)
    ensures Range(es + [e], lo, hi) == if lo <= e.key <= hi then Range(es, lo, hi) + [e] else Range(es, lo, hi)
  {
    assert (es + [e])[..|es|] == es;
  }

  lemma EncodedPush(env: Env, es: seq<Keyed<Event>>, e: Keyed<Event>)
    requires env.encode(e.value).Some?
    ensures Encoded(env, es + [e]) == Encoded(env, es) + [Keyed(e.key, env.encode(e.value).value)]
  {
    assert (es + [e])[..|es|] == es;
  }

  lemma {:induction false} RangeOfEncoded(env: Env, es: seq<Keyed<Event>>, hi: nat)
    requires forall e | e in es :: env.encode(e.value).Some?
    ensures Range(Encoded(env, es), 0, hi) == Encoded(env, Range(es, 0, hi))
    ensures forall e | e in Range(es, 0, hi) :: e in es
  {
    if es != [] {
      var front, last := es[..|es| - 1], es[|es| - 1];
      assert last in es && es == front + [last];
      RangeOfEncoded(env, front, hi);
      EncodedPush(env, front, last);
      RangePush(Encoded(env, front), Keyed(last.key, env.encode(last.value).value), 0, hi);
      RangePush(front, last, 0, hi);
      if last.key <= hi { EncodedPush(env, Range(front, 0, hi), last); }
    }
  }

  /** In bounded mode replay stops at the bound, however far the archive reaches. */
  lemma ReplayIsClamped(env: Env, decode: Row -> Option<Event>, src: seq<Keyed<Event>>, start: nat, cfg: Config,
                        s: StoreState)
    requires Ordered(src) && GapFree(env, src, start, s) && RoundTrips(env, decode)
    ensures var upTo := ReplayUpTo(cfg, s.position);
      Replay(decode, s, upTo) == Some(if upTo.None? then [] else Values(Range(src, start, upTo.value.key)))
  {
    hide Flat, Encoded, Range;
    GapFreeIsExact(env, src, start, s);
    if s.position.Some? {
      var p, hi := s.position.value.key, ReplayUpTo(cfg, s.position).value.key;
      RangeOfEncoded(env, Range(src, start, p), hi);
      RangeOfRange(src, start, hi, p);
      DecodeEncoded(env, decode, Range(src, start, hi));
    }
  }

  /** A bounded subscription delivers exactly the source through its bound (or the tip, or what the archive already held
      below the bound), whatever writes fail: replay clamped, the rest backfilled and settled, and no live tail. When a
      backfill window fails, delivery is exact up to it. */
  lemma BoundedSubscriptionDelivers(env: Env, decode: Row -> Option<Event>, src: seq<Keyed<Event>>, start: nat,
                                    s: StoreState, v: Visit)
    requires env.policy.Halt? && env.depth >= 1 && RoundTrips(env, decode)
    requires Ordered(src) && (forall e | e in src :: e.key < U64_MAX) && GapFree(env, src, start, s)
    requires v.cfg.chunk >= 1 && v.tip < U64_MAX && v.cfg.startBlock == start && v.cfg.toBlock.Some? && v.stop.InLive?
    ensures var b := Backfilled(env, src, v, s.position);
      b.failed.Some? ==> CutShort(env, decode, src, start, s, v, b.failed.value)
    ensures var b, eff, p := Backfilled(env, src, v, s.position), EffectiveTip(v.cfg, v.tip), s.position;
      b.failed.None? ==>
        var last := if p.None? then eff else Max(eff, Min(p.value.key, v.cfg.toBlock.value));
        && Replay(decode, s, ReplayUpTo(v.cfg, p)).Some? && Subscription(env, src, v, s).Some?
        && Replay(decode, s, ReplayUpTo(v.cfg, p)).value + Subscription(env, src, v, s).value.out
           == Values(Range(src, start, last))
  {
    hide *;
    if Backfilled(env, src, v, s.position).failed.Some? {
      FailedChunkDelivers(env, decode, src, start, s, v);
    } else {
      CompleteBoundedDelivers(env, decode, src, start, s, v);
    }
  }

  lemma CompleteBoundedDelivers(env: Env, decode: Row -> Option<Event>, src: seq<Keyed<Event>>, start: nat,
                                s: StoreState, v: Visit)
    requires env.policy.Halt? && env.depth >= 1 && RoundTrips(env, decode)
    requires Ordered(src) && (forall e | e in src :: e.key < U64_MAX)
    requires GapFree(env, src, start, s)
    requires v.cfg.chunk >= 1 && v.tip < U64_MAX && v.cfg.startBlock == start && v.cfg.toBlock.Some? && v.stop.InLive?
    requires Backfilled(env, src, v, s.position).failed.None?
    ensures var eff, p := EffectiveTip(v.cfg, v.tip), s.position;
      var last := if p.None? then eff else Max(eff, Min(p.value.key, v.cfg.toBlock.value));
      && Replay(decode, s, ReplayUpTo(v.cfg, p)).Some? && Subscription(env, src, v, s).Some?
      && Replay(decode, s, ReplayUpTo(v.cfg, p)).value + Subscription(env, src, v, s).value.out
          == Values(Range(src, start, last))
  {
    hide GapFree, Run, LiveRun, Joined, Backfilled, Range, Replay, Slice, Unripe, Ordered, Rest, Count, Values,
        LiveFrom;
    var lo, g, eff := ResumeAfter(s.position, start), GapOf(env, v.cfg, v.tip, s.position), EffectiveTip(v.cfg, v.tip);
    var y := Max(lo, eff + 1);
    BackfilledIsSlice(env, src, v, s.position);
    CutIsUnripe(env, v.cfg, v.tip);
    PositionIsBlock(env, src, start, s);
    ReplayIsClamped(env, decode, src, start, v.cfg, s);
    NoLive(src, start);
    SessionOut(env, src, start, g, s, start, 0);
    RestNone(src, Count(src, y));
    assert Subscription(env, src, v, s).value.out == Values(Slice(src, lo, y)) + [];
    BoundedJoins(src, start, s.position, v.cfg.toBlock.value, eff);
  }

  /** Clamped replay and bounded backfill meet. */
  lemma BoundedJoins(src: seq<Keyed<Event>>, start: nat, last: Option<Position>, bound: nat, eff: nat)
    requires Ordered(src) && eff <= bound
    requires var lo := ResumeAfter(last, start); Count(src, lo) <= Count(src, Max(lo, eff + 1))
    ensures var lo := ResumeAfter(last, start); var y := Max(lo, eff + 1);
      (if last.None? then [] else Values(Range(src, start, Min(last.value.key, bound)))) + Values(Slice(src, lo, y))
      == Values(Range(src, start, if last.None? then eff else Max(eff, Min(last.value.key, bound))))
  {
    hide Range, Count, Values;
    var lo := ResumeAfter(last, start);
    var y := Max(lo, eff + 1);
    ValuesNone();
    if last.Some? && last.value.key > bound {
      SliceEmpty(src, lo);
    } else {
      ReplayMeetsBackfill(src, start, last, y);
      var hi := if last.None? then eff else Max(eff, last.value.key);
      if start <= hi {
        assert y == hi + 1;
        RangeIsSlice(src, start, hi);
      } else {
        RangeInverted(src, start, hi);
        SliceEmpty(src, start);
        assert y == start;
      }
    }
  }

  lemma ValuesNone()
    ensures Values<Event>([]) == []
  {
  }

  lemma SliceEmpty(src: seq<Keyed<Event>>, k: nat)
    ensures Slice(src, k, k) == [] && src[Count(src, k)..Count(src, k)] == []
  {
  }
}
