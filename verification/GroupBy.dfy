/** On ordered input both writers are a group-by: which prefix of the stream they have written. */
module GroupBy {
  import opened Base
  import opened Positions
  import opened Store
  import opened Streams
  import opened WindowSpec
  import opened Chain
  import opened Pipeline
  import opened Canonical
  import opened Backfill
  import opened Subscribe
  import opened Archives
  import opened Guarantees
  import opened Delivery
  import opened StartBlock

  const EMPTY: StoreState := StoreState([], None, 0)

  /** An ordered input both writers can work through: encodable events, writes that succeed. */
  ghost predicate Workable(env: Env, es: seq<Keyed<Event>>) {
    && env.policy.Halt? && env.depth >= 1 && (forall n: nat :: !env.fails(n))
    && es != [] && Ordered(es) && (forall e | e in es :: e.key < U64_MAX && env.encode(e.value).Some?)
  }

  /** A live-only window over an empty store. */
  function WindowOver(env: Env, es: seq<Keyed<Event>>): Pipe {
    LiveRun(env, Open(None, None, EMPTY), Emits(es))
  }

  /** A settled writer over an empty store: a bounded backfill, before `finish`. */
  function WriterOver(env: Env, es: seq<Keyed<Event>>): Pipe
    requires es != []
  {
    BackfillRun(env, Some(es[|es| - 1].key), Open(Some(es[|es| - 1].key), None, EMPTY), AsBlocks(es))
  }

  /** The chain part: what is stored and what is buffered are the input. */
  lemma WindowChain(env: Env, es: seq<Keyed<Event>>) returns (mine: seq<Group>)
    requires Workable(env, es)
    ensures var q := WindowOver(env, es);
      && q.store.log == mine && StoredUpTo(env, mine, es, None, q.window.flushed)
      && Buffers(env, Chain(es, Some(es[|es| - 1].key), Some(es[0].key)), q.window)
  {
    WorkableFacts(env, es);
    WindowTracksNothing(env);
    hide *;
    EmitsBlocks(es);
    WindowIsHealthy(env, es);
    var n;
    n, mine := CanonicalChain(env, Open(None, None, EMPTY), SeedChain([]), [], [], None, Emits(es));
    WindowTracksAll(env, es, n, mine);
  }

  lemma WorkableFacts(env: Env, es: seq<Keyed<Event>>)
    requires Workable(env, es)
    ensures env.policy.Halt? && es != [] && Ordered(es)
  {
  }

  lemma WindowTracksNothing(env: Env)
    ensures Tracks(env, Open(None, None, EMPTY), SeedChain([]), [], [], None)
  {
    hide At, Rows;
    EmptyStored(env, [], None);
    FreshBuffers(env);
  }

  lemma WindowIsHealthy(env: Env, es: seq<Keyed<Event>>)
    requires Workable(env, es)
    ensures WindowOver(env, es) == LiveRun(env, Open(None, None, EMPTY), Emits(es))
    ensures WindowOver(env, es).window.core.healthy
  {
    hide LiveRun, Emits;
    OrderedLiveIsHealthy(env, Open(None, None, EMPTY), es);
  }

  lemma WindowTracksAll(env: Env, es: seq<Keyed<Event>>, n: nat, mine: seq<Group>)
    requires es != [] && Ordered(es) && WindowOver(env, es).window.core.healthy && n == |Emits(es)|
    requires Tracks(env, WindowOver(env, es), ChainRun(SeedChain([]), Emits(es)[..n]), [], mine, None)
    ensures var q := WindowOver(env, es);
      && q.store.log == mine && StoredUpTo(env, mine, es, None, q.window.flushed)
      && Buffers(env, Chain(es, Some(es[|es| - 1].key), Some(es[0].key)), q.window)
  {
    hide StoredUpTo, Buffers, ChainRun, WindowOver, Emits;
    assert Emits(es)[..n] == Emits(es) && [] + mine == mine;
    LowChain([], es);
  }

  lemma WindowFollows(env: Env, es: seq<Keyed<Event>>) returns (mine: seq<Group>)
    requires Workable(env, es)
    ensures var q := WindowOver(env, es);
      && q.store.log == mine && StoredUpTo(env, mine, es, None, q.window.flushed)
      && NothingMissing(Chain(es, None, None), q.window) && Slim(env.depth, q.window)
      && q.window.head == Some(es[|es| - 1].key)
      && Lags(env.depth, None, q.window.flushed, es[|es| - 1].key)
  {
    hide StoredUpTo, Slim, Lags, Workable, WindowOver, SlotsMatch, At, Rows;
    mine := WindowChain(env, es);
    WindowLags(env, es);
  }

  /** The lag part: nothing mature is left, and the watermark trails the last key by the depth. */
  lemma WindowLags(env: Env, es: seq<Keyed<Event>>)
    requires Workable(env, es)
    ensures var q := WindowOver(env, es);
      Slim(env.depth, q.window) && Lags(env.depth, None, q.window.flushed, es[|es| - 1].key)
  {
    hide LiveRun, Emits, Slim, Lags;
    var p := Open(None, None, EMPTY);
    LiveBufferBounded(env, p.settled, None, EMPTY, Emits(es));
    LiveLags(env, p, es);
  }

  lemma FreshBuffers(env: Env)
    ensures Buffers(env, SeedChain([]), Fresh(None))
  {
  }

  lemma EmitsBlocks(es: seq<Keyed<Event>>)
    ensures LiveBlocks(Emits(es))
  {
  }

  /** The stream grouped by key: one group per key, its rows in stream order. */
  function Groups(env: Env, es: seq<Keyed<Event>>): seq<Group> {
    if es == [] then [] else
      var front, last := Groups(env, es[..|es| - 1]), es[|es| - 1];
      match env.encode(last.value)
      case None => front
      case Some(row) =>
        if front != [] && front[|front| - 1].position.key == last.key
        then front[..|front| - 1] + [Group(FromSortKey(last.key), front[|front| - 1].rows + [row])]
        else front + [Group(FromSortKey(last.key), [row])]
  }

  /** A log of block groups none of which is empty. */
  ghost predicate Full(log: seq<Group>) {
    forall g | g in log :: IsBlock(g.position) && g.rows != []
  }

  /** `log` is `es` grouped: full groups in key order, each key's rows as in the stream. */
  ghost predicate Grouped(env: Env, log: seq<Group>, es: seq<Keyed<Event>>) {
    && Increasing(log) && Full(log)
    && (log != [] ==> es != [] && log[|log| - 1].position.key == es[|es| - 1].key)
    && (forall k: nat :: LogAt(log, k) == Rows(env, At(es, k)))
  }

  /** Grouping keeps every key's rows, and nothing else. */
  lemma {:induction false} GroupsHold(env: Env, es: seq<Keyed<Event>>)
    requires Ordered(es) && forall e | e in es :: env.encode(e.value).Some?
    ensures Grouped(env, Groups(env, es), es)
  {
    if es == [] {
      RowsNone(env);
    } else {
      hide Groups, Grouped;
      var front, e := es[..|es| - 1], es[|es| - 1];
      assert front + [e] == es && e in es;
      GroupsHold(env, front);
      GroupsUnfolds(env, es);
      GroupsPush(env, Groups(env, front), front, e);
    }
  }

  lemma GroupsUnfolds(env: Env, es: seq<Keyed<Event>>)
    requires es != [] && env.encode(es[|es| - 1].value).Some?
    ensures var log, last, row := Groups(env, es[..|es| - 1]), es[|es| - 1], env.encode(es[|es| - 1].value).value;
      Groups(env, es) == if log != [] && log[|log| - 1].position.key == last.key
                         then log[..|log| - 1] + [Group(FromSortKey(last.key), log[|log| - 1].rows + [row])]
                         else log + [Group(FromSortKey(last.key), [row])]
  {
  }

  lemma GroupsPush(env: Env, log: seq<Group>, front: seq<Keyed<Event>>, e: Keyed<Event>)
    requires env.encode(e.value).Some? && Grouped(env, log, front)
    requires front != [] ==> front[|front| - 1].key <= e.key
    ensures var row := env.encode(e.value).value;
      var grown := if log != [] && log[|log| - 1].position.key == e.key
                   then log[..|log| - 1] + [Group(FromSortKey(e.key), log[|log| - 1].rows + [row])]
                   else log + [Group(FromSortKey(e.key), [row])];
      Grouped(env, grown, front + [e])
  {
    hide LogAt, At, Rows, Increasing, Full;
    var row := env.encode(e.value).value;
    var joins := log != [] && log[|log| - 1].position.key == e.key;
    var kept := if joins then log[..|log| - 1] else log;
    var prior := if joins then log[|log| - 1].rows else [];
    NothingFirst([row]);
    if joins { assert log == kept + [log[|log| - 1]]; }
    KeptBelow(log, e.key);
    GrownFull(kept, Group(FromSortKey(e.key), prior + [row]));
    forall k: nat ensures LogAt(kept + [Group(FromSortKey(e.key), prior + [row])], k) == Rows(env, At(front + [e], k)) {
      assert LogAt(log, k) == Rows(env, At(front, k));
      if joins { LastHolds(kept, log[|log| - 1], k); } else if k == e.key { LogAtAbsent(log, k); }
      GroupsPushAt(env, kept, prior, front, e, k);
    }
  }

  lemma KeptBelow(log: seq<Group>, k: nat)
    requires Increasing(log) && Full(log) && (log != [] ==> log[|log| - 1].position.key <= k)
    ensures var kept := if log != [] && log[|log| - 1].position.key == k then log[..|log| - 1] else log;
      Increasing(kept) && Full(kept) && forall h | h in kept :: h.position.key < k
  {
  }

  lemma GrownFull(kept: seq<Group>, g: Group)
    requires Increasing(kept) && Full(kept) && IsBlock(g.position) && g.rows != []
    requires forall h | h in kept :: h.position.key < g.position.key
    ensures Increasing(kept + [g]) && Full(kept + [g])
  {
    forall h | h in kept + [g] ensures IsBlock(h.position) && h.rows != [] {}
  }

  lemma GroupsPushAt(env: Env, kept: seq<Group>, prior: seq<Row>, front: seq<Keyed<Event>>, e: Keyed<Event>, k: nat)
    requires env.encode(e.value).Some? && forall h | h in kept :: h.position.key < e.key
    requires Rows(env, At(front, k)) == if k == e.key then prior else LogAt(kept, k)
    ensures LogAt(kept + [Group(FromSortKey(e.key), prior + [env.encode(e.value).value])], k)
        == Rows(env, At(front + [e], k))
  {
    hide LogAt, At, Rows;
    var row := env.encode(e.value).value;
    AtPush(front, e, k);
    LogAtPush(kept, Group(FromSortKey(e.key), prior + [row]), k);
    if k == e.key {
      LogAtAbsent(kept, k);
      RowsPush(env, At(front, k), e.value);
      NothingFirst(prior + [row]);
    }
  }

  lemma NothingFirst<T>(s: seq<T>)
    ensures [] + s == s
  {
  }

  /** What a log holds at and below its last key, in terms of its front. */
  lemma LastHolds(kept: seq<Group>, last: Group, k: nat)
    requires forall h | h in kept :: h.position.key < last.position.key
    ensures LogAt(kept + [last], k) == if k == last.position.key then last.rows else LogAt(kept, k)
  {
    LogAtPush(kept, last, k);
    if k == last.position.key {
      LogAtAbsent(kept, k);
      NothingFirst(last.rows);
    }
  }

  /** Such a log is determined by what it holds at each key. */
  lemma {:induction false} LogDetermined(a: seq<Group>, b: seq<Group>)
    requires Increasing(a) && Increasing(b) && Full(a) && Full(b)
    requires forall k: nat :: LogAt(a, k) == LogAt(b, k)
    ensures a == b
  {
    if a == [] || b == [] {
      if b == [] { NoLastGroup(a, b); } else { NoLastGroup(b, a); }
    } else {
      hide LogAt, Increasing, Full;
      var fa, fb, x, y := a[..|a| - 1], b[..|b| - 1], a[|a| - 1], b[|b| - 1];
      assert a == fa + [x] && b == fb + [y];
      LastGroup(a, b);
      LastGroup(b, a);
      FrontOfLog(a);
      FrontOfLog(b);
      forall k: nat ensures LogAt(fa, k) == LogAt(fb, k) {
        LogAtPush(fa, x, k);
        LogAtPush(fb, y, k);
        assert LogAt(a, k) == LogAt(b, k);
      }
      LogDetermined(fa, fb);
      assert LogAt(a, x.position.key) == LogAt(b, x.position.key);
    }
  }

  lemma GroupedDetermined(env: Env, log: seq<Group>, es: seq<Keyed<Event>>)
    requires Increasing(log) && Full(log) && Ordered(es) && forall e | e in es :: env.encode(e.value).Some?
    requires forall k: nat :: LogAt(log, k) == Rows(env, At(es, k))
    ensures log == Groups(env, es)
  {
    hide LogAt, At, Rows, Groups, Full, Increasing, Ordered;
    GroupsHold(env, es);
    forall k: nat ensures LogAt(log, k) == LogAt(Groups(env, es), k) {
      assert LogAt(log, k) == Rows(env, At(es, k));
    }
    LogDetermined(log, Groups(env, es));
  }

  lemma FrontOfLog(log: seq<Group>)
    requires Increasing(log) && Full(log) && log != []
    ensures var front, last := log[..|log| - 1], log[|log| - 1];
      && Increasing(front) && Full(front) && IsBlock(last.position)
      && LogAt(front, last.position.key) == [] && LogAt(log, last.position.key) == last.rows
  {
    assert log[|log| - 1] in log;
    forall g | g in log[..|log| - 1] ensures g in log && g.position.key != log[|log| - 1].position.key {}
    LogAtAbsent(log[..|log| - 1], log[|log| - 1].position.key);
    LogAtUnique(log, |log| - 1);
  }

  lemma NoLastGroup(a: seq<Group>, b: seq<Group>)
    requires Increasing(a) && Full(a) && b == [] && forall k: nat :: LogAt(a, k) == LogAt(b, k)
    ensures a == []
  {
    if a != [] {
      assert a[|a| - 1] in a;
      LogAtUnique(a, |a| - 1);
    }
  }

  /** The last key of one log occurs in the other. */
  lemma LastGroup(a: seq<Group>, b: seq<Group>)
    requires Increasing(a) && Increasing(b) && Full(a) && a != [] && b != []
    requires forall k: nat :: LogAt(a, k) == LogAt(b, k)
    ensures a[|a| - 1].position.key <= b[|b| - 1].position.key
  {
    hide LogAt;
    var k := a[|a| - 1].position.key;
    FrontOfLog(a);
    assert a[|a| - 1] in a && LogAt(a, k) == LogAt(b, k);
    if b[|b| - 1].position.key < k {
      LogAtAbsent(b, k);
    }
  }

  /** A live-only window buffers no empty group. */
  ghost predicate NoneEmpty(w: Window) {
    forall b | b in w.pending :: w.pending[b].rows != [] && IsBlock(w.pending[b].position) && !w.pending[b].seeded
  }

  lemma {:induction false} WindowFull(env: Env, es: seq<Keyed<Event>>)
    requires env.policy.Halt?
    ensures NoneEmpty(WindowOver(env, es).window) && Full(WindowOver(env, es).store.log)
  {
    if es != [] {
      var front, e := es[..|es| - 1], es[|es| - 1];
      assert front + [e] == es;
      WindowFull(env, front);
      EmitsPush(front, e);
      LiveRunPush(env, Open(None, None, EMPTY), Emits(front), EmitOf(e));
      LiveStepFull(env, WindowOver(env, front), e);
    } else {
      assert Emits(es) == [];
    }
  }

  lemma LiveStepFull(env: Env, p: Pipe, e: Keyed<Event>)
    requires env.policy.Halt? && NoneEmpty(p.window) && Full(p.store.log)
    ensures var q := LiveStep(env, p, EmitOf(e)); NoneEmpty(q.window) && Full(q.store.log)
  {
    hide FlushMatured, FirstIndex, SwapRemove, Contains;
    if p.window.core.healthy && Above(p.window.flushed, e.key) && env.encode(e.value).Some? {
      var w := Buffer(Halt, p.window.(core := p.window.core.(captured := true)), FromSortKey(e.key),
          env.encode(e.value).value).0;
      assert NoneEmpty(w);
      FlushFull(env, w, p.store);
    }
  }

  lemma {:induction false} FlushFull(env: Env, w: Window, s: StoreState)
    requires NoneEmpty(w) && Full(s.log)
    ensures var (w', s') := FlushMatured(env, w, s); NoneEmpty(w') && Full(s'.log)
    decreases |w.pending|
  {
    var due := Matured(env.depth, w);
    if due != {} {
      var b := Least(due);
      var (core, s1, ok) := Flush(env, w.core, s, GroupOf(w.pending[b]));
      if ok {
        SmallerMap(w.pending, b);
        FlushFull(env, FlushOne(w, b).(core := core), s1);
      }
    }
  }

  /** The events buried `depth` deep under the last key. */
  function Buried(es: seq<Keyed<Event>>, depth: nat): seq<Keyed<Event>> {
    if es == [] || es[|es| - 1].key < depth then [] else Range(es, 0, es[|es| - 1].key - depth)
  }

  lemma BuriedAt(es: seq<Keyed<Event>>, depth: nat, k: nat)
    requires es != []
    ensures At(Buried(es, depth), k) == if k + depth <= es[|es| - 1].key then At(es, k) else []
  {
    if depth <= es[|es| - 1].key { AtRange(es, 0, es[|es| - 1].key - depth, k); }
  }

  lemma BuriedOrdered(es: seq<Keyed<Event>>, depth: nat)
    requires Ordered(es)
    ensures Ordered(Buried(es, depth)) && forall e | e in Buried(es, depth) :: e in es
  {
    if es != [] && depth <= es[|es| - 1].key {
      RangeOrdered(es, 0, es[|es| - 1].key - depth);
      RangeWithin(es, 0, es[|es| - 1].key - depth);
    }
  }

  /** A window of depth `d` has written exactly the groups buried `d` deep under the last key, one write each. */
  lemma WindowIsGroupBy(env: Env, es: seq<Keyed<Event>>)
    requires Workable(env, es)
    ensures WindowOver(env, es).store.log == Groups(env, Buried(es, env.depth))
  {
    assert es[|es| - 1] in es && Ordered(es);
    assert forall e | e in es :: env.encode(e.value).Some?;
    hide At, Rows, LogAt, Buried, Groups, Slim, NothingMissing, Lags, WindowOver, EMPTY, Full, NoneEmpty, Ordered;
    var mine := WindowFollows(env, es);
    var w := WindowOver(env, es).window;
    forall k: nat ensures LogAt(mine, k) == Rows(env, At(Buried(es, env.depth), k)) {
      KeptAt(env, es, w, mine, k);
      BuriedAt(es, env.depth, k);
    }
    BuriedOrdered(es, env.depth);
    WindowFull(env, es);
    GroupedDetermined(env, mine, Buried(es, env.depth));
  }

  lemma {:induction false} RangeWithin<T>(es: seq<Keyed<T>>, lo: nat, hi: nat)
    ensures forall e | e in Range(es, lo, hi) :: e in es
  {
    if es != [] { RangeWithin(es[..|es| - 1], lo, hi); }
  }

  lemma RowsNone(env: Env)
    ensures Rows(env, []) == []
  {
  }

  lemma KeptAt(env: Env, es: seq<Keyed<Event>>, w: Window, mine: seq<Group>, k: nat)
    requires es != [] && StoredUpTo(env, mine, es, None, w.flushed) && NothingMissing(Chain(es, None, None), w)
        && Slim(env.depth, w)
    requires w.head == Some(es[|es| - 1].key) && es[|es| - 1].key < U64_MAX
    requires Lags(env.depth, None, w.flushed, es[|es| - 1].key)
    ensures LogAt(mine, k) == Rows(env, if k + env.depth <= es[|es| - 1].key then At(es, k) else [])
  {
    hide At, LogAt;
    assert if Above(w.flushed, k) then LogAt(mine, k) == [] else HoldsAt(env, mine, es, k);
  }

  lemma WriterFollows(env: Env, es: seq<Keyed<Event>>) returns (mine: seq<Group>)
    requires Workable(env, es)
    ensures var p := WriterOver(env, es);
      p.store.log == mine && StoredUpTo(env, mine, es, None, KeyOf(p.settled.watermark))
          && OpenGroup(env, p.settled, es)
  {
    hide StoredUpTo, OpenGroup, Part, AsBlocks, BackfillRun, Unripe, TailTracks;
    var last := es[|es| - 1].key;
    var g := Gap(Some(last), None, last);
    WholeGap(es);
    CutIsLast(env, last);
    var taken, tail;
    mine, taken, tail := BackfillKeepsChain(env, g, EMPTY, AsBlocks(es));
    BackfillHealthy(env, g, EMPTY, es);
    PartIsAll(es, last, es);
    assert [] + mine == mine;
  }

  lemma CutIsLast(env: Env, last: nat)
    requires env.policy.Halt? && env.depth >= 1
    ensures Sound(env, Gap(Some(last), None, last))
  {
  }

  /** The open group is never empty, and neither is any group the settled writer has written. */
  ghost predicate WriterIsFull(p: Pipe) {
    && Full(p.store.log)
    && (p.settled.current.Some? && p.settled.core.healthy ==>
          p.settled.buffer != [] && IsBlock(p.settled.current.value))
  }

  lemma {:induction false} WriterFull(env: Env, cut: Option<nat>, p: Pipe, es: seq<Keyed<Event>>)
    requires env.policy.Halt? && WriterIsFull(p) && forall e | e in es :: Settles(cut, e.key)
    ensures WriterIsFull(BackfillRun(env, cut, p, AsBlocks(es)))
  {
    if es != [] {
      var front, e := es[..|es| - 1], es[|es| - 1];
      assert AsBlocks(es)[..|es| - 1] == AsBlocks(front) && e in es;
      WriterFull(env, cut, p, front);
      WriterStepFull(env, cut, BackfillRun(env, cut, p, AsBlocks(front)), e);
    }
  }

  lemma WriterStepFull(env: Env, cut: Option<nat>, p: Pipe, e: Keyed<Event>)
    requires env.policy.Halt? && WriterIsFull(p) && Settles(cut, e.key)
    ensures WriterIsFull(BackfillStep(env, cut, p, Positioned(FromSortKey(e.key), e.value)))
  {
    hide Contains;
    var log, current := p.store.log, p.settled.current;
    if current.Some? && p.settled.core.healthy {
      forall h | h in log + [Group(current.value, p.settled.buffer)] ensures IsBlock(h.position) && h.rows != [] {}
    }
  }

  /** Before `finish` the settled writer has written exactly the groups below the last key, one write each. */
  lemma WriterIsGroupBy(env: Env, es: seq<Keyed<Event>>)
    requires Workable(env, es)
    ensures WriterOver(env, es).store.log == Groups(env, Below(es, es[|es| - 1].key))
  {
    var last := es[|es| - 1].key;
    WriterFull(env, Some(last), Open(Some(last), None, EMPTY), es);
    assert Full(WriterOver(env, es).store.log);
    hide At, LogAt, Below, Rows, WriterOver, OpenGroup, Groups;
    var mine := WriterFollows(env, es);
    WriterHolds(env, es, mine, WriterOver(env, es).settled);
    BelowOrdered(es, last);
    BelowKeeps(es, last);
    GroupedDetermined(env, mine, Below(es, last));
  }

  lemma WriterHolds(env: Env, es: seq<Keyed<Event>>, mine: seq<Group>, b: Settled)
    requires StoredUpTo(env, mine, es, None, KeyOf(b.watermark)) && OpenGroup(env, b, es) && es != []
    ensures forall k: nat :: LogAt(mine, k) == Rows(env, At(Below(es, es[|es| - 1].key), k))
  {
    hide At, LogAt, Below, Rows;
    var last := es[|es| - 1].key;
    assert es[|es| - 1] in es;
    forall k: nat ensures LogAt(mine, k) == Rows(env, At(Below(es, last), k)) {
      AtBelow(es, last, k);
      assert if Above(KeyOf(b.watermark), k) then LogAt(mine, k) == [] else HoldsAt(env, mine, es, k);
      RowsNone(env);
    }
  }

  lemma WholeGap(es: seq<Keyed<Event>>)
    requires es != [] && Ordered(es)
    ensures InGap(AsBlocks(es), None, es[|es| - 1].key)
  {
  }

  lemma {:induction false} PartIsAll(es: seq<Keyed<Event>>, tip: nat, all: seq<Keyed<Event>>)
    requires forall e | e in es :: e.key <= tip
    ensures Part(Some(tip), AsBlocks(es), true) == es
  {
    if es != [] {
      var front, last := es[..|es| - 1], es[|es| - 1];
      PartIsAll(front, tip, all);
      assert front + [last] == es && last in es;
      PartPush(Some(tip), front, last, true);
    } else {
      assert AsBlocks(es) == [];
    }
  }

  /** Depth 1 reproduces the settled writer before `finish`: identical write logs. */
  lemma DepthOneIsWriter(env: Env, es: seq<Keyed<Event>>)
    requires Workable(env, es) && env.depth == 1
    ensures WindowOver(env, es).store.log == WriterOver(env, es).store.log
  {
    var last := es[|es| - 1].key;
    hide WindowOver, WriterOver, Workable, Below, Groups;
    WindowIsGroupBy(env, es);
    WriterIsGroupBy(env, es);
    if last == 0 { NothingBelow(es); } else { BelowIsRange(es, last); }
  }

  lemma {:induction false} NothingBelow<T>(es: seq<Keyed<T>>)
    ensures Below(es, 0) == []
  {
    if es != [] { NothingBelow(es[..|es| - 1]); }
  }

  lemma {:induction false} BelowIsRange<T>(es: seq<Keyed<T>>, k: nat)
    requires k > 0
    ensures Below(es, k) == Range(es, 0, k - 1)
  {
    if es != [] { BelowIsRange(es[..|es| - 1], k); }
  }
}
