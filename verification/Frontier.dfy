/** Dedupe sources: every identity is stored at most once, over any delivery and any number of restarts. */
module Frontier {
  import opened Base
  import opened Positions
  import opened Store
  import opened WindowSpec
  import opened Chain
  import opened Pipeline
  import opened Durable
  import opened Backfill
  import opened Session
  import opened Watermarks

  /** The identity a row was encoded from. */
  type Tag = Row -> Id

  /** A source with one identity per event: the position carries it, and the encoded row can be traced to it. */
  ghost predicate Honest(env: Env, tag: Tag, item: Positioned) {
    && (exists id :: item.position.seen == {id})
    && (env.encode(item.event).Some? ==> item.position.seen == {tag(env.encode(item.event).value)})
  }

  ghost predicate Distinct(tag: Tag, rows: seq<Row>) {
    forall i, j | 0 <= i < j < |rows| :: tag(rows[i]) != tag(rows[j])
  }

  /** A group holds one row for each identity of its position, and no others. */
  ghost predicate Tagged(tag: Tag, seen: set<Id>, rows: seq<Row>) {
    && Distinct(tag, rows)
    && (forall r | r in rows :: tag(r) in seen)
    && (forall id | id in seen :: exists i :: 0 <= i < |rows| && tag(rows[i]) == id)
  }

  /** No identity of `seen` is stored at `key`. */
  ghost predicate Unstored(log: seq<Group>, key: nat, seen: set<Id>) {
    forall g | g in log && g.position.key == key :: g.position.seen !! seen
  }

  ghost predicate Once(tag: Tag, log: seq<Group>) {
    && (forall g | g in log :: Tagged(tag, g.position.seen, g.rows))
    && (forall i, j | 0 <= i < j < |log| && log[i].position.key == log[j].position.key ::
        log[i].position.seen !! log[j].position.seen)
  }

  /** Everything stored is covered by the durable position. */
  lemma {:induction false} FoldCovers(log: seq<Group>, g: Group)
    requires g in log
    ensures FoldPositions(log).Some? && Contains(FoldPositions(log).value, g.position)
  {
    var front, last := log[..|log| - 1], log[|log| - 1];
    assert log == front + [last];
    if g != last { FoldCovers(front, g); }
  }

  /** What the durable position has seen at its instant is stored there. */
  lemma {:induction false} FoldStored(log: seq<Group>, id: Id)
    requires FoldPositions(log).Some? && id in FoldPositions(log).value.seen
    ensures exists g :: g in log && g.position.key == FoldPositions(log).value.key && id in g.position.seen
  {
    var front, last := log[..|log| - 1], log[|log| - 1];
    assert log == front + [last];
    var p := FoldPositions(front);
    if p.Some? && last.position.key <= p.value.key && id in p.value.seen {
      FoldStored(front, id);
    }
  }

  /** A buffered group that may be written: complete tags, nothing of it stored. */
  ghost predicate Writable(tag: Tag, log: seq<Group>, pos: Position, rows: seq<Row>) {
    Tagged(tag, pos.seen, rows) && Unstored(log, pos.key, pos.seen)
  }

  lemma TaggedPush(tag: Tag, seen: set<Id>, rows: seq<Row>, row: Row)
    requires Tagged(tag, seen, rows) && tag(row) !in seen
    ensures Tagged(tag, seen + {tag(row)}, rows + [row])
  {
    var all := rows + [row];
    forall id | id in seen + {tag(row)} ensures exists i :: 0 <= i < |all| && tag(all[i]) == id {
      if id in seen {
        var i :| 0 <= i < |rows| && tag(rows[i]) == id;
        assert tag(all[i]) == id;
      } else {
        assert tag(all[|rows|]) == id;
      }
    }
  }

  lemma OncePush(tag: Tag, log: seq<Group>, g: Group)
    requires Once(tag, log) && Writable(tag, log, g.position, g.rows)
    ensures Once(tag, log + [g])
  {
    forall i | 0 <= i < |log| && log[i].position.key == g.position.key ensures log[i].position.seen !! g.position.seen {
      assert log[i] in log;
    }
  }

  /** Writing a group leaves every buffered group at another key writable. */
  lemma WritableKeeps(tag: Tag, log: seq<Group>, g: Group, pos: Position, rows: seq<Row>)
    requires Writable(tag, log, pos, rows) && g.position.key != pos.key
    ensures Writable(tag, log + [g], pos, rows)
  {
  }

  /** An event that is not covered is not stored. */
  lemma UncoveredIsUnstored(s: StoreState, wm: Option<Position>, pos: Position)
    requires Synced(s) && Join(wm, s.position) == wm
    requires wm.Some? ==> !Contains(wm.value, pos)
    requires exists id :: pos.seen == {id}
    ensures Unstored(s.log, pos.key, pos.seen)
  {
    forall g | g in s.log && g.position.key == pos.key ensures g.position.seen !! pos.seen {
      FoldCovers(s.log, g);
      ContainsIffAbsorbed(wm.value, s.position.value);
      ContainsTransitive(wm.value, s.position.value, g.position);
    }
  }

  /** Adding an uncovered event to its group keeps the group writable. */
  lemma WritablePush(env: Env, tag: Tag, log: seq<Group>, prior: Option<Position>, rows: seq<Row>, item: Positioned)
    requires Honest(env, tag, item) && env.encode(item.event).Some?
    requires Unstored(log, item.position.key, item.position.seen)
    requires prior.None? ==> rows == []
    requires prior.Some? ==>
        prior.value.key == item.position.key && !Contains(prior.value, item.position)
        && Writable(tag, log, prior.value, rows)
    ensures Writable(tag, log, Advance(prior, item.position), rows + [env.encode(item.event).value])
  {
    var row := env.encode(item.event).value;
    if prior.Some? {
      TaggedPush(tag, prior.value.seen, rows, row);
    } else {
      assert Tagged(tag, {}, []);
      TaggedPush(tag, {}, [], row);
      assert {} + {tag(row)} == item.position.seen;
    }
  }

  ghost predicate SlotsWritable(tag: Tag, log: seq<Group>, w: Window) {
    forall b | b in w.pending ::
        w.pending[b].position.key == b && w.pending[b].expected == []
        && Writable(tag, log, w.pending[b].position, w.pending[b].rows)
  }

  ghost predicate OpenWritable(tag: Tag, log: seq<Group>, b: Settled, cut: Option<nat>) {
    match b.current
    case None => b.buffer == []
    case Some(cur) => Settles(cut, cur.key) && Writable(tag, log, cur, b.buffer)
  }

  /** Both writers while the backfill runs. */
  ghost predicate Backfilling(tag: Tag, g: Gap, s: StoreState, p: Pipe) {
    && Agree(g, p) && Synced(p.store) && Once(tag, p.store.log)
    && s.log <= p.store.log && (forall i | |s.log| <= i < |p.store.log| :: Settles(g.cut, p.store.log[i].position.key))
    && (p.settled.core.healthy ==> OpenWritable(tag, p.store.log, p.settled, g.cut))
    && (p.window.core.healthy ==> SlotsWritable(tag, p.store.log, p.window))
  }

  /** The settled writer's open group is written: nothing else changes. */
  lemma CloseOnce(tag: Tag, g: Gap, s: StoreState, p: Pipe, env: Env)
    requires Backfilling(tag, g, s, p) && p.settled.core.healthy && p.settled.current.Some?
    ensures var group := Group(p.settled.current.value, p.settled.buffer);
      var log := p.store.log + [group];
      && Once(tag, log) && s.log <= log && (forall i | |s.log| <= i < |log| :: Settles(g.cut, log[i].position.key))
      && (p.window.core.healthy ==> SlotsWritable(tag, log, p.window))
  {
    hide Tagged;
    var group := Group(p.settled.current.value, p.settled.buffer);
    OncePush(tag, p.store.log, group);
    if p.window.core.healthy {
      forall b | b in p.window.pending
        ensures p.window.pending[b].position.key == b && p.window.pending[b].expected == []
            && Writable(tag, p.store.log + [group], p.window.pending[b].position, p.window.pending[b].rows)
      {
        WritableKeeps(tag, p.store.log, group, p.window.pending[b].position, p.window.pending[b].rows);
      }
    }
  }

  lemma SettledStepOnce(env: Env, tag: Tag, g: Gap, s: StoreState, p: Pipe, item: Positioned)
    requires env.policy.Dedupe? && Honest(env, tag, item) && Settles(g.cut, item.position.key)
        && Backfilling(tag, g, s, p)
    requires Agree(g, BackfillStep(env, g.cut, p, item)) && Synced(BackfillStep(env, g.cut, p, item).store)
    ensures Backfilling(tag, g, s, BackfillStep(env, g.cut, p, item))
  {
    hide Writable, Once, SlotsWritable, Synced, Advance, Contains, Agree, Honest;
    var b, pos := p.settled, item.position;
    if b.core.healthy && !SettledCovers(b, pos) && env.encode(item.event).Some? {
      SettledUncovered(env, tag, g, p, item);
      if b.current.None? || b.current.value.key == pos.key {
        WritablePush(env, tag, p.store.log, b.current, b.buffer, item);
        AdvanceKey(b.current, pos);
      } else if b.current.value.key < pos.key {
        CloseOnce(tag, g, s, p, env);
        WritablePush(env, tag, p.store.log, None, [], item);
        AdvanceKey(None, pos);
        assert [] + [env.encode(item.event).value] == [env.encode(item.event).value];
        WritableKeeps(tag, p.store.log, Group(b.current.value, b.buffer), pos, [env.encode(item.event).value]);
      }
    }
  }

  lemma AdvanceKey(prev: Option<Position>, pos: Position)
    requires prev.Some? ==> prev.value.key == pos.key
    ensures Advance(prev, pos).key == pos.key && (prev.None? ==> Advance(prev, pos) == pos)
  {
  }

  lemma SettledUncovered(env: Env, tag: Tag, g: Gap, p: Pipe, item: Positioned)
    requires Honest(env, tag, item) && Agree(g, p) && Synced(p.store) && !SettledCovers(p.settled, item.position)
    ensures Unstored(p.store.log, item.position.key, item.position.seen)
    ensures p.settled.current.Some? && p.settled.current.value.key == item.position.key ==>
        !Contains(p.settled.current.value, item.position)
  {
    JoinLaws(p.store.position, p.store.position, p.store.position);
    UncoveredIsUnstored(p.store, p.settled.watermark, item.position);
  }

  /** A tail event: nothing stored since the subscription began can collide with it. */
  lemma TailUncovered(env: Env, tag: Tag, g: Gap, s: StoreState, p: Pipe, item: Positioned)
    requires Honest(env, tag, item) && Backfilling(tag, g, s, p) && Synced(s) && s.position == g.seed
    requires !Settles(g.cut, item.position.key) && !Covered(p.window, item.position)
    ensures Unstored(p.store.log, item.position.key, item.position.seen)
  {
    hide Writable, Once, Tagged;
    SeedCovers(g);
    UncoveredIsUnstored(s, p.window.watermark, item.position);
    forall w | w in p.store.log && w.position.key == item.position.key ensures w.position.seen !! item.position.seen {
      var i :| 0 <= i < |p.store.log| && p.store.log[i] == w;
      assert i < |s.log| && s.log[i] == w;
    }
  }

  lemma SeedCovers(g: Gap)
    ensures Join(WindowSeed(g.cut, g.seed), g.seed) == WindowSeed(g.cut, g.seed)
  {
    var c := if g.cut.None? then None else Some(FromSortKey(g.cut.value));
    assert WindowSeed(g.cut, g.seed) == Join(g.seed, c);
    JoinLaws(g.seed, c, g.seed);
    JoinLaws(c, g.seed, g.seed);
    JoinLaws(g.seed, g.seed, c);
  }

  lemma SlotPush(env: Env, tag: Tag, log: seq<Group>, w: Window, item: Positioned)
    requires Honest(env, tag, item) && env.encode(item.event).Some?
        && Unstored(log, item.position.key, item.position.seen)
    requires SlotsWritable(tag, log, w) && !Covered(w, item.position)
    ensures SlotsWritable(tag, log, BufferSeed(w, item.position, env.encode(item.event).value))
    ensures SlotsWritable(tag, log, Buffer(Dedupe, w, item.position, env.encode(item.event).value).0)
  {
    hide Writable;
    var k := item.position.key;
    if k in w.pending {
      WritablePush(env, tag, log, Some(w.pending[k].position), w.pending[k].rows, item);
    } else {
      WritablePush(env, tag, log, None, [], item);
      assert [] + [env.encode(item.event).value] == [env.encode(item.event).value];
    }
  }

  lemma TailStepOnce(env: Env, tag: Tag, g: Gap, s: StoreState, p: Pipe, item: Positioned)
    requires env.policy.Dedupe? && Unripe(env.depth, g.cut, g.tip) && item.position.key <= g.tip
    requires Honest(env, tag, item) && !Settles(g.cut, item.position.key) && Backfilling(tag, g, s, p)
    requires Synced(s) && s.position == g.seed && Agree(g, BackfillStep(env, g.cut, p, item))
    ensures Backfilling(tag, g, s, BackfillStep(env, g.cut, p, item))
  {
    hide Writable, Once, Synced, Advance, Contains, FlushMatured, Tagged, Unripe, SlotsWritable, OpenWritable;
    var w := p.window;
    if w.core.healthy && !Covered(w, item.position) && env.encode(item.event).Some? {
      TailUncovered(env, tag, g, s, p, item);
      var w1 := w.(core := w.core.(captured := true));
      SlotsCore(tag, p.store.log, w, w1.core);
      SlotPush(env, tag, p.store.log, w1, item);
      NotYetDue(env, g, BufferSeed(w1, item.position, env.encode(item.event).value), p.store);
    }
  }

  lemma SlotsCore(tag: Tag, log: seq<Group>, w: Window, core: Core)
    requires SlotsWritable(tag, log, w)
    ensures SlotsWritable(tag, log, w.(core := core))
  {
  }

  lemma {:induction false} BackfillOnce(env: Env, tag: Tag, g: Gap, s: StoreState, items: seq<Positioned>)
    requires env.policy.Dedupe? && Unripe(env.depth, g.cut, g.tip) && s.position == g.seed && Synced(s)
        && Once(tag, s.log)
    requires forall i | i in items :: i.position.key <= g.tip && Honest(env, tag, i)
    ensures Backfilling(tag, g, s, BackfillRun(env, g.cut, Open(g.cut, g.seed, s), items))
  {
    hide Once, Agree, Unripe;
    BackfillAgrees(env, g, s, items);
    if items != [] {
      var front, last := items[..|items| - 1], items[|items| - 1];
      assert last in items;
      BackfillOnce(env, tag, g, s, front);
      var p := BackfillRun(env, g.cut, Open(g.cut, g.seed, s), front);
      BackfillStepSynced(env, g.cut, p, last);
      if Settles(g.cut, last.position.key) {
        SettledStepOnce(env, tag, g, s, p, last);
      } else {
        TailStepOnce(env, tag, g, s, p, last);
      }
    }
  }

  /** The window from the boundary on. */
  ghost predicate Living(tag: Tag, cut: Option<nat>, p: Pipe) {
    && Synced(p.store) && Once(tag, p.store.log)
    && (p.window.core.healthy ==> WindowAgrees(cut, p.window, p.store) && SlotsWritable(tag, p.store.log, p.window))
  }

  lemma BoundaryOnce(env: Env, tag: Tag, g: Gap, s: StoreState, p: Pipe)
    requires Backfilling(tag, g, s, p)
    ensures Living(tag, g.cut, Boundary(env, p))
  {
    hide Tagged, Writable, Once, SlotsWritable, Synced, Advance;
    BoundaryAgrees(env, g, p);
    BoundarySynced(env, p);
    if p.settled.core.healthy && p.settled.current.Some? { CloseOnce(tag, g, s, p, env); }
    SlotsAbsorb(tag, Boundary(env, p).store.log, p.window, Boundary(env, p).settled.watermark);
  }

  lemma SlotsAbsorb(tag: Tag, log: seq<Group>, w: Window, settled: Option<Position>)
    ensures SlotsWritable(tag, log, Absorb(w, settled)) <==> SlotsWritable(tag, log, w)
  {
    assert Absorb(w, settled).pending == w.pending;
  }

  lemma {:induction false} FlushOnce(env: Env, tag: Tag, w: Window, s: StoreState)
    requires Once(tag, s.log) && SlotsWritable(tag, s.log, w) && (w.pending != map[] ==> w.core.captured)
    ensures var (w', s') := FlushMatured(env, w, s); Once(tag, s'.log) && SlotsWritable(tag, s'.log, w')
    decreases |w.pending|
  {
    hide Tagged, Unstored, Once, Writable;
    var due := Matured(env.depth, w);
    if due != {} {
      var b := Least(due);
      var group := GroupOf(w.pending[b]);
      var (core, s1, ok) := Flush(env, w.core, s, group);
      OncePush(tag, s.log, group);
      if ok {
        var w1 := FlushOne(w, b).(core := core);
        forall c | c in w1.pending
          ensures w1.pending[c].position.key == c && w1.pending[c].expected == []
              && Writable(tag, s1.log, w1.pending[c].position, w1.pending[c].rows)
        {
          WritableKeeps(tag, s.log, group, w.pending[c].position, w.pending[c].rows);
        }
        SmallerMap(w.pending, b);
        FlushOnce(env, tag, w1, s1);
      }
    }
  }

  lemma LiveUncovered(tag: Tag, cut: Option<nat>, p: Pipe, pos: Position)
    requires WindowAgrees(cut, p.window, p.store) && Synced(p.store) && !Covered(p.window, pos)
    requires exists id :: pos.seen == {id}
    ensures Unstored(p.store.log, pos.key, pos.seen)
  {
    hide Once;
    SeedCovers(Gap(cut, p.store.position, 0));
    UncoveredIsUnstored(p.store, p.window.watermark, pos);
  }

  lemma LiveStepOnce(env: Env, tag: Tag, cut: Option<nat>, p: Pipe, item: Indexed)
    requires env.policy.Dedupe? && (item.Emit? ==> Honest(env, tag, item.item)) && Living(tag, cut, p)
    requires Synced(LiveStep(env, p, item).store)
    ensures Living(tag, cut, LiveStep(env, p, item))
  {
    hide Synced, Once, SlotsWritable, FlushMatured, Advance, Contains, WindowAgrees, Buffer;
    if p.window.core.healthy {
      LiveStepAgrees(env, cut, p, item);
      if item.Emit? && env.encode(item.item.event).Some? && !Covered(p.window, item.item.position) {
        var w := p.window.(core := p.window.core.(captured := true));
        LiveUncovered(tag, cut, p, item.item.position);
        SlotsCore(tag, p.store.log, p.window, w.core);
        SlotPush(env, tag, p.store.log, w, item.item);
        BufferCaptured(env.policy, w, item.item.position, env.encode(item.item.event).value);
        FlushOnce(env, tag, Buffer(env.policy, w, item.item.position, env.encode(item.item.event).value).0, p.store);
      }
    }
  }

  lemma BufferCaptured(policy: Reobservation, w: Window, pos: Position, row: Row)
    ensures Buffer(policy, w, pos, row).0.core == w.core
  {
  }

  lemma {:induction false} LiveOnce(env: Env, tag: Tag, cut: Option<nat>, p: Pipe, items: seq<Indexed>)
    requires env.policy.Dedupe? && Living(tag, cut, p)
    requires forall i | i in items && i.Emit? :: Honest(env, tag, i.item)
    ensures Living(tag, cut, LiveRun(env, p, items))
  {
    if items != [] {
      hide Once, SlotsWritable, LiveStep, Synced, Honest;
      var front, last := items[..|items| - 1], items[|items| - 1];
      assert last in items;
      LiveOnce(env, tag, cut, p, front);
      assert Synced(p.store);
      LiveSynced(env, p, items);
      LiveStepOnce(env, tag, cut, LiveRun(env, p, front), last);
    }
  }

  /** One subscription of a frontier source: a backfill in any order, with any duplicates, then either a crash or a
      live run. */
  datatype Feed = Feed(gap: Gap, backfill: seq<Positioned>, crashed: bool, live: seq<Indexed>)

  ghost predicate Fair(env: Env, tag: Tag, f: Feed) {
    && Unripe(env.depth, f.gap.cut, f.gap.tip)
    && (forall i | i in f.backfill :: i.position.key <= f.gap.tip && Honest(env, tag, i))
    && (forall i | i in f.live && i.Emit? :: Honest(env, tag, i.item))
  }

  function Fed(env: Env, f: Feed, s: StoreState): StoreState {
    var g := f.gap.(seed := s.position);
    if f.crashed then BackfillRun(env, g.cut, Open(g.cut, g.seed, s), f.backfill).store
    else Run(env, g, s, f.backfill, f.live).store
  }

  function FedAll(env: Env, feeds: seq<Feed>, s: StoreState): StoreState {
    if feeds == [] then s else Fed(env, feeds[|feeds| - 1], FedAll(env, feeds[..|feeds| - 1], s))
  }

  lemma FeedOnce(env: Env, tag: Tag, f: Feed, s: StoreState)
    requires env.policy.Dedupe? && Fair(env, tag, f) && Synced(s) && Once(tag, s.log)
    ensures Synced(Fed(env, f, s)) && Once(tag, Fed(env, f, s).log)
  {
    hide Once, Synced, Honest, Unripe, BackfillRun, LiveRun, Boundary, Agree, SlotsWritable, OpenWritable;
    var g := f.gap.(seed := s.position);
    BackfillOnce(env, tag, g, s, f.backfill);
    if !f.crashed {
      var p := BackfillRun(env, g.cut, Open(g.cut, g.seed, s), f.backfill);
      BoundaryOnce(env, tag, g, s, p);
      LiveOnce(env, tag, g.cut, Boundary(env, p), f.live);
    }
  }

  /** No row at `key` shares its identity with another one. */
  lemma {:induction false} OnceAt(tag: Tag, log: seq<Group>, key: nat)
    requires Once(tag, log)
    ensures Distinct(tag, LogAt(log, key))
    ensures forall r | r in LogAt(log, key) ::
        exists g :: g in log && g.position.key == key && tag(r) in g.position.seen
  {
    if log != [] {
      var front, last := log[..|log| - 1], log[|log| - 1];
      assert log == front + [last];
      OnceFront(tag, front, last);
      OnceAt(tag, front, key);
      if last.position.key == key {
        var a := LogAt(front, key);
        forall r | r in a ensures tag(r) !in last.position.seen {
          var g :| g in front && g.position.key == key && tag(r) in g.position.seen;
          var i :| 0 <= i < |front| && front[i] == g;
          assert log[i] == g && log[|log| - 1] == last;
        }
      }
    }
  }

  lemma OnceFront(tag: Tag, front: seq<Group>, last: Group)
    requires Once(tag, front + [last])
    ensures Once(tag, front) && Tagged(tag, last.position.seen, last.rows)
  {
    var log := front + [last];
    assert log[|front|] == last && last in log;
    forall g | g in front ensures Tagged(tag, g.position.seen, g.rows) {
      assert g in log;
    }
    forall i, j | 0 <= i < j < |front| && front[i].position.key
        == front[j].position.key ensures front[i].position.seen !! front[j].position.seen {
      assert log[i] == front[i] && log[j] == front[j];
    }
  }

  /** Main theorem: over any history of subscriptions to an append-only source with one identity per event, whatever
      is delivered twice, out of order, around a crash or after a failed write, at every instant each identity has at
      most one row. */
  lemma {:induction false} AtMostOnce(env: Env, tag: Tag, feeds: seq<Feed>)
    requires env.policy.Dedupe? && forall i | 0 <= i < |feeds| :: Fair(env, tag, feeds[i])
    ensures var s := FedAll(env, feeds, StoreState([], None, 0));
      Synced(s) && Once(tag, s.log) && forall key: nat :: Distinct(tag, LogAt(s.log, key))
  {
    if feeds != [] {
      AtMostOnce(env, tag, feeds[..|feeds| - 1]);
      FeedOnce(env, tag, feeds[|feeds| - 1], FedAll(env, feeds[..|feeds| - 1], StoreState([], None, 0)));
    }
    forall key: nat ensures Distinct(tag, LogAt(FedAll(env, feeds, StoreState([], None, 0)).log, key)) {
      OnceAt(tag, FedAll(env, feeds, StoreState([], None, 0)).log, key);
    }
  }

  /** An event the live window suppresses is already stored, already buffered, or strictly below the watermark's
      instant. */
  lemma SuppressedIsKnown(env: Env, tag: Tag, cut: Option<nat>, p: Pipe, item: Positioned)
    requires env.policy.Dedupe? && Honest(env, tag, item) && Living(tag, cut, p) && p.window.core.healthy
    requires LiveStep(env, p, Emit(item)).out == p.out
    ensures LiveStep(env, p, Emit(item)).store == p.store
    ensures var id := (var i :| item.position.seen == {i}; i);
      || (p.window.watermark.Some? && item.position.key < p.window.watermark.value.key)
      || (exists g :: g in p.store.log && g.position.key == item.position.key && id in g.position.seen)
      || (item.position.key in p.window.pending && id in p.window.pending[item.position.key].position.seen)
  {
    hide Once, Writable, FlushMatured, Buffer, FoldPositions;
    var id :| item.position.seen == {id};
    NoLoss(env, p, item);
    assert id in item.position.seen;
    if p.window.watermark.Some? && item.position.key == p.window.watermark.value.key
        && id in p.window.watermark.value.seen {
      assert p.store.position.Some? && p.store.position.value.key == item.position.key
          && id in p.store.position.value.seen;
      FoldStored(p.store.log, id);
    }
  }

  /** The same for the settled writer. */
  lemma SettledSuppressedIsKnown(env: Env, tag: Tag, g: Gap, s: StoreState, p: Pipe, item: Positioned)
    requires env.policy.Dedupe? && Honest(env, tag, item) && Backfilling(tag, g, s, p) && p.settled.core.healthy
        && Settles(g.cut, item.position.key)
    requires BackfillStep(env, g.cut, p, item).out == p.out
    ensures BackfillStep(env, g.cut, p, item).store == p.store
    ensures var id := (var i :| item.position.seen == {i}; i);
      || (p.store.position.Some? && item.position.key < p.store.position.value.key)
      || (exists w :: w in p.store.log && w.position.key == item.position.key && id in w.position.seen)
      || (p.settled.current.Some? && p.settled.current.value.key == item.position.key
          && id in p.settled.current.value.seen)
  {
    hide Once, Writable, FoldPositions;
    var id :| item.position.seen == {id};
    assert id in item.position.seen;
    assert |p.out + [item.event]| > |p.out|;
    if p.settled.watermark.Some? && item.position.key == p.settled.watermark.value.key
        && id in p.settled.watermark.value.seen {
      FoldStored(p.store.log, id);
    }
  }

  lemma NoLoss(env: Env, p: Pipe, item: Positioned)
    requires env.policy.Dedupe? && p.window.core.healthy && LiveStep(env, p, Emit(item)).out == p.out
    requires forall b | b in p.window.pending :: p.window.pending[b].expected == []
    ensures Covered(p.window, item.position) && LiveStep(env, p, Emit(item)).store == p.store
  {
    hide FlushMatured;
  }
}
