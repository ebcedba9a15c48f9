/** The two writers as the mutable objects they are, each method proved against the state functions of
    `WindowSpec` and `Pipeline`; everything proved about those functions is therefore proved about these objects. */
module Writers {
  import opened Base
  import opened Positions
  import opened Store
  import opened WindowSpec
  import opened Pipeline

  /** The safety core: a sticky health flag, and a schema captured by the first encode. */
  class GapFreeWriter {
    const env: Env
    const store: SharedStore
    var healthy: bool
    var captured: bool

    constructor (env: Env, store: SharedStore)
      ensures this.env == env && this.store == store && View() == Core(true, false)
    {
      this.env, this.store, healthy, captured := env, store, true, false;
    }

    function View(): Core
      reads this
    {
      Core(healthy, captured)
    }

    ghost predicate Valid() {
      store.fails == env.fails
    }

    method Encode(ev: Event) returns (row: Option<Row>)
      modifies this
      ensures (View(), row) == WindowSpec.Encode(env, old(View()), ev)
    {
      row := env.encode(ev);
      if row.Some? {
        captured := true;
      } else {
        healthy := false;
      }
    }

    method Flush(g: Group) returns (ok: bool)
      requires Valid()
      modifies this, store
      ensures (View(), store.View(), ok) == WindowSpec.Flush(env, old(View()), old(store.View()), g)
    {
      if !captured {
        return true;
      }
      ok := store.TryWrite(g);
      if !ok {
        healthy := false;
      }
    }

    method Fail()
      modifies this
      ensures View() == old(View()).(healthy := false)
    {
      healthy := false;
    }
  }

  /** The buffer once the keys in `keys` have been visited by the rewind. */
  ghost function Converted(was: map<nat, Pending>, keys: seq<nat>): map<nat, Pending> {
    map b | b in was :: if b in keys && was[b].seeded then Unseed(was[b]) else was[b]
  }

  lemma NoneConverted(was: map<nat, Pending>)
    ensures Converted(was, []) == was
  {
  }

  lemma ConvertNext(was: map<nat, Pending>, keys: seq<nat>, i: nat)
    requires i < |keys| && keys[i] in was && forall x, y | 0 <= x < y < |keys| :: keys[x] < keys[y]
    ensures keys[i] !in keys[..i] && keys[..i + 1] == keys[..i] + [keys[i]]
    ensures var c, b := Converted(was, keys[..i]), keys[i];
      && b in c && c[b] == was[b]
      && Converted(was, keys[..i + 1]) == if was[b].seeded then c[b := Unseed(was[b])] else c
  {
    assert keys[..i + 1] == keys[..i] + [keys[i]];
  }

  lemma ConvertedIsRewind(was: map<nat, Pending>, key: nat, touched: seq<nat>, dropped: seq<nat>)
    requires forall b :: b in touched <==> b in was && key <= b
    requires forall b :: b in dropped <==> b in touched && b in was && !was[b].seeded
    ensures Converted(was, touched) - (set b | b in dropped) == Rewind(was, key)
  {
  }

  /** The flush loop's next step: the lowest matured key, and what is matured after it. */
  lemma FlushNext(env: Env, w: Window, s: StoreState, keys: seq<nat>)
    requires keys != [] && (forall x, y | 0 <= x < y < |keys| :: keys[x] < keys[y])
    requires forall b :: b in Matured(env.depth, w) <==> b in keys
    ensures var b := keys[0];
      && b in w.pending
      && var (core, s', ok) := Flush(env, w.core, s, GroupOf(w.pending[b]));
         var w' := FlushOne(w, b).(core := core);
      && (forall k :: k in Matured(env.depth, w') <==> k in keys[1..])
      && WindowSpec.FlushMatured(env, w, s) == if ok then WindowSpec.FlushMatured(env, w', s')
          else (w.(core := core, pending := map[]), s')
  {
    hide Matures, WindowSpec.FlushMatured;
    var b := keys[0];
    assert b in keys && b == Least(Matured(env.depth, w));
    FlushUnfolds(env, w, s);
    forall k | k in keys ensures k == b || k in keys[1..] {
      var n :| 0 <= n < |keys| && keys[n] == k;
      assert n > 0 ==> keys[1..][n - 1] == k;
    }
    forall k | k in keys[1..] ensures k in keys && k != b {
      var n :| 0 <= n < |keys| - 1 && keys[1..][n] == k;
      assert keys[n + 1] == k;
    }
  }

  lemma HeadlessMaturesNothing(env: Env, w: Window)
    requires w.head.None?
    ensures Matured(env.depth, w) == {}
  {
  }

  lemma NothingMatured(env: Env, w: Window, s: StoreState)
    requires forall b :: b !in Matured(env.depth, w)
    ensures WindowSpec.FlushMatured(env, w, s) == (w, s)
  {
    assert Matured(env.depth, w) == {};
  }

  lemma FlushUnfolds(env: Env, w: Window, s: StoreState)
    requires Matured(env.depth, w) != {}
    ensures var b := Least(Matured(env.depth, w));
      && var (core, s', ok) := Flush(env, w.core, s, GroupOf(w.pending[b]));
      WindowSpec.FlushMatured(env, w, s) ==
        if ok then WindowSpec.FlushMatured(env, FlushOne(w, b).(core := core), s')
            else (w.(core := core, pending := map[]), s')
  {
  }

  /** The live tail's buffer. */
  class ConfirmationWindow {
    const core: GapFreeWriter
    var pending: map<nat, Pending>
    var head: Option<nat>
    var flushed: Option<nat>
    var watermark: Option<Position>

    constructor (env: Env, store: SharedStore, seed: Option<Position>)
      requires store.fails == env.fails
      ensures Valid() && fresh(core) && core.env == env && core.store == store
      ensures View() == Fresh(seed)
    {
      core := new GapFreeWriter(env, store);
      pending, head := map[], None;
      flushed := if seed.None? then None else Some(seed.value.key);
      watermark := seed;
    }

    function View(): Window
      reads this, core
    {
      Window(core.View(), pending, head, flushed, watermark)
    }

    ghost predicate Valid() {
      core.Valid()
    }

    method Halt()
      modifies this, core
      ensures View() == Halted(old(View()))
    {
      core.Fail();
      pending := map[];
    }

    /** Converts the seeded groups at or above `key` and drops the live-origin ones. */
    method RewindTo(key: nat)
      modifies this`pending
      ensures pending == Rewind(old(pending), key)
    {
      hide Rewind, Converted;
      ghost var was := pending;
      var touched := Ascending(set b | b in pending && key <= b);
      var dropped: seq<nat> := [];
      NoneConverted(was);
      for i := 0 to |touched|
        invariant pending == Converted(was, touched[..i])
        invariant forall b :: b in dropped <==> b in touched[..i] && b in was && !was[b].seeded
      {
        var b := touched[i];
        assert b in touched;
        ConvertNext(was, touched, i);
        if pending[b].seeded {
          pending := pending[b := Unseed(pending[b])];
        } else {
          dropped := dropped + [b];
        }
      }
      ghost var converted := pending;
      for i := 0 to |dropped|
        invariant pending == converted - (set b | b in dropped[..i])
      {
        pending := pending - {dropped[i]};
        assert dropped[..i + 1] == dropped[..i] + [dropped[i]];
      }
      assert touched[..|touched|] == touched && dropped[..|dropped|] == dropped;
      ConvertedIsRewind(was, key, touched, dropped);
    }

    /** Writes every group buried `depth` deep, lowest key first; a failed write drops the rest. */
    method FlushMatured()
      requires Valid()
      modifies this, core, core.store
      ensures (View(), core.store.View()) == WindowSpec.FlushMatured(core.env, old(View()), old(core.store.View()))
    {
      hide WindowSpec.FlushMatured, Matured, Advance;
      ghost var goal := WindowSpec.FlushMatured(core.env, View(), core.store.View());
      if head.None? {
        HeadlessMaturesNothing(core.env, View());
        NothingMatured(core.env, View(), core.store.View());
        return;
      }
      var matured := Ascending(Matured(core.env.depth, View()));
      for i := 0 to |matured|
        invariant head.Some?
        invariant WindowSpec.FlushMatured(core.env, View(), core.store.View()) == goal
        invariant forall b :: b in Matured(core.env.depth, View()) <==> b in matured[i..]
      {
        var b := matured[i];
        FlushNext(core.env, View(), core.store.View(), matured[i..]);
        assert matured[i..][1..] == matured[i + 1..];
        var group := GroupOf(pending[b]);
        pending := pending - {b};
        var ok := core.Flush(group);
        if !ok {
          pending := map[];
          return;
        }
        flushed := MaxOpt(flushed, b);
        watermark := Some(Advance(watermark, group.position));
      }
      NothingMatured(core.env, View(), core.store.View());
    }

    /** Adds a row to its group, rebuilding a seeded group from the live feed. */
    method FoldIn(position: Position, row: Row) returns (delivered: bool)
      modifies this`pending
      ensures var (p, d) := Fold(core.env.policy, old(pending), position, row);
        pending == old(pending)[position.key := p] && delivered == d
    {
      var key := position.key;
      if key !in pending {
        pending := pending[key := Pending(position, [row], [], false)];
        return true;
      }
      var group := pending[key];
      if core.env.policy.Halt? && group.seeded {
        group := Unseed(group);
      }
      group := group.(position := Advance(Some(group.position), position));
      var i := FirstIndex(group.expected, row);
      delivered := i == |group.expected|;
      if !delivered {
        group := group.(expected := SwapRemove(group.expected, i));
      }
      pending := pending[key := group.(rows := group.rows + [row])];
    }

    method Record(position: Position, ev: Event) returns (delivered: bool)
      requires Valid()
      modifies this, core, core.store
      ensures Step(View(), core.store.View(), delivered)
           == WindowSpec.Record(core.env, old(View()), old(core.store.View()), position, ev)
    {
      var env, key := core.env, position.key;
      if !core.healthy {
        return true;
      }
      if env.policy.Dedupe? && Covered(View(), position) {
        return false;
      }
      if env.policy.Halt? && flushed.Some? && key <= flushed.value {
        Halt();
        return true;
      }
      var row := core.Encode(ev);
      if row.None? {
        pending := map[];
        return true;
      }
      if env.policy.Halt? && head.Some? && key < head.value {
        RewindTo(key);
        head := Some(key);
      }
      delivered := FoldIn(position, row.value);
      head := MaxOpt(head, key);
      FlushMatured();
    }

    method RecordSeeded(position: Position, ev: Event) returns (delivered: bool)
      requires Valid()
      modifies this, core, core.store
      ensures Step(View(), core.store.View(), delivered)
           == WindowSpec.RecordSeeded(core.env, old(View()), old(core.store.View()), position, ev)
    {
      var env, key := core.env, position.key;
      if !core.healthy {
        return true;
      }
      if env.policy.Dedupe? && Covered(View(), position) {
        return false;
      }
      if env.policy.Halt? && head.Some? && key < head.value {
        Halt();
        return true;
      }
      var row := core.Encode(ev);
      if row.None? {
        pending := map[];
        return true;
      }
      if key !in pending {
        pending := pending[key := Pending(position, [row.value], [], true)];
      } else {
        var group := pending[key];
        pending := pending[key := group.(position := Advance(Some(group.position), position),
            rows := group.rows + [row.value])];
      }
      head := MaxOpt(head, key);
      FlushMatured();
      return true;
    }

    method Retract(position: Position)
      modifies this, core
      ensures View() == WindowSpec.Retract(core.env, old(View()), position)
    {
      if !core.healthy || core.env.policy.Dedupe? {
        return;
      }
      var key := position.key;
      if flushed.Some? && key <= flushed.value {
        Halt();
        return;
      }
      RewindTo(key);
      head := if head.None? then None else Some(Min(head.value, SatSub(key, 1)));
    }

    method Absorb(settled: Option<Position>)
      modifies this
      ensures View() == WindowSpec.Absorb(old(View()), settled)
    {
      if settled.Some? {
        flushed := MaxOpt(flushed, settled.value.key);
        watermark := Some(Advance(watermark, settled.value));
      }
    }
  }

  /** The settled (finite backfill) writer: one open group at a time. */
  class BlockWriter {
    const core: GapFreeWriter
    var buffer: seq<Row>
    var current: Option<Position>
    var watermark: Option<Position>

    constructor (env: Env, store: SharedStore, seed: Option<Position>)
      requires store.fails == env.fails
      ensures Valid() && fresh(core) && core.env == env && core.store == store
      ensures View() == Opened(seed)
    {
      core := new GapFreeWriter(env, store);
      buffer, current, watermark := [], None, seed;
    }

    function View(): Settled
      reads this, core
    {
      Settled(core.View(), buffer, current, watermark)
    }

    ghost predicate Valid() {
      core.Valid()
    }

    method Record(position: Position, ev: Event) returns (delivered: bool)
      requires Valid()
      modifies this, core, core.store
      ensures SettledStep(View(), core.store.View(), delivered)
           == SettledRecord(core.env, old(View()), old(core.store.View()), position, ev)
    {
      if !core.healthy {
        return true;
      }
      if core.env.policy.Dedupe? && SettledCovers(View(), position) {
        return false;
      }
      var row := core.Encode(ev);
      if row.None? {
        buffer := [];
        return true;
      }
      if current.Some? {
        var cur := current.value;
        if position.key < cur.key {
          core.Fail();
          buffer := [];
          return true;
        }
        if position.key > cur.key {
          current := None;
          var rows := buffer;
          buffer := [];
          var ok := core.Flush(Group(cur, rows));
          if !ok {
            return true;
          }
          watermark := Some(Advance(watermark, cur));
        }
      }
      current := Some(Advance(current, position));
      buffer := buffer + [row.value];
      return true;
    }

    /** Writes the trailing group. */
    method Finish()
      requires Valid()
      modifies this, core, core.store
      ensures (View(), core.store.View()) == Pipeline.Finish(core.env, old(View()), old(core.store.View()))
    {
      if core.healthy && current.Some? {
        var cur, rows := current.value, buffer;
        current, buffer := None, [];
        var ok := core.Flush(Group(cur, rows));
        if ok {
          watermark := Some(Advance(watermark, cur));
        }
      }
    }
  }

  lemma BackfillNext(env: Env, cut: Option<nat>, p: Pipe, items: seq<Positioned>, i: nat)
    requires i < |items|
    ensures BackfillRun(env, cut, p, items[..i + 1])
        == BackfillStep(env, cut, BackfillRun(env, cut, p, items[..i]), items[i])
  {
    assert items[..i + 1][..i] == items[..i];
  }

  lemma LiveNext(env: Env, p: Pipe, items: seq<Indexed>, i: nat)
    requires i < |items|
    ensures LiveRun(env, p, items[..i + 1]) == LiveStep(env, LiveRun(env, p, items[..i]), items[i])
  {
    assert items[..i + 1][..i] == items[..i];
  }

  lemma RunsStart(env: Env, cut: Option<nat>, p: Pipe)
    ensures BackfillRun(env, cut, p, []) == p && LiveRun(env, p, []) == p
  {
  }

  /** One whole session: the backfill through both writers, the boundary, then the live items. */
  method PersistAndEmit(backfill: seq<Positioned>, live: seq<Indexed>, env: Env, store: SharedStore,
                        cut: Option<nat>, seed: Option<Position>) returns (settled: BlockWriter,
                            window: ConfirmationWindow, out: seq<Event>)
    requires store.fails == env.fails
    modifies store
    ensures fresh(settled) && fresh(settled.core) && fresh(window) && fresh(window.core)
    ensures Pipe(settled.View(), window.View(), store.View(), out)
         == LiveRun(env, Boundary(env, BackfillRun(env, cut, Open(cut, seed, old(store.View())), backfill)), live)
  {
    settled := new BlockWriter(env, store, seed);
    window := new ConfirmationWindow(env, store, WindowSeed(cut, seed));
    out := [];
    hide BackfillRun, LiveRun, WindowSpec.Record, SettledRecord, WindowSpec.RecordSeeded, WindowSpec.Retract,
        Pipeline.Finish, WindowSpec.Absorb;
    ghost var begun := Open(cut, seed, store.View());
    RunsStart(env, cut, begun);
    for i := 0 to |backfill|
      invariant settled.Valid() && window.Valid() && settled.core != window.core
      invariant Pipe(settled.View(), window.View(), store.View(), out) == BackfillRun(env, cut, begun, backfill[..i])
    {
      BackfillNext(env, cut, begun, backfill, i);
      var position, event := backfill[i].position, backfill[i].event;
      var delivered;
      if cut.Some? && position.key <= cut.value {
        delivered := settled.Record(position, event);
      } else {
        delivered := window.RecordSeeded(position, event);
      }
      if delivered {
        out := out + [event];
      }
    }
    assert backfill[..|backfill|] == backfill;
    settled.Finish();
    if settled.core.healthy {
      window.Absorb(settled.watermark);
    } else {
      window.Halt();
    }
    ghost var joined := Boundary(env, BackfillRun(env, cut, begun, backfill));
    RunsStart(env, cut, joined);
    for i := 0 to |live|
      invariant Pipe(settled.View(), window.View(), store.View(), out) == LiveRun(env, joined, live[..i])
    {
      LiveNext(env, joined, live, i);
      match live[i] {
        case Emit(item) =>
          var delivered := window.Record(item.position, item.event);
          if delivered {
            out := out + [item.event];
          }
        case Retraction(position) => window.Retract(position);
      }
    }
    assert live[..|live|] == live;
  }
}
