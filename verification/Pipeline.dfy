/** The settled writer, and the pipeline that runs it and the window over one shared store. */
module Pipeline {
  import opened Base
  import opened Positions
  import opened Store
  import opened WindowSpec

  /** The settled writer: at most one open group. */
  datatype Settled = Settled(core: Core, buffer: seq<Row>, current: Option<Position>, watermark: Option<Position>)

  datatype SettledStep = SettledStep(settled: Settled, store: StoreState, delivered: bool)

  function Opened(seed: Option<Position>): Settled {
    Settled(Core(true, false), [], None, seed)
  }

  predicate SettledCovers(b: Settled, pos: Position) {
    || (b.watermark.Some? && Contains(b.watermark.value, pos))
    || (b.current.Some? && b.current.value.key == pos.key && Contains(b.current.value, pos))
  }

  function Append(b: Settled, pos: Position, row: Row): Settled {
    b.(current := Some(Advance(b.current, pos)), buffer := b.buffer + [row])
  }

  function Close(b: Settled): Settled
    requires b.current.Some?
  {
    b.(buffer := [], current := None, watermark := Some(Advance(b.watermark, b.current.value)))
  }

  /** One settled event: completes the open group when the key advances, halts when it goes back. */
  function SettledRecord(env: Env, b: Settled, s: StoreState, pos: Position, ev: Event): SettledStep {
    if !b.core.healthy then SettledStep(b, s, true)
    else if env.policy.Dedupe? && SettledCovers(b, pos) then SettledStep(b, s, false)
    else
      var (core, row) := Encode(env, b.core, ev);
      if row.None? then SettledStep(b.(core := core, buffer := []), s, true)
      else
        var b1 := b.(core := core);
        if b1.current.Some? && pos.key < b1.current.value.key then
          SettledStep(b1.(core := core.(healthy := false), buffer := []), s, true)
        else if b1.current.Some? && pos.key > b1.current.value.key then
          var (core', s', ok) := Flush(env, core, s, Group(b1.current.value, b1.buffer));
          if !ok then SettledStep(b1.(core := core', buffer := [], current := None), s', true)
          else SettledStep(Append(Close(b1).(core := core'), pos, row.value), s', true)
        else SettledStep(Append(b1, pos, row.value), s, true)
  }

  /** Writes the trailing group. */
  function Finish(env: Env, b: Settled, s: StoreState): (Settled, StoreState) {
    if !b.core.healthy || b.current.None? then (b, s)
    else
      var (core, s', ok) := Flush(env, b.core, s, Group(b.current.value, b.buffer));
      if !ok then (b.(core := core, buffer := [], current := None), s')
      else (Close(b).(core := core), s')
  }

  /** Both writers, the store they share, and what went downstream. */
  datatype Pipe = Pipe(settled: Settled, window: Window, store: StoreState, out: seq<Event>)

  /** The window's watermark starts at the cut, or at the stored position where nothing settles. */
  function WindowSeed(cut: Option<nat>, seed: Option<Position>): Option<Position> {
    match cut
    case Some(c) => Some(Advance(seed, FromSortKey(c)))
    case None => seed
  }

  function Open(cut: Option<nat>, seed: Option<Position>, s: StoreState): Pipe {
    Pipe(Opened(seed), Fresh(WindowSeed(cut, seed)), s, [])
  }

  function Deliver(out: seq<Event>, delivered: bool, ev: Event): seq<Event> {
    if delivered then out + [ev] else out
  }

  /** Positions at or below the cut settle; the others are seeded into the window. */
  function BackfillStep(env: Env, cut: Option<nat>, p: Pipe, item: Positioned): Pipe {
    if cut.Some? && item.position.key <= cut.value then
      var r := SettledRecord(env, p.settled, p.store, item.position, item.event);
      Pipe(r.settled, p.window, r.store, Deliver(p.out, r.delivered, item.event))
    else
      var r := RecordSeeded(env, p.window, p.store, item.position, item.event);
      Pipe(p.settled, r.window, r.store, Deliver(p.out, r.delivered, item.event))
  }

  function BackfillRun(env: Env, cut: Option<nat>, p: Pipe, items: seq<Positioned>): Pipe {
    if items == [] then p
    else BackfillStep(env, cut, BackfillRun(env, cut, p, items[..|items| - 1]), items[|items| - 1])
  }

  /** Between backfill and live tail. */
  function Boundary(env: Env, p: Pipe): Pipe {
    var (settled, s) := Finish(env, p.settled, p.store);
    p.(settled := settled, store := s,
       window := if settled.core.healthy then Absorb(p.window, settled.watermark) else Halted(p.window))
  }

  function LiveStep(env: Env, p: Pipe, item: Indexed): Pipe {
    match item
    case Emit(Positioned(pos, ev)) =>
      var r := Record(env, p.window, p.store, pos, ev);
      p.(window := r.window, store := r.store, out := Deliver(p.out, r.delivered, ev))
    case Retraction(pos) => p.(window := Retract(env, p.window, pos))
  }

  function LiveRun(env: Env, p: Pipe, items: seq<Indexed>): Pipe {
    if items == [] then p
    else LiveStep(env, LiveRun(env, p, items[..|items| - 1]), items[|items| - 1])
  }
}
