/** The safety core and the confirmation window as functions on their state. */
module WindowSpec {
  import opened Base
  import opened Positions
  import opened Store

  datatype Positioned = Positioned(position: Position, event: Event)

  /** What a live stream carries. */
  datatype Indexed = Emit(item: Positioned) | Retraction(position: Position)

  /** Sticky health, and whether a schema has been captured by a first encode. */
  datatype Core = Core(healthy: bool, captured: bool)

  function Encode(env: Env, core: Core, ev: Event): (Core, Option<Row>) {
    match env.encode(ev)
    case Some(row) => (core.(captured := true), Some(row))
    case None => (core.(healthy := false), None)
  }

  /** Writes one group; without a captured schema there is nothing to write. */
  function Flush(env: Env, core: Core, s: StoreState, g: Group): (Core, StoreState, bool) {
    if !core.captured then (core, s, true)
    else
      var (s', ok) := Write(env.fails, s, g);
      (if ok then core else core.(healthy := false), s', ok)
  }

  /** One buffered group. `seeded`: still the backfill copy; `expected`: backfill rows the live feed has not repeated
      yet. */
  datatype Pending = Pending(position: Position, rows: seq<Row>, expected: seq<Row>, seeded: bool)

  datatype Window = Window(core: Core, pending: map<nat, Pending>, head: Option<nat>,
                           flushed: Option<nat>, watermark: Option<Position>)

  datatype Step = Step(window: Window, store: StoreState, delivered: bool)

  function Fresh(seed: Option<Position>): Window {
    Window(Core(true, false), map[], None, if seed.None? then None else Some(seed.value.key), seed)
  }

  function Halted(w: Window): Window {
    w.(core := w.core.(healthy := false), pending := map[])
  }

  /** Covered by stored history, or by the buffered group at the position's own key. */
  predicate Covered(w: Window, pos: Position) {
    || (w.watermark.Some? && Contains(w.watermark.value, pos))
    || (pos.key in w.pending && Contains(w.pending[pos.key].position, pos))
  }

  /** The backfill copy becomes the set live rows are checked against. */
  function Unseed(p: Pending): Pending {
    p.(rows := [], expected := p.rows, seeded := false)
  }

  /** Drops live groups at or above `key` and converts seeded ones. */
  function Rewind(pending: map<nat, Pending>, key: nat): map<nat, Pending> {
    map b | b in pending && (b < key || pending[b].seeded) ::
      if b < key then pending[b] else Unseed(pending[b])
  }

  predicate Matures(head: Option<nat>, depth: nat, b: nat) {
    head.Some? && head.value >= SatAdd(b, depth)
  }

  function Matured(depth: nat, w: Window): set<nat> {
    set b | b in w.pending && Matures(w.head, depth, b)
  }

  function FlushOne(w: Window, b: nat): Window
    requires b in w.pending
  {
    w.(pending := w.pending - {b},
       flushed := MaxOpt(w.flushed, b),
       watermark := Some(Advance(w.watermark, w.pending[b].position)))
  }

  function GroupOf(p: Pending): Group {
    Group(p.position, p.rows)
  }

  /** Flushes every group buried `depth` deep, lowest key first, until a write fails. */
  function FlushMatured(env: Env, w: Window, s: StoreState): (Window, StoreState)
    decreases |w.pending|
  {
    var due := Matured(env.depth, w);
    if due == {} then (w, s)
    else
      var b := Least(due);
      var (core, s', ok) := Flush(env, w.core, s, GroupOf(w.pending[b]));
      if !ok then (w.(core := core, pending := map[]), s')
      else
        assert |w.pending - {b}| < |w.pending| by { SmallerMap(w.pending, b); }
        FlushMatured(env, FlushOne(w, b).(core := core), s')
  }

  lemma SmallerMap<T>(m: map<nat, T>, b: nat)
    requires b in m
    ensures |m - {b}| < |m|
  {
    assert m.Keys == (m - {b}).Keys + {b};
  }

  function FirstIndex<T(==)>(rows: seq<T>, row: T): (i: nat)
    ensures i <= |rows|
    ensures i < |rows| ==> rows[i] == row
    ensures row in rows ==> i < |rows|
  {
    if rows == [] then 0 else if rows[0] == row then 0 else 1 + FirstIndex(rows[1..], row)
  }

  function SwapRemove<T>(rows: seq<T>, i: nat): seq<T>
    requires i < |rows|
  {
    rows[i := rows[|rows| - 1]][..|rows| - 1]
  }

  /** Adds a row to its group; the flag says whether it goes downstream. */
  function Fold(policy: Reobservation, pending: map<nat, Pending>, pos: Position, row: Row): (Pending, bool) {
    if pos.key !in pending then (Pending(pos, [row], [], false), true)
    else
      var prior := pending[pos.key];
      var p := if policy.Halt? && prior.seeded then Unseed(prior) else prior;
      var q := p.(position := Advance(Some(p.position), pos), rows := p.rows + [row]);
      var i := FirstIndex(p.expected, row);
      if i < |p.expected| then (q.(expected := SwapRemove(p.expected, i)), false)
      else (q, true)
  }

  /** A live row enters the window, after a rewind if it lies below the head. */
  function Buffer(policy: Reobservation, w: Window, pos: Position, row: Row): (Window, bool) {
    var forked := policy.Halt? && w.head.Some? && pos.key < w.head.value;
    var pending := if forked then Rewind(w.pending, pos.key) else w.pending;
    var head := if forked then Some(pos.key) else w.head;
    var (p, delivered) := Fold(policy, pending, pos, row);
    (w.(pending := pending[pos.key := p], head := MaxOpt(head, pos.key)), delivered)
  }

  /** `record`: one live event. */
  function Record(env: Env, w: Window, s: StoreState, pos: Position, ev: Event): Step {
    if !w.core.healthy then Step(w, s, true)
    else if env.policy.Dedupe? && Covered(w, pos) then Step(w, s, false)
    else if env.policy.Halt? && !Above(w.flushed, pos.key) then Step(Halted(w), s, true)
    else
      var (core, row) := Encode(env, w.core, ev);
      if row.None? then Step(Halted(w), s, true)
      else
        var (buffered, delivered) := Buffer(env.policy, w.(core := core), pos, row.value);
        var (w', s') := FlushMatured(env, buffered, s);
        Step(w', s', delivered)
  }

  function BufferSeed(w: Window, pos: Position, row: Row): Window {
    var p := if pos.key in w.pending then
               var prior := w.pending[pos.key];
               prior.(position := Advance(Some(prior.position), pos), rows := prior.rows + [row])
             else Pending(pos, [row], [], true);
    w.(pending := w.pending[pos.key := p], head := MaxOpt(w.head, pos.key))
  }

  /** `record_seeded`: one backfill-tail event. */
  function RecordSeeded(env: Env, w: Window, s: StoreState, pos: Position, ev: Event): Step {
    if !w.core.healthy then Step(w, s, true)
    else if env.policy.Dedupe? && Covered(w, pos) then Step(w, s, false)
    else if env.policy.Halt? && w.head.Some? && pos.key < w.head.value then Step(Halted(w), s, true)
    else
      var (core, row) := Encode(env, w.core, ev);
      if row.None? then Step(Halted(w), s, true)
      else
        var (w', s') := FlushMatured(env, BufferSeed(w.(core := core), pos, row.value), s);
        Step(w', s', true)
  }

  /** `retract`: events at the position and above no longer happened. */
  function Retract(env: Env, w: Window, pos: Position): Window {
    if !w.core.healthy || env.policy.Dedupe? then w
    else if !Above(w.flushed, pos.key) then Halted(w)
    else w.(pending := Rewind(w.pending, pos.key),
            head := if w.head.None? then None else Some(Min(w.head.value, SatSub(pos.key, 1))))
  }

  /** `absorb`: folds the settled writer's watermark in. */
  function Absorb(w: Window, settled: Option<Position>): Window {
    match settled
    case None => w
    case Some(p) => w.(flushed := MaxOpt(w.flushed, p.key), watermark := Some(Advance(w.watermark, p)))
  }
}
