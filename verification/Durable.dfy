/** The durable position is always the fold of what the log holds. */
module Durable {
  import opened Base
  import opened Positions
  import opened Store
  import opened WindowSpec
  import opened Chain
  import opened Pipeline

  function FoldPositions(log: seq<Group>): Option<Position> {
    if log == [] then None else Some(Advance(FoldPositions(log[..|log| - 1]), log[|log| - 1].position))
  }

  ghost predicate Synced(s: StoreState) {
    s.position == FoldPositions(s.log)
  }

  lemma WriteSynced(fails: nat -> bool, s: StoreState, g: Group)
    requires Synced(s)
    ensures Synced(Write(fails, s, g).0)
  {
    assert (s.log + [g])[..|s.log|] == s.log;
  }

  lemma {:induction false} FlushSynced(env: Env, w: Window, s: StoreState)
    requires Synced(s)
    ensures Synced(FlushMatured(env, w, s).1)
    decreases |w.pending|
  {
    var due := Matured(env.depth, w);
    if due != {} {
      var b := Least(due);
      var g := GroupOf(w.pending[b]);
      var (core, s', ok) := Flush(env, w.core, s, g);
      WriteSynced(env.fails, s, g);
      if ok {
        SmallerMap(w.pending, b);
        FlushSynced(env, FlushOne(w, b).(core := core), s');
      }
    }
  }

  lemma SettledRecordSynced(env: Env, b: Settled, s: StoreState, pos: Position, ev: Event)
    requires Synced(s)
    ensures Synced(SettledRecord(env, b, s, pos, ev).store)
  {
    hide Synced, FoldPositions;
    if b.current.Some? { WriteSynced(env.fails, s, Group(b.current.value, b.buffer)); }
  }

  lemma RecordSeededSynced(env: Env, w: Window, s: StoreState, pos: Position, ev: Event)
    requires Synced(s)
    ensures Synced(RecordSeeded(env, w, s, pos, ev).store)
  {
    hide Synced, FlushMatured;
    if env.encode(ev).Some? {
      FlushSynced(env, BufferSeed(w.(core := w.core.(captured := true)), pos, env.encode(ev).value), s);
    }
  }

  lemma BackfillStepSynced(env: Env, cut: Option<nat>, p: Pipe, item: Positioned)
    requires Synced(p.store)
    ensures Synced(BackfillStep(env, cut, p, item).store)
  {
    hide Synced, SettledRecord, RecordSeeded;
    SettledRecordSynced(env, p.settled, p.store, item.position, item.event);
    RecordSeededSynced(env, p.window, p.store, item.position, item.event);
  }

  lemma {:induction false} BackfillSynced(env: Env, cut: Option<nat>, p: Pipe, items: seq<Positioned>)
    requires Synced(p.store)
    ensures Synced(BackfillRun(env, cut, p, items).store)
  {
    if items != [] {
      BackfillSynced(env, cut, p, items[..|items| - 1]);
      BackfillStepSynced(env, cut, BackfillRun(env, cut, p, items[..|items| - 1]), items[|items| - 1]);
    }
  }

  lemma BoundarySynced(env: Env, p: Pipe)
    requires Synced(p.store)
    ensures Synced(Boundary(env, p).store)
  {
    if p.settled.current.Some? { WriteSynced(env.fails, p.store, Group(p.settled.current.value, p.settled.buffer)); }
  }

  lemma {:induction false} LiveSynced(env: Env, p: Pipe, items: seq<Indexed>)
    requires Synced(p.store)
    ensures Synced(LiveRun(env, p, items).store)
  {
    if items != [] {
      var q, last := LiveRun(env, p, items[..|items| - 1]), items[|items| - 1];
      LiveSynced(env, p, items[..|items| - 1]);
      if last.Emit? && env.encode(last.item.event).Some? {
        FlushSynced(env, Buffer(env.policy, q.window.(core := q.window.core.(captured := true)), last.item.position,
            env.encode(last.item.event).value).0, q.store);
      }
    }
  }

  /** On a strictly increasing block log the durable position is the last key written. */
  lemma {:induction false} FoldIsLast(log: seq<Group>)
    requires Increasing(log) && forall g | g in log :: g.position.seen == {}
    ensures FoldPositions(log) == if log == [] then None else Some(log[|log| - 1].position)
  {
    if log != [] {
      FoldIsLast(log[..|log| - 1]);
    }
  }
}
