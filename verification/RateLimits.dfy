/** The sliding-window rate limit, over whole histories of submissions. Instants are nanoseconds. */
module RateLimits {
  import opened Base

  const WINDOW: nat := 1_000_000_000

  /** When a call arriving at `arrival` may be submitted, from the full history; the sleep overshoots by `late`. */
  function Next(perSecond: nat, history: seq<nat>, arrival: nat, late: nat): nat
    requires perSecond >= 1
  {
    Max(arrival, if |history| < perSecond then 0 else history[|history| - perSecond] + WINDOW) + late
  }

  ghost predicate Chronological(ts: seq<nat>) {
    forall i, j | 0 <= i <= j < |ts| :: ts[i] <= ts[j]
  }

  /** Submissions `perSecond` apart are at least a second apart. */
  ghost predicate Spaced(perSecond: nat, ts: seq<nat>) {
    forall i, j | 0 <= i && j == i + perSecond < |ts| :: ts[i] + 1_000_000_000 <= ts[j]
  }

  function Latest(history: seq<nat>): nat {
    if history == [] then 0 else history[|history| - 1]
  }

  /** A submission at or after `Next` keeps the history chronological and spaced. */
  lemma SubmissionKeeps(perSecond: nat, history: seq<nat>, arrival: nat, late: nat)
    requires perSecond >= 1 && Chronological(history) && Spaced(perSecond, history) && Latest(history) <= arrival
    ensures var ts := history + [Next(perSecond, history, arrival, late)]; Chronological(ts) && Spaced(perSecond, ts)
  {
    var n, ts := |history|, history + [Next(perSecond, history, arrival, late)];
    forall i, j | 0 <= i <= j < |ts| ensures ts[i] <= ts[j] {
      if j == n && i < n { assert history[i] <= history[n - 1]; }
    }
    forall i, j | 0 <= i && j == i + perSecond < |ts| ensures ts[i] + WINDOW <= ts[j] {
      if j < n { assert history[i] + WINDOW <= history[j]; }
    }
  }

  /** Spacing bounds what any one window can hold. */
  lemma SpacingCaps(perSecond: nat, ts: seq<nat>)
    requires Chronological(ts) && Spaced(perSecond, ts)
    ensures forall i, j | 0 <= i <= j < |ts| && ts[j] < ts[i] + 1_000_000_000 :: j - i < perSecond
  {
    forall i, j | 0 <= i <= j < |ts| && j - i >= perSecond ensures ts[i] + WINDOW <= ts[j] {
      assert ts[i] + WINDOW <= ts[i + perSecond] <= ts[j];
    }
  }

  /** The deque is a suffix of the history, and whatever left it had left the window by `now`. */
  ghost predicate Pruned(sent: seq<nat>, history: seq<nat>, now: nat) {
    && |sent| <= |history| && sent == history[|history| - |sent|..]
    && forall i | 0 <= i < |history| - |sent| :: history[i] + WINDOW <= now
  }

  lemma PrunedWaits(perSecond: nat, sent: seq<nat>, history: seq<nat>, arrival: nat)
    requires 1 <= perSecond && |sent| <= perSecond && Pruned(sent, history, Latest(history))
        && Latest(history) <= arrival
    ensures Next(perSecond, history, arrival, 0)
         == if |sent| >= perSecond then Max(arrival, sent[|sent| - perSecond] + WINDOW) else arrival
  {
    if |sent| < perSecond <= |history| { assert history[|history| - perSecond] + WINDOW <= Latest(history); }
  }

  lemma PrunedLater(sent: seq<nat>, history: seq<nat>, earlier: nat, now: nat)
    requires Pruned(sent, history, earlier) && earlier <= now
    ensures Pruned(sent, history, now)
  {
  }

  lemma PruneOne(sent: seq<nat>, history: seq<nat>, now: nat)
    requires Pruned(sent, history, now) && sent != [] && sent[0] + WINDOW <= now
    ensures Pruned(sent[1..], history, now)
  {
    assert history[|history| - |sent|] == sent[0];
  }

  lemma PrunedPush(sent: seq<nat>, history: seq<nat>, now: nat)
    requires Pruned(sent, history, now)
    ensures Pruned(sent + [now], history + [now], now)
  {
  }

  class RateLimit {
    const perSecond: nat
    var sent: seq<nat>
    ghost var history: seq<nat>

    constructor (perSecond: nat)
      requires perSecond >= 1
      ensures Valid() && this.perSecond == perSecond && history == []
    {
      this.perSecond := perSecond;
      sent, history := [], [];
    }

    ghost predicate Valid()
      reads this
    {
      && perSecond >= 1 && |sent| <= perSecond
      && Chronological(history) && Spaced(perSecond, history)
      && Pruned(sent, history, Latest(history))
    }

    /** Submits at the earliest instant the whole history allows (plus any overshoot), though only a pruned deque is
        kept. */
    method Execute(arrival: nat, late: nat) returns (now: nat)
      requires Valid() && Latest(history) <= arrival
      modifies this
      ensures Valid()
      ensures now == Next(perSecond, old(history), arrival, late)
      ensures history == old(history) + [now]
    {
      hide Chronological, Spaced, Pruned;
      now := arrival;
      ghost var before := sent;
      PrunedWaits(perSecond, sent, history, arrival);
      if |sent| >= perSecond {
        var oldest := sent[|sent| - perSecond];
        now := Max(now, oldest + WINDOW);
      }
      now := now + late;
      SubmissionKeeps(perSecond, history, arrival, late);
      PrunedLater(sent, history, Latest(history), now);
      while sent != [] && sent[0] + WINDOW <= now
        invariant history == old(history) && Pruned(sent, history, now)
        invariant |sent| <= |before| && (|sent| == |before| ==> sent == before)
        decreases |sent|
      {
        PruneOne(sent, history, now);
        sent := sent[1..];
      }
      assert |sent| < perSecond;
      PrunedPush(sent, history, now);
      sent := sent + [now];
      history := history + [now];
    }
  }

  /** All submissions of a run: call `i` is ready at `ready[i]` and cannot arrive before the previous one was
      submitted. */
  function Schedule(perSecond: nat, ready: seq<nat>, late: seq<nat>): (ts: seq<nat>)
    requires perSecond >= 1 && |late| == |ready|
    ensures |ts| == |ready|
  {
    if ready == [] then [] else
      var n := |ready| - 1;
      var before := Schedule(perSecond, ready[..n], late[..n]);
      before + [Next(perSecond, before, Max(ready[n], Latest(before)), late[n])]
  }

  /** However calls arrive and however sleeps overshoot, no second ever holds more than the cap. */
  lemma {:induction false} NeverOverCap(perSecond: nat, ready: seq<nat>, late: seq<nat>)
    requires perSecond >= 1 && |late| == |ready|
    ensures var ts := Schedule(perSecond, ready, late);
      && Chronological(ts) && Spaced(perSecond, ts)
      && (forall i, j | 0 <= i <= j < |ts| && ts[j] < ts[i] + 1_000_000_000 :: j - i < perSecond)
      && (forall i | 0 <= i < |ts| :: ready[i] <= ts[i])
  {
    if ready != [] {
      var n := |ready| - 1;
      NeverOverCap(perSecond, ready[..n], late[..n]);
      var before, ts := Schedule(perSecond, ready[..n], late[..n]), Schedule(perSecond, ready, late);
      assert ts == before + [ts[n]];
      SubmissionKeeps(perSecond, before, Max(ready[n], Latest(before)), late[n]);
      forall i | 0 <= i < n ensures ready[i] <= ts[i] { assert ready[..n][i] <= before[i]; }
    }
    SpacingCaps(perSecond, Schedule(perSecond, ready, late));
  }

  /** With exact sleeps no schedule that respects the cap is earlier, at any submission. */
  lemma {:induction false} ExactSleepsAreEarliest(perSecond: nat, ready: seq<nat>, late: seq<nat>, other: seq<nat>)
    requires perSecond >= 1 && |late| == |ready| && (forall i | 0 <= i < |late| :: late[i] == 0)
    requires |other| == |ready| && Chronological(other) && Spaced(perSecond, other)
    requires forall i | 0 <= i < |ready| :: ready[i] <= other[i]
    ensures forall i | 0 <= i < |ready| :: Schedule(perSecond, ready, late)[i] <= other[i]
  {
    if ready != [] {
      var n := |ready| - 1;
      assert forall i | 0 <= i < n :: ready[..n][i] <= other[..n][i];
      ExactSleepsAreEarliest(perSecond, ready[..n], late[..n], other[..n]);
      var before := Schedule(perSecond, ready[..n], late[..n]);
      forall i | 0 <= i < n ensures before[i] <= other[i] { assert before[i] <= other[..n][i]; }
      if n >= perSecond { assert other[n - perSecond] + WINDOW <= other[n]; }
      if n > 0 { assert other[n - 1] <= other[n]; }
    }
  }
}
