/** The collector driver: subscribe, pump, retry with backoff, escalate. Durations are nanoseconds. */
module Reconnect {
  import opened Base

  const U32_MAX: nat := 0xFFFF_FFFF
  const DURATION_MAX: nat := U64_MAX * 1_000_000_000 + 999_999_999

  function Pow2(n: nat): (p: nat)
    ensures p >= 1
  {
    if n == 0 then 1 else 2 * Pow2(n - 1)
  }

  /** `Backoff::delay`: the factor saturates at 32 bits, the product at the longest duration. */
  function Delay(base: nat, attempt: nat): nat {
    var factor := if Pow2(attempt) <= U32_MAX then Pow2(attempt) else U32_MAX;
    Min(base * factor, DURATION_MAX)
  }

  datatype Config = Config(maxFailures: nat, baseDelay: nat, healthyUptime: nat)

  datatype Decision = Retry(after: nat) | Fatal

  /** What one round of the driver met: a subscribe error, or a stream that delivered events and then ended. */
  datatype Attempt = CreationFailed | Streamed(events: nat, uptime: nat)

  class ReconnectPolicy {
    const config: Config
    var failures: nat

    constructor (config: Config)
      ensures this.config == config && failures == 0
    {
      this.config := config;
      failures := 0;
    }

    method OnEventsReceived()
      modifies this
      ensures failures == 0
    {
      failures := 0;
    }

    method OnCreationFailed() returns (d: Decision)
      modifies this
      ensures failures == old(failures) + 1 && d == Judge(config, failures)
    {
      d := RecordFailure();
    }

    method OnStreamEnded(uptime: nat) returns (d: Decision)
      modifies this
      ensures uptime >= config.healthyUptime ==> failures == 0 && d == Retry(Delay(config.baseDelay, 0))
      ensures uptime < config.healthyUptime ==> failures == old(failures) + 1 && d == Judge(config, failures)
    {
      if uptime >= config.healthyUptime {
        failures := 0;
        return Retry(Delay(config.baseDelay, failures));
      }
      d := RecordFailure();
    }

    method RecordFailure() returns (d: Decision)
      modifies this
      ensures failures == old(failures) + 1 && d == Judge(config, failures)
    {
      failures := failures + 1;
      return if failures >= config.maxFailures then Fatal else Retry(Delay(config.baseDelay, failures));
    }
  }

  function Judge(config: Config, failures: nat): Decision {
    if failures >= config.maxFailures then Fatal else Retry(Delay(config.baseDelay, failures))
  }

  predicate Healthy(config: Config, a: Attempt) {
    a.Streamed? && a.uptime >= config.healthyUptime
  }

  /** Failures since the last delivered event or healthy-length stream, read off the history alone. */
  function FailuresSince(config: Config, trace: seq<Attempt>): nat {
    if trace == [] then 0 else
      var last := trace[|trace| - 1];
      if Healthy(config, last) then 0
      else if last.Streamed? && last.events > 0 then 1
      else 1 + FailuresSince(config, trace[..|trace| - 1])
  }

  function Threshold(config: Config): nat {
    Max(1, config.maxFailures)
  }

  /** No prefix of the history has reached the threshold. */
  ghost predicate Tolerated(config: Config, trace: seq<Attempt>) {
    forall i | 0 <= i <= |trace| :: FailuresSince(config, trace[..i]) < Threshold(config)
  }

  /** The waits after each tolerated attempt. */
  function Sleeps(config: Config, trace: seq<Attempt>): (waits: seq<nat>)
    ensures |waits| == |trace|
  {
    if trace == [] then []
    else Sleeps(config, trace[..|trace| - 1]) + [Delay(config.baseDelay, FailuresSince(config, trace))]
  }

  function Delivered(trace: seq<Attempt>): nat {
    if trace == [] then 0 else
      Delivered(trace[..|trace| - 1]) + match trace[|trace| - 1] case CreationFailed => 0 case Streamed(n, _) => n
  }

  datatype Token = FatalCause | Root

  datatype Ending = StillRunning | ShutDown | Escalated

  lemma HistoryPush(config: Config, trace: seq<Attempt>, i: nat)
    requires i < |trace|
    ensures var before, after := trace[..i], trace[..i + 1];
      && Sleeps(config, after) == Sleeps(config, before) + [Delay(config.baseDelay, FailuresSince(config, after))]
      && FailuresSince(config, after) == (if Healthy(config, trace[i]) then 0
           else if trace[i].Streamed? && trace[i].events > 0 then 1 else 1 + FailuresSince(config, before))
      && Delivered(after) == Delivered(before) + (match trace[i] case CreationFailed => 0 case Streamed(n, _) => n)
      && Awaits(after) == Awaits(before) + RoundAwaits(trace[i]) + 1
      && (Tolerated(config, before) && FailuresSince(config, after) < Threshold(config) ==> Tolerated(config, after))
  {
    var before, after := trace[..i], trace[..i + 1];
    assert after[..i] == before && after[..i + 1] == after;
    forall n | 0 <= n <= i ensures after[..n] == before[..n] {}
  }

  /** The awaits of one round before its verdict: the subscribe, then every event and the stream's end. */
  function RoundAwaits(a: Attempt): nat {
    match a
    case CreationFailed => 1
    case Streamed(events, _) => events + 2
  }

  /** The awaits of rounds that were all retried, the wait after each included. */
  function Awaits(trace: seq<Attempt>): nat {
    if trace == [] then 0 else Awaits(trace[..|trace| - 1]) + RoundAwaits(trace[|trace| - 1]) + 1
  }

  /** Events sent before the round's await number `i`. */
  function SentWithin(a: Attempt, i: nat): nat {
    match a
    case CreationFailed => 0
    case Streamed(events, _) => Min(SatSub(i, 1), events)
  }

  /** The awaits a driver makes that is never cancelled. */
  ghost function Horizon(config: Config, trace: seq<Attempt>): nat {
    if trace == [] then 0 else
      var front, last := trace[..|trace| - 1], trace[|trace| - 1];
      if !Tolerated(config, front) then Horizon(config, front)
      else Awaits(front) + RoundAwaits(last) + if FailuresSince(config, trace) < Threshold(config) then 1 else 0
  }

  lemma {:induction false} HorizonIsAwaits(config: Config, trace: seq<Attempt>)
    requires Tolerated(config, trace)
    ensures Horizon(config, trace) == Awaits(trace)
  {
    if trace != [] {
      var front := trace[..|trace| - 1];
      assert trace[..|trace|] == trace;
      forall i | 0 <= i <= |front| ensures front[..i] == trace[..i] {}
      assert Tolerated(config, front);
    }
  }

  lemma {:induction false} HorizonGrows(config: Config, trace: seq<Attempt>, n: nat)
    requires n < |trace| && Tolerated(config, trace[..n])
    ensures var more := if FailuresSince(config, trace[..n + 1]) < Threshold(config) then 1 else 0;
      Awaits(trace[..n]) + RoundAwaits(trace[n]) + more <= Horizon(config, trace)
    ensures FailuresSince(config, trace[..n + 1]) >= Threshold(config) ==>
      Horizon(config, trace) == Awaits(trace[..n]) + RoundAwaits(trace[n]) && !Tolerated(config, trace)
  {
    hide FailuresSince;
    if n == |trace| - 1 {
      assert trace[..n + 1] == trace;
    } else {
      var front := trace[..|trace| - 1];
      assert front[..n] == trace[..n] && front[..n + 1] == trace[..n + 1];
      HorizonGrows(config, front, n);
      if Tolerated(config, front) {
        HorizonIsAwaits(config, front);
      }
      if FailuresSince(config, trace[..n + 1]) >= Threshold(config) {
        assert !Tolerated(config, trace);
      }
    }
  }

  /** What the driver has done when it ends at its await number `polls - 1`, or has made `polls` awaits. */
  ghost predicate Courses(config: Config, trace: seq<Attempt>, ending: Ending, sleeps: seq<nat>, sent: nat, n: nat,
                          polls: nat) {
    match ending
    case StillRunning =>
      && n == |trace| && Tolerated(config, trace) && polls == Awaits(trace)
      && sleeps == Sleeps(config, trace) && sent == Delivered(trace)
    case Escalated =>
      && 0 < n <= |trace| && Tolerated(config, trace[..n - 1])
      && FailuresSince(config, trace[..n]) == Threshold(config)
      && polls == Awaits(trace[..n - 1]) + RoundAwaits(trace[n - 1])
      && sleeps == Sleeps(config, trace[..n - 1]) && sent == Delivered(trace[..n])
    case ShutDown =>
      && n < |trace| && Tolerated(config, trace[..n])
      && Awaits(trace[..n]) < polls <= Awaits(trace[..n]) + RoundAwaits(trace[n])
           + (if FailuresSince(config, trace[..n + 1]) < Threshold(config) then 1 else 0)
      && sleeps == Sleeps(config, trace[..n])
      && sent == Delivered(trace[..n]) + SentWithin(trace[n], polls - 1 - Awaits(trace[..n]))
  }

  /** How a run ends is decided by the history and by the first await, if any, that sees the cancellation. */
  lemma EndingIsDecided(config: Config, trace: seq<Attempt>, cancelled: nat -> bool, ending: Ending, sleeps: seq<nat>,
                        sent: nat, n: nat, polls: nat)
    requires Courses(config, trace, ending, sleeps, sent, n, polls)
    requires if ending.ShutDown? then cancelled(polls - 1) else forall i: nat | i < polls :: !cancelled(i)
    ensures ending.ShutDown? <==> exists i: nat :: i < Horizon(config, trace) && cancelled(i)
    ensures !ending.ShutDown? ==> polls == Horizon(config, trace)
    ensures !ending.ShutDown? ==> (ending.StillRunning? <==> Tolerated(config, trace))
  {
    hide FailuresSince, Sleeps, Delivered, Awaits;
    match ending {
      case StillRunning => HorizonIsAwaits(config, trace);
      case Escalated => HorizonGrows(config, trace, n - 1);
      case ShutDown => HorizonGrows(config, trace, n);
    }
  }

  /** The stream's events one await each, then the await that sees its end, up to the first that is cancelled. */
  method Pump(policy: ReconnectPolicy, events: nat, cancelled: nat -> bool, start: nat)
    returns (stopped: bool, polls: nat, sent: nat)
    requires forall i: nat | i < start :: !cancelled(i)
    modifies policy
    ensures stopped ==> start < polls <= start + events + 1 && sent == polls - 1 - start && cancelled(polls - 1)
    ensures forall i: nat | i < (if stopped then polls - 1 else polls) :: !cancelled(i)
    ensures !stopped ==> polls == start + events + 1 && sent == events
    ensures !stopped ==> policy.failures == if events > 0 then 0 else old(policy.failures)
  {
    polls, sent := start, 0;
    while true
      invariant sent <= events && polls == start + sent && forall i: nat | i < polls :: !cancelled(i)
      invariant policy.failures == if sent > 0 then 0 else old(policy.failures)
      decreases events - sent
    {
      polls := polls + 1;
      if cancelled(polls - 1) {
        return true, polls, sent;
      }
      if sent == events {
        return false, polls, sent;
      }
      policy.OnEventsReceived();
      sent := sent + 1;
    }
  }

  /** The driver against a world that answers each round with the next attempt, and may cancel it at any await. It
      shuts down exactly if one of the awaits it would make uncancelled sees the cancellation, at the first one that
      does, with what was sent and slept before it, and cancels nothing. Otherwise it escalates exactly at the first
      attempt where the failures reach the threshold, and cancels `fatal` before `root`. */
  method RunDriver(config: Config, trace: seq<Attempt>, cancelled: nat -> bool)
    returns (ending: Ending, cancels: seq<Token>, sleeps: seq<nat>, sent: nat, n: nat, polls: nat)
    ensures cancels == if ending.Escalated? then [FatalCause, Root] else []
    ensures Courses(config, trace, ending, sleeps, sent, n, polls)
    ensures ending.ShutDown? ==> cancelled(polls - 1) && forall i: nat | i < polls - 1 :: !cancelled(i)
    ensures !ending.ShutDown? ==> forall i: nat | i < polls :: !cancelled(i)
    ensures ending.ShutDown? <==> exists i: nat :: i < Horizon(config, trace) && cancelled(i)
    ensures !ending.ShutDown? ==> (ending.StillRunning? <==> Tolerated(config, trace))
  {
    hide FailuresSince, Sleeps, Delivered, Delay, Tolerated, Awaits, Horizon;
    var policy := new ReconnectPolicy(config);
    cancels, sleeps, sent, n, polls := [], [], 0, 0, 0;
    NoHistory(config, trace);
    while n < |trace|
      invariant n <= |trace| && policy.failures == FailuresSince(config, trace[..n])
      invariant Tolerated(config, trace[..n]) && sleeps == Sleeps(config, trace[..n]) && sent == Delivered(trace[..n])
      invariant polls == Awaits(trace[..n]) && forall i: nat | i < polls :: !cancelled(i)
      decreases |trace| - n
    {
      HistoryPush(config, trace, n);
      FailuresBelow(config, trace[..n]);
      polls := polls + 1;
      if cancelled(polls - 1) {
        EndingIsDecided(config, trace, cancelled, ShutDown, sleeps, sent, n, polls);
        return ShutDown, cancels, sleeps, sent, n, polls;
      }
      var decision;
      match trace[n] {
        case CreationFailed =>
          decision := policy.OnCreationFailed();
        case Streamed(events, uptime) =>
          var stopped, more;
          stopped, polls, more := Pump(policy, events, cancelled, polls);
          sent := sent + more;
          if stopped {
            EndingIsDecided(config, trace, cancelled, ShutDown, sleeps, sent, n, polls);
            return ShutDown, cancels, sleeps, sent, n, polls;
          }
          decision := policy.OnStreamEnded(uptime);
      }
      match decision {
        case Fatal =>
          EndingIsDecided(config, trace, cancelled, Escalated, sleeps, sent, n + 1, polls);
          return Escalated, [FatalCause, Root], sleeps, sent, n + 1, polls;
        case Retry(after) =>
          polls := polls + 1;
          if cancelled(polls - 1) {
            EndingIsDecided(config, trace, cancelled, ShutDown, sleeps, sent, n, polls);
            return ShutDown, cancels, sleeps, sent, n, polls;
          }
          sleeps, n := sleeps + [after], n + 1;
      }
    }
    assert trace[..|trace|] == trace;
    EndingIsDecided(config, trace, cancelled, StillRunning, sleeps, sent, n, polls);
    return StillRunning, cancels, sleeps, sent, n, polls;
  }

  lemma NoHistory(config: Config, trace: seq<Attempt>)
    ensures FailuresSince(config, trace[..0]) == 0 && Sleeps(config, trace[..0]) == [] && Delivered(trace[..0]) == 0
    ensures Tolerated(config, trace[..0]) && Awaits(trace[..0]) == 0
  {
  }

  lemma FailuresBelow(config: Config, trace: seq<Attempt>)
    requires Tolerated(config, trace)
    ensures FailuresSince(config, trace) < Threshold(config)
  {
    assert trace[..|trace|] == trace;
  }

  function Sum(xs: seq<nat>): nat {
    if xs == [] then 0 else Sum(xs[..|xs| - 1]) + xs[|xs| - 1]
  }

  /** The `m` attempts of the last failing run waited `base * (2^m - 2)` in total between them. */
  lemma {:induction false} RunSleepsSum(config: Config, trace: seq<Attempt>)
    requires trace != [] && 1 <= FailuresSince(config, trace) <= 32
    requires config.baseDelay * Pow2(FailuresSince(config, trace) - 1) <= DURATION_MAX
    ensures var m := FailuresSince(config, trace);
      m <= |trace| && Sum(Sleeps(config, trace[..|trace| - 1])[|trace| - m..]) == config.baseDelay * (Pow2(m) - 2)
  {
    hide Pow2, Delay, Sleeps, Sum;
    var m, front := FailuresSince(config, trace), trace[..|trace| - 1];
    PowNext(config.baseDelay, m - 1);
    if m == 1 {
      NoWait(Sleeps(config, front));
    } else {
      PowNext(config.baseDelay, m - 2);
      DelayExact(config.baseDelay, m - 1);
      RunSleepsSum(config, front);
      SleepsLast(config, front);
      SumTail(Sleeps(config, front[..|front| - 1]), Delay(config.baseDelay, m - 1), |trace| - m);
      Doubles(config.baseDelay, Pow2(m - 1));
    }
  }

  lemma NoWait(waits: seq<nat>)
    ensures Sum(waits[|waits|..]) == 0
  {
  }

  lemma SumTail(waits: seq<nat>, last: nat, i: nat)
    requires i <= |waits|
    ensures Sum((waits + [last])[i..]) == Sum(waits[i..]) + last
  {
    var tail := (waits + [last])[i..];
    assert tail == waits[i..] + [last] && tail[..|tail| - 1] == waits[i..];
  }

  lemma Doubles(base: nat, p: nat)
    ensures base * (p - 2) + base * p == base * (2 * p - 2) && base * (2 - 2) == 0
  {
  }

  lemma SleepsLast(config: Config, trace: seq<Attempt>)
    requires trace != []
    ensures Sleeps(config, trace) == Sleeps(config,
        trace[..|trace| - 1]) + [Delay(config.baseDelay, FailuresSince(config, trace))]
  {
  }

  lemma PowNext(base: nat, k: nat)
    ensures Pow2(0) == 1 && Pow2(k + 1) == 2 * Pow2(k) && base * Pow2(k + 1) == 2 * (base * Pow2(k))
        && base * Pow2(k) >= 0
  {
    assert base * (2 * Pow2(k)) == 2 * (base * Pow2(k));
  }

  lemma DelayExact(base: nat, attempt: nat)
    requires attempt <= 31 && base * Pow2(attempt) <= DURATION_MAX
    ensures Delay(base, attempt) == base * Pow2(attempt)
  {
    PowMonotone(attempt, 31);
    PowOfTwo31();
  }

  /** From attempt 32 on the wait stays at 32 bits' worth of the base, or at the longest duration. */
  lemma DelaySaturates(base: nat, attempt: nat)
    requires attempt >= 32
    ensures Delay(base, attempt) == Min(base * 4_294_967_295, 18_446_744_073_709_551_615_999_999_999)
  {
    PowMonotone(32, attempt);
    PowNext(base, 31);
    PowOfTwo31();
  }

  /** Waits never get shorter. */
  lemma DelayGrows(base: nat, a: nat, b: nat)
    requires a <= b
    ensures Delay(base, a) <= Delay(base, b)
  {
    hide Pow2;
    PowMonotone(a, b);
    Scales(base, Min(Pow2(a), U32_MAX), Min(Pow2(b), U32_MAX));
  }

  lemma Scales(base: nat, f: nat, g: nat)
    requires f <= g
    ensures base * f <= base * g
  {
  }

  lemma PowOfTwo31()
    ensures Pow2(31) == 0x8000_0000
  {
    assert Pow2(8) == 256;
    assert Pow2(16) == 65536;
    assert Pow2(24) == 0x100_0000;
  }

  lemma {:induction false} PowMonotone(a: nat, b: nat)
    requires a <= b
    ensures Pow2(a) <= Pow2(b)
  {
    if a < b { PowMonotone(a, b - 1); }
  }
}
