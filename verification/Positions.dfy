/** Ordering keys: block numbers and time frontiers. */
module Positions {
  import opened Base

  /** What re-observing a covered position means: a deep reorg, or expected overlap. */
  datatype Reobservation = Halt | Dedupe

  type Id = string

  /** A frontier: the sort key (an instant) and the identities seen at it. A block number is the frontier
      with no identities (see `BlocksEmbed`), so one type serves both policies. */
  datatype Position = Position(key: nat, seen: set<Id>)

  /** The minimal position at `key`. */
  function FromSortKey(key: nat): Position {
    Position(key, {})
  }

  /** How the watermark moves: forward in time, a union at the same instant. */
  function Advance(prev: Option<Position>, next: Position): Position {
    match prev
    case None => next
    case Some(p) =>
      if next.key > p.key then next
      else if next.key < p.key then p
      else Position(p.key, p.seen + next.seen)
  }

  /** The watermark `w` covers `p`: strictly earlier, or at its instant with every identity seen. */
  predicate Contains(w: Position, p: Position) {
    p.key < w.key || (p.key == w.key && p.seen <= w.seen)
  }

  function ResumeKey(policy: Reobservation, p: Position): nat {
    match policy
    case Halt => SatAdd(p.key, 1)
    case Dedupe => p.key
  }

  /** `BlockPosition`'s own operations, on block numbers. */
  function BlockAdvance(prev: Option<nat>, next: nat): nat {
    match prev
    case Some(p) => Max(p, next)
    case None => next
  }

  predicate BlockContains(w: nat, p: nat) {
    p <= w
  }

  /** Block numbers behave exactly as frontiers without identities. */
  lemma BlocksEmbed(prev: Option<nat>, a: nat, b: nat)
    ensures FromSortKey(BlockAdvance(prev, b))
        == Advance(if prev.None? then None else Some(FromSortKey(prev.value)), FromSortKey(b))
    ensures BlockContains(a, b) <==> Contains(FromSortKey(a), FromSortKey(b))
  {
    var none: set<Id> := {};
    assert none + none == none;
  }

  /** The join of two optional watermarks. */
  function Join(a: Option<Position>, b: Option<Position>): Option<Position> {
    if b.None? then a else Some(Advance(a, b.value))
  }

  /** `Advance` is the join of a semilattice. */
  lemma JoinLaws(a: Option<Position>, b: Option<Position>, c: Option<Position>)
    ensures Join(Join(a, b), c) == Join(a, Join(b, c))
    ensures Join(a, b) == Join(b, a)
    ensures Join(a, a) == a
  {
    JoinAssociates(a, b, c);
    if a.Some? && b.Some? && a.value.key == b.value.key {
      assert a.value.seen + b.value.seen == b.value.seen + a.value.seen;
    }
    if a.Some? { assert a.value.seen + a.value.seen == a.value.seen; }
  }

  lemma JoinAssociates(a: Option<Position>, b: Option<Position>, c: Option<Position>)
    ensures Join(Join(a, b), c) == Join(a, Join(b, c))
  {
    if a.Some? && b.Some? && c.Some? && a.value.key == b.value.key == c.value.key {
      assert (a.value.seen + b.value.seen) + c.value.seen == a.value.seen + (b.value.seen + c.value.seen);
    }
  }

  /** Coverage is the order of that semilattice: exactly the positions whose re-folding is a no-op are covered. */
  lemma ContainsIffAbsorbed(w: Position, p: Position)
    ensures Contains(w, p) <==> Advance(Some(w), p) == w
    ensures Contains(Advance(Some(w), p), w) && Contains(Advance(Some(w), p), p)
  {
    if p.key == w.key {
      assert p.seen <= w.seen <==> w.seen + p.seen == w.seen;
    }
  }

  lemma ContainsTransitive(a: Position, b: Position, c: Position)
    requires Contains(a, b) && Contains(b, c)
    ensures Contains(a, c)
  {
  }

  /** A backfill from the resume key reaches every position that is not covered; for blocks it re-reads nothing. */
  lemma ResumeReachesUncovered(policy: Reobservation, w: Position, p: Position)
    requires p.key <= U64_MAX && w.key <= U64_MAX
    requires policy.Halt? ==> w.seen == {} && p.seen == {}
    ensures !Contains(w, p) ==> ResumeKey(policy, w) <= p.key
    ensures policy.Halt? && w.key < U64_MAX ==> (ResumeKey(policy, w) <= p.key <==> !Contains(w, p))
  {
  }

  /** A position a source with this policy can hold: blocks carry no identities. */
  ghost predicate Of(policy: Reobservation, p: Position) {
    p.key <= U64_MAX && (policy.Halt? ==> p.seen == {})
  }

  /** The resume key is the largest one a backfill may start from: any later start misses some uncovered position. */
  lemma ResumeIsLargest(policy: Reobservation, w: Position, k: nat)
    requires Of(policy, w) && (policy.Halt? ==> w.key < U64_MAX)
    ensures k <= ResumeKey(policy, w) <==> forall p | Of(policy, p) && !Contains(w, p) :: k <= p.key
  {
    if k > ResumeKey(policy, w) {
      FreshId(w.seen);
      var id: Id :| id !in w.seen;
      var p := if policy.Halt? then FromSortKey(w.key + 1) else Position(w.key, {id});
      assert Of(policy, p) && !Contains(w, p) && p.key < k;
    }
  }

  /** No finite set holds every identity: some length exceeds them all. */
  lemma FreshId(ids: set<Id>)
    ensures exists id: Id :: id !in ids
  {
    var n := LengthBound(ids);
    var id: Id := seq(n, _ => 'a');
    assert |id| == n;
    assert id !in ids;
  }

  lemma {:induction false} LengthBound(ids: set<Id>) returns (n: nat)
    ensures forall id | id in ids :: |id| < n
  {
    if ids == {} {
      n := 0;
    } else {
      var id :| id in ids;
      var m := LengthBound(ids - {id});
      n := Max(m, |id| + 1);
    }
  }
}
