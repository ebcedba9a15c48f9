/** EIP-1559 fee pricing and replacement escalation, in saturating 128-bit arithmetic. */
module Pricing {
  import opened Base

  const U128_MAX: nat := 0xFFFF_FFFF_FFFF_FFFF_FFFF_FFFF_FFFF_FFFF

  datatype Fees = Fees(maxFee: nat, priority: nat)

  datatype Bid = Bid(totalProfit: nat, percentage: nat)

  datatype Priced = Priced(fees: Fees) | Refused

  predicate Valid(f: Fees) {
    f.priority <= f.maxFee <= U128_MAX
  }

  function Clamped(maxFee: nat, priority: nat): Fees {
    Fees(maxFee, Min(priority, maxFee))
  }

  function ScalePercent(v: nat, percent: nat): nat {
    if v * percent > U128_MAX then U128_MAX else v * percent / 100
  }

  function Price1559(estimate: Fees, gasUsage: nat, bumpPercent: nat, bid: Option<Bid>): Priced {
    var headroom := SatSub(estimate.maxFee, estimate.priority);
    var bumped := ScalePercent(estimate.priority, bumpPercent);
    match bid
    case Some(b) =>
      if b.percentage > 100 || gasUsage == 0 then Refused
      else Priced(Clamped(ScalePercent(b.totalProfit / gasUsage, b.percentage), bumped))
    case None => Priced(Clamped(Min(headroom + bumped, U128_MAX), bumped))
  }

  function Escalate(f: Fees, percent: nat): Fees {
    Clamped(ScalePercent(f.maxFee, percent), ScalePercent(f.priority, percent))
  }

  /** The scaled value is within one unit of exact, unless the product overflowed. */
  lemma ScaleBounds(v: nat, percent: nat)
    requires v * percent <= U128_MAX
    ensures var s := ScalePercent(v, percent); 100 * s <= v * percent <= 100 * s + 99
  {
  }

  lemma ScaleMonotone(a: nat, b: nat, percent: nat)
    requires a <= b
    ensures ScalePercent(a, percent) <= ScalePercent(b, percent)
  {
    assert a * percent + (b - a) * percent == b * percent;
    assert 0 <= (b - a) * percent;
  }

  /** A whole or partial share never exceeds what is shared; a raise never lowers. */
  lemma ScaleAround(v: nat, percent: nat)
    requires v <= U128_MAX
    ensures percent >= 100 ==> v <= ScalePercent(v, percent) <= U128_MAX
  {
    if percent >= 100 {
      assert v * percent == v * 100 + v * (percent - 100) && 0 <= v * (percent - 100);
    }
  }

  /** `s` is `percent` hundredths of `v` in whole units, or the largest 128-bit value when the product overflows. */
  ghost predicate Hundredths(s: nat, v: nat, percent: nat) {
    var largest := 340_282_366_920_938_463_463_374_607_431_768_211_455;
    if v * percent <= largest then 100 * s <= v * percent < 100 * (s + 1) else s == largest
  }

  lemma ScaledIs(v: nat, percent: nat)
    ensures forall s: nat :: Hundredths(s, v, percent) <==> s == ScalePercent(v, percent)
  {
  }

  /** Bids above the whole profit and unknown gas are refused, and nothing else is. A priced bid caps the fee at the
      whole units in its share of the profit per gas, and tips the bumped suggestion unless that exceeds the cap. */
  lemma BidIsShare(estimate: Fees, gasUsage: nat, bumpPercent: nat, bid: Bid, tip: nat)
    requires Hundredths(tip, estimate.priority, bumpPercent)
    ensures var r := Price1559(estimate, gasUsage, bumpPercent, Some(bid));
      && (r.Refused? <==> bid.percentage > 100 || gasUsage == 0)
      && (r.Priced? ==>
            && Hundredths(r.fees.maxFee, bid.totalProfit / gasUsage, bid.percentage)
            && r.fees.priority == if tip > r.fees.maxFee then r.fees.maxFee else tip)
  {
    ScaledIs(estimate.priority, bumpPercent);
  }

  /** What a bid may spend: at most its share of the profit, and one more unit of fee per gas would exceed its share of
      the profit that divides evenly over the gas. */
  lemma BidWithinShare(estimate: Fees, gasUsage: nat, bumpPercent: nat, bid: Bid)
    requires gasUsage > 0 && bid.percentage <= 100 && bid.totalProfit / gasUsage * bid.percentage <= U128_MAX
    ensures var r := Price1559(estimate, gasUsage, bumpPercent, Some(bid));
      && r.Priced? && 100 * r.fees.maxFee * gasUsage <= bid.totalProfit * bid.percentage
      && (bid.totalProfit - bid.totalProfit % gasUsage) * bid.percentage < 100 * (r.fees.maxFee + 1) * gasUsage
      && r.fees.priority <= r.fees.maxFee
  {
    var even := bid.totalProfit / gasUsage;
    var s := ScalePercent(even, bid.percentage);
    assert bid.totalProfit == even * gasUsage + bid.totalProfit % gasUsage;
    Times(100 * s, even * bid.percentage, gasUsage);
    Times(even * bid.percentage + 1, 100 * (s + 1), gasUsage);
    Times(even * gasUsage, bid.totalProfit, bid.percentage);
    assert even * bid.percentage * gasUsage == even * gasUsage * bid.percentage;
    assert (even * bid.percentage + 1) * gasUsage == even * bid.percentage * gasUsage + gasUsage;
  }

  lemma Times(a: int, b: int, n: nat)
    requires a <= b
    ensures a * n <= b * n
  {
    assert 0 <= (b - a) * n;
  }

  /** Without a bid the tip is the bumped suggestion, never lowered by the clamp, and the cap keeps the whole headroom
      over it (none, if the estimate has none), up to the largest value. */
  lemma NoBidKeepsHeadroom(estimate: Fees, gasUsage: nat, bumpPercent: nat, tip: nat)
    requires Hundredths(tip, estimate.priority, bumpPercent) && estimate.maxFee <= U128_MAX
    ensures var r := Price1559(estimate, gasUsage, bumpPercent, None);
      && r.Priced? && Valid(r.fees) && r.fees.priority == tip
      && (if estimate.maxFee <= estimate.priority then r.fees.maxFee == tip
          else if estimate.maxFee - estimate.priority + tip <= U128_MAX
          then r.fees.maxFee - tip == estimate.maxFee - estimate.priority
          else r.fees.maxFee == U128_MAX)
  {
    ScaledIs(estimate.priority, bumpPercent);
    hide Hundredths;
  }

  /** An escalation keeps the pair valid without clamping, lowers neither field, and meets the 10% replacement bump
      (rounded down as nodes round it). */
  lemma EscalationRises(f: Fees, percent: nat)
    requires Valid(f) && percent >= 110
    ensures var e := Escalate(f, percent);
      && Valid(e) && e == Fees(ScalePercent(f.maxFee, percent), ScalePercent(f.priority, percent))
      && f.maxFee <= e.maxFee && f.priority <= e.priority
      && (Min(f.maxFee * 110 / 100, U128_MAX) <= e.maxFee && Min(f.priority * 110 / 100, U128_MAX) <= e.priority)
  {
    ScaleMonotone(f.priority, f.maxFee, percent);
    ScaleAround(f.maxFee, percent);
    ScaleAround(f.priority, percent);
    TenPercent(f.maxFee, percent);
    TenPercent(f.priority, percent);
  }

  lemma TenPercent(v: nat, percent: nat)
    requires percent >= 110
    ensures Min(v * 110 / 100, U128_MAX) <= ScalePercent(v, percent)
  {
    Commute(v, 110);
    Commute(v, percent);
    Times(110, percent, v);
    HundredthMonotone(v * 110, v * percent);
  }

  lemma HundredthMonotone(a: nat, b: nat)
    requires a <= b
    ensures a / 100 <= b / 100
  {
  }

  /** A fee strictly rises exactly when its raise is worth at least one unit: below that, rounding eats it. */
  lemma RaiseVisibleExactly(v: nat, percent: nat)
    requires percent >= 100 && v * percent <= U128_MAX
    ensures ScalePercent(v, percent) > v <==> v * (percent - 100) >= 100
  {
    assert v * percent == v * 100 + v * (percent - 100);
  }

  /** A raise is worth a full tenth (a 10% bump, not rounded down) exactly when the part lost to rounding is
      covered by what `percent` adds beyond 110. */
  lemma FullTenthExactly(v: nat, percent: nat)
    requires percent >= 110 && v * percent <= U128_MAX
    ensures 100 * ScalePercent(v, percent) >= 110 * v <==> v * percent % 100 <= v * (percent - 110)
  {
    assert v * percent == v * 110 + v * (percent - 110);
    assert v * percent == 100 * (v * percent / 100) + v * percent % 100;
  }

  /** At 110 percent a pair below ten units never moves. */
  lemma TinyFeesDoNotRise(f: Fees)
    requires Valid(f) && f.maxFee < 10
    ensures Escalate(f, 110) == f
  {
    ScaleMonotone(f.priority, f.maxFee, 110);
  }

  function Pow(b: nat, k: nat): nat {
    if k == 0 then 1 else b * Pow(b, k - 1)
  }

  /** A fee after `k` escalations. */
  function Compounded(f: nat, percent: nat, k: nat): nat {
    if k == 0 then f else ScalePercent(Compounded(f, percent, k - 1), percent)
  }

  predicate Unsaturated(f: nat, percent: nat, k: nat) {
    forall i: nat | i < k :: Compounded(f, percent, i) * percent <= U128_MAX
  }

  /** Compounding drifts below the exact geometric growth by a bounded amount, whatever the number of escalations. */
  lemma {:induction false} CompoundingDrift(f: nat, percent: nat, k: nat)
    requires percent >= 100 && Unsaturated(f, percent, k)
    ensures var drift := (percent - 100) * (f * Pow(percent, k) - Pow(100, k) * Compounded(f, percent, k));
      0 <= drift <= 99 * (Pow(percent, k) - Pow(100, k))
  {
    if k == 0 {
      NoDrift(f, percent);
    } else {
      CompoundingDrift(f, percent, k - 1);
      PowStep(percent, k);
      PowStep(100, k);
      hide Pow, ScalePercent;
      var g, h := Compounded(f, percent, k - 1), Compounded(f, percent, k);
      assert g * percent <= U128_MAX;
      ScaleBounds(g, percent);
      Commute(percent, g);
      DriftStep(f, percent - 100, Pow(percent, k - 1), Pow(100, k - 1), g, h, percent * g - 100 * h);
      Associate(100, Pow(100, k - 1), h);
      Associate(100, Pow(100, k - 1), 1);
    }
  }

  lemma NoDrift(f: nat, percent: nat)
    ensures f * Pow(percent, 0) - Pow(100, 0) * Compounded(f, percent, 0) == 0 && Pow(percent, 0) - Pow(100, 0) == 0
  {
  }

  lemma PowStep(b: nat, k: nat)
    requires k > 0
    ensures Pow(b, k) == b * Pow(b, k - 1)
  {
  }

  lemma Commute(a: int, b: int)
    ensures a * b == b * a
  {
  }

  lemma DriftStep(f: nat, q: nat, P: nat, H: nat, g: nat, h: nat, r: int)
    requires 0 <= q * (f * P - H * g) <= 99 * (P - H)
    requires (100 + q) * g == 100 * h + r && 0 <= r <= 99
    ensures 0 <= q * (f * ((100 + q) * P) - 100 * H * h) <= 99 * ((100 + q) * P - 100 * H)
  {
    var p, A, B, C, R := 100 + q, f * P, H * g, H * h, H * r;
    Regroup(f, p, P);
    Regroup(H, p, g);
    Scaled(H, h, r);
    DriftAlgebra(q, A, B, C, R);
    DriftBound(q, q * (A - B), P, H, r);
    Regroup(q, H, r);
    Associate(100, H, h);
    assert f * (p * P) - 100 * H * h == p * A - 100 * C;
    Congruent(q, f * (p * P) - 100 * H * h, p * A - 100 * C);
  }

  lemma Associate(a: int, b: int, c: int)
    ensures a * b * c == a * (b * c)
  {
  }

  lemma Congruent(a: int, b: int, c: int)
    requires b == c
    ensures a * b == a * c
  {
  }

  lemma Regroup(a: int, b: int, c: int)
    ensures a * (b * c) == b * (a * c)
  {
  }

  lemma Scaled(H: int, h: int, r: int)
    ensures H * (100 * h + r) == 100 * (H * h) + H * r
  {
  }

  lemma DriftAlgebra(q: int, A: int, B: int, C: int, R: int)
    requires (100 + q) * B == 100 * C + R
    ensures q * ((100 + q) * A - 100 * C) == (100 + q) * (q * (A - B)) + q * R
  {
    var p := 100 + q;
    assert p * A - 100 * C == p * (A - B) + R;
    assert q * (p * (A - B) + R) == q * (p * (A - B)) + q * R;
    Regroup(q, p, A - B);
  }

  lemma DriftBound(q: nat, E: int, P: int, H: nat, r: int)
    requires 0 <= E <= 99 * (P - H) && 0 <= r <= 99
    ensures 0 <= (100 + q) * E + H * (q * r) <= 99 * ((100 + q) * P - 100 * H)
  {
    var p := 100 + q;
    Times(E, 99 * (P - H), p);
    Times(0, E, p);
    Times(r, 99, q);
    Times(0, r, q);
    Times(q * r, 99 * q, H);
    Times(0, q * r, H);
    assert p * (99 * (P - H)) == 99 * (p * P) - 99 * (p * H);
    assert 99 * (p * H) == 99 * (100 * H) + H * (99 * q);
  }
}
