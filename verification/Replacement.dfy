/** The nonce-pinned replacement loop: when it stops, what it sends, and what its verdict means. */
module Replacement {
  import opened Base
  import opened Pricing

  /** How a confirmation watch may end: with the transaction, with the watcher's own timeout, or with any other
      error. */
  datatype Watched = Mined | WatchTimeout | OtherError

  datatype Outcome = Confirmed | TimedOut | TransportError

  datatype NextStep = Finished | Replace(fees: Fees) | Rewatch | GiveUp

  datatype Schedule = Schedule(percent: nat, maxReplacements: nat, fees: Fees, issued: nat, failures: nat)

  const MAX_TRANSPORT_FAILURES: nat := 3

  function Classify(w: Watched): Outcome {
    match w
    case Mined => Confirmed
    case WatchTimeout => TimedOut
    case OtherError => TransportError
  }

  function Begin(percent: nat, maxReplacements: nat, initial: Fees): Schedule {
    Schedule(percent, maxReplacements, initial, 0, 0)
  }

  function Step(s: Schedule, o: Outcome): (Schedule, NextStep) {
    match o
    case Confirmed => (s, Finished)
    case TimedOut =>
      if s.issued >= s.maxReplacements then (s.(failures := 0), GiveUp)
      else
        var fees := Escalate(s.fees, s.percent);
        (s.(failures := 0, issued := s.issued + 1, fees := fees), Replace(fees))
    case TransportError =>
      var s' := s.(failures := s.failures + 1);
      (s', if s'.failures > MAX_TRANSPORT_FAILURES then GiveUp else Rewatch)
  }

  class ReplacementSchedule {
    const percent: nat
    const maxReplacements: nat
    var fees: Fees
    var issued: nat
    var failures: nat

    constructor (percent: nat, maxReplacements: nat, initial: Fees)
      ensures View() == Begin(percent, maxReplacements, initial)
    {
      this.percent, this.maxReplacements, fees, issued, failures := percent, maxReplacements, initial, 0, 0;
    }

    function View(): Schedule
      reads this
    {
      Schedule(percent, maxReplacements, fees, issued, failures)
    }

    method Next(o: Outcome) returns (step: NextStep)
      modifies this
      ensures (View(), step) == Step(old(View()), o)
    {
      match o {
        case Confirmed => return Finished;
        case TimedOut =>
          failures := 0;
          var next := EscalateNext();
          return if next.Some? then Replace(next.value) else GiveUp;
        case TransportError =>
          failures := failures + 1;
          return if failures > MAX_TRANSPORT_FAILURES then GiveUp else Rewatch;
      }
    }

    method EscalateNext() returns (next: Option<Fees>)
      modifies this`issued, this`fees
      ensures old(issued) >= maxReplacements ==> next == None && unchanged(this)
      ensures old(issued) < maxReplacements ==>
        issued == old(issued) + 1 && fees == Escalate(old(fees), percent) && next == Some(fees)
    {
      if issued >= maxReplacements {
        return None;
      }
      issued := issued + 1;
      fees := Escalate(fees, percent);
      return Some(fees);
    }
  }

  /** The fees of the `n`-th submission. */
  function NthFees(initial: Fees, percent: nat, n: nat): Fees {
    if n == 0 then initial else Escalate(NthFees(initial, percent, n - 1), percent)
  }

  /** The schedule after a sequence of watches. */
  function After(s: Schedule, ends: seq<Watched>): Schedule {
    if ends == [] then s else Step(After(s, ends[..|ends| - 1]), Classify(ends[|ends| - 1])).0
  }

  /** No verdict yet: every watch so far led to a re-watch or a replacement. */
  predicate Undecided(s: Schedule, ends: seq<Watched>) {
    if ends == [] then true else
      var front, last := ends[..|ends| - 1], ends[|ends| - 1];
      var step := Step(After(s, front), Classify(last)).1;
      Undecided(s, front) && (step.Replace? || step.Rewatch?)
  }

  function Timeouts(ends: seq<Watched>): nat {
    if ends == [] then 0 else Timeouts(ends[..|ends| - 1]) + if ends[|ends| - 1].WatchTimeout? then 1 else 0
  }

  /** The length of the run of other errors the watches end with. */
  function TrailingErrors(ends: seq<Watched>): nat {
    if ends == [] || !ends[|ends| - 1].OtherError? then 0 else 1 + TrailingErrors(ends[..|ends| - 1])
  }

  /** Nothing in these watches ends the loop: none saw the transaction, a replacement is left for every timeout, and no
      four errors in a row end them. */
  predicate GoesOn(ends: seq<Watched>, max: nat) {
    (forall w | w in ends :: !w.Mined?) && Timeouts(ends) <= max && TrailingErrors(ends) <= 3
  }

  /** The schedule's counters are what the watches say: one replacement per timeout, failures since the last
      contact. Each submission is watched at most four times, so an undecided history is shorter than `4 (R + 1)`. */
  lemma {:induction false} CountersMeanOutcomes(percent: nat, max: nat, initial: Fees, ends: seq<Watched>)
    requires Undecided(Begin(percent, max, initial), ends)
    ensures var s := After(Begin(percent, max, initial), ends);
      && s.issued == Timeouts(ends) && s.failures == TrailingErrors(ends)
      && s.fees == NthFees(initial, percent, s.issued)
      && s.percent == percent && s.maxReplacements == max
    ensures GoesOn(ends, max) && |ends| <= 4 * Timeouts(ends) + TrailingErrors(ends) < 4 * (max + 1)
  {
    if ends != [] {
      CountersMeanOutcomes(percent, max, initial, ends[..|ends| - 1]);
      assert ends == ends[..|ends| - 1] + [ends[|ends| - 1]];
    }
  }

  /** After any undecided watches the next one is judged as what it says: the loop finishes exactly when the
      transaction was seen, gives up exactly on the timeout after the last replacement or on the fourth error in a row,
      and otherwise replaces exactly on a timeout and watches again exactly on an error. */
  lemma GivesUpExactly(percent: nat, max: nat, initial: Fees, ends: seq<Watched>, w: Watched)
    requires Undecided(Begin(percent, max, initial), ends)
    ensures var step := Step(After(Begin(percent, max, initial), ends), Classify(w)).1;
      && (step.Finished? <==> w.Mined?)
      && (step.GiveUp? <==>
            || (w.WatchTimeout? && Timeouts(ends) == max)
            || (w.OtherError? && TrailingErrors(ends) == 3))
      && (step.Replace? <==> w.WatchTimeout? && Timeouts(ends) < max)
      && (step.Rewatch? <==> w.OtherError? && TrailingErrors(ends) < 3)
  {
    CountersMeanOutcomes(percent, max, initial, ends);
  }

  /** Later submissions never bid less, and the tip never exceeds the cap. */
  lemma {:induction false} FeesRise(initial: Fees, percent: nat, m: nat, n: nat)
    requires Valid(initial) && percent >= 110 && m <= n
    ensures Valid(NthFees(initial, percent, m)) && Valid(NthFees(initial, percent, n))
    ensures NthFees(initial, percent, m).maxFee <= NthFees(initial, percent, n).maxFee
    ensures NthFees(initial, percent, m).priority <= NthFees(initial, percent, n).priority
  {
    if m < n {
      FeesRise(initial, percent, m, n - 1);
      EscalationRises(NthFees(initial, percent, n - 1), percent);
    } else if n > 0 {
      FeesRise(initial, percent, n - 1, n - 1);
      EscalationRises(NthFees(initial, percent, n - 1), percent);
    }
  }

  type Hash(==, !new)
  type Address(==, !new)

  datatype Tx = Tx(from: Option<Address>, nonce: Option<nat>, fees: Fees)

  datatype Lookup = Receipt | NoReceipt | LookupFailed

  datatype Verdict =
    | Success
    | MissingFrom
    | NonceUnavailable
    | SendFailed
    | ReplacementRejected
    | Unconfirmed(replacements: nat)

  /** The node: its answers are arbitrary, and what was asked of it is recorded. */
  class Client {
    const nonceAnswer: Option<nat>
    const sendAnswer: nat -> Option<Hash>
    const watchAnswer: nat -> Watched
    const receiptAnswer: nat -> Lookup
    ghost var sent: seq<Tx>
    ghost var accepted: seq<Hash>
    ghost var watched: seq<Hash>
    ghost var ends: seq<Watched>
    ghost var looked: seq<Hash>
    ghost var lookups: seq<Lookup>
    var asked: nat

    constructor (nonceAnswer: Option<nat>, sendAnswer: nat -> Option<Hash>, watchAnswer: nat -> Watched,
        receiptAnswer: nat -> Lookup)
      ensures Untouched()
    {
      this.nonceAnswer, this.sendAnswer, this.watchAnswer, this.receiptAnswer := nonceAnswer, sendAnswer, watchAnswer,
          receiptAnswer;
      sent, accepted, watched, ends, looked, lookups, asked := [], [], [], [], [], [], 0;
    }

    ghost predicate Untouched()
      reads this
    {
      sent == [] && accepted == [] && watched == [] && ends == [] && looked == [] && lookups == []
    }

    method Send(tx: Tx) returns (hash: Option<Hash>)
      modifies this`sent, this`accepted, this`asked
      ensures sent == old(sent) + [tx]
      ensures accepted == old(accepted) + if hash.Some? then [hash.value] else []
    {
      hash := sendAnswer(asked);
      asked := asked + 1;
      sent := sent + [tx];
      accepted := accepted + if hash.Some? then [hash.value] else [];
    }

    method Watch(hash: Hash) returns (w: Watched)
      modifies this`watched, this`ends, this`asked
      ensures watched == old(watched) + [hash] && ends == old(ends) + [w]
    {
      w := watchAnswer(asked);
      asked := asked + 1;
      watched, ends := watched + [hash], ends + [w];
    }

    method LookUp(hash: Hash) returns (r: Lookup)
      modifies this`looked, this`lookups, this`asked
      ensures looked == old(looked) + [hash] && lookups == old(lookups) + [r]
    {
      r := receiptAnswer(asked);
      asked := asked + 1;
      looked, lookups := looked + [hash], lookups + [r];
    }

    /** Sweeps the hashes in order up to the first receipt; a failed lookup counts as unmined. */
    method AnyMined(hashes: seq<Hash>) returns (mined: bool)
      modifies this`looked, this`lookups, this`asked
      ensures Swept(hashes, old(looked), looked, old(lookups), lookups, mined)
    {
      for i := 0 to |hashes|
        invariant looked == old(looked) + hashes[..i]
        invariant |lookups| == |old(lookups)| + i && old(lookups) <= lookups
        invariant forall j | |old(lookups)| <= j < |lookups| :: !lookups[j].Receipt?
      {
        var r := LookUp(hashes[i]);
        assert hashes[..i + 1] == hashes[..i] + [hashes[i]];
        if r.Receipt? {
          return true;
        }
      }
      assert hashes[..|hashes|] == hashes;
      return false;
    }
  }

  /** A sweep asked for a prefix of the hashes: all of them without finding a receipt, or up to the one that has one. */
  ghost predicate Swept(hashes: seq<Hash>, looked: seq<Hash>, looked': seq<Hash>, lookups: seq<Lookup>,
                        lookups': seq<Lookup>, mined: bool) {
    && looked <= looked' && looked'[|looked|..] <= hashes
    && lookups <= lookups' && |lookups'| - |lookups| == |looked'| - |looked|
    && (mined ==> lookups' != lookups && lookups'[|lookups'| - 1].Receipt?)
    && (forall j | |lookups| <= j < |lookups'| - 1 :: !lookups'[j].Receipt?)
    && (!mined ==> looked' == looked + hashes && forall j | |lookups| <= j < |lookups'| :: !lookups'[j].Receipt?)
  }

  /** Submissions so far: the same transaction at the same nonce, the `i`-th at the `i`-th fees. */
  ghost predicate Submissions(sent: seq<Tx>, tx: Tx, nonce: nat, percent: nat) {
    forall i | 0 <= i < |sent| :: sent[i] == tx.(nonce := Some(nonce), fees := NthFees(tx.fees, percent, i))
  }

  /** Every watch was of the newest submission at its time: the one after as many timeouts as had been seen. */
  ghost predicate WatchesLatest(accepted: seq<Hash>, watched: seq<Hash>, ends: seq<Watched>) {
    && |watched| == |ends|
    && forall i | 0 <= i < |watched| ::
        Timeouts(ends[..i]) < |accepted| && watched[i] == accepted[Timeouts(ends[..i])]
  }

  lemma WatchPush(accepted: seq<Hash>, watched: seq<Hash>, ends: seq<Watched>, hash: Hash, w: Watched)
    requires WatchesLatest(accepted, watched, ends) && Timeouts(ends) < |accepted|
        && hash == accepted[Timeouts(ends)]
    ensures WatchesLatest(accepted, watched + [hash], ends + [w])
  {
    var watched', ends' := watched + [hash], ends + [w];
    forall i | 0 <= i < |watched'| ensures Timeouts(ends'[..i]) < |accepted|
        && watched'[i] == accepted[Timeouts(ends'[..i])] {
      assert ends'[..i] == ends[..i];
      if i == |watched| { assert ends[..i] == ends; }
    }
  }

  lemma AcceptedPush(accepted: seq<Hash>, watched: seq<Hash>, ends: seq<Watched>, hash: Hash)
    requires WatchesLatest(accepted, watched, ends)
    ensures WatchesLatest(accepted + [hash], watched, ends)
  {
  }

  /** The loop was still going before every watch it made. */
  ghost predicate NeverEarlier(ends: seq<Watched>, max: nat) {
    forall i | 0 <= i < |ends| :: GoesOn(ends[..i], max)
  }

  predicate SawMined(ends: seq<Watched>) {
    ends != [] && ends[|ends| - 1].Mined?
  }

  /** The timeout after the last replacement, or the fourth error in a row. */
  predicate Exhausted(ends: seq<Watched>, max: nat) {
    Timeouts(ends) == max + 1 || TrailingErrors(ends) == 4
  }

  predicate Refused(sent: seq<Tx>, accepted: seq<Hash>) {
    |accepted| < |sent|
  }

  /** How a loop that got its first submission accepted has come to its end: in exactly one of three ways, at the first
      watch or send that brings it there, with one submission for the start and each answered timeout. */
  ghost predicate Over(sent: seq<Tx>, accepted: seq<Hash>, ends: seq<Watched>, max: nat) {
    && NeverEarlier(ends, max) && |ends| <= 4 * (max + 1)
    && |sent| == 1 + Min(max, Timeouts(ends)) && |sent| - 1 <= |accepted| <= |sent| && accepted != []
    && (SawMined(ends) || Exhausted(ends, max) || Refused(sent, accepted))
    && !(SawMined(ends) && Exhausted(ends, max)) && !(SawMined(ends) && Refused(sent, accepted))
    && !(Exhausted(ends, max) && Refused(sent, accepted))
    && (Refused(sent, accepted) ==> ends != [] && ends[|ends| - 1].WatchTimeout?)
  }

  ghost predicate ReceiptFound(lookups: seq<Lookup>) {
    lookups != [] && lookups[|lookups| - 1].Receipt?
  }

  /** Receipts are looked up exactly when the loop ended without a confirmation: in order up to the first receipt, or
      all of them. */
  ghost predicate LookedUp(accepted: seq<Hash>, looked: seq<Hash>, lookups: seq<Lookup>, confirmed: bool) {
    && |lookups| == |looked|
    && (confirmed ==> looked == [])
    && (!confirmed ==> looked != [] && looked <= accepted && (looked == accepted || ReceiptFound(lookups)))
    && forall i | 0 <= i < |lookups| - 1 :: !lookups[i].Receipt?
  }

  /** The verdict that what happened calls for. */
  ghost function Due(c: Client, tx: Tx, max: nat): Verdict
    reads c
  {
    if tx.from.None? then MissingFrom
    else if c.nonceAnswer.None? then NonceUnavailable
    else if c.accepted == [] then SendFailed
    else if SawMined(c.ends) || ReceiptFound(c.lookups) then Success
    else if Refused(c.sent, c.accepted) then ReplacementRejected
    else Unconfirmed(Min(max, Timeouts(c.ends)))
  }

  /** What a verdict promises about everything that was sent, watched and looked up. */
  ghost predicate Justified(c: Client, tx: Tx, percent: nat, max: nat, v: Verdict)
    reads c
  {
    && v == Due(c, tx, max)
    && WatchesLatest(c.accepted, c.watched, c.ends)
    && (c.sent != [] ==> c.nonceAnswer.Some? && Submissions(c.sent, tx, c.nonceAnswer.value, percent))
    && (tx.from.None? || c.nonceAnswer.None? ==> c.Untouched())
    && (tx.from.Some? && c.nonceAnswer.Some? ==> c.sent != [])
    && (c.accepted == [] ==> |c.sent| <= 1 && c.ends == [] && c.looked == [])
    && (c.accepted != [] ==>
          Over(c.sent, c.accepted, c.ends, max) && LookedUp(c.accepted, c.looked, c.lookups, SawMined(c.ends)))
  }

  lemma EndsPush(s: Schedule, before: seq<Watched>, w: Watched)
    requires Undecided(s, before)
    ensures var step := Step(After(s, before), Classify(w));
      After(s, before + [w]) == step.0 && (Undecided(s, before + [w]) <==> step.1.Replace? || step.1.Rewatch?)
    ensures Timeouts(before + [w]) == Timeouts(before) + (if w.WatchTimeout? then 1 else 0)
    ensures TrailingErrors(before + [w]) == if w.OtherError? then 1 + TrailingErrors(before) else 0
  {
    assert (before + [w])[..|before|] == before;
  }

  lemma EarlierPush(before: seq<Watched>, w: Watched, max: nat)
    requires NeverEarlier(before, max) && GoesOn(before, max)
    ensures NeverEarlier(before + [w], max)
  {
    hide GoesOn;
    var ends := before + [w];
    forall i | 0 <= i < |ends| ensures GoesOn(ends[..i], max) {
      assert ends[..i] == before[..i];
      if i == |before| { assert before[..i] == before; }
    }
  }

  lemma SubmissionsPush(sent: seq<Tx>, tx: Tx, nonce: nat, percent: nat)
    requires Submissions(sent, tx, nonce, percent)
    ensures Submissions(sent + [tx.(nonce := Some(nonce), fees := NthFees(tx.fees, percent, |sent|))], tx, nonce,
        percent)
  {
  }

  lemma NothingHappened(s: Schedule, tx: Tx, nonce: nat)
    ensures After(s, []) == s && Undecided(s, []) && Submissions([], tx, nonce, s.percent)
        && NthFees(tx.fees, s.percent, 0) == tx.fees
  {
  }

  lemma NextFees(initial: Fees, percent: nat, n: nat)
    ensures NthFees(initial, percent, n + 1) == Escalate(NthFees(initial, percent, n), percent)
  {
  }

  /** What was sent is always at the pinned nonce and the newest submission is watched. */
  ghost predicate Orderly(c: Client, tx: Tx, percent: nat)
    reads c
  {
    && tx.from.Some? && c.nonceAnswer.Some? && c.sent != []
    && Submissions(c.sent, tx, c.nonceAnswer.value, percent) && WatchesLatest(c.accepted, c.watched, c.ends)
  }

  lemma SweepJustifies(c: Client, tx: Tx, percent: nat, max: nat, mined: bool)
    requires Orderly(c, tx, percent) && Over(c.sent, c.accepted, c.ends, max) && !SawMined(c.ends)
    requires Swept(c.accepted, [], c.looked, [], c.lookups, mined)
    ensures Justified(c, tx, percent, max, if mined then Success
        else if Refused(c.sent, c.accepted) then ReplacementRejected else Unconfirmed(Min(max, Timeouts(c.ends))))
  {
    assert c.looked[0..] == c.looked;
    if !mined {
      assert c.looked == [] + c.accepted;
    }
  }

  lemma NothingWatched(max: nat)
    ensures WatchesLatest([], [], []) && NeverEarlier([], max) && Timeouts([]) == 0
  {
  }

  lemma UnsentJustifies(c: Client, tx: Tx, percent: nat, max: nat)
    requires c.Untouched() && (tx.from.None? || c.nonceAnswer.None?)
    ensures Justified(c, tx, percent, max, if tx.from.None? then MissingFrom else NonceUnavailable)
  {
  }

  lemma RejectionJustifies(c: Client, tx: Tx, percent: nat, max: nat)
    requires Orderly(c, tx, percent) && |c.sent| == 1 && c.accepted == [] && c.ends == [] && c.looked == []
    ensures Justified(c, tx, percent, max, SendFailed)
  {
  }

  lemma WatchJustifies(c: Client, tx: Tx, percent: nat, max: nat)
    requires Orderly(c, tx, percent) && Over(c.sent, c.accepted, c.ends, max) && SawMined(c.ends)
    requires c.looked == [] && c.lookups == []
    ensures Justified(c, tx, percent, max, Success)
  {
  }

  /** One watch of the newest submission, and what the schedule makes of its outcome. */
  method WatchOnce(c: Client, schedule: ReplacementSchedule, hash: Hash, ghost begin: Schedule)
    returns (watched: Watched, step: NextStep)
    requires begin == Begin(schedule.percent, schedule.maxReplacements, begin.fees)
    requires schedule.View() == After(begin, c.ends) && Undecided(begin, c.ends)
    requires WatchesLatest(c.accepted, c.watched, c.ends) && schedule.issued < |c.accepted|
        && hash == c.accepted[schedule.issued]
    requires NeverEarlier(c.ends, schedule.maxReplacements)
    modifies c`watched, c`ends, c`asked, schedule
    ensures c.ends == old(c.ends) + [watched] && |c.ends| <= 4 * (schedule.maxReplacements + 1)
    ensures WatchesLatest(c.accepted, c.watched, c.ends) && NeverEarlier(c.ends, schedule.maxReplacements)
    ensures schedule.View() == After(begin, c.ends)
    ensures var max, before := schedule.maxReplacements, old(schedule.issued);
      match step {
        case Finished => watched.Mined? && Timeouts(c.ends) == before && TrailingErrors(c.ends) == 0 && before <= max
        case GiveUp => !watched.Mined? && Exhausted(c.ends, max) && Min(max, Timeouts(c.ends)) == before
        case Rewatch =>
          && watched.OtherError? && Undecided(begin, c.ends) && schedule.issued == before == Timeouts(c.ends) <= max
          && schedule.fees == old(schedule.fees)
        case Replace(fees) =>
          && watched.WatchTimeout? && Undecided(begin, c.ends)
          && schedule.issued == before + 1 == Timeouts(c.ends) <= max
          && fees == schedule.fees == NthFees(begin.fees, schedule.percent, schedule.issued)
          && TrailingErrors(c.ends) == 0
      }
    ensures step.GiveUp? || step.Finished? ==> schedule.issued == old(schedule.issued)
  {
    hide After, Undecided, NthFees, WatchesLatest, Timeouts, TrailingErrors, Escalate, NeverEarlier, GoesOn;
    CountersMeanOutcomes(schedule.percent, schedule.maxReplacements, begin.fees, c.ends);
    NextFees(begin.fees, schedule.percent, schedule.issued);
    ghost var before, earlier := c.ends, c.watched;
    watched := c.Watch(hash);
    WatchPush(c.accepted, earlier, before, hash, watched);
    EndsPush(begin, before, watched);
    EarlierPush(before, watched, schedule.maxReplacements);
    Bounds(before, schedule.maxReplacements);
    step := schedule.Next(Classify(watched));
  }

  lemma Bounds(ends: seq<Watched>, max: nat)
    requires GoesOn(ends, max)
    ensures Timeouts(ends) <= max && TrailingErrors(ends) <= 3
  {
  }

  /** The last check behind every failure verdict. */
  method Conclude(c: Client, hashes: seq<Hash>, otherwise: Verdict, ghost tx: Tx, ghost percent: nat, ghost max: nat)
    returns (v: Verdict)
    requires Orderly(c, tx, percent) && Over(c.sent, c.accepted, c.ends, max) && !SawMined(c.ends)
    requires hashes == c.accepted && c.looked == [] && c.lookups == []
    requires otherwise == if Refused(c.sent, c.accepted) then ReplacementRejected
        else Unconfirmed(Min(max, Timeouts(c.ends)))
    modifies c`looked, c`lookups, c`asked
    ensures Justified(c, tx, percent, max, v)
  {
    hide Swept, Submissions, WatchesLatest, Justified, Over;
    var mined := c.AnyMined(hashes);
    SweepJustifies(c, tx, percent, max, mined);
    return if mined then Success else otherwise;
  }

  /** Sends the next submission at the pinned nonce. */
  method Resend(c: Client, current: Tx, hashes: seq<Hash>, ghost tx: Tx, ghost nonce: nat, ghost percent: nat)
    returns (resent: Option<Hash>)
    requires Submissions(c.sent, tx, nonce, percent) && hashes == c.accepted
    requires current == tx.(nonce := Some(nonce), fees := NthFees(tx.fees, percent, |c.sent|))
    requires WatchesLatest(c.accepted, c.watched, c.ends)
    modifies c`sent, c`accepted, c`asked
    ensures |c.sent| == |old(c.sent)| + 1 && Submissions(c.sent, tx, nonce, percent)
    ensures c.accepted == if resent.Some? then hashes + [resent.value] else hashes
    ensures WatchesLatest(c.accepted, c.watched, c.ends)
  {
    hide Submissions, WatchesLatest, NthFees;
    SubmissionsPush(c.sent, tx, nonce, percent);
    resent := c.Send(current);
    assert hashes + [] == hashes;
    if resent.Some? { AcceptedPush(hashes, c.watched, c.ends, resent.value); }
  }

  /** The whole loop. Its verdict is the one that the watches, the sends and the receipts call for (`Justified`). */
  method SendWithReplacement(c: Client, tx: Tx, percent: nat, max: nat) returns (v: Verdict)
    requires c.Untouched()
    modifies c
    ensures Justified(c, tx, percent, max, v)
  {
    hide After, Undecided, Submissions, NthFees, Escalate, Timeouts, TrailingErrors, Swept, WatchesLatest, Justified,
        NeverEarlier, GoesOn;
    NothingWatched(max);
    if tx.from.None? {
      UnsentJustifies(c, tx, percent, max);
      return MissingFrom;
    }
    if c.nonceAnswer.None? {
      UnsentJustifies(c, tx, percent, max);
      return NonceUnavailable;
    }
    var nonce, initial := c.nonceAnswer.value, tx.fees;
    ghost var begin := Begin(percent, max, initial);
    NothingHappened(begin, tx, nonce);
    SubmissionsPush([], tx, nonce, percent);
    var current := tx.(nonce := Some(nonce));
    var first := c.Send(current);
    assert c.sent == [] + [current];
    if first.None? {
      RejectionJustifies(c, tx, percent, max);
      return SendFailed;
    }
    AcceptedPush([], [], [], first.value);
    var hash := first.value;
    var hashes := [hash];
    var schedule := new ReplacementSchedule(percent, max, initial);
    while true
      invariant hashes == c.accepted && |hashes| == |c.sent| == schedule.issued + 1 && hash == hashes[|hashes| - 1]
      invariant schedule.View() == After(begin, c.ends) && Undecided(begin, c.ends)
      invariant Submissions(c.sent, tx, nonce, percent) && current == tx.(nonce := Some(nonce), fees := schedule.fees)
      invariant c.looked == [] && c.lookups == [] && WatchesLatest(c.accepted, c.watched, c.ends)
      invariant |c.ends| <= 4 * (max + 1) && schedule.issued == Timeouts(c.ends) <= max && NeverEarlier(c.ends, max)
      decreases 4 * (max + 1) - |c.ends|
    {
      var watched, step := WatchOnce(c, schedule, hash, begin);
      match step {
        case Finished =>
          WatchJustifies(c, tx, percent, max);
          return Success;
        case GiveUp =>
          v := Conclude(c, hashes, Unconfirmed(schedule.issued), tx, percent, max);
          return;
        case Rewatch =>
          hash := hashes[|hashes| - 1];
        case Replace(next) =>
          current := current.(fees := next);
          var resent := Resend(c, current, hashes, tx, nonce, percent);
          if resent.None? {
            v := Conclude(c, hashes, ReplacementRejected, tx, percent, max);
            return;
          }
          hash := resent.value;
          hashes := hashes + [hash];
      }
    }
  }
}
