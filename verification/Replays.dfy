/** The replay-once flag: read when a subscribe opens its stream, set when the stream is first polled. */
module Replays {
  import opened Base
  import opened Store
  import opened Streams
  import opened Positions
  import opened Delivery

  /** A process history: a subscribe over some stored archive, or one poll of the stream opened at index `stream`. */
  datatype Happening = Subscribed(store: StoreState, upTo: Option<Position>) | Polled(stream: nat)

  /** The subscribe's replay decodes; a row that cannot be decoded fails it. */
  predicate Carries(decode: Row -> Option<Event>, h: Happening) {
    h.Subscribed? && Replay(decode, h.store, h.upTo).Some?
  }

  function ArchiveOf(decode: Row -> Option<Event>, h: Happening): seq<Event>
    requires Carries(decode, h)
  {
    Replay(decode, h.store, h.upTo).value
  }

  class ReplayGate {
    var replayed: bool
    /** What is left of each stream that carries the archive behind the marker. */
    var streams: map<nat, seq<Event>>

    constructor ()
      ensures !replayed && streams == map[]
    {
      replayed, streams := false, map[];
    }

    method Subscribe(decode: Row -> Option<Event>, id: nat, h: Happening)
      requires h.Subscribed?
      modifies this
      ensures replayed == old(replayed)
      ensures streams == if !replayed && Carries(decode, h) then old(streams)[id := ArchiveOf(decode, h)]
          else old(streams)
    {
      if !replayed {
        var segment := Replay(decode, h.store, h.upTo);
        if segment.Some? {
          streams := streams[id := segment.value];
        }
      }
    }

    /** One poll: the marker flips the flag, and the poll goes on to the archive's next event. A stream without the
        marker never sets the flag. */
    method Poll(id: nat) returns (item: Option<Event>)
      modifies this
      ensures replayed == (old(replayed) || id in old(streams))
      ensures item == if id in old(streams) && old(streams)[id] != [] then Some(old(streams)[id][0]) else None
      ensures streams == if item.Some? then old(streams)[id := old(streams)[id][1..]] else old(streams)
    {
      item := None;
      if id in streams {
        replayed := true;
        if streams[id] != [] {
          item := Some(streams[id][0]);
          streams := streams[id := streams[id][1..]];
        }
      }
    }
  }

  /** The first poll of a stream whose subscribe could replay; the length of the history if there is none. */
  function FirstConsumption(decode: Row -> Option<Event>, history: seq<Happening>): (f: nat)
    ensures f <= |history|
  {
    if history == [] then 0 else
      var n := |history| - 1;
      var f := FirstConsumption(decode, history[..n]);
      if f < n then f
      else if history[n].Polled? && history[n].stream < n && Carries(decode, history[history[n].stream]) then n
      else n + 1
  }

  /** How often the stream opened at `o` has been polled. */
  function Polls(history: seq<Happening>, o: nat): nat {
    if history == [] then 0 else
      var n := |history| - 1;
      Polls(history[..n], o) + if o < n && history[n] == Polled(o) then 1 else 0
  }

  /** The stream opened at `o` carries the archive: its replay decodes, and no such stream had been polled before. */
  predicate Marked(decode: Row -> Option<Event>, history: seq<Happening>, o: nat) {
    o < FirstConsumption(decode, history) && Carries(decode, history[o])
  }

  /** What the consumer of the stream opened at `o` has received of the archive: one event a poll. */
  function Received(decode: Row -> Option<Event>, history: seq<Happening>, o: nat): seq<Event> {
    if !Marked(decode, history, o) then []
    else
      var archive := ArchiveOf(decode, history[o]);
      archive[..Min(Polls(history, o), |archive|)]
  }

  lemma PollsStep(history: seq<Happening>, n: nat, o: nat)
    requires n < |history|
    ensures Polls(history[..n + 1], o) == Polls(history[..n], o) + if o < n && history[n] == Polled(o) then 1 else 0
  {
    assert history[..n + 1][..n] == history[..n];
  }

  lemma FirstStep(decode: Row -> Option<Event>, history: seq<Happening>, n: nat)
    requires n < |history|
    ensures var f, h := FirstConsumption(decode, history[..n]), history[n];
      FirstConsumption(decode, history[..n + 1])
      == if f < n then f else if h.Polled? && h.stream < n && Carries(decode, history[h.stream]) then n else n + 1
  {
    assert history[..n + 1][..n] == history[..n];
  }

  /** One stream, as the gate holds it after `n` happenings. */
  ghost predicate StreamFollows(decode: Row -> Option<Event>, history: seq<Happening>, n: nat,
                                streams: map<nat, seq<Event>>, out: seq<Keyed<Event>>, o: nat)
    requires n <= |history|
  {
    var before := history[..n];
    && (o in streams <==> Marked(decode, before, o))
    && At(out, o) == Received(decode, before, o)
    && (o in streams && o < n && Carries(decode, history[o]) ==>
        At(out, o) + streams[o] == ArchiveOf(decode, history[o]))
  }

  ghost predicate Follows(decode: Row -> Option<Event>, history: seq<Happening>, n: nat, replayed: bool,
                          streams: map<nat, seq<Event>>, out: seq<Keyed<Event>>)
    requires n <= |history|
  {
    && replayed == (FirstConsumption(decode, history[..n]) < n)
    && forall o: nat :: StreamFollows(decode, history, n, streams, out, o)
  }

  lemma FollowsNothing(decode: Row -> Option<Event>, history: seq<Happening>)
    ensures Follows(decode, history, 0, false, map[], [])
  {
  }

  lemma FollowsSubscribe(decode: Row -> Option<Event>, history: seq<Happening>, n: nat, replayed: bool,
                         streams: map<nat, seq<Event>>, out: seq<Keyed<Event>>)
    requires n < |history| && history[n].Subscribed? && Follows(decode, history, n, replayed, streams, out)
    ensures var streams' := if !replayed && Carries(decode, history[n])
                           then streams[n := ArchiveOf(decode, history[n])] else streams;
      Follows(decode, history, n + 1, replayed, streams', out)
  {
    hide Replay, At, FirstConsumption, Polls;
    FirstStep(decode, history, n);
    var streams' := if !replayed && Carries(decode, history[n]) then streams[n := ArchiveOf(decode, history[n])]
        else streams;
    var m := n + 1;
    forall o: nat ensures StreamFollows(decode, history, m, streams', out, o) {
      assert StreamFollows(decode, history, n, streams, out, o);
      PollsStep(history, n, o);
      if o == n { NotPolledBefore(history, n); }
    }
  }

  /** A stream is not polled before it is opened. */
  lemma {:induction false} NotPolledBefore(history: seq<Happening>, n: nat)
    requires n <= |history|
    ensures Polls(history[..n], n) == 0
  {
    PollsWithin(history[..n], n);
  }

  lemma {:induction false} PollsWithin(history: seq<Happening>, o: nat)
    requires |history| <= o + 1
    ensures Polls(history, o) == 0
  {
    if history != [] { PollsWithin(history[..|history| - 1], o); }
  }

  lemma FollowsPoll(decode: Row -> Option<Event>, history: seq<Happening>, n: nat, replayed: bool,
                    streams: map<nat, seq<Event>>, out: seq<Keyed<Event>>)
    requires n < |history| && history[n].Polled? && Follows(decode, history, n, replayed, streams, out)
    ensures var id := history[n].stream;
      var read := id in streams && streams[id] != [];
      Follows(decode, history, n + 1, replayed || id in streams,
              if read then streams[id := streams[id][1..]] else streams,
              if read then out + [Keyed(id, streams[id][0])] else out)
  {
    hide Replay, At, FirstConsumption, Polls;
    var id := history[n].stream;
    var read := id in streams && streams[id] != [];
    var streams' := if read then streams[id := streams[id][1..]] else streams;
    var out' := if read then out + [Keyed(id, streams[id][0])] else out;
    FirstStep(decode, history, n);
    assert StreamFollows(decode, history, n, streams, out, id);
    var m := n + 1;
    forall o: nat ensures StreamFollows(decode, history, m, streams', out', o) {
      assert StreamFollows(decode, history, n, streams, out, o);
      PollsStep(history, n, o);
      if read { AtPush(out, Keyed(id, streams[id][0]), o); }
      if o == id && o in streams { ReadStep(decode, history, n, streams, out, o); }
    }
  }

  /** One poll of a stream that carries the archive. */
  lemma ReadStep(decode: Row -> Option<Event>, history: seq<Happening>, n: nat, streams: map<nat, seq<Event>>,
                 out: seq<Keyed<Event>>, o: nat)
    requires n < |history| && history[n] == Polled(o) && StreamFollows(decode, history, n, streams, out, o)
        && o in streams
    ensures o < n && Carries(decode, history[o])
    ensures var archive, polls := ArchiveOf(decode, history[o]), Polls(history[..n], o);
      && (streams[o] == [] <==> |archive| <= polls)
      && (streams[o] != [] ==>
            && At(out, o) + [streams[o][0]] == archive[..polls + 1]
            && archive[..polls + 1] + streams[o][1..] == archive)
      && (streams[o] == [] ==> At(out, o) == archive)
  {
    hide Replay, At, Polls;
    var archive, polls := ArchiveOf(decode, history[o]), Polls(history[..n], o);
    assert At(out, o) == archive[..Min(polls, |archive|)];
  }

  /** Runs the history through the gate: each stream's consumer receives exactly its `Received`. */
  method Drive(decode: Row -> Option<Event>, history: seq<Happening>) returns (out: seq<Keyed<Event>>)
    ensures forall o: nat :: At(out, o) == Received(decode, history, o)
    ensures forall a: nat, b: nat | a < b :: At(out, a) != [] && At(out, b) != [] <==> Together(decode, history, a, b)
    ensures forall o | 0 <= o < |history| && Carries(decode, history[o]) && ArchiveOf(decode, history[o]) != [] ::
      At(out, o) == ArchiveOf(decode, history[o]) <==> ReadToEnd(decode, history, o)
  {
    hide ReadToEnd, Follows, Replay, Received, At, Together;
    var gate := new ReplayGate();
    out := [];
    FollowsNothing(decode, history);
    for n := 0 to |history|
      invariant Follows(decode, history, n, gate.replayed, gate.streams, out)
    {
      match history[n] {
        case Subscribed(_, _) =>
          FollowsSubscribe(decode, history, n, gate.replayed, gate.streams, out);
          gate.Subscribe(decode, n, history[n]);
        case Polled(id) =>
          FollowsPoll(decode, history, n, gate.replayed, gate.streams, out);
          var item := gate.Poll(id);
          if item.Some? {
            out := out + [Keyed(id, item.value)];
          }
      }
    }
    FollowsAll(decode, history, gate.replayed, gate.streams, out);
    forall a: nat, b: nat | a < b ensures At(out, a) != [] && At(out, b) != [] <==> Together(decode, history, a, b) {
      TwiceExactly(decode, history, a, b);
    }
    forall o | 0 <= o < |history| && Carries(decode, history[o]) && ArchiveOf(decode, history[o]) != []
      ensures At(out, o) == ArchiveOf(decode, history[o]) <==> ReadToEnd(decode, history, o)
    {
      WholeExactly(decode, history, o);
    }
  }

  lemma FollowsAll(decode: Row -> Option<Event>, history: seq<Happening>, replayed: bool,
                   streams: map<nat, seq<Event>>, out: seq<Keyed<Event>>)
    requires Follows(decode, history, |history|, replayed, streams, out)
    ensures forall o: nat :: At(out, o) == Received(decode, history, o)
  {
    hide Received, At;
    assert history[..|history|] == history;
    forall o: nat ensures At(out, o) == Received(decode, history, o) {
      assert StreamFollows(decode, history, |history|, streams, out, o);
    }
  }

  /** Two streams over archives that are not empty, both opened before any stream that could replay was polled, and both
      polled at some time. */
  predicate Together(decode: Row -> Option<Event>, history: seq<Happening>, a: nat, b: nat) {
    && a < b < FirstConsumption(decode, history) && Carries(decode, history[a]) && Carries(decode, history[b])
    && ArchiveOf(decode, history[a]) != [] && ArchiveOf(decode, history[b]) != []
    && Polls(history, a) > 0 && Polls(history, b) > 0
  }

  /** A stream opened before any stream that could replay was polled, and itself polled once for every archive event. */
  predicate ReadToEnd(decode: Row -> Option<Event>, history: seq<Happening>, o: nat)
    requires o < |history| && Carries(decode, history[o])
  {
    o < FirstConsumption(decode, history) && Polls(history, o) >= |ArchiveOf(decode, history[o])|
  }

  /** Two consumers receive archive events exactly when their streams were opened together. */
  lemma TwiceExactly(decode: Row -> Option<Event>, history: seq<Happening>, a: nat, b: nat)
    requires a < b
    ensures Received(decode, history, a) != [] && Received(decode, history, b) != []
        <==> Together(decode, history, a, b)
  {
    hide Replay;
  }

  /** The archive arrives whole, through some stream, exactly when one that was opened before any was polled is read
      to its end. A stream dropped midway strands the rest: what is opened after the first poll carries nothing. */
  lemma WholeExactly(decode: Row -> Option<Event>, history: seq<Happening>, o: nat)
    requires o < |history| && Carries(decode, history[o]) && ArchiveOf(decode, history[o]) != []
    ensures Received(decode, history, o) == ArchiveOf(decode, history[o]) <==> ReadToEnd(decode, history, o)
  {
    hide Replay;
    var archive := ArchiveOf(decode, history[o]);
    if Polls(history, o) < |archive| {
      assert |Received(decode, history, o)| < |archive|;
    }
  }

  /** A run that replays twice: two streams opened before either is polled. */
  lemma TwoEarlyStreams(decode: Row -> Option<Event>, s: StoreState, upTo: Option<Position>)
    requires Replay(decode, s, upTo).Some? && Replay(decode, s, upTo).value != []
    ensures var history := [Subscribed(s, upTo), Subscribed(s, upTo), Polled(0), Polled(1)];
      Received(decode, history, 0) != [] && Received(decode, history, 1) != []
  {
    hide Replay;
    var history := [Subscribed(s, upTo), Subscribed(s, upTo), Polled(0), Polled(1)];
    HistoryOfFour(decode, history);
    TwiceExactly(decode, history, 0, 1);
  }

  lemma HistoryOfFour(decode: Row -> Option<Event>, history: seq<Happening>)
    requires |history| == 4 && history[0].Subscribed? && history[1].Subscribed?
        && history[2..] == [Polled(0), Polled(1)]
    requires Carries(decode, history[0])
    ensures FirstConsumption(decode, history) == 2 && Polls(history, 0) > 0 && Polls(history, 1) > 0
  {
    hide Replay, FirstConsumption, Polls;
    assert history[2] == history[2..][0] && history[3] == history[2..][1];
    assert history[..4] == history && history[..0] == [];
    NothingPolled(decode);
    FirstStep(decode, history, 0);
    FirstStep(decode, history, 1);
    FirstStep(decode, history, 2);
    FirstStep(decode, history, 3);
    PollsStep(history, 2, 0);
    PollsStep(history, 3, 0);
    PollsStep(history, 3, 1);
  }

  lemma NothingPolled(decode: Row -> Option<Event>)
    ensures FirstConsumption(decode, []) == 0
  {
  }

  /** A run that strands the archive's end: the first stream is dropped after one of its two events, and the next
      subscribe replays nothing. */
  lemma DroppedStreamStrands(decode: Row -> Option<Event>, s: StoreState, upTo: Option<Position>)
    requires Replay(decode, s, upTo).Some? && |Replay(decode, s, upTo).value| == 2
    ensures var history := [Subscribed(s, upTo), Polled(0), Subscribed(s, upTo), Polled(2), Polled(2)];
      && Received(decode, history, 0) == Replay(decode, s, upTo).value[..1]
      && forall o: nat | o > 0 :: Received(decode, history, o) == []
  {
    hide Replay, FirstConsumption, Polls;
    var history := [Subscribed(s, upTo), Polled(0), Subscribed(s, upTo), Polled(2), Polled(2)];
    NothingPolled(decode);
    assert history[..5] == history && history[..0] == [];
    FirstStep(decode, history, 0);
    FirstStep(decode, history, 1);
    FirstStep(decode, history, 2);
    FirstStep(decode, history, 3);
    FirstStep(decode, history, 4);
    NotPolledBefore(history, 0);
    PollsStep(history, 0, 0);
    PollsStep(history, 1, 0);
    PollsStep(history, 2, 0);
    PollsStep(history, 3, 0);
    PollsStep(history, 4, 0);
  }
}
