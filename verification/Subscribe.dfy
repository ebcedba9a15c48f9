/** `Persisted::subscribe`: the boundary arithmetic that ties replay, backfill and live tail together. */
module Subscribe {
  import opened Base
  import opened Positions
  import opened Store
  import opened Streams
  import opened WindowSpec
  import opened Pipeline
  import opened Backfill
  import opened Session
  import opened Slices

  datatype Config = Config(startBlock: nat, chunk: nat, toBlock: Option<nat>)

  function EffectiveTip(cfg: Config, tip: nat): nat {
    match cfg.toBlock
    case None => tip
    case Some(b) => Min(b, tip)
  }

  function ResumeFrom(policy: Reobservation, cfg: Config, last: Option<Position>): nat {
    Max(match last case None => 0 case Some(p) => ResumeKey(policy, p), cfg.startBlock)
  }

  function FinalCut(cfg: Config, depth: nat, tip: nat): Option<nat> {
    if cfg.toBlock.Some? then Some(EffectiveTip(cfg, tip))
    else if depth <= EffectiveTip(cfg, tip) then Some(EffectiveTip(cfg, tip) - depth)
    else None
  }

  function ReplayUpTo(cfg: Config, last: Option<Position>): Option<Position> {
    if cfg.toBlock.Some? && last.Some? && last.value.key > cfg.toBlock.value
    then Some(FromSortKey(cfg.toBlock.value)) else last
  }

  /** What the world does during one subscription: the reported tip, the provider's
      answers, and where the consumer stops (a crash is just stopping). */
  datatype Stop = InBackfill(taken: nat) | InLive(live: seq<Indexed>)
  datatype Visit = Visit(cfg: Config, tip: nat, answer: Provider, stop: Stop)

  function AsBlocks(es: seq<Keyed<Event>>): seq<Positioned> {
    seq(|es|, i requires 0 <= i < |es| => Positioned(FromSortKey(es[i].key), es[i].value))
  }

  function GapOf(env: Env, cfg: Config, tip: nat, last: Option<Position>): Gap {
    Gap(FinalCut(cfg, env.depth, tip), last, EffectiveTip(cfg, tip))
  }

  function Backfilled(env: Env, src: seq<Keyed<Event>>, v: Visit, last: Option<Position>): Sliced<Event>
    requires v.cfg.chunk >= 1 && v.tip < U64_MAX
  {
    var from, eff := ResumeFrom(env.policy, v.cfg, last), EffectiveTip(v.cfg, v.tip);
    if from > eff then Sliced([], [], None, []) else Chunks(src, v.answer, 0, from, eff, v.cfg.chunk)
  }

  /** One subscription over a block source; `None` when the subscribe itself errors. */
  function Subscription(env: Env, src: seq<Keyed<Event>>, v: Visit, s: StoreState): Option<Pipe>
    requires v.cfg.chunk >= 1 && v.tip < U64_MAX
  {
    var b := Backfilled(env, src, v, s.position);
    var g, items := GapOf(env, v.cfg, v.tip, s.position), AsBlocks(b.items);
    if b.failed == Some(ResumeFrom(env.policy, v.cfg, s.position)) then None
    else Some(
      match v.stop
      case InBackfill(n) => BackfillRun(env, g.cut, Open(g.cut, g.seed, s), items[..Min(n, |items|)])
      case InLive(live) => Run(env, g, s, items, if b.failed.Some? || v.cfg.toBlock.Some? then [] else live))
  }

  /** What a subscription leaves in the store. */
  function After(env: Env, src: seq<Keyed<Event>>, v: Visit, s: StoreState): StoreState
    requires v.cfg.chunk >= 1 && v.tip < U64_MAX
  {
    var p := Subscription(env, src, v, s);
    if p.None? then s else p.value.store
  }

  /** `checked_sub` makes the cut safe: nothing above it can have `depth` confirmations at the tip. */
  lemma CutIsUnripe(env: Env, cfg: Config, tip: nat)
    requires tip < U64_MAX
    ensures Unripe(env.depth, FinalCut(cfg, env.depth, tip), EffectiveTip(cfg, tip))
  {
  }

  /** Unbounded, what is `depth` deep at the tip; bounded, everything up to the bound and the tip. */
  predicate DeepEnough(cfg: Config, depth: nat, tip: nat, k: nat) {
    if cfg.toBlock.None? then k + depth <= tip else k <= cfg.toBlock.value && k <= tip
  }

  /** A subscription settles exactly that. */
  lemma CutExactly(cfg: Config, depth: nat, tip: nat, k: nat)
    ensures Settles(FinalCut(cfg, depth, tip), k) <==> DeepEnough(cfg, depth, tip, k)
  {
  }
}
