/** Rounds of the protocol.  A round is any interleaving of sends and deliveries in which
    every link carries, from its first packet to its last, one table sent in the round. */
module RipRounds {
  import opened RipNetwork
  import opened RipCleanRuns

  /** Watching one link: no table sent yet; the first table of the round is queued, behind
      `stale` older packets and ending at position `left`; or it has been delivered. */
  datatype Progress = Waiting | Pending(stale: nat, left: nat) | Done

  type Monitor = map<Link, Progress>

  function Status(m: Monitor, l: Link): Progress {
    if l in m then m[l] else Waiting
  }

  function Watch(g: Graph, s: State, m: Monitor, step: Step): Monitor
    requires Enabled(g, s, step)
  {
    match step
    case Send(l, _) =>
      if Status(m, l) == Waiting
      then m[l := Pending(|Queue(s, l)|, |Queue(Apply(g, s, step), l)|)]
      else m
    case Deliver(l, _, _) =>
      (match Status(m, l)
       case Pending(stale, left) =>
         m[l := if left <= 1 then Done else Pending(if stale == 0 then 0 else stale - 1, left - 1)]
       case _ => m)
    case Lose(_, _) => m
  }

  function Watched(g: Graph, s: State, m: Monitor, steps: seq<Step>): Monitor
    requires Legal(g, s, steps)
    decreases |steps|
  {
    if steps == [] then m
    else Watched(g, Apply(g, s, steps[0]), Watch(g, s, m, steps[0]), steps[1..])
  }

  /** A round among the links in live, where nothing else happens. */
  ghost predicate CompleteRound(g: Graph, live: Graph, s: State, steps: seq<Step>) {
    && Legal(g, s, steps) && AllClean(steps)
    && (forall step <- steps :: step.link in live)
    && forall l <- live :: Status(Watched(g, s, map[], steps), l) == Done
  }

  ghost predicate CompleteRounds(g: Graph, live: Graph, s: State, rounds: seq<seq<Step>>)
    decreases |rounds|
  {
    rounds == [] ||
    (CompleteRound(g, live, s, rounds[0]) && CompleteRounds(g, live, Exec(g, s, rounds[0]), rounds[1..]))
  }

  ghost function AfterRounds(g: Graph, live: Graph, s: State, rounds: seq<seq<Step>>): State
    requires CompleteRounds(g, live, s, rounds)
    decreases |rounds|
  {
    if rounds == [] then s else AfterRounds(g, live, Exec(g, s, rounds[0]), rounds[1..])
  }
}
