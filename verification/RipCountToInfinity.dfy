/** A dead router.  Without split horizon its neighbours count up together; here the count
    is shown to reach infinity within eleven rounds. */
module RipCountToInfinity {
  import opened Wire
  import opened RoutingTables
  import opened RipRouters
  import opened RipNetwork
  import opened RipCleanRuns
  import opened RipRounds

  ghost function LiveLinks(g: Graph, dead: Node): Graph {
    set l | l in g && l.src != dead && l.dst != dead
  }

  ghost predicate RowAbove(s: State, v: Node, dead: Node, k: nat) {
    v != dead && RowAt(s, v, dead).taken ==> RowAt(s, v, dead).dist >= k
  }

  /** Live routers are at k or further from the dead one, and nothing in flight between
      them can bring one below k. */
  ghost predicate Floor(g: Graph, s: State, dead: Node, k: nat) {
    && (forall v: Node :: RowAbove(s, v, dead, k))
    && forall l <- LiveLinks(g, dead), i | 0 <= i < |Queue(s, l)| && Queue(s, l)[i].net == dead ::
         Queue(s, l)[i].dist >= k - 1
  }

  lemma SendKeepsFloor(g: Graph, s: State, step: Step, dead: Node, k: nat)
    requires ValidGraph(g) && WellFormed(g, s) && Enabled(g, s, step) && Clean(step) && step.Send?
    requires Floor(g, s, dead, k) && step.link in LiveLinks(g, dead)
    ensures Floor(g, Apply(g, s, step), dead, k)
  {
    var s' := Apply(g, s, step);
    CleanSendEffect(g, s, step);
    forall v: Node
      ensures RowAbove(s', v, dead, k)
    {
      assert RowAbove(s, v, dead, k);
    }
    forall l <- LiveLinks(g, dead), i | 0 <= i < |Queue(s', l)| && Queue(s', l)[i].net == dead
      ensures Queue(s', l)[i].dist >= k - 1
    {
      SendExtendsQueue(g, s, step, l);
      assert RowAbove(s, l.src, dead, k);
    }
  }

  lemma DeliverKeepsFloor(g: Graph, s: State, step: Step, dead: Node, k: nat)
    requires ValidGraph(g) && WellFormed(g, s) && Enabled(g, s, step) && Clean(step) && step.Deliver?
    requires Floor(g, s, dead, k) && step.link in LiveLinks(g, dead) && k <= RIP_MAX_HOP
    ensures Floor(g, Apply(g, s, step), dead, k)
  {
    var s' := Apply(g, s, step);
    DeliverEffect(g, s, step);
    forall v: Node
      ensures RowAbove(s', v, dead, k)
    {
      assert RowAbove(s, v, dead, k);
    }
    forall l <- LiveLinks(g, dead), i | 0 <= i < |Queue(s', l)| && Queue(s', l)[i].net == dead
      ensures Queue(s', l)[i].dist >= k - 1
    {
      DeliverShiftsQueue(g, s, step, l);
    }
  }

  lemma StepKeepsFloor(g: Graph, s: State, step: Step, dead: Node, k: nat)
    requires ValidGraph(g) && WellFormed(g, s) && Enabled(g, s, step) && Clean(step)
    requires Floor(g, s, dead, k) && step.link in LiveLinks(g, dead) && k <= RIP_MAX_HOP
    ensures Floor(g, Apply(g, s, step), dead, k)
  {
    if step.Send? {
      SendKeepsFloor(g, s, step, dead, k);
    } else {
      DeliverKeepsFloor(g, s, step, dead, k);
    }
  }

  /** The receiver of l holds distance exactly k, learned from the sender of l. */
  ghost predicate Stuck(s: State, l: Link, dead: Node, k: nat) {
    var row := RowAt(s, l.dst, dead);
    row.taken && row.route == l.src && row.dist == k
  }

  ghost predicate FreshFrom(q: seq<Advert>, from: nat, dead: Node, k: nat) {
    forall j | from <= j < |q| && q[j].net == dead :: q[j].dist >= k
  }

  ghost predicate AboutDead(q: seq<Advert>, from: nat, to: nat, dead: Node) {
    exists j :: from <= j < to && j < |q| && q[j].net == dead
  }

  /** Link l during a round that starts on floor k: once its first table of the round is
      delivered, nothing below k is left on it and its receiver is not stuck at k. */
  ghost predicate Rising(s: State, m: Monitor, l: Link, dead: Node, k: nat) {
    var q := Queue(s, l);
    match Status(m, l)
    case Waiting => true
    case Pending(stale, left) =>
      && stale <= left <= |q| && FreshFrom(q, stale, dead, k)
      && (AboutDead(q, stale, left, dead) || (!AboutDead(q, 0, stale, dead) && !Stuck(s, l, dead, k)))
    case Done => FreshFrom(q, 0, dead, k) && !Stuck(s, l, dead, k)
  }

  lemma QueueExtended(q: seq<Advert>, q': seq<Advert>, stale: nat, left: nat, dead: Node, k: nat)
    requires stale <= left <= |q| <= |q'| && (forall i | 0 <= i < |q| :: q'[i] == q[i])
    requires FreshFrom(q', |q|, dead, k)
    ensures FreshFrom(q, stale, dead, k) ==> FreshFrom(q', stale, dead, k)
    ensures AboutDead(q, stale, left, dead) ==> AboutDead(q', stale, left, dead)
    ensures AboutDead(q', 0, stale, dead) ==> AboutDead(q, 0, stale, dead)
  {
    if AboutDead(q, stale, left, dead) {
      var j :| stale <= j < left && j < |q| && q[j].net == dead;
      assert q'[j].net == dead;
    }
    if AboutDead(q', 0, stale, dead) {
      var j :| 0 <= j < stale && j < |q'| && q'[j].net == dead;
      assert q[j].net == dead;
    }
  }

  lemma HeadRemoved(q: seq<Advert>, q': seq<Advert>, stale: nat, left: nat, dead: Node, k: nat)
    requires stale <= left <= |q| && 1 <= left && |q'| == |q| - 1 && (forall i | 0 <= i < |q'| :: q'[i] == q[i + 1])
    ensures var stale' := if stale == 0 then 0 else stale - 1;
            && (FreshFrom(q, stale, dead, k) ==> FreshFrom(q', stale', dead, k))
            && (AboutDead(q, stale, left, dead) && (stale > 0 || q[0].net != dead) ==>
                  AboutDead(q', stale', left - 1, dead))
            && (AboutDead(q', 0, stale', dead) ==> AboutDead(q, 0, stale, dead))
            && (stale > 0 && q[0].net == dead ==> AboutDead(q, 0, stale, dead))
  {
    var stale' := if stale == 0 then 0 else stale - 1;
    if AboutDead(q, stale, left, dead) && (stale > 0 || q[0].net != dead) {
      var j :| stale <= j < left && j < |q| && q[j].net == dead;
      assert q'[j - 1].net == dead;
    }
    if AboutDead(q', 0, stale', dead) {
      var j :| 0 <= j < stale' && j < |q'| && q'[j].net == dead;
      assert q[j + 1].net == dead;
    }
  }

  lemma SendKeepsRising(g: Graph, s: State, m: Monitor, step: Step, l: Link, dead: Node, k: nat)
    requires ValidGraph(g) && WellFormed(g, s) && Enabled(g, s, step) && Clean(step) && step.Send?
    requires Floor(g, s, dead, k) && l in LiveLinks(g, dead) && Rising(s, m, l, dead, k)
    ensures Rising(Apply(g, s, step), Watch(g, s, m, step), l, dead, k)
  {
    var (q, q') := (Queue(s, l), Queue(Apply(g, s, step), l));
    SendExtendsQueue(g, s, step, l);
    assert RowAbove(s, l.src, dead, k);
    assert FreshFrom(q', |q|, dead, k);
    match Status(m, l)
    case Waiting =>
      if l == step.link {
        FirstTableIsFresh(g, s, step, dead, k);
      }
    case Done => QueueExtended(q, q', 0, 0, dead, k);
    case Pending(stale, left) => QueueExtended(q, q', stale, left, dead, k);
  }

  lemma FirstTableIsFresh(g: Graph, s: State, step: Step, dead: Node, k: nat)
    requires ValidGraph(g) && WellFormed(g, s) && Enabled(g, s, step) && Clean(step) && step.Send?
    requires step.link in LiveLinks(g, dead)
    ensures var (l, q, q') := (step.link, Queue(s, step.link), Queue(Apply(g, s, step), step.link));
            AboutDead(q', |q|, |q'|, dead) || (!AboutDead(q', 0, |q|, dead) && !Stuck(Apply(g, s, step), l, dead, k))
  {
    var (l, q, q') := (step.link, Queue(s, step.link), Queue(Apply(g, s, step), step.link));
    CleanSendEffect(g, s, step);
    SendExtendsQueue(g, s, step, l);
    assert RowOk(g, s, l.dst, dead);
    if RowAt(s, l.src, dead).taken {
      var j :| |q| <= j < |q'| && q'[j] == Advert(l.src, dead, RowAt(s, l.src, dead).dist);
      assert q'[j].net == dead;
    } else {
      forall j | 0 <= j < |q|
        ensures q'[j].net != dead
      {
        assert PacketOk(s, l, q[j]);
      }
    }
  }

  /** An advert at k or more from its own next hop dislodges a row at k. */
  lemma DeliverUnsticks(g: Graph, s: State, step: Step, l: Link, dead: Node, k: nat)
    requires ValidGraph(g) && WellFormed(g, s) && Enabled(g, s, step) && Clean(step) && step.Deliver?
    requires l in LiveLinks(g, dead) && step.link in LiveLinks(g, dead) && k < RIP_MAX_HOP
    ensures var a := Queue(s, step.link)[0];
            Stuck(Apply(g, s, step), l, dead, k) ==>
            if l == step.link && a.net == dead then a.dist < k else Stuck(s, l, dead, k)
  {
    DeliverEffect(g, s, step);
  }

  lemma DeliverKeepsRising(g: Graph, s: State, m: Monitor, step: Step, l: Link, dead: Node, k: nat)
    requires ValidGraph(g) && WellFormed(g, s) && Enabled(g, s, step) && Clean(step) && step.Deliver?
    requires l in LiveLinks(g, dead) && Rising(s, m, l, dead, k) && k < RIP_MAX_HOP
    requires step.link in LiveLinks(g, dead)
    ensures Rising(Apply(g, s, step), Watch(g, s, m, step), l, dead, k)
  {
    var (q, q') := (Queue(s, l), Queue(Apply(g, s, step), l));
    DeliverShiftsQueue(g, s, step, l);
    DeliverUnsticks(g, s, step, l, dead, k);
    if l != step.link {
      assert q' == q;
    } else {
      match Status(m, l)
      case Waiting =>
      case Done =>
      case Pending(stale, left) =>
        if left >= 1 {
          HeadRemoved(q, q', stale, left, dead, k);
        }
    }
  }

  lemma {:induction false} RunKeepsRising(g: Graph, s: State, m: Monitor, steps: seq<Step>, l: Link, dead: Node, k: nat)
    requires ValidGraph(g) && WellFormed(g, s) && Legal(g, s, steps) && AllClean(steps)
    requires forall step <- steps :: step.link in LiveLinks(g, dead)
    requires Floor(g, s, dead, k) && l in LiveLinks(g, dead) && Rising(s, m, l, dead, k) && 1 <= k < RIP_MAX_HOP
    ensures var s' := Exec(g, s, steps);
            && WellFormed(g, s') && Floor(g, s', dead, k)
            && Rising(s', Watched(g, s, m, steps), l, dead, k)
    decreases |steps|
  {
    if steps != [] {
      var (s', m') := (Apply(g, s, steps[0]), Watch(g, s, m, steps[0]));
      StepKeepsWellFormed(g, s, steps[0]);
      StepKeepsFloor(g, s, steps[0], dead, k);
      if steps[0].Send? {
        SendKeepsRising(g, s, m, steps[0], l, dead, k);
      } else {
        DeliverKeepsRising(g, s, m, steps[0], l, dead, k);
      }
      RunKeepsRising(g, s', m', steps[1..], l, dead, k);
    }
  }

  lemma {:induction false} RunKeepsFloor(g: Graph, s: State, steps: seq<Step>, dead: Node, k: nat)
    requires ValidGraph(g) && WellFormed(g, s) && Legal(g, s, steps) && AllClean(steps)
    requires forall step <- steps :: step.link in LiveLinks(g, dead)
    requires Floor(g, s, dead, k) && k <= RIP_MAX_HOP
    ensures WellFormed(g, Exec(g, s, steps)) && Floor(g, Exec(g, s, steps), dead, k)
    decreases |steps|
  {
    if steps != [] {
      StepKeepsWellFormed(g, s, steps[0]);
      StepKeepsFloor(g, s, steps[0], dead, k);
      RunKeepsFloor(g, Apply(g, s, steps[0]), steps[1..], dead, k);
    }
  }

  /** One round among the live routers raises the floor. */
  lemma RoundRaisesFloor(g: Graph, s: State, steps: seq<Step>, dead: Node, k: nat)
    requires ValidGraph(g) && WellFormed(g, s) && CompleteRound(g, LiveLinks(g, dead), s, steps)
    requires Floor(g, s, dead, k) && 1 <= k < RIP_MAX_HOP
    ensures WellFormed(g, Exec(g, s, steps)) && Floor(g, Exec(g, s, steps), dead, k + 1)
  {
    var (s', raised) := (Exec(g, s, steps), k + 1);
    RunKeepsFloor(g, s, steps, dead, k);
    forall l <- LiveLinks(g, dead)
      ensures FreshFrom(Queue(s', l), 0, dead, k) && !Stuck(s', l, dead, k)
    {
      RunKeepsRising(g, s, map[], steps, l, dead, k);
    }
    forall v: Node
      ensures RowAbove(s', v, dead, raised)
    {
      assert RowAbove(s', v, dead, k) && RowOk(g, s', v, dead);
      RowRises(g, s', v, dead, k);
    }
  }

  lemma RowRises(g: Graph, s: State, v: Node, dead: Node, k: nat)
    requires ValidGraph(g) && RowAbove(s, v, dead, k) && RowOk(g, s, v, dead) && 1 <= k < RIP_MAX_HOP
    requires forall l <- LiveLinks(g, dead) :: !Stuck(s, l, dead, k)
    ensures RowAbove(s, v, dead, k + 1)
  {
    var row := RowAt(s, v, dead);
    if v != dead && row.taken && row.dist == k {
      assert Link(row.route, v) in LiveLinks(g, dead) && Stuck(s, Link(row.route, v), dead, k);
    }
  }

  lemma {:induction false} RoundsRaiseFloor(g: Graph, s: State, rounds: seq<seq<Step>>, dead: Node, k: nat)
    requires ValidGraph(g) && WellFormed(g, s) && CompleteRounds(g, LiveLinks(g, dead), s, rounds)
    requires Floor(g, s, dead, k) && 1 <= k <= RIP_MAX_HOP
    ensures var s' := AfterRounds(g, LiveLinks(g, dead), s, rounds);
            WellFormed(g, s') &&
            Floor(g, s', dead, if k + |rounds| >= RIP_MAX_HOP then RIP_MAX_HOP else k + |rounds|)
    decreases |rounds|
  {
    if rounds != [] {
      if k < RIP_MAX_HOP {
        RoundRaisesFloor(g, s, rounds[0], dead, k);
        RoundsRaiseFloor(g, Exec(g, s, rounds[0]), rounds[1..], dead, k + 1);
      } else {
        RunKeepsFloor(g, s, rounds[0], dead, k);
        RoundsRaiseFloor(g, Exec(g, s, rounds[0]), rounds[1..], dead, k);
      }
    }
  }

  // ----- the death is noticed ------------------------------------------------

  ghost predicate NothingFrom(dead: Node, steps: seq<Step>) {
    forall step <- steps :: step.Deliver? ==> step.link.src != dead
  }

  /** v has stopped calling the dead router direct, or sends to it in vain during the steps. */
  ghost predicate Notices(s: State, v: Node, dead: Node, steps: seq<Step>) {
    RowAbove(s, v, dead, 1) || Send(Link(v, dead), {}) in steps
  }

  lemma {:induction false} NothingGetsThrough(me: nat, t: Table, k: nat)
    requires k <= MAX_ROUTERS
    ensures AdvertsUpTo(me, t, {}, k) == []
  {
    if k > 0 {
      NothingGetsThrough(me, t, k - 1);
    }
  }

  /** Only a packet from the dead router itself could make it direct again. */
  lemma StepKeepsNoticed(g: Graph, s: State, step: Step, v: Node, dead: Node)
    requires ValidGraph(g) && WellFormed(g, s) && Enabled(g, s, step)
    requires step.Deliver? ==> step.link.src != dead
    requires RowAbove(s, v, dead, 1) || step == Send(Link(v, dead), {})
    ensures RowAbove(Apply(g, s, step), v, dead, 1)
  {
    match step
    case Send(l, _) =>
      SendEffect(g, s, step);
      if step == Send(Link(v, dead), {}) {
        NothingGetsThrough(v, s.routers[v].table, MAX_ROUTERS);
      }
    case Deliver(l, at, _) =>
      DeliverEffect(g, s, step);
      assert PacketOk(s, l, Queue(s, l)[at]);
    case Lose(_, _) =>
  }

  lemma {:induction false} DeathIsNoticed(g: Graph, s: State, steps: seq<Step>, v: Node, dead: Node)
    requires ValidGraph(g) && WellFormed(g, s) && Legal(g, s, steps) && NothingFrom(dead, steps)
    requires Notices(s, v, dead, steps)
    ensures WellFormed(g, Exec(g, s, steps)) && RowAbove(Exec(g, s, steps), v, dead, 1)
    decreases |steps|
  {
    if steps != [] {
      assert steps == [steps[0]] + steps[1..];
      StepKeepsWellFormed(g, s, steps[0]);
      if RowAbove(s, v, dead, 1) || steps[0] == Send(Link(v, dead), {}) {
        StepKeepsNoticed(g, s, steps[0], v, dead);
      }
      DeathIsNoticed(g, Apply(g, s, steps[0]), steps[1..], v, dead);
    }
  }

  /** From any state the network can reach, however badly its packets were treated: once the
      dead router's packets are gone and each neighbour that still called it direct has sent
      to it in vain, every live row for it has a distance above r after r rounds, and
      infinity after eleven. */
  lemma CountingEnds(g: Graph, s0: State, past: seq<Step>, noticing: seq<Step>, rounds: seq<seq<Step>>, dead: Node,
                     v: Node)
    requires ValidGraph(g) && Initial(g, s0) && Legal(g, s0, past)
    requires Legal(g, Exec(g, s0, past), noticing) && NothingFrom(dead, noticing)
    requires forall u: Node | u != dead :: Notices(Exec(g, s0, past), u, dead, noticing)
    requires CompleteRounds(g, LiveLinks(g, dead), Exec(g, Exec(g, s0, past), noticing), rounds)
    requires v != dead
    ensures var row := RowAt(AfterRounds(g, LiveLinks(g, dead), Exec(g, Exec(g, s0, past), noticing), rounds), v, dead);
            row.taken ==>
            row.dist <= 12 && (row.dist > |rounds| || row.dist == 12) && (|rounds| >= 11 ==> row.dist == 12)
  {
    DeathSetsFloor(g, s0, past, noticing, dead);
    CountingFromOne(g, Exec(g, Exec(g, s0, past), noticing), rounds, dead, v);
  }

  lemma DeathSetsFloor(g: Graph, s0: State, past: seq<Step>, noticing: seq<Step>, dead: Node)
    requires ValidGraph(g) && Initial(g, s0) && Legal(g, s0, past)
    requires Legal(g, Exec(g, s0, past), noticing) && NothingFrom(dead, noticing)
    requires forall u: Node | u != dead :: Notices(Exec(g, s0, past), u, dead, noticing)
    ensures var s := Exec(g, Exec(g, s0, past), noticing); WellFormed(g, s) && Floor(g, s, dead, 1)
  {
    var s := Exec(g, Exec(g, s0, past), noticing);
    InitialIsWellFormed(g, s0);
    RunKeepsWellFormed(g, s0, past);
    RunKeepsWellFormed(g, Exec(g, s0, past), noticing);
    forall u: Node
      ensures RowAbove(s, u, dead, 1)
    {
      if u != dead {
        DeathIsNoticed(g, Exec(g, s0, past), noticing, u, dead);
      }
    }
    forall l <- LiveLinks(g, dead), i | 0 <= i < |Queue(s, l)| && Queue(s, l)[i].net == dead
      ensures Queue(s, l)[i].dist >= 0
    {
      assert PacketOk(s, l, Queue(s, l)[i]);
    }
  }

  lemma CountingFromOne(g: Graph, s: State, rounds: seq<seq<Step>>, dead: Node, v: Node)
    requires ValidGraph(g) && WellFormed(g, s) && CompleteRounds(g, LiveLinks(g, dead), s, rounds)
    requires Floor(g, s, dead, 1) && v != dead
    ensures var row := RowAt(AfterRounds(g, LiveLinks(g, dead), s, rounds), v, dead);
            row.taken ==>
            row.dist <= 12 && (row.dist > |rounds| || row.dist == 12) && (|rounds| >= 11 ==> row.dist == 12)
  {
    RoundsRaiseFloor(g, s, rounds, dead, 1);
    var s' := AfterRounds(g, LiveLinks(g, dead), s, rounds);
    assert RowAbove(s', v, dead, if 1 + |rounds| >= RIP_MAX_HOP then RIP_MAX_HOP else 1 + |rounds|);
    assert RowOk(g, s', v, dead);
  }
}
