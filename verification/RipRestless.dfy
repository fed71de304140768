/** Below infinity is needed to go quiet: after a router has died, the others refresh each
    other's rows for it at infinity for ever, and every refresh keeps its router sending. */
module RipRestless {
  import opened Wire
  import opened RoutingTables
  import opened RipRouters
  import opened RipNetwork
  import opened RipCleanRuns
  import opened RipRounds
  import opened RipSchedules
  import opened RipCountToInfinity

  /** A row at infinity that its own next hop refreshes at infinity is rewritten unchanged,
      clears its counter and keeps the router sending. */
  lemma RefreshStirs(g: Graph, s: State, step: Step)
    requires ValidGraph(g) && WellFormed(g, s) && Enabled(g, s, step) && Clean(step) && step.Deliver?
    requires var (l, a) := (step.link, Queue(s, step.link)[0]);
             && a.dist == RIP_MAX_HOP && 0 <= a.net < MAX_ROUTERS
             && RowAt(s, l.dst, a.net) == Learned(a.net, RIP_MAX_HOP, l.src)
    ensures var (s', l, a) := (Apply(g, s, step), step.link, Queue(s, step.link)[0]);
            && RowAt(s', l.dst, a.net) == RowAt(s, l.dst, a.net)
            && s'.routers[l.dst].failed[a.net] == 0
            && s'.routers[l.dst].sending
  {
    DeliverEffect(g, s, step);
    var (s', l, a) := (Apply(g, s, step), step.link, Queue(s, step.link)[0]);
    assert Unsettled(s'.routers[l.dst].table, s'.routers[l.dst].failed, a.net);
  }

  /** The count has ended, in the tables and on the way. */
  ghost predicate AtInfinity(g: Graph, s: State, dead: Node) {
    && WellFormed(g, s) && Floor(g, s, dead, RIP_MAX_HOP)
    && forall l <- LiveLinks(g, dead) :: FreshFrom(Queue(s, l), 0, dead, RIP_MAX_HOP)
  }

  lemma StepKeepsInfinity(g: Graph, s: State, step: Step, dead: Node)
    requires ValidGraph(g) && AtInfinity(g, s, dead) && Enabled(g, s, step) && Clean(step)
    requires step.link in LiveLinks(g, dead)
    ensures AtInfinity(g, Apply(g, s, step), dead)
  {
    var s' := Apply(g, s, step);
    StepKeepsWellFormed(g, s, step);
    StepKeepsFloor(g, s, step, dead, RIP_MAX_HOP);
    forall l <- LiveLinks(g, dead)
      ensures FreshFrom(Queue(s', l), 0, dead, RIP_MAX_HOP)
    {
      assert FreshFrom(Queue(s, l), 0, dead, RIP_MAX_HOP) && RowAbove(s, l.src, dead, RIP_MAX_HOP);
      if step.Send? {
        SendExtendsQueue(g, s, step, l);
      } else {
        DeliverShiftsQueue(g, s, step, l);
      }
    }
  }

  /** ... and no row for the dead router changes any more. */
  lemma RowsStayAtInfinity(g: Graph, s: State, step: Step, dead: Node, v: Node)
    requires ValidGraph(g) && AtInfinity(g, s, dead) && Enabled(g, s, step) && Clean(step)
    requires step.link in LiveLinks(g, dead) && v != dead && RowAt(s, v, dead).taken
    ensures RowAt(Apply(g, s, step), v, dead) == RowAt(s, v, dead) == Learned(dead, RIP_MAX_HOP, RowAt(s, v, dead).route)
  {
    assert RowAbove(s, v, dead, RIP_MAX_HOP) && RowOk(g, s, v, dead);
    if step.Send? {
      CleanSendEffect(g, s, step);
    } else {
      DeliverEffect(g, s, step);
      assert FreshFrom(Queue(s, step.link), 0, dead, RIP_MAX_HOP) && PacketOk(s, step.link, Queue(s, step.link)[0]);
    }
  }

  // ----- the last of the old packets ------------------------------------------------

  /** From its first table of the round on, link l carries nothing below infinity. */
  ghost predicate Draining(s: State, m: Monitor, l: Link, dead: Node) {
    var q := Queue(s, l);
    match Status(m, l)
    case Waiting => true
    case Pending(stale, left) => stale <= left <= |q| && FreshFrom(q, stale, dead, RIP_MAX_HOP)
    case Done => FreshFrom(q, 0, dead, RIP_MAX_HOP)
  }

  lemma StepKeepsDraining(g: Graph, s: State, m: Monitor, step: Step, l: Link, dead: Node)
    requires ValidGraph(g) && WellFormed(g, s) && Enabled(g, s, step) && Clean(step)
    requires Floor(g, s, dead, RIP_MAX_HOP) && l in LiveLinks(g, dead) && Draining(s, m, l, dead)
    ensures Draining(Apply(g, s, step), Watch(g, s, m, step), l, dead)
  {
    if step.Send? {
      SendKeepsDraining(g, s, m, step, l, dead);
    } else {
      DeliverShiftsQueue(g, s, step, l);
    }
  }

  lemma SendKeepsDraining(g: Graph, s: State, m: Monitor, step: Step, l: Link, dead: Node)
    requires ValidGraph(g) && WellFormed(g, s) && Enabled(g, s, step) && Clean(step) && step.Send?
    requires RowAbove(s, l.src, dead, RIP_MAX_HOP) && l in LiveLinks(g, dead) && Draining(s, m, l, dead)
    ensures Draining(Apply(g, s, step), Watch(g, s, m, step), l, dead)
  {
    SendExtendsQueue(g, s, step, l);
  }

  lemma {:induction false} RunKeepsDraining(g: Graph, s: State, m: Monitor, steps: seq<Step>, l: Link, dead: Node)
    requires ValidGraph(g) && WellFormed(g, s) && Legal(g, s, steps) && AllClean(steps)
    requires forall step <- steps :: step.link in LiveLinks(g, dead)
    requires Floor(g, s, dead, RIP_MAX_HOP) && l in LiveLinks(g, dead) && Draining(s, m, l, dead)
    ensures Draining(Exec(g, s, steps), Watched(g, s, m, steps), l, dead)
    decreases |steps|
  {
    if steps != [] {
      StepKeepsDraining(g, s, m, steps[0], l, dead);
      StepKeepsWellFormed(g, s, steps[0]);
      StepKeepsFloor(g, s, steps[0], dead, RIP_MAX_HOP);
      RunKeepsDraining(g, Apply(g, s, steps[0]), Watch(g, s, m, steps[0]), steps[1..], l, dead);
    }
  }

  lemma RoundReachesInfinity(g: Graph, s: State, steps: seq<Step>, dead: Node)
    requires ValidGraph(g) && WellFormed(g, s) && Floor(g, s, dead, RIP_MAX_HOP)
    requires CompleteRound(g, LiveLinks(g, dead), s, steps)
    ensures AtInfinity(g, Exec(g, s, steps), dead)
  {
    RunKeepsFloor(g, s, steps, dead, RIP_MAX_HOP);
    forall l <- LiveLinks(g, dead)
      ensures FreshFrom(Queue(Exec(g, s, steps), l), 0, dead, RIP_MAX_HOP)
    {
      RunKeepsDraining(g, s, map[], steps, l, dead);
    }
  }

  lemma {:induction false} RoundsReachInfinity(g: Graph, s: State, rounds: seq<seq<Step>>, dead: Node, k: nat)
    requires ValidGraph(g) && WellFormed(g, s) && Floor(g, s, dead, k) && 1 <= k <= RIP_MAX_HOP
    requires CompleteRounds(g, LiveLinks(g, dead), s, rounds) && |rounds| + k > RIP_MAX_HOP
    ensures AtInfinity(g, AfterRounds(g, LiveLinks(g, dead), s, rounds), dead)
    decreases |rounds|
  {
    if k < RIP_MAX_HOP {
      RoundRaisesFloor(g, s, rounds[0], dead, k);
      RoundsReachInfinity(g, Exec(g, s, rounds[0]), rounds[1..], dead, k + 1);
    } else {
      FirstReachesInfinity(g, s, rounds, dead);
    }
  }

  lemma FirstReachesInfinity(g: Graph, s: State, rounds: seq<seq<Step>>, dead: Node)
    requires ValidGraph(g) && WellFormed(g, s) && Floor(g, s, dead, RIP_MAX_HOP)
    requires CompleteRounds(g, LiveLinks(g, dead), s, rounds) && rounds != []
    ensures AtInfinity(g, AfterRounds(g, LiveLinks(g, dead), s, rounds), dead)
  {
    RoundReachesInfinity(g, s, rounds[0], dead);
    RoundsKeepInfinity(g, Exec(g, s, rounds[0]), rounds[1..], dead);
  }

  lemma {:induction false} RoundsKeepInfinity(g: Graph, s: State, rounds: seq<seq<Step>>, dead: Node)
    requires ValidGraph(g) && AtInfinity(g, s, dead) && CompleteRounds(g, LiveLinks(g, dead), s, rounds)
    ensures AtInfinity(g, AfterRounds(g, LiveLinks(g, dead), s, rounds), dead)
    decreases |rounds|
  {
    if rounds != [] {
      RoundReachesInfinity(g, s, rounds[0], dead);
      RoundsKeepInfinity(g, Exec(g, s, rounds[0]), rounds[1..], dead);
    }
  }

  // ----- every further round --------------------------------------------------------

  /** An advert about the dead router leaves v's counter for it at zero and v set to send. */
  predicate Stirs(g: Graph, s: State, step: Step, v: Node, dead: Node)
    requires Enabled(g, s, step)
  {
    && step.Deliver? && step.link.dst == v && Queue(s, step.link)[step.at].net == dead
    && Apply(g, s, step).routers[v].failed[dead] == 0 && Apply(g, s, step).routers[v].sending
  }

  /** At some moment of the run. */
  predicate GetsStirred(g: Graph, s: State, steps: seq<Step>, v: Node, dead: Node)
    requires Legal(g, s, steps)
    decreases |steps|
  {
    steps != [] && (Stirs(g, s, steps[0], v, dead) || GetsStirred(g, Apply(g, s, steps[0]), steps[1..], v, dead))
  }

  /** The watched table on l still has its row for the dead router to bring. */
  ghost predicate Awaits(s: State, m: Monitor, l: Link, dead: Node) {
    match Status(m, l)
    case Waiting => true
    case Pending(_, left) => AboutDead(Queue(s, l), 0, left, dead)
    case Done => false
  }

  lemma StepStirs(g: Graph, s: State, m: Monitor, step: Step, l: Link, dead: Node)
    requires ValidGraph(g) && AtInfinity(g, s, dead) && Enabled(g, s, step) && Clean(step)
    requires step.link in LiveLinks(g, dead) && l in LiveLinks(g, dead) && Awaits(s, m, l, dead)
    requires RowAt(s, l.src, dead).taken && RowAt(s, l.dst, dead).taken && RowAt(s, l.dst, dead).route == l.src
    ensures Stirs(g, s, step, l.dst, dead) || Awaits(Apply(g, s, step), Watch(g, s, m, step), l, dead)
  {
    if step.Send? {
      SendAwaits(g, s, m, step, l, dead);
    } else if step.link == l {
      var q := Queue(s, l);
      if q[0].net == dead {
        RowsStayAtInfinity(g, s, step, dead, l.dst);
        assert FreshFrom(q, 0, dead, RIP_MAX_HOP) && PacketOk(s, l, q[0]);
        RefreshStirs(g, s, step);
      } else {
        DeliverAwaits(g, s, m, step, dead);
      }
    } else {
      DeliverShiftsQueue(g, s, step, l);
      assert Queue(Apply(g, s, step), l) == Queue(s, l);
    }
  }

  lemma SendAwaits(g: Graph, s: State, m: Monitor, step: Step, l: Link, dead: Node)
    requires ValidGraph(g) && WellFormed(g, s) && Enabled(g, s, step) && Clean(step) && step.Send?
    requires l in g && Awaits(s, m, l, dead) && RowAt(s, l.src, dead).taken
    ensures Awaits(Apply(g, s, step), Watch(g, s, m, step), l, dead)
  {
    var (q, q') := (Queue(s, l), Queue(Apply(g, s, step), l));
    SendExtendsQueue(g, s, step, l);
    if Status(m, l).Pending? {
      var j :| 0 <= j < Status(m, l).left && j < |q| && q[j].net == dead;
      assert q'[j].net == dead;
    } else if l == step.link {
      CleanSendEffect(g, s, step);
      var j :| |q| <= j < |q'| && q'[j] == Advert(l.src, dead, RowAt(s, l.src, dead).dist);
      assert q'[j].net == dead;
    }
  }

  lemma DeliverAwaits(g: Graph, s: State, m: Monitor, step: Step, dead: Node)
    requires ValidGraph(g) && WellFormed(g, s) && Enabled(g, s, step) && Clean(step) && step.Deliver?
    requires step.link in g && Awaits(s, m, step.link, dead) && Queue(s, step.link)[0].net != dead
    ensures Awaits(Apply(g, s, step), Watch(g, s, m, step), step.link, dead)
  {
    var l := step.link;
    DeliverShiftsQueue(g, s, step, l);
    if Status(m, l).Pending? {
      var j :| 0 <= j < Status(m, l).left && j < |Queue(s, l)| && Queue(s, l)[j].net == dead;
      assert Queue(Apply(g, s, step), l)[j - 1].net == dead;
    }
  }

  lemma {:induction false} RunStirs(g: Graph, s: State, m: Monitor, steps: seq<Step>, l: Link, dead: Node)
    requires ValidGraph(g) && AtInfinity(g, s, dead) && Legal(g, s, steps) && AllClean(steps)
    requires forall step <- steps :: step.link in LiveLinks(g, dead)
    requires l in LiveLinks(g, dead) && Awaits(s, m, l, dead) && Status(Watched(g, s, m, steps), l) == Done
    requires RowAt(s, l.src, dead).taken && RowAt(s, l.dst, dead).taken && RowAt(s, l.dst, dead).route == l.src
    ensures GetsStirred(g, s, steps, l.dst, dead)
    decreases |steps|
  {
    var s' := Apply(g, s, steps[0]);
    StepStirs(g, s, m, steps[0], l, dead);
    if !Stirs(g, s, steps[0], l.dst, dead) {
      StepKeepsInfinity(g, s, steps[0], dead);
      RowsStayAtInfinity(g, s, steps[0], dead, l.src);
      RowsStayAtInfinity(g, s, steps[0], dead, l.dst);
      RunStirs(g, s', Watch(g, s, m, steps[0]), steps[1..], l, dead);
    }
  }

  lemma RoundStirs(g: Graph, s: State, round: seq<Step>, dead: Node, v: Node)
    requires ValidGraph(g) && AtInfinity(g, s, dead) && CompleteRound(g, LiveLinks(g, dead), s, round)
    requires v != dead && RowAt(s, v, dead).taken && RowAt(s, v, dead).route != dead
    ensures GetsStirred(g, s, round, v, dead)
  {
    assert RowOk(g, s, v, dead);
    var l := Link(RowAt(s, v, dead).route, v);
    assert l in LiveLinks(g, dead);
    RunStirs(g, s, map[], round, l, dead);
  }

  // ----- and only those -------------------------------------------------------------

  /** At infinity no live advert updates a row whose next hop is the dead router. */
  lemma DeadHopIsQuiet(g: Graph, s: State, step: Step, dead: Node, v: Node)
    requires ValidGraph(g) && AtInfinity(g, s, dead) && Enabled(g, s, step) && Clean(step)
    requires step.link in LiveLinks(g, dead) && v != dead
    requires RowAt(s, v, dead).taken && RowAt(s, v, dead).route == dead
    ensures !Stirs(g, s, step, v, dead)
  {
    if step.Deliver? && step.link.dst == v && Queue(s, step.link)[0].net == dead {
      assert RowAbove(s, v, dead, RIP_MAX_HOP) && RowOk(g, s, v, dead);
      assert FreshFrom(Queue(s, step.link), 0, dead, RIP_MAX_HOP);
      DeliverEffect(g, s, step);
    }
  }

  lemma {:induction false} DeadHopStaysQuiet(g: Graph, s: State, steps: seq<Step>, dead: Node, v: Node)
    requires ValidGraph(g) && AtInfinity(g, s, dead) && Legal(g, s, steps) && AllClean(steps)
    requires forall step <- steps :: step.link in LiveLinks(g, dead)
    requires v != dead && RowAt(s, v, dead).taken && RowAt(s, v, dead).route == dead
    ensures !GetsStirred(g, s, steps, v, dead)
    decreases |steps|
  {
    if steps != [] {
      DeadHopIsQuiet(g, s, steps[0], dead, v);
      StepKeepsInfinity(g, s, steps[0], dead);
      RowsStayAtInfinity(g, s, steps[0], dead, v);
      DeadHopStaysQuiet(g, Apply(g, s, steps[0]), steps[1..], dead, v);
    }
  }

  // ----- which routers those are ------------------------------------------------------

  /** v has a next hop for the dead router that is alive itself. */
  predicate HasLiveHop(s: State, v: Node, dead: Node) {
    RowAt(s, v, dead).taken && RowAt(s, v, dead).route != dead
  }

  /** What comes over live links can only give a row a live next hop. */
  lemma StepKeepsLiveHop(g: Graph, s: State, step: Step, dead: Node, v: Node)
    requires ValidGraph(g) && WellFormed(g, s) && Enabled(g, s, step) && Clean(step)
    requires step.link in LiveLinks(g, dead) && HasLiveHop(s, v, dead)
    ensures HasLiveHop(Apply(g, s, step), v, dead)
  {
    if step.Send? {
      CleanSendEffect(g, s, step);
    } else {
      DeliverEffect(g, s, step);
    }
  }

  lemma {:induction false} RunKeepsLiveHop(g: Graph, s: State, steps: seq<Step>, dead: Node, v: Node)
    requires ValidGraph(g) && WellFormed(g, s) && Legal(g, s, steps) && AllClean(steps)
    requires (forall step <- steps :: step.link in LiveLinks(g, dead)) && HasLiveHop(s, v, dead)
    ensures WellFormed(g, Exec(g, s, steps)) && HasLiveHop(Exec(g, s, steps), v, dead)
    decreases |steps|
  {
    if steps != [] {
      StepKeepsWellFormed(g, s, steps[0]);
      StepKeepsLiveHop(g, s, steps[0], dead, v);
      RunKeepsLiveHop(g, Apply(g, s, steps[0]), steps[1..], dead, v);
    }
  }

  lemma {:induction false} RoundsKeepLiveHop(g: Graph, s: State, rounds: seq<seq<Step>>, dead: Node, v: Node)
    requires ValidGraph(g) && WellFormed(g, s) && CompleteRounds(g, LiveLinks(g, dead), s, rounds)
    requires HasLiveHop(s, v, dead)
    ensures HasLiveHop(AfterRounds(g, LiveLinks(g, dead), s, rounds), v, dead)
    decreases |rounds|
  {
    if rounds != [] {
      RunKeepsLiveHop(g, s, rounds[0], dead, v);
      RoundsKeepLiveHop(g, Exec(g, s, rounds[0]), rounds[1..], dead, v);
    }
  }

  /** Never quiet: from twelve rounds after the death was noticed, in every further round a
      router with a row for the dead one has its counter reset and is set to keep sending
      if and only if that row has a live next hop; and one that had a live next hop when
      the death was noticed still does. */
  lemma NeverQuietIff(g: Graph, s0: State, past: seq<Step>, noticing: seq<Step>, rounds: seq<seq<Step>>,
                      round: seq<Step>, dead: Node, v: Node)
    requires ValidGraph(g) && Initial(g, s0) && Legal(g, s0, past)
    requires Legal(g, Exec(g, s0, past), noticing) && NothingFrom(dead, noticing)
    requires forall u: Node | u != dead :: Notices(Exec(g, s0, past), u, dead, noticing)
    requires var s := Exec(g, Exec(g, s0, past), noticing);
             && CompleteRounds(g, LiveLinks(g, dead), s, rounds) && |rounds| >= 12
             && CompleteRound(g, LiveLinks(g, dead), AfterRounds(g, LiveLinks(g, dead), s, rounds), round)
    requires v != dead
    ensures var s := Exec(g, Exec(g, s0, past), noticing);
            var s' := AfterRounds(g, LiveLinks(g, dead), s, rounds);
            && (HasLiveHop(s, v, dead) ==> HasLiveHop(s', v, dead))
            && (RowAt(s', v, dead).taken ==> (GetsStirred(g, s', round, v, dead) <==> HasLiveHop(s', v, dead)))
  {
    var s := Exec(g, Exec(g, s0, past), noticing);
    DeathSetsFloor(g, s0, past, noticing, dead);
    if HasLiveHop(s, v, dead) {
      RoundsKeepLiveHop(g, s, rounds, dead, v);
    }
    RoundsReachInfinity(g, s, rounds, dead, 1);
    RoundStirsIff(g, AfterRounds(g, LiveLinks(g, dead), s, rounds), round, dead, v);
  }

  lemma RoundStirsIff(g: Graph, s: State, round: seq<Step>, dead: Node, v: Node)
    requires ValidGraph(g) && AtInfinity(g, s, dead) && CompleteRound(g, LiveLinks(g, dead), s, round) && v != dead
    ensures RowAt(s, v, dead).taken ==> (GetsStirred(g, s, round, v, dead) <==> HasLiveHop(s, v, dead))
  {
    if HasLiveHop(s, v, dead) {
      RoundStirs(g, s, round, dead, v);
    } else if RowAt(s, v, dead).taken {
      DeadHopStaysQuiet(g, s, round, dead, v);
    }
  }

  /** Such rounds go on as long as one likes, where the links between live routers are up at
      one end. */
  lemma LiveRoundsExist(g: Graph, s: State, dead: Node, count: nat) returns (rounds: seq<seq<Step>>)
    requires ValidGraph(g) && WellFormed(g, s) && HalfUp(LiveLinks(g, dead), s)
    ensures |rounds| == count && CompleteRounds(g, LiveLinks(g, dead), s, rounds)
  {
    rounds := RoundsExist(g, LiveLinks(g, dead), s, count);
  }
}
