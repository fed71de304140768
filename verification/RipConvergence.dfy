/** Bellman-Ford convergence: k rounds settle every route of up to k links. */
module RipConvergence {
  import opened Wire
  import opened RoutingTables
  import opened RipNetwork
  import opened RipSoundness
  import opened RipCleanRuns
  import opened RipRounds

  /** The receiving end has heard, or will hear in the rest of the watched table, a
      distance to n of at most bound from the sending end. */
  ghost predicate Hears(s: State, m: Monitor, l: Link, n: Node, bound: nat) {
    var q := Queue(s, l);
    match Status(m, l)
    case Waiting => true
    case Pending(_, left) =>
      left <= |q| &&
      (Distance(RowAt(s, l.dst, n)) <= Saturate(bound) ||
       exists j :: 0 <= j < left && q[j].net == n && q[j].dist <= bound)
    case Done => Distance(RowAt(s, l.dst, n)) <= Saturate(bound)
  }

  lemma DeliveryIsHeard(g: Graph, s: State, step: Step, bound: nat)
    requires ValidGraph(g) && WellFormed(g, s) && Enabled(g, s, step) && Clean(step) && step.Deliver?
    requires bound <= RIP_MAX_HOP && Queue(s, step.link)[0].net != step.link.dst
    requires Queue(s, step.link)[0].dist <= bound
    ensures Distance(RowAt(Apply(g, s, step), step.link.dst, Queue(s, step.link)[0].net)) <= Saturate(bound)
  {
    var (l, a) := (step.link, Queue(s, step.link)[0]);
    assert PacketOk(s, l, a);
    assert RowOk(g, s, l.dst, a.net);
    AdvertBoundsDistance(s.routers[l.dst].table, a, l.dst);
    DeliverEffect(g, s, step);
  }

  lemma SendIsHeard(g: Graph, s: State, m: Monitor, step: Step, l: Link, n: Node, bound: nat)
    requires ValidGraph(g) && WellFormed(g, s) && Enabled(g, s, step) && Clean(step) && l in g
    requires n != l.dst && n != l.src && bound <= RIP_MAX_HOP
    requires Distance(RowAt(s, l.src, n)) <= bound && Hears(s, m, l, n, bound)
    requires step.Send?
    ensures Hears(Apply(g, s, step), Watch(g, s, m, step), l, n, bound)
  {
    var (q, q') := (Queue(s, l), Queue(Apply(g, s, step), l));
    SendExtendsQueue(g, s, step, l);
    if l == step.link && Status(m, l) == Waiting {
      CleanSendEffect(g, s, step);
      var j :| |q| <= j < |q'| && q'[j] == Advert(l.src, n, RowAt(s, l.src, n).dist);
      assert q'[j].net == n && q'[j].dist <= bound;
    }
  }

  lemma DeliverIsHeard(g: Graph, s: State, m: Monitor, step: Step, l: Link, n: Node, bound: nat)
    requires ValidGraph(g) && WellFormed(g, s) && Enabled(g, s, step) && Clean(step) && l in g
    requires n != l.dst && n != l.src && bound <= RIP_MAX_HOP && Hears(s, m, l, n, bound)
    requires step.Deliver? && Distance(RowAt(Apply(g, s, step), l.dst, n)) <= Distance(RowAt(s, l.dst, n))
    ensures Hears(Apply(g, s, step), Watch(g, s, m, step), l, n, bound)
  {
    var (q, q') := (Queue(s, l), Queue(Apply(g, s, step), l));
    DeliverShiftsQueue(g, s, step, l);
    if l == step.link && Status(m, l).Pending? && Distance(RowAt(s, l.dst, n)) > Saturate(bound) {
      var j :| 0 <= j < Status(m, l).left && q[j].net == n && q[j].dist <= bound;
      if j == 0 {
        DeliveryIsHeard(g, s, step, bound);
      } else {
        assert q'[j - 1] == q[j];
      }
    }
  }

  lemma {:induction false} RunIsHeard(g: Graph, s: State, m: Monitor, steps: seq<Step>, l: Link, n: Node, bound: nat)
    requires ValidGraph(g) && CleanInvariant(g, s) && Legal(g, s, steps) && AllClean(steps) && l in g
    requires n != l.dst && n != l.src && bound <= RIP_MAX_HOP
    requires Distance(RowAt(s, l.src, n)) <= bound && Hears(s, m, l, n, bound)
    ensures Hears(Exec(g, s, steps), Watched(g, s, m, steps), l, n, bound)
    decreases |steps|
  {
    if steps != [] {
      if steps[0].Send? {
        SendIsHeard(g, s, m, steps[0], l, n, bound);
      } else {
        StepIsMonotone(g, s, steps[0], l.dst, n);
        DeliverIsHeard(g, s, m, steps[0], l, n, bound);
      }
      StepIsMonotone(g, s, steps[0], l.src, n);
      StepKeepsClean(g, s, steps[0]);
      RunIsHeard(g, Apply(g, s, steps[0]), Watch(g, s, m, steps[0]), steps[1..], l, n, bound);
    }
  }

  /** Whatever is delivered over a link makes its sender a direct neighbour, for good. */
  lemma StepMeetsNeighbour(g: Graph, s: State, m: Monitor, step: Step, l: Link)
    requires ValidGraph(g) && CleanInvariant(g, s) && Enabled(g, s, step) && Clean(step) && l in g
    requires Status(m, l) == Done ==> Distance(RowAt(s, l.dst, l.src)) <= DIRECT
    ensures Status(Watch(g, s, m, step), l) == Done ==>
            Distance(RowAt(Apply(g, s, step), l.dst, l.src)) <= DIRECT
  {
    if step.Deliver? && step.link == l {
      DeliverEffect(g, s, step);
    } else {
      StepIsMonotone(g, s, step, l.dst, l.src);
    }
  }

  lemma {:induction false} RunMeetsNeighbour(g: Graph, s: State, m: Monitor, steps: seq<Step>, l: Link)
    requires ValidGraph(g) && CleanInvariant(g, s) && Legal(g, s, steps) && AllClean(steps) && l in g
    requires Status(m, l) == Done ==> Distance(RowAt(s, l.dst, l.src)) <= DIRECT
    ensures Status(Watched(g, s, m, steps), l) == Done ==>
            Distance(RowAt(Exec(g, s, steps), l.dst, l.src)) <= DIRECT
    decreases |steps|
  {
    if steps != [] {
      StepMeetsNeighbour(g, s, m, steps[0], l);
      StepKeepsClean(g, s, steps[0]);
      RunMeetsNeighbour(g, Apply(g, s, steps[0]), Watch(g, s, m, steps[0]), steps[1..], l);
    }
  }

  /** Every network within k links is in the table with at most its true distance. */
  ghost predicate SettledWithin(g: Graph, s: State, k: nat) {
    forall v: Node, n: Node, j: nat | 1 <= j <= k && n != v && Walk(g, v, n, j) ::
      Distance(RowAt(s, v, n)) <= j - 1
  }

  lemma {:induction false} RunKeepsSettled(g: Graph, s: State, steps: seq<Step>, k: nat)
    requires ValidGraph(g) && CleanInvariant(g, s) && Legal(g, s, steps) && AllClean(steps) && SettledWithin(g, s, k)
    ensures SettledWithin(g, Exec(g, s, steps), k)
  {
    forall v: Node, n: Node, j: nat | 1 <= j <= k && n != v && Walk(g, v, n, j)
      ensures Distance(RowAt(Exec(g, s, steps), v, n)) <= j - 1
    {
      RunIsMonotone(g, s, steps, v, n);
    }
  }

  /** One round settles routes that are one link longer. */
  lemma RoundSettlesOneMore(g: Graph, s: State, steps: seq<Step>, k: nat)
    requires ValidGraph(g) && CleanInvariant(g, s) && CompleteRound(g, g, s, steps)
    requires k <= RIP_MAX_HOP && SettledWithin(g, s, k)
    ensures SettledWithin(g, Exec(g, s, steps), k + 1)
  {
    var s' := Exec(g, s, steps);
    RunKeepsSettled(g, s, steps, k);
    forall v: Node, n: Node, j: nat | 1 <= j <= k + 1 && n != v && Walk(g, v, n, j)
      ensures Distance(RowAt(s', v, n)) <= j - 1
    {
      if j == k + 1 {
        LongestSettles(g, s, steps, k, v, n);
      }
    }
  }

  lemma LongestSettles(g: Graph, s: State, steps: seq<Step>, k: nat, v: Node, n: Node)
    requires ValidGraph(g) && CleanInvariant(g, s) && CompleteRound(g, g, s, steps)
    requires k <= RIP_MAX_HOP && SettledWithin(g, s, k) && n != v && Walk(g, v, n, k + 1)
    ensures Distance(RowAt(Exec(g, s, steps), v, n)) <= k
  {
    var w: Node :| Link(v, w) in g && Walk(g, w, n, k);
    SettledDistance(g, s, k, w, n);
    LinkSettles(g, s, steps, k, Link(w, v), n);
  }

  lemma SettledDistance(g: Graph, s: State, k: nat, w: Node, n: Node)
    requires SettledWithin(g, s, k) && Walk(g, w, n, k)
    ensures w != n ==> k >= 1 && Distance(RowAt(s, w, n)) <= k - 1
  {
  }

  /** Over one link. */
  lemma LinkSettles(g: Graph, s: State, steps: seq<Step>, k: nat, l: Link, n: Node)
    requires ValidGraph(g) && CleanInvariant(g, s) && CompleteRound(g, g, s, steps) && k <= RIP_MAX_HOP
    requires l in g && n != l.dst && (n != l.src ==> k >= 1 && Distance(RowAt(s, l.src, n)) <= k - 1)
    ensures Distance(RowAt(Exec(g, s, steps), l.dst, n)) <= k
  {
    if l.src == n {
      RunMeetsNeighbour(g, s, map[], steps, l);
    } else {
      RunIsHeard(g, s, map[], steps, l, n, k - 1);
    }
  }

  lemma {:induction false} RoundsSettle(g: Graph, s: State, rounds: seq<seq<Step>>, k: nat)
    requires ValidGraph(g) && CleanInvariant(g, s) && Sound(g, s) && CompleteRounds(g, g, s, rounds)
    requires SettledWithin(g, s, k) && k + |rounds| <= RIP_MAX_HOP + 1
    ensures var s' := AfterRounds(g, g, s, rounds);
            CleanInvariant(g, s') && Sound(g, s') && SettledWithin(g, s', k + |rounds|)
    decreases |rounds|
  {
    if rounds != [] {
      RoundSettlesOneMore(g, s, rounds[0], k);
      RunIsMonotone(g, s, rounds[0], 1, 1);
      RunKeepsSound(g, s, rounds[0]);
      RoundsSettle(g, Exec(g, s, rounds[0]), rounds[1..], k + 1);
    }
  }

  /** h is the length of the shortest walk from v to n. */
  ghost predicate HopCount(g: Graph, v: Node, n: Node, h: nat) {
    Walk(g, v, n, h) && forall j: nat | j < h :: !Walk(g, v, n, j)
  }

  lemma RowIsExact(g: Graph, s: State, v: Node, n: Node, h: nat)
    requires RowOk(g, s, v, n) && SoundRow(g, s, v, n) && Distance(RowAt(s, v, n)) <= h - 1
    requires 1 <= h <= RIP_MAX_HOP && HopCount(g, v, n, h)
    ensures var row := RowAt(s, v, n);
            row.taken && row.dist == h - 1 && IsNode(row.route) && Link(v, row.route) in g && Walk(g, row.route, n, h - 1)
  {
    assert Walk(g, v, n, RowAt(s, v, n).dist + 1);
  }

  lemma SettledIsExact(g: Graph, s: State, k: nat, v: Node, n: Node, h: nat)
    requires ValidGraph(g) && WellFormed(g, s) && Sound(g, s) && SettledWithin(g, s, k)
    requires 1 <= h <= k && h <= RIP_MAX_HOP && HopCount(g, v, n, h)
    ensures var row := RowAt(s, v, n);
            && row.taken && row.dist == h - 1
            && IsNode(row.route) && Link(v, row.route) in g && HopCount(g, row.route, n, h - 1)
  {
    assert SoundRow(g, s, v, n) && RowOk(g, s, v, n) && !Walk(g, v, n, 0);
    RowIsExact(g, s, v, n, h);
    NextIsOneCloser(g, v, RowAt(s, v, n).route, n, h);
  }

  lemma NextIsOneCloser(g: Graph, v: Node, u: Node, n: Node, h: nat)
    requires h >= 1 && HopCount(g, v, n, h) && Link(v, u) in g && Walk(g, u, n, h - 1)
    ensures HopCount(g, u, n, h - 1)
  {
    forall j: nat | j < h - 1
      ensures !Walk(g, u, n, j)
    {
      assert !Walk(g, v, n, j + 1);
    }
  }

  ghost predicate AllUp(g: Graph, s: State) {
    forall l <- g :: RowAt(s, l.src, l.dst).taken && RowAt(s, l.src, l.dst).dist == DIRECT
  }

  /** Convergence.  From any start (some neighbours may have failed the probe), after k
      rounds every network at hop count h <= k has distance exactly h - 1 and its next
      hop on a shortest path; one round earlier if all neighbours started as direct.
      Further clean steps of any kind leave it so. */
  lemma Converges(g: Graph, s: State, rounds: seq<seq<Step>>, more: seq<Step>, v: Node, n: Node, h: nat)
    requires ValidGraph(g) && Initial(g, s) && CompleteRounds(g, g, s, rounds)
    requires var s' := AfterRounds(g, g, s, rounds); Legal(g, s', more) && AllClean(more)
    requires 1 <= h <= 12 && HopCount(g, v, n, h)
    requires h <= |rounds| + (if AllUp(g, s) then 1 else 0)
    ensures var row := RowAt(Exec(g, AfterRounds(g, g, s, rounds), more), v, n);
            && row.taken && row.dist == h - 1
            && IsNode(row.route) && Link(v, row.route) in g && HopCount(g, row.route, n, h - 1)
  {
    InitialIsClean(g, s);
    InitialIsSound(g, s);
    var k := if AllUp(g, s) then 1 else 0;
    if AllUp(g, s) {
      forall u: Node, m: Node, j: nat | 1 <= j <= 1 && m != u && Walk(g, u, m, j)
        ensures Distance(RowAt(s, u, m)) <= j - 1
      {
        var w: Node :| Link(u, w) in g && Walk(g, w, m, 0);
        assert Link(u, m) in g;
      }
    }
    assert SettledWithin(g, s, k);
    SettlesThenStays(g, s, rounds, more, k, v, n, h);
  }

  lemma {:induction false} SettlesThenStays(g: Graph, s: State, rounds: seq<seq<Step>>, more: seq<Step>, k: nat,
                                            v: Node, n: Node, h: nat)
    requires ValidGraph(g) && CleanInvariant(g, s) && Sound(g, s) && CompleteRounds(g, g, s, rounds)
    requires var s' := AfterRounds(g, g, s, rounds); Legal(g, s', more) && AllClean(more)
    requires SettledWithin(g, s, k) && 1 <= h <= RIP_MAX_HOP && HopCount(g, v, n, h) && h <= k + |rounds|
    ensures var row := RowAt(Exec(g, AfterRounds(g, g, s, rounds), more), v, n);
            && row.taken && row.dist == h - 1
            && IsNode(row.route) && Link(v, row.route) in g && HopCount(g, row.route, n, h - 1)
    decreases |rounds|
  {
    if rounds == [] {
      RunKeepsSettled(g, s, more, k);
      RunIsMonotone(g, s, more, v, n);
      RunKeepsSound(g, s, more);
      SettledIsExact(g, Exec(g, s, more), k, v, n, h);
    } else {
      RunIsMonotone(g, s, rounds[0], v, n);
      RunKeepsSound(g, s, rounds[0]);
      if k <= RIP_MAX_HOP {
        RoundSettlesOneMore(g, s, rounds[0], k);
        SettlesThenStays(g, Exec(g, s, rounds[0]), rounds[1..], more, k + 1, v, n, h);
      } else {
        RunKeepsSettled(g, s, rounds[0], k);
        SettlesThenStays(g, Exec(g, s, rounds[0]), rounds[1..], more, k, v, n, h);
      }
    }
  }
}
