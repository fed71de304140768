/** Runs without loss, reordering or failed dispatches: each queue is first in, first
    out.  There, distances only shrink and next hops lead strictly downhill. */
module RipCleanRuns {
  import opened Wire
  import opened RoutingTables
  import opened RipRouters
  import opened RipNetwork
  import opened RipLookups

  ghost predicate Clean(step: Step) {
    match step
    case Send(_, reached) => forall n: nat | n < MAX_ROUTERS :: n in reached
    case Deliver(_, at, keep) => at == 0 && !keep
    case Lose(_, _) => false
  }

  ghost predicate AllClean(steps: seq<Step>) {
    forall step <- steps :: Clean(step)
  }

  /** A row's distance, with an absent row one past infinity. */
  function Distance(row: Row): int {
    if row.taken then row.dist else RIP_MAX_HOP + 1
  }

  /** Queued adverts about one network never get worse, nor better than the sender's row. */
  ghost predicate Ordered(s: State, l: Link) {
    var q := Queue(s, l);
    && (forall i, j | 0 <= i < j < |q| && q[i].net == q[j].net :: q[i].dist >= q[j].dist)
    && (forall i | 0 <= i < |q| && IsNode(q[i].net) :: q[i].dist >= RowAt(s, l.src, q[i].net).dist)
  }

  /** A row learned over l is at least one more than anything still coming over l, and
      the neighbour it was learned from is, and stays, direct. */
  ghost predicate Backed(s: State, l: Link, n: nat)
    requires n < MAX_ROUTERS
  {
    var (row, q) := (RowAt(s, l.dst, n), Queue(s, l));
    row.taken && row.route == l.src && l.src != n ==>
      && Saturate(RowAt(s, l.src, n).dist) <= row.dist
      && RowAt(s, l.dst, l.src) == Learned(l.src, DIRECT, l.src)
      && forall i | 0 <= i < |q| && q[i].net == n :: Saturate(q[i].dist) <= row.dist
  }

  ghost predicate CleanInvariant(g: Graph, s: State) {
    && WellFormed(g, s)
    && (forall l <- g :: Ordered(s, l))
    && (forall l <- g, n: nat | n < MAX_ROUTERS :: Backed(s, l, n))
  }

  lemma InitialIsClean(g: Graph, s: State)
    requires ValidGraph(g) && Initial(g, s)
    ensures CleanInvariant(g, s)
  {
    InitialIsWellFormed(g, s);
    forall l <- g, n: nat | n < MAX_ROUTERS
      ensures Backed(s, l, n)
    {
      assert InitialRow(g, s, l.dst, n);
    }
  }

  /** With every dispatch getting through, a send changes no table. */
  lemma CleanSendEffect(g: Graph, s: State, step: Step)
    requires ValidGraph(g) && WellFormed(g, s) && Enabled(g, s, step) && step.Send? && Clean(step)
    ensures Apply(g, s, step).routers == s.routers
    ensures |Queue(s, step.link)| < |Queue(Apply(g, s, step), step.link)|
    ensures forall n: nat | n < MAX_ROUTERS && RowAt(s, step.link.src, n).taken ::
              exists j :: |Queue(s, step.link)| <= j < |Queue(Apply(g, s, step), step.link)| &&
                          Queue(Apply(g, s, step), step.link)[j] ==
                          Advert(step.link.src, n, RowAt(s, step.link.src, n).dist)
  {
    var (l, t) := (step.link, s.routers[step.link.src].table);
    var sent := Adverts(l.src, t, step.reached);
    AdvertsAreTheTakenRows(l.src, t, step.reached, MAX_ROUTERS);
    forall n: nat | n < MAX_ROUTERS && t[n].taken
      ensures exists j :: |Queue(s, l)| <= j < |Queue(Apply(g, s, step), l)| &&
                          Queue(Apply(g, s, step), l)[j] == Advert(l.src, n, t[n].dist)
    {
      assert RowOk(g, s, l.src, n);
      assert Advert(l.src, t[n].dest, t[n].dist) in sent;
      var i :| 0 <= i < |sent| && sent[i] == Advert(l.src, n, t[n].dist);
      var j := |Queue(s, l)| + i;
      assert Queue(Apply(g, s, step), l) == Queue(s, l) + sent;
      assert Queue(Apply(g, s, step), l)[j] == sent[i];
    }
    assert t[l.dst].taken;
  }

  /** Over a clean step no row's distance increases, although the next-hop rule
      overwrites whatever is there. */
  lemma StepIsMonotone(g: Graph, s: State, step: Step, v: Node, n: nat)
    requires ValidGraph(g) && CleanInvariant(g, s) && Enabled(g, s, step) && Clean(step) && n < MAX_ROUTERS
    ensures Distance(RowAt(Apply(g, s, step), v, n)) <= Distance(RowAt(s, v, n))
    ensures RowAt(s, v, n).taken ==> RowAt(Apply(g, s, step), v, n).taken
  {
    assert RowOk(g, s, v, n);
    if step.Send? {
      CleanSendEffect(g, s, step);
    } else {
      DeliverEffect(g, s, step);
      assert Backed(s, step.link, n);
      assert PacketOk(s, step.link, Queue(s, step.link)[0]);
    }
  }

  lemma SendExtendsQueue(g: Graph, s: State, step: Step, l: Link)
    requires ValidGraph(g) && WellFormed(g, s) && Enabled(g, s, step) && Clean(step) && l in g && step.Send?
    ensures Apply(g, s, step).routers == s.routers
    ensures var (q, q') := (Queue(s, l), Queue(Apply(g, s, step), l));
            && |q| <= |q'|
            && (forall i | 0 <= i < |q| :: q'[i] == q[i] && PacketOk(s, l, q[i]))
            && forall i | |q| <= i < |q'| ::
                 IsNode(q'[i].net) && q'[i].dist == RowAt(s, l.src, q'[i].net).dist && RowAt(s, l.src, q'[i].net).taken
  {
    var (q, q') := (Queue(s, l), Queue(Apply(g, s, step), l));
    SendEffect(g, s, step);
    CleanSendEffect(g, s, step);
    forall i | 0 <= i < |q|
      ensures q'[i] == q[i] && PacketOk(s, l, q[i])
    {
      assert q'[..|q|][i] == q[i];
    }
  }

  lemma SendKeepsOrdered(g: Graph, s: State, step: Step, l: Link)
    requires ValidGraph(g) && WellFormed(g, s) && Enabled(g, s, step) && Clean(step) && l in g && step.Send?
    requires Ordered(s, l)
    ensures Ordered(Apply(g, s, step), l)
  {
    SendExtendsQueue(g, s, step, l);
  }

  lemma SendKeepsBacked(g: Graph, s: State, step: Step, l: Link, n: nat)
    requires ValidGraph(g) && WellFormed(g, s) && Enabled(g, s, step) && Clean(step) && l in g && n < MAX_ROUTERS
    requires step.Send? && Backed(s, l, n)
    ensures Backed(Apply(g, s, step), l, n)
  {
    SendExtendsQueue(g, s, step, l);
  }

  /** After the head of a queue is handled: position i used to be Older(i). */
  function Older(l: Link, delivered: Link, i: nat): nat {
    if l == delivered then i + 1 else i
  }

  lemma DeliverShiftsQueue(g: Graph, s: State, step: Step, l: Link)
    requires ValidGraph(g) && WellFormed(g, s) && Enabled(g, s, step) && Clean(step) && l in g && step.Deliver?
    ensures var (q, q') := (Queue(s, l), Queue(Apply(g, s, step), l));
            && |q| == Older(l, step.link, |q'|)
            && forall i | 0 <= i < |q'| :: q'[i] == q[Older(l, step.link, i)] && PacketOk(s, l, q'[i])
  {
    var (q, q') := (Queue(s, l), Queue(Apply(g, s, step), l));
    DeliverEffect(g, s, step);
    forall i | 0 <= i < |q'|
      ensures q'[i] == q[Older(l, step.link, i)] && PacketOk(s, l, q'[i])
    {
      assert PacketOk(s, l, q[Older(l, step.link, i)]);
    }
  }

  lemma DeliverKeepsOrdered(g: Graph, s: State, step: Step, l: Link)
    requires ValidGraph(g) && CleanInvariant(g, s) && Enabled(g, s, step) && Clean(step) && l in g && step.Deliver?
    ensures Ordered(Apply(g, s, step), l)
  {
    var s' := Apply(g, s, step);
    var q' := Queue(s', l);
    assert Ordered(s, l);
    DeliverShiftsQueue(g, s, step, l);
    forall i | 0 <= i < |q'| && IsNode(q'[i].net)
      ensures q'[i].dist >= RowAt(s', l.src, q'[i].net).dist
    {
      StepIsMonotone(g, s, step, l.src, q'[i].net);
    }
  }

  lemma DeliverKeepsBacked(g: Graph, s: State, step: Step, l: Link, n: nat)
    requires ValidGraph(g) && CleanInvariant(g, s) && Enabled(g, s, step) && Clean(step) && l in g && n < MAX_ROUTERS
    requires step.Deliver?
    ensures Backed(Apply(g, s, step), l, n)
  {
    assert Backed(s, l, n) && Ordered(s, l);
    StepIsMonotone(g, s, step, l.src, n);
    DeliverBacks(g, s, step, l, n);
  }

  lemma DeliverBacks(g: Graph, s: State, step: Step, l: Link, n: nat)
    requires ValidGraph(g) && WellFormed(g, s) && Enabled(g, s, step) && Clean(step) && l in g && n < MAX_ROUTERS
    requires step.Deliver? && Backed(s, l, n) && Ordered(s, l)
    requires Distance(RowAt(Apply(g, s, step), l.src, n)) <= Distance(RowAt(s, l.src, n))
    ensures Backed(Apply(g, s, step), l, n)
  {
    if l == step.link {
      DeliverBacksOwn(g, s, step, n);
    } else {
      DeliverBacksOther(g, s, step, l, n);
    }
  }

  /** The row behind the packet that was just handled ... */
  lemma DeliverBacksOwn(g: Graph, s: State, step: Step, n: nat)
    requires ValidGraph(g) && WellFormed(g, s) && Enabled(g, s, step) && Clean(step) && n < MAX_ROUTERS
    requires step.Deliver? && Backed(s, step.link, n) && Ordered(s, step.link)
    requires Distance(RowAt(Apply(g, s, step), step.link.src, n)) <= Distance(RowAt(s, step.link.src, n))
    ensures Backed(Apply(g, s, step), step.link, n)
  {
    var l := step.link;
    assert RowOk(g, s, l.dst, n) && RowOk(g, s, l.src, n);
    assert PacketOk(s, l, Queue(s, l)[0]);
    DeliverShiftsQueue(g, s, step, l);
    DeliverEffect(g, s, step);
  }

  /** ... and over the other links. */
  lemma DeliverBacksOther(g: Graph, s: State, step: Step, l: Link, n: nat)
    requires ValidGraph(g) && WellFormed(g, s) && Enabled(g, s, step) && Clean(step) && l in g && n < MAX_ROUTERS
    requires step.Deliver? && Backed(s, l, n) && l != step.link
    requires Distance(RowAt(Apply(g, s, step), l.src, n)) <= Distance(RowAt(s, l.src, n))
    ensures Backed(Apply(g, s, step), l, n)
  {
    assert RowOk(g, s, l.dst, n) && RowOk(g, s, l.src, n) && RowOk(g, s, l.dst, l.src);
    assert PacketOk(s, step.link, Queue(s, step.link)[0]);
    DeliverEffect(g, s, step);
  }

  lemma StepKeepsClean(g: Graph, s: State, step: Step)
    requires ValidGraph(g) && CleanInvariant(g, s) && Enabled(g, s, step) && Clean(step)
    ensures CleanInvariant(g, Apply(g, s, step))
  {
    StepKeepsWellFormed(g, s, step);
    forall l <- g
      ensures Ordered(Apply(g, s, step), l)
    {
      if step.Send? {
        SendKeepsOrdered(g, s, step, l);
      } else {
        DeliverKeepsOrdered(g, s, step, l);
      }
    }
    forall l <- g, n: nat | n < MAX_ROUTERS
      ensures Backed(Apply(g, s, step), l, n)
    {
      if step.Send? {
        SendKeepsBacked(g, s, step, l, n);
      } else {
        DeliverKeepsBacked(g, s, step, l, n);
      }
    }
  }

  /** From any start, including neighbours already put at infinity by the probe: over a
      whole clean run no row's distance increases. */
  lemma {:induction false} RunIsMonotone(g: Graph, s: State, steps: seq<Step>, v: Node, n: nat)
    requires ValidGraph(g) && CleanInvariant(g, s) && Legal(g, s, steps) && AllClean(steps) && n < MAX_ROUTERS
    ensures CleanInvariant(g, Exec(g, s, steps))
    ensures Distance(RowAt(Exec(g, s, steps), v, n)) <= Distance(RowAt(s, v, n))
    decreases |steps|
  {
    if steps != [] {
      StepKeepsClean(g, s, steps[0]);
      StepIsMonotone(g, s, steps[0], v, n);
      RunIsMonotone(g, Apply(g, s, steps[0]), steps[1..], v, n);
    }
  }

  // ----- forwarding --------------------------------------------------------

  /** In clean runs, too, the second lookup returns the router the first one chose. */
  lemma TwoLookupsAgree(g: Graph, s: State, v: Node, n: nat)
    requires ValidGraph(g) && CleanInvariant(g, s) && n < MAX_ROUTERS && RowAt(s, v, n).taken
    ensures DispatchedTo(s.routers[v].table, n) == RowAt(s, v, n).route
  {
    assert RowOk(g, s, v, n);
    var u := RowAt(s, v, n).route;
    if u != n {
      assert Link(u, v) in g && Backed(s, Link(u, v), n);
    }
    FirmLookup(g, s, v, n);
  }

  /** Loop freedom: below infinity, the next hop is a neighbour that is either the
      destination or holds a strictly smaller distance. */
  lemma NextHopIsCloser(g: Graph, s: State, v: Node, n: nat)
    requires ValidGraph(g) && CleanInvariant(g, s) && n < MAX_ROUTERS
    requires RowAt(s, v, n).taken && RowAt(s, v, n).dist < RIP_MAX_HOP
    ensures var row := RowAt(s, v, n);
            && IsNode(row.route) && Link(v, row.route) in g
            && (row.route == n || (RowAt(s, row.route, n).taken && RowAt(s, row.route, n).dist <= row.dist - 1))
  {
    assert RowOk(g, s, v, n);
    var u := RowAt(s, v, n).route;
    if u != n {
      assert Link(u, v) in g && Backed(s, Link(u, v), n);
      assert RowOk(g, s, u, n);
    }
  }

  /** A packet travelling to n while the protocol keeps running: it is at some router, or
      the next router forwards it. */
  datatype Leg = Protocol(step: Step) | Hop

  /** Where a packet for n sits after the moves. */
  ghost predicate CanTravel(g: Graph, s: State, at: Node, n: nat, moves: seq<Leg>)
    requires n < MAX_ROUTERS
    decreases |moves|
  {
    moves == [] ||
    match moves[0]
    case Protocol(step) => Enabled(g, s, step) && Clean(step) && CanTravel(g, Apply(g, s, step), at, n, moves[1..])
    case Hop => at != n && IsNode(DispatchedTo(s.routers[at].table, n)) &&
                CanTravel(g, s, DispatchedTo(s.routers[at].table, n), n, moves[1..])
  }

  ghost function Travel(g: Graph, s: State, at: Node, n: nat, moves: seq<Leg>): (State, Node)
    requires n < MAX_ROUTERS && CanTravel(g, s, at, n, moves)
    decreases |moves|
  {
    if moves == [] then (s, at)
    else match moves[0]
         case Protocol(step) => Travel(g, Apply(g, s, step), at, n, moves[1..])
         case Hop => Travel(g, s, DispatchedTo(s.routers[at].table, n), n, moves[1..])
  }

  function Hops(moves: seq<Leg>): nat {
    if moves == [] then 0 else (if moves[0].Hop? then 1 else 0) + Hops(moves[1..])
  }

  /** With the protocol and the packet interleaved in any way, the packet is either there
      or strictly closer with every hop: at most d + 1 hops, and never stuck before. */
  lemma {:induction false} ForwardingTerminates(g: Graph, s: State, at: Node, n: nat, moves: seq<Leg>)
    requires ValidGraph(g) && CleanInvariant(g, s) && n < MAX_ROUTERS && CanTravel(g, s, at, n, moves)
    requires at == n || (RowAt(s, at, n).taken && RowAt(s, at, n).dist < RIP_MAX_HOP)
    ensures var (s', at') := Travel(g, s, at, n, moves);
            && CleanInvariant(g, s')
            && Hops(moves) <= (if at == n then 0 else RowAt(s, at, n).dist + 1)
            && (at' != n ==>
                  && RowAt(s', at', n).taken && RowAt(s', at', n).dist < RIP_MAX_HOP
                  && at != n && Hops(moves) + RowAt(s', at', n).dist <= RowAt(s, at, n).dist
                  && IsNode(DispatchedTo(s'.routers[at'].table, n)))
    decreases |moves|
  {
    if at != n {
      assert RowOk(g, s, at, n);
      TwoLookupsAgree(g, s, at, n);
      NextHopIsCloser(g, s, at, n);
    }
    if moves != [] {
      match moves[0]
      case Protocol(step) =>
        StepKeepsClean(g, s, step);
        StepIsMonotone(g, s, step, at, n);
        ForwardingTerminates(g, Apply(g, s, step), at, n, moves[1..]);
      case Hop =>
        ForwardingTerminates(g, s, DispatchedTo(s.routers[at].table, n), n, moves[1..]);
    }
  }
}
