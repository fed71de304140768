/** A network of routers running the protocol: one queue of adverts per directed link.
    Steps may lose, duplicate and reorder packets and dispatches may fail; the runs in
    which none of that happens are called clean. */
module RipNetwork {
  import opened Wire
  import opened RoutingTables
  import opened RipRouters

  const IDS := 16

  type Node = v: nat | v < IDS

  datatype Link = Link(src: Node, dst: Node)

  type Graph = set<Link>

  predicate IsNode(v: int) {
    1 <= v < IDS
  }

  ghost predicate ValidGraph(g: Graph) {
    forall l <- g :: IsNode(l.src) && IsNode(l.dst) && l.src != l.dst && Link(l.dst, l.src) in g
  }

  datatype State = State(routers: Routers, queues: map<Link, seq<Advert>>)

  type Routers = r: seq<RouterView> | |r| == IDS
    witness seq(IDS, _ => RouterView(seq(MAX_ROUTERS, _ => NO_ROW), seq(MAX_ROUTERS, _ => 0), true))

  function Queue(s: State, l: Link): seq<Advert> {
    if l in s.queues then s.queues[l] else []
  }

  function RowAt(s: State, v: Node, n: nat): Row
    requires n < MAX_ROUTERS
  {
    s.routers[v].table[n]
  }

  /** Send: a burst of the whole table, of which the rows in reached get through.
      Deliver: handle the packet at some queue position, possibly keeping a copy. */
  datatype Step =
    | Send(link: Link, reached: set<nat>)
    | Deliver(link: Link, at: nat, keep: bool)
    | Lose(link: Link, at: nat)

  predicate Enabled(g: Graph, s: State, step: Step) {
    && step.link in g
    && match step
       case Send(l, _) => RowAt(s, l.src, l.dst).taken && RowAt(s, l.src, l.dst).dist == DIRECT
       case Deliver(l, at, _) => at < |Queue(s, l)| && FitsRip(Queue(s, l)[at])
       case Lose(l, at) => at < |Queue(s, l)|
  }

  function Without<T>(q: seq<T>, at: nat): seq<T>
    requires at < |q|
  {
    q[..at] + q[at + 1..]
  }

  function Apply(g: Graph, s: State, step: Step): State
    requires Enabled(g, s, step)
  {
    match step
    case Send(l, reached) =>
      var u := s.routers[l.src];
      State(s.routers[l.src := u.(table := AfterSend(l.src, u.table, l.dst, reached))],
            s.queues[l := Queue(s, l) + Adverts(l.src, u.table, reached)])
    case Deliver(l, at, keep) =>
      State(s.routers[l.dst := OnAdvert(s.routers[l.dst], Queue(s, l)[at], l.dst)],
            if keep then s.queues else s.queues[l := Without(Queue(s, l), at)])
    case Lose(l, at) =>
      s.(queues := s.queues[l := Without(Queue(s, l), at)])
  }

  predicate Legal(g: Graph, s: State, steps: seq<Step>)
    decreases |steps|
  {
    steps == [] || (Enabled(g, s, steps[0]) && Legal(g, Apply(g, s, steps[0]), steps[1..]))
  }

  function Exec(g: Graph, s: State, steps: seq<Step>): State
    requires Legal(g, s, steps)
    decreases |steps|
  {
    if steps == [] then s else Exec(g, Apply(g, s, steps[0]), steps[1..])
  }

  /** The start: configured neighbours are direct, or at infinity where the probe failed. */
  ghost predicate Initial(g: Graph, s: State) {
    && s.queues == map[]
    && forall v: Node, n: nat | n < MAX_ROUTERS :: InitialRow(g, s, v, n)
  }

  ghost predicate InitialRow(g: Graph, s: State, v: Node, n: nat)
    requires n < MAX_ROUTERS
  {
    if n < IDS && Link(v, n) in g
    then RowAt(s, v, n) == Learned(n, DIRECT, n) || RowAt(s, v, n) == Learned(n, DIRECT, n).(dist := RIP_MAX_HOP)
    else RowAt(s, v, n) == NO_ROW
  }

  // ----- well-formedness, under any loss, duplication, reordering or failure -----

  ghost predicate RowOk(g: Graph, s: State, v: Node, n: nat)
    requires n < MAX_ROUTERS
  {
    var row := RowAt(s, v, n);
    if !row.taken then row == NO_ROW
    else
      && IsNode(n) && n != v && row.dest == n && 0 <= row.dist <= 12
      && IsNode(row.route) && Link(v, row.route) in g && row.socket == 7000 + row.route
      && (row.dist == DIRECT ==> row.route == n)
      && (row.route == n ==> row.dist == DIRECT || row.dist == RIP_MAX_HOP)
      && RowAt(s, v, row.route).taken
      && (row.route != n ==> RowAt(s, row.route, n).taken)
  }

  ghost predicate PacketOk(s: State, l: Link, a: Advert) {
    && a.src == l.src && IsNode(a.net) && a.net != a.src && 0 <= a.dist <= RIP_MAX_HOP
    && RowAt(s, l.src, a.net).taken
  }

  ghost predicate WellFormed(g: Graph, s: State) {
    && (forall v: Node, n: nat | n < MAX_ROUTERS :: RowOk(g, s, v, n))
    && (forall l <- g, i | 0 <= i < |Queue(s, l)| :: PacketOk(s, l, Queue(s, l)[i]))
  }

  lemma InitialIsWellFormed(g: Graph, s: State)
    requires ValidGraph(g) && Initial(g, s)
    ensures WellFormed(g, s)
  {
    forall v: Node, n: nat | n < MAX_ROUTERS
      ensures RowOk(g, s, v, n)
    {
      assert InitialRow(g, s, v, n);
    }
  }

  /** A send enqueues only rows of the sender's table, and can only put one row at infinity. */
  lemma SendEffect(g: Graph, s: State, step: Step)
    requires ValidGraph(g) && WellFormed(g, s) && Enabled(g, s, step) && step.Send?
    ensures var (s', l) := (Apply(g, s, step), step.link);
            && (forall v: Node, n: nat | n < MAX_ROUTERS ::
                  RowAt(s', v, n) == RowAt(s, v, n) ||
                  (v == l.src && n == l.dst && RowAt(s', v, n) == RowAt(s, v, n).(dist := RIP_MAX_HOP)))
            && (forall k: Link | k != l :: Queue(s', k) == Queue(s, k))
            && |Queue(s, l)| <= |Queue(s', l)| && Queue(s', l)[..|Queue(s, l)|] == Queue(s, l)
            && forall i | |Queue(s, l)| <= i < |Queue(s', l)| ::
                 var a := Queue(s', l)[i];
                 a.src == l.src && IsNode(a.net) && RowAt(s, l.src, a.net).taken &&
                 a.dist == RowAt(s, l.src, a.net).dist
  {
    var (s', l, t) := (Apply(g, s, step), step.link, s.routers[step.link.src].table);
    assert RowOk(g, s, l.src, l.dst);
    AdvertsAreTheTakenRows(l.src, t, step.reached, MAX_ROUTERS);
    forall i | |Queue(s, l)| <= i < |Queue(s', l)|
      ensures var a := Queue(s', l)[i];
              a.src == l.src && IsNode(a.net) && RowAt(s, l.src, a.net).taken &&
              a.dist == RowAt(s, l.src, a.net).dist
    {
      var a := Queue(s', l)[i];
      assert a in Adverts(l.src, t, step.reached);
      var n: nat :| n < MAX_ROUTERS && t[n].taken && a == Advert(l.src, t[n].dest, t[n].dist);
      assert RowOk(g, s, l.src, n);
    }
  }

  lemma DeliverEffect(g: Graph, s: State, step: Step)
    requires ValidGraph(g) && WellFormed(g, s) && Enabled(g, s, step) && step.Deliver?
    ensures var (s', l, a) := (Apply(g, s, step), step.link, Queue(s, step.link)[step.at]);
            var changes := Changes(RowAt(s, l.dst, a.net), a, l.dst);
            && a.src == l.src && IsNode(a.net) && a.net != l.src
            && RowAt(s', l.dst, l.src) == Learned(l.src, DIRECT, l.src)
            && RowAt(s', l.dst, a.net) ==
               (if changes then Learned(a.net, Saturate(a.dist), l.src) else RowAt(s, l.dst, a.net))
            && s'.routers[l.dst].failed ==
               s.routers[l.dst].failed[a.net := if changes then 0 else s.routers[l.dst].failed[a.net] + 1]
            && (forall v: Node, n: nat | n < MAX_ROUTERS && (v != l.dst || (n != l.src && n != a.net)) ::
                  RowAt(s', v, n) == RowAt(s, v, n))
            && (forall k: Link | k != l :: Queue(s', k) == Queue(s, k))
            && Queue(s', l) == (if step.keep then Queue(s, l) else Without(Queue(s, l), step.at))
  {
    var (l, a) := (step.link, Queue(s, step.link)[step.at]);
    assert PacketOk(s, l, a);
    assert RowOk(g, s, l.dst, a.net);
    UpdateByRow(s.routers[l.dst].table, a, l.dst);
  }

  lemma TakenStaysTaken(g: Graph, s: State, step: Step, v: Node, n: nat)
    requires ValidGraph(g) && WellFormed(g, s) && Enabled(g, s, step) && n < MAX_ROUTERS && RowAt(s, v, n).taken
    ensures RowAt(Apply(g, s, step), v, n).taken
  {
    match step
    case Send(_, _) => SendEffect(g, s, step);
    case Deliver(_, _, _) => DeliverEffect(g, s, step);
    case Lose(_, _) =>
  }

  lemma StepKeepsRows(g: Graph, s: State, step: Step, v: Node, n: nat)
    requires ValidGraph(g) && WellFormed(g, s) && Enabled(g, s, step) && n < MAX_ROUTERS
    ensures RowOk(g, Apply(g, s, step), v, n)
  {
    assert RowOk(g, s, v, n);
    match step
    case Send(l, _) =>
      SendEffect(g, s, step);
      assert RowOk(g, s, l.src, l.dst);
    case Deliver(_, _, _) => DeliverKeepsRows(g, s, step, v, n);
    case Lose(_, _) =>
  }

  lemma DeliverKeepsRows(g: Graph, s: State, step: Step, v: Node, n: nat)
    requires ValidGraph(g) && WellFormed(g, s) && Enabled(g, s, step) && n < MAX_ROUTERS && step.Deliver?
    ensures RowOk(g, Apply(g, s, step), v, n)
  {
    var (l, a) := (step.link, Queue(s, step.link)[step.at]);
    assert RowOk(g, s, v, n) && PacketOk(s, l, a);
    DeliverEffect(g, s, step);
    assert RowAt(Apply(g, s, step), l.src, a.net) == RowAt(s, l.src, a.net);
    if RowAt(s, v, n).taken {
      TakenStaysTaken(g, s, step, v, RowAt(s, v, n).route);
      if RowAt(s, v, n).route != n {
        TakenStaysTaken(g, s, step, RowAt(s, v, n).route, n);
      }
    }
  }

  lemma StepKeepsPackets(g: Graph, s: State, step: Step, l: Link, i: nat)
    requires ValidGraph(g) && WellFormed(g, s) && Enabled(g, s, step) && l in g
    requires i < |Queue(Apply(g, s, step), l)|
    ensures PacketOk(Apply(g, s, step), l, Queue(Apply(g, s, step), l)[i])
  {
    var s' := Apply(g, s, step);
    var a := Queue(s', l)[i];
    if i < |Queue(s, l)| {
      assert PacketOk(s, l, Queue(s, l)[i]);
    }
    if i + 1 < |Queue(s, l)| {
      assert PacketOk(s, l, Queue(s, l)[i + 1]);
    }
    match step
    case Send(_, _) => SendKeepsPackets(g, s, step, l, i);
    case Deliver(_, _, _) =>
      DeliverEffect(g, s, step);
      TakenStaysTaken(g, s, step, l.src, a.net);
    case Lose(_, _) =>
  }

  lemma SendKeepsPackets(g: Graph, s: State, step: Step, l: Link, i: nat)
    requires ValidGraph(g) && WellFormed(g, s) && Enabled(g, s, step) && l in g && step.Send?
    requires i < |Queue(Apply(g, s, step), l)| && (i < |Queue(s, l)| ==> PacketOk(s, l, Queue(s, l)[i]))
    ensures PacketOk(Apply(g, s, step), l, Queue(Apply(g, s, step), l)[i])
  {
    var (s', a) := (Apply(g, s, step), Queue(Apply(g, s, step), l)[i]);
    SendEffect(g, s, step);
    if l == step.link && |Queue(s, l)| <= i {
      assert RowOk(g, s, l.src, a.net);
    } else if l == step.link {
      assert a == Queue(s', l)[..|Queue(s, l)|][i];
    }
  }

  /** Every step keeps the network well formed, whatever goes wrong with the packets. */
  lemma StepKeepsWellFormed(g: Graph, s: State, step: Step)
    requires ValidGraph(g) && WellFormed(g, s) && Enabled(g, s, step)
    ensures WellFormed(g, Apply(g, s, step))
  {
    forall v: Node, n: nat | n < MAX_ROUTERS
      ensures RowOk(g, Apply(g, s, step), v, n)
    {
      StepKeepsRows(g, s, step, v, n);
    }
    forall l <- g, i | 0 <= i < |Queue(Apply(g, s, step), l)|
      ensures PacketOk(Apply(g, s, step), l, Queue(Apply(g, s, step), l)[i])
    {
      StepKeepsPackets(g, s, step, l, i);
    }
  }

  lemma {:induction false} RunKeepsWellFormed(g: Graph, s: State, steps: seq<Step>)
    requires ValidGraph(g) && WellFormed(g, s) && Legal(g, s, steps)
    ensures WellFormed(g, Exec(g, s, steps))
    decreases |steps|
  {
    if steps != [] {
      StepKeepsWellFormed(g, s, steps[0]);
      RunKeepsWellFormed(g, Apply(g, s, steps[0]), steps[1..]);
    }
  }
}
