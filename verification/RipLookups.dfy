/** The two lookups of a dispatch: the switch fabric picks a next hop, and dispatching looks
    that router up again for its socket.  Without failed sends they agree, in whatever
    order packets arrive. */
module RipLookups {
  import opened RoutingTables
  import opened RipRouters
  import opened RipNetwork

  /** The router a packet for network n is really sent to. */
  function DispatchedTo(t: Table, n: nat): int
    requires n < MAX_ROUTERS
  {
    var hop := t[n].route;
    if 0 <= hop < MAX_ROUTERS && t[hop].taken then t[hop].socket - ROUTER_PORTS else ERR
  }

  /** Not a send of which nothing arrives. */
  predicate NotInVain(s: State, step: Step) {
    step.Send? ==> Adverts(step.link.src, s.routers[step.link.src].table, step.reached) != []
  }

  predicate NoneInVain(g: Graph, s: State, steps: seq<Step>)
    requires Legal(g, s, steps)
    decreases |steps|
  {
    steps != [] ==> NotInVain(s, steps[0]) && NoneInVain(g, Apply(g, s, steps[0]), steps[1..])
  }

  /** A router used as a next hop is, and stays, a direct neighbour. */
  ghost predicate Firm(s: State, v: Node, n: nat)
    requires n < MAX_ROUTERS
  {
    var row := RowAt(s, v, n);
    row.taken && row.route != n && IsNode(row.route) ==> RowAt(s, v, row.route) == Learned(row.route, DIRECT, row.route)
  }

  ghost predicate AllFirm(s: State) {
    forall v: Node, n: nat | n < MAX_ROUTERS :: Firm(s, v, n)
  }

  lemma InitialIsFirm(g: Graph, s: State)
    requires ValidGraph(g) && Initial(g, s)
    ensures AllFirm(s)
  {
    forall v: Node, n: nat | n < MAX_ROUTERS
      ensures Firm(s, v, n)
    {
      assert InitialRow(g, s, v, n);
    }
  }

  lemma StepKeepsFirm(g: Graph, s: State, step: Step)
    requires ValidGraph(g) && WellFormed(g, s) && AllFirm(s) && Enabled(g, s, step) && NotInVain(s, step)
    ensures AllFirm(Apply(g, s, step))
  {
    forall v: Node, n: nat | n < MAX_ROUTERS
      ensures Firm(Apply(g, s, step), v, n)
    {
      assert Firm(s, v, n) && RowOk(g, s, v, n);
      if step.Deliver? {
        DeliverEffect(g, s, step);
      }
    }
  }

  /** A chosen next hop is looked up as itself. */
  lemma FirmLookup(g: Graph, s: State, v: Node, n: nat)
    requires WellFormed(g, s) && n < MAX_ROUTERS && Firm(s, v, n) && RowAt(s, v, n).taken
    ensures DispatchedTo(s.routers[v].table, n) == RowAt(s, v, n).route
  {
    assert RowOk(g, s, v, n) && RowOk(g, s, v, RowAt(s, v, n).route);
  }

  /** In general the second lookup follows the next hop's own row. */
  lemma AgreeIff(g: Graph, s: State, v: Node, n: nat)
    requires WellFormed(g, s) && n < MAX_ROUTERS && RowAt(s, v, n).taken
    ensures var hop := RowAt(s, v, n).route;
            IsNode(hop) && (DispatchedTo(s.routers[v].table, n) == hop <==> RowAt(s, v, hop).route == hop)
  {
    assert RowOk(g, s, v, n) && RowOk(g, s, v, RowAt(s, v, n).route);
  }

  lemma {:induction false} RunKeepsFirm(g: Graph, s: State, steps: seq<Step>)
    requires ValidGraph(g) && WellFormed(g, s) && AllFirm(s) && Legal(g, s, steps) && NoneInVain(g, s, steps)
    ensures WellFormed(g, Exec(g, s, steps)) && AllFirm(Exec(g, s, steps))
    decreases |steps|
  {
    if steps != [] {
      StepKeepsWellFormed(g, s, steps[0]);
      StepKeepsFirm(g, s, steps[0]);
      RunKeepsFirm(g, Apply(g, s, steps[0]), steps[1..]);
    }
  }

  /** Under loss, duplication and reordering, as long as no send is in vain: looking the next
      hop up again gives the router the switch fabric chose, a neighbour. */
  lemma LookupsAgree(g: Graph, s: State, steps: seq<Step>, v: Node, n: nat)
    requires ValidGraph(g) && Initial(g, s) && Legal(g, s, steps) && NoneInVain(g, s, steps) && n < MAX_ROUTERS
    ensures var (t, row) := (Exec(g, s, steps).routers[v].table, RowAt(Exec(g, s, steps), v, n));
            row.taken ==> DispatchedTo(t, n) == row.route && IsNode(row.route) && Link(v, row.route) in g
  {
    InitialIsWellFormed(g, s);
    InitialIsFirm(g, s);
    RunKeepsFirm(g, s, steps);
    assert RowOk(g, Exec(g, s, steps), v, n) && Firm(Exec(g, s, steps), v, n);
    if RowAt(Exec(g, s, steps), v, n).taken {
      FirmLookup(g, Exec(g, s, steps), v, n);
    }
  }
}
