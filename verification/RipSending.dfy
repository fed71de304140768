/** The sending loop of one router against the network model: its pass over the table, with
    every row packed, printed, parsed and unpacked, is a sequence of the network's sends. */
module RipSending {
  import opened Wire
  import opened RoutingTables
  import opened RipRouters
  import opened RipNetwork

  /** What the texts sent to a port say once read back. */
  function SentTo(sent: seq<Dispatch>, port: int): seq<Advert> {
    if sent == [] then [] else SaysTo(sent[0], port) + SentTo(sent[1..], port)
  }

  function SaysTo(d: Dispatch, port: int): seq<Advert> {
    if d.port == port then [FromText(d.text)] else []
  }

  lemma {:induction false} SentToBoth(first: seq<Dispatch>, second: seq<Dispatch>, port: int)
    ensures SentTo(first + second, port) == SentTo(first, port) + SentTo(second, port)
  {
    if first == [] {
      assert first + second == second;
    } else {
      assert (first + second)[0] == first[0] && (first + second)[1..] == first[1..] + second;
      SentToBoth(first[1..], second, port);
    }
  }

  lemma {:induction false} BurstIsRead(sent: seq<Dispatch>, adverts: seq<Advert>, port: int, at: int)
    requires Carries(sent, adverts, port)
    ensures SentTo(sent, at) == if at == port then adverts else []
  {
    if sent != [] {
      assert Carried(sent[0].text, adverts[0]);
      BurstIsRead(sent[1..], adverts[1..], port, at);
      assert adverts == [adverts[0]] + adverts[1..];
    }
  }

  /** One Send per direct neighbour, in table order. */
  function SweepSteps(me: Node, t: Table, reached: seq<set<nat>>, k: nat): seq<Step>
    requires k <= MAX_ROUTERS == |reached|
  {
    if k == 0 then []
    else
      var row := SendSweep(me, t, reached, k - 1).0[k - 1];
      if k - 1 < IDS && row.taken && row.dist == DIRECT
      then SweepSteps(me, t, reached, k - 1) + [Send(Link(me, k - 1), reached[k - 1])]
      else SweepSteps(me, t, reached, k - 1)
  }

  lemma {:induction false} SweepLeavesLater(me: Node, t: Table, reached: seq<set<nat>>, k: nat)
    requires k <= MAX_ROUTERS == |reached|
    ensures forall n | k <= n < MAX_ROUTERS :: SendSweep(me, t, reached, k).0[n] == t[n]
  {
    if k > 0 {
      SweepLeavesLater(me, t, reached, k - 1);
    }
  }

  /** The step sends to one of the first k networks that is a direct neighbour. */
  predicate Serves(me: Node, t: Table, reached: seq<set<nat>>, k: nat, step: Step)
    requires |reached| == MAX_ROUTERS
  {
    && step.Send? && step.link.src == me && step.link.dst < k && step.reached == reached[step.link.dst]
    && t[step.link.dst].taken && t[step.link.dst].dist == DIRECT
  }

  /** The loop serves exactly the neighbours that were direct when it began. */
  lemma {:induction false} SweepServesNeighbours(me: Node, t: Table, reached: seq<set<nat>>, k: nat, step: Step)
    requires k <= MAX_ROUTERS == |reached|
    ensures step in SweepSteps(me, t, reached, k) <==> Serves(me, t, reached, k, step)
  {
    if k > 0 {
      SweepServesNeighbours(me, t, reached, k - 1, step);
      StepsUnfold(me, t, reached, k - 1);
      ServesOneMore(me, t, reached, k - 1, SweepSteps(me, t, reached, k - 1), SweepSteps(me, t, reached, k), step);
    }
  }

  lemma ServesOneMore(me: Node, t: Table, reached: seq<set<nat>>, n: nat, steps: seq<Step>, steps': seq<Step>, step: Step)
    requires n < MAX_ROUTERS == |reached| && (step in steps <==> Serves(me, t, reached, n, step))
    requires steps' == if n < IDS && t[n].taken && t[n].dist == DIRECT then steps + [Send(Link(me, n), reached[n])]
                       else steps
    ensures step in steps' <==> Serves(me, t, reached, n + 1, step)
  {
  }

  lemma StepsUnfold(me: Node, t: Table, reached: seq<set<nat>>, n: nat)
    requires n < MAX_ROUTERS == |reached|
    ensures SweepSteps(me, t, reached, n + 1) ==
            if n < IDS && t[n].taken && t[n].dist == DIRECT
            then SweepSteps(me, t, reached, n) + [Send(Link(me, n), reached[n])]
            else SweepSteps(me, t, reached, n)
  {
    SweepLeavesLater(me, t, reached, n);
  }

  lemma {:induction false} ExecOneMore(g: Graph, s: State, steps: seq<Step>, step: Step)
    requires Legal(g, s, steps) && Enabled(g, Exec(g, s, steps), step)
    ensures Legal(g, s, steps + [step]) && Exec(g, s, steps + [step]) == Apply(g, Exec(g, s, steps), step)
    decreases |steps|
  {
    if steps == [] {
      assert [step][1..] == [];
      assert Exec(g, Apply(g, s, step), []) == Apply(g, s, step);
    } else {
      assert (steps + [step])[1..] == steps[1..] + [step];
      ExecOneMore(g, Apply(g, s, steps[0]), steps[1..], step);
    }
  }

  /** The state s' is s after the router me has swept to table t and sent these texts. */
  ghost predicate Swept(s: State, s': State, me: Node, t: Table, sent: seq<Dispatch>) {
    && s'.routers == s.routers[me := s.routers[me].(table := t)]
    && forall l: Link :: Queue(s', l) == Queue(s, l) + (if l.src == me then SentTo(sent, ROUTER_PORTS + l.dst) else [])
  }

  lemma RowsAreSendable(g: Graph, s: State, me: Node)
    requires WellFormed(g, s)
    ensures Sendable(s.routers[me].table)
  {
    forall n | 0 <= n < MAX_ROUTERS && s.routers[me].table[n].taken
      ensures n < 16 && s.routers[me].table[n].dest == n && 0 <= s.routers[me].table[n].dist <= RIP_MAX_HOP
    {
      assert RowOk(g, s, me, n);
    }
  }

  lemma BurstAdds(g: Graph, s: State, me: Node, neighbour: Node, reached: set<nat>, sent: seq<Dispatch>, port: int)
    requires WellFormed(g, s) && IsNode(me) && RowAt(s, me, neighbour).socket == ROUTER_PORTS + neighbour
    ensures var t := s.routers[me].table;
            SentTo(sent + DispatchesUpTo(me, t, neighbour, reached, MAX_ROUTERS), port) ==
            SentTo(sent, port) + (if port == ROUTER_PORTS + neighbour then Adverts(me, t, reached) else [])
  {
    var t := s.routers[me].table;
    var burst := DispatchesUpTo(me, t, neighbour, reached, MAX_ROUTERS);
    RowsAreSendable(g, s, me);
    WireCarriesTheTable(me, t, neighbour, reached, MAX_ROUTERS);
    SentToBoth(sent, burst, port);
    BurstIsRead(burst, Adverts(me, t, reached), ROUTER_PORTS + neighbour, port);
  }

  ghost predicate Adds(sent: seq<Dispatch>, sent': seq<Dispatch>, port: int, adverts: seq<Advert>) {
    forall p: int :: SentTo(sent', p) == SentTo(sent, p) + (if p == port then adverts else [])
  }

  lemma SendAppends(g: Graph, s: State, l: Link, reached: set<nat>, k: Link)
    requires Enabled(g, s, Send(l, reached))
    ensures var (s', t) := (Apply(g, s, Send(l, reached)), s.routers[l.src].table);
            && s'.routers == s.routers[l.src := s.routers[l.src].(table := AfterSend(l.src, t, l.dst, reached))]
            && Queue(s', k) == Queue(s, k) + (if k == l then Adverts(l.src, t, reached) else [])
  {
  }

  lemma QueueOnce(g: Graph, s: State, s': State, l: Link, reached: set<nat>, sent: seq<Dispatch>, sent': seq<Dispatch>,
                  k: Link)
    requires Enabled(g, s', Send(l, reached))
    requires Queue(s', k) == Queue(s, k) + (if k.src == l.src then SentTo(sent, ROUTER_PORTS + k.dst) else [])
    requires Adds(sent, sent', ROUTER_PORTS + l.dst, Adverts(l.src, s'.routers[l.src].table, reached))
    ensures Queue(Apply(g, s', Send(l, reached)), k) ==
            Queue(s, k) + (if k.src == l.src then SentTo(sent', ROUTER_PORTS + k.dst) else [])
  {
    var (said, said') := (SentTo(sent, ROUTER_PORTS + k.dst), SentTo(sent', ROUTER_PORTS + k.dst));
    var adverts := Adverts(l.src, s'.routers[l.src].table, reached);
    SendAppends(g, s', l, reached, k);
    assert said' == said + (if k.dst == l.dst then adverts else []);
    if k == l {
      Regroup(Queue(s, k), said, adverts);
    }
  }

  lemma Regroup<T>(a: seq<T>, b: seq<T>, c: seq<T>)
    ensures (a + b) + c == a + (b + c)
  {
  }

  lemma SweptOnce(g: Graph, s: State, s': State, l: Link, reached: set<nat>, sent: seq<Dispatch>, sent': seq<Dispatch>)
    requires Swept(s, s', l.src, s'.routers[l.src].table, sent) && Enabled(g, s', Send(l, reached))
    requires Adds(sent, sent', ROUTER_PORTS + l.dst, Adverts(l.src, s'.routers[l.src].table, reached))
    ensures Swept(s, Apply(g, s', Send(l, reached)), l.src, AfterSend(l.src, s'.routers[l.src].table, l.dst, reached),
                  sent')
  {
    SendAppends(g, s', l, reached, l);
    forall k: Link
      ensures Queue(Apply(g, s', Send(l, reached)), k) ==
              Queue(s, k) + (if k.src == l.src then SentTo(sent', ROUTER_PORTS + k.dst) else [])
    {
      QueueOnce(g, s, s', l, reached, sent, sent', k);
    }
  }

  lemma OneNeighbourMore(g: Graph, s: State, s': State, me: Node, sent: seq<Dispatch>, neighbour: Node, reached: set<nat>)
    requires ValidGraph(g) && WellFormed(g, s') && IsNode(me)
    requires Swept(s, s', me, s'.routers[me].table, sent)
    requires RowAt(s', me, neighbour).taken && RowAt(s', me, neighbour).dist == DIRECT
    ensures var t := s'.routers[me].table;
            && Enabled(g, s', Send(Link(me, neighbour), reached))
            && Swept(s, Apply(g, s', Send(Link(me, neighbour), reached)), me, AfterSend(me, t, neighbour, reached),
                     sent + DispatchesUpTo(me, t, neighbour, reached, MAX_ROUTERS))
  {
    var t := s'.routers[me].table;
    var sent' := sent + DispatchesUpTo(me, t, neighbour, reached, MAX_ROUTERS);
    assert RowOk(g, s', me, neighbour);
    forall p: int
      ensures SentTo(sent', p) ==
              SentTo(sent, p) + (if p == ROUTER_PORTS + neighbour then Adverts(me, t, reached) else [])
    {
      BurstAdds(g, s', me, neighbour, reached, sent, p);
    }
    SweptOnce(g, s, s', Link(me, neighbour), reached, sent, sent');
  }

  /** These steps of the network are the sweep that leaves table t and sends these texts. */
  ghost predicate IsSweep(g: Graph, s: State, me: Node, steps: seq<Step>, t: Table, sent: seq<Dispatch>) {
    Legal(g, s, steps) && WellFormed(g, Exec(g, s, steps)) && Swept(s, Exec(g, s, steps), me, t, sent)
  }

  lemma SweepOneMore(g: Graph, s: State, me: Node, steps: seq<Step>, t: Table, sent: seq<Dispatch>, neighbour: Node,
                     reached: set<nat>)
    requires ValidGraph(g) && IsNode(me) && IsSweep(g, s, me, steps, t, sent)
    requires t[neighbour].taken && t[neighbour].dist == DIRECT
    ensures IsSweep(g, s, me, steps + [Send(Link(me, neighbour), reached)], AfterSend(me, t, neighbour, reached),
                    sent + DispatchesUpTo(me, t, neighbour, reached, MAX_ROUTERS))
  {
    var (s', step) := (Exec(g, s, steps), Send(Link(me, neighbour), reached));
    assert s'.routers[me].table == t;
    OneNeighbourMore(g, s, s', me, sent, neighbour, reached);
    ExecOneMore(g, s, steps, step);
    StepKeepsWellFormed(g, s', step);
  }

  lemma NothingSwept(g: Graph, s: State, me: Node)
    requires WellFormed(g, s)
    ensures IsSweep(g, s, me, [], s.routers[me].table, [])
  {
    assert Exec(g, s, []) == s;
    assert s.routers[me := s.routers[me].(table := s.routers[me].table)] == s.routers;
  }

  lemma NoRowBeyond(g: Graph, s: State, me: Node, steps: seq<Step>, t: Table, sent: seq<Dispatch>, n: nat)
    requires IsSweep(g, s, me, steps, t, sent) && n < MAX_ROUTERS && t[n].taken
    ensures n < IDS
  {
    assert RowOk(g, Exec(g, s, steps), me, n);
  }

  lemma SweepUnfolds(me: Node, t: Table, reached: seq<set<nat>>, n: nat)
    requires n < MAX_ROUTERS == |reached|
    ensures var (before, sent) := SendSweep(me, t, reached, n);
            var steps := SweepSteps(me, t, reached, n);
            if before[n].taken && before[n].dist == DIRECT
            then
              && SendSweep(me, t, reached, n + 1) ==
                 (AfterSend(me, before, n, reached[n]), sent + DispatchesUpTo(me, before, n, reached[n], MAX_ROUTERS))
              && (n < IDS ==> SweepSteps(me, t, reached, n + 1) == steps + [Send(Link(me, n), reached[n])])
            else
              SendSweep(me, t, reached, n + 1) == (before, sent) && SweepSteps(me, t, reached, n + 1) == steps
  {
  }

  lemma SweepReaches(g: Graph, s: State, me: Node, reached: seq<set<nat>>, n: nat)
    requires ValidGraph(g) && IsNode(me) && n < MAX_ROUTERS == |reached|
    requires var (t, sent) := SendSweep(me, s.routers[me].table, reached, n);
             IsSweep(g, s, me, SweepSteps(me, s.routers[me].table, reached, n), t, sent)
    ensures var (t, sent) := SendSweep(me, s.routers[me].table, reached, n + 1);
            IsSweep(g, s, me, SweepSteps(me, s.routers[me].table, reached, n + 1), t, sent)
  {
    var (t, sent) := SendSweep(me, s.routers[me].table, reached, n);
    var steps := SweepSteps(me, s.routers[me].table, reached, n);
    SweepUnfolds(me, s.routers[me].table, reached, n);
    if t[n].taken && t[n].dist == DIRECT {
      NoRowBeyond(g, s, me, steps, t, sent, n);
      SweepOneMore(g, s, me, steps, t, sent, n, reached[n]);
    }
  }

  /** From any well-formed state, whatever fails: the loop leaves the table, and puts on each
      outgoing queue the adverts, that the network's own Send steps do. */
  lemma {:induction false} SweepIsSends(g: Graph, s: State, me: Node, reached: seq<set<nat>>, k: nat)
    requires ValidGraph(g) && WellFormed(g, s) && IsNode(me) && k <= MAX_ROUTERS == |reached|
    ensures var (t, sent) := SendSweep(me, s.routers[me].table, reached, k);
            IsSweep(g, s, me, SweepSteps(me, s.routers[me].table, reached, k), t, sent)
  {
    if k == 0 {
      NothingSwept(g, s, me);
    } else {
      SweepIsSends(g, s, me, reached, k - 1);
      SweepReaches(g, s, me, reached, k - 1);
    }
  }
}
