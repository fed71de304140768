/** Distances never promise a shorter route than exists, however packets are delivered. */
module RipSoundness {
  import opened Wire
  import opened RoutingTables
  import opened RipNetwork

  /** A walk of exactly k links from u to network n. */
  ghost predicate Walk(g: Graph, u: Node, n: nat, k: nat)
    decreases k
  {
    if k == 0 then u == n else exists w: Node :: Link(u, w) in g && Walk(g, w, n, k - 1)
  }

  ghost predicate Reaches(g: Graph, u: Node, n: nat) {
    exists k: nat :: Walk(g, u, n, k)
  }

  ghost predicate SoundRow(g: Graph, s: State, v: Node, n: nat)
    requires n < MAX_ROUTERS
  {
    var row := RowAt(s, v, n);
    row.taken ==>
      && Reaches(g, v, n)
      && (0 <= row.dist < RIP_MAX_HOP ==>
            IsNode(row.route) && Link(v, row.route) in g && Walk(g, row.route, n, row.dist))
  }

  ghost predicate SoundPacket(g: Graph, l: Link, a: Advert) {
    IsNode(a.net) && Reaches(g, l.src, a.net) && (0 <= a.dist < RIP_MAX_HOP ==> Walk(g, l.src, a.net, a.dist + 1))
  }

  ghost predicate Sound(g: Graph, s: State) {
    && (forall v: Node, n: nat | n < MAX_ROUTERS :: SoundRow(g, s, v, n))
    && (forall l <- g, i | 0 <= i < |Queue(s, l)| :: SoundPacket(g, l, Queue(s, l)[i]))
  }

  lemma ReachesThrough(g: Graph, v: Node, u: Node, n: nat)
    requires Link(v, u) in g && Reaches(g, u, n)
    ensures Reaches(g, v, n)
  {
    var k: nat :| Walk(g, u, n, k);
    assert Walk(g, v, n, k + 1);
  }

  lemma InitialIsSound(g: Graph, s: State)
    requires ValidGraph(g) && Initial(g, s)
    ensures Sound(g, s)
  {
    forall v: Node, n: nat | n < MAX_ROUTERS
      ensures SoundRow(g, s, v, n)
    {
      assert InitialRow(g, s, v, n);
      if RowAt(s, v, n).taken {
        assert Walk(g, n, n, 0);
        ReachesThrough(g, v, n, n);
      }
    }
  }

  lemma StepKeepsSoundRow(g: Graph, s: State, step: Step, v: Node, n: nat)
    requires ValidGraph(g) && WellFormed(g, s) && Sound(g, s) && Enabled(g, s, step) && n < MAX_ROUTERS
    ensures SoundRow(g, Apply(g, s, step), v, n)
  {
    assert SoundRow(g, s, v, n) && RowOk(g, s, v, n);
    match step
    case Send(_, _) => SendEffect(g, s, step);
    case Deliver(_, _, _) => DeliverKeepsSoundRow(g, s, step, v, n);
    case Lose(_, _) =>
  }

  lemma DeliverKeepsSoundRow(g: Graph, s: State, step: Step, v: Node, n: nat)
    requires ValidGraph(g) && WellFormed(g, s) && Sound(g, s) && Enabled(g, s, step) && n < MAX_ROUTERS
    requires step.Deliver?
    ensures SoundRow(g, Apply(g, s, step), v, n)
  {
    var (l, a) := (step.link, Queue(s, step.link)[step.at]);
    assert SoundRow(g, s, v, n) && RowOk(g, s, v, n) && SoundPacket(g, l, a) && PacketOk(s, l, a);
    DeliverEffect(g, s, step);
    if v == l.dst && (n == l.src || n == a.net) {
      assert Link(v, l.src) in g && Walk(g, l.src, l.src, 0);
      ReachesThrough(g, v, l.src, l.src);
      ReachesThrough(g, v, l.src, a.net);
    }
  }

  lemma StepKeepsSoundPacket(g: Graph, s: State, step: Step, l: Link, i: nat)
    requires ValidGraph(g) && WellFormed(g, s) && Sound(g, s) && Enabled(g, s, step) && l in g
    requires i < |Queue(Apply(g, s, step), l)|
    ensures SoundPacket(g, l, Queue(Apply(g, s, step), l)[i])
  {
    var s' := Apply(g, s, step);
    var a := Queue(s', l)[i];
    if i < |Queue(s, l)| {
      assert SoundPacket(g, l, Queue(s, l)[i]);
    }
    if i + 1 < |Queue(s, l)| {
      assert SoundPacket(g, l, Queue(s, l)[i + 1]);
    }
    match step
    case Send(_, _) =>
      SendEffect(g, s, step);
      if l == step.link && |Queue(s, l)| <= i {
        assert SoundRow(g, s, l.src, a.net) && RowOk(g, s, l.src, a.net);
      } else if l == step.link {
        assert a == Queue(s', l)[..|Queue(s, l)|][i];
      }
    case Deliver(_, _, _) => DeliverEffect(g, s, step);
    case Lose(_, _) =>
  }

  lemma StepKeepsSound(g: Graph, s: State, step: Step)
    requires ValidGraph(g) && WellFormed(g, s) && Sound(g, s) && Enabled(g, s, step)
    ensures Sound(g, Apply(g, s, step))
  {
    forall v: Node, n: nat | n < MAX_ROUTERS
      ensures SoundRow(g, Apply(g, s, step), v, n)
    {
      StepKeepsSoundRow(g, s, step, v, n);
    }
    forall l <- g, i | 0 <= i < |Queue(Apply(g, s, step), l)|
      ensures SoundPacket(g, l, Queue(Apply(g, s, step), l)[i])
    {
      StepKeepsSoundPacket(g, s, step, l, i);
    }
  }

  lemma {:induction false} RunKeepsSound(g: Graph, s: State, steps: seq<Step>)
    requires ValidGraph(g) && WellFormed(g, s) && Sound(g, s) && Legal(g, s, steps)
    ensures WellFormed(g, Exec(g, s, steps)) && Sound(g, Exec(g, s, steps))
    decreases |steps|
  {
    if steps != [] {
      StepKeepsWellFormed(g, s, steps[0]);
      StepKeepsSound(g, s, steps[0]);
      RunKeepsSound(g, Apply(g, s, steps[0]), steps[1..]);
    }
  }

  /** In every reachable state, under loss, duplication, reordering and failed
      dispatches: a distance d below infinity stands for a real walk of exactly d + 1
      links whose first hop is the row's next hop. */
  lemma DistancesAreRealWalks(g: Graph, s: State, steps: seq<Step>, v: Node, n: nat)
    requires ValidGraph(g) && Initial(g, s) && Legal(g, s, steps) && n < MAX_ROUTERS
    ensures var row := RowAt(Exec(g, s, steps), v, n);
            row.taken && row.dist < 12 ==>
            row.dist >= 0 && IsNode(row.route) && Link(v, row.route) in g && Walk(g, row.route, n, row.dist)
  {
    InitialIsWellFormed(g, s);
    InitialIsSound(g, s);
    RunKeepsSound(g, s, steps);
    assert SoundRow(g, Exec(g, s, steps), v, n) && RowOk(g, Exec(g, s, steps), v, n);
  }
}
