/** The other side of going quiet: a route that has just changed keeps its router sending
    until it has been confirmed nine times, whatever happens to the packets. */
module RipPersistence {
  import opened RoutingTables
  import opened RipRouters
  import opened RipNetwork

  /** The step has router v handle an advert about network n. */
  predicate TellsOf(s: State, step: Step, v: Node, n: Node) {
    && step.Deliver? && step.link.dst == v && step.at < |Queue(s, step.link)|
    && Queue(s, step.link)[step.at].net == n
  }

  /** How many adverts about n the run has v handle. */
  function Told(g: Graph, s: State, steps: seq<Step>, v: Node, n: Node): nat
    requires Legal(g, s, steps)
    decreases |steps|
  {
    if steps == [] then 0
    else (if TellsOf(s, steps[0], v, n) then 1 else 0) + Told(g, Apply(g, s, steps[0]), steps[1..], v, n)
  }

  /** The advert handled in this step changes the row it is about. */
  predicate ChangesRow(g: Graph, s: State, step: Step)
    requires Enabled(g, s, step)
  {
    step.Deliver? && UpdateTable(s.routers[step.link.dst].table, Queue(s, step.link)[step.at], step.link.dst).1
  }

  lemma StepCounts(g: Graph, s: State, step: Step, v: Node, n: Node)
    requires Enabled(g, s, step)
    ensures Apply(g, s, step).routers[v].failed[n] <=
            s.routers[v].failed[n] + (if TellsOf(s, step, v, n) then 1 else 0)
  {
  }

  lemma {:induction false} RunCounts(g: Graph, s: State, steps: seq<Step>, v: Node, n: Node)
    requires Legal(g, s, steps)
    ensures Exec(g, s, steps).routers[v].failed[n] <= s.routers[v].failed[n] + Told(g, s, steps, v, n)
    decreases |steps|
  {
    if steps != [] {
      StepCounts(g, s, steps[0], v, n);
      RunCounts(g, Apply(g, s, steps[0]), steps[1..], v, n);
    }
  }

  lemma ChangeStarts(g: Graph, s: State, step: Step)
    requires Enabled(g, s, step) && ChangesRow(g, s, step)
    ensures var (s', l, n) := (Apply(g, s, step), step.link, Queue(s, step.link)[step.at].net);
            && RowAt(s', l.dst, n).taken && RowAt(s', l.dst, n).dist > 0
            && s'.routers[l.dst].failed[n] == 0 && s'.routers[l.dst].sending
  {
    var (s', l, n) := (Apply(g, s, step), step.link, Queue(s, step.link)[step.at].net);
    assert Unsettled(s'.routers[l.dst].table, s'.routers[l.dst].failed, n);
  }

  lemma SendsOn(g: Graph, s: State, step: Step, v: Node, n: Node)
    requires Enabled(g, s, step) && step.Deliver? && step.link.dst == v
    requires s.routers[v].failed[n] + (if TellsOf(s, step, v, n) then 1 else 0) < 9
    requires RowAt(Apply(g, s, step), v, n).taken && RowAt(Apply(g, s, step), v, n).dist > 0
    ensures Apply(g, s, step).routers[v].sending
  {
    var s' := Apply(g, s, step);
    StepCounts(g, s, step, v, n);
    assert Unsettled(s'.routers[v].table, s'.routers[v].failed, n);
  }

  /** From any state, under any loss, duplication, reordering and failed sends: when an advert
      changes a router's row, the row is indirect and the router is set to send; and so it
      is after every further packet it handles, as long as that row is indirect and fewer
      than nine further adverts about it have come. */
  lemma KeepsSending(g: Graph, s: State, first: Step, steps: seq<Step>, last: Step, n: Node)
    requires Enabled(g, s, first) && ChangesRow(g, s, first) && Queue(s, first.link)[first.at].net == n
    requires Legal(g, Apply(g, s, first), steps)
    requires Enabled(g, Exec(g, Apply(g, s, first), steps), last)
    requires last.Deliver? && last.link.dst == first.link.dst
    ensures var (s1, v) := (Apply(g, s, first), first.link.dst);
            var (before, after) := (Exec(g, s1, steps), Apply(g, Exec(g, s1, steps), last));
            && RowAt(s1, v, n).taken && RowAt(s1, v, n).dist > 0 && s1.routers[v].sending
            && var further := Told(g, s1, steps, v, n) + (if TellsOf(before, last, v, n) then 1 else 0);
               further < 9 && RowAt(after, v, n).taken && RowAt(after, v, n).dist > 0 ==> after.routers[v].sending
  {
    var (s1, v) := (Apply(g, s, first), first.link.dst);
    ChangeStarts(g, s, first);
    RunCounts(g, s1, steps, v, n);
    var before := Exec(g, s1, steps);
    if Told(g, s1, steps, v, n) + (if TellsOf(before, last, v, n) then 1 else 0) < 9 &&
       RowAt(Apply(g, before, last), v, n).taken && RowAt(Apply(g, before, last), v, n).dist > 0 {
      SendsOn(g, before, last, v, n);
    }
  }

  /** The nine are exact: with nothing else indirect, nine confirmations in a row turn sending
      off at the ninth. */
  lemma NinthSettles(g: Graph, s: State, step: Step, n: Node)
    requires Enabled(g, s, step) && TellsOf(s, step, step.link.dst, n) && !ChangesRow(g, s, step)
    requires s.routers[step.link.dst].failed[n] >= 8
    requires forall k: nat | k < MAX_ROUTERS && k != n && RowAt(Apply(g, s, step), step.link.dst, k).taken ::
               RowAt(Apply(g, s, step), step.link.dst, k).dist == DIRECT
    ensures !Apply(g, s, step).routers[step.link.dst].sending
  {
    var (s', v) := (Apply(g, s, step), step.link.dst);
    forall k: nat | k < MAX_ROUTERS
      ensures !Unsettled(s'.routers[v].table, s'.routers[v].failed, k)
    {
      assert k != n && RowAt(s', v, k).taken ==> RowAt(s', v, k).dist == DIRECT;
    }
  }
}
