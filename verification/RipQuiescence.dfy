/** Going quiet: once the tables have settled below infinity, every advert counts as a
    failed update, and after nine rounds the routers stop asking to send. */
module RipQuiescence {
  import opened Wire
  import opened RoutingTables
  import opened RipRouters
  import opened RipNetwork
  import opened RipSoundness
  import opened RipCleanRuns
  import opened RipRounds
  import opened RipConvergence

  /** Neighbours are direct and v's distance to n is at most one more than advertised. */
  ghost predicate NoBetterOver(s: State, l: Link, n: Node, advertised: int) {
    n != l.dst ==> RowAt(s, l.dst, n).taken && RowAt(s, l.dst, n).dist <= advertised + 1
  }

  ghost predicate Settled(g: Graph, s: State) {
    && CleanInvariant(g, s)
    && (forall l <- g :: RowAt(s, l.dst, l.src) == Learned(l.src, DIRECT, l.src))
    && (forall v: Node, n: Node :: RowAt(s, v, n).taken ==> RowAt(s, v, n).dist < RIP_MAX_HOP)
    && (forall l <- g, n: Node | RowAt(s, l.src, n).taken :: NoBetterOver(s, l, n, RowAt(s, l.src, n).dist))
    && (forall l <- g, i | 0 <= i < |Queue(s, l)| && IsNode(Queue(s, l)[i].net) ::
          NoBetterOver(s, l, Queue(s, l)[i].net, Queue(s, l)[i].dist))
  }

  ghost predicate SameTables(s: State, s': State) {
    forall v: Node :: s'.routers[v].table == s.routers[v].table
  }

  /** In settled tables every delivery changes no row and is counted as failed. */
  lemma SettledDelivery(g: Graph, s: State, step: Step)
    requires ValidGraph(g) && Settled(g, s) && Enabled(g, s, step) && Clean(step) && step.Deliver?
    ensures var (s', l, a) := (Apply(g, s, step), step.link, Queue(s, step.link)[0]);
            && SameTables(s, s')
            && !UpdateTable(s.routers[l.dst].table, a, l.dst).1
            && s'.routers[l.dst].failed == s.routers[l.dst].failed[a.net := s.routers[l.dst].failed[a.net] + 1]
            && s'.routers[l.dst].sending == KeepSending(s'.routers[l.dst].table, s'.routers[l.dst].failed)
            && forall v: Node | v != l.dst :: s'.routers[v] == s.routers[v]
  {
    var (s', l, a) := (Apply(g, s, step), step.link, Queue(s, step.link)[0]);
    DeliverEffect(g, s, step);
    assert PacketOk(s, l, a);
    assert NoBetterOver(s, l, a.net, a.dist);
    assert Backed(s, l, a.net);
    assert RowOk(g, s, l.dst, a.net);
    assert !Changes(RowAt(s, l.dst, a.net), a, l.dst);
    UpdateByRow(s.routers[l.dst].table, a, l.dst);
    assert forall n: nat | n < MAX_ROUTERS :: RowAt(s', l.dst, n) == RowAt(s, l.dst, n);
    assert s'.routers[l.dst].table == s.routers[l.dst].table;
  }

  ghost predicate CountersGrow(s: State, s': State) {
    forall v: Node, n: nat | n < MAX_ROUTERS :: s'.routers[v].failed[n] >= s.routers[v].failed[n]
  }

  lemma StepKeepsTables(g: Graph, s: State, step: Step)
    requires ValidGraph(g) && Settled(g, s) && Enabled(g, s, step) && Clean(step)
    ensures SameTables(s, Apply(g, s, step)) && CountersGrow(s, Apply(g, s, step))
  {
    if step.Send? {
      CleanSendEffect(g, s, step);
    } else {
      SettledDelivery(g, s, step);
    }
  }

  lemma QueueStaysSettled(g: Graph, s: State, step: Step, l: Link, i: nat)
    requires ValidGraph(g) && Settled(g, s) && Enabled(g, s, step) && Clean(step) && l in g
    requires i < |Queue(Apply(g, s, step), l)| && IsNode(Queue(Apply(g, s, step), l)[i].net)
    ensures var a := Queue(Apply(g, s, step), l)[i]; NoBetterOver(s, l, a.net, a.dist)
  {
    var a := Queue(Apply(g, s, step), l)[i];
    if step.Deliver? {
      DeliverShiftsQueue(g, s, step, l);
      assert NoBetterOver(s, l, Queue(s, l)[Older(l, step.link, i)].net, Queue(s, l)[Older(l, step.link, i)].dist);
    } else {
      SendExtendsQueue(g, s, step, l);
      if i < |Queue(s, l)| {
        assert NoBetterOver(s, l, Queue(s, l)[i].net, Queue(s, l)[i].dist);
      } else {
        assert NoBetterOver(s, l, a.net, RowAt(s, l.src, a.net).dist);
      }
    }
  }

  lemma StepKeepsSettled(g: Graph, s: State, step: Step)
    requires ValidGraph(g) && Settled(g, s) && Enabled(g, s, step) && Clean(step)
    ensures Settled(g, Apply(g, s, step))
  {
    var s' := Apply(g, s, step);
    StepKeepsClean(g, s, step);
    StepKeepsTables(g, s, step);
    assert forall v: Node, n: Node :: RowAt(s', v, n) == RowAt(s, v, n);
    forall l <- g, i | 0 <= i < |Queue(s', l)| && IsNode(Queue(s', l)[i].net)
      ensures NoBetterOver(s', l, Queue(s', l)[i].net, Queue(s', l)[i].dist)
    {
      QueueStaysSettled(g, s, step, l, i);
    }
    forall l <- g, n: Node | RowAt(s', l.src, n).taken
      ensures NoBetterOver(s', l, n, RowAt(s', l.src, n).dist)
    {
      assert NoBetterOver(s, l, n, RowAt(s, l.src, n).dist);
    }
  }

  // ----- the counters ------------------------------------------------------

  /** The receiver of l has counted an advert for n this round, or will. */
  ghost predicate Counts(s: State, m: Monitor, l: Link, n: Node, c: nat) {
    var (q, failed) := (Queue(s, l), s.routers[l.dst].failed[n]);
    && failed >= c
    && match Status(m, l)
       case Waiting => true
       case Pending(_, left) => left <= |q| && (failed > c || exists j :: 0 <= j < left && q[j].net == n)
       case Done => failed > c
  }

  lemma SendCounts(g: Graph, s: State, m: Monitor, step: Step, l: Link, n: Node, c: nat)
    requires ValidGraph(g) && WellFormed(g, s) && Enabled(g, s, step) && Clean(step) && step.Send? && l in g
    requires RowAt(s, l.src, n).taken && Counts(s, m, l, n, c)
    ensures Counts(Apply(g, s, step), Watch(g, s, m, step), l, n, c)
  {
    var (q, q') := (Queue(s, l), Queue(Apply(g, s, step), l));
    SendExtendsQueue(g, s, step, l);
    if l == step.link && Status(m, l) == Waiting {
      TableIsAbout(g, s, step, n);
    } else if Status(m, l).Pending? && s.routers[l.dst].failed[n] == c {
      var j :| 0 <= j < Status(m, l).left && q[j].net == n;
      assert q'[j].net == n;
    }
  }

  lemma TableIsAbout(g: Graph, s: State, step: Step, n: Node)
    requires ValidGraph(g) && WellFormed(g, s) && Enabled(g, s, step) && Clean(step) && step.Send?
    requires RowAt(s, step.link.src, n).taken
    ensures exists j :: 0 <= j < |Queue(Apply(g, s, step), step.link)| && Queue(Apply(g, s, step), step.link)[j].net == n
  {
    var (l, q') := (step.link, Queue(Apply(g, s, step), step.link));
    CleanSendEffect(g, s, step);
    var j :| |Queue(s, l)| <= j < |q'| && q'[j] == Advert(l.src, n, RowAt(s, l.src, n).dist);
    assert q'[j].net == n;
  }

  lemma DeliverCounts(g: Graph, s: State, m: Monitor, step: Step, l: Link, n: Node, c: nat)
    requires ValidGraph(g) && Settled(g, s) && Enabled(g, s, step) && Clean(step) && step.Deliver? && l in g
    requires Counts(s, m, l, n, c)
    ensures Counts(Apply(g, s, step), Watch(g, s, m, step), l, n, c)
  {
    SettledDelivery(g, s, step);
    DeliveryCounts(g, s, m, step, l, n, c);
  }

  lemma DeliveryCounts(g: Graph, s: State, m: Monitor, step: Step, l: Link, n: Node, c: nat)
    requires ValidGraph(g) && WellFormed(g, s) && Enabled(g, s, step) && Clean(step) && step.Deliver? && l in g
    requires Counts(s, m, l, n, c)
    requires var (failed, failed') := (s.routers[l.dst].failed[n], Apply(g, s, step).routers[l.dst].failed[n]);
             failed' == failed + (if step.link.dst == l.dst && Queue(s, step.link)[0].net == n then 1 else 0)
    ensures Counts(Apply(g, s, step), Watch(g, s, m, step), l, n, c)
  {
    var (q, q') := (Queue(s, l), Queue(Apply(g, s, step), l));
    DeliverShiftsQueue(g, s, step, l);
    if l == step.link && Status(m, l).Pending? && s.routers[l.dst].failed[n] == c {
      var j :| 0 <= j < Status(m, l).left && q[j].net == n;
      if j > 0 {
        assert q'[j - 1] == q[j];
      }
    }
  }

  lemma {:induction false} RunCounts(g: Graph, s: State, m: Monitor, steps: seq<Step>, l: Link, n: Node, c: nat)
    requires ValidGraph(g) && Settled(g, s) && Legal(g, s, steps) && AllClean(steps) && l in g
    requires RowAt(s, l.src, n).taken && Counts(s, m, l, n, c)
    ensures Counts(Exec(g, s, steps), Watched(g, s, m, steps), l, n, c)
    decreases |steps|
  {
    if steps != [] {
      if steps[0].Send? {
        SendCounts(g, s, m, steps[0], l, n, c);
      } else {
        DeliverCounts(g, s, m, steps[0], l, n, c);
      }
      StepKeepsSettled(g, s, steps[0]);
      StepKeepsTables(g, s, steps[0]);
      RunCounts(g, Apply(g, s, steps[0]), Watch(g, s, m, steps[0]), steps[1..], l, n, c);
    }
  }

  lemma {:induction false} RunKeepsSettledTables(g: Graph, s: State, steps: seq<Step>)
    requires ValidGraph(g) && Settled(g, s) && Legal(g, s, steps) && AllClean(steps)
    ensures Settled(g, Exec(g, s, steps)) && SameTables(s, Exec(g, s, steps)) && CountersGrow(s, Exec(g, s, steps))
    decreases |steps|
  {
    if steps != [] {
      StepKeepsSettled(g, s, steps[0]);
      StepKeepsTables(g, s, steps[0]);
      RunKeepsSettledTables(g, Apply(g, s, steps[0]), steps[1..]);
    }
  }

  /** Every row that is not direct has seen at least c failed updates. */
  ghost predicate CountedTo(s: State, c: nat) {
    forall v: Node, n: nat | n < MAX_ROUTERS :: RowCountedTo(s, v, n, c)
  }

  ghost predicate RowCountedTo(s: State, v: Node, n: nat, c: nat)
    requires n < MAX_ROUTERS
  {
    RowAt(s, v, n).taken && RowAt(s, v, n).dist != DIRECT ==> s.routers[v].failed[n] >= c
  }

  lemma RoundCountsOnce(g: Graph, s: State, steps: seq<Step>, c: nat)
    requires ValidGraph(g) && Settled(g, s) && CompleteRound(g, g, s, steps) && CountedTo(s, c)
    ensures Settled(g, Exec(g, s, steps))
    ensures CountedTo(Exec(g, s, steps), c + 1)
  {
    var (s', next) := (Exec(g, s, steps), c + 1);
    RunKeepsSettledTables(g, s, steps);
    forall v: Node, n: nat | n < MAX_ROUTERS
      ensures RowCountedTo(s', v, n, next)
    {
      assert RowCountedTo(s, v, n, c);
      RowCountsOnce(g, s, steps, v, n, c);
    }
  }

  lemma RowCountsOnce(g: Graph, s: State, steps: seq<Step>, v: Node, n: nat, c: nat)
    requires ValidGraph(g) && Settled(g, s) && CompleteRound(g, g, s, steps) && n < MAX_ROUTERS
    requires RowCountedTo(s, v, n, c) && SameTables(s, Exec(g, s, steps))
    ensures RowCountedTo(Exec(g, s, steps), v, n, c + 1)
  {
    assert RowOk(g, s, v, n);
    var row := RowAt(s, v, n);
    if row.taken && row.dist != DIRECT {
      var l := Link(row.route, v);
      assert l in g && Status(map[], l) == Waiting;
      RunCounts(g, s, map[], steps, l, n, c);
    }
  }

  lemma {:induction false} RoundsCount(g: Graph, s: State, rounds: seq<seq<Step>>, c: nat, total: nat)
    requires ValidGraph(g) && Settled(g, s) && CompleteRounds(g, g, s, rounds) && CountedTo(s, c)
    requires total == c + |rounds|
    ensures CountedTo(AfterRounds(g, g, s, rounds), total)
    decreases |rounds|
  {
    if rounds == [] {
      assert AfterRounds(g, g, s, rounds) == s;
    } else {
      RoundCountsOnce(g, s, rounds[0], c);
      RoundsCount(g, Exec(g, s, rounds[0]), rounds[1..], c + 1, total);
    }
  }

  lemma {:induction false} RoundsKeepTables(g: Graph, s: State, rounds: seq<seq<Step>>)
    requires ValidGraph(g) && Settled(g, s) && CompleteRounds(g, g, s, rounds)
    ensures Settled(g, AfterRounds(g, g, s, rounds))
    ensures SameTables(s, AfterRounds(g, g, s, rounds))
    decreases |rounds|
  {
    if rounds != [] {
      RunKeepsSettledTables(g, s, rounds[0]);
      RoundsKeepTables(g, Exec(g, s, rounds[0]), rounds[1..]);
    }
  }

  // ----- from convergence to quiet ------------------------------------------

  /** Whatever is reachable is reachable over at most `diameter` links. */
  ghost predicate Compact(g: Graph, diameter: nat) {
    forall v: Node, n: Node | Reaches(g, v, n) :: exists j: nat :: j <= diameter && Walk(g, v, n, j)
  }

  lemma ReachableIsNear(g: Graph, s: State, diameter: nat, v: Node, n: Node)
    requires SettledWithin(g, s, diameter) && Compact(g, diameter) && Reaches(g, v, n) && n != v
    ensures Distance(RowAt(s, v, n)) <= diameter - 1
  {
    var j: nat :| j <= diameter && Walk(g, v, n, j);
    assert j != 0;
  }

  lemma NearOver(g: Graph, s: State, diameter: nat, l: Link, n: Node, advertised: int)
    requires ValidGraph(g) && WellFormed(g, s) && l in g && diameter <= RIP_MAX_HOP
    requires SettledWithin(g, s, diameter) && Compact(g, diameter)
    requires 0 <= advertised <= RIP_MAX_HOP && Reaches(g, l.src, n)
    requires advertised < RIP_MAX_HOP ==> Walk(g, l.src, n, advertised + 1)
    ensures NoBetterOver(s, l, n, advertised)
  {
    if n != l.dst {
      assert Link(l.dst, l.src) in g;
      ReachesThrough(g, l.dst, l.src, n);
      ReachableIsNear(g, s, diameter, l.dst, n);
      assert RowOk(g, s, l.dst, n);
      if advertised + 2 <= diameter {
        assert Walk(g, l.dst, n, advertised + 2);
      }
    }
  }

  lemma ConvergedIsSettled(g: Graph, s: State, diameter: nat)
    requires ValidGraph(g) && CleanInvariant(g, s) && Sound(g, s)
    requires 1 <= diameter <= RIP_MAX_HOP && Compact(g, diameter) && SettledWithin(g, s, diameter)
    ensures Settled(g, s)
  {
    forall l <- g
      ensures RowAt(s, l.dst, l.src) == Learned(l.src, DIRECT, l.src)
    {
      assert Link(l.dst, l.src) in g && Walk(g, l.src, l.src, 0) && Walk(g, l.dst, l.src, 1);
      assert Distance(RowAt(s, l.dst, l.src)) <= 0;
      assert RowOk(g, s, l.dst, l.src);
    }
    forall v: Node, n: Node | RowAt(s, v, n).taken
      ensures RowAt(s, v, n).dist < RIP_MAX_HOP
    {
      assert SoundRow(g, s, v, n) && RowOk(g, s, v, n);
      ReachableIsNear(g, s, diameter, v, n);
    }
    forall l <- g, n: Node | RowAt(s, l.src, n).taken
      ensures NoBetterOver(s, l, n, RowAt(s, l.src, n).dist)
    {
      assert SoundRow(g, s, l.src, n) && RowOk(g, s, l.src, n);
      assert Walk(g, l.src, n, RowAt(s, l.src, n).dist + 1);
      NearOver(g, s, diameter, l, n, RowAt(s, l.src, n).dist);
    }
    forall l <- g, i | 0 <= i < |Queue(s, l)| && IsNode(Queue(s, l)[i].net)
      ensures NoBetterOver(s, l, Queue(s, l)[i].net, Queue(s, l)[i].dist)
    {
      var a := Queue(s, l)[i];
      assert SoundPacket(g, l, a) && PacketOk(s, l, a);
      NearOver(g, s, diameter, l, a.net, a.dist);
    }
  }

  lemma SettlesAtDiameter(g: Graph, s: State, diameter: nat, rounds: seq<seq<Step>>)
    requires ValidGraph(g) && Initial(g, s) && 1 <= diameter <= RIP_MAX_HOP && Compact(g, diameter)
    requires CompleteRounds(g, g, s, rounds) && |rounds| == diameter
    ensures Settled(g, AfterRounds(g, g, s, rounds))
  {
    InitialIsClean(g, s);
    InitialIsSound(g, s);
    assert SettledWithin(g, s, 0);
    RoundsSettle(g, s, rounds, 0);
    ConvergedIsSettled(g, AfterRounds(g, g, s, rounds), diameter);
  }

  lemma CountedIsQuiet(g: Graph, s: State, step: Step)
    requires ValidGraph(g) && Settled(g, s) && Enabled(g, s, step) && Clean(step) && step.Deliver?
    requires CountedTo(s, FAILED_LIMIT)
    ensures !Apply(g, s, step).routers[step.link.dst].sending
  {
    SettledDelivery(g, s, step);
    var (s', v) := (Apply(g, s, step), step.link.dst);
    forall n: nat | n < MAX_ROUTERS
      ensures !Unsettled(s'.routers[v].table, s'.routers[v].failed, n)
    {
      assert RowCountedTo(s, v, n, FAILED_LIMIT);
    }
  }

  lemma StaysCounted(s: State, s': State, c: nat, c': nat)
    requires SameTables(s, s') && CountersGrow(s, s') && CountedTo(s, c) && c' <= c
    ensures CountedTo(s', c')
  {
    forall v: Node, n: nat | n < MAX_ROUTERS
      ensures RowCountedTo(s', v, n, c')
    {
      assert RowCountedTo(s, v, n, c);
    }
  }

  /** The whole story: on a network of diameter at most twelve, `diameter` rounds settle
      every table, and nine more make every packet processed from then on leave its table
      alone, report no update and clear the router's wish to keep sending. */
  lemma GoesQuiet(g: Graph, s: State, diameter: nat, settling: seq<seq<Step>>, counting: seq<seq<Step>>,
                  more: seq<Step>, step: Step)
    requires ValidGraph(g) && Initial(g, s) && 1 <= diameter <= 12 && Compact(g, diameter)
    requires CompleteRounds(g, g, s, settling) && |settling| == diameter
    requires CompleteRounds(g, g, AfterRounds(g, g, s, settling), counting) && |counting| >= 9
    requires var quiet := AfterRounds(g, g, AfterRounds(g, g, s, settling), counting);
             && Legal(g, quiet, more) && AllClean(more)
             && Enabled(g, Exec(g, quiet, more), step) && Clean(step) && step.Deliver?
    ensures var before := Exec(g, AfterRounds(g, g, AfterRounds(g, g, s, settling), counting), more);
            var (after, l) := (Apply(g, before, step), step.link);
            && SameTables(AfterRounds(g, g, s, settling), after)
            && !UpdateTable(before.routers[l.dst].table, Queue(before, l)[0], l.dst).1
            && !after.routers[l.dst].sending
  {
    SettlesAtDiameter(g, s, diameter, settling);
    StaysQuiet(g, AfterRounds(g, g, s, settling), counting, more, step);
  }

  lemma StaysQuiet(g: Graph, s: State, counting: seq<seq<Step>>, more: seq<Step>, step: Step)
    requires ValidGraph(g) && Settled(g, s) && CompleteRounds(g, g, s, counting) && |counting| >= FAILED_LIMIT
    requires var quiet := AfterRounds(g, g, s, counting);
             && Legal(g, quiet, more) && AllClean(more)
             && Enabled(g, Exec(g, quiet, more), step) && Clean(step) && step.Deliver?
    ensures var before := Exec(g, AfterRounds(g, g, s, counting), more);
            var (after, l) := (Apply(g, before, step), step.link);
            && SameTables(s, after)
            && !UpdateTable(before.routers[l.dst].table, Queue(before, l)[0], l.dst).1
            && !after.routers[l.dst].sending
  {
    var before := Exec(g, AfterRounds(g, g, s, counting), more);
    TablesStay(g, s, counting, more);
    CountersStay(g, s, counting, more);
    CountedIsQuiet(g, before, step);
    SettledDelivery(g, before, step);
  }

  lemma TablesStay(g: Graph, s: State, counting: seq<seq<Step>>, more: seq<Step>)
    requires ValidGraph(g) && Settled(g, s) && CompleteRounds(g, g, s, counting)
    requires Legal(g, AfterRounds(g, g, s, counting), more) && AllClean(more)
    ensures Settled(g, Exec(g, AfterRounds(g, g, s, counting), more))
    ensures SameTables(s, Exec(g, AfterRounds(g, g, s, counting), more))
  {
    RoundsKeepTables(g, s, counting);
    RunKeepsSettledTables(g, AfterRounds(g, g, s, counting), more);
  }

  lemma CountersStay(g: Graph, s: State, counting: seq<seq<Step>>, more: seq<Step>)
    requires ValidGraph(g) && Settled(g, s) && CompleteRounds(g, g, s, counting) && |counting| >= FAILED_LIMIT
    requires Legal(g, AfterRounds(g, g, s, counting), more) && AllClean(more)
    ensures CountedTo(Exec(g, AfterRounds(g, g, s, counting), more), FAILED_LIMIT)
  {
    var quiet := AfterRounds(g, g, s, counting);
    RoundsKeepTables(g, s, counting);
    RoundsCount(g, s, counting, 0, |counting|);
    RunKeepsSettledTables(g, quiet, more);
    StaysCounted(quiet, Exec(g, quiet, more), |counting|, FAILED_LIMIT);
  }
}
