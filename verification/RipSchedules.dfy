/** When rounds can be had: exactly when every link is up at one of its ends, some schedule of
    sends and deliveries is a round, and after one round there is always another. */
module RipSchedules {
  import opened RoutingTables
  import opened RipNetwork
  import opened RipCleanRuns
  import opened RipRounds

  function Back(l: Link): Link {
    Link(l.dst, l.src)
  }

  predicate Up(s: State, l: Link) {
    RowAt(s, l.src, l.dst).taken && RowAt(s, l.src, l.dst).dist == DIRECT
  }

  ghost predicate HalfUp(live: Graph, s: State) {
    forall l <- live :: Up(s, l) || Up(s, Back(l))
  }

  /** A part of the network that links both ways. */
  ghost predicate Part(g: Graph, live: Graph) {
    live <= g && forall l <- live :: Back(l) in live
  }

  lemma StepKeepsUp(g: Graph, s: State, step: Step, l: Link)
    requires ValidGraph(g) && WellFormed(g, s) && Enabled(g, s, step) && Clean(step) && Up(s, l)
    ensures Up(Apply(g, s, step), l)
  {
    assert RowOk(g, s, l.src, l.dst);
    if step.Send? {
      CleanSendEffect(g, s, step);
    } else {
      DeliverEffect(g, s, step);
      assert PacketOk(s, step.link, Queue(s, step.link)[0]);
    }
  }

  /** These steps complete the round that m is part of, and leave all links up. */
  ghost predicate Completes(g: Graph, live: Graph, s: State, m: Monitor, steps: seq<Step>) {
    && Legal(g, s, steps) && AllClean(steps) && (forall step <- steps :: step.link in live)
    && WellFormed(g, Exec(g, s, steps)) && (forall l <- live :: Up(Exec(g, s, steps), l))
    && forall l <- live :: Status(Watched(g, s, m, steps), l) == Done
  }

  lemma StepFirst(g: Graph, live: Graph, s: State, m: Monitor, step: Step, rest: seq<Step>)
    requires Enabled(g, s, step) && Clean(step) && step.link in live
    requires Completes(g, live, Apply(g, s, step), Watch(g, s, m, step), rest)
    ensures Completes(g, live, s, m, [step] + rest)
  {
    assert ([step] + rest)[0] == step && ([step] + rest)[1..] == rest;
  }

  /** In the middle of a round: the links in todo still have to send, link l has k of its
      packets left to deliver, and the others are done.  A link is up, or will be by the
      time it has to send: what its other end sends makes it so. */
  ghost predicate Underway(live: Graph, s: State, m: Monitor, todo: Graph, l: Link, k: nat) {
    && todo <= live
    && (k > 0 ==> l in live && l !in todo && k <= |Queue(s, l)| && Status(m, l).Pending? && Status(m, l).left == k)
    && (forall h <- live | k == 0 || h != l :: Status(m, h) == if h in todo then Waiting else Done)
    && forall h <- live :: Up(s, h) || (Back(h) in todo && Up(s, Back(h))) || (k > 0 && h == Back(l))
  }

  lemma NothingLeft(g: Graph, live: Graph, s: State, m: Monitor, l: Link)
    requires WellFormed(g, s) && Underway(live, s, m, {}, l, 0)
    ensures Completes(g, live, s, m, [])
  {
    assert Exec(g, s, []) == s && Watched(g, s, m, []) == m;
  }

  lemma DeliverOne(g: Graph, live: Graph, s: State, m: Monitor, todo: Graph, l: Link, k: nat)
    requires ValidGraph(g) && Part(g, live) && WellFormed(g, s) && Underway(live, s, m, todo, l, k) && k > 0
    ensures var step := Deliver(l, 0, false);
            && Enabled(g, s, step) && Clean(step)
            && Underway(live, Apply(g, s, step), Watch(g, s, m, step), todo, l, k - 1)
  {
    var step := Deliver(l, 0, false);
    assert PacketOk(s, l, Queue(s, l)[0]);
    DeliverEffect(g, s, step);
    forall h: Link | Up(s, h)
      ensures Up(Apply(g, s, step), h)
    {
      StepKeepsUp(g, s, step, h);
    }
  }

  /** Every row gets through. */
  const EVERYONE: set<nat> := {0, 1, 2, 3, 4, 5, 6, 7, 8, 9, 10, 11, 12, 13, 14, 15, 16, 17, 18, 19}

  lemma SendOne(g: Graph, live: Graph, s: State, m: Monitor, todo: Graph, last: Link, l: Link)
    requires ValidGraph(g) && Part(g, live) && WellFormed(g, s) && Underway(live, s, m, todo, last, 0)
    requires l in todo && Up(s, l)
    ensures var (step, s') := (Send(l, EVERYONE), Apply(g, s, Send(l, EVERYONE)));
            && Enabled(g, s, step) && Clean(step)
            && Underway(live, s', Watch(g, s, m, step), todo - {l}, l, |Queue(s', l)|)
  {
    CleanSendEffect(g, s, Send(l, EVERYONE));
  }

  lemma {:induction false} RestOfRound(g: Graph, live: Graph, s: State, m: Monitor, todo: Graph, l: Link, k: nat)
    returns (steps: seq<Step>)
    requires ValidGraph(g) && Part(g, live) && WellFormed(g, s) && Underway(live, s, m, todo, l, k)
    ensures Completes(g, live, s, m, steps)
    decreases todo, k
  {
    if k > 0 {
      var step := Deliver(l, 0, false);
      DeliverOne(g, live, s, m, todo, l, k);
      StepKeepsWellFormed(g, s, step);
      var rest := RestOfRound(g, live, Apply(g, s, step), Watch(g, s, m, step), todo, l, k - 1);
      StepFirst(g, live, s, m, step, rest);
      steps := [step] + rest;
    } else if todo != {} {
      var some :| some in todo;
      var next := if Up(s, some) then some else Back(some);
      var step := Send(next, EVERYONE);
      SendOne(g, live, s, m, todo, l, next);
      StepKeepsWellFormed(g, s, step);
      var s' := Apply(g, s, step);
      var rest := RestOfRound(g, live, s', Watch(g, s, m, step), todo - {next}, next, |Queue(s', next)|);
      StepFirst(g, live, s, m, step, rest);
      steps := [step] + rest;
    } else {
      NothingLeft(g, live, s, m, l);
      steps := [];
    }
  }

  /** As many rounds as one likes, among any part of the network whose links are up at one
      end: all of it, also after failed probes, or the routers left when one has died. */
  lemma {:induction false} RoundsExist(g: Graph, live: Graph, s: State, count: nat) returns (rounds: seq<seq<Step>>)
    requires ValidGraph(g) && Part(g, live) && WellFormed(g, s) && HalfUp(live, s)
    ensures |rounds| == count && CompleteRounds(g, live, s, rounds)
    decreases count
  {
    if count == 0 {
      rounds := [];
    } else {
      var first := RestOfRound(g, live, s, map[], live, Link(0, 0), 0);
      var rest := RoundsExist(g, live, Exec(g, s, first), count - 1);
      rounds := [first] + rest;
      assert rounds[1..] == rest;
    }
  }

  // ----- otherwise there are none -----------------------------------------------

  /** Neither end of l ever hears of the other. */
  ghost predicate Down(s: State, l: Link) {
    && !Up(s, l) && !Up(s, Back(l))
    && Queue(s, l) == [] && Queue(s, Back(l)) == []
  }

  lemma StepKeepsDown(g: Graph, s: State, m: Monitor, step: Step, l: Link)
    requires ValidGraph(g) && WellFormed(g, s) && Enabled(g, s, step) && Clean(step) && Down(s, l)
    ensures Down(Apply(g, s, step), l) && Status(Watch(g, s, m, step), l) == Status(m, l)
  {
    if step.Send? {
      SendEffect(g, s, step);
    } else {
      DeliverEffect(g, s, step);
      assert PacketOk(s, step.link, Queue(s, step.link)[0]);
    }
  }

  lemma {:induction false} RunKeepsDown(g: Graph, s: State, m: Monitor, steps: seq<Step>, l: Link)
    requires ValidGraph(g) && WellFormed(g, s) && Legal(g, s, steps) && AllClean(steps) && Down(s, l)
    ensures Status(Watched(g, s, m, steps), l) == Status(m, l)
    decreases |steps|
  {
    if steps != [] {
      StepKeepsDown(g, s, m, steps[0], l);
      StepKeepsWellFormed(g, s, steps[0]);
      RunKeepsDown(g, Apply(g, s, steps[0]), Watch(g, s, m, steps[0]), steps[1..], l);
    }
  }

  /** From the start a round can be had if and only if no link failed the probe both ways. */
  lemma RoundExistsIff(g: Graph, s: State)
    requires ValidGraph(g) && Initial(g, s)
    ensures (exists steps :: CompleteRound(g, g, s, steps)) <==> HalfUp(g, s)
  {
    InitialIsWellFormed(g, s);
    if HalfUp(g, s) {
      var steps := RestOfRound(g, g, s, map[], g, Link(0, 0), 0);
      assert CompleteRound(g, g, s, steps);
    }
    forall l, steps | l in g && !Up(s, l) && !Up(s, Back(l)) && CompleteRound(g, g, s, steps)
      ensures false
    {
      RunKeepsDown(g, s, map[], steps, l);
    }
  }
}
