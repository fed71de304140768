/** Packets that cross the network twice while routing keeps running underneath: first to
    a home router, which answers or readdresses them, then on to an agent's router.  What
    routers do with a packet is a parameter here. */
module Journeys {
  import opened Wire
  import opened RoutingTables
  import opened RipNetwork
  import opened RipCleanRuns
  import opened Agents

  datatype Host = Host(fa: ForeignAgent, ha: HomeRows)

  type Hosts = h: seq<Host> | |h| == IDS
    witness seq(IDS, _ => Host(EMPTY_AGENT, seq(SLOTS, _ => HomeRow(false, 0, 0, 0, 0, 0, 0))))

  datatype Fate = Travelling(at: Node, packet: Word) | Delivered(port: int, packet: Word) | Lost

  datatype World = World(net: State, hosts: Hosts, fate: Fate)

  /** The protocol takes a clean step, or the router holding the packet handles it at some
      time, with the port on its local network answering or not, or a router's agent
      tables change in any way, as other mobiles' traffic makes them. */
  datatype Move = Exchange(step: Step) | Process(now: int, mobileUp: bool) | Traffic(router: Node, after: Host)

  type Handler = (AgentView, Node, Word, int, bool) -> (AgentView, Output)

  function ViewAt(w: World, r: Node): AgentView {
    AgentView(w.hosts[r].fa, w.hosts[r].ha, w.net.routers[r])
  }

  function FateOf(out: Output): Fate {
    match out
    case ToRouter(r, p) => if IsNode(r) then Travelling(r, p) else Lost
    case ToMobile(port, p) => Delivered(port, p)
    case _ => Lost
  }

  ghost predicate CanMove(g: Graph, w: World, move: Move) {
    match move
    case Exchange(step) => Enabled(g, w.net, step) && Clean(step)
    case Process(_, _) => w.fate.Travelling?
    case Traffic(_, _) => true
  }

  ghost function Moved(g: Graph, h: Handler, w: World, move: Move): World
    requires CanMove(g, w, move)
  {
    match move
    case Exchange(step) => w.(net := Apply(g, w.net, step))
    case Process(now, mobileUp) =>
      var at := w.fate.at;
      var (v, out) := h(ViewAt(w, at), at, w.fate.packet, now, mobileUp);
      World(w.net.(routers := w.net.routers[at := v.rip]), w.hosts[at := Host(v.fa, v.ha)], FateOf(out))
    case Traffic(r, after) => w.(hosts := w.hosts[r := after])
  }

  /** What the home router does with the packet: records the mobile, or uses its record. */
  datatype Errand = Registering(r: Request) | Delivering(slot: nat, row: HomeRow)

  /** inner travels to home, which sends outer in its place; outer travels to agent and
      leaves there for port. */
  datatype Journey = Journey(home: Node, agent: Node, inner: Word, outer: Word, port: int, errand: Errand)

  predicate HomeKnows(e: Errand, ha: HomeRows) {
    match e
    case Registering(r) => 0 <= r.home < SLOTS
    case Delivering(slot, row) => slot < SLOTS && ha[slot] == row
  }

  function HomeAfter(e: Errand, ha: HomeRows, now: int): HomeRows
    requires HomeKnows(e, ha)
  {
    match e
    case Registering(r) => RegisterHome(ha, r, now)
    case Delivering(_, _) => ha
  }

  /** The handler carries the journey out, given that the mobile does not answer at home
      and does at the agent. */
  ghost predicate CarriesOut(h: Handler, j: Journey) {
    && j.inner != j.outer && j.home != j.agent
    && (forall v: AgentView, r: Node, now: int, up: bool | r != j.home ::
          h(v, r, j.inner, now, up) == (v, RouteTo(v.rip.table, j.home, j.inner)))
    && (forall v: AgentView, now: int | HomeKnows(j.errand, v.ha) ::
          h(v, j.home, j.inner, now, false) ==
          (v.(ha := HomeAfter(j.errand, v.ha, now)), RouteTo(v.rip.table, j.agent, j.outer)))
    && (forall v: AgentView, r: Node, now: int, up: bool | r != j.agent ::
          h(v, r, j.outer, now, up) == (v, RouteTo(v.rip.table, j.agent, j.outer)))
    && (forall v: AgentView, now: int ::
          var (v', out) := h(v, j.agent, j.outer, now, true);
          v'.rip == v.rip && v'.ha == v.ha && out == ToMobile(j.port, j.outer))
  }

  /** The mobile does not answer at home and does elsewhere; other traffic leaves alone the row
      that delivers to the mobile, or the one that registering it has written. */
  ghost predicate Undisturbed(w: World, j: Journey, move: Move) {
    match move
    case Exchange(_) => true
    case Process(_, mobileUp) => w.fate.Travelling? ==> (mobileUp <==> w.fate.at != j.home)
    case Traffic(r, after) => r == j.home ==> KeepsErrand(w, j, after.ha)
  }

  predicate KeepsErrand(w: World, j: Journey, ha: HomeRows) {
    match j.errand
    case Registering(r) =>
      (w.fate.Travelling? && w.fate.packet == j.inner) ||
      (0 <= r.home < SLOTS ==> ha[r.home] == w.hosts[j.home].ha[r.home])
    case Delivering(slot, _) => slot < SLOTS ==> ha[slot] == w.hosts[j.home].ha[slot]
  }

  // ----- progress ------------------------------------------------------------

  predicate Routable(net: State, at: Node, n: Node) {
    at == n || (RowAt(net, at, n).taken && RowAt(net, at, n).dist < RIP_MAX_HOP)
  }

  function HopsLeft(net: State, at: Node, n: Node): int {
    if at == n then 0 else RowAt(net, at, n).dist + 1
  }

  /** The most routers that still have to handle the packet. */
  function Left(w: World, j: Journey): int {
    match w.fate
    case Travelling(at, p) =>
      if p == j.inner then HopsLeft(w.net, at, j.home) + HopsLeft(w.net, j.home, j.agent) + 1
      else HopsLeft(w.net, at, j.agent) + 1
    case _ => 0
  }

  predicate IsBinding(row: HomeRow, r: Request) {
    row == HomeRow(true, r.home, r.careOf, r.source, r.agent, row.since, TRUE)
  }

  predicate OnRoute(net: State, fate: Fate, j: Journey) {
    match fate
    case Travelling(at, p) =>
      (p == j.inner && Routable(net, at, j.home) && Routable(net, j.home, j.agent)) ||
      (p == j.outer && Routable(net, at, j.agent))
    case Delivered(port, p) => port == j.port && p == j.outer
    case Lost => false
  }

  /** The packet is one of the journey's two and can get where it should go; the home
      router knows what it needs to know, and from the second leg on has recorded it. */
  ghost predicate OnCourse(g: Graph, w: World, j: Journey) {
    && CleanInvariant(g, w.net) && IsNode(j.home) && IsNode(j.agent) && j.inner != j.outer
    && HomeKnows(j.errand, w.hosts[j.home].ha)
    && OnRoute(w.net, w.fate, j)
    && (j.errand.Registering? && !(w.fate.Travelling? && w.fate.packet == j.inner) ==>
          IsBinding(w.hosts[j.home].ha[j.errand.r.home], j.errand.r))
  }

  /** Forwarding towards n moves strictly closer. */
  lemma ForwardsCloser(g: Graph, net: State, at: Node, n: Node, p: Word)
    requires ValidGraph(g) && CleanInvariant(g, net) && Routable(net, at, n) && at != n
    ensures var out := RouteTo(net.routers[at].table, n, p);
            && out.ToRouter? && out.packet == p && IsNode(out.router)
            && Routable(net, out.router, n) && 0 <= HopsLeft(net, out.router, n) <= HopsLeft(net, at, n) - 1
  {
    TwoLookupsAgree(g, net, at, n);
    NextHopIsCloser(g, net, at, n);
    assert RowOk(g, net, at, n) && RowOk(g, net, RowAt(net, at, n).route, n);
  }

  lemma RoutableStays(g: Graph, net: State, step: Step, at: Node, n: Node)
    requires ValidGraph(g) && CleanInvariant(g, net) && Enabled(g, net, step) && Clean(step) && Routable(net, at, n)
    ensures Routable(Apply(g, net, step), at, n)
    ensures HopsLeft(Apply(g, net, step), at, n) <= HopsLeft(net, at, n)
  {
    StepIsMonotone(g, net, step, at, n);
  }

  lemma HopsLeftBound(g: Graph, net: State, at: Node, n: Node)
    requires WellFormed(g, net) && Routable(net, at, n)
    ensures 0 <= HopsLeft(net, at, n) <= RIP_MAX_HOP
  {
    assert RowOk(g, net, at, n);
  }

  /** A router handling the packet on its way to the home router. */
  lemma ProcessInner(g: Graph, h: Handler, w: World, j: Journey, move: Move)
    requires ValidGraph(g) && CarriesOut(h, j) && OnCourse(g, w, j) && w.fate.Travelling?
    requires move.Process? && Undisturbed(w, j, move) && w.fate.packet == j.inner
    ensures var w' := Moved(g, h, w, move);
            w'.net == w.net && OnCourse(g, w', j) && 0 <= Left(w', j) <= Left(w, j) - 1
  {
    var (at, w') := (w.fate.at, Moved(g, h, w, move));
    HopsLeftBound(g, w.net, j.home, j.agent);
    assert w'.net.routers == w.net.routers;
    if at == j.home {
      assert HomeKnows(j.errand, ViewAt(w, at).ha);
      ForwardsCloser(g, w.net, at, j.agent, j.outer);
    } else {
      ForwardsCloser(g, w.net, at, j.home, j.inner);
    }
  }

  /** ... and on its way from there. */
  lemma ProcessOuter(g: Graph, h: Handler, w: World, j: Journey, move: Move)
    requires ValidGraph(g) && CarriesOut(h, j) && OnCourse(g, w, j) && w.fate.Travelling?
    requires move.Process? && Undisturbed(w, j, move) && w.fate.packet != j.inner
    ensures var w' := Moved(g, h, w, move);
            w'.net == w.net && OnCourse(g, w', j) && 0 <= Left(w', j) <= Left(w, j) - 1
  {
    var (at, w') := (w.fate.at, Moved(g, h, w, move));
    assert w'.net.routers == w.net.routers;
    if at != j.agent {
      ForwardsCloser(g, w.net, at, j.agent, j.outer);
    }
  }

  lemma ExchangeKeepsRoute(g: Graph, w: World, j: Journey, step: Step)
    requires ValidGraph(g) && CleanInvariant(g, w.net) && Enabled(g, w.net, step) && Clean(step)
    requires OnRoute(w.net, w.fate, j) && j.inner != j.outer
    ensures OnRoute(Apply(g, w.net, step), w.fate, j)
    ensures Left(w.(net := Apply(g, w.net, step)), j) <= Left(w, j)
  {
    match w.fate
    case Travelling(at, p) =>
      if p == j.inner {
        RoutableStays(g, w.net, step, at, j.home);
        RoutableStays(g, w.net, step, j.home, j.agent);
      } else {
        RoutableStays(g, w.net, step, at, j.agent);
      }
    case _ =>
  }

  lemma ExchangeKeepsCourse(g: Graph, w: World, j: Journey, step: Step)
    requires ValidGraph(g) && OnCourse(g, w, j) && Enabled(g, w.net, step) && Clean(step)
    ensures var w' := w.(net := Apply(g, w.net, step)); OnCourse(g, w', j) && Left(w', j) <= Left(w, j)
  {
    StepKeepsClean(g, w.net, step);
    ExchangeKeepsRoute(g, w, j, step);
  }

  lemma LeftCounts(g: Graph, w: World, j: Journey)
    requires OnCourse(g, w, j)
    ensures if w.fate.Travelling? then Left(w, j) >= 1
            else Left(w, j) == 0 && w.fate == Delivered(j.port, j.outer)
  {
    if w.fate.Travelling? {
      if w.fate.packet == j.inner {
        HopsLeftBound(g, w.net, w.fate.at, j.home);
        HopsLeftBound(g, w.net, j.home, j.agent);
      } else {
        HopsLeftBound(g, w.net, w.fate.at, j.agent);
      }
    }
  }

  // ----- whole journeys ------------------------------------------------------

  ghost predicate CanRun(g: Graph, h: Handler, w: World, j: Journey, moves: seq<Move>)
    decreases |moves|
  {
    moves == [] ||
    (CanMove(g, w, moves[0]) && Undisturbed(w, j, moves[0]) && CanRun(g, h, Moved(g, h, w, moves[0]), j, moves[1..]))
  }

  ghost function RunWorld(g: Graph, h: Handler, w: World, j: Journey, moves: seq<Move>): World
    requires CanRun(g, h, w, j, moves)
    decreases |moves|
  {
    if moves == [] then w else RunWorld(g, h, Moved(g, h, w, moves[0]), j, moves[1..])
  }

  function Processed(moves: seq<Move>): nat {
    if moves == [] then 0 else (if moves[0].Process? then 1 else 0) + Processed(moves[1..])
  }

  lemma MoveKeepsCourse(g: Graph, h: Handler, w: World, j: Journey, move: Move)
    requires ValidGraph(g) && CarriesOut(h, j) && OnCourse(g, w, j) && CanMove(g, w, move) && Undisturbed(w, j, move)
    ensures var w' := Moved(g, h, w, move);
            OnCourse(g, w', j) && Left(w', j) + (if move.Process? then 1 else 0) <= Left(w, j)
  {
    match move
    case Exchange(step) => ExchangeKeepsCourse(g, w, j, step);
    case Traffic(_, _) =>
    case Process(_, _) =>
      if w.fate.packet == j.inner {
        ProcessInner(g, h, w, j, move);
      } else {
        ProcessOuter(g, h, w, j, move);
      }
  }

  /** However protocol steps and packet handling interleave: every handling uses up one of
      the Left(w, j) that were available, so the packet is at its port within that many,
      and until then it is at some router, never dropped. */
  lemma {:induction false} JourneyCompletes(g: Graph, h: Handler, w: World, j: Journey, moves: seq<Move>)
    requires ValidGraph(g) && CarriesOut(h, j) && OnCourse(g, w, j) && CanRun(g, h, w, j, moves)
    ensures var w' := RunWorld(g, h, w, j, moves);
            && OnCourse(g, w', j)
            && Processed(moves) + Left(w', j) <= Left(w, j)
            && (Processed(moves) >= Left(w, j) ==> w'.fate == Delivered(j.port, j.outer))
    decreases |moves|
  {
    if moves == [] {
      LeftCounts(g, w, j);
    } else {
      MoveKeepsCourse(g, h, w, j, moves[0]);
      JourneyCompletes(g, h, Moved(g, h, w, moves[0]), j, moves[1..]);
      LeftCounts(g, RunWorld(g, h, w, j, moves), j);
    }
  }

  /** The same from a traveller's point of view: bound routers suffice, nothing is dropped,
      and whatever the home router was to record is there once the second leg begins. */
  lemma JourneyEnds(g: Graph, h: Handler, w: World, j: Journey, bound: int, moves: seq<Move>)
    requires ValidGraph(g) && CarriesOut(h, j) && OnCourse(g, w, j) && Left(w, j) <= bound
    requires CanRun(g, h, w, j, moves)
    ensures var w' := RunWorld(g, h, w, j, moves);
            && Processed(moves) <= bound && w'.fate != Lost
            && (Processed(moves) == bound ==> w'.fate == Delivered(j.port, j.outer))
            && HomeKnows(j.errand, w'.hosts[j.home].ha)
            && (j.errand.Registering? && w'.fate != Lost && (w'.fate.Travelling? ==> w'.fate.packet == j.outer) ==>
                  IsBinding(w'.hosts[j.home].ha[j.errand.r.home], j.errand.r))
  {
    JourneyCompletes(g, h, w, j, moves);
    LeftCounts(g, RunWorld(g, h, w, j, moves), j);
  }

  /** And it can be had: routers need only handle the packet as it comes. */
  lemma {:induction false} JourneyCanFinish(g: Graph, h: Handler, w: World, j: Journey, now: int)
    returns (moves: seq<Move>)
    requires ValidGraph(g) && CarriesOut(h, j) && OnCourse(g, w, j)
    ensures CanRun(g, h, w, j, moves) && RunWorld(g, h, w, j, moves).fate == Delivered(j.port, j.outer)
    decreases if w.fate.Travelling? then 1 + (if Left(w, j) > 0 then Left(w, j) else 0) else 0
  {
    LeftCounts(g, w, j);
    if w.fate.Travelling? {
      var move := Process(now, w.fate.at != j.home);
      MoveKeepsCourse(g, h, w, j, move);
      var w' := Moved(g, h, w, move);
      LeftCounts(g, w', j);
      var rest := JourneyCanFinish(g, h, w', j, now);
      moves := [move] + rest;
      assert moves[1..] == rest;
    } else {
      moves := [];
    }
  }
}
