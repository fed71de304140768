/** Packets that cross the network once, unchanged, to a host on the network they name, while
    routing and other mobiles' traffic go on.  What routers do with them is a parameter. */
module Trips {
  import opened Wire
  import opened RipNetwork
  import opened RipCleanRuns
  import opened Agents
  import opened Journeys

  /** Every router but n passes p on towards n, and n hands it to a port that answers. */
  ghost predicate HandsOver(h: Handler, n: Node, p: Word, port: int) {
    && (forall v: AgentView, r: Node, now: int, up: bool | r != n ::
          h(v, r, p, now, up) == (v, RouteTo(v.rip.table, n, p)))
    && (forall v: AgentView, now: int :: h(v, n, p, now, true) == (v, ToMobile(port, p)))
  }

  ghost predicate HostAnswers(w: World, n: Node, move: Move) {
    move.Process? && w.fate.Travelling? && w.fate.at == n ==> move.mobileUp
  }

  ghost predicate OnTrip(g: Graph, w: World, n: Node, p: Word, port: int) {
    && CleanInvariant(g, w.net) && IsNode(n)
    && match w.fate
       case Travelling(at, q) => q == p && Routable(w.net, at, n)
       case Delivered(reached, q) => reached == port && q == p
       case Lost => false
  }

  function TripLeft(w: World, n: Node): int {
    if w.fate.Travelling? then HopsLeft(w.net, w.fate.at, n) + 1 else 0
  }

  lemma TripLeftBound(g: Graph, w: World, n: Node, p: Word, port: int)
    requires OnTrip(g, w, n, p, port)
    ensures if w.fate.Travelling? then 1 <= TripLeft(w, n) <= 13
            else TripLeft(w, n) == 0 && w.fate == Delivered(port, p)
  {
    if w.fate.Travelling? {
      HopsLeftBound(g, w.net, w.fate.at, n);
    }
  }

  lemma MoveKeepsTrip(g: Graph, h: Handler, w: World, n: Node, p: Word, port: int, move: Move)
    requires ValidGraph(g) && HandsOver(h, n, p, port) && OnTrip(g, w, n, p, port)
    requires CanMove(g, w, move) && HostAnswers(w, n, move)
    ensures var w' := Moved(g, h, w, move);
            OnTrip(g, w', n, p, port) && TripLeft(w', n) + (if move.Process? then 1 else 0) <= TripLeft(w, n)
  {
    match move
    case Exchange(step) =>
      StepKeepsClean(g, w.net, step);
      if w.fate.Travelling? {
        RoutableStays(g, w.net, step, w.fate.at, n);
      }
    case Traffic(_, _) =>
    case Process(_, _) =>
      assert Moved(g, h, w, move).net.routers == w.net.routers;
      TripLeftBound(g, w, n, p, port);
      if w.fate.at != n {
        ForwardsCloser(g, w.net, w.fate.at, n, p);
      }
  }

  ghost predicate CanGo(g: Graph, h: Handler, w: World, n: Node, moves: seq<Move>)
    decreases |moves|
  {
    moves == [] ||
    (CanMove(g, w, moves[0]) && HostAnswers(w, n, moves[0]) && CanGo(g, h, Moved(g, h, w, moves[0]), n, moves[1..]))
  }

  ghost function AfterTrip(g: Graph, h: Handler, w: World, n: Node, moves: seq<Move>): World
    requires CanGo(g, h, w, n, moves)
    decreases |moves|
  {
    if moves == [] then w else AfterTrip(g, h, Moved(g, h, w, moves[0]), n, moves[1..])
  }

  /** However handling, protocol and other traffic interleave, the packet is never dropped or
      changed, and it is at its port after as many routers as its distance allows. */
  lemma {:induction false} TripCompletes(g: Graph, h: Handler, w: World, n: Node, p: Word, port: int, moves: seq<Move>)
    requires ValidGraph(g) && HandsOver(h, n, p, port) && OnTrip(g, w, n, p, port) && CanGo(g, h, w, n, moves)
    ensures var w' := AfterTrip(g, h, w, n, moves);
            && OnTrip(g, w', n, p, port) && Processed(moves) + TripLeft(w', n) <= TripLeft(w, n)
            && 0 <= TripLeft(w', n)
            && (Processed(moves) >= TripLeft(w, n) ==> w'.fate == Delivered(port, p))
    decreases |moves|
  {
    TripLeftBound(g, w, n, p, port);
    if moves != [] {
      MoveKeepsTrip(g, h, w, n, p, port, moves[0]);
      TripCompletes(g, h, Moved(g, h, w, moves[0]), n, p, port, moves[1..]);
      TripLeftBound(g, AfterTrip(g, h, w, n, moves), n, p, port);
    }
  }
}
