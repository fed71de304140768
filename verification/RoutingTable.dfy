/** The routing table of table.c and the distance-vector step of RIPAlgorithm.c:
    first as functions on table values, then as the array the router updates. */
module RoutingTables {
  import opened Wire

  const MAX_ROUTERS := 20
  const RIP_MAX_HOP := 12
  const DIRECT := 0
  const ERR := -1
  const ROUTER_PORTS := 7000

  datatype Row = Row(taken: bool, dest: int, route: int, dist: int, socket: int)

  const NO_ROW := Row(false, ERR, ERR, ERR, ERR)

  type Table = t: seq<Row> | |t| == MAX_ROUTERS witness seq(MAX_ROUTERS, _ => NO_ROW)

  /** A row as it stands after destination, distance and next hop have been set. */
  function Learned(net: nat, dist: int, route: int): Row {
    Row(true, net, route, dist, ROUTER_PORTS + route)
  }

  /** One hop further, but never past infinity. */
  function Saturate(dist: int): int {
    if dist >= RIP_MAX_HOP then RIP_MAX_HOP else dist + 1
  }

  /** Hearing from a router makes it a direct neighbour. */
  function HearNeighbour(t: Table, a: Advert): Table
    requires FitsRip(a)
  {
    t[a.src := Learned(a.src, DIRECT, a.src)]
  }

  function AddRoute(t: Table, a: Advert): Table
    requires FitsRip(a)
  {
    t[a.net := Learned(a.net, Saturate(a.dist), a.src)]
  }

  function UpdateTable(t: Table, a: Advert, me: nat): (Table, bool)
    requires FitsRip(a)
  {
    var heard := HearNeighbour(t, a);
    var row := heard[a.net];
    if !row.taken && a.net != me then (AddRoute(heard, a), true)
    else if row.route == a.src && a.dist + 1 != row.dist then (AddRoute(heard, a), true)
    else if a.dist + 1 < row.dist then (AddRoute(heard, a), true)
    else (heard, false)
  }

  /** When an advert changes the row it is about. */
  predicate Changes(row: Row, a: Advert, me: nat) {
    if !row.taken then a.net != me
    else (row.route == a.src && a.dist + 1 != row.dist) || a.dist + 1 < row.dist
  }

  /** What one advert does to every row, for a sender that does not advertise itself. */
  lemma UpdateByRow(t: Table, a: Advert, me: nat)
    requires FitsRip(a) && a.net != a.src
    requires t[a.net].taken || t[a.net] == NO_ROW
    ensures var (after, updated) := UpdateTable(t, a, me);
            && updated == Changes(t[a.net], a, me)
            && after[a.src] == Learned(a.src, DIRECT, a.src)
            && after[a.net] == (if updated then Learned(a.net, Saturate(a.dist), a.src) else t[a.net])
            && forall n :: 0 <= n < MAX_ROUTERS && n != a.src && n != a.net ==> after[n] == t[n]
  {
  }

  /** The four rules together bound the new distance by the advertised one, whichever fires. */
  lemma AdvertBoundsDistance(t: Table, a: Advert, me: nat)
    requires FitsRip(a) && a.dist <= RIP_MAX_HOP && a.net != a.src && a.net != me
    requires t[a.net] == NO_ROW || (t[a.net].taken && 0 <= t[a.net].dist <= RIP_MAX_HOP)
    ensures var row := UpdateTable(t, a, me).0[a.net]; row.taken && row.dist <= Saturate(a.dist)
  {
  }

  /** At a fixpoint of the rules the "updated" flag still comes up in one case only: a
      row at infinity refreshed at infinity by its own next hop, since the comparison
      in the next-hop rule is not saturated. */
  lemma FixpointReportsChangeIff(t: Table, a: Advert, me: nat)
    requires FitsRip(a) && a.dist <= RIP_MAX_HOP && a.net != a.src
    requires t[a.src] == Learned(a.src, DIRECT, a.src)
    requires t[a.net].taken || t[a.net] == NO_ROW
    requires UpdateTable(t, a, me).0 == t
    ensures UpdateTable(t, a, me).1 <==>
            t[a.net].taken && t[a.net].route == a.src && t[a.net].dist == RIP_MAX_HOP && a.dist == RIP_MAX_HOP
  {
    UpdateByRow(t, a, me);
    if UpdateTable(t, a, me).1 {
      assert t[a.net] == Learned(a.net, Saturate(a.dist), a.src);
    }
  }

  /** The table object.  The host-name and printable columns are not modelled. */
  class RoutingTable {
    const rows: array<Row>

    ghost predicate Valid() { rows.Length == MAX_ROUTERS }

    ghost function View(): Table
      requires Valid()
      reads rows
    {
      rows[..]
    }

    constructor ()
      ensures Valid() && fresh(rows)
      ensures View() == seq(MAX_ROUTERS, _ => NO_ROW)
    {
      rows := new Row[MAX_ROUTERS];
      new;
      for ix := 0 to rows.Length
        invariant forall j :: 0 <= j < ix ==> rows[j] == NO_ROW
      {
        rows[ix] := NO_ROW;
      }
    }

    method SetDestination(network: nat)
      requires Valid() && network < MAX_ROUTERS
      modifies rows
      ensures View() == old(View())[network := old(View())[network].(dest := network)]
    {
      rows[network] := rows[network].(dest := network);
    }

    method SetDistance(network: nat, distance: int)
      requires Valid() && network < MAX_ROUTERS
      modifies rows
      ensures View() == old(View())[network := old(View())[network].(taken := true, dist := distance)]
    {
      rows[network] := rows[network].(taken := true, dist := distance);
    }

    method SetNextHopRoute(network: nat, nextRouter: int)
      requires Valid() && network < MAX_ROUTERS
      modifies rows
      ensures View() ==
              old(View())[network := old(View())[network].(taken := true, route := nextRouter,
                                                            socket := ROUTER_PORTS + nextRouter)]
    {
      rows[network] := rows[network].(taken := true, route := nextRouter, socket := ROUTER_PORTS + nextRouter);
    }

    method UpdateNeighbourStatus(packet: Word)
      requires Valid()
      modifies rows
      ensures View() == HearNeighbour(old(View()), DecodeAdvert(packet))
    {
      var router := DecodeAdvert(packet).src;
      SetDestination(router);
      SetDistance(router, 0);
      SetNextHopRoute(router, router);
    }

    method AddIntoRoutingTable(packet: Word)
      requires Valid()
      modifies rows
      ensures View() == AddRoute(old(View()), DecodeAdvert(packet))
    {
      var a := DecodeAdvert(packet);
      SetDestination(a.net);
      if a.dist >= RIP_MAX_HOP {
        SetDistance(a.net, RIP_MAX_HOP);
      } else {
        SetDistance(a.net, a.dist + 1);
      }
      SetNextHopRoute(a.net, a.src);
    }

    predicate DoesExist(packet: Word)
      requires Valid()
      reads rows
    {
      rows[DecodeAdvert(packet).net].taken
    }

    predicate IsNextHopSame(packet: Word)
      requires Valid()
      reads rows
    {
      var a := DecodeAdvert(packet);
      a.src == rows[a.net].route && a.dist + 1 != rows[a.net].dist
    }

    predicate IsNewDistanceShorter(packet: Word)
      requires Valid()
      reads rows
    {
      var a := DecodeAdvert(packet);
      a.dist + 1 < rows[a.net].dist
    }

    method Update(packet: Word, me: nat) returns (updated: bool)
      requires Valid()
      modifies rows
      ensures (View(), updated) == UpdateTable(old(View()), DecodeAdvert(packet), me)
    {
      UpdateNeighbourStatus(packet);
      if !DoesExist(packet) && DecodeAdvert(packet).net != me {
        AddIntoRoutingTable(packet);
        return true;
      }
      if IsNextHopSame(packet) {
        AddIntoRoutingTable(packet);
        return true;
      }
      if IsNewDistanceShorter(packet) {
        AddIntoRoutingTable(packet);
        return true;
      }
      return false;
    }
  }
}
