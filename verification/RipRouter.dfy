/** The routing side of router.c: handling a RIP packet, the failed-update counters,
    compiling the table into packets and sending it to the direct neighbours. */
module RipRouters {
  import opened Wire
  import opened DecimalText
  import opened RoutingTables

  const FAILED_LIMIT := 9

  /** The state of one router that the routing protocol reads or writes. */
  datatype RouterView = RouterView(table: Table, failed: Counters, sending: bool)

  type Counters = c: seq<nat> | |c| == MAX_ROUTERS witness seq(MAX_ROUTERS, _ => 0)

  /** The rows that hold the table back from settling. */
  predicate Unsettled(t: Table, failed: Counters, ix: nat)
    requires ix < MAX_ROUTERS
  {
    t[ix].taken && t[ix].dist != DIRECT && failed[ix] < FAILED_LIMIT
  }

  predicate KeepSending(t: Table, failed: Counters) {
    exists ix :: 0 <= ix < MAX_ROUTERS && Unsettled(t, failed, ix)
  }

  function OnAdvert(r: RouterView, a: Advert, me: nat): RouterView
    requires FitsRip(a)
  {
    var (table, updated) := UpdateTable(r.table, a, me);
    var failed := r.failed[a.net := if updated then 0 else r.failed[a.net] + 1];
    RouterView(table, failed, KeepSending(table, failed))
  }

  /** The adverts of the first k rows that reach the receiver. */
  function AdvertsUpTo(me: nat, t: Table, reached: set<nat>, k: nat): seq<Advert>
    requires k <= MAX_ROUTERS
  {
    if k == 0 then []
    else AdvertsUpTo(me, t, reached, k - 1) +
         (if t[k - 1].taken && k - 1 in reached then [Advert(me, t[k - 1].dest, t[k - 1].dist)] else [])
  }

  function Adverts(me: nat, t: Table, reached: set<nat>): seq<Advert> {
    AdvertsUpTo(me, t, reached, MAX_ROUTERS)
  }

  /** Sending to one neighbour: a send of which nothing arrives puts it at infinity. */
  function AfterSend(me: nat, t: Table, neighbour: nat, reached: set<nat>): Table
    requires neighbour < MAX_ROUTERS
  {
    if Adverts(me, t, reached) == [] then t[neighbour := t[neighbour].(taken := true, dist := RIP_MAX_HOP)] else t
  }

  /** Every advert sent stands for the taken row of its network, and every taken row that
      gets through is among them. */
  lemma {:induction false} AdvertsAreTheTakenRows(me: nat, t: Table, reached: set<nat>, k: nat)
    requires k <= MAX_ROUTERS
    ensures forall a :: a in AdvertsUpTo(me, t, reached, k) <==>
              exists n :: 0 <= n < k && t[n].taken && n in reached && a == Advert(me, t[n].dest, t[n].dist)
  {
    if k > 0 {
      AdvertsAreTheTakenRows(me, t, reached, k - 1);
      if t[k - 1].taken && k - 1 in reached {
        assert Advert(me, t[k - 1].dest, t[k - 1].dist) in AdvertsUpTo(me, t, reached, k);
      }
      forall a | exists n :: 0 <= n < k && t[n].taken && n in reached && a == Advert(me, t[n].dest, t[n].dist)
        ensures a in AdvertsUpTo(me, t, reached, k)
      {
        var n :| 0 <= n < k && t[n].taken && n in reached && a == Advert(me, t[n].dest, t[n].dist);
        if n < k - 1 {
          assert a in AdvertsUpTo(me, t, reached, k - 1);
        }
      }
    }
  }

  // ----- the same adverts as text on the wire ------------------------------

  datatype Dispatch = Dispatch(port: int, text: string)

  function DispatchesUpTo(me: nat, t: Table, neighbour: nat, reached: set<nat>, k: nat): seq<Dispatch>
    requires k <= MAX_ROUTERS && neighbour < MAX_ROUTERS
  {
    if k == 0 then []
    else DispatchesUpTo(me, t, neighbour, reached, k - 1) +
         (if t[k - 1].taken && k - 1 in reached
          then [Dispatch(t[neighbour].socket, Pack(EncodeAdvert(Advert(me, t[k - 1].dest, t[k - 1].dist))))]
          else [])
  }

  function FromText(text: string): Advert {
    DecodeAdvert(Unpack(Received(text)))
  }

  /** The text read back is this advert, it is recognised as RIP, and it fits the buffer. */
  predicate Carried(text: string, a: Advert) {
    FromText(text) == a && |text| < BUFFER_SIZE && PacketType(Unpack(Received(text))) == RIP_PKT_TYPE
  }

  ghost predicate Carries(sent: seq<Dispatch>, adverts: seq<Advert>, port: int) {
    && |sent| == |adverts|
    && forall i :: 0 <= i < |sent| ==> sent[i].port == port && Carried(sent[i].text, adverts[i])
  }

  /** Each taken row names itself and fits the packet's four-bit fields. */
  predicate Sendable(t: Table) {
    forall n :: 0 <= n < MAX_ROUTERS && t[n].taken ==> n < 16 && t[n].dest == n && 0 <= t[n].dist <= RIP_MAX_HOP
  }

  /** Rows turned into packets, printed, received, parsed and unpacked are the adverts
      of the rows, in order, and all of them go to the neighbour's socket. */
  lemma OneAdvertOnTheWire(a: Advert, text: string)
    requires FitsRip(a) && text == Pack(EncodeAdvert(a))
    ensures Carried(text, a)
  {
    TextRoundTrip(EncodeAdvert(a));
    AdvertRoundTrip(a);
  }

  lemma AdvertIsNotEmpty(a: Advert)
    requires FitsRip(a)
    ensures EncodeAdvert(a) != 0
  {
    AdvertRoundTrip(a);
  }

  lemma {:induction false} WireCarriesTheTable(me: nat, t: Table, neighbour: nat, reached: set<nat>, k: nat)
    requires me < 16 && Sendable(t) && neighbour < MAX_ROUTERS && k <= MAX_ROUTERS
    ensures Carries(DispatchesUpTo(me, t, neighbour, reached, k), AdvertsUpTo(me, t, reached, k), t[neighbour].socket)
  {
    if k > 0 {
      WireCarriesTheTable(me, t, neighbour, reached, k - 1);
      if t[k - 1].taken && k - 1 in reached {
        var a := Advert(me, t[k - 1].dest, t[k - 1].dist);
        CarriesOneMore(DispatchesUpTo(me, t, neighbour, reached, k - 1), AdvertsUpTo(me, t, reached, k - 1),
                       t[neighbour].socket, a);
      }
    }
  }

  lemma CarriesOneMore(sent: seq<Dispatch>, adverts: seq<Advert>, port: int, a: Advert)
    requires Carries(sent, adverts, port) && FitsRip(a)
    ensures Carries(sent + [Dispatch(port, Pack(EncodeAdvert(a)))], adverts + [a], port)
  {
    OneAdvertOnTheWire(a, Pack(EncodeAdvert(a)));
  }

  /** One pass of the sending loop over neighbours 0 .. k-1. */
  function SendSweep(me: nat, t: Table, reached: seq<set<nat>>, k: nat): (Table, seq<Dispatch>)
    requires k <= MAX_ROUTERS == |reached|
  {
    if k == 0 then (t, [])
    else
      var (before, sent) := SendSweep(me, t, reached, k - 1);
      if before[k - 1].taken && before[k - 1].dist == DIRECT
      then (AfterSend(me, before, k - 1, reached[k - 1]),
            sent + DispatchesUpTo(me, before, k - 1, reached[k - 1], MAX_ROUTERS))
      else (before, sent)
  }

  lemma {:induction false} NothingSentIff(me: nat, t: Table, neighbour: nat, reached: set<nat>, k: nat)
    requires neighbour < MAX_ROUTERS && k <= MAX_ROUTERS
    ensures DispatchesUpTo(me, t, neighbour, reached, k) == [] <==> AdvertsUpTo(me, t, reached, k) == []
  {
    if k > 0 {
      NothingSentIff(me, t, neighbour, reached, k - 1);
    }
  }

  class Router {
    const id: nat
    const table: RoutingTable
    const failed: array<nat>
    var sendRoutingTable: bool

    ghost predicate Valid()
    {
      table.Valid() && failed.Length == MAX_ROUTERS && failed as object != table.rows
    }

    ghost function View(): RouterView
      requires Valid()
      reads this, table.rows, failed
    {
      RouterView(table.View(), failed[..], sendRoutingTable)
    }

    constructor (id: nat)
      ensures Valid() && this.id == id && fresh(table) && fresh(table.rows) && fresh(failed)
      ensures View() == RouterView(seq(MAX_ROUTERS, _ => NO_ROW), seq(MAX_ROUTERS, _ => 0), true)
    {
      this.id := id;
      table := new RoutingTable();
      failed := new nat[MAX_ROUTERS];
      sendRoutingTable := true;
      new;
      for ix := 0 to failed.Length
        invariant forall j :: 0 <= j < ix ==> failed[j] == 0
        invariant table.View() == seq(MAX_ROUTERS, _ => NO_ROW)
        invariant sendRoutingTable
      {
        failed[ix] := 0;
      }
    }

    /** Loading the configured neighbours: router id and network id coincide. */
    method InitFromConfig(neighbours: seq<nat>)
      requires Valid() && forall n <- neighbours :: n < MAX_ROUTERS
      modifies table.rows
      ensures forall n :: 0 <= n < MAX_ROUTERS ==>
                View().table[n] == if n in neighbours then Learned(n, DIRECT, n) else old(View()).table[n]
      ensures View().failed == old(View()).failed && View().sending == old(View()).sending
    {
      for ix := 0 to |neighbours|
        invariant forall n :: 0 <= n < MAX_ROUTERS ==>
                    table.View()[n] == if n in neighbours[..ix] then Learned(n, DIRECT, n) else old(View()).table[n]
        invariant failed[..] == old(View()).failed
      {
        assert neighbours[ix] in neighbours;
        assert neighbours[..ix + 1] == neighbours[..ix] + [neighbours[ix]];
        table.SetDestination(neighbours[ix]);
        table.SetDistance(neighbours[ix], DIRECT);
        table.SetNextHopRoute(neighbours[ix], neighbours[ix]);
      }
      assert neighbours[..|neighbours|] == neighbours;
    }

    /** The start-up probe: direct rows whose dispatch fails go to infinity. */
    method DetermineConnectivity(reachable: set<nat>)
      requires Valid()
      modifies table.rows
      ensures forall n :: 0 <= n < MAX_ROUTERS ==>
                var row := old(View()).table[n];
                View().table[n] ==
                if row.taken && row.dist == DIRECT && n !in reachable then row.(dist := RIP_MAX_HOP) else row
      ensures View().failed == old(View()).failed && View().sending == old(View()).sending
    {
      for ix := 0 to MAX_ROUTERS
        invariant forall n :: 0 <= n < MAX_ROUTERS ==>
                    var row := old(View()).table[n];
                    table.View()[n] ==
                    if n < ix && row.taken && row.dist == DIRECT && n !in reachable
                    then row.(dist := RIP_MAX_HOP) else row
        invariant failed[..] == old(View()).failed
      {
        if table.rows[ix].taken && table.rows[ix].dist == DIRECT {
          if ix !in reachable {
            table.SetDistance(ix, RIP_MAX_HOP);
          }
        }
      }
    }

    /** Coming up: the configured neighbours, direct or at infinity by the probe, nothing else. */
    static method StartUp(id: nat, neighbours: seq<nat>, reachable: set<nat>) returns (r: Router)
      requires forall n <- neighbours :: n < MAX_ROUTERS
      ensures r.Valid() && fresh(r) && r.id == id && r.View().failed == seq(MAX_ROUTERS, _ => 0) && r.View().sending
      ensures forall n :: 0 <= n < MAX_ROUTERS ==>
                r.View().table[n] ==
                if n !in neighbours then NO_ROW
                else Learned(n, if n in reachable then DIRECT else RIP_MAX_HOP, n)
    {
      r := new Router(id);
      r.InitFromConfig(neighbours);
      r.DetermineConnectivity(reachable);
    }

    method UpdateFailedCounter(network: nat, hasFailed: bool)
      requires Valid() && network < MAX_ROUTERS
      modifies failed
      ensures failed[..] == old(failed[..])[network := if hasFailed then old(failed[network]) + 1 else 0]
      ensures table.View() == old(table.View())
    {
      if hasFailed {
        failed[network] := failed[network] + 1;
      } else {
        failed[network] := 0;
      }
    }

    method KeepSendingTable() returns (keep: bool)
      requires Valid()
      ensures keep == KeepSending(View().table, View().failed)
    {
      for ix := 0 to MAX_ROUTERS
        invariant forall j :: 0 <= j < ix ==> !Unsettled(View().table, View().failed, j)
      {
        if table.rows[ix].taken && table.rows[ix].dist != DIRECT {
          if failed[ix] < FAILED_LIMIT {
            assert Unsettled(View().table, View().failed, ix);
            return true;
          }
        }
      }
      return false;
    }

    method UpdateMyRoutingTable(packet: Word)
      requires Valid()
      modifies this`sendRoutingTable, table.rows, failed
      ensures View() == OnAdvert(old(View()), DecodeAdvert(packet), id)
    {
      var network := DecodeAdvert(packet).net;
      var updated := table.Update(packet, id);
      UpdateFailedCounter(network, !updated);
      var keep := KeepSendingTable();
      sendRoutingTable := keep;
    }

    /** One word per row; the empty word marks a row that is not taken. */
    method CompileRoutingTable() returns (packets: array<Word>)
      requires Valid()
      ensures fresh(packets) && packets.Length == MAX_ROUTERS
      ensures forall n :: 0 <= n < MAX_ROUTERS ==>
                var row := View().table[n];
                packets[n] == if row.taken then EncodeAdvert(Advert(id, row.dest, row.dist)) else 0
    {
      packets := new Word[MAX_ROUTERS];
      for ix := 0 to MAX_ROUTERS
        invariant forall n :: 0 <= n < ix ==>
                    var row := View().table[n];
                    packets[n] == if row.taken then EncodeAdvert(Advert(id, row.dest, row.dist)) else 0
      {
        if table.rows[ix].taken {
          packets[ix] := EncodeAdvert(Advert(id, table.rows[ix].dest, table.rows[ix].dist));
        } else {
          packets[ix] := 0;
        }
      }
    }

    /** Sends the whole table to one neighbour; reached names the dispatches that connect. */
    method SendRoutingTableTo(neighbour: nat, reached: set<nat>) returns (ok: bool, sent: seq<Dispatch>)
      requires Valid() && id < 16 && neighbour < MAX_ROUTERS
      requires Sendable(View().table) && View().table[neighbour].taken
      ensures sent == DispatchesUpTo(id, View().table, neighbour, reached, MAX_ROUTERS)
      ensures ok == (sent != [])
    {
      var packets := CompileRoutingTable();
      ok, sent := false, [];
      ghost var t, words := View().table, packets[..];
      for idx := 0 to MAX_ROUTERS
        invariant packets[..] == words
        invariant sent == DispatchesUpTo(id, t, neighbour, reached, idx)
        invariant ok == (sent != [])
      {
        if t[idx].taken {
          AdvertIsNotEmpty(Advert(id, t[idx].dest, t[idx].dist));
        }
        if packets[idx] != 0 {
          if idx in reached {
            sent := sent + [Dispatch(table.rows[neighbour].socket, Pack(packets[idx]))];
            ok := true;
          }
        }
      }
    }

    method SendRoutingTableToNeighbours(reached: seq<set<nat>>) returns (sent: seq<Dispatch>)
      requires Valid() && id < 16 && |reached| == MAX_ROUTERS && Sendable(View().table)
      modifies table.rows
      ensures (View().table, sent) == SendSweep(id, old(View()).table, reached, MAX_ROUTERS)
      ensures View().failed == old(View()).failed && View().sending == old(View()).sending
    {
      sent := [];
      for ix := 0 to MAX_ROUTERS
        invariant (View().table, sent) == SendSweep(id, old(View()).table, reached, ix)
        invariant Sendable(View().table)
        invariant View().failed == old(View()).failed && View().sending == old(View()).sending
      {
        if table.rows[ix].taken && table.rows[ix].dist == DIRECT {
          var ok, burst := SendRoutingTableTo(ix, reached[ix]);
          NothingSentIff(id, View().table, ix, reached[ix], MAX_ROUTERS);
          sent := sent + burst;
          if !ok {
            table.SetDistance(ix, RIP_MAX_HOP);
          }
        }
      }
    }
  }
}
