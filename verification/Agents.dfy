/** The mobility side of a router: the foreign agent's table and care-of addresses, the
    home agent's table, and what the callback does with each kind of packet. */
module Agents {
  import opened Wire
  import opened RoutingTables
  import opened RipRouters
  import opened RipLookups

  const SLOTS := 15
  const TRUE := 1
  const FALSE := 0
  const PORT_CLEAR := 7000

  /** registered is TRUE, FALSE, or ERR in a slot never used. */
  datatype ForeignRow = ForeignRow(used: bool, careOf: int, home: int, agent: int, life: int, registered: int, since: int)

  const NO_FOREIGN_ROW := ForeignRow(false, ERR, ERR, ERR, ERR, ERR, ERR)

  datatype CareOfRow = CareOfRow(address: int, taken: bool)

  datatype HomeRow = HomeRow(used: bool, home: int, careOf: int, foreignAgent: int, homeNetwork: int,
                             since: int, registered: int)

  type ForeignRows = r: seq<ForeignRow> | |r| == SLOTS witness seq(SLOTS, _ => NO_FOREIGN_ROW)
  type CareOfRows = r: seq<CareOfRow> | |r| == SLOTS witness seq(SLOTS, i => CareOfRow(i + 1, false))
  type HomeRows = r: seq<HomeRow> | |r| == SLOTS witness seq(SLOTS, _ => HomeRow(false, 0, 0, 0, 0, 0, 0))

  datatype ForeignAgent = ForeignAgent(rows: ForeignRows, careOfs: CareOfRows)

  const EMPTY_AGENT := ForeignAgent(seq(SLOTS, _ => NO_FOREIGN_ROW), seq(SLOTS, i => CareOfRow(i + 1, false)))

  // ----- foreign agent -----------------------------------------------------

  /** Slots 0 .. 14 and used bits 0 .. 13 exist for these addresses. */
  predicate UsableCareOf(c: int) {
    1 <= c < SLOTS
  }

  predicate MayTake(row: ForeignRow, home: int, agent: int) {
    (row.home == ERR && row.agent == ERR) || (row.home == home && row.agent == agent) || !row.used
  }

  /** The fields of a registration request that the tables store. */
  datatype Request = Request(careOf: int, home: int, agent: int, source: int, life: int)

  function RequestOf(p: Word): Request {
    Request(CareOf(p) as int, HomeAddress(p) as int, HomeAgent(p) as int, Source(p) as int, LifeTime(p) as int)
  }

  function TakeSlot(rows: ForeignRows, r: Request, now: int): ForeignRows
    requires 0 <= r.careOf < SLOTS
  {
    if MayTake(rows[r.careOf], r.home, r.agent)
    then rows[r.careOf := ForeignRow(true, r.careOf, r.home, r.agent, r.life, TRUE, now)]
    else rows
  }

  function RegisterForeign(fa: ForeignAgent, r: Request, now: int): (ForeignAgent, bool)
    requires UsableCareOf(r.careOf)
  {
    if MayTake(fa.rows[r.careOf], r.home, r.agent)
    then (ForeignAgent(TakeSlot(fa.rows, r, now),
                       fa.careOfs[r.careOf - 1 := fa.careOfs[r.careOf - 1].(taken := true)]), true)
    else (fa, false)
  }

  function DeregisterForeign(fa: ForeignAgent, c: int): ForeignAgent
    requires 0 <= c < SLOTS
  {
    fa.(rows := fa.rows[c := fa.rows[c].(used := false, registered := FALSE)])
  }

  /** A reply on its way to the mobile restarts the slot's clock. */
  function Refresh(fa: ForeignAgent, c: int, now: int): ForeignAgent
    requires 0 <= c < SLOTS
  {
    fa.(rows := fa.rows[c := fa.rows[c].(since := now)])
  }

  predicate Expires(row: ForeignRow, now: int) {
    row.used && now - row.since >= row.life
  }

  function Sweep(fa: ForeignAgent, now: int): ForeignAgent {
    ForeignAgent(
      seq(SLOTS, i requires 0 <= i < SLOTS =>
        if Expires(fa.rows[i], now) then fa.rows[i].(registered := FALSE) else fa.rows[i]),
      seq(SLOTS, i requires 0 <= i < SLOTS =>
        if i + 1 < SLOTS && Expires(fa.rows[i + 1], now) then fa.careOfs[i].(taken := false) else fa.careOfs[i]))
  }

  /** The address put in an advertisement, or ERR. */
  function FreeCareOf(careOfs: seq<CareOfRow>): int {
    if careOfs == [] then ERR
    else if !careOfs[0].taken then careOfs[0].address
    else FreeCareOf(careOfs[1..])
  }

  /** Addresses are in place, used slots name themselves, and a live registration holds
      its care-of address. */
  ghost predicate SlotOk(fa: ForeignAgent, i: int)
    requires 0 <= i < SLOTS
  {
    && fa.careOfs[i].address == i + 1
    && (fa.rows[i].used ==> UsableCareOf(i) && fa.rows[i].careOf == i)
    && (fa.rows[i].registered == TRUE ==> fa.rows[i].used && UsableCareOf(i) && fa.careOfs[i - 1].taken)
  }

  ghost predicate AgentOk(fa: ForeignAgent) {
    forall i :: 0 <= i < SLOTS ==> SlotOk(fa, i)
  }

  // ----- home agent --------------------------------------------------------

  function RegisterHome(ha: HomeRows, r: Request, now: int): HomeRows
    requires 0 <= r.home < SLOTS
  {
    ha[r.home := HomeRow(true, r.home, r.careOf, r.source, r.agent, now, TRUE)]
  }

  function PrepareReply(p: Word): Word {
    PutDestination(
      PutSource(
        PutCareOf(
          PutHomeAddress(
            PutLifeTime(PutPacketType(0, REPLY_PKT_TYPE), LifeTime(p)), HomeAddress(p)), CareOf(p)),
        HomeAgent(p)),
      Source(p))
  }

  // ----- the callback ------------------------------------------------------

  datatype AgentView = AgentView(fa: ForeignAgent, ha: HomeRows, rip: RouterView)

  /** What leaves the router: nothing, a packet for another router, or one for a port on
      the local network that answers. */
  datatype Output = Quiet | Refused | ToRouter(router: int, packet: Word) | ToMobile(port: int, packet: Word)

  /** A dispatch to another router that does not connect comes to nothing. */
  function Dispatched(out: Output, connects: bool): Output {
    if out.ToRouter? && !connects then Quiet else out
  }

  /** Routing by the table; a dispatch that finds no row comes to nothing. */
  function RouteTo(t: Table, network: nat, p: Word): Output
    requires network < MAX_ROUTERS
  {
    var hop := DispatchedTo(t, network);
    if hop == ERR then Quiet else ToRouter(hop, p)
  }

  function IsTunneled(p: Word): bool {
    IpTunneled(p) != 0
  }

  /** The network an IP packet is routed by: the outer one once it is tunnelled. */
  function IpNetwork(p: Word): (network: nat)
    ensures network < 8
  {
    IpDestinationNetwork(p, IsTunneled(p)) as nat
  }

  /** The port a packet for a mobile is sent to: its care-of address, or its home
      interface when there is none. */
  function MobilePort(p: Word, kind: Word): int
    requires kind == REPLY_PKT_TYPE || kind == IP_PKT_TYPE
  {
    var network := if kind == REPLY_PKT_TYPE then Destination(p) else IpDestinationNetwork(p, IsTunneled(p));
    var careOf := if kind == REPLY_PKT_TYPE then CareOf(p) else IpDestinationInterface(p, IsTunneled(p));
    (network as int) * 1000 + PORT_CLEAR +
    (if careOf != 0 then careOf as int else IpDestinationInterface(p, IsTunneled(p)) as int)
  }

  /** Packets whose table slots exist at router me; the source indexes its arrays with
      these fields unchecked. */
  predicate InBounds(p: Word, me: nat) {
    var kind := PacketType(p);
    if kind == REQT_PKT_TYPE then
      if HomeAgent(p) as int == me then HomeAddress(p) as int < SLOTS
      else if Flags(p) == REQT_PKT_DIRECT_FROM_MU then UsableCareOf(CareOf(p) as int)
      else CareOf(p) as int < SLOTS
    else if kind == REPLY_PKT_TYPE then
      Destination(p) as int == me ==> CareOf(p) as int < SLOTS
    else if kind == IP_PKT_TYPE then
      IpNetwork(p) == me && !IsTunneled(p) ==>
        IpDestinationInterface(p, false) as int < SLOTS
    else true
  }

  /** The request a foreign agent passes on for a mobile. */
  function RelayWord(p: Word, me: nat): Word {
    PutSource(PutFlags(p, REQT_PKT_IS_A_RELAY), ToWord(me))
  }

  function HandleDirect(v: AgentView, me: nat, p: Word, now: int): (AgentView, Output)
    requires UsableCareOf(CareOf(p) as int)
  {
    var (fa, ok) := RegisterForeign(v.fa, RequestOf(p), now);
    if !ok then (v, Refused)
    else (v.(fa := fa), RouteTo(v.rip.table, Destination(RelayWord(p, me)) as int, RelayWord(p, me)))
  }

  function HandleRequest(v: AgentView, me: nat, p: Word, now: int): (AgentView, Output)
    requires InBounds(p, me) && PacketType(p) == REQT_PKT_TYPE && me < 16
  {
    if HomeAgent(p) as int == me then
      var v' := v.(ha := RegisterHome(v.ha, RequestOf(p), now));
      if Flags(p) & REQT_PKT_IS_A_RELAY == REQT_PKT_IS_A_RELAY
      then (v', RouteTo(v.rip.table, Destination(PrepareReply(p)) as int, PrepareReply(p)))
      else (v', Quiet)
    else if Flags(p) | REQT_PKT_DEREGISTER == REQT_PKT_DEREGISTER then
      (v.(fa := DeregisterForeign(v.fa, CareOf(p) as int)), Quiet)
    else if Flags(p) | REQT_PKT_DIRECT_FROM_MU == REQT_PKT_DIRECT_FROM_MU then
      HandleDirect(v, me, p, now)
    else
      (v, RouteTo(v.rip.table, Destination(p) as int, p))
  }

  /** mobileUp says whether the dispatch to the local port connects. */
  function HandleReply(v: AgentView, me: nat, p: Word, now: int, mobileUp: bool): (AgentView, Output)
    requires InBounds(p, me) && PacketType(p) == REPLY_PKT_TYPE
  {
    if Destination(p) as int == me
    then (v.(fa := Refresh(v.fa, CareOf(p) as int, now)),
          if mobileUp then ToMobile(MobilePort(p, REPLY_PKT_TYPE), p) else Quiet)
    else (v, RouteTo(v.rip.table, Destination(p) as int, p))
  }

  /** A home agent's packet for an absent mobile, addressed by the mobile's home row. */
  function Outer(p: Word, row: HomeRow, me: nat): Word {
    TunnelTo(p, ToWord(row.foreignAgent), ToWord(row.careOf), ToWord(me), IpDestinationInterface(p, false))
  }

  function Forward(t: Table, p: Word): Output {
    RouteTo(t, IpNetwork(p), p)
  }

  function HandleIp(v: AgentView, me: nat, p: Word, mobileUp: bool): Output
    requires InBounds(p, me) && PacketType(p) == IP_PKT_TYPE && me < 16
  {
    if IpNetwork(p) == me then
      if mobileUp then ToMobile(MobilePort(p, IP_PKT_TYPE), p)
      else if IsTunneled(p) then Refused
      else Forward(v.rip.table, Outer(p, v.ha[IpDestinationInterface(p, false) as int], me))
    else Forward(v.rip.table, p)
  }

  function Handle(v: AgentView, me: nat, p: Word, now: int, mobileUp: bool): (AgentView, Output)
    requires InBounds(p, me) && me < 16
  {
    var kind := PacketType(p);
    if kind == REQT_PKT_TYPE then HandleRequest(v, me, p, now)
    else if kind == REPLY_PKT_TYPE then HandleReply(v, me, p, now, mobileUp)
    else if kind == RIP_PKT_TYPE then (v.(rip := OnAdvert(v.rip, DecodeAdvert(p), me)), Quiet)
    else if kind == IP_PKT_TYPE then (v, HandleIp(v, me, p, mobileUp))
    else (v, Quiet)
  }

  // ----- the advertisement -------------------------------------------------

  const LIFE_TIME: Word := 15

  function MakeAdvertisement(me: nat, foreign: bool, home: bool, fa: ForeignAgent): Word {
    var base := PutIcmpSource(PutPacketType(0, ICMP_PKT_TYPE), ToWord(me));
    var free := FreeCareOf(fa.careOfs);
    if foreign && !home then
      var flagged := PutIcmpFlags(base, ICMP_AGT_FGN);
      if free != ERR then PutIcmpLifeTime(PutIcmpCareOf(flagged, ToWord(free)), LIFE_TIME) else flagged
    else if home && !foreign then PutIcmpFlags(base, ICMP_AGT_HME)
    else if home && foreign then
      var flagged := PutIcmpFlags(PutIcmpLifeTime(PutIcmpFlags(base, ICMP_AGT_HME), LIFE_TIME),
                                  ICMP_AGT_HME | ICMP_AGT_FGN);
      if free != ERR then PutIcmpCareOf(flagged, ToWord(free)) else flagged
    else base
  }

  /** Which agent a mobile takes the advertisement for; home wins. */
  function AgentType(flags: Word): Word {
    if flags & ICMP_AGT_HME == ICMP_AGT_HME then ICMP_AGT_HME
    else if flags & ICMP_AGT_FGN == ICMP_AGT_FGN then ICMP_AGT_FGN
    else 0xFFFFFFFF
  }

  // ----- the objects -------------------------------------------------------

  class AgentRouter {
    const id: nat
    const isForeign: bool
    const isHome: bool
    const rip: Router
    const foreign: array<ForeignRow>
    const careOfs: array<CareOfRow>
    const home: array<HomeRow>

    ghost predicate Valid() {
      && rip.Valid() && id < 16 && rip.id == id
      && foreign.Length == SLOTS && careOfs.Length == SLOTS && home.Length == SLOTS
    }

    ghost function Repr(): set<object> {
      {rip, rip.table.rows, rip.failed, foreign, careOfs, home}
    }

    ghost function View(): AgentView
      requires Valid()
      reads Repr()
    {
      AgentView(ForeignAgent(foreign[..], careOfs[..]), home[..], rip.View())
    }

    /** The home table's slots start out free but otherwise uninitialised. */
    constructor (id: nat, isForeign: bool, isHome: bool, garbage: HomeRow)
      requires id < 16
      ensures Valid() && fresh(Repr()) && this.id == id && this.isForeign == isForeign && this.isHome == isHome
      ensures View().fa == EMPTY_AGENT && forall i :: 0 <= i < SLOTS ==> !View().ha[i].used
    {
      this.id, this.isForeign, this.isHome := id, isForeign, isHome;
      rip := new Router(id);
      foreign := new ForeignRow[SLOTS](_ => NO_FOREIGN_ROW);
      careOfs := new CareOfRow[SLOTS](i => CareOfRow(i + 1, false));
      home := new HomeRow[SLOTS](_ => garbage.(used := false));
    }

    method SetForeign(r: Request, now: int) returns (ok: bool)
      requires Valid() && 0 <= r.careOf < SLOTS
      modifies foreign
      ensures ok == MayTake(old(foreign[r.careOf]), r.home, r.agent)
      ensures foreign[..] == TakeSlot(old(foreign[..]), r, now)
    {
      if (foreign[r.careOf].home == ERR && foreign[r.careOf].agent == ERR) ||
         (r.home == foreign[r.careOf].home && r.agent == foreign[r.careOf].agent) || !foreign[r.careOf].used {
        foreign[r.careOf] := ForeignRow(true, r.careOf, r.home, r.agent, r.life, TRUE, now);
        return true;
      }
      return false;
    }

    method SetHome(r: Request, now: int)
      requires Valid() && 0 <= r.home < SLOTS
      modifies home
      ensures home[..] == RegisterHome(old(home[..]), r, now)
    {
      home[r.home] := HomeRow(true, r.home, r.careOf, r.source, r.agent, now, TRUE);
    }

    method Deregister(c: int)
      requires Valid() && 0 <= c < SLOTS
      modifies foreign
      ensures View() == old(View()).(fa := DeregisterForeign(old(View()).fa, c))
    {
      foreign[c] := foreign[c].(used := false, registered := FALSE);
    }

    method GetFreeCareOfAddress() returns (free: int)
      requires Valid()
      ensures free == FreeCareOf(View().fa.careOfs)
    {
      for ix := 0 to careOfs.Length
        invariant FreeCareOf(careOfs[..]) == FreeCareOf(careOfs[ix..])
      {
        if !careOfs[ix].taken {
          return careOfs[ix].address;
        }
      }
      return ERR;
    }

    method SetCareOfUsedBit(ix: nat, taken: bool)
      requires Valid() && ix < SLOTS
      modifies careOfs
      ensures careOfs[..] == old(careOfs[..])[ix := old(careOfs[ix]).(taken := taken)]
    {
      careOfs[ix] := careOfs[ix].(taken := taken);
    }

    /** The expiry sweep frees the address its row names; since used rows name
        themselves, that is the slot-by-slot Sweep. */
    method CheckStillValid(now: int)
      requires Valid() && AgentOk(View().fa)
      modifies foreign, careOfs
      ensures View() == old(View()).(fa := Sweep(old(View()).fa, now))
    {
      ghost var was := View().fa;
      for ix := 0 to SLOTS
        invariant forall i :: 0 <= i < SLOTS ==>
                    foreign[i] == if i < ix then Sweep(was, now).rows[i] else was.rows[i]
        invariant forall i :: 0 <= i < SLOTS ==>
                    careOfs[i] == if i + 1 < ix then Sweep(was, now).careOfs[i] else was.careOfs[i]
        invariant home[..] == old(View()).ha && rip.View() == old(View()).rip
      {
        assert SlotOk(was, ix);
        var row := foreign[ix];
        if row.used {
          if now - row.since >= row.life {
            foreign[ix] := foreign[ix].(registered := FALSE);
            SetCareOfUsedBit(foreign[ix].careOf - 1, false);
          }
        }
      }
      assert foreign[..] == Sweep(was, now).rows;
      assert careOfs[..] == Sweep(was, now).careOfs;
    }

    /** Routing a packet: two table lookups and a dispatch, which connects or not. */
    method DoRouting(p: Word, network: nat, connects: bool) returns (out: Output)
      requires Valid() && network < MAX_ROUTERS
      ensures out == Dispatched(RouteTo(View().rip.table, network, p), connects)
    {
      var hop := rip.table.rows[network].route;
      if 0 <= hop < MAX_ROUTERS && rip.table.rows[hop].taken {
        var port := rip.table.rows[hop].socket;
        out := if port - ROUTER_PORTS == ERR || !connects then Quiet else ToRouter(port - ROUTER_PORTS, p);
      } else {
        out := Quiet;
      }
    }

    method Register(r: Request, now: int) returns (ok: bool)
      requires Valid() && UsableCareOf(r.careOf)
      modifies foreign, careOfs
      ensures ok == RegisterForeign(old(View().fa), r, now).1
      ensures View() == old(View()).(fa := RegisterForeign(old(View().fa), r, now).0)
    {
      ok := SetForeign(r, now);
      if ok {
        SetCareOfUsedBit(r.careOf - 1, true);
      }
    }

    method OnDirectRequest(p: Word, now: int, connects: bool) returns (out: Output)
      requires Valid() && UsableCareOf(CareOf(p) as int)
      modifies foreign, careOfs
      ensures var (v, sent) := HandleDirect(old(View()), id, p, now);
              View() == v && out == Dispatched(sent, connects)
    {
      var ok := Register(RequestOf(p), now);
      if !ok {
        return Refused;
      }
      var relay := RelayWord(p, id);
      out := DoRouting(relay, Destination(relay) as int, connects);
    }

    method OnRequest(p: Word, now: int, connects: bool) returns (out: Output)
      requires Valid() && InBounds(p, id) && PacketType(p) == REQT_PKT_TYPE
      modifies foreign, careOfs, home
      ensures var (v, sent) := HandleRequest(old(View()), id, p, now);
              View() == v && out == Dispatched(sent, connects)
    {
      if HomeAgent(p) as int == id {
        SetHome(RequestOf(p), now);
        if Flags(p) & REQT_PKT_IS_A_RELAY == REQT_PKT_IS_A_RELAY {
          var reply := PrepareReply(p);
          out := DoRouting(reply, Destination(reply) as int, connects);
        } else {
          out := Quiet;
        }
      } else if Flags(p) | REQT_PKT_DEREGISTER == REQT_PKT_DEREGISTER {
        Deregister(CareOf(p) as int);
        out := Quiet;
      } else if Flags(p) | REQT_PKT_DIRECT_FROM_MU == REQT_PKT_DIRECT_FROM_MU {
        out := OnDirectRequest(p, now, connects);
      } else {
        out := DoRouting(p, Destination(p) as int, connects);
      }
    }

    method OnReply(p: Word, now: int, mobileUp: bool, connects: bool) returns (out: Output)
      requires Valid() && InBounds(p, id) && PacketType(p) == REPLY_PKT_TYPE
      modifies foreign
      ensures var (v, sent) := HandleReply(old(View()), id, p, now, mobileUp);
              View() == v && out == Dispatched(sent, connects)
    {
      if Destination(p) as int == id {
        var c := CareOf(p) as int;
        foreign[c] := foreign[c].(since := now);
        out := if mobileUp then ToMobile(MobilePort(p, REPLY_PKT_TYPE), p) else Quiet;
      } else {
        out := DoRouting(p, Destination(p) as int, connects);
      }
    }

    method ForwardIp(p: Word, connects: bool) returns (out: Output)
      requires Valid()
      ensures out == Dispatched(Forward(View().rip.table, p), connects)
    {
      out := DoRouting(p, IpNetwork(p), connects);
    }

    method OnIp(p: Word, mobileUp: bool, connects: bool) returns (out: Output)
      requires Valid() && InBounds(p, id) && PacketType(p) == IP_PKT_TYPE
      ensures out == Dispatched(HandleIp(View(), id, p, mobileUp), connects)
    {
      if IpNetwork(p) == id && !IsTunneled(p) {
        if mobileUp {
          return ToMobile(MobilePort(p, IP_PKT_TYPE), p);
        }
        out := ForwardIp(Outer(p, home[IpDestinationInterface(p, false) as int], id), connects);
      } else if IpNetwork(p) == id {
        out := if mobileUp then ToMobile(MobilePort(p, IP_PKT_TYPE), p) else Refused;
      } else {
        out := ForwardIp(p, connects);
      }
    }

    method Callback(p: Word, now: int, mobileUp: bool, connects: bool) returns (out: Output)
      requires Valid() && InBounds(p, id)
      modifies Repr()
      ensures var (v, sent) := Handle(old(View()), id, p, now, mobileUp);
              View() == v && out == Dispatched(sent, connects)
    {
      var kind := PacketType(p);
      out := Quiet;
      if kind == REQT_PKT_TYPE {
        out := OnRequest(p, now, connects);
      } else if kind == REPLY_PKT_TYPE {
        out := OnReply(p, now, mobileUp, connects);
      } else if kind == RIP_PKT_TYPE {
        rip.UpdateMyRoutingTable(p);
      } else if kind == IP_PKT_TYPE {
        out := OnIp(p, mobileUp, connects);
      }
    }
  }
}
