/** Registration and delivery end to end: the routers' callback carries out both kinds of
    journey, from the advertisement a mobile hears to the port it listens on. */
module MobileIp {
  import opened Wire
  import opened RoutingTables
  import opened RipNetwork
  import opened RipSoundness
  import opened RipCleanRuns
  import opened RipRounds
  import opened RipConvergence
  import opened Agents
  import opened Mobiles
  import opened Journeys

  /** The callback, for packets whose table slots exist. */
  function RouterHandles(v: AgentView, r: Node, p: Word, now: int, mobileUp: bool): (AgentView, Output) {
    if InBounds(p, r) then Handle(v, r, p, now, mobileUp) else (v, Refused)
  }

  // ----- registration ----------------------------------------------------------

  /** A relayed registration request of a mobile visiting agent, and its reply. */
  ghost predicate IsRegistration(j: Journey) {
    && IsNode(j.home) && IsNode(j.agent) && j.home != j.agent
    && PacketType(j.inner) == REQT_PKT_TYPE && Flags(j.inner) == REQT_PKT_IS_A_RELAY
    && HomeAgent(j.inner) as int == j.home && Destination(j.inner) as int == j.home
    && Source(j.inner) as int == j.agent
    && UsableCareOf(CareOf(j.inner) as int) && HomeAddress(j.inner) as int < SLOTS
    && j.outer == PrepareReply(j.inner) && j.errand == Registering(RequestOf(j.inner))
    && j.port == j.agent * 1000 + PORT_CLEAR + CareOf(j.inner) as int
  }

  lemma ReplyFields(p: Word)
    ensures var reply := PrepareReply(p);
            && PacketType(reply) == REPLY_PKT_TYPE && LifeTime(reply) == LifeTime(p)
            && HomeAddress(reply) == HomeAddress(p) && CareOf(reply) == CareOf(p)
            && Source(reply) == HomeAgent(p) && Destination(reply) == Source(p)
            && Flags(reply) == 0 && Identification(reply) == 0
  {
  }

  /** A reply is handed over on the port of the address the request asked for, also when that
      is no address at all. */
  lemma ReplyPort(p: Word)
    ensures MobilePort(PrepareReply(p), REPLY_PKT_TYPE) == (Source(p) as int) * 1000 + 7000 + CareOf(p) as int
  {
    ReplyFields(p);
    if CareOf(p) == 0 {
      NoInterfaceInReply(p);
    }
  }

  lemma NoInterfaceInReply(p: Word)
    requires CareOf(p) == 0
    ensures IpTunneled(PrepareReply(p)) == 0 && IpDestinationInterface(PrepareReply(p), false) == 0
  {
  }

  /** A relayed request differs from the direct one in its flags and source only. */
  lemma RelayFields(p: Word, r: Node)
    requires PacketType(p) == REQT_PKT_TYPE && Flags(p) == REQT_PKT_DIRECT_FROM_MU && Source(p) == 0
    ensures var relay := RelayWord(p, r);
            && PacketType(relay) == REQT_PKT_TYPE && Flags(relay) == REQT_PKT_IS_A_RELAY
            && Destination(relay) == Destination(p) && RequestOf(relay) == RequestOf(p).(source := r)
  {
    NibbleRoundTrip(r);
    RelayingKeepsTheRest(p, ToWord(r));
    SameFields(RelayWord(p, r), DecodeRegistration(p).(flags := REQT_PKT_IS_A_RELAY, source := ToWord(r)));
  }

  lemma SameFields(p: Word, d: Registration)
    requires DecodeRegistration(p) == d
    ensures PacketType(p) == d.kind && Flags(p) == d.flags && Destination(p) == d.destination
    ensures RequestOf(p) == Request(d.careOf as int, d.home as int, d.agent as int, d.source as int, d.lifeTime as int)
  {
  }

  /** What each router on the way makes of a registration. */
  lemma RegistrationAt(j: Journey, v: AgentView, r: Node, now: int, up: bool)
    requires IsRegistration(j)
    ensures j.inner != j.outer
    ensures r != j.home ==> RouterHandles(v, r, j.inner, now, up) == (v, RouteTo(v.rip.table, j.home, j.inner))
    ensures r == j.home ==> RouterHandles(v, r, j.inner, now, up) ==
                            (v.(ha := RegisterHome(v.ha, RequestOf(j.inner), now)),
                             RouteTo(v.rip.table, j.agent, j.outer))
    ensures r != j.agent ==> RouterHandles(v, r, j.outer, now, up) == (v, RouteTo(v.rip.table, j.agent, j.outer))
    ensures r == j.agent && up ==>
            RouterHandles(v, r, j.outer, now, up) ==
            (v.(fa := Refresh(v.fa, CareOf(j.inner) as int, now)), ToMobile(j.port, j.outer))
  {
    ReplyFields(j.inner);
  }

  lemma RegistrationIsCarriedOut(j: Journey)
    requires IsRegistration(j)
    ensures CarriesOut(RouterHandles, j)
  {
    RegistrationOnTheWay(j);
    forall v: AgentView, now: int
      ensures RouterHandles(v, j.home, j.inner, now, false) ==
              (v.(ha := RegisterHome(v.ha, RequestOf(j.inner), now)), RouteTo(v.rip.table, j.agent, j.outer))
      ensures RouterHandles(v, j.agent, j.outer, now, true) ==
              (v.(fa := Refresh(v.fa, CareOf(j.inner) as int, now)), ToMobile(j.port, j.outer))
    {
      RegistrationAt(j, v, j.home, now, false);
      RegistrationAt(j, v, j.agent, now, true);
    }
  }

  lemma RegistrationOnTheWay(j: Journey)
    requires IsRegistration(j)
    ensures j.inner != j.outer
    ensures forall v: AgentView, r: Node, now: int, up: bool | r != j.home ::
              RouterHandles(v, r, j.inner, now, up) == (v, RouteTo(v.rip.table, j.home, j.inner))
    ensures forall v: AgentView, r: Node, now: int, up: bool | r != j.agent ::
              RouterHandles(v, r, j.outer, now, up) == (v, RouteTo(v.rip.table, j.agent, j.outer))
  {
    ReplyFields(j.inner);
    forall v: AgentView, r: Node, now: int, up: bool
      ensures r != j.home ==> RouterHandles(v, r, j.inner, now, up) == (v, RouteTo(v.rip.table, j.home, j.inner))
      ensures r != j.agent ==> RouterHandles(v, r, j.outer, now, up) == (v, RouteTo(v.rip.table, j.agent, j.outer))
    {
      RegistrationAt(j, v, r, now, up);
    }
  }

  // ----- delivery --------------------------------------------------------------

  /** An untunnelled IP packet for the mobile in the given slot, which its home agent's
      row binds to a foreign agent. */
  ghost predicate IsDelivery(j: Journey, slot: nat, row: HomeRow) {
    && IsNode(j.home) && IsNode(j.agent) && j.home != j.agent && j.home < 8 && j.agent < 8
    && PacketType(j.inner) == IP_PKT_TYPE && !IsTunneled(j.inner) && j.inner & 0x7F == 0
    && IpDestinationNetwork(j.inner, false) as int == j.home
    && IpDestinationInterface(j.inner, false) as int == slot < SLOTS
    && row.foreignAgent == j.agent && 1 <= row.careOf < 16
    && j.outer == Outer(j.inner, row, j.home) && j.errand == Delivering(slot, row)
    && j.port == j.agent * 1000 + PORT_CLEAR + row.careOf
  }

  lemma OuterFields(p: Word, agent: Word, careOf: Word, home: Word)
    requires PacketType(p) == IP_PKT_TYPE && p & 0x7F == 0 && agent < 8 && careOf < 16 && home < 8
    ensures var out := TunnelTo(p, agent, careOf, home, IpDestinationInterface(p, false));
            && PacketType(out) == IP_PKT_TYPE && IpTunneled(out) == 1
            && IpDestinationNetwork(out, true) == agent && IpDestinationInterface(out, true) == careOf
  {
  }

  lemma OctalRoundTrip(x: int)
    requires 0 <= x < 8
    ensures ToWord(x) < 8
  {
  }

  lemma DeliveryOuter(j: Journey, slot: nat, row: HomeRow)
    requires IsDelivery(j, slot, row)
    ensures PacketType(j.outer) == IP_PKT_TYPE && IsTunneled(j.outer)
    ensures IpNetwork(j.outer) == j.agent && IpDestinationInterface(j.outer, true) as int == row.careOf
  {
    NibbleRoundTrip(j.agent);
    NibbleRoundTrip(row.careOf);
    NibbleRoundTrip(j.home);
    OctalRoundTrip(j.agent);
    OctalRoundTrip(j.home);
    OuterFields(j.inner, ToWord(j.agent), ToWord(row.careOf), ToWord(j.home));
  }

  lemma DeliveryAt(j: Journey, slot: nat, row: HomeRow, v: AgentView, r: Node, now: int, up: bool)
    requires IsDelivery(j, slot, row)
    ensures j.inner != j.outer
    ensures r != j.home ==> RouterHandles(v, r, j.inner, now, up) == (v, RouteTo(v.rip.table, j.home, j.inner))
    ensures r == j.home && !up && v.ha[slot] == row ==>
            RouterHandles(v, r, j.inner, now, up) == (v, RouteTo(v.rip.table, j.agent, j.outer))
    ensures r != j.agent ==> RouterHandles(v, r, j.outer, now, up) == (v, RouteTo(v.rip.table, j.agent, j.outer))
    ensures r == j.agent && up ==> RouterHandles(v, r, j.outer, now, up) == (v, ToMobile(j.port, j.outer))
  {
    DeliveryOuter(j, slot, row);
    TunneledAt(j, slot, row, v, r, now, up);
  }

  lemma TunneledAt(j: Journey, slot: nat, row: HomeRow, v: AgentView, r: Node, now: int, up: bool)
    requires IsDelivery(j, slot, row)
    ensures r != j.agent ==> RouterHandles(v, r, j.outer, now, up) == (v, RouteTo(v.rip.table, j.agent, j.outer))
    ensures r == j.agent && up ==> RouterHandles(v, r, j.outer, now, up) == (v, ToMobile(j.port, j.outer))
  {
    DeliveryOuter(j, slot, row);
  }

  lemma DeliveryIsCarriedOut(j: Journey, slot: nat, row: HomeRow)
    requires IsDelivery(j, slot, row)
    ensures CarriesOut(RouterHandles, j)
  {
    forall v: AgentView, r: Node, now: int, up: bool
      ensures r != j.home ==> RouterHandles(v, r, j.inner, now, up) == (v, RouteTo(v.rip.table, j.home, j.inner))
      ensures r != j.agent ==> RouterHandles(v, r, j.outer, now, up) == (v, RouteTo(v.rip.table, j.agent, j.outer))
    {
      DeliveryAt(j, slot, row, v, r, now, up);
    }
    forall v: AgentView, now: int
      ensures v.ha[slot] == row ==>
              RouterHandles(v, j.home, j.inner, now, false) == (v, RouteTo(v.rip.table, j.agent, j.outer))
      ensures RouterHandles(v, j.agent, j.outer, now, true) == (v, ToMobile(j.port, j.outer))
    {
      DeliveryAt(j, slot, row, v, j.home, now, false);
      DeliveryAt(j, slot, row, v, j.agent, now, true);
    }
  }

  /** An IP packet as a correspondent node builds it. */
  function CorrespondentPacket(sourceNetwork: int, source: int, network: int, destination: int): Word {
    PutIpDestinationNetwork(
      PutIpDestinationInterface(
        PutIpSourceInterface(
          PutIpSourceNetwork(PutPacketType(0, IP_PKT_TYPE), ToWord(sourceNetwork), false), ToWord(source), false),
        ToWord(destination), false),
      ToWord(network), false)
  }

  predicate IsPlainIp(p: Word, network: int, destination: int) {
    && PacketType(p) == IP_PKT_TYPE && !IsTunneled(p) && p & 0x7F == 0
    && IpDestinationNetwork(p, false) as int == network && IpDestinationInterface(p, false) as int == destination
  }

  /** The packet names this sender. */
  predicate IsFrom(p: Word, network: int, source: int) {
    IpSourceNetwork(p, false) as int == network && IpSourceInterface(p, false) as int == source
  }

  lemma CorrespondentWords(sourceNetwork: Word, source: Word, network: Word, destination: Word)
    requires sourceNetwork < 8 && source < 16 && network < 8 && destination < 16
    ensures var p := PutIpDestinationNetwork(PutIpDestinationInterface(PutIpSourceInterface(
              PutIpSourceNetwork(PutPacketType(0, IP_PKT_TYPE), sourceNetwork, false), source, false),
                destination, false), network, false);
            && PacketType(p) == IP_PKT_TYPE && IpTunneled(p) == 0 && p & 0x7F == 0
            && IpDestinationNetwork(p, false) == network && IpDestinationInterface(p, false) == destination
            && IpSourceNetwork(p, false) == sourceNetwork && IpSourceInterface(p, false) == source
  {
  }

  lemma MobileWords(sourceNetwork: Word, source: Word, outerNetwork: Word, outerSource: Word, network: Word,
                    destination: Word)
    requires sourceNetwork < 8 && source < 16 && outerNetwork < 8 && outerSource < 16 && network < 8 && destination < 16
    ensures var p := PutIpDestinationNetwork(PutIpDestinationInterface(PutIpSourceInterface(PutIpSourceInterface(
              PutIpSourceNetwork(PutIpSourceNetwork(PutPacketType(0, IP_PKT_TYPE), sourceNetwork, false),
                outerNetwork, true), source, false), outerSource, true), destination, false), network, false);
            && PacketType(p) == IP_PKT_TYPE && IpTunneled(p) == 0 && p & 0x7F == 0
            && IpDestinationNetwork(p, false) == network && IpDestinationInterface(p, false) == destination
            && IpSourceNetwork(p, false) == sourceNetwork && IpSourceInterface(p, false) == source
            && IpSourceNetwork(p, true) == outerNetwork
  {
  }

  /** Packets built by correspondents and by mobiles leave the outer destination bits clear,
      which is what tunnelling needs, and carry both their addresses; a mobile's also shows
      the network it is on. */
  lemma BuiltPacketsArePlain(m: Mobile, sourceNetwork: int, source: int, network: int, destination: int)
    requires 0 <= sourceNetwork < 8 && 0 <= source < 16 && 0 <= network < 8 && 0 <= destination < 16
    requires 0 <= m.homeNetwork < 8 && 0 <= m.homePort < 16 && 0 <= m.careOf < 16
    requires !m.atHome ==> 0 <= m.foreignNetwork < 8
    ensures IsPlainIp(CorrespondentPacket(sourceNetwork, source, network, destination), network, destination)
    ensures IsPlainIp(MobilePacket(m, network, destination), network, destination)
    ensures IsFrom(CorrespondentPacket(sourceNetwork, source, network, destination), sourceNetwork, source)
    ensures IsFrom(MobilePacket(m, network, destination), m.homeNetwork, m.homePort)
    ensures IpSourceNetwork(MobilePacket(m, network, destination), true) as int ==
            if m.atHome then 0 else m.foreignNetwork
  {
    var outer := if m.atHome then 0 else m.foreignNetwork;
    FieldFits(sourceNetwork, source);
    FieldFits(network, destination);
    FieldFits(m.homeNetwork, m.homePort);
    FieldFits(outer, m.careOf);
    CorrespondentWords(ToWord(sourceNetwork), ToWord(source), ToWord(network), ToWord(destination));
    MobileWords(ToWord(m.homeNetwork), ToWord(m.homePort), ToWord(outer), ToWord(m.careOf),
               ToWord(network), ToWord(destination));
  }

  lemma FieldFits(network: int, address: int)
    requires 0 <= network < 8 && 0 <= address < 16
    ensures ToWord(network) < 8 && ToWord(network) as int == network
    ensures ToWord(address) < 16 && ToWord(address) as int == address
  {
    NibbleRoundTrip(network);
    NibbleRoundTrip(address);
    OctalRoundTrip(network);
  }

  /** Delivery to a mobile that is away: the packet is tunnelled once at its home agent and
      handed to port agent * 1000 + 7000 + care-of address, after at most as many
      routers as the two distances and the last hand-over allow; it still shows its
      original source and destination inside.  Routing may change all the while. */
  lemma DeliveryCompletes(g: Graph, w: World, j: Journey, slot: nat, row: HomeRow, moves: seq<Move>)
    requires ValidGraph(g) && CleanInvariant(g, w.net) && IsDelivery(j, slot, row)
    requires w.hosts[j.home].ha[slot] == row && w.fate.Travelling? && w.fate.packet == j.inner
    requires Routable(w.net, w.fate.at, j.home) && Routable(w.net, j.home, j.agent)
    requires CanRun(g, RouterHandles, w, j, moves)
    ensures var (w', bound) := (RunWorld(g, RouterHandles, w, j, moves),
                                HopsLeft(w.net, w.fate.at, j.home) + HopsLeft(w.net, j.home, j.agent) + 1);
            && bound <= 2 * RIP_MAX_HOP + 1 && Processed(moves) <= bound && w'.fate != Lost
            && (Processed(moves) == bound ==>
                  w'.fate == Delivered(j.agent * 1000 + PORT_CLEAR + row.careOf, j.outer))
    ensures IpDestinationNetwork(j.outer, false) as int == j.home
    ensures IpDestinationInterface(j.outer, false) as int == slot
    ensures IpSourceNetwork(j.outer, false) == IpSourceNetwork(j.inner, false)
    ensures IpSourceInterface(j.outer, false) == IpSourceInterface(j.inner, false)
  {
    DeliveryIsCarriedOut(j, slot, row);
    InnerShowsThrough(j, slot, row);
    HopsLeftBound(g, w.net, w.fate.at, j.home);
    HopsLeftBound(g, w.net, j.home, j.agent);
    JourneyEnds(g, RouterHandles, w, j, Left(w, j), moves);
  }

  lemma InnerShowsThrough(j: Journey, slot: nat, row: HomeRow)
    requires IsDelivery(j, slot, row)
    ensures j.inner != j.outer
    ensures IpDestinationNetwork(j.outer, false) as int == j.home
    ensures IpDestinationInterface(j.outer, false) as int == slot
    ensures IpSourceNetwork(j.outer, false) == IpSourceNetwork(j.inner, false)
    ensures IpSourceInterface(j.outer, false) == IpSourceInterface(j.inner, false)
  {
    DeliveryOuter(j, slot, row);
    FieldFits(j.agent, row.careOf);
    FieldFits(j.home, 0);
    TunnelKeepsInner(j.inner, ToWord(j.agent), ToWord(row.careOf), ToWord(j.home),
                     IpDestinationInterface(j.inner, false));
  }

  // ----- from the advertisement to the reply -------------------------------------

  /** A mobile on the move that has just heard of a foreign agent. */
  predicate IsArriving(m: Mobile, f: Node, now: int) {
    && !m.wasRegistered && !m.moving && !StillRegistered(m, now)
    && IsNode(m.homeNetwork) && m.homeNetwork != f && 1 <= m.homePort < SLOTS
  }

  /** Its registration, as the foreign agent passes it on. */
  function RegistrationOf(m: Mobile, f: Node): Journey
    requires IsNode(m.homeNetwork)
  {
    var inner := RelayWord(BuildForeignRequest(m), f);
    Journey(m.homeNetwork, f, inner, PrepareReply(inner), ListenPort(m), Registering(RequestOf(inner)))
  }

  lemma RequestBecomesRegistration(m: Mobile, f: Node)
    requires IsAsking(m, f)
    ensures var q := BuildForeignRequest(m);
            && PacketType(q) == REQT_PKT_TYPE && Flags(q) == REQT_PKT_DIRECT_FROM_MU && Source(q) == 0
            && RequestOf(q) == Request(m.careOf, m.homePort, m.homeNetwork, 0, m.lifeTime)
    ensures var j := RegistrationOf(m, f);
            IsRegistration(j) && j.errand.r == Request(m.careOf, m.homePort, m.homeNetwork, f, m.lifeTime)
  {
    var q := BuildForeignRequest(m);
    ForeignRequestFields(m);
    NibbleRoundTrip(m.careOf);
    NibbleRoundTrip(m.homePort);
    NibbleRoundTrip(m.homeNetwork);
    NibbleRoundTrip(m.lifeTime);
    SameFields(q, DecodeRegistration(q));
    assert Source(q) == DecodeRegistration(q).source;
    RelayFields(q, f);
  }

  /** The mobile adopts the offered address and asks for it; the agent accepts exactly when
      the slot is free or already the mobile's, records it, and passes the request on. */
  lemma ArrivalIsHandled(v: AgentView, f: Node, m: Mobile, hears: int, asks: int, up: bool)
    requires IsNode(f) && IsArriving(m, f, hears) && UsableCareOf(FreeCareOf(v.fa.careOfs))
    ensures var (m', reaction) := OnForeign(m, MakeAdvertisement(f, true, false, v.fa), hears);
            var c := FreeCareOf(v.fa.careOfs);
            && m'.careOf == c && m'.foreignNetwork == f && m'.agent == f && m'.lifeTime == LIFE_TIME as int
            && m'.homePort == m.homePort && m'.homeNetwork == m.homeNetwork
            && reaction == Ask(BuildForeignRequest(m')) && IsAsking(m', f)
            && var (v', out) := RouterHandles(v, f, BuildForeignRequest(m'), asks, up);
               if MayTake(v.fa.rows[c], m.homePort, m.homeNetwork)
               then
                 && v'.fa.rows == v.fa.rows[c := ForeignRow(true, c, m.homePort, m.homeNetwork, 15, TRUE, asks)]
                 && v'.fa.careOfs[c - 1].taken && v'.ha == v.ha && v'.rip == v.rip
                 && out == RouteTo(v.rip.table, m.homeNetwork, RegistrationOf(m', f).inner)
               else (v', out) == (v, Refused)
  {
    var m' := OnForeign(m, MakeAdvertisement(f, true, false, v.fa), hears).0;
    HeardAsForeignIff(f, true, false, v.fa);
    assert LIFE_TIME as int == 15;
    RequestBecomesRegistration(m', f);
    DirectRequestIsHandled(v, f, BuildForeignRequest(m'), asks, up);
  }

  lemma DirectRequestIsHandled(v: AgentView, f: Node, q: Word, asks: int, up: bool)
    requires PacketType(q) == REQT_PKT_TYPE && Flags(q) == REQT_PKT_DIRECT_FROM_MU
    requires HomeAgent(q) as int != f && UsableCareOf(CareOf(q) as int)
    ensures RouterHandles(v, f, q, asks, up) == HandleDirect(v, f, q, asks)
  {
  }

  /** A mobile asking with an address that agent f offers or has given it. */
  predicate IsAsking(m: Mobile, f: Node) {
    && IsNode(f) && IsNode(m.homeNetwork) && m.homeNetwork != f && 1 <= m.homePort < SLOTS
    && UsableCareOf(m.careOf) && 0 <= m.lifeTime < 16 && m.foreignNetwork == f && m.agent == f
  }

  /** An accepted request sets its journey going. */
  lemma AcceptedIsOnCourse(g: Graph, w: World, f: Node, m: Mobile, asks: int)
    requires ValidGraph(g) && CleanInvariant(g, w.net) && IsAsking(m, f)
    requires MayTake(w.hosts[f].fa.rows[m.careOf], m.homePort, m.homeNetwork)
    requires Routable(w.net, f, m.homeNetwork) && Routable(w.net, m.homeNetwork, f)
    ensures var (w1, j) := (Asked(w, f, m, asks), RegistrationOf(m, f));
            && OnCourse(g, w1, j) && Left(w1, j) <= HopsLeft(w.net, f, j.home) + HopsLeft(w.net, j.home, f)
            && w1.net == w.net
            && w1.hosts[f].fa.careOfs[m.careOf - 1].taken
            && w1.hosts[f].fa.rows[m.careOf] ==
               ForeignRow(true, m.careOf, m.homePort, m.homeNetwork, m.lifeTime, TRUE, asks)
  {
    var fa := RegisterForeign(w.hosts[f].fa, Request(m.careOf, m.homePort, m.homeNetwork, 0, m.lifeTime), asks).0;
    AcceptedIsRecorded(w, f, m, asks);
    RegistrationSetsOut(g, w, f, m, fa);
  }

  lemma RegistrationSetsOut(g: Graph, w: World, f: Node, m: Mobile, fa: ForeignAgent)
    requires ValidGraph(g) && CleanInvariant(g, w.net) && IsAsking(m, f)
    requires Routable(w.net, f, m.homeNetwork) && Routable(w.net, m.homeNetwork, f)
    ensures var j := RegistrationOf(m, f);
            var w1 := World(w.net.(routers := w.net.routers[f := w.net.routers[f]]),
                            w.hosts[f := Host(fa, w.hosts[f].ha)],
                            FateOf(RouteTo(w.net.routers[f].table, j.home, j.inner)));
            && OnCourse(g, w1, j) && w1.net == w.net
            && Left(w1, j) <= HopsLeft(w.net, f, j.home) + HopsLeft(w.net, j.home, f)
  {
    RequestBecomesRegistration(m, f);
    ReplyBelongsTo(m, f);
    SetsOut(g, w, RegistrationOf(m, f), fa);
  }

  lemma AcceptedIsRecorded(w: World, f: Node, m: Mobile, asks: int)
    requires IsAsking(m, f) && MayTake(w.hosts[f].fa.rows[m.careOf], m.homePort, m.homeNetwork)
    ensures var j := RegistrationOf(m, f);
            var r := Request(m.careOf, m.homePort, m.homeNetwork, 0, m.lifeTime);
            Asked(w, f, m, asks) ==
            World(w.net.(routers := w.net.routers[f := w.net.routers[f]]),
                  w.hosts[f := Host(RegisterForeign(w.hosts[f].fa, r, asks).0, w.hosts[f].ha)],
                  FateOf(RouteTo(w.net.routers[f].table, j.home, j.inner)))
  {
    RequestBecomesRegistration(m, f);
    DirectRequestIsHandled(ViewAt(w, f), f, BuildForeignRequest(m), asks, true);
  }

  lemma SetsOut(g: Graph, w: World, j: Journey, fa: ForeignAgent)
    requires ValidGraph(g) && CleanInvariant(g, w.net) && IsNode(j.home) && IsNode(j.agent) && j.home != j.agent
    requires j.inner != j.outer && HomeKnows(j.errand, w.hosts[j.home].ha)
    requires Routable(w.net, j.agent, j.home) && Routable(w.net, j.home, j.agent)
    ensures var out := RouteTo(w.net.routers[j.agent].table, j.home, j.inner);
            var w1 := World(w.net.(routers := w.net.routers[j.agent := w.net.routers[j.agent]]),
                            w.hosts[j.agent := Host(fa, w.hosts[j.agent].ha)], FateOf(out));
            && OnCourse(g, w1, j) && w1.net == w.net
            && Left(w1, j) <= HopsLeft(w.net, j.agent, j.home) + HopsLeft(w.net, j.home, j.agent)
  {
    ForwardsCloser(g, w.net, j.agent, j.home, j.inner);
    assert w.net.routers[j.agent := w.net.routers[j.agent]] == w.net.routers;
  }

  /** The round trip: once accepted, a registration reaches the home agent over whatever
      routes hold, is recorded there with the mobile's care-of address and the foreign
      agent's id, and comes back within the two distances to the port the mobile
      listens on, with its home address, care-of address and lifetime. */
  lemma RegistrationCompletes(g: Graph, w: World, f: Node, m: Mobile, asks: int, moves: seq<Move>)
    requires ValidGraph(g) && CleanInvariant(g, w.net) && IsAsking(m, f)
    requires MayTake(w.hosts[f].fa.rows[m.careOf], m.homePort, m.homeNetwork)
    requires Routable(w.net, f, m.homeNetwork) && Routable(w.net, m.homeNetwork, f)
    requires CanRun(g, RouterHandles, Asked(w, f, m, asks), RegistrationOf(m, f), moves)
    ensures var w' := RunWorld(g, RouterHandles, Asked(w, f, m, asks), RegistrationOf(m, f), moves);
            var reply := RegistrationOf(m, f).outer;
            var bound := HopsLeft(w.net, f, m.homeNetwork) + HopsLeft(w.net, m.homeNetwork, f);
            && Processed(moves) <= bound && w'.fate != Lost
            && (Processed(moves) == bound ==> w'.fate == Delivered(ListenPort(m), reply))
            && ((w'.fate.Travelling? ==> w'.fate.packet == reply) ==>
                  IsBinding(w'.hosts[m.homeNetwork].ha[m.homePort],
                            Request(m.careOf, m.homePort, m.homeNetwork, f, m.lifeTime)))
            && HomeAddress(reply) as int == m.homePort && CareOf(reply) as int == m.careOf
            && LifeTime(reply) as int == m.lifeTime
            && Source(reply) as int == m.homeNetwork && Destination(reply) as int == f
  {
    var j := RegistrationOf(m, f);
    AcceptedIsOnCourse(g, w, f, m, asks);
    RequestBecomesRegistration(m, f);
    RegistrationIsCarriedOut(j);
    ReplyBelongsTo(m, f);
    JourneyEnds(g, RouterHandles, Asked(w, f, m, asks), j,
                HopsLeft(w.net, f, j.home) + HopsLeft(w.net, j.home, f), moves);
  }

  lemma ReplyBelongsTo(m: Mobile, f: Node)
    requires IsAsking(m, f)
    ensures var reply := RegistrationOf(m, f).outer;
            && HomeAddress(reply) as int == m.homePort && CareOf(reply) as int == m.careOf
            && LifeTime(reply) as int == m.lifeTime
            && Source(reply) as int == m.homeNetwork && Destination(reply) as int == f
            && PacketType(reply) == REPLY_PKT_TYPE && RegistrationOf(m, f).inner != reply
  {
    RequestBecomesRegistration(m, f);
    ReplyFields(RegistrationOf(m, f).inner);
  }

  /** The world once router f has handled the mobile's request. */
  function Asked(w: World, f: Node, m: Mobile, asks: int): World {
    var (v, out) := RouterHandles(ViewAt(w, f), f, BuildForeignRequest(m), asks, true);
    World(w.net.(routers := w.net.routers[f := v.rip]), w.hosts[f := Host(v.fa, v.ha)], FateOf(out))
  }

  /** Where the routes come from: after enough rounds of the protocol every network at hop
      count h is routable, and its distance allows exactly h hops. */
  lemma RoundsMakeRoutable(g: Graph, s: State, rounds: seq<seq<Step>>, more: seq<Step>, v: Node, n: Node, h: nat)
    requires ValidGraph(g) && Initial(g, s) && CompleteRounds(g, g, s, rounds)
    requires var s' := AfterRounds(g, g, s, rounds); Legal(g, s', more) && AllClean(more)
    requires 1 <= h <= RIP_MAX_HOP && HopCount(g, v, n, h) && h <= |rounds|
    ensures var net := Exec(g, AfterRounds(g, g, s, rounds), more);
            Routable(net, v, n) && HopsLeft(net, v, n) == h
  {
    Converges(g, s, rounds, more, v, n, h);
    assert !Walk(g, v, n, 0);
  }
}
