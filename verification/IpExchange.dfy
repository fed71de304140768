/** IP packets and their answers: the hand-over at home, which router a mobile sends by, and
    the answer to a packet that came through the tunnel. */
module IpExchange {
  import opened Wire
  import opened RipNetwork
  import opened RipCleanRuns
  import opened Agents
  import opened Mobiles
  import opened Journeys
  import opened Trips
  import opened MobileIp

  // ----- to a host on its own network --------------------------------------------------

  /** What each router makes of an untunnelled packet whose host answers. */
  lemma PlainIpAt(v: AgentView, r: Node, p: Word, n: Node, d: nat, now: int, up: bool)
    requires IsPlainIp(p, n, d) && n < 8 && d < SLOTS
    ensures r != n ==> RouterHandles(v, r, p, now, up) == (v, RouteTo(v.rip.table, n, p))
    ensures r == n && up ==> RouterHandles(v, r, p, now, up) == (v, ToMobile(n * 1000 + 7000 + d, p))
  {
  }

  lemma PlainIpIsHandedOver(p: Word, n: Node, d: nat)
    requires IsPlainIp(p, n, d) && n < 8 && d < SLOTS
    ensures HandsOver(RouterHandles, n, p, n * 1000 + 7000 + d)
  {
    forall v: AgentView, r: Node, now: int, up: bool
      ensures r != n ==> RouterHandles(v, r, p, now, up) == (v, RouteTo(v.rip.table, n, p))
      ensures r == n && up ==> RouterHandles(v, r, p, now, up) == (v, ToMobile(n * 1000 + 7000 + d, p))
    {
      PlainIpAt(v, r, p, n, d, now, up);
    }
  }

  /** A correspondent's packet for a host that is at home goes to the port of its home
      interface there. */
  lemma HandedOverAtHome(v: AgentView, sourceNetwork: int, source: int, n: Node, d: nat, now: int)
    requires 0 <= sourceNetwork < 8 && 0 <= source < 16 && 1 <= n < 8 && d < SLOTS
    ensures var p := CorrespondentPacket(sourceNetwork, source, n, d);
            RouterHandles(v, n, p, now, true) == (v, ToMobile(n * 1000 + 7000 + d, p))
  {
    CorrespondentIsPlain(sourceNetwork, source, n, d);
    PlainIpAt(v, n, CorrespondentPacket(sourceNetwork, source, n, d), n, d, now, true);
  }

  lemma CorrespondentIsPlain(sourceNetwork: int, source: int, n: int, d: int)
    requires 0 <= sourceNetwork < 8 && 0 <= source < 16 && 0 <= n < 8 && 0 <= d < 16
    ensures IsPlainIp(CorrespondentPacket(sourceNetwork, source, n, d), n, d)
    ensures IsFrom(CorrespondentPacket(sourceNetwork, source, n, d), sourceNetwork, source)
  {
    FieldFits(sourceNetwork, source);
    FieldFits(n, d);
    CorrespondentWords(ToWord(sourceNetwork), ToWord(source), ToWord(n), ToWord(d));
  }

  /** From any router with a route the packet reaches the host's port, untunnelled and
      unchanged, within the distance; it is never dropped on the way. */
  lemma PlainIpArrives(g: Graph, w: World, p: Word, n: Node, d: nat, moves: seq<Move>)
    requires ValidGraph(g) && CleanInvariant(g, w.net) && IsPlainIp(p, n, d) && 1 <= n < 8 && d < SLOTS
    requires w.fate.Travelling? && w.fate.packet == p && Routable(w.net, w.fate.at, n)
    requires CanGo(g, RouterHandles, w, n, moves)
    ensures var (w', bound) := (AfterTrip(g, RouterHandles, w, n, moves), HopsLeft(w.net, w.fate.at, n) + 1);
            && bound <= 13 && Processed(moves) <= bound && w'.fate != Lost
            && (Processed(moves) == bound ==> w'.fate == Delivered(n * 1000 + 7000 + d, p))
            && (w'.fate.Travelling? ==> w'.fate.packet == p)
  {
    PlainIpIsHandedOver(p, n, d);
    TripLeftBound(g, w, n, p, n * 1000 + 7000 + d);
    TripCompletes(g, RouterHandles, w, n, p, n * 1000 + 7000 + d, moves);
  }

  /** A tunnelled packet whose mobile does not answer at the agent ends there: it is not
      tunnelled again or sent back. */
  lemma TunnelEndsAtAgent(v: AgentView, r: Node, p: Word, now: int)
    requires PacketType(p) == IP_PKT_TYPE && IsTunneled(p) && IpNetwork(p) == r
    ensures RouterHandles(v, r, p, now, false) == (v, Refused)
  {
  }

  // ----- which router a mobile sends by --------------------------------------------------

  predicate HasIpAddresses(m: Mobile) {
    && 0 <= m.homeNetwork < 8 && 0 <= m.homePort < 16 && 0 <= m.careOf < 16
    && (!m.atHome ==> 0 <= m.foreignNetwork < 8)
  }

  /** Abroad, a mobile sends only while registered and within fifteen seconds of that, to the
      router of the network it is on; later it asks again instead, and lowers its flag.  At
      home it sends to its home router at any time. */
  lemma SendsByItsGateway(m: Mobile, network: int, destination: int, now: int)
    requires HasIpAddresses(m) && 0 <= network < 8 && 0 <= destination < 16
    ensures var ((m', reaction), late) := (SendIp(m, network, destination, now), now - m.registerTime >= 15);
            if !m.atHome && late then m' == m.(amRegistered := false) && reaction == Ask(BuildForeignRequest(m))
            else if !m.atHome && !m.amRegistered then m' == m && reaction == Nothing
            else
              && m' == m && reaction.Post?
              && reaction.network == (if m.atHome then m.homeNetwork else m.foreignNetwork)
              && IsPlainIp(reaction.packet, network, destination)
              && IsFrom(reaction.packet, m.homeNetwork, m.homePort)
  {
    BuiltPacketsArePlain(m, 0, 0, network, destination);
  }

  // ----- the answer ----------------------------------------------------------------------

  /** A packet from correspondent (sn, s), handed to the mobile through the tunnel, is answered
      by one for (sn, s), from the mobile's home address, by the router of its network. */
  lemma AnswersThroughTunnel(j: Journey, slot: nat, row: HomeRow, sn: int, s: int, m: Mobile, now: int)
    requires IsDelivery(j, slot, row) && 0 <= sn < 8 && 0 <= s < 16
    requires j.inner == CorrespondentPacket(sn, s, j.home, slot)
    requires HasIpAddresses(m) && m.amRegistered && !m.atHome && now - m.registerTime < 15
    ensures var (m', reaction) := OnForeign(m, j.outer, now);
            && m' == m && reaction.Post? && reaction.network == m.foreignNetwork
            && IsPlainIp(reaction.packet, sn, s) && IsFrom(reaction.packet, m.homeNetwork, m.homePort)
  {
    CorrespondentIsPlain(sn, s, j.home, slot);
    InnerShowsThrough(j, slot, row);
    OuterIsIp(j, slot, row);
    SendsByItsGateway(m, sn, s, now);
    AnswersSender(m, j.outer, now);
  }

  lemma OuterIsIp(j: Journey, slot: nat, row: HomeRow)
    requires IsDelivery(j, slot, row)
    ensures PacketType(j.outer) == IP_PKT_TYPE
  {
    DeliveryOuter(j, slot, row);
  }

  lemma AnswersSender(m: Mobile, p: Word, now: int)
    requires PacketType(p) == IP_PKT_TYPE && m.amRegistered
    ensures OnForeign(m, p, now) ==
            SendIp(m, IpSourceNetwork(p, false) as int, IpSourceInterface(p, false) as int, now)
  {
  }

  /** ... and from there it arrives: both ways the correspondent and the mobile exchange packets
      under their permanent addresses. */
  lemma AnswerArrives(g: Graph, w: World, j: Journey, slot: nat, row: HomeRow, sn: Node, s: nat, m: Mobile, now: int,
                      moves: seq<Move>)
    requires ValidGraph(g) && CleanInvariant(g, w.net) && IsDelivery(j, slot, row) && 1 <= sn < 8 && s < SLOTS
    requires j.inner == CorrespondentPacket(sn, s, j.home, slot)
    requires HasIpAddresses(m) && m.amRegistered && !m.atHome && now - m.registerTime < 15 && IsNode(m.foreignNetwork)
    requires OnForeign(m, j.outer, now).1.Post?
    requires w.fate == Travelling(m.foreignNetwork, OnForeign(m, j.outer, now).1.packet)
    requires Routable(w.net, m.foreignNetwork, sn) && CanGo(g, RouterHandles, w, sn, moves)
    ensures var (w', bound) := (AfterTrip(g, RouterHandles, w, sn, moves), HopsLeft(w.net, m.foreignNetwork, sn) + 1);
            && Processed(moves) <= bound && w'.fate != Lost
            && (Processed(moves) == bound ==>
                  w'.fate == Delivered(sn * 1000 + 7000 + s, OnForeign(m, j.outer, now).1.packet))
  {
    AnswersThroughTunnel(j, slot, row, sn, s, m, now);
    PlainIpArrives(g, w, OnForeign(m, j.outer, now).1.packet, sn, s, moves);
  }
}
