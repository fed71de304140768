/** The mobile unit: the requests and packets it builds, what it does with packets arriving
    at its care-of address, how it binds the port it listens on, and how it moves.  Its
    home network and port never change here. */
module Mobiles {
  import opened Wire
  import opened RoutingTables
  import opened Agents

  const COA_DISABLED := 50
  const LIFETIME := 15

  /** Where the moving thread is: about to go on; abroad with the care-of thread woken;
      waiting for a registration; registered; packed; de-registered; with the registration
      forgotten; or at home. */
  datatype Leg = Leaving | Turned | Waiting | Staying | Packing | Unlisted | Forgotten | AtHome

  /** agent is the router its requests go to, which stays the last one when it moves on.
      port is the port it last bound for its care-of address; careUp says whether the
      care-of thread runs, and listening whether that thread waits for a packet there. */
  datatype Mobile = Mobile(
    homePort: int, homeNetwork: int, foreignNetwork: int, agent: int, careOf: int,
    lifeTime: int, registerTime: int, failedWaits: nat,
    amRegistered: bool, wasRegistered: bool, moving: bool,
    atHome: bool, leg: Leg, port: int, careUp: bool, listening: bool)

  /** What it sends: a request to its agent, or a packet to the router of a network. */
  datatype Reaction = Nothing | Ask(packet: Word) | Post(network: int, packet: Word)

  function BuildHomeRequest(m: Mobile): Word {
    PutHomeAgent(PutHomeAddress(PutPacketType(0, REQT_PKT_TYPE), ToWord(m.homePort)), ToWord(m.homeNetwork))
  }

  function BuildDeregistration(m: Mobile): Word {
    PutCareOf(PutPacketType(0, REQT_PKT_TYPE), ToWord(m.careOf))
  }

  lemma HomeWords(port: Word, network: Word, careOf: Word)
    requires port < 16 && network < 16 && careOf < 16
    ensures DecodeRegistration(PutHomeAgent(PutHomeAddress(PutPacketType(0, REQT_PKT_TYPE), port), network)) ==
            Registration(REQT_PKT_TYPE, REQT_PKT_DEREGISTER, 0, port, network, 0, 0, 0, 0)
    ensures DecodeRegistration(PutCareOf(PutPacketType(0, REQT_PKT_TYPE), careOf)) ==
            Registration(REQT_PKT_TYPE, REQT_PKT_DEREGISTER, 0, 0, 0, careOf, 0, 0, 0)
  {
  }

  /** The other two requests: at home the mobile says who it is, and leaving it names just the
      address it gives up. */
  lemma PlainRequestFields(m: Mobile)
    requires FitsRequest(m)
    ensures DecodeRegistration(BuildHomeRequest(m)) ==
            Registration(REQT_PKT_TYPE, REQT_PKT_DEREGISTER, 0, ToWord(m.homePort), ToWord(m.homeNetwork), 0, 0, 0, 0)
    ensures DecodeRegistration(BuildDeregistration(m)) ==
            Registration(REQT_PKT_TYPE, REQT_PKT_DEREGISTER, 0, 0, 0, ToWord(m.careOf), 0, 0, 0)
  {
    NibbleRoundTrip(m.homePort);
    NibbleRoundTrip(m.homeNetwork);
    NibbleRoundTrip(m.careOf);
    HomeWords(ToWord(m.homePort), ToWord(m.homeNetwork), ToWord(m.careOf));
  }

  function BuildForeignRequest(m: Mobile): Word {
    PutLifeTime(
      PutHomeAgent(
        PutHomeAddress(
          PutCareOf(
            PutPacketType(
              PutFlags(PutDestination(0, ToWord(m.homeNetwork)), REQT_PKT_DIRECT_FROM_MU), REQT_PKT_TYPE),
            ToWord(m.careOf)),
          ToWord(m.homePort)),
        ToWord(m.homeNetwork)),
      ToWord(m.lifeTime))
  }

  predicate FitsRequest(m: Mobile) {
    0 <= m.homePort < 16 && 0 <= m.homeNetwork < 16 && 0 <= m.careOf < 16 && 0 <= m.lifeTime < 16
  }

  lemma RequestWords(port: Word, network: Word, careOf: Word, life: Word)
    requires port < 16 && network < 16 && careOf < 16 && life < 16
    ensures DecodeRegistration(
              PutLifeTime(PutHomeAgent(PutHomeAddress(PutCareOf(PutPacketType(PutFlags(PutDestination(0, network),
                REQT_PKT_DIRECT_FROM_MU), REQT_PKT_TYPE), careOf), port), network), life)) ==
            Registration(REQT_PKT_TYPE, REQT_PKT_DIRECT_FROM_MU, life, port, network, careOf, 0, 0, network)
  {
  }

  /** The request says who the mobile is and leaves the source for the agent to fill in. */
  lemma ForeignRequestFields(m: Mobile)
    requires FitsRequest(m)
    ensures DecodeRegistration(BuildForeignRequest(m)) ==
            Registration(REQT_PKT_TYPE, REQT_PKT_DIRECT_FROM_MU, ToWord(m.lifeTime), ToWord(m.homePort),
                         ToWord(m.homeNetwork), ToWord(m.careOf), 0, 0, ToWord(m.homeNetwork))
  {
    NibbleRoundTrip(m.homePort);
    NibbleRoundTrip(m.homeNetwork);
    NibbleRoundTrip(m.careOf);
    NibbleRoundTrip(m.lifeTime);
    RequestWords(ToWord(m.homePort), ToWord(m.homeNetwork), ToWord(m.careOf), ToWord(m.lifeTime));
  }

  /** An IP packet, with the care-of address in the outer source fields. */
  function MobilePacket(m: Mobile, network: int, destination: int): Word {
    PutIpDestinationNetwork(
      PutIpDestinationInterface(
        PutIpSourceInterface(
          PutIpSourceInterface(
            PutIpSourceNetwork(
              PutIpSourceNetwork(PutPacketType(0, IP_PKT_TYPE), ToWord(m.homeNetwork), false),
              if m.atHome then ToWord(0) else ToWord(m.foreignNetwork), true),
            ToWord(m.homePort), false),
          ToWord(m.careOf), true),
        ToWord(destination), false),
      ToWord(network), false)
  }

  /** The port of its care-of address, where it should be listening. */
  function ListenPort(m: Mobile): int {
    m.foreignNetwork * 1000 + PORT_CLEAR + m.careOf
  }

  predicate StillRegistered(m: Mobile, now: int) {
    m.lifeTime != 0 && now - m.registerTime < m.lifeTime
  }

  /** Taking an advertisement: a mobile not yet registered here adopts the offered address,
      one whose registration ran out asks again for the address it has. */
  function TakeAdvertisement(m: Mobile, p: Word): Mobile {
    var adopted :=
      if m.wasRegistered then m
      else m.(lifeTime := IcmpLifeTime(p) as int, foreignNetwork := IcmpSource(p) as int, agent := IcmpSource(p) as int,
              careOf := IcmpCareOf(p) as int);
    adopted.(failedWaits := m.failedWaits + 1)
  }

  /** Sending a packet: abroad with its lifetime over the mobile only asks again. */
  function SendIp(m: Mobile, network: int, destination: int, now: int): (Mobile, Reaction) {
    if now - m.registerTime >= LIFETIME && !m.atHome
    then (m.(amRegistered := false), Ask(BuildForeignRequest(m)))
    else if !m.atHome && !m.amRegistered then (m, Nothing)
    else (m, Post(if m.atHome then m.homeNetwork else m.foreignNetwork, MobilePacket(m, network, destination)))
  }

  /** A packet taken on the care-of port: an advertisement, a reply, whatever it says, or an
      IP packet, which is answered. */
  function OnForeign(m: Mobile, p: Word, now: int): (Mobile, Reaction) {
    if PacketType(p) == ICMP_PKT_TYPE then
      if AgentType(IcmpFlags(p)) == ICMP_AGT_FGN && !m.moving && !StillRegistered(m, now)
      then (TakeAdvertisement(m, p), Ask(BuildForeignRequest(TakeAdvertisement(m, p))))
      else (m, Nothing)
    else if PacketType(p) == REPLY_PKT_TYPE then
      (m.(amRegistered := true, wasRegistered := true, registerTime := now), Nothing)
    else if PacketType(p) == IP_PKT_TYPE && m.amRegistered then
      SendIp(m, IpSourceNetwork(p, false) as int, IpSourceInterface(p, false) as int, now)
    else (m, Nothing)
  }

  /** Binding the port: while it is taken, another address is drawn.  False when the draws
      run out with the loop still trying. */
  function BindFree(m: Mobile, busy: set<int>, draws: seq<int>): (Mobile, bool)
    decreases |draws|
  {
    if ListenPort(m) !in busy then (m.(port := ListenPort(m), listening := true), true)
    else if draws == [] then (m, false)
    else BindFree(m.(careOf := draws[0]), busy, draws[1..])
  }

  /** Between two packets the care-of thread binds again if its address has changed. */
  function Rebind(m: Mobile, busy: set<int>, draws: seq<int>): (Mobile, bool) {
    if ListenPort(m) == m.port then (m.(listening := true), true) else BindFree(m, busy, draws)
  }

  /** Once bound, the mobile listens where its address says, and it still has the address it
      wanted exactly when that was bound already or free, or drawn again. */
  lemma {:induction false} RebindListens(m: Mobile, busy: set<int>, draws: seq<int>)
    requires Rebind(m, busy, draws).1
    ensures var m' := Rebind(m, busy, draws).0;
            && m'.listening && m'.port == ListenPort(m')
            && (m'.port == m.port || m'.port !in busy)
            && (m'.careOf == m.careOf || (m'.careOf in draws && ListenPort(m) != m.port && ListenPort(m) in busy))
            && m' == m.(careOf := m'.careOf, port := m'.port, listening := true)
  {
    if ListenPort(m) != m.port {
      BindFreeListens(m, busy, draws);
    }
  }

  lemma {:induction false} BindFreeListens(m: Mobile, busy: set<int>, draws: seq<int>)
    requires BindFree(m, busy, draws).1
    ensures var m' := BindFree(m, busy, draws).0;
            && m'.listening && m'.port == ListenPort(m') && m'.port !in busy
            && (m'.careOf == m.careOf || (m'.careOf in draws && ListenPort(m) in busy))
            && m' == m.(careOf := m'.careOf, port := m'.port, listening := true)
    decreases |draws|
  {
    if ListenPort(m) in busy {
      BindFreeListens(m.(careOf := draws[0]), busy, draws[1..]);
    }
  }

  /** The address it ends up with is the first of its own and the drawn ones whose port is
      free. */
  lemma {:induction false} BindsFirstFree(m: Mobile, busy: set<int>, draws: seq<int>, k: nat)
    requires k <= |draws|
    requires var tried := [m.careOf] + draws;
             && (forall i | 0 <= i < k :: m.foreignNetwork * 1000 + 7000 + tried[i] in busy)
             && m.foreignNetwork * 1000 + 7000 + tried[k] !in busy
    ensures BindFree(m, busy, draws).1 && BindFree(m, busy, draws).0.careOf == ([m.careOf] + draws)[k]
    decreases k
  {
    var tried := [m.careOf] + draws;
    if k > 0 {
      var rest := [draws[0]] + draws[1..];
      assert m.foreignNetwork * 1000 + 7000 + tried[0] in busy;
      assert forall i | 0 <= i < k :: rest[i] == tried[i + 1];
      BindsFirstFree(m.(careOf := draws[0]), busy, draws[1..], k - 1);
    }
  }

  /** The moving thread waits for its flag before it settles down. */
  predicate CanMove(m: Mobile) {
    m.leg == Waiting ==> m.amRegistered
  }

  /** The next part of the moving thread's work, up to where another thread can come
      between; network is the next place on its path. */
  function AfterMove(m: Mobile, network: int): Mobile {
    match m.leg
    case Leaving =>
      if network == m.homeNetwork then m.(atHome := true, careUp := false, leg := AtHome)
      else m.(atHome := false, foreignNetwork := network, failedWaits := 0, leg := Turned)
    case Turned => m.(moving := false, leg := Waiting)
    case Waiting => m.(leg := Staying)
    case Staying => m.(moving := true, leg := Packing)
    case Packing => m.(amRegistered := false, leg := Unlisted)
    case Unlisted => m.(lifeTime := 0, wasRegistered := false, leg := Forgotten)
    case Forgotten => m.(amRegistered := false, leg := Leaving)
    case AtHome => m.(amRegistered := false, careUp := true, leg := Leaving)
  }

  /** A registered mobile gives its address up before it leaves. */
  function MoveOn(m: Mobile, network: int): (Mobile, Reaction) {
    (AfterMove(m, network), if m.leg == Packing && m.amRegistered then Ask(BuildDeregistration(m)) else Nothing)
  }

  /** As a mobile starts out: at home, with an address drawn but not bound.  Its agent and
      the time it registered at are not set. */
  predicate Started(m: Mobile) {
    && 1 <= m.homePort < SLOTS && 1 <= m.homeNetwork < 16 && 1 <= m.careOf < SLOTS
    && m == Mobile(m.homePort, m.homeNetwork, COA_DISABLED, m.agent, m.careOf, 0, m.registerTime, 0,
                   false, false, false, true, Leaving, 0, false, false)
  }

  /** How an advertisement is heard: as a home agent's exactly when the router is one, as a
      foreign agent's exactly when it is one and no home agent as well.  A foreign agent of
      either kind offers the free address, if there is one. */
  lemma HeardAsForeignIff(me: nat, foreign: bool, home: bool, fa: ForeignAgent)
    requires me < 16 && (FreeCareOf(fa.careOfs) == ERR || 1 <= FreeCareOf(fa.careOfs) <= SLOTS)
    ensures var (p, free) := (MakeAdvertisement(me, foreign, home, fa), FreeCareOf(fa.careOfs));
            && PacketType(p) == ICMP_PKT_TYPE && IcmpSource(p) as int == me
            && (AgentType(IcmpFlags(p)) == ICMP_AGT_FGN <==> foreign && !home)
            && (AgentType(IcmpFlags(p)) == ICMP_AGT_HME <==> home)
            && IcmpCareOf(p) as int == (if foreign && free != ERR then free else 0)
            && IcmpLifeTime(p) == (if foreign && (home || free != ERR) then 15 else 0)
  {
    var free := FreeCareOf(fa.careOfs);
    NibbleRoundTrip(me);
    if free != ERR {
      NibbleRoundTrip(free);
      OfferWords(ToWord(me), ToWord(free));
    }
    BareWords(ToWord(me));
  }

  lemma BareWords(me: Word)
    requires me < 16
    ensures var base := PutIcmpSource(PutPacketType(0, ICMP_PKT_TYPE), me);
            && PacketType(base) == ICMP_PKT_TYPE && IcmpSource(base) == me && IcmpFlags(base) == 0
            && IcmpCareOf(base) == 0 && IcmpLifeTime(base) == 0
            && (forall flags: Word | flags < 8 ::
                  var p := PutIcmpFlags(base, flags);
                  PacketType(p) == ICMP_PKT_TYPE && IcmpSource(p) == me && IcmpFlags(p) == flags &&
                  IcmpCareOf(p) == 0 && IcmpLifeTime(p) == 0)
            && (var p := PutIcmpFlags(PutIcmpLifeTime(PutIcmpFlags(base, ICMP_AGT_HME), LIFE_TIME),
                                      ICMP_AGT_HME | ICMP_AGT_FGN);
                PacketType(p) == ICMP_PKT_TYPE && IcmpSource(p) == me && IcmpFlags(p) == 6 &&
                IcmpCareOf(p) == 0 && IcmpLifeTime(p) == LIFE_TIME)
  {
  }

  lemma OfferWords(me: Word, free: Word)
    requires me < 16 && free < 16
    ensures var base := PutIcmpSource(PutPacketType(0, ICMP_PKT_TYPE), me);
            && (var p := PutIcmpLifeTime(PutIcmpCareOf(PutIcmpFlags(base, ICMP_AGT_FGN), free), LIFE_TIME);
                && PacketType(p) == ICMP_PKT_TYPE && IcmpSource(p) == me && IcmpFlags(p) == ICMP_AGT_FGN
                && IcmpCareOf(p) == free && IcmpLifeTime(p) == LIFE_TIME)
            && (var p := PutIcmpCareOf(PutIcmpFlags(PutIcmpLifeTime(PutIcmpFlags(base, ICMP_AGT_HME), LIFE_TIME),
                                                    ICMP_AGT_HME | ICMP_AGT_FGN), free);
                && PacketType(p) == ICMP_PKT_TYPE && IcmpSource(p) == me && IcmpFlags(p) == 6
                && IcmpCareOf(p) == free && IcmpLifeTime(p) == LIFE_TIME)
  {
  }

  class MobileUnit {
    const homePort: int
    const homeNetwork: int
    var foreignNetwork: int
    var agent: int
    var careOf: int
    var lifeTime: int
    var registerTime: int
    var failedWaits: nat
    var amRegistered: bool
    var wasRegistered: bool
    var moving: bool
    var atHome: bool
    var leg: Leg
    var port: int
    var careUp: bool
    var listening: bool

    function View(): Mobile
      reads this
    {
      Mobile(homePort, homeNetwork, foreignNetwork, agent, careOf, lifeTime, registerTime, failedWaits,
             amRegistered, wasRegistered, moving, atHome, leg, port, careUp, listening)
    }

    /** The agent and the time of registration stay unset until there is one. */
    constructor (homePort: int, homeNetwork: int, careOf: int)
      requires 1 <= homePort < SLOTS && 1 <= homeNetwork < 16 && 1 <= careOf < SLOTS
      ensures Started(View()) && View().homePort == homePort && View().homeNetwork == homeNetwork
      ensures View().careOf == careOf
    {
      this.homePort, this.homeNetwork, this.careOf := homePort, homeNetwork, careOf;
      foreignNetwork := COA_DISABLED;
      lifeTime, failedWaits, port := 0, 0, 0;
      amRegistered, wasRegistered, moving := false, false, false;
      atHome, leg, careUp, listening := true, Leaving, false, false;
    }

    method SetForeignAgent(p: Word)
      modifies this`lifeTime, this`foreignNetwork, this`agent
      ensures lifeTime == IcmpLifeTime(p) as int && foreignNetwork == IcmpSource(p) as int == agent
    {
      lifeTime := IcmpLifeTime(p) as int;
      foreignNetwork := IcmpSource(p) as int;
      agent := foreignNetwork;
    }

    method TakeOffer(p: Word)
      modifies this
      ensures View() == TakeAdvertisement(old(View()), p)
    {
      if !wasRegistered && failedWaits == 0 {
        SetForeignAgent(p);
        careOf := IcmpCareOf(p) as int;
      } else if failedWaits > 0 && !wasRegistered {
        SetForeignAgent(p);
        careOf := IcmpCareOf(p) as int;
      }
      failedWaits := failedWaits + 1;
    }

    method SendIpPacket(network: int, destination: int, now: int) returns (reaction: Reaction)
      modifies this`amRegistered
      ensures (View(), reaction) == SendIp(old(View()), network, destination, now)
    {
      reaction := Nothing;
      if now - registerTime >= LIFETIME {
        if !atHome {
          amRegistered := false;
          reaction := Ask(BuildForeignRequest(View()));
        }
      }
      if !atHome {
        if !amRegistered {
          return;
        }
      }
      reaction := Post(if !atHome then foreignNetwork else homeNetwork, MobilePacket(View(), network, destination));
    }

    method CallbackForeign(p: Word, now: int) returns (reaction: Reaction)
      modifies this
      ensures (View(), reaction) == OnForeign(old(View()), p, now)
    {
      reaction := Nothing;
      if PacketType(p) == ICMP_PKT_TYPE {
        if AgentType(IcmpFlags(p)) == ICMP_AGT_FGN {
          if moving {
            return;
          }
          if lifeTime == 0 || now - registerTime >= lifeTime {
            TakeOffer(p);
            reaction := Ask(BuildForeignRequest(View()));
          }
        }
      } else if PacketType(p) == REPLY_PKT_TYPE {
        amRegistered, wasRegistered := true, true;
        registerTime := now;
      } else if PacketType(p) == IP_PKT_TYPE {
        if amRegistered {
          reaction := SendIpPacket(IpSourceNetwork(p, false) as int, IpSourceInterface(p, false) as int, now);
        }
      }
    }

    /** One turn of the care-of thread's loop, up to waiting for a packet. */
    method BringUpCareOf(busy: set<int>, draws: seq<int>) returns (bound: bool)
      modifies this`careOf, this`port, this`listening
      ensures (View(), bound) == Rebind(old(View()), busy, draws)
    {
      if ListenPort(View()) != port {
        bound := BindPort(busy, draws);
        return;
      }
      listening := true;
      return true;
    }

    method BindPort(busy: set<int>, draws: seq<int>) returns (bound: bool)
      modifies this`careOf, this`port, this`listening
      ensures (View(), bound) == BindFree(old(View()), busy, draws)
    {
      var drawn := 0;
      while ListenPort(View()) in busy
        invariant drawn <= |draws|
        invariant View() == old(View()).(careOf := careOf)
        invariant BindFree(old(View()), busy, draws) == BindFree(View(), busy, draws[drawn..])
        decreases |draws| - drawn
      {
        if drawn == |draws| {
          return false;
        }
        careOf := draws[drawn];
        drawn := drawn + 1;
      }
      port := ListenPort(View());
      listening := true;
      return true;
    }

    method GoTo(network: int)
      requires leg == Leaving
      modifies this
      ensures View() == AfterMove(old(View()), network)
    {
      if network != homeNetwork {
        atHome := false;
        foreignNetwork := network;
        failedWaits := 0;
        leg := Turned;
      } else {
        atHome := true;
        careUp := false;
        leg := AtHome;
      }
    }

    /** The mobile's moving thread, one part at a time. */
    method Move(network: int) returns (reaction: Reaction)
      requires CanMove(View())
      modifies this
      ensures (View(), reaction) == MoveOn(old(View()), network)
    {
      reaction := Nothing;
      match leg {
        case Leaving =>
          GoTo(network);
        case Turned =>
          moving := false;
          leg := Waiting;
        case Waiting =>
          leg := Staying;
        case Staying =>
          moving := true;
          leg := Packing;
        case Packing =>
          if amRegistered {
            reaction := Ask(BuildDeregistration(View()));
            amRegistered := false;
          }
          leg := Unlisted;
        case Unlisted =>
          lifeTime := 0;
          wasRegistered := false;
          leg := Forgotten;
        case Forgotten =>
          amRegistered := false;
          leg := Leaving;
        case AtHome =>
          careUp := true;
          amRegistered := false;
          leg := Leaving;
      }
    }
  }
}
