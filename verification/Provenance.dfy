/** Where registrations come from.  Any number of mobiles and agents, packets duplicated and
    delivered in any order over any routes: every binding and reply, and whatever made a
    mobile take itself for registered, traces back to a registration an agent accepted. */
module Provenance {
  import opened Wire
  import opened RipRouters
  import opened RipNetwork
  import opened Agents
  import opened Mobiles
  import opened CareOfAddresses
  import opened MobileIp

  /** History: agent accepted a mobile in its table; homeAgent bound a mobile to agent. */
  datatype Happening =
    | Accepted(agent: int, careOf: int, home: int, homeAgent: int)
    | Bound(homeAgent: int, home: int, careOf: int, agent: int)

  datatype Envelope = Envelope(router: int, packet: Word)
  datatype Handed = Handed(port: int, packet: Word)

  type ForeignAgents = a: seq<ForeignAgent> | |a| == IDS witness seq(IDS, _ => EMPTY_AGENT)
  type HomeAgents = a: seq<HomeRows> | |a| == IDS
    witness seq(IDS, _ => seq(SLOTS, _ => HomeRow(false, 0, 0, 0, 0, 0, 0)))

  /** A mobile, and the reply it took last and the port it took it on. */
  datatype Roamer = Roamer(unit: Mobile, last: Handed)

  /** sent and handed hold everything ever sent to a router or to a port: repeated requests
      bring repeated replies. */
  datatype Life = Life(fas: ForeignAgents, has: HomeAgents, roamers: seq<Roamer>, sent: set<Envelope>,
                       handed: set<Handed>, log: set<Happening>)

  datatype LifeStep =
    /** A mobile's care-of thread takes a packet: a reply handed to the port it listens on, or
        any other packet, whatever it says (the empty one wakes it after a move). */
    | Takes(mobile: nat, packet: Word, now: int)
    /** ... and then goes on listening, on another port if its address has changed. */
    | Binds(mobile: nat, busy: set<int>, draws: seq<int>)
    /** Its moving thread does the next part of its work. */
    | Moves(mobile: nat, network: int)
    /** It sends an IP packet for its user, or asks its home agent to register it. */
    | Posts(mobile: nat, network: int, destination: int, now: int)
    | GoesHome(mobile: nat)
    /** A router handles a packet once sent to it, with whatever routes it has then. */
    | Handles(router: Node, packet: Word, rip: RouterView, now: int, up: bool)
    | Sweeps(router: Node, now: int)

  /** Two mobiles do not bind one port. */
  predicate HoldsOthers(s: Life, i: nat, busy: set<int>) {
    forall k | 0 <= k < |s.roamers| && k != i && s.roamers[k].unit.port != 0 :: s.roamers[k].unit.port in busy
  }

  predicate Possible(s: Life, step: LifeStep) {
    match step
    case Takes(i, p, _) =>
      && i < |s.roamers| && s.roamers[i].unit.listening
      && (PacketType(p) == REPLY_PKT_TYPE ==> Handed(s.roamers[i].unit.port, p) in s.handed)
    case Binds(i, busy, draws) =>
      && i < |s.roamers| && s.roamers[i].unit.careUp && !s.roamers[i].unit.listening
      && (forall c <- draws :: UsableCareOf(c)) && HoldsOthers(s, i, busy)
      && Rebind(s.roamers[i].unit, busy, draws).1
    case Moves(i, network) => i < |s.roamers| && CanMove(s.roamers[i].unit) && 0 <= network < 16
    case Posts(i, network, destination, _) => i < |s.roamers| && 0 <= network < 8 && 0 <= destination < 16
    case GoesHome(i) => i < |s.roamers|
    case Handles(r, p, _, _, _) => IsNode(r) && Envelope(r, p) in s.sent && InBounds(p, r)
    case Sweeps(_, _) => true
  }

  /** What a router's handling of p adds to the history. */
  function Happens(fa: ForeignAgent, r: Node, p: Word): set<Happening>
    requires InBounds(p, r)
  {
    var q := RequestOf(p);
    if PacketType(p) != REQT_PKT_TYPE then {}
    else if q.agent == r then {Bound(r, q.home, q.careOf, q.source)}
    else if Flags(p) == REQT_PKT_DIRECT_FROM_MU && MayTake(fa.rows[q.careOf], q.home, q.agent)
    then {Accepted(r, q.careOf, q.home, q.agent)}
    else {}
  }

  predicate Wrote(v: AgentView, v': AgentView, r: Node, life: int, now: int, h: Happening) {
    match h
    case Accepted(agent, careOf, home, homeAgent) =>
      && agent == r && UsableCareOf(careOf) && MayTake(v.fa.rows[careOf], home, homeAgent)
      && v'.fa.rows == v.fa.rows[careOf := ForeignRow(true, careOf, home, homeAgent, life, TRUE, now)]
      && v'.fa.careOfs[careOf - 1].taken && v'.ha == v.ha
    case Bound(homeAgent, home, careOf, agent) =>
      && homeAgent == r && 0 <= home < SLOTS && v'.fa == v.fa
      && v'.ha == v.ha[home := HomeRow(true, home, careOf, agent, r, now, TRUE)]
  }

  /** Nothing registered: at most clocks restarted and slots given up. */
  predicate WroteNothing(v: AgentView, v': AgentView) {
    && v'.ha == v.ha && v'.fa.careOfs == v.fa.careOfs
    && forall i | 0 <= i < SLOTS && (v'.fa.rows[i].used || v'.fa.rows[i].registered == TRUE) ::
         v'.fa.rows[i] == v.fa.rows[i].(since := v'.fa.rows[i].since)
  }

  /** The history is about the tables: with a happening the router writes just the slot it
      names with the values it names ... */
  lemma HappeningsAreWrites(v: AgentView, r: Node, p: Word, now: int, up: bool, h: Happening)
    requires IsNode(r) && InBounds(p, r) && h in Happens(v.fa, r, p)
    ensures Wrote(v, Handle(v, r, p, now, up).0, r, RequestOf(p).life, now, h)
  {
    var q := RequestOf(p);
    if q.agent == r {
      BindingIsWritten(v, r, p, now, up);
    } else {
      DirectRequestIsHandled(v, r, p, now, up);
      AcceptanceIsWritten(v, r, p, now);
    }
  }

  lemma BindingIsWritten(v: AgentView, r: Node, p: Word, now: int, up: bool)
    requires IsNode(r) && InBounds(p, r) && PacketType(p) == REQT_PKT_TYPE && RequestOf(p).agent == r
    ensures Handle(v, r, p, now, up).0 == v.(ha := RegisterHome(v.ha, RequestOf(p), now))
  {
  }

  lemma AcceptanceIsWritten(v: AgentView, r: Node, p: Word, now: int)
    requires UsableCareOf(RequestOf(p).careOf)
    ensures HandleDirect(v, r, p, now).0 == v.(fa := RegisterForeign(v.fa, RequestOf(p), now).0)
  {
  }

  /** ... and without one it registers nothing anywhere. */
  lemma NothingElseRegisters(v: AgentView, r: Node, p: Word, now: int, up: bool)
    requires IsNode(r) && InBounds(p, r) && Happens(v.fa, r, p) == {}
    ensures WroteNothing(v, Handle(v, r, p, now, up).0)
  {
    if PacketType(p) == REQT_PKT_TYPE {
      RequestRegistersNothing(v, r, p, now);
    }
  }

  lemma RequestRegistersNothing(v: AgentView, r: Node, p: Word, now: int)
    requires IsNode(r) && InBounds(p, r) && PacketType(p) == REQT_PKT_TYPE && Happens(v.fa, r, p) == {}
    ensures WroteNothing(v, HandleRequest(v, r, p, now).0)
  {
    assert RequestOf(p).agent != r;
  }

  function Mail(m: Mobile, reaction: Reaction): set<Envelope> {
    match reaction
    case Nothing => {}
    case Ask(p) => {Envelope(m.agent, p)}
    case Post(network, p) => {Envelope(network, p)}
  }

  function WithRoamer(s: Life, i: nat, r: Roamer, mail: set<Envelope>): Life
    requires i < |s.roamers|
  {
    s.(roamers := s.roamers[i := r], sent := s.sent + mail)
  }

  function AfterHandling(s: Life, r: Node, fa: ForeignAgent, ha: HomeRows, out: Output, log: set<Happening>): Life {
    Life(s.fas[r := fa], s.has[r := ha], s.roamers,
         if out.ToRouter? then s.sent + {Envelope(out.router, out.packet)} else s.sent,
         if out.ToMobile? then s.handed + {Handed(out.port, out.packet)} else s.handed,
         log)
  }

  /** The mobile after a packet; while it acts on it, nobody listens. */
  function AfterTaking(r: Roamer, p: Word, now: int): Roamer {
    Roamer(OnForeign(r.unit, p, now).0.(listening := false),
           if PacketType(p) == REPLY_PKT_TYPE then Handed(r.unit.port, p) else r.last)
  }

  function Next(s: Life, step: LifeStep): Life
    requires Possible(s, step)
  {
    match step
    case Takes(i, p, now) =>
      var (m, reaction) := OnForeign(s.roamers[i].unit, p, now);
      WithRoamer(s, i, AfterTaking(s.roamers[i], p, now), Mail(m, reaction))
    case Binds(i, busy, draws) =>
      WithRoamer(s, i, s.roamers[i].(unit := Rebind(s.roamers[i].unit, busy, draws).0), {})
    case Moves(i, network) =>
      WithRoamer(s, i, s.roamers[i].(unit := AfterMove(s.roamers[i].unit, network)),
                 Mail(s.roamers[i].unit, MoveOn(s.roamers[i].unit, network).1))
    case Posts(i, network, destination, now) =>
      var (m, reaction) := SendIp(s.roamers[i].unit, network, destination, now);
      WithRoamer(s, i, s.roamers[i].(unit := m), Mail(m, reaction))
    case GoesHome(i) =>
      var m := s.roamers[i].unit;
      WithRoamer(s, i, s.roamers[i], {Envelope(m.homeNetwork, BuildHomeRequest(m))})
    case Handles(r, p, rip, now, up) =>
      var (v, out) := Handle(AgentView(s.fas[r], s.has[r], rip), r, p, now, up);
      AfterHandling(s, r, v.fa, v.ha, out, s.log + Happens(s.fas[r], r, p))
    case Sweeps(r, now) => s.(fas := s.fas[r := Sweep(s.fas[r], now)])
  }

  // ----- what holds throughout ----------------------------------------------------

  /** A reply: the home agent it comes from bound the mobile to the agent it goes to,
      which had accepted it with the same care-of and home address. */
  predicate ReplyTraced(log: set<Happening>, p: Word) {
    var q := RequestOf(p);
    && UsableCareOf(q.careOf)
    && Bound(q.source, q.home, q.careOf, Destination(p) as int) in log
    && Accepted(Destination(p) as int, q.careOf, q.home, q.source) in log
  }

  predicate RelayTraced(log: set<Happening>, p: Word) {
    var q := RequestOf(p);
    UsableCareOf(q.careOf) && Accepted(q.source, q.careOf, q.home, q.agent) in log
  }

  predicate PacketTraced(log: set<Happening>, p: Word) {
    && (PacketType(p) == REPLY_PKT_TYPE ==> ReplyTraced(log, p))
    && (PacketType(p) == REQT_PKT_TYPE ==>
          if Flags(p) == REQT_PKT_IS_A_RELAY then RelayTraced(log, p) else RequestOf(p).source == 0)
  }

  predicate HandedTraced(log: set<Happening>, h: Handed) {
    PacketType(h.packet) == REPLY_PKT_TYPE ==>
      ReplyTraced(log, h.packet) &&
      h.port == (Destination(h.packet) as int) * 1000 + PORT_CLEAR + CareOf(h.packet) as int
  }

  predicate BindingTraced(log: set<Happening>, r: Node, row: HomeRow) {
    row.used && row.foreignAgent != 0 ==>
      && Bound(r, row.home, row.careOf, row.foreignAgent) in log
      && Accepted(row.foreignAgent, row.careOf, row.home, r) in log
  }

  predicate SlotTraced(log: set<Happening>, r: Node, row: ForeignRow) {
    row.used ==> Accepted(r, row.careOf, row.home, row.agent) in log
  }

  predicate MobileFits(m: Mobile) {
    && FitsRequest(m) && IsNode(m.homeNetwork) && 0 <= m.foreignNetwork < 64
    && (m.amRegistered ==> m.wasRegistered || m.leg == Forgotten)
    && (m.leg == Packing || m.leg == Unlisted || m.leg == Forgotten ==> m.moving)
  }

  /** A mobile that takes itself for registered was told so by a reply that is traced, on the
      port of the address that was accepted and bound. */
  predicate RoamerTraced(log: set<Happening>, handed: set<Handed>, r: Roamer) {
    && MobileFits(r.unit)
    && (r.unit.amRegistered ==>
          PacketType(r.last.packet) == REPLY_PKT_TYPE && r.last in handed && HandedTraced(log, r.last))
  }

  ghost predicate Traced(s: Life) {
    && (forall e <- s.sent :: PacketTraced(s.log, e.packet))
    && (forall h <- s.handed :: HandedTraced(s.log, h))
    && (forall r: Node, i | 0 <= i < SLOTS :: BindingTraced(s.log, r, s.has[r][i]))
    && (forall r: Node, i | 0 <= i < SLOTS :: SlotTraced(s.log, r, s.fas[r].rows[i]))
    && (forall i | 0 <= i < |s.roamers| :: RoamerTraced(s.log, s.handed, s.roamers[i]))
  }

  lemma RelayTracedAfterAccept(log: set<Happening>, r: Node, p: Word)
    requires PacketType(p) == REQT_PKT_TYPE && Flags(p) == REQT_PKT_DIRECT_FROM_MU && Source(p) == 0
    requires UsableCareOf(CareOf(p) as int)
    requires Accepted(r, RequestOf(p).careOf, RequestOf(p).home, RequestOf(p).agent) in log
    ensures PacketTraced(log, RelayWord(p, r))
  {
    RelayFields(p, r);
  }

  lemma ReplyTracedAfterBinding(log: set<Happening>, p: Word)
    requires RelayTraced(log, p)
    requires Bound(RequestOf(p).agent, RequestOf(p).home, RequestOf(p).careOf, RequestOf(p).source) in log
    ensures PacketTraced(log, PrepareReply(p))
  {
    ReplyFields(p);
    assert RequestOf(PrepareReply(p)).source == RequestOf(p).agent;
  }

  lemma RequestWordTraced(log: set<Happening>, v: AgentView, r: Node, p: Word, now: int)
    requires IsNode(r) && InBounds(p, r) && PacketType(p) == REQT_PKT_TYPE && PacketTraced(log, p)
    ensures var out := HandleRequest(v, r, p, now).1;
            !out.ToMobile? && (out.ToRouter? ==> PacketTraced(log + Happens(v.fa, r, p), out.packet))
  {
    var log' := log + Happens(v.fa, r, p);
    if HomeAgent(p) as int == r {
      if Flags(p) == REQT_PKT_IS_A_RELAY {
        assert Bound(r, RequestOf(p).home, RequestOf(p).careOf, RequestOf(p).source) in log';
        ReplyTracedAfterBinding(log', p);
      }
    } else if Flags(p) == REQT_PKT_DIRECT_FROM_MU {
      DirectWordTraced(log, v, r, p, now);
    }
  }

  lemma DirectWordTraced(log: set<Happening>, v: AgentView, r: Node, p: Word, now: int)
    requires IsNode(r) && InBounds(p, r) && PacketType(p) == REQT_PKT_TYPE && PacketTraced(log, p)
    requires HomeAgent(p) as int != r && Flags(p) == REQT_PKT_DIRECT_FROM_MU
    ensures var out := HandleDirect(v, r, p, now).1;
            !out.ToMobile? && (out.ToRouter? ==> PacketTraced(log + Happens(v.fa, r, p), out.packet))
  {
    var log' := log + Happens(v.fa, r, p);
    if MayTake(v.fa.rows[RequestOf(p).careOf], RequestOf(p).home, RequestOf(p).agent) {
      assert Accepted(r, RequestOf(p).careOf, RequestOf(p).home, RequestOf(p).agent) in log';
      RelayTracedAfterAccept(log', r, p);
    }
  }

  lemma ReplyWordTraced(log: set<Happening>, v: AgentView, r: Node, p: Word, now: int, up: bool)
    requires IsNode(r) && InBounds(p, r) && PacketType(p) == REPLY_PKT_TYPE && PacketTraced(log, p)
    ensures var out := HandleReply(v, r, p, now, up).1;
            && (out.ToMobile? ==> HandedTraced(log, Handed(out.port, out.packet)))
            && (out.ToRouter? ==> out.packet == p)
  {
  }

  lemma IpWordStaysIp(v: AgentView, r: Node, p: Word, up: bool)
    requires InBounds(p, r) && PacketType(p) == IP_PKT_TYPE
    ensures var out := HandleIp(v, r, p, up);
            out.ToRouter? || out.ToMobile? ==> PacketType(out.packet) == IP_PKT_TYPE
  {
    if IpNetwork(p) == r && !up && !IsTunneled(p) {
      var row := v.ha[IpDestinationInterface(p, false) as int];
      OuterStaysIp(p, ToWord(row.foreignAgent), ToWord(row.careOf), ToWord(r), IpDestinationInterface(p, false));
    }
  }

  lemma OuterStaysIp(p: Word, agent: Word, careOf: Word, me: Word, home: Word)
    requires PacketType(p) == IP_PKT_TYPE
    ensures PacketType(TunnelTo(p, agent, careOf, me, home)) == IP_PKT_TYPE
  {
  }

  /** Whatever a router sends on or hands over is traced if what it handled was. */
  lemma OutputTraced(log: set<Happening>, v: AgentView, r: Node, p: Word, now: int, up: bool)
    requires IsNode(r) && InBounds(p, r) && PacketTraced(log, p)
    ensures var out := Handle(v, r, p, now, up).1;
            var log' := log + Happens(v.fa, r, p);
            && (out.ToRouter? ==> PacketTraced(log', out.packet))
            && (out.ToMobile? ==> HandedTraced(log', Handed(out.port, out.packet)))
  {
    if PacketType(p) == REQT_PKT_TYPE {
      RequestWordTraced(log, v, r, p, now);
    } else if PacketType(p) == REPLY_PKT_TYPE {
      ReplyWordTraced(log, v, r, p, now, up);
    } else if PacketType(p) == IP_PKT_TYPE {
      IpWordStaysIp(v, r, p, up);
    }
  }

  /** The tables it leaves behind are traced too. */
  lemma RowsTraced(log: set<Happening>, v: AgentView, r: Node, p: Word, now: int, up: bool, i: nat)
    requires IsNode(r) && InBounds(p, r) && PacketTraced(log, p) && i < SLOTS
    requires BindingTraced(log, r, v.ha[i]) && SlotTraced(log, r, v.fa.rows[i])
    ensures var (v', log') := (Handle(v, r, p, now, up).0, log + Happens(v.fa, r, p));
            BindingTraced(log', r, v'.ha[i]) && SlotTraced(log', r, v'.fa.rows[i])
  {
    HandlingWrites(v, r, p, now, up);
    WritesTraced(log, v, Handle(v, r, p, now, up).0, r, p, now, i);
  }

  /** From view v to view v', what happens is written and nothing else is. */
  ghost predicate Writes(v: AgentView, v': AgentView, r: Node, p: Word, now: int)
    requires InBounds(p, r)
  {
    && (Happens(v.fa, r, p) == {} ==> WroteNothing(v, v'))
    && forall h <- Happens(v.fa, r, p) :: Wrote(v, v', r, RequestOf(p).life, now, h)
  }

  lemma HandlingWrites(v: AgentView, r: Node, p: Word, now: int, up: bool)
    requires IsNode(r) && InBounds(p, r)
    ensures Writes(v, Handle(v, r, p, now, up).0, r, p, now)
  {
    forall h <- Happens(v.fa, r, p)
      ensures Wrote(v, Handle(v, r, p, now, up).0, r, RequestOf(p).life, now, h)
    {
      HappeningsAreWrites(v, r, p, now, up, h);
    }
    if Happens(v.fa, r, p) == {} {
      NothingElseRegisters(v, r, p, now, up);
    }
  }

  lemma WritesTraced(log: set<Happening>, v: AgentView, v': AgentView, r: Node, p: Word, now: int, i: nat)
    requires IsNode(r) && InBounds(p, r) && PacketTraced(log, p) && i < SLOTS && Writes(v, v', r, p, now)
    requires BindingTraced(log, r, v.ha[i]) && SlotTraced(log, r, v.fa.rows[i])
    ensures var log' := log + Happens(v.fa, r, p);
            BindingTraced(log', r, v'.ha[i]) && SlotTraced(log', r, v'.fa.rows[i])
  {
    if Happens(v.fa, r, p) == {} {
      UntouchedRowsTraced(log, v, v', r, i);
    } else {
      var h :| h in Happens(v.fa, r, p);
      if h.Bound? && h.agent != 0 {
        BoundWasAccepted(log, v.fa, r, p, h);
      }
      WrittenRowsTraced(log, v, v', r, RequestOf(p).life, now, h, i);
      assert log + Happens(v.fa, r, p) == log + {h};
    }
  }

  lemma UntouchedRowsTraced(log: set<Happening>, v: AgentView, v': AgentView, r: Node, i: nat)
    requires i < SLOTS && WroteNothing(v, v') && BindingTraced(log, r, v.ha[i]) && SlotTraced(log, r, v.fa.rows[i])
    ensures BindingTraced(log, r, v'.ha[i]) && SlotTraced(log, r, v'.fa.rows[i])
  {
  }

  lemma WrittenRowsTraced(log: set<Happening>, v: AgentView, v': AgentView, r: Node, life: int, now: int, h: Happening,
                          i: nat)
    requires i < SLOTS && Wrote(v, v', r, life, now, h)
    requires BindingTraced(log, r, v.ha[i]) && SlotTraced(log, r, v.fa.rows[i])
    requires h.Bound? && h.agent != 0 ==> Accepted(h.agent, h.careOf, h.home, r) in log
    ensures BindingTraced(log + {h}, r, v'.ha[i]) && SlotTraced(log + {h}, r, v'.fa.rows[i])
  {
  }

  lemma BoundWasAccepted(log: set<Happening>, fa: ForeignAgent, r: Node, p: Word, h: Happening)
    requires InBounds(p, r) && PacketTraced(log, p) && h in Happens(fa, r, p) && h.Bound? && h.agent != 0
    ensures Accepted(h.agent, h.careOf, h.home, r) in log
  {
  }

  lemma LogGrows(log: set<Happening>, log': set<Happening>, p: Word, h: Handed)
    requires log <= log'
    ensures PacketTraced(log, p) ==> PacketTraced(log', p)
    ensures HandedTraced(log, h) ==> HandedTraced(log', h)
  {
  }

  lemma HandlingKeepsTraced(s: Life, r: Node, fa: ForeignAgent, ha: HomeRows, out: Output, log: set<Happening>)
    requires Traced(s) && s.log <= log
    requires out.ToRouter? ==> PacketTraced(log, out.packet)
    requires out.ToMobile? ==> HandedTraced(log, Handed(out.port, out.packet))
    requires forall i | 0 <= i < SLOTS :: BindingTraced(log, r, ha[i]) && SlotTraced(log, r, fa.rows[i])
    ensures Traced(AfterHandling(s, r, fa, ha, out, log))
  {
    var s' := AfterHandling(s, r, fa, ha, out, log);
    forall e <- s'.sent
      ensures PacketTraced(log, e.packet)
    {
      LogGrows(s.log, log, e.packet, Handed(0, 0));
    }
    forall h <- s'.handed
      ensures HandedTraced(log, h)
    {
      LogGrows(s.log, log, 0, h);
    }
    forall q: Node, i | 0 <= i < SLOTS
      ensures BindingTraced(log, q, s'.has[q][i]) && SlotTraced(log, q, s'.fas[q].rows[i])
    {
      assert BindingTraced(s.log, q, s.has[q][i]) && SlotTraced(s.log, q, s.fas[q].rows[i]);
    }
    forall i | 0 <= i < |s.roamers|
      ensures RoamerTraced(log, s'.handed, s.roamers[i])
    {
      assert RoamerTraced(s.log, s.handed, s.roamers[i]);
      LogGrows(s.log, log, 0, s.roamers[i].last);
    }
  }

  lemma HandlesKeepsTraced(s: Life, r: Node, p: Word, rip: RouterView, now: int, up: bool)
    requires Traced(s) && Possible(s, Handles(r, p, rip, now, up))
    ensures Traced(Next(s, Handles(r, p, rip, now, up)))
  {
    var v := AgentView(s.fas[r], s.has[r], rip);
    var (v', out) := Handle(v, r, p, now, up);
    assert Envelope(r, p).packet == p && PacketTraced(s.log, p);
    OutputTraced(s.log, v, r, p, now, up);
    forall i | 0 <= i < SLOTS
      ensures BindingTraced(s.log + Happens(s.fas[r], r, p), r, v'.ha[i])
      ensures SlotTraced(s.log + Happens(s.fas[r], r, p), r, v'.fa.rows[i])
    {
      assert BindingTraced(s.log, r, s.has[r][i]) && SlotTraced(s.log, r, s.fas[r].rows[i]);
      RowsTraced(s.log, v, r, p, now, up, i);
    }
    HandlingKeepsTraced(s, r, v'.fa, v'.ha, out, s.log + Happens(s.fas[r], r, p));
  }

  lemma MailKeepsTraced(s: Life, i: nat, r: Roamer, m: Mobile, reaction: Reaction)
    requires Traced(s) && i < |s.roamers| && RoamerTraced(s.log, s.handed, r) && ReactionTraced(s.log, reaction)
    ensures Traced(WithRoamer(s, i, r, Mail(m, reaction)))
  {
  }

  lemma BuiltRequestsTraced(log: set<Happening>, m: Mobile)
    requires FitsRequest(m)
    ensures PacketTraced(log, BuildForeignRequest(m)) && PacketTraced(log, BuildHomeRequest(m))
    ensures PacketTraced(log, BuildDeregistration(m))
  {
    ForeignRequestFields(m);
    var d := DecodeRegistration(BuildForeignRequest(m));
    assert d.flags == REQT_PKT_DIRECT_FROM_MU && d.source == 0 && d.kind == REQT_PKT_TYPE;
    NibbleRoundTrip(m.homePort);
    NibbleRoundTrip(m.homeNetwork);
    NibbleRoundTrip(m.careOf);
    PlainRequestWords(ToWord(m.homePort), ToWord(m.homeNetwork), ToWord(m.careOf));
  }

  lemma PlainRequestWords(port: Word, network: Word, careOf: Word)
    requires port < 16 && network < 16 && careOf < 16
    ensures var p := PutHomeAgent(PutHomeAddress(PutPacketType(0, REQT_PKT_TYPE), port), network);
            PacketType(p) == REQT_PKT_TYPE && Flags(p) == 0 && Source(p) == 0
    ensures var p := PutCareOf(PutPacketType(0, REQT_PKT_TYPE), careOf);
            PacketType(p) == REQT_PKT_TYPE && Flags(p) == 0 && Source(p) == 0
  {
  }

  /** IP packets leave the mobile as such. */
  lemma PostedIsIp(m: Mobile, network: int, destination: int)
    requires MobileFits(m) && 0 <= network < 8 && 0 <= destination < 16
    ensures PacketType(MobilePacket(m, network, destination)) == IP_PKT_TYPE
  {
    NibbleRoundTrip(m.homeNetwork);
    NibbleRoundTrip(m.homePort);
    NibbleRoundTrip(m.careOf);
    FieldFits(network, destination);
    SmallFits(if m.atHome then 0 else m.foreignNetwork);
    IpTypeStays(ToWord(m.homeNetwork), ToWord(m.homePort), if m.atHome then ToWord(0) else ToWord(m.foreignNetwork),
                ToWord(m.careOf), ToWord(network), ToWord(destination));
  }

  lemma SmallFits(x: int)
    requires 0 <= x < 64
    ensures ToWord(x) < 64
  {
    assert x % 0x1_0000_0000 == x;
  }

  lemma IpTypeStays(homeNetwork: Word, home: Word, outerNetwork: Word, outer: Word, network: Word, destination: Word)
    requires homeNetwork < 16 && home < 16 && outerNetwork < 64 && outer < 16 && network < 8 && destination < 16
    ensures PacketType(PutIpDestinationNetwork(PutIpDestinationInterface(PutIpSourceInterface(PutIpSourceInterface(
              PutIpSourceNetwork(PutIpSourceNetwork(PutPacketType(0, IP_PKT_TYPE), homeNetwork, false),
                outerNetwork, true), home, false), outer, true), destination, false), network, false)) == IP_PKT_TYPE
  {
  }

  lemma OfferFits(m: Mobile, p: Word)
    requires MobileFits(m) && !m.moving
    ensures MobileFits(TakeAdvertisement(m, p))
    ensures TakeAdvertisement(m, p).amRegistered == m.amRegistered
  {
    assert IcmpLifeTime(p) < 16 && IcmpCareOf(p) < 16 && IcmpSource(p) < 16;
  }

  predicate ReactionTraced(log: set<Happening>, reaction: Reaction) {
    reaction.Nothing? || PacketTraced(log, reaction.packet)
  }

  lemma IpIsTraced(log: set<Happening>, p: Word)
    requires PacketType(p) == IP_PKT_TYPE
    ensures PacketTraced(log, p)
  {
  }

  lemma SendingFits(m: Mobile, network: int, destination: int, now: int)
    requires MobileFits(m)
    ensures var m' := SendIp(m, network, destination, now).0; MobileFits(m') && (m'.amRegistered ==> m.amRegistered)
  {
  }

  lemma SendingTraced(log: set<Happening>, m: Mobile, network: int, destination: int, now: int)
    requires MobileFits(m) && 0 <= network < 8 && 0 <= destination < 16
    ensures ReactionTraced(log, SendIp(m, network, destination, now).1)
  {
    BuiltRequestsTraced(log, m);
    PostedIsIp(m, network, destination);
    IpIsTraced(log, MobilePacket(m, network, destination));
  }

  lemma AnswerFits(p: Word)
    ensures IpSourceNetwork(p, false) < 8 && IpSourceInterface(p, false) < 16
  {
  }

  lemma TakingKeepsRoamer(log: set<Happening>, handed: set<Handed>, r: Roamer, p: Word, now: int)
    requires RoamerTraced(log, handed, r)
    requires PacketType(p) == REPLY_PKT_TYPE ==>
               Handed(r.unit.port, p) in handed && HandedTraced(log, Handed(r.unit.port, p))
    ensures RoamerTraced(log, handed, AfterTaking(r, p, now))
  {
    if PacketType(p) == ICMP_PKT_TYPE {
      if !r.unit.moving {
        OfferFits(r.unit, p);
      }
    } else if PacketType(p) == IP_PKT_TYPE {
      SendingFits(r.unit, IpSourceNetwork(p, false) as int, IpSourceInterface(p, false) as int, now);
    }
  }

  lemma TakingTraced(log: set<Happening>, m: Mobile, p: Word, now: int)
    requires MobileFits(m)
    ensures ReactionTraced(log, OnForeign(m, p, now).1)
  {
    if PacketType(p) == ICMP_PKT_TYPE {
      if !m.moving {
        OfferFits(m, p);
        BuiltRequestsTraced(log, TakeAdvertisement(m, p));
      }
    } else if PacketType(p) == IP_PKT_TYPE {
      AnswerFits(p);
      SendingTraced(log, m, IpSourceNetwork(p, false) as int, IpSourceInterface(p, false) as int, now);
    }
  }

  lemma MovingFits(m: Mobile, network: int)
    requires MobileFits(m) && 0 <= network < 16
    ensures MobileFits(AfterMove(m, network)) && (AfterMove(m, network).amRegistered ==> m.amRegistered)
  {
    match m.leg
    case Leaving =>
    case Turned =>
    case Waiting =>
    case Staying =>
    case Packing =>
    case Unlisted =>
    case Forgotten =>
    case AtHome =>
  }

  /** Only a reply raises the flag. */
  lemma RoamerStays(log: set<Happening>, handed: set<Handed>, r: Roamer, m: Mobile)
    requires RoamerTraced(log, handed, r) && MobileFits(m) && (m.amRegistered ==> r.unit.amRegistered)
    ensures RoamerTraced(log, handed, r.(unit := m))
  {
  }

  lemma MovingTraced(log: set<Happening>, m: Mobile, network: int)
    requires MobileFits(m)
    ensures ReactionTraced(log, MoveOn(m, network).1)
  {
    BuiltRequestsTraced(log, m);
  }

  lemma BindingKeepsRoamer(log: set<Happening>, handed: set<Handed>, r: Roamer, busy: set<int>, draws: seq<int>)
    requires RoamerTraced(log, handed, r) && Rebind(r.unit, busy, draws).1 && forall c <- draws :: UsableCareOf(c)
    ensures RoamerTraced(log, handed, r.(unit := Rebind(r.unit, busy, draws).0))
  {
    RebindListens(r.unit, busy, draws);
  }

  lemma TakesKeepsTraced(s: Life, i: nat, p: Word, now: int)
    requires Traced(s) && Possible(s, Takes(i, p, now))
    ensures Traced(Next(s, Takes(i, p, now)))
  {
    var r := s.roamers[i];
    var (m, reaction) := OnForeign(r.unit, p, now);
    TakingKeepsRoamer(s.log, s.handed, r, p, now);
    TakingTraced(s.log, r.unit, p, now);
    MailKeepsTraced(s, i, AfterTaking(r, p, now), m, reaction);
  }

  lemma BindsKeepsTraced(s: Life, i: nat, busy: set<int>, draws: seq<int>)
    requires Traced(s) && Possible(s, Binds(i, busy, draws))
    ensures Traced(Next(s, Binds(i, busy, draws)))
  {
    var r := s.roamers[i];
    BindingKeepsRoamer(s.log, s.handed, r, busy, draws);
    MailKeepsTraced(s, i, r.(unit := Rebind(r.unit, busy, draws).0), r.unit, Nothing);
  }

  lemma MovesKeepsTraced(s: Life, i: nat, network: int)
    requires Traced(s) && Possible(s, Moves(i, network))
    ensures Traced(Next(s, Moves(i, network)))
  {
    var r := s.roamers[i];
    MovingFits(r.unit, network);
    RoamerStays(s.log, s.handed, r, AfterMove(r.unit, network));
    MovingTraced(s.log, r.unit, network);
    MailKeepsTraced(s, i, r.(unit := AfterMove(r.unit, network)), r.unit, MoveOn(r.unit, network).1);
  }

  lemma PostsKeepsTraced(s: Life, i: nat, network: int, destination: int, now: int)
    requires Traced(s) && Possible(s, Posts(i, network, destination, now))
    ensures Traced(Next(s, Posts(i, network, destination, now)))
  {
    var r := s.roamers[i];
    var (m, reaction) := SendIp(r.unit, network, destination, now);
    SendingFits(r.unit, network, destination, now);
    SendingTraced(s.log, r.unit, network, destination, now);
    MailKeepsTraced(s, i, r.(unit := m), m, reaction);
  }

  lemma GoesHomeKeepsTraced(s: Life, i: nat)
    requires Traced(s) && Possible(s, GoesHome(i))
    ensures Traced(Next(s, GoesHome(i)))
  {
    var r := s.roamers[i];
    BuiltRequestsTraced(s.log, r.unit);
    MailKeepsTraced(s, i, r, r.unit, Post(r.unit.homeNetwork, BuildHomeRequest(r.unit)));
  }

  lemma SweepsKeepTraced(s: Life, r: Node, now: int)
    requires Traced(s)
    ensures Traced(Next(s, Sweeps(r, now)))
  {
    forall i | 0 <= i < SLOTS
      ensures SlotTraced(s.log, r, Sweep(s.fas[r], now).rows[i])
    {
      assert SlotTraced(s.log, r, s.fas[r].rows[i]);
    }
  }

  lemma StepKeepsTraced(s: Life, step: LifeStep)
    requires Traced(s) && Possible(s, step)
    ensures Traced(Next(s, step))
  {
    match step
    case Handles(r, p, rip, now, up) => HandlesKeepsTraced(s, r, p, rip, now, up);
    case Sweeps(r, now) => SweepsKeepTraced(s, r, now);
    case Takes(i, p, now) => TakesKeepsTraced(s, i, p, now);
    case Binds(i, busy, draws) => BindsKeepsTraced(s, i, busy, draws);
    case Moves(i, network) => MovesKeepsTraced(s, i, network);
    case Posts(i, network, destination, now) => PostsKeepsTraced(s, i, network, destination, now);
    case GoesHome(i) => GoesHomeKeepsTraced(s, i);
  }

  predicate History(s: Life, steps: seq<LifeStep>)
    decreases |steps|
  {
    steps == [] || (Possible(s, steps[0]) && History(Next(s, steps[0]), steps[1..]))
  }

  function Later(s: Life, steps: seq<LifeStep>): Life
    requires History(s, steps)
    decreases |steps|
  {
    if steps == [] then s else Later(Next(s, steps[0]), steps[1..])
  }

  predicate IsEmpty(fa: ForeignAgent) {
    forall i | 0 <= i < SLOTS :: fa.rows[i] == NO_FOREIGN_ROW && fa.careOfs[i] == CareOfRow(i + 1, false)
  }

  /** Agents with empty tables (whatever else home rows hold), mobiles starting out at home,
      nothing sent. */
  ghost predicate Fresh(s: Life) {
    && s.sent == {} && s.handed == {} && s.log == {}
    && (forall r: Node :: IsEmpty(s.fas[r]))
    && (forall r: Node, i | 0 <= i < SLOTS :: !s.has[r][i].used)
    && (forall i | 0 <= i < |s.roamers| :: Started(s.roamers[i].unit))
  }

  lemma FreshIsTraced(s: Life)
    requires Fresh(s)
    ensures Traced(s)
  {
    forall r: Node, i | 0 <= i < SLOTS
      ensures SlotTraced(s.log, r, s.fas[r].rows[i])
    {
      assert IsEmpty(s.fas[r]);
    }
  }

  lemma {:induction false} HistoryKeepsTraced(s: Life, steps: seq<LifeStep>)
    requires Traced(s) && History(s, steps)
    ensures Traced(Later(s, steps))
    decreases |steps|
  {
    if steps != [] {
      StepKeepsTraced(s, steps[0]);
      HistoryKeepsTraced(Next(s, steps[0]), steps[1..]);
    }
  }

  /** In every reachable state: a home binding with a foreign agent was made by that home
      agent, from a registration that agent accepted for the same care-of and home
      address; so was every reply handed to a port; and every mobile that takes itself for
      registered was told so by such a reply, on the port of the address it is about. */
  lemma EverythingIsTraced(s: Life, steps: seq<LifeStep>)
    requires Fresh(s) && History(s, steps)
    ensures Traced(Later(s, steps))
  {
    FreshIsTraced(s);
    HistoryKeepsTraced(s, steps);
  }

  // ----- the same lives keep every agent's tables in order ----------------------------

  ghost predicate AgentsOk(s: Life) {
    forall r: Node :: AgentOk(s.fas[r])
  }

  lemma StepKeepsAgents(s: Life, step: LifeStep)
    requires AgentsOk(s) && Possible(s, step)
    ensures AgentsOk(Next(s, step))
  {
    match step
    case Handles(r, p, rip, now, up) =>
      HandlingIsItsEvents(AgentView(s.fas[r], s.has[r], rip), r, p, now, up);
      HistoryKeepsAgentOk(s.fas[r], EventsOf(p, r, now));
    case Sweeps(r, now) => EventKeepsAgentOk(s.fas[r], Expire(now));
    case _ =>
  }

  /** Whatever mobiles and packets do, the address any agent would advertise next belongs to
      none of its live registrations. */
  lemma {:induction false} NobodyLiveIsAdvertised(s: Life, steps: seq<LifeStep>, r: Node)
    requires AgentsOk(s) && History(s, steps)
    ensures var fa := Later(s, steps).fas[r];
            && AgentsOk(Later(s, steps))
            && (1 <= FreeCareOf(fa.careOfs) < SLOTS ==> fa.rows[FreeCareOf(fa.careOfs)].registered != TRUE)
    decreases |steps|
  {
    if steps == [] {
      FreeIsNotLive(s.fas[r]);
    } else {
      StepKeepsAgents(s, steps[0]);
      NobodyLiveIsAdvertised(Next(s, steps[0]), steps[1..], r);
    }
  }
}
