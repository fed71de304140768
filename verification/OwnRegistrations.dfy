/** Whose registration a mobile's flag stands for.  The mobile reads nothing of the reply it
    takes, so the flag is its own in every history exactly when there is nobody else to
    take it from. */
module OwnRegistrations {
  import opened Wire
  import opened RipRouters
  import opened RipNetwork
  import opened Agents
  import opened Mobiles
  import opened MobileIp
  import opened Provenance
  import opened LifeRuns

  /** A registered mobile was itself accepted, and bound by its home agent, at the address on
      whose port it was told so. */
  predicate OwnTraced(log: set<Happening>, r: Roamer) {
    var (m, agent, careOf) := (r.unit, Destination(r.last.packet) as int, RequestOf(r.last.packet).careOf);
    m.amRegistered ==>
      && r.last.port == agent * 1000 + PORT_CLEAR + careOf
      && Bound(m.homeNetwork, m.homePort, careOf, agent) in log
      && Accepted(agent, careOf, m.homePort, m.homeNetwork) in log
  }

  predicate AllOwnTraced(s: Life) {
    forall i | 0 <= i < |s.roamers| :: OwnTraced(s.log, s.roamers[i])
  }

  predicate SameIdentity(m: Mobile, m': Mobile) {
    m.homePort == m'.homePort && m.homeNetwork == m'.homeNetwork
  }

  /** One mobile, or several that answer to one home address. */
  predicate OneIdentity(s: Life) {
    forall i, k | 0 <= i < |s.roamers| && 0 <= k < |s.roamers| :: SameIdentity(s.roamers[i].unit, s.roamers[k].unit)
  }

  // ----- one identity ---------------------------------------------------------------

  /** Registration packets are about the mobile with this home address. */
  predicate About(p: Word, home: int, homeNetwork: int) {
    var q := RequestOf(p);
    && (PacketType(p) == REPLY_PKT_TYPE ==> q.home == home && q.source == homeNetwork)
    && (PacketType(p) == REQT_PKT_TYPE && Flags(p) != REQT_PKT_DEREGISTER ==> q.home == home && q.agent == homeNetwork)
  }

  ghost predicate AllAbout(s: Life, home: int, homeNetwork: int) {
    && (forall i | 0 <= i < |s.roamers| ::
          s.roamers[i].unit.homePort == home && s.roamers[i].unit.homeNetwork == homeNetwork)
    && (forall e <- s.sent :: About(e.packet, home, homeNetwork))
    && (forall h <- s.handed :: About(h.packet, home, homeNetwork))
  }

  lemma RelayIsAbout(p: Word, r: Node, home: int, homeNetwork: int)
    requires PacketType(p) == REQT_PKT_TYPE && Flags(p) == REQT_PKT_DIRECT_FROM_MU && Source(p) == 0
    requires About(p, home, homeNetwork)
    ensures About(RelayWord(p, r), home, homeNetwork)
  {
    RelayFields(p, r);
  }

  lemma ReplyIsAbout(p: Word, home: int, homeNetwork: int)
    requires PacketType(p) == REQT_PKT_TYPE && Flags(p) == REQT_PKT_IS_A_RELAY && About(p, home, homeNetwork)
    ensures About(PrepareReply(p), home, homeNetwork)
  {
    ReplyFields(p);
  }

  lemma RequestStaysAbout(log: set<Happening>, v: AgentView, r: Node, p: Word, now: int, home: int, homeNetwork: int)
    requires IsNode(r) && InBounds(p, r) && PacketType(p) == REQT_PKT_TYPE
    requires PacketTraced(log, p) && About(p, home, homeNetwork)
    ensures var out := HandleRequest(v, r, p, now).1;
            !out.ToMobile? && (out.ToRouter? ==> About(out.packet, home, homeNetwork))
  {
    if Flags(p) == REQT_PKT_IS_A_RELAY {
      ReplyIsAbout(p, home, homeNetwork);
    } else if Flags(p) == REQT_PKT_DIRECT_FROM_MU {
      RelayIsAbout(p, r, home, homeNetwork);
    }
  }

  lemma IpIsAbout(p: Word, home: int, homeNetwork: int)
    requires PacketType(p) == IP_PKT_TYPE
    ensures About(p, home, homeNetwork)
  {
  }

  lemma OutputStaysAbout(log: set<Happening>, v: AgentView, r: Node, p: Word, now: int, up: bool, home: int,
                         homeNetwork: int)
    requires IsNode(r) && InBounds(p, r) && PacketTraced(log, p) && About(p, home, homeNetwork)
    ensures var out := Handle(v, r, p, now, up).1;
            out.ToRouter? || out.ToMobile? ==> About(out.packet, home, homeNetwork)
  {
    if PacketType(p) == REQT_PKT_TYPE {
      RequestStaysAbout(log, v, r, p, now, home, homeNetwork);
    } else if PacketType(p) == REPLY_PKT_TYPE {
      ReplyWordTraced(log, v, r, p, now, up);
    } else if PacketType(p) == IP_PKT_TYPE {
      IpWordStaysIp(v, r, p, up);
      var out := HandleIp(v, r, p, up);
      if out.ToRouter? || out.ToMobile? {
        IpIsAbout(out.packet, home, homeNetwork);
      }
    }
  }

  lemma BuiltRequestsAreAbout(m: Mobile)
    requires FitsRequest(m)
    ensures About(BuildForeignRequest(m), m.homePort, m.homeNetwork)
    ensures About(BuildHomeRequest(m), m.homePort, m.homeNetwork)
    ensures About(BuildDeregistration(m), m.homePort, m.homeNetwork)
  {
    ForeignRequestFields(m);
    var d := DecodeRegistration(BuildForeignRequest(m));
    NibbleRoundTrip(m.homePort);
    NibbleRoundTrip(m.homeNetwork);
    NibbleRoundTrip(m.careOf);
    assert d.kind == REQT_PKT_TYPE && d.home == ToWord(m.homePort) && d.agent == ToWord(m.homeNetwork);
    PlainRequestWords(ToWord(m.homePort), ToWord(m.homeNetwork), ToWord(m.careOf));
  }

  predicate ReactionAbout(reaction: Reaction, home: int, homeNetwork: int) {
    reaction.Nothing? || About(reaction.packet, home, homeNetwork)
  }

  lemma MailStaysAbout(s: Life, i: nat, r: Roamer, m: Mobile, reaction: Reaction, home: int, homeNetwork: int)
    requires AllAbout(s, home, homeNetwork) && i < |s.roamers| && r.unit.homePort == home
    requires r.unit.homeNetwork == homeNetwork && ReactionAbout(reaction, home, homeNetwork)
    ensures AllAbout(WithRoamer(s, i, r, Mail(m, reaction)), home, homeNetwork)
  {
  }

  lemma SendingIsAbout(m: Mobile, network: int, destination: int, now: int)
    requires MobileFits(m) && 0 <= network < 8 && 0 <= destination < 16
    ensures ReactionAbout(SendIp(m, network, destination, now).1, m.homePort, m.homeNetwork)
  {
    BuiltRequestsAreAbout(m);
    PostedIsIp(m, network, destination);
    IpIsAbout(MobilePacket(m, network, destination), m.homePort, m.homeNetwork);
  }

  lemma TakingIsAbout(m: Mobile, p: Word, now: int)
    requires MobileFits(m)
    ensures ReactionAbout(OnForeign(m, p, now).1, m.homePort, m.homeNetwork)
  {
    if PacketType(p) == ICMP_PKT_TYPE {
      if !m.moving {
        OfferFits(m, p);
        BuiltRequestsAreAbout(TakeAdvertisement(m, p));
      }
    } else if PacketType(p) == IP_PKT_TYPE {
      AnswerFits(p);
      SendingIsAbout(m, IpSourceNetwork(p, false) as int, IpSourceInterface(p, false) as int, now);
    }
  }

  lemma HandlesStaysAbout(s: Life, r: Node, p: Word, rip: RouterView, now: int, up: bool, home: int, homeNetwork: int)
    requires Traced(s) && AllAbout(s, home, homeNetwork) && Possible(s, Handles(r, p, rip, now, up))
    ensures AllAbout(Next(s, Handles(r, p, rip, now, up)), home, homeNetwork)
  {
    assert Envelope(r, p).packet == p && PacketTraced(s.log, p) && About(p, home, homeNetwork);
    OutputStaysAbout(s.log, AgentView(s.fas[r], s.has[r], rip), r, p, now, up, home, homeNetwork);
  }

  lemma TakesStaysAbout(s: Life, i: nat, p: Word, now: int, home: int, homeNetwork: int)
    requires Traced(s) && AllAbout(s, home, homeNetwork) && Possible(s, Takes(i, p, now))
    ensures AllAbout(Next(s, Takes(i, p, now)), home, homeNetwork)
  {
    var r := s.roamers[i];
    var (m, reaction) := OnForeign(r.unit, p, now);
    assert RoamerTraced(s.log, s.handed, r);
    TakingIsAbout(r.unit, p, now);
    MailStaysAbout(s, i, AfterTaking(r, p, now), m, reaction, home, homeNetwork);
  }

  lemma BindsStaysAbout(s: Life, i: nat, busy: set<int>, draws: seq<int>, home: int, homeNetwork: int)
    requires AllAbout(s, home, homeNetwork) && Possible(s, Binds(i, busy, draws))
    ensures AllAbout(Next(s, Binds(i, busy, draws)), home, homeNetwork)
  {
    RebindListens(s.roamers[i].unit, busy, draws);
  }

  lemma MovingIsAbout(m: Mobile, network: int)
    requires MobileFits(m)
    ensures ReactionAbout(MoveOn(m, network).1, m.homePort, m.homeNetwork)
  {
    BuiltRequestsAreAbout(m);
  }

  lemma MovingKeepsIdentity(m: Mobile, network: int)
    ensures SameIdentity(AfterMove(m, network), m)
  {
    match m.leg
    case Leaving =>
    case Turned =>
    case Waiting =>
    case Staying =>
    case Packing =>
    case Unlisted =>
    case Forgotten =>
    case AtHome =>
  }

  lemma MovesStaysAbout(s: Life, i: nat, network: int, home: int, homeNetwork: int)
    requires Traced(s) && AllAbout(s, home, homeNetwork) && Possible(s, Moves(i, network))
    ensures AllAbout(Next(s, Moves(i, network)), home, homeNetwork)
  {
    var r := s.roamers[i];
    assert RoamerTraced(s.log, s.handed, r);
    MovingKeepsIdentity(r.unit, network);
    MovingIsAbout(r.unit, network);
    MailStaysAbout(s, i, r.(unit := AfterMove(r.unit, network)), r.unit, MoveOn(r.unit, network).1, home, homeNetwork);
  }

  lemma PostsStaysAbout(s: Life, i: nat, network: int, destination: int, now: int, home: int, homeNetwork: int)
    requires Traced(s) && AllAbout(s, home, homeNetwork) && Possible(s, Posts(i, network, destination, now))
    ensures AllAbout(Next(s, Posts(i, network, destination, now)), home, homeNetwork)
  {
    var r := s.roamers[i];
    var (m, reaction) := SendIp(r.unit, network, destination, now);
    assert RoamerTraced(s.log, s.handed, r);
    SendingIsAbout(r.unit, network, destination, now);
    MailStaysAbout(s, i, r.(unit := m), m, reaction, home, homeNetwork);
  }

  lemma GoesHomeStaysAbout(s: Life, i: nat, home: int, homeNetwork: int)
    requires Traced(s) && AllAbout(s, home, homeNetwork) && Possible(s, GoesHome(i))
    ensures AllAbout(Next(s, GoesHome(i)), home, homeNetwork)
  {
    var r := s.roamers[i];
    assert RoamerTraced(s.log, s.handed, r);
    BuiltRequestsAreAbout(r.unit);
    MailStaysAbout(s, i, r, r.unit, Post(r.unit.homeNetwork, BuildHomeRequest(r.unit)), home, homeNetwork);
  }

  lemma StepStaysAbout(s: Life, step: LifeStep, home: int, homeNetwork: int)
    requires Traced(s) && AllAbout(s, home, homeNetwork) && Possible(s, step)
    ensures AllAbout(Next(s, step), home, homeNetwork)
  {
    match step
    case Takes(i, p, now) => TakesStaysAbout(s, i, p, now, home, homeNetwork);
    case Binds(i, busy, draws) => BindsStaysAbout(s, i, busy, draws, home, homeNetwork);
    case Moves(i, network) => MovesStaysAbout(s, i, network, home, homeNetwork);
    case Posts(i, network, destination, now) => PostsStaysAbout(s, i, network, destination, now, home, homeNetwork);
    case GoesHome(i) => GoesHomeStaysAbout(s, i, home, homeNetwork);
    case Handles(r, p, rip, now, up) => HandlesStaysAbout(s, r, p, rip, now, up, home, homeNetwork);
    case Sweeps(_, _) =>
  }

  lemma AboutIsOwn(s: Life, home: int, homeNetwork: int)
    requires Traced(s) && AllAbout(s, home, homeNetwork)
    ensures AllOwnTraced(s)
  {
    forall i | 0 <= i < |s.roamers|
      ensures OwnTraced(s.log, s.roamers[i])
    {
      assert RoamerTraced(s.log, s.handed, s.roamers[i]);
    }
  }

  lemma {:induction false} OneIdentityIsOwn(s: Life, steps: seq<LifeStep>, home: int, homeNetwork: int)
    requires Traced(s) && AllAbout(s, home, homeNetwork) && History(s, steps)
    ensures AllOwnTraced(Later(s, steps))
    decreases |steps|
  {
    if steps == [] {
      AboutIsOwn(s, home, homeNetwork);
    } else {
      StepKeepsTraced(s, steps[0]);
      StepStaysAbout(s, steps[0], home, homeNetwork);
      OneIdentityIsOwn(Next(s, steps[0]), steps[1..], home, homeNetwork);
    }
  }

  // ----- two identities -------------------------------------------------------------

  /** Somewhere neither of two mobiles is at home. */
  function Elsewhere(h: int, h': int): (f: Node)
    ensures IsNode(f) && f != h && f != h'
  {
    if h != 1 && h' != 1 then 1 else if h != 2 && h' != 2 then 2 else 3
  }

  /** While mobile k holds the port of the first address, mobile i hears the agent and asks
      for the same address; it can listen only on another port. */
  lemma AsksToo(s: Life, steps: seq<LifeStep>, t: Life, i: nat, k: nat, f: Node, now: int)
    returns (steps': seq<LifeStep>, t': Life, m: Mobile)
    requires Leads(s, steps, t) && Fresh(s) && Meanwhile(s, t, k) && i != k && i < |t.roamers| && k < |t.roamers|
    requires IsNode(f) && f != t.roamers[i].unit.homeNetwork && t.roamers[k].unit.port == FirstPort(f)
    ensures Leads(s, steps', t') && Meanwhile(t, t', i) && SameIdentity(m, s.roamers[i].unit)
    ensures IsAsking(m, f) && m.careOf == 1 && ListenPort(m) == FirstPort(f)
    ensures MayTake(t'.fas[f].rows[m.careOf], m.homePort, m.homeNetwork)
    ensures Envelope(f, BuildForeignRequest(m)) in t'.sent
  {
    var port;
    var (held, unit) := ({FirstPort(f)}, t.roamers[i].unit);
    assert unit == s.roamers[i].unit;
    var draws := if unit.careOf == 1 then [2] else [];
    BindsBeside(Abroad(unit, f), draws);
    steps', t', port := Asking(s, steps, t, i, f, held, draws, now);
    m := AskedFor(unit, f, port);
    AskedIsAsking(t.fas[f], unit, f, port);
  }

  lemma BindsBeside(m: Mobile, draws: seq<int>)
    requires draws == if m.careOf == 1 then [2] else []
    ensures Rebind(m, {m.foreignNetwork * 1000 + PORT_CLEAR + 1}, draws).1
  {
    if m.careOf == 1 {
      assert BindFree(m.(careOf := 2), {m.foreignNetwork * 1000 + PORT_CLEAR + 1}, draws[1..]).1;
    }
  }

  ghost predicate NeverBound(log: set<Happening>, m: Mobile) {
    forall careOf, agent :: Bound(m.homeNetwork, m.homePort, careOf, agent) !in log
  }

  lemma TakesAnothers(s: Life, steps: seq<LifeStep>, t: Life, k: nat, reply: Word, now: int)
    returns (steps': seq<LifeStep>)
    requires Leads(s, steps, t) && k < |t.roamers| && t.roamers[k].unit.listening
    requires PacketType(reply) == REPLY_PKT_TYPE && Handed(t.roamers[k].unit.port, reply) in t.handed
    requires NeverBound(t.log, t.roamers[k].unit)
    ensures History(s, steps') && !AllOwnTraced(Later(s, steps'))
  {
    var t';
    steps', t' := Taking(s, steps, t, k, reply, now);
    assert !OwnTraced(t'.log, t'.roamers[k]);
  }

  /** Two mobiles hear one advertisement.  One binds the port of the offered address, the other
      is answered first: the reply reaches the port's holder, who takes it for its own. */
  lemma AnotherMobilesReply(s: Life, i: nat, k: nat, now: int) returns (steps: seq<LifeStep>)
    requires Fresh(s) && i < |s.roamers| && k < |s.roamers| && !SameIdentity(s.roamers[i].unit, s.roamers[k].unit)
    ensures History(s, steps) && !AllOwnTraced(Later(s, steps))
  {
    var f := Elsewhere(s.roamers[i].unit.homeNetwork, s.roamers[k].unit.homeNetwork);
    var t, m;
    steps, t, m := OneIsAnswered(s, i, k, f, now);
    steps := TakesAnothers(s, steps, t, k, ReplyTo(m, f), now);
  }

  lemma OneIsAnswered(s: Life, i: nat, k: nat, f: Node, now: int) returns (steps: seq<LifeStep>, t: Life, m: Mobile)
    requires Fresh(s) && i < |s.roamers| && k < |s.roamers| && IsNode(f)
    requires !SameIdentity(s.roamers[i].unit, s.roamers[k].unit)
    requires f != s.roamers[i].unit.homeNetwork && f != s.roamers[k].unit.homeNetwork
    ensures Leads(s, steps, t) && |t.roamers| == |s.roamers| && IsNode(m.homeNetwork)
    ensures t.roamers[k].unit.listening && NeverBound(t.log, t.roamers[k].unit)
    ensures PacketType(ReplyTo(m, f)) == REPLY_PKT_TYPE && Handed(t.roamers[k].unit.port, ReplyTo(m, f)) in t.handed
  {
    steps, t, m := BothAsk(s, i, k, f, now);
    steps, t := Answering(s, steps, t, f, m, now);
  }

  lemma BothAsk(s: Life, i: nat, k: nat, f: Node, now: int) returns (steps: seq<LifeStep>, t: Life, m: Mobile)
    requires Fresh(s) && i < |s.roamers| && k < |s.roamers| && i != k && IsNode(f)
    requires f != s.roamers[i].unit.homeNetwork && f != s.roamers[k].unit.homeNetwork
    ensures Leads(s, steps, t) && |t.roamers| == |s.roamers| && t.log == {}
    ensures SameIdentity(m, s.roamers[i].unit) && SameIdentity(t.roamers[k].unit, s.roamers[k].unit)
    ensures t.roamers[k].unit.listening && t.roamers[k].unit.port == ListenPort(m)
    ensures IsAsking(m, f) && MayTake(t.fas[f].rows[m.careOf], m.homePort, m.homeNetwork)
    ensures Envelope(f, BuildForeignRequest(m)) in t.sent
  {
    steps, t := AskingBound(s, k, f, now);
    var holder := t.roamers[k];
    steps, t, m := AsksToo(s, steps, t, i, k, f, now);
    assert t.roamers[k] == holder;
  }

  // ----- exactly --------------------------------------------------------------------

  /** From a fresh start: every history keeps every flag its mobile's own if and only if no two
      mobiles have different home identities. */
  lemma FlagsAreOwnIff(s: Life)
    requires Fresh(s)
    ensures (forall steps: seq<LifeStep> | History(s, steps) :: AllOwnTraced(Later(s, steps))) <==> OneIdentity(s)
  {
    if OneIdentity(s) {
      forall steps: seq<LifeStep> | History(s, steps)
        ensures AllOwnTraced(Later(s, steps))
      {
        OwnFlags(s, steps);
      }
    } else {
      var i, k :| 0 <= i < |s.roamers| && 0 <= k < |s.roamers| && !SameIdentity(s.roamers[i].unit, s.roamers[k].unit);
      var steps := AnotherMobilesReply(s, i, k, 0);
    }
  }

  lemma OwnFlags(s: Life, steps: seq<LifeStep>)
    requires Fresh(s) && OneIdentity(s) && History(s, steps)
    ensures AllOwnTraced(Later(s, steps))
  {
    FreshIsTraced(s);
    var (home, homeNetwork) := if s.roamers == [] then (0, 0)
                               else (s.roamers[0].unit.homePort, s.roamers[0].unit.homeNetwork);
    OneIdentityIsOwn(s, steps, home, homeNetwork);
  }
}
