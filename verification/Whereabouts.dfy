/** What a mobile's flag says about where it is.  The flag is raised by a reply on whatever
    port the mobile has bound, and survives a change of network, or going home; so it is
    right exactly as long as no reply is taken between leaving one network and listening on
    the next. */
module Whereabouts {
  import opened Wire
  import opened RipNetwork
  import opened Agents
  import opened Mobiles
  import opened MobileIp
  import opened CareOfAddresses
  import opened Provenance
  import opened LifeRuns

  /** A mobile that takes itself for registered abroad is abroad, and the reply that told it so
      was for the address it has now. */
  predicate Here(r: Roamer) {
    r.unit.amRegistered ==> !r.unit.atHome && r.last.port == ListenPort(r.unit)
  }

  predicate AllHere(s: Life) {
    forall i | 0 <= i < |s.roamers| :: Here(s.roamers[i])
  }

  ghost predicate HereAllAlong(s: Life, steps: seq<LifeStep>)
    requires History(s, steps)
    decreases |steps|
  {
    AllHere(s) && (steps != [] ==> HereAllAlong(Next(s, steps[0]), steps[1..]))
  }

  /** Two tests the mobile does not make: that a reply comes in abroad, on the port of its
      address, and that it is not registered when it goes on to another network or home. */
  predicate Mindful(s: Life, step: LifeStep)
    requires Possible(s, step)
  {
    match step
    case Takes(i, p, _) =>
      var m := s.roamers[i].unit;
      PacketType(p) == REPLY_PKT_TYPE ==> !m.atHome && m.port == ListenPort(m)
    case Moves(i, network) =>
      var m := s.roamers[i].unit;
      m.leg == Leaving && m.amRegistered ==> network != m.homeNetwork && network == m.foreignNetwork
    case _ => true
  }

  predicate MindfulAllAlong(s: Life, steps: seq<LifeStep>)
    requires History(s, steps)
    decreases |steps|
  {
    steps != [] ==> Mindful(s, steps[0]) && MindfulAllAlong(Next(s, steps[0]), steps[1..])
  }

  // ----- mindful steps keep the flag right --------------------------------------------

  /** ... and the mobile has not bound another port since. */
  predicate Settled(r: Roamer) {
    r.unit.amRegistered ==> !r.unit.atHome && r.last.port == ListenPort(r.unit) == r.unit.port
  }

  predicate AllSettled(s: Life) {
    forall i | 0 <= i < |s.roamers| :: Settled(s.roamers[i])
  }

  lemma TakingKeepsSettled(r: Roamer, p: Word, now: int)
    requires MobileFits(r.unit) && Settled(r)
    requires PacketType(p) == REPLY_PKT_TYPE ==> !r.unit.atHome && r.unit.port == ListenPort(r.unit)
    ensures Settled(AfterTaking(r, p, now))
  {
    if PacketType(p) == ICMP_PKT_TYPE && !r.unit.moving {
      OfferFits(r.unit, p);
    }
  }

  lemma BindingKeepsSettled(r: Roamer, busy: set<int>, draws: seq<int>)
    requires Settled(r) && Rebind(r.unit, busy, draws).1
    ensures Settled(r.(unit := Rebind(r.unit, busy, draws).0))
  {
    RebindListens(r.unit, busy, draws);
  }

  lemma MovingKeepsSettled(r: Roamer, network: int)
    requires Settled(r)
    requires var m := r.unit;
             m.leg == Leaving && m.amRegistered ==> network != m.homeNetwork && network == m.foreignNetwork
    ensures Settled(r.(unit := AfterMove(r.unit, network)))
  {
  }

  lemma SendingKeepsSettled(r: Roamer, network: int, destination: int, now: int)
    requires Settled(r)
    ensures Settled(r.(unit := SendIp(r.unit, network, destination, now).0))
  {
  }

  lemma StepKeepsSettled(s: Life, step: LifeStep)
    requires Traced(s) && AllSettled(s) && Possible(s, step) && Mindful(s, step)
    ensures AllSettled(Next(s, step))
  {
    match step
    case Takes(i, p, now) => TakingKeepsSettled(s.roamers[i], p, now);
    case Binds(i, busy, draws) => BindingKeepsSettled(s.roamers[i], busy, draws);
    case Moves(i, network) => MovingKeepsSettled(s.roamers[i], network);
    case Posts(i, network, destination, now) => SendingKeepsSettled(s.roamers[i], network, destination, now);
    case GoesHome(_) =>
    case Handles(r, p, rip, now, up) =>
    case Sweeps(_, _) =>
  }

  lemma {:induction false} MindfulIsHere(s: Life, steps: seq<LifeStep>)
    requires Traced(s) && AllSettled(s) && History(s, steps) && MindfulAllAlong(s, steps)
    ensures HereAllAlong(s, steps)
    decreases |steps|
  {
    if steps != [] {
      StepKeepsTraced(s, steps[0]);
      StepKeepsSettled(s, steps[0]);
      MindfulIsHere(Next(s, steps[0]), steps[1..]);
    }
  }

  // ----- other steps put it wrong at once ---------------------------------------------

  lemma UnmindfulIsElsewhere(s: Life, step: LifeStep)
    requires AllHere(s) && Possible(s, step) && !Mindful(s, step)
    ensures !AllHere(Next(s, step))
  {
    var r := s.roamers[step.mobile];
    assert Here(r);
    assert !Here(Next(s, step).roamers[step.mobile]);
  }

  lemma {:induction false} HereIsMindful(s: Life, steps: seq<LifeStep>)
    requires History(s, steps) && HereAllAlong(s, steps)
    ensures MindfulAllAlong(s, steps)
    decreases |steps|
  {
    if steps != [] {
      assert AllHere(Next(s, steps[0]));
      if !Mindful(s, steps[0]) {
        UnmindfulIsElsewhere(s, steps[0]);
      }
      HereIsMindful(Next(s, steps[0]), steps[1..]);
    }
  }

  lemma FreshIsSettled(s: Life)
    requires Fresh(s)
    ensures AllSettled(s)
  {
  }

  /** The exact condition: over a history every flag is right all along if and only if replies
      are only taken abroad, on the port of the mobile's address, and no mobile goes to
      another network or home while it takes itself for registered. */
  lemma FlagsAreRightIff(s: Life, steps: seq<LifeStep>)
    requires Fresh(s) && History(s, steps)
    ensures HereAllAlong(s, steps) <==> MindfulAllAlong(s, steps)
  {
    FreshIsTraced(s);
    FreshIsSettled(s);
    if MindfulAllAlong(s, steps) {
      MindfulIsHere(s, steps);
    }
    if HereAllAlong(s, steps) {
      HereIsMindful(s, steps);
    }
  }

  ghost predicate RegisteredAt(log: set<Happening>, network: int, careOf: int) {
    exists home, agent :: Bound(agent, home, careOf, network) in log && Accepted(network, careOf, home, agent) in log
  }

  /** What a right flag means: the mobile is away, the network it is on accepted its care-of
      address, and a home agent bound it. */
  lemma RightFlagIsRegistered(s: Life, i: nat)
    requires Traced(s) && i < |s.roamers| && Here(s.roamers[i]) && s.roamers[i].unit.amRegistered
    ensures !s.roamers[i].unit.atHome
    ensures RegisteredAt(s.log, s.roamers[i].unit.foreignNetwork, s.roamers[i].unit.careOf)
  {
    var (m, p) := (s.roamers[i].unit, s.roamers[i].last.packet);
    assert RoamerTraced(s.log, s.handed, s.roamers[i]);
    SamePort(m, p);
    assert Bound(RequestOf(p).source, RequestOf(p).home, m.careOf, m.foreignNetwork) in s.log;
  }

  lemma SamePort(m: Mobile, p: Word)
    requires 0 <= m.careOf < 16 && (Destination(p) as int) * 1000 + PORT_CLEAR + CareOf(p) as int == ListenPort(m)
    ensures Destination(p) as int == m.foreignNetwork && RequestOf(p).careOf == m.careOf
  {
    var (network, careOf) := (Destination(p) as int, CareOf(p) as int);
    assert careOf < 16;
    assert m.foreignNetwork * 1000 + m.careOf == network * 1000 + careOf;
  }

  // ----- a run in which it goes wrong -------------------------------------------------

  /** Who is said to be registered where. */
  ghost predicate OnlyHappened(log: set<Happening>, m: Mobile, f: Node) {
    forall h <- log :: h == Accepted(f, m.careOf, m.homePort, m.homeNetwork) ||
                       h == Bound(m.homeNetwork, m.homePort, m.careOf, f)
  }

  lemma Registering(s: Life, x: nat, f: Node, now: int) returns (steps: seq<LifeStep>, t: Life)
    requires Fresh(s) && x < |s.roamers| && IsNode(f) && f != s.roamers[x].unit.homeNetwork
    ensures Leads(s, steps, t) && |t.roamers| == |s.roamers|
    ensures var m := AskedThere(s.roamers[x].unit, f);
            && OnlyHappened(t.log, m, f) && IsNode(m.homeNetwork)
            && t.roamers[x].unit == m.(amRegistered := true, wasRegistered := true, registerTime := now)
  {
    var m := AskedThere(s.roamers[x].unit, f);
    steps, t := AskingBound(s, x, f, now);
    steps, t := Answering(s, steps, t, f, m, now);
    steps, t := TakingReply(s, steps, t, x, ReplyTo(m, f), now);
  }

  lemma TakingReply(s: Life, steps: seq<LifeStep>, t: Life, x: nat, reply: Word, now: int)
    returns (steps': seq<LifeStep>, t': Life)
    requires Leads(s, steps, t) && x < |t.roamers| && t.roamers[x].unit.listening
    requires PacketType(reply) == REPLY_PKT_TYPE && Handed(t.roamers[x].unit.port, reply) in t.handed
    ensures Leads(s, steps', t') && t'.log == t.log && |t'.roamers| == |t.roamers|
    ensures t'.roamers[x] == Roamer(t.roamers[x].unit.(amRegistered := true, wasRegistered := true, registerTime := now,
                                                       listening := false),
                                    Handed(t.roamers[x].unit.port, reply))
  {
    steps', t' := Taking(s, steps, t, x, reply, now);
  }

  /** Registered abroad, the mobile packs and leaves, and goes on listening. */
  lemma PacksUp(s: Life, steps: seq<LifeStep>, t: Life, x: nat) returns (steps': seq<LifeStep>, t': Life)
    requires Leads(s, steps, t) && x < |t.roamers| && t.roamers[x].unit.leg == Turned && t.roamers[x].unit.amRegistered
    ensures Leads(s, steps', t') && t'.log == t.log && t.sent <= t'.sent && |t'.roamers| == |t.roamers|
    ensures t'.roamers[x].unit == t.roamers[x].unit.(
              moving := true, amRegistered := false, wasRegistered := false, lifeTime := 0, leg := Leaving)
  {
    steps', t' := Moving(s, steps, t, x, 0);
    steps', t' := Moving(s, steps', t', x, 0);
    steps', t' := Moving(s, steps', t', x, 0);
    steps', t' := TakesDown(s, steps', t', x);
  }

  lemma TakesDown(s: Life, steps: seq<LifeStep>, t: Life, x: nat) returns (steps': seq<LifeStep>, t': Life)
    requires Leads(s, steps, t) && x < |t.roamers| && t.roamers[x].unit.leg == Packing
    ensures Leads(s, steps', t') && t'.log == t.log && t.sent <= t'.sent && |t'.roamers| == |t.roamers|
    ensures t'.roamers[x].unit == t.roamers[x].unit.(
              amRegistered := false, wasRegistered := false, lifeTime := 0, leg := Leaving)
  {
    steps', t' := Moving(s, steps, t, x, 0);
    steps', t' := Moving(s, steps', t', x, 0);
    steps', t' := Moving(s, steps', t', x, 0);
  }

  lemma ListensAgain(s: Life, steps: seq<LifeStep>, t: Life, x: nat) returns (steps': seq<LifeStep>, t': Life)
    requires Leads(s, steps, t) && x < |t.roamers|
    requires var m := t.roamers[x].unit; m.careUp && !m.listening && m.port == ListenPort(m)
    ensures Leads(s, steps', t') && Meanwhile(t, t', x)
    ensures t'.roamers[x] == t.roamers[x].(unit := t.roamers[x].unit.(listening := true))
  {
    steps', t' := Binding(s, steps, t, x, set k | 0 <= k < |t.roamers| :: t.roamers[k].unit.port, []);
  }

  lemma FreshAgentsOk(s: Life)
    requires Fresh(s)
    ensures AgentsOk(s)
  {
    forall r: Node, i | 0 <= i < SLOTS
      ensures SlotOk(s.fas[r], i)
    {
      assert IsEmpty(s.fas[r]);
    }
  }

  lemma AsksForItsOwn(fa: ForeignAgent, f: Node, m: Mobile, now: int)
    requires AgentOk(fa) && m.wasRegistered && !m.moving && !StillRegistered(m, now)
    ensures var (p, m') := (MakeAdvertisement(f, true, false, fa), m.(failedWaits := m.failedWaits + 1));
            PacketType(p) == ICMP_PKT_TYPE && OnForeign(m, p, now) == (m', Ask(BuildForeignRequest(m')))
  {
    FreeIsNotLive(fa);
    HeardAsForeignIff(f, true, false, fa);
  }

  /** With its lifetime over, a mobile that hears its agent asks again for the address it has. */
  lemma AskingAgain(s: Life, steps: seq<LifeStep>, t: Life, x: nat, f: Node, now: int)
    returns (steps': seq<LifeStep>, t': Life)
    requires Fresh(s) && Leads(s, steps, t) && x < |t.roamers| && t.roamers[x].unit.listening
    requires var m := t.roamers[x].unit; m.wasRegistered && !m.moving && !StillRegistered(m, now) && m.agent == f
    ensures var m' := t.roamers[x].unit.(failedWaits := t.roamers[x].unit.failedWaits + 1, listening := false);
            && Leads(s, steps', t') && Meanwhile(t, t', x) && t'.roamers[x] == t.roamers[x].(unit := m')
            && Envelope(f, BuildForeignRequest(m')) in t'.sent
  {
    var (m, p) := (t.roamers[x].unit, MakeAdvertisement(f, true, false, t.fas[f]));
    FreshAgentsOk(s);
    NobodyLiveIsAdvertised(s, steps, f);
    AsksForItsOwn(t.fas[f], f, m, now);
    steps', t' := Taking(s, steps, t, x, p, now);
    var asked := OnForeign(m, p, now).0;
    assert Envelope(f, BuildForeignRequest(asked)) in t'.sent;
    SameRequest(asked, asked.(listening := false));
  }

  /** The agent takes its own mobile again. */
  lemma TakesOwn(s: Life, steps: seq<LifeStep>, t: Life, f: Node, m: Mobile)
    requires Fresh(s) && Leads(s, steps, t) && OnlyHappened(t.log, m, f) && UsableCareOf(m.careOf) && IsNode(f)
    requires f != m.homeNetwork
    ensures MayTake(t.fas[f].rows[m.careOf], m.homePort, m.homeNetwork)
  {
    EverythingIsTraced(s, steps);
    assert SlotTraced(t.log, f, t.fas[f].rows[m.careOf]);
  }

  /** Registered at f, the mobile stays past its lifetime and asks again ... */
  lemma StaysOn(s: Life, x: nat, f: Node, now: int) returns (steps: seq<LifeStep>, t: Life)
    requires Fresh(s) && x < |s.roamers| && IsNode(f) && f != s.roamers[x].unit.homeNetwork
    ensures Leads(s, steps, t) && |t.roamers| == |s.roamers|
    ensures var m := AskedThere(s.roamers[x].unit, f);
            && OnlyHappened(t.log, m, f) && Envelope(f, BuildForeignRequest(m)) in t.sent
            && t.roamers[x].unit == m.(listening := true, failedWaits := 2, registerTime := now,
                                       amRegistered := true, wasRegistered := true)
  {
    steps, t := Registering(s, x, f, now);
    steps, t := ListensAgain(s, steps, t, x);
    steps, t := AskingAgain(s, steps, t, x, f, now + LIFETIME);
    SameRequest(t.roamers[x].unit, AskedThere(s.roamers[x].unit, f));
    steps, t := ListensAgain(s, steps, t, x);
  }

  /** ... and leaves before the second reply is there. */
  lemma LeavesEarly(s: Life, x: nat, f: Node, now: int) returns (steps: seq<LifeStep>, t: Life)
    requires Fresh(s) && x < |s.roamers| && IsNode(f) && f != s.roamers[x].unit.homeNetwork
    ensures Leads(s, steps, t) && |t.roamers| == |s.roamers|
    ensures var m := AskedThere(s.roamers[x].unit, f);
            && OnlyHappened(t.log, m, f) && Envelope(f, BuildForeignRequest(m)) in t.sent
            && IsNode(m.homeNetwork) && IsAsking(m, f) && ListenPort(m) == FirstPort(f)
            && t.roamers[x].unit == m.(listening := true, failedWaits := 2, registerTime := now, moving := true,
                                       amRegistered := false, wasRegistered := false, lifeTime := 0, leg := Leaving)
  {
    steps, t := StaysOn(s, x, f, now);
    steps, t := PacksUp(s, steps, t, x);
    AskedIsAsking(s.fas[f], s.roamers[x].unit, f, FirstPort(f));
  }

  /** The second reply then reaches the port it still holds. */
  lemma ReplyIsLate(s: Life, x: nat, f: Node, now: int) returns (steps: seq<LifeStep>, t: Life)
    requires Fresh(s) && x < |s.roamers| && IsNode(f) && f != s.roamers[x].unit.homeNetwork
    ensures Leads(s, steps, t) && |t.roamers| == |s.roamers|
    ensures var m := AskedThere(s.roamers[x].unit, f);
            && OnlyHappened(t.log, m, f) && IsNode(m.homeNetwork)
            && PacketType(ReplyTo(m, f)) == REPLY_PKT_TYPE && Handed(FirstPort(f), ReplyTo(m, f)) in t.handed
    ensures var m := t.roamers[x].unit;
            && m.leg == Leaving && m.listening && m.port == FirstPort(f) && m.foreignNetwork == f
            && m.homeNetwork == s.roamers[x].unit.homeNetwork
  {
    var m := AskedThere(s.roamers[x].unit, f);
    steps, t := LeavesEarly(s, x, f, now);
    TakesOwn(s, steps, t, f, m);
    steps, t := Answering(s, steps, t, f, m, now);
  }

  /** A late reply to a second request: taken on the old port after the mobile has left f, it
      raises the flag again, and the mobile takes itself for registered on network b, which
      has accepted nothing. */
  lemma LateReply(s: Life, x: nat, f: Node, b: Node, now: int) returns (steps: seq<LifeStep>)
    requires Fresh(s) && x < |s.roamers| && IsNode(f) && IsNode(b) && f != b
    requires f != s.roamers[x].unit.homeNetwork && b != s.roamers[x].unit.homeNetwork
    ensures History(s, steps) && x < |Later(s, steps).roamers|
    ensures var m := Later(s, steps).roamers[x].unit;
            m.amRegistered && m.foreignNetwork == b && !RegisteredAt(Later(s, steps).log, b, m.careOf)
  {
    var t;
    steps, t := ReplyIsLate(s, x, f, now);
    steps, t := TakingReply(s, steps, t, x, ReplyTo(AskedThere(s.roamers[x].unit, f), f), now);
    steps, t := Moving(s, steps, t, x, b);
  }

  /** ... or for registered abroad although it is back at home. */
  lemma LateReplyAtHome(s: Life, x: nat, f: Node, now: int) returns (steps: seq<LifeStep>)
    requires Fresh(s) && x < |s.roamers| && IsNode(f) && f != s.roamers[x].unit.homeNetwork
    ensures History(s, steps) && x < |Later(s, steps).roamers|
    ensures Later(s, steps).roamers[x].unit.amRegistered && Later(s, steps).roamers[x].unit.atHome
  {
    var t;
    steps, t := ReplyIsLate(s, x, f, now);
    steps, t := Moving(s, steps, t, x, s.roamers[x].unit.homeNetwork);
    steps, t := TakingReply(s, steps, t, x, ReplyTo(AskedThere(s.roamers[x].unit, f), f), now);
  }
}
