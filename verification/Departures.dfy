/** Staying, leaving and coming home: what these do at the routers, and that a mobile which
    has left is ready to register anywhere again. */
module Departures {
  import opened Wire
  import opened RipNetwork
  import opened Agents
  import opened Mobiles
  import opened MobileIp
  import opened Provenance
  import opened LifeRuns

  // ----- staying ------------------------------------------------------------------------

  /** Told at time t that it is registered, for L seconds, a mobile ignores advertisements
      until t + L and from then on answers each with the same request for the address it
      has, unless it is on the move. */
  lemma AsksAgainExactlyWhen(m: Mobile, reply: Word, t: int, advertisement: Word, now: int)
    requires PacketType(reply) == REPLY_PKT_TYPE && PacketType(advertisement) == ICMP_PKT_TYPE
    requires AgentType(IcmpFlags(advertisement)) == ICMP_AGT_FGN
    ensures var m1 := OnForeign(m, reply, t).0;
            var (m2, reaction) := OnForeign(m1, advertisement, now);
            && m1.amRegistered && m1.registerTime == t
            && (if !m.moving && (m.lifeTime == 0 || now >= t + m.lifeTime)
                then reaction == Ask(BuildForeignRequest(m)) && m2 == m1.(failedWaits := m.failedWaits + 1)
                else reaction == Nothing && m2 == m1)
  {
    var m1 := m.(amRegistered := true, wasRegistered := true, registerTime := t);
    RepliesRegister(m, reply, t);
    AdvertisementIsHeard(m1, advertisement, now);
    SameRequest(m1.(failedWaits := m.failedWaits + 1), m);
  }

  lemma RepliesRegister(m: Mobile, reply: Word, t: int)
    requires PacketType(reply) == REPLY_PKT_TYPE
    ensures OnForeign(m, reply, t) == (m.(amRegistered := true, wasRegistered := true, registerTime := t), Nothing)
  {
  }

  lemma AdvertisementIsHeard(m: Mobile, p: Word, now: int)
    requires PacketType(p) == ICMP_PKT_TYPE && AgentType(IcmpFlags(p)) == ICMP_AGT_FGN && m.wasRegistered
    ensures var asked := m.(failedWaits := m.failedWaits + 1);
            OnForeign(m, p, now) ==
            if !m.moving && (m.lifeTime == 0 || now >= m.registerTime + m.lifeTime)
            then (asked, Ask(BuildForeignRequest(asked))) else (m, Nothing)
  {
  }

  // ----- leaving ------------------------------------------------------------------------

  /** A mobile that packs while registered has its agent free the slot of its own address, and
      that alone: the used bit stays.  A mobile that is not sends nothing. */
  lemma PackingFreesSlot(v: AgentView, f: Node, m: Mobile, network: int, now: int, up: bool)
    requires m.leg == Packing && IsNode(f) && FitsRequest(m) && m.careOf < SLOTS
    ensures var (m', reaction) := MoveOn(m, network);
            && !m'.amRegistered && (reaction.Ask? <==> m.amRegistered) && !reaction.Post?
            && (reaction.Ask? ==>
                  var (v', out) := RouterHandles(v, f, reaction.packet, now, up);
                  && out == Quiet && v'.ha == v.ha && v'.rip == v.rip && v'.fa.careOfs == v.fa.careOfs
                  && v'.fa.rows == v.fa.rows[m.careOf := v.fa.rows[m.careOf].(used := false, registered := FALSE)])
  {
    DeregistrationIsHandled(v, f, m, now, up);
  }

  /** The agent frees the slot, keeps the used bit and everything else, and answers nothing. */
  lemma DeregistrationIsHandled(v: AgentView, f: Node, m: Mobile, now: int, up: bool)
    requires IsNode(f) && FitsRequest(m) && m.careOf < SLOTS
    ensures var (v', out) := RouterHandles(v, f, BuildDeregistration(m), now, up);
            && out == Quiet && v'.ha == v.ha && v'.rip == v.rip && v'.fa.careOfs == v.fa.careOfs
            && v'.fa.rows == v.fa.rows[m.careOf := v.fa.rows[m.careOf].(used := false, registered := FALSE)]
  {
    var q := BuildDeregistration(m);
    PlainRequestFields(m);
    NibbleRoundTrip(m.careOf);
    SameFields(q, DecodeRegistration(q));
    PlainRequestHandled(v, f, q, now, up);
  }

  lemma PlainRequestHandled(v: AgentView, r: Node, q: Word, now: int, up: bool)
    requires PacketType(q) == REQT_PKT_TYPE && Flags(q) == REQT_PKT_DEREGISTER
    requires if RequestOf(q).agent == r then RequestOf(q).home < SLOTS else RequestOf(q).careOf < SLOTS
    ensures RouterHandles(v, r, q, now, up) ==
            (if RequestOf(q).agent == r then v.(ha := RegisterHome(v.ha, RequestOf(q), now))
             else v.(fa := DeregisterForeign(v.fa, RequestOf(q).careOf)), Quiet)
  {
  }

  // ----- coming home --------------------------------------------------------------------

  /** Registering at home overwrites the mobile's row with no care-of address and no agent, and
      nothing else, and brings no reply. */
  lemma HomeRegistrationIsHandled(v: AgentView, m: Mobile, now: int, up: bool)
    requires FitsRequest(m) && IsNode(m.homeNetwork) && m.homePort < SLOTS
    ensures RouterHandles(v, m.homeNetwork, BuildHomeRequest(m), now, up) ==
            (v.(ha := v.ha[m.homePort := HomeRow(true, m.homePort, 0, 0, m.homeNetwork, now, TRUE)]), Quiet)
  {
    var q := BuildHomeRequest(m);
    PlainRequestFields(m);
    NibbleRoundTrip(m.homePort);
    NibbleRoundTrip(m.homeNetwork);
    SameFields(q, DecodeRegistration(q));
    PlainRequestHandled(v, m.homeNetwork, q, now, up);
  }

  // ----- going on -----------------------------------------------------------------------

  /** The moving thread's work from the end of one stay to the wait for the next registration. */
  function GoesOn(m: Mobile, network: int): Mobile {
    var packed := AfterMove(AfterMove(AfterMove(AfterMove(m, network), network), network), network);
    AfterMove(AfterMove(packed, network), network)
  }

  /** Having stayed anywhere, registered or not, a mobile that goes on to another network waits
      there for a registration as if it came for the first time: it adopts whatever
      address it is offered. */
  lemma ReadyAgain(m: Mobile, network: Node, now: int)
    requires m.leg == Staying && IsNode(m.homeNetwork) && network != m.homeNetwork && 1 <= m.homePort < SLOTS
    ensures var m' := GoesOn(m, network);
            && m'.leg == Waiting && !m'.atHome && !m'.amRegistered && m'.foreignNetwork == network
            && m'.failedWaits == 0 && IsArriving(m', network, now)
  {
  }

  /** Coming home takes the care-of interface down: the mobile may still take what is on its
      way to the old port, once, but it cannot bind any port until it leaves home again. */
  lemma HomeIsDeaf(s: Life, i: nat, busy: set<int>, draws: seq<int>, network: int)
    requires i < |s.roamers| && s.roamers[i].unit.leg == Leaving && 0 <= s.roamers[i].unit.homeNetwork < 16
    requires 0 <= network < 16
    ensures var home := Next(s, Moves(i, s.roamers[i].unit.homeNetwork));
            && home.roamers[i].unit.atHome && !Possible(home, Binds(i, busy, draws))
            && var gone := Next(home, Moves(i, network)).roamers[i].unit;
               gone.careUp && !gone.amRegistered && gone.leg == Leaving
  {
  }
}
