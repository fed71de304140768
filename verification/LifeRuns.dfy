/** Building histories step by step: a mobile goes abroad and asks, the routers answer. */
module LifeRuns {
  import opened Wire
  import opened RoutingTables
  import opened RipRouters
  import opened RipNetwork
  import opened RipLookups
  import opened Agents
  import opened Mobiles
  import opened MobileIp
  import opened Provenance

  ghost predicate Leads(s: Life, steps: seq<LifeStep>, t: Life) {
    History(s, steps) && Later(s, steps) == t
  }

  lemma Starts(s: Life)
    ensures Leads(s, [], s)
  {
  }

  lemma {:induction false} Extends(s: Life, steps: seq<LifeStep>, t: Life, step: LifeStep)
    requires Leads(s, steps, t) && Possible(t, step)
    ensures Leads(s, steps + [step], Next(t, step))
    decreases |steps|
  {
    if steps == [] {
      assert [step][1..] == [] && [] + [step] == [step];
      Starts(Next(s, step));
    } else {
      assert (steps + [step])[1..] == steps[1..] + [step];
      Extends(Next(s, steps[0]), steps[1..], t, step);
    }
  }

  /** Between s and t only mobile x, and mail, may have moved. */
  ghost predicate Meanwhile(s: Life, t: Life, x: nat) {
    && |t.roamers| == |s.roamers| && (forall k | 0 <= k < |s.roamers| && k != x :: t.roamers[k] == s.roamers[k])
    && t.fas == s.fas && t.has == s.has && t.log == s.log && t.handed == s.handed && s.sent <= t.sent
  }

  lemma Moving(s: Life, steps: seq<LifeStep>, t: Life, x: nat, network: int) returns (steps': seq<LifeStep>, t': Life)
    requires Leads(s, steps, t) && x < |t.roamers| && CanMove(t.roamers[x].unit) && 0 <= network < 16
    ensures Leads(s, steps', t') && Meanwhile(t, t', x)
    ensures t'.roamers[x] == t.roamers[x].(unit := AfterMove(t.roamers[x].unit, network))
  {
    Extends(s, steps, t, Moves(x, network));
    steps', t' := steps + [Moves(x, network)], Next(t, Moves(x, network));
  }

  lemma Binding(s: Life, steps: seq<LifeStep>, t: Life, x: nat, busy: set<int>, draws: seq<int>)
    returns (steps': seq<LifeStep>, t': Life)
    requires Leads(s, steps, t) && Possible(t, Binds(x, busy, draws))
    ensures Leads(s, steps', t') && Meanwhile(t, t', x)
    ensures t'.roamers[x] == t.roamers[x].(unit := Rebind(t.roamers[x].unit, busy, draws).0)
  {
    Extends(s, steps, t, Binds(x, busy, draws));
    steps', t' := steps + [Binds(x, busy, draws)], Next(t, Binds(x, busy, draws));
  }

  lemma Taking(s: Life, steps: seq<LifeStep>, t: Life, x: nat, p: Word, now: int)
    returns (steps': seq<LifeStep>, t': Life)
    requires Leads(s, steps, t) && Possible(t, Takes(x, p, now))
    ensures Leads(s, steps', t') && Meanwhile(t, t', x) && t'.roamers[x] == AfterTaking(t.roamers[x], p, now)
    ensures Mail(OnForeign(t.roamers[x].unit, p, now).0, OnForeign(t.roamers[x].unit, p, now).1) <= t'.sent
  {
    Extends(s, steps, t, Takes(x, p, now));
    steps', t' := steps + [Takes(x, p, now)], Next(t, Takes(x, p, now));
  }

  // ----- asking ---------------------------------------------------------------------

  /** A mobile starting out, once it has gone to f and asked there for care-of address 1. */
  function AskedFor(m: Mobile, f: Node, port: int): Mobile {
    m.(foreignNetwork := f, agent := f, careOf := 1, lifeTime := 15, failedWaits := 1, atHome := false,
       leg := Turned, port := port, careUp := true)
  }

  function Abroad(m: Mobile, f: Node): Mobile {
    m.(atHome := false, careUp := true, foreignNetwork := f, leg := Turned)
  }

  /** From home to network f. */
  lemma GoingAbroad(s: Life, steps: seq<LifeStep>, t: Life, x: nat, f: Node) returns (steps': seq<LifeStep>, t': Life)
    requires Leads(s, steps, t) && x < |t.roamers| && Started(t.roamers[x].unit) && f != t.roamers[x].unit.homeNetwork
    ensures Leads(s, steps', t') && Meanwhile(t, t', x)
    ensures t'.roamers[x] == t.roamers[x].(unit := Abroad(t.roamers[x].unit, f))
  {
    steps', t' := Moving(s, steps, t, x, t.roamers[x].unit.homeNetwork);
    steps', t' := Moving(s, steps', t', x, 0);
    steps', t' := Moving(s, steps', t', x, f);
  }

  /** The advertisement of a foreign agent nobody has registered with. */
  function FirstOffer(fa: ForeignAgent, f: Node): Word {
    MakeAdvertisement(f, true, false, fa)
  }

  lemma OffersOne(fa: ForeignAgent, f: Node, m: Mobile, now: int)
    requires IsEmpty(fa) && !m.wasRegistered && !m.moving && m.lifeTime == 0 && m.failedWaits == 0
    ensures var (m', reaction) := OnForeign(m, FirstOffer(fa, f), now);
            && PacketType(FirstOffer(fa, f)) == ICMP_PKT_TYPE
            && m' == m.(foreignNetwork := f, agent := f, careOf := 1, lifeTime := 15, failedWaits := 1)
            && reaction == Ask(BuildForeignRequest(m'))
  {
    FirstOfferWords(fa, f);
    TakesOffer(m, FirstOffer(fa, f), now);
  }

  lemma FirstOfferWords(fa: ForeignAgent, f: Node)
    requires IsEmpty(fa)
    ensures var p := FirstOffer(fa, f);
            && PacketType(p) == ICMP_PKT_TYPE && AgentType(IcmpFlags(p)) == ICMP_AGT_FGN
            && IcmpSource(p) as int == f && IcmpCareOf(p) as int == 1 && IcmpLifeTime(p) as int == 15
  {
    assert fa.careOfs[0] == CareOfRow(1, false);
    assert FreeCareOf(fa.careOfs) == 1;
    HeardAsForeignIff(f, true, false, fa);
  }

  lemma TakesOffer(m: Mobile, p: Word, now: int)
    requires PacketType(p) == ICMP_PKT_TYPE && AgentType(IcmpFlags(p)) == ICMP_AGT_FGN
    requires !m.wasRegistered && !m.moving && m.lifeTime == 0
    ensures var m' := m.(lifeTime := IcmpLifeTime(p) as int, foreignNetwork := IcmpSource(p) as int,
                         agent := IcmpSource(p) as int, careOf := IcmpCareOf(p) as int,
                         failedWaits := m.failedWaits + 1);
            OnForeign(m, p, now) == (m', Ask(BuildForeignRequest(m')))
  {
  }

  /** A mobile goes to f, binds some port there, hears the agent and asks for address 1. */
  lemma Asking(s: Life, steps: seq<LifeStep>, t: Life, x: nat, f: Node, busy: set<int>, draws: seq<int>, now: int)
    returns (steps': seq<LifeStep>, t': Life, port: int)
    requires Leads(s, steps, t) && x < |t.roamers| && Started(t.roamers[x].unit) && f != t.roamers[x].unit.homeNetwork
    requires IsEmpty(t.fas[f]) && HoldsOthers(t, x, busy) && forall c <- draws :: UsableCareOf(c)
    requires Rebind(Abroad(t.roamers[x].unit, f), busy, draws).1
    ensures Leads(s, steps', t') && Meanwhile(t, t', x)
    ensures t'.roamers[x] == t.roamers[x].(unit := AskedFor(t.roamers[x].unit, f, port))
    ensures Envelope(f, BuildForeignRequest(AskedFor(t.roamers[x].unit, f, port))) in t'.sent
  {
    var m := t.roamers[x].unit;
    steps', t' := GoingAbroad(s, steps, t, x, f);
    RebindListens(Abroad(m, f), busy, draws);
    steps', t' := Binding(s, steps', t', x, busy, draws);
    port := t'.roamers[x].unit.port;
    steps', t' := Hearing(s, steps', t', x, f, now);
  }

  lemma Hearing(s: Life, steps: seq<LifeStep>, t: Life, x: nat, f: Node, now: int)
    returns (steps': seq<LifeStep>, t': Life)
    requires Leads(s, steps, t) && x < |t.roamers| && t.roamers[x].unit.listening && IsEmpty(t.fas[f])
    requires var m := t.roamers[x].unit; !m.wasRegistered && !m.moving && m.lifeTime == 0 && m.failedWaits == 0
    ensures var m' := t.roamers[x].unit.(foreignNetwork := f, agent := f, careOf := 1, lifeTime := 15,
                                         failedWaits := 1, listening := false);
            && Leads(s, steps', t') && Meanwhile(t, t', x) && t'.roamers[x] == t.roamers[x].(unit := m')
            && Envelope(f, BuildForeignRequest(m')) in t'.sent
  {
    var (m, p) := (t.roamers[x].unit, FirstOffer(t.fas[f], f));
    OffersOne(t.fas[f], f, m, now);
    steps', t' := Taking(s, steps, t, x, p, now);
    var asked := OnForeign(m, p, now).0;
    assert Envelope(f, BuildForeignRequest(asked)) in t'.sent;
    SameRequest(asked, asked.(listening := false));
  }

  /** A request depends on these fields only. */
  lemma SameRequest(m: Mobile, m': Mobile)
    requires m'.homePort == m.homePort && m'.homeNetwork == m.homeNetwork
    requires m'.careOf == m.careOf && m'.lifeTime == m.lifeTime
    ensures BuildForeignRequest(m') == BuildForeignRequest(m)
  {
  }

  lemma AskedIsAsking(fa: ForeignAgent, m: Mobile, f: Node, port: int)
    requires IsEmpty(fa) && Started(m) && IsNode(f) && f != m.homeNetwork
    ensures var m' := AskedFor(m, f, port);
            && IsAsking(m', f) && MayTake(fa.rows[m'.careOf], m'.homePort, m'.homeNetwork)
            && ListenPort(m') == f * 1000 + PORT_CLEAR + 1
  {
    assert fa.rows[1] == NO_FOREIGN_ROW;
  }

  /** The port of address 1 on network f, and a mobile that has started out, gone to f, and
      asked for that address with the port bound. */
  function FirstPort(f: Node): int {
    f * 1000 + PORT_CLEAR + 1
  }

  function AskedThere(m: Mobile, f: Node): Mobile {
    AskedFor(m, f, FirstPort(f))
  }

  /** Bound to the address it asked for, the mobile waits for the reply. */
  lemma AskingBound(s: Life, x: nat, f: Node, now: int) returns (steps: seq<LifeStep>, t: Life)
    requires Fresh(s) && x < |s.roamers| && IsNode(f) && f != s.roamers[x].unit.homeNetwork
    ensures Leads(s, steps, t) && Meanwhile(s, t, x)
    ensures var m := AskedThere(s.roamers[x].unit, f);
            && t.roamers[x] == s.roamers[x].(unit := m.(listening := true))
            && Envelope(f, BuildForeignRequest(m)) in t.sent
            && IsAsking(m, f) && ListenPort(m) == FirstPort(f)
            && MayTake(t.fas[f].rows[m.careOf], m.homePort, m.homeNetwork)
  {
    Starts(s);
    var port;
    steps, t, port := Asking(s, [], s, x, f, {}, [], now);
    SameRequest(AskedFor(s.roamers[x].unit, f, port), AskedThere(s.roamers[x].unit, f));
    AskedIsAsking(s.fas[f], s.roamers[x].unit, f, FirstPort(f));
    steps, t := Binding(s, steps, t, x, {}, []);
  }

  // ----- answering ------------------------------------------------------------------

  /** Routes to everywhere, in one hop. */
  function Everywhere(): (v: RouterView)
    ensures forall n: Node :: DispatchedTo(v.table, n) == n
  {
    RouterView(seq(MAX_ROUTERS, n requires 0 <= n < MAX_ROUTERS => Learned(n, DIRECT, n)),
               seq(MAX_ROUTERS, _ => 0), true)
  }

  lemma RequestHandled(fa: ForeignAgent, ha: HomeRows, f: Node, m: Mobile, rip: RouterView, now: int)
    requires IsAsking(m, f) && MayTake(fa.rows[m.careOf], m.homePort, m.homeNetwork)
    requires DispatchedTo(rip.table, m.homeNetwork) == m.homeNetwork
    ensures var (q, j) := (BuildForeignRequest(m), RegistrationOf(m, f));
            && InBounds(q, f) && Happens(fa, f, q) == {Accepted(f, m.careOf, m.homePort, m.homeNetwork)}
            && Handle(AgentView(fa, ha, rip), f, q, now, true).1 == ToRouter(m.homeNetwork, j.inner)
  {
    var (v, q, j) := (AgentView(fa, ha, rip), BuildForeignRequest(m), RegistrationOf(m, f));
    RequestBecomesRegistration(m, f);
    assert RequestOf(q).careOf == m.careOf && RequestOf(q).home == m.homePort && RequestOf(q).agent == m.homeNetwork;
    DirectRequestIsHandled(v, f, q, now, true);
    assert RouterHandles(v, f, q, now, true).1 == ToRouter(m.homeNetwork, j.inner);
  }

  lemma RelayHandled(v: AgentView, f: Node, m: Mobile, now: int)
    requires IsAsking(m, f) && DispatchedTo(v.rip.table, f) == f
    ensures var (h, j) := (m.homeNetwork, RegistrationOf(m, f));
            && InBounds(j.inner, h) && Happens(v.fa, h, j.inner) == {Bound(h, m.homePort, m.careOf, f)}
            && Handle(v, h, j.inner, now, false).1 == ToRouter(f, j.outer)
  {
    var j := RegistrationOf(m, f);
    RequestBecomesRegistration(m, f);
    RegistrationAt(j, v, j.home, now, false);
    assert RouterHandles(v, j.home, j.inner, now, false).1 == ToRouter(f, j.outer);
  }

  lemma ReplyHandled(v: AgentView, f: Node, m: Mobile, now: int)
    requires IsAsking(m, f)
    ensures var j := RegistrationOf(m, f);
            && InBounds(j.outer, f) && Happens(v.fa, f, j.outer) == {} && PacketType(j.outer) == REPLY_PKT_TYPE
            && Handle(v, f, j.outer, now, true).1 == ToMobile(ListenPort(m), j.outer)
  {
    var j := RegistrationOf(m, f);
    RequestBecomesRegistration(m, f);
    ReplyBelongsTo(m, f);
    RegistrationAt(j, v, f, now, true);
    assert RouterHandles(v, f, j.outer, now, true).1 == ToMobile(j.port, j.outer);
  }

  /** A router handles a packet; its output and what happens are known. */
  lemma Handling(s: Life, steps: seq<LifeStep>, t: Life, r: Node, p: Word, now: int, up: bool, out: Output,
                 happens: set<Happening>)
    returns (steps': seq<LifeStep>, t': Life)
    requires Leads(s, steps, t) && IsNode(r) && Envelope(r, p) in t.sent && InBounds(p, r)
    requires var v := AgentView(t.fas[r], t.has[r], Everywhere());
             Handle(v, r, p, now, up).1 == out && Happens(v.fa, r, p) == happens
    ensures Leads(s, steps', t') && t'.roamers == t.roamers && t'.log == t.log + happens
    ensures out.ToRouter? ==> Envelope(out.router, out.packet) in t'.sent
    ensures out.ToMobile? ==> Handed(out.port, out.packet) in t'.handed
  {
    var step := Handles(r, p, Everywhere(), now, up);
    Extends(s, steps, t, step);
    steps', t' := steps + [step], Next(t, step);
  }

  function ReplyTo(m: Mobile, f: Node): Word
    requires IsNode(m.homeNetwork)
  {
    RegistrationOf(m, f).outer
  }

  lemma Accepting(s: Life, steps: seq<LifeStep>, t: Life, f: Node, m: Mobile, now: int)
    returns (steps': seq<LifeStep>, t': Life)
    requires Leads(s, steps, t) && IsAsking(m, f) && Envelope(f, BuildForeignRequest(m)) in t.sent
    requires MayTake(t.fas[f].rows[m.careOf], m.homePort, m.homeNetwork)
    ensures Leads(s, steps', t') && t'.roamers == t.roamers
    ensures t'.log == t.log + {Accepted(f, m.careOf, m.homePort, m.homeNetwork)}
    ensures Envelope(m.homeNetwork, RegistrationOf(m, f).inner) in t'.sent
  {
    RequestHandled(t.fas[f], t.has[f], f, m, Everywhere(), now);
    steps', t' := Handling(s, steps, t, f, BuildForeignRequest(m), now, true,
                           ToRouter(m.homeNetwork, RegistrationOf(m, f).inner),
                           {Accepted(f, m.careOf, m.homePort, m.homeNetwork)});
  }

  lemma Relaying(s: Life, steps: seq<LifeStep>, t: Life, f: Node, m: Mobile, now: int)
    returns (steps': seq<LifeStep>, t': Life)
    requires Leads(s, steps, t) && IsAsking(m, f) && Envelope(m.homeNetwork, RegistrationOf(m, f).inner) in t.sent
    ensures Leads(s, steps', t') && t'.roamers == t.roamers
    ensures t'.log == t.log + {Bound(m.homeNetwork, m.homePort, m.careOf, f)}
    ensures Envelope(f, ReplyTo(m, f)) in t'.sent
  {
    var h := m.homeNetwork;
    RelayHandled(AgentView(t.fas[h], t.has[h], Everywhere()), f, m, now);
    steps', t' := Handling(s, steps, t, h, RegistrationOf(m, f).inner, now, false, ToRouter(f, ReplyTo(m, f)),
                           {Bound(h, m.homePort, m.careOf, f)});
  }

  /** The agent accepts the request, the home agent binds it, the reply is handed over. */
  lemma Answering(s: Life, steps: seq<LifeStep>, t: Life, f: Node, m: Mobile, now: int)
    returns (steps': seq<LifeStep>, t': Life)
    requires Leads(s, steps, t) && IsAsking(m, f) && Envelope(f, BuildForeignRequest(m)) in t.sent
    requires MayTake(t.fas[f].rows[m.careOf], m.homePort, m.homeNetwork)
    ensures Leads(s, steps', t') && t'.roamers == t.roamers
    ensures t'.log == t.log + {Accepted(f, m.careOf, m.homePort, m.homeNetwork)} +
                      {Bound(m.homeNetwork, m.homePort, m.careOf, f)}
    ensures Handed(ListenPort(m), ReplyTo(m, f)) in t'.handed && PacketType(ReplyTo(m, f)) == REPLY_PKT_TYPE
  {
    steps', t' := Accepting(s, steps, t, f, m, now);
    steps', t' := Relaying(s, steps', t', f, m, now);
    ReplyHandled(AgentView(t'.fas[f], t'.has[f], Everywhere()), f, m, now);
    steps', t' := Handling(s, steps', t', f, ReplyTo(m, f), now, true, ToMobile(ListenPort(m), ReplyTo(m, f)), {});
  }
}
