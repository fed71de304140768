/** Care-of addresses over whole histories of one foreign agent: which are advertised, who
    may take them, and when they are freed. */
module CareOfAddresses {
  import opened Wire
  import opened RoutingTables
  import opened Agents

  datatype Event =
    | Register(r: Request, now: int)
    | Deregister(careOf: int)
    | Expire(now: int)
    | Reply(careOf: int, now: int)

  /** Request fields come out of four-bit fields; addresses name existing slots. */
  predicate EventOk(e: Event) {
    match e
    case Register(r, _) => UsableCareOf(r.careOf) && r.home >= 0 && r.agent >= 0
    case Deregister(c) => 0 <= c < SLOTS
    case Expire(_) => true
    case Reply(c, _) => 0 <= c < SLOTS
  }

  predicate EventsOk(events: seq<Event>) {
    forall e <- events :: EventOk(e)
  }

  function After(fa: ForeignAgent, e: Event): ForeignAgent
    requires EventOk(e)
  {
    match e
    case Register(r, now) => RegisterForeign(fa, r, now).0
    case Deregister(c) => DeregisterForeign(fa, c)
    case Expire(now) => Sweep(fa, now)
    case Reply(c, now) => Refresh(fa, c, now)
  }

  function AfterAll(fa: ForeignAgent, events: seq<Event>): ForeignAgent
    requires EventsOk(events)
    decreases |events|
  {
    if events == [] then fa else AfterAll(After(fa, events[0]), events[1..])
  }

  lemma EventKeepsAgentOk(fa: ForeignAgent, e: Event)
    requires AgentOk(fa) && EventOk(e)
    ensures AgentOk(After(fa, e))
  {
    forall i | 0 <= i < SLOTS
      ensures SlotOk(After(fa, e), i)
    {
      assert SlotOk(fa, i);
      if i > 0 {
        assert SlotOk(fa, i - 1);
      }
    }
  }

  lemma {:induction false} HistoryKeepsAgentOk(fa: ForeignAgent, events: seq<Event>)
    requires AgentOk(fa) && EventsOk(events)
    ensures AgentOk(AfterAll(fa, events))
    decreases |events|
  {
    if events != [] {
      EventKeepsAgentOk(fa, events[0]);
      HistoryKeepsAgentOk(After(fa, events[0]), events[1..]);
    }
  }

  /** What a packet handled by router me is to its foreign agent. */
  function EventsOf(p: Word, me: nat, now: int): (events: seq<Event>)
    requires InBounds(p, me)
    ensures EventsOk(events)
  {
    if PacketType(p) == REQT_PKT_TYPE && HomeAgent(p) as int != me then RequestEvents(p, me, now)
    else if PacketType(p) == REPLY_PKT_TYPE && Destination(p) as int == me then [Reply(CareOf(p) as int, now)]
    else []
  }

  function RequestEvents(p: Word, me: nat, now: int): (events: seq<Event>)
    requires InBounds(p, me) && PacketType(p) == REQT_PKT_TYPE && HomeAgent(p) as int != me
    ensures EventsOk(events)
  {
    if Flags(p) == REQT_PKT_DEREGISTER then [Deregister(CareOf(p) as int)]
    else if Flags(p) == REQT_PKT_DIRECT_FROM_MU then [Register(RequestOf(p), now)]
    else []
  }

  lemma OneEvent(fa: ForeignAgent, e: Event)
    requires EventOk(e)
    ensures AfterAll(fa, [e]) == After(fa, e)
  {
    assert [e][1..] == [];
    assert AfterAll(After(fa, e), []) == After(fa, e);
  }

  lemma RequestIsItsEvent(v: AgentView, me: nat, p: Word, now: int)
    requires InBounds(p, me) && me < 16 && PacketType(p) == REQT_PKT_TYPE
    ensures HandleRequest(v, me, p, now).0.fa == AfterAll(v.fa, EventsOf(p, me, now))
  {
    if HomeAgent(p) as int != me && Flags(p) == REQT_PKT_DEREGISTER {
      OneEvent(v.fa, Deregister(CareOf(p) as int));
    } else if HomeAgent(p) as int != me && Flags(p) == REQT_PKT_DIRECT_FROM_MU {
      OneEvent(v.fa, Register(RequestOf(p), now));
    }
  }

  /** So the histories below are the router's own: its callback changes the foreign agent's
      tables by these events only. */
  lemma HandlingIsItsEvents(v: AgentView, me: nat, p: Word, now: int, up: bool)
    requires InBounds(p, me) && me < 16
    ensures Handle(v, me, p, now, up).0.fa == AfterAll(v.fa, EventsOf(p, me, now))
  {
    if PacketType(p) == REQT_PKT_TYPE {
      RequestIsItsEvent(v, me, p, now);
    } else if PacketType(p) == REPLY_PKT_TYPE && Destination(p) as int == me {
      OneEvent(v.fa, Reply(CareOf(p) as int, now));
    }
  }

  /** The search returns the first free address, or ERR exactly when there is none. */
  lemma {:induction false} FreeIsFirst(careOfs: seq<CareOfRow>, from: int)
    requires forall i :: 0 <= i < |careOfs| ==> careOfs[i].address == from + i + 1
    requires from >= 0
    ensures var free := FreeCareOf(careOfs);
            if free == ERR then forall i :: 0 <= i < |careOfs| ==> careOfs[i].taken
            else
              && from < free <= from + |careOfs| && !careOfs[free - 1 - from].taken
              && forall i :: 0 <= i < free - 1 - from ==> careOfs[i].taken
  {
    if careOfs != [] && careOfs[0].taken {
      FreeIsFirst(careOfs[1..], from + 1);
    }
  }

  lemma FreeIsNotLive(fa: ForeignAgent)
    requires AgentOk(fa)
    ensures var free := FreeCareOf(fa.careOfs);
            && (forall i :: 1 <= i < SLOTS && fa.rows[i].registered == TRUE ==> fa.careOfs[i - 1].taken)
            && (free != ERR ==>
                  && 1 <= free <= SLOTS && !fa.careOfs[free - 1].taken
                  && (forall i :: 0 <= i < free - 1 ==> fa.careOfs[i].taken)
                  && (free < SLOTS ==> fa.rows[free].registered != TRUE))
  {
    forall i | 0 <= i < SLOTS
      ensures fa.careOfs[i].address == 0 + i + 1
      ensures i > 0 && fa.rows[i].registered == TRUE ==> fa.careOfs[i - 1].taken
    {
      assert SlotOk(fa, i);
    }
    FreeIsFirst(fa.careOfs, 0);
  }

  /** After any history: the advertised address is the least one whose bit is clear, and it
      never belongs to a live registration. */
  lemma AdvertisedIsNotLive(events: seq<Event>)
    requires EventsOk(events)
    ensures var fa := AfterAll(EMPTY_AGENT, events);
            var free := FreeCareOf(fa.careOfs);
            && (forall i :: 1 <= i < SLOTS && fa.rows[i].registered == TRUE ==> fa.careOfs[i - 1].taken)
            && (free != ERR ==>
                  && 1 <= free <= SLOTS && !fa.careOfs[free - 1].taken
                  && (forall i :: 0 <= i < free - 1 ==> fa.careOfs[i].taken)
                  && (free < SLOTS ==> fa.rows[free].registered != TRUE))
  {
    HistoryKeepsAgentOk(EMPTY_AGENT, events);
    FreeIsNotLive(AfterAll(EMPTY_AGENT, events));
  }

  // ----- ownership ---------------------------------------------------------

  predicate OwnedBy(fa: ForeignAgent, c: int, home: int, agent: int)
    requires UsableCareOf(c)
  {
    fa.rows[c].used && fa.rows[c].home == home && fa.rows[c].agent == agent
  }

  predicate Deregisters(e: Event, c: int) {
    e == Deregister(c)
  }

  /** Once an address is bound to a mobile, only that mobile can register it again, up to
      an explicit de-registration of the address: expiry frees the bit, and so advertises
      the address again, but not the slot. */
  lemma {:induction false} OwnershipLasts(fa: ForeignAgent, events: seq<Event>, c: int, home: int, agent: int)
    requires EventsOk(events) && UsableCareOf(c) && home >= 0 && agent >= 0 && OwnedBy(fa, c, home, agent)
    requires forall e <- events :: !Deregisters(e, c)
    ensures OwnedBy(AfterAll(fa, events), c, home, agent)
    ensures forall r: Request, now: int | r.careOf == c ::
              RegisterForeign(AfterAll(fa, events), r, now).1 <==> r.home == home && r.agent == agent
    decreases |events|
  {
    if events != [] {
      assert events[0] in events;
      assert OwnedBy(After(fa, events[0]), c, home, agent);
      OwnershipLasts(After(fa, events[0]), events[1..], c, home, agent);
    }
  }

  // ----- who may register an address --------------------------------------------------

  datatype Holder = Nobody | Held(home: int, agent: int)

  function HolderAfter(holder: Holder, e: Event, c: int): Holder {
    match e
    case Register(r, _) => if r.careOf == c && holder.Nobody? then Held(r.home, r.agent) else holder
    case Deregister(d) => if d == c then Nobody else holder
    case Expire(_) => holder
    case Reply(_, _) => holder
  }

  /** Who claimed c first since it was last given up: lifetimes and later claims do not count. */
  function HolderOf(holder: Holder, events: seq<Event>, c: int): Holder
    decreases |events|
  {
    if events == [] then holder else HolderOf(HolderAfter(holder, events[0], c), events[1..], c)
  }

  predicate SlotHeldBy(fa: ForeignAgent, c: int, holder: Holder)
    requires UsableCareOf(c)
  {
    match holder
    case Nobody => !fa.rows[c].used
    case Held(home, agent) => OwnedBy(fa, c, home, agent) && home >= 0 && agent >= 0
  }

  lemma {:induction false} HistoryKeepsHolder(fa: ForeignAgent, events: seq<Event>, c: int, holder: Holder)
    requires EventsOk(events) && UsableCareOf(c) && SlotHeldBy(fa, c, holder)
    ensures SlotHeldBy(AfterAll(fa, events), c, HolderOf(holder, events, c))
    decreases |events|
  {
    if events != [] {
      assert events[0] in events;
      assert SlotHeldBy(After(fa, events[0]), c, HolderAfter(holder, events[0], c));
      HistoryKeepsHolder(After(fa, events[0]), events[1..], c, HolderAfter(holder, events[0], c));
    }
  }

  /** After any history a request for an address is accepted if and only if nobody holds the
      address or the requester does. */
  lemma RegistersIff(events: seq<Event>, r: Request, now: int)
    requires EventsOk(events) && UsableCareOf(r.careOf)
    ensures var holder := HolderOf(Nobody, events, r.careOf);
            RegisterForeign(AfterAll(EMPTY_AGENT, events), r, now).1 <==>
            holder == Nobody || holder == Held(r.home, r.agent)
  {
    HistoryKeepsHolder(EMPTY_AGENT, events, r.careOf, Nobody);
  }

  /** The consequence the agents live with: one mobile registers and never comes back, its
      lifetime passes, and the agent advertises an address it refuses to everyone else. */
  lemma AdvertisedButRefused(first: Request, registered: int, swept: int, other: Request, now: int)
    requires first.careOf == 1 && first.home >= 0 && first.agent >= 0 && swept - registered >= first.life
    requires other.careOf == 1 && (other.home != first.home || other.agent != first.agent)
    ensures var fa := AfterAll(EMPTY_AGENT, [Register(first, registered), Expire(swept)]);
            FreeCareOf(fa.careOfs) == 1 && !RegisterForeign(fa, other, now).1
  {
    var (one, two) := (Register(first, registered), Expire(swept));
    var fa := After(After(EMPTY_AGENT, one), two);
    assert [one, two][1..] == [two] && [two][1..] == [];
    assert AfterAll(After(EMPTY_AGENT, one), [two]) == fa;
    assert AfterAll(EMPTY_AGENT, [one, two]) == fa;
    assert !fa.careOfs[0].taken;
  }

  // ----- lifetime ----------------------------------------------------------

  predicate Touches(e: Event, c: int) {
    match e
    case Register(r, _) => r.careOf == c
    case Deregister(d) => d == c
    case Expire(_) => false
    case Reply(d, _) => d == c
  }

  predicate SweptBy(events: seq<Event>, deadline: int) {
    exists e <- events :: e.Expire? && e.now >= deadline
  }

  lemma UntouchedSlot(fa: ForeignAgent, e: Event, c: int)
    requires AgentOk(fa) && EventOk(e) && UsableCareOf(c) && !Touches(e, c) && fa.rows[c].used
    ensures var (row, row') := (fa.rows[c], After(fa, e).rows[c]);
            var late := e.Expire? && e.now >= row.since + row.life;
            && row' == (if late then row.(registered := FALSE) else row)
            && After(fa, e).careOfs[c - 1].taken == (fa.careOfs[c - 1].taken && !late)
  {
    assert SlotOk(fa, c);
  }

  /** A registration last refreshed at T with lifetime L, left alone by its mobile, is live
      and holds its address exactly until the first sweep at or after T + L. */
  lemma {:induction false} LivesUntilSwept(fa: ForeignAgent, events: seq<Event>, c: int, alive: bool)
    requires AgentOk(fa) && EventsOk(events) && UsableCareOf(c) && fa.rows[c].used
    requires forall e <- events :: !Touches(e, c)
    requires (fa.rows[c].registered == TRUE) == alive && fa.careOfs[c - 1].taken == alive
    ensures var (row, fa') := (fa.rows[c], AfterAll(fa, events));
            && ((fa'.rows[c].registered == TRUE) <==> alive && !SweptBy(events, row.since + row.life))
            && (fa'.careOfs[c - 1].taken <==> alive && !SweptBy(events, row.since + row.life))
            && fa'.rows[c].(registered := FALSE) == row.(registered := FALSE)
    decreases |events|
  {
    if events != [] {
      assert events[0] in events;
      var deadline := fa.rows[c].since + fa.rows[c].life;
      var late := events[0].Expire? && events[0].now >= deadline;
      UntouchedSlot(fa, events[0], c);
      EventKeepsAgentOk(fa, events[0]);
      LivesUntilSwept(After(fa, events[0]), events[1..], c, alive && !late);
      assert SweptBy(events, deadline) <==> late || SweptBy(events[1..], deadline) by {
        assert events == [events[0]] + events[1..];
      }
    }
  }

  /** The life of a registration from its acceptance on. */
  lemma RegistrationLifetime(past: seq<Event>, r: Request, at: int, events: seq<Event>)
    requires EventsOk(past) && EventOk(Register(r, at)) && EventsOk(events)
    requires RegisterForeign(AfterAll(EMPTY_AGENT, past), r, at).1
    requires forall e <- events :: !Touches(e, r.careOf)
    ensures var fa := AfterAll(RegisterForeign(AfterAll(EMPTY_AGENT, past), r, at).0, events);
            && ((fa.rows[r.careOf].registered == TRUE) <==> !SweptBy(events, at + r.life))
            && (fa.careOfs[r.careOf - 1].taken <==> !SweptBy(events, at + r.life))
            && OwnedBy(fa, r.careOf, r.home, r.agent)
  {
    HistoryKeepsAgentOk(EMPTY_AGENT, past);
    var fa := AfterAll(EMPTY_AGENT, past);
    EventKeepsAgentOk(fa, Register(r, at));
    LivesUntilSwept(RegisterForeign(fa, r, at).0, events, r.careOf, true);
  }

  // ----- the reply restarts the clock -----------------------------------------------

  /** A reply passing through at time `at` gives a live registration its whole lifetime again,
      counted from then, and changes nothing else about it. */
  lemma ReplyRestarts(past: seq<Event>, c: int, at: int, events: seq<Event>)
    requires EventsOk(past) && UsableCareOf(c) && EventsOk(events)
    requires AfterAll(EMPTY_AGENT, past).rows[c].registered == TRUE
    requires forall e <- events :: !Touches(e, c)
    ensures var row := AfterAll(EMPTY_AGENT, past).rows[c];
            var fa := AfterAll(After(AfterAll(EMPTY_AGENT, past), Reply(c, at)), events);
            && ((fa.rows[c].registered == TRUE) <==> !SweptBy(events, at + row.life))
            && (fa.careOfs[c - 1].taken <==> !SweptBy(events, at + row.life))
            && fa.rows[c] == row.(since := at, registered := fa.rows[c].registered)
  {
    HistoryKeepsAgentOk(EMPTY_AGENT, past);
    var fa := AfterAll(EMPTY_AGENT, past);
    assert SlotOk(fa, c);
    EventKeepsAgentOk(fa, Reply(c, at));
    LivesUntilSwept(After(fa, Reply(c, at)), events, c, true);
  }

  /** The same of the reply word itself, handled at the agent it is for, whether or not the
      mobile is there to take it. */
  lemma HandledReplyRestarts(v: AgentView, past: seq<Event>, me: nat, p: Word, at: int, up: bool, events: seq<Event>)
    requires me < 16 && InBounds(p, me) && PacketType(p) == REPLY_PKT_TYPE && Destination(p) as int == me
    requires UsableCareOf(CareOf(p) as int) && EventsOk(past) && EventsOk(events)
    requires v.fa == AfterAll(EMPTY_AGENT, past) && v.fa.rows[CareOf(p) as int].registered == TRUE
    requires forall e <- events :: !Touches(e, CareOf(p) as int)
    ensures var (c, row) := (CareOf(p) as int, v.fa.rows[CareOf(p) as int]);
            var fa := AfterAll(Handle(v, me, p, at, up).0.fa, events);
            && ((fa.rows[c].registered == TRUE) <==> !SweptBy(events, at + row.life))
            && (fa.careOfs[c - 1].taken <==> !SweptBy(events, at + row.life))
            && fa.rows[c] == row.(since := at, registered := fa.rows[c].registered)
  {
    HandlingIsItsEvents(v, me, p, at, up);
    OneEvent(v.fa, Reply(CareOf(p) as int, at));
    ReplyRestarts(past, CareOf(p) as int, at, events);
  }

  // ----- what is given up is not offered again ---------------------------------------

  predicate Registers(e: Event, c: int) {
    e.Register? && e.r.careOf == c
  }

  /** Giving an address up leaves its bit set, and the sweep passes it by: until somebody
      registers it again, uninvited, the agent never advertises it again. */
  lemma {:induction false} GivenUpIsNotOffered(fa: ForeignAgent, events: seq<Event>, c: int)
    requires AgentOk(fa) && EventsOk(events) && UsableCareOf(c) && !fa.rows[c].used && fa.careOfs[c - 1].taken
    requires forall e <- events :: !Registers(e, c)
    ensures var fa' := AfterAll(fa, events);
            !fa'.rows[c].used && fa'.careOfs[c - 1].taken && FreeCareOf(fa'.careOfs) != c
    decreases |events|
  {
    if events == [] {
      FreeIsNotLive(fa);
    } else {
      assert events[0] in events && SlotOk(fa, c);
      EventKeepsAgentOk(fa, events[0]);
      GivenUpIsNotOffered(After(fa, events[0]), events[1..], c);
    }
  }

  /** After any history in which c is live, its de-registration starts that. */
  lemma DeregistrationLeaks(past: seq<Event>, c: int, events: seq<Event>)
    requires EventsOk(past) && UsableCareOf(c) && EventsOk(events)
    requires AfterAll(EMPTY_AGENT, past).rows[c].registered == TRUE
    requires forall e <- events :: !Registers(e, c)
    ensures var fa := AfterAll(After(AfterAll(EMPTY_AGENT, past), Deregister(c)), events);
            !fa.rows[c].used && fa.careOfs[c - 1].taken && FreeCareOf(fa.careOfs) != c
  {
    HistoryKeepsAgentOk(EMPTY_AGENT, past);
    var fa := AfterAll(EMPTY_AGENT, past);
    assert SlotOk(fa, c);
    EventKeepsAgentOk(fa, Deregister(c));
    GivenUpIsNotOffered(After(fa, Deregister(c)), events, c);
  }
}
