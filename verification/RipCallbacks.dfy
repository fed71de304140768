/** From the wire to the routing theory: what the callback does with the texts another
    router's sending loop has sent is what the network's deliveries do. */
module RipCallbacks {
  import opened Wire
  import opened DecimalText
  import opened RoutingTables
  import opened RipRouters
  import opened RipNetwork
  import opened RipSending
  import opened Agents

  /** The word a received text stands for. */
  function WordOf(text: string): Word {
    Unpack(Received(text))
  }

  /** A RIP word updates the routing side as its advert says, and touches nothing else. */
  lemma RipWordHandled(v: AgentView, me: Node, p: Word, now: int, up: bool)
    requires PacketType(p) == RIP_PKT_TYPE
    ensures InBounds(p, me)
    ensures Handle(v, me, p, now, up) == (v.(rip := OnAdvert(v.rip, DecodeAdvert(p), me)), Quiet)
  {
  }

  /** The callback of the router at the end of link l, given the text of a packet queued on l,
      leaves the routing state the network's delivery leaves, and answers nothing. */
  lemma HandlingIsDelivery(g: Graph, s: State, l: Link, at: nat, keep: bool, v: AgentView, now: int, up: bool)
    requires WellFormed(g, s) && l in g && at < |Queue(s, l)| && v.rip == s.routers[l.dst]
    ensures var (p, step) := (WordOf(Pack(EncodeAdvert(Queue(s, l)[at]))), Deliver(l, at, keep));
            && InBounds(p, l.dst) && FitsRip(Queue(s, l)[at]) && Enabled(g, s, step)
            && Handle(v, l.dst, p, now, up) == (v.(rip := Apply(g, s, step).routers[l.dst]), Quiet)
  {
    QueuedFits(g, s, l, at);
    var a := Queue(s, l)[at];
    OneAdvertOnTheWire(a, Pack(EncodeAdvert(a)));
    RipWordHandled(v, l.dst, WordOf(Pack(EncodeAdvert(a))), now, up);
  }

  lemma QueuedFits(g: Graph, s: State, l: Link, at: nat)
    requires WellFormed(g, s) && l in g && at < |Queue(s, l)|
    ensures FitsRip(Queue(s, l)[at])
  {
    assert PacketOk(s, l, Queue(s, l)[at]);
  }

  // ----- the texts of a whole sweep -----------------------------------------------------

  function TextsTo(sent: seq<Dispatch>, port: int): seq<string> {
    if sent == [] then []
    else (if sent[0].port == port then [sent[0].text] else []) + TextsTo(sent[1..], port)
  }

  /** Every text is one of ours. */
  ghost predicate AllRip(sent: seq<Dispatch>) {
    forall d <- sent :: PacketType(WordOf(d.text)) == RIP_PKT_TYPE
  }

  lemma {:induction false} TextsAreRead(sent: seq<Dispatch>, port: int)
    ensures |TextsTo(sent, port)| == |SentTo(sent, port)|
    ensures forall i | 0 <= i < |TextsTo(sent, port)| :: SentTo(sent, port)[i] == FromText(TextsTo(sent, port)[i])
    ensures AllRip(sent) ==> forall text <- TextsTo(sent, port) :: PacketType(WordOf(text)) == RIP_PKT_TYPE
  {
    if sent != [] {
      TextsAreRead(sent[1..], port);
    }
  }

  lemma BurstIsRip(me: nat, t: Table, neighbour: nat, reached: set<nat>)
    requires me < 16 && Sendable(t) && neighbour < MAX_ROUTERS
    ensures AllRip(DispatchesUpTo(me, t, neighbour, reached, MAX_ROUTERS))
  {
    var sent := DispatchesUpTo(me, t, neighbour, reached, MAX_ROUTERS);
    WireCarriesTheTable(me, t, neighbour, reached, MAX_ROUTERS);
    forall d <- sent
      ensures PacketType(WordOf(d.text)) == RIP_PKT_TYPE
    {
      var i :| 0 <= i < |sent| && sent[i] == d;
      assert Carried(sent[i].text, Adverts(me, t, reached)[i]);
    }
  }

  lemma {:induction false} SweepIsRip(me: nat, t: Table, reached: seq<set<nat>>, k: nat)
    requires me < 16 && Sendable(t) && k <= MAX_ROUTERS == |reached|
    ensures Sendable(SendSweep(me, t, reached, k).0) && AllRip(SendSweep(me, t, reached, k).1)
  {
    if k > 0 {
      SweepIsRip(me, t, reached, k - 1);
      BurstIsRip(me, SendSweep(me, t, reached, k - 1).0, k - 1, reached[k - 1]);
    }
  }

  lemma TextIsDelivery(g: Graph, s: State, l: Link, at: nat, keep: bool, text: string, v: AgentView, now: int, up: bool)
    requires WellFormed(g, s) && l in g && at < |Queue(s, l)| && v.rip == s.routers[l.dst]
    requires PacketType(WordOf(text)) == RIP_PKT_TYPE && Queue(s, l)[at] == FromText(text)
    ensures var step := Deliver(l, at, keep);
            && InBounds(WordOf(text), l.dst) && Enabled(g, s, step)
            && Handle(v, l.dst, WordOf(text), now, up) == (v.(rip := Apply(g, s, step).routers[l.dst]), Quiet)
  {
    QueuedFits(g, s, l, at);
    RipWordHandled(v, l.dst, WordOf(text), now, up);
  }

  lemma SweptTextIsDelivery(g: Graph, s: State, l: Link, steps: seq<Step>, t: Table, sent: seq<Dispatch>, i: nat,
                            keep: bool, v: AgentView, now: int, up: bool)
    requires l in g && IsSweep(g, s, l.src, steps, t, sent) && AllRip(sent) && i < |TextsTo(sent, 7000 + l.dst)|
    requires v.rip == Exec(g, s, steps).routers[l.dst]
    ensures var (swept, text) := (Exec(g, s, steps), TextsTo(sent, 7000 + l.dst)[i]);
            var step := Deliver(l, |Queue(s, l)| + i, keep);
            && InBounds(WordOf(text), l.dst) && Enabled(g, swept, step)
            && Handle(v, l.dst, WordOf(text), now, up) == (v.(rip := Apply(g, swept, step).routers[l.dst]), Quiet)
  {
    TextsAreRead(sent, 7000 + l.dst);
    QueueHolds(s, Exec(g, s, steps), l, t, sent, i);
    TextIsDelivery(g, Exec(g, s, steps), l, |Queue(s, l)| + i, keep, TextsTo(sent, 7000 + l.dst)[i], v, now, up);
  }

  /** One router's sending loop and another's callback together: after the sweep of router
      l.src, the i-th text it sent to the port of l.dst is what the queue of l holds next,
      and giving that text to the callback of l.dst is delivering it. */
  lemma SweepThenCallback(g: Graph, s: State, l: Link, reached: seq<set<nat>>, i: nat, keep: bool, v: AgentView,
                          now: int, up: bool)
    requires ValidGraph(g) && WellFormed(g, s) && l in g && |reached| == MAX_ROUTERS
    requires var (t, sent) := SendSweep(l.src, s.routers[l.src].table, reached, MAX_ROUTERS);
             i < |TextsTo(sent, 7000 + l.dst)|
    ensures var (steps, sent) := (SweepSteps(l.src, s.routers[l.src].table, reached, MAX_ROUTERS),
                                  SendSweep(l.src, s.routers[l.src].table, reached, MAX_ROUTERS).1);
            var step := Deliver(l, |Queue(s, l)| + i, keep);
            && Legal(g, s, steps) && Enabled(g, Exec(g, s, steps), step)
            && var (swept, word) := (Exec(g, s, steps), WordOf(TextsTo(sent, 7000 + l.dst)[i]));
               InBounds(word, l.dst) &&
               (v.rip == swept.routers[l.dst] ==>
                  Handle(v, l.dst, word, now, up) == (v.(rip := Apply(g, swept, step).routers[l.dst]), Quiet))
  {
    var t := s.routers[l.src].table;
    var (after, sent) := SendSweep(l.src, t, reached, MAX_ROUTERS);
    var steps := SweepSteps(l.src, t, reached, MAX_ROUTERS);
    SweepIsSends(g, s, l.src, reached, MAX_ROUTERS);
    RowsAreSendable(g, s, l.src);
    SweepIsRip(l.src, t, reached, MAX_ROUTERS);
    var here := v.(rip := Exec(g, s, steps).routers[l.dst]);
    SweptTextIsDelivery(g, s, l, steps, after, sent, i, keep, here, now, up);
  }

  lemma QueueHolds(s: State, swept: State, l: Link, t: Table, sent: seq<Dispatch>, i: nat)
    requires Swept(s, swept, l.src, t, sent) && i < |SentTo(sent, 7000 + l.dst)|
    ensures |Queue(s, l)| + i < |Queue(swept, l)|
    ensures Queue(swept, l)[|Queue(s, l)| + i] == SentTo(sent, 7000 + l.dst)[i]
  {
    assert Queue(swept, l) == Queue(s, l) + SentTo(sent, ROUTER_PORTS + l.dst);
  }

  // ----- what leaves the callback -------------------------------------------------------

  /** Words of no kind a router knows change nothing and are answered by nothing. */
  lemma OtherWordsIgnored(v: AgentView, me: Node, p: Word, now: int, up: bool)
    requires PacketType(p) != REQT_PKT_TYPE && PacketType(p) != REPLY_PKT_TYPE
    requires PacketType(p) != RIP_PKT_TYPE && PacketType(p) != IP_PKT_TYPE
    ensures InBounds(p, me) && Handle(v, me, p, now, up) == (v, Quiet)
  {
  }

  /** A router a packet just passes through sends it on unchanged towards the network it names
      and remembers nothing: replies for elsewhere, IP packets for elsewhere, and requests
      for elsewhere that come from no mobile. */
  lemma TransitLeavesNoTrace(v: AgentView, me: Node, p: Word, now: int, up: bool)
    requires InBounds(p, me)
    ensures PacketType(p) == REPLY_PKT_TYPE && Destination(p) as int != me ==>
              Handle(v, me, p, now, up) == (v, RouteTo(v.rip.table, Destination(p) as int, p))
    ensures PacketType(p) == IP_PKT_TYPE && IpNetwork(p) != me ==>
              Handle(v, me, p, now, up) == (v, RouteTo(v.rip.table, IpNetwork(p), p))
    ensures PacketType(p) == REQT_PKT_TYPE && HomeAgent(p) as int != me && Flags(p) >= 2 ==>
              Handle(v, me, p, now, up) == (v, RouteTo(v.rip.table, Destination(p) as int, p))
  {
    if PacketType(p) == REQT_PKT_TYPE && HomeAgent(p) as int != me && Flags(p) >= 2 {
      RequestInTransit(v, me, p, now);
    }
  }

  lemma RequestInTransit(v: AgentView, me: Node, p: Word, now: int)
    requires InBounds(p, me) && PacketType(p) == REQT_PKT_TYPE && HomeAgent(p) as int != me && Flags(p) >= 2
    ensures HandleRequest(v, me, p, now) == (v, RouteTo(v.rip.table, Destination(p) as int, p))
  {
  }

  lemma RequestsStayOnTheNet(v: AgentView, me: Node, p: Word, now: int)
    requires InBounds(p, me) && PacketType(p) == REQT_PKT_TYPE
    ensures !HandleRequest(v, me, p, now).1.ToMobile?
  {
  }

  lemma HandsOverToTheLiving(v: AgentView, me: Node, p: Word, now: int, up: bool)
    requires InBounds(p, me)
    ensures Handle(v, me, p, now, up).1.ToMobile? ==> up
  {
    if PacketType(p) == REQT_PKT_TYPE {
      RequestsStayOnTheNet(v, me, p, now);
    }
  }

  /** Nothing is handed to a port that does not answer, and nothing goes on to a router the
      dispatch does not reach. */
  lemma NothingReachesTheDead(v: AgentView, me: Node, p: Word, now: int, up: bool, connects: bool)
    requires InBounds(p, me)
    ensures var (meant, out) := (Handle(v, me, p, now, up).1, Dispatched(Handle(v, me, p, now, up).1, connects));
            && (out.ToMobile? ==> up) && (out.ToRouter? ==> connects)
            && (connects || !meant.ToRouter? ==> out == meant)
  {
    HandsOverToTheLiving(v, me, p, now, up);
  }
}
