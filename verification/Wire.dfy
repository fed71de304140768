/** The 32-bit packet words of mip_protocol.c: every field is OR-ed in at a fixed
    position and read back through a mask.  A put never clears a field first, so a
    value comes back only when it fits its field and the field was zero. */
module Wire {

  type Word = bv32

  const ICMP_PKT_TYPE: Word := 1
  const REQT_PKT_TYPE: Word := 2
  const RIP_PKT_TYPE: Word := 3
  const REPLY_PKT_TYPE: Word := 4
  const IP_PKT_TYPE: Word := 7

  const REQT_PKT_DEREGISTER: Word := 0
  const REQT_PKT_DIRECT_FROM_MU: Word := 1
  const REQT_PKT_IS_A_RELAY: Word := 3

  function SetBitAt(position: bv5, data: Word, packet: Word): Word {
    packet | (data << position)
  }

  function PacketType(packet: Word): Word {
    (packet & 0xE0000000) >> 29
  }

  function PutPacketType(packet: Word, kind: Word): Word {
    SetBitAt(29, kind, packet)
  }

  // ----- RIP words ---------------------------------------------------------

  function RipSource(packet: Word): Word { (packet & 0x1E000000) >> 25 }
  function PutRipSource(packet: Word, source: Word): Word { SetBitAt(25, source, packet) }
  function RipNetwork(packet: Word): Word { (packet & 0x1E00000) >> 21 }
  function PutRipNetwork(packet: Word, network: Word): Word { SetBitAt(21, network, packet) }
  function RipDistance(packet: Word): Word { (packet & 0x1E0000) >> 17 }
  function PutRipDistance(packet: Word, distance: Word): Word { SetBitAt(17, distance, packet) }

  /** A RIP word read back field by field. */
  datatype Advert = Advert(src: int, net: int, dist: int)

  predicate FitsRip(a: Advert) {
    0 <= a.src < 16 && 0 <= a.net < 16 && 0 <= a.dist < 16
  }

  /** C's conversion of a signed value to an unsigned 32-bit word. */
  function ToWord(x: int): Word {
    (x % 0x1_0000_0000) as Word
  }

  function EncodeAdvert(a: Advert): Word {
    PutRipDistance(
      PutRipNetwork(
        PutRipSource(PutPacketType(0, RIP_PKT_TYPE), ToWord(a.src)), ToWord(a.net)), ToWord(a.dist))
  }

  function DecodeAdvert(packet: Word): (a: Advert)
    ensures FitsRip(a)
  {
    Advert(RipSource(packet) as int, RipNetwork(packet) as int, RipDistance(packet) as int)
  }

  lemma RipFields(s: Word, n: Word, d: Word)
    requires s < 16 && n < 16 && d < 16
    ensures var w := PutRipDistance(PutRipNetwork(PutRipSource(PutPacketType(0, RIP_PKT_TYPE), s), n), d);
            RipSource(w) == s && RipNetwork(w) == n && RipDistance(w) == d && PacketType(w) == RIP_PKT_TYPE
  {
  }

  lemma NibbleRoundTrip(x: int)
    requires 0 <= x < 16
    ensures ToWord(x) < 16 && ToWord(x) as int == x
  {
    assert x % 0x1_0000_0000 == x;
  }

  /** Four-bit fields bring an advert back unchanged, and the word is recognised as RIP. */
  lemma AdvertRoundTrip(a: Advert)
    requires FitsRip(a)
    ensures DecodeAdvert(EncodeAdvert(a)) == a
    ensures PacketType(EncodeAdvert(a)) == RIP_PKT_TYPE && EncodeAdvert(a) != 0
  {
    RipWordsAreNotEmpty(EncodeAdvert(a));
    var s, n, d := ToWord(a.src), ToWord(a.net), ToWord(a.dist);
    NibbleRoundTrip(a.src);
    NibbleRoundTrip(a.net);
    NibbleRoundTrip(a.dist);
    RipFields(s, n, d);
  }

  lemma RipWordsAreNotEmpty(packet: Word)
    ensures PacketType(packet) == RIP_PKT_TYPE ==> packet != 0
  {
  }

  // ----- REQUEST and REPLY words: both use this one layout -----------------

  function Flags(packet: Word): Word { (packet & 0x18000000) >> 27 }
  function PutFlags(packet: Word, flags: Word): Word { SetBitAt(27, flags, packet) }
  function LifeTime(packet: Word): Word { (packet & 0x7800000) >> 23 }
  function PutLifeTime(packet: Word, lifeTime: Word): Word { SetBitAt(23, lifeTime, packet) }
  function HomeAddress(packet: Word): Word { (packet & 0x780000) >> 19 }
  function PutHomeAddress(packet: Word, home: Word): Word { SetBitAt(19, home, packet) }
  function HomeAgent(packet: Word): Word { (packet & 0x78000) >> 15 }
  function PutHomeAgent(packet: Word, agent: Word): Word { SetBitAt(15, agent, packet) }
  function CareOf(packet: Word): Word { (packet & 0x7800) >> 11 }
  function PutCareOf(packet: Word, careOf: Word): Word { SetBitAt(11, careOf, packet) }
  function Identification(packet: Word): Word { (packet & 0x700) >> 8 }
  function PutIdentification(packet: Word, id: Word): Word { SetBitAt(8, id, packet) }
  function Source(packet: Word): Word { (packet & 0xF0) >> 4 }
  function PutSource(packet: Word, source: Word): Word { SetBitAt(4, source, packet) }
  function Destination(packet: Word): Word { packet & 0xF }
  function PutDestination(packet: Word, destination: Word): Word { SetBitAt(0, destination, packet) }

  /** The nine fields of a registration word. */
  datatype Registration = Registration(
    kind: Word, flags: Word, lifeTime: Word, home: Word, agent: Word,
    careOf: Word, id: Word, source: Word, destination: Word)

  predicate FitsRegistration(r: Registration) {
    r.kind < 8 && r.flags < 4 && r.lifeTime < 16 && r.home < 16 && r.agent < 16 &&
    r.careOf < 16 && r.id < 8 && r.source < 16 && r.destination < 16
  }

  function EncodeRegistration(r: Registration): Word {
    PutDestination(PutSource(PutIdentification(PutCareOf(PutHomeAgent(PutHomeAddress(PutLifeTime(
      PutFlags(PutPacketType(0, r.kind), r.flags), r.lifeTime), r.home), r.agent), r.careOf), r.id),
      r.source), r.destination)
  }

  function DecodeRegistration(packet: Word): Registration {
    Registration(PacketType(packet), Flags(packet), LifeTime(packet), HomeAddress(packet), HomeAgent(packet),
                 CareOf(packet), Identification(packet), Source(packet), Destination(packet))
  }

  /** In-range fields are pairwise independent ... */
  lemma RegistrationRoundTrip(r: Registration)
    requires FitsRegistration(r)
    ensures DecodeRegistration(EncodeRegistration(r)) == r
  {
    var w := EncodeRegistration(r);
    assert PacketType(w) == r.kind && Flags(w) == r.flags && LifeTime(w) == r.lifeTime;
    assert HomeAddress(w) == r.home && HomeAgent(w) == r.agent && CareOf(w) == r.careOf;
  }

  /** ... and together they account for all 32 bits: no word carries anything else. */
  lemma RegistrationCoversWord(packet: Word)
    ensures FitsRegistration(DecodeRegistration(packet))
    ensures EncodeRegistration(DecodeRegistration(packet)) == packet
  {
  }

  /** What the foreign agent does to a direct request: the flags become "relay" and
      the empty source field takes the agent's id; the other seven fields survive. */
  lemma RelayingKeepsTheRest(packet: Word, me: Word)
    requires me < 16 && Source(packet) == 0
    ensures var relayed := PutSource(PutFlags(packet, REQT_PKT_IS_A_RELAY), me);
            DecodeRegistration(relayed) ==
            DecodeRegistration(packet).(flags := REQT_PKT_IS_A_RELAY, source := me)
  {
  }

  // ----- IP words ----------------------------------------------------------

  function IpTunneled(packet: Word): Word { (packet & 0x10000000) >> 28 }
  function PutIpTunneled(packet: Word, tunnel: Word): Word { SetBitAt(28, tunnel, packet) }

  function IpSourceNetwork(packet: Word, tunneled: bool): Word {
    if tunneled then (packet & (0xE000000 >> 14)) >> 11 else (packet & 0xE000000) >> 25
  }

  function PutIpSourceNetwork(packet: Word, network: Word, tunnel: bool): Word {
    if tunnel then SetBitAt(11, network, packet) else SetBitAt(25, network, packet)
  }

  function IpDestinationNetwork(packet: Word, tunneled: bool): Word {
    if tunneled then (packet & (0x1C0000 >> 14)) >> 4 else (packet & 0x1C0000) >> 18
  }

  function PutIpDestinationNetwork(packet: Word, network: Word, tunnel: bool): Word {
    if tunnel then SetBitAt(4, network, packet) else SetBitAt(18, network, packet)
  }

  /** The tunnelled reader masks with the destination-network mask, as the source does. */
  function IpSourceInterface(packet: Word, tunneled: bool): Word {
    if tunneled then (packet & (0x1C0000 >> 14)) >> 7 else (packet & 0x1E00000) >> 21
  }

  function PutIpSourceInterface(packet: Word, source: Word, tunnel: bool): Word {
    if tunnel then SetBitAt(7, source, packet) else SetBitAt(21, source, packet)
  }

  function IpDestinationInterface(packet: Word, tunneled: bool): Word {
    if tunneled then packet & (0x3C000 >> 14) else (packet & 0x3C000) >> 14
  }

  function PutIpDestinationInterface(packet: Word, destination: Word, tunnel: bool): Word {
    if tunnel then SetBitAt(0, destination, packet) else SetBitAt(14, destination, packet)
  }

  /** What a home agent writes over a packet for an absent mobile. */
  function TunnelTo(packet: Word, foreignAgent: Word, careOf: Word, me: Word, home: Word): Word {
    PutIpSourceInterface(
      PutIpSourceNetwork(
        PutIpDestinationInterface(
          PutIpDestinationNetwork(PutIpTunneled(packet, 1), foreignAgent, true), careOf, true),
        me, true),
      home, true)
  }

  /** The outer destination decodes to (foreignAgent, careOf) exactly when the packet
      arrived with no bit set in bits 0..6 that the new address lacks; the inner
      source and destination decode as before whatever was there. */
  lemma TunnelKeepsInner(packet: Word, foreignAgent: Word, careOf: Word, me: Word, home: Word)
    requires foreignAgent < 8 && careOf < 16 && me < 8 && home < 16
    ensures var out := TunnelTo(packet, foreignAgent, careOf, me, home);
            && PacketType(out) == PacketType(packet) && IpTunneled(out) == 1
            && IpSourceNetwork(out, false) == IpSourceNetwork(packet, false)
            && IpSourceInterface(out, false) == IpSourceInterface(packet, false)
            && IpDestinationNetwork(out, false) == IpDestinationNetwork(packet, false)
            && IpDestinationInterface(out, false) == IpDestinationInterface(packet, false)
    ensures var out := TunnelTo(packet, foreignAgent, careOf, me, home);
            (IpDestinationNetwork(out, true) == foreignAgent && IpDestinationInterface(out, true) == careOf)
            <==> (packet & 0x7F) | ((foreignAgent << 4) | careOf) == (foreignAgent << 4) | careOf
  {
  }

  /** The outer source network decodes to the home agent exactly when the packet arrived with
      no bit set there that the agent's id lacks. */
  lemma TunnelSourceNetwork(packet: Word, foreignAgent: Word, careOf: Word, me: Word, home: Word)
    requires foreignAgent < 8 && careOf < 16 && me < 8 && home < 16
    ensures IpSourceNetwork(TunnelTo(packet, foreignAgent, careOf, me, home), true) == me <==>
            IpSourceNetwork(packet, true) | me == me
  {
  }

  /** The tunnelled source-interface reader never sees the field its writer fills. */
  lemma TunnelSourceInterfaceUnreadable(packet: Word, source: Word)
    requires source < 16
    ensures IpSourceInterface(PutIpSourceInterface(packet, source, true), true) == source <==> source == 0
  {
  }

  // ----- ICMP words --------------------------------------------------------

  const ICMP_AGT_HME: Word := 2
  const ICMP_AGT_FGN: Word := 4

  function IcmpFlags(packet: Word): Word { (packet & 0x1C000000) >> 26 }
  function PutIcmpFlags(packet: Word, flags: Word): Word { SetBitAt(26, flags, packet) }
  function IcmpCareOf(packet: Word): Word { (packet & 0x3C00000) >> 22 }
  function PutIcmpCareOf(packet: Word, careOf: Word): Word { SetBitAt(22, careOf, packet) }
  function IcmpLifeTime(packet: Word): Word { (packet & 0x3C0000) >> 18 }
  function PutIcmpLifeTime(packet: Word, lifeTime: Word): Word { SetBitAt(18, lifeTime, packet) }
  function IcmpSource(packet: Word): Word { (packet & 0x3C00) >> 10 }
  function PutIcmpSource(packet: Word, source: Word): Word { SetBitAt(10, source, packet) }
  function IcmpReceivedNetwork(packet: Word): Word { (packet & 0x38) >> 6 }
  function PutIcmpReceivedNetwork(packet: Word, network: Word): Word { SetBitAt(6, network, packet) }

  /** The received-network field is written at bit 6 but masked below bit 6. */
  lemma IcmpReceivedNetworkUnreadable(packet: Word, network: Word)
    requires network < 8
    ensures IcmpReceivedNetwork(PutIcmpReceivedNetwork(packet, network)) == network <==> network == 0
  {
  }
}
