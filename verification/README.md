# Distance-vector routing and mobile IP: a verified model

The repository is a mobile-IP testbed: router processes exchange their routing tables with a
RIP-style distance-vector protocol (infinity 12, no split horizon, no route timeout) and act
as home and foreign agents for mobile units, which register over those routes and receive
tunnelled packets. Every packet is one 32-bit word, OR-ed together field by field and sent as
decimal text. This project models both halves and proves what they do over whole runs.

## How it is laid out

Where the source updates in place, a class holds the fields and each method is proved against
a function on values; what the source promises is then proved about the functions.

| file | about |
|---|---|
| `Wire.dfy`, `DecimalText.dfy` | the packet words (bit-vectors) and their decimal text |
| `RoutingTable.dfy` | the routing table and the distance-vector step (class `RoutingTable`) |
| `RipRouter.dfy` | the routing side of a router: counters, compiling and sending tables (class `Router`) |
| `RipNetwork.dfy` | a network of routers with one queue per directed link; well-formedness |
| `RipSending.dfy` | the router's sending loop refines the network's send steps |
| `RipLookups.dfy` | the two lookups of a dispatch, in any delivery order |
| `RipSoundness.dfy` | distances stand for real walks, whatever happens to the packets |
| `RipCleanRuns.dfy` | first-in first-out runs without failures: monotonicity, loop freedom, forwarding |
| `RipRounds.dfy`, `RipConvergence.dfy`, `RipSchedules.dfy` | rounds, convergence, and when rounds exist |
| `RipCountToInfinity.dfy` | the count to infinity after a router dies, and its end |
| `RipQuiescence.dfy`, `RipPersistence.dfy`, `RipRestless.dfy` | going quiet, not before time, and never after a death |
| `RipCallbacks.dfy` | the callback on another router's texts is the network's delivery |
| `Agents.dfy` | foreign and home agent tables and the packet callback (class `AgentRouter`) |
| `CareOfAddresses.dfy` | the care-of address allocator over whole histories |
| `Mobile.dfy` | the mobile unit: requests, care-of port, moving (class `MobileUnit`) |
| `Journeys.dfy`, `MobileIp.dfy` | packets travelling twice across the network: registration and delivery |
| `Trips.dfy`, `IpExchange.dfy` | packets travelling once: to a host at home, and a mobile's answers |
| `Departures.dfy` | staying, leaving, coming home: what these do at the routers |
| `Provenance.dfy` | where bindings, replies and registered mobiles come from, over whole lives of mobiles and agents |
| `LifeRuns.dfy`, `Whereabouts.dfy`, `OwnRegistrations.dfy` | building such lives; when a mobile's flag is right about its place and about itself |

## The main results

* **Soundness** (`DistancesAreRealWalks`): under loss, duplication, reordering and failed sends, a
  distance d below infinity stands for a walk of exactly d + 1 links starting at the next hop.
* **Dispatching** (`LookupsAgree`): in every run in which no send is in vain, whatever the order of
  packets, looking the next hop up again gives the router the switch fabric chose.
* **Loop freedom and forwarding** (`NextHopIsCloser`, `ForwardingTerminates`): in clean runs next
  hops lead strictly downhill at every instant; a packet forwarded while the protocol keeps
  running is there within d + 1 hops and is never stuck before.
* **Convergence** (`Converges`, `RoundsExist`, `RoundExistsIff`): k rounds make every route of hop
  count up to k (up to k + 1 if all neighbours start up) exact and shortest, and it stays so; such
  rounds exist if and only if no link failed the start-up probe at both ends.
* **Counting ends** (`CountingEnds`): after a router dies, once its neighbours have noticed, every
  live row for it is at infinity after eleven rounds.
* **Quiescence** (`GoesQuiet`): on a network of diameter at most twelve, diameter + 9 rounds
  after the start every packet processed leaves the table alone and clears the send flag.
* **Not before time** (`KeepsSending`): a route that has just changed keeps its router sending, through
  any loss and failure, until nine further adverts about it have been handled.
* **From text to theory** (`SweepThenCallback`): one router's sending loop, its text, and another's
  callback together do what the network's sends and deliveries do.
* **Both ways** (`PlainIpArrives`, `AnswersThroughTunnel`, `AnswerArrives`): a packet for a host at home
  reaches its port; one that came through the tunnel is answered to its original sender, and the
  answer arrives.
* **Delivery and registration** (`DeliveryCompletes`, `RegistrationCompletes`): packets get there
  within a bound given by two distances, tunnelled once, to the right port, with the right
  contents, while routing changes underneath and other mobiles register, leave and expire.
* **Allocator** (`AdvertisedIsNotLive`, `OwnershipLasts`, `RegistrationLifetime`, `ReplyRestarts`):
  over every history of registrations, de-registrations, sweeps and replies.
* **Provenance** (`EverythingIsTraced`): any number of mobiles and agents, each mobile with its
  moving and its care-of thread interleaved, packets duplicated and reordered at will; every
  binding and reply, and the reply that told a mobile it is registered, goes back to an acceptance.
* **What the mobile's flag means** (`FlagsAreRightIff`, `FlagsAreOwnIff`): the exact conditions under
  which it is right about where the mobile is, and about whose registration it was.

## What the code does not promise

Some properties one would expect are false of the code. The model keeps the code, and states
exactly when the property holds.

* The "updated" result is not "the table changed": a row at infinity that its own next hop
  advertises at infinity counts as updated (RIPAlgorithm.c:208 compares without saturating). After
  a router has died the others therefore do not go quiet: in every later round a router with a row
  for the dead one has its counter reset and its send flag raised if and only if that row has a
  live next hop. `FixpointReportsChangeIff`, `NeverQuietIff`.
* De-registration does not clear an address's bit, and the sweep passes unused slots by: an address
  given up is never advertised again until somebody registers it uninvited. `DeregistrationLeaks`.
* The outer destination of a tunnelled packet decodes to the foreign agent and care-of address
  exactly when bits 0..6 had no other bit set (puts never clear). `TunnelKeepsInner`.
* The tunnelled source-interface reader uses another field's mask (mip_protocol.c:229-250), and
  the ICMP received-network reader shifts out the whole masked field (mip_protocol.c:460-479).
  Each gets back only zero. `TunnelSourceInterfaceUnreadable`, `IcmpReceivedNetworkUnreadable`.
* A router that is both a home and a foreign agent is never heard as a foreign agent
  (mip_protocol.c:411-422 tests for home first). `HeardAsForeignIff`.
* Expiry frees an address's bit but not its slot, so the address is advertised again and refused
  to everybody but its old owner. A request for an address is accepted if and only if nobody has
  claimed it since it was last given up explicitly, or its first claimant asks (`RegistersIff`; the
  test of the slot itself is in `ArrivalIsHandled`). `OwnershipLasts`, `AdvertisedButRefused`.
* A mobile takes any reply on the port it has bound and raises its flag, wherever it is by then:
  mobile_unit.c:1040 changes network, and line 1102 comes home, without looking at the flag, and the
  care-of thread keeps the old port until it is woken a second later. A late reply leaves it
  registered on a network that accepted nothing (`LateReply`), or at home (`LateReplyAtHome`). The
  flag is right all along if and only if replies are only taken abroad, on the port of the mobile's
  own address, and no mobile goes to another network or home while registered
  (`FlagsAreRightIff`).
* The mobile reads none of the reply's fields (mobile_unit.c:896-930). From a fresh start the flag
  is the mobile's own in every history if and only if no two mobiles have different home
  identities (`FlagsAreOwnIff`); with two, both hear one advertisement, one binds the port and the
  other's reply reaches it (`AnotherMobilesReply`).

## Model

| member | source | states |
|---|---|---|
| Wire.AdvertRoundTrip | mip_protocol.c:323-408 | router, network and distance, each in its four bits, come back unchanged from a RIP word, and the word is recognised as RIP and differs from the empty word |
| Wire.RegistrationRoundTrip | mip_protocol.c:661-845 | the nine fields of a request or reply word are pairwise independent |
| Wire.RegistrationCoversWord | mip_protocol.h:404-411 | the nine fields account for all 32 bits: every word is the encoding of what it decodes to |
| Wire.RelayingKeepsTheRest | router.c:1348-1357 | relaying turns "direct" into "relay" by OR-ing and fills the empty source; the other seven fields survive |
| Wire.TunnelKeepsInner | router.c:1492-1502 | the four tunnel puts keep the inner source and destination always, and give the outer destination exactly when bits 0..6 had no bit the new address lacks |
| Wire.TunnelSourceNetwork | router.c:1501-1501 | the outer source network reads back as the home agent exactly when it had no bit set that the agent's id lacks |
| Wire.TunnelSourceInterfaceUnreadable | mip_protocol.c:229-271 | in tunnelled mode the source interface reads back right if and only if it is zero |
| Wire.IcmpReceivedNetworkUnreadable | mip_protocol.c:460-479 | the received network reads back right if and only if it is zero |
| DecimalText.TextRoundTrip | router_socket_channel.c:126-137 | a word printed as decimal has at most ten digits, leaves the eleven-byte buffer terminated, and parses back to itself |
| DecimalText.ParsePrinted | mip_protocol.c:75-93 | parsing undoes printing for every natural number |
| DecimalText.PrintLength | mip_protocol.c:84-93 | a number below ten to the k prints in at most k digits |
| RoutingTables.UpdateByRow | RIPAlgorithm.c:46-111 | one advert rewrites the sender's row as direct, the advertised row if a rule fires, and no other row; the result says whether a rule fired |
| RoutingTables.AdvertBoundsDistance | RIPAlgorithm.c:79-109 | whichever rule fires, afterwards the advertised network is in the table at no more than one past the advertised distance, saturated |
| RoutingTables.FixpointReportsChangeIff | RIPAlgorithm.c:195-216 | when an advert changes nothing, the step still reports an update exactly for a row at infinity refreshed at infinity by its own next hop |
| RoutingTables.RoutingTable.constructor | table.c:599-618 | every row starts absent |
| RoutingTables.RoutingTable.SetDestination | table.c:491-506 | writes the destination of one row and nothing else |
| RoutingTables.RoutingTable.SetDistance | table.c:508-521 | writes the distance of one row, marks it taken, nothing else |
| RoutingTables.RoutingTable.SetNextHopRoute | table.c:535-555 | writes next hop and socket of one row, marks it taken, nothing else |
| RoutingTables.RoutingTable.UpdateNeighbourStatus | RIPAlgorithm.c:121-138 | the packet's sender becomes a direct neighbour |
| RoutingTables.RoutingTable.AddIntoRoutingTable | RIPAlgorithm.c:141-159 | the advertised row is overwritten with the saturated distance and the sender as next hop |
| RoutingTables.RoutingTable.Update | RIPAlgorithm.c:46-111 | the three rules in order on the array are the specified step, with its result |
| RipRouters.AdvertsAreTheTakenRows | router.c:338-367 | the adverts sent are exactly the taken rows that get through |
| RipRouters.WireCarriesTheTable | router.c:300-417 | rows packed, printed, received, parsed and unpacked are the adverts of the taken rows, in order, all to the neighbour's socket, each fitting the buffer |
| RipRouters.NothingSentIff | router.c:304-327 | a send to a neighbour counts as failed exactly when no row gets through |
| RipRouters.Router.constructor | router.c:31-81 | an empty table, counters at zero, sending on |
| RipRouters.Router.InitFromConfig | router.c:558-609 | the configured neighbours become direct, every other row stays |
| RipRouters.Router.DetermineConnectivity | router.c:153-180 | exactly the direct rows whose probe fails go to infinity |
| RipRouters.Router.StartUp | router.c:88-145 | a router comes up with its neighbours direct or at infinity by the probe, and no other row |
| RipRouters.Router.UpdateFailedCounter | router.c:491-504 | one counter goes up or back to zero; the rest and the table stay |
| RipRouters.Router.KeepSendingTable | router.c:510-550 | true exactly when some taken, non-direct row has fewer than nine failed updates |
| RipRouters.Router.UpdateMyRoutingTable | router.c:426-483 | table, counter and send flag after a RIP packet |
| RipRouters.Router.CompileRoutingTable | router.c:338-417 | one word per taken row, the empty word for the others |
| RipRouters.Router.SendRoutingTableTo | router.c:300-328 | the texts sent, in table order, and success exactly when one of them got through |
| RipRouters.Router.SendRoutingTableToNeighbours | router.c:254-292 | the loop over direct neighbours: all texts sent and every unreachable one put at infinity |
| RipNetwork.StepKeepsWellFormed | RIPAlgorithm.c:46-159 | every step keeps: taken rows name themselves, distances 0..12, socket 7000 + next hop, direct only by itself, next hop taken, own network never taken, no router advertising itself |
| RipNetwork.RunKeepsWellFormed | router.c:254-367 | the same over every run, with failures, loss, duplication and reordering |
| RipNetwork.DeliverEffect | router.c:426-483 | what a delivery changes anywhere in the network, and all it changes |
| RipSending.SweepIsSends | router.c:254-328 | from any well-formed state, the sending loop with its text on the wire leaves the tables and extends the queues exactly as the network's send steps do |
| RipSending.SweepServesNeighbours | router.c:264-286 | the loop sends to exactly the neighbours that were direct when it began |
| RipCallbacks.RipWordHandled | router.c:1429-1440 | a RIP word updates the routing side as its advert says, and nothing else, and is not answered |
| RipCallbacks.HandlingIsDelivery | router.c:1429-1440 | in every well-formed network state, the callback given the text of a queued advert leaves the routing state the network's delivery leaves |
| RipCallbacks.SweepThenCallback | router_socket_channel.c:126-137 | the i-th text a sweep sends to a neighbour's port is the next queued advert, and handing it to the neighbour's callback is delivering it |
| RipCallbacks.OtherWordsIgnored | router.c:1551-1566 | words of no known kind change nothing |
| RipCallbacks.TransitLeavesNoTrace | router.c:1387-1426 | replies, requests and IP packets passing through are sent on unchanged towards the network they name and leave no trace |
| RipCallbacks.NothingReachesTheDead | router.c:1738-1756 | nothing is handed to a port that does not answer or sent on to a router that does not connect |
| RipSoundness.RunKeepsSound | RIPAlgorithm.c:121-159 | rows and packets in flight keep standing for real walks, in any delivery order |
| RipSoundness.DistancesAreRealWalks | RIPAlgorithm.c:121-237 | in every reachable state a distance d below twelve has a walk of exactly d + 1 links beginning with the next hop |
| RipCleanRuns.StepIsMonotone | RIPAlgorithm.c:93-109 | a clean step increases no distance, although the same-hop rule overwrites unconditionally |
| RipCleanRuns.StepKeepsClean | RIPAlgorithm.c:46-111 | the invariant relating rows to queued adverts survives every clean step |
| RipCleanRuns.RunIsMonotone | router.c:153-180 | over a clean run, also from neighbours marked by the probe, no distance increases, an absent row counting as thirteen |
| RipLookups.LookupsAgree | router.c:643-657 | in every run without a vain send, under loss, duplication and reordering, dispatching looks the chosen next hop up again and gets the same router, a neighbour |
| RipLookups.AgreeIff | router.c:1779-1817 | in any well-formed state the two lookups agree exactly when the next hop is its own next hop |
| RipCleanRuns.NextHopIsCloser | router_switch_fabric.c:12-59 | below infinity the next hop is the destination or has it at a strictly smaller distance |
| RipCleanRuns.ForwardingTerminates | router.c:1767-1822 | with forwarding and protocol interleaved at will, a packet arrives within d + 1 hops and is never stuck |
| RipConvergence.RoundSettlesOneMore | RIPAlgorithm.c:46-111 | one round extends correct distances by one link |
| RipConvergence.SettledIsExact | RIPAlgorithm.c:195-237 | settled and sound distances are the hop counts less one, with the next hop on a shortest path |
| RipConvergence.Converges | router.c:558-609 | after k rounds from any start every network at hop count up to k (k + 1 with all neighbours up) is exact, and stays exact |
| RipSchedules.RoundsExist | router.c:213-248 | any number of rounds can be carried out among the links of a part of the network that are up at one end at least: the whole of it, or what a death leaves |
| RipSchedules.RoundExistsIff | router.c:153-180 | from the start a round can be carried out if and only if no link failed the probe at both ends |
| RipCountToInfinity.RoundRaisesFloor | RIPAlgorithm.c:93-98 | a round among live routers raises the least distance to a dead one by at least one |
| RipCountToInfinity.DeathIsNoticed | router.c:274-284 | a send in vain puts the dead neighbour out of reach, and only its own packets could undo that |
| RipCountToInfinity.CountingEnds | RIPAlgorithm.c:152-157 | from any reachable state, once noticed, rows for a dead router exceed r after r rounds and are at infinity after eleven |
| RipQuiescence.SettledDelivery | router.c:446-449 | in settled tables every delivery changes no row, reports no update and raises the counter |
| RipQuiescence.RoundsCount | router.c:491-504 | each round raises the counter of every non-direct row |
| RipQuiescence.ConvergedIsSettled | RIPAlgorithm.c:46-111 | converged tables on a network of diameter at most twelve are at a fixpoint below infinity |
| RipQuiescence.GoesQuiet | router.c:426-550 | diameter rounds and nine more after the start, every packet processed leaves its table unchanged and clears the send flag |
| RipPersistence.KeepsSending | router.c:510-550 | from any state and under any failures, a delivery that changes a row sets its router to send, and so does every further delivery while the row is indirect and fewer than nine further adverts about it have come |
| RipPersistence.NinthSettles | router.c:485-504 | with no other indirect row the ninth confirmation clears the flag |
| RipRestless.RefreshStirs | RIPAlgorithm.c:208 | a row at infinity refreshed at infinity by its next hop is rewritten unchanged, resets its counter and keeps its router sending |
| RipRestless.NeverQuietIff | router.c:426-550 | from twelve rounds after a death was noticed, in every further round a router with a row for the dead one has its counter reset and its send flag raised by an advert about it if and only if that row has a live next hop; a live next hop at the time of noticing is still one |
| RipRestless.LiveRoundsExist | router.c:213-248 | the rounds among live routers that counting speaks of exist, in any number, where their links are up at one end at least |
| Agents.AgentRouter.constructor | router.c:88-100 | all slots free, addresses 1..15 in place and free |
| Agents.AgentRouter.SetForeign | table.c:46-85 | writes the slot exactly when it is free or the same mobile's, and says so, for every slot of the table |
| Agents.AgentRouter.SetCareOfUsedBit | table.c:364-374 | writes the used bit of one address and nothing else |
| Agents.AgentRouter.Register | router.c:1334-1376 | slot and used bit together, or neither |
| Agents.AgentRouter.SetHome | table.c:137-165 | writes the mobile's slot, always |
| Agents.AgentRouter.Deregister | router.c:1828-1836 | gives the slot up and leaves the address's bit alone |
| Agents.AgentRouter.GetFreeCareOfAddress | router.c:798-821 | the first address whose bit is clear, or the error value |
| Agents.AgentRouter.CheckStillValid | router.c:1177-1216 | exactly the expired slots stop being registered and free their bits |
| Agents.AgentRouter.DoRouting | router.c:1767-1822 | the two table lookups, what a missing row comes to, and what a dispatch that does not connect comes to |
| Agents.AgentRouter.OnDirectRequest | router.c:1319-1380 | accept, mark the bit and pass the relay on, or refuse and change nothing |
| Agents.AgentRouter.OnRequest | router.c:1238-1397 | the four cases of a request |
| Agents.AgentRouter.OnReply | router.c:1401-1428 | restart the slot's clock at the addressee and hand over to a port that answers; route elsewhere |
| Agents.AgentRouter.ForwardIp | router.c:1546-1546 | routing by the outer network once tunnelled, by the inner one before |
| Agents.AgentRouter.OnIp | router.c:1447-1549 | local hand-over, tunnelling for an absent mobile, or routing on |
| Agents.AgentRouter.Callback | router.c:1228-1569 | the whole callback, by packet type |
| CareOfAddresses.HandlingIsItsEvents | router.c:1228-1569 | the callback changes the foreign agent's tables by registering, de-registering and refreshing only, as the packet says |
| CareOfAddresses.HistoryKeepsAgentOk | table.c:46-85 | over every history a live registration holds its address's bit and a used slot names itself |
| CareOfAddresses.FreeIsFirst | router.c:798-821 | the search returns the least free address, and the error value exactly when there is none |
| CareOfAddresses.AdvertisedIsNotLive | router.c:879-944 | after every history the advertised address is the least unused one and nobody live holds it |
| CareOfAddresses.OwnershipLasts | table.c:61-83 | until an explicit de-registration, a bound address can be registered by its owner and nobody else, past its lifetime too |
| CareOfAddresses.RegistersIff | table.c:61-83 | after every history a request for an address is accepted if and only if nobody has claimed it since it was last given up, or the requester was the first to |
| CareOfAddresses.AdvertisedButRefused | router.c:1196-1209 | a concrete history after which the agent advertises an address it refuses to all others |
| CareOfAddresses.LivesUntilSwept | router.c:1177-1216 | an untouched registration is live, and its bit set, exactly until the first sweep at or after its deadline |
| CareOfAddresses.RegistrationLifetime | table.c:61-76 | the same from the moment of acceptance, after any earlier history |
| CareOfAddresses.ReplyRestarts | router.c:1612-1632 | after every history a reply gives a live registration its whole lifetime again from then on, and changes nothing else about it |
| CareOfAddresses.HandledReplyRestarts | router.c:1410-1415 | the same of the reply word handled by its agent, whether or not the mobile answers |
| CareOfAddresses.DeregistrationLeaks | router.c:1828-1836 | after every history, an address given up keeps its bit and is not advertised again until somebody registers it |
| Mobiles.ForeignRequestFields | mobile_unit_request.c:73-133 | the registration request decodes to the mobile's own fields, with source and identification empty |
| Mobiles.PlainRequestFields | mobile_unit_request.c:4-67 | the home request names just the mobile's home address and agent, the de-registration just its care-of address |
| Mobiles.HeardAsForeignIff | router.c:879-1020 | an advertisement is heard as a home agent's exactly when the router is one, as a foreign agent's exactly when it is one and no home agent, and carries the free address and lifetime 15 of either kind of foreign agent |
| Mobiles.RebindListens | mobile_unit.c:356-421 | once bound, the mobile listens on the port of its address, which nobody else holds, and has the address it wanted unless that port was taken |
| Mobiles.BindsFirstFree | mobile_unit.c:383-417 | the address bound is the first of the mobile's own and the drawn ones whose port is free |
| Mobiles.MobileUnit.constructor | mobile_unit.c:33-77 | a mobile starts at home, unregistered, with nothing bound |
| Mobiles.MobileUnit.SetForeignAgent | mobile_unit_icmp.c:26-45 | lifetime, network and the router to ask come from the advertisement |
| Mobiles.MobileUnit.TakeOffer | mobile_unit.c:825-867 | a mobile not registered before adopts the offered address, another keeps what it has |
| Mobiles.MobileUnit.SendIpPacket | mobile_unit.c:569-637 | abroad with the lifetime over the mobile gives its flag up and asks again, unregistered it sends nothing, else the packet goes to the gateway of its network |
| Mobiles.MobileUnit.CallbackForeign | mobile_unit.c:788-969 | the mobile's whole new state and what it sends, for advertisements, replies and IP packets |
| Mobiles.MobileUnit.BindPort | mobile_unit.c:383-421 | the draws until an address with a free port is found |
| Mobiles.MobileUnit.BringUpCareOf | mobile_unit.c:344-447 | between two packets the port is bound again exactly if the address has changed |
| Mobiles.MobileUnit.GoTo | mobile_unit.c:1029-1106 | setting out for a network, or home |
| Mobiles.MobileUnit.Move | mobile_unit.c:1019-1152 | each part of the moving thread's work between two points where the care-of thread can come in |
| Journeys.JourneyCompletes | router.c:1767-1822 | however handling, protocol and other mobiles' traffic interleave, every handling uses up one of a bounded number of hops, until the packet is at its port |
| Journeys.JourneyCanFinish | router.c:1767-1822 | from every point of a journey some run of handlings ends with the packet at its port |
| MobileIp.RegistrationIsCarriedOut | router.c:1238-1428 | every router's callback does its part of a registration: routes the request, records and answers it, routes and hands over the reply |
| MobileIp.DeliveryIsCarriedOut | router.c:1447-1549 | every router's callback does its part of a delivery: routes, tunnels once, routes by the outer address, hands over |
| MobileIp.ReplyFields | router.c:1085-1128 | the reply repeats lifetime, home and care-of address and goes from the home agent back to the request's source |
| MobileIp.ReplyPort | router.c:1612-1730 | a reply is handed over on the port of the address the request asked for |
| MobileIp.BuiltPacketsArePlain | CN_terminal.c:52-90 | packets built by correspondents and by mobiles (mobile_unit.c:646-710) leave the outer destination clear and carry destination and source; a mobile's shows the network it is on |
| MobileIp.DeliveryCompletes | router.c:1447-1549 | a packet for an absent mobile reaches port agent * 1000 + 7000 + care-of within two distances and one, is never dropped, and shows its original addresses inside |
| MobileIp.ArrivalIsHandled | router.c:1319-1380 | an arriving mobile that hears the advertisement asks for the offered address, and the agent accepts exactly when the slot may be taken |
| MobileIp.RegistrationCompletes | router.c:1238-1427 | an accepted request reaches the home agent over any relays, is bound there to care-of address and foreign agent, and its reply arrives at the port the mobile listens on with its fields |
| MobileIp.RoundsMakeRoutable | router.c:254-367 | the routes these journeys need are there after as many rounds as the hop count, which is also the number of hops |
| Trips.TripCompletes | router.c:1767-1822 | a packet that routers pass on unchanged is at its port after as many routers as its distance allows, and never dropped |
| IpExchange.HandedOverAtHome | router.c:1640-1697 | a correspondent's packet for a host at home is handed, unchanged, to port network * 1000 + 7000 + interface |
| IpExchange.PlainIpArrives | router.c:1539-1547 | from any router with a route it reaches that port untunnelled within the distance |
| IpExchange.TunnelEndsAtAgent | router.c:1533-1537 | a tunnelled packet whose mobile does not answer ends at the agent |
| IpExchange.SendsByItsGateway | mobile_unit.c:569-637 | abroad a mobile sends while registered and within fifteen seconds, by the router of the network it is on, and asks again after that; at home by its home router; the word names destination and home address |
| IpExchange.AnswersThroughTunnel | mobile_unit.c:996-1011 | a correspondent's packet that came through the tunnel is answered to that correspondent, from the home address, by the router of the mobile's network |
| IpExchange.AnswerArrives | mobile_unit.c:996-1011 | and the answer reaches the correspondent's port within the distance |
| Departures.AsksAgainExactlyWhen | mobile_unit.c:823-881 | told at t that it is registered for L, a mobile repeats its request at the first advertisement from t + L on and at none before |
| Departures.PackingFreesSlot | mobile_unit.c:1078-1085 | leaving while registered frees exactly the mobile's own slot at its agent, and not the used bit |
| Departures.HomeRegistrationIsHandled | router.c:1250-1277 | registering at home overwrites the mobile's row with no address and no agent, and brings no reply |
| Departures.ReadyAgain | mobile_unit.c:1029-1049 | a mobile that goes on to another network is ready to adopt an address there as if it came for the first time |
| Departures.HomeIsDeaf | mobile_unit.c:1102-1140 | at home no care-of port can be bound; leaving makes it possible again |
| Provenance.HappeningsAreWrites | table.c:46-85 | an acceptance or a binding enters the history with exactly that write to the tables |
| Provenance.NothingElseRegisters | table.c:137-165 | without one, handling a packet registers and binds nothing |
| Provenance.StepKeepsTraced | router.c:1228-1569 | every step of mobiles, routers and sweeps keeps bindings, packets, slots and mobiles traced |
| Provenance.EverythingIsTraced | mobile_unit.c:896-930 | in every reachable state each binding with a foreign agent, each reply in flight or handed over, and the reply that raised a mobile's flag, goes back to an acceptance by that agent and, for replies, to a binding by the home agent, with the same care-of and home address, and came in on that address's port |
| Provenance.NobodyLiveIsAdvertised | router.c:798-821 | whatever mobiles and packets do, no agent advertises the address of a live registration |
| Whereabouts.FlagsAreRightIff | mobile_unit.c:1029-1106 | over every history all flags are right about where the mobile is all along if and only if replies are taken only abroad, on the port of the mobile's address, and no mobile goes to another network or home while registered |
| Whereabouts.RightFlagIsRegistered | mobile_unit.c:896-930 | a right flag means that the mobile is away, the network it is on accepted its care-of address and a home agent bound it |
| Whereabouts.LateReply | mobile_unit.c:1040-1146 | a run, from every fresh start, in which the late reply to a second request leaves the mobile registered on a network that accepted nothing |
| Whereabouts.LateReplyAtHome | mobile_unit.c:1102-1146 | a run, from every fresh start, in which it leaves the mobile registered abroad while at home |
| OwnRegistrations.FlagsAreOwnIff | mobile_unit.c:896-930 | from a fresh start every history keeps every registered mobile itself accepted and bound, at the address it was told on, if and only if no two mobiles have different home identities |
| OwnRegistrations.AnotherMobilesReply | mobile_unit.c:383-413 | for any two mobiles of different home identity, a run in which one holds the port of an address, the other is accepted for it, and the first takes itself for registered |

## Left out

- Sockets, threads, sleeping and mutexes are replaced by queues and atomic steps; a dispatch that
  connects or not is a free choice. In particular the callback and the expiry sweep are atomic
  steps here, while the source runs them on two threads without a lock.
- First-in first-out queues are assumed only for clean runs: one thread sends the rows of a table
  one after another (router.c:310-326). Well-formedness, soundness and provenance do without.
- The timing of sends: rounds are any interleavings in which every link carries one table sent in
  the round. The sleeping thread that turns sending on again after a minute (router.c:237-243) is
  not modelled, so going quiet is said of every packet processed.
- Routes through a dead router: there is no route timeout, so nothing is claimed about them beyond
  soundness and well-formedness.
- Graphs are symmetric with router id equal to network id, 1..15 (1..7 where IP packets are
  involved, whose network fields have three bits); parsing the configuration files is left out.
- Table accesses out of bounds: care-of addresses 0 and 15 and home address 15 name slots that do
  not exist, and the source indexes with them unchecked. `Agents.InBounds` excludes them, and
  `MobileIp.RouterHandles` refuses such packets. A dispatch whose row is missing, where the source
  may read row -1, comes to nothing.
- Overflow of a failed-update counter after two thousand million updates.
- Home-agent rows beyond the used flag are uninitialised memory in the source; the model lets them
  hold anything. A binding made by a home registration has foreign agent 0 and cannot be tunnelled to.
- The mobile's home interface, its own rebinding when the home port is taken (so the home address
  stays what it was at the start), GUI output and the wait for the home agent are left out. Its two
  threads take turns between the parts of Move, the packets taken and the ports bound; within one
  part they do not interleave. A mobile may ask its home agent to register it at any time.
- Host names and printable columns of the tables, message lists, statistics, and the stub table
  HAddrToCAddrOBJ (table.c:188-334).
- Delivery of replies from an agent that is also the mobile's home agent: the source then sends no
  reply (router.c:1250-1277), and journeys assume two different routers.
- Provenance.EverythingIsTraced: traces the reply that raised a mobile's flag, not the network the
  mobile is on now, because of the two tests the code lacks; the rest is in FlagsAreRightIff and
  FlagsAreOwnIff.
- Agents.AgentRouter.OnDirectRequest: requires a care-of address 1..14, because with 0 and 15 the source
  writes outside its used-bit or its slot array.
- Agents.AgentRouter.OnRequest: requires the slots the packet names to exist, for the same reason.
- Agents.AgentRouter.OnReply: requires the care-of address's slot to exist, for the same reason.
- Agents.AgentRouter.OnIp: requires the home address's slot to exist; findHAR aborts otherwise
  (table.c:127-134).
- Agents.AgentRouter.Callback: requires the packet's table slots to exist, because the source indexes
  its arrays with those fields unchecked and what it then reads or writes is other memory.
- Agents.AgentRouter.CheckStillValid: requires used slots to name themselves, which every history keeps
  (HistoryKeepsAgentOk), because the source frees the address the row names and not its index.
- RipCountToInfinity.CountingEnds: starts from the moment the neighbours' sends have failed and the
  dead router's packets are gone, because nothing in the source times a silent neighbour out.
