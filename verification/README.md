# PacketInspector: a verified model of its SNI filter

PacketInspector decides, from the server_name in a TLS ClientHello, whether a TCP connection is let
through or dropped. This project models one worker of it and proves what it promises:

* `Wire`, `Records`, `RecordTheorems`, `Refusals`: the TLS record layer (section 5.1 of RFC 8446), with the
  zero-copy fast path and the joining loop; when a message is found, waited for and given up.
* `ClientHello`, `ClientHelloGrammar`, `Hostname`: the walk to server_name (section 4.1.2 of RFC 8446,
  section 3 of RFC 6066) and the incremental hostname lookup built from both.
* `Packets`, `Dissector`, `DissectorTheorems`, `Dissections`: the packet object, the IPv4/IPv6/TCP/UDP
  dissector, read both ways, and the flow key.
* `Blocklist`: entry classification and the suffix walk.
* `FlowTable`: the flow table as a state machine on values. `FlowActions` breaks every operation into
  small allowed actions; `History`, `Arrivals`, `Runs`, `Conservation`, `RingTheorems`, `BlockMemory`,
  `Provenance`, `Timeouts`, `LastSeen`, `EndToEnd`, `Deliveries`, `Decisions`, `Bystanders`, `Closing` and
  `Guarantees` prove what every run keeps; `Witnesses` holds concrete packets and runs.
* `Extractor`, `Worker`: the classes whose methods change their fields in place, each method proved to do
  exactly what the state machine says, down to the verdicts the kernel is given.

Parsers are written as in the source, with 32-bit arithmetic (`uint32`) in which a wrap does not verify.
The reassembler is an arbitrary list of callbacks for every packet fed; time, the policy and the order in
which the hash map is walked are parameters, so every theorem holds for all of them. `log` in the state is
a history that only theorems read; `Runs.RunArrives` and `Runs.RunTells` tie what it says of arrivals and
answers to the packets a run is fed and the verdicts that come out of it.

## What turned out not to hold as stated

* Waiting for more bytes is not always useful: some buffers are waited on although no continuation is a
  ClientHello (for example the three in `RecordTheorems.SomeWaitsAreInVain`). Exactly when waiting is useful
  is `RecordTheorems.NeedMoreIff`.
* "A decided flow never keeps an undecided one out" has one exception, a blocked flow whose key is 0. A
  packet with that key and a run that ends there are in `Witnesses.KeyZeroIsReached`; the exact condition is
  `RingTheorems.DroppedIff`, from construction on `Guarantees.EveryFeed`.
* "Once blocked, every packet of the flow is dropped" fails exactly for a packet without payload that
  arrives before the flow is blocked and during whose own reassembly it becomes blocked:
  `Provenance.BlockedFlowVerdictIff` for every feed, `Witnesses.BareFinIsReached` for a run.
* include/packet.hpp:134-136 says that a failed dissection leaves the view at its defaults. The code leaves
  what was filled in before the failure; the view is left at its defaults exactly when not even the fixed IP
  header is there (`DissectorTheorems.FailedViewIsBlankIff`). The model follows the code.
* include/blocklist.hpp:15-17 speaks of subdomains; a wildcard also matches ".suffix" with nothing in front
  of the dot (`Blocklist.BareDotIsListed`), and that is the only other thing it matches
  (`Blocklist.WildcardsMatchIff`).
* How a stream is cut into chunks can matter in one way: past 32768 bytes a stream still undecided is given
  up. `Hostname.IncrementalIsWhole` and `Hostname.ChunkedRoundTrip` say exactly when.
* A block need not be remembered for as many registrations as the ring has slots: a stale slot can name its
  key. It is if and only if no slot but the one taken for it names the key already (`BlockMemory.RegisteredIff`,
  for a whole feed `BlockMemory.FeedRemembers` and `BlockMemory.BlockOutlives`); in general it lasts until the
  first slot that names it (`BlockMemory.BlockIsRemembered`). In `Witnesses.StaleSlotIsReached` one
  registration displaces a block although half of a two-slot ring is free.

## Model

| member | source | states |
|---|---|---|
| Records.CollectHandshake | src/hostname_extractor.cpp:103-183 | in 32-bit arithmetic without a wrap, the answer and message of `Collect`; the scratch buffer is untouched or at most 65538+16384 bytes |
| Records.JoinRecords | src/hostname_extractor.cpp:144-182 | the joining loop, against the recursive reading of the unread bytes |
| RecordTheorems.CollectStable | src/hostname_extractor.cpp:103-183 | a Found or NotFound answer never changes when more bytes arrive |
| RecordTheorems.FastPathRefinesLoop | src/hostname_extractor.cpp:120-182 | the two paths agree once the first record is complete; the loop never decides before the function; an early fast answer is the loop's on every continuation completing that record |
| RecordTheorems.JoinComplete | src/hostname_extractor.cpp:147-182 | any records whose payloads complete a message make the loop find exactly that message |
| RecordTheorems.JoinSound | src/hostname_extractor.cpp:147-182 | whatever the loop finds is a message at the front of the payloads of legal records in the buffer |
| RecordTheorems.FoundIff | src/hostname_extractor.cpp:103-183 | a message is found if and only if the buffer carries it in records, or wholly inside a first record still arriving |
| RecordTheorems.ProperPrefixWaits | src/hostname_extractor.cpp:106-177 | however a message is cut into records, no proper prefix of the stream is decided |
| RecordTheorems.NeedMoreIff | src/hostname_extractor.cpp:106-177 | an undecided buffer can still become Found if and only if nothing in its last partial record header and handshake header rules it out |
| RecordTheorems.SomeWaitsAreInVain | src/hostname_extractor.cpp:113-118 | three concrete buffers that are waited on although no continuation is ever Found |
| Refusals.NotFoundIff | src/hostname_extractor.cpp:103-183 | the record layer gives up if and only if the first record header fails a check, or legal records that leave the message unfinished are followed by five bytes that are no handshake record header, or the first four handshake bytes, joined from the records or already in a first record still arriving, are no header of a ClientHello of 34 to 65535 bytes; all on literal bytes |
| ClientHello.ParseClientHello | src/hostname_extractor.cpp:189-258 | no offset wraps, a found host lies inside the message and is the one `HostOf` names |
| ClientHello.ParseExtensions | src/hostname_extractor.cpp:215-257 | the extension loop against its recursive reading |
| ClientHello.ParseServerNames | src/hostname_extractor.cpp:230-254 | the ServerNameList loop against its recursive reading |
| ClientHelloGrammar.NamesFound | src/hostname_extractor.cpp:240-253 | after any other name entries, the first host_name entry is the one found |
| ClientHelloGrammar.ExtensionsFound | src/hostname_extractor.cpp:224-256 | after any other extensions, the first server_name extension is the one read |
| ClientHelloGrammar.HostOfIff | src/hostname_extractor.cpp:189-258 | a host is found if and only if the message is a ClientHello of the grammar naming it |
| Hostname.ExtractHostname | src/hostname_extractor.cpp:261-271 | record layer, then walk; the answer of `Extract` on every buffer below 2^32 bytes |
| Hostname.ExtractStable | src/hostname_extractor.cpp:261-271 | an answer is final under any extension of the stream |
| Hostname.IncrementalIsWhole | src/hostname_extractor.cpp:525-544 | appending and asking chunk by chunk, giving up past 32768 undecided bytes, gives no host if some chunk leaves the stream too long and undecided, and otherwise the answer of one call on the whole stream |
| Hostname.ExtractIff | src/hostname_extractor.cpp:261-271 | a host is found if and only if the stream carries a ClientHello message that names it |
| Hostname.NotFoundIff | src/hostname_extractor.cpp:261-271 | the lookup answers that there is no host if and only if the record layer gives up for one of those reasons or the stream carries a ClientHello message that names none |
| Hostname.RoundTrip | src/hostname_extractor.cpp:103-271 | any ClientHello for h, split into any legal records and followed by anything, gives exactly h |
| Hostname.PrefixNeedsMore | src/hostname_extractor.cpp:103-183 | every proper prefix of such a stream needs more |
| Hostname.ChunkedRoundTrip | src/hostname_extractor.cpp:525-544 | over any chunking of a framed ClientHello for h, from any proper prefix on, the answer is h unless a chunk ends past 32768 bytes and before the last byte, and then none; within the limit nothing is answered before the last byte |
| Packets.PacketVar.Move | include/packet.hpp:77-93 | moving out hands over the packet and leaves a husk owing nothing |
| Packets.PacketVar.Assign | include/packet.hpp:82-94 | move assignment takes the packet and clears the source; self-assignment changes nothing |
| Packets.PacketVar.Materialize | src/packet.cpp:187-199 | a view becomes owned with the same bytes; anything else is unchanged |
| Packets.PacketVar.ReleaseBytes | include/packet.hpp:115-118 | a shell that keeps id, length, verdict and the pending flag |
| Dissector.DoParseL4 | src/packet.cpp:23-53 | stepwise TCP/UDP parse equals the functional one, also in what a failure leaves filled in |
| Dissector.DoParseIPv4 | src/packet.cpp:55-79 | stepwise IPv4 parse equals the functional one |
| Dissector.DoParseIPv6 | src/packet.cpp:89-140 | the eight-turn extension-header loop equals the bounded walk, with no offset wrap |
| Dissector.FlowViewOf | src/packet.cpp:170-210 | version dispatch, dissection and key of Packet::flow_view |
| Dissector.DoEndpointHash | src/packet.cpp:148-154 | the 64-bit wrapping loop truncated to 32 bits is the unbounded base-131 polynomial modulo 2^32 |
| Dissector.DoRouteKey | src/packet.cpp:156-165 | the key in 64-bit wrapping arithmetic is the ordered mix of both endpoint hashes modulo 2^32 |
| Dissector.RouteKeySymmetric | src/packet.cpp:142-165 | swapping the endpoints keeps the key: a packet and its answer belong to one flow |
| DissectorTheorems.SegmentAt | src/packet.cpp:23-53 | a printed TCP or UDP segment is read back: ports, flags and exactly its payload |
| DissectorTheorems.Ip4RoundTrip | src/packet.cpp:55-79 | an IPv4 packet with options and padding dissects if and only if it is not a later fragment, and then exactly |
| DissectorTheorems.Ip6RoundTrip | src/packet.cpp:81-140 | an IPv6 packet behind n followed extension headers dissects if and only if n is at most seven, and then exactly |
| DissectorTheorems.DissectedInside | src/packet.cpp:170-183 | on arbitrary bytes a dissected payload lies inside the packet |
| Dissections.TransportIff | src/packet.cpp:23-53 | ports, flags and payload are read if and only if a whole TCP or UDP header is there, with a data offset that fits; a UDP length that lies is ignored |
| Dissections.Ip4Iff | src/packet.cpp:55-79 | any bytes of version 4 are dissected as a view if and only if they are a first fragment with a header that fits and the protocol byte names the transport behind it; a total length that lies is ignored |
| Dissections.Ip6Iff | src/packet.cpp:81-140 | any bytes of version 6 are dissected as a view if and only if at most seven followed extension headers lead from byte 40 to the TCP or UDP header the view was read from |
| Dissections.DissectedIff | src/packet.cpp:170-183 | a packet is dissected as a view if and only if it is one of these two; everything else is refused |
| DissectorTheorems.EveryByteCounts | src/packet.cpp:148-154 | two endpoints that differ in one address byte, or in the port, hash differently |
| DissectorTheorems.FailedViewIsBlankIff | src/packet.cpp:55-183 | a failed dissection leaves the view at its defaults if and only if the packet is too short for the fixed header of its version or of no known version; otherwise the version is filled in |
| DissectorTheorems.FailedViewIsNotBlank | include/packet.hpp:134-137 | a concrete packet on the other side of that condition: version and addresses stay filled in |
| Blocklist.BlockList.constructor | src/blocklist.cpp:24-41 | the two sets are exactly what the stripped, non-comment lines classify to |
| Blocklist.BlockList.IsHostnameBlocked | src/blocklist.cpp:43-59 | blocked if and only if an exact entry or some p + "." + s with s a wildcard suffix |
| Blocklist.StripPiecewise | src/blocklist.cpp:9-16 | stripping removes exactly the characters 9 to 13 and 32 and keeps the others in order |
| Blocklist.OnListIff | src/blocklist.cpp:43-59 | trying the suffix after each dot is the same as that definition |
| Blocklist.BareDotIsListed | include/blocklist.hpp:15-17 | for every wildcard suffix s, "." + s is blocked although it is no subdomain of s |
| Blocklist.WildcardsMatchIff | src/blocklist.cpp:43-59 | the wildcards match a hostname if and only if it is a proper subdomain of a suffix or a bare dot before one |
| FlowActions.OnEventReaches | src/hostname_extractor.cpp:496-561 | each callback is a sequence of allowed actions and leaves the flow waiting on an undecided stream or settled by what the stream says |
| FlowActions.FeedReaches | src/hostname_extractor.cpp:339-461 | feed is a sequence of allowed actions and keeps the shape of the table |
| FlowActions.FlushReaches | src/hostname_extractor.cpp:471-482 | flush, in any walk order, resolves every waiting flow before the table is cleared |
| FlowActions.RunQuiet | src/hostname_extractor.cpp:411-457 | in every run a waiting flow has an undecided stream of at most 32768 bytes and at most 32 held shells owing a verdict; a blocked flow holds nothing |
| Arrivals.FeedArrives | src/hostname_extractor.cpp:339-461 | whatever a feed decides, it records exactly one arrival, the fed packet's |
| Arrivals.OpenedIff | src/hostname_extractor.cpp:371-406 | a feed starts tracking exactly the packet's own flow, and only when it is untracked, starts with a SYN without ACK or bytes 16 03, and the table is not full of waiting flows |
| Arrivals.TcpViewIff | src/hostname_extractor.cpp:350-360 | a packet belongs to a flow if and only if it still has its bytes and they dissect as TCP |
| Runs.RunArrives | src/hostname_extractor.cpp:339-461 | over any run, the logged arrivals are the packets fed, in order |
| Runs.RunArrivesTo | src/hostname_extractor.cpp:339-461 | the same for the payload packets of each flow key |
| Runs.RunTells | include/hostname_extractor.hpp:173-176 | over any run, the logged answers are what the drains took out followed by what is still in the buffer |
| History.ReachTells | include/hostname_extractor.hpp:173-176 | the decided buffer grows by exactly the answers, in order |
| Conservation.RunAccounted | src/hostname_extractor.cpp:339-634 | in every run each packet of its operations is answered or held exactly as often as fed, and each flow's payload packets are answered in the order they were fed |
| Conservation.FlushAnswersAll | src/hostname_extractor.cpp:471-482 | a run that ends in a flush leaves nothing tracked or held and has answered every packet of its operations |
| RingTheorems.RunWithinCaps | src/hostname_extractor.cpp:302-405 | in every run each blocked nonzero key is in the ring and the table never exceeds its cap |
| RingTheorems.InitWithinCaps | src/hostname_extractor.cpp:278-300 | a new extractor tracks nothing; its flow cap is the configured one or 1, its ring of zeros has the configured size up to the flow cap, or a quarter of the flow cap and at least 1 |
| RingTheorems.BlockedBound | include/hostname_extractor.hpp:92-102 | blocked flows number at most the ring's size, one more counting key 0 |
| RingTheorems.EvictIff | src/hostname_extractor.cpp:321-337 | a full turn drops exactly one blocked flow with a nonzero key if there is one, the one named by the first slot in turn that names any, and nothing otherwise |
| RingTheorems.WaitingIsSpared | src/hostname_extractor.cpp:302-337 | neither registering nor evicting a block touches a waiting flow or its packets |
| RingTheorems.DroppedIff | src/hostname_extractor.cpp:383-405 | a flow is turned away if and only if it would open, the table is full and every tracked flow, key 0 aside, waits |
| RingTheorems.KeyZeroKeepsOthersOut | src/hostname_extractor.cpp:327-328 | in a full table, a blocked flow with key 0 keeps every undecided flow out while the others wait |
| Witnesses.KeyZeroIsReached | src/hostname_extractor.cpp:327-328 | TCP 10.0.0.1:40087 to 5.214.205.173:443 has key 0; its ClientHello and another flow's SYN make a run from construction in which the SYN is turned away although no flow waits |
| RingTheorems.SweptAlready | src/hostname_extractor.cpp:389-392 | after the tick at the same instant the second sweep of feed is never due |
| BlockMemory.RegisteredIff | src/hostname_extractor.cpp:302-319 | a newly registered key is named by exactly the newest slot, a full ring of registrations to go, if and only if no slot but the one it takes named it before |
| BlockMemory.BlockIsRemembered | src/hostname_extractor.cpp:302-319 | over any run without cap eviction, flush or its own idle expiry, a block is displaced if and only if more flows are registered than there are slots before the first that names it, and stays until then |
| BlockMemory.FeedRemembers | src/hostname_extractor.cpp:339-461 | a feed that newly blocks a flow leaves it a full ring of registrations if and only if no slot but the one it took named its key once room was made |
| BlockMemory.BlockOutlives | src/hostname_extractor.cpp:302-319 | such a flow has a number of registrations left, a full ring exactly under that condition, and through any undisturbed run is displaced if and only if more follow, staying blocked until then |
| Witnesses.StaleSlotIsReached | src/hostname_extractor.cpp:302-319 | a client blocked, flushed and blocked again, then another client, make a run from construction in which the second registration displaces the first block although the ring has two slots and nothing else is blocked |
| Provenance.RunAgrees | src/hostname_extractor.cpp:563-603 | under a policy that allows a missing hostname, every run's log is accepted by the per-flow automaton and the table agrees with it |
| Provenance.BlockProvenance | src/hostname_extractor.cpp:507-603 | every BLOCK goes back to that flow's own opening, its own client bytes naming a host, and the policy blocking that host, with nothing ending the entry since |
| Provenance.AskedOnce | src/hostname_extractor.cpp:563-572 | between two askings about a key the flow was opened again |
| Provenance.AskedTruthfully | src/hostname_extractor.cpp:525-544 | the policy is asked about exactly the host the flow's client bytes name, or none |
| Provenance.BlockedFlowVerdictIff | src/hostname_extractor.cpp:355-461 | of a flow blocked after a feed, the packet just fed was allowed if and only if the flow was not blocked when it arrived and it carries no payload (or, under a policy that blocks a missing hostname, 32 packets were already held) |
| Provenance.BareFinSlipsThrough | src/hostname_extractor.cpp:424-460 | a payload-less packet during whose reassembly the flow becomes blocked is itself allowed |
| Witnesses.BareFinIsReached | src/hostname_extractor.cpp:424-460 | a SYN and a FIN whose reassembly delivers a ClientHello make a run from construction that ends with the flow blocked and the FIN allowed |
| Timeouts.TickBoundsIdle | src/hostname_extractor.cpp:463-469 | after a tick no waiting flow has been idle 11 s and no blocked flow 61 s |
| Timeouts.RunTimely | src/hostname_extractor.cpp:605-634 | over runs on a monotone clock nothing that survived the last sweep was idle at it |
| LastSeen.StepSees | src/hostname_extractor.cpp:339-482 | after any operation a tracked flow was last seen now, if the operation fed its packet, and otherwise when it was before; the time of the last sweep moves only when a second has passed |
| LastSeen.RunSees | src/hostname_extractor.cpp:339-482 | through any run, a tracked flow was last seen when its latest packet was fed |
| LastSeen.TickExactly | src/hostname_extractor.cpp:463-469 | within 1 s of the last sweep a tick changes nothing; otherwise it drops exactly the waiting flows silent for 10 s and the blocked ones silent for 60 s and changes no other |
| LastSeen.TickWaiting | src/hostname_extractor.cpp:605-634 | whatever the policy, a due tick leaves a waiting flow waiting, unchanged, if and only if it was seen within 10 s |
| EndToEnd.StreamFollows | src/hostname_extractor.cpp:496-545 | short of its end, a waiting flow does what the incremental lookup does on the client's chunks, whatever else the reassembler calls back |
| EndToEnd.HelloResolves | src/hostname_extractor.cpp:507-561 | a flow hearing the rest of a framed ClientHello in any chunks is put to the policy as exactly its host and treated as answered, unless a chunk ends past the stream limit and before the hello does; any callbacks after that, the end included, change nothing |
| EndToEnd.WholeHelloIsAsked | src/hostname_extractor.cpp:496-603 | in a table that agrees with its log, a flow whose logged client bytes contain a framed ClientHello for h has been put to the policy as h |
| Deliveries.RunHeeds | src/hostname_extractor.cpp:339-634 | through any run a waiting flow waits on everything the feeds delivered to it, or was put to the policy as what the first few chunks say; before they say anything only after a flush, an idle sweep, the end of the connection or a 33rd packet |
| Decisions.TrackWaitsIff | src/hostname_extractor.cpp:408-461 | a packet leaves its flow waiting if and only if fewer than 32 packets are held, the reassembler does not end the connection and the lookup on what it delivers needs more; the flow then has all its bytes and packets |
| Decisions.StepWaitsIff | src/hostname_extractor.cpp:339-482 | an operation whose sweep spares it leaves a waiting flow waiting if and only if it does not cut it short and the lookup on what it delivers needs more |
| Decisions.StretchAnswers | src/hostname_extractor.cpp:339-603 | from the packet that opens a flow to the one on which the lookup answers, every payload packet of the flow is answered with the policy's verdict on that answer, together and in order |
| Bystanders.PlaceLeaves | src/hostname_extractor.cpp:371-461 | feeding a packet leaves every flow it does not belong to as it is, but for the one evicted to make room in a full table and the one that a newly blocked flow displaces |
| Closing.EventsClose | src/hostname_extractor.cpp:496-603 | callbacks that settle a flow close the connection named by the client data that settled it, and none when its end settled it |
| Closing.ExpireAllCloses | src/hostname_extractor.cpp:605-634 | expiring flows closes exactly the connections of those that wait, have a token and have not ended, each once and in order |
| Closing.ResolveAllCloses | src/hostname_extractor.cpp:471-482 | so does a flush |
| Guarantees.EveryPacket | src/hostname_extractor.cpp:278-634 | from construction on: every packet of the run's operations is in its output or held, exactly as often as fed, and each flow's payload packets leave in the order they were fed |
| Guarantees.EveryFlush | src/hostname_extractor.cpp:471-482 | from construction on: a run that ends in a flush has output every packet fed, exactly as often as fed, each flow's in order |
| Guarantees.EveryRun | src/hostname_extractor.cpp:278-634 | from construction on: the shape of every entry and all caps together |
| Guarantees.EveryFeed | src/hostname_extractor.cpp:371-406 | from construction on: a feed refuses its packet for want of room, and starts a flow, exactly when `DroppedIff` and `OpenedIff` say |
| Guarantees.EveryBlock | src/hostname_extractor.cpp:302-319 | from construction on: every blocked flow but key 0 has a number of registrations left, below the blocked cap, and is displaced exactly when more follow |
| Guarantees.EveryHello | src/hostname_extractor.cpp:339-634 | from construction on: a flow opened by a feed, to which that feed and those after it have delivered a whole framed ClientHello for h, has been put to the policy, as h unless it was cut short or a chunk ends past the stream limit and inside the hello |
| Guarantees.EveryVerdict | src/hostname_extractor.cpp:278-634 | from construction on: when one operation opens a flow and a later one completes a framed ClientHello for h, nothing cutting the flow short and no chunk ending past the stream limit and inside the hello, every payload packet of the flow fed by those operations is in the output with the policy's verdict on h, together and in order |
| Guarantees.EveryRunIsLegal | src/hostname_extractor.cpp:278-634 | from construction on the log is legal under a policy that allows a missing hostname |
| Guarantees.EveryTick | src/hostname_extractor.cpp:463-469 | from construction on the 11 s and 61 s idle bounds hold after every tick |
| Guarantees.EveryLastSeen | src/hostname_extractor.cpp:408-409 | from construction on: every tracked flow was last seen when its latest packet was fed |
| Guarantees.EveryTickDrops | src/hostname_extractor.cpp:605-634 | from construction on: a due tick drops a tracked flow if and only if its latest packet was fed 10 s ago or earlier, if it waits, and 60 s ago or earlier, if it is blocked |
| Extractor.TcpTlsHostnameExtractor.constructor | src/hostname_extractor.cpp:278-300 | an empty table, a zeroed ring of the derived size |
| Extractor.TcpTlsHostnameExtractor.RememberBlocked | src/hostname_extractor.cpp:302-319 | the in-place ring write and displacement of the state machine |
| Extractor.TcpTlsHostnameExtractor.EvictOldestBlocked | src/hostname_extractor.cpp:321-337 | the eviction loop, and true exactly when a flow was dropped |
| Extractor.TcpTlsHostnameExtractor.Resolve | src/hostname_extractor.cpp:563-603 | the whole new state of a resolution, held packets answered in order |
| Extractor.TcpTlsHostnameExtractor.OnMessageReady | src/hostname_extractor.cpp:507-545 | client data appended and judged; ignored outside a feed, from the server, or once decided |
| Extractor.TcpTlsHostnameExtractor.OnConnectionEnd | src/hostname_extractor.cpp:547-561 | the end of a connection releases what is held, only while feeding |
| Extractor.TcpTlsHostnameExtractor.Sweep | src/hostname_extractor.cpp:605-634 | collect idle keys, then expire them one by one, in any walk order |
| Extractor.TcpTlsHostnameExtractor.Tick | src/hostname_extractor.cpp:463-469 | the rate-limited sweep |
| Extractor.TcpTlsHostnameExtractor.Flush | src/hostname_extractor.cpp:471-482 | resolve all waiting flows, clear the table |
| Extractor.TcpTlsHostnameExtractor.Feed | src/hostname_extractor.cpp:339-461 | the caller's packet is moved in and the fields change exactly as the state machine's feed |
| Worker.NFQueue.Submit | src/NFQueue.cpp:199-218 | a pending packet is answered once and becomes an answered shell; any other is left alone |
| Worker.NFQueue.CatchDropped | src/NFQueue.cpp:188-195 | a packet the callback dropped is allowed and counted; any other is not touched |
| Worker.PolicyOf | src/worker.cpp:54-66 | a missing hostname is allowed; a hostname is blocked if and only if listed |
| Worker.TurnIs | src/worker.cpp:103-124 | a turn is its packets with their ids, bytes, times and callbacks in order, then a tick, then a drain; a stop or an error is nothing |
| Worker.ListedIsBlocked | src/worker.cpp:54-101 | under the worker's policy, when the turns open a flow and deliver a whole framed ClientHello for a listed host to it uncut, every payload packet of the flow among them has been given BLOCK, together and in order |
| Worker.Worker.WhyBlocked | src/worker.cpp:54-101 | every BLOCK handed to the kernel answers a packet of a flow that was opened, whose own client bytes name a host, and for which the policy asked about that host said BLOCK |
| Worker.BlockedWasListed | src/worker.cpp:54-66 | under the worker's policy that host is on the list |
| Worker.Worker.Handle | src/NFQueue.cpp:160-197 | one packet received, recorded once, never left pending and fed to the extractor with its id, its bytes and their number when it has any, its time and its callbacks; nothing is ever rescued |
| Worker.Worker.ServeTurn | src/worker.cpp:103-124 | one turn: its packets received and fed in order, then a tick, then a drain |
| Worker.Worker.DrainDecided | src/worker.cpp:96-101 | the verdicts go out in decision order, and what stays outstanding is exactly what is held |
| Worker.Worker.Loop | src/worker.cpp:103-130 | the packets of all turns before the first stop or error are received, the extractor runs exactly those turns' operations and then a flush and a drain, the verdicts are that run's answers in order, every BLOCK among them is justified, every uncut ClientHello among them is answered with the policy's verdict on its host, nothing is outstanding and every id received was answered exactly as often as received |
| Worker.NoIdTwice | src/NFQueue.cpp:199-203 | with distinct ids in, no id is answered twice |

## Left out

- The reassembler: what it delivers, reorders, purges or closes is not modelled; it is any list of callbacks during a feed, and callbacks outside a feed do nothing, as in the source.
- closeConnection: which connections are closed, and when, is modelled and proved; what closing does inside the reassembler is not.
- Counters published for other threads: tracked_flows and the blocked gauge are left out; the dropped-at-cap counter is modelled.
- The decide callback: a pure function of the hostname, without its optional log line; a callback that throws or re-enters is not modelled.
- Provenance.RunAgrees: assumes a policy that allows a missing hostname, as the worker's does; a 33rd packet of a flow that such a policy would block is allowed by the source after the flow is blocked.
- BlockMemory.FeedRemembers: about a flow not yet blocked after the tick the feed begins with; a flow blocked by that tick itself, which needs a policy that blocks a missing hostname, is left to `Guarantees.EveryBlock`.
- Timeouts.TickBoundsIdle: assumes the same, since a policy that blocks a missing hostname would keep expired flows as blocked entries with their old time.
- Hostname.ExtractHostname: buffers of 2^32 bytes or more, whose length the source would truncate; chunks are bounded accordingly in `Extractor.ChunksFit`.
- Dissector.FlowViewOf: captures within 4096 bytes of 2^32, far above the 64 KiB the queue delivers, where an offset could wrap.
- The kernel: every verdict call succeeds and the poll, recv and netlink code is replaced by a given sequence of turns; counters are unbounded integers.
- Threads, CPU pinning, command line, configuration, statistics, reading the blocklist file (the model starts from its lines).
- Flow identity: properties are per 32-bit key; two connections with equal keys are one flow to the source and to the model.
