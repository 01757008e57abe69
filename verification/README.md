# A verified model of obserwrt's flow accounting

obserwrt counts packets per flow in eBPF, and a C++ agent reads the flow map
periodically and exports what it finds as IPFIX. This project models that
pipeline in Dafny, from packet bytes to IPFIX bytes, and proves what it promises:
no packet is counted twice unless a walk or a delete fails, nothing exported is lost
or invented on the way to a collector, and the agent's tables stay in step under
every sequence of events.
`dafny verify dfyconfig.toml` checks all of it.

## How it is organised

Code that changes state in place is modelled by classes and loops, each proved
against a specification function; the theorems are about those functions, over
all inputs, all runs and all interleavings.

| file | what it models |
|---|---|
| `words.dfy`, `flow.dfy` | machine integers, network byte order, flow keys and values |
| `packet.dfy` | the TC parser: VLAN tags, IPv4, IPv6 extension headers; the packet classifier |
| `wire_format.dfy`, `wire_packets.dfy`, `wire_accepts.dfy` | packets written out from their fields, independently of the parser; what the dataplane makes of them; that it accepts nothing else |
| `dataplane.dfy`, `flow_summary.dfy` | class counters, flow entries, GSO octets |
| `counting.dfy`, `stats.dfy` | many CPUs sharing an LRU map; per-CPU counters |
| `drops.dfy`, `drop_summary.dfy` | the drop tracer, and its records over sequences of drops |
| `batch_walk.dfy` | batched walks, drains and purges of a map that keeps changing |
| `lifecycle.dfy` | the delta and expiry pass over a walk of the flow map |
| `lifecycle_machine.dfy`, `lifecycle_invariant.dfy`, `lifecycle_passes.dfy`, `lifecycle_runs.dfy` | passes interleaved with packets, evictions, stopped walks and lost deletes: the machine, what it keeps, what holds of every run |
| `lifecycle_faults.dfy`, `lifecycle_walks.dfy` | what faults cost, with witness runs; passes against the walks that feed them, and against devices that go |
| `chunking.dfy`, `ipfix_exporter.dfy` | the IPFIX encoder |
| `ipfix_collector.dfy`, `ipfix_decoding.dfy`, `ipfix_observations.dfy`, `ipfix_runs.dfy` | a collector written from sections 3.1 to 3.4 of RFC 7011, and the encoder seen through it |
| `attach.dfy`, `detach.dfy` | attaching to devices and following link events; a device's end and the pass after it |
| `logfmt.dfy`, `prometheus.dfy` | the two escaping printers, and readers for what they print |
| `pipeline.dfy`, `daemon_runs.dfy`, `drain_runs.dfy` | the event loop's tick, the whole daemon in one run, and its drains against the walks they are |

What a reader would otherwise take from the code alone is checked against something
written without it: packets written out from their fields, a collector that reads
templates, parsers for what the printers print. But for long header chains and a wrong
EtherType, the flow parser accepts exactly the
packets that can be written out (`WireAccepts.AcceptedIsWritten`) and reads back what
was written (`WirePackets.PacketReads`).

The pieces are connected: an accounted packet is a packet step of the lifecycle's
environment (`Dataplane.AccountingIsAPacketStep`) and of the CPU machine
(`Dataplane.PacketIsCounted`); the agent's pass runs over the batched walk itself
(`Lifecycle.Tracker.Run`), and a pass of the interleaved machine is the agent's own
pass (`LifecycleRuns.PassIsTheTrackers`) over what such a walk delivers
(`LifecycleWalks.PassReadsTheWalk`); a tick of the whole daemon is the event loop's
(`DaemonRuns.TickIsTheDaemons`), and its drains are a walk of the drop map
(`DrainRuns.DrainsAreTheWalk`); and `DaemonRuns.CollectorConserves` accounts for
every packet between what the kernel counted for a flow and what a collector adds up
for it.

## Where the code does less than its documentation says

Each of these is a theorem about the code as it is.

- A walk that stops before it reaches a tracked flow makes the agent forget the flow,
  since `BpfFlowMap::reset` ignores the failure; so does an expired flow's delete
  without effect. The agent forgets a flow it has visited in exactly these two ways
  (`LifecycleRuns.TornByFaults`). The next visit of the flow's entry repeats all that
  was read of it (`LifecycleFaults.NextVisitForgets`), so that exports can exceed what was counted
  (`LifecycleFaults.StoppedWalkOverCounts`, `LifecycleFaults.LostDeleteOverCounts`):
  exactly if what was forgotten is more than what was left out and unread
  (`LifecycleRuns.NeverOverCount`).
- `docs/design.md` says that the deltas of a flow sum to its total. Of a map entry never
  forgotten they do exactly if the tracker held nothing for the flow's key, or more than was read, when the entry
  was first visited, and everything counted in it was read
  (`LifecycleRuns.DeltasSumToTotal`). A flow recreated between two passes that
  overtakes the tracked counters falls short by them
  (`LifecycleFaults.StaleTrackerLeavesOut`); one that is evicted, or deleted as
  expired, with packets not yet read falls short by these for good
  (`LifecycleFaults.UnreadPacketsAreLost`, `LifecycleRuns.RemovedIsFinal`).
  `LifecycleRuns.KeyConservation` is the whole account.
- The signed 64-bit delta is right exactly while two readings are less than 2^63
  apart, or nothing was exported before (`Lifecycle.CounterDeltaExact`).
- The IPv6 walk looks at eight headers. It gives the header chain's own answer exactly
  for chains of at most seven extension headers, and of eight that lead to an upper
  layer (`Packet.WalkIsChain`); otherwise an extension header is accounted as the
  transport protocol, and "no next header" goes unnoticed (`Packet.LongChainDiffers`).
- The two parsers agree that a packet is IP, but on Ethernet they name the same
  family only if the EtherType matches the version nibble (`Packet.ParsersAgree`,
  `Packet.ClassesCanDiffer`).
- The octets of a GSO super-packet are those on the wire exactly if its segments repeat
  just the transport header the parser records, which is a TCP header's own length, 8
  for UDP and 0 otherwise (`Dataplane.GsoOctets`, `Dataplane.TransportHeaderLength`).
  Plain TCP and UDP do (`Dataplane.PlainGsoOctets`); other transports, and tunnels whose
  segments repeat inner headers as well, fall short (`Dataplane.TunnelOctetsFallShort`).
- The comment on `obserwrt_devstats` says that the map tracks attached incarnations
  only. An unattached device has counters exactly if its latest attach had the ingress
  hook, counted something there, and could not have the egress one
  (`Attach.UnattachedCounters`, `Attach.CountersLeftBehind`); the next attach clears
  them (`Attach.AttachStartsFromZero`).
- The IPFIX templates lose part of a flow key exactly when an IPv4 key's addresses are
  not in mapped form, the family is unknown, or the direction is neither hook on a
  device with a non-zero index (`IpfixObservations.KeyRecovered`). The dataplane
  writes no such key (`Dataplane.KeysAreCanonical`).
- The drop of an accounted packet is recorded under the packet's flow key exactly if
  direction and EtherType agree, its IPv4 total length is not 0, its IPv6 base header
  names the protocol the TC parser found, and 14 octets of transport header can be read
  or there is nothing to read (`Drops.DropNamesTheFlow`). A packet of total length 0 is
  counted as unparsed (`Drops.ZeroLengthIsUnparsed`), and a short transport header
  leaves the record without ports (`Drops.ShortHeaderLosesPorts`).
- Packets that a CPU adds to a drop record it found before the drain are in no record
  returned: drains return what their records hold exactly if there are none
  (`Counting.DropsAreConserved`, `Counting.ReportsStep`,
  `Counting.LatePacketIsUnreported`).
- A log line with a NUL in a key or value reaches syslog truncated
  (`LogFmt.SyslogGetsWholeLine`), and a key with `=` in it does not read back
  (`LogFmt.LineRoundTrip`).

## Assumptions

- The kernel's batch calls behave as `BatchWalk.Table.LookupBatch` says: whole
  buckets in order, `ENOSPC` with nothing delivered when the first bucket does not
  fit, `ENOENT` past the last bucket, and any other error with nothing delivered.
- Flow counters stay below 2^63 and packets never lower them; they may set back the time
  of the last packet, which is not stored atomically. Walks may stop early and
  deletes may be without effect; where a statement needs them not to, it says so.
- From a device's detach to the end of the next pass nobody puts flows of it into the
  map (`Detach.NoMore`): its programs are gone.
- Signed 64-bit subtraction wraps, as it does on every target of the agent.
- The UDP socket delivers what it is given: the exporter's datagrams are the list
  `captured`.

## Model

| member | source | states |
|---|---|---|
| Words.BigEndianRoundTrip | src/exporter_ipfix.cpp:131-141 | the octets of a number in network order denote that number, at every width |
| Words.BeRoundTrip | src/exporter_ipfix.cpp:131-141 | 16, 32 and 64-bit fields read back as appended |
| Words.NetworkOrder | src/exporter_ipfix.cpp:131-141 | the most significant octet comes first, in 16 and 32-bit fields |
| Packet.FindIp | bpf/obserwrt-bpf.c:237-276 | where the IP header starts behind up to two VLAN tags, or that there is none, at every truncation |
| Packet.ClassIsTheEtherType | bpf/obserwrt-bpf.c:84-122 | on Ethernet the classifier names IPv4, IPv6 or ARP exactly by the EtherType behind the tags the flow parser skips, and on other devices IPv4 or IPv6 exactly by the version in the first octet |
| Packet.VlanIsTheSkippedTag | bpf/obserwrt-bpf.c:191-206 | the VLAN id of an accounted frame is the offloaded tag's, else the first tag the flow parser skipped, else 0 |
| Packet.ExtNext | bpf/obserwrt-bpf.c:162-184 | a step over an extension header stays before the end and moves on by the header's own length (AH in 4-octet units); 0 stands for a fault or a next header of 0 |
| Packet.SkipExtensions | bpf/obserwrt-bpf.c:305-330 | the eight-step loop computes the bounded walk, reading only inside the packet and moving on at least 8 octets per header |
| Packet.WalkOnChain | bpf/obserwrt-bpf.c:305-330 | wherever the bounded walk stands, following the header chain from there ends as the chain does from the start |
| Packet.WalkCounts | bpf/obserwrt-bpf.c:305-330 | how many extension headers a walk has got through when it stops, or has still before it when it runs out of steps |
| Packet.WalkIsChain | bpf/obserwrt-bpf.c:305-330 | the walk gives the answer of the recursive header chain (section 4 of RFC 8200) if and only if the packet has at most seven extension headers, or eight that lead to an upper layer |
| Packet.ShortChainAgrees | bpf/obserwrt-bpf.c:305-330 | hence for every packet with at most seven extension headers |
| Packet.LongChainDiffers | bpf/obserwrt-bpf.c:294-330 | an IPv6 packet with eight extension headers and no next header that the parser accounts and the chain rejects |
| Packet.ChainAdvances | bpf/obserwrt-bpf.c:162-184 | each header of a chain moves it on by 8 to 2048 octets, never past the end |
| Packet.WalkBound | bpf/obserwrt-bpf.c:305-330 | the walk never leaves the packet and passes at most 2048 octets per step |
| Packet.Parse | bpf/obserwrt-bpf.c:237-359 | the parser accepts or rejects every byte buffer, and finds the tuple, offsets and TCP flags, as specified case by case |
| Packet.ParseBounds | bpf/obserwrt-bpf.c:272-359 | every offset of a successful parse lies inside the packet, behind a whole base header, within the largest header chain |
| Packet.ParsersAgree | bpf/obserwrt-bpf.c:84-122 | every packet the flow parser accounts is IPv4 or IPv6 to the classifier, and the same family if and only if on an L3 device or with a matching EtherType |
| Packet.ClassesCanDiffer | bpf/obserwrt-bpf.c:84-122 | a frame accounted as an IPv6 flow and counted in the IPv4 class |
| WireFormat.ChainOfExts | bpf/obserwrt-bpf.c:162-184 | for every list of extension headers of any kinds and true sizes, written out with the length fields these sizes give, the header chain ends at the sum of the sizes, at the protocol the last one names, and is as long as the list |
| WirePackets.FrameReads | bpf/obserwrt-bpf.c:84-122 | an Ethernet header written with up to two VLAN tags: the flow parser finds the IP header behind them, the classifier names the EtherType, and the VLAN id is the offloaded or the first tag's |
| WirePackets.IpReads | bpf/obserwrt-bpf.c:278-333 | an IPv4 header written with any options, or an IPv6 header with up to eight extension headers, reads back as its family, protocol, transport offset and whether a transport header follows |
| WirePackets.SegmentReads | bpf/obserwrt-bpf.c:335-359 | written TCP, UDP and ICMP headers read back as their ports, type and code, flags and own length |
| WirePackets.PacketReads | bpf/obserwrt-bpf.c:237-359 | for every packet written out octet by octet from its fields the flow parser reads back its fields and the offsets of its headers, and the classifier its family |
| WirePackets.FlowOfPacket | bpf/obserwrt-bpf.c:370-410 | and the dataplane accounts it under the key of its fields, with IPv4 addresses in mapped form, and gives a new flow its VLAN id, TOS or traffic class, TCP flags and times |
| WireAccepts.ExtsOfChain | bpf/obserwrt-bpf.c:294-330 | every header chain that leads to an upper layer is a list of extension headers written out |
| WireAccepts.AcceptedIsWritten | bpf/obserwrt-bpf.c:237-359 | for every byte buffer: it is a packet that can be written out so if and only if the parser accepts it, its class is its IP version, and an IPv6 packet has a header chain of at most eight headers that leads to an upper layer |
| Dataplane.Program.CountClass | bpf/obserwrt-bpf.c:130-156 | lookup, insert if new, look again, count: one class of one device and direction grows, unless a new entry does not fit |
| Dataplane.Program.Observe | bpf/obserwrt-bpf.c:213-416 | the whole effect of a packet on the flow map, the class counters and the aggregate counters |
| Dataplane.OctetsDoNotWrap | bpf/obserwrt-bpf.c:364-368 | the 32-bit octet arithmetic equals the true sum for at most 65535 segments and lengths below 2^31, with the largest header chain the parser accepts |
| Dataplane.GsoOctets | bpf/obserwrt-bpf.c:335-368 | for every split of a super-packet into the packets it stands for on the wire (as many as `gso_segs` says, one for 0) the octets counted are the sum of their L3 lengths if and only if there is one or each repeats just the transport octets recorded |
| Dataplane.TransportHeaderLength | bpf/obserwrt-bpf.c:335-359 | the transport header length recorded is a TCP header's own, 8 for UDP, and 0 in a later fragment or for any other protocol |
| Dataplane.PlainGsoOctets | bpf/obserwrt-bpf.c:335-368 | for every such split of a plain TCP or UDP super-packet the octets counted are those on the wire |
| Dataplane.TunnelOctetsFallShort | bpf/obserwrt-bpf.c:346-368 | a UDP tunnel's super-packet that is counted with 126 octets of 176 |
| Dataplane.ClassesAddUp | bpf/obserwrt-bpf.c:130-156 | over every sequence of packets, a device's four classes add up to all packets seen there while its own entry fits, and its accounted packets are at most its IPv4 and IPv6 ones |
| Dataplane.ClassCounters | bpf/obserwrt-bpf.c:130-156 | over every sequence of packets, a device's counters are, class by class, the packets on the wire and the octets of the class seen there, modulo 2^64 |
| Dataplane.TotalsAddUp | bpf/obserwrt-bpf.c:228-235 | and the aggregate counters are all packets on the wire, their octets, and the packets accounted, modulo 2^64 |
| Dataplane.PacketIsCounted | bpf/obserwrt-bpf.c:361-413 | a packet of the program is a packet of the CPU machine: same map of packet counts, same parsed counter |
| Dataplane.KeysAreCanonical | bpf/obserwrt-bpf.c:370-388 | every key written has a known family, mapped IPv4 addresses and one of the two directions |
| Dataplane.AccountingIsAPacketStep | bpf/obserwrt-bpf.c:390-413 | an accounted packet is an enabled packet step of the lifecycle's environment and counts its segments and octets there |
| FlowSummary.FlowIsItsPackets | bpf/obserwrt-bpf.c:390-413 | over every sequence of packets, a flow has an entry exactly if the map had room for one of its packets, and the entry holds the totals of its packets from then on, the first and last time, the first VLAN and TOS, and exactly the TCP flags any of them had |
| FlowSummary.FlowIsItsWire | bpf/obserwrt-bpf.c:361-394 | for every sequence of packets and every such split of them, a flow's entry holds the number of its packets on the wire and the sum of their L3 lengths, modulo 2^64 |
| FlowSummary.CreatedIsTheMapSize | bpf/obserwrt-bpf.c:411-412 | while nothing is deleted, the created counter is the number of entries |
| Counting.RunConserves | bpf/obserwrt-bpf.c:361-413 | in every interleaving of CPUs, evictions and deletes each counted packet is in an entry, under way, unparsed or lost, and the table holds exactly the live entries |
| Counting.FlowsNeverExceedParsed | bpf/obserwrt-bpf.c:361-413 | packets in the map and in removed entries never exceed the sum of the parsed slots, with equality if and only if no CPU is under way and no insert failed |
| Counting.OneAtATime | bpf/obserwrt-bpf.c:390-413 | without interference the three steps of a CPU are one exact addition |
| Counting.ReadersSee | bpf/obserwrt-bpf.c:390-413 | in every interleaving a reader of the map sees of a step just this: an add raises the entry it found if that is still in the map, an insert that fits replaces what is under its key, a delete or drain takes its key, and no other step shows |
| Counting.SlotsAddUp | bpf/obserwrt-bpf.h:49-56 | in every interleaving the slots sum to all packets counted, on whichever CPUs, and the unparsed ones are those counted without a tuple |
| Counting.DropsAreConserved | bpf/obserwrt-drops.c:148-181 | counted drops are the unparsed ones plus those in the map, in drained records and in evicted entries if and only if none is under way or lost; what drains returned never exceeds parsed drops, and is what the drained records hold if and only if nothing was added to one after its drain |
| Counting.ReportsStep | src/bpf.cpp:436-449 | a drain returns what its record holds, no other step changes what drains returned, and late packets come exactly from adds to drained records |
| Counting.LatePacketIsUnreported | src/main.cpp:332-335 | a run that counts two drops of which a drain reports one, and the other is in no record any more |
| Counting.DrainedOnce | src/bpf.cpp:436-449 | a drained record never comes back and keeps its report |
| PerCpuStats.WrapSumAdd | bpf/obserwrt-bpf.h:49-56 | adding to one CPU's slot adds to the sum modulo 2^64, whichever slots wrapped |
| PerCpuStats.Slots.Add | bpf/obserwrt-bpf.h:49-56 | one slot changes, and the true total grows by what was added |
| PerCpuStats.Slots.Read | src/bpf.cpp:507-521 | the sum over CPUs is the exact total of all additions modulo 2^64 |
| Drops.DropParse | bpf/obserwrt-drops.c:72-122 | the tracer's field-by-field parser fills in the specified tuple and length, or reports 0 |
| Drops.TupleNamesTheFlow | bpf/obserwrt-drops.c:72-122 | the tracer's tuple of an accounted packet is the TC parser's, although two different parsers found them, if and only if the IPv6 base header names the protocol found and 14 octets of transport header can be read or there is nothing to read; it has no length if and only if the packet is IPv4 and says so |
| Drops.DropNamesTheFlow | bpf/obserwrt-drops.c:141-162 | the drop of an accounted packet goes under its flow's key, with its TCP flags and TOS, if and only if besides its direction and EtherType agree and its IPv4 total length is not 0 |
| Drops.DropIsRecorded | bpf/obserwrt-drops.c:141-181 | so the flow's first drop on an attached device writes its record exactly then |
| Drops.ZeroLengthIsUnparsed | bpf/obserwrt-drops.c:153-158 | an accounted IPv4 packet of total length 0 whose drop is counted as unparsed |
| Drops.ShortHeaderLosesPorts | bpf/obserwrt-drops.c:109-120 | an accounted UDP packet whose drop record has no ports |
| Drops.DropIsCounted | bpf/obserwrt-drops.c:141-181 | a drop on an attached device is one packet in the map or one unparsed drop, and other drops change nothing |
| Drops.Tracer.KfreeSkb | bpf/obserwrt-drops.c:128-183 | the whole effect of a dropped packet on the drop map and the two counters |
| DropSummary.RecordIsItsDrops | bpf/obserwrt-drops.c:141-181 | over every sequence of drops, a key has a record exactly if the map had room for one of its drops, and the record holds their number and lengths from then on, the first and last time, the first TOS, and exactly the TCP flags any of them had |
| DropSummary.CountersAddUp | bpf/obserwrt-drops.c:148-157 | the two counters are the drops on attached devices, and those of them without a tuple, modulo 2^64 |
| WirePackets.LengthOfDrop | bpf/obserwrt-drops.c:81-106 | the drop of a written packet is as long as its IPv4 total length says, or its IPv6 payload length and 40 |
| BatchWalk.Table.LookupBatch | src/bpf.cpp:371-394 | the kernel's batch call as assumed: whole buckets from the token on, which is where the walk stands; nothing on an error, and an error other than a full buffer or the end only if the call faulted; the environment moves before every bucket |
| BatchWalk.BatchWalk | src/bpf.cpp:379-427 | the walk ends, for every environment and fault pattern, having read buckets one after another without gap or repetition; it reports an error only if a batch call faulted, and has read all of them otherwise |
| BatchWalk.StandsAfterBucket | src/bpf.cpp:389-413 | one more bucket keeps a walk's account of what it delivered, what the map still holds and what the environment did |
| BatchWalk.EachKeyOnce | src/bpf.cpp:371-378 | no key is delivered twice, and each with a value the map held for it during the walk |
| BatchWalk.UntouchedIsDelivered | src/bpf.cpp:371-378 | a complete walk delivers every entry that nobody removes meanwhile, whatever else is inserted or evicted |
| BatchWalk.PresentIsDelivered | src/bpf.cpp:371-378 | likewise every key that is in the map at every moment of the walk |
| BatchWalk.DeliveredWasThere | src/bpf.cpp:371-378 | a walk delivers nothing but what the map held when it began and what the environment put there |
| BatchWalk.DrainDeliversOrKeeps | src/bpf.cpp:436-449 | a drain, complete or not, delivers each entry or leaves it unless someone else removes it, and never both unless someone puts it back |
| BatchWalk.QuietWalk | src/bpf.cpp:416-427 | in a quiet map a complete walk delivers exactly the map |
| BatchWalk.Purge | src/bpf.cpp:477-493 | unless a call faulted during it the walk is complete, and then a picked key is only there if someone put it there meanwhile; others only go if someone removes them; if nobody else touches the map meanwhile exactly the picked keys go |
| BatchWalk.PurgeMeaning | src/bpf.cpp:477-493 | what erasing a walk's picked keys leaves of a map, complete walk or not |
| BatchWalk.EraseAll | src/bpf.cpp:491-492 | erasing one by one while the environment goes on takes exactly the picked keys |
| Lifecycle.CounterDeltaExact | src/lifecycle.cpp:63-70 | the signed computation gives the growth, or the whole counter of a recreated entry, if and only if the readings are less than 2^63 apart or nothing was exported before |
| Lifecycle.IdleIsOverdue | src/lifecycle.cpp:24-37 | the age test of a flow holds if and only if it was last seen before the pass's clock by more than the TCP, UDP, ICMP or general timeout, by its protocol |
| Lifecycle.FlowMap.Reset | src/bpf.cpp:525-532 | the cursor starts over what a batched walk of the table delivers, complete unless a call faulted |
| Lifecycle.FlowMap.NextKey | src/bpf.cpp:534-540 | keys come in order, each once, then none |
| Lifecycle.FlowMap.Get | src/bpf.cpp:542-551 | the value of the key just handed out is the snapshot's, any other is looked up |
| Lifecycle.FlowMap.DeleteKey | src/bpf.cpp:553-556 | one key leaves the table, and besides only what others do to it happens |
| Lifecycle.Tracker.Visit | src/lifecycle.cpp:54-91 | one flow's export, tracker entry and delete, judged against what the tracker held before; it expires exactly if its own protocol's timeout has passed |
| Lifecycle.Tracker.Prune | src/lifecycle.cpp:96-103 | exactly the entries of keys not seen go |
| Lifecycle.Tracker.Run | src/lifecycle.cpp:39-106 | the loop over the walk of the flow map, complete unless a call faulted, is the specified pass: tracker, exports, deletes and statistics; if nobody else touches the table meanwhile exactly the deletes go |
| Lifecycle.EntriesTrack | src/lifecycle.cpp:60-87 | with distinct keys, what was read alive is tracked with its values, what expired is not, and the rest is untouched |
| Lifecycle.EntriesExport | src/lifecycle.cpp:49-94 | each export is judged against the tracker the pass began with, and due if and only if the flow has outlived its timeout, is not tracked, or differs from what is tracked in packets, octets or last time; deletes are exactly the expired exports, and the statistics count the reads alive, expired, and both |
| Lifecycle.TrackerAfterPass | src/lifecycle.cpp:77-103 | after a pass the tracker maps exactly the keys read and not expired to the values read |
| LifecycleRuns.RunInvariant | src/lifecycle.cpp:39-106 | the invariant behind the following rows holds in every run of packets, evictions, bucket reads, stopped walks, visits, deletes and lost deletes |
| LifecycleInvariant.VisitedBooks | src/lifecycle.cpp:60-78 | a visit moves between an entry's account and the export log exactly what it exports, and what is forgotten grows exactly if an entry visited before is not tracked |
| LifecycleRuns.KeyConservation | src/lifecycle.cpp:49-103 | in every run and for every key, what was exported, what stale tracker values left out, what is due and what is gone unread is what was counted and what was forgotten |
| LifecycleRuns.NeverOverCount | src/lifecycle.cpp:49-103 | in every run the packets, and the octets, exported for a key exceed those counted for it by no more than was forgotten, and do so if and only if that is more than was left out and unread; nothing is forgotten of a key not torn, and no key is torn without a stopped walk or a lost delete |
| LifecycleRuns.TornByFaults | src/bpf.cpp:525-532 | a step makes the agent forget an entry it has visited if and only if it is a lost delete of its key, or the end of a pass whose walk stopped before the entry's bucket |
| LifecycleRuns.ExactConservation | src/lifecycle.cpp:60-103 | for every entry of every run, its deltas and what the first one left out sum, at each of its exports and to date, to the counters read and what was forgotten; unless something was, the deltas sum to the counters last read if and only if the tracker held nothing, or more than was read, at the first visit |
| LifecycleRuns.DeltasSumToTotal | docs/design.md:280-284 | over an entry's lifetime its deltas, what the first left out and what was not read sum to its total and what was forgotten; unless something was, the deltas sum to the total if and only if the first left nothing out and everything counted was read |
| LifecycleRuns.RemovedIsFinal | src/lifecycle.cpp:49-52 | once an entry is out of the map and of the snapshot, no step changes its account: what was not read of it never is |
| LifecycleRuns.ExpiryIsSafeAndOnce | src/lifecycle.cpp:54-87 | an export is marked expired if and only if the flow was untouched for more than the timeout of its own protocol (TCP, UDP, ICMP and ICMPv6, or any other), never for a flow touched after the pass's clock, and at most once per entry unless a delete of it was lost |
| LifecycleRuns.ExpiryIsPrompt | src/lifecycle.cpp:49-94 | when a pass over a complete walk ends, every entry older than it was read within its protocol's timeout or its delete was lost; and the map's own value of it is within the timeout unless a packet ever set its time back: an idle one is gone |
| LifecycleRuns.PassIsTheTrackers | src/lifecycle.cpp:39-106 | however traffic and faults interleave, a pass ends as the agent computes it from its reads, which are of distinct keys |
| LifecycleFaults.NextVisitForgets | src/lifecycle.cpp:60-78 | in every run, whatever happens up to the next visit of an entry visited before, that visit repeats all that was read of it if and only if the tracker does not hold its key by then; once dropped the key does not come back before, and it is dropped only by being torn |
| LifecycleFaults.NextPassForgets | src/lifecycle.cpp:39-78 | between passes of any run, the pass that begins now can make that visit |
| LifecycleFaults.StoppedWalkOverCounts | src/bpf.cpp:525-532 | a run in which one stopped walk makes 20 exported packets of 10 counted |
| LifecycleFaults.LostDeleteOverCounts | src/lifecycle.cpp:82-86 | a run in which one lost delete does |
| LifecycleFaults.UnreadPacketsAreLost | docs/design.md:280-284 | a run without faults in which an evicted flow's deltas fall short of its total |
| LifecycleFaults.StaleTrackerLeavesOut | src/lifecycle.cpp:60-70 | a run without faults in which they fall short although every packet was read |
| LifecycleWalks.WalkIsTheSnapshot | src/bpf.cpp:416-433 | what a batched walk delivers, complete or not, is what bucket reads of the same maps put into a pass's snapshot |
| LifecycleWalks.PassReadsTheWalk | src/bpf.cpp:525-551 | in every run, a pass whose bucket reads are a walk's has read and has yet to read what the walk delivers, and ends with its reads rearranged |
| LifecycleWalks.DeviceForgotten | src/lifecycle.cpp:98-103 | in every run, once a device has no flow in the map and no more packets, nothing is exported for it any more, and after the next pass the tracker holds none of its keys |
| Chunking.GreedyIsLossless | src/exporter_ipfix.cpp:239-256 | datagrams carry the records in order, none lost or repeated, and none is empty |
| Chunking.GreedyFits | src/exporter_ipfix.cpp:239-256 | every datagram is within 1200 octets when each record fits one |
| Chunking.GreedySuffix | src/exporter_ipfix.cpp:239-256 | packing fewer records from the front never takes more datagrams |
| Chunking.GreedyIsOptimal | src/exporter_ipfix.cpp:214-257 | no order-preserving packing within the limit uses fewer datagrams |
| IpfixExporter.EncodeRecord | src/exporter_ipfix.cpp:262-301 | the appends build the record of the 19 fields in template order |
| IpfixExporter.Exporter.SetEpoch | src/exporter_ipfix.cpp:155-159 | the anchor and the template timer are set, nothing else |
| IpfixExporter.Exporter.SetOffsetMs | src/exporter_ipfix.cpp:161-164 | the anchor is set, not the template timer |
| IpfixExporter.Exporter.BuildTemplateSet | src/exporter_ipfix.cpp:174-193 | a template set with its count and length fields |
| IpfixExporter.Exporter.BuildHeader | src/exporter_ipfix.cpp:223-230 | version, length, time, sequence number and domain |
| IpfixExporter.Exporter.SendTemplates | src/exporter_ipfix.cpp:195-212 | one message with both template sets; the sequence number stays |
| IpfixExporter.Exporter.EmitChunk | src/exporter_ipfix.cpp:223-237 | one data message with the chunk's records; the sequence number grows by their number |
| IpfixExporter.Exporter.FlushSet | src/exporter_ipfix.cpp:214-257 | the one-pass loop sends exactly the messages of the greedy packing |
| IpfixExporter.Exporter.Emit | src/exporter_ipfix.cpp:259-307 | the record joins its family's pending list |
| IpfixExporter.Exporter.Flush | src/exporter_ipfix.cpp:309-318 | templates when they are due modulo 2^32, then all IPv4 records, then all others, and nothing is pending |
| IpfixDecoding.SplitFlatten | src/exporter_ipfix.cpp:72-116 | fixed-width fields read back from their concatenation |
| IpfixDecoding.TemplateRoundTrip | src/exporter_ipfix.cpp:174-193 | a collector learns from a template record exactly its fields |
| IpfixDecoding.RecordLength | src/exporter_ipfix.cpp:271-275 | a record is 67 or 91 octets, by template |
| IpfixDecoding.DataRoundTrip | src/exporter_ipfix.cpp:231-234 | a data set decodes to its records with no octet left over |
| IpfixDecoding.HeaderRoundTrip | src/exporter_ipfix.cpp:203-207 | a message header reads back and its length is the true one |
| IpfixDecoding.SetRoundTrip | src/exporter_ipfix.cpp:231-234 | a set is parsed whole, then what follows it |
| IpfixDecoding.ReceiveTemplates | src/exporter_ipfix.cpp:195-212 | a template message of 184 octets teaches a collector templates 256 and 257, of 19 fields each, and nothing else |
| IpfixDecoding.ReceiveData | src/exporter_ipfix.cpp:223-237 | a data message gives a collector that knows the templates exactly its records |
| IpfixObservations.KeyRecovered | src/exporter_ipfix.cpp:268-296 | what a record says identifies its flow if and only if the key has mapped IPv4 or IPv6 addresses and a direction that names a hook (or index 0) |
| IpfixObservations.FieldFound | src/exporter_ipfix.cpp:72-116 | each information element of a template finds its own field in a record |
| IpfixObservations.InterpretDecoded | src/exporter_ipfix.cpp:259-307 | a record read by its information elements alone gives the observation it was made from: the counts of its delta, or of the value without one, the times in whole milliseconds on top of the anchor, end reason 1 or 2, and every field of the key |
| IpfixObservations.TimesAreWallClock | src/main.cpp:318-319 | with the anchor taken from the wall clock and the monotonic one, the flow times a collector reads are the wall-clock times of the flow's first and last packet, to within a millisecond, modulo 2^64 |
| IpfixObservations.TimesAdvance | src/exporter_ipfix.cpp:265-266 | a moment d milliseconds later reads d more, modulo 2^64, and the first millisecond of the monotonic clock reads as the anchor |
| IpfixRuns.DecodeSet | src/exporter_ipfix.cpp:214-257 | the datagrams of one set decode to its records, each with the right sequence number and within the size limit |
| IpfixRuns.RunInStep | src/exporter_ipfix.cpp:195-318 | in every run exporter and collector agree on the records delivered, the sequence number and the latest templates |
| IpfixRuns.FlushSends | src/exporter_ipfix.cpp:309-318 | a flush sends the template message first exactly if 60 s have passed modulo 2^32, then one datagram for each chunk of either family, and leaves nothing pending |
| IpfixRuns.RunRoundTrip | src/exporter_ipfix.cpp:195-318 | for every run after startup a collector accepts all datagrams and recovers exactly the observations flushed, in order; sequence fields count the data records before them modulo 2^32, no octet is left over, and data follow templates less than 60 s old modulo 2^32, for any clock |
| IpfixRuns.Replay | src/main.cpp:147-151 | the startup sequence and any requests after it send exactly the datagrams of such a run |
| Attach.Daemon.AttachDevice | src/bpf.cpp:202-278 | the whole effect of an attach under every pattern of hook failures |
| Attach.Daemon.DetachDevice | src/bpf.cpp:289-306 | the whole effect of a detach |
| Attach.Daemon.DropDevCounters | src/bpf.cpp:308-318 | both directions' counters of the device go, no others |
| Attach.Daemon.Close | src/bpf.cpp:44-52 | at shutdown every link ever created has been destroyed exactly once |
| Attach.Daemon.OnLink | src/main.cpp:203-234 | the whole effect of a link event, including the purge of a detached device's flows, which is complete unless a call faulted, and that other devices' flows stay unless someone else removes them |
| Attach.EventKeeps | src/main.cpp:203-234 | every event keeps the agent sound; its device is attached afterwards if and only if the event wanted it (present, up and matching) and it was attached or both hooks could be had; then its programs are for Ethernet framing exactly for the two Ethernet link types, and it is marked for the drop tracer if that can be; no other device changes |
| Attach.RunsStaySound | src/main.cpp:203-234 | after every sequence of events and failures: each device has both links, of one framing, or neither, each link is held by its device or was destroyed exactly once, names are exactly those of attached devices and match, drop markers are for attached devices |
| Attach.DetachLeavesNothing | src/main.cpp:207-213 | after a detach the device has no handle, class counter, drop marker or name |
| Attach.AttachCounters | src/bpf.cpp:211-239 | an attach of an unattached device leaves it counters if and only if its ingress hook was had and counted something, for ingress only, and touches no other device's |
| Attach.UnattachedCounters | src/bpf.cpp:202-239 | in every run of events and failures, an unattached device has class counters if and only if its latest attach had the ingress hook, which counted something, and not the egress one; and then for ingress only |
| Attach.CountersLeftBehind | src/bpf.cpp:229-239 | a run of one failed attach that leaves counters of an unattached device |
| Attach.AttachStartsFromZero | src/bpf.cpp:215-218 | a successful attach leaves only what its own hooks counted |
| Detach.PassWithout | src/lifecycle.cpp:98-103 | a pass over reads without keys of a device exports none and leaves the tracker without any |
| Detach.DetachThenPass | src/main.cpp:207-213 | a detach and the next pass over real walks: no handle, counter, marker or name is left, and unless a call faulted during the purge no flow in the map, no key in the tracker and no export, unless someone puts flows of the device into the map from the detach on |
| LogFmt.HasSpecial | src/logfmt.hpp:87-94 | a value is quoted exactly if it is empty or holds a special character |
| LogFmt.SpecialQuotes | src/logfmt.hpp:87-94 | the special characters are blank, tab, quote, backslash, equals sign and the two line breaks |
| LogFmt.Log.AppendEscaped | src/logfmt.hpp:85-119 | the buffer grows by the value, quoted and escaped if need be |
| LogFmt.Log.Append | src/logfmt.hpp:55-65 | the buffer grows by one field, or not at all below the level |
| LogFmt.Statement | src/logfmt.hpp:147-149 | a log statement writes the line of its fields, or nothing |
| LogFmt.DigitsRead | src/logfmt.hpp:124-134 | the digits of a number read back as it, without a leading zero |
| LogFmt.MeaningSays | src/logfmt.hpp:121-134 | the text of a value says the value |
| LogFmt.LineRoundTrip | src/logfmt.hpp:55-134 | an independent parser recovers the exact fields of a line, for arbitrary values, if and only if no key holds `=`; and what it recovers says the values, a number by its decimal digits |
| LogFmt.LineContents | src/logfmt.hpp:85-119 | a line holds a line break only if a key does, and a NUL only if a key or text value does |
| LogFmt.SyslogGetsWholeLine | src/logfmt.hpp:45-49 | syslog gets the whole line if and only if no key or text value holds a NUL |
| Prometheus.AppendValue | src/prometheus.cpp:48-62 | a label value is appended escaped, up to its first NUL |
| Prometheus.Labels | src/prometheus.cpp:33-67 | the loop renders the label set |
| Prometheus.LabelsRoundTrip | src/prometheus.cpp:33-67 | reading rendered labels recovers every pair, for arbitrary values, if and only if no name holds `=` |
| Prometheus.LabelBreaks | src/prometheus.cpp:46-66 | rendered labels hold a line break if and only if a name does |
| Prometheus.Exposition.AddSample | src/prometheus.cpp:10-31 | a sample adds its line, with its family's header lines exactly if the family is new |
| Prometheus.Exposition.Clear | src/prometheus.hpp:47-51 | text and declared families are forgotten together |
| Prometheus.SampleKeepsHeaders | src/prometheus.cpp:13-24 | headers stay once per family, paired, and before its samples |
| Prometheus.ExpositionIsScrapable | src/prometheus.cpp:10-31 | for every sequence of samples headers are in order, and a scraper that cuts at line ends sees exactly the lines if and only if none holds a line break |
| Prometheus.LineScrapes | src/prometheus.cpp:10-31 | each line reads back: a header as what it declares, a sample as its name, labels and value |
| Prometheus.SamplesAreScraped | src/prometheus.cpp:10-31 | for every sequence of samples with proper names and labels a scraper gets every declaration and every sample, in order |
| Pipeline.TakeDrops | src/bpf.cpp:441-449 | the drop map is drained by a batched walk if the tracer is active, complete unless a call faulted, and what it delivered is returned |
| Pipeline.Tick | src/main.cpp:311-359 | a tick walks the flow map, leaves the tracker as the pass over that walk does, drains the drop map, and asks the exporter for the anchor, the exports, the drained records and a flush, in this order |
| Pipeline.TickAsks | src/main.cpp:318-359 | request by request: the anchor, each export with its own value, flag and delta, each drop record with its value and status and no delta, then the flush |
| Pipeline.TickTimes | src/main.cpp:312-319 | a collector reads the flow times of what a tick emits on the wall clock of that tick, to within a millisecond, modulo 2^64 |
| Pipeline.EmittedByFamily | src/exporter_ipfix.cpp:303-317 | sending one family before the other changes no flow's total |
| Pipeline.FlushedAndPending | src/exporter_ipfix.cpp:303-317 | per flow, what was flushed and what is pending is together what was emitted |
| Pipeline.CollectedIsEmitted | src/exporter_ipfix.cpp:259-307 | per canonical flow, and over all drop records, a collector adds up exactly what was flushed |
| Pipeline.CollectorNeverOverCounts | src/main.cpp:311-359 | a collector of an exporter run whose flow records are a lifecycle run's exports adds up all that is not pending, at most what was counted for a flow that was not torn, and all drop records not pending |
| DaemonRuns.TickIsTheDaemons | src/main.cpp:311-359 | a tick interleaved with traffic and drops asks the exporter for what the tick on its own would, given the same reads and drained records, and leaves the same tracker |
| DaemonRuns.DaemonNeverOverCounts | src/main.cpp:311-359 | in every run of packets, evictions, drops, faults and ticks a collector accepts all datagrams, and adds up for a flow more than was counted only if it was torn; between ticks it adds up exactly what was exported |
| DaemonRuns.CollectorConserves | docs/design.md:280-285 | between ticks and for every flow, what the collector adds up, what stale tracker values left out and what is unread is what the kernel counted and what the agent forgot |
| DaemonRuns.DropsNeverOverCount | src/main.cpp:336-357 | in every run the drop packets a collector adds up are at most those drains returned, and these at most the parsed drops; between ticks they are equal |
| DrainRuns.DrainsAreTheWalk | src/bpf.cpp:431-449 | a drain walk of the drop map, complete or not, is a run of the daemon's single drains with the tracer's own steps in between: every drain is possible and returns what the walk delivers, and the map ends as the walk leaves it |
| DrainRuns.AllRecordsDrained | src/bpf.cpp:431-449 | the records drained so are the walk's, each once |

## Left out

- IpfixExporter.Exporter.Send: does not model UDP failures; a datagram lost on the way also breaks a collector's totals.
- BatchWalk.Table.LookupBatch: is the kernel's contract written down, not derived from kernel code; entries within a bucket are copied without interference.
- Counting.RunConserves: counts in natural numbers, without the wrap of 64-bit counters; `PerCpuStats` shows the wrap of the per-CPU sums.
- Dataplane.PacketIsCounted: is stated below 2^63, where the two machines' counters cannot wrap.
- Lifecycle.Tracker.Run: a delete always takes effect here (`LifecycleMachine` has the other case); the pass statistics do not wrap at 32 bits, and the age is compared exactly, not in floating point.
- LifecycleRuns.NeverOverCount: is about counters below 2^63; `Lifecycle.CounterDeltaExact` says when the delta is right beyond.
- LogFmt.Log.Append: does not model floating-point values.
- Attach.Daemon.Close: covers the device links, not the drop tracer's link and the BPF objects.
- Attach.Daemon.OnLink: takes the device patterns as a predicate on names, and an attach's failures as parameters.
- Pipeline.Tick: leaves out syslog, metrics and log lines of the tick, and takes the table of drop reasons as a function.
- DaemonRuns.DropsNeverOverCount: is about drop packets; their octets are not counted by the CPU machine.
- Reuse of an evicted entry's memory while a CPU still holds it, and lost updates of `tcp_flags |=`: entries in `Counting` are never reused and its packets carry no flags.
- Programs still running on a CPU when their link is destroyed.
- `FlowKey.reserved` and the padding of the other structures, which are always zero.
- Capacity warnings of an attach and log lines of link events.
- libbpf, loading of the programs, netlink messages, timers and sockets, which enter as parameters or steps.
- Configuration, command line, the metrics file, drop reason names, the syslog exporter's JSON and logfmt records: option plumbing, tables and encodings of a library.
- Hash functions: maps and sets are mathematical ones.
- Variable-length fields, options templates and template withdrawal in the collector: the exporter sends none.
