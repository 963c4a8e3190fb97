# RespirMesh: a verified model

This project models RespirMesh, a mesh in which devices find their way to a root, and proves what its protocols
keep. `dafny verify dfyconfig.toml` checks everything.

The repository has four protocols that build on each other, and the model follows them.

**The Python mesh** (`RemPythonCommon`). The root floods packets that collect a path, `:root:110:210:`. Each device
appends itself once, sends the packet on to all its clients, writes the distance of every device on the path into
its channel table, and returns the path to the root over a channel that is closer to it. A second handshake
(ping, pong) finds out which client channel talks to which server channel; its result, `conn_data`, is what routing
towards the root reads.

- `Texts`: the colon-separated text of paths and handshake packets. A text is the list of its bytes.
- `Packets`: the packet list with its seven header cells, edited in place.
- `NodeSpec`: what one node computes, as functions on its tables.
- `NodeLaws`: what those functions mean for each kind of packet, said without them: which channels, in which order,
  carry which packets, and what is written into the tables.
- `Nodes`: one node as the source has it, tables and queue updated in place; each method is proved against its
  function in `NodeSpec`.
- `Mesh`: the global state (all nodes, all packets in flight) and its events: a device processes any packet in flight,
  skips one that equals another one waiting for it, a packet is lost, a flood starts, a device pings, a device opens
  a client channel. Delivery is in any order, so every order in which the queues drain is covered. The reachable states
  are the smallest set that holds the starts and that no event leaves; `Mesh.ReachableByRun` shows that they are what
  finite runs make of a start, the form in which one reads "over every run".
- `MeshSafety`, `MeshGrowth`: every event keeps the invariant; no event undoes what a table has learned.
- `MeshFacts`: what the invariant means: path soundness, distance bounds, link tables, handshake typestate.
- `MeshSteps`: what any event does to the packets in flight and to the tables. `MeshActs`: what the delivery of a flood
  packet returns to the root.
- `MeshHandshake`: the handshake completes.
- `MeshFlood`, `MeshTermination`: a flood reaches everything, and comes to an end.
- `MeshQuiet`: handshakes come to an end too; left alone the mesh goes quiet, and every reachable state can do so
  without a loss.
- `MeshTree`, `MeshWays`: when the links are a tree, distances are depths, pings and then a flood make the way to the
  root known at every device, and a returned packet then reaches the root, one hop for each step of the way.
- `MeshReturns`: of which devices the root hears.
- `MeshLearning`: which links the root learns of when the devices ping for it.
- `MeshPlain`: which links each device learns of when none of them does.
- `MeshStart`, `MeshLine`: every tree world has a start from which the mesh comes up, so the runs that the theorems
  speak of do happen; and lines of devices at which the two hop limits are met and passed.
- `Lists`: sequences with one entry taken out, sums of weights, powers of two.

**Joining** (`OSI2FileScanner.py`). `Join`: each node scans the others' record files, which may be stale, and links
once to the nearest connected node. The connected nodes are a tree at every moment, which is the tree `MeshTree` needs.
`Doubles`: the rounding of the floats that give the window of a scan. The k-th scan tries the entries before k tenths of
the list and none behind (`Join.WindowIsTenths`), but for an entry that is exactly k tenths in the rounding shows: of 90
entries the seventh scan does not try the one at 63 (`Join.WindowFallsShort`).

**Reports** (`RemRouter.cpp` to `RemTopology.go`). `Reports`: a router rewrites a report at its first hop and relays
it. `ReportRuns`, `ReportTermination`: all routers and the server, with links that come and go. `Topology` and
`Sweep`: the server's nodes and edges with shared node objects, ageing, and the swap-remove sweep. `ServerRuns`: the
server over any sequence of its operations, fed by the mesh.

**Supporting pieces.** `Framing`: size stamp and splitter. `WiFi`: choosing an access point. `Timer`: the 32-bit timer.

## Assumptions

- Device ids, channel uuids and protocol names are not empty, contain no colon, and are bytes (`Mesh.ValidWorld`).
- At most 255 devices, because the hop counter is one byte on the wire.
- Channel uuids are unique, and a client channel reaches one fixed server channel.
- The clock of the Go store never goes back, and each of its operations is one atomic step. The random UUIDs it
  draws until they are new are parameters that are new.
- A C++ node gets exactly one packet per read of its socket. Two packets sent quickly can arrive as one read, as a
  comment in `RemCppCommon/X86_64/X86LinuxClientChannel.cpp:101` notes; the node would then take them for one packet.
- A WiFi scan finds at most 255 networks, because the loop index over them has 8 bits.
- Lists of devices have fewer than 2^53 entries, so that a length is a float without rounding.
- Coverage and arrival are stated for runs without losses; `send_raw` is taken to send, that is, client status "on".
- `append_mesh_topo` sends a grown packet to every client twice, once itself and once through `route_packet`. The model
  does the same, and the flood bound counts it.
- The diagnostic `print_packet` passes one argument too many to `str_packet`; prints are no-ops here.

## What does not hold as it might be expected

- The 15 access points kept are the first 15 that pass the filter, so slot 0 is the strongest kept entry. It is the
  strongest of all that pass if and only if each network behind the first 15 is matched in signal by one of them
  (`WiFi.StrongestExactly`); `WiFi.LateStrongMissed` has sixteen networks of which the last is the strongest.
- One sweep need not remove every expired entry: the entry moved into a hole is not looked at. Of d expired entries it
  removes all if and only if none is among the last d - 1 of the list (`Sweep.SweepClears`), and never leaves more than
  half (`Sweep.SweepHalves`); `Sweep.SweepLeavesOne` has two expired entries of which one is left.
- A returned path reaches the root if and only if its hops stay within the limit of 70; past it the packet is dropped
  on the way (`MeshTree.ReturnArrives`). So the root hears of the devices that are at most 35 deep, and of no other
  (`MeshReturns.RootHearsExactly`): in a line that has come up it hears of the last device if and only if there are at
  most 35 below the root, and both sides happen (`MeshLine.LineHears`).
- Pings sent with `return_to_root` need not make the root know every link, because of the limit of 220 hops. When all
  devices send them, the root comes to know a link if and only if one of its ends is at most 218 deep
  (`MeshLearning.RootLearnsExactly`), and it never knows any other (`MeshLearning.RootKnowsNear`). The last link of a
  line is known up to 219 devices below the root, and not beyond (`MeshLine.LineLearns`).
- Pings sent without `return_to_root` do not stay between the two ends of a link: the pong goes to all clients, so
  neighbours overhear it. A device knows a link if and only if it can hear of it (`MeshPlain.PlainKnowsExactly`), that
  is, the far end has a channel to the device, or the link leads to the device and some channel leads to the link's
  owner. In a line the root so knows the link from device 2 to device 1 (`MeshLine.LineOverhears`).
- A timer firing within one interval of the 32-bit wrap is due again at once, or never again
  (`Timer.FiringNearWrap` says exactly when).
- The splitter ends by itself, having delivered the bytes it was given, exactly on a non-empty concatenation of
  packets that carry their own length (`Framing.SplitExact`). On other input it stops the server by `log.Fatal`
  (`Framing.ZeroSizeFatal`), panics on a slice bound (`Framing.LongSizePanics`), or delivers a last packet filled up
  from the buffer behind the data (`Framing.ShortPacketFilled`).

## Model

| member | source | states |
|---|---|---|
| Texts.SplitEncode | RemPythonCommon/RemRouter.py:237-240 | splitting an encoded list of fields gives the head, every field in order, and one empty part |
| Texts.DecodePath | RemPythonCommon/RemRouter.py:213-218 | splitting a path text and dropping empty parts gives the path back |
| Texts.CountEncodePath | RemPythonCommon/RemRouter.py:149 | colon count minus one is the number of devices on the path |
| Texts.ContainsId | RemPythonCommon/RemRouter.py:143 | the substring test with a colon on each side holds exactly when the id is on the path |
| Packets.LayoutFaithful | RemPythonCommon/RemHeaderTypes.py:103-120 | header cells and message determine the packet list and the reverse, so comparing lists is comparing meanings |
| Packets.Packet.constructor | RemPythonCommon/RemHeaderTypes.py:63-79 | a new packet is a drop packet of medium priority with the message, its two size cells the length of the whole list |
| Packets.Packet.Received | RemPythonCommon/RemHeaderTypes.py:142-152 | reception keeps every cell |
| Packets.Packet.SetForwarding | RemPythonCommon/RemHeaderTypes.py:167-168 | changes the forwarding cell and no other part of the meaning |
| Packets.Packet.SetPriority | RemPythonCommon/RemHeaderTypes.py:179-180 | the same for the priority |
| Packets.Packet.SetContents | RemPythonCommon/RemHeaderTypes.py:185-186 | the same for the contents type |
| Packets.Packet.SetMeta | RemPythonCommon/RemHeaderTypes.py:191-192 | the same for the contents meta |
| Packets.Packet.AddHop | RemPythonCommon/RemHeaderTypes.py:173-174 | one more hop, nothing else |
| Packets.Packet.Normalize | RemPythonCommon/RemHeaderTypes.py:122-124 | the two size cells become the length of the whole list, header included, kept to 16 bits; every other cell stays |
| Packets.Packet.Append | RemPythonCommon/RemHeaderTypes.py:126-131 | the message grows at its end and the size cells become the new length of the whole list |
| Packets.Packet.Clone | RemPythonCommon/RemHeaderTypes.py:133-135 | a new packet with the same meaning; the old one is left alone |
| Packets.Packet.EncodeSend | RemPythonCommon/RemHeaderTypes.py:137-140 | the bytes sent are the list, and bytes 4 and 5 give the number of bytes sent, kept to 16 bits |
| Packets.StampIsLength | RemPythonCommon/RemHeaderTypes.py:122-124 | stamping writes the length of header and message, and changes nothing else |
| NodeSpec.ClientsAreOwn | RemPythonCommon/RemOrchestrator.py:248-255 | exactly the client channels of this node, each once |
| NodeSpec.LeadingAre | RemPythonCommon/RemOrchestrator.py:303-341 | exactly the clients with a listed link to a channel whose set distance is smaller (or larger) |
| NodeLaws.ClientsInOrder | RemPythonCommon/RemOrchestrator.py:248-255 | the clients are the open client channels, each once for each time it was stored, in that order |
| NodeLaws.LeadingInOrder | RemPythonCommon/RemOrchestrator.py:303-341 | the closer (farther) channels are exactly the open clients with a linked channel that has a distance, and a smaller (larger) one, in the order in which they were stored |
| NodeLaws.RootRoute | RemPythonCommon/RemRouter.py:32-40 | a packet for the root goes once, over the closer channel that was stored first; nowhere from the root or where none goes closer |
| NodeLaws.FloodSends | RemPythonCommon/RemRouter.py:117-131 | a flood starts with one fresh packet, the path of the root alone, once over every client |
| NodeLaws.PathDistances | RemPythonCommon/RemRouter.py:209-220 | after a path each device on it has exactly its position as distance on all its channels, and nothing else changes |
| NodeLaws.SeenPath | RemPythonCommon/RemRouter.py:135-207 | an outgoing path that the device is on goes back to the root as it is, and no table changes |
| NodeLaws.NewPath | RemPythonCommon/RemRouter.py:135-207 | an outgoing path that the device is not on goes twice over every client with the device added, is written into the distances, and goes back to the root |
| NodeLaws.PathReturned | RemPythonCommon/RemRouter.py:65-207 | every outgoing path processed returns exactly one packet over the first closer channel, one hop further: the path itself if the device is on it, else with the device added; none at the root or where no channel goes closer |
| NodeLaws.ReturnedPath | RemPythonCommon/RemRouter.py:186-200 | a returned path past 70 hops is dropped; else the root writes it into its distances and every other device sends it on up |
| NodeLaws.PingSends | RemPythonCommon/RemRouter.py:273-291 | a ping goes once over every client, flagged for the root exactly if that was asked for, with the triple of that channel |
| NodeLaws.PingAnswers | RemPythonCommon/RemRouter.py:294-319 | a ping is answered over every client, with the triple of the channel it came in on and of the client |
| NodeLaws.PongCompletes | RemPythonCommon/RemRouter.py:322-393 | a pong puts both links and four channels on record, each channel filled from the first triple that names it; it goes on to the root exactly if flagged and closing the circle |
| NodeLaws.CompleteRecorded | RemPythonCommon/RemRouter.py:350-352 | so does a handshake that arrives complete |
| NodeLaws.HandshakeClimbs | RemPythonCommon/RemRouter.py:354-364 | a handshake for the root is dropped past 220 hops; else the root puts it on record and every other device sends it on up |
| NodeLaws.OtherStages | RemPythonCommon/RemRouter.py:186-207 | a topology or handshake packet of any other stage changes nothing and sends nothing |
| NodeLaws.LearnAllWrites | RemPythonCommon/RemRouter.py:368-386 | exactly the two links and the four named channels are written; what was known of a channel stays |
| NodeLaws.OthersForwarded | RemPythonCommon/RemRouter.py:65-110 | a packet of any other kind goes up, over the farther channels, or nowhere, by its direction, and no table changes |
| NodeLaws.ChannelOpened | RemPythonCommon/RemOrchestrator.py:436-482 | an opened channel is on record as the own one, without a distance, stored last if it is new |
| Nodes.Node.InitChannel | RemPythonCommon/RemOrchestrator.py:436-482 | a new channel record, distance unset, stored last under its uuid |
| Nodes.Node.GotPacket | RemPythonCommon/RemOrchestrator.py:345-350 | the packet is queued last with its server channel |
| Nodes.Node.GetClients | RemPythonCommon/RemOrchestrator.py:248-255 | the loop computes the clients of the specification, the open client channels in the order in which they were stored |
| Nodes.Node.GetLeading | RemPythonCommon/RemOrchestrator.py:303-341 | the nested loops compute the closer (or farther) channels of the specification |
| Nodes.Node.ChannelLink | RemPythonCommon/RemOrchestrator.py:278-287 | the pair is listed once and both ends are keys under their own uuid |
| Nodes.Node.ChannelSetValue | RemPythonCommon/RemOrchestrator.py:289-291 | a missing field is set; a field that is there keeps its value |
| Nodes.Node.SetDeviceRootDistance | RemPythonCommon/RemOrchestrator.py:295-298 | every channel of the device, and no other, gets the distance |
| Nodes.Node.RoutePacket | RemPythonCommon/RemRouter.py:26-60 | what is sent, per forwarding type: the first closer channel, the farther ones, every client, or nothing |
| Nodes.Node.SendMeshTopo | RemPythonCommon/RemRouter.py:117-131 | one path of the root alone to every client |
| Nodes.Node.ProcessMeshTopo | RemPythonCommon/RemRouter.py:209-220 | every device on the path gets its position as its distance |
| Nodes.Node.AppendMeshTopo | RemPythonCommon/RemRouter.py:135-166 | nothing if the device is on the path; else the grown packet to every client twice, then the distances |
| Nodes.Node.ReturnMeshTopo | RemPythonCommon/RemRouter.py:168-184 | a device other than the root routes the packet to the root as a returned path |
| Nodes.Node.CheckMeshTopo | RemPythonCommon/RemRouter.py:186-207 | returned paths past 70 hops are dropped, else processed at the root and relayed elsewhere; every outgoing path is returned, grown by the device if it is new to it (`NodeLaws.PathReturned`, `NodeLaws.ReturnedPath`) |
| Nodes.Node.SendPings | RemPythonCommon/RemRouter.py:273-291 | one ping per client, with the flags asked for and the triple of that client (`NodeLaws.PingSends`) |
| Nodes.Node.ReceivePing | RemPythonCommon/RemRouter.py:294-319 | the server's triple is added and a pong with the client's triple goes to every client |
| Nodes.Node.ReceivePong | RemPythonCommon/RemRouter.py:322-332 | the fourth triple is added and the whole handshake processed |
| Nodes.Node.ProcessPingPong | RemPythonCommon/RemRouter.py:368-393 | both links and all four triples enter the tables; a pong that closes the circle goes on to the root if flagged |
| Nodes.Node.ReturnPingPong | RemPythonCommon/RemRouter.py:396-409 | a device other than the root routes it to the root |
| Nodes.Node.CheckPingPong | RemPythonCommon/RemRouter.py:335-364 | the action for each of the five handshake stages, with the drop past 220 hops |
| Nodes.Node.ProcessPacket | RemPythonCommon/RemRouter.py:65-110 | one packet counted as a hop and handled by kind, or turned in direction and routed |
| Nodes.Node.DrainQueue | RemPythonCommon/RemOrchestrator.py:186-199 | ends with an empty queue, having processed exactly the sequence `Drained` gives |
| Nodes.Node.PopPacket | RemPythonCommon/RemOrchestrator.py:187-199 | one turn: the last entry is processed unless an equal packet is still queued |
| Nodes.DrainsFirstArrivals | RemPythonCommon/RemOrchestrator.py:186-199 | what is drained is the first arrival of each content, in reverse order of arrival |
| Nodes.DrainsEachContentOnce | RemPythonCommon/RemOrchestrator.py:186-199 | no content is processed twice and none is left out, whatever channels it came in on |
| Nodes.ProcessedAlone | RemPythonCommon/RemOrchestrator.py:186-199 | a single drained packet is processed as one packet is |
| Nodes.ProcessedInTurn | RemPythonCommon/RemOrchestrator.py:186-199 | the drained packets are processed one after the other, each on the tables the one before left |
| Nodes.ProcessWf | RemPythonCommon/RemRouter.py:65-110 | processing any decodable packet keeps the tables well-formed |
| MeshSafety.ProcessKeeps | RemPythonCommon/RemRouter.py:65-110 | one packet keeps the receiving node's invariant, and everything it sends is sound |
| MeshSafety.StepKeeps | RemPythonCommon/RemRouter.py:65-409 | every event of the mesh keeps the global invariant |
| MeshSafety.ReachableInv | RemPythonCommon/RemRouter.py:65-409 | so every state any run reaches satisfies it |
| MeshActs.DeliveredNet | RemPythonCommon/RemRouter.py:65-110 | a delivery takes one packet out of the net and adds what its device answers; no other device changes |
| MeshActs.DeliverReturns | RemPythonCommon/RemRouter.py:65-207 | in every reachable state an outgoing path that is delivered adds exactly one returned path over the first closer channel of its device, and none at the root or where no channel goes closer |
| MeshSafety.CheckTopoKeeps | RemPythonCommon/RemRouter.py:186-220 | a topology packet with a sound path leaves a sound node and sends only sound packets |
| MeshSafety.DecodeParties | RemPythonCommon/RemRouter.py:232-271 | decoding what the four parties appended gives exactly their four triples and the original flags |
| MeshSafety.CheckPingKeeps | RemPythonCommon/RemRouter.py:335-364 | a sound handshake packet decodes, leaves a sound node and causes only sound packets |
| MeshGrowth.ProcessGrows | RemPythonCommon/RemRouter.py:65-110 | no packet, malformed or not, undoes a device id, protocol, role, link or set distance |
| MeshGrowth.ProcessAgrees | RemPythonCommon/RemOrchestrator.py:295-298 | channels of one device with a distance go on agreeing on it |
| MeshFacts.TopologyPacketsSound | RemPythonCommon/RemRouter.py:123-160 | every topology packet carries a duplicate-free path of real links from the root; an outgoing one was sent by the last device on it and its two hop counts are equal at the receiver |
| MeshFacts.TablesWellFormed | RemPythonCommon/RemOrchestrator.py:278-298 | in every reachable state every record has its own key as uuid and a device id, and adjacency lists have no duplicates |
| MeshFacts.DistancesBounded | RemPythonCommon/RemOrchestrator.py:295-298 | every distance set anywhere lies between the true shortest distance and one less than the device count |
| MeshFacts.LinkTablesSound | RemPythonCommon/RemRouter.py:368-386 | every listed link is a client channel and the server channel it really reaches, both with their real owner and protocol |
| MeshFacts.DistancesAgree | RemPythonCommon/RemOrchestrator.py:295-298 | two channels of one device that both have a distance have the same one |
| MeshFacts.DeviceIdsStay | RemPythonCommon/RemOrchestrator.py:289-291 | a discovered channel keeps its device id over every run |
| MeshFacts.HandshakeTypestate | RemPythonCommon/RemRouter.py:273-364 | packets in flight carry one, three or four triples by stage, so decoding never runs short |
| MeshFacts.PacketsAreBytes | RemPythonCommon/RemHeaderTypes.py:137-140 | every cell of every packet in flight is a byte, hop counter included |
| MeshFacts.SizesTrue | RemPythonCommon/RemHeaderTypes.py:122-140 | every packet in flight carries the length of its whole list, kept to 16 bits |
| MeshFlood.StepCovers | RemPythonCommon/RemRouter.py:135-166 | over any lossless event, for each link open at the start from a visited device, the far end is visited or has a packet of this flood to come |
| MeshFlood.FloodCoversAll | RemPythonCommon/RemRouter.py:117-166 | from any reachable state, once a lossless run that starts with a flood has no outgoing topology packet left, every device reachable over links open at the start has processed a path containing itself and has its distance |
| MeshTermination.DeliveryDrops | RemPythonCommon/RemRouter.py:135-207 | each topology packet processed lowers the measure on the packets in flight |
| MeshTermination.FloodsEnd | RemPythonCommon/RemRouter.py:117-205 | every flood of a run accounts for a bounded number of topology packets processed, in any order, with losses and with channels that open on the way |
| MeshQuiet.DeliveryEases | RemPythonCommon/RemRouter.py:294-409 | each handshake packet processed lowers the measure on the packets in flight, and a topology packet adds nothing to it |
| MeshQuiet.PingsEnd | RemPythonCommon/RemRouter.py:273-409 | every device that pings accounts for a bounded number of handshake packets processed, in any order, with losses, floods and channels that open on the way |
| MeshQuiet.QuietComes | RemPythonCommon/RemOrchestrator.py:186-199 | left alone, a reachable mesh processes, skips or loses no more packets than its load, and while one is in flight it can be processed |
| MeshQuiet.QuietReached | RemPythonCommon/RemOrchestrator.py:186-199 | so delivery after delivery leads to an empty net, with nothing lost |
| MeshTree.DistanceIsDepth | RemPythonCommon/RemRouter.py:209-220 | in a tree every distance set is the device's depth |
| MeshTree.CloserLeadsToParent | RemPythonCommon/RemOrchestrator.py:303-321 | in a tree every channel offered as closer leads to the parent |
| MeshTree.ReachableDistances | RemPythonCommon/RemOrchestrator.py:295-298 | so in every reachable state |
| MeshTree.StepKeepsWay | RemPythonCommon/RemOrchestrator.py:303-321 | a device that knows a way to the root never forgets it |
| MeshTree.RelayStep | RemPythonCommon/RemRouter.py:32-40 | a returning packet goes to the parent and nowhere else |
| MeshTree.PastLimitDropped | RemPythonCommon/RemRouter.py:190-191 | a packet past its hop limit is dropped where it arrives, with nothing sent |
| MeshTree.ReturnsReachRoot | RemPythonCommon/RemRouter.py:168-205 | over every lossless run a returning packet stays in flight with hops plus remaining depth unchanged, until the root has it or it is past the hop limit and dropped |
| MeshTree.ReturnArrives | RemPythonCommon/RemRouter.py:168-205 | when the mesh is quiet it has been to the root, after exactly as many hops as its depth, if and only if that is within the hop limit |
| MeshTree.RootProcesses | RemPythonCommon/RemRouter.py:192-196 | the root writes the path into its distances and sends nothing on |
| MeshWays.WayKnownExactly | RemPythonCommon/RemOrchestrator.py:303-321 | a device knows a way up if and only if it has a linked channel to its parent with both distances set |
| MeshWays.FloodOpensWays | RemPythonCommon/RemRouter.py:135-166 | once every device has shaken hands with its parent, one lossless flood makes the way known everywhere |
| MeshWays.MeshSetsUp | RemPythonCommon/RemOrchestrator.py:160-167 | with the tree's channels open both ways, pings from every device and then one flood, each until quiet and without losses, make the way known everywhere |
| MeshHandshake.SameParties | RemPythonCommon/RemRouter.py:232-271 | equal handshake packets come from the same channels |
| MeshHandshake.StepUnderway | RemPythonCommon/RemRouter.py:273-386 | no lossless event sets a handshake back: the ping, its answer or the link is there |
| MeshHandshake.PingsLink | RemPythonCommon/RemRouter.py:273-386 | after a lossless run in which a device pings, once no ping or pong is in flight, every device to which the far device of one of its client channels had a channel knows both channels, linked to the server channels they reach |
| MeshReturns.ReachableFits | RemPythonCommon/RemRouter.py:168-205 | in a tree every returning packet has counted the way down to the end of its path and the way up so far |
| MeshReturns.RootHearsExactly | RemPythonCommon/RemRouter.py:117-220 | once the ways are known, a lossless flood makes the root process a returned path that ends in a device if and only if the device is at most half the hop limit deep |
| MeshLearning.AddedPongFits | RemPythonCommon/RemRouter.py:335-409 | a handshake sent to the root has counted ping, pong and the way up from the device that pinged |
| MeshLearning.RootKnowsNear | RemPythonCommon/RemRouter.py:354-386 | in every reachable state the root knows only links of which one end is at most 218 deep |
| MeshLearning.StepLearns | RemPythonCommon/RemRouter.py:273-409 | no lossless event sets back a handshake that is to reach the root: ping, pong, the packet on its way up, or the links at the root are there |
| MeshLearning.RootLearns | RemPythonCommon/RemRouter.py:273-409 | a ping for the root by a device at most 218 deep makes the root know each of its links that has a link back, and that one too |
| MeshLearning.RootLearnsExactly | RemPythonCommon/RemRouter.py:273-409 | when every device has pinged for the root and it is quiet, the root knows a link open both ways if and only if one of its ends is at most 218 deep |
| MeshPlain.PlainStaysNear | RemPythonCommon/RemRouter.py:273-393 | as long as no device pings for the root, no handshake is ever on its way to the root, and every device knows only links that it can hear of |
| MeshPlain.PlainKnowsExactly | RemPythonCommon/RemRouter.py:273-393 | when every device has pinged so over its open channels, without loss, and it is quiet, a device knows a link if and only if it can hear of it |
| MeshStart.MeshComesUp | RemPythonCommon/RemOrchestrator.py:160-167 | in every tree world with channels each way, opening them, pings and one flood lead, without loss, to a quiet state in which every way is known |
| MeshLine.LineHears | RemPythonCommon/RemRouter.py:186-205 | a line of devices comes up, and after a flood the root has heard of the last of n below it if and only if n is at most 35 |
| MeshLine.LineLearns | RemPythonCommon/RemRouter.py:350-360 | and when all have pinged for the root it knows the last link if and only if n is at most 219 |
| MeshLine.LineOverhears | RemPythonCommon/RemRouter.py:294-332 | after plain pings in a line of two or more devices the root knows the link from device 2 to device 1 |
| Join.Scanner.GetMeshData | RemPythonCommon/X86_64/OSI2FileScanner.py:111-128 | the loop merges the record files over the mesh file |
| Join.MergedIs | RemPythonCommon/X86_64/OSI2FileScanner.py:111-128 | a node's record is its file's where there is one, else the mesh file's |
| Join.Scanner.ConnectToNode | RemPythonCommon/X86_64/OSI2FileScanner.py:76-81 | the parent's id and its connected flag are copied |
| Join.Scanner.ScanClosestRootLink | RemPythonCommon/X86_64/OSI2FileScanner.py:132-156 | an unconnected node joins the first connected entry within the window, if there is one, and nothing else ever changes |
| Join.DueOnce | RemPythonCommon/X86_64/OSI2FileScanner.py:45-58 | in thirty counts a node scans once if its number is 8 to 37 and else never, so the root, number 0, never does |
| Join.Scanner.UpdateDiscrete | RemPythonCommon/X86_64/OSI2FileScanner.py:57-72 | if the scan is due and the mesh file is there, it is counted, and then the node joins the first connected entry within the window; else nothing changes |
| Join.PicksFirstConnected | RemPythonCommon/X86_64/OSI2FileScanner.py:143-156 | an entry is picked exactly if it is connected, nothing listed before it is, and it is within the window |
| Doubles.RoundedNearest | RemPythonCommon/X86_64/OSI2FileScanner.py:144-146 | in the float arithmetic of the window, no integer is nearer to a quotient than the one it is rounded to |
| Join.WindowIsTenths | RemPythonCommon/X86_64/OSI2FileScanner.py:144-146 | the k-th scan tries every entry before k tenths of the list and none behind; from the tenth on the whole list |
| Join.ApplyJoins | RemPythonCommon/X86_64/OSI2FileScanner.py:57-156 | a scan writes one new version of one file, that of a node that has joined the first connected entry within the window, if there is one |
| Join.WindowFallsShort | RemPythonCommon/X86_64/OSI2FileScanner.py:144-146 | at the seventh scan of 90 entries the float window ends short of 63 |
| Join.PicksClosest | RemPythonCommon/X86_64/OSI2FileScanner.py:143-156 | with entries in order of distance, no connected node is closer than the pick |
| Join.ParentsNearest | RemPythonCommon/X86_64/OSI2FileScanner.py:132-156 | over every run, the parent of a connected node was the nearest of those it read as connected when it joined |
| Join.AlwaysTree | RemPythonCommon/X86_64/OSI2FileScanner.py:57-156 | over every interleaving of scans with stale reads, the connected nodes are a tree under the root |
| Join.ParentForever | RemPythonCommon/X86_64/OSI2FileScanner.py:140-141 | a connected node keeps its parent for ever |
| Join.TenScansConnect | RemPythonCommon/X86_64/OSI2FileScanner.py:143-156 | a node is connected after at most ten of its own scans |
| Join.TenScansConnectAll | RemPythonCommon/X86_64/OSI2FileScanner.py:143-156 | when every node has scanned ten times all devices are in the tree |
| Join.JoinedWorld | RemPythonCommon/X86_64/OSI2FileScanner.py:98-106 | with a channel each way per join and no others, the mesh is the tree world of `MeshTree` |
| Framing.RemBasicHeader.SetSize | RemCppCommon/RemHeaderTypes.hpp:38-57 | the two bytes read back as the size |
| Framing.Stamp | RemCppCommon/RemHeaderTypes.hpp:38-57 | a stamped header in front of a body is a packet carrying its own length |
| Framing.OnNewBytes | ServerGo/src/RespirMeshServer/RespirMeshServer.go:137-185 | the loop delivers and ends as `Split` says, on every input |
| Framing.DeliversStamped | ServerGo/src/RespirMeshServer/RespirMeshServer.go:164-176 | whatever comes in, what is delivered is the start of the buffer cut into packets that carry their own length |
| Framing.SplitExact | ServerGo/src/RespirMeshServer/RespirMeshServer.go:164-176 | the splitter delivers exactly these packets and ends by itself if and only if the data is these packets, one or more |
| Framing.FramingUnique | ServerGo/src/RemHeaderTypes/RemHeaderTypes.go:20-22 | a byte string is a concatenation of stamped packets in at most one way |
| Framing.ZeroSizeFatal | ServerGo/src/RespirMeshServer/RespirMeshServer.go:164-185 | a header of zeros ends the server |
| Framing.LongSizePanics | ServerGo/src/RespirMeshServer/RespirMeshServer.go:164-176 | a size past the buffer panics |
| Framing.ShortPacketFilled | ServerGo/src/RespirMeshServer/RespirMeshServer.go:164-176 | a packet cut short is delivered with bytes that were never received |
| Reports.ReportFits | RemCppCommon/RemRouter.cpp:193-201 | a report encodes to at most 14 bytes, so encoding into the 64-byte buffer never fails |
| Reports.RemRouter.SendPacket | RemCppCommon/RemRouter.cpp:23-60 | the stamped packet goes over every uplink, or every channel, by forwarding type, as `Reports.SendsExactly` spells out |
| Reports.RemRouter.RoutePacket | RemCppCommon/RemRouter.cpp:62-93 | a relayed packet goes up unchanged but for its stamp; a parent packet is processed; others go nowhere |
| Reports.RemRouter.HandleMeshTopo | RemCppCommon/RemRouter.cpp:215-273 | a decodable first-hop report goes up with its target set to this device; everything else is dropped |
| Reports.RemRouter.SendMeshTopo | RemCppCommon/RemRouter.cpp:177-213 | the device's own report, target unset, goes over every uplink |
| Reports.SendsExactly | RemCppCommon/RemRouter.cpp:23-60 | for the parent and the root once over every uplink in order, for the neighbours once over every channel, else nowhere |
| Reports.ReportExactly | RemCppCommon/RemRouter.cpp:177-213 | the own report names the device as source and no target, carries its length, and goes once over every uplink |
| Reports.RoutedExactly | RemCppCommon/RemRouter.cpp:62-93 | what is for the root goes once over every uplink with the received size; a readable first-hop report goes there with this device as target, the root as aim and its new length; nothing else is sent |
| ReportRuns.RelayedOnce | RemCppCommon/RemRouter.cpp:238-268 | the first hop sets the target to itself and nothing else in a report ever changes |
| ReportRuns.StepKeeps | RemCppCommon/RemRouter.cpp:62-268 | every event, rewiring and loss included, keeps: a first-hop report is straight from its source with target 0, a relayed one carries a real uplink |
| ReportRuns.ToldAreUplinks | ServerGo/src/RemTopology/RemTopology.go:424-441 | every pair the server is told is an uplink over which its source sent a report |
| ReportRuns.ToldIsRead | ServerGo/src/RespirMeshServer/RespirMeshServer.go:202-226 | what the server is told over a run is what is read from the packets delivered to it |
| ReportRuns.ToldExactly | ServerGo/src/RemTopology/RemTopology.go:424-441 | with no loss and an uplink at every device, once no report is in flight it has been told all of them and nothing else |
| ReportTermination.EverythingDiesOut | RemCppCommon/RemRouter.cpp:62-93 | with a rank that falls along uplinks, every packet in flight dies out, in any order |
| ReportTermination.ReportDiesOut | RemCppCommon/RemRouter.cpp:177-268 | the number of packets one report can cause is bounded by the device's rank and the number of uplinks |
| Topology.TopoNode.AddNeighbor | ServerGo/src/RemTopology/RemTopology.go:218-228 | the node is added unless one with its UUID is there |
| Topology.RemTopology.GetNodeFromID | ServerGo/src/RemTopology/RemTopology.go:105-113 | a listed node with the id, or none if there is none |
| Topology.RemTopology.GetEdgeFromID | ServerGo/src/RemTopology/RemTopology.go:116-124 | an edge with both ids, or none if there is none |
| Topology.RemTopology.ObtainNode | ServerGo/src/RemTopology/RemTopology.go:166-193 | the listed node dated now, or a new one added last; no other node changes |
| Topology.RemTopology.ObtainEdge | ServerGo/src/RemTopology/RemTopology.go:127-163 | the listed edge with its own end objects dated now, or a new one added last; pairs and ids stay unique |
| Topology.RemTopology.MakeEdgeFromIDs | ServerGo/src/RemTopology/RemTopology.go:231-249 | the edge exists once, is dated now and not old; both nodes are listed, dated now and know each other; neighbours known before stay known; no other edge or node changes; the ageing invariant holds and the panic is never reached |
| Topology.RemTopology.CreateRoot | ServerGo/src/RemTopology/RemTopology.go:196-206 | the root is listed, marked and dated now; the ageing invariant holds |
| Topology.RemTopology.Handle | ServerGo/src/RemTopology/RemTopology.go:407-442 | the record grows by exactly the reported pair, which is then dated now and not old, target 0 standing for the server session; neighbours known before stay known, no other node changes; an unreadable packet changes nothing |
| Topology.RemTopology.SweepEdges | ServerGo/src/RemTopology/RemTopology.go:312-327 | the loop over the shrinking slice never indexes past its live length; what is left is the sweep of `Sweep`, where an entry at its old index is flagged old exactly if older than the old limit, and a moved one keeps its flag |
| Topology.RemTopology.SweepNodes | ServerGo/src/RemTopology/RemTopology.go:329-344 | the same for nodes |
| Topology.RemTopology.UpdateLifeDuration | ServerGo/src/RemTopology/RemTopology.go:306-347 | both sweeps; ids and pairs stay unique, the ageing invariant holds, pairs dated within the delete limit stay, at most half of the expired entries stay, and none of d exactly if none was among the last d - 1; entries at their old index are flagged exactly, moved ones keep their flag, and with nothing expired every entry is at its old index |
| Topology.RemTopology.GetRoots | ServerGo/src/RemTopology/RemTopology.go:350-379 | exactly the listed nodes without neighbours, or that are the target of some edge and the source of none, each once |
| Topology.ReportKeepsAge | ServerGo/src/RemTopology/RemTopology.go:231-249 | a report keeps: every edge within the delete limit has both ends listed with dates no older than its own |
| Topology.SweepKeepsAge | ServerGo/src/RemTopology/RemTopology.go:312-344 | deleting edges, and only nodes past the limit, keeps it too |
| Sweep.SweepKeeps | ServerGo/src/RemTopology/RemTopology.go:312-344 | a sweep keeps every unexpired entry as often as it was there and adds none |
| Sweep.ExaminedStays | ServerGo/src/RemTopology/RemTopology.go:312-344 | the unexpired entries that the loop looks at are exactly those it leaves where they were |
| Sweep.LeftInPlace | ServerGo/src/RemTopology/RemTopology.go:312-344 | so of what is left an entry was looked at exactly if it is at its old index |
| Sweep.SweepHalves | ServerGo/src/RemTopology/RemTopology.go:312-344 | it leaves at most half of the expired entries |
| Sweep.SweepClears | ServerGo/src/RemTopology/RemTopology.go:312-344 | of d expired entries one sweep removes all if and only if none is among the last d - 1 of the list |
| Sweep.SweepLeavesOne | ServerGo/src/RemTopology/RemTopology.go:312-344 | two expired entries of which one is left |
| Sweep.SweepsVanish | ServerGo/src/RemTopology/RemTopology.go:312-344 | with the clock standing still, k sweeps leave at most m / 2^k of m |
| ServerRuns.Serve | ServerGo/src/RemTopology/RemTopology.go:231-442 | over any sequence of reports, refreshes and sweeps ids, pairs and ages stay in order, and the record holds only pairs read, all of them while there is no sweep, and always all that were read within the delete limit |
| ServerRuns.ServeMesh | ServerGo/src/RemTopology/RemTopology.go:407-441 | fed with what a run of the mesh delivers, every edge ever recorded is an uplink over which its source sent a report, and every pair told within the delete limit is on record |
| ServerRuns.CleanRepeatedly | ServerGo/src/RemTopology/RemTopology.go:306-347 | k calls at one time leave at most m / 2^k of m expired edges |
| WiFi.PassingExactly | RemCppCommon/ESP8266/SimpleWiFiScanner.cpp:305-332 | an entry passes exactly if it is the index and signal of a network above -70 with a mesh name |
| WiFi.KeptAreFirst | RemCppCommon/ESP8266/SimpleWiFiScanner.cpp:305-332 | what is kept is, in the order found, the first 15 of the networks above -70 whose name begins with the configured name or with rspm |
| WiFi.StrongestFirst | RemCppCommon/ESP8266/SimpleWiFiScanner.cpp:335-363 | slot 0 is a network that passes, and no kept entry is stronger |
| WiFi.StrongestExactly | RemCppCommon/ESP8266/SimpleWiFiScanner.cpp:323-348 | slot 0 is the strongest of all that pass if and only if each network behind the first 15 is matched by one of them |
| WiFi.LateStrongMissed | RemCppCommon/ESP8266/SimpleWiFiScanner.cpp:323-348 | a sixteenth network is not kept although it is the strongest |
| WiFi.SimpleWiFiScanner.Filter | RemCppCommon/ESP8266/SimpleWiFiScanner.cpp:317-332 | the first 15 that pass, in order, then cleared slots |
| WiFi.SimpleWiFiScanner.SortValid | RemCppCommon/ESP8266/SimpleWiFiScanner.cpp:337-348 | the exchange sort puts the kept entries in descending order, a permutation, and leaves the rest alone |
| WiFi.SimpleWiFiScanner.WifiScanDone | RemCppCommon/ESP8266/SimpleWiFiScanner.cpp:314-364 | a sorted permutation of the kept entries with cleared slots after them; selecting exactly if one was kept |
| WiFi.SimpleWiFiScanner.Update | RemCppCommon/ESP8266/SimpleWiFiScanner.cpp:120-158 | connects exactly when selecting, unconnected and not rescanning, and then to a network above -70 of a mesh name that is a strongest one kept of the last scan |
| Timer.TaskLooper.Check | RemCppCommon/TaskLooper.cpp:22-31 | fires exactly when due, and then plans the next time modulo 2^32 |
| Timer.TaskLooper.Start | RemCppCommon/TaskLooper.cpp:33-43 | plans one interval ahead, or stops without hardware |
| Timer.TaskLooper.Now | RemCppCommon/TaskLooper.cpp:45-55 | plans for now, or stops without hardware |
| Timer.TaskLooper.Stop | RemCppCommon/TaskLooper.cpp:57-60 | plans for a time no clock passes |
| Timer.TaskLooper.Set | RemCppCommon/TaskLooper.cpp:62-66 | new interval, and a start |
| Timer.FiringsApart | RemCppCommon/TaskLooper.cpp:22-31 | away from the wrap, consecutive firings are more than one interval apart |
| Timer.FiringsInWindow | RemCppCommon/TaskLooper.cpp:22-31 | so a window of T ms has at most 1 + T / (interval + 1) of them |
| Timer.SilentExactly | RemCppCommon/TaskLooper.cpp:22-60 | planned for 2^32 - 1 or 0 it never fires; planned for anything else it fires at a later clock |
| Timer.FiringNearWrap | RemCppCommon/TaskLooper.cpp:22-31 | after a firing it is due again at once, or silent for ever, exactly at these distances from the wrap |

## Left out

- Nodes.Node.ProcessPacket: does not take RemMakeClient1 packets; in `Mesh` their effect is an `Open` event followed by a `Ping` event, without the text of the packet or the queue of logic tasks.
- Nodes.Node.InitChannel: takes the random uuid as a parameter and leaves out address, port and status of a channel.
- Nodes.Node.DrainQueue: takes a queue to which nothing is added while it drains; in `Mesh` arrivals interleave freely.
- Join.Scanner.UpdateDiscrete: the list of the others in order of distance is a parameter, without the random factor drawn for each.
- Join.JoinedWorld: that a join makes a channel each way is a premise, since the second one is made by a RemMakeClient1 packet.
- Topology.RemTopology.Handle: the header and protobuf decoding is a parameter, readable report or not.
- WiFi.SimpleWiFiScanner.Filter: takes at most 255 networks; beyond that the 8-bit index of the source wraps and its loop does not end.
- WiFi.SimpleWiFiScanner.WifiScanDone: the same bound.
- Framing.RemBasicHeader.SetSize: writes the bit operations as division and remainder.
- Sockets, threads, WiFi calls, file and JSON input and output, the database writer, the HTTP and websocket server, the HTML viewer and the PlantUML debugger: input and output only. A send is a packet copy added to those in flight.
- Protobuf and nanopb encoding: a faithful codec of three fields, with the real length of its output.
- Logging, diagnostic prints and the prints before the hop-limit drops.
- `GetWayTo` and `NodesToUintList` of the topology store: nothing calls them.
- `AssembleJSON` and the other handlers of the Go server (time sync, ping, log): they only report.
- The Python TCP splitter, which does not deliver the last of several combined packets; the Go splitter is modelled.
- `clean_channels` of the C++ orchestrator.
- The random placement of points in `generate_mesh`; the initial records are in `Join.Init`.
- Routing to the edges is in `NodeSpec.Route`, but no packet of that kind is ever sent, so no theorem about runs is about it.
- Restarts of a node, reuse of a uuid, and random uuids that clash.
- Concurrency inside the Go store: the wait group used as a lock is taken to make each operation atomic.
- Access-point mode, IP addresses and the server-side state of the WiFi scanner.
- The older copies of the clients (`client_r1`, `client_t`, `ClientEsp_OLD`, SimpleNetwork).
