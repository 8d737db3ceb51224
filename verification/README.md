# Verification of the EGOS network stack

A Dafny model of the network path of EGOS-2000 and of the kernel code it runs on,
with proofs of what each layer promises to the next:

- **The uIP TCP engine** (`Words`, `Tcp`, `TcpInvariant`, `Stack`, `Table`,
  `Diagram`, `Endpoint`, `Prefix`, `Closing`, `Sender`, `Composition`, `Handshake`,
  `Segments`, `Timeout`, `FrameSize`). One
  call of `uip_process` is split at its application call: `Receive`, `Tick` and
  `Poll` run up to it, `Resume` from it to the end, given whatever the
  application left behind. `Stack.Step` lifts this to the table of 40
  connections. `UipEngine.Uip` is the same engine on arrays updated in place,
  proved equal to the step function.
- **Packets** (`Checksum`, `Wire`, `PacketBuffer`, `Icmp`): one's-complement
  sums, headers as bytes, the send tail and the input tests on the packet
  buffer, the echo reply.
- **The socket service** (`Socket`, `SocketStable`, `CarriedOver`,
  `ServedStream`, `Ledger`, `Inbox`, `SocketService`): the callback of `httpd.c` and the handlers of `sys_net.c` with their two copies of
  the connection state, as functions and as classes proved equal to them.
- **The E1000 rings** (`Ring`, `TxRing`, `RxRing`, `TxDriver`, `RxDriver`):
  driver and device as two parties that interleave at every access to shared
  memory.
- **Sv32 page tables** (`Bits`, `PageTable`, `Spaces`, `VirtualMemory`):
  bit-packed entries in physical pages, refined to one finite map per pid, with
  an owner for every allocated page.
- **ARP** (`Arp`, `ArpExchange`, `ArpTable`) and **the MLFQ scheduler** (`Mlfq`,
  `Scheduler`).

Each component has a specification on values, the run-level theorems about it,
and, where the source updates memory in place, a class whose methods are proved
to compute the specification. The configuration is that of the build: IPv4,
active open on, UDP, reassembly and urgent data off, `UIP_TCP_MSS` = 366,
`UIP_CONNS` = 40, little-endian.

Nine promises turn out to hold under a condition only. Each condition is proved
exact and each failure is shown at an input:

- delivery of payloads on segments with TCP options (`Prefix.OptionsShiftData`,
  `Prefix.ShiftedPayload`);
- the ICMP checksum shortcut (`Icmp.ReplyVerifies`, `Icmp.SmallestFailure`);
- the transmit ring with 15 outstanding descriptors (`TxRing.BoundIsExact`,
  `TxRing.SixteenthSend`);
- the return of all pages by `page_table_free` (`VirtualMemory.Mmu.PageTableFree`,
  `VirtualMemory.LeakedPage`);
- one ARP entry per address (`Arp.StoredOnce`, `Arp.StoredTwice`);
- a request staying with the connection it was accepted on
  (`CarriedOver.CarriedInRuns`, `CarriedOver.RequestCarriedOver`);
- the acknowledgement of text in sequence (`Handshake.DataAcknowledged`: silent
  exactly in FIN_WAIT_1 when the segment also acknowledges the FIN);
- `sock_close` ending a connection for its caller (`Inbox.CloseComesUndone`, with
  the exact condition for NET_CLOSED in `Inbox.RecvReturns`);
- keeping the current process in the scheduler (`Mlfq.CurrentKept`,
  `Mlfq.ReadyAloneDropped`, `Mlfq.RunningDropped`; the comment at
  `snapshot/grass/mlfq.c:93-96` promises more than the code does).

## Model

| member | source | states |
|---|---|---|
| Prefix.PrefixSafety | snapshot/library/uip/uip.c:1403-1417 | From a fresh stack, for every finite run of input, timer, poll, connect and listen events on all 40 slots, with arbitrary application answers: if the segments carrying key `k` come from one peer stream below 2^32 bytes (lost, duplicated, reordered at will), the bytes passed to the application with NEWDATA since it was connected are a prefix of that stream, and `rcv_nxt` is ISN + 1 + bytes delivered (mod 2^32) while ESTABLISHED |
| Prefix.RunDelivers | snapshot/library/uip/uip.c:1403-1417 | The same invariant carried through a run from any conforming table |
| Prefix.StepDelivers | snapshot/library/uip/uip.c:683-1880 | One event of the whole stack keeps the log of one key a prefix and `rcv_nxt` in step, whichever slot the event hits |
| Prefix.SwitchDelivers | snapshot/library/uip/uip.c:1464-1787 | For each state of the switch: the call made and the new `rcv_nxt` agree, so a body that advanced by the wrong count or flagged NEWDATA without advancing would fail |
| Prefix.Continues | snapshot/library/uip/uip.c:672-680 | A payload accepted by the sequence-number test continues the log at the right offset of the stream |
| Prefix.OptionsShiftData | snapshot/library/uip/uip.c:693-693 | All payloads of a given nonzero length reach the application unchanged if and only if the segment has no TCP options, because `uip_appdata` is fixed behind a bare header |
| Prefix.ShiftedPayload | snapshot/library/uip/uip.c:693-693 | An established connection that receives the payload 07 in sequence behind four NOP options hands 01 to the application |
| Closing.ClosedByPeer | snapshot/library/uip/uip.c:1464-1787 | From a fresh stack, for every run in which the segments of key `k` come from one peer that ends its stream with a FIN: `rcv_nxt` never runs ahead of the stream; in LAST_ACK, CLOSING and TIME_WAIT it is ISN + 1 + the whole stream + 1; in LAST_ACK the application has been given the whole stream |
| Closing.RunHeard | snapshot/library/uip/uip.c:1464-1787 | The same account carried through a run from any state that has it |
| Closing.StepHeard | snapshot/library/uip/uip.c:683-1880 | One event of the whole stack keeps it |
| Closing.FinAcknowledged | snapshot/library/uip/uip.c:1561-1771 | A FIN in sequence in ESTABLISHED with nothing left in flight, FIN_WAIT_1 or FIN_WAIT_2 is acknowledged by the segment this event emits, with sequence number + text + 1 (mod 2^32), as section 3.3 of RFC 793 counts |
| Closing.FinDeferred | snapshot/library/uip/uip.c:1562-1564 | With bytes still in flight the FIN changes nothing and is left to be sent again |
| Closing.LastByteDelivered | snapshot/library/uip/uip.c:1561-1575 | The event that enters LAST_ACK hands over the last bytes of the stream |
| Composition.EndToEnd | snapshot/library/uip/uip.c:1423-1461 | Two stacks joined by a lossy, duplicating, reordering network, in every execution before the first FIN or RST, whichever host opens the connection, or both at once: in both directions acknowledged bytes are a prefix of delivered bytes, which are a prefix of submitted bytes |
| Composition.ExecutionKeeps | snapshot/library/uip/uip.c:1423-1461 | The two-sided invariant (both senders, both receivers, every segment in either network) holds in every state of every execution |
| Composition.MoveKeeps | snapshot/library/uip/uip.c:1649-1711 | Any single event at either host preserves the two-sided invariant |
| Composition.CoupledKept | snapshot/library/uip/uip.c:1469-1546 | The accepting side is established only after the opening side, which is established only after the accepting side exists |
| Composition.OpenCrosses | snapshot/library/uip/uip.c:449-466 | When the second host opens too, both are in SYN_SENT with nothing submitted or delivered, unless the first had not started |
| Composition.CrossedStays | snapshot/library/uip/uip.c:1488-1546 | A simultaneous open never establishes: short of a RST both hosts stay in SYN_SENT and send only SYNs and bare ACKs |
| Handshake.Establishes | snapshot/library/uip/uip.c:1204-1546 | The three-way handshake between `uip_connect` and a listener, for all ports, addresses and initial numbers: SYN, SYN-ACK and ACK leave both sides ESTABLISHED and idle, each expecting the number the other sends next |
| Handshake.Closes | snapshot/library/uip/uip.c:1561-1771 | One side closes an idle pair: FIN, FIN-ACK and ACK leave it in TIME_WAIT and the other side without the connection |
| Handshake.ClosesTogether | snapshot/library/uip/uip.c:1735-1787 | Two FINs that cross: both sides pass through CLOSING and the two acknowledgements leave both in TIME_WAIT |
| Handshake.DataAcknowledged | snapshot/library/uip/uip.c:1604-1765 | Text in sequence is acknowledged by the segment this event emits, with sequence number + text; no segment is emitted if and only if the state is FIN_WAIT_1 and the segment also acknowledges the FIN (lines 1753-1756) |
| Handshake.StaleAnswered | snapshot/library/uip/uip.c:1403-1417 | A segment out of sequence changes nothing, reaches no application, and is answered with a bare ACK of the number expected |
| Handshake.IdleSends | snapshot/library/uip/uip.c:697-806 | An idle established connection is polled by the timer and by `uip_poll_conn`; what the application then offers goes out at once, cut to `mss`, under `snd_nxt`, and is outstanding with `nrtx` = 0 |
| Handshake.AckReleases | snapshot/library/uip/uip.c:1423-1461 | An acknowledgement is reported with ACKDATA, and the next data goes out behind the bytes acknowledged |
| ServedStream.ServiceEndToEnd | snapshot/apps/system/sys_net.c:115-248 | The end-to-end theorem for a host that runs the socket service with one client, in every execution with a peer: nothing is assumed of its application, whatever requests of at most `UIP_APPDATA_SIZE` bytes and other messages it handles |
| ServedStream.ExecutionServed | snapshot/apps/system/sys_net.c:115-248 | In every state of such an execution the two-host invariant, the bridge invariant and the link between them hold |
| ServedStream.TurnServed | snapshot/apps/system/sys_net.c:150-248 | Every handler keeps them: the bytes in flight are the end of the submitted stream and the start of the held request |
| ServedStream.EventServed | snapshot/library/uip/uip.c:683-1880 | So does every single call of `uip_process` by the service |
| ServedStream.EventLegal | snapshot/library/uip/httpd.c:41-49 | Every such call meets the obligation the two-endpoint theorem puts on an application |
| ServedStream.ReplyHonest | snapshot/library/uip/httpd.c:36-49 | At every call with bytes in flight the callback offers exactly those bytes again or none, and claims no acknowledgement |
| Composition.NewSegmentOk | snapshot/library/uip/uip.c:1803-1811 | Every segment put on the network carries bytes of the sender's stream at their own offset and acknowledges no more than was delivered |
| Sender.ReceiveSends | snapshot/library/uip/uip.c:1423-1721 | A received segment keeps the sender account: in-flight bytes are the last `len` submitted, `snd_nxt` is their sequence number, acknowledged bytes were received |
| Sender.TickSends | snapshot/library/uip/uip.c:730-808 | The same for a timer event, retransmission included |
| Sender.PollSends | snapshot/library/uip/uip.c:697-705 | The same for a poll event |
| Sender.AckMeansReceived | snapshot/library/uip/uip.c:1423-1429 | The byte-wise test `ackno == snd_nxt + len` succeeds only when the peer received everything submitted (wrap-around excluded by the stream bound) |
| Sender.TakeDataSends | snapshot/library/uip/uip.c:1668-1711 | At `appsend` new bytes extend the submitted stream and bytes in flight go out again unchanged under the same number |
| Endpoint.Project | snapshot/library/uip/uip.c:1190-1198 | Every event acts at every key exactly as a step of that key's connection alone: the first-match loop is a lookup in a finite map, other keys are untouched except that a TIME_WAIT entry may be dropped |
| Endpoint.LookupIs | snapshot/library/uip/uip.c:1190-1198 | Under the table invariant the first match is the only match |
| Endpoint.TakeLookup | snapshot/library/uip/uip.c:1302-1312 | Taking a slot registers its new key and unregisters at most one TIME_WAIT key |
| Table.RunKeeps | snapshot/library/uip/uip.c:683-1880 | Over every run: no two non-CLOSED slots share (local port, remote port, remote address), `len` and `nrtx` fit the state, `mss` <= `initialmss` <= `UIP_TCP_MSS`, `lastport` stays in range |
| Table.StepKeeps | snapshot/library/uip/uip.c:683-1880 | Every event preserves that invariant |
| Table.AcceptKeeps | snapshot/library/uip/uip.c:1204-1358 | A SYN is accepted under a key nobody has |
| Table.ConnectKeeps | snapshot/library/uip/uip.c:413-466 | `uip_connect` preserves the invariant, uniqueness included |
| Table.Initial | snapshot/library/uip/uip.c:380-404 | The state after `uip_init` satisfies the invariant |
| Table.AllocatorChoice | snapshot/library/uip/uip.c:1280-1292 | Allocation yields the first CLOSED slot, else a TIME_WAIT slot with the largest timer, else nothing; never a live connection |
| Table.SomePortFree | snapshot/library/uip/uip.c:413-428 | Pigeonhole: among any 41 consecutive candidate ports one is unused |
| Table.PortSearch | snapshot/library/uip/uip.c:413-428 | The `goto again` loop tries at most `UIP_CONNS` + 1 ports and ends with the first one in its order that no live connection uses |
| Stack.FindConn | snapshot/library/uip/uip.c:1190-1198 | The demultiplexing loop returns the first live match, or the table size when there is none |
| TcpInvariant.ReceiveKeeps | snapshot/library/uip/uip.c:1383-1787 | After any segment: `len` = 1 in SYN_SENT, SYN_RCVD, FIN_WAIT_1, CLOSING, LAST_ACK; 0 in FIN_WAIT_2 and TIME_WAIT; at most `UIP_TCP_MSS` in ESTABLISHED |
| TcpInvariant.ReceiveMoves | snapshot/library/uip/uip.c:1464-1787 | For one connection: every state change on a segment is a path of at most two arrows of Figure 6 in section 3.2 of RFC 793 (CLOSE_WAIT folded into LAST_ACK), and CLOSED is entered only through RST, abort, a failed active open or the last ACK |
| TcpInvariant.TickKeeps | snapshot/library/uip/uip.c:730-808 | The same for the timer, whose only further exits to CLOSED are the time-outs and an abort |
| TcpInvariant.PollKeeps | snapshot/library/uip/uip.c:697-705 | The same for a poll, whose only exit to CLOSED is an abort |
| Diagram.StepMoves | snapshot/library/uip/uip.c:683-1880 | For the whole table, every event and every slot: the slot stays as it is, moves along the diagram under the same key, ends for a named reason (RST, abort, time-out, failed open, last ACK), or a CLOSED or TIME_WAIT slot is reused for an accepted SYN or an active open |
| Diagram.RunMoves | snapshot/library/uip/uip.c:683-1880 | The same in every reachable state |
| FrameSize.EmittedFits | snapshot/library/uip/uip.c:1684-1707 | In every reachable state, whatever the event: the emitted segment fits `UIP_TCP_MSS` and the frame `uip_arp_out` makes of it is at most `UIP_BUFSIZE` bytes and meets the driver's length assertions |
| FrameSize.EmittedArrives | snapshot/library/uip/uip.c:842-1863 | In every reachable state: the bytes of an emitted segment, with any link padding, pass the input tests of the host they are addressed to, and that host reads back the same segment, within what its engine is written for |
| Timeout.GivesUpAfter | snapshot/library/uip/uip.c:736-763 | Without input, a connection with outstanding data and `nrtx` = 0 keeps its state before tick `timer` + 246 (`timer` + 99 in SYN_SENT and SYN_RCVD) and is CLOSED from that tick on, whatever the application answers |
| Timeout.ClosesExactly | snapshot/library/uip/uip.c:736-800 | The same from any `nrtx` a connection can have, with the remaining back-off intervals summed |
| Timeout.WaitEnds | snapshot/library/uip/uip.c:730-735 | TIME_WAIT and FIN_WAIT_2 close at a tick known in advance, at most 256, from any 8-bit timer value, wrap-around included |
| Timeout.TimeWaitLasts | snapshot/library/uip/uip.c:730-735 | TIME_WAIT, whichever segment entered it, lasts 120 ticks |
| Timeout.SynGivesUp | snapshot/library/uip/uip.c:736-763 | A connection opened by a SYN is given up after 102 ticks without an answer, one opened by `uip_connect` after 100 |
| Timeout.SynTimers | snapshot/library/uip/uip.c:1302-1312 | The slots `uip_process` and `uip_connect` fill start with the timers these counts begin from |
| Timeout.BackoffDoubles | snapshot/library/uip/uip.c:760-762 | The back-off is 3 ticks, doubles four times and stays at 48 |
| Timeout.ControlResent | snapshot/library/uip/uip.c:772-799 | When the timer expires an outstanding SYN or FIN (SYN_SENT, SYN_RCVD, FIN_WAIT_1, CLOSING, LAST_ACK) is sent again with its own sequence number and the current acknowledgement |
| Timeout.FinRepeated | snapshot/library/uip/uip.c:772-799 | The FIN of an application's close and every repetition of it until it is acknowledged or given up carry the number behind the acknowledged bytes |
| Segments.WindowRespected | snapshot/library/uip/uip.c:1622-1627 | Data sent after a segment with window w > 0, at once or before the next segment, is at most w bytes at a time |
| Segments.ZeroWindow | snapshot/library/uip/uip.c:1622-1627 | After a closed window the segment size is `initialmss` again |
| Segments.SentWithinMss | snapshot/library/uip/uip.c:1684-1690 | Timer and poll events take at most `mss` bytes and leave `mss` alone |
| Segments.MssBehindNops | snapshot/library/uip/uip.c:1328-1357 | The cursor loop finds an MSS option behind any number of NOPs, whatever follows it |
| Segments.MssLearned | snapshot/library/uip/uip.c:1328-1357 | A SYN with an MSS option sets `mss` and `initialmss` to the announced value, cut to 366, which is what this stack announces itself |
| Segments.ResetReaches | snapshot/library/uip/uip.c:1217-1268 | The reset that answers a segment of another host's connection reaches that connection with the sequence number it expects, section 3.4 of RFC 793 |
| Segments.ListenAdds | snapshot/library/uip/uip.c:530-538 | `uip_listen` adds the port if an entry is free and loses no other port |
| Segments.IssAdvances | snapshot/library/uip/uip.c:714-720 | Over every run the initial sequence number advances by one with every timer event and with nothing else |
| Words.AddBytes | snapshot/library/uip/uip.c:250-274 | `uip_add32`: the byte sums and two carry chains write the 32-bit wrapped sum into `uip_acc32` and leave the operand alone |
| Words.IncrementBytes | snapshot/library/uip/uip.c:714-720 | The nested `++` chain adds one modulo 2^32 |
| Words.HtonsInvolution | snapshot/library/uip/uip.h:1074-1074 | `HTONS` is its own inverse, so port comparisons in either order agree |
| Checksum.Chksum | snapshot/library/uip/uip.c:281-309 | The carry loop over pairs and the odd byte computes the one's-complement sum: residue modulo 65535, zero only for an all-zero input |
| Checksum.FoldFold | snapshot/library/uip/uip.c:281-309 | Folding early, as the chained calls do, gives the same sum |
| Checksum.WordSumZero | snapshot/library/uip/uip.c:281-309 | The sum is zero exactly for the all-zero message |
| Checksum.ComplementVerifies | snapshot/library/uip/uip.c:1846-1846 | A message completed with the complement of its sum verifies |
| Checksum.ByteErrorShows | snapshot/library/uip/uip.c:281-309 | Replacing any one byte by another value changes the sum modulo 65535 |
| Wire.AcceptedIs | snapshot/library/uip/uip.c:842-946 | An accepted packet is IPv4 with a bare header, protocol 6, no fragment, and addressed to the host |
| Wire.HeaderErrorRejected | snapshot/library/uip/uip.c:941-941 | An accepted packet with any one byte of its IP header changed is rejected |
| Wire.PayloadErrorRejected | snapshot/library/uip/uip.c:1179-1179 | An accepted packet with any one byte of its TCP header or payload changed is rejected |
| Wire.PseudoHeader | snapshot/library/uip/uip.c:330-353 | The TCP sum is the word sum over source address, destination address, protocol, TCP length, header and payload, section 3.1 of RFC 793 |
| Wire.SelfAcceptance | snapshot/library/uip/uip.c:842-941 | Every packet leaving through the send tail, with any payload of odd or even length and any link padding, passes the version, length, fragment, address, IP-checksum, protocol and TCP-checksum tests of the host it is addressed to |
| Wire.RoundTrip | snapshot/library/uip/uip.c:1803-1863 | Reading such a packet back through the header fields gives exactly the segment that was sent |
| Wire.TcpVerifies | snapshot/library/uip/uip.c:1845-1846 | The stored TCP checksum verifies over pseudo-header and segment |
| Wire.IpVerifies | snapshot/library/uip/uip.c:1862-1863 | The stored IP checksum verifies over the header |
| PacketBuffer.UpperLayerSum | snapshot/library/uip/uip.c:330-353 | The nested `chksum` calls over addresses and payload give the folded pseudo-header sum |
| PacketBuffer.SendTail | snapshot/library/uip/uip.c:1798-1863 | Writing the headers in place around the payload leaves the buffer equal to the specified packet and no other byte changed |
| PacketBuffer.InputTests | snapshot/library/uip/uip.c:842-946 | The tests on the buffer, in source order, accept exactly the packets of `Wire.Accepts`, so no packet with a single damaged byte (`Wire.HeaderErrorRejected`, `Wire.PayloadErrorRejected`) |
| Icmp.ReplyVerifies | snapshot/library/uip/uip.c:997-1003 | For every echo request whose sum verifies, the reply built by add-with-carry verifies if and only if some byte besides type and checksum is nonzero (the case in section 3 of RFC 1624) |
| Icmp.SmallestFailure | snapshot/library/uip/uip.c:999-1003 | The request 08 00 f7 ff verifies and its reply 00 00 00 00 does not |
| Icmp.ReplyCongruent | snapshot/library/uip/uip.c:997-1003 | The reply's sum is congruent to the request's modulo 65535, byte order included |
| Icmp.HeaderStaysValid | snapshot/library/uip/uip.c:1006-1007 | The IP header sum is unchanged by the address exchange, so the checksum that is not recomputed stays valid |
| Icmp.ReplyAddressed | snapshot/library/uip/uip.c:1006-1007 | The reply goes to the source of the request, from the host's own address, with the rest of the header unchanged |
| Icmp.ReplyEchoes | snapshot/library/uip/uip.c:997-1003 | The reply is an echo reply with the identifier, number and data of the request |
| UipEngine.Uip.FindConnection | snapshot/library/uip/uip.c:1190-1198 | The loop over the table in memory finds the first match |
| UipEngine.Uip.FindFreeSlot | snapshot/library/uip/uip.c:1280-1292 | The loop finds the slot of the allocator's specification |
| UipEngine.Uip.NextLocalPort | snapshot/library/uip/uip.c:413-428 | The loop terminates and leaves in `lastport` a port no live connection uses |
| UipEngine.Uip.ConnectTo | snapshot/library/uip/uip.c:408-469 | `uip_connect` in place: the new table is the specified one and satisfies the invariant |
| UipEngine.Uip.AddListener | snapshot/library/uip/uip.c:530-538 | The port goes into the first free entry of the port list |
| UipEngine.Uip.ParseMss | snapshot/library/uip/uip.c:1329-1357 | The cursor loop finds the MSS option of the specification |
| UipEngine.Uip.TakeAck | snapshot/library/uip/uip.c:1423-1461 | Acknowledgement processing in place |
| UipEngine.Uip.Switch | snapshot/library/uip/uip.c:1464-1787 | The switch on the state in place equals the specified transition, whose counts are those of `Closing.ClosedByPeer`, `Closing.FinAcknowledged` and `Handshake.DataAcknowledged` |
| UipEngine.Uip.Found | snapshot/library/uip/uip.c:1383-1787 | One segment on one slot, up to the application call; no other slot changes |
| UipEngine.Uip.AcceptSyn | snapshot/library/uip/uip.c:1280-1379 | A SYN fills the allocated slot and is answered with SYN-ACK, or is dropped when there is none |
| UipEngine.Uip.InputEvent | snapshot/library/uip/uip.c:1190-1787 | A segment on the whole table in place, up to the application call |
| UipEngine.Uip.TimerEvent | snapshot/library/uip/uip.c:707-809 | A timer event on a slot in place |
| UipEngine.Uip.PollEvent | snapshot/library/uip/uip.c:697-705 | A poll event on a slot in place |
| UipEngine.Uip.SendFromApp | snapshot/library/uip/uip.c:1649-1719 | `appsend` in place |
| UipEngine.Uip.AfterCall | snapshot/library/uip/uip.c:1570-1719 | Every continuation of an application call in place |
| UipEngine.Uip.CompleteEvent | snapshot/library/uip/uip.c:1649-1880 | The second half of an event in place equals the specified effect, emitted segment included |
| UipEngine.Uip.constructor | snapshot/library/uip/uip.c:380-404 | `uip_init` on zeroed memory |
| SocketStable.RetransmissionStability | snapshot/library/uip/httpd.c:36-49 | For every run of the freshly started service on one connection (any requests, frames, polls and timer events): each data segment carries leading bytes of the last accepted request, and two data segments with no acknowledgement, new request, new connection or `sock_listen` in between have the same sequence number and the same bytes |
| SocketStable.RunStable | snapshot/apps/system/sys_net.c:62-76 | Every run keeps the monitor that rejects a changed byte, a changed sequence number, data without a request and a request accepted while another is held |
| SocketStable.HandleLinked | snapshot/apps/system/sys_net.c:150-248 | Every handler preserves the bridge invariant: while the service considers the connection open, `sock_tx_pending` equals `httpd_socket_tx_pending`, and the bytes in flight are the first `len` bytes of the held request under `snd_nxt` |
| SocketStable.SendLinked | snapshot/apps/system/sys_net.c:206-229 | `sock_send` accepts a request only when nothing is held or in flight |
| SocketStable.TakenJoined | snapshot/apps/system/sys_net.c:215-225 | Taking a request changes no byte that is in flight |
| SocketStable.CloseLinked | snapshot/apps/system/sys_net.c:231-248 | `sock_close` preserves the invariant although it clears one copy only |
| SocketStable.ListenLinked | snapshot/apps/system/sys_net.c:150-162 | `sock_listen` may orphan bytes in flight, and then no request is accepted before a new connection |
| SocketStable.NetPollLinked | snapshot/apps/system/sys_net.c:115-137 | `net_poll` preserves it and resynchronises the two copies |
| SocketStable.KickLinked | snapshot/apps/system/sys_net.c:78-102 | `kick_active_connection` preserves it |
| SocketStable.CallbackHonest | snapshot/library/uip/httpd.c:41-49 | If the held request starts with the bytes in flight and these end the submitted stream, the callback offers them again or nothing; `ServedStream.ReplyHonest` and `ServedStream.TurnServed` discharge the hypothesis over runs |
| SocketStable.WatchedStable | snapshot/library/uip/httpd.c:46-49 | A trace the monitor accepts is stable between any two positions |
| CarriedOver.SharedBuffer | snapshot/library/uip/httpd.c:46-49 | With two established connections, new data on the idle one makes the callback send the pending request there too, whatever is in flight on the other: stability is a property of one connection |
| CarriedOver.CarriedExactly | snapshot/library/uip/httpd.c:21-39 | In a stable trace the first data segment of a connection carries a request accepted on it if and only if nothing was held when the callback was told of the connection |
| CarriedOver.CarriedInRuns | snapshot/library/uip/httpd.c:21-39 | In every run: if and only if `httpd_socket_tx_pending` is clear at the connected call |
| CarriedOver.RequestCarriedOver | snapshot/library/uip/httpd.c:15-49 | A run (listen, connect, send, reset, connect again) in which the second connection starts with the request accepted on the first, since a reset does not clear `httpd_socket_tx_pending` |
| SocketStable.InitialJoined | snapshot/apps/system/sys_net.c:250-306 | The service as started satisfies the invariant |
| Inbox.RecvReturns | snapshot/apps/system/sys_net.c:177-204 | For every run of the freshly started service, with any frames, connections, requests and timer events: `sock_recv` answers OK exactly when a payload reported with NEWDATA has not been answered, dropped or replaced since, and then returns the first min(length, payload) bytes of it; otherwise NET_CLOSED if at the last `sync_socket_state` the callback had not heard of a connection or had heard of its end, and WOULD_BLOCK if it was open; INVALID exactly without a listening port or for another connection number |
| Ledger.NeverTwice | snapshot/apps/system/sys_net.c:186-197 | Two OK answers come from two payloads: the later one was reported after the earlier one had been answered |
| Inbox.PieceOfStream | snapshot/apps/system/sys_net.c:62-76 | Over the same runs: if the segments of a key come from one peer stream, whatever the network does to them, each OK answer for that connection is a contiguous piece of the stream at the offset of its payload |
| Ledger.PiecesInOrder | snapshot/library/uip/httpd.c:27-34 | Payloads of one connection lie behind one another in the stream, without overlap |
| Inbox.RunSettles | snapshot/apps/system/sys_net.c:115-248 | Over every run each answer of every handler (status, length, bytes) is the one the history before it calls for |
| Inbox.TurnSettles | snapshot/apps/system/sys_net.c:150-248 | Every message of the main loop keeps that: the buffers hold exactly what is unread, and the two copies of the flags are what was last told and last looked at |
| Inbox.ObserveBytes | snapshot/library/uip/httpd.c:27-34 | After a report of new data the callback's buffer holds the payload; an empty report leaves nothing |
| Ledger.AcceptsOnce | snapshot/apps/system/sys_net.c:164-175 | Between two OK answers of `sock_accept` another connection was reported |
| Inbox.SendGoesOut | snapshot/apps/system/sys_net.c:220-226 | A request taken on an idle connection leaves at once: the kick sends its first min(length, `mss`) bytes under the connection's next number |
| Inbox.CloseComesUndone | snapshot/apps/system/sys_net.c:231-248 | On every open connection `sock_close` answers OK and `sock_recv` then NET_CLOSED, but after the next frame of any kind WOULD_BLOCK again, since only the handlers' copy was cleared and the callback has not heard of the end |
| SocketService.Callback.AppCall | snapshot/library/uip/httpd.c:14-50 | `httpd_appcall` in place: new flags, buffers and the reply left to the engine |
| SocketService.Service.SyncSocketState | snapshot/apps/system/sys_net.c:62-76 | `sync_socket_state` in place |
| SocketService.Service.Poll | snapshot/apps/system/sys_net.c:115-137 | `net_poll` in place, with what it emits |
| SocketService.Service.KickActiveConnection | snapshot/apps/system/sys_net.c:78-102 | `kick_active_connection` in place, with what it emits |
| SocketService.Service.Listen | snapshot/apps/system/sys_net.c:150-162 | `handle_sock_listen` in place |
| SocketService.Service.Accept | snapshot/apps/system/sys_net.c:164-175 | `handle_sock_accept` in place |
| SocketService.Service.Recv | snapshot/apps/system/sys_net.c:177-204 | `handle_sock_recv` in place: status and returned bytes, which over runs are those of `Inbox.RecvReturns` |
| SocketService.Service.Send | snapshot/apps/system/sys_net.c:206-229 | `handle_sock_send` in place: status, both copies, emitted segments |
| SocketService.Service.Close | snapshot/apps/system/sys_net.c:231-248 | `handle_sock_close` in place |
| TxRing.FramesInOrder | snapshot/earth/dev_net.c:243-272 | Over every interleaving in which TDT is moved with fewer than 15 descriptors outstanding: `tx_index` = TDT, DD is clear exactly on [TDH, TDT) between calls, and frames leave in submission order, each once |
| TxRing.StartedWithRoom | snapshot/earth/dev_net.c:243-272 | It is enough that every `net_send` starts with fewer than 15 outstanding, since the device only makes room |
| TxRing.NextKeeps | snapshot/earth/dev_net.c:243-272 | Every access of the driver and every completion of the device preserves the ring invariant, as long as TDT moves into a ring with room |
| TxRing.DeviceBuffersStable | snapshot/earth/dev_net.c:255-263 | No step of `net_send` writes a buffer the device owns |
| TxRing.BoundIsExact | snapshot/earth/dev_net.c:266-271 | At the write of TDT, after any device activity during the call: the invariant survives if and only if fewer than 15 descriptors are outstanding; otherwise TDT meets TDH with 16 frames unsent |
| TxRing.StuckForever | snapshot/earth/dev_net.c:250-271 | From then on, whatever is called and however long the device runs, nothing leaves and no `net_send` returns |
| TxRing.SixteenthSend | snapshot/earth/dev_net.c:243-272 | Fifteen sends in a row from the initial ring reach that state with the sixteenth |
| RxRing.FramesInOrder | snapshot/earth/dev_net.c:274-300 | Over every interleaving: RDT = `rx_index` - 1 (mod 16), filled plus device-owned descriptors total 15, and the frames returned are the accepted frames in order, each once |
| RxRing.NextKeeps | snapshot/earth/dev_net.c:274-300 | Every access of the driver, every fill and every write of the device into a buffer it owns preserves the ring invariant |
| RxRing.UnreadStable | snapshot/earth/dev_net.c:274-300 | No device action changes a buffer that has not been read |
| RxRing.Fifteen | snapshot/earth/dev_net.c:205-222 | RDT one behind `rx_index` splits the ring into filled and device-owned parts of total 15 |
| TxDriver.Transmitter.NetSend | snapshot/earth/dev_net.c:243-272 | `net_send` on the ring in memory with the device acting in every gap: the frame is queued once, or the call ends in the spin loop with nothing written; the ring stays in order if fewer than 15 descriptors were outstanding, and is in order or stuck in any case |
| TxDriver.Transmitter.constructor | snapshot/earth/dev_net.c:173-193 | `e1000_tx_init` |
| RxDriver.Receiver.NetRecv | snapshot/earth/dev_net.c:274-300 | `net_recv` with the device acting in every gap: it returns the oldest accepted frame not yet returned, or nothing, and then the ring holds none |
| RxDriver.Receiver.constructor | snapshot/earth/dev_net.c:203-222 | `e1000_rx_init` |
| PageTable.EntryRoundTrip | snapshot/earth/mem_vm.c:65-69 | Decoding table and leaf entries (page number in bits 10 and up, flags below) by `(pte << 2) & ~0xfff` gives back every page of the address space |
| PageTable.LeafBits | snapshot/earth/mem_vm.c:20-28 | A word with the low bits 0xdf permits a user load, store and fetch: V, R, W, X, U, A and D tested bit by bit as section 4.3.2 of the RISC-V privileged specification does |
| PageTable.PointerBits | snapshot/earth/mem_vm.c:103-111 | A word with the low bits 1 points to the next level: V set, R, W and X clear |
| PageTable.FirstWord | snapshot/earth/mem_vm.c:190-192 | The word for the first allocatable page is 0x201000df |
| Spaces.Sv32Refines | snapshot/earth/mem_vm.c:190-192 | In every state the tables are kept in, the two-level Sv32 walk of section 4.3.2, permission bits included, translates each virtual page for load, store and fetch alike exactly as the abstract map does |
| Bits.AndPageMask | snapshot/earth/mem_vm.c:114-114 | The mask `~0xfff` clears exactly the low twelve bits |
| Bits.OrFlags | snapshot/earth/mem_vm.c:192-192 | Or with the flag bits is addition below bit 10 |
| Bits.OrOffset | snapshot/earth/mem_vm.c:230-230 | Or with the offset is addition below bit 12 |
| PageTable.TableKeeps | snapshot/earth/mem_vm.c:103-111 | A new L2 table keeps the tables owned and the data pages singly mapped, and changes no L2 entry any pid sees |
| PageTable.IdentityKeeps | snapshot/earth/mem_vm.c:74-77 | An identity entry keeps both invariants and owns no page |
| PageTable.AliasKeeps | snapshot/earth/mem_vm.c:190-192 | Mapping any page at all, owned or not, keeps the tables in order |
| PageTable.DataKeeps | snapshot/earth/mem_vm.c:190-192 | Mapping an allocated, unmapped page makes it data of that pid and keeps data pages singly mapped |
| PageTable.FreesExactly | snapshot/earth/mem_vm.c:273-281 | The test of `page_table_free` selects exactly the data pages not mapped at their own address; no identity-mapped page |
| VirtualMemory.FreeResult | snapshot/earth/mem_vm.c:239-289 | After the pages `page_table_free` selects are returned and the root is cleared: pages are conserved, the pid has no map, the other maps are unchanged, and the pid's whole share (root, L2 tables, data) is free if and only if none of its data pages was mapped at its own address |
| VirtualMemory.LeakedPage | snapshot/earth/mem_vm.c:277-281 | A reachable leak: a page is allocated, mapped by pid 6 at its own address and not returned when the page table is freed |
| PageTable.FreeKeeps | snapshot/earth/mem_vm.c:239-289 | After a free the allocated pages are again the disjoint union over the pids, and every other pid's entries are unchanged |
| Spaces.RegionsFitAndAreDisjoint | snapshot/earth/mem_vm.c:176-187 | The predefined identity regions are pairwise disjoint and each fits one L2 table |
| Spaces.RegionAddresses | snapshot/earth/mem_vm.c:176-187 | The identity regions as byte ranges: the shell's working-directory page for every pid, and for system processes also RAM, application pages, CLINT, UART, SD card, network device and flash |
| Spaces.MapArithmetic | snapshot/earth/mem_vm.c:124-126 | The virtual page and the physical address are the 32-bit products and sums of the source, wrap-around included |
| Spaces.LeafTranslation | snapshot/earth/mem_vm.c:190-192 | Writing one leaf adds exactly one pair to the abstract map of the Sv32 walk |
| VirtualMemory.Mmu.PageTableMap | snapshot/earth/mem_vm.c:122-193 | `page_table_map` on the words in memory, for every virtual page number and every physical page: refines one update of the abstract per-pid map (identity regions included on first use); earlier mappings and other pids are as before; it fails only for an illegal pid, a page already mapped or an exhausted pool, using at most ten pages; pages stay conserved if the page was allocated and unmapped |
| VirtualMemory.Mmu.MapMany | snapshot/earth/mem_vm.c:122-193 | Any sequence of calls refines the same sequence of abstract updates, and conserves pages if each call maps an allocated page of its own |
| VirtualMemory.Mmu.WalkAlloc | snapshot/earth/mem_vm.c:95-118 | `walk` with allocation changes no translation of any pid |
| VirtualMemory.Mmu.SetupIdentityRegion | snapshot/earth/mem_vm.c:52-78 | The loop maps every page of the region to itself and nothing else |
| VirtualMemory.Mmu.PageTableTranslate | snapshot/earth/mem_vm.c:220-232 | For every virtual address: the mapped page plus the offset, or failure when the abstract map has no entry |
| VirtualMemory.Mmu.PageTableFree | snapshot/earth/mem_vm.c:239-289 | The nested loops return each page once, remove the pid's map and change no other; the whole share of the pid is returned if and only if none of its data pages is mapped at its own address; nothing happens without a page table |
| VirtualMemory.Mmu.FreeTable | snapshot/earth/mem_vm.c:263-285 | One turn of the outer loop returns the data pages of that table and the table, each once |
| Arp.UpdateRefines | snapshot/library/uip/uip_arp.c:158-218 | For every announcement, whatever address it is for and whatever else the cache holds: addresses with both halves nonzero stay stored at most once, and on them the update is a map update that evicts one address only when no entry is unused and the new one is not known |
| Arp.RunKeeps | snapshot/library/uip/uip_arp.c:158-218 | So over every sequence of announcements |
| Arp.OldestIsOldest | snapshot/library/uip/uip_arp.c:199-211 | The evicted entry has the largest age, the `int` difference of the 8-bit clocks, if some age is positive; otherwise it is entry 0 |
| Arp.StoredOnce | snapshot/library/uip/uip_arp.c:158-218 | Announced twice to any cache that holds it at most once, a nonzero address is stored at most once if and only if both halves are nonzero, or entry 0 is the only one that may be overwritten and no other entry holds the address |
| Arp.StoredTwice | snapshot/library/uip/uip_arp.c:168-174 | 10.1.0.0 announced twice to an empty cache occupies two entries |
| ArpExchange.UpdateResolves | snapshot/library/uip/uip_arp.c:158-218 | After an update the address resolves to the new MAC: always if both halves are nonzero, and after a miss for every address |
| ArpExchange.Exchange | snapshot/library/uip/uip_arp.c:278-324 | For two hosts on one subnet, all addresses and any pair of tables: a miss makes `uip_arp_out` broadcast a request, the answer goes to the requester, and the requester's next packet carries the responder's MAC |
| ArpExchange.ResponderLearns | snapshot/library/uip/uip_arp.c:291-296 | The responder's next packet to the requester carries the requester's MAC |
| ArpExchange.OffSubnet | snapshot/library/uip/uip_arp.c:370-405 | A packet to another subnet goes to the MAC of the default router, or becomes a request for the router's address |
| ArpExchange.BroadcastOut | snapshot/library/uip/uip_arp.c:366-367 | A packet to the broadcast address goes to the broadcast MAC without a lookup |
| ArpExchange.Answers | snapshot/library/uip/uip_arp.c:287-321 | Exactly requests for the host's own address are answered, to the requester, with the host's addresses |
| ArpExchange.NotForUs | snapshot/library/uip/uip_arp.c:287-321 | An ARP packet for another host changes nothing |
| ArpTable.Cache.ArpUpdate | snapshot/library/uip/uip_arp.c:158-218 | `uip_arp_update` in place |
| ArpTable.Cache.Find | snapshot/library/uip/uip_arp.c:380-385 | The lookup loop of `uip_arp_out` |
| Mlfq.NeverTwice | snapshot/grass/mlfq.c:100-147 | Over every sequence of `mlfq` and `mlfq_update` calls, statuses and times changing freely in between, no process is queued twice |
| Mlfq.PickPriority | snapshot/grass/mlfq.c:41-48 | A pick is runnable and bypasses no runnable process in a higher queue; when nothing is runnable it returns 0 and every queue is as it was |
| Mlfq.DequeueCounts | snapshot/grass/mlfq.c:21-39 | Rotation loses and duplicates nobody but the chosen entry |
| Mlfq.BoundedWaiting | snapshot/grass/mlfq.c:21-147 | Over every sequence of `mlfq` and `mlfq_update` calls: a process at position k of its queue that stays runnable and is not moved itself is chosen within k + 1 picks made from that queue, whatever happens to the others |
| Mlfq.TopWaiting | snapshot/grass/mlfq.c:21-147 | In the top queue, k + 1 calls of `mlfq` are enough |
| Mlfq.SystemStaysOnTop | snapshot/grass/mlfq.c:50-147 | Over every sequence of calls no system process (pid below 6) is ever in the middle or lower queue, as lines 86-87 require |
| Mlfq.Placed | snapshot/grass/mlfq.c:50-76 | After ON_ARRIVE or ON_SCHED_OUT a used process is queued once, at the end of the top queue if it is a system process or has run at most 6,000,000, of the middle queue below 12,000,000, and of the lower queue from there on; an unused one is not queued |
| Mlfq.LongerIsLower | snapshot/grass/mlfq.c:50-60 | More accumulated time never gives a higher queue |
| Mlfq.TakenOut | snapshot/grass/mlfq.c:135-143 | After ON_SCHED_IN or ON_STOP the process is in no queue |
| Mlfq.PickStatus | snapshot/grass/mlfq.c:33-48 | A pick is READY or RUNNABLE, and 0 means that no queued process is |
| Mlfq.CurrentKept | snapshot/grass/mlfq.c:100-118 | A current process that may run on ends up chosen or queued if and only if it is RUNNABLE, or READY and another process could run, or RUNNING and none could |
| Mlfq.ReadyAloneDropped | snapshot/grass/mlfq.c:104-110 | A READY process alone is removed and nothing is chosen |
| Mlfq.RunningDropped | snapshot/grass/mlfq.c:104-117 | A RUNNING process is in no queue after another one was picked |
| Mlfq.OthersKept | snapshot/grass/mlfq.c:100-118 | Every other process stays queued unless it is the one chosen, which leaves the queues |
| Scheduler.Queue.DequeueRunnable | snapshot/grass/mlfq.c:21-39 | The rotation loop returns the first runnable entry with those passed over moved to the back, or restores the exact order |
| Scheduler.Queue.TryRemove | snapshot/grass/mlfq.c:15-19 | Removes the first occurrence and keeps the order of the rest |
| Scheduler.Scheduler.Run | snapshot/grass/mlfq.c:100-118 | `mlfq` on the three queues in memory |
| Scheduler.Scheduler.OnTransition | snapshot/grass/mlfq.c:123-147 | `mlfq_update` on the three queues in memory, with the placement of `Mlfq.Placed` |

## Left out

- `uip_stop` and `uip_restart`: the macros are never expanded, so `UIP_STOPPED` is never set.
- Urgent data: segments are taken with URG clear, since the code moves `uip_appdata` by an unchecked offset otherwise.
- Malformed SYN options: option lengths stay inside the header, since the source's cursor is an 8-bit counter that may wrap; frames fit `uip_buf` and their IP length covers the headers.
- UDP, IP reassembly and IPv6 (compiled out), `uip_unlisten`, statistics, logging, and the values of IP identification (a parameter).
- Sequence numbers are kept as numbers in a connection; that the byte arrays of the source compute the same numbers is proved separately (`Words.AddBytes`, `Words.IncrementBytes`).
- Sender.ReceiveSends: stops at the first FIN or RST, because a close taken on a new-data event overwrites `len`; the two-endpoint theorem therefore has the same scope, and streams below 2^32 bytes.
- Composition.EndToEnd: assumes that an application with bytes in flight offers those bytes again or none, the contract uIP documents for retransmission; `ServedStream.ServiceEndToEnd` removes the assumption for a host that runs the socket service, and keeps it for the peer.
- SocketStable.RetransmissionStability: takes TCP frames of one connection, the service's own scope, since the callback keeps one transmit buffer for all connections (`CarriedOver.SharedBuffer`), and requests of at most `UIP_APPDATA_SIZE` bytes, since longer ones exceed the payload room of the packet buffer. The periodic timer is included although the service does not drive it.
- ServedStream.ServiceEndToEnd: has the same scope.
- SocketService.Service.Send: takes requests of at most `UIP_APPDATA_SIZE` bytes, for the same reason.
- UipEngine.Uip.ParseMss: takes options whose lengths stay inside the header.
- Inbox.RecvReturns: the receive side keeps one payload; unread data is overwritten by newer data, and what a short `length` leaves of a payload is dropped.
- The round-trip estimate is modelled as the source computes it, and no property of its values, or of the timer it sets, is claimed.
- `sock_tx_buf` is passed through within one handler and not kept as state; `handle_net_send` and `handle_net_recv` are raw pass-through and are left out.
- Bytes of the packet buffer left over from earlier packets are a parameter of each call.
- Timeout.GivesUpAfter: counts ticks of one connection; how often the timer is driven is outside the model.
- The E1000 register set, multi-descriptor frames, DMA barriers and PCI set-up; the spin bound of `net_send` is the length of a list of polls.
- VirtualMemory.Mmu.PageTableMap: physical memory is a sequence of pages that is reassigned, page allocation is an arbitrary choice from the free set, and a failed `ASSERT` or `FATAL`, where the machine stops, is a false result.
- VirtualMemory.Mmu.PageTableFree: requires that data pages are mapped once, since a page mapped twice would be freed twice.
- `page_table_switch`, `satp`, `fence` and PMP set-up.
- ARP ageing (`uip_arp_timer`): the 8-bit clock difference gives no guarantee once it wraps, and the service never calls it.
- Arp.StoredOnce: takes both announcements at one reading of the clock.
- `queue.h`, `pid2idx` and the process table are not part of this model: queues are sequences of pids, and status and accumulated time are functions of the pid.
- Liveness of the network (that a retransmitted segment eventually arrives) is not modelled.
