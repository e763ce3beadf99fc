# Remy congestion control and its simulation utilities, modelled in Dafny

This project models the deterministic core of an ns-3 based research
repository built around Remy, a learned, table-driven TCP congestion
controller, together with the small pieces of plumbing around it.

- **Remy controller** (`memory.dfy`, `memoryrange.dfy`, `whisker.dfy`,
  `packet.dfy`, `tcpremy.dfy`, `tcpsocket.dfy`). The flow `Memory` is a class
  with nine running averages, last ticks, the minimum RTT and the last
  sequence number, updated in place per acknowledged packet
  (`PacketsReceived`) or from summary statistics (`Update`). A `MemoryRange`
  is a half-open box over the active axes; a `Whisker` pairs a range with an
  action (window increment, window multiple, intersend). `TcpRemy` is the
  per-connection state machine: it latches "real data acked", suppresses
  sending while idle or not bootstrapped, feeds one `RemyPacket` per ACK into
  the memory, applies the matching rule's window law capped at 16384
  segments, and switches pacing on or off with the intersend time.
- **TcpNoCca** (`tcpnocca.dfy`): the controller that opens the window to the
  largest 32-bit value and otherwise does nothing.
- **INT codecs** (`intheader.dfy`, `intpackettag.dfy`, `bytes.dfy`): the
  9-byte in-band network telemetry header, whose 32-bit fields are in
  network byte order (most significant byte first), and the packet tag,
  whose fields `TagBuffer::WriteU32` writes least significant byte first;
  their encoders and decoders and the round trips between them.
- **Tracing utilities** (`tracing.dfy`): flow-id bit packing and the score
  tracker counters (packets, delay, worst delay, time-weighted share).
- **Simulated topologies** (`topology.dfy`, `topology-build.dfy`): nodes,
  links, subnet and port allocation, the configuration factories, and the
  dumbbell, line and fat-tree (datacenter) builders with their traffic
  matrices.
- **Network configurations** (`networkconfig.dfy`): sampling a parameter on
  its grid, generating a batch of configurations, and their textual form.
- **Topology setup** (`topologysetup.dfy`): splitting a buffer between the
  device queue and the queue discipline.
- **Analysis scripts** (`commonanalysis.dfy`, `text.dfy`): the Python
  parsers that read back the simulator's own output (memory strings,
  configuration lines, whisker statistics, sub-scores and scores) and the
  variance helper.

Shared modules: `wrappers.dfy` (Option and Result), `machine.dfy` (fixed-width integer
conversions written out explicitly), `text.dfy` (decimal rendering and
parsing, splitting and stripping of strings).

Doubles are modelled as exact `real`s; fixed-width integers are `nat`/`int`
with their wrap-around or truncation written out where the code relies on
it. Objects whose fields the code updates in place (`Memory`, `TcpRemy`,
`TcpSocketState`, `IntHeader`, `IntPacketTag`, `AllScoreTracker`,
`Topology`) are classes with `modifies` frames; values are datatypes.

## Model

| member | source | states |
|---|---|---|
| ByteCodec.BigEndian32 | src/point-to-point/model/int-header.cc:54-55 | a 32-bit field is written as four bytes, most significant first (network order, as `WriteHtonU32` writes it) |
| ByteCodec.BigEndianRoundTrip | src/point-to-point/model/int-header.cc:54-63 | reading four bytes written in network order gives back the field |
| ByteCodec.BigEndianReEncode | src/point-to-point/model/int-header.cc:62-63 | any four bytes read in network order and written again are the same four bytes |
| ByteCodec.LittleEndian32 | src/network/model/int-packet-tag.cc:113-114 | a 32-bit field in a tag buffer is four bytes, least significant first |
| ByteCodec.LittleEndianRoundTrip | src/network/model/int-packet-tag.cc:113-122 | reading four bytes written in tag-buffer order gives back the field |
| ByteCodec.LittleEndianReEncode | src/network/model/int-packet-tag.cc:121-122 | any four bytes read in tag-buffer order and written again are unchanged |
| ByteCodec.OrdersAreReversed | src/point-to-point/model/int-header.cc:54 | the header's byte order is the reversal of the tag's byte order for the same value |
| ByteCodec.BoolByte | src/point-to-point/model/int-header.cc:56 | the lock flag is written as the byte 1 when set and 0 when clear |
| IntHeaders.EncodeHeader | src/point-to-point/model/int-header.cc:51-57 | the header is nine bytes: queue, link (network order), then the lock byte |
| IntHeaders.DecodeHeader | src/point-to-point/model/int-header.cc:59-66 | queue and link are read in network order from bytes 0-3 and 4-7; the lock is set exactly when byte 8 is non-zero |
| IntHeaders.HeaderRoundTrip | src/point-to-point/model/int-header.cc:51-66 | deserializing a serialized header restores queue, link and lock |
| IntHeaders.HeaderReEncode | src/point-to-point/model/int-header.cc:51-66 | nine bytes survive a read and re-write unchanged if and only if their lock byte is 0 or 1 |
| IntHeaders.IntHeader.constructor | src/point-to-point/model/int-header.cc:14-16 | a new header has no field set yet (the members have no initialiser) |
| IntHeaders.IntHeader.SerializedSize | src/point-to-point/model/int-header.cc:45-49 | the header occupies two 32-bit fields plus one byte |
| IntHeaders.IntHeader.SetQueue | src/point-to-point/model/int-header.cc:68-72 | the queue field takes the value; link and lock are unchanged |
| IntHeaders.IntHeader.SetLink | src/point-to-point/model/int-header.cc:80-84 | the link field takes the value; queue and lock are unchanged |
| IntHeaders.IntHeader.SetLock | src/point-to-point/model/int-header.cc:92-96 | the lock takes the value; queue and link are unchanged |
| IntHeaders.IntHeader.GetQueue | src/point-to-point/model/int-header.cc:74-78 | returns the stored queue field |
| IntHeaders.IntHeader.GetLink | src/point-to-point/model/int-header.cc:86-90 | returns the stored link field |
| IntHeaders.IntHeader.GetLock | src/point-to-point/model/int-header.cc:98-102 | returns the stored lock |
| IntHeaders.IntHeader.Serialize | src/point-to-point/model/int-header.cc:51-57 | once every field is set, writes exactly the header's nine-byte encoding |
| IntHeaders.IntHeader.Deserialize | src/point-to-point/model/int-header.cc:59-66 | the fields become the decoding of the first nine bytes and the size consumed is the serialized size |
| IntHeaders.RoundTrip | src/point-to-point/model/int-header.cc:51-66 | a header serialized and deserialized into a fresh header carries the same three fields |
| IntPacketTags.EncodeTag | src/network/model/int-packet-tag.cc:109-116 | the tag is nine bytes: queue, link (least significant byte first), then the lock byte |
| IntPacketTags.DecodeTag | src/network/model/int-packet-tag.cc:117-124 | queue and link are read from bytes 0-3 and 4-7; the lock is set exactly when byte 8 is non-zero |
| IntPacketTags.TagRoundTrip | src/network/model/int-packet-tag.cc:109-124 | deserializing a serialized tag restores queue, link and lock |
| IntPacketTags.TagReEncode | src/network/model/int-packet-tag.cc:109-124 | nine bytes survive a read and re-write unchanged if and only if their lock byte is 0 or 1 |
| IntPacketTags.LinkConverted | src/network/model/int-packet-tag.cc:51-56 | the converted utilisation times the conversion factor is the link statistic, and it is never negative |
| IntPacketTags.IntPacketTag.constructor | src/network/model/int-packet-tag.h:91-94 | a new tag has zero statistics, is unlocked and has conversion factor 10000 |
| IntPacketTags.IntPacketTag.SerializedSize | src/network/model/int-packet-tag.cc:102-107 | the tag occupies two 32-bit fields plus one byte |
| IntPacketTags.IntPacketTag.SetQueue | src/network/model/int-packet-tag.cc:23-28 | the queue field takes the value; the other fields are unchanged |
| IntPacketTags.IntPacketTag.SetLink | src/network/model/int-packet-tag.cc:37-42 | the link field takes the value; the other fields are unchanged |
| IntPacketTags.IntPacketTag.SetLock | src/network/model/int-packet-tag.cc:65-70 | the lock takes the value; the other fields are unchanged |
| IntPacketTags.IntPacketTag.GetQueue | src/network/model/int-packet-tag.cc:30-35 | returns the stored queue field |
| IntPacketTags.IntPacketTag.GetLink | src/network/model/int-packet-tag.cc:44-49 | returns the stored link field |
| IntPacketTags.IntPacketTag.GetLock | src/network/model/int-packet-tag.cc:72-77 | returns the stored lock |
| IntPacketTags.IntPacketTag.GetConversionFactor | src/network/model/int-packet-tag.cc:58-63 | returns the stored conversion factor |
| IntPacketTags.IntPacketTag.GetLinkConverted | src/network/model/int-packet-tag.cc:51-56 | returns the link statistic divided by the conversion factor |
| IntPacketTags.IntPacketTag.Serialize | src/network/model/int-packet-tag.cc:109-116 | writes exactly the tag's nine-byte encoding |
| IntPacketTags.IntPacketTag.Deserialize | src/network/model/int-packet-tag.cc:117-124 | the three fields become the decoding of the first nine bytes; the conversion factor is not on the wire and stays |
| IntPacketTags.FreshTagConvertsToZero | src/network/model/int-packet-tag.cc:12-16 | a freshly constructed tag reports a converted link utilisation of 0 |
| Packets.WithoutStats | src/internet/model/remy/packet.hh:12-14 | the three-argument constructor copies ticks and sequence number and sets both in-band statistics to 0 |
| Packets.ConstructorsAgree | src/internet/model/remy/packet.hh:12-18 | the two constructors agree on every field except the two statistics |
| MemoryRanges.MemoryRange.Str | src/internet/model/remy/memoryrange.cc:21-28 | the text starts with `(lo: <`, fits the 512-byte buffer, and when it is not cut it is both bounds' renderings in the `(lo: <...> hi: <...>)` frame |
| MemoryRanges.ContainsIff | src/internet/model/remy/memoryrange.cc:5-8 | a memory is in a range exactly when each of its active axes lies in [lower, upper) |
| MemoryRanges.UpperExcluded | src/internet/model/remy/memoryrange.cc:5-8 | the upper corner of a range is never inside it |
| MemoryRanges.LowerIncluded | src/internet/model/remy/memoryrange.cc:5-8 | the lower corner is inside the range whenever it lies below the upper corner |
| MemoryRanges.InvertedAxisEmpty | src/internet/model/remy/memoryrange.cc:5-8 | a range inverted on an active axis contains no memory |
| MemoryRanges.AdjacentDisjoint | src/internet/model/remy/memoryrange.cc:5-8 | two ranges that meet on an axis never both hold a memory for which that axis is active |
| MemoryRanges.EqualsIff | src/internet/model/remy/memoryrange.cc:10-13 | range equality holds exactly when both bounds agree on their active axes (the median estimator is ignored) |
| MemoryRanges.EqualsReflexive | src/internet/model/remy/memoryrange.cc:10-13 | every range equals itself |
| Whiskers.Whisker.Window | src/internet/model/tcp-remy.cc:135 | the new window is the increment plus the multiple times the old window, rounded down, and 0 when that is negative |
| Whiskers.Whisker.ActionText | src/internet/model/remy/whisker.cc:15-19 | the action text starts `(win: ` and shows increment, multiple (6 decimals) and intersend (2 decimals) |
| Whiskers.Whisker.Str | src/internet/model/remy/whisker.cc:15-19 | the text starts with `{`, fits the 500-byte buffer, and uncut it is `{domain} => action (used: N)` |
| Whiskers.NewWhisker | src/internet/model/remy/whisker.cc:7-13 | the constructor copies increment, multiple, intersend and domain and starts with a use count of 0 |
| Whiskers.WindowAtLeastIncrement | src/internet/model/tcp-remy.cc:135 | with a non-negative increment and multiple, the new window is never below the increment |
| Whiskers.FindFrom | src/internet/model/tcp-remy.cc:131 | the result is the first rule at or after the start whose domain holds the memory; none means no later rule holds it |
| Whiskers.UseWhisker | src/internet/model/tcp-remy.cc:131 | the rule found holds the memory and no earlier rule does; none exactly when no rule holds it |
| Whiskers.UniqueRule | src/internet/model/tcp-remy.cc:131 | in a table whose domains do not overlap, the lookup finds the one rule whose domain holds the memory |
| TcpRemyControl.Decide | src/internet/model/tcp-remy.cc:135-146 | the window is the rule's window capped at 16384 segments, and the intersend time is the rule's intersend times memory field 1 |
| TcpRemyControl.PacingRate | src/internet/model/tcp-remy.cc:156 | for a positive intersend time the `DataRate` is the quotient of one segment's bits times one million by the intersend time, cut to whole bits per second: rate × intersend ≤ bits × 10^6 < (rate + 1) × intersend |
| TcpRemyControl.Applied | src/internet/model/tcp-remy.cc:141-158 | applying a decision sets the socket window to the window in segments times the segment size (as a `uint32_t`), turns pacing on exactly when the intersend time is non-zero, then sets the truncated pacing rate (otherwise the old rate stays), and changes no other socket field |
| TcpRemyControl.RemySeqNo | src/internet/model/tcp-remy.cc:262 | the sequence number is acknowledged bytes over segment size, cast to a C `int` (its 32-bit pattern is the quotient) |
| TcpRemyControl.AckSample | src/internet/model/tcp-remy.cc:259-266 | the sample's round-trip time is the echo time in microseconds; received at the delivery time; carries the sequence number and the two in-band statistics |
| TcpRemyControl.CountAck | src/internet/model/tcp-remy.cc:188-196 | the data latch is set when it was or the ack acked data; the packet counter counts data acks; the last count is stored |
| TcpRemyControl.LatchStaysSet | src/internet/model/tcp-remy.cc:195 | once set, the data latch stays set whatever acknowledgements follow |
| TcpRemyControl.LatchIff | src/internet/model/tcp-remy.cc:195 | after a run of acknowledgements the latch is set exactly when it was set before or some ack acked data |
| TcpRemyControl.TcpRemy.constructor | src/internet/model/tcp-remy.cc:36-77 | a new controller holds the given rules, an empty memory, cleared counters and latch, and is not idle; the window and intersend members are left as the constructor leaves them |
| TcpRemyControl.TcpRemy.Name | src/internet/model/tcp-remy.cc:119-123 | the name is `TcpRemy` |
| TcpRemyControl.TcpRemy.UpdateCwndAndPacing | src/internet/model/tcp-remy.cc:125-160 | succeeds exactly when some rule holds the memory; then the controller's window and intersend time are the decision's and the socket is the decision applied to it (window, pacing switch, truncated rate; every other socket field kept); on failure nothing changes; the latch, counters and idle flag never change |
| TcpRemyControl.TcpRemy.IncreaseWindow | src/internet/model/tcp-remy.cc:162-167 | leaves the socket state unchanged |
| TcpRemyControl.TcpRemy.CongestionStateSet | src/internet/model/tcp-remy.cc:205-209 | leaves the socket state unchanged |
| TcpRemyControl.TcpRemy.GetSsThresh | src/internet/model/tcp-remy.cc:198-203 | returns the socket's existing slow-start threshold |
| TcpRemyControl.TcpRemy.NotifyIdle | src/internet/model/tcp-remy.cc:181-186 | records the idle flag and nothing else |
| TcpRemyControl.TcpRemy.PktsAcked | src/internet/model/tcp-remy.cc:188-196 | the counters move as the acknowledgement step says; window, idle flag and intersend time are unchanged |
| TcpRemyControl.TcpRemy.Reset | src/internet/model/tcp-remy.cc:169-179 | the memory is emptied and the latch cleared, counters and idle flag kept; it succeeds exactly when a rule holds the empty memory, and then the decision from a zero window is applied to the socket and the initial window is the new window in segments; otherwise the window member is 0 and the socket is unchanged |
| TcpRemyControl.TcpRemy.Init | src/internet/model/tcp-remy.cc:211-220 | the memory, latch, counters and idle flag are kept; pacing and pacing of the initial window are switched on; it succeeds exactly when a rule holds the memory, and then the decision from a zero window is applied and the initial window is the new window in segments; otherwise the window member is 0 and no other socket field changes |
| TcpRemyControl.TcpRemy.CongControl | src/internet/model/tcp-remy.cc:237-283 | latch, counters and idle flag never change; before data was acked, or while idle, only pacing (off) and the socket window (0) change; otherwise pacing is switched on, exactly the one acknowledgement sample is fed into the memory, a failed sample stops there, and the rule for the new memory is applied as `UpdateCwndAndPacing` applies it |
| TcpRemyControl.PacingOffIff | src/internet/model/tcp-remy.cc:146-152 | pacing is switched off exactly when the rule's intersend or memory field 1 is zero |
| TcpNoCcaControl.TcpNoCca.Name | src/internet/model/tcp-nocca.cc:45-49 | the name is `TcpNoCca` |
| TcpNoCcaControl.TcpNoCca.CongControl | src/internet/model/tcp-nocca.cc:85-88 | the window becomes the largest `uint32_t` and nothing else in the socket changes |
| TcpNoCcaControl.TcpNoCca.GetSsThresh | src/internet/model/tcp-nocca.cc:64-70 | returns the socket's existing slow-start threshold |
| TcpNoCcaControl.TcpNoCca.IncreaseWindow | src/internet/model/tcp-nocca.cc:51-55 | leaves the socket state unchanged |
| TcpNoCcaControl.TcpNoCca.PktsAcked | src/internet/model/tcp-nocca.cc:57-62 | leaves the socket state unchanged |
| TcpNoCcaControl.TcpNoCca.CongestionStateSet | src/internet/model/tcp-nocca.cc:72-76 | leaves the socket state unchanged |
| RemyMemory.Divide | src/internet/model/remy/memory.cc:44 | a double quotient is finite exactly when the divisor is non-zero, then times the divisor gives the dividend; it is +inf exactly for a positive number over zero |
| RemyMemory.Statistics.WithField | src/internet/model/remy/memory.hh:73 | writing through `mutable_field(i)` changes exactly the statistic `field(i)` reads (every index from 8 on is the link statistic) |
| RemyMemory.Statistics.Rendered | src/internet/model/remy/memory.cc:78-83 | `str` prints nine `name=value` items, in field order, each value with six decimals |
| RemyMemory.Slot | src/internet/model/remy/memory.hh:72 | index `i` addresses statistic `i` below 8 and the ninth statistic from 8 on |
| RemyMemory.MemoryState.Str | src/internet/model/remy/memory.cc:78-83 | the text is a prefix of the nine items joined by ", ", the whole of it when it fits the 512-byte buffer |
| RemyMemory.Zero | src/internet/model/remy/memory.hh:52-68 | the default memory: every statistic, tick, min rtt and sequence tracker zero, no losses |
| RemyMemory.FromData | src/internet/model/remy/memory.hh:34-50 | the vector constructor fails (`std::vector::at` throws) exactly when the vector has fewer than nine values; otherwise statistics 0-8 are its first nine values, trackers zero, no losses |
| RemyMemory.NoAxesCompareTrue | src/internet/model/remy/memory.hh:82-93 | with no active axis `>=`, `<` and `==` all hold, so `<` is not the negation of `>=` |
| RemyMemory.LtExcludesGe | src/internet/model/remy/memory.hh:82-89 | with at least one active axis, `<` excludes `>=` |
| RemyMemory.IncomparableMemories | src/internet/model/remy/memory.hh:82-89 | two memories on two axes can be neither `>=` nor `<` each other |
| RemyMemory.GeIgnoresInactiveWrite | src/internet/model/remy/memory.hh:73-85 | writing a statistic outside the active axes leaves `>=` unchanged |
| RemyMemory.Receive | src/internet/model/remy/memory.cc:17-55 | one sample keeps the active-axis count and loss queue and never lowers the highest sequence number seen |
| RemyMemory.ReceiveBootstrap | src/internet/model/remy/memory.cc:19-23 | while a tick is still zero, a sample cannot fail, moves no statistic and restarts ticks and min rtt from the sample |
| RemyMemory.ReceiveFails | src/internet/model/remy/memory.cc:43-45 | any other sample fails exactly when its rtt over the new min rtt does not pass the `>= 1` assertion |
| RemyMemory.ReceiveEffects | src/internet/model/remy/memory.cc:25-54 | an accepted later sample sets the min rtt to the smaller of the old one and the sample's rtt, sets `_rtt_ratio` to the sample's rtt over that new min rtt capped at 16380 (at least 1, and +inf capped to 16380), blends the send and receive gaps into their averages with weight 1/8 and the receive gap into the slow average with weight 1/256, each capped at 16380, blends the loss flag into the loss average with weight 1/8, keeps the largest sequence number and ticks, takes the queue statistic and blends the link statistic, and leaves the rtt difference and queueing delay alone |
| RemyMemory.ReceiveKeepsBounds | src/internet/model/remy/memory.cc:28-53 | a sample keeps the averages and ratio at most 16380 and the loss average in [0, 1] |
| RemyMemory.PositiveRttAccepted | src/internet/model/remy/memory.cc:43-45 | with a positive min rtt every sample with a positive rtt passes the assertion |
| RemyMemory.ReceiveAllKeepsBounds | src/internet/model/remy/memory.cc:15-57 | over any run of samples the bounded statistics stay bounded |
| RemyMemory.ReceiveAllPreserves | src/internet/model/remy/memory.cc:15-57 | over any run of samples the highest sequence number never decreases and rtt difference, queueing delay, axis count and loss queue are untouched |
| RemyMemory.ReceiveAllSplit | src/internet/model/remy/memory.cc:17 | feeding two batches one after the other is feeding their concatenation, and a failure in the first stops both |
| RemyMemory.TwoSamplesFromZero | src/internet/model/remy/memory.cc:19-23 | from a fresh memory, a first sample sent at tick 0 leaves the send tick 0, so the second sample is again only a restart |
| RemyMemory.RatioAtLeastOne | src/internet/model/remy/memory.cc:44-45 | a finite quotient passes the `>= 1` assertion exactly when dividend and divisor have the same sign and the dividend is at least as large in magnitude |
| RemyMemory.Summarize | src/internet/model/remy/memory.cc:60-76 | `update` succeeds exactly when both assertions hold; then the rates blend in (not on the first summary), loss is capped at 20, min rtt, ratio and rtt difference come from the two rtts, the queueing delay is the receive average times the packets in flight capped at 163839, and the receive average is capped at 163839 |
| RemyMemory.QueueingDelayCapOrder | src/internet/model/remy/memory.cc:73-75 | capping the receive average before or after deriving the queueing delay gives the same delay |
| RemyMemory.Memory.constructor | src/internet/model/remy/memory.hh:52-68 | a new memory is the all-zero memory |
| RemyMemory.Memory.FromVector | src/internet/model/remy/memory.hh:34-50 | no memory comes back exactly when the vector is shorter than nine values; otherwise a fresh memory holding what the vector constructor gives |
| RemyMemory.Memory.Reset | src/internet/model/remy/memory.hh:70 | after `reset` the memory is the all-zero memory whatever it held |
| RemyMemory.Memory.SetField | src/internet/model/remy/memory.hh:73 | the write changes exactly the statistic `field(i)` reads |
| RemyMemory.Memory.ReceiveOne | src/internet/model/remy/memory.cc:17-55 | one loop iteration of `packets_received` leaves the memory as the one-sample step says, and fails exactly when that step fails |
| RemyMemory.Memory.PacketsReceived | src/internet/model/remy/memory.cc:15-57 | the memory after `packets_received` is the samples folded in order, and it fails exactly when some sample fails the assertion |
| RemyMemory.Memory.Update | src/internet/model/remy/memory.cc:60-76 | the memory after `update` is the summary step's result, and it fails exactly when the summary is not accepted |
| Tracing.FlowIdHalves | scratch/utils/tracing-utils.cc:4-7 | the low 16 bits of the id are the destination's low 16 bits, and for a destination below 2^16 the high half is the source's low 16 bits |
| Tracing.DeserializeFlowId | scratch/utils/tracing-utils.cc:9-15 | source and destination are both below 2^16 and the id is source times 2^16 plus destination |
| Tracing.FlowIdRoundTrip | scratch/utils/tracing-utils.cc:4-15 | for source and destination below 2^16, decoding the packed id gives back the pair |
| Tracing.FlowIdReEncode | scratch/utils/tracing-utils.cc:4-15 | every 32-bit id is the packing of the pair it decodes to |
| Tracing.FlowIdBleed | scratch/utils/tracing-utils.cc:4-7 | with no masking, destination 65536 collides with source 1, and source 65536 is shifted out entirely |
| Tracing.NewFlowScoreTracker | scratch/utils/tracing-utils.cc:129-139 | a new flow tracker has zero totals, is switched off and carries its node id |
| MachineInts.ToU64 | scratch/utils/tracing-utils.cc:297 | the `(uint64_t)` cast of a non-negative double below 2^64 truncates it toward zero |
| Tracing.FairShare | scratch/utils/tracing-utils.cc:291 | each switched-on flow's share times the number of flows on is the bandwidth times the elapsed time |
| Tracing.Accrue | scratch/utils/tracing-utils.cc:294-300 | a switched-off tracker is untouched; a switched-on one adds the truncated share to its truncated share modulo 2^64 and, during a period, the elapsed time to its on-time; nothing else changes |
| Tracing.AccrueAll | scratch/utils/tracing-utils.cc:292-301 | every tracker, under the same key, accrues the period |
| Tracing.OnFlows | scratch/utils/tracing-utils.cc:294 | a key is listed exactly when its tracker exists and is switched on |
| Tracing.AccrueKeepsOnFlows | scratch/utils/tracing-utils.cc:292-301 | accruing never switches a flow on or off |
| Tracing.ShareUpdated | scratch/utils/tracing-utils.cc:289-307 | after an on/off event the same flows are tracked, the event's flow takes the new state and every other flow keeps its state |
| Tracing.ShareUpdateKeepsOnCount | scratch/utils/tracing-utils.cc:306-316 | when the counter equals the number of flows on and the event really toggles its flow, the counter still equals that number afterwards |
| Tracing.AllScoreTracker.constructor | scratch/utils/tracing-utils.cc:201-208 | a new tracker has no flows, no flow on, last change at 0 and the given bandwidth and flow total |
| Tracing.AllScoreTracker.Track | scratch/utils/tracing-utils.cc:343-344 | registering a flow stores a fresh tracker under its key, replacing any earlier one |
| Tracing.AllScoreTracker.UpdatePacketsAndDelay | scratch/utils/tracing-utils.cc:256-275 | a tracked flow counts one more packet (modulo 2^64), adds the delay to its total and keeps the largest delay; an untracked key changes nothing |
| Tracing.AllScoreTracker.AccrueEach | scratch/utils/tracing-utils.cc:292-301 | the loop over the trackers leaves them exactly as accruing all of them says |
| Tracing.AllScoreTracker.UpdateShare | scratch/utils/tracing-utils.cc:285-317 | the trackers after an on/off event are as the event step says, the last change is now, the counter moves by one in the event's direction and keeps counting the flows that are on |
| Tracing.AllScoreTracker.UpdateShareFinal | scratch/utils/tracing-utils.cc:319-333 | with no flow on nothing changes; otherwise every flow on is credited its share up to the end time, without on-time |
| Tracing.FinalAccrualOnlyShare | scratch/utils/tracing-utils.cc:319-333 | the final accrual leaves the on-time alone and changes the share only of flows that are on |
| NetworkConfigs.Advance | scratch/utils/network-config.hh:68 | one draw of the standard library's default engine (multiplier 16807 modulo 2^31-1) stays below the modulus |
| NetworkConfigs.AdvanceBy | scratch/utils/network-config.cc:14-24 | after at least one draw the engine state is below the modulus |
| NetworkConfigs.AdvanceByAdds | scratch/utils/network-config.cc:14-24 | `a` draws followed by `b` draws are `a + b` draws |
| NetworkConfigs.SeedState | scratch/utils/network-config.hh:68 | a seeded engine's state is the seed modulo 2^31-1, or 1 when that is 0, and so never 0 |
| NetworkConfigs.Engine.constructor | scratch/utils/network-config.hh:68 | a new engine holds the seeded state |
| NetworkConfigs.Engine.Next | scratch/utils/network-config.hh:68 | a draw advances the engine by one step and returns the new state |
| NetworkConfigs.SampleIndex | scratch/utils/network-config.hh:68 | with a positive number of grid points the drawn index is one of them |
| NetworkConfigs.SampleRange | scratch/utils/network-config.hh:68 | with a positive step and min at most max the sample lies in [min, max]; when max equals min it is min |
| NetworkConfigs.SampleOnGrid | scratch/utils/network-config.hh:68 | with a positive step and min at most max the sample is min plus the step times a grid index below the number of grid points |
| NetworkConfigs.MakeNetworkRange | scratch/utils/network-config.hh:56-66 | each (min, max, step) triple becomes the matching parameter range, in order |
| MachineInts.TruncateToInt | scratch/utils/network-config.cc:19 | the `(int)` cast truncates toward zero (as do those at scratch/utils/sim-topology.cc:326-337 and the `DataRate` conversion at src/internet/model/tcp-remy.cc:156) and keeps non-negative values non-negative |
| NetworkConfigs.NetworksCount | scratch/utils/network-config.cc:13-27 | exactly `sample_size` configurations come back, and none when it is not positive |
| NetworkConfigs.NetworksDrawOrder | scratch/utils/network-config.cc:14-24 | configuration `i` is sampled from draws 7i+1 to 7i+7 |
| NetworkConfigs.SampleConfigDerived | scratch/utils/network-config.cc:16-24 | the link rate is the adjusted packet's bits times 10^6 times the Remy rate, which is the sampled link_ppt, and the on and off bounds are ten times their means |
| NetworkConfigs.SampleConfigWithin | scratch/utils/network-config.cc:15-23 | with ranges whose step is positive and whose low end is at most the high end, every sampled value lies within its range |
| NetworkConfigs.AdjustedPacketSizeGrows | scratch/utils/network-config.cc:16 | the packet grows by eight bytes exactly when INT headers are on, and is unchanged otherwise |
| NetworkConfigs.SampleOne | scratch/utils/network-config.cc:15-24 | one loop round makes seven draws, in the order link_ppt, rtt, senders, on, off, loss, buffer, and builds the configuration from them |
| NetworkConfigs.GenerateNetworks | scratch/utils/network-config.cc:11-28 | returns the sampled configurations in order and leaves the engine seven draws further on per configuration |
| NetworkConfigs.ConfigFields | scratch/utils/network-config.cc:3-9 | `toString` writes ten `key=value` items with the keys rtt, rate, remyrate, senders, onmean, onbound, offmean, offbound, sloss, buf in that order, the sender count as an integer |
| NetworkConfigs.ConfigTextFrame | scratch/utils/network-config.cc:3-9 | the text opens with `{rtt=` and the rendered round-trip time and ends with `}` and a newline; CommonAnalysis.ConfigLineParses reads the items back |
| TopologySetup.Ceil | scratch/utils/topology-setup.cc:21 | `ceil` is the least integer at or above its argument |
| TopologySetup.SplitBufferLen | scratch/utils/topology-setup.cc:17-26 | the device part is the floor of the fraction of the buffer and the queue-discipline part is the ceiling of the rest, both written in decimal with the buffer's unit letter |
| TopologySetup.SplitAddsUp | scratch/utils/topology-setup.cc:19-21 | for every fraction, computed exactly, the two parts add up to the whole buffer |
| TopologySetup.SplitWithinBuffer | scratch/utils/topology-setup.cc:20-21 | for a fraction in [0, 1] each part lies between 0 and the whole buffer |
| TopologySetup.SplitStringsReadBack | scratch/utils/topology-setup.cc:22-25 | both strings end in "p" exactly for a size in packets and "B" exactly for bytes, and what precedes the letter reads back as the part's size |
| SimTopology.NoneTraced | scratch/utils/sim-topology.hh:13-23 | a node's trace flags are `MAX_FANOUT` (32) entries, all clear |
| SimTopology.TopologyNode.AddNeighbor | scratch/utils/sim-topology.cc:14-21 | every neighbour id is appended to the neighbour list and a router's id also to the router list; id, kind and trace flags are unchanged |
| SimTopology.NewNode | scratch/utils/sim-topology.cc:6-12 | a new node has the given id and kind, is not an untraced extra host, has no neighbours and traces no port |
| SimTopology.IsNeighbor | scratch/utils/sim-topology.cc:23-33 | the scan answers true exactly when the id is among the node's neighbours |
| SimTopology.CanAddUntilFull | scratch/utils/sim-topology.cc:35-43 | a node can take a neighbour exactly while it has fewer than `candidates`; adding a router neighbour counts against the router limit and adding a host does not |
| SimTopology.Dotted | scratch/utils/sim-topology.cc:75-84 | a subnet address renders as four dotted decimal numbers (at least seven characters) |
| SimTopology.DottedReadsBack | scratch/utils/sim-topology.cc:75-84 | the rendering splits at its points into four decimal numbers that read back as the four address bytes |
| SimTopology.DottedInjective | scratch/utils/sim-topology.cc:75-84 | two addresses render to the same text exactly when they are the same address |
| SimTopology.SubnetStringsDistinct | scratch/utils/sim-topology.cc:75-84 | from 10.0.100.0, the dotted strings of the addresses reached after 1 to 65180 calls of `getNewSubnet` are pairwise different |
| SimTopology.NextAddress | scratch/utils/sim-topology.cc:75-84 | the third address byte counts 1..255; past 255 it restarts at 1 and carries into the wrapping second byte; the first and fourth bytes never change |
| SimTopology.AddressAfterAdds | scratch/utils/sim-topology.cc:75-84 | handing out m subnets and then k more is the same as handing out m + k |
| SimTopology.SubnetSerial | scratch/utils/sim-topology.cc:75-84 | an address with a non-zero third byte has a position in the counter's cycle of 256 * 255 subnets |
| SimTopology.SubnetSerialStep | scratch/utils/sim-topology.cc:75-84 | each subnet handed out moves one place along the cycle, until the cycle comes round |
| SimTopology.SubnetSerialAfter | scratch/utils/sim-topology.cc:75-84 | after m subnets the counter is m places further along the cycle, as long as it has not come round |
| SimTopology.SubnetsDistinct | scratch/utils/sim-topology.hh:77 | starting from 10.0.100.0, the first 65181 subnets handed out are pairwise different |
| SimTopology.NextPort | scratch/utils/sim-topology.cc:86-90 | `getPort` bumps the `uint16_t` counter before returning it, so it wraps from 65535 to 0 |
| SimTopology.PartnersFrame | scratch/utils/sim-topology.cc:14-21 | the neighbour ids collected from the links depend only on the ids and kinds of the linked nodes |
| SimTopology.PartnersUntouched | scratch/utils/sim-topology.cc:6-12 | a node that no link touches has collected no neighbours |
| SimTopology.NewDatacenterConfig | scratch/utils/sim-topology.cc:273-280 | each zero argument keeps its default (rates 100, delay 0.001, buffer 100) and every other argument is kept |
| SimTopology.NewDumbbellConfig | scratch/utils/sim-topology.cc:462-469 | each zero argument keeps its default (bottleneck 1 Gbps, 10 us, 100 packets; host buffer 10000, host rate 1000000) |
| SimTopology.NewLineConfig | scratch/utils/sim-topology.cc:678-685 | each zero argument keeps its default (max RTT 1, bottleneck rate 10, buffer 100, host buffer 10000, host rate 1000000) |
| SimTopology.NonZeroArgumentsKept | scratch/utils/sim-topology.hh:147-151 | every configuration keeps all of its arguments when none of them is zero |
| SimTopology.CreateTopologyConfig | scratch/utils/sim-topology.hh:334-349 | there is no configuration exactly for a random topology; a datacenter gets the defaults; a dumbbell or a line gets the given delay and buffer (zero meaning default), with the other settings at their defaults |
| SimTopology.CreateTopologyParameter | scratch/utils/sim-topology.hh:292-306 | the first argument goes to every kind and the others only where the kind has room; only the random parameter is not deterministic; a dumbbell starts without extra flows and a line with them |
| SimTopology.LinkFor | scratch/utils/sim-topology.cc:46-55 | a link joins the two given nodes with the subnet it takes and mask 255.255.255.0 |
| SimTopology.LinkedNodes | scratch/utils/sim-topology.cc:518-521 | `addLink` gives each endpoint the other's id as a neighbour (a router neighbour when the other is a router); no other node and no id, kind or trace flag changes |
| SimTopology.AddLinkKeepsNode | scratch/utils/sim-topology.cc:518-544 | after a link is added, a node's neighbour list is still exactly what the link list gives it |
| SimTopology.AddLinkKeepsNodeWired | scratch/utils/sim-topology.cc:518-544 | after a link is added, each node still agrees with the link list |
| SimTopology.AddLinkKeepsWired | scratch/utils/sim-topology.cc:518-544 | adding a link to both endpoints and to the link list keeps the nodes and the links in agreement |
| SimTopology.AddNodeKeepsWired | scratch/utils/sim-topology.cc:581-585 | creating a fresh node keeps the nodes and the links in agreement |
| SimTopology.Run | scratch/utils/sim-topology.cc:581-599 | nodes created in a row get consecutive ids from the first one |
| SimTopology.DumbbellShape | scratch/utils/sim-topology.cc:573-620 | a dumbbell of n senders has hosts 0..2n-1 and routers 2n and 2n+1, with every id equal to its position; its 2n+1 links join left host i to router 2n, right host n+i to router 2n+1 and, last, the two routers |
| SimTopology.DumbbellExtraShape | scratch/utils/sim-topology.cc:623-657 | with extra flows there are 4n more untraced end hosts, whose ids are again their positions, and 4n more links |
| SimTopology.ExtraRouterBelow | scratch/utils/sim-topology.cc:846-856 | every extra host of a line hangs off one of its routers (`ceil(i/2)`, the last extra host on the last router) |
| SimTopology.LineChain | scratch/utils/sim-topology.cc:826-832 | a line of R routers has R-1 router-to-router links, router i joined to router i+1 |
| SimTopology.CoreIdsCollideAsWritten | scratch/utils/sim-topology.cc:402-406 | as written, a k = 4 fat tree gives aggregation switch 4 and core switch 0 the same id 28 |
| SimTopology.DatacenterIdsArePositions | scratch/utils/sim-topology.cc:371-406 | with core ids offset by the number of aggregation switches, every datacenter node's id is its position, so ids are pairwise different and only servers are end hosts |
| SimTopology.TorBlocks | scratch/utils/sim-topology.cc:421-430 | there is one block of k/2 uplinks for each ToR |
| SimTopology.AggBlocks | scratch/utils/sim-topology.cc:434-443 | there is one block of k/2 uplinks for each aggregation switch |
| SimTopology.FlattenUniformLength | scratch/utils/sim-topology.cc:421-443 | the nested wiring loops create exactly k/2 uplinks for each switch, block after block |
| SimTopology.FlattenUniform | scratch/utils/sim-topology.cc:421-443 | the nested wiring loops create uplink j of switch b at position b * (k/2) + j |
| SimTopology.ServerUplinkInRange | scratch/utils/sim-topology.cc:410-417 | server i of an even fat tree goes to ToR i / (k/2), which exists |
| SimTopology.TorUplinksInPod | scratch/utils/sim-topology.cc:421-430 | ToR x of an even fat tree is wired to the k/2 aggregation switches of its pod, which exist |
| SimTopology.AggUplinksInRange | scratch/utils/sim-topology.cc:434-443 | aggregation switch x of an even fat tree is wired to core switches (x mod k/2) * k/2 + j, which exist |
| SimTopology.ServerWiring | scratch/utils/sim-topology.cc:410-417 | the server links of an even fat tree, one per server, each to an existing ToR |
| SimTopology.TorWiring | scratch/utils/sim-topology.cc:421-430 | uplink j of ToR x goes to aggregation switch (x / (k/2)) * (k/2) + j, which exists |
| SimTopology.AggWiring | scratch/utils/sim-topology.cc:434-443 | uplink j of aggregation switch x goes to core switch (x mod k/2) * (k/2) + j, which exists |
| SimTopology.DatacenterConnectable | scratch/utils/sim-topology.cc:410-443 | every link of an even fat tree joins two existing nodes |
| SimTopology.OddFatTreeOverruns | scratch/utils/sim-topology.cc:421-430 | for odd k >= 3, the last ToR asks for an aggregation switch one past the last |
| SimTopology.LinkSettings | scratch/utils/sim-topology.cc:321-344 | host links of a dumbbell or line carry the host rate and buffer (a dumbbell's and a traced line host's with zero delay), router links the bottleneck settings; datacenter links carry the truncated rate of their layer in Mbps, the configured delay in ms and the configured buffer |
| SimTopology.LineExtraFlowDelay | scratch/utils/sim-topology.cc:733-753 | with an even number of routers, an extra flow's path (extra host, one router hop, extra host) adds up to exactly the configured `maxRtt` |
| TopologyBuilder.Positions | scratch/utils/sim-topology.cc:581-599 | a node vector filled by one creation loop holds consecutive arena positions |
| TopologyBuilder.Topology.Random | scratch/utils/sim-topology.cc:116-125 | a new random topology has no nodes and no links, empty node vectors, and the counters at 10.0.100.0 and port 5000 |
| TopologyBuilder.Topology.Datacenter | scratch/utils/sim-topology.cc:290-299 | a new datacenter topology holds its configuration and no nodes, links or node vectors; the counters start at their initial values |
| TopologyBuilder.Topology.Dumbbell | scratch/utils/sim-topology.cc:479-489 | a new dumbbell topology holds its configuration and no nodes, links or node vectors; the counters start at their initial values; the flow counts and extra-flow flag are left unset |
| TopologyBuilder.Topology.Line | scratch/utils/sim-topology.cc:695-705 | a new line topology holds its configuration and no nodes, links or node vectors, zero senders and no extra flows |
| TopologyBuilder.Topology.GetNewSubnet | scratch/utils/sim-topology.cc:75-84 | returns the current address as text and moves the counter to the next subnet; nothing else changes |
| TopologyBuilder.Topology.GetPort | scratch/utils/sim-topology.cc:86-90 | the port counter is bumped as a `uint16_t` and the new value is returned; nothing else changes |
| TopologyBuilder.Topology.AddLink | scratch/utils/sim-topology.cc:518-544 | both endpoints learn each other's id, the link with the kind's settings and the next subnet is appended, and the nodes still agree with the links |
| TopologyBuilder.Topology.AddNodes | scratch/utils/sim-topology.cc:581-599 | a creation loop appends `count` fresh nodes with consecutive ids and returns their positions; links and counters are unchanged |
| TopologyBuilder.Topology.ConnectStep | scratch/utils/sim-topology.cc:601-607 | one pass of a wiring loop appends the link for the next pair of the plan |
| TopologyBuilder.Topology.Connect | scratch/utils/sim-topology.cc:601-615 | a wiring loop appends one link per planned pair, in order, with the subnets handed out in order, and leaves the earlier links and the nodes' ids alone |
| TopologyBuilder.Topology.GenerateDumbbell | scratch/utils/sim-topology.cc:573-658 | the nodes are the dumbbell layout, the links are exactly the dumbbell plan in order, and the node vectors, sender counts and extra-flow flag are those `GenerateTopology` sets |
| TopologyBuilder.Topology.DumbbellCore | scratch/utils/sim-topology.cc:575-620 | left hosts, right hosts and the two routers are created and joined: hosts to their side's router, then the routers to each other |
| TopologyBuilder.Topology.DumbbellExtras | scratch/utils/sim-topology.cc:622-657 | with extra flows, 2n untraced hosts per side are created (right ones first) and joined to their side's router, extra left hosts first |
| TopologyBuilder.Topology.ConnectExtras | scratch/utils/sim-topology.cc:641-655 | the extra hosts' links follow the dumbbell's other links in the plan's order |
| TopologyBuilder.Topology.ConnectBlocks | scratch/utils/sim-topology.cc:421-443 | the nested wiring loops append one block of uplinks per switch, in order |
| TopologyBuilder.Topology.ConnectBlockStep | scratch/utils/sim-topology.cc:421-443 | one pass of an outer wiring loop appends the whole next block of uplinks after the earlier ones |
| TopologyBuilder.Topology.GenerateDatacenter | scratch/utils/sim-topology.cc:365-444 | with core ids corrected as under Findings, for even k: the nodes are the fat-tree layout with ids equal to positions, and the links are the server, ToR and aggregation uplinks in that order, each with its layer's rate |
| TopologyBuilder.Topology.DatacenterNodes | scratch/utils/sim-topology.cc:371-406 | with core ids corrected as under Findings: servers, ToRs, aggregation and core switches are created in that order with consecutive ids |
| TopologyBuilder.Topology.WireDatacenter | scratch/utils/sim-topology.cc:408-443 | the three wiring loops append the server, ToR and aggregation uplinks, in that order |
| TopologyBuilder.Topology.WireLowerLayers | scratch/utils/sim-topology.cc:408-430 | the server uplinks are appended, then the ToR uplinks |
| TopologyBuilder.Topology.GenerateLine | scratch/utils/sim-topology.cc:794-857 | the nodes are the line layout, the links are exactly the line plan in order, and the host vector, router vector, senders, `sender_hosts` (half the traced hosts) and extra-flow flag are those `GenerateTopology` sets |
| TopologyBuilder.Topology.LineCore | scratch/utils/sim-topology.cc:798-832 | the traced hosts and routers are created; each host is joined to router `i / hostsPerRouter`, then the routers are chained |
| TopologyBuilder.Topology.LineExtras | scratch/utils/sim-topology.cc:834-857 | with extra flows, 2(R-1) untraced hosts are appended to the host vector and joined to their routers |
| TopologyBuilder.Topology.ConnectLineExtras | scratch/utils/sim-topology.cc:845-856 | the extra hosts' links follow the line's other links in the plan's order |
| TopologyBuilder.Topology.GetAllNodes | scratch/utils/sim-topology.cc:491-505 | the cache is rebuilt as the concatenation of the node vectors exactly when its size differs from their total size, and is returned |
| TopologyBuilder.Topology.GetTrafficMatrix | scratch/utils/sim-topology.cc:546-571 | each kind's loops build its matrix: a dumbbell's (here) sends sender i to host n + i, then the extra flows; a datacenter's (scratch/utils/sim-topology.cc:346-362) is all pairs; a line's (scratch/utils/sim-topology.cc:762-791) is the line matrix with the extra rows starting at the first extra host, as corrected under Findings |
| TopologyBuilder.DumbbellConnectable | scratch/utils/sim-topology.cc:601-655 | every dumbbell link joins two nodes that exist |
| TopologyBuilder.LineConnectable | scratch/utils/sim-topology.cc:817-856 | every line link joins two nodes that exist, and its delay is defined |
| TopologyBuilder.OthersBelowExact | scratch/utils/sim-topology.cc:183-199 | row i of the all-pairs matrix holds exactly the other hosts, once each, in increasing order |
| TopologyBuilder.BuildAllPairs | scratch/utils/sim-topology.cc:346-362 | the random and datacenter nested loops build the all-pairs matrix |
| TopologyBuilder.BuildDumbbellMatrix | scratch/utils/sim-topology.cc:546-570 | sender i sends to host n + i; with extra flows, n silent rows follow and host 2n + q sends to host 2n + numExtraSenders + q |
| TopologyBuilder.SenderRows | scratch/utils/sim-topology.cc:765-769 | the senders' loop gives sender i the one receiver i + `sender_hosts` |
| TopologyBuilder.QuietRows | scratch/utils/sim-topology.cc:771-775 | the padding loop adds one empty row per host from the last sender up to the start of the extra rows |
| TopologyBuilder.ExtraPairRows | scratch/utils/sim-topology.cc:776-788 | from the start on, every other host sends to the next host and the others send nothing |
| TopologyBuilder.BuildLineMatrix | scratch/utils/sim-topology.cc:762-791 | sender i sends to host i + `sender_hosts`; with extra flows, rows up to the start are silent and from the start on every other host sends to the next one |
| TopologyBuilder.DumbbellHostsAttach | scratch/utils/sim-topology.cc:601-655 | every dumbbell host, extra ones included, is linked to its side's router |
| TopologyBuilder.DumbbellFlowsCross | scratch/utils/sim-topology.cc:546-570 | every dumbbell flow goes between two hosts on opposite routers, so it crosses the bottleneck |
| TopologyBuilder.ExtraPairSpansOneHop | scratch/utils/sim-topology.cc:846-856 | extra host 2q of a line hangs off router q and extra host 2q+1 off router q+1 |
| TopologyBuilder.LineRowsWithinHosts | scratch/utils/sim-topology.cc:762-791 | when the extra rows come in whole pairs, the matrix has one row per host and names only hosts |
| TopologyBuilder.LineFlowsWithTraced | scratch/utils/sim-topology.cc:762-791 | with the extra rows starting at the first extra host (corrected as under Findings), for any count of traced hosts whose senders fit in the first half's receivers, the line's matrix has one row per host, names only hosts, and pairs extra host 2q with 2q+1 |
| TopologyBuilder.LineFlowsWithinHosts | scratch/utils/sim-topology.cc:762-791 | with the extra rows starting at the first extra host, a generated line's matrix has one row per host, names only hosts, and pairs extra host 2q with 2q+1 |
| TopologyBuilder.LineMatrixOverrunsAsWritten | scratch/utils/sim-topology.cc:776-788 | as written, 3 routers of 1 host and 1 sender give 7 hosts, and the last row names host 7, which does not exist |
| TopologyBuilder.LineMatrixAgreesWhenEven | scratch/utils/sim-topology.cc:762-791 | when the number of traced hosts is even, the corrected matrix is the one the source builds |
| TopologyBuilder.DumbbellNodeOrder | scratch/utils/sim-topology.cc:491-505 | a generated dumbbell's `getAllNodes` lists the nodes in id order |
| TopologyBuilder.DatacenterNodeOrder | scratch/utils/sim-topology.cc:301-314 | with core ids corrected as under Findings, a generated fat tree's `getAllNodes` lists the nodes in id order |
| TopologyBuilder.LineNodeOrder | scratch/utils/sim-topology.cc:707-718 | a generated line's `getAllNodes` lists every node exactly once |
| TopologyBuilder.CreateTopology | scratch/utils/sim-topology.hh:313-328 | the result is a fresh, unbuilt topology of the requested kind, holding the configuration it was given |
| CommonAnalysis.Find | scripts/commonanalysis.py:44 | a key's lookup in a dictionary finds a position holding that key, or reports -1 exactly when no entry has it |
| CommonAnalysis.Put | scripts/commonanalysis.py:10 | assigning to a missing key adds one entry; assigning to a present key keeps the size |
| CommonAnalysis.PutGet | scripts/commonanalysis.py:10 | after `d[k] = v`, k reads v, every other key reads what it read before, keys stay distinct, and a new key goes last in key order |
| CommonAnalysis.AssignAllFailsStep | scripts/commonanalysis.py:6-10 | one more token makes the loop raise exactly when it had already raised or the token has no "=" |
| CommonAnalysis.AssignAllFailsAtToken | scripts/commonanalysis.py:6-10 | when the loop raises, some token has no "=" |
| CommonAnalysis.TokenFailsAssignAll | scripts/commonanalysis.py:6-10 | a token with no "=" makes the loop raise, whatever tokens surround it |
| CommonAnalysis.AssignAllFails | scripts/commonanalysis.py:6-10 | the assignment loop raises exactly when some token has no "=" |
| CommonAnalysis.AssignAllLastWins | scripts/commonanalysis.py:6-10 | when it does not raise, each name maps to the value of its last token and no key appears twice |
| CommonAnalysis.AssignAllOfAssignments | scripts/commonanalysis.py:6-10 | assigning `key=value` tokens with distinct plain keys and values gives back the pairs, in order |
| CommonAnalysis.JoinedAssignmentsParse | scripts/commonanalysis.py:3-11 | splitting joined `key=value` tokens on their separator and assigning them gives back the pairs |
| CommonAnalysis.AssignTokens | scripts/commonanalysis.py:6-10 | the shared token loop computes the assignments, or raises when a token has no "=" |
| CommonAnalysis.ParseMemory | scripts/commonanalysis.py:3-11 | `parse_memory` assigns the ", "-separated `name=value` items |
| CommonAnalysis.MemoryStrParses | scripts/commonanalysis.py:3-11 | `parse_memory` reads back a memory's `str` (when not cut at 511 characters): each statistic's name maps to its six-decimal rendering, in order |
| CommonAnalysis.NetConfigParser | scripts/commonanalysis.py:264-272 | `net_config_parser` strips the braces and assigns the ";"-separated items |
| CommonAnalysis.StripBraces | scripts/commonanalysis.py:266 | stripping the braces off a braced text without braces leaves the text |
| CommonAnalysis.ConfigLineParses | scripts/commonanalysis.py:264-272 | `net_config_parser` reads back the line a network configuration prints: every key, in order, with its rendered value, when no rendered double holds ";", "=" or a brace |
| CommonAnalysis.StdoutLines | scripts/commonanalysis.py:275-276 | reading the run's standard output raises exactly when there is none |
| CommonAnalysis.GetConfig | scripts/commonanalysis.py:274-282 | `get_config` parses every line starting with "{", each replacing the configuration read before, and raises when there is no standard output |
| CommonAnalysis.ConfigFailsStep | scripts/commonanalysis.py:278-280 | one more line makes the loop raise exactly when it had already raised or the line starts with "{" and does not parse |
| CommonAnalysis.ConfigFailsAtBadLine | scripts/commonanalysis.py:278-280 | when the loop raises, some line starting with "{" does not parse |
| CommonAnalysis.BadLineFailsConfig | scripts/commonanalysis.py:278-280 | a line starting with "{" that does not parse makes the loop raise, whatever lines follow it |
| CommonAnalysis.ConfigFails | scripts/commonanalysis.py:278-280 | the loop raises exactly when some line starting with "{" does not parse |
| CommonAnalysis.ConfigWithoutBraceLines | scripts/commonanalysis.py:277-282 | without a line starting with "{", the result is the empty dictionary |
| CommonAnalysis.ConfigFromLastBraceLine | scripts/commonanalysis.py:278-280 | when every such line parses, the result is the parse of the last line starting with "{" |
| CommonAnalysis.ConfigPlainStep | scripts/commonanalysis.py:278-280 | a last line not starting with "{" leaves the configuration as the lines before it made it |
| CommonAnalysis.PlainLinesKeepConfig | scripts/commonanalysis.py:278-280 | lines that do not start with "{", appended after any lines, leave the configuration unchanged |
| CommonAnalysis.OnlyBraceLine | scripts/commonanalysis.py:274 | one configuration line among other lines decides the configuration |
| CommonAnalysis.GetWhiskerFileNames | scripts/commonanalysis.py:13-19 | `get_whisker_file_names` keeps the output keys that start with "whiskers", in key order |
| CommonAnalysis.WhiskerFilesMembers | scripts/commonanalysis.py:16-18 | a key is kept exactly when it is an output key starting with "whiskers" |
| CommonAnalysis.WhiskerFilesConcat | scripts/commonanalysis.py:16-18 | keeping commutes with concatenation, so the kept keys stay in key order |
| CommonAnalysis.LastRow | scripts/commonanalysis.py:44-47 | a range has a last recorded row exactly when some entry names it |
| CommonAnalysis.TallyGet | scripts/commonanalysis.py:44-48 | the table holds one row per range text: the last row seen for it with the usages of all its rows summed; a range never seen is absent and has no usage |
| CommonAnalysis.AddEntryGet | scripts/commonanalysis.py:44-47 | one whisker line changes only its own range's row (adding the usage already recorded) and keeps the ranges distinct |
| CommonAnalysis.LineEntriesFailSticks | scripts/commonanalysis.py:28-43 | once a whisker line fails to parse, the file fails |
| CommonAnalysis.FilesEntriesFailSticks | scripts/commonanalysis.py:25-27 | once a file fails or is missing, the whole parse fails |
| CommonAnalysis.TallyLines | scripts/commonanalysis.py:27-47 | the lines of one whisker file are entered into the table in order, or the parse fails exactly when one of its whisker lines does not parse |
| CommonAnalysis.TallyLine | scripts/commonanalysis.py:29-47 | a line starting with "[" is parsed and entered into the table; any other line changes nothing |
| CommonAnalysis.ParseWhiskerStats | scripts/commonanalysis.py:22-48 | `parse_whisker_stats` tallies the whisker lines of every whisker file, in order, and returns the table's rows |
| CommonAnalysis.SumBounds | scripts/commonanalysis.py:62-66 | a sum of n values in [lo, hi] lies between n * lo and n * hi |
| CommonAnalysis.MeanWithin | scripts/commonanalysis.py:65-66 | the mean of values in [lo, hi] lies in [lo, hi] |
| CommonAnalysis.SumNonNegative | scripts/commonanalysis.py:94 | a sum of non-negative values is non-negative |
| CommonAnalysis.SumZero | scripts/commonanalysis.py:94 | a sum of non-negative values is zero only when every value is |
| CommonAnalysis.SumConstant | scripts/commonanalysis.py:92 | n copies of c sum to n * c |
| CommonAnalysis.Deviations | scripts/commonanalysis.py:93 | one squared deviation from the mean per measurement |
| CommonAnalysis.Variance | scripts/commonanalysis.py:91-95 | `variance` raises (division by zero) exactly for an empty list |
| CommonAnalysis.VarianceNonNegative | scripts/commonanalysis.py:91-95 | a variance is never negative |
| CommonAnalysis.VarianceZeroIff | scripts/commonanalysis.py:91-95 | the variance is zero exactly when all measurements are equal |
| CommonAnalysis.VarianceOfConstant | scripts/commonanalysis.py:91-95 | equal measurements have variance zero |
| CommonAnalysis.VarianceZeroConstant | scripts/commonanalysis.py:91-95 | a zero variance means all measurements are equal |
| CommonAnalysis.SquareZero | scripts/commonanalysis.py:93 | only a zero deviation squares to zero |
| CommonAnalysis.CollectFails | scripts/commonanalysis.py:57-64 | a score loop raises exactly when some selected line does not read |
| CommonAnalysis.CollectEmpty | scripts/commonanalysis.py:57-64 | a score loop collects nothing exactly when no line is selected |
| CommonAnalysis.CollectStep | scripts/commonanalysis.py:57-64 | one pass reads a selected line and appends its value, skips any other line, and makes the whole loop raise when a selected line does not read |
| CommonAnalysis.GetAvgSubscores | scripts/commonanalysis.py:51-68 | `get_avg_subscores` returns the mean throughput and delay scores of the "Throughput" lines, (0, 0) without any, and raises when there is no standard output or such a line does not read |
| CommonAnalysis.SubscoreStep | scripts/commonanalysis.py:58-64 | one pass of the loop keeps the two totals equal to the sums of the scores read so far and the run count equal to their number |
| CommonAnalysis.PairSums | scripts/commonanalysis.py:62-63 | adding a run's scores adds each to its total |
| CommonAnalysis.SubscoresWithoutRuns | scripts/commonanalysis.py:65-68 | without a "Throughput" line the subscores are (0, 0); the function raises exactly when such a line does not read |
| CommonAnalysis.SubscoresWithin | scripts/commonanalysis.py:65-66 | with runs, each average lies within the range of its scores |
| CommonAnalysis.GetAvgScore | scripts/commonanalysis.py:212-222 | `get_avg_score` returns the mean of the values of the lines holding "Score" and not "inf", and raises without standard output, when such a line does not read, or when there is none |
| CommonAnalysis.AvgScoreDefined | scripts/commonanalysis.py:212-222 | the average score is missing exactly when no line is a score line or some score line does not read |
| CommonAnalysis.AvgScoreWithin | scripts/commonanalysis.py:222 | with scores all in [lo, hi], so is their average |
| Text.NatToDecimal | scratch/utils/topology-setup.cc:22-25 | `std::to_string` of a natural number is a non-empty run of digits |
| Text.IntToDecimal | scratch/utils/topology-setup.cc:22-25 | `std::to_string` of an integer starts with "-" exactly when it is negative |
| Text.DigitsValueOfDecimal | scratch/utils/topology-setup.cc:22-25 | the digits `std::to_string` writes read back as the number |
| Text.StripLeft | scripts/commonanalysis.py:30 | `str.strip` removes a prefix of characters from the set and stops at the first character outside it |
| Text.StripRight | scripts/commonanalysis.py:30 | `str.strip` removes a suffix of characters from the set and stops at the last character outside it |
| Text.Split | scripts/commonanalysis.py:5 | `str.split` with a separator yields at least one part |
| Text.SplitAbsent | scripts/commonanalysis.py:5 | text without the separator splits into itself alone |
| Text.SplitJoin | scripts/commonanalysis.py:5-10 | splitting parts joined by a separator whose first character none of them holds gives back the parts |
| Text.Assignments | scripts/commonanalysis.py:7-9 | one `key=value` token per pair, in order |
| Text.Truncate | src/internet/model/remy/memory.cc:78-83 | a bounded `snprintf` keeps a prefix of at most the buffer's room, and all of a text that fits |
| Text.RoundHalfEven | src/internet/model/remy/memory.cc:78-83 | `%f` rounding lands within half a unit of the value |
| Text.FormatFixed | src/internet/model/remy/memory.cc:78-83 | `%f` writes a non-empty rendering of digits, a point and a sign only |
| Text.FormatFixedReadsBack | src/internet/model/remy/memory.cc:78-83 | Python's `float` reads a `%.<prec>f` rendering back as the value rounded to `prec` decimals, ties to even |
| Text.FixedValueWithinHalfUnit | src/internet/model/remy/memory.cc:78-83 | that rounded value lies within half a unit of the last decimal place of the value rendered |
| Text.ParseRealOfDecimal | scripts/commonanalysis.py:60 | `float` reads a decimal natural number back as itself |
| Text.ParseIntOfDecimal | scripts/commonanalysis.py:45 | `int` reads a decimal natural number back as itself |
| MachineInts.U16 | scratch/utils/sim-topology.hh:78 | storing into a `uint16_t` reduces modulo 2^16 and keeps values already in range |
| MachineInts.U32 | src/internet/model/tcp-remy.cc:142 | storing into a `uint32_t` reduces modulo 2^32 and keeps values already in range |
| MachineInts.U64 | scratch/utils/tracing-utils.cc:297 | storing into a `uint64_t` reduces modulo 2^64 and keeps values already in range |
| MachineInts.I32 | src/internet/model/tcp-remy.cc:262 | a `uint32_t` read as an `int` is its two's-complement value, which stores back as the same bits |

## Left out

- TcpRemy construction and destruction I/O: the constructor reads the rule file and environment (src/internet/model/tcp-remy.cc:36-77) and the destructor dumps the rules (79-99); the rule table is a constructor parameter instead.
- TcpRemy Fork and copy constructor (src/internet/model/tcp-remy.cc:102-117, 222-227): ns-3 object cloning, not controller behaviour.
- Protocol-buffer constructors of Memory, MemoryRange and Whisker (src/internet/model/remy/memory.cc:86-102, memoryrange.cc:15-19): serialisation library; Whisker's constructor is modelled as a plain copy of its fields.
- The `NUMDIMS` environment variable: the number of active axes is a parameter of each memory.
- `WhiskerTree::use_whisker`, `Whisker::window` and the usage count are not part of this model: lookup is modelled as the first rule whose domain contains the memory, and the window law as the documented `max(0, floor(increment + multiple * window))`.
- Memory.Update with an infinite RTT ratio (zero minimum RTT) is reported as a fault instead of storing infinity, because reals have no infinity.
- The nine memory statistics are grouped into one `Statistics` value so that `field(i)` and comparisons read one record.
- Floating point: doubles are exact reals, so rounding, `pow`, `log2` and `sqrt` are not modelled; `FlowScoreTracker::score`, `calculateFairness`, `AllScoreTracker::score`, `getShareRatio` and the `toString` helpers (scratch/utils/tracing-utils.cc:154-237) are left out for that reason.
- `updateBytes` and `trackTX` (scratch/utils/tracing-utils.cc:239-254): byte accounting over ns-3 packets and trace plumbing.
- Trace callbacks and `TraceConnect`: simulation plumbing; `TcpSocketState` keeps only the fields the controllers read and write, and `Simulator::Now` is a parameter.
- The random topology's `GenerateTopology`/`addLink` (scratch/utils/sim-topology.cc:164-255): driven by `rand()` with a retry loop that need not terminate; its `getBufferLen` (127-132) goes with it.
- `getNodeById`, `clearState` (scratch/utils/sim-topology.cc:92-98) and the `toString` renderings of links, topologies, topology parameters and topology configurations: lookup and debugging output. `NetworkConfig::toString` is modelled (ConfigText).
- Link rate, delay and queue strings built with `std::to_string`: kept as a real value and a unit field.
- Node pointers: nodes live in one sequence owned by the topology and are referred to by position, so aliasing between node objects is not modelled.
- GenerateDatacenter: requires an even k (or k = 1); for an odd k the code's index arithmetic overruns its vectors (OddFatTreeOverruns).
- GenerateDatacenter: builds the corrected core ids (offset by the number of aggregation switches) rather than the ids as written at scratch/utils/sim-topology.cc:404, which collide (see Findings; CoreIdsCollideAsWritten models the code as written).
- DatacenterNodes: creates the core switches with the corrected ids, not those written at scratch/utils/sim-topology.cc:404.
- DatacenterNodeOrder: holds for the corrected core ids; with the ids as written the node order is not the id order.
- GetTrafficMatrix: for a line, starts the extra-flow rows at the first extra host rather than at `sender_hosts * 2` (scratch/utils/sim-topology.cc:771-776); LineMatrixAsWritten is the row layout as written and LineMatrixAgreesWhenEven shows the two agree when the traced hosts are even.
- LineFlowsWithTraced: is about the corrected line matrix; as written the rows overrun the hosts (LineMatrixOverrunsAsWritten).
- PacingRate: a negative intersend time, or a quotient of 2^64 bits per second or more, makes the conversion to `DataRate`'s unsigned 64-bit rate undefined in C++; the model keeps the truncated integer and promises nothing about it.
- `NetworkConfig` and `ApplicationPattern` constructors are datatype constructors; the printing of doubles in `toString` is a parameter (`show`), because `stringstream` formatting is not modelled.
- The parameter-range header is not part of this model; a range is a three-field record.
- `topologySetup` (scratch/utils/topology-setup.cc:28-217): builds ns-3 nodes, devices and applications.
- Integer overflow of counters and sums where the code does not rely on it (packet counts, delays, flow counts) is not modelled.
- ParseReal and ParseInt accept plain decimal text only: Python's exponents, `inf`, `nan` and underscores are not modelled.
- `result['output']` and the whisker statistics text are parameters; reading them from files is I/O.
- WhiskerTree's string rendering is not part of this model, so there is no round trip from a rule to its statistics line.
- GetConfig: no end-to-end lemma ties a rendered `NetworkConfig` to the dictionary read back; OnlyBraceLine and ConfigLineParses state the two halves.
- The other analysis functions (`get_avg_normalized_subscores`, `get_summary_*`, `get_avg_fairness`, `get_tail_metrics`) are outside the modelled core.

## Findings

| source | as written | input that shows it | evidently intended | confidence | as-written member | corrected member |
|---|---|---|---|---|---|---|
| scratch/utils/sim-topology.cc:402-406 | core switch ids are offset by the number of core switches instead of the number of aggregation switches | k = 4: aggregation switch 4 and core switch 0 both get id 28 | every node id is distinct and equals its position in the node list | not executed | SimTopology.CoreIdsCollideAsWritten | SimTopology.DatacenterIdsArePositions |
| scratch/utils/sim-topology.cc:776-788 | the rows for the extra flows start at `sender_hosts * 2` | 3 routers, 1 host per router, 1 sender: 7 hosts, and row 6 names host 7, which does not exist | every row of the traffic matrix names existing hosts | not executed | TopologyBuilder.LineMatrixOverrunsAsWritten | TopologyBuilder.LineFlowsWithinHosts |
