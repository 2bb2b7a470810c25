# Sliding-window transfer over TCP: a Dafny model

The repository contains several implementations of one exercise. A client
sends numbered packets over a TCP connection. Sequence numbers run
modulo 65536. The client simulates packet loss and retransmits what it
dropped. A server counts what arrives, tracks what is missing, acknowledges,
and reports goodput (packets received over packets expected).

This project models the packet logic of those implementations and proves
properties of it. Each source file with state becomes one Dafny module:

- a value `datatype` mirrors the object's fields;
- pure functions give the effect of each operation on that value;
- lemmas prove what the source promises about those functions;
- a `class` with the same fields has methods that change the fields in
  place, each proved to match the pure function.

Loops become `while` loops with invariants wherever the source loops.

| module | models |
|---|---|
| `SeqSpace` | the modulo-65536 sequence space and the half-modulus "before" test of the Python clients |
| `SenderRules`, `GptClient`, `ClaudeClient` | the senders of tcp/gpt/client.py and tcp/claude/client.py: admission, drops, retransmission passes, cumulative acks and window adjustment |
| `GrokClient` | the sender of tcp/grok/client.py |
| `TcpServer`, `Framing`, `PacketLine` | the receivers of tcp/gpt/server.py, tcp/claude/server.py and tcp/grok/server.py, their newline framing, and the `seq,window,retransmissions` line format |
| `BlockServer`, `BlockClient`, `BlockTestServer`, `Bytes` | the bit-block protocol of server.py, workspace/binary_server.py, workspace/binary_client.py and workspace/server_test.py |
| `TokenServer`, `TokenClient` | the space-separated token windows of workspace/server.py, workspace/server_claude.py and workspace/client_claude.py |
| `Delta` | the delta encoder of workspace/main.py |
| `SimpleClient`, `SimpleServer` | simple_server/client_side.py and simple_server/server_side.py |
| `GoTracker`, `GoStatsServer`, `GoAckServer`, `GoGapServer`, `SetServer`, `DedupeServer` | the servers under cmd/server |
| `GoWindowClient`, `GoRewriteClient`, `Protocol` | cmd/client/new_client.go, cmd/client/main_rewrite.go and protocol/types.go |
| `Common`, `Text`, `Lists` | shared helpers: `Option`, exact ratios, `strip`/`split`/`join`, integer parsing and printing, list removal |

Several implementations share one design and differ in a few places.
The model puts the shared design in one module and makes the differences
parameters:

- the goodput cadence of the three tcp/* servers;
- whether a receive timeout ends the loop;
- the checkpoint guard of workspace/server.py against that of
  workspace/server_claude.py;
- the window-size bookkeeping of server.py against
  workspace/binary_server.py.

The module comment of tcp/gpt/server.py:10 calls the acknowledgements
cumulative, sending the next expected sequence number. On a forward gap
the code at tcp/gpt/server.py:139-154 does not wait for the first missing
number: after 0, 1, 2, 4, 5 it counts 3 as missing and moves the expected
number past 5. The model follows the code, and `TcpServer.GapIsSkipped`
states the difference. The send loop of tcp/gpt/client.py:159-161 only
sends new packets while fewer than `window_size` are outstanding, but a
retransmission at tcp/gpt/client.py:248 enters `outstanding` without that
check, so `SenderRules.OutstandingCanExceedWindow` shows the bound is not
kept. The server of workspace/server_claude.py:127 sets `expected_seq`
from `last_ack`, not from the number its scan reached. The client of
workspace/client_claude.py:168-176 has moved past every number of the
window. The two stay aligned only while each window ends with a delivered
packet (`TokenClient.WindowKeepsAlignment`). A window ending in
`dropped` after a delivery leaves the server expecting the dropped number
(`TokenClient.TrailingDropLags`). A window from 0 whose packets 0, 1
and 2 are delivered and whose packet 3 is dropped, for example, leaves the
client at 4 and the server expecting 3.
`TokenClient.WindowMatchesServer` therefore assumes the server expects
the window's first number.

## Model

| member | source | states |
|---|---|---|
| SeqSpace.BeforeIrreflexive | tcp/gpt/client.py:45-58 | `is_sequence_before(a, a)` is false for every a |
| SeqSpace.BeforeAsymmetric | tcp/gpt/client.py:57-58 | two numbers are never each before the other |
| SeqSpace.BeforeAcrossWrap | tcp/claude/client.py:54-67 | 65535 is before 0: the wrap is a forward step |
| SeqSpace.BeforeNext | tcp/gpt/client.py:57-58 | every number is before its successor modulo 65536 |
| SeqSpace.BeforeTotal | tcp/gpt/client.py:57-58 | two numbers not equal modulo 65536 and not exactly 32768 apart are ordered one way or the other |
| SeqSpace.BeforeShift | tcp/gpt/client.py:57 | only residues modulo 65536 matter |
| SeqSpace.BeforeMatchesSerialComparison | tcp/gpt/client.py:45-58 | for numbers in [0, 65536) the half-modulus rule is the comparison of section 3.2 of RFC 1982 with SERIAL_BITS = 16 |
| SeqSpace.DistanceOpposite | tcp/gpt/client.py:57 | the forward distances in the two directions add up to 65536 unless the numbers are equal |
| Protocol.Add16 | protocol/types.go:60-62 | the `uint16` sum is the true sum while that stays below 65536, and the true sum less 65536 when it overflows |
| Protocol.IncrementSeqValues | protocol/types.go:60-62 | the result is below 65535; it is `s + 1` below 65534; 65534 and 65535 both go to 0 |
| Protocol.IterateFromZero | protocol/types.go:60-62 | from 0, the first n steps count up one by one while n stays below 65535 |
| Protocol.IncrementSeqPeriod | protocol/types.go:9 | iterating from 0 returns to 0 after exactly 65535 steps and at no earlier positive step, not after the 2^16 of the comment |
| Protocol.NewSlidingWindow | protocol/types.go:47-54 | base and next sequence number 0, the given size, nothing outstanding |
| Delta.EncodeDelta | workspace/main.py:3-13 | on success the output has one byte more than the input, the first two bytes are the first number in big-endian order and byte i + 1 is the i-th difference; it fails exactly on an empty list, a first number outside [0, 65535] or a difference outside [0, 255] |
| Delta.DecodeEncoded | workspace/main.py:4-12 | prefix-summing the differences from the first value gives the encoded list back |
| Delta.Example | workspace/main.py:15-18 | the six numbers of the worked example take seven bytes and decode back |
| Framing.Rest | tcp/gpt/server.py:335-336 | the fragment kept for the next receive holds no newline |
| Framing.Rebuild | tcp/gpt/server.py:335-336 | the complete lines, each with its newline, followed by the fragment, give back the buffer |
| Framing.LinesHaveNoNewline | tcp/gpt/server.py:335-336 | no complete line contains a newline |
| Framing.NoNewline | tcp/gpt/server.py:335 | a buffer without a newline holds no complete line and is kept whole |
| Framing.TakeFirstLine | tcp/gpt/server.py:336 | `split("\n", 1)` takes off the first line; the remaining lines and the fragment are those of what is left |
| Framing.TakeFirstLineOf | tcp/claude/server.py:280-284 | the framing loop's invariant holds over one step: the lines taken plus the lines the buffer still holds are the lines of the whole text |
| Framing.Chunking | tcp/grok/server.py:273-282 | receiving two chunks one after the other frames the same lines, in order, and the same fragment as receiving them at once |
| PacketLine.ParseFormat | tcp/gpt/client.py:211 | the server reads back exactly the packet a client formatted |
| PacketLine.ParseRejectsFieldCount | tcp/grok/server.py:301-302 | a line with two or four comma-free fields is rejected, whatever the fields hold |
| PacketLine.ParseFields | tcp/claude/server.py:254 | a line of three comma-free fields is accepted exactly when every field is an integer, and then carries those integers; otherwise it is rejected |
| SenderRules.Initial | tcp/gpt/client.py:62-86 | window 1, sequence 0, zero counters, no drop flag, empty maps |
| SenderRules.AdjustedWindow | tcp/gpt/client.py:290-304 | after a clean cycle the window doubles up to 32, after a lossy one it is `min(w, 16)`; it never shrinks after a clean cycle, never grows after a lossy one, and stays in [1, 32] when it starts there |
| SenderRules.WindowStaysInRange | tcp/claude/client.py:152-161 | from the initial window 1, any sequence of adjustments keeps the window in [1, 32] |
| SenderRules.WindowGrowthExample | tcp/gpt/client.py:296-301 | five clean cycles from 1 reach 32, and after a sixth clean one a lossy cycle gives 16 |
| SenderRules.RetransmitPassEntry | tcp/gpt/client.py:229-256 | every dropped entry with count >= 4 is deleted unsent; below 4, a re-drop keeps it with count + 1, a delivered resend moves it to `outstanding` with count + 1, a send error keeps its old count; afterwards no dropped count exceeds 4 |
| SenderRules.RetransmitPassFrame | tcp/claude/client.py:105-129 | a pass leaves the window, the sequence number and the sent counters alone and removes no outstanding entry |
| SenderRules.OutstandingCanExceedWindow | tcp/gpt/client.py:246-248 | resent entries enter `outstanding` without the admission check: window 1 with one outstanding and one resent packet has two outstanding |
| SenderRules.Acked | tcp/gpt/client.py:278-281 | one ack value removes exactly the outstanding keys before it |
| SenderRules.AckedIsWithout | tcp/claude/client.py:141-144 | acking removes exactly the set of keys before the ack value, counts of the others unchanged |
| SenderRules.AckLinesExactly | tcp/gpt/client.py:258-288 | a batch of ack lines keeps exactly the outstanding entries before none of the integer ack values, with their counts; blank and non-integer lines contribute no ack value |
| SenderRules.RetransmitCycle | tcp/gpt/client.py:167-170 | every 100 new packets: a retransmission pass, a reset of the counter, and an adjustment that clears the drop flag |
| SenderRules.CompleteIsStable | tcp/gpt/client.py:181-195 | once all packets are sent and both maps are empty the transfer is complete, and a retransmission pass or any ack leaves the state unchanged |
| SenderRules.ProtocolState.constructor | tcp/gpt/client.py:62-86 | the state is `Initial` |
| SenderRules.ProtocolState.AdjustWindow | tcp/gpt/client.py:290-304 | the window becomes `AdjustedWindow` and the drop flag is cleared |
| SenderRules.ProtocolState.RetransmitDropped | tcp/gpt/client.py:229-256 | the maps and the drop flag change as the pass function says, one key at a time; the text of each resent packet is not recorded |
| SenderRules.ProtocolState.RunRetransmitCycle | tcp/claude/client.py:206-209 | the state becomes `RetransmitCycle` of the old one |
| SenderRules.ProtocolState.RemoveAcked | tcp/gpt/client.py:278-281 | the outstanding map becomes `Acked` of the old one |
| SenderRules.ProtocolState.ProcessAcks | tcp/claude/client.py:131-150 | the outstanding map becomes the fold of `Acked` over the integer lines; nothing else changes |
| GptClient.SendNew | tcp/gpt/client.py:198-227 | a drop or a delivery adds one to `total_sent` and `since_last_retransmit`, moves `next_sequence` to `(seq + 1) mod 65536` and keeps the window; a send error changes nothing |
| GptClient.SendNewRecords | tcp/gpt/client.py:205-216 | a drop adds the packet to `dropped` with count 0, raises the drop flag and leaves `outstanding` alone; a delivery adds it to `outstanding` with count 0 and leaves `dropped` and the flag alone |
| GptClient.AdmitBounds | tcp/gpt/client.py:159-165 | admission never sends past `total_packets`, and `outstanding` grows only while below the window |
| GptClient.AdmitAdvancesSequence | tcp/gpt/client.py:221-223 | after admission, `next_sequence` has moved on by exactly the packets counted in `total_sent`, modulo 65536 |
| GptClient.SendErrorRetriesSameSequence | tcp/gpt/client.py:212-218 | a send error changes nothing, so the same sequence number is tried again |
| GptClient.SendNewPacket | tcp/gpt/client.py:198-227 | the new state is `SendNew` of the old one, with the text written |
| GptClient.FillWindow | tcp/gpt/client.py:159-165 | the admission loop's state is the fold of `SendNew` over the outcomes it consumed, and it stops only when the window is full or the total is reached |
| GptClient.TransferStep | tcp/gpt/client.py:156-175 | one pass of the outer loop of `start_data_transfer` leaves the state after admission, ack processing, the retransmission cycle when 100 new packets are due, and the final retransmission pass once all are sent and some are dropped |
| GptClient.AfterAdmissionWindow | tcp/gpt/client.py:156-179 | a whole pass of the outer loop keeps the window in [1, 32] |
| ClaudeClient.Record | tcp/claude/client.py:180-191 | a drop of a new `seq` records it in `dropped` with count 0 and raises `drop_occurred`, while a drop of a recorded one keeps its count and the flag; a delivery records it as outstanding with count 0; window, sequence number and counters are left to the caller |
| ClaudeClient.AdmitKeepsCounters | tcp/claude/client.py:176-210 | between cycles the counter stays below 100, the window in [1, 32], and no more than `total` packets are sent |
| ClaudeClient.AdmitAdvancesSequence | tcp/claude/client.py:195-197 | the current sequence number moves on by the new packets counted, modulo 65536 |
| ClaudeClient.SendErrorEndsAdmission | tcp/claude/client.py:186-193 | a send error ends admission without advancing anything, whatever follows |
| ClaudeClient.RedropKeepsCount | tcp/claude/client.py:182-185 | a drop of a number still recorded keeps its retransmission count |
| ClaudeClient.AdmitOne | tcp/claude/client.py:178-210 | the new state is `AdmitStep` of the old one, with the error flag and text written |
| ClaudeClient.FillWindow | tcp/claude/client.py:176-210 | the admission loop's state is the fold of `AdmitStep` over the outcomes it consumed |
| ClaudeClient.TransferStep | tcp/claude/client.py:172-215 | one pass of the outer loop of `transfer_data` leaves the state after admission (with its retransmission cycles), ack processing and the final retransmission pass once all are sent and some are dropped |
| ClaudeClient.TransferStepKeepsCounters | tcp/claude/client.py:172-220 | a pass of the outer loop keeps the counter below 100, the window in [1, 32] and the new-packet count within `total` |
| GrokClient.SendCounting | tcp/grok/client.py:95-105 | a new sequence number enters the window with count 0 and counts as unique; a tracked one is stored with its count plus one; one already retried four times is deleted and the call fails; no other entry changes |
| GrokClient.DroppedStillOccupiesWindow | tcp/grok/client.py:104-114 | the entry is stored before the loss simulation, so a dropped packet still occupies the window; only a successful `sendall` counts in `total_sent` and writes the packet |
| GrokClient.AdjustedBounds | tcp/grok/client.py:123-133 | the window grows by one up to 100 when empty, becomes `max(w // 2, 1)` when some entry has count 4, and otherwise stays; it stays in [1, 100] |
| GrokClient.FilterRemovesOnlyAck | tcp/grok/client.py:148-151 | the filter removes only the entry whose key is the ack itself, despite the comment promising all earlier ones |
| GrokClient.ReceiveAck | tcp/grok/client.py:139-159 | empty text after stripping means the server disconnected; text `int()` rejects is ignored; an integer is applied as the ack |
| GrokClient.InitialValid | tcp/grok/client.py:45-56 | the initial client has window size 10, an empty window and satisfies the invariant (window size in [1, 100], counts in [0, 4], `next_seq` in [0, 10000]) |
| GrokClient.SendValid | tcp/grok/client.py:96-101 | a send keeps every count in [0, 4]: a fifth retry deletes the entry instead |
| GrokClient.AckValid | tcp/grok/client.py:147-152 | applying an ack keeps the invariant |
| GrokClient.AdmitValid | tcp/grok/client.py:170-173 | admission sends `next_seq` only while the window has room and `next_seq` is below 10000, and then moves it on by exactly one; otherwise nothing changes; the invariant holds |
| GrokClient.SweepValid | tcp/grok/client.py:176-181 | the timeout pass keeps the invariant |
| GrokClient.SweepEntries | tcp/grok/client.py:176-181 | the pass changes only the keys it lists, each held as in the snapshot: one that has not timed out keeps its entry, a timed-out one is stored with its count raised and the current time, or deleted past the fourth retry |
| GrokClient.SweepWindow | tcp/grok/client.py:176-181 | over a snapshot of the whole window, the window afterwards holds exactly the entries that did not time out, unchanged, and the timed-out ones still under the retry limit, resent now |
| GrokClient.FifthResendDeletes | tcp/grok/client.py:97-101 | after the fourth retry the next resend deletes the entry, so a packet is sent at most five times |
| GrokClient.SlidingWindowClient.constructor | tcp/grok/client.py:45-56 | the state is `Initial` |
| GrokClient.SlidingWindowClient.SendPacket | tcp/grok/client.py:84-121 | the new state and result are those of `AfterSend` |
| GrokClient.SlidingWindowClient.AdjustWindowSize | tcp/grok/client.py:123-133 | the new state is `Adjusted` of the old one |
| GrokClient.SlidingWindowClient.ReceiveAcks | tcp/grok/client.py:139-159 | the new state and whether the loop continues are those of `ReceiveAck` |
| GrokClient.SlidingWindowClient.Admit | tcp/grok/client.py:170-173 | the new state is `AfterAdmit` of the old one |
| GrokClient.SlidingWindowClient.RetransmitTimedOut | tcp/grok/client.py:176-181 | the new state is `AfterSweep` of the old one over the snapshot of the window taken when the pass starts, resending exactly the entries with `now - send_time > 5000` |
| TcpServer.AdvanceConsistent | tcp/gpt/server.py:128-154 | every branch of sequence tracking keeps the frontier equal to (packets counted + numbers declared missing) mod 65536 |
| TcpServer.AdvanceAllConsistent | tcp/gpt/server.py:128-154 | any run of packets, in any order, keeps that frontier consistent |
| TcpServer.AdvanceAcksPacket | tcp/gpt/server.py:136-154 | a counted packet moves the frontier to its successor, so the cumulative ack is after it in sequence order; a packet that is not counted changes nothing |
| TcpServer.AdvanceIdempotent | tcp/gpt/server.py:136-154 | a packet received twice in a row is counted once |
| TcpServer.InOrderStream | tcp/gpt/server.py:136-138 | a loss-free stream of n packets counts n unique, none missing, and leaves the frontier at n mod 65536 |
| TcpServer.GapIsSkipped | tcp/gpt/server.py:139-154 | the receiver jumps over a gap: after 0, 1, 2, 4, 5 the ack is 6 with one number missing, not 3 |
| TcpServer.DroppedRangeNoWrap | tcp/gpt/server.py:148-150 | for a gap that does not cross the wrap, the drop log gains exactly the skipped numbers, one each, in order |
| TcpServer.DroppedAcrossWrap | tcp/gpt/server.py:141-150 | a gap that crosses the wrap is counted in `missing_packets` but `range(expected_seq, seq)` is empty, so nothing is logged |
| TcpServer.Goodput | tcp/gpt/server.py:156-165 | goodput is 0 before any packet and otherwise 100 * unique / total, never above 100 while unique <= total |
| TcpServer.UniqueCadenceSamplesAtZero | tcp/gpt/server.py:167-174 | the gpt/claude cadence (`unique_packets % 1000 == 0`) also samples when nothing has been counted, while grok's cadence does not |
| TcpServer.InitialValid | tcp/gpt/server.py:69-82 | fresh statistics satisfy the invariant: series as long as the packet count, unique <= total, a consistent frontier, histogram buckets only for 1..4 |
| TcpServer.RecordedValid | tcp/gpt/server.py:107-126 | recording a packet keeps the invariant and counts it in the total, so unique < total |
| TcpServer.TrackedValid | tcp/gpt/server.py:128-154 | sequence tracking after recording keeps the invariant |
| TcpServer.ProcessedValid | tcp/gpt/server.py:345-384 | processing a line keeps the invariant; a line that is not three integers changes nothing and is not acked |
| TcpServer.TotalCadenceSamples | tcp/grok/server.py:129-134 | under grok's cadence the number of goodput samples is always total // 1000 |
| TcpServer.FoldAppend | tcp/gpt/server.py:335-339 | handling lines in two batches is the same as handling them in one |
| TcpServer.ProcessLinesSnoc | tcp/gpt/server.py:335-339 | each extra line is handled after all the earlier ones, and its ack comes after theirs |
| TcpServer.ProcessLinesValid | tcp/gpt/server.py:335-339 | every batch of lines keeps the invariant |
| TcpServer.ReceiveChunking | tcp/gpt/server.py:326-339 | how the stream is split into `recv` chunks does not matter: two chunks in a row have the effect of their concatenation |
| TcpServer.ServeData | tcp/gpt/server.py:324-343 | in the receive loop, the acks of one chunk come before those of later chunks, and the final state is that of the rest of the loop |
| TcpServer.TimeoutKeepsFragment | tcp/grok/server.py:283-285 | in grok's server a timeout changes neither the statistics nor the buffered fragment; in the others it ends the loop |
| TcpServer.ServeValid | tcp/gpt/server.py:324-343 | the whole receive loop keeps the invariant, and what stays in the buffer never contains a complete line |
| TcpServer.AckReleasesPacket | tcp/gpt/server.py:373-374 | the server accepts the line a client formats for packet `sn`; when it counts the packet, the ack it sends back makes the client's ack processing remove `sn` |
| TcpServer.AckLineFraming | tcp/gpt/server.py:373 | an ack `f"{expected_seq}\n"` is read by the client as exactly one line |
| TcpServer.NetworkStatistics.constructor | tcp/gpt/server.py:69-82 | the statistics start empty, with the frontier at 0 |
| TcpServer.NetworkStatistics.RecordPacket | tcp/gpt/server.py:107-126 | the new state is `Recorded` of the old one |
| TcpServer.NetworkStatistics.UpdateSequenceTracking | tcp/gpt/server.py:128-154 | the new state, including the drop log built by the `range` loop, is `Tracked` of the old one |
| TcpServer.NetworkStatistics.RecordGoodput | tcp/gpt/server.py:167-174 | the new state is `Sampled` of the old one under this server's cadence |
| TcpServer.StreamServer.constructor | tcp/gpt/server.py:268-282 | the server starts with fresh statistics, an empty buffer and nothing sent |
| TcpServer.StreamServer.ProcessPacket | tcp/gpt/server.py:345-384 | the statistics and the acks sent are those of `Processed`, and the result is True exactly when an ack was sent |
| TcpServer.StreamServer.ProcessLine | tcp/gpt/server.py:336-339 | a stripped line is processed unless it is blank |
| TcpServer.StreamServer.TakeLine | tcp/gpt/server.py:335-339 | taking the first complete line off the buffer and handling it keeps the state equal to handling the lines done so far |
| TcpServer.StreamServer.Receive | tcp/gpt/server.py:326-339 | after one chunk, the state, buffer and acks are those of `AfterReceive`, and no complete line is left in the buffer |
| TcpServer.StreamServer.Serve | tcp/gpt/server.py:324-343 | the whole receive loop ends in the state, buffer and acks of `AfterServe` |
| BlockServer.ApplyBitsEffect | server.py:103-115 | the sequence numbers of the '0' bits, `(start + i) % 65536`, are appended to `missing_seqs` in order; `total_recv` grows by the number of '1' bits; `last_ack` becomes the number of the last '1' bit, or stays when there is none; other characters still take up an index |
| BlockServer.ProcessTextEffect | server.py:84-122 | every data message is answered with exactly one reply, the `last_ack` after it; a message without ':' or whose start is not an integer changes nothing else; `missing_seqs` only grows at its end; only server.py records the window size |
| BlockServer.RetransmissionEffect | server.py:124-146 | a retransmission message counts every big-endian 16-bit value after the first byte as received and takes one occurrence of each off the missing list where present; an odd trailing byte is ignored and nothing is replied |
| BlockServer.HandshakeText | server.py:148-154 | the handshake accepts exactly the text `network` up to surrounding spaces and the characters 9 to 13 |
| BlockServer.FinishEndsSession | server.py:195-197 | nothing after a message starting with `F` is looked at |
| BlockServer.ApplyBitsValid | server.py:105-115 | the bit loop keeps `last_ack` and every missing number within 0..65535 |
| BlockServer.RemoveEachValid | server.py:137-139 | removing retransmitted values keeps every missing number within 0..65535 |
| BlockServer.SessionValid | server.py:189-200 | a whole session keeps `last_ack` and every missing number within 0..65535 |
| BlockServer.RecordDataGoodput | server.py:66-76 | the recorded goodput lies in [0, 1] and is 0 exactly when nothing was received |
| BlockServer.ReceivedCanBeNegative | server.py:72 | the `received` column `total_recv - len(missing_seqs)` goes negative: one block `0:0` from the start records -1 |
| BlockServer.Server.constructor | server.py:8-17 | the counters start at 0 with an empty missing list, and the window size is 500 for server.py and 32 for workspace/binary_server.py |
| BlockServer.Server.SendLastAck | server.py:117 | the reply `last_ack` is appended to the replies and nothing else changes |
| BlockServer.Server.ProcessClientData | server.py:84-122 | the new state is `ProcessData` of the old one |
| BlockServer.Server.ProcessClientRetransmission | server.py:124-146 | the new state is `Retransmission` of the old one |
| BlockServer.Server.Handshake | server.py:148-154 | the result is whether the handshake accepts the bytes, and `success\n` is sent exactly then |
| BlockServer.Server.HandleClient | server.py:179-203 | the connection ends in the state of `Serve` |
| BlockServer.Server.RunSession | server.py:189-200 | the receive loop after the handshake leaves the state of `Session` over the messages, stopping at the finish message |
| BlockServer.Server.HandleMessage | server.py:190-200 | a message that is empty or starts with 'F' ends the session and changes nothing; any other is handled as a retransmission or as data, and the rest of the session continues from there |
| BlockServer.Server.RecordSample | server.py:66-76 | one sample, `RecordData` of the current state, is appended and nothing else changes |
| BlockClient.BitsAt | workspace/binary_client.py:69-71 | a block has one bit per packet: `0` where the drop roll fires and `1` otherwise |
| BlockClient.DroppedInMembers | workspace/binary_client.py:73-74 | every dropped index `i` records `start + i`, in order, and nothing else is recorded |
| BlockClient.TransmitEffect | workspace/binary_client.py:65-81 | the header is `last_ack + 1` without reduction; the block has `window_size` bits; `total_sent` grows by `window_size` whatever was dropped; `wrap` grows exactly when the new ack is below the old one |
| BlockClient.ZerosOfBits | server.py:106-112 | the numbers the server records as missing for a block are the client's dropped numbers reduced modulo 65536 |
| BlockClient.SplitBlock | server.py:94-101 | the block text splits at ':' into the decimal start and the bits |
| BlockClient.BlockIsData | server.py:192-200 | the block starts with a digit, so the server treats it as data rather than a retransmission or a finish |
| BlockClient.ServerReadsBlock | server.py:84-117 | the server decodes a block sent from `start >= 0`, splits it into the start and the bits, runs its bit loop over them and replies |
| BlockClient.BlockRoundTrip | workspace/binary_client.py:65-81 | the server appends to `missing_seqs` exactly the client's newly dropped numbers reduced modulo 65536, in order, counts one packet per delivered bit, and replies with its `last_ack`, which the client takes as its new `last_ack` |
| BlockClient.OnesOfBits | workspace/binary_client.py:69-76 | a block has one '1' per delivered packet: its length less the dropped ones |
| BlockClient.PacketClient.constructor | workspace/binary_client.py:7-30 | the state is `Initial`: window 50, `last_ack = -1`, nothing sent |
| BlockClient.PacketClient.BuildBlock | workspace/binary_client.py:69-74 | the loop builds the bits of `Bits` and appends each dropped sequence number to `dropped` |
| BlockClient.PacketClient.AppendBits | workspace/binary_client.py:69-74 | the loop appends one bit per packet to the text it starts from, and appends to `dropped` exactly the dropped numbers, in order |
| BlockClient.PacketClient.HandleTransmit | workspace/binary_client.py:65-81 | the new state and whether the reply parsed as an integer are those of `AfterTransmit` |
| BlockTestServer.HandleEffect | workspace/server_test.py:20-63 | a rejected message changes nothing and gets no reply; an accepted one records at most one missing number, that of the first bit that is not '1', and is answered `ack: start + 1000` |
| BlockTestServer.AckIgnoresDrops | workspace/server_test.py:54-61 | the reply does not depend on the bits: two accepted blocks with the same start are acknowledged alike, even when one drops its first packet |
| BlockTestServer.BlockMessageAccepted | workspace/server_test.py:22-38 | the checks accept a block of 1000 bits under its `start:` header, with that start and those bits |
| BlockTestServer.BlockMessageLines | workspace/server_test.py:22-29 | the header line and the bits come back as the two lines of the message |
| BlockTestServer.HeaderNumber | workspace/server_test.py:35 | the field after the colon of the header line parses back to the start |
| BlockTestServer.HandleMessage | workspace/server_test.py:20-63 | the missing list and reply after the checks and the bit loop are those of `Handle` |
| BlockTestServer.CheckMessage | workspace/server_test.py:22-38 | the checks, returning at the first that fails, give the verdict `Check` of the message |
| BlockTestServer.ScanBits | workspace/server_test.py:40-61 | the bit loop appends `start` plus the index of the first bit that is not '1' when there is one, nothing otherwise, and the reply is `ack: start + 1000` |
| BlockTestServer.ServeBound | workspace/server_test.py:15-63 | over a connection at most one missing number and at most one reply are added per message, and earlier records are kept |
| BlockTestServer.ServeLoop | workspace/server_test.py:15-63 | the loop ends with the missing list and replies of `Serve` from an empty list |
| Bytes.UnpackU16 | server.py:131-135 | `struct.unpack("!{n}H")` gives one value per byte pair, big-endian, each in 0..65535 |
| Bytes.UnpackPack | server.py:134-135 | unpacking the big-endian packing of values in 0..65535 gives them back |
| Bytes.OddByteIgnored | server.py:131-134 | an odd trailing byte is not unpacked |
| Bytes.DecodeEncode | server.py:88 | decoding the bytes of an ASCII text gives the text back |
| TokenServer.Tokens | workspace/server_claude.py:99 | a message always has at least one token, and tokens are the stripped text split on single spaces |
| TokenServer.RetransmittedOk | workspace/server_claude.py:103-105 | the `RETRANSMIT` loop gets through exactly when every token other than `dropped` is an integer |
| TokenServer.RetransmittedCounts | workspace/server_claude.py:103-106 | each removal from the missing list counts one received packet, so their sum is kept, the received count never drops and nothing else changes |
| TokenServer.RetransmittedMissing | workspace/server_claude.py:103-106 | a `RETRANSMIT` message that parses takes one occurrence of each listed value out of the missing list, as far as there are occurrences |
| TokenServer.ScannedOk | workspace/server_claude.py:114-124 | the window loop gets through exactly when every token other than `dropped` is an integer |
| TokenServer.ScannedFrame | workspace/server_claude.py:114-124 | the window loop only appends to the missing list, one entry per `total_missing` increment, never lowers the received count, and changes nothing but these and `last_ack` |
| TokenServer.ScannedCounts | workspace/server_claude.py:114-124 | a window that parses counts every number as received and every `dropped` as missing; `last_ack` becomes the last number, or stays when there is none |
| TokenServer.InitialValid | workspace/server_claude.py:39-50 | the reset state satisfies the invariant: series in lockstep, the missing list within `total_missing`, and the guard consistent with the checkpoints taken |
| TokenServer.RetransmittedValid | workspace/server_claude.py:102-108 | a `RETRANSMIT` message keeps the invariant |
| TokenServer.ScannedValid | workspace/server_claude.py:111-144 | a window and the checkpoint after it keep the invariant |
| TokenServer.AfterMessageValid | workspace/server_claude.py:99-144 | every message keeps the invariant |
| TokenServer.FinishedValid | workspace/server_claude.py:149-161 | the final statistics keep the series in lockstep and the missing list within `total_missing` |
| TokenServer.RunValid | workspace/server_claude.py:86-167 | a whole run keeps the series in lockstep and the missing list within `total_missing` |
| TokenServer.WindowReply | workspace/server_claude.py:126-130 | after a window that parses, the reply is `ACK {last_ack}` and the server expects `(last_ack + 1) % 65536`, so from `last_ack = -1` a window of drops leads it to expect 0 |
| TokenServer.CorrectedCheckpoint | workspace/server_claude.py:132-144 | a checkpoint is taken exactly when `total_received // 1000` has passed the guard, and the guard becomes that count; otherwise nothing changes |
| TokenServer.OriginalCheckpointStalls | workspace/server.py:154-163 | with the guard set to the goodput percentage, after a checkpoint at 1000 received the next at 2000 is skipped, where the corrected server takes it |
| TokenServer.CheckpointPercent | workspace/server_claude.py:133-144 | a checkpoint appends one point to each series; its goodput has denominator received plus missing, is at most 100 percent, and is exactly 100 when nothing is missing |
| TokenServer.FinishedPercent | workspace/server_claude.py:151-161 | the final point's goodput is `100 * received` over received plus lost, at most 100 percent, and exactly 100 when the missing list (workspace/server_claude.py) or `total_missing` (workspace/server.py) is empty |
| TokenServer.RetransmittedFailed | workspace/server_claude.py:103-105 | a token `int()` rejects ends the `RETRANSMIT` loop with the state it had reached |
| TokenServer.ScannedFailed | workspace/server_claude.py:114-119 | a token `int()` rejects ends the window loop with the state it had reached |
| TokenServer.Server.constructor | workspace/server_claude.py:10-31 | the state is `Initial` |
| TokenServer.Server.Reset | workspace/server_claude.py:39-50 | every counter and list is back at its initial value |
| TokenServer.Server.ProcessRetransmit | workspace/server_claude.py:102-108 | the new state and whether parsing succeeded are those of `Retransmitted` |
| TokenServer.Server.ProcessWindow | workspace/server_claude.py:111-124 | the new state and whether parsing succeeded are those of `Scanned` |
| TokenServer.Server.Checkpoint | workspace/server_claude.py:132-144 | the new state is `Checkpointed` of the old one: when due, one point per series with the goodput percentage `100 * received / (received + missing)` |
| TokenServer.Server.HandleMessage | workspace/server_claude.py:95-144 | the new state, the reply and whether the loop goes on are those of `AfterMessage`, checkpoint goodputs recorded as percentages |
| TokenServer.Server.Finish | workspace/server_claude.py:149-161 | the new state is `Finished` of the old one: when anything was received, one more point with the final goodput percentage |
| TokenServer.Server.RunLoop | workspace/server_claude.py:86-167 | the run ends in the state and replies of `Run` |
| TokenClient.WindowedTokens | workspace/client_claude.py:161-178 | a window below `TOTAL_PACKETS` sends one token per outcome for consecutive sequence numbers, `dropped` exactly where the outcome says so, appends exactly those numbers to `dropped_packets`, and moves `seq_num` on by its length modulo 65536 |
| TokenClient.WindowedBounds | workspace/client_claude.py:158-178 | a window carries at most four tokens, never sends past `TOTAL_PACKETS`, and counts a wrap exactly when `seq_num` comes back to 0 |
| TokenClient.SendStepWrap | workspace/client_claude.py:174-176 | each step counts a wrap exactly when the new sequence number is 0 |
| TokenClient.WindowedStops | workspace/client_claude.py:162-163 | once `TOTAL_PACKETS` have been sent, the rest of the window sends nothing and changes nothing |
| TokenClient.SpaceTerminatedJoin | workspace/client_claude.py:172 | the text built by `window += f"{seq} "` is the tokens joined by spaces plus one trailing space |
| TokenClient.JoinEnds | workspace/client_claude.py:172 | joined numeric or `dropped` tokens neither start nor end with whitespace, so stripping the window text removes only the trailing space |
| TokenClient.ServerReadsTokens | workspace/server_claude.py:99 | the server splits the client's window text back into exactly its tokens |
| TokenClient.ScanMatchesDrops | workspace/server_claude.py:111-127 | when the server expects a window's first number, it appends to `missing_seq` exactly the numbers that window dropped and ends expecting the number after the window |
| TokenClient.WindowMatchesServer | workspace/client_claude.py:161-180 | when the server of workspace/server_claude.py expects the window's first number, it records as missing exactly the numbers the client appended to `dropped_packets` for that window, and replies with an `ACK` |
| TokenClient.ServerScansWindow | workspace/server_claude.py:99-124 | when the server expects the window's first number, it reads the client's window text back as that window's tokens, does not take it for a `RETRANSMIT`, and scans it as the client's outcomes say |
| TokenClient.ServerAfterWindow | workspace/server_claude.py:111-127 | after such a window, `missing_seq` is what the scan left and `expected_seq` is one after the scan's `last_ack`, modulo 65536 |
| TokenClient.ScanEndsDelivered | workspace/server_claude.py:114-119 | a scan whose last token is a number acknowledges that last number |
| TokenClient.ScanEndsDropped | workspace/server_claude.py:114-124 | a scan ending with a number and then `dropped` acknowledges the number and records the next one as the last missing entry |
| TokenClient.WindowKeepsAlignment | workspace/server_claude.py:126-127 | when the server expects the window's first number and the window's last packet is delivered, the server then expects the client's new `seq_num`, so the next window starts aligned |
| TokenClient.TrailingDropLags | workspace/server_claude.py:126-127 | when the server expects the window's first number and the window ends with a delivery followed by `dropped`, the server then expects the dropped number, has it last in `missing_seq`, and differs from the client's new `seq_num` (workspace/client_claude.py:168-176) |
| TokenClient.RetransmittedTokens | workspace/client_claude.py:68-82 | the retransmission loop sends one token per processed number, `dropped` exactly for those dropped again |
| TokenClient.RetransmittedSplit | workspace/client_claude.py:75-80 | the batch splits into the numbers dropped again, kept in order, and those resent |
| TokenClient.RetransmittedCounts | workspace/client_claude.py:69-73 | each number's retransmission count rises by the times it occurs in the batch, starting from 0 for a new number; no other count changes |
| TokenClient.RetransmittedValues | workspace/client_claude.py:79-82 | the numbers read back from the resent tokens are exactly the resent numbers |
| TokenClient.AfterRetransmitEffect | workspace/client_claude.py:56-90 | a pass takes `min(4, len)` entries off the front, resends those not dropped again and puts the others at the end, so the list shrinks by exactly the number resent; an empty list sends nothing |
| TokenClient.RetransmitMatchesServer | workspace/server_claude.py:102-106 | the server reads a `RETRANSMIT` message as exactly the resent tokens, so its missing multiset loses exactly the numbers the client resent |
| TokenClient.RetransmitTextTokens | workspace/client_claude.py:63-82 | the `RETRANSMIT` text splits into the tag followed by exactly the tokens of the pass |
| TokenClient.Histogram | workspace/client_claude.py:227-233 | bucket `b` counts the sequence numbers retransmitted exactly `b` times, and bucket 4 also takes every count above 4 |
| TokenClient.Tally | workspace/client_claude.py:230-233 | one count adds one to bucket `count` when it is 1 to 4, to bucket 4 when it is above 4, and to no bucket otherwise |
| TokenClient.RetransmitLoop | workspace/client_claude.py:68-82 | the loop's counts, `RETRANSMIT` text and numbers dropped again are those of the pass specification |
| TokenClient.TokenWindowClient.constructor | workspace/client_claude.py:11-39 | the state is `Initial` |
| TokenClient.TokenWindowClient.BuildWindow | workspace/client_claude.py:159-180 | the new state is that of `WindowedClient` and the text sent is the tokens of `SentTokens`, each followed by a space; sending stops once the total reaches its bound |
| TokenClient.TokenWindowClient.SendOne | workspace/client_claude.py:164-176 | one packet's token is its number, or `dropped` when dropped; the new state is that of `SendStep`: the number remembered on a drop, `seq_num` moved on modulo 65536 with a wrap counted on reaching 0, and one more packet sent |
| TokenClient.TokenWindowClient.HandleRetransmit | workspace/client_claude.py:56-90 | the new state is that of `AfterRetransmit`; the text is the `RETRANSMIT` message, or nothing when no packet is remembered |
| TokenClient.TokenWindowClient.ReceiveAck | workspace/client_claude.py:182-188 | the last token of the reply becomes `recv_ack` and the acked count is sent minus remembered drops; a reply `int()` rejects ends the loop |
| TokenClient.TokenWindowClient.SendCycle | workspace/client_claude.py:157-193 | one pass of the main loop sends the window of `BuildWindow`; an ack `int()` rejects ends the loop with the window's state; otherwise the ack is recorded, and a retransmission pass of `AfterRetransmit` follows exactly when the packets sent are a multiple of 1000 |
| TokenClient.TokenWindowClient.FinalPass | workspace/client_claude.py:200-207 | a retransmission pass, then the acked count brought up to date if the reply arrives; otherwise the loop ends |
| SimpleClient.PassEntry | simple_server/client_side.py:75-106 | the retransmission pass decides each listed key on its own: it stays exactly when its count is below 4 and the attempt did not bring the ack `(seq + 1) % 65536`, and then its count is one higher; unlisted keys are untouched and no key is added |
| SimpleClient.PassKeepsRange | simple_server/client_side.py:79-106 | a pass over every key keeps every count between 1 and 4 |
| SimpleClient.PassSentCounts | simple_server/client_side.py:88-96 | every packet a pass sends is `seq,4,count` for a key's count before the pass, which is 1, 2 or 3 |
| SimpleClient.ServerAckDelivers | simple_server/server_side.py:125-127 | the server's ack for a retransmitted packet is exactly the one the client's pass accepts, so the entry is removed |
| SimpleClient.ServerAcceptsPass | simple_server/server_side.py:110-127 | the server accepts every packet a pass sends without a `KeyError`, acks it and counts it in the bucket of its retransmission count |
| SimpleClient.ServerAcceptsPacket | simple_server/server_side.py:119-127 | a single packet with count 1..3 is acked and counted in its bucket |
| SimpleClient.IterationValid | simple_server/client_side.py:37-62 | an iteration keeps the counts in 1..4 and the counter at most 100; a drop enters with count 1; a regular packet is `seq % 65536,4,0`; `sequence_number` grows by one without wrapping; the counter resets after a pass |
| SimpleClient.CounterCountsDrops | simple_server/client_side.py:40-49 | `retransmission_counter` counts drops only: until it reaches 100 no pass runs and it equals the number of drops, and no entry is lost |
| SimpleClient.TcpClient.constructor | simple_server/client_side.py:7-14 | the client starts at sequence number 0 with no dropped packets |
| SimpleClient.FailuresDiffer | simple_server/client_side.py:93-106 | an exception raised by `send` and one raised by `recv` or `int()` both raise the count by one, but only the latter follows a packet on the wire |
| SimpleClient.TcpClient.HandleRetransmission | simple_server/client_side.py:75-106 | the dictionary after the loop and the packets sent are `Pass` and `PassSent` of the old dictionary |
| SimpleClient.TcpClient.RetransmitOne | simple_server/client_side.py:80-106 | one key's attempt: after 4 attempts the key is deleted, a delivered retransmission deletes it, and otherwise its count goes up by one; the packet sent, if any, is that of `PassPacket`, none when the retransmission is dropped again or `send` raises |
| SimpleClient.TcpClient.Iterate | simple_server/client_side.py:37-62 | the new state, counter and packets are those of `Iteration` |
| SimpleServer.InitialValid | simple_server/server_side.py:11-22 | the fresh server satisfies the invariant: series in lockstep, exactly the buckets 1..4, bucket total equal to the drops recorded |
| SimpleServer.ReceiveValid | simple_server/server_side.py:105-129 | every pass of the receive loop keeps the invariant |
| SimpleServer.ReceiveEffect | simple_server/server_side.py:105-129 | a malformed packet ends the connection with nothing changed; a well-formed one is appended to the series; a count above 4 raises after the appends with no ack; otherwise it is acked with `(seq + 1) % 65536`, counted, and recorded as a drop exactly when its count is positive |
| SimpleServer.ReceiveRetransmission | simple_server/server_side.py:119-123 | a packet with count 1..4 is acked, counted in its bucket and recorded as a drop |
| SimpleServer.AckIsSuccessor | simple_server/server_side.py:126 | the ack parses back as the successor of the sequence number modulo 65536, so 65535 is acked with 0 |
| SimpleServer.LoopValid | simple_server/server_side.py:105-131 | a connection keeps the invariant and sends one ack per packet counted, at most one per chunk |
| SimpleServer.ConnectionValid | simple_server/server_side.py:98-131 | a connection keeps the invariant, and a wrong handshake changes nothing and gets no reply |
| SimpleServer.TcpServer.constructor | simple_server/server_side.py:8-22 | the state is `Initial` |
| SimpleServer.TcpServer.HandlePacket | simple_server/server_side.py:106-131 | the new state, reply and whether the loop goes on are those of `Receive` |
| SimpleServer.TcpServer.RecordSeries | simple_server/server_side.py:114-117 | the three series each gain one entry and nothing else changes |
| SimpleServer.TcpServer.CountRetransmission | simple_server/server_side.py:119-123 | the lookup succeeds unless the count is positive and has no bucket; on success a positive count bumps its bucket and records a drop; otherwise nothing changes |
| SimpleServer.TcpServer.Serve | simple_server/server_side.py:98-131 | one connection ends in the state and replies of `Connection` |
| GoTracker.NormalisedGap | cmd/server/server1.go:40-49 | the adjusted gap lies in [-32768, 32768], equals the true difference modulo 65536, is in (0, 32768) exactly when the packet comes after the last one in circular order, and a wrap is counted exactly when a gap below -32768 is lifted |
| GoTracker.RecordEffect | cmd/server/server1.go:32-61 | the first packet sets `lastSeq` and counts one with nothing missing; later, one packet is counted per call, `missingCount` grows by `gap - 1` and `lastSeq` moves exactly when the adjusted gap is positive, and never decreases otherwise |
| GoTracker.InOrderNoLoss | cmd/server/server1.go:41-54 | the next number in order, including 65535 then 0, counts nothing missing; the step across 0 counts one wrap |
| GoTracker.Goodput | cmd/server/server1.go:63-70 | 0 when received plus missing is 0, else received over received plus missing, always in [0, 1] |
| GoTracker.TokensCount | cmd/server/server1.go:127-156 | a line counts exactly its integer comma-separated tokens as received, never lowers the missing count, and keeps the report counter below 1000 |
| GoTracker.ServeEchoes | cmd/server/server1.go:100-164 | after the `success` reply, every reply echoes one non-empty line in order; no line is answered once 50000 packets were counted |
| GoTracker.SimpleTracker.constructor | cmd/server/server1.go:26-30 | `lastSeq` is -1 and every counter is 0 |
| GoTracker.SimpleTracker.RecordPacket | cmd/server/server1.go:32-61 | the tracker's new state is `Record` of the old one |
| GoTracker.HandleLine | cmd/server/server1.go:127-156 | the token loop leaves the tracker and report counter as the `Tokens` fold over the line's parts |
| GoTracker.HandleConnection | cmd/server/server1.go:91-164 | the replies and final tracker are those of `Connection` over the scanned lines |
| GoStatsServer.HandleSequenceEffect | cmd/server/new_server.go:47-79 | one packet counted per call; `seq - last - 1` added to missing only when positive and not for the first packet; `lastSequence` set to `seq` unconditionally; the interval counter stays below 1000, resetting when it reaches 1000 |
| GoStatsServer.WrapHidesLoss | cmd/server/new_server.go:56-62 | with no wrap-around handling, 65535 then 1 counts nothing missing although 0 was skipped |
| GoStatsServer.IncreasingRunMissing | cmd/server/new_server.go:56-62 | for a strictly increasing run of non-negative numbers from the first packet, missing is the span from first to last less the count received |
| GoStatsServer.Numbers | cmd/server/new_server.go:110-117 | the integer tokens of a line, never more than its parts |
| GoStatsServer.FinishEnds | cmd/server/new_server.go:119-131 | the line `FINISH` is echoed, ends the connection and leaves the statistics unchanged |
| GoStatsServer.ServeEchoes | cmd/server/new_server.go:103-138 | every reply echoes one non-empty line with `\n`, in order, at most one per line, and the received count never goes down |
| GoStatsServer.FeedCounts | cmd/server/new_server.go:110-117 | feeding numbers counts each once and never lowers the missing count |
| GoStatsServer.ServerStats.constructor | cmd/server/new_server.go:28-33 | `lastSequence` is -1 and the counters are 0 |
| GoStatsServer.ServerStats.HandleSequence | cmd/server/new_server.go:47-79 | the new statistics are `Handled` of the old ones |
| GoStatsServer.HandleLine | cmd/server/new_server.go:110-117 | the token loop leaves the statistics as the fold over the line's integer tokens |
| GoStatsServer.HandleConnection | cmd/server/new_server.go:103-138 | replies and final statistics are those of `Serve` over the scanned lines |
| GoGapServer.NewServerValid | cmd/server/main.go:27-35 | a new server has equal counters and `lastReported` 0 |
| GoGapServer.HandledEffect | cmd/server/main.go:74-88 | both counters grow by one so they stay equal; the number joins the received set; old missing marks are kept; afterwards every number in [0, seq) is received or marked missing, and new marks are in [0, seq) and unreceived |
| GoGapServer.LateArrivalStaysMissing | cmd/server/main.go:84-88 | after 2 then 1, the number 1 is both received and still marked missing |
| GoGapServer.ServeAcks | cmd/server/main.go:58-71 | each integer line is answered with `ACK <seq>` in order, non-integer lines are skipped, the counters grow by the number of integer lines and no mark or received number is lost |
| GoGapServer.BadHandshake | cmd/server/main.go:48-52 | a first line other than `network` gets no reply and changes nothing |
| GoGapServer.GapServer.constructor | cmd/server/main.go:27-35 | empty maps, zero counters |
| GoGapServer.GapServer.HandleSequenceNumber | cmd/server/main.go:74-92 | the marking loop leaves the server as `Handled`, and the reply is `ACK <seq>` |
| GoGapServer.HandleConnection | cmd/server/main.go:37-72 | the replies and final server are those of `Connection` over the lines |
| GoAckServer.Advance | cmd/server/server.go:71-74 | the result is at least `lastAck`, every number above `lastAck` up to it is received, and the next one is not |
| GoAckServer.InitialValid | cmd/server/server.go:36-38 | the empty set with `lastAck` 0 satisfies the contiguity invariant |
| GoAckServer.ValidCharacterises | cmd/server/server.go:71-74 | in a valid state, `k <= lastAck` exactly when every number in 1..k was received |
| GoAckServer.StepEffect | cmd/server/server.go:41-83 | a well-formed `SEQ n` adds n and is answered `ACK <lastAck>`; `finish` alone ends the connection; malformed `SEQ` lines and other lines leave the state unchanged; `lastAck` never decreases and the invariant holds |
| GoAckServer.RecordMoves | cmd/server/server.go:68-74 | only the number right after `lastAck` moves `lastAck`, and then strictly up |
| GoAckServer.ServeValid | cmd/server/server.go:40-84 | a connection keeps the invariant, never lowers `lastAck`, and replies at most once per line |
| GoAckServer.FinishEnds | cmd/server/server.go:48-51 | `finish` is answered `goodbye` and ends the connection whatever follows |
| GoAckServer.HandleConnection | cmd/server/server.go:30-89 | the replies are those of `Serve` from the empty state |
| GoAckServer.HandleLine | cmd/server/server.go:41-83 | one pass of the switch is `Step` |
| GoAckServer.AdvanceLoop | cmd/server/server.go:72-74 | the loop's result is `Advance` |
| SetServer.SetMin | cmd/server/main.py:41 | `min` of a non-empty set: a member no larger than any member |
| SetServer.SetMax | cmd/server/main.py:41 | `max` of a non-empty set: a member no smaller than any member |
| SetServer.InitialValid | cmd/server/main.py:10-14 | the initial server satisfies the invariant |
| SetServer.ReceivedEffect | cmd/server/main.py:36-52 | `total_sent` grows by one and the number joins the set; the missing set is exactly the unreceived numbers between min and max, so the new number is not missing; a goodput is recorded exactly when the set size is a multiple of 1000, older ones kept |
| SetServer.DuplicateLowersGoodput | cmd/server/main.py:37-38 | a repeated number leaves the set unchanged but counts as sent |
| SetServer.ServeValid | cmd/server/main.py:30-56 | the loop keeps the invariant (received no more than sent, missing disjoint from received, goodputs in [0, 1]) and answers each message in turn with its number plus one |
| SetServer.HandshakeNotEnforced | cmd/server/main.py:26-30 | a wrong greeting gets no reply, but the numbers after it are served as usual |
| SetServer.TcpServer.constructor | cmd/server/main.py:7-14 | empty sets, zero counters, no goodputs |
| SetServer.TcpServer.Receive | cmd/server/main.py:36-52 | the new state is `Received` of the old one, and the reply is the number plus one |
| SetServer.MinMax | cmd/server/main.py:41 | the one pass over the set returns its smallest and largest members |
| SetServer.ServeLoop | cmd/server/main.py:30-56 | the replies and final state are those of `Serve` |
| SetServer.Start | cmd/server/main.py:16-56 | a fresh server, with replies and state those of `Connection` |
| DedupeServer.Goodput | cmd/server/server_side.py:14-18 | 0 when nothing is expected; otherwise a ratio over `total_expected` that lies in [0, 1] while received does not exceed expected, and is 1 exactly when every expected packet was received |
| DedupeServer.InitialValid | cmd/server/server_side.py:9-12 | the initial server satisfies the invariant |
| DedupeServer.ReceivedEffect | cmd/server/server_side.py:55-72 | `total_expected` grows by one; a new number joins the set and counts as received and towards the interval, which wraps at 1000; a duplicate changes nothing else; `total_received == len(received) <= total_expected` is kept and goodput stays in [0, 1] |
| DedupeServer.ServeEffect | cmd/server/server_side.py:48-72 | a connection keeps the invariant, counts each number read as expected and adds exactly those numbers to the set |
| DedupeServer.ServeReplies | cmd/server/server_side.py:64-66 | the replies are the numbers read, each plus one, in order |
| DedupeServer.BadGreeting | cmd/server/server_side.py:42-43 | a greeting other than `network` (after stripping) leaves the server unchanged with no reply |
| DedupeServer.TcpServer.constructor | cmd/server/server_side.py:5-12 | empty set and zero counters |
| DedupeServer.TcpServer.Receive | cmd/server/server_side.py:55-72 | the new state is `Received` of the old one, and the reply is the number plus one |
| DedupeServer.ServeLoop | cmd/server/server_side.py:48-72 | replies, final state and the error exit are those of `Serve` |
| DedupeServer.ServeOne | cmd/server/server_side.py:50-66 | an empty message leaves the server alone and ends the loop, one that does not parse ends it on an error, and any other number is received and answered as `Serve` does for the head of the messages |
| DedupeServer.HandleClient | cmd/server/server_side.py:40-77 | replies, final state and error exit are those of `Connection` |
| GoWindowClient.NewClientValid | cmd/client/new_client.go:41-48 | the new client has window size 10, an empty window and start 0, and satisfies the invariant |
| GoWindowClient.AdjustWindowEffect | cmd/client/new_client.go:50-63 | with a recent ack the size grows by exactly one when the window is not full and below 1000, else stays; with a stale ack it becomes `max(w / 2, 10)`; it stays in [10, 1000] |
| GoWindowClient.SendRunEffect | cmd/client/new_client.go:104-123 | each iteration draws `nextSequence mod 65536` and adds one to `nextSequence` and `totalSent`; a kept packet enters the window with one attempt and goes into the message; a dropped one only adds to `totalDropped`; other entries are unchanged |
| GoWindowClient.SendWhenFull | cmd/client/new_client.go:97-100 | with a full window nothing is sent |
| GoWindowClient.SendCountBounds | cmd/client/new_client.go:102-105 | the loop never passes the target nor the free room in the window |
| GoWindowClient.SendNewPacketsValid | cmd/client/new_client.go:93-131 | sending keeps the client invariant |
| GoWindowClient.RetransmitRunEffect | cmd/client/new_client.go:70-81 | no entry is removed or added; a due entry whose draw keeps it gets one more attempt and the new send time and is in the message; every other entry is unchanged and not in the message |
| GoWindowClient.HandleRetransmissionsValid | cmd/client/new_client.go:65-91 | retransmission keeps the client invariant |
| GoWindowClient.AdvanceStartEffect | cmd/client/new_client.go:146-152 | `windowStart` advances by exactly one modulo 65536 when the acked number is the start, and stays otherwise |
| GoWindowClient.ProcessAcksEffect | cmd/client/new_client.go:133-154 | exactly the entries named by integer tokens are deleted, the others unchanged; `lastAckTime` is refreshed when some token was an integer; nothing else changes |
| GoWindowClient.ProcessAcksValid | cmd/client/new_client.go:133-154 | processing acks keeps the client invariant |
| GoWindowClient.MessageRoundTrip | cmd/client/new_client.go:123-128 | the message the client writes reaches the statistics server of cmd/server/new_server.go as exactly its numbers, and the echo read back by `processAcks` acknowledges exactly those numbers |
| GoWindowClient.GoClient.constructor | cmd/client/new_client.go:41-48 | the state is `NewClient` |
| GoWindowClient.GoClient.AdjustWindow | cmd/client/new_client.go:50-63 | only the window size changes, to `AdjustedSize` |
| GoWindowClient.GoClient.SendNewPackets | cmd/client/new_client.go:93-131 | new state and message are those of `Sent` |
| GoWindowClient.GoClient.HandleRetransmissions | cmd/client/new_client.go:65-91 | new state and message are those of `Retransmitted` |
| GoWindowClient.GoClient.ProcessAcks | cmd/client/new_client.go:133-154 | the new state is `Acked` of the old one |
| GoWindowClient.SendLoop | cmd/client/new_client.go:104-123 | the loop's result is `SendRun` |
| GoWindowClient.RetransmitLoop | cmd/client/new_client.go:70-81 | the loop's result is `RetransmitRun` |
| GoWindowClient.AckLoop | cmd/client/new_client.go:137-153 | the loop's result is `Acked` |
| GoRewriteClient.CleanupRunEffect | cmd/client/main_rewrite.go:53-57 | the pass keeps exactly the unvisited entries and the visited ones marked `wrapped` (all of them while `wrapCount` is 0), each unchanged |
| GoRewriteClient.CleanupWhole | cmd/client/main_rewrite.go:51-65 | over a whole map, nothing changes while `wrapCount` is 0; otherwise exactly the `wrapped` entries are kept |
| GoRewriteClient.RetransmitDropped | cmd/client/main_rewrite.go:76-92 | a due packet let through leaves the dropped map; one dropped again stays with one more attempt and the new send time; packets not due, or not visited, are untouched; no key is added |
| GoRewriteClient.RetransmitSent | cmd/client/main_rewrite.go:76-92 | exactly the due packets let through are resent, each then in the sent map with the new send time and unchanged attempts and in no other map; other sent packets are untouched; re-drops are counted once each |
| GoRewriteClient.RetransmittedMessage | cmd/client/main_rewrite.go:94-100 | a packet is in the message exactly when it was due and let through, and a message is written exactly when there is one |
| GoRewriteClient.RewriteClient.constructor | cmd/client/main_rewrite.go:42-48 | both maps empty and every counter 0 |
| GoRewriteClient.RewriteClient.CleanupOldPackets | cmd/client/main_rewrite.go:51-65 | the new state is `Cleanup` of the old one |
| GoRewriteClient.RewriteClient.HandleRetransmissions | cmd/client/main_rewrite.go:68-101 | new state and message are those of `Retransmitted` |
| GoRewriteClient.CleanupLoop | cmd/client/main_rewrite.go:53-57 | the loop's result is `CleanupRun` |
| GoRewriteClient.RetransmitLoop | cmd/client/main_rewrite.go:76-92 | the loop's result is `RetransmitRun` |

## Left out

- Sockets are left out: connecting, accepting, the handshake transport, `recv` and `send`. One `recv` is one input message, or one chunk where the source frames lines itself. What a server sends is returned or appended to a list of replies. How TCP splits or joins messages is not modelled, except for the tcp/* servers' own newline framing.
- Randomness is left out: `random.random()`, `rand.Float64()` and `should_drop`. Each loss roll is an input, a `bool`, a sequence of them, or a drop oracle over indices.
- The clock is the integer parameter `now`, in milliseconds. The `TIMEOUT` of 5.0 seconds of tcp/grok/client.py is 5000 of them, and times finer than a millisecond are not modelled. The 100 ms retransmission and ack-freshness timeouts of the Go clients compare against it. The per-packet `time.Now()` calls in one pass of cmd/client/new_client.go are read as one `now`.
- Concurrency is left out: goroutines, `sync.Mutex`, tickers, the `goodput_timer` threads, and the ack thread of tcp/grok/client.py. Locked sections are plain sequential methods. The locking of tcp/grok/client.py is not modelled: `run` holds the lock while calling `send_packet`, and `receive_acks` holds it while calling `adjust_window_size`. Both take the same non-reentrant lock again and would deadlock.
- Floating point is left out. Goodput values are exact ratios of integers, with the numerator multiplied by 100 where the source reports a percentage, and `last_checkpoint` in workspace/server.py is such a ratio. Packet-rate and elapsed-time computations are left out.
- Plotting, CSV, JSON and HTML output, progress printing and logging are left out.
- Integer parsing accepts an optional sign and decimal digits, with surrounding whitespace (the characters `Text.IsSpace` accepts) for Python's `int()`. Python's underscores between digits and Unicode digits are not accepted. Go's `strconv.Atoi` range limit and Go's `int64` and `uint16` widths are not modelled; `Protocol` models the one `uint16` overflow that matters.
- Text.IsSpace: stripping, as in `Strip` and `PyInt`, removes only the space and the characters 9 to 13. Python's `str.strip()` and `int()` also remove the characters 28 to 31, and Python and Go both remove U+0085, U+00A0 and the other Unicode spaces. Messages with such characters at their ends are not modelled.
- Bytes.Decode: `data.decode()` is modelled for ASCII only. Python decodes UTF-8, so a message with a byte of 128 or more decodes in Python, or fails with `UnicodeDecodeError` only when it is not valid UTF-8; the model treats every such message as a decoding error.
- `str.splitlines()` in workspace/server_test.py is modelled as a split on `'\n'`, so `'\r'` and other line boundaries are not recognised.
- The ack processing of tcp/gpt/client.py:268 and tcp/claude/client.py:136 also calls `splitlines()`. There the model takes the lines as a given sequence of strings, so the splitting itself, and its handling of `'\r'`, is not modelled.
- SenderRules.ProtocolState.RetransmitDropped: the text `f"{seq},{window_size},{new_r_count}\n"` of each resent packet is not recorded. The pass visits the keys in any order, so the model states which packets are resent and with which count, not the order of their texts.
- `bufio.Reader.ReadString` in the Go servers can return a last line without a newline. Lines are given whole.
- The order in which a Go map or a Python dictionary is iterated is an input: a sequence that lists every key once.
- The Go clients store pointers to packets in their maps. The model stores values, so aliasing between the maps is not modelled. Each packet sits in one map at a time, so copying values gives the same results.
- workspace/server_claude.py never replies to a `RETRANSMIT` message. The final loop of workspace/client_claude.py waits for a reply after each retransmission, so a real run blocks there. `TokenClient.TokenWindowClient.FinalPass` takes whether a reply arrives as an input.
- The `main` functions and the `start`, `connect` and `accept_connection` wrappers are left out, beyond the handshake checks modelled in each server.
- Not part of this model:
  - cmd/client/main.go, which is entirely commented out;
  - the chat loops of cmd/server/server.py and cmd/client/client.py;
  - workspace/client.py and cmd/client/main.py;
  - the socket tests workspace/test_client_server.py and workspace/client_test.py;
  - workspace/report.py, workspace/report_claude.py and the graph servers.

## Findings

| source | as written | input that shows it | evidently intended | confidence | as-written member | corrected member |
|---|---|---|---|---|---|---|
| workspace/server.py:154-155 | after a checkpoint, `last_checkpoint` is set to the goodput percentage | 1000 packets received with none missing set the guard to 100.0; then 2000 received give `2000 // 1000 = 2`, which is not above 100, so no checkpoint is taken | `last_checkpoint = self.total_received // 1000`, as in workspace/server_claude.py:134 | high; not executed | TokenServer.OriginalCheckpointStalls | TokenServer.CorrectedCheckpoint |
