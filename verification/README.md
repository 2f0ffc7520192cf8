# Two reliable-transfer protocols, their simulator, and the backup system's exchanges

This project models, and proves properties of, the parts of the repository that have to be right for data to arrive:

* **Selective Repeat** (`original-labs/stable.c`): sender window and overflow rings, per-packet timers, the receiver's
  reorder ring, and the discrete-event simulator that runs them over a losing and corrupting channel.
* **Go-Back-N** (`original-labs/gbn.c`): the same for the cumulative protocol, over a network that may also reorder and
  duplicate.
* **The backup system** (`reliable-remote-backup-system/`): the rename handshake between client and server, the packing
  and scanning of the file list, and the latency recorder under concurrent calls.

## How it is layered

| file | content |
|---|---|
| `ring.dfy` | ring-buffer arithmetic |
| `packets.dfy` | packets, the end-around-carry checksum, the channel's corruption |
| `eventlist.dfy` | the event list, as a sequence and as a doubly linked heap structure |
| `network.dfy` | clock, event list and channel pattern; `tolayer3`, timers |
| `sr_sender.dfy`, `sr_receiver.dfy` | the Selective Repeat handlers: functions on states, and the objects and arrays that implement them |
| `sr_protocol.dfy` | Selective Repeat as a state machine over FIFO channels with an arbitrary fate for every transmission; invariant and safety |
| `sr_simulator.dfy`, `sr_cleanrun.dfy`, `sr_program.dfy` | the event-driven program refines that state machine; the run over a clean channel; the program itself with its main loop |
| `arrivals.dfy` | which messages both programs make up, and when |
| `sr_steps.dfy` | what each handler of Selective Repeat does, on messages and numbers |
| `sr_facts.dfy` | timers, rings and acknowledgments in every reachable state |
| `sr_stall.dfy` | exactly when a packet can never be acknowledged any more, and a run of the program that stalls for good |
| `gbn_entities.dfy`, `gbn_protocol.dfy`, `gbn_simulator.dfy`, `gbn_program.dfy` | the same layers for Go-Back-N |
| `gbn_facts.dfy`, `gbn_timers.dfy`, `gbn_progress.dfy` | its resends and front pointer; its timers; which message lists get through |
| `gbn_steps.dfy` | what each of its handlers does, on messages and numbers; how lost acknowledgments are made good |
| `gbn_bound.dfy`, `gbn_limits.dfy`, `gbn_cleanrun.dfy` | from which window on it resends the wrong packets, and when corruption can be mistaken; the limits of the program; its run over a clean channel |
| `messages.dfy`, `rename.dfy` | message buffers; the two halves of a rename, and the commands that a datagram can be taken for |
| `rename_exchange.dfy`, `rename_runs.dfy` | every run of the exchange; exactly when what the client concludes can be wrong |
| `listing.dfy`, `latency.dfy` | the file list, the latency recorder |

A handler that updates globals is a method of a class with those fields.  Its postcondition equates the new state with a
function of the old one and the event list with what that function asks of the layer below; the protocol theorems are
about these functions, for all runs.
`SrSteps`, `GbnSteps`, `Networks`, `Arrivals` and the contracts of `Rename` say what the functions do in terms of messages,
numbers and times alone.

In Selective Repeat the delicate point is that B also stores old packets in its reorder ring.  The invariant records for
every copy of packet `t` in flight that nothing which overtook it, and nothing either entity did because of such a packet,
concerns a number of `t + w` or above.  That holds only because the channels are FIFO, and they are FIFO because the
channel delay is constant and insertion into the event list is stable; `SrSimulator` proves this and so connects the
program to the protocol.

Corruption is the one the simulator performs (both header fields become 999999, the first payload byte becomes `Z`, the
checksum stays), and detection is the real checksum.  A corrupted packet can pass the checksum.  Selective Repeat is safe
even so for all 31-bit sequence numbers; Go-Back-N is safe as long as sequence numbers stay below 999999, and
`GbnBound.PrefixExact` says for which longer message lists it can go wrong at that number.

## Where the code differs from what it says

* `gbn.c` says that it sets a timer only when `base == nextseqnum`, but tests `base == nextseqnum - 1` before advancing
  `nextseqnum` (`original-labs/gbn.c:169-178`).  So the second packet of a window starts the timer and the first does not
  (`GbnTimers.FirstPacketUntimed`, `GbnLimits.SingleMessageExact`).
* `gbn.c` means to discard an acknowledgment marked NOTUSED, but NOTUSED is 0, so the acknowledgment of packet 0 is
  discarded (`original-labs/gbn.c:203`; `GbnProgress.CompletionExact`).
* `gbn.c` pops acknowledged packets until the ring is empty, but cannot tell a full ring from an empty one
  (`original-labs/gbn.c:224`; `GbnFacts.TracksAfterAck`, `GbnBound.DriftExact`).
* `stable.c` does not acknowledge a duplicate that is still marked in its slot (`original-labs/stable.c:314`), so two lost
  acknowledgments stall the sender for good (`SrStall.StallExact`, `SrStall.ProgramStallsForever`).
* `metrics.cpp` calls its update of the sum "not perfectly thread-safe" (`reliable-remote-backup-system/src/common/metrics.cpp:119`);
  no update is ever lost (`Latency.NothingLost`).
* `gbn.c` never checks its overflow buffer; a message too many silently replaces one that waits
  (`original-labs/gbn.c:179-187`; `GbnLimits.BufferExact`).
* The server's socket does not say what kind of message a datagram is, so a new name that arrives too late is read as a
  command.  The client does not check the name, and takes any reply without an error for success: a name that begins
  with the code of shutdown, of send, of remove or of list can make it report a rename that has not happened, and one
  that reads as a remove command can cost another file (`RenameRuns.SuccessExact`, `RenameRuns.StoreExact`,
  `RenameRuns.NotFoundExact`).
* The server deletes the target of a confirmed rename before it renames, so renaming a file to itself loses it
  (`RenameRuns.SourceLossExact`).

## Model

| member | source | states |
|---|---|---|
| Packets.FoldedSum | original-labs/stable.c:114-123 | The folding loop over header and bytes ends with the end-around-carry residue of the 32-bit total, whatever the header fields. |
| Packets.ComputeChecksum | original-labs/stable.c:112-125 | Fills in the complement of that residue, and the result passes the receiver's check. |
| Packets.SealExact | original-labs/stable.c:112-125 | The checksum filled in is the only number from -65536 to -1 with which the packet passes; nothing else in the packet changes. |
| Packets.CheckCorrupted | original-labs/stable.c:127-141 | Reports corruption exactly when the low 16 bits of residue and checksum are not complementary. |
| Packets.AcceptsLowBits | original-labs/stable.c:127-141 | Only the low 16 bits of the checksum matter. |
| Packets.AcceptsForeignChecksum | original-labs/stable.c:112-141 | A packet carrying another packet's checksum is accepted if and only if the totals agree mod 65535 and are both zero or both non-zero. |
| Packets.ByteChangeAccepted | original-labs/stable.c:127-141 | For any header, a change of one payload byte goes unnoticed if and only if it moves the first byte by one across the wrap of the 32-bit sum and the other bytes are not all zero. |
| Packets.ByteChangeRejected | original-labs/stable.c:127-141 | Any change of any one payload byte of a packet that either program builds, the cumulative ACK -1 included, is rejected. |
| Packets.HeaderChangeAccepted | original-labs/stable.c:127-141 | For any header fields, a change of them goes unnoticed if and only if it moves the wrapped part of the total by a multiple of 65535 without passing through a zero total. |
| Packets.HeaderSumAccepted | original-labs/stable.c:127-141 | Without a wrap: if and only if it moves the sum of the fields by a multiple of 65535, likewise. |
| Packets.TamperedDataAccepted | original-labs/stable.c:769-774 | The channel's corruption of data packet n escapes detection if and only if n + payload[0] is 34038 mod 65535. |
| Packets.TamperedAckAccepted | original-labs/stable.c:769-774 | The corruption of ACK n, the cumulative ACK -1 included, escapes if and only if n is 34038 mod 65535. |
| Packets.CorruptionDetected | original-labs/stable.c:769-774 | Every corrupted data packet below 33783 and every corrupted ACK below 34038 is rejected. |
| Packets.CorruptionBoundsTight | original-labs/stable.c:769-774 | Both bounds are the best possible. |
| Packets.BuiltPackets | original-labs/stable.c:151-156 | A data packet carries its number, acknowledgment number 0 and the message; an acknowledgment carries number 0, its own number and twenty zero bytes; both pass the check. |
| EventLists.EventList.InsertEvent | original-labs/stable.c:614-646 | On the heap, keeps the list doubly linked and inserts the event after every event that is not later: sorted and stable. |
| EventLists.EventList.PopEvent | original-labs/stable.c:467-473 | Takes exactly the first event off and leaves the rest linked in order. |
| EventLists.EventList.StopTimer | original-labs/stable.c:669-692 | Removes exactly the first matching timer, keeps the order of all other events, and reports whether there was one. |
| Networks.Network.ToLayer3 | original-labs/stable.c:721-782 | Loses, damages or delivers the packet as the cyclic pattern says, after the constant delay. |
| Networks.ChannelExact | original-labs/stable.c:721-782 | An x in the pattern loses the packet; otherwise exactly one arrival joins the events, 6.5 later at the other side: of the packet with both numbers 999999 and the first byte Z, all else as sent, for a -, and of the packet as sent for any other character. |
| Networks.TimerExact | original-labs/stable.c:669-717 | A timer goes off 15 after it was started; cancelling takes exactly the first one of that side and number. |
| Networks.Network.NextEvent | original-labs/stable.c:467-485 | Takes the first event and moves the clock to it. |
| SrSender.SenderNode.AOutput | original-labs/stable.c:145-187 | On rings and counters does what OnSubmit says of window and queue; reports the overflow on which the program exits. |
| SrSender.SenderNode.AInput | original-labs/stable.c:190-261 | Marks, slides, refills and cancels exactly as OnAck says, for any acknowledgment. |
| SrSender.SenderNode.APacketTimeInterrupt | original-labs/stable.c:266-289 | Resends the packet of the timer and restarts the timer, or neither. |
| SrReceiver.ReceiverNode.BInput | original-labs/stable.c:292-351 | Stores, acknowledges and hands up exactly as OnData says, on the eight-slot arrays. |
| SrSteps.SubmitExact | original-labs/stable.c:145-187 | A message goes out at once, with a timer, while fewer than w packets are in flight; otherwise it waits while fewer than 4999 do; with 4999 the program gives up. |
| SrSteps.AckExact | original-labs/stable.c:190-261 | An ACK that passes the checksum, for an unacknowledged packet in flight, acknowledges that packet and no other, cancels its timer, moves the window to the first unacknowledged packet and sends as many waiting messages, each with a timer, as there is then room for; any other changes nothing. |
| SrSteps.TimeOutExact | original-labs/stable.c:266-289 | For an unacknowledged packet in flight a timeout sends that packet again, as it was, and restarts its timer; for any other number only the counter moves. |
| SrSteps.ReceiptExact | original-labs/stable.c:292-351 | B answers every packet that passes the checksum with the ACK of its own number, near the window or far from it, except one that it still holds; one far from the window changes nothing else. |
| SrSteps.DrainExact | original-labs/stable.c:332-338 | What is handed up is what waits in the slots from `expected` on, up to the first that is missing. |
| SrProtocol.StepInv | original-labs/stable.c:145-351 | Every protocol step keeps the invariant over sender, receiver, both channels and timers, whatever is lost or damaged. |
| SrProtocol.Safety | original-labs/stable.c:145-351 | In every state of every run B has delivered exactly the first `expected` submitted messages, in order, and base <= expected <= next <= base + w. |
| SrProtocol.AckSound | original-labs/stable.c:190-223 | An acknowledgment that passes A's checks is undamaged and for a packet that B has received. |
| SrProtocol.SlippedDataOutOfRange | original-labs/stable.c:309-350 | A damaged packet that passes the checksum is always out of B's range, so it is never stored. |
| SrFacts.AcknowledgedIsReceived | original-labs/stable.c:190-261 | In every run, what A takes for acknowledged, and what an undamaged ACK in flight acknowledges, B has received. |
| SrFacts.StoringLosesNothing | original-labs/stable.c:309-330 | In every run, an intact arriving packet lies in expected-w..expected+w, and its slot never holds another undelivered packet. |
| SrFacts.RingRefinesSet | original-labs/stable.c:308-338 | The ring stands for the unbounded set of received numbers: an intact arrival adds its number, and `expected` is the least number missing. |
| SrFacts.ReceivedIsHistory | original-labs/stable.c:292-338 | In every run the numbers that B counts as received are exactly those of which an undamaged copy has arrived so far, and `expected` is the least number of which none has. |
| SrFacts.SenderRings | original-labs/stable.c:145-289 | In every run the window ring holds exactly packets base..next-1, submitted = sent then queued, messages wait only behind a full window, and every resend is the original packet although `acknum` doubles as the acked flag. |
| SrFacts.TimersExact | original-labs/stable.c:170-289 | In every run exactly one timer is pending for each unacknowledged packet of the window and none for any other; timeouts = resends; sent = next + resent. |
| SrFacts.CancelledTimerRuns | original-labs/stable.c:218-220 | A timer that A cancels is always running, so the simulator's warning is unreachable. |
| SrStall.StallIsPermanent | original-labs/stable.c:314-330 | A packet that B has delivered but keeps marked, with no ACK for it on its way, stays unacknowledged whatever happens next. |
| SrStall.StalledRunDeliversNoMore | original-labs/stable.c:292-338 | From such a state on, no run delivers more than w messages beyond that packet. |
| SrStall.StallExact | original-labs/stable.c:145-351 | Over a channel that is clean from now on, an unacknowledged packet of the window can still be acknowledged by some continuation if and only if it is not in that situation. |
| SrStall.TwoLostAcksStall | original-labs/stable.c:314-330 | In the protocol, losing both ACKs that B sends for one packet is enough to get there. |
| SrStall.ProgramStallsForever | original-labs/stable.c:455-541 | So it is in the program: one message and the pattern oxox, any window and interval; from the fourth round on it has stalled, a timer is always pending, and the loop never ends. |
| SrSimulator.SimStepRefines | original-labs/stable.c:467-535 | Every round of the main loop is one protocol step over FIFO channels (or the overflow exit), and the clock never goes back. |
| SrSimulator.InsertFlights | original-labs/stable.c:614-646 | A packet that is sent joins the end of its channel, whatever timers and arrivals are pending. |
| SrSimulator.SimulatorSafety | original-labs/stable.c:455-541 | The program delivers a prefix of what was submitted for every interval, pattern and window, and its loop goes on exactly while an event is pending and the buffer has not overflowed. |
| Arrivals.SrMessages | original-labs/stable.c:488-511 | In every run message i is one letter twenty times, the (min(i + 2, nsimmax) mod 26)-th, and an arrival is pending as long as messages remain: the i-th comes i + 1 intervals after the start. |
| Arrivals.SrFirstRound | original-labs/stable.c:488-511 | The next arrival is scheduled before the packet goes out, so it comes first when both are due at the same time; then the copy after 6.5 and the timer after 15. |
| SrCleanRun.NoTimeOut | original-labs/stable.c:467-535 | On a clean channel a timer is never the next event: two channel delays of 6.5 are less than the timeout of 15. |
| SrCleanRun.CleanRun | original-labs/stable.c:455-541 | On a clean channel with at most 4999 messages the loop ends after exactly three rounds per message; nothing was resent, everything was sent once and delivered. |
| SrProgram.Program.Round | original-labs/stable.c:467-535 | One round of the loop on the program's objects is the simulator step. |
| SrProgram.Program.RunClean | original-labs/stable.c:455-541 | The whole program terminates on a clean channel with sent = received = submitted = nsimmax, no resend, and the delivered messages equal to the submitted ones. |
| SrProgram.Program.Run | original-labs/stable.c:455-541 | The main loop on the program's objects, cut off after any number of rounds, is in the state that the simulator reaches, with a prefix of the submitted messages delivered. |
| GbnEntities.SenderNode.AOutput | original-labs/gbn.c:146-187 | On rings and counters does what OnSubmit says, for any state: the late timer test, and the message that replaces a waiting one when the overflow buffer is full. |
| GbnEntities.SenderNode.AInput | original-labs/gbn.c:191-252 | Discards, pops, restarts the timer and refills exactly as OnAck says. |
| GbnEntities.SenderNode.APacketTimeInterrupt | original-labs/gbn.c:255-283 | Resends, from the front pointer, as many packets as are in flight, and restarts the timer; ignores other timers. |
| GbnEntities.ReceiverNode.BInput | original-labs/gbn.c:286-322 | Delivers only the expected packet and acknowledges cumulatively, from -1 on. |
| GbnSteps.SubmitExact | original-labs/gbn.c:146-187 | A message goes out at once while fewer than w packets are in flight, and otherwise waits; it starts the timer of `base` if and only if it is the second packet in flight. |
| GbnSteps.AckExact | original-labs/gbn.c:191-252 | A heeded ACK moves the window behind its number, cancels the timer of the old base, starts one for the new base if packets stay in flight, and sends as many waiting messages as there is then room for, in order; any other changes nothing. |
| GbnSteps.CumulativeAck | original-labs/gbn.c:286-322 | In every run a packet that passes the checksum is answered by exactly one ACK, of the last message that has then been delivered, and is delivered if and only if it carries the expected number; one that does not pass is ignored. |
| GbnSteps.LostAcksRecovered | original-labs/gbn.c:255-322 | Over a channel that loses packets and delivers each copy at most once: whenever B has delivered everything sent, everything under way is lost and a timer runs, a resent packet that B delivered before brings the ACK that moves the window behind everything sent. |
| GbnSteps.RecoveryRun | original-labs/gbn.c:146-322 | Such a run from the start, for any window of two or more and any two messages, in which both ACKs are lost first. |
| GbnProtocol.StepInv | original-labs/gbn.c:146-322 | Every step keeps the invariant, with any packet ever sent, any corruption of one and any packet with a wrong checksum arriving at any time, as long as corruption is detectable. |
| GbnProtocol.Safety | original-labs/gbn.c:146-322 | On a network that loses, duplicates, reorders or detectably corrupts, B has delivered a prefix of what was submitted, base <= expected <= next <= base + w, the overflow buffer holds exactly the unsent messages within its size, and sent = next + resent. |
| GbnProtocol.PopTo | original-labs/gbn.c:224-227 | The pop loop stops at `base`, or where it started when that is later, as long as it starts less than a full turn behind. |
| GbnFacts.ResendExact | original-labs/gbn.c:255-283 | In every run, a timeout of `base` makes A send as many packets as are in flight, the i-th from slot (winfront + i) mod w, each a genuine packet of the last w, then start that timer again, and count them; they are the packets of the window, each once and in order, if and only if nothing is in flight or the front pointer marks the slot of `base`. A timeout of any other number does nothing. |
| GbnFacts.OldestResent | original-labs/gbn.c:265-274 | The oldest unacknowledged packet is among those that a timeout sends if and only if its slot lies fewer places after the front pointer than packets are in flight. |
| GbnFacts.TracksAfterAck | original-labs/gbn.c:221-227 | After an accepted ACK the front pointer marks `base` if and only if the ring did not look empty and started at or below the new base, or everything in flight was acknowledged. |
| GbnFacts.DriftReachable | original-labs/gbn.c:224-274 | A run with a window of three after which a timeout sends packet 0 in place of packet 2. |
| GbnBound.DriftExact | original-labs/gbn.c:224-274 | A run after which a timeout would resend something other than the packets in flight exists if and only if the window has at least two places. |
| GbnTimers.TimersCover | original-labs/gbn.c:146-283 | In every run timers are pending only for `base` or below, one for `base` whenever two packets or more are in flight, and none for `base` when no packet is. |
| GbnTimers.FirstPacketUntimed | original-labs/gbn.c:169-178 | In every run a message submitted while nothing is in flight leaves with no timer pending for it. |
| GbnTimers.LonePacketTimed | original-labs/gbn.c:146-283 | In every run a packet alone in flight has a timer if and only if an older packet was in flight together with it before. |
| GbnFacts.PacketCount | original-labs/gbn.c:158-227 | In every run `pktnum` is at least the number of packets in flight, and exceeds it by whole turns if and only if the front pointer marks `base`. |
| GbnProgress.CompletionExact | original-labs/gbn.c:191-252 | For every window and message list, a run that delivers and acknowledges the whole list exists if and only if the list is empty, or window and list both have at least two places; ACK 0 is discarded. |
| GbnProgress.WindowOfOneDeliversOne | original-labs/gbn.c:203-206 | With a window of one, no run delivers more than one message. |
| GbnLimits.SingleMessageExact | original-labs/gbn.c:421-501 | The program with one message: after the first round nothing is pending for an x, and otherwise exactly its packet, damaged for a -, 6.5 later at B; it is delivered if and only if the first character is neither; after three rounds nothing is pending whatever the pattern, and A never learns of the delivery. |
| GbnLimits.BufferExact | original-labs/gbn.c:179-187 | A run of the program in which a waiting message is overwritten exists if and only if there are more messages than the 5000 places of the buffer plus the window. |
| GbnProgress.BoundExact | original-labs/gbn.c:734-738 | Up to 999999 messages, a run that submits a given list and delivers something else exists if and only if the list has 999999 messages, the window at least two places, and the corruption of some message escapes the checksum. |
| GbnBound.PrefixExact | original-labs/gbn.c:734-738 | For any list of messages, a run that submits them in order and in which B delivers something other than a prefix exists if and only if the list reaches number 999999, the window has two places, and the corruption of some message, up to the end of the window behind that number, escapes the checksum and differs from message 999999. |
| GbnSimulator.RoundRefines | original-labs/gbn.c:433-501 | Every round of the main loop is one step of the protocol over the arbitrary network. |
| GbnSimulator.SimulatorSafety | original-labs/gbn.c:421-501 | The program delivers a prefix of what was submitted for every interval, pattern and window, as long as the messages fit into window and overflow buffer and are fewer than 999999. |
| Arrivals.GbnMessages | original-labs/gbn.c:454-478 | The same messages at the same times in every run of Go-Back-N. |
| Arrivals.GbnFirstRound | original-labs/gbn.c:454-478 | The next arrival before the packet, and no timer for the first packet. |
| GbnProgram.Program.Run | original-labs/gbn.c:421-501 | The main loop on the program's objects reaches the state that the simulator reaches, for every message count, and with a prefix delivered under the conditions above. |
| GbnCleanRun.OnlyStaleTimers | original-labs/gbn.c:255-283 | On a clean channel a timer only ever goes off for a packet that has been acknowledged, so none is heeded. |
| GbnCleanRun.CleanRun | original-labs/gbn.c:421-501 | On a clean channel nothing is ever resent; after at most five rounds per message nothing is pending, and everything has been delivered if and only if the window has two places or there is at most one message, and acknowledged if and only if both have at least two or there is no message. |
| GbnProgram.Program.RunClean | original-labs/gbn.c:421-501 | There the main loop as written ends, with everything sent once and delivered under the same condition. |
| Messages.CmdMsg.SetFilename | reliable-remote-backup-system/include/protocol/message.h:70-73 | The name in the buffer is the given C string cut to 127 characters, padded with NULs. |
| Messages.DataMsg.SetData | reliable-remote-backup-system/include/protocol/message.h:88-94 | The text in the buffer is the C string in the first 2999 characters. |
| Messages.NameCut | reliable-remote-backup-system/include/protocol/message.h:70-94 | What arrives is the name up to its first NUL or its first 127 characters, 2999 in a data message. |
| Messages.CommandNameExact | reliable-remote-backup-system/include/protocol/message.h:70-73 | A name travels unchanged in a command if and only if it has at most 127 characters and no NUL. |
| Messages.DataNameExact | reliable-remote-backup-system/include/protocol/message.h:88-94 | A name travels unchanged in a data message if and only if it has at most 2999 characters and no NUL. |
| Rename.WireRoundTrip | reliable-remote-backup-system/include/protocol/message.h:45-78 | A command that fits its message is read back from its 137 bytes as it was sent; read as a data message, the text is what stands before the first NUL. |
| Rename.Server.HandleRename | reliable-remote-backup-system/src/server/server.cpp:616-748 | Case by case, for any outcome of its receives and file operations: which replies go out, and that the source's content gets the new name if and only if both names are valid, the source exists, the new name arrives, an existing target may be overwritten and the system renames, all other files staying as they were; the same as the reactions that the exchange is made of. |
| Rename.OnRemove | reliable-remote-backup-system/src/server/server.cpp:578-614 | Nothing but the named file ever goes, and the reply says no error exactly when it has gone. |
| Rename.Server.HandleRemove | reliable-remote-backup-system/src/server/server.cpp:578-614 | The file goes if and only if its name is valid, it exists and the system deletes it; the reply is 107, 0 or 1 accordingly; the same as the reaction of the exchange. |
| Rename.Server.HandleSend | reliable-remote-backup-system/src/server/server.cpp:318-465 | The send command up to the final acknowledgment of a small file, or up to the wait for a connection, case by case: which replies go out, and that a small file is stored under its name if and only if it may be and arrives, nothing else changing; the same as the reactions of the exchange. |
| Rename.ClientRename | reliable-remote-backup-system/src/client/client.cpp:454-555 | Exactly when the client reports success, a missing file, a cancellation, a timeout or a failed send, and which datagrams it sends, in terms of the responses, timeouts, the user's answer and failing sends; the same as the moves of the exchange. |
| RenameExchange.StepInv | reliable-remote-backup-system/src/server/server.cpp:235-748 | Every step of client, server or network keeps the invariant of the exchange, whatever the names. |
| RenameExchange.OutcomeSound | reliable-remote-backup-system/src/client/client.cpp:454-555 | For any names and under any loss or timeout: success implies exactly that entry moved, unless the new name was taken for a command that can be answered without an error; cancelled or not found implies nothing changed, unless it was taken for a remove command; no other file is touched unless it was, and an existing target only with consent. |
| RenameRuns.SuccessExact | reliable-remote-backup-system/src/server/server.cpp:235-288 | A run that reports success although the entry has not moved exists if and only if the client can come to send the name, the name reads as a command that can be answered without an error (shutdown; send of a valid name; remove of a valid existing file; list, if some order of the directory packs into a buffer that reads so), and what it leaves does not look like the moved entry. |
| RenameRuns.LateNameRemoves | reliable-remote-backup-system/src/server/server.cpp:240-283 | Whenever the client can come to send a name that reads as a remove command of a valid existing file: a run in which that file is gone, nothing is renamed, and the client reports success. |
| RenameRuns.StoreExact | reliable-remote-backup-system/src/server/server.cpp:235-288 | A run that leaves a store which no rename of the two names leaves exists if and only if the client can come to send the name, it reads as a remove command of a valid existing file, and that removal does not look like a rename of valid names. |
| RenameRuns.NotFoundExact | reliable-remote-backup-system/src/client/client.cpp:498-519 | A run that reports the source missing although a file has gone exists if and only if the source has a valid name and is missing, the client waits for no signal, and the new name reads as a remove command of a valid existing file. |
| RenameRuns.MissingSourceReported | reliable-remote-backup-system/src/client/client.cpp:469-495 | With a client that waits for the signal and a valid source that is missing, every run in which nothing is lost ends after three steps with the report that the file was not found. |
| RenameRuns.MissingSourceOutcomes | reliable-remote-backup-system/src/client/client.cpp:469-495 | Whatever is lost, such a client reports nothing else but that, a timeout or a failed send, and no file is touched. |
| RenameRuns.NamedFileMoved | reliable-remote-backup-system/src/client/client.cpp:454-555 | With names that fit their messages, and outside the exact condition above, success means that the named file has the new name and the same content, and every other file is as before. |
| RenameRuns.SourceSurvives | reliable-remote-backup-system/src/server/server.cpp:700-748 | With different names, and a new name that is no command to remove the source, the source's content is always there under one of the two. |
| RenameRuns.SourceLossExact | reliable-remote-backup-system/src/server/server.cpp:725-735 | The content can get lost if and only if the client can come to send the name, and both names are the same valid name, or the new name reads as a command to remove the source while the target does not hold the same content. |
| RenameExchange.NoHandshakeNoRename | reliable-remote-backup-system/src/client/client.cpp:469-495 | A client with the handshake never gets a server without it to change anything, whatever the names. |
| RenameRuns.SuccessReachable | reliable-remote-backup-system/src/server/server.cpp:644-748 | Valid names, an existing source and a free target allow a run that ends in success. |
| Listing.PackList | reliable-remote-backup-system/src/server/server.cpp:305-313 | The packing loop leaves the greedily admitted names, NUL-separated, in a zeroed buffer and never writes past it. |
| Listing.AdmittedGreedily | reliable-remote-backup-system/src/server/server.cpp:308-313 | One more name is taken if and only if it, its NUL and one more character fit in 3000 behind the names taken before it. |
| Listing.UnpackList | reliable-remote-backup-system/src/client/client.cpp:201-211 | The client's scan collects the names without reading past a buffer in which the scan stops. |
| Listing.ScanStopsExactly | reliable-remote-backup-system/src/client/client.cpp:206-210 | The scan stays inside a buffer if and only if it starts with a NUL or holds two NULs in a row. |
| Listing.AdmitsAllExactly | reliable-remote-backup-system/src/server/server.cpp:308-313 | All names are admitted if and only if their packed length is below 3000. |
| Listing.ListRoundTrip | reliable-remote-backup-system/src/server/server.cpp:305-313 | The client sees exactly the admitted names, in order, and the whole list if and only if it fits. |
| Listing.ListFiles | reliable-remote-backup-system/src/client/client.cpp:182-214 | The command shows exactly the admitted names of any directory. |
| Latency.StepInv | reliable-remote-backup-system/src/common/metrics.cpp:113-147 | Every atomic step of every call keeps count, sum, maximum and samples consistent with how far the calls have come. |
| Latency.SampleBounds | reliable-remote-backup-system/src/common/metrics.cpp:131-146 | Under every interleaving at most 1000 samples are kept, each at most the maximum, and the reservoir branch sees a count above 1000. |
| Latency.SamplesComplete | reliable-remote-backup-system/src/common/metrics.cpp:131-134 | In every run, until 1000 calls have returned, the samples are exactly the latencies of those that have. |
| Latency.DrawnReplaces | reliable-remote-backup-system/src/common/metrics.cpp:135-144 | In every run a call that has drawn an index below 1000 replaces the sample there and no other; with a larger index every sample stays; it releases the lock. |
| Latency.NothingLost | reliable-remote-backup-system/src/common/metrics.cpp:113-147 | When all calls have returned, the count and the sum are exact, the maximum is the largest latency or zero, the samples are recorded latencies, as many as calls up to 1000, and the average is at most the maximum. |
| Latency.PercentileIsNearestRank | reliable-remote-backup-system/src/common/metrics.cpp:169-187 | For 0 < p <= 100 the least sample that at least p percent of the samples do not exceed; for p = 0, whose index wraps, and for p > 100 the largest; 0 without samples. |
| Latency.PercentileBelowMax | reliable-remote-backup-system/src/common/metrics.cpp:160-187 | In every reachable state every percentile is at most the recorded maximum. |

## Left out

- Progress under loss, for both protocols: it does not hold; the exact conditions are above.
- Selective Repeat with a window above 8: the receiver's arrays have eight slots (`original-labs/stable.c:295-296`).
- A reordering or duplicating data channel for Selective Repeat: the simulator never produces one and the receiver is not made for it.
- Sequence numbers at the 32-bit limit: `nsimmax` is at most 0x7FFFFF00 in Selective Repeat; Go-Back-N beyond 999999 messages is covered by its state machine and by `GbnBound.PrefixExact`, with message numbers inside 31 bits.
- SrReceiver.ReceiverNode.BInput: a packet that passes the checksum with a negative number inside the window, other than -WINDOWSIZE, is excluded; the source then indexes its arrays out of bounds, and no run of the program produces such a packet.
- GbnProtocol.Safety: runs in which the overflow buffer overflows are excluded; the program overwrites a waiting message there (`GbnLimits.BufferExact`).
- Time in the two protocol models: a pending timer may go off at any moment; only the simulators order events by time.
- Floating-point rounding: times and latencies are reals.
- Printing, keyboard input, `malloc`/`free`, trace output, and the counters that only feed the final report.
- The number `origin` that events carry is a history record of the proof; no handler reads it.
- Inlined pieces of handlers (saving to a ring, sending and counting, cancelling a timer) are methods of their own.
- Sockets, addresses, `select` and the order in which timeouts and messages race: a receive returns a message or a timeout.
- What a send command stores: any content; its TCP transfer, from `accept` on, for which the client of a rename never connects.
- Machines with the highest byte first: numbers in messages have the lowest byte first.
- A new name of 137 characters or more that is read as a command: the source reads its name beyond the end of the message, the model cuts it there.
- Stale messages crossing from one command to the next, concurrent clients, and the HTTP server's own file operations.
- The rules for valid filenames: any predicate on names.
- Late duplicates of a datagram in the rename exchange: datagrams are lost, not duplicated or reordered.
- Memory orders of the atomics: the recorder's steps interleave one at a time, on values rather than on an object, because calls overlap; `reset` and the lookup of the statistics by command are not modelled.
- The library's sort is a function with the properties that the percentile needs; negative percentiles are excluded.
- The transfer of file contents over TCP, the client's other commands, HTTP routes, JSON, logging, configuration and the older `client.cc` and `server.cc`.
