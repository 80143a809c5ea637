# MultiSocketRUDP: a model of the reliable-UDP stack and proofs about it

The repository is a reliable-UDP stack: a server with one socket per session and a client exchange
numbered, acknowledged and retransmitted packets over a network that may lose, duplicate and reorder
them. This project models four parts of it in Dafny and proves what each keeps.

- **The reliability protocol.** The receive path of a session (`ReceiveWindow`, `ReceivePath`,
  `SessionReceive`), what it guarantees over runs (`ReceiveLockstep`, `OrdererSet`, `ReceiveSet`,
  `AckSoundness`), the client's queue (`ClientReceive`), the two senders (`ServerSend`, `ClientSend`), the
  congestion window (`FlowControl`), and the protocol end to
  end in both directions (`ServerToClient`, `ClientToServer`, their `...Runs`, `ClientStall` and `ClientLoss`).
  `Framing` cuts datagrams into packets; `SendStream` and `StreamBatching` put packets into datagrams.
- **Ownership of sent packets.** `SendOwnership` is a machine over the steps of every function that
  holds a `SendPacketInfo`; `SendOwnershipSafety`, `...Tokens`, `...Rounds`, `...Retries` and `...Runs`
  prove what its runs keep. `RetransmissionSchedule` has the heap and the counters as objects.
- **The lives of a session.** `Lifecycle` follows one session through broker, I/O worker, logic worker, senders,
  disconnecting threads and release thread. `LifecycleOwners` has what every step keeps, `LifecycleProofs` what
  orderly steps keep, `LifecycleRuns` and `LifecycleExamples` what follows for runs; `SessionPool` and
  `SessionObjects` have the pool, the state machine and the receive buffer.
- **The retransmission timeout.** `RetransmissionTimeout` holds the integer estimator against RFC 6298.

## How to read it

Objects the source updates in place are classes; their methods state the whole new state, mostly by a
function of the old one, and lemmas prove what those functions do over runs. Where several threads
share state, each lock scope or atomic operation is one step of a machine, steps of different threads
interleave freely, and what a thread holds between steps is part of the state. Some fields record
history only; they are marked so. Results are about every run of such a machine. Where a clause fails in some
runs it is stated for *orderly* ones: in `SendOwnershipRuns`, no send call takes its sequence in one life and
allocates in the next, and the scheduler is not stopped; in `LifecycleRuns`, `Disconnect` does not read
outstandingRecvIo while the broker posts receives, and no session is re-initialised before its broker is done or
between a sender's CAS and its second release check.

What the program cannot decide is a parameter or a free choice: which datagrams arrive and when, what
packet handlers answer, which allocations and system calls succeed, the clock, and which of several
equal entries a priority queue has on top. A decrypted packet is taken to be one the peer sent.

Classes, methods and constants that exist in the source keep their names. `hide` statements only keep
definitions out of a proof.

## Results that go against expectation

The properties one would expect here do not hold of the code as it stands. Lemmas give a concrete run or
input for each, or say exactly when it happens, and prove when the property does hold.

- *Acknowledgements.* `DoDisconnect` moves the state first (RUDPSession.cpp:76) and sets the flag that
  stops dispatching later (RUDPSession.cpp:82), and only in the thread that moved the state. A handler
  that fails in between is not followed by a closed gate, and a repetition of its packet is answered as
  an old one (`AckSoundness`); the client then forgets a packet that was never handled (`ClientLoss`).
- *Progress of the client.* `SendPacket` does not look at the pending queue, so a later packet can take the
  room an acknowledgement made; with a full window of later packets in the map, the packet the server
  waits for never leaves the pending queue (`ClientStall`).
- *Progress of the server.* The pending queue is in order of arrival, not of sequence. Two senders and a
  window of one can leave it with a first packet the window never admits (`ServerToClientRuns`).
- *Datagrams.* The size grows before the erased flag is read (RUDPIOHandler.cpp:515-516), so an erased packet
  leaves a gap (`StreamBatching`). A packet of exactly the buffer's size is sent from the queue and
  refused from the reserved slot.
- *Cut packets.* The payload length is compared with what is left before the header is taken off
  (RUDPClientCore.cpp:438), so up to five bytes may be missing (`Framing`).
- *Releasing.* `Disconnect` checks the drain again and, when that fails, just returns, while
  `TryFinalizeSessionRelease` reports the session finished (MultiSocketRUDPCore.Workers.cpp:364-367): the
  session never returns to the pool. Two things can come between the two checks: a sender that takes the
  send mode only to give it back, and receives posted by a worker that entered `DoRecv` before the flag,
  if enough other receives failed between the transition and the flag for outstandingRecvIo to read 0. The
  second can also end in OnReleased without OnDisconnected (`LifecycleRuns`, `LifecycleExamples`).
- *Cleaning up.* `FinalizeRIOCleanup` and `SessionRIOContext::Cleanup` assert the drain once more
  (RUDPSession.cpp:380, SessionRIOContext.cpp:43), and the drain includes the send mode. A sender that takes it after
  `Disconnect` has read it makes both asserts fail; in orderly runs nothing else does (`LifecycleRuns`).
- *Re-initialising.* A sender that takes the send mode right after `Disconnect` has read it makes its second
  release check in the next life, where nothing stops it: two threads then make a stream in one buffer,
  and a send completion of an earlier generation becomes possible. A reservation given up while the
  broker sets the session up can leave the session in the pool with the setup still running, have it cleaned
  up with a receive posted, or have it forgotten (`LifecycleExamples`).
- *Timers.* A send call that took its sequence before the session was re-initialised can leave a packet of
  the next life, numbered from 1 again, without a timer (`SendOwnershipRuns`).
- *Erasing by sequence.* A send call that is refused for its generation erases whatever the unacked map holds
  under its sequence (RUDPSession.cpp:219). After a re-initialisation that can be a packet of the next life,
  which stays queued and timed and which no acknowledgement reaches any more (`SendOwnershipRuns`).
- *The advertised window* is always the whole window while handlers succeed: packets held out of order do
  not count against it (`ReceiveLockstep`).

## Model

| member | source | states |
|---|---|---|
| SendOwnershipSafety.KeepsSafe | MultiSocketRUDP/MultiSocketRUDPServer/SendPacketInfo.cpp:23-122 | every step of a send, a stream, a retransmission, an acknowledgement, a disconnect or a re-initialisation keeps: each reference count equals the places that refer to the object, no count is ever invalid, nothing recycled is touched, heap entries name the allocation they were pushed for |
| SendOwnershipRuns.RefCountsExact | MultiSocketRUDP/MultiSocketRUDPServer/SendPacketInfo.cpp:49-122 | over every interleaving, the count of each live object is exactly its entries in the unacked map, send queue, reserved slot and heap plus the references running functions hold; every allocation is live or was returned to the pool once |
| SendOwnershipTokens.TokensConserved | MultiSocketRUDP/MultiSocketRUDPServer/RUDPIOHandler.cpp:450-568 | the duty to transmit an object is conserved by every step, except the named steps that may drop it and the allocation that creates it |
| SendOwnershipTokens.TimerLostExactly | MultiSocketRUDP/MultiSocketRUDPServer/RUDPIOHandler.cpp:492-497 | while a session goes on, a packet that awaits its acknowledgement loses its token in exactly two cases: it is skipped as a duplicate key of the batch, or the stopped scheduler drains its entry |
| SendOwnershipTokens.KeepsCarried | MultiSocketRUDP/MultiSocketRUDPServer/RetransmissionScheduler.h:35-43 | no object carries two tokens, a heap entry has its object's last version, the map holds live data packets under their sequences, and what is queued is of this life: kept by every step of every interleaving |
| SendOwnershipTokens.KeepsSingle | MultiSocketRUDP/MultiSocketRUDPServer/RetransmissionScheduler.h:35-43 | the single-token invariant, with versions, map contents, batch keys and the distinctness of sequences taken from the counter, is kept by every step but an allocation under a sequence taken before a re-initialisation and the drain of a stopped scheduler |
| SendOwnershipRuns.OneTokenAtMost | MultiSocketRUDP/MultiSocketRUDPServer/MultiSocketRUDPCore.Workers.cpp:176-196 | over every interleaving no object carries the duty to transmit it twice, and a heap entry is discarded, by the version check or another, exactly when its packet is erased |
| SendOwnershipRuns.TransmittingExactly | MultiSocketRUDP/MultiSocketRUDPServer/RUDPIOHandler.cpp:450-568 | over every interleaving: throughout the run each unacked packet of a session that is not releasing has its one place (queue, slot, heap or hand), if and only if no step of the run skips such a packet as a duplicate or drains its entry |
| SendOwnershipRuns.OneTransmitToken | MultiSocketRUDP/MultiSocketRUDPServer/MultiSocketRUDPCore.Workers.cpp:173-308 | the half of TransmittingExactly a caller can rely on: in a session that is not releasing, every unacked packet is in exactly one of send queue, reserved slot, heap, or the hand of a function that will pass it on, as long as no send call straddles a re-initialisation |
| SendOwnershipRuns.SpareChecksNeverFire | MultiSocketRUDP/MultiSocketRUDPServer/MultiSocketRUDPCore.Workers.cpp:176-196 | in runs in which no send call straddles a re-initialisation only replies are dropped as duplicates of a batch, and OneTokenAtMost holds |
| SendOwnershipRounds.KeepsRounds | MultiSocketRUDP/MultiSocketRUDPServer/MultiSocketRUDPCore.Workers.cpp:267-308 | times put in a stream, retransmission count and RTT eligibility move together at every step |
| SendOwnershipRounds.KeepsAckedWereSent | MultiSocketRUDP/MultiSocketRUDPServer/RUDPSession.cpp:554-579 | a packet of this life that an acknowledgement takes out of the map has been in a stream: sequences come from the session's counter, so no other packet was sent under its sequence |
| SendOwnershipRuns.BoundedTransmission | MultiSocketRUDP/MultiSocketRUDPServer/MultiSocketRUDPCore.Workers.cpp:280-295 | over every interleaving no data packet is put in a stream more than max(1, maxPacketRetransmissionCount) times |
| SendOwnershipRuns.RetriesExactly | MultiSocketRUDP/MultiSocketRUDPServer/MultiSocketRUDPCore.Workers.cpp:267-308 | over every interleaving: a due packet is given up on if and only if it has been in a stream max(1, maxPacketRetransmissionCount) times; otherwise it goes back to the send queue, unless it is of an earlier life or the session is releasing |
| SendOwnershipRuns.GivesUpAtLimit | MultiSocketRUDP/MultiSocketRUDPServer/MultiSocketRUDPCore.Workers.cpp:286-295 | over every interleaving a session is given up only for a packet that was in a stream exactly that often, and then it is if the packet is of this life |
| SendOwnershipRuns.ErasedIsDone | MultiSocketRUDP/MultiSocketRUDPServer/MultiSocketRUDPCore.Workers.cpp:271-278 | no run puts an erased packet in a stream or counts a retransmission of it, as long as its allocation lasts |
| SendOwnershipRuns.AcknowledgedIsDone | MultiSocketRUDP/MultiSocketRUDPServer/RUDPSession.cpp:554-579 | so an acknowledgement ends a packet's transmission: it is erased, and its counts stay as they are over every continuation |
| SendOwnershipRuns.LeavesMap | MultiSocketRUDP/MultiSocketRUDPServer/SessionSendContext.cpp:156-180 | over every interleaving a packet that is not erased leaves the unacked map exactly by its acknowledgement, or because a rejected send call of the same sequence erases it in place of its own |
| SendOwnershipRuns.RejectedSendErasesNewer | MultiSocketRUDP/MultiSocketRUDPServer/RUDPSession.cpp:214-221 | a concrete run of the second: a send call that outlives its life erases the packet of the next life from the map, which stays queued |
| SendOwnershipRuns.SampledAtMostOnce | MultiSocketRUDP/MultiSocketRUDPServer/SendPacketInfo.cpp:58-101 | over every interleaving a packet that gives a sample has been in a stream at most once and was never retransmitted, and the sample measures from that moment |
| SendOwnershipRuns.KarnsRule | MultiSocketRUDP/MultiSocketRUDPServer/SendPacketInfo.cpp:58-101 | Karn's rule (section 3 of RFC 6298): the samples OnSendReply takes of packets of this life come from packets put in a stream exactly once and never retransmitted, and measure from that moment |
| SendOwnershipRuns.ReusedSequenceLosesTimer | MultiSocketRUDP/MultiSocketRUDPServer/RUDPSession.cpp:131-137 | a concrete run in which a send call takes its sequence, the session is re-initialised and hands out the same sequence again, and an unacked packet is left without a timer |
| RetransmissionSchedule.RetransmissionScheduler.TakeDue | MultiSocketRUDP/MultiSocketRUDPServer/MultiSocketRUDPCore.Workers.cpp:173-198 | the locked loop takes off the heap only stale entries and due current ones, each due current one as often as it was there, in deadline order; what remains is later than now, with a current entry of least deadline to wait for |
| RetransmissionSchedule.RetransmissionScheduler.Push | MultiSocketRUDP/MultiSocketRUDPServer/RetransmissionScheduler.h:42 | one entry is added |
| RetransmissionSchedule.SendPacketInfo.Schedule | MultiSocketRUDP/MultiSocketRUDPServer/RetransmissionScheduler.h:35-43 | one version and one reference more, and the entry pushed carries the new version |
| RetransmissionSchedule.SendPacketInfo.constructor | MultiSocketRUDP/MultiSocketRUDPServer/SendPacketInfo.cpp:23-42 | one reference, version 0, not erased, never sent, samples allowed for data packets only |
| RetransmissionSchedule.SendPacketInfo.AddRefCount | MultiSocketRUDP/MultiSocketRUDPServer/SendPacketInfo.cpp:49-56 | one reference more; whether the count was valid before |
| RetransmissionSchedule.SendPacketInfo.Free | MultiSocketRUDP/MultiSocketRUDPServer/SendPacketInfo.cpp:103-122 | one reference less; recycled exactly at the last one |
| RetransmissionSchedule.SendPacketInfo.MarkSentForRttSample | MultiSocketRUDP/MultiSocketRUDPServer/SendPacketInfo.cpp:58-67 | records the send time of data packets only |
| RetransmissionSchedule.SendPacketInfo.InvalidateRttSample | MultiSocketRUDP/MultiSocketRUDPServer/SendPacketInfo.cpp:69-72 | no sample is given any more |
| RetransmissionSchedule.SendPacketInfo.TryGetRttSample | MultiSocketRUDP/MultiSocketRUDPServer/SendPacketInfo.cpp:74-101 | a positive time since the last send, exactly for a data packet that was sent and never invalidated |
| Sequences.AdvanceIsWire | MultiSocketRUDP/MultiSocketRUDPServer/SessionPacketOrderer.cpp:92 | counting a 64-bit sequence up n times is addition modulo 2^64 |
| Sequences.DistanceOfAdvance | MultiSocketRUDP/MultiSocketRUDPServer/SessionPacketOrderer.cpp:30-31 | the signed 64-bit difference is the true difference of positions less than 2^63 apart |
| Sequences.AdvanceOfDistance | MultiSocketRUDP/MultiSocketRUDPServer/SessionPacketOrderer.cpp:30-31 | every sequence number is at the position its signed difference says |
| ReceiveWindow.RUDPReceiveWindow.constructor | MultiSocketRUDP/Common/FlowController/RUDPReceiveWindow.cpp:6-10 | all flags clear, starting at 0 |
| ReceiveWindow.RUDPReceiveWindow.CanReceive | MultiSocketRUDP/Common/FlowController/RUDPReceiveWindow.cpp:18-22 | accepts exactly the sequences less than the window size ahead of its start |
| ReceiveWindow.RUDPReceiveWindow.MarkReceived | MultiSocketRUDP/Common/FlowController/RUDPReceiveWindow.cpp:24-45 | nothing outside the window; otherwise the flag is set and the circular array slides past the whole run of received flags at its start |
| ReceiveWindow.RUDPReceiveWindow.SlidePastReceived | MultiSocketRUDP/Common/FlowController/RUDPReceiveWindow.cpp:38-44 | the loop slides by exactly the leading run of set flags |
| ReceiveWindow.RUDPReceiveWindow.Reset | MultiSocketRUDP/Common/FlowController/RUDPReceiveWindow.cpp:47-53 | all flags clear, starting at the given sequence |
| ReceiveWindow.RUDPReceiveWindow.GetAdvertiseWindow | MultiSocketRUDP/Common/FlowController/RUDPReceiveWindow.cpp:60-63 | the number of clear flags |
| SessionReceive.SessionPacketOrderer.constructor | MultiSocketRUDP/MultiSocketRUDPServer/SessionPacketOrderer.cpp:7-10 | empty, with the given capacity |
| SessionReceive.SessionPacketOrderer.OnReceive | MultiSocketRUDP/MultiSocketRUDPServer/SessionPacketOrderer.cpp:28-72 | the whole new state of orderer, window and session and the result, for every branch |
| SessionReceive.SessionPacketOrderer.ProcessAndAdvance | MultiSocketRUDP/MultiSocketRUDPServer/SessionPacketOrderer.cpp:90-100 | the next expected sequence moves before the handler runs; a packet held under it is dropped only on success |
| SessionReceive.SessionPacketOrderer.ProcessHoldingPacket | MultiSocketRUDP/MultiSocketRUDPServer/SessionPacketOrderer.cpp:102-126 | the drain loop does what draining packet by packet until a gap or a failure does, and ends |
| SessionReceive.SessionPacketOrderer.Reset | MultiSocketRUDP/MultiSocketRUDPServer/SessionPacketOrderer.cpp:74-83 | starts over at the given sequence with nothing held |
| SessionReceive.RUDPSession.constructor | MultiSocketRUDP/MultiSocketRUDPServer/RUDPSession.cpp:16-22 | orderer and window empty and of the same size |
| SessionReceive.RUDPSession.StartReceiving | MultiSocketRUDP/MultiSocketRUDPServer/RUDPSession.cpp:441-443 | orderer and window both start at the given sequence |
| SessionReceive.RUDPSession.SendReplyToClient | MultiSocketRUDP/MultiSocketRUDPServer/RUDPSession.cpp:534-552 | the reply carries the sequence and the number of clear window flags |
| SessionReceive.RUDPSession.ProcessPacket | MultiSocketRUDP/MultiSocketRUDPServer/RUDPSession.cpp:510-532 | window mark and reply follow only a successful handler |
| SessionReceive.RUDPSession.OnRecvPacket | MultiSocketRUDP/MultiSocketRUDPServer/RUDPSession.cpp:457-501 | older packets are only acknowledged, packets outside the window ignored, the rest goes to the orderer; false exactly on an error |
| ReceiveLockstep.Lockstep | MultiSocketRUDP/MultiSocketRUDPServer/RUDPSession.cpp:421-532 | over every run of arrivals, failed handlers included: window start, flags and next expected sequence are determined by the outcomes of the handlers; until one fails the window starts at the next expected sequence with no flag set, at most W-1 packets are held, all strictly inside it, and every reply has advertised the whole window |
| ReceiveLockstep.OnlyHandlersFail | MultiSocketRUDP/MultiSocketRUDPServer/RUDPSession.cpp:457-501 | in every reachable state an error from OnRecvPacket means a handler has just failed: the duplicate result and the full holding queue cannot occur |
| ReceiveLockstep.NeverFull | MultiSocketRUDP/MultiSocketRUDPServer/SessionPacketOrderer.cpp:55-65 | a packet accepted by the window always finds room in the holding map |
| OrdererSet.DeliversContiguousBlock | MultiSocketRUDP/MultiSocketRUDPServer/SessionPacketOrderer.cpp:28-126 | after any error-free run, deliveries are exactly the consecutive positions up to the first not accepted, with the payload accepted for each; the holding map is exactly the accepted positions beyond, each less than 2^63 ahead |
| OrdererSet.OrderDoesNotMatter | MultiSocketRUDP/MultiSocketRUDPServer/SessionPacketOrderer.cpp:28-126 | two error-free runs over the same positions, in any order and with any repetitions, deliver the same |
| OrdererSet.AcceptedIsArrived | MultiSocketRUDP/MultiSocketRUDPServer/SessionPacketOrderer.cpp:28-72 | the accepted positions are exactly those that arrived |
| ReceiveSet.HandlesContiguousBlock | MultiSocketRUDP/MultiSocketRUDPServer/RUDPSession.cpp:457-501 | over every run of arrivals at the session in which no handler fails: the handlers have run on exactly the contiguous block of positions that arrived inside the window, each with its first payload, and exactly the arrivals beyond are held |
| ReceiveSet.AcceptedIsHeld | MultiSocketRUDP/MultiSocketRUDPServer/SessionPacketOrderer.cpp:53-71 | in every reachable state an accepted packet that is not due is held with the first payload to arrive, and nothing else changes |
| ReceiveSet.AcknowledgesExactly | MultiSocketRUDP/MultiSocketRUDPServer/RUDPSession.cpp:510-552 | over every run, failures or not: every handler that succeeded has been acknowledged under its sequence, besides that exactly the old arrivals were answered, and each acknowledgement advertises what the window had left then |
| AckSoundness.DispatchExactly | MultiSocketRUDP/MultiSocketRUDPServer/RUDPSession.cpp:457-501 | a dispatch keeps "every reply answers a successful handler" exactly when it is not a packet whose handler failed, let in before the release flag is set |
| AckSoundness.AcksTrueExactly | MultiSocketRUDP/MultiSocketRUDPServer/RUDPPacketProcessor.cpp:67-85 | over every run the acknowledgements are all true if and only if no such dispatch happened |
| AckSoundness.AcksTrueUnlessLate | MultiSocketRUDP/MultiSocketRUDPServer/RUDPSession.cpp:74-84 | they are all true whenever no handler fails between another thread winning the transition to RELEASING and the flag being set |
| AckSoundness.LateFailureAcked | MultiSocketRUDP/MultiSocketRUDPServer/RUDPSession.cpp:74-84 | a concrete run that acknowledges a packet whose handler failed |
| ClientReceive.RUDPClientReceiver.constructor | MultiSocketRUDP/MultiSocketRUDPClient/RUDPClientCore.h:185-190 | empty, expecting sequence 1 |
| ClientReceive.RUDPClientReceiver.ProcessRecvPacket | MultiSocketRUDP/MultiSocketRUDPClient/RUDPClientCore.cpp:485-509 | the packet is stored whatever is stored already, and acknowledged at once |
| ClientReceive.RUDPClientReceiver.GetReceivedPacket | MultiSocketRUDP/MultiSocketRUDPClient/RUDPClientCore.cpp:639-670 | drops old packets, skips heartbeats, returns the application packet that is due; with nothing to return, nothing up to the next expected sequence is left |
| ClientReceive.GetsInOrder | MultiSocketRUDP/MultiSocketRUDPClient/RUDPClientCore.cpp:639-670 | each call returns the next application packet after those returned before, and one that returns nothing has read everything up to the first missing sequence |
| ServerSend.RUDPSessionSender.constructor | MultiSocketRUDP/MultiSocketRUDPServer/SessionSendContext.cpp:35-61 | a session that has sent nothing |
| ServerSend.RUDPSessionSender.SendPacketImmediate | MultiSocketRUDP/MultiSocketRUDPServer/RUDPSession.cpp:180-233 | registers the packet unless the allocation fails |
| ServerSend.RUDPSessionSender.SendPacket | MultiSocketRUDP/MultiSocketRUDPServer/RUDPSession.cpp:116-178 | a session that is not connected refuses and changes nothing; otherwise a packet for which there is a buffer is numbered, and queued behind a nonempty pending queue or a closed window, or registered; every failure of a connected session disconnects it |
| ServerSend.RUDPSessionSender.TakeSendable | MultiSocketRUDP/MultiSocketRUDPServer/RUDPSession.cpp:237-251 | takes exactly the longest prefix of the pending queue the window admits |
| ServerSend.RUDPSessionSender.TryFlushPendingQueue | MultiSocketRUDP/MultiSocketRUDPServer/RUDPSession.cpp:235-270 | registers what was taken up to the first failed allocation, which disconnects and drops the rest |
| ServerSend.RUDPSessionSender.OnSendReply | MultiSocketRUDP/MultiSocketRUDPServer/RUDPSession.cpp:554-579 | an acknowledgement that is not awaited changes nothing; another erases its packet, opens the window and flushes, up to the first failed allocation, which disconnects |
| ServerSend.FlushMoves | MultiSocketRUDP/MultiSocketRUDPServer/RUDPSession.cpp:235-270 | a flush takes the longest admitted prefix of the pending queue; those before the first failed allocation are in the map, the rest of it is lost, nothing else moves |
| FlowControl.WindowRange | MultiSocketRUDP/Common/FlowController/RUDPFlowController.cpp:23-53 | over every run of replies and timeouts the window stays between 1 and 250, so its 8 bits do not wrap, and is measured from the highest reply |
| FlowControl.OldRepliesIgnored | MultiSocketRUDP/Common/FlowController/RUDPFlowController.cpp:27-34 | replies already covered change nothing |
| FlowControl.GrowsByOne | MultiSocketRUDP/Common/FlowController/RUDPFlowController.cpp:23-53 | any number of replies without a gap open the window by one each, but for the one that ends a recovery |
| FlowControl.SawTooth | MultiSocketRUDP/Common/FlowController/RUDPFlowController.cpp:23-65 | k timeouts halve the window k times, down to one, and the replies that follow open it again from there |
| FlowControl.GapHalves | MultiSocketRUDP/Common/FlowController/RUDPFlowController.cpp:36-48 | a reply more than five ahead halves the window once and ends the recovery, so the next reply opens it again |
| ServerToClient.Keeps | MultiSocketRUDP/MultiSocketRUDPServer/RUDPSession.cpp:158-270 | every step of the sender, the network and the client, a failed send taken back out of the map included, keeps: all copies are originals, acknowledged means received, the application has a prefix, nothing is lost |
| ServerToClientRuns.NoLoss | MultiSocketRUDP/MultiSocketRUDPServer/RUDPSession.cpp:158-270 | until a disconnect every sequence ever taken is pending, unacked, in a running send, or at the client |
| ServerToClientRuns.ExactlyOnceInOrder | MultiSocketRUDP/MultiSocketRUDPClient/RUDPClientCore.cpp:639-670 | what the application receives is always a prefix of what the server sent, each packet once, unchanged, heartbeats left out |
| ServerToClientRuns.QuietMeansComplete | MultiSocketRUDP/MultiSocketRUDPClient/RUDPClientCore.cpp:639-670 | with nothing pending, unacked or in hand, reading on yields everything that was sent |
| ServerToClientRuns.SendPacketIsARun | MultiSocketRUDP/MultiSocketRUDPServer/RUDPSession.cpp:158-178 | the SendPacket method is a run of the protocol steps |
| ServerToClientRuns.OnSendReplyIsARun | MultiSocketRUDP/MultiSocketRUDPServer/RUDPSession.cpp:554-579 | the OnSendReply method with its flush loop is a run of the protocol steps |
| ServerToClientRuns.OneSenderNeverStuck | MultiSocketRUDP/MultiSocketRUDPServer/RUDPSession.cpp:158-178 | with one sending thread, packets wait in the pending queue only while another is being sent or awaits its acknowledgement |
| ServerToClientRuns.SendsInOrder | MultiSocketRUDP/MultiSocketRUDPServer/RUDPSession.cpp:158-178 | with one sending thread no packet is admitted while one of a lower sequence waits |
| ServerToClientRuns.SticksExactly | MultiSocketRUDP/MultiSocketRUDPServer/RUDPSession.cpp:164-174 | a step gets a session stuck exactly when nothing is unacked or being sent and the congestion window is closed to the packet being placed, or to the first pending one when a flush ends |
| ServerToClientRuns.StuckExactly | MultiSocketRUDP/MultiSocketRUDPServer/RUDPSession.cpp:158-178 | over every run, until it is disconnected a session is stuck if and only if some step of the run was such a step |
| ServerToClientRuns.StuckForever | MultiSocketRUDP/MultiSocketRUDPServer/RUDPSession.cpp:564-568 | a session with pending packets and nothing unacked or in hand never sends a datagram again |
| ServerToClientRuns.TwoSendersGetStuck | MultiSocketRUDP/MultiSocketRUDPServer/RUDPSession.cpp:132-139 | a concrete run of two senders that ends so |
| ClientSend.RUDPClientSender.constructor | MultiSocketRUDP/MultiSocketRUDPClient/RUDPClientCore.h:174-190 | nothing sent, a window of one |
| ClientSend.RUDPClientSender.RegisterSendPacketInfo | MultiSocketRUDP/MultiSocketRUDPClient/RUDPClientCore.cpp:803-827 | the packet is in the map, unless its sequence was, and in the send queue; without a SendPacketInfo nothing changes |
| ClientSend.RUDPClientSender.SendPacket | MultiSocketRUDP/MultiSocketRUDPClient/RUDPClientCore.cpp:753-791 | goes straight out to map and send queue when the map has room in the window, whatever is pending, and is lost when it cannot be allocated then; otherwise it is pending |
| ClientSend.RUDPClientSender.TryFlushPendingQueue | MultiSocketRUDP/MultiSocketRUDPClient/RUDPClientCore.cpp:829-853 | takes the least pending sequences, in order and each while the map has room, until there is none or nothing is pending; those whose allocation succeeds are in the map with their payloads, which the send queue receives in turn; the others are lost |
| ClientSend.RUDPClientSender.OnSendReply | MultiSocketRUDP/MultiSocketRUDPClient/RUDPClientCore.cpp:540-570 | takes the advertised window, erases the packet and no other, and flushes as above; a sequence never sent changes nothing |
| ClientSend.FlushLosesNothing | MultiSocketRUDP/MultiSocketRUDPClient/RUDPClientCore.cpp:829-853 | every packet pending before a flush is pending or in the map afterwards, with its payload, unless its own allocation failed |
| ClientSend.BuffersExactly | MultiSocketRUDP/MultiSocketRUDPClient/RUDPClientCore.cpp:803-853 | when the allocations succeed, the send queue receives exactly the payloads moved, in order of sequence |
| ClientToServer.Keeps | MultiSocketRUDP/MultiSocketRUDPClient/RUDPClientCore.cpp:455-570 | every step of the client, the network and the server, with DoDisconnect's transition and flag as separate steps, keeps: all copies are originals, handlers ran in order on originals, and, while no failed packet has been acknowledged, acknowledged means handled and nothing is lost |
| ClientToServer.ReceiveServes | MultiSocketRUDP/MultiSocketRUDPServer/RUDPSession.cpp:457-532 | one receive runs handlers only on the packets sent under the next sequences, and adds a false acknowledgement exactly when it repeats a packet whose handler failed |
| ClientToServerRuns.NoLoss | MultiSocketRUDP/MultiSocketRUDPClient/RUDPClientCore.cpp:753-853 | every sequence ever taken is pending, in the map, in a running function, or its handler has succeeded, unless the server acknowledged a packet whose handler had failed |
| ClientToServerRuns.FalseAcksExactly | MultiSocketRUDP/MultiSocketRUDPServer/RUDPSession.cpp:74-84 | the server's acknowledgements are all true if and only if it never repeated a failed packet; it did not whenever no handler failed after another thread's transition to RELEASING |
| ClientLoss.LossExactly | MultiSocketRUDP/MultiSocketRUDPClient/RUDPClientCore.cpp:540-570 | from a reachable state in which the client has dropped nothing, some continuation in which nothing more reaches the server loses a packet if and only if the server has acknowledged one whose handler failed |
| ClientLoss.LateFailureLosesPacket | MultiSocketRUDP/MultiSocketRUDPServer/RUDPSession.cpp:74-84 | a concrete run in which a handler fails between another thread's transition and the flag, and the client forgets the packet |
| ClientToServerRuns.ExactlyOnceInOrder | MultiSocketRUDP/MultiSocketRUDPServer/SessionPacketOrderer.cpp:28-126 | handlers have run on a prefix of what the client sent, each packet once, in order, unchanged |
| ClientToServerRuns.QuietMeansComplete | MultiSocketRUDP/MultiSocketRUDPClient/RUDPClientCore.cpp:753-853 | with nothing pending, unacknowledged or in hand every handler has succeeded, unless a failed packet was acknowledged |
| ClientToServerRuns.SendPacketIsARun | MultiSocketRUDP/MultiSocketRUDPClient/RUDPClientCore.cpp:753-791 | what RUDPClientSender.SendPacket does is a run of the steps of ClientToServer, whatever the window and the allocation |
| ClientToServerRuns.OnSendReplyIsARun | MultiSocketRUDP/MultiSocketRUDPClient/RUDPClientCore.cpp:540-570 | so is an acknowledgement with the flush after it, whatever it moves and loses |
| ClientToServerRuns.WaitsOnlyForRoom | MultiSocketRUDP/MultiSocketRUDPClient/RUDPClientCore.cpp:753-853 | in runs in which SendPacket and the flush do not interleave, whatever windows are advertised, a packet waits at rest only while the map has no room in the window |
| ClientStall.UnsentKeeps | MultiSocketRUDP/MultiSocketRUDPClient/RUDPClientCore.cpp:753-853 | a packet waiting in the pending queue or a running call has no copy anywhere else |
| ClientStall.StallsExactly | MultiSocketRUDP/MultiSocketRUDPClient/RUDPClientCore.cpp:765-853 | for a client at rest that has not given up: some run makes the server run another handler if and only if the packet it waits for is in the map, or the map holds fewer than a window of later packets |
| ClientStall.BlockedForever | MultiSocketRUDP/MultiSocketRUDPClient/RUDPClientCore.cpp:829-853 | once later packets fill the window while the awaited one is pending, no run whatever gets another handler run |
| ClientStall.OneThreadStalls | MultiSocketRUDP/MultiSocketRUDPClient/RUDPClientCore.cpp:558-569 | a concrete run with one application thread that ends so |
| SendStream.SendStreamBuilder.constructor | MultiSocketRUDP/MultiSocketRUDPServer/SessionSendContext.cpp:6-9 | nothing queued or reserved |
| SendStream.SendStreamBuilder.PushSendPacketInfo | MultiSocketRUDP/MultiSocketRUDPServer/SessionSendContext.cpp:75-79 | added at the end of the queue |
| SendStream.SendStreamBuilder.ReservedSendPacketInfoToStream | MultiSocketRUDP/MultiSocketRUDPServer/RUDPIOHandler.cpp:450-482 | the reserved packet is taken, and copied to the front unless too large or erased |
| SendStream.SendStreamBuilder.StoredSendPacketInfoToStream | MultiSocketRUDP/MultiSocketRUDPServer/RUDPIOHandler.cpp:484-531 | one queued packet is taken: repeated, refused, put in the reserved slot, counted, or copied behind the others without touching them |
| SendStream.SendStreamBuilder.MakeSendStream | MultiSocketRUDP/MultiSocketRUDPServer/RUDPIOHandler.cpp:418-448 | the buffer holds every copy at its offset, end to end in order, within the size returned and the buffer |
| StreamBatching.ConcatenationExactly | MultiSocketRUDP/MultiSocketRUDPServer/RUDPIOHandler.cpp:508-526 | a datagram is the concatenation of its packets if and only if no queued packet found erased had been counted in its size |
| StreamBatching.ErasedPacketLeavesGap | MultiSocketRUDP/MultiSocketRUDPServer/RUDPIOHandler.cpp:515-519 | a concrete datagram with a gap |
| StreamBatching.FifoOverRuns | MultiSocketRUDP/MultiSocketRUDPServer/RUDPIOHandler.cpp:418-531 | over any run of pushes and calls, the packets taken by the batches, then the overflow, then the queue are the packets pushed, in order |
| StreamBatching.OverflowLeads | MultiSocketRUDP/MultiSocketRUDPServer/RUDPIOHandler.cpp:450-482 | the overflow of one batch is the first packet of the next |
| StreamBatching.PushesWait | MultiSocketRUDP/MultiSocketRUDPServer/RUDPIOHandler.cpp:424-432 | packets pushed during a call are left for the next |
| StreamBatching.ClosesOnlyWhenFull | MultiSocketRUDP/MultiSocketRUDPServer/RUDPIOHandler.cpp:424-526 | a datagram ends before everything that waited is in it exactly when the next packet, of a key it does not have, does not fit behind what it has; that packet then waits in the slot |
| StreamBatching.FailsExactly | MultiSocketRUDP/MultiSocketRUDPServer/RUDPIOHandler.cpp:458-506 | with packets of 1 to 32768 bytes a call fails exactly when one of 32768 bytes had to wait in the reserved slot |
| StreamBatching.SmallPacketsAlwaysGo | MultiSocketRUDP/MultiSocketRUDPServer/RUDPIOHandler.cpp:418-531 | smaller packets never make a call fail, and each call takes at least the first packet waiting |
| Framing.OnRecvStream | MultiSocketRUDP/MultiSocketRUDPClient/RUDPClientCore.cpp:429-453 | the loop ends on every input and hands on exactly the frames of the datagram |
| Framing.RoundTrip | MultiSocketRUDP/MultiSocketRUDPClient/RUDPClientCore.cpp:429-453 | packets whose header has the payload's length in bytes 1 and 2, low byte first, come back exactly from any concatenation |
| Framing.FramesOfJoined | MultiSocketRUDP/MultiSocketRUDPClient/RUDPClientCore.cpp:429-453 | well-formed packets at the front come out unchanged, whatever follows them |
| Framing.TruncatedExactly | MultiSocketRUDP/MultiSocketRUDPClient/RUDPClientCore.cpp:437-446 | a packet cut short is dropped exactly when its remainder is shorter than its payload length or no longer than the header; otherwise it is processed with up to five foreign bytes |
| Framing.AllButLastInside | MultiSocketRUDP/MultiSocketRUDPClient/RUDPClientCore.cpp:429-453 | on every input the packets handed on have the lengths their headers say, and all but the last lie inside the datagram, in order |
| RetransmissionTimeout.RetransmissionTimeoutEstimator.constructor | MultiSocketRUDP/MultiSocketRUDPServer/RetransmissionTimeoutEstimator.cpp:5-20 | configured with the given bounds |
| RetransmissionTimeout.RetransmissionTimeoutEstimator.Configure | MultiSocketRUDP/MultiSocketRUDPServer/RetransmissionTimeoutEstimator.cpp:5-20 | no sample, no suppression, bounds raised where they must be, the timeout in them nearest to the initial one |
| RetransmissionTimeout.RetransmissionTimeoutEstimator.ClampRto | MultiSocketRUDP/MultiSocketRUDPServer/RetransmissionTimeoutEstimator.cpp:71-79 | the value clamped to the bounds |
| RetransmissionTimeout.RetransmissionTimeoutEstimator.SmoothRtt | MultiSocketRUDP/MultiSocketRUDPServer/RetransmissionTimeoutEstimator.cpp:33-48 | the integer update, with no 64-bit step wrapping |
| RetransmissionTimeout.RetransmissionTimeoutEstimator.OnRttSample | MultiSocketRUDP/MultiSocketRUDPServer/RetransmissionTimeoutEstimator.cpp:27-53 | smoothed values, clamped timeout and end of suppression, for every duration |
| RetransmissionTimeout.RetransmissionTimeoutEstimator.OnTimeout | MultiSocketRUDP/MultiSocketRUDPServer/RetransmissionTimeoutEstimator.cpp:55-69 | nothing within the suppressed window, else the timeout doubles within its bound |
| RetransmissionTimeout.TracksRfc6298 | MultiSocketRUDP/MultiSocketRUDPServer/RetransmissionTimeoutEstimator.cpp:33-50 | for every sequence of samples, against exact arithmetic (section 2 of RFC 6298): SRTT low by at most 7, RTTVAR off by at most 10, timeout before clamping by at most 47 ms |
| RetransmissionTimeout.EstimatorTracksRfc6298 | MultiSocketRUDP/MultiSocketRUDPServer/RetransmissionTimeoutEstimator.cpp:5-69 | the same for the estimator over every run of samples and timeouts |
| RetransmissionTimeout.RtoTracksRfc6298 | MultiSocketRUDP/MultiSocketRUDPServer/RetransmissionTimeoutEstimator.cpp:27-53 | after every run that ends in a sample the timeout in force is within 47 ms below and 28 ms above the exact one clamped to the bounds, and a timeout right after it is applied |
| RetransmissionTimeout.SrttBetweenSamples | MultiSocketRUDP/MultiSocketRUDPServer/RetransmissionTimeoutEstimator.cpp:47 | SRTT stays between the least and the greatest sample |
| RetransmissionTimeout.RtoStaysInRange | MultiSocketRUDP/MultiSocketRUDPServer/RetransmissionTimeoutEstimator.cpp:71-79 | the timeout is always within its bounds |
| RetransmissionTimeout.BackoffDoubles | MultiSocketRUDP/MultiSocketRUDPServer/RetransmissionTimeoutEstimator.cpp:55-69 | k applied timeouts give min(max, r*2^k), each at least that much after the one before |
| RetransmissionTimeout.BackoffLaw | MultiSocketRUDP/MultiSocketRUDPServer/RetransmissionTimeoutEstimator.cpp:55-69 | rule 5.5 of section 5 of RFC 6298 over runs: the value after k timeouts, and the k-th no sooner than the sum of the windows opened after the first |
| RetransmissionTimeout.WindowExactly | MultiSocketRUDP/MultiSocketRUDPServer/RetransmissionTimeoutEstimator.cpp:55-69 | over every run of timeouts the next is applied exactly from the time of the last applied plus the timeout in force |
| LifecycleOwners.KeepsOwned | MultiSocketRUDP/MultiSocketRUDPServer/RUDPSession.cpp:66-113 | one owner of the release at a time, remembered unless Disconnect gave up, and the callbacks that have run: kept by every step of every thread |
| LifecycleOwners.KeepsSends | MultiSocketRUDP/MultiSocketRUDPServer/RUDPIOHandler.cpp:200-255 | one holder of the send mode, and a send mode found free under the flag is only taken to be given back: kept by every step but a re-initialisation under a sender |
| LifecycleProofs.Keeps | MultiSocketRUDP/MultiSocketRUDPServer/RUDPSession.cpp:36-113 | counters count, posted receives are of this life, and what the drain checks are worth: kept by every step of every thread but two, a read of outstandingRecvIo while the broker posts, and a re-initialisation under a sender or before the broker is done |
| LifecycleRuns.NoFault | MultiSocketRUDP/MultiSocketRUDPServer/RUDPIOHandler.cpp:34-91 | in orderly runs no counter goes below zero and the branch for stale completions is never reached |
| LifecycleRuns.BarrierExactly | MultiSocketRUDP/MultiSocketRUDPServer/RUDPSession.cpp:340-389 | when a session is about to be re-initialised it has no posted receive, queued packet, outstanding send, stream being made, completion or setup in progress, if and only if no sender is between its CAS and its second release check and the broker is done |
| LifecycleRuns.CleansExactly | MultiSocketRUDP/MultiSocketRUDPServer/RUDPSession.cpp:378-388 | when Disconnect goes on to clean up, the CanFinalizeIO it asserts holds if and only if no sender is between its CAS and its second release check |
| LifecycleRuns.CleansEarlyExactly | MultiSocketRUDP/MultiSocketRUDPServer/SessionRIOContext.cpp:41-47 | over runs: no cleanup's assert ever failed if and only if no cleanup of the run came between a sender's CAS and its second check |
| LifecycleRuns.SingleSenderExactly | MultiSocketRUDP/MultiSocketRUDPServer/RUDPIOHandler.cpp:200-255 | over every run: in all its states the send mode is taken exactly while one thread prepares a send, one send is with the kernel, or its completion is handled, if and only if no step of the run re-initialises the session between a sender's CAS and its second release check |
| LifecycleProofs.LifeKeeps | MultiSocketRUDP/MultiSocketRUDPServer/RUDPSession.cpp:86-113 | how far the first of the release thread's two drain checks can be trusted, that every receive context stays posted until failures come too late to disconnect, and that the closed socket stays closed: kept by the same steps |
| LifecycleRuns.CallbacksOnce | MultiSocketRUDP/MultiSocketRUDPServer/RUDPSession.cpp:86-113 | over every run OnDisconnected and OnReleased run at most once in a life and never in an aborted one, and no packet handler from OnDisconnected on; a finished life had OnReleased, and OnDisconnected before it if and only if the I/O shutdown was started |
| LifecycleRuns.CallbacksComplete | MultiSocketRUDP/MultiSocketRUDPServer/RUDPSession.cpp:340-389 | OnDisconnected is missed only over a receive posted after the first check had read outstandingRecvIo, never without a late failure when the broker was done; the socket of a finished life is closed |
| LifecycleRuns.ForgottenExactly | MultiSocketRUDP/MultiSocketRUDPServer/MultiSocketRUDPCore.Workers.cpp:355-372 | over every run a session in RELEASING has nobody left to finish its release if and only if Disconnect gave up |
| LifecycleRuns.GivesUpExactly | MultiSocketRUDP/MultiSocketRUDPServer/RUDPSession.cpp:93-97 | Disconnect gives up exactly when its own CanFinalizeIO meets a sender between its CAS and its second check, or what became of a receive posted after the first CanFinalizeIO had read outstandingRecvIo; never over a packet handler |
| LifecycleRuns.GivesUpOnlyOverSender | MultiSocketRUDP/MultiSocketRUDPServer/RUDPSession.cpp:74-97 | in a life that was not aborted, whose broker was done, and in which no failure lost the transition while the flag was unset, a session is forgotten exactly when Disconnect reads the send mode while a sender is between its CAS and its second check |
| LifecycleRuns.ForgottenForever | MultiSocketRUDP/MultiSocketRUDPServer/MultiSocketRUDPCore.Workers.cpp:363-368 | over every run a session in RELEASING that nobody is releasing stays there for good |
| LifecycleExamples.SenderMakesReleaseForget | MultiSocketRUDP/MultiSocketRUDPServer/RUDPSession.cpp:93-97 | a concrete run of a connected session in which a sender that passed the release check before the flag takes the send mode just when Disconnect reads it, and the session is forgotten |
| LifecycleExamples.LateFailuresMakeReleaseForget | MultiSocketRUDP/MultiSocketRUDPServer/RUDPSession.cpp:74-97 | a concrete run without any sender: seven receives fail between the transition and the flag, the eighth is posted again with them behind the first drain check, OnDisconnected is called, and the session is forgotten without OnReleased |
| LifecycleExamples.LateFailuresSkipOnDisconnected | MultiSocketRUDP/MultiSocketRUDPServer/RUDPSession.cpp:340-358 | a concrete run that goes on from there to OnReleased with OnDisconnected never called |
| LifecycleExamples.AbortedSetupForgotten | MultiSocketRUDP/MultiSocketRUDPServer/MultiSocketRUDPCore.cpp:709-744 | a concrete run, with no sender and no late failure, in which the broker's posting fails half way, the worker posts again, and the aborted session is forgotten |
| LifecycleExamples.SenderMakesCleanupEarly | MultiSocketRUDP/MultiSocketRUDPServer/RUDPSession.cpp:378-382 | a concrete run in which a sender takes the send mode of a session after Disconnect has read it, and the cleanup's asserts fail |
| LifecycleExamples.StraddlingSenderSharesBuffer | MultiSocketRUDP/MultiSocketRUDPServer/RUDPIOHandler.cpp:212-224 | a concrete run in which a sender takes the send mode just before re-initialisation and two threads make a stream in the next, connected life |
| LifecycleExamples.StraddlingSenderMakesCompletionStale | MultiSocketRUDP/MultiSocketRUDPServer/RUDPIOHandler.cpp:72-91 | a concrete run that goes on from there to a send completion of an earlier generation |
| LifecycleExamples.AbortDuringSetupBreaksBarrier | MultiSocketRUDP/MultiSocketRUDPServer/MultiSocketRUDPCore.cpp:709-744 | a concrete run in which a reservation given up during its setup leaves a receive posted on a pooled session |
| LifecycleExamples.ReleaseOvertakesPosting | MultiSocketRUDP/MultiSocketRUDPServer/MultiSocketRUDPCore.cpp:736-740 | a concrete run in which the broker posts receives on both sides of each check, and the session is cleaned up with a receive outstanding |
| SessionObjects.SessionStateMachine.constructor | MultiSocketRUDP/MultiSocketRUDPServer/SessionStateMachine.h:78 | a new machine is DISCONNECTED |
| SessionObjects.SessionStateMachine.Reserve | MultiSocketRUDP/MultiSocketRUDPServer/SessionStateMachine.cpp:30-33 | RESERVED from any state |
| SessionObjects.SessionStateMachine.TransitionToConnected | MultiSocketRUDP/MultiSocketRUDPServer/SessionStateMachine.cpp:35-42 | succeeds exactly from RESERVED |
| SessionObjects.SessionStateMachine.TransitionToReleasing | MultiSocketRUDP/MultiSocketRUDPServer/SessionStateMachine.cpp:44-59 | succeeds exactly from RESERVED and CONNECTED |
| SessionObjects.SessionStateMachine.AbortReserved | MultiSocketRUDP/MultiSocketRUDPServer/SessionStateMachine.cpp:61-68 | succeeds exactly from RESERVED |
| SessionObjects.SessionStateMachine.Disconnect | MultiSocketRUDP/MultiSocketRUDPServer/SessionStateMachine.cpp:70-73 | DISCONNECTED from any state |
| SessionObjects.OneWinner | MultiSocketRUDP/MultiSocketRUDPServer/SessionStateMachine.cpp:44-68 | in one life, however often disconnecting and aborting is attempted, exactly one attempt wins |
| SessionObjects.RecvBuffer.constructor | MultiSocketRUDP/MultiSocketRUDPServer/RecvBuffer.h:16-21 | the given contexts free, both counters 0 |
| SessionObjects.RecvBuffer.AcquireFreeRecvContext | MultiSocketRUDP/MultiSocketRUDPServer/RecvBuffer.h:23-32 | the first free context, or none |
| SessionObjects.RecvBuffer.ReleaseRecvContext | MultiSocketRUDP/MultiSocketRUDPServer/RecvBuffer.h:34-37 | the context goes to the end of the free queue |
| SessionObjects.RecvBuffer.BeginRecvIo | MultiSocketRUDP/MultiSocketRUDPServer/RecvBuffer.h:50-53 | one posted receive more |
| SessionObjects.RecvBuffer.CompleteRecvIo | MultiSocketRUDP/MultiSocketRUDPServer/RecvBuffer.h:59-63 | one posted receive less; there must be one |
| SessionObjects.RecvBuffer.BeginRecvLogic | MultiSocketRUDP/MultiSocketRUDPServer/RecvBuffer.h:68-71 | one queued packet more |
| SessionObjects.RecvBuffer.CompleteRecvLogic | MultiSocketRUDP/MultiSocketRUDPServer/RecvBuffer.h:77-81 | one queued packet less; there must be one |
| SessionObjects.RecvBuffer.IsDrained | MultiSocketRUDP/MultiSocketRUDPServer/RecvBuffer.h:88-92 | both counters are 0 |
| SessionObjects.RecvBuffer.PostAll | MultiSocketRUDP/MultiSocketRUDPServer/RUDPIOHandler.cpp:176-198 | posts the free contexts in order; at a failure the context goes back and the rest stay free |
| SessionPool.RUDPSessionManager.constructor | MultiSocketRUDP/MultiSocketRUDPServer/RUDPSessionManager.cpp:7-12 | not initialised |
| SessionPool.RUDPSessionManager.Initialize | MultiSocketRUDP/MultiSocketRUDPServer/RUDPSessionManager.cpp:19-49 | needs a worker and a working factory; creates the pool once |
| SessionPool.RUDPSessionManager.CreateSessionPool | MultiSocketRUDP/MultiSocketRUDPServer/RUDPSessionManager.cpp:291-339 | every id is unused and spread over the workers; a factory failure leaves everything as it was |
| SessionPool.RUDPSessionManager.AcquireSession | MultiSocketRUDP/MultiSocketRUDPServer/RUDPSessionManager.cpp:51-78 | the first unused id, taken off list and set |
| SessionPool.RUDPSessionManager.ReleaseSession | MultiSocketRUDP/MultiSocketRUDPServer/RUDPSessionManager.cpp:80-110 | returns a RELEASING session that is not unused, with the next generation, and refuses anything else |
| SessionPool.Keeps | MultiSocketRUDP/MultiSocketRUDPServer/RUDPSessionManager.cpp:51-110 | every event keeps list, set and histories in agreement |
| SessionPool.PoolPartition | MultiSocketRUDP/MultiSocketRUDPServer/RUDPSessionManager.cpp:51-110 | after any run the unused list has no duplicates and is the unused set, every id is unused or in one life, acquisitions and returns alternate with rising generations, and a life enters the release list at most once |
| SessionPool.FirstReturnedFirstAcquired | MultiSocketRUDP/MultiSocketRUDPServer/RUDPSessionManager.cpp:51-110 | over any run the ids acquired, then the unused list, are the ids at the start, then those returned: sessions are reused in the order of their return |
| SessionPool.EvenLoad | MultiSocketRUDP/MultiSocketRUDPServer/RUDPSessionManager.cpp:291-339 | after any run each worker has its share of the sessions, no two shares differing by more than one |

## Left out

- ServerToClientRuns.NoLoss: nothing is claimed after the server session is disconnected; sequences do not wrap around.
- ClientToServerRuns.NoLoss: leaves out runs in which the client failed to allocate a SendPacketInfo, since the client then drops the packet without telling anyone (RUDPClientCore.cpp:805-811), and runs in which the server acknowledged a packet whose handler had failed, where ClientLoss.LossExactly says what happens; sequences stay below 2^63 because the client compares them with a plain less-than.
- ClientStall.StallsExactly: is about a client at rest with fewer than 256 packets in its map; beyond that the BYTE cast of the map's size (RUDPClientCore.cpp:779) wraps.
- SendOwnershipSafety.KeepsSafe: one stream is made at a time, which LifecycleRuns.SingleSenderExactly says when to expect.
- SendOwnershipRuns.OneTransmitToken: covers runs in which no send call takes its sequence before a re-initialisation and allocates after it, and the retransmission thread has not been stopped; ReusedSequenceLosesTimer shows the first is needed.
- SendOwnershipRuns.KarnsRule: covers the same runs, for that the packet was in a stream at all, and says nothing of a packet of an earlier life that a send call put in the map while the session was being re-initialised; SampledAtMostOnce has the rest over every run.
- SendOwnershipRuns.SpareChecksNeverFire: covers the same runs; OneTokenAtMost has over every run all of it but the duplicates.
- OrdererSet.OrderDoesNotMatter: arrivals are within 2^63 positions of what has been delivered.
- AckSoundness.AcksTrueExactly: packets carry sequences from the start sequence on, where the peer begins to count; one before it would be answered as an old packet.
- LifecycleRuns.BarrierExactly: covers orderly runs: Disconnect reads outstandingRecvIo only when the broker is not posting receives, and no earlier life was re-initialised with its broker unfinished or between a sender's CAS and its second release check; ReleaseOvertakesPosting, AbortDuringSetupBreaksBarrier and StraddlingSenderMakesCompletionStale show that each is needed.
- LifecycleRuns.NoFault: the same runs.
- LifecycleRuns.CleansExactly: the same runs, as for CleansEarlyExactly and GivesUpExactly.
- LifecycleRuns.CallbacksComplete: the same runs; LateFailuresSkipOnDisconnected shows that late failures must be excluded.
- LifecycleRuns.GivesUpOnlyOverSender: the same runs; LateFailuresMakeReleaseForget and AbortedSetupForgotten show that late failures and aborted lives must be excluded, and for them GivesUpExactly is what is known.
- LifecycleProofs.Keeps: one I/O worker and one logic worker per session, as the completion queues and logic queues are assigned by thread id; one broker at a time, so one that outlives its session's life is replaced by the next acquisition; a CONNECT is handled only after the broker is done with the session.
- SendStream.SendStreamBuilder.MakeSendStream: the erased flag is read once per packet; the second read under the scheduler's lock is a step of SendOwnership.
- SessionReceive.RUDPSession.SendReplyToClient: replies that cannot be allocated or sent, which disconnect the session, are not modelled there; a reply that never reaches the network is.
- RetransmissionTimeout.RetransmissionTimeoutEstimator.OnTimeout: times are unbounded, so the end of the clock's range is not modelled.
- SessionPool.RUDPSessionManager.ReleaseSession: the 32-bit generation does not wrap; connectedUserCount and the other statistics are left out.
- SendPacketInfo, the scheduler and the send context are steps over values in SendOwnership, because every field is shared by several threads; their single-threaded methods are classes in RetransmissionSchedule, ServerSend and SendStream.
- SessionRIOContext: its drain check and cleanup are steps of Lifecycle; registering and deregistering buffers is left out.
- RunRetransmissionThread of the client, ProcessByPacketType, RunSessionReleaseThread and IOCompleted are steps of the machines above rather than methods.
- The zero-length exit of DoSend, which does not look at the queue again, is a step; no claim is made that a queued packet is always picked up.
- Handshake: a repeated CONNECT gets no second reply, and sequence 0 may stay unacked; the data phase starts after the connection.
- RUDPFlowController: a value in ServerSend, because only one line of each caller touches it; no fairness or throughput property is stated.
- RingBuffer: the pending queue is a bounded sequence.
- Windows RIO and socket calls, event handles, timers and thread creation; OS wait failures.
- TLS, AES-GCM, nonces and keys; NetBuffer internals beyond the bytes a packet holds; option files.
- Logger, MemoryTracer, Ticker, console, sample servers and clients, session broker networking, the C# client and its tools.
