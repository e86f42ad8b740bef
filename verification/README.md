# A verified model of PCCL

PCCL runs collective operations (all-reduce above all) over the public internet. A master process keeps track of the
peers, lets them vote themselves through phases (connecting to each other, optimizing the topology, synchronizing a
shared state, running collective operations), and the peers reduce their vectors along a ring of TCP connections. Peers
may come and go at any time. This project models the parts of it that are hardest to get right and proves what they
promise: for every input, every interleaving of the peers, every order of packets and every run of the master.

What is proved, in short:

* **The ring.** Ranks exchange byte fragments over FIFO links, each at its own pace, possibly several steps ahead of a
  neighbour. In every interleaving all ranks end with identical buffers, chunk by chunk the value the design states,
  which for an associative and commutative operation is the element-wise reduction of all inputs; no frame is consumed
  in a step it was not sent for; frames of earlier, aborted operations are dropped; nobody ever gets stuck; and every
  fair schedule finishes. With min-max quantization the result is the same on all ranks and within
  `B * W * (W + 1) / M` below the exact sum.
* **The master.** Whatever its clients send, in whatever order and with whatever disconnects, phases exclude each other,
  they are entered only with a standing vote of everybody concerned, vote sets and address maps mirror the clients, the
  bandwidth store knows exactly the accepted peers, and the operations that commence carry strictly growing numbers.
  Somebody who sees nothing but the packets always knows who is a client, who is accepted and how a phase stands, and
  what the master announces is what the packets say: an establishment phase is reported as a success, to exactly its
  peers, if and only if all their reports were and nobody left. For each of the four ways in which a packet can end the
  process the exact guard is given.
  The class with its loops and fields is proved to do, handler by handler, what the state machine says.
* **The verdict.** Together with clients that follow the protocol, all survivors of a collective operation conclude the
  same success or failure, one local failure makes everybody fail, and each survivor gets exactly one abort packet.
* **Shared state, ring search, ring delivery, retry scheduler, bandwidth store, wire format**: see the table.

Several properties one would expect do not hold of the code as it is. For each the model keeps the code, gives a concrete
case in which the property fails, and proves exactly when it holds:

* The check that ends an establishment phase can end the master process. One run needs nothing but clients that follow the
  protocol: a peer leaves between a failed phase and its retry (`RetryRace.RetryRaceEndsTheMaster`). Another needs no
  departure, but a client that votes again without waiting for the end of the phase, which the client in
  `ccoip/src/cpp/ccoip_client_handler.cpp:912-934` never does (`RetryRace.HastyVoteEndsTheMaster`).
  `RetryRace.StepEndsMasterIff` is the exact guard, on the state before the step and the packet.
* A vote is acted on in the step that completes it, by the last vote or by the departure of the last one that had not
  voted, except a vote on the topology optimization: after a departure the code rechecks every vote but this one, although
  it sets out to recheck them all (`ccoip/src/cpp/ccoip_master_handler.cpp:1316-1318`). Such a vote then stands for good
  (`MasterVotes.OptimizationVoteLingers`, a run; `MasterVotes.OptimizationVoteLingersIff`, exactly when;
  `MasterVotes.OtherVotesAreTaken`, `MasterVotes.RoundVotesAreTaken` and `OperationVotes.OperationVotesAreTaken` for the
  others).
* A peer that registers alone, connects and reports success is told that the phase failed if somebody left before it came:
  its registration opens the phase without forgetting that (`MasterPhases.StaleDeparture`, a run). For a phase opened by a
  vote the announcement is right (`MasterPhases.AcceptPhaseVerdict`); `MasterPhases.PhaseVerdict` is exact for all.
* A failed connection can end the master process although there is a ring around it: the new ring is refused if the ring
  of the same peers was found to be optimal (`OptimalRing.DetourEndsTheMaster`, a history with an optimization;
  `RingHistory.DetourEndsMasterIff`, the exact condition).
* The mark of an aborted operation stays behind when the last member of the group leaves. The next peer that performs the
  operation then gets no abort packet, for which the client waits (`Orphans.OrphanStarves`, a run; `Orphans.StepOwned`,
  exactly when a mark is left behind).
* A mask election can end with nobody to distribute the state (`SharedStateProof.NobodyDistributes`);
  `SharedStateProof.DistributorIff` is the exact condition on the votes.
* `pcclAllReduceMultipleWithRetry` can report success with operations that never completed
  (`Retry.OneFailureIsTooMany`, a call). It completed all of them if and only if, by a tally over how the awaits end, fewer
  rounds fail than operations may be in flight (`Retry.AllReduceMultipleWithRetry`, `Retry.CompleteIffRoundsLeft`).
* A TCP read that ends inside the eight bytes of a length prefix makes the server close the connection; in every other
  case all packets arrive, in order (`Reassembly.DeliversExactlyUnlessPrefixCut`).
* With quantization, a rank forwards a chunk out of the buffer it receives the next one into, and may be overtaken
  (`InPlaceRun.ScheduleCorrupts`, a schedule of three ranks, after which `WrongResult.ResultsDiffer` has two ranks finish
  with different results). What is yet to be sent is intact in every run and for all contents, codecs and operations if
  and only if each forwarding step meets a condition on its two chunks and the piece sizes (`InPlace.InPlaceIff`). The
  piece size is an environment variable of each process, so this condition, `RingSpec.Safe`, is a hypothesis of the
  quantized theorems; without quantization, or with two ranks, it always holds.

Two comments of the source disagree with its code, and the model follows the code: the comment that a rank ends the
first phase owning chunk `rank` (`ccoip/src/cpp/reduce.cpp:677`; it owns chunk `rank + 1`, line 765), and the comment
that votes to accept new peers are cleared where the code clears the votes to establish connections
(`ccoip/src/cpp/ccoip_master_state.cpp:917-918`).

## How it is organized

| files | component |
|---|---|
| `Chunks`, `Streaming` | splitting a vector into chunks; turning byte fragments into elements |
| `RingSpec`, `Ring`, `RingProof`, `RingProgress`, `AllReduce`, `ByteSum` | the asynchronous ring and its theorems |
| `InPlace`, `InPlaceRun`, `WrongResult` | when forwarding out of the receive buffer is safe, and a schedule in which it is not |
| `MinMax`, `QuantizedSum` | the quantization kernels and the error bound of the whole ring |
| `RingSearch`, `Topology`, `AcceptPhase`, `RingServing`, `RingHistory`, `RingDelivery`, `OptimalRing` | the search for a reachable ring; the ring cache and the optimizer over all histories; what is delivered at the end of an accept phase; an optimal ring that ends the process |
| `MasterSpec`, `MasterInv`, `MasterKept`, `MasterTheorems`, `MasterOpenings`, `MasterRuns`, `RetryRace` | the master as a state machine, what all its runs keep, and concrete runs |
| `MasterWatch`, `MasterPhases`, `MasterVotes`, `MasterRefusals`, `OperationVotes` | the master seen through its packets; whether every complete vote is acted on; what gets a client kicked or ends the process |
| `MasterState` | the master as a class, with loops over mutable maps |
| `MasterTags`, `Orphans`, `Verdict` | one collective operation as the master and its clients see it |
| `SharedState`, `SharedStateProof` | mask election and convergence of synchronization rounds |
| `Bandwidth`, `Retry` | the bandwidth store; the retry scheduler |
| `Reassembly`, `Packets`, `PacketLayout`, `PacketBuffer`, `Queues` | the wire: framing, packet codecs and layouts, buffers, receive queues |

Integers are unbounded except where the width matters: `ByteSum` wraps at 256, the codecs have the widths of the fields,
and the length prefix treats the largest 64-bit value as "unset", as the code does. Floating point is modelled by exact
reals. `LOG(BUG)` ends the process, as `log/src/pccl_log.cpp:70` does; the state machine's `Halt` stands for it. Things
the model does not compute are inputs that may take any value: the order in which hash maps are walked, fresh ids, the
outcome of the mask election and of the ring search as seen by the state machine, and how awaits and launches of the
retry scheduler end.

## Model

| member | source | states |
|---|---|---|
| Chunks.ComputeChunkBoundaries | ccoip/src/cpp/reduce.cpp:52-68 | the loop yields a partition of the vector into contiguous chunks whose sizes differ by at most one, larger ones first; no chunks for an empty world |
| Chunks.BoundsPartition | ccoip/src/cpp/reduce.cpp:52-68 | the boundaries cover every element exactly once, and chunk r has total / world elements, one more among the first total % world |
| Chunks.PlanChunks | ccoip/src/cpp/reduce.cpp:616-668 | each refusal has its exact condition: elements that do not fill whole bytes, a width that is no number of bytes, quantization asked for and disabled; otherwise chunks are a partition, byte-aligned on the wire, and non-empty exactly if there are enough units; the check on the largest chunk never fires |
| Chunks.WholeBytes | ccoip/src/cpp/reduce.cpp:619-630 | the packing unit is the least number of elements that fills whole bytes: a count is a multiple of it if and only if its elements do |
| Chunks.ScaleBounds | ccoip/src/cpp/reduce.cpp:632-638 | boundaries in packing units are scaled to elements |
| Chunks.MaxChunk | ccoip/src/cpp/reduce.cpp:650-666 | the largest chunk is found, and its packed size is a whole number of bytes |
| Chunks.NonEmptyIff | ccoip/src/cpp/reduce.cpp:52-68 | every rank has a non-empty chunk if and only if there are at least as many elements as ranks |
| Streaming.ReceiveChunk | ccoip/src/cpp/reduce.cpp:226-261 | receiving a chunk in any fragments applies to element i exactly its own bits of the joined bytes, the q bits from bit i q on, or its own q / 8 bytes for whole-byte widths |
| Streaming.SlotPlace | ccoip/src/cpp/reduce.cpp:232-250 | where element i of a packed chunk lies: for sub-byte widths in byte i q / 8 from bit i q % 8 on, for others in the q / 8 bytes from byte i (q / 8) on |
| Streaming.ReceiveFrame | ccoip/src/cpp/reduce.cpp:399-434 | one fragment, cut anywhere, applies exactly the elements it completes; a partial element waits in the buffer |
| Streaming.ReduceWindow | ccoip/src/cpp/reduce_kernels.cpp:84-100 | a kernel call changes the addressed elements by the operation and nothing else |
| Streaming.CountIsFloor | ccoip/src/cpp/reduce.cpp:232-250 | the number of whole elements in n bytes is floor(8 n / q), and they end on a byte boundary |
| Ring.ChosenChunks | ccoip/src/cpp/reduce.cpp:679-700 | the chunk numbers the code computes modulo the world size, or carries over from the last step, are those at the right distance on the ring |
| RingProof.RunInv | ccoip/src/cpp/reduce.cpp:679-844 | in every interleaving every rank's buffer, counters and outgoing bytes, and the content of every link, are what the steps done so far determine; nothing fails, and no rank is overtaken in its receive buffer |
| RingProgress.ActDecreases | ccoip/src/cpp/reduce.cpp:202-281 | every move that changes anything decreases the work left over all ranks |
| RingProgress.Progress | ccoip/src/cpp/reduce.cpp:169-281 | in every reachable unfinished state some rank can send or receive: no deadlock |
| RingProgress.FairFinishes | ccoip/src/cpp/reduce.cpp:202-281 | every schedule in which each rank keeps getting turns ends with all ranks finished |
| AllReduce.Agreement | ccoip/src/cpp/reduce.cpp:679-844 | in every interleaving a rank that is done holds, chunk by chunk, the one final value all ranks hold: the combination in ring order or, with quantization, its quantized form unpacked again, for any operation; no rank ever fails |
| AllReduce.UnsentIntact | ccoip/src/cpp/reduce.cpp:807-829 | bytes not yet sent are still the bytes the step set out to send, although the next chunk arrives in the same buffer |
| InPlace.InPlaceIff | ccoip/src/cpp/reduce.cpp:807-829 | for every all-reduce: the bytes yet to be sent are intact in every run from every start, whatever the contents, the codec and the operation, if and only if every forwarding step receives no longer pieces than it sends or has a chunk that fits one piece sent |
| InPlace.SomeRunOvertakes | ccoip/src/cpp/reduce.cpp:202-281 | from every start, one forwarding step that does not meet the condition has a run in which some rank receives over bytes it has yet to send |
| InPlace.OvertakenByte | ccoip/src/cpp/reduce.cpp:807-829 | the byte due next is then one of the chunk being received |
| InPlaceRun.ScheduleCorrupts | ccoip/src/cpp/reduce.cpp:202-281 | a schedule of 59 moves of a maximum over three ranks with pieces of two, one and two bytes, after which a rank is about to send a byte of the wrong chunk |
| WrongResult.ResultsDiffer | ccoip/src/cpp/reduce.cpp:679-844 | seven moves later two ranks have finished and hold different results |
| AllReduce.ConsumedInOwnStep | ccoip/src/cpp/reduce.cpp:226-262 | a frame of the operation is only ever taken in the step it was sent for, though frames carry no step number |
| AllReduce.AllReduceFinishes | ccoip/src/cpp/reduce.cpp:554-859 | every fair schedule ends with all ranks holding the same final chunks |
| AllReduce.FinalIsReduction | ccoip/src/cpp/reduce.cpp:679-733 | without quantization, for an associative and commutative operation, each final element is the fold of that element over all ranks |
| AllReduce.AllReduceVector | ccoip/src/cpp/reduce.cpp:554-859 | for every vector length and world size, every fair schedule leaves the element-wise reduction of all inputs at every rank |
| ByteSum.ByteSumAllReduce | ccoip/src/cpp/reduce_kernels.cpp:84-92 | the same for unsigned bytes added with wrap-around, with no abstract operation left |
| MinMax.FindMinAndMax | ccoip/src/cpp/quantize_kernels.cpp:24-34 | the loop finds the minimum and maximum of the start values and the elements: bounds of all of them, each attained |
| MinMax.ExtremesEnclose | ccoip/src/cpp/quantize_kernels.cpp:24-34 | every element lies between them |
| MinMax.ExtremesAttained | ccoip/src/cpp/quantize_kernels.cpp:24-34 | each of them is an element, or the start value if that is not beyond any element |
| MinMax.QuantizeOne | ccoip/src/cpp/quantize_kernels.cpp:38-58 | one element is scaled to the code range by truncation, also in a constant chunk; its code stands for a value that is not above it, not below the minimum, and at most one level off |
| MinMax.MinMaxQuant | ccoip/src/cpp/quantize_kernels.cpp:38-58 | a chunk is quantized element by element, with its extremes |
| MinMax.MinMaxQuantAndDequant | ccoip/src/cpp/quantize_kernels.cpp:61-82 | a chunk is replaced by what a receiver of its codes would compute |
| MinMax.HopBound | ccoip/internal/quantize_kernels.hpp:14-22 | quantizing and back never exceeds the value and loses at most (max - min) / levels |
| MinMax.ChunkBound | ccoip/src/cpp/quantize_kernels.cpp:61-82 | for elements within [lo, hi] the loss of one hop is at most (hi - lo) / levels, and the result stays within [lo, hi] |
| MinMax.CodeIsLargest | ccoip/src/cpp/quantize_kernels.cpp:38-58 | the code of an element is the largest one whose value does not exceed it |
| QuantizedSum.SumPackLaws | ccoip/src/cpp/quantize_kernels.cpp:38-58 | the min-max codes meet what the ring asks of a codec: a chunk takes the bytes its element count and width call for |
| QuantizedSum.FinalNear | ccoip/src/cpp/reduce.cpp:701-710 | the final value of a quantized sum lies in [S - B W (W + 1) / M, S] |
| QuantizedSum.QuantizedAllReduce | ccoip/src/cpp/reduce.cpp:679-844 | in every fair schedule of a quantized sum all ranks end equal and within that bound |
| RingSearch.BuildAdjacency | ccoip/src/cpp/ccoip_master_state.cpp:1669-1686 | two peers are adjacent exactly when neither reported the other as unreachable |
| RingSearch.Search.Backtrack | ccoip/src/cpp/ccoip_master_state.cpp:1695-1726 | the recursion finds an extension of the path to a closed ring, or restores path and visited set when there is none |
| RingSearch.Search.Find | ccoip/src/cpp/ccoip_master_state.cpp:1728-1743 | trying every start peer finds a closed ring whenever there is one |
| RingSearch.BuildReachableRing | ccoip/src/cpp/ccoip_master_state.cpp:1635-1744 | sound and complete: with two or more peers a ring is returned exactly when a Hamiltonian cycle of mutually reachable peers exists, and it is one |
| RingSearch.CycleIsHamiltonian | ccoip/src/cpp/ccoip_master_state.cpp:1635-1744 | closed walks in the adjacency map are exactly the Hamiltonian cycles of mutual reachability |
| Topology.RingCache.LocalWorldSize | ccoip/src/cpp/ccoip_master_state.cpp:1827-1840 | the loop counts the clients of the group, registered ones only if asked |
| Topology.RingCache.IsDirty | ccoip/src/cpp/ccoip_master_state.cpp:1780-1792 | a ring is dirty if its length differs from the world size or it names somebody who is no client |
| Topology.RingCache.BuildBasicRing | ccoip/src/cpp/ccoip_master_state.cpp:1596-1632 | the group's accepted or connecting peers, each once, in ascending order of their ids |
| Topology.RingCache.SetRing | ccoip/src/cpp/ccoip_master_state.cpp:1746-1778 | an optimal ring is replaced only if its peers change |
| Topology.RingCache.GetRing | ccoip/src/cpp/ccoip_master_state.cpp:1794-1805 | a dirty ring is rebuilt; the ring returned is the one cached |
| Topology.RingCache.GetPeers | ccoip/src/cpp/ccoip_master_state.cpp:943-992 | the peers before and after on the ring, one entry if they coincide, none for a ring of one |
| Topology.PeersAround | ccoip/src/cpp/ccoip_master_state.cpp:957-991 | for a peer on the ring the list is exactly its ring neighbours, without repetition |
| Topology.FetchFailsOnlyIf | ccoip/src/cpp/ccoip_master_state.cpp:1794-1805 | the process is ended here only if world size and builder count registered peers differently |
| Topology.FetchedTwice | ccoip/src/cpp/ccoip_master_state.cpp:1794-1805 | fetching again changes nothing, so all peers of a group are told of one ring |
| Topology.ListingMeans | ccoip/src/cpp/ccoip_master_handler.cpp:1417-1469 | a peer told "unchanged" already knows exactly the right set of peers |
| AcceptPhase.FetchPerfect | ccoip/src/cpp/ccoip_master_state.cpp:1780-1805 | while everybody connects, the ring fetched is a permutation of the group whether kept or rebuilt |
| AcceptPhase.PhaseStep | ccoip/src/cpp/ccoip_master_handler.cpp:233-311 | a step of an open accept phase without drop or failure keeps it, or ends it with success for exactly its peers |
| RingServing.ServeAllRenews | ccoip/src/cpp/ccoip_master_state.cpp:1794-1805 | whatever a step sends, each ring is afterwards unchanged, or made of clients of the group, each once; a ring that is optimal was so before, and is unchanged |
| RingServing.StepServesIff | ccoip/src/cpp/ccoip_master_state.cpp:1794-1805 | for any cache without duplicates: the rings a step serves end the process if and only if it opens a phase for accepted peers only and reaches a peer of a group whose ring is optimal and made of exactly the peers a new one would be built from, one of them not accepted |
| RingHistory.HistorySane | ccoip/src/cpp/ccoip_master_state.cpp:1555-1805 | in every run, with the rings of the ring search stored and those of the optimizer, which is scheduled at the end of an optimization phase and reads and stores at any later time, cached rings have no duplicates and name only peers that are or were in the group |
| RingHistory.OptimalRingsAreAccepted | ccoip/src/cpp/topolgy_optimizer.cpp:23-84 | in every run, whoever is on an optimal ring or was ever known to the bandwidth store is accepted, if it is still a client |
| RingHistory.FetchNeverFails | ccoip/src/cpp/ccoip_master_state.cpp:1794-1805 | over all histories the LOG(BUG) of the ring cache is never met, neither by a step that serves rings nor by the optimizer's read |
| RingHistory.DetourEndsMasterIff | ccoip/src/cpp/ccoip_master_state.cpp:536-566 | over all histories and all packets, the LOG(BUG) behind a failed report is met if and only if the search finds a ring and the group's ring is optimal and of the same peers; no newcomer is connecting then |
| OptimalRing.DetourEndsTheMaster | ccoip/src/cpp/ccoip_master_state.cpp:536-566 | a concrete history: four peers optimize their ring and connect again, one does not reach its new neighbour, and the process ends although there is a ring around that connection |
| RingDelivery.LastVoteOpens | ccoip/src/cpp/ccoip_master_handler.cpp:339-351 | a request that completes the vote to accept peers puts everybody into the phase and asks everybody to connect |
| RingDelivery.AcceptPhaseDelivers | ccoip/src/cpp/ccoip_master_handler.cpp:255-309 | in every run, an accept phase without drop, failure or optimizer activity ends by delivering to each peer the ring of its opening: one permutation of the group's now accepted peers, with the neighbours listed for it at the opening |
| MasterInv.ConsensusIsUnanimity | ccoip/src/cpp/ccoip_master_state.cpp:1424-1488 | comparing numbers, with registered peers counted as voters, decides exactly whether all accepted peers voted |
| MasterInv.StepInv | ccoip/src/cpp/ccoip_master_handler.cpp:175-1409 | every packet and every disconnect keeps the master's invariant; of the LOG(BUG)s of the state machine only four kinds can be met (the ring cache's own is never met, `RingHistory.FetchNeverFails`) |
| MasterInv.RunInv | ccoip/src/cpp/ccoip_master_handler.cpp:175-1409 | the same for every run from an empty master |
| MasterInv.CheckP2PHalts | ccoip/src/cpp/ccoip_master_handler.cpp:233-282 | the check that ends an establishment phase ends the process exactly when everybody in the phase has reported and some accepted peer has already voted for the next one |
| MasterKept.StepSound | ccoip/src/cpp/ccoip_master_state.cpp:285-287 | every step keeps ids unique, groups fixed and accepted clients accepted, and numbers the operations it commences upwards |
| MasterKept.RunNumbered | ccoip/src/cpp/ccoip_master_handler.cpp:817-867 | over a whole run, operations of all groups and tags commence with strictly growing numbers |
| MasterTheorems.PhaseExclusion | ccoip/src/cpp/ccoip_master_state.cpp:897-940 | if one peer is in an establishment phase all accepted ones are in its states; likewise for topology optimization, and per group for shared state |
| MasterTheorems.TagCoherence | ccoip/src/cpp/ccoip_master_state.cpp:430-520 | for a group and tag the accepted peers are all outside the operation or all in it; a peer runs exactly when it has an operation |
| MasterTheorems.Bookkeeping | ccoip/src/cpp/ccoip_master_state.cpp:32-178 | vote sets, strategies, address maps and the bandwidth store's peers mirror the clients; local and public peers never mix |
| MasterOpenings.OpeningsAreUnanimous | ccoip/src/cpp/ccoip_master_handler.cpp:339-365 | a step that announces the opening or end of a phase or round finds every accepted peer concerned, but the one that acts, with a standing vote for it; only a newcomer turned away may repeat an announcement |
| MasterOpenings.ActorVotes | ccoip/src/cpp/ccoip_master_handler.cpp:932-1410 | and the one that acts votes for it by its packet, or leaves |
| MasterTheorems.ConsensusIsEverybodysVote | ccoip/src/cpp/ccoip_master_state.cpp:1424-1488 | in every reachable state the counting test holds exactly if the vote set is all accepted peers |
| MasterTheorems.RoundCounters | ccoip/src/cpp/ccoip_master_state.cpp:697-717 | the same for a group's shared-state rounds; the counters never disagree with the vote sets |
| MasterTheorems.CommenceTogether | ccoip/src/cpp/ccoip_master_handler.cpp:817-867 | an operation commences at once for all accepted peers of the group, each of which voted for it, with a number not used before |
| MasterTheorems.CompletedTogether | ccoip/src/cpp/ccoip_master_handler.cpp:869-930 | an operation ends at once for all members, after each voted it complete |
| MasterTheorems.OutOnlyByCompletion | ccoip/src/cpp/ccoip_master_state.cpp:791-828 | a member leaves an operation only by its completion packet |
| MasterPhases.RunWatched | ccoip/src/cpp/ccoip_master_handler.cpp:175-1409 | over every run an observer of the packets alone knows addresses, clients, accepted peers, who was asked to connect, who reported what, whether somebody left, and who waits for an answer about pending peers |
| MasterPhases.PacketsAreTrue | ccoip/src/cpp/ccoip_master_handler.cpp:233-337 | over every run every announcement goes to whom it concerns and says what this observer knows: openings, ends of phases, answers about pending peers, starts and ends of optimizations |
| MasterPhases.PhaseVerdict | ccoip/src/cpp/ccoip_master_handler.cpp:233-311 | over every run, from any point of a phase to its end: exactly its peers that are still there are told, and they are told of success if and only if nobody had failed or left before, every report since was one of success, and nobody left since |
| MasterPhases.AcceptPhaseVerdict | ccoip/src/cpp/ccoip_master_handler.cpp:339-351 | for a phase opened by a vote to accept newcomers: success is announced to those asked to connect if and only if every report since the opening was one of success and nobody left since |
| MasterPhases.OpeningIs | ccoip/src/cpp/ccoip_master_handler.cpp:339-365 | a phase that begins with a clean slate begins with exactly those asked to connect whom its packet went to, and nobody gone; with newcomers, nobody has reported yet |
| MasterPhases.LastReportEnds | ccoip/src/cpp/ccoip_master_handler.cpp:233-311 | over every run the report that leaves nobody to wait for ends the phase at once; a departure that does, ends it or opens the next one |
| MasterPhases.StaleDeparture | ccoip/src/cpp/ccoip_master_handler.cpp:219-222 | a concrete run of two peers, one after the other, in which the second is told of a failure although its only report was a success and nobody left since it came |
| MasterPhases.QueriesAnswered | ccoip/src/cpp/ccoip_master_handler.cpp:313-337 | over every run it is never so that all accepted peers wait for an answer about pending peers |
| MasterVotes.OtherVotesAreTaken | ccoip/src/cpp/ccoip_master_handler.cpp:1316-1350 | over every run no complete vote to connect, or to end a shared-state round, is left standing |
| MasterVotes.RoundVotesAreTaken | ccoip/src/cpp/ccoip_master_handler.cpp:577-765 | nor is one for a shared-state round, if the election finds who distributes |
| MasterVotes.OptimizationVoteLingersIff | ccoip/src/cpp/ccoip_master_handler.cpp:1294-1350 | over every run a vote to begin or end an optimization is complete and not acted on after a step if and only if it was complete before without the peer that leaves in it: only a departure does it, and nothing takes the vote afterwards |
| MasterVotes.OptimizationVoteLingers | ccoip/src/cpp/ccoip_master_handler.cpp:1294-1350 | a concrete run of two peers: one votes for an optimization, the other leaves, and the vote of all that are left is not acted on |
| OperationVotes.OperationVotesAreTaken | ccoip/src/cpp/ccoip_master_handler.cpp:817-930 | over every run no vote of all members of a group, to start or to end an operation, is left standing |
| OperationVotes.DepartureAborts | ccoip/src/cpp/ccoip_master_handler.cpp:1352-1381 | over every run, when a member leaves while another performs an operation, the operation is marked as aborted and all members that stay are told so, unless they have been |
| MasterRefusals.KickedIff | ccoip/src/cpp/ccoip_master_state.cpp:185-534 | over every run a client is kicked for a packet, which then has no other effect, if and only if it may not send this packet as it stands |
| MasterRefusals.ElectionDecides | ccoip/src/cpp/ccoip_master_handler.cpp:577-765 | over every run an election is held exactly if a vote or a departure completes the vote of the group; then the round begins for all members, or the mismatching peer is kicked, or no round begins for want of a mask, or the process ends, as the outcome says |
| MasterRefusals.ElectionHaltsIff | ccoip/src/cpp/ccoip_master_handler.cpp:577-765 | over every run the process ends behind an election if and only if one is held and reads past a peer's entries |
| MasterRefusals.BandwidthHaltsIff | ccoip/src/cpp/ccoip_master_state.cpp:1233-1265 | over every run the process ends in the bandwidth store if and only if a client reports about a client of its group and one of the two is not accepted |
| RetryRace.StepEndsMasterIff | ccoip/src/cpp/ccoip_master_handler.cpp:233-311 | a step ends the process in the check of an establishment phase if and only if nobody but the sender is connecting, somebody else has voted for the next phase, and the packet is the sender's report, or a departure after which some peer has reported and the remaining accepted peers are not unanimous |
| RetryRace.RetryRaceEndsTheMaster | ccoip/src/cpp/ccoip_master_handler.cpp:1294-1335 | a concrete run of four peers that follow the protocol, ended by a departure |
| RetryRace.HastyVoteEndsTheMaster | ccoip/src/cpp/ccoip_master_handler.cpp:233-311 | a concrete run of four peers, ended by a report, with no departure at all: a client whose connection failed votes again without waiting for the end of the phase |
| RetryRace.DetourExists | ccoip/src/cpp/ccoip_master_state.cpp:1635-1744 | in the first run there is a ring around the connection that failed, so that nobody is kicked |
| MasterState.Master.Update | ccoip/src/cpp/ccoip_master_state.cpp:897-921 | a loop over the clients changes each of them once |
| MasterState.Master.Consents | ccoip/src/cpp/ccoip_master_state.cpp:1424-1435 | the counting loop decides the consensus of the state machine |
| MasterState.Master.Open | ccoip/src/cpp/ccoip_master_state.cpp:897-921 | the transition into an establishment phase |
| MasterState.Master.Close | ccoip/src/cpp/ccoip_master_state.cpp:573-615 | the loop that ends it succeeds exactly if everybody in it is in an expected state and newcomers are new to the bandwidth store |
| MasterState.Master.AllHaveReported | ccoip/src/cpp/ccoip_master_state.cpp:679-695 | the two counters are equal exactly when nobody is still connecting |
| MasterState.Master.CheckOpening | ccoip/src/cpp/ccoip_master_handler.cpp:339-365 | does what the state machine's check for openings does, packets included |
| MasterState.Master.CheckClosing | ccoip/src/cpp/ccoip_master_handler.cpp:233-311 | does what the state machine's check for the end of a phase does, whose announcement `MasterPhases.PhaseVerdict` explains |
| MasterState.Master.CheckPendingPeers | ccoip/src/cpp/ccoip_master_handler.cpp:313-337 | answers a pending-peers query exactly when all accepted peers asked |
| MasterState.Master.AllMove | ccoip/src/cpp/ccoip_master_state.cpp:923-940 | the transition of all accepted peers succeeds exactly if they are unanimous |
| MasterState.Master.CheckSyncing | ccoip/src/cpp/ccoip_master_handler.cpp:577-765 | starts a shared-state round as the state machine does, given the election's outcome |
| MasterState.Master.CheckSyncComplete | ccoip/src/cpp/ccoip_master_handler.cpp:768-815 | ends a round as the state machine does |
| MasterState.Master.FinishRound | ccoip/src/cpp/ccoip_master_state.cpp:617-652 | clears states, votes and strategies of the group and nothing else |
| MasterState.Master.CheckInitiated | ccoip/src/cpp/ccoip_master_handler.cpp:817-867 | commences an operation as the state machine does |
| MasterState.Master.CheckCompleted | ccoip/src/cpp/ccoip_master_handler.cpp:869-930 | concludes an operation as the state machine does, with one abort packet per operation |
| MasterState.Master.Mark | ccoip/src/cpp/ccoip_master_state.cpp:830-839 | only the first to abort an operation tells the others |
| MasterState.Master.Admit | ccoip/src/cpp/ccoip_master_state.cpp:32-107 | registration, with the first client accepted at once |
| MasterState.Master.Remove | ccoip/src/cpp/ccoip_master_state.cpp:127-178 | a peer that leaves disappears from every map and every vote set |
| MasterState.Master.TagList | ccoip/src/cpp/ccoip_master_state.cpp:1542-1553 | each ongoing tag of the group, once |
| MasterState.Master.ReviewAll | ccoip/src/cpp/ccoip_master_handler.cpp:1352-1381 | rechecking the ongoing operations one by one is the state machine's recheck of all |
| MasterState.Master.HandleDisconnect | ccoip/src/cpp/ccoip_master_handler.cpp:1294-1381 | a disconnect is one step of the state machine, for the order of tags the loop happens to use |
| MasterState.Master.Handle | ccoip/src/cpp/ccoip_master_handler.cpp:64-173 | every packet is one step of the state machine, sends its packets in its order, and keeps the invariant of all runs; it fails only with a possible LOG(BUG), the one of the state machine |
| MasterTags.StepFollows | ccoip/src/cpp/ccoip_master_handler.cpp:817-930 | for each group and tag every master step is a step of one abstract operation, and all members hear the same packets about it |
| Verdict.TraceOk | ccoip/src/cpp/ccoip_client_handler.cpp:1160-1302 | the joint invariant of the master and of clients following the protocol, over FIFO connections and every interleaving |
| Verdict.VerdictAgreement | ccoip/src/cpp/ccoip_client_handler.cpp:1257-1302 | all participants of an operation (ring of two or more) conclude the same, and one local failure makes all fail |
| Verdict.ExactlyOneAbort | ccoip/src/cpp/ccoip_client_handler.cpp:1160-1302 | every participant that concluded an operation heard about it exactly its start, one abort packet and its end, all with the same verdict |
| Verdict.NothingLeftOver | ccoip/src/cpp/ccoip_master_handler.cpp:872-885 | between operations no packet of the last one is left, and during one at most the announcement of an abort waits |
| Orphans.StepOwned | ccoip/src/cpp/ccoip_master_handler.cpp:1352-1381 | for every step: an abort mark loses its operation if and only if the last accepted peer of the group leaves while it is set |
| Orphans.StaleMarksAreOrphans | ccoip/src/cpp/ccoip_master_state.cpp:826-839 | over every run: a mark without an operation in which all members take part was left behind by such a step |
| Orphans.MarkLeftBehind | ccoip/src/cpp/ccoip_master_handler.cpp:1352-1381 | a concrete run of two peers, one of which reports a failure, reaches such a step |
| Orphans.OrphanStarves | ccoip/src/cpp/ccoip_master_handler.cpp:869-930 | the run goes on with a third peer whose operation commences and completes without any abort packet |
| SharedState.Tally | ccoip/src/cpp/ccoip_master_state.cpp:1116-1134 | votes and priority of every candidate mask, the priority being that of its last voter |
| SharedState.Elect | ccoip/src/cpp/ccoip_master_state.cpp:1116-1161 | a mask is elected iff there are candidates; it has the highest priority, and the most votes among those |
| SharedState.CompareExact | ccoip/src/cpp/ccoip_master_state.cpp:1163-1231 | for equal key sets the comparison finds a mismatch exactly if some hash differs, and lists exactly the differing keys |
| SharedState.DifferingMeans | ccoip/src/cpp/ccoip_master_state.cpp:1163-1231 | a key is listed exactly if its hash differs at its position |
| SharedState.CompareMeans | ccoip/src/cpp/ccoip_master_state.cpp:1163-1231 | for any two lists: a key-set mismatch if and only if some common entry differs in key, type or policy; a match if and only if all entries of the mask agree in these and in their hashes; a read past the peer's entries if and only if they are fewer and do not clash |
| SharedState.CompareEntries | ccoip/src/cpp/ccoip_master_state.cpp:1163-1231 | the comparison loop returns exactly these verdicts |
| SharedState.Keeper.IsNewRevisionLegal | ccoip/src/cpp/ccoip_master_state.cpp:1042-1067 | a peer matches if it is at the expected revision or none is set, is outdated below it and illegal above it; the first sets the expected revision |
| SharedStateProof.Polled | ccoip/src/cpp/ccoip_master_state.cpp:1042-1087 | after all votes, the records hold each peer's content and the status its revision gives it, and the expected revision is set |
| SharedState.Keeper.ElectMask | ccoip/src/cpp/ccoip_master_state.cpp:1116-1161 | the elected mask is stored |
| SharedState.Keeper.CheckMismatches | ccoip/src/cpp/ccoip_master_state.cpp:1163-1231 | status and outdated keys of all voters against the mask |
| SharedState.Keeper.Transition | ccoip/src/cpp/ccoip_master_state.cpp:1386-1415 | succeeds exactly if every voter has a status other than a key-set mismatch; those that match distribute, and the expected revision goes up by one |
| SharedState.Keeper.EndRound | ccoip/src/cpp/ccoip_master_state.cpp:634-640 | mask, candidates, entries, statuses and outdated keys are cleared, and the revision stays |
| SharedStateProof.RoundRefusedIff | ccoip/src/cpp/ccoip_master_state.cpp:1163-1415 | if no list is shorter than the mask, the comparison finds the status on which the round is refused if and only if the entries of some voter at the expected revision differ from the mask in key, type or policy; what outdated voters hold does not matter |
| SharedStateProof.ReceiversNeverWin | ccoip/src/cpp/ccoip_master_state.cpp:1069-1087 | a mask is elected if and only if somebody does not merely receive, and it is the content of one who does not |
| SharedStateProof.WinnerIsCurrent | ccoip/src/cpp/ccoip_master_state.cpp:1116-1161 | the elected mask is that of a peer at the expected revision |
| SharedStateProof.RoundVerdicts | ccoip/src/cpp/ccoip_master_state.cpp:1386-1415 | somebody distributes; a peer distributes iff it is at the expected revision and matches the mask; outdated keys are exactly the differing ones |
| SharedStateProof.FetchConverges | ccoip/src/cpp/ccoip_client_handler.cpp:425-592 | overwriting the outdated keys with a distributor's entries yields the mask |
| SharedStateProof.RoundConverges | ccoip/src/cpp/ccoip_client_handler.cpp:425-592 | after the round every peer holds the mask at the expected revision, and the records are clean for the next one |
| SharedStateProof.RoundsConverge | ccoip/src/cpp/ccoip_master_state.cpp:1042-1415 | over any sequence of rounds each ends with all its voters equal, and the expected revision goes up by one each time |
| SharedStateProof.Synchronize | ccoip/src/cpp/ccoip_master_handler.cpp:577-815 | a whole round through the keeper's methods and the fetching of all peers: all agree, and the records are clean for the next revision |
| SharedStateProof.WinnersAreCurrentIff | ccoip/src/cpp/ccoip_master_state.cpp:1116-1161 | every mask the election may pick is held by a peer at the expected revision if and only if the last voter of some content is such a peer, or every content with the most votes has one among its voters |
| SharedStateProof.DistributorIff | ccoip/src/cpp/ccoip_master_state.cpp:1116-1231 | every outcome of the election leaves somebody to distribute it under exactly the same condition |
| SharedStateProof.AgreementAnchors | ccoip/src/cpp/ccoip_master_state.cpp:1116-1134 | the condition holds if some content is voted for by peers at the expected revision only |
| SharedStateProof.NobodyDistributes | ccoip/src/cpp/ccoip_master_state.cpp:1116-1231 | concrete votes for which the elected mask has no distributor |
| Bandwidth.PopulatedIffNothingMissing | ccoip/src/cpp/bandwidth_store.cpp:65-158 | the store is fully populated if and only if no registered peer has a missing entry |
| Bandwidth.StoringMissingPopulates | ccoip/src/cpp/bandwidth_store.cpp:65-158 | storing a value for every missing entry populates it |
| Bandwidth.Store.RegisterPeer | ccoip/src/cpp/bandwidth_store.cpp:11-14 | a peer is added unless known |
| Bandwidth.Store.StoreBandwidth | ccoip/src/cpp/bandwidth_store.cpp:16-29 | an entry is stored for two registered peers, and no row or column names an address without a peer |
| Bandwidth.Store.GetBandwidth | ccoip/src/cpp/bandwidth_store.cpp:31-51 | the entry stored between the addresses of two peers |
| Bandwidth.Store.MissingEntries | ccoip/src/cpp/bandwidth_store.cpp:65-113 | exactly the entries the peer lacks, towards and from every other address of its group, each asked of some peer there |
| Bandwidth.Store.IsFullyPopulated | ccoip/src/cpp/bandwidth_store.cpp:115-158 | the loops decide population |
| Bandwidth.Store.UnregisterPeer | ccoip/src/cpp/bandwidth_store.cpp:162-181 | the last peer of an address takes its row and column along; entries of other addresses stay |
| Retry.Drain | src/pccl.cpp:465-484 | after a failure the other live operations are awaited, and those that succeeded are completed |
| Retry.Pass | src/pccl.cpp:411-498 | one pass over the operations: the counter of operations in flight is the live ones plus the failed rounds, and never above the limit |
| Retry.AllReduceMultipleWithRetry | src/pccl.cpp:358-527 | it always terminates; it refuses exactly the invalid arguments, fails with a launch error only if the last launch failed and the world is of two or more, and reports too few peers if and only if the world begins below two or the size read after the last await outside a drain is one; on success the completed operations and failed rounds are those of the tally over how the awaits end, all completed if and only if fewer rounds failed than may be in flight |
| Retry.CompleteIffRoundsLeft | src/pccl.cpp:411-498 | by the tally, every operation completes if and only if fewer rounds fail than operations may be in flight |
| Retry.FailuresBoundRounds | src/pccl.cpp:462-489 | with k failing awaits no more than k rounds fail |
| Retry.OneSlot | src/pccl.cpp:462-489 | with one slot everything completes exactly if none of the awaits fails |
| Retry.OneFailureIsTooMany | src/pccl.cpp:462-489 | a call with one operation, one slot and one failing await returns success, and the operation was never completed |
| Reassembly.Connection.OnClientRead | tinysockets/src/server_socket.cpp:437-488 | the loop does to the receiver what its specification does, whatever the data |
| Reassembly.ReadLength | tinysockets/src/server_socket.cpp:454-464 | eight big-endian bytes |
| Reassembly.BigEndianRoundTrip | tinysockets/include/tinysockets.hpp:127-145 | reading undoes writing of a length |
| Reassembly.DeliversExactlyUnlessPrefixCut | tinysockets/src/server_socket.cpp:437-488 | for every sequence of packets and every split of the stream: delivered exactly and in order, unless a read ends inside a length prefix, and then the connection is closed |
| Packets.RoundTrip | ccoip/src/cpp/ccoip_packets.cpp:98-127 | decoding undoes encoding for every layout, nested lists, strings and optional parts included, and leaves the rest of the input |
| Packets.PacketRoundTrip | ccoip/src/cpp/ccoip_packets.cpp:181-255 | the same for the layouts of all packets of the protocol |
| Packets.MessagesArrive | ccoip/src/cpp/ccoip_packets.cpp:340-369 | messages to the master, framed, split anywhere but in a prefix, reassembled and dispatched, arrive as sent |
| PacketLayout.WireDispatches | ccoip/src/cpp/ccoip_packets.cpp:17-175 | each of the eleven packets to the master, with any fields of their widths, is its id and its fields in the order written out; the dispatch reads from these bytes this packet and no other |
| PacketBuffer.BigEndianAt | ccoip/internal_include/ccoip_packet_buffer.hpp:203-214 | each byte of the big-endian form is the shifted value's low byte |
| PacketBuffer.WriteBuffer.WriteIntegral | ccoip/internal_include/ccoip_packet_buffer.hpp:203-214 | the shifting loop appends the big-endian form |
| PacketBuffer.WriteBuffer.WriteFixedArray | ccoip/internal_include/ccoip_packet_buffer.hpp:220-225 | the bytes are appended |
| PacketBuffer.WriteBuffer.WriteString | ccoip/src/cpp/ccoip_packet_buffer.cpp:54-70 | the length, then the bytes |
| PacketBuffer.ReadBuffer.ReadIntegral | ccoip/internal_include/ccoip_packet_buffer.hpp:36-63 | reads back a value, or refuses if the input is too short and then consumes nothing |
| PacketBuffer.ReadBuffer.ReadFixedArray | ccoip/internal_include/ccoip_packet_buffer.hpp:81-90 | reads back a byte array, or refuses exactly if the input is too short |
| PacketBuffer.ReadBuffer.ReadString | ccoip/src/cpp/ccoip_packet_buffer.cpp:10-18 | reads back a string, or refuses exactly if its length is missing or exceeds the input |
| Queues.PacketQueue.PollMatching | tinysockets/src/queued_client_socket.cpp:333-424 | takes the first matching packet and leaves all others in order; takes nothing if and only if none matches |
| Queues.PollsCommute | tinysockets/src/queued_client_socket.cpp:333-424 | operations that wait for different packets never take each other's, in whichever order they poll |
| Queues.TagQueue.Receive | tinysockets/src/multiplexed_socket.cpp:610-702 | yields the next frame of the operation that fits the buffer and drops everything before it; if there is none, everything |

## Left out

- Sockets, threads, park/unpark handles, timeouts, CUDA buffers and the hash kernels; a connection is a FIFO and a step is atomic.
- `allocator_free_list` and the pooled allocator; buffers are values or arrays.
- `performReduceFinalization` (division for averages), the other reduction operators and data types: they would add members of the same kind as `ByteSum` and `QuantizedSum`.
- Floating-point rounding: `MinMax` and `QuantizedSum` compute with exact reals.
- The piquant and zero-point/scale quantizers; only min-max quantization has its error bound proved, the ring itself is proved for any codec that keeps the number of elements.
- Abort packets inside the ring: a ring run is modelled without aborts, and `Verdict` models an aborted run as a participant that fails; what the buffer holds after an abort is not claimed.
- The single-rank path of `pipelineRingReduce`; in a ring of one the client reduces nothing, and still waits for the abort packet and the end of the operation.
- AllReduce.AllReduceFinishes: with quantization it needs non-empty chunks, because the code cannot decode the metadata of an empty one, and with three or more ranks sizes as in `RingSpec.Safe`; see `Chunks.NonEmptyIff` and `InPlace.InPlaceIff`.
- InPlace.InPlaceIff: says when the bytes to be sent stay right whatever codec and operation are used; for one codec and one operation fewer jobs may fail, and that a wrong byte reaches a result is shown for one run (`WrongResult.ResultsDiffer`).
- Ring.OnData: a frame that does not fit is an error of the rank here, and dropped in the code (`Queues.TagQueue.Receive`); in the runs proved it does not occur.
- Verdict.VerdictAgreement: assumes that no group loses its last accepted peer while one of its operations is marked as aborted (`Orphans.OrphanStarves` shows why, `Orphans.StepOwned` when), and that participants send what the client code sends.
- SharedStateProof.RoundVerdicts: assumes a clean round, no departures, all strategies "enforce popular", equal key lists, and votes that meet the condition of `SharedStateProof.DistributorIff`; the expected hashes sent to requesters are not modelled.
- MasterSpec.Step: kicks that follow a failed election or a strategy conflict are not among the packets, since a kick only acts by the disconnect that follows; packets of unregistered senders only close their connection and are not shown.
- MasterState.Master.Handle: the six vote sets are one map from ballots to sets.
- MasterState.Master.CheckClosing: when both failures of the loop are possible it is not said which comes first; in the states of a run only one is.
- The tour solver behind the topology optimizer: it may return any tour of distinct peers of the ring it was given that the bandwidth store knew, and may call it optimal; whether it fails on a graph without edges, which the code takes for a bug, is not modelled.
- RingDelivery.AcceptPhaseDelivers: assumes that the optimizer does not touch the cache during the phase.
- Retry.AllReduceMultipleWithRetry: assumes that a peer counts itself in the world size; errors of attribute queries and the byte counts summed up in the info output are not modelled.
- Benchmarks of bandwidth, the C API around the handlers, the client's connection setup and the Python bindings.
