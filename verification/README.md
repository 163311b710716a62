# Hamband and Mu: a verified model

Hamband replicates objects over RDMA. Calls of an object that conflict are put
into one order by Mu, a consensus engine in which a leader writes straight into
the logs of the others with one-sided writes; calls that do not conflict are
broadcast. This project models both and proves what the program promises of
them. `dafny verify dfyconfig.toml` checks everything.

## What is modelled

**Mu** (`Quorums`, the `Mu*` files). One step of one thread, or one one-sided
memory access, is an event of a state machine; the theorems in `MuAgreement` are
about every state of every run, for any number of replicas. What is unusual
about Mu is modelled as it is: permissions take the place of acceptor checks,
leaders need the approval of all remotes in two steps, slots are read with one
quorum formula and written with another, the fast path writes without reading,
and followers commit up to an offset embedded in later entries. The proof
follows the order of leaderships. A leadership gets a token (requester, request
number) that each replica grants at most once. `MuHistory` defines what an old
write may still achieve (`May`), `MuSafety` shows that what a newer leadership
writes agrees with it, `MuLogs` that logs have no holes and are settled below
every populated slot, and the `*Steps` files that each kind of step keeps all
this. `MuCalls` has the loops inside a call of `propose` in the form of the
source, proved against the guards of the state machine; `MuValidity` says whose
value is decided. `MuProgress`, `MuCanDecide` and `MuCanLead` are the other side of
all this: when exactly each wait of a call is over, and that no run ever gets stuck,
since from every state of it any replica can become leader, finish a call and commit.
`MuTwoReplicas`, `MuTwoRuns` and `MuGroupRuns` build runs of two
replicas for the cases where something goes wrong.

Choices made where the code is looser than the protocol:

- The log is indexed by slot here; its bytes are in the Log files. The adopted or
  new value goes to the slot at the leader's first undecided offset, as
  consensus.cpp:395-396 says, although the adoption branch (450-492) does not
  refresh `free_bytes`.
- The guarded leader branch (consensus.cpp:277-581) is modelled, not the shortcut
  at 235-275, which leaves out its first two checks.
- A read or write of a leadership succeeds at a replica only while that replica
  holds its token, and a grant replaces the one holder. The bail-out at
  leader-switch.hpp:630-633, which changes the remembered leader without
  revoking, is therefore not a step here.
- The leader's own log is one more guarded replica: the check that it still leads
  and the local append are one step.
- No write is outstanding when the next is posted (`outstanding_req` is 0, the
  default of consensus.hpp:43). Pipelining is the subject of `QuorumCounting`.
- Where the source waits for acknowledgements of the lagging followers, the model
  needs only that copies have arrived at a write quorum, which allows more runs.
- The first wait of the slow path is for everybody's offset, as the waiter at
  slow-path.hpp:67-70 is made, though the comment at 154-155 speaks of tolerating
  a minority.
- Which of several freshest entries is adopted is left open.
- Heartbeats are an event that may happen at any time.
- A leadership begins on the slow path. In the source the flags `fast_path` and
  `became_leader` see to that, but only if a call of `propose` was rejected or
  failed since the last one that succeeded on the fast path (583-585,
  consensus.hpp:88). `MuLeftover` has the protocol with the flags as they are.

**Recycling** (`MuRecycling`, `MuWiped`, `MuRequests`, `MuRounds`, `MuRound*`,
`MuGenerations`, `MuOnce`; `Recycling` has the request and reply bookkeeping as a class).
The protocol with log recycling: a leader that finds its slot empty may put a
request there that carries its offset; whoever samples it commits up to that
offset, starts the log over and replies; the leader starts over once a quorum has
the request, and goes on when all have replied. Leaderships, permissions, proposal
numbers and the minimal proposal go on from one generation of the log to the next.
Assumed of the runs: between a request and its last reply no permission changes
hands and the leader's write does not fail, and no second leader asks. That the
leader's log is zeroed at once and not only after the wait makes no difference
here: nobody else has access to it meanwhile. `MuOnce` says what is handed on at
most once, `MuLostCommit` has whole rounds of two replicas, and `MuSwitch` one in
which permission does change hands. `MuRoundEnds` says when a round can end: exactly if
everybody lets the leader in.

**Completions** (`QuorumWaiter`, `QuorumCounting`, `SlotReader`, `MessageIds`,
`CompletionRouting`, `RoutingRuns`). The scoreboard as a class with its two loops, and what its
`next_id` means for completions that interleave arbitrarily; the bookkeeping of
slot reads; the packing of work request ids; the routing of completions between
the contexts that share a completion queue.

**Queue** (`Queue*`). The single-producer single-consumer queue of queues: every
load or store of a shared variable is a step, the two threads interleave freely,
and memory is sequentially consistent. An enqueue takes effect when `tail` or
`tailBlock` is stored, a dequeue when `front` is. No call takes more than a fixed
number of steps, and a queue made large enough never allocates again.

**Log** (`LogFormat`, `LogBuffer`, `LogIterators`). Bytes in an array: entries
written in place, length in front and canary behind, iterators, `rebuildLog`,
and the follower's loop over them. `SlotsAndBytes` joins this view of the log with
that of the protocol: the loop over bytes does what the protocol's follower does.

**Memory** (`MemoryLayout`). The overlay allocator and the two-pass scratchpad.

**Replicated objects** (`TagStore`, `TagText`, `TagObjects`, `Tag*`: OR-set and
shop; `Courseware*`; `Bank*`: SmallBank, of which BankAccount is the case of one
account; `Lww*`: register and key-value store). Each object is a class whose
methods are proved against a function on values. The `*Runs` modules have whole
systems of replicas: conflicting calls in one common order, checked only where
they are issued, other calls delivered in any order, declared dependencies
first: what holds in every run, and that every run can go on until all agree, and a
call made then takes effect everywhere. `TagCalls` and `LwwCalls` join the two: the
objects take the steps of the runs, the text that travels included.

## What the proofs found

- Agreement needs `became_leader`. A replica that loses the lead and regains it
  with no call of `propose` in between keeps its old fast path, and writes over
  slots another leader got decided: `MuLeftover.DisagreesWithoutReset` is such a
  run, `AgreementIfReset` the safe case.
- Recycling can lose a commit at the leader. A leader that adopts a slot which its
  own follower thread had looked at before decides it without sampling anything,
  and has not committed it; if its next write is a recycling request, it starts
  its log over without ever committing that slot
  (`MuLostCommit.LeaderLosesACommit`). `LeaderLosesNothingIff` and
  `LagsIffLookedInVain` say exactly when; followers never lose anything.
- Recycling does not survive a leadership switch between a request and its last
  reply: a replica that has started over and becomes leader adopts from the old log
  of one that has not. What was proposed once is committed twice, and two replicas
  commit different values at the same position (`MuSwitch.SwitchBreaks`). Without
  such a switch neither happens (`MuOnce.HandedOnce`, `MuGenerations.HandedComparable`).
- A call of `propose` may succeed with another caller's value (`MuOthersValue`).
  `MuValidity.CallersValueIff` says by which branch it has to write for its own.
- `SerialQuorumWaiter::reset` leaves `left` as it is. `ResetIsRight` says when the
  countdown form is right afterwards: exactly if no acknowledgement of the
  abandoned round had counted.
- Deposits are never refused, negative ones included, nor are negative withdrawals.
  `BankRuns.SafePlanIff` says exactly what callers may plan so that no run overdraws
  an account: no negative deposit, and all the money that deposits and negative
  withdrawals bring in fitting an int.
- The register's clock moves even when a write is refused. After 2^32 - 2^24 refused
  calls it starts over, and versions repeat (`LwwRuns.VersionRepeats`); with fewer
  they never do (`SafeLimitIff`).
- The space check of `Entry::store_buf` ignores the nine bytes of the frame.
  `LogBuffer.InsideIffFrameFits` says when an entry stays inside its space, and
  `CanaryOutside` that every piece accepted too late does not. `fast_store` has no
  check: its contract asks for the space.

## Model

| member | source | states |
|---|---|---|
| Quorums.Overlap | infiniband/log/src/log-slot-reader.hpp:27 | Two sets of replicas with more members together than there are replicas share one |
| Quorums.ReadMeetsWrite | infiniband/crash-consensus/src/strict-majority.hpp:6-12 | Slot reads (the leader and majority − 1 remotes) and writes (the leader and remoteStrictMajority remotes) meet for every number of replicas |
| Quorums.QuorumsAreTight | infiniband/crash-consensus/src/strict-majority.hpp:6-12 | The formulas leave nothing to spare: with one reader or one writer fewer, disjoint quorums exist for every number of replicas |
| Quorums.FailuresTolerated | infiniband/log/src/log-slot-reader.hpp:26-32 | The failures that writes and slot reads tolerate leave each its quorum of remotes |
| Quorums.EnoughIff | infiniband/crash-consensus/src/strict-majority.hpp:6-16 | An operation has its quorum of remotes if and only if no more are missing than it can do without; for slot reads that is one more than the failures they are given to tolerate when the number of replicas is even |
| Quorums.MinorityIsTolerated | infiniband/crash-consensus/src/strict-majority.hpp:6-16 | Both formulas for a minority give all the failures a strict majority survives |
| MuAgreement.InitInv | infiniband/crash-consensus/src/consensus.cpp:277-286 | The invariant of the protocol holds in every initial state of every deployment |
| MuAgreement.StepKeepsInv | infiniband/crash-consensus/src/consensus.cpp:277-581 | Every step of every thread and every one-sided access keeps the invariant |
| MuAgreement.Agreement | infiniband/crash-consensus/src/consensus.cpp:277-581 | At no two moments of any run are two different values chosen for one slot, across any leaders, retries and permission switches; a leadership of these runs begins on the slow path |
| MuAgreement.CommitsComparable | infiniband/crash-consensus/src/follower.hpp:125-184 | Within one generation of the log, the sequences handed to commit by any two replicas at any two moments of a run are prefix-comparable |
| MuAgreement.CommittedIsChosen | infiniband/crash-consensus/src/follower.hpp:161-184 | What a replica commits at position k is the value chosen for slot k |
| MuAgreement.BelowPopulated | infiniband/crash-consensus/src/follower.hpp:125-184 | Below the first undecided offset embedded in any entry of a replica, its own log has no hole and holds exactly the chosen values |
| MuAgreement.BelowHeader | infiniband/crash-consensus/src/slow-path.hpp:142-200 | The same below the first undecided offset of the header, which the leader copies from when it updates followers |
| MuAgreement.FastPathSafe | infiniband/crash-consensus/src/consensus.cpp:288-327 | A value written on the fast path, with no slot read, agrees with every value an earlier leadership gets chosen for that slot, before or after |
| MuAgreement.NothingMissing | infiniband/crash-consensus/src/slow-path.hpp:177-200 | What a leader still has to copy to a follower, and what a replica still has to commit, is in its log |
| MuAgreement.ProposalsPositive | infiniband/crash-consensus/src/consensus.cpp:400-437 | Every entry in any log carries a positive proposal |
| MuAgreement.RunGrows | infiniband/crash-consensus/src/follower.hpp:161-184 | Along a run posted writes, acknowledgements and commits only grow |
| MuProgress.AckedIff | infiniband/crash-consensus/src/consensus.cpp:194-216 | The waits for acknowledgements of a value and of an announced proposal are over if and only if no more remotes are behind than a strict majority can do without |
| MuProgress.CopiedIff | infiniband/crash-consensus/src/slow-path.hpp:179-205 | The wait of the update is over if and only if every copy has been posted and no more remotes lack theirs than that |
| MuProgress.OffsetsIff | infiniband/crash-consensus/src/slow-path.hpp:67-70 | The first wait of the slow path, for the offsets, is over if and only if nobody is missing |
| MuProgress.ReadIff | infiniband/crash-consensus/src/consensus.cpp:400-437 | The waits for proposals and for the slot are over if and only if no more remotes are missing than each can do without |
| MuCanDecide.CallCanFinish | infiniband/crash-consensus/src/consensus.cpp:277-581 | In every state, as long as the leader and so many others as a quorum needs grant it access, a call of propose that is running, or may begin, can go on to decide its slot, by its own steps and deliveries to those replicas only |
| MuCanLead.CanLead | infiniband/crash-consensus/src/leader-switch.hpp:387-505 | From every state of every run there is a way on that makes any given replica leader with everybody's permission, whatever leaderships, failed calls and half-delivered writes came before |
| MuCanLead.CanDecide | infiniband/crash-consensus/src/consensus.cpp:277-581 | From every state of every run there is a way on in which any given replica becomes leader and a call of propose there decides its slot |
| MuCanLead.CanCommit | infiniband/crash-consensus/src/follower.hpp:112-184 | From every state of every run a replica that neither leads nor has a call running can go on by itself to commit everything below the offset in any entry that its log has without a gap |
| MuLeftover.AgreementIfReset | infiniband/crash-consensus/src/consensus.cpp:277-288 | With the flags fast_path and became_leader in the model: if a propose call was rejected or failed since the last success on the fast path whenever a replica begins to lead, agreement holds |
| MuLeftover.DisagreesWithoutReset | infiniband/crash-consensus/src/consensus.cpp:288-327 | Without that it does not: a run of two replicas in which one leads again with its flags as they were, writes on the fast path over a decided slot, and two values are chosen for it |
| MuValidity.ChosenWasProposed | infiniband/crash-consensus/src/consensus.cpp:400-561 | Whatever is chosen for a slot was handed to propose by a caller |
| MuValidity.CallersValueIff | infiniband/crash-consensus/src/consensus.cpp:399-561 | A successful call has decided its caller's value if and only if, when it wrote, it was on the fast path or had found its slot empty locally and wherever it read it, or it adopted an entry that carries the caller's value |
| MuOthersValue.DecidesAnothers | infiniband/crash-consensus/src/consensus.cpp:450-492 | A run of two replicas in which a call succeeds and its slot is decided with another caller's value, and not with its own |
| MuElection.StartGranted | infiniband/crash-consensus/src/leader-switch.hpp:387-505 | A leadership starts only when every replica has granted exactly its request |
| MuElection.TokensDiffer | infiniband/crash-consensus/src/leader-switch.hpp:483-505 | Two leaderships never have the same requester and request number |
| MuElection.OrderedKept | infiniband/crash-consensus/src/leader-switch.hpp:597-800 | Once a later leadership has touched a replica, no earlier one holds permission there again |
| MuHistory.LateWritesFail | infiniband/crash-consensus/src/leader-switch.hpp:597-800 | A write of a leadership that lost its permission at enough replicas can no longer reach a majority |
| MuSafety.ProposalsOrdered | infiniband/crash-consensus/src/slow-path.hpp:117-140 | The proposals an earlier leadership announced to a write quorum are not above those of a later one |
| MuSafety.NumbersDiffer | infiniband/crash-consensus/src/slow-path.hpp:138-139 | Proposal numbers of different replicas differ: they start at distinct ids and step by the largest |
| MuSafety.ReadIsOk | infiniband/crash-consensus/src/consensus.cpp:403-437 | A slot read under permission shows everything an older leadership may still get chosen there |
| MuSafety.AdoptedSafe | infiniband/crash-consensus/src/consensus.cpp:400-472 | The freshest value among a read quorum is safe to write: it agrees with whatever may be or become chosen |
| MuSafety.OwnValueSafe | infiniband/crash-consensus/src/consensus.cpp:494-561 | If a read quorum has nothing in the slot, the leader's own value is safe to write |
| MuSafety.ChosenAgrees | infiniband/crash-consensus/src/consensus.cpp:277-581 | Within a state satisfying the invariant, two chosen values of a slot are equal |
| MuCalls.CatchUpWithFollowers.CatchProposal | infiniband/crash-consensus/src/slow-path.hpp:117-140 | One round succeeds exactly if no proposal read, nor the own header, exceeds the own number; otherwise the number steps once |
| MuCalls.CatchUpWithFollowers.CatchProposalLoop | infiniband/crash-consensus/src/consensus.cpp:350-367 | The retry loop, which reads the headers again in each round, ends in the first round in which nothing read exceeds the number, and the number has stepped once for each round before |
| MuCalls.CatchUpWithFollowers.CatchProposalRound | infiniband/crash-consensus/src/slow-path.hpp:117-140 | On what a leadership has read, a round succeeds only where the protocol may announce the proposal and may not retry; otherwise it takes the protocol's retry step, number included |
| MuCalls.RetriesEnd | infiniband/crash-consensus/src/consensus.cpp:350-367 | As long as what is read stays below a bound, the number passes it after that many retries |
| MuCalls.CatchUpWithFollowers.CatchFuo | infiniband/crash-consensus/src/slow-path.hpp:142-177 | Of the processes that answered, it lists exactly those whose offset is below the leader's, in the order they answered; adding what it notes for each brings everybody to the leader's offset or the later one it had; and the listed ones that must be waited for make up a quorum with the others |
| MuCalls.FindFreshest | infiniband/crash-consensus/src/consensus.cpp:399-437 | The search finds nothing exactly when nothing was read, and otherwise an entry of greatest accepted proposal, as the protocol step demands |
| MuPositions.StepKeepsPositions | infiniband/crash-consensus/src/follower.hpp:112-184 | The two iterators, the header's offset and the commit target of every replica keep in step, but for a leader that is one slot behind |
| MuPositions.DecidedPosition | infiniband/crash-consensus/src/consensus.cpp:473-491 | A decision leaves the leader a slot behind exactly if its iterator finds nothing to sample |
| MuWiped.StepMirrors | infiniband/crash-consensus/src/follower.hpp:186-196 | While some replicas have started their logs over and others have not, every step is one of the protocol in which nobody has |
| MuRequests.UnaskedKept | infiniband/crash-consensus/src/consensus.cpp:499-513 | A recycling request is only ever its leader's last write; whoever holds it has received all that leader's writes and still grants it access; nobody copies or adopts it |
| MuRounds.BeginsInv | infiniband/crash-consensus/src/consensus.cpp:519-538 | The invariant of the protocol holds at the start of any generation: logs empty, while leaderships, permissions, proposal numbers and the minimal proposal are whatever they have become |
| MuRoundActions.ActionKeepsGroup | infiniband/crash-consensus/src/consensus.cpp:499-539 | Steps of the protocol, posting a request, starting over, replying and the end of the wait all keep the invariant of protocol and recycling |
| MuRoundActions.GenerationBegins | infiniband/crash-consensus/src/log-recycling.hpp:41-73 | What the end of the wait leaves is such a start |
| MuGenerations.AgreementInGeneration | infiniband/crash-consensus/src/consensus.cpp:277-581 | In every generation of the log, at any two moments of it, no two different values are chosen for one slot |
| MuGenerations.FollowerLosesNothing | infiniband/crash-consensus/src/follower.hpp:145-198 | A follower that starts over has committed exactly the slots below the offset of the request, each with the value chosen for it |
| MuGenerations.AllHaveRestarted | infiniband/crash-consensus/src/log-recycling.hpp:41-73 | When the leader stops waiting, every replica has started its log over |
| MuGenerations.AnswersStand | infiniband/crash-consensus/src/log-recycling.hpp:41-73 | An answer the waiting loop has seen is still there when the wait ends |
| MuGenerations.LeaderLosesNothingIff | infiniband/crash-consensus/src/consensus.cpp:513-524 | The leader's own restart loses nothing if and only if its iterators were in step when it asked; otherwise it loses exactly the last slot below the request |
| MuGenerations.LagsIffLookedInVain | infiniband/crash-consensus/src/consensus.cpp:473-491 | They are out of step exactly if its last decision found nothing to sample and it has not sampled, decided or started over since |
| MuLostCommit.LeaderLosesACommit | infiniband/crash-consensus/src/consensus.cpp:499-539 | A run of two replicas, without any leadership switch in the round, in which the leader starts over without having committed slot 0 |
| MuLostCommit.SecondGeneration | infiniband/crash-consensus/src/consensus.cpp:499-539 | A run of two replicas in which a round of recycling ends and a value is decided and committed in the second generation |
| MuOnce.HandedOnce | infiniband/crash-consensus/src/follower.hpp:145-198 | Over any number of generations, what callers propose at most once no replica ever hands to commit more than once |
| MuSwitch.SwitchBreaks | infiniband/crash-consensus/src/consensus.cpp:499-539 | A run of two replicas that differs from those of MuOnce.HandedOnce and MuGenerations.HandedComparable only in that permission changes hands in a round: callers propose two values, each once; one replica hands the first to commit twice, and the sequences handed over by the two are not prefix-comparable |
| MuGenerations.LeftoversHaveNoAccess | infiniband/crash-consensus/src/log-recycling.hpp:41-73 | At the end of the wait no write of any leadership is under way to a replica that would let it in |
| MuGenerations.AccessNotRegained | infiniband/crash-consensus/src/leader-switch.hpp:597-800 | A leadership that has lost its permission at a replica never has it again, in whatever generation |
| MuGenerations.HandedComparable | infiniband/crash-consensus/src/follower.hpp:145-198 | Over any number of generations, what any two replicas have handed to commit at any two moments is prefix-comparable, if no leader was out of step when it asked |
| MuRoundEnds.RoundCanEnd | infiniband/crash-consensus/src/log-recycling.hpp:41-73 | From every state of every run in which a request is under way and everybody lets its leader in, there is a way on by which everybody starts over and replies and the generation ends with what was decided in it |
| MuRoundEnds.RoundCanEndIff | infiniband/crash-consensus/src/log-recycling.hpp:41-73 | An undisturbed round can end if and only if everybody lets the leader in |
| Recycling.LogRecycling.GenerateRequest | infiniband/crash-consensus/src/log-recycling.hpp:35-39 | A request carries the replica, its current number and the offset, and the number steps |
| Recycling.LogRecycling.WaitForReplies | infiniband/crash-consensus/src/log-recycling.hpp:41-73 | The swap-removing loop reports success only if every remote was seen to answer the last request, and does so within as many looks as there are remotes once all of them answer |
| QuorumWaiter.SerialQuorumWaiter.constructor | infiniband/crash-consensus/src/quorum-waiter.cpp:14-34 | All scores start one step before the first id |
| QuorumWaiter.SerialQuorumWaiter.Reset | infiniband/crash-consensus/src/quorum-waiter.cpp:36-47 | Scores and next id start over; left stays |
| QuorumWaiter.SerialQuorumWaiter.FastConsume | infiniband/crash-consensus/src/quorum-waiter.cpp:96-142 | The loop leaves the board of the completions before the first failed one, and fails exactly if there is one; what it returns is what the next id lacks, if any of them was of its kind, and else what was expected |
| QuorumWaiter.SerialQuorumWaiter.Consume | infiniband/crash-consensus/src/quorum-waiter.cpp:49-94 | The countdown loop over the completions that did not fail, with those whose acknowledgement counted |
| QuorumWaiter.SerialQuorumWaiter.CatchUp | infiniband/crash-consensus/src/quorum-waiter.cpp:127-137 | It steps over every id a quorum has, and left is what the next one lacks |
| QuorumWaiter.AtLeastCounts | infiniband/crash-consensus/src/quorum-waiter.cpp:127-137 | What the loop counts is the number of processes whose score is at least the id |
| QuorumWaiter.SucceededMore | infiniband/crash-consensus/src/quorum-waiter.cpp:49-60 | The completions that did not fail are kept in order, each once |
| QuorumCounting.NextIsStatistic | infiniband/crash-consensus/src/quorum-waiter.cpp:96-142 | With each process's completions in order, every id before next_id is acknowledged by a quorum and no other is |
| QuorumCounting.ScoreCountsAcks | infiniband/crash-consensus/src/quorum-waiter.cpp:124-125 | A process's score is its start plus its number of acknowledgements |
| QuorumCounting.InterleavingIsIrrelevant | infiniband/crash-consensus/src/quorum-waiter.cpp:96-142 | Two interleavings of the same completions leave the same board |
| QuorumCounting.CountdownAgrees | infiniband/crash-consensus/src/quorum-waiter.cpp:49-94 | When rounds do not overlap, consume and fastConsume agree and left is what the quorum lacks |
| QuorumCounting.SuccessesAcked | infiniband/crash-consensus/src/quorum-waiter.cpp:49-94 | The countdown form names, in order, just the processes whose acknowledgement was in turn |
| QuorumCounting.OutOfTurn | infiniband/crash-consensus/src/quorum-waiter.cpp:62-94 | A completion out of turn changes nothing |
| QuorumCounting.ResetIsRight | infiniband/crash-consensus/src/quorum-waiter.cpp:36-47 | After reset the countdown form is right for whatever a quorum or more of remotes may send if and only if left was the full quorum |
| QuorumCounting.FastWrite | infiniband/crash-consensus/src/fixed-size-majority.hpp:171-219 | It succeeds if and only if some number of polls, none of them failed, brings next_id within `outstanding` of the id issued, and takes no more polls than that; it fails only on a failed poll or completion; it still waits only when every poll was taken entirely |
| QuorumCounting.OnlyOutstandingAtRisk | infiniband/crash-consensus/src/fixed-size-majority.hpp:162-212 | Then every older request is held by a quorum |
| SlotReader.LengthPredictor.Adjust | infiniband/log/src/log-helpers.hpp:19-31 | The ring holds the last four lengths, and sum is theirs |
| SlotReader.LengthPredictor.Predict | infiniband/log/src/log-helpers.hpp:12-17 | The prediction exceeds the average of the last four |
| SlotReader.PredictAfterFour | infiniband/log/src/log-helpers.hpp:5-38 | After four observations of one length the prediction covers it |
| SlotReader.ToBePolled.ActuallyPolled | infiniband/log/src/remote-log-reader.hpp:72-118 | Posted, polled and completed still partition the processes that have not failed; of those being polled, positive are exactly those whose first completion answers this very request, negative those whose first completion failed, and those without a completion are still being polled |
| SlotReader.ToBePolled.MoveToCompleted | infiniband/log/src/remote-log-reader.hpp:120-131 | It moves a process, or throws exactly if that is being polled or not ready |
| SlotReader.ToBePolled.Posted | infiniband/log/src/remote-log-reader.hpp:65-68 | Everybody to be asked is now being polled |
| SlotReader.ToBePolled.RescheduleCompleted | infiniband/log/src/remote-log-reader.hpp:133-136 | Everybody completed is to be asked again |
| SlotReader.UsableIff | infiniband/log/src/log-slot-reader.hpp:119-134 | On memory that holds a record or was zeroed, an answer is taken if and only if it shows nothing, or the entire record |
| SlotReader.LogSlotReader.TakeAnswers | infiniband/log/src/log-slot-reader.hpp:119-134 | The exceptions of moveToCompleted cannot happen; completed afterwards are, besides those before, exactly the positive processes whose answer shows nothing or an entire entry; successes are distinct and borne out by the data read |
| SlotReader.LogSlotReader.RecoverFromError | infiniband/log/src/log-slot-reader.hpp:41-71 | After recovery all remotes are to be asked again |
| SlotReader.LogSlotReader.ReadSlotAt | infiniband/log/src/log-slot-reader.hpp:73-169 | The successes are exactly the live processes whose answer to this request showed, in some round taken, nothing or an entire entry; the read succeeds if and only if they are a quorum and the processes that failed are not too many; it still waits only when all rounds are taken and neither holds; it gives up only when too many have failed or polling failed |
| QueueCapacity.ReserveBlocks | infiniband/crash-consensus/src/readerwriterqueue.h:109-127 | The constructor's loop closes the new blocks into a ring |
| QueueCapacity.Construct | infiniband/crash-consensus/src/readerwriterqueue.h:91-148 | A new queue is initial and has room for the requested size, in no larger a block or no more blocks than that takes |
| QueueCapacity.BlockCount | infiniband/crash-consensus/src/readerwriterqueue.h:105-110 | The block count formula leaves room for `size` elements with one block to spare, and is the least that does |
| QueueCapacity.RoomyKept | infiniband/crash-consensus/src/readerwriterqueue.h:522-623 | No step of either thread gives that room up |
| QueueCapacity.RefusesOnlyWhenFull | infiniband/crash-consensus/src/readerwriterqueue.h:539-623 | An enqueue gives up, or allocates, only if the queue holds, or held when its one block was found full, at least `size` elements |
| QueueSteps.ProducerStepKeepsInv | infiniband/crash-consensus/src/readerwriterqueue.h:522-631 | Every load or store of the producer keeps the invariant of the ring |
| QueueSteps.ConsumerStepKeepsInv | infiniband/crash-consensus/src/readerwriterqueue.h:272-363 | Every load or store of the consumer keeps it, and the pointers it follows lead somewhere |
| QueueSteps.PopTakesFirst | infiniband/crash-consensus/src/readerwriterqueue.h:304-314 | Taking an element out removes the oldest one |
| QueueRuns.Fifo | infiniband/crash-consensus/src/readerwriterqueue.h:272-363 | In every interleaving, what was dequeued is a prefix of what was enqueued and the queue holds exactly the rest |
| QueueRuns.NeverStuck | infiniband/crash-consensus/src/readerwriterqueue.h:522-631 | Neither assertion on blocks ever fails, a thread inside a call can always take its next step, and one outside can always call |
| QueueRuns.EnqueueIsWaitFree | infiniband/crash-consensus/src/readerwriterqueue.h:23-25 | In every run, whatever the other thread does, a call of enqueue ends within 7 steps of its own |
| QueueRuns.DequeueIsWaitFree | infiniband/crash-consensus/src/readerwriterqueue.h:23-25 | and a call of dequeue within 9 |
| QueueRuns.AllocatesOnce | infiniband/crash-consensus/src/readerwriterqueue.h:26-27 | A queue made for n elements that never holds n of them never allocates again, in any run |
| QueueRuns.EmptyAnswerIsTrue | infiniband/crash-consensus/src/readerwriterqueue.h:294-358 | try_dequeue returns false only if the queue was empty at some moment of the call |
| QueueRuns.RefusalIsTrue | infiniband/crash-consensus/src/readerwriterqueue.h:539-623 | try_enqueue returns false only if the queue held at least the requested size at some moment of the call |
| QueueRuns.TakesEffectOnce | infiniband/crash-consensus/src/readerwriterqueue.h:522-631 | A call changes the queue at one step, its last: an enqueue appends its item, a dequeue removes the first; refused calls change nothing |
| LogFormat.RecordRoundTrip | infiniband/log/src/log.hpp:18-78 | What Entry writes is what ParsedSlot reads: proposal, offset, payload, total length |
| LogFormat.TornRecord | infiniband/log/src/log.hpp:41-53 | A proper prefix of a record over zeros is unpopulated for isPopulated and for the iterators, even with a half-written length |
| LogFormat.RoundUpDrops | infiniband/log/src/log-config.hpp:15-17 | round_up_powerof2 adds the alignment less one and drops the remainder |
| LogFormat.OffsetAligned | infiniband/log/src/log.cpp:103-106 | Every record starts at a multiple of 64 |
| LogFormat.RecordLies | infiniband/log/src/log.cpp:97-106 | In a row of records each lies at its offset |
| LogBuffer.Entry.StoreBuf | infiniband/log/src/log.hpp:256-264 | Bytes are appended, or the entry has no room and nothing changes |
| LogBuffer.Entry.StoreUint64 | infiniband/log/src/log.hpp:246-254 | The same for a word |
| LogBuffer.Entry.FastStore | infiniband/log/src/log.hpp:230-244 | Two words and a payload are appended |
| LogBuffer.Entry.Finalize | infiniband/log/src/log.hpp:266-274 | Length in front, canary behind |
| LogBuffer.InsideIffFrameFits | infiniband/log/src/log.hpp:256-274 | An entry stays inside its space, whatever the memory held before, if and only if there is room for its nine bytes of frame as well |
| LogBuffer.CanaryOutside | infiniband/log/src/log.hpp:256-274 | Every piece of bytes that store_buf accepts with fewer than nine bytes to spare has its canary written behind the space of the entry |
| LogBuffer.Log.constructor | infiniband/log/src/log.cpp:50-95 | A log over zeroed memory is empty, with its first offset behind the header |
| LogBuffer.Log.FinalizeEntry | infiniband/log/src/log.cpp:103-106 | Free space shrinks by the entry, rounded up |
| LogBuffer.Log.Bzero | infiniband/log/src/log.hpp:471-473 | The log holds no record; the header stays |
| LogBuffer.Log.ResetFuo | infiniband/log/src/log.hpp:469 | The first undecided offset is the initial one again |
| LogBuffer.Log.RebuildLog | infiniband/log/src/log.hpp:445-461 | From the start of any record it finds the end of what memory holds, even behind a torn record |
| LogBuffer.Slot.StoreAcceptedProposal | infiniband/log/src/log.hpp:540-543 | Succeeds exactly in its turn |
| LogBuffer.Slot.StoreFirstUndecidedOffset | infiniband/log/src/log.hpp:545-548 | Succeeds exactly in its turn |
| LogBuffer.Slot.StorePayload | infiniband/log/src/log.hpp:550-554 | Succeeds exactly in its turn, and the log then holds one record more |
| LogBuffer.WriteSlot | infiniband/log/src/log.hpp:532-538 | A whole slot appends its record, aligned, at the place it returns; the next slot starts at that place plus size, rounded up |
| LogBuffer.NextFuo | infiniband/crash-consensus/src/consensus.cpp:301 | The first undecided offset the leader stores is where the next slot starts |
| LogIterators.BlockingIterator.SampleNext | infiniband/log/src/log-iterators.cpp:79-98 | It moves to the next record exactly if there is one |
| LogIterators.LiveIterator.HasNext | infiniband/log/src/log-iterators.cpp:107-112 | It steps over the current record and compares with the limit |
| LogIterators.LiveIterator.Next | infiniband/log/src/log-iterators.cpp:114-133 | It stands on the next record |
| LogIterators.LogIsWritten | infiniband/log/src/log.hpp:220-285 | A log with nine bytes to spare can be walked to its end |
| LogIterators.TornLogIsWritten | infiniband/log/src/log-iterators.cpp:79-98 | So can one whose last record arrived in part: the walk stops before it |
| LogIterators.CommitUpTo | infiniband/crash-consensus/src/follower.hpp:161-184 | The commit loop hands out exactly the payloads up to the given offset |
| LogIterators.Follow | infiniband/crash-consensus/src/follower.hpp:112-184 | Over all its rounds a follower commits exactly the payloads up to the furthest offset embedded in what it has seen |
| SlotsAndBytes.RoundRefines | infiniband/crash-consensus/src/follower.hpp:128-184 | A round of the loop over bytes is one Sample step of the protocol and the CommitOne steps it makes possible |
| SlotsAndBytes.FollowRefines | infiniband/crash-consensus/src/follower.hpp:112-184 | The protocol's follower commits exactly the payloads the loop over bytes hands out |
| SlotsAndBytes.LeaderOffsets | infiniband/crash-consensus/src/consensus.cpp:293-302 | A slot written at the leader's first undecided offset starts at that slot's byte, and the offset stored next is the next slot's |
| MessageIds.PackRoundTrip | infiniband/shared/src/message-identifier.hpp:78-101 | Kind, process and sequence number come back from the packed word |
| MessageIds.PackNeedsRange | infiniband/shared/src/message-identifier.hpp:78-101 | They come back if and only if they fit in 4, 12 and 48 bits |
| MessageIds.UnpackRoundTrip | infiniband/shared/src/message-identifier.hpp:83-101 | Every word is what its parts pack to |
| MessageIds.Shifts | infiniband/shared/src/message-identifier.hpp:63-76 | The constants the field widths come from |
| MessageIds.PackIsSum | infiniband/shared/src/message-identifier.hpp:78-81 | The fields lie side by side: sequence number lowest, then process, then kind |
| CompletionRouting.ContextedPoller.RegisterContext | infiniband/crash-consensus/src/contexted-poller.cpp:73-81 | Fails exactly for a kind registered before |
| CompletionRouting.ContextedPoller.EndRegistrations | infiniband/crash-consensus/src/contexted-poller.cpp:83-109 | There is an empty queue from every context to every other |
| CompletionRouting.ContextedPoller.TakeQueued | infiniband/crash-consensus/src/contexted-poller.cpp:21-35 | Queued completions are taken queue by queue, in order, until the entries are full |
| CompletionRouting.ContextedPoller.Distribute | infiniband/crash-consensus/src/contexted-poller.cpp:40-61 | The compaction in place keeps exactly our own completions, in order, and queues each other one for its kind |
| CompletionRouting.ContextedPoller.Poll | infiniband/crash-consensus/src/contexted-poller.cpp:15-67 | A call returns what was queued for it followed by its own among what was polled, and nothing is lost; it polls for as many as there is room for and hardware has, after emptying the queues; it fails only for a kind that is not registered or a queue that is full |
| RoutingRuns.EverythingArrives | infiniband/crash-consensus/src/contexted-poller.cpp:15-67 | Over any number of calls by any contexts: what a context got out of the queue from another, followed by what still waits there, is in order what that one polled of its kind; and all it has been given, with all that waits for it, is what anybody polled of its kind, itself included, each once |
| RoutingRuns.PackedIsRouted | infiniband/crash-consensus/src/contexted-poller.cpp:40-61 | A completion is routed by the kind its request was packed with |
| MemoryLayout.OverlayAllocator.Allocate | infiniband/mem/src/memory.cpp:12-28 | An allocation is aligned, in bounds and apart from all others; it fails exactly if the rest is too small |
| MemoryLayout.OverlayAllocator.AllocateRemaining | infiniband/mem/src/memory.cpp:30-37 | It reaches from the next aligned address to the end |
| MemoryLayout.SameRelativeLayout | infiniband/mem/src/memory.cpp:61-98 | From an aligned base the layout is that of the dry run, shifted |
| MemoryLayout.SlotsApart | infiniband/mem/src/memory.cpp:256-286 | All slots of all areas are pairwise disjoint |
| MemoryLayout.SlotInBounds | infiniband/mem/src/memory.cpp:256-286 | All slots lie inside the measured size |
| MemoryLayout.Scratchpad.SetupSlots | infiniband/mem/src/memory.cpp:256-276 | One area is laid out where the one before ended |
| MemoryLayout.MakeScratchpad | infiniband/mem/src/memory.cpp:61-93 | It fails exactly if the measured size does not fit; the second layout ends exactly where the allocation does, so that the overrun exception cannot happen, and has a slot per process in the areas looked up by process and one slot in each other |
| TagStore.ApplyRepresents | infiniband/wellcoordination/benchmark/orset-crdt.hpp:55-86 | Applying an operation adds it to the set the state stands for: live tags are those added and not removed |
| TagStore.Converges | infiniband/wellcoordination/benchmark/orset-crdt.hpp:55-86 | The same operations in any two orders give the same state, a removal before the addition it observed included |
| TagStore.RepresentedOnce | infiniband/wellcoordination/benchmark/shop-crdt.hpp:149-159 | A set of operations determines the state |
| TagText.TagsRoundTrip | infiniband/wellcoordination/benchmark/orset-crdt.hpp:103-122 | Decoding gives back the set of tags encoded, whatever the order |
| TagText.EncodeTags | infiniband/wellcoordination/benchmark/orset-crdt.hpp:103-110 | The encoding loop yields text that decodes to the tags |
| TagText.DecodeTags | infiniband/wellcoordination/benchmark/orset-crdt.hpp:112-122 | The decoding loop yields the tags |
| TagText.TagsDiffer | infiniband/wellcoordination/benchmark/orset-crdt.hpp:36-39 | Different additions have different tags |
| TagObjects.ORSet.ExecuteAdd | infiniband/wellcoordination/benchmark/orset-crdt.hpp:36-39 | A tag of its own |
| TagObjects.ORSet.ExecuteRemove | infiniband/wellcoordination/benchmark/orset-crdt.hpp:40-46 | The tags live here, as text |
| TagObjects.ORSet.DownstreamAdd | infiniband/wellcoordination/benchmark/orset-crdt.hpp:62-73 | The addition is applied to the state the set stands for |
| TagObjects.ORSet.DownstreamRemove | infiniband/wellcoordination/benchmark/orset-crdt.hpp:75-85 | So is the removal |
| TagObjects.Shop.ExecuteAdd | infiniband/wellcoordination/benchmark/shop-crdt.hpp:36-52 | A tag of its own and the tags it supersedes, or an exception without quantity |
| TagObjects.Shop.ExecuteRemove | infiniband/wellcoordination/benchmark/shop-crdt.hpp:53-58 | The tags live here, as text |
| TagObjects.Shop.RemoveObserved | infiniband/wellcoordination/benchmark/shop-crdt.hpp:149-159 | Observed tags become tombstones and are live no more |
| TagObjects.Shop.DownstreamAdd | infiniband/wellcoordination/benchmark/shop-crdt.hpp:79-101 | The addition supersedes what it observed, unless removed before |
| TagObjects.Shop.DownstreamRemove | infiniband/wellcoordination/benchmark/shop-crdt.hpp:71-77 | The removal is applied |
| TagRuns.RunInv | infiniband/wellcoordination/src/band-crdt.hpp:42-56 | In every run each replica's state stands for the operations it applied, tags are unique, and an operation observed exactly what was live at its source |
| TagRuns.SameRequestsSameState | infiniband/wellcoordination/src/band-crdt.hpp:42-56 | Replicas that applied the same requests agree |
| TagRuns.PresentIffUnobserved | infiniband/wellcoordination/benchmark/shop-crdt.hpp:36-58 | With everything applied, an item is present exactly if some addition of it was observed by no removal, nor in the shop by a later addition |
| TagRuns.PresentIffNotTakenBack | infiniband/wellcoordination/benchmark/orset-crdt.hpp:55-86 | At any replica at any moment an item is present exactly if an addition of it has been applied that no request applied so far took back |
| TagRuns.RequestTakesEffect | infiniband/wellcoordination/src/band-crdt.hpp:34-56 | Where all replicas have applied everything, any of them can take any request, and then by deliveries alone all come to show it: a removed item is gone, an added one there, in the shop in just the quantity asked for, and no other item changes |
| TagRuns.CanAgree | infiniband/wellcoordination/src/band-crdt.hpp:34-56 | Every run can go on by deliveries alone until all replicas have applied every request, and then they are in one state |
| TagCalls.SetRequest | infiniband/wellcoordination/src/band-crdt.hpp:34-56 | An OR-set that stands where a replica of a run stands, asked for a request, goes on to stand where the run's step puts that replica, and what is sent says which operation it was |
| TagCalls.SetDeliver | infiniband/wellcoordination/src/rb-crdt.hpp:247-260 | Handed what was sent, it stands where the run's delivery puts the replica |
| TagCalls.ShopRequest | infiniband/wellcoordination/src/band-crdt.hpp:34-56 | The same for the shop, which refuses exactly the requests the run does not allow |
| TagCalls.ShopDeliver | infiniband/wellcoordination/src/rb-crdt.hpp:247-260 | The same for what the shop receives |
| Courseware.CountsStayOk | infiniband/wellcoordination/benchmark/courseware.hpp:122-130 | course_enrollments always equals the number of enrollments naming the course |
| Courseware.DeletableIsUnused | infiniband/wellcoordination/benchmark/courseware.hpp:188-193 | A deletion is permissible exactly if nobody is enrolled |
| Courseware.PermissibleKeepsIntegrity | infiniband/wellcoordination/benchmark/courseware.hpp:181-206 | Where integrity holds and the counts are right, a call is permissible if and only if it keeps integrity |
| Courseware.CallsDo | infiniband/wellcoordination/benchmark/courseware.hpp:109-177 | A student, course or enrollment is there after a call if and only if the call brings it, or it was there and the call does not take it away |
| Courseware.ArgumentSplit | infiniband/wellcoordination/benchmark/courseware.hpp:122-130 | An argument put together from a student without a dash, a dash and a course is taken apart into these |
| Courseware.RegistrationIsFree | infiniband/wellcoordination/benchmark/courseware.hpp:52-57 | Registrations commute with every call and leave it permissible |
| Courseware.AddDeleteConflict | infiniband/wellcoordination/benchmark/courseware.hpp:52-57 | Adding and deleting courses commute exactly for different courses |
| Courseware.EnrollDeleteConflict | infiniband/wellcoordination/benchmark/courseware.hpp:52-57 | An enrollment and a deletion take away each other's permission exactly for the same course |
| Courseware.CoursewareObject.Enroll | infiniband/wellcoordination/benchmark/courseware.hpp:122-130 | The enrollment is in, the count goes up only for a new one, and all counts stay right |
| Courseware.CoursewareObject.Dispatch | infiniband/wellcoordination/benchmark/courseware.hpp:143-177 | The object's state follows the specification of each call |
| Courseware.CoursewareObject.IsPermissible | infiniband/wellcoordination/benchmark/courseware.hpp:181-206 | The check follows the specification, and where integrity holds answers true if and only if the call keeps it |
| CoursewareRuns.IntegrityEverywhere | infiniband/wellcoordination/benchmark/courseware.hpp:52-63 | In every run integrity and the counts hold at every replica at every moment, though calls are checked only where issued |
| CoursewareRuns.SameCallsSameState | infiniband/wellcoordination/benchmark/courseware.hpp:52-63 | Replicas that applied the same calls have equal states |
| CoursewareRuns.DependencyIsNeeded | infiniband/wellcoordination/benchmark/courseware.hpp:59-63 | Without waiting for the declared dependency a permissible enrollment breaks integrity elsewhere |
| CoursewareRuns.CanAgree | infiniband/wellcoordination/benchmark/courseware.hpp:52-63 | Every run can go on, by what is under way alone, until all replicas have applied everything, and then they are in one state: no dependency holds anybody up for ever |
| CoursewareRuns.CallTakesEffect | infiniband/wellcoordination/benchmark/courseware.hpp:52-63 | Where all replicas are up to date, any of them can take any call that keeps integrity, and then by what is under way alone all come to hold what it makes of the state they held |
| Bank.SmallBank.Dispatch | infiniband/wellcoordination/benchmark/smallbank.hpp:77-105 | The balances follow the specification of each call, wrap-around included |
| Bank.SmallBank.IsPermissible | infiniband/wellcoordination/benchmark/smallbank.hpp:107-119 | The check says exactly whether the call is permissible |
| Bank.CallsCommute | infiniband/wellcoordination/benchmark/smallbank.hpp:44-53 | Any two calls commute, overflow or not |
| Bank.WithdrawalsConflict | infiniband/wellcoordination/benchmark/smallbank.hpp:44-47 | Of two permissible withdrawals the second stays so exactly if both are covered or the accounts differ |
| Bank.DepositIsFree | infiniband/wellcoordination/benchmark/account.hpp:41-49 | A deposit leaves a withdrawal permissible |
| Bank.MovesItsAccount | infiniband/wellcoordination/benchmark/smallbank.hpp:77-105 | A call moves its own account by its amount, in 32-bit arithmetic, and nothing else; a query moves nothing |
| Bank.PermissibleIff | infiniband/wellcoordination/benchmark/smallbank.hpp:107-119 | A withdrawal is let through exactly if it leaves the account nonnegative; other calls always are |
| BankRuns.NoOverdraft | infiniband/wellcoordination/benchmark/smallbank.hpp:107-119 | In every run with nonnegative deposits that fit an int, no account is negative at any replica at any moment |
| BankRuns.SameCallsSameBalances | infiniband/wellcoordination/benchmark/smallbank.hpp:81-105 | Replicas that applied the same calls hold the same balances |
| BankRuns.DepositOverdraws | infiniband/wellcoordination/benchmark/smallbank.hpp:107-110 | A deposit is never refused, and leaves an account nonnegative if and only if the sum is nonnegative and fits |
| BankRuns.SafePlanIff | infiniband/wellcoordination/benchmark/smallbank.hpp:107-119 | Callers that keep to a plan of deposits and of how much negative withdrawals may bring back to each account overdraw none in any run, if and only if no deposit is negative and all that money together fits an int |
| BankRuns.IdealInRange | infiniband/wellcoordination/benchmark/account.hpp:102-115 | The first p withdrawals with any deposits including those they depend on leave no account below zero |
| BankRuns.CanAgree | infiniband/wellcoordination/benchmark/smallbank.hpp:44-53 | Every run can go on, by what is under way alone, until all replicas have applied everything, and then they hold the same balances |
| BankRuns.CallTakesEffect | infiniband/wellcoordination/benchmark/smallbank.hpp:77-119 | Where all replicas are up to date, any of them can take any deposit and any withdrawal that leaves the account nonnegative, and then all come to hold what it makes of the balances they held |
| Lww.PackRoundTrip | infiniband/wellcoordination/benchmark/register-crdt.hpp:94-100 | Version and value come back from the packed word, counter and writer from the version |
| Lww.PackNeedsFit | infiniband/wellcoordination/benchmark/register-crdt.hpp:82-100 | They come back if and only if counter, writer and value fit in 24, 8 and 32 bits |
| Lww.VersionOrder | infiniband/wellcoordination/benchmark/register-crdt.hpp:70-76 | Versions and packed words compare like (counter, writer) |
| Lww.ShiftOrIsSum | infiniband/wellcoordination/benchmark/register-crdt.hpp:70 | Shift and or build counter times 256 plus writer |
| Lww.Converges | infiniband/wellcoordination/benchmark/register-crdt.hpp:47-80 | The same writes in any order and any number of times leave the same word |
| Lww.MergeHolds | infiniband/wellcoordination/benchmark/register-crdt.hpp:70-79 | Merging keeps the word the greatest of the writes applied |
| Lww.Register.Execute | infiniband/wellcoordination/benchmark/register-crdt.hpp:32-40 | The next counter, or an exception exactly if it or the writer does not fit |
| Lww.Register.StoreIfNewer | infiniband/wellcoordination/benchmark/register-crdt.hpp:73-79 | However other threads interfere with the compare-and-swap loop, the write is merged at one moment among theirs |
| Lww.Register.ExecuteDownstream | infiniband/wellcoordination/benchmark/register-crdt.hpp:47-80 | The write is merged and the clock catches up, or the version is invalid and nothing changes |
| Lww.KvStore.Execute | infiniband/wellcoordination/benchmark/kv-store.hpp:27-42 | One more than the counter this key carries, or an exception |
| Lww.KvStore.ExecuteDownstream | infiniband/wellcoordination/benchmark/kv-store.hpp:53-91 | Only this key's entry changes, by merging the write |
| LwwRuns.VersionsNeverRepeat | infiniband/wellcoordination/benchmark/register-crdt.hpp:30-45 | No two writes to a key carry the same version, as long as no replica has refused so many calls that its clock has gone round |
| LwwRuns.SafeLimitIff | infiniband/wellcoordination/benchmark/register-crdt.hpp:30-45 | Allowing so many refused calls at each replica keeps all versions apart in every run if and only if it is less than 2^32 - 2^24 |
| LwwRuns.VersionRepeats | infiniband/wellcoordination/benchmark/register-crdt.hpp:30-45 | A run with just so many refused calls in which a version is used twice |
| LwwRuns.WriteBeatsWhatItSaw | infiniband/wellcoordination/benchmark/kv-store.hpp:27-42 | A write beats every write to its key its writer had applied |
| LwwRuns.GreatestWins | infiniband/wellcoordination/benchmark/register-crdt.hpp:47-80 | A replica shows the value of the greatest version it applied |
| LwwRuns.SameWritesSameWords | infiniband/wellcoordination/benchmark/kv-store.hpp:53-91 | Replicas that applied the same writes hold the same words |
| LwwRuns.CanAgree | infiniband/wellcoordination/benchmark/register-crdt.hpp:47-80 | Every run in which no clock has gone round can go on by deliveries alone until all replicas have applied every write, and then they hold the same words |
| LwwRuns.WriteTakesEffect | infiniband/wellcoordination/benchmark/register-crdt.hpp:30-80 | Where all replicas have applied everything, any of them can write to any key as long as the version fits, and then all come to show that value, and at every other key what they showed |
| LwwCalls.RegisterRequest | infiniband/wellcoordination/src/band-crdt.hpp:34-56 | A register that stands where a replica of a run stands, asked for a write, goes on to stand where the run's step puts that replica; it refuses exactly when the run does |
| LwwCalls.RegisterDeliver | infiniband/wellcoordination/src/rb-crdt.hpp:247-260 | Handed a write, it stands where the run's delivery puts the replica |
| LwwCalls.StoreRequest | infiniband/wellcoordination/src/band-crdt.hpp:34-56 | The same for the store |
| LwwCalls.StoreDeliver | infiniband/wellcoordination/src/rb-crdt.hpp:247-260 | The same for what the store receives |

## Left out

- Mu, the queue, recycling and the runs of replicated objects are modelled on
  values, as state machines over steps: threads interleave between steps, which
  methods on one object cannot express. Aliasing between a thread's memory and
  the network card's is therefore a matter of which step reads or writes what.
- Mu's shortcut at consensus.cpp:235-275, the deadlock bail-out of the leader
  switch, `hard_reset` requests, and `outstanding_req` above 0.
- MuAgreement.Agreement: not on crashes that erase memory; a replica that stops
  is one that takes no more steps.
- MuAgreement.CommitsComparable: inside one generation of the log;
  MuGenerations.HandedComparable crosses generations.
- MuGenerations.HandedComparable: on runs in which no leadership switch falls between
  a request and its last reply (MuSwitch.SwitchBreaks shows that this is needed); the
  bytes of the request are left out.
- MuOnce.HandedOnce: on the same runs.
- MuLeftover.AgreementIfReset: a sufficient policy only; a fast path kept while nobody
  else began to lead is not shown safe. The flags are those of the guarded leader branch;
  with them left over the shortcut at 235-275 goes wrong in the same way.
- Fairness: that calls, elections, rounds of recycling and replicas' agreement can
  always be completed is proved, but not that they are, since steps need not be taken.
- MuCanDecide.CallCanFinish: a call in the first wait of the slow path needs everybody
  it has not heard from, as the source does.
- MuRoundEnds.RoundCanEnd: on runs in which no leadership switch falls between a
  request and its last reply.
- QuorumWaiter.SerialQuorumWaiter.FastConsume: ids are unbounded integers, so the
  wrap-around of a 64-bit id is not modelled.
- SlotReader.LogSlotReader.ReadSlotAt: the answers of the hardware are a parameter,
  and each comes with the bytes then in the scratchpad; the remote iterators'
  predictors are modelled apart from it. `addQuorumSize` and
  `addToleratedFailures`, used for trying out recovery, are left out.
- QueueRuns.Fifo: sequential consistency is assumed; fences, `peek`, `pop`, moving
  and destroying a queue, and the blocking wrapper are left out.
- QueueCapacity.Construct: `ceilToPow2` is the least power of two that is large
  enough; its bit tricks are left out, and allocation does not fail in the constructor.
- LogBuffer.Log.constructor: the buffer is aligned and zeroed; `is_zero`, whose last
  test accepts buffers that are not zero, and the shift to an aligned address are left out.
- LogBuffer.Log.Bzero: like the source it leaves `free_bytes` alone; the recycling
  code calls `rebuildLog` before it.
- LogIterators.Follow: takes rounds until nothing new is there, where the source
  polls forever; the recycling branch is in MuRecycling.
- `BlockingIterator::next`, `SnapshotIterator` and the partitioned iterator: spinning,
  unused or superseded.
- CompletionRouting.ContextedPoller.Poll: what the hardware queue returns is a
  parameter; a queue refuses when it holds `depth` completions, though it may hold more.
- TagObjects.ORSet.DownstreamRemove: the element is given as a number; reading it
  from the argument's text (`stoi`, up to the first dash, so no negative elements)
  is left out, for the shop and the register too.
- CoursewareRuns.IntegrityEverywhere: a dependency is the set of registrations the
  issuer had applied; the source sends their number per process, which is the
  same when each process's calls are delivered in order.
- Connections, queue pairs, ports, the memcached store, thread pinning, heartbeat
  timing, timers and logging: foreign calls, or no state worth proving.
- `BandLog`, `HamsazMemory`, the reliable broadcast and the synchronizer, G-Set,
  2P-Set, PN-Set, Counter, Movie, Rubis, Project, and the copies under `roce/`: easier, or copies.
