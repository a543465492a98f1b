# Verification of the replication engines

The repository holds a two-chain HotStuff engine, a DAG-based ordering layer (Tusk), a slot executor
and several supporting state machines. This project models them in Dafny and proves what they are
for. The original is written in Rust; nothing of it is executed here.

**HotStuff** (`Committees`, `Messages`, `Aggregators`, `Replicas`, `Core`, `Chains`, `Evidence`,
`Delivery`, `Invariants`, `Steps`, `Signing`, `Blocks`, `Protocol`, `Progress`, `Panics`, `Effects`,
`Leaders`, `Counting`, `Runs`). `Replicas` says what one replica does on each event, as functions on its state; the classes
`Core.Core` and `Aggregators.Aggregator` carry the fields and loops of the engine, and every method
is proved equal to the function it implements. `Protocol` is the whole system: a run is any
interleaving of steps of the honest replicas, each on any message that contains no forged honest
signature. Replicas outside `honest` hold less than a third of the stake and have no state: whatever
they could send may be delivered, and messages may be lost, reordered, repeated or invented. The main
results are agreement on everything delivered, the refinement of the delivered log to the committed
chain, one certified block per round, and the bookkeeping that keeps the engine's lookups from
failing. The proof is in layers: quorum arguments about signatures only (`Evidence`), what a commit
delivers (`Delivery`), the invariant of one replica (`Invariants`), its preservation by each handler
(`Steps`, `Signing`, `Blocks`), and runs (`Protocol`, `Progress`, `Panics`). What the handlers bring about is
proved apart from that: which proposals are voted for and what processing a block does (`Effects`), that
everything voted for, stored and delivered comes from the leader of its round (`Leaders`), and that a quorum of
verified votes or timeouts of a round moves a replica past it, in whatever order they come (`Counting`). `Runs`
holds concrete runs.

Points where the model follows the code closely:

- A block's digest covers its author, round, payload and parent, but not its TC. Digests are
  structural terms, so they are injective.
- The vote rule does not bound the QC round of a block from above. The bound comes from processing
  the QC before the round test.
- TCs handed to `handle_tc` are not verified. Agreement holds all the same: a leader that proposes on
  such a TC does so with its own `high_qc`, which covers every vote it has cast
  (`Evidence.CoversEarlierVotes`).
- `commit` delivers the previously committed block again when a round was skipped, so delivery is not
  exactly-once (see Findings).

**Tusk** (`Dags`, `DagOrder`, `Tusk`): reachability in a DAG of certificates, flattening of a leader's
history, pruning, and the run loop. A missing round, on which the code gives up with `expect`, is the
result `None` and the field `halted`; `Tusk.Consensus.Run` shows that it does not happen if certificates
come after their history.

**Executor**: the buffered slot executor refines in-order execution, whatever the order and
repetition of commit messages.

**FastPath, ParamEpochs, Retransmission, Median**: one Prepare instance with its QC maker, which serves
votes that come on their own and votes carried by car votes, the parameter-update machine, the retransmission queue of a connection, and the robust median. `Sorting`
specifies the library sort, `Wrappers` holds the option and result types, `Arithmetic` division with remainder.

Quorum thresholds follow the code: 2N/3+1, (N+2)/3 and N, with the division rounding down.

## Findings

- A TC without votes can bring an honest replica down, since `handle_tc` does not verify its input
  (hotstuff/src/core.rs:391-398) and `make_vote` expects a vote in it (hotstuff/src/core.rs:106-114).
  `Runs.EmptyTCStopsFirstLeader` is such a run, `Panics.HandlePanicsIff` says exactly which step panics,
  `Panics.HandleTCCalmIff` which TCs a replica can be handed without harm, and
  `Panics.NoReplicaPanics` that nothing else makes an honest replica panic.
- A leader can send two Confirms for one Prepare. `process_vote` (primary/src/core.rs:1064-1260) uses the
  same QC maker as `process_consensus_vote` without looking at `sent_confirm`, and `get_qc` does not
  reset the weight. `FastPath.SecondConfirm` is such a run, `FastPath.SecondMessageIff` the exact
  condition, and `FastPath.OnePathPerPrepare` what holds all the same.
- There is no slow path to fall back to when a car vote announces the first quorum of the fast path. The
  timer that `process_vote` starts comes back as a loopback that carries votes, for which `process_vote`
  returns at once (primary/src/core.rs:1030-1036), and no other timer is started.
  `FastPath.SilentCarTimer` is such a run, `FastPath.FallbackIffAnnouncedByVote` says which handler leads
  there, and `FastPath.WaitingUntilFullStake` that from then on, unless the fast path is switched, the
  leader sends a message if and only if the full stake votes.
- Delivery is not exactly-once: `commit` repeats the block committed before when a round was skipped
  (hotstuff/src/core.rs:132-140). `Runs.SkippedRoundRepeatsGenesis` is such a run and
  `Delivery.CommitRepeatsIffRoundSkipped` the exact condition.
- A pending parameter update can be stuck. It is in exactly the configurations with
  1 <= `epoch_slots` < `applied_begin` that updates pend and none is ever applied
  (`ParamEpochs.UpdatesGetStuckIff`); `ParamEpochs.StuckUpdatePendsForEver` exhibits one. When one of the two
  is 0, signals act at once and nothing pends at all. In all other configurations, and only in those,
  some run applies an update (`ParamEpochs.SomeRunAppliesIffDeferred`).
- The past leaders that `order_leaders` looks for are never those that the run loop elects: it walks from
  the round below an even-round leader in steps of two (consensus/src/lib.rs:226-229), so all it finds are
  of odd rounds (`Tusk.PastLeadersHaveOddDistance`). `Tusk.EvenLeaderIsPassedOver` is a DAG in which the
  leader of round 2 is reached from that of round 4 and passed over.
- The median is not robust once half of the samples are faulty (`Median.RobustIffMinority`).

## Model

| member | source | states |
|---|---|---|
| Protocol.LogsAgree | hotstuff/src/core.rs:122-166 | agreement: at any two times of any run, the logs of any two honest replicas, without adjacent repeats, are one a prefix of the other |
| Protocol.DeliveredBlocksAgree | hotstuff/src/core.rs:305-357 | any two blocks delivered by honest replicas, at any times, lie on one chain |
| Protocol.HeadsAgree | hotstuff/src/core.rs:122-166 | the last committed blocks of any two honest replicas lie on one chain |
| Protocol.DeliveryRefinesChain | hotstuff/src/core.rs:122-166 | in every reachable state the delivered log, without adjacent repeats, is the chain from genesis to the last committed block, without gaps |
| Protocol.OneQCPerRound | hotstuff/src/messages.rs:181-199 | two QCs of one round that pass verification name the same block, whoever assembled them and whenever; that block is newer than the block it extends |
| Protocol.VerifiedTCsReportCertifiedParent | hotstuff/src/messages.rs:290-320 | once a block is certified, every verified TC for its round or later reports a high-QC round at least that of the block's own QC |
| Protocol.ReplicaBookkeeping | hotstuff/src/core.rs:277-303 | in every reachable state the round is past `high_qc` and not below `last_voted_round`, the store is closed under parents, no ancestor lookup has failed, and assembled QCs and TCs are at most one per round and verify |
| Protocol.HandleGood | hotstuff/src/core.rs:400-429 | every event keeps the invariant of a replica and only adds signatures |
| Protocol.RunIsOk | hotstuff/src/core.rs:400-429 | the system invariant holds at every time of every run |
| Progress.NothingIsTakenBack | hotstuff/src/core.rs:99-172 | output only grows at its end, signatures and stored blocks accumulate, and none of the four rounds of a replica falls |
| Effects.ProposalIsVotedForIff | hotstuff/src/core.rs:359-389 | at every step of every run, a proposal is voted for if and only if the leader of its round authored it, it verifies, its payload is in order, its parent is stored, its round is the one its certificates lead to and above the last vote, and it extends the round before or every timeout of its TC reports a QC no newer than its own |
| Effects.ProposalEffect | hotstuff/src/core.rs:359-389 | a proposal that is not accepted changes nothing; an accepted one moves the replica past its QC and its TC and adopts the QC, even if the payload is refused, and is then processed in the round reached |
| Effects.ProcessBlockEffect | hotstuff/src/core.rs:305-357 | a block without its parent waits; any other is stored, its grandparent is delivered exactly by the commit rule, and one new vote is signed exactly if the block is of the current round and votable |
| Effects.ReturnedBlockIsProcessed | hotstuff/src/core.rs:419 | the same for own and resumed blocks, at every step of every run |
| Effects.MayExtendIff | hotstuff/src/core.rs:105-111 | the second safety rule, told without a maximum |
| Effects.AdoptEffect | hotstuff/src/core.rs:376-382 | certificates of a block lead to the highest of the old round and the rounds after its QC and its TC |
| Effects.TimeoutEffect | hotstuff/src/core.rs:236-247 | a late or unverified timeout changes nothing; any other has its QC adopted and moves the replica past that QC |
| Effects.TimerEffect | hotstuff/src/core.rs:174-209 | votes of the round are given up, one timeout on `high_qc` is signed, and it is handled like that of another member |
| Effects.TCEffect | hotstuff/src/core.rs:391-398 | the replica is past the TC's round and, exactly if it leads the round reached, asks for a block on `high_qc` and this TC |
| Effects.OwnBlockEffect | hotstuff/src/proposer.rs:66-99 | the block made for a request carries its certificates, round and payload, is signed by this replica, and comes back to it |
| Leaders.VotesAreForLeaders | hotstuff/src/core.rs:359-370 | in every reachable state all votes signed are for blocks of the leader of their round, and so are all blocks stored or delivered |
| Leaders.VerifiedQCsNameLeaders | hotstuff/src/core.rs:359-370 | a QC that verifies, from whomever and whenever, names a block that the leader of its round authored |
| Leaders.HonestBlocksAreAccepted | hotstuff/src/proposer.rs:66-99 | a block an honest member made passes the checks of all others if and only if the TC it was asked to build on verifies |
| Leaders.LifeIsLed | hotstuff/src/core.rs:400-429 | the underlying invariant, for any replica and any events, whatever others have signed |
| Counting.HandleVoteCounts | hotstuff/src/core.rs:211-234 | a vote completes a QC of its block exactly if its author and the members counted before hold a quorum; the QC is adopted, its round left behind, and the leader of the next one asks for a block; otherwise the author is counted |
| Counting.HandleTimeoutCounts | hotstuff/src/core.rs:236-275 | a timeout whose round is still open after its QC was adopted completes one TC of that round exactly if its author and the members counted before hold a quorum; the round is left behind and the leader of the next one asks for a block on that TC |
| Counting.LifeIsExact | hotstuff/src/aggregator.rs:28-55 | whatever happened, the makers of open rounds have not fired and weigh the stake of the members they counted |
| Counting.AdvanceRoundCountsOn | hotstuff/src/aggregator.rs:52-55 | advancing leaves the makers of the new round and of later ones alone |
| Counting.HandleCountsOn | hotstuff/src/core.rs:400-429 | no event loses a member counted for a round that stays open |
| Counting.VotersAreCounted | hotstuff/src/aggregator.rs:28-39 | as long as a round is open, everyone whose verified vote for it arrived is counted, even if it arrived rounds earlier |
| Counting.LifeCountsOwn | hotstuff/src/core.rs:339-343 | the replica's own votes are counted where it leads the next round, and its own timeouts always |
| Counting.QuorumOfVotesMovesOn | hotstuff/src/core.rs:211-234 | a quorum of verified votes for one block, own vote included, in any order and interleaved with anything, has moved the replica past the block's round |
| Counting.QuorumOfTimeoutsMovesOn | hotstuff/src/core.rs:236-275 | the same for verified timeouts of one round |
| Panics.NoReplicaPanics | hotstuff/src/core.rs:103-140 | if no replica is handed an empty TC that makes it lead the next round, neither `expect` of an honest replica is ever reached |
| Panics.HandleTCCalmIff | hotstuff/src/core.rs:391-398 | handling a TC leaves no request on an empty TC behind if and only if the TC has a vote or the replica does not lead the round it moves to |
| Panics.ProcessBlockPanicsIff | hotstuff/src/core.rs:305-357 | processing a block panics if and only if its TC is empty, its round is the current one and its parent is at hand |
| Panics.HandlePanicsIff | hotstuff/src/core.rs:400-429 | of all events only the loopback of such a block panics, never a proposal, vote, timeout, TC or timer |
| Panics.PanicsExactlyOnEmptyTC | hotstuff/src/core.rs:103-140 | the same at every step of every run |
| Panics.HarmfulTCPanicsIffParentStored | hotstuff/src/core.rs:391-398 | a replica handed an empty TC for a round it leads panics on its own next block, if the block of its `high_qc` is stored |
| Runs.EmptyTCStopsFirstLeader | hotstuff/src/core.rs:391-398 | in every committee whose first leader is honest there is a run of three steps in which an empty TC brings that leader down |
| Runs.SkippedRoundRepeatsGenesis | hotstuff/src/core.rs:132-140 | a run of a timeout and three proposals, without faults, that commits a block and delivers genesis before it |
| Panics.HandleProposalCalm | hotstuff/src/messages.rs:72-75 | proposals bring in no empty TC, because their TC is verified |
| Panics.AssembledTCHasVotes | hotstuff/src/aggregator.rs:112-138 | an assembled TC is not empty |
| Evidence.LockedChain | hotstuff/src/core.rs:103-166 | if a block and its child of the next round are certified, every certified block of the same or a later round is that block or descends from it |
| Protocol.VerifiedQCsExtendLockedBlock | hotstuff/src/core.rs:103-166 | the same over whole runs, for QCs that pass verification at any times |
| Evidence.LaterBlocksExtendCommittedRound | hotstuff/src/core.rs:103-120 | a block certified above a committed one carries a QC at least as new, whichever clause of the vote rule allowed it |
| Evidence.CommittedBlocksAgree | hotstuff/src/core.rs:325-329 | any two blocks committed by the two-chain rule lie on one chain |
| Evidence.OneCertifiedBlockPerRound | hotstuff/src/core.rs:105-117 | quorum intersection with one vote per round allows one certified block per round |
| Evidence.TimeoutsReportCertifiedParent | hotstuff/src/core.rs:174-188 | a quorum of timeouts includes an honest voter of the certified block, whose timeout reports the block's QC round or more |
| Evidence.CertifiedIsAscending | hotstuff/src/core.rs:105-114 | rounds grow strictly from parent to child along every certified chain |
| Evidence.CertifiedHasHonestVoter | hotstuff/src/messages.rs:181-199 | every certified block has an honest voter, hence the shape honest voters check |
| Signing.VoteRuleJustifies | hotstuff/src/core.rs:103-120 | a block that passes both safety rules yields a vote an honest record may contain |
| Signing.VoteKeepsRecord | hotstuff/src/core.rs:103-120 | voting above `last_voted_round` keeps one justified vote per round |
| Signing.TimeoutKeepsRecord | hotstuff/src/core.rs:174-188 | a timeout signed with the current `high_qc` covers every vote cast so far |
| Signing.MakeBlockGood | hotstuff/src/proposer.rs:66-99 | the proposer's own block keeps the invariant |
| Blocks.TwoChainCommits | hotstuff/src/core.rs:325-329 | consecutive rounds of grandparent and parent make the processed block's QC commit the grandparent |
| Blocks.GrandparentIsStored | hotstuff/src/synchronizer.rs:137-150 | the second lookup of `get_ancestors` always succeeds |
| Blocks.StoreBlockOk | hotstuff/src/core.rs:314-323 | storing a block whose parent was found keeps the store closed under parents |
| Blocks.ProcessBlockGood | hotstuff/src/core.rs:305-357 | processing a block keeps the invariant of a replica |
| Blocks.HandleProposalGood | hotstuff/src/core.rs:359-389 | handling a proposal keeps the invariant of a replica |
| Steps.HandleVoteGood | hotstuff/src/core.rs:211-234 | handling a vote keeps the invariant of a replica |
| Steps.HandleTimeoutGood | hotstuff/src/core.rs:236-275 | handling a timeout keeps the invariant of a replica |
| Steps.HandleTCGood | hotstuff/src/core.rs:391-398 | handling a TC, verified or not, keeps the invariant of a replica |
| Steps.ProcessQCGood | hotstuff/src/core.rs:299-303 | processing a genuine QC keeps the round above `high_qc` |
| Steps.QCFromMaker | hotstuff/src/aggregator.rs:73-95 | a QC that a maker hands out passes `QC::verify` |
| Steps.TCFromMaker | hotstuff/src/aggregator.rs:112-138 | a TC that a maker hands out passes `TC::verify` |
| Invariants.VerifiedQCIsCertified | hotstuff/src/messages.rs:181-199 | a QC that verifies rests on a quorum of genuine votes |
| Invariants.VerifiedTCTimesOut | hotstuff/src/messages.rs:291-316 | a TC that verifies rests on a quorum of genuine timeouts, none above its highest reported round |
| Delivery.WalkDelivers | hotstuff/src/core.rs:126-164 | the walk of `commit` finds every ancestor and yields the chain after the previous head, preceded by that head if a round was skipped |
| Delivery.CommitKeepsLog | hotstuff/src/core.rs:122-166 | a commit keeps the log a refinement of the committed chain and misses no ancestor |
| Delivery.CommitDelivers | hotstuff/src/core.rs:122-166 | what exactly one commit adds to the log |
| Delivery.CommitRepeatsIffRoundSkipped | hotstuff/src/core.rs:132-140 | a commit delivers the new part of the chain alone if and only if its first block is of the round after the last commit; otherwise the old head is delivered again first |
| Delivery.ParentBlockIsParent | hotstuff/src/synchronizer.rs:121-135 | the block looked up is the parent named by the digest |
| Chains.AncestorChainIsPrefix | hotstuff/src/messages.rs:80-91 | the chain of an ancestor is a prefix of the chain of its descendant |
| Chains.AncestorRounds | hotstuff/src/messages.rs:80-91 | an ancestor has a smaller round, unless it is the block itself |
| Aggregators.MakerFiresExactlyOnce | hotstuff/src/aggregator.rs:73-95 | for any sequence of votes a maker returns one certificate if their distinct authors hold a quorum and none otherwise, despite the weight reset |
| Aggregators.TCMakerFiresExactlyOnce | hotstuff/src/aggregator.rs:112-138 | the same for timeouts and timeout certificates |
| Aggregators.MakerStep | hotstuff/src/aggregator.rs:73-95 | after a certificate the weight counts the stake seen since and never reaches a quorum again |
| Aggregators.Aggregator.AddVote | hotstuff/src/aggregator.rs:28-39 | the vote goes to the maker of its round and digest, created on demand; others are unchanged |
| Aggregators.Aggregator.AddTimeout | hotstuff/src/aggregator.rs:41-50 | the timeout goes to the maker of its round, created on demand; others are unchanged |
| Aggregators.Aggregator.Cleanup | hotstuff/src/aggregator.rs:52-55 | exactly the makers of older rounds are removed; that nothing counted for an open round is lost is `Counting.AdvanceRoundCountsOn` |
| Messages.CheckVoters | hotstuff/src/messages.rs:181-195 | the loop accepts exactly the lists of distinct known names with quorum stake, and says which check failed |
| Messages.VerifyQC | hotstuff/src/messages.rs:181-199 | succeeds exactly on QCs of distinct known voters with quorum stake and valid signatures |
| Messages.VerifyTC | hotstuff/src/messages.rs:291-316 | succeeds exactly on TCs of distinct known voters with quorum stake and valid signatures over round and reported round |
| Messages.VerifyBlock | hotstuff/src/messages.rs:56-77 | succeeds exactly on blocks of a known, genuine author whose QC and TC verify |
| Messages.VerifyTimeout | hotstuff/src/messages.rs:250-270 | succeeds exactly on timeouts of a known, genuine author whose QC verifies |
| Core.Core.constructor | hotstuff/src/core.rs:80-86 | a replica starts in round 1 with the genesis QC |
| Core.Core.IncreaseLastVotedRound | hotstuff/src/core.rs:99-101 | raises `last_voted_round` to the target, never lowers it, and changes nothing else |
| Core.Core.AdvanceRound | hotstuff/src/core.rs:277-289 | implements the specification of advancing a round, with the cleanup of makers |
| Core.Core.UpdateHighQC | hotstuff/src/core.rs:168-172 | keeps the QC of the higher round, the old one on a tie, and changes nothing else |
| Core.Core.ProcessQC | hotstuff/src/core.rs:299-303 | moves the round past the QC's round and adopts the QC if it is newer |
| Core.Core.GenerateProposal | hotstuff/src/core.rs:291-297 | requests a block for the current round on top of `high_qc` |
| Core.Core.HandleVote | hotstuff/src/core.rs:211-234 | does what `Counting.HandleVoteCounts` states, including votes that fail a check |
| Core.Core.HandleTimeout | hotstuff/src/core.rs:236-275 | does what `Effects.TimeoutEffect` and `Counting.HandleTimeoutCounts` state, including timeouts that fail a check |
| Core.Core.LocalTimeoutRound | hotstuff/src/core.rs:174-209 | implements its specification: votes are given up before the timeout is signed |
| Core.Core.HandleTC | hotstuff/src/core.rs:391-398 | moves past the TC's round, unverified, and requests a proposal if this replica leads the new one |
| Core.Core.MakeVote | hotstuff/src/core.rs:103-120 | implements the two safety rules, including the panic on an empty TC |
| Core.Core.Commit | hotstuff/src/core.rs:122-166 | the walk over a double-ended queue sends what the recursive walk describes, or fails on a missing ancestor |
| Core.Core.SendNewestLast | hotstuff/src/core.rs:146-164 | the queue is emptied from its back, so blocks are sent oldest first |
| Core.Core.VoteFor | hotstuff/src/core.rs:339-355 | makes the vote and counts it locally exactly if this replica leads the next round |
| Core.Core.ProcessBlock | hotstuff/src/core.rs:305-357 | does what `Effects.ProcessBlockEffect` states, including failed lookups |
| Core.Core.HandleProposal | hotstuff/src/core.rs:359-389 | does what `Effects.ProposalEffect` states, including proposals that fail a check |
| Committees.QuorumIntersection | config/src/lib.rs:409-415 | two quorums share a member with stake outside any set holding under a third |
| Committees.QuorumMeetsValidity | config/src/lib.rs:409-423 | a quorum and a set with f+1 stake intersect |
| Committees.ComplementNotQuorum | config/src/lib.rs:409-415 | what remains outside a quorum is not a quorum |
| Committees.ThresholdsFitFaults | config/src/lib.rs:409-423 | with less than a third of the stake faulty, the other members are a quorum, and a set with f+1 stake contains one of them |
| Committees.EveryMemberLeadsOnce | hotstuff/src/leader.rs:16-20 | of as many consecutive rounds as there are members, each member leads exactly one |
| Committees.WeightInclusionExclusion | config/src/lib.rs:395-415 | stake of a union and an intersection add up to the stakes of the two sets |
| Dags.Linked | consensus/src/lib.rs:245-258 | answers whether a path of parents, round by round, leads from one leader to the other; fails exactly when a round in between is missing |
| Dags.LayerIffReaches | consensus/src/lib.rs:245-258 | the frontiers of the walk are exactly the certificates reached by parent paths |
| Dags.SupportImpliesReached | consensus/src/lib.rs:140-156 | if certificates reference quorums of the previous round, a leader with f+1 support is reached from every certificate two or more rounds above it |
| Dags.SupportedLeadersStayLinked | consensus/src/lib.rs:140-156 | the same for the frontier that the linked test computes |
| DagOrder.SubDag | consensus/src/lib.rs:260-292 | the worklist search terminates and yields exactly the certificates reached from the leader through present parents that are not skipped, each once |
| DagOrder.OrderDag | consensus/src/lib.rs:260-302 | the result is that set without garbage-collected rounds, each certificate once, by growing round, parents before children |
| DagOrder.PushParents | consensus/src/lib.rs:272-291 | the inner loop over the parents of one certificate |
| Tusk.State.constructor | consensus/src/lib.rs:31-42 | genesis is filed and committed at round 0 |
| Tusk.State.Update | consensus/src/lib.rs:44-61 | the commit is recorded, the last committed round is the maximum, and exactly the entries below the two bounds are pruned |
| Tusk.Prune | consensus/src/lib.rs:53-60 | the loop of retains keeps exactly the entries that no bound excludes |
| Tusk.UpdateKeepsStateOk | consensus/src/lib.rs:44-61 | an entry that was output and not pruned sits exactly at its author's last committed round |
| Tusk.SubDagIsFresh | consensus/src/lib.rs:284-292 | because of that, the equality-only skip test keeps everything already output out of the next sub-DAG |
| Tusk.Consensus.OrderLeaders | consensus/src/lib.rs:222-243 | the newest leader followed by exactly the past leaders of the walk, newest first; it fails exactly when the walk meets a missing round |
| Tusk.PastLeadersAreLinked | consensus/src/lib.rs:222-243 | the leaders form a chain, each reached from the one before and elected for its round |
| Tusk.PastLeadersAreElected | consensus/src/lib.rs:226-233 | every past leader is the elected one of a round that the walk visits, and present |
| Tusk.SkippedLeadersAreNotReached | consensus/src/lib.rs:235-239 | an elected leader of a visited round is left out only if the next newer leader of the chain does not reach it |
| Tusk.PastLeadersHaveOddDistance | consensus/src/lib.rs:226-229 | past leaders are at an odd distance below the newest one, at least two above the last commit |
| Tusk.EvenLeaderIsPassedOver | consensus/src/lib.rs:226-229 | a DAG in which the reached leader of the last even round is passed over |
| Tusk.FailureNeedsMissingRound | consensus/src/lib.rs:249-252 | the walk fails only on a round missing between the last commit and the newest leader |
| Tusk.PruningKeepsWhole | consensus/src/lib.rs:44-61 | pruning removes nothing that was delivered above the last committed round, which never falls |
| Tusk.NoRoundMissing | consensus/src/lib.rs:69-70 | when every delivered certificate has one of the round before, no round between the last commit and a delivered certificate is missing |
| Tusk.Consensus.Run | consensus/src/lib.rs:104-200 | the run loop outputs no round and author twice, whatever arrives, and never fails on a missing round if certificates come after their history |
| Tusk.DecidedIffCommits | consensus/src/lib.rs:120-160 | unless the loop fails, the newest leader it commits is the one of the even round three below, present, above the last commit, and referenced by a third of the stake or more; and if there is such a leader it commits |
| Tusk.BackedIffSupported | consensus/src/lib.rs:140-156 | the sum over the children reaches the threshold if and only if members with a third of the stake or more reference the leader |
| Tusk.CommittedLeaderStaysLinked | consensus/src/lib.rs:140-156 | a committed leader is in the layer of every certificate two or more rounds above it, in this and in every later DAG whose certificates reference quorums |
| Tusk.Consensus.SupportedLeader | consensus/src/lib.rs:120-156 | finds the leader exactly if it is of the even round three below, present, above the last commit and referenced by a third of the stake, and fails exactly if the round of its supporters is missing |
| Tusk.Consensus.CommitSupported | consensus/src/lib.rs:120-170 | exactly when the loop fails; otherwise the newest leader committed is the one so supported, and if there is one it is output with its history |
| Tusk.Consensus.CommitFrom | consensus/src/lib.rs:158-170 | the histories of the past leaders of the walk and of the leader itself are output, oldest first; it fails exactly when the walk does |
| Tusk.Consensus.CommitLeader | consensus/src/lib.rs:161-170 | one leader's history is output, each certificate once and parents before children, and the state records it |
| Tusk.Consensus.Insert | consensus/src/lib.rs:112-117 | the certificate is filed and the invariant kept |
| Tusk.Consensus.CommitLeaders | consensus/src/lib.rs:161-170 | for every linked leader, oldest first, exactly the certificates drawn from it and not garbage collected are output, parents before children, from the state that the leaders before left |
| Tusk.Consensus.CommitAll | consensus/src/lib.rs:161-170 | committing a flattened sub-DAG keeps the invariant |
| Tusk.Consensus.Process | consensus/src/lib.rs:104-200 | if every round and author is delivered at most once, none is output twice; exactly when it fails; otherwise, output grows if and only if a leader of an even round three below is backed by a third of the stake, and then by its history and those of the past leaders |
| Executor.Committer.ProcessCommitMessage | primary/src/committer.rs:139-328 | for any order and repetition of messages: the executed slots are exactly the longest received prefix, and every lane stands where in-order execution of that prefix leaves it |
| Executor.Committer.Execute | primary/src/committer.rs:171-318 | one slot advances every lane as in-order execution does |
| Executor.Committer.ExecuteLane | primary/src/committer.rs:173-310 | one lane is advanced, or left alone when its proposal is too old; other lanes are unchanged |
| Executor.Committer.Send | primary/src/committer.rs:196-309 | the headers are added to their lane in order |
| Executor.OrderIndependent | primary/src/committer.rs:145-324 | executors that received the same slots agree on executed slots, lane heights and executed headers per lane |
| Executor.ExecutedHeightsOnce | primary/src/committer.rs:172-195 | whatever arrived so far, each lane height up to the executed height was executed exactly once, and none above it |
| Executor.EachHeightOnce | primary/src/committer.rs:172-195 | in-order execution runs each height of a lane up to its executed height exactly once |
| Executor.SegmentHeights | primary/src/synchronizer.rs:439-472 | a segment holds exactly the heights above the stop height up to the tip, each once |
| Executor.SegmentFollowsParents | primary/src/synchronizer.rs:439-472 | a segment is the tip and its ancestors along the parent links, down to the stop height |
| Executor.LaneHeightIsHighest | primary/src/committer.rs:172-195 | in-order execution leaves a lane at the highest tip proposed for it |
| FastPath.OnePathPerPrepare | primary/src/core.rs:1390-1515 | over every interleaving of votes of both kinds, timers and switches of the fast path: never both a Commit and a Confirm, at most two messages, and every QC is for the Prepare with distinct voters of quorum or full stake |
| FastPath.TwoMessagesIffTimerAndCar | primary/src/core.rs:1064-1260 | two messages are sent if and only if the timer caused one and a car vote the other; without car votes at most one is sent |
| FastPath.SecondMessageIff | primary/src/core.rs:1064-1260 | exactly when a message follows an earlier one: a car vote of a new author completes a quorum on the slow path, or the timer finds a waiting quorum while only a car vote was answered |
| FastPath.SecondConfirm | primary/src/core.rs:1064-1260 | four members, three votes, the timer and a car vote make the leader send two Confirms |
| FastPath.LoopbackDoesNothing | primary/src/core.rs:1030-1036 | no loopback handed to `process_vote` changes anything: the loop body is never reached for one |
| FastPath.SilentCarTimer | primary/src/core.rs:1146-1164 | three car votes of four members announce a quorum, and the expiry of the timer they start sends nothing |
| FastPath.FallbackIffAnnouncedByVote | primary/src/core.rs:1146-1164 | a first quorum announced by a vote on its own is confirmed by its timer; announced by a car vote it waits for the full stake |
| FastPath.WaitingStep | primary/src/core.rs:1064-1260 | an instance that waits sends one Commit if a step completes the full stake, and otherwise sends nothing and waits on |
| FastPath.WaitingUntilFullStake | primary/src/core.rs:1064-1260 | over every run without a switch it sends a message if and only if the full stake votes |
| FastPath.SlowPathConfirmsIffQuorum | primary/src/core.rs:1390-1515 | without the fast path, for votes of either kind in any order and with repetitions: one Confirm once the distinct members that voted hold a quorum, and nothing otherwise |
| FastPath.FastPathCommitsIffFullStake | primary/src/core.rs:1390-1515 | with the fast path and before a timer expires: one Commit once the distinct members that voted hold the full stake, and nothing otherwise |
| FastPath.VoteSends | primary/src/core.rs:1390-1515 | a vote on its own is answered exactly if it completes the threshold of the current path and nothing was sent before |
| FastPath.CarVoteSends | primary/src/core.rs:1064-1260 | a car vote is answered exactly if it completes the threshold, whatever was sent before |
| FastPath.TimerSends | primary/src/core.rs:1390-1515 | the expired timer confirms exactly if a quorum waits and no vote on its own was answered |
| FastPath.AppendedReturns | primary/src/aggregators.rs:109-167 | a known author is refused, and a QC comes out exactly when a new author completes the threshold of the current path |
| FastPath.CompletedIsOk | primary/src/aggregators.rs:109-167 | a QC's voters are distinct and hold a quorum, on the fast path the full stake, and no vote was spent before |
| FastPath.NoSecondQC | primary/src/aggregators.rs:123-156 | after the weight was reset no vote completes a threshold again |
| FastPath.QCMaker.Append | primary/src/aggregators.rs:109-141 | implements the specification of counting a vote, including a repeated author |
| FastPath.QCMaker.CheckFastQC | primary/src/aggregators.rs:143-167 | implements the fast check: full stake yields the QC, the first quorum is announced once |
| FastPath.QCMaker.GetQC | primary/src/aggregators.rs:169-185 | the waiting slow QC, nothing after a fast QC, an error when no quorum is waiting |
| FastPath.PrepareInstance.ProcessConsensusVote | primary/src/core.rs:1390-1515 | implements the answer to a vote on its own, and fails exactly for a repeated author |
| FastPath.PrepareInstance.ProcessLoopback | primary/src/core.rs:1390-1515 | implements the expiry of the timer |
| FastPath.PrepareInstance.ProcessVote | primary/src/core.rs:1030-1260 | implements the answer to a car vote, including the early return, and fails exactly for a repeated author of a vote that is counted |
| FastPath.PrepareInstance.CountCarVote | primary/src/core.rs:1087-1260 | implements the loop body for a vote and for a loopback |
| ParamEpochs.UpdatesApplyInOrderOncePerEpoch | primary/src/core.rs:4069-4170 | over every interleaving of signals and commits, pending updates apply in strictly growing epoch order and only at slot epoch * `epoch_slots` + `applied_begin` |
| ParamEpochs.AppliedExactlyAtItsSlot | primary/src/core.rs:2739-2775 | a commit applies the pending update if and only if it is of that slot |
| ParamEpochs.AppliedCarriesSignalledValues | primary/src/core.rs:2739-2775 | over every run, an applied update carries the content that the file had at the signal since which it pends, whatever the file holds at the commit; the file is read again only if it could not be read then |
| ParamEpochs.PendingCarriesFile | primary/src/core.rs:4052-4061 | a pending update was made to pend by a signal for its epoch, has pended ever since, and holds the file's content of that moment |
| ParamEpochs.CommitApplies | primary/src/core.rs:2739-2775 | what a commit applies is the pending update, of which nothing is left |
| ParamEpochs.AppliedMovesExpectation | primary/src/core.rs:2739-2775 | after an update signalled ahead of its epoch, a signal without an epoch counts for the next one; after one signalled within its epoch the expectation has only moved by one |
| ParamEpochs.RunHasNoLeftovers | primary/src/core.rs:4103-4117 | values are held only while an update pends: a replaced or applied one leaves none |
| ParamEpochs.SignalEffect | primary/src/core.rs:4069-4170 | a stale signal changes nothing; any other replaces what pends, by its own update if its slot is still to come and by nothing otherwise, and an epoch whose slot was passed is stale from then on |
| ParamEpochs.SignalsActAtOnceIffImmediate | primary/src/core.rs:4089-4093 | where one of the two settings is 0 every signal applies the file at once, in order; elsewhere none does |
| ParamEpochs.LastCommittedIsHighest | primary/src/core.rs:2681 | the last committed slot is the highest committed so far, in whatever order slots commit |
| ParamEpochs.OtherConfigurationsNeverApply | primary/src/core.rs:2739-2775 | outside 1 <= `applied_begin` <= `epoch_slots` no run applies a pending update, and with immediate signals none pends |
| ParamEpochs.SomeRunAppliesIffDeferred | primary/src/core.rs:2739-2775 | some run applies a pending update if and only if 1 <= `applied_begin` <= `epoch_slots` |
| ParamEpochs.UpdatesGetStuckIff | primary/src/core.rs:4069-4170 | updates can pend where none is ever applied if and only if 1 <= `epoch_slots` < `applied_begin` |
| ParamEpochs.StuckUpdatePendsForEver | primary/src/core.rs:2739-2775 | in those configurations a signalled update still pends, with its values, after any commits |
| ParamEpochs.SlotOfEpoch | primary/src/core.rs:4172-4186 | index and position of a slot single out one slot of each epoch |
| ParamEpochs.SignalPends | primary/src/core.rs:4121-4167 | a signal makes an update pending only if its slot has not been passed |
| ParamEpochs.ParamUpdater.HandleParamUpdateSignal | primary/src/core.rs:4069-4170 | does what `ParamEpochs.SignalEffect` states |
| ParamEpochs.ParamUpdater.CapturePendingParameters | primary/src/core.rs:4052-4061 | values are captured once |
| ParamEpochs.ParamUpdater.ProcessCommit | primary/src/core.rs:2739-2775 | applies what `ParamEpochs.AppliedCarriesSignalledValues` states at the slot that `ParamEpochs.AppliedExactlyAtItsSlot` states |
| Retransmission.NothingIsLostOrReordered | network/src/reliable_sender.rs:139-247 | pending replies, buffer and channel together hold exactly the submitted messages neither acknowledged nor dropped, in order; only cancelled messages are dropped |
| Retransmission.AcknowledgementsFollowSubmissions | network/src/reliable_sender.rs:211-219 | messages are acknowledged at most once and in the order of submission |
| Retransmission.RepliesMatchTheStream | network/src/reliable_sender.rs:185-247 | after k good replies since the connection was last lost, exactly the first k messages of the stream are acknowledged and its others wait; the replies accepted in all are as many as the messages acknowledged |
| Retransmission.ReplyEndsStreamIff | network/src/reliable_sender.rs:217-237 | a reply ends the stream exactly if it is bad or every message of the stream was answered before, and then acknowledges nothing |
| Retransmission.EveryRunCanBeFinished | network/src/reliable_sender.rs:139-247 | no message gets stuck: from every reachable state a connection that works and a peer that answers lead to a state in which every message that was not cancelled is acknowledged |
| Retransmission.TransmitAllEnds | network/src/reliable_sender.rs:192-212 | the loop over the buffer ends with an empty buffer or a failed write |
| Retransmission.TransmitAllWrites | network/src/reliable_sender.rs:192-212 | if no write fails, everything in the buffer that is not cancelled is on the stream, in order, and waits for its reply |
| Retransmission.DelayDoublesUpToAMaximum | network/src/reliable_sender.rs:140-175 | the delay after n failed attempts is 200 * 2^n, at most 60000 |
| Retransmission.StepConserves | network/src/reliable_sender.rs:139-247 | every step keeps the queues conserved |
| Retransmission.TransmitAllIsAPath | network/src/reliable_sender.rs:192-212 | the loop over the buffer is a run of single steps with cancellations in between |
| Retransmission.Connection.TransmitBuffer | network/src/reliable_sender.rs:192-212 | messages are written in order, cancelled ones skipped, until one fails |
| Retransmission.Connection.TearDown | network/src/reliable_sender.rs:241-246 | the loop puts unacknowledged messages back before the buffer in their order |
| Retransmission.Connection.Connect | network/src/reliable_sender.rs:146-152 | a new connection resets the delay and the count of attempts |
| Retransmission.Connection.Retry | network/src/reliable_sender.rs:162-166 | the delay doubles up to its maximum |
| Retransmission.Connection.DrainChannel | network/src/reliable_sender.rs:168-173 | one message moves to the buffer, in which no cancelled message is left |
| Retransmission.Connection.HandleResponse | network/src/reliable_sender.rs:217-237 | a good reply acknowledges the oldest pending message, as `Retransmission.RepliesMatchTheStream` counts; a failure or an unexpected reply ends the stream |
| Median.RobustIffMinority | primary/src/core.rs:4774-4786 | the median is sure to lie between honest samples if and only if fewer than half of the samples are faulty |
| Median.MinorityCannotMoveMedian | primary/src/core.rs:4549-4554 | for any samples, odd or even in number |
| Median.HalfCanMoveMedian | primary/src/core.rs:4774-4786 | with half of the samples faulty there are values that move the median below all honest ones |
| Median.MedianSplits | primary/src/core.rs:4774-4786 | at least half of the samples are at or below the median, more than half at or above it |
| Median.Compute | primary/src/core.rs:4774-4786 | sorts in place and returns the lower median, nothing for no samples |

## Left out

- Cryptography and serialization: digests are injective terms and honest signatures cannot be forged; both are hypotheses of the model.
- Integer widths: rounds, slots, heights and stakes are unbounded, so overflow and saturation are not modelled.
- Timers, network addresses, channels that are full, store errors and log output of the HotStuff engine: an error that the engine only logs leaves the state as the specification says.
- Crash recovery: a restarted replica has lost its voting state in the code, and no restart is modelled.
- Liveness and real time: that a quorum of votes or timeouts moves a replica on and that no message gets stuck in a connection is proved, that messages arrive is not.
- The payload of a block: the verdict of the mempool driver is an input of the proposal event.
- The proposer and the synchronizer tasks: any request sent to the proposer and any suspended block may be used, any number of times and in any order, which covers their schedules. Requests to other nodes and their expiry are not modelled.
- Aggregators: makers are values in the maps of the aggregator; the ownership of boxes is not modelled.
- Tusk.Consensus.OrderLeaders: agreement of different nodes on the sequence of leaders is not claimed, because the past leaders it finds depend on each node's last commit (see Findings).
- Tusk.Consensus.Process: a certificate of round 0 from the network is excluded, since genesis is known and the round would be decremented below zero.
- hotstuff/src/committer.rs repeats the flattening of consensus/src/lib.rs and is not modelled again.
- Executor.Committer.ProcessCommitMessage: proposals name known lanes only, as the code assumes with `unwrap`; the interleaving of lanes within one slot depends on a hash map and is left open; heights are those of the chain of parents, and validation of headers is not part of this model.
- FastPath.OnePathPerPrepare: covers the Prepare of one instance for the life of its QC maker; makers of Confirm instances, the dissemination certificate of a car, signatures of votes and failures to send are not modelled, and the values of `is_loopback` are separate methods.
- ParamEpochs: the content of the parameters file is an input, and what an applied update changes is left out; so are signal files and the metrics trigger.
- Retransmission: messages are identified by their handler; the limit of the channel and the time between attempts are not modelled.
- Median.Compute: samples are real numbers; values that are not finite are filtered before the call in the code, and the library sort is specified instead of implemented.
- Safety of the multi-slot protocol in `primary/` beyond the parts above: winning proposals, views and lane synchronization are not part of this model.
- The bound on parallel slots and `clean_slot_periods`: the code itself treats the bound as a heuristic, and the cleanup call is never awaited, so it has no effect.
- Clients, benchmarks, scripts, simulated asynchrony and metrics.
