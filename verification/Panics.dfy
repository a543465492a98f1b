/** When exactly an honest replica panics, and when it is sure not to: never on a missing ancestor, and
    on an empty TC only if it was handed one while leading the round that the TC opens. */
module Panics {
  import opened Wrappers
  import opened Committees
  import opened Messages
  import opened Aggregators
  import opened Evidence
  import opened Blocks
  import opened Delivery
  import opened Replicas
  import opened Invariants
  import opened Protocol

  predicate HasVotes(tc: Option<TC>)
  {
    tc.Some? ==> tc.value.votes != []
  }

  /** No TC that this replica holds is empty, and it has not panicked on one. */
  predicate Calm(r: Replica)
  {
    && r.fault != Some(EmptyTC)
    && (forall p | p in r.proposals :: HasVotes(p.tc))
    && (forall b | b in r.ownBlocks :: HasVotes(b.tc))
    && (forall b | b in r.suspended :: HasVotes(b.tc))
    && (forall d | d in r.store :: HasVotes(r.store[d].tc))
  }

  lemma ProcessQCCalm(r: Replica, qc: QC)
    requires Calm(r)
    ensures Calm(ProcessQC(r, qc))
  {}

  lemma ProposeIfLeaderCalm(c: Committee, r: Replica, tc: Option<TC>)
    requires c.authorities != [] && Calm(r) && HasVotes(tc)
    ensures Calm(ProposeIfLeader(c, r, tc))
  {}

  lemma HandleVoteCalm(c: Committee, r: Replica, vote: Vote)
    requires c.authorities != [] && Calm(r)
    ensures Calm(HandleVote(c, r, vote))
  {
    var (makers, added) := WithVote(c, r.makers, vote);
    if added.Ok? && added.value.Some? {
      var qc := added.value.value;
      ProposeIfLeaderCalm(c, ProcessQC(r.(makers := makers), qc).(qcs := r.qcs + [qc]), None);
    }
  }

  /** A TC that a maker hands out holds the vote that completed it. */
  lemma AssembledTCHasVotes(c: Committee, a: Makers, timeout: Timeout)
    ensures var added := WithTimeout(c, a, timeout).1; added.Ok? ==> HasVotes(added.value)
  {}

  lemma CollectTimeoutCalm(c: Committee, r: Replica, timeout: Timeout)
    requires c.authorities != [] && Calm(r)
    ensures Calm(CollectTimeout(c, r, timeout))
  {
    AssembledTCHasVotes(c, r.makers, timeout);
    var (makers, added) := WithTimeout(c, r.makers, timeout);
    if added.Ok? && added.value.Some? {
      var tc := added.value.value;
      ProposeIfLeaderCalm(c, AdvanceRound(r.(makers := makers), tc.round).(tcs := r.tcs + [tc]), Some(tc));
    }
  }

  lemma HandleTimeoutCalm(c: Committee, r: Replica, timeout: Timeout)
    requires c.authorities != [] && Calm(r)
    ensures Calm(HandleTimeout(c, r, timeout))
  {
    hide Calm;
    ProcessQCCalm(r, timeout.highQc);
    CollectTimeoutCalm(c, ProcessQC(r, timeout.highQc), timeout);
  }

  /** An empty TC does no harm to a replica that does not lead the round it moves to. */
  predicate Harmless(c: Committee, r: Replica, tc: TC)
    requires c.authorities != []
  {
    tc.votes != [] || r.name != c.Leader(AdvanceRound(r, tc.round).round)
  }

  /** The guard a caller of `handle_tc` has to check, and no more: without it the replica is left with
      a request for a block on an empty TC. */
  lemma HandleTCCalmIff(c: Committee, r: Replica, tc: TC)
    requires c.authorities != [] && Calm(r)
    ensures Calm(HandleTC(c, r, tc)) <==> Harmless(c, r, tc)
  {
    var r1 := AdvanceRound(r, tc.round);
    SameHoldingsCalm(r, r1);
    if r.name == c.Leader(r1.round) {
      var p := ProposerMessage(r1.round, r1.highQc, Some(tc));
      assert p in HandleTC(c, r, tc).proposals;
      if tc.votes != [] {
        ProposeIfLeaderCalm(c, r1, Some(tc));
      } else {
        assert !HasVotes(p.tc);
      }
    }
  }

  lemma VoteForCalm(c: Committee, r: Replica, block: Block)
    requires c.authorities != [] && Calm(r) && HasVotes(block.tc)
    ensures Calm(VoteFor(c, r, block))
  {
    var (r1, vote) := MakeVote(r, block);
    if vote.Some? {
      HandleVoteCalm(c, r1, vote.value);
    }
  }

  lemma StoreAndCommitCalm(r: Replica, block: Block, b0: Block, b1: Block)
    requires Calm(r) && HasVotes(block.tc)
    ensures Calm(StoreAndCommit(r, block, b0, b1))
  {
    StoreBlockCalm(r, block);
    CommitCalm(StoreBlock(r, block), b0);
  }

  lemma StoreBlockCalm(r: Replica, block: Block)
    requires Calm(r) && HasVotes(block.tc)
    ensures Calm(StoreBlock(r, block))
  {}

  lemma CommitCalm(r: Replica, block: Block)
    requires Calm(r)
    ensures Calm(Commit(r, block))
  {}

  lemma ProcessBlockCalm(c: Committee, r: Replica, block: Block)
    requires c.authorities != [] && Calm(r) && HasVotes(block.tc)
    ensures Calm(ProcessBlock(c, r, block))
  {
    var b1 := ParentBlock(r.store, block);
    var b0 := if b1.Some? then ParentBlock(r.store, b1.value) else None;
    if b0.Some? {
      StoreAndCommitCalm(r, block, b0.value, b1.value);
      VoteForCalm(c, StoreAndCommit(r, block, b0.value, b1.value), block);
    }
  }

  lemma AdoptCertificatesCalm(r: Replica, block: Block)
    requires Calm(r)
    ensures Calm(AdoptCertificates(r, block))
  {
    hide Calm;
    SameHoldingsCalm(r, AdoptCertificates(r, block));
  }

  lemma SameHoldingsCalm(r: Replica, r': Replica)
    requires Calm(r) && r'.fault == r.fault && r'.proposals == r.proposals && r'.ownBlocks == r.ownBlocks
    requires r'.suspended == r.suspended && r'.store == r.store
    ensures Calm(r')
  {}

  lemma HandleProposalCalm(c: Committee, r: Replica, block: Block, payloadOk: bool)
    requires c.authorities != [] && Calm(r)
    ensures Calm(HandleProposal(c, r, block, payloadOk))
  {
    hide Calm;
    if block.Verifies(c) {
      if block.tc.Some? {
        VerifiedTCNotEmpty(c, block.tc.value);
      }
      AdoptCertificatesCalm(r, block);
      ProcessBlockCalm(c, AdoptCertificates(r, block), block);
    }
  }

  /** What the callers of `handle_tc` have to see to. */
  predicate Supplied(c: Committee, r: Replica, event: Event)
    requires c.authorities != []
  {
    event.ReceiveTC? ==> Harmless(c, r, event.tc)
  }

  lemma HandleCalm(c: Committee, r: Replica, event: Event)
    requires c.authorities != [] && Calm(r) && Possible(r, event) && Supplied(c, r, event)
    ensures Calm(Handle(c, r, event))
  {
    match event
    case Propose(block, payloadOk) => HandleProposalCalm(c, r, block, payloadOk);
    case ReceiveVote(vote) => HandleVoteCalm(c, r, vote);
    case ReceiveTimeout(timeout) => HandleTimeoutCalm(c, r, timeout);
    case ReceiveTC(tc) => HandleTCCalmIff(c, r, tc);
    case Timer => HandleTimeoutCalm(c, SignTimeout(r), SignedTimeoutOf(r));
    case MakeProposal(message, payload) =>
    case Loopback(own) => ProcessBlockCalm(c, r, own);
    case Resume(waiting) => ProcessBlockCalm(c, r, waiting);
  }

  ghost predicate SuppliedNext(c: Committee, s: System, s': System)
    requires c.authorities != []
  {
    exists h, event :: Step(c, s, s', h, event) && Supplied(c, s[h], event)
  }

  ghost predicate AllCalm(s: System)
  {
    forall h | h in s :: Calm(s[h])
  }

  lemma NextCalm(c: Committee, s: System, s': System)
    requires c.authorities != [] && SuppliedNext(c, s, s') && AllCalm(s)
    ensures AllCalm(s')
  {
    var h, event :| Step(c, s, s', h, event) && Supplied(c, s[h], event);
    HandleCalm(c, s[h], event);
  }

  ghost predicate SuppliedRun(c: Committee, run: seq<System>)
    requires c.authorities != []
  {
    forall i, j | 0 <= i && j == i + 1 < |run| :: SuppliedNext(c, run[i], run[j])
  }

  lemma {:induction false} SuppliedRunCalm(c: Committee, run: seq<System>, i: nat)
    requires c.authorities != [] && i < |run| && SuppliedRun(c, run) && AllCalm(run[0])
    ensures AllCalm(run[i])
  {
    if i > 0 {
      SuppliedRunCalm(c, run, i - 1);
      NextCalm(c, run[i - 1], run[i]);
    }
  }

  /** If no leader of the round a TC opens is handed an empty one, no honest replica ever panics. */
  lemma NoReplicaPanics(c: Committee, honest: set<PublicKey>, run: seq<System>, i: nat, h: PublicKey)
    requires IsRun(c, honest, run) && SuppliedRun(c, run)
    requires i < |run| && h in run[i]
    ensures run[i][h].fault == None
  {
    ReplicaBookkeeping(c, honest, run, i, h);
    BootsCalm(c, honest, run[0]);
    SuppliedRunCalm(c, run, i);
    assert Calm(run[i][h]);
    NoFaultLeft(run[i][h].fault);
  }

  lemma NoFaultLeft(fault: Option<Fault>)
    requires fault != Some(EmptyTC) && fault != Some(MissingAncestor)
    ensures fault == None
  {
    match fault
    case None =>
    case Some(EmptyTC) =>
    case Some(MissingAncestor) =>
  }

  lemma BootsCalm(c: Committee, honest: set<PublicKey>, s: System)
    requires c.authorities != [] && Init(c, honest, s)
    ensures AllCalm(s)
  {}

  // ---- The step that panics ----

  /** The block is on an empty TC, has the replica's round, and its parent is at hand. */
  predicate VotesOnEmptyTC(r: Replica, block: Block)
  {
    && block.tc.Some? && block.tc.value.votes == []
    && block.round == r.round && ParentBlock(r.store, block).Some?
  }

  lemma VoteForFault(c: Committee, r: Replica, block: Block)
    requires c.authorities != [] && r.fault.None?
    ensures VoteFor(c, r, block).fault
         == if block.tc.Some? && block.tc.value.votes == [] then Some(EmptyTC) else None
  {
    var (r1, vote) := MakeVote(r, block);
    if vote.Some? {
      HandleVoteKeepsFault(c, r1, vote.value);
    }
  }

  lemma HandleVoteKeepsFault(c: Committee, r: Replica, vote: Vote)
    requires c.authorities != []
    ensures HandleVote(c, r, vote).fault == r.fault
  {}

  /** Exactly when processing a block panics. */
  lemma ProcessBlockPanicsIff(c: Committee, e: Evidence, r: Replica, block: Block)
    requires Good(c, e, r) && r.fault.None? && BlockOk(c, e, r, block)
    ensures ProcessBlock(c, r, block).fault == if VotesOnEmptyTC(r, block) then Some(EmptyTC) else None
  {
    hide StateOk, InboxOk, LogOk, MakersOk, AssembledOk, EvidenceOk;
    var b1 := ParentBlock(r.store, block);
    if b1.Some? {
      GrandparentIsStored(c, e, r.store, block);
      var b0 := ParentBlock(r.store, b1.value);
      var r1 := StoreAndCommit(r, block, b0.value, b1.value);
      StoreAndCommitGood(c, e, r, block, b0.value, b1.value);
      CommitKeepsBlockOk(c, e, r, block, b0.value, b1.value);
      VoteForFault(c, r1, block);
    }
  }

  /** The blocks that reach `process_block` without having been verified. */
  predicate PanicsOn(r: Replica, event: Event)
  {
    match event
    case Loopback(own) => VotesOnEmptyTC(r, own)
    case Resume(waiting) => VotesOnEmptyTC(r, waiting)
    case _ => false
  }

  /** Exactly when a step panics, whatever the event: only when the replica is about to vote on a
      block with an empty TC that it did not verify, its own. */
  lemma HandlePanicsIff(c: Committee, e: Evidence, r: Replica, event: Event)
    requires Good(c, e, r) && Possible(r, event) && Deliverable(e, event)
    ensures Handle(c, r, event).fault == if PanicsOn(r, event) then Some(EmptyTC) else None
  {
    match event
    case Propose(block, payloadOk) => HandleProposalFault(c, e, r, block, payloadOk);
    case ReceiveVote(vote) => HandleVoteKeepsFault(c, r, vote);
    case ReceiveTimeout(timeout) => HandleTimeoutKeepsFault(c, r, timeout);
    case ReceiveTC(tc) =>
    case Timer => HandleTimeoutKeepsFault(c, SignTimeout(r), SignedTimeoutOf(r));
    case MakeProposal(message, payload) =>
    case Loopback(own) => LoopbackBlockOk(c, e, r, own); ProcessBlockPanicsIff(c, e, r, own);
    case Resume(waiting) => ProcessBlockPanicsIff(c, e, r, waiting);
  }

  lemma LoopbackBlockOk(c: Committee, e: Evidence, r: Replica, own: Block)
    requires Good(c, e, r) && own in r.ownBlocks
    ensures BlockOk(c, e, r, own)
  {
    assert RequestOk(c, e, r, own.round, own.qc);
  }

  lemma HandleTimeoutKeepsFault(c: Committee, r: Replica, timeout: Timeout)
    requires c.authorities != []
    ensures HandleTimeout(c, r, timeout).fault == r.fault
  {}

  lemma HandleProposalFault(c: Committee, e: Evidence, r: Replica, block: Block, payloadOk: bool)
    requires Good(c, e, r) && r.fault.None? && GenuineBlock(e, block)
    ensures HandleProposal(c, r, block, payloadOk).fault.None?
  {
    if block.Verifies(c) {
      if block.tc.Some? {
        VerifiedTCNotEmpty(c, block.tc.value);
      }
      VerifiedBlockCertificates(c, e, block);
      AdoptCertificatesGood(c, e, r, block);
      AdoptedKeepsFault(r, block);
      ProcessBlockPanicsIff(c, e, AdoptCertificates(r, block), block);
    }
    HandleProposalIs(c, r, block, payloadOk);
  }

  lemma AdoptedKeepsFault(r: Replica, block: Block)
    ensures AdoptCertificates(r, block).fault == r.fault
  {}

  /** Over whole runs: a step of an honest replica panics exactly as stated. */
  lemma PanicsExactlyOnEmptyTC(
    c: Committee, honest: set<PublicKey>, run: seq<System>, i: nat, h: PublicKey, event: Event)
    requires IsRun(c, honest, run) && i + 1 < |run| && Step(c, run[i], run[i + 1], h, event)
    ensures run[i + 1][h].fault == if PanicsOn(run[i][h], event) then Some(EmptyTC) else None
  {
    RunIsOk(c, honest, run, i);
    HandlePanicsIff(c, SignedIn(run[i]), run[i][h], event);
  }

  /** The guard is needed: a replica that is handed an empty TC for a round it leads panics on the block
      it then makes, provided it holds the block of its newest QC; otherwise that block waits. */
  lemma HarmfulTCPanicsIffParentStored(
    c: Committee, e: Evidence, r: Replica, tc: TC, payload: seq<Certificate>)
    requires Good(c, e, r) && r.fault.None? && !Harmless(c, r, tc)
    ensures var r1 := HandleTC(c, r, tc);
            var p := ProposerMessage(r1.round, r1.highQc, Some(tc));
            var r2 := MakeBlock(r1, p, payload);
            var own := ProposedBlock(r.name, p, payload);
            && Possible(r1, MakeProposal(p, payload)) && Possible(r2, Loopback(own))
            && (ProcessBlock(c, r2, own).fault == Some(EmptyTC) <==>
                  r.highQc.IsGenesis() || r.highQc.hash in r.store)
  {
    hide StateOk, InboxOk, StoreOk, LogOk, MakersOk, AssembledOk, EvidenceOk;
    var r1 := HandleTC(c, r, tc);
    var p := ProposerMessage(r1.round, r1.highQc, Some(tc));
    var r2 := MakeBlock(r1, p, payload);
    var own := ProposedBlock(r.name, p, payload);
    TCStepGood(c, e, r, tc);
    MakeBlockStepGood(c, Updated(e, r1), r1, p, payload);
    LoopbackBlockOk(c, Updated(Updated(e, r1), r2), r2, own);
    ProcessBlockPanicsIff(c, Updated(Updated(e, r1), r2), r2, own);
  }
}
