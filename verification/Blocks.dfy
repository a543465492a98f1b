/** Processing a block keeps the invariants: storing, committing and voting. */
module Blocks {
  import opened Wrappers
  import opened Committees
  import opened Messages
  import opened Evidence
  import opened Replicas
  import opened Delivery
  import opened Invariants
  import opened Steps
  import opened Signing

  /** The evidence after a step of one replica. */
  function Updated(e: Evidence, r: Replica): Evidence
  {
    e[r.name := r.signed]
  }

  ghost predicate StepGood(c: Committee, e: Evidence, r: Replica, r': Replica)
  {
    && r'.name == r.name
    && Grows(e, Updated(e, r')) && Good(c, Updated(e, r'), r')
  }

  lemma SilentStepGood(c: Committee, e: Evidence, r: Replica, r': Replica)
    requires Good(c, e, r) && Good(c, e, r') && r'.name == r.name
    ensures StepGood(c, e, r, r')
  {
    assert Updated(e, r') == e;
  }

  // ---- Voting ----

  /** A step that signs nothing can follow another one. */
  lemma ThenSilently(c: Committee, e: Evidence, r: Replica, r1: Replica, r2: Replica)
    requires StepGood(c, e, r, r1) && Good(c, Updated(e, r1), r2)
    requires r2.signed == r1.signed && r2.name == r1.name
    ensures StepGood(c, e, r, r2)
  {
  }

  lemma SelfVoteGood(c: Committee, e: Evidence, r: Replica, r1: Replica, vote: Vote)
    requires StepGood(c, e, r, r1)
    requires vote.signature == Signature(r.name, vote.Digest()) && vote.Digest() in r1.signed
    ensures StepGood(c, e, r, HandleVote(c, r1, vote))
  {
    HandleVoteGood(c, Updated(e, r1), r1, vote);
    HandleVoteSignsNothing(c, r1, vote);
    ThenSilently(c, e, r, r1, HandleVote(c, r1, vote));
  }

  lemma MadeVoteGood(c: Committee, e: Evidence, r: Replica, block: Block)
    requires Good(c, e, r) && BlockOk(c, e, r, block) && block.round == r.round
    ensures StepGood(c, e, r, MakeVote(r, block).0)
  {
    var (r1, vote) := MakeVote(r, block);
    if vote.Some? {
      SignVoteGood(c, e, r, block);
      MadeVoteIsRecorded(e, r, block);
      GrownStepGood(c, e, r, r1);
    } else {
      NoVoteGood(c, e, r, r1);
      SilentStepGood(c, e, r, r1);
    }
  }

  lemma MadeVoteIsRecorded(e: Evidence, r: Replica, block: Block)
    requires MakeVote(r, block).1.Some? && r.name in e && e[r.name] == r.signed
    ensures MakeVote(r, block).0.name == r.name
    ensures Updated(e, MakeVote(r, block).0) == Record(e, r.name, VoteDigest(block.Digest(), block.round))
  {
  }

  lemma GrownStepGood(c: Committee, e: Evidence, r: Replica, r1: Replica)
    requires r1.name == r.name && Grows(e, Updated(e, r1)) && Good(c, Updated(e, r1), r1)
    ensures StepGood(c, e, r, r1)
  {
  }

  lemma VoteForGood(c: Committee, e: Evidence, r: Replica, block: Block)
    requires Good(c, e, r) && BlockOk(c, e, r, block) && block.round == r.round
    ensures StepGood(c, e, r, VoteFor(c, r, block))
  {
    MadeVoteGood(c, e, r, block);
    if MakeVote(r, block).1.Some? {
      MadeVoteIsSigned(r, block);
      SelfVoteGood(c, e, r, MakeVote(r, block).0, MakeVote(r, block).1.value);
    }
    VoteForIs(c, r, block);
  }

  lemma VoteForIs(c: Committee, r: Replica, block: Block)
    requires c.authorities != []
    ensures var (r1, vote) := MakeVote(r, block);
            VoteFor(c, r, block) == r1 || (vote.Some? && VoteFor(c, r, block) == HandleVote(c, r1, vote.value))
  {
  }

  lemma MadeVoteIsSigned(r: Replica, block: Block)
    requires MakeVote(r, block).1.Some?
    ensures var (r1, vote) := MakeVote(r, block);
            vote.value.signature == Signature(r.name, vote.value.Digest()) && vote.value.Digest() in r1.signed
  {
  }

  lemma HandleVoteSignsNothing(c: Committee, r: Replica, vote: Vote)
    requires c.authorities != []
    ensures HandleVote(c, r, vote).signed == r.signed && HandleVote(c, r, vote).name == r.name
  {
  }

  lemma NoVoteGood(c: Committee, e: Evidence, r: Replica, r': Replica)
    requires Good(c, e, r)
    requires r' == r || r' == r.(fault := Some(EmptyTC))
    ensures Good(c, e, r')
  {
    InboxKept(c, e, r, r');
  }

  // ---- Storing ----

  lemma SuspendGood(c: Committee, e: Evidence, r: Replica, block: Block)
    requires Good(c, e, r) && BlockOk(c, e, r, block)
    ensures Good(c, e, r.(suspended := r.suspended + {block}))
  {
    var r' := r.(suspended := r.suspended + {block});
    InboxKept(c, e, r, r'.(suspended := r.suspended));
    forall b | b in r'.suspended
      ensures BlockOk(c, e, r', b)
    {
      assert BlockOk(c, e, r, b);
      if RequestOk(c, e, r, b.round, b.qc) {
        assert RequestOk(c, e, r', b.round, b.qc);
      }
    }
  }

  /** A genuine QC whose block is at hand names a proper parent. */
  lemma FoundParent(c: Committee, e: Evidence, store: Store, block: Block)
    requires EvidenceOk(c, e) && QCOk(c, e, block.qc) && ParentBlock(store, block).Some?
    ensures HasParent(store, block)
  {
    if !block.qc.IsGenesis() {
      CertifiedIsAscending(c, e, block.qc.hash, block.qc.round);
    }
  }

  /** The store stays closed under parents. */
  lemma StoreBlockOk(c: Committee, e: Evidence, store: Store, block: Block)
    requires EvidenceOk(c, e) && StoreOk(c, e, store)
    requires QCOk(c, e, block.qc) && ParentBlock(store, block).Some?
    ensures StoreOk(c, e, store[block.Digest() := block])
    ensures HasParent(store[block.Digest() := block], block)
  {
    FoundParent(c, e, store, block);
    var store': Store := store[block.Digest() := block];
    forall d | d in store'
      ensures QCOk(c, e, store'[d].qc) && HasParent(store', store'[d])
    {
      if d != block.Digest() {
        assert HasParent(store, store[d]);
      }
    }
  }

  lemma StoreReplacedGood(c: Committee, e: Evidence, r: Replica, store: Store)
    requires Good(c, e, r) && StoreOk(c, e, store)
    ensures Good(c, e, r.(store := store))
  {
    InboxKept(c, e, r, r.(store := store));
  }

  /** The second lookup of `get_ancestors` always succeeds. */
  lemma GrandparentIsStored(c: Committee, e: Evidence, store: Store, block: Block)
    requires StoreOk(c, e, store) && ParentBlock(store, block).Some?
    ensures HasParent(store, ParentBlock(store, block).value)
    ensures ParentBlock(store, ParentBlock(store, block).value).Some?
  {
  }

  // ---- Committing ----

  /** The two-chain rule: when `b0` and `b1` have consecutive rounds, the QC of the processed block
      commits `b0`. */
  lemma TwoChainCommits(c: Committee, e: Evidence, store: Store, block: Block)
    requires EvidenceOk(c, e) && StoreOk(c, e, store) && QCOk(c, e, block.qc)
    requires ParentBlock(store, block).Some?
    requires var b1 := ParentBlock(store, block).value;
             var b0 := ParentBlock(store, b1);
             b0.Some? && b0.value.round + 1 == b1.round && b0.value.round > 0
    ensures Committed(c, e, ParentBlock(store, ParentBlock(store, block).value).value.Digest())
  {
    var b1 := ParentBlock(store, block).value;
    var b0 := ParentBlock(store, b1).value;
    CertifiedIsAscending(c, e, block.qc.hash, block.qc.round);
    assert CommittedBy(c, e, b0.Digest(), b1.Digest());
  }

  lemma CommittedGood(c: Committee, e: Evidence, r: Replica, r': Replica)
    requires Good(c, e, r) && LogOk(c, e, r') && r'.fault == r.fault
    requires r' == r.(lastCommittedRound := r'.lastCommittedRound, output := r'.output)
    ensures Good(c, e, r')
  {
    InboxKept(c, e, r, r');
  }

  lemma StoreOkIsClosed(c: Committee, e: Evidence, store: Store)
    requires StoreOk(c, e, store)
    ensures StoreClosed(store)
  {
  }

  lemma CommitGood(c: Committee, e: Evidence, r: Replica, block: Block)
    requires Good(c, e, r) && HasParent(r.store, block)
    requires block.round == 0 || Committed(c, e, block.Digest())
    ensures Good(c, e, Commit(r, block)) && Commit(r, block).fault == r.fault
  {
    if block.round > 0 {
      StoreOkIsClosed(c, e, r.store);
      CommitKeepsLog(c, e, r, block);
      CommittedGood(c, e, r, Commit(r, block));
    }
  }

  // ---- The whole of process_block ----

  lemma StoreAndCommitGood(c: Committee, e: Evidence, r: Replica, block: Block, b0: Block, b1: Block)
    requires Good(c, e, r) && QCOk(c, e, block.qc)
    requires ParentBlock(r.store, block) == Some(b1) && ParentBlock(r.store, b1) == Some(b0)
    ensures Good(c, e, StoreAndCommit(r, block, b0, b1))
    ensures StoreAndCommit(r, block, b0, b1).fault == r.fault
  {
    var r1 := StoreBlock(r, block);
    StoreBlockOk(c, e, r.store, block);
    StoreReplacedGood(c, e, r, r1.store);
    if b0.round + 1 == b1.round {
      if b0.round > 0 {
        TwoChainCommits(c, e, r.store, block);
      }
      GrandparentIsStored(c, e, r.store, b1);
      CommitGood(c, e, r1, b0);
    }
  }

  lemma CommitKeepsBlockOk(c: Committee, e: Evidence, r: Replica, block: Block, b0: Block, b1: Block)
    requires BlockOk(c, e, r, block)
    ensures BlockOk(c, e, StoreAndCommit(r, block, b0, b1), block)
    ensures StoreAndCommit(r, block, b0, b1).round == r.round
    ensures StoreAndCommit(r, block, b0, b1).name == r.name
  {
    var r' := StoreAndCommit(r, block, b0, b1);
    if RequestOk(c, e, r, block.round, block.qc) {
      assert RequestOk(c, e, r', block.round, block.qc);
    }
  }

  /** Processing a block never reaches the `expect` on missing ancestors, and keeps the replica good. */
  lemma ProcessBlockGood(c: Committee, e: Evidence, r: Replica, block: Block)
    requires Good(c, e, r) && BlockOk(c, e, r, block)
    ensures StepGood(c, e, r, ProcessBlock(c, r, block))
  {
    var b1 := ParentBlock(r.store, block);
    if b1.None? {
      SuspendGood(c, e, r, block);
      SilentStepGood(c, e, r, ProcessBlock(c, r, block));
    } else {
      GrandparentIsStored(c, e, r.store, block);
      var b0 := ParentBlock(r.store, b1.value);
      var r2 := StoreAndCommit(r, block, b0.value, b1.value);
      StoreAndCommitGood(c, e, r, block, b0.value, b1.value);
      CommitKeepsBlockOk(c, e, r, block, b0.value, b1.value);
      if r2.fault.Some? || block.round != r2.round {
        assert ProcessBlock(c, r, block) == r2;
        SilentStepGood(c, e, r, r2);
      } else {
        assert ProcessBlock(c, r, block) == VoteFor(c, r2, block);
        VoteForGood(c, e, r2, block);
      }
    }
  }

  // ---- Proposals ----

  lemma AdoptCertificatesGood(c: Committee, e: Evidence, r: Replica, block: Block)
    requires Good(c, e, r) && QCOk(c, e, block.qc)
    requires block.tc.Some? && block.tc.value.votes != [] ==>
               TimedOut(c, e, block.tc.value.round, Max(block.tc.value.HighQcRounds()))
    ensures Good(c, e, AdoptCertificates(r, block))
    ensures BlockOk(c, e, AdoptCertificates(r, block), block)
    ensures AdoptCertificates(r, block).name == r.name
  {
    ProcessQCGood(c, e, r, block.qc);
    if block.tc.Some? {
      AdvanceRoundGood(c, e, ProcessQC(r, block.qc), block.tc.value.round);
    }
  }

  predicate GenuineBlock(e: Evidence, block: Block)
  {
    && Genuine(e, block.signature) && GenuineQC(e, block.qc)
    && (block.tc.Some? ==> GenuineTC(e, block.tc.value))
  }

  lemma VerifiedBlockCertificates(c: Committee, e: Evidence, block: Block)
    requires block.Verifies(c) && GenuineBlock(e, block)
    ensures QCOk(c, e, block.qc)
    ensures block.tc.Some? ==>
              && block.tc.value.votes != []
              && TimedOut(c, e, block.tc.value.round, Max(block.tc.value.HighQcRounds()))
  {
    if !block.qc.IsGenesis() {
      VerifiedQCIsCertified(c, e, block.qc);
    }
    if block.tc.Some? {
      VerifiedTCTimesOut(c, e, block.tc.value);
    }
  }

  lemma AcceptedBlockGood(c: Committee, e: Evidence, r: Replica, block: Block)
    requires Good(c, e, r) && QCOk(c, e, block.qc)
    requires block.tc.Some? && block.tc.value.votes != [] ==>
               TimedOut(c, e, block.tc.value.round, Max(block.tc.value.HighQcRounds()))
    ensures StepGood(c, e, r, AdoptCertificates(r, block))
    ensures StepGood(c, e, r, ProcessBlock(c, AdoptCertificates(r, block), block))
  {
    var r1 := AdoptCertificates(r, block);
    AdoptCertificatesGood(c, e, r, block);
    SilentStepGood(c, e, r, r1);
    ProcessBlockGood(c, e, r1, block);
    SameNameStepGood(c, e, r, r1, ProcessBlock(c, r1, block));
  }

  lemma SameNameStepGood(c: Committee, e: Evidence, r: Replica, r1: Replica, r2: Replica)
    requires r.name == r1.name && StepGood(c, e, r1, r2)
    ensures StepGood(c, e, r, r2)
  {
  }

  lemma HandleProposalGood(c: Committee, e: Evidence, r: Replica, block: Block, payloadOk: bool)
    requires Good(c, e, r) && GenuineBlock(e, block)
    ensures StepGood(c, e, r, HandleProposal(c, r, block, payloadOk))
  {
    if block.author != c.Leader(block.round) || !block.Verifies(c) {
      SilentStepGood(c, e, r, r);
    } else {
      VerifiedBlockCertificates(c, e, block);
      AcceptedBlockGood(c, e, r, block);
    }
  }

  /** What `handle_proposal` comes down to. */
  lemma HandleProposalIs(c: Committee, r: Replica, block: Block, payloadOk: bool)
    requires c.authorities != []
    ensures var r1 := AdoptCertificates(r, block);
            || HandleProposal(c, r, block, payloadOk) in {r, r1}
            || (block.Verifies(c) && HandleProposal(c, r, block, payloadOk) == ProcessBlock(c, r1, block))
  {}
}
