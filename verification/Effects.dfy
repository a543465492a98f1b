/** What the handlers bring about: which messages are accepted, what accepting them does, and that nothing
    that was counted is lost. */
module Effects {
  import opened Wrappers
  import opened Committees
  import opened Messages
  import opened Aggregators
  import opened Replicas
  import opened Delivery
  import opened Evidence
  import opened Invariants
  import opened Blocks
  import opened Protocol
  import opened Progress
  import opened Panics

  // ---- Quorum certificates and timeout certificates move the replica on ----

  /** The round after everything known: the old one, or the one after `round`. */
  lemma AdvanceRoundReaches(r: Replica, round: Round)
    ensures AdvanceRound(r, round).round == MaxRound(r.round, round + 1)
  {}

  lemma ProcessQCReaches(r: Replica, qc: QC)
    ensures var r' := ProcessQC(r, qc);
            && r'.round == MaxRound(r.round, qc.round + 1)
            && r'.highQc == if qc.round > r.highQc.round then qc else r.highQc
  {}

  /** Handing over a TC: the replica is past its round, and if it leads the round it reaches, it asks for a
      block on its newest QC and this TC. */
  lemma TCEffect(c: Committee, r: Replica, tc: TC)
    requires c.authorities != []
    ensures var r' := HandleTC(c, r, tc);
            && r'.round == MaxRound(r.round, tc.round + 1)
            && (r.name == c.Leader(r'.round) ==> ProposerMessage(r'.round, r.highQc, Some(tc)) in r'.proposals)
            && (r.name != c.Leader(r'.round) ==> r'.proposals == r.proposals)
  {}

  /** A timeout that is late or does not verify changes nothing. Any other has its QC adopted, whether or not it
      completes a certificate (see `Counting.HandleTimeoutCounts`). */
  lemma TimeoutEffect(c: Committee, r: Replica, timeout: Timeout)
    requires c.authorities != []
    ensures var r' := HandleTimeout(c, r, timeout);
            if timeout.round < r.round || !timeout.Verifies(c) then r' == r
            else
              && r'.highQc == (if timeout.highQc.round > r.highQc.round then timeout.highQc else r.highQc)
              && r'.round > timeout.highQc.round && r'.round >= r.round
  {
    hide ProcessQC, CollectTimeout;
    if timeout.round >= r.round && timeout.Verifies(c) {
      ProcessQCReaches(r, timeout.highQc);
      CollectTimeoutOnward(c, ProcessQC(r, timeout.highQc), timeout);
      CollectTimeoutKeepsQC(c, ProcessQC(r, timeout.highQc), timeout);
    }
  }

  lemma CollectTimeoutKeepsQC(c: Committee, r: Replica, timeout: Timeout)
    requires c.authorities != []
    ensures CollectTimeout(c, r, timeout).highQc == r.highQc
  {
    hide WithTimeout, CleanedUp;
  }

  /** The local timer: the timeout is signed with the newest QC, votes of the round are given up, and
      the timeout counts for the replica itself. */
  lemma TimerEffect(c: Committee, r: Replica)
    requires c.authorities != []
    ensures var r', timeout := LocalTimeout(c, r), SignedTimeoutOf(r);
            && r'.lastVotedRound >= r.round && r'.signed == r.signed + {TimeoutDigest(r.round, r.highQc.round)}
            && timeout.author == r.name && timeout.round == r.round && timeout.highQc == r.highQc
            && timeout.signature.Verifies(timeout.Digest(), r.name)
            && r' == HandleTimeout(c, SignTimeout(r), timeout)
  {
    HandleTimeoutOnward(c, SignTimeout(r), SignedTimeoutOf(r));
    HandleTimeoutSignsNothing(c, SignTimeout(r), SignedTimeoutOf(r));
  }

  // ---- Proposals ----

  /** The round a replica reaches when it adopts the certificates of a block. */
  function RoundReached(r: Replica, block: Block): Round
  {
    MaxRound(MaxRound(r.round, block.qc.round + 1), if block.tc.Some? then block.tc.value.round + 1 else 0)
  }

  predicate SameBlocks(r: Replica, r': Replica)
  {
    && r'.store == r.store && r'.output == r.output && r'.lastCommittedRound == r.lastCommittedRound
    && r'.suspended == r.suspended && r'.ownBlocks == r.ownBlocks
  }

  /** A step that concerns rounds and certificates only. */
  predicate KeepsRest(r: Replica, r': Replica)
  {
    && SameBlocks(r, r') && r'.name == r.name && r'.fault == r.fault
    && r'.signed == r.signed && r'.lastVotedRound == r.lastVotedRound
  }

  lemma AdoptEffect(r: Replica, block: Block)
    ensures var r' := AdoptCertificates(r, block);
            && r'.round == RoundReached(r, block) && KeepsRest(r, r')
            && r'.highQc == if block.qc.round > r.highQc.round then block.qc else r.highQc
  {
    hide ProcessQC, CleanedUp;
    ProcessQCReaches(r, block.qc);
    ProcessQCKeepsRest(r, block.qc);
  }

  /** The proposals that are taken up: of the leader of their round, and correctly signed and certified. */
  ghost predicate Accepted(c: Committee, block: Block)
    requires c.authorities != []
  {
    block.author == c.Leader(block.round) && block.Verifies(c)
  }

  /** The two ways in which a block may be voted for: it extends a block of the round before, or all timeouts
      of its TC, of the round before, report QCs no newer than its own. */
  predicate Extendable(block: Block)
  {
    || block.qc.round + 1 == block.round
    || (&& block.tc.Some? && block.tc.value.round + 1 == block.round
        && forall v | v in block.tc.value.votes :: v.highQcRound <= block.qc.round)
  }

  lemma MayExtendIff(block: Block)
    requires HasVotes(block.tc)
    ensures MayExtend(block) <==> Extendable(block)
  {
    if block.tc.Some? {
      var tc := block.tc.value;
      forall v | v in tc.votes
        ensures v.highQcRound in tc.HighQcRounds()
      {
        var i :| 0 <= i < |tc.votes| && tc.votes[i] == v;
        assert tc.HighQcRounds()[i] == v.highQcRound;
      }
      var i :| 0 <= i < |tc.votes| && tc.HighQcRounds()[i] == Max(tc.HighQcRounds());
      assert tc.votes[i] in tc.votes;
    }
  }

  /** What the rules ask of a block of the current round: it is above the last vote, and may be extended to. */
  predicate Votable(r: Replica, block: Block)
  {
    block.round > r.lastVotedRound && HasVotes(block.tc) && Extendable(block)
  }

  /** Exactly one new vote is signed, and none of its round or below can follow. */
  ghost predicate Votes(r: Replica, r': Replica, block: Block)
  {
    var digest := VoteDigest(block.Digest(), block.round);
    digest !in r.signed && r'.signed == r.signed + {digest} && r'.lastVotedRound == block.round
  }

  ghost predicate Abstains(r: Replica, r': Replica)
  {
    r'.signed == r.signed && r'.lastVotedRound == r.lastVotedRound
  }

  lemma ProcessQCKeepsRest(r: Replica, qc: QC)
    ensures KeepsRest(r, ProcessQC(r, qc))
  {}

  lemma HandleVoteKeepsRest(c: Committee, r: Replica, vote: Vote)
    requires c.authorities != []
    ensures KeepsRest(r, HandleVote(c, r, vote))
  {
    hide WithVote, ProcessQC;
    var (makers, added) := WithVote(c, r.makers, vote);
    if added.Ok? && added.value.Some? {
      ProcessQCKeepsRest(r.(makers := makers), added.value.value);
    }
  }

  lemma VoteForEffect(c: Committee, r: Replica, block: Block)
    requires c.authorities != []
    requires forall v | v in r.signed && v.VoteDigest? :: v.voteRound <= r.lastVotedRound
    ensures var r' := VoteFor(c, r, block);
            && (if Votable(r, block) then Votes(r, r', block) else Abstains(r, r'))
            && SameBlocks(r, r')
  {
    hide MayExtend, Extendable, HandleVote;
    if HasVotes(block.tc) {
      MayExtendIff(block);
    }
    var (r1, vote) := MakeVote(r, block);
    if vote.Some? {
      HandleVoteKeepsRest(c, r1, vote.value);
    }
  }

  /** Committing a block above the last one delivers up to it. */
  ghost predicate Delivers(r: Replica, r': Replica, block: Block)
  {
    && r'.lastCommittedRound == block.round
    && r.output < r'.output && r'.output[|r'.output| - 1] == block
  }

  lemma CommitEffect(c: Committee, e: Evidence, r: Replica, block: Block)
    requires Good(c, e, r) && HasParent(r.store, block)
    requires block.round == 0 || Committed(c, e, block.Digest())
    ensures var r' := Commit(r, block);
            && (if block.round > r.lastCommittedRound then Delivers(r, r', block) else r' == r)
            && r'.signed == r.signed && r'.lastVotedRound == r.lastVotedRound && r'.store == r.store
            && r'.suspended == r.suspended && r'.ownBlocks == r.ownBlocks && r'.round == r.round
            && r'.fault == r.fault && r'.name == r.name
  {
    hide Walk, MakersOk, InboxOk, StateOk, AssembledOk;
    CommitGood(c, e, r, block);
    if block.round > r.lastCommittedRound {
      var walk := Walk(r.store, r.lastCommittedRound, block);
      if walk.Some? {
        WalkEnds(r.store, r.lastCommittedRound, block);
      } else {
        assert false;
      }
    }
  }

  /** The commit rule: the grandparent is delivered if its round is the one before the parent's and above what
      was delivered so far; nothing is delivered otherwise. */
  predicate CommitsNow(r: Replica, b0: Block, b1: Block)
  {
    b0.round + 1 == b1.round && b0.round > r.lastCommittedRound
  }

  lemma StoreAndCommitEffect(c: Committee, e: Evidence, r: Replica, block: Block, b0: Block, b1: Block)
    requires Good(c, e, r) && QCOk(c, e, block.qc)
    requires ParentBlock(r.store, block) == Some(b1) && ParentBlock(r.store, b1) == Some(b0)
    ensures var r' := StoreAndCommit(r, block, b0, b1);
            && r'.store == r.store[block.Digest() := block]
            && (if CommitsNow(r, b0, b1) then Delivers(r, r', b0)
                else r'.output == r.output && r'.lastCommittedRound == r.lastCommittedRound)
            && r'.signed == r.signed && r'.lastVotedRound == r.lastVotedRound
            && r'.suspended == r.suspended && r'.ownBlocks == r.ownBlocks && r'.round == r.round
            && r'.fault == r.fault && r'.name == r.name
  {
    hide Good, StoreOk, Commit, Delivers;
    var r1 := StoreBlock(r, block);
    StoreBlockKeepsGood(c, e, r, block);
    if b0.round + 1 == b1.round {
      CommittedGrandparent(c, e, r, block, b0, b1);
      CommitEffect(c, e, r1, b0);
      DeliversFromStored(r, r1, StoreAndCommit(r, block, b0, b1), b0);
    }
  }

  lemma DeliversFromStored(r: Replica, r1: Replica, r': Replica, b: Block)
    requires r1.output == r.output
    ensures Delivers(r1, r', b) <==> Delivers(r, r', b)
  {}

  lemma StoreBlockKeepsGood(c: Committee, e: Evidence, r: Replica, block: Block)
    requires Good(c, e, r) && QCOk(c, e, block.qc) && ParentBlock(r.store, block).Some?
    ensures Good(c, e, StoreBlock(r, block))
  {
    hide MakersOk, InboxOk, StateOk, AssembledOk, LogOk;
    StoreBlockOk(c, e, r.store, block);
    StoreReplacedGood(c, e, r, StoreBlock(r, block).store);
  }

  /** The grandparent of a block with consecutive rounds below is committed, and its parent is at hand. */
  lemma CommittedGrandparent(c: Committee, e: Evidence, r: Replica, block: Block, b0: Block, b1: Block)
    requires Good(c, e, r) && QCOk(c, e, block.qc) && b0.round + 1 == b1.round
    requires ParentBlock(r.store, block) == Some(b1) && ParentBlock(r.store, b1) == Some(b0)
    ensures HasParent(StoreBlock(r, block).store, b0)
    ensures b0.round == 0 || Committed(c, e, b0.Digest())
  {
    hide MakersOk, InboxOk, StateOk, AssembledOk, LogOk;
    if b0.round > 0 {
      TwoChainCommits(c, e, r.store, block);
    }
    GrandparentIsStored(c, e, r.store, b1);
  }

  /** What processing a block in round `round` does: without its parent it waits; otherwise it is stored, its
      grandparent is delivered by the commit rule, and it is voted for exactly if it is of that round and
      votable. */
  ghost predicate Processed(r: Replica, r': Replica, block: Block, round: Round)
  {
    var b1 := ParentBlock(r.store, block);
    if b1.None? then
      r'.suspended == r.suspended + {block} && Abstains(r, r') && SameBlocks(r, r'.(suspended := r.suspended))
    else
      var b0 := ParentBlock(r.store, b1.value);
      && b0.Some? && r'.store == r.store[block.Digest() := block] && r'.suspended == r.suspended
      && (if CommitsNow(r, b0.value, b1.value) then Delivers(r, r', b0.value)
          else r'.output == r.output && r'.lastCommittedRound == r.lastCommittedRound)
      && (if block.round == round && Votable(r, block) then Votes(r, r', block) else Abstains(r, r'))
  }

  lemma ProcessBlockEffect(c: Committee, e: Evidence, r: Replica, block: Block)
    requires Good(c, e, r) && r.fault.None? && QCOk(c, e, block.qc)
    ensures Processed(r, ProcessBlock(c, r, block), block, r.round)
  {
    hide VoteFor, StoreAndCommit, Votable, CommitsNow, InboxOk, LogOk, MakersOk, AssembledOk, EvidenceOk;
    var b1 := ParentBlock(r.store, block);
    if b1.Some? {
      GrandparentIsStored(c, e, r.store, block);
      var b0 := ParentBlock(r.store, b1.value);
      var r1 := StoreAndCommit(r, block, b0.value, b1.value);
      StoreAndCommitEffect(c, e, r, block, b0.value, b1.value);
      VoteForEffect(c, r1, block);
      SameVotable(r, r1, block);
    }
  }

  lemma SameVotable(r: Replica, r1: Replica, block: Block)
    requires r1.lastVotedRound == r.lastVotedRound
    ensures Votable(r1, block) <==> Votable(r, block)
  {}

  /** Adopting certificates changes nothing that processing depends on but the round. */
  lemma SameProcessed(r: Replica, r1: Replica, r': Replica, block: Block, round: Round)
    requires KeepsRest(r, r1)
    ensures Processed(r1, r', block, round) <==> Processed(r, r', block, round)
  {
    SameVotable(r, r1, block);
  }

  /** What a proposal does. One that is not accepted changes nothing. An accepted one moves the replica past
      its QC and its TC and makes the newer of the two QCs its `high_qc`, whatever becomes of the block; and if
      the payload is found in order, the block is processed in the round so reached. */
  lemma ProposalEffect(c: Committee, e: Evidence, r: Replica, block: Block, payloadOk: bool)
    requires Good(c, e, r) && r.fault.None? && GenuineBlock(e, block)
    ensures var r' := HandleProposal(c, r, block, payloadOk);
            if !Accepted(c, block) then r' == r
            else
              && r'.round >= RoundReached(r, block) > block.qc.round
              && (block.tc.Some? ==> r'.round > block.tc.value.round)
              && r'.highQc.round >= MaxRound(r.highQc.round, block.qc.round)
              && (if payloadOk then Processed(r, r', block, RoundReached(r, block)) else KeepsRest(r, r'))
  {
    hide ProcessBlock, ReplicaOk, EvidenceOk, Processed, AdoptCertificates;
    if Accepted(c, block) {
      var r1 := AdoptCertificates(r, block);
      AdoptEffect(r, block);
      VerifiedBlockCertificates(c, e, block);
      AdoptCertificatesGood(c, e, r, block);
      ProcessBlockEffect(c, e, r1, block);
      ProcessBlockOnward(c, r1, block);
      SameProcessed(r, r1, HandleProposal(c, r, block, payloadOk), block, r1.round);
    }
  }

  /** Exactly which proposals are voted for, by any honest replica in any reachable state: those of the leader of
      their round that verify, whose payload is in order and whose parent is stored, of exactly the round their
      certificates lead to, above the last vote, and allowed by one of the two rules. */
  lemma ProposalIsVotedForIff(
    c: Committee, honest: set<PublicKey>, run: seq<System>, i: nat, h: PublicKey, block: Block, payloadOk: bool)
    requires IsRun(c, honest, run) && i + 1 < |run|
    requires Step(c, run[i], run[i + 1], h, Propose(block, payloadOk))
    ensures var r, r', digest := run[i][h], run[i + 1][h], VoteDigest(block.Digest(), block.round);
            && (digest in r'.signed && digest !in r.signed <==>
                  && Accepted(c, block) && payloadOk && ParentBlock(r.store, block).Some?
                  && block.round == RoundReached(r, block) && Votable(r, block))
            && r'.signed <= r.signed + {digest}
  {
    hide Good, HandleProposal, Votable, Accepted, Delivers;
    RunIsOk(c, honest, run, i);
    ProposalEffect(c, SignedIn(run[i]), run[i][h], block, payloadOk);
  }

  // ---- Own blocks ----

  /** The block made for a request carries its round and certificates, is signed by this replica, and goes to
      the loopback channel. */
  lemma OwnBlockEffect(r: Replica, p: ProposerMessage, payload: seq<Certificate>)
    ensures var r', block := MakeBlock(r, p, payload), ProposedBlock(r.name, p, payload);
            && block.qc == p.qc && block.tc == p.tc && block.round == p.round && block.payload == payload
            && block.author == r.name && block.signature.Verifies(block.Digest(), r.name)
            && r'.ownBlocks == r.ownBlocks + {block} && r'.signed == r.signed + {block.Digest()}
            && r' == r.(ownBlocks := r'.ownBlocks, signed := r'.signed)
  {}

  /** A block that comes back, made here or resumed, is processed in the current round, in every run. */
  lemma ReturnedBlockIsProcessed(
    c: Committee, honest: set<PublicKey>, run: seq<System>, i: nat, h: PublicKey, event: Event)
    requires IsRun(c, honest, run) && i + 1 < |run| && Step(c, run[i], run[i + 1], h, event)
    requires event.Loopback? || event.Resume?
    ensures Processed(run[i][h], run[i + 1][h], if event.Loopback? then event.own else event.waiting, run[i][h].round)
  {
    hide Processed, StateOk, LogOk, MakersOk, AssembledOk, EvidenceOk, StoreOk;
    RunIsOk(c, honest, run, i);
    var r, block := run[i][h], if event.Loopback? then event.own else event.waiting;
    assert QCOk(c, SignedIn(run[i]), block.qc) by {
      if event.Loopback? {
        assert RequestOk(c, SignedIn(run[i]), r, block.round, block.qc);
      } else {
        assert BlockOk(c, SignedIn(run[i]), r, block);
      }
    }
    ProcessBlockEffect(c, SignedIn(run[i]), r, block);
  }
}
