/** Signing steps: each new signature of an honest replica keeps its record honest. */
module Signing {
  import opened Committees
  import opened Messages
  import opened Chains
  import opened Evidence
  import opened Replicas
  import opened Invariants

  function Record(e: Evidence, h: PublicKey, digest: Digest): Evidence
    requires h in e
  {
    e[h := e[h] + {digest}]
  }

  /** `h`'s record stays honest when `digest` is added, so the whole evidence does. */
  lemma RecordKeepsEvidence(c: Committee, e: Evidence, h: PublicKey, digest: Digest)
    requires EvidenceOk(c, e) && h in e
    requires HonestRecord(c, Record(e, h, digest), h)
    ensures EvidenceOk(c, Record(e, h, digest)) && Grows(e, Record(e, h, digest))
  {
    var e' := Record(e, h, digest);
    forall x | x in e'
      ensures HonestRecord(c, e', x)
    {
      if x != h {
        HonestRecordGrows(c, e, e', x);
      }
    }
    assert e'.Keys == e.Keys;
  }

  /** Anything but a vote or a timeout leaves the record honest. */
  lemma BlockSignatureKeepsRecord(c: Committee, e: Evidence, h: PublicKey, digest: Digest)
    requires h in e && HonestRecord(c, e, h) && digest.BlockDigest?
    ensures HonestRecord(c, Record(e, h, digest), h)
  {
    var e' := Record(e, h, digest);
    forall v: Digest | v in e'[h] && v.VoteDigest?
      ensures VoteOk(c, e', h, v)
    {
      VoteOkGrows(c, e, e', h, v);
    }
  }

  /** A timeout may be signed when it reports a QC as new as those of all earlier votes. */
  lemma TimeoutKeepsRecord(c: Committee, e: Evidence, h: PublicKey, digest: Digest)
    requires h in e && HonestRecord(c, e, h) && digest.TimeoutDigest?
    requires forall v | v in e[h] && v.VoteDigest? :: ParentRound(v.hash) <= digest.highQcRound
    ensures HonestRecord(c, Record(e, h, digest), h)
  {
    var e' := Record(e, h, digest);
    forall v: Digest | v in e'[h] && v.VoteDigest?
      ensures VoteOk(c, e', h, v)
    {
      VoteOkGrows(c, e, e', h, v);
    }
  }

  /** A justified vote may be signed in a round above those of all earlier votes and timeouts. */
  lemma VoteKeepsRecord(c: Committee, e: Evidence, h: PublicKey, digest: Digest)
    requires h in e && HonestRecord(c, e, h) && digest.VoteDigest?
    requires forall v | v in e[h] && v.VoteDigest? :: v.voteRound < digest.voteRound
    requires forall t | t in e[h] && t.TimeoutDigest? :: t.timeoutRound < digest.voteRound
    requires VoteOk(c, e, h, digest)
    ensures HonestRecord(c, Record(e, h, digest), h)
  {
    var e' := Record(e, h, digest);
    forall v: Digest | v in e'[h] && v.VoteDigest?
      ensures VoteOk(c, e', h, v)
    {
      VoteOkGrows(c, e, e', h, v);
    }
  }

  // ---- The three signing steps ----

  /** The state after signing `digest` and raising `last_voted_round` to `voted`. */
  function Signed(r: Replica, digest: Digest, voted: Round): Replica
  {
    r.(lastVotedRound := voted, signed := r.signed + {digest})
  }

  lemma SignedStateOk(c: Committee, e: Evidence, r: Replica, digest: Digest, voted: Round)
    requires StateOk(c, e, r) && r.lastVotedRound <= voted <= r.round
    requires digest.VoteDigest? ==> digest.voteRound <= voted && ParentRound(digest.hash) <= r.highQc.round
    requires digest.TimeoutDigest? ==> digest.timeoutRound <= voted
    ensures StateOk(c, e, Signed(r, digest, voted))
  {
  }

  lemma SignedReplicaOk(c: Committee, e: Evidence, r: Replica, digest: Digest, voted: Round)
    requires ReplicaOk(c, e, r) && r.lastVotedRound <= voted <= r.round
    requires digest.VoteDigest? ==> digest.voteRound == voted == r.round && ParentRound(digest.hash) <= r.highQc.round
    requires digest.TimeoutDigest? ==> digest.timeoutRound <= voted
    ensures ReplicaOk(c, e, Signed(r, digest, voted))
  {
    SignedStateOk(c, e, r, digest, voted);
    SignedInboxOk(c, e, r, Signed(r, digest, voted), digest);
  }

  /** Signing keeps a replica good when it keeps its record honest. */
  lemma SignedGood(c: Committee, e: Evidence, r: Replica, digest: Digest, voted: Round)
    requires Good(c, e, r) && r.lastVotedRound <= voted <= r.round
    requires digest.VoteDigest? ==> digest.voteRound == voted == r.round && ParentRound(digest.hash) <= r.highQc.round
    requires digest.TimeoutDigest? ==> digest.timeoutRound <= voted
    requires HonestRecord(c, Record(e, r.name, digest), r.name)
    ensures Grows(e, Record(e, r.name, digest))
    ensures Good(c, Record(e, r.name, digest), Signed(r, digest, voted))
  {
    RecordKeepsEvidence(c, e, r.name, digest);
    ReplicaOkGrows(c, e, Record(e, r.name, digest), r);
    SignedReplicaOk(c, Record(e, r.name, digest), r, digest, voted);
  }

  lemma SignTimeoutGood(c: Committee, e: Evidence, r: Replica)
    requires Good(c, e, r)
    ensures var e' := Record(e, r.name, TimeoutDigest(r.round, r.highQc.round));
            Grows(e, e') && Good(c, e', SignTimeout(r))
  {
    var digest := TimeoutDigest(r.round, r.highQc.round);
    TimeoutKeepsRecord(c, e, r.name, digest);
    SignedGood(c, e, r, digest, r.round);
    assert SignTimeout(r) == Signed(r, digest, r.round);
  }

  lemma RequestGood(c: Committee, e: Evidence, r: Replica, block: Block)
    requires Good(c, e, r) && RequestOk(c, e, r, block.round, block.qc)
    ensures Good(c, e, r.(ownBlocks := r.ownBlocks + {block}))
  {
    OwnBlockInboxOk(c, e, r, r.(ownBlocks := r.ownBlocks + {block}));
  }

  lemma MakeBlockGood(c: Committee, e: Evidence, r: Replica, p: ProposerMessage, payload: seq<Certificate>)
    requires Good(c, e, r) && p in r.proposals
    ensures var e' := Record(e, r.name, ProposedBlock(r.name, p, payload).Digest());
            Grows(e, e') && Good(c, e', MakeBlock(r, p, payload))
  {
    var block := ProposedBlock(r.name, p, payload);
    var digest := block.Digest();
    BlockSignatureKeepsRecord(c, e, r.name, digest);
    SignedGood(c, e, r, digest, r.lastVotedRound);
    var r1 := Signed(r, digest, r.lastVotedRound);
    assert p in r1.proposals;
    RequestGood(c, Record(e, r.name, digest), r1, block);
    assert MakeBlock(r, p, payload) == r1.(ownBlocks := r1.ownBlocks + {block});
  }

  lemma OwnBlockInboxOk(c: Committee, e: Evidence, r: Replica, r': Replica)
    requires InboxOk(c, e, r)
    requires r' == r.(ownBlocks := r'.ownBlocks)
    requires forall b | b in r'.ownBlocks && b !in r.ownBlocks :: RequestOk(c, e, r, b.round, b.qc)
    ensures InboxOk(c, e, r')
  {
    forall b | b in r'.ownBlocks
      ensures RequestOk(c, e, r', b.round, b.qc)
    {
      assert RequestOk(c, e, r, b.round, b.qc);
    }
    forall p | p in r'.proposals
      ensures RequestOk(c, e, r', p.round, p.qc)
    {
      assert RequestOk(c, e, r, p.round, p.qc);
    }
    forall b | b in r'.suspended
      ensures BlockOk(c, e, r', b)
    {
      assert BlockOk(c, e, r, b);
      if RequestOk(c, e, r, b.round, b.qc) {
        assert RequestOk(c, e, r', b.round, b.qc);
      }
    }
  }

  /** A signature does not disturb open requests: a new vote is never below the current round. */
  lemma SignedRequestOk(c: Committee, e: Evidence, r: Replica, r': Replica, digest: Digest, round: Round, qc: QC)
    requires RequestOk(c, e, r, round, qc)
    requires r'.signed == r.signed + {digest} && r'.round == r.round && r'.highQc == r.highQc
    requires digest.VoteDigest? ==> digest.voteRound == r.round
    ensures RequestOk(c, e, r', round, qc)
  {
  }

  lemma SignedInboxOk(c: Committee, e: Evidence, r: Replica, r': Replica, digest: Digest)
    requires InboxOk(c, e, r)
    requires r'.signed == r.signed + {digest} && r'.round == r.round && r'.highQc == r.highQc
    requires r'.proposals == r.proposals && r'.ownBlocks == r.ownBlocks && r'.suspended == r.suspended
    requires digest.VoteDigest? ==> digest.voteRound == r.round
    ensures InboxOk(c, e, r')
  {
    forall p | p in r'.proposals
      ensures RequestOk(c, e, r', p.round, p.qc)
    {
      SignedRequestOk(c, e, r, r', digest, p.round, p.qc);
    }
    forall b | b in r'.ownBlocks
      ensures RequestOk(c, e, r', b.round, b.qc)
    {
      SignedRequestOk(c, e, r, r', digest, b.round, b.qc);
    }
    forall b | b in r'.suspended
      ensures BlockOk(c, e, r', b)
    {
      assert BlockOk(c, e, r, b);
      if RequestOk(c, e, r, b.round, b.qc) {
        SignedRequestOk(c, e, r, r', digest, b.round, b.qc);
      }
    }
  }

  /** The QC of a block whose certificates were adopted certifies the parent named by the digest. */
  lemma AdoptedQCIsParent(c: Committee, e: Evidence, qc: QC, d: Digest)
    requires EvidenceOk(c, e) && QCOk(c, e, qc) && d.BlockDigest? && d.parent == qc.hash
    ensures ParentRound(d) == qc.round
    ensures d.parent.Zero? || (d.parent.BlockDigest? && Certified(c, e, d.parent, d.parent.round))
  {
    if !qc.IsGenesis() {
      CertifiedIsAscending(c, e, qc.hash, qc.round);
    }
  }

  /** The vote rule: a block whose certificates were adopted, of the current round and allowed by
      both safety rules, yields a vote that an honest record may contain. */
  lemma VoteRuleJustifies(c: Committee, e: Evidence, r: Replica, block: Block)
    requires EvidenceOk(c, e) && r.name in e && e[r.name] == r.signed
    requires BlockOk(c, e, r, block) && block.qc.round < block.round
    requires block.tc.Some? ==> block.tc.value.votes != []
    requires MayExtend(block)
    ensures VoteOk(c, e, r.name, VoteDigest(block.Digest(), block.round))
    ensures ParentRound(block.Digest()) == block.qc.round
  {
    var d := block.Digest();
    AdoptedQCIsParent(c, e, block.qc, d);
    MayExtendJustifies(c, e, r, block, d);
  }

  lemma MayExtendJustifies(c: Committee, e: Evidence, r: Replica, block: Block, d: Digest)
    requires r.name in e && e[r.name] == r.signed
    requires BlockOk(c, e, r, block)
    requires block.tc.Some? ==> block.tc.value.votes != []
    requires MayExtend(block)
    requires d.BlockDigest? && d.round == block.round && ParentRound(d) == block.qc.round
    ensures Justified(c, e, r.name, d)
  {
    if block.qc.round + 1 != block.round && !RequestOk(c, e, r, block.round, block.qc) {
      TimedOutGrows(c, e, e, block.round - 1, Max(block.tc.value.HighQcRounds()), block.qc.round);
    }
  }

  lemma SignVoteGood(c: Committee, e: Evidence, r: Replica, block: Block)
    requires Good(c, e, r) && BlockOk(c, e, r, block)
    requires block.round == r.round && MakeVote(r, block).1.Some?
    ensures var e' := Record(e, r.name, VoteDigest(block.Digest(), block.round));
            Grows(e, e') && Good(c, e', MakeVote(r, block).0)
  {
    var digest := VoteDigest(block.Digest(), block.round);
    VoteRuleJustifies(c, e, r, block);
    VoteKeepsRecord(c, e, r.name, digest);
    SignedGood(c, e, r, digest, r.round);
    assert MakeVote(r, block).0 == Signed(r, digest, r.round);
  }
}
