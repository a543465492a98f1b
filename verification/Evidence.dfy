/** What the messages signed by honest replicas imply: the quorum arguments behind the two safety
    rules. Nothing here depends on the local state of a replica. */
module Evidence {
  import opened Committees
  import opened Messages
  import opened Chains

  /** The digests that each honest replica has signed. All other names may sign anything. */
  type Evidence = map<PublicKey, set<Digest>>

  predicate MaySign(e: Evidence, name: PublicKey, digest: Digest)
  {
    name in e ==> digest in e[name]
  }

  predicate AllMaySign(e: Evidence, names: set<PublicKey>, digest: Digest)
  {
    forall n | n in names :: MaySign(e, n, digest)
  }

  /** A quorum certificate for the block `hash` of round `round` can exist. */
  ghost predicate Certified(c: Committee, e: Evidence, hash: Digest, round: Round)
  {
    exists s: set<PublicKey> :: c.Quorum(s) && AllMaySign(e, s, VoteDigest(hash, round))
  }

  ghost predicate QCOk(c: Committee, e: Evidence, qc: QC)
  {
    qc.IsGenesis() || Certified(c, e, qc.hash, qc.round)
  }

  predicate MayReport(e: Evidence, reports: map<PublicKey, Round>, round: Round, bound: Round)
  {
    forall n | n in reports :: reports[n] <= bound && MaySign(e, n, TimeoutDigest(round, reports[n]))
  }

  /** A timeout certificate of round `round` can exist whose highest QC round is at most `bound`. */
  ghost predicate TimedOut(c: Committee, e: Evidence, round: Round, bound: Round)
  {
    exists reports: map<PublicKey, Round> :: c.Quorum(reports.Keys) && MayReport(e, reports, round, bound)
  }

  /** Every earlier vote of `h` was for a block whose QC is not newer than that of `d`. */
  predicate CoversEarlierVotes(signed: set<Digest>, round: Round, qcRound: Round)
  {
    forall v | v in signed && v.VoteDigest? && v.voteRound < round :: ParentRound(v.hash) <= qcRound
  }

  /** Why `h` could vote for `d`: it extends the previous round, or a timeout certificate allows
      it, or it is its own proposal, made with a QC at least as new as every vote before. */
  ghost predicate Justified(c: Committee, e: Evidence, h: PublicKey, d: Digest)
    requires h in e && d.BlockDigest?
  {
    || ParentRound(d) + 1 == d.round
    || (d.round >= 1 && TimedOut(c, e, d.round - 1, ParentRound(d)))
    || CoversEarlierVotes(e[h], d.round, ParentRound(d))
  }

  ghost predicate VoteOk(c: Committee, e: Evidence, h: PublicKey, v: Digest)
    requires h in e && v.VoteDigest?
  {
    var d := v.hash;
    && d.BlockDigest? && d.round == v.voteRound && ParentRound(d) < d.round
    && (d.parent.Zero? || (d.parent.BlockDigest? && Certified(c, e, d.parent, d.parent.round)))
    && Justified(c, e, h, d)
  }

  /** The record of an honest replica: its votes are justified, there is one per round, and every
      timeout reports a QC at least as new as those of the blocks voted for up to its round. */
  ghost predicate HonestRecord(c: Committee, e: Evidence, h: PublicKey)
    requires h in e
  {
    && (forall v | v in e[h] && v.VoteDigest? :: VoteOk(c, e, h, v))
    && (forall v, w | v in e[h] && w in e[h] && v.VoteDigest? && w.VoteDigest? && v.voteRound == w.voteRound :: v == w)
    && (forall v, t | v in e[h] && t in e[h] && v.VoteDigest? && t.TimeoutDigest? && v.voteRound <= t.timeoutRound ::
          ParentRound(v.hash) <= t.highQcRound)
  }

  function FaultyNames(c: Committee, honest: set<PublicKey>): set<PublicKey>
  {
    set a | a in c.authorities && a.name !in honest :: a.name
  }

  /** The fault assumption: authorities outside `honest` hold less than a third of the stake. */
  predicate FaultBound(c: Committee, honest: set<PublicKey>)
  {
    3 * c.StakeIn(FaultyNames(c, honest)) < c.Total()
  }

  ghost predicate EvidenceOk(c: Committee, e: Evidence)
  {
    && FaultBound(c, e.Keys)
    && forall h | h in e :: HonestRecord(c, e, h)
  }

  // ---- Quorums ----

  lemma HonestInBoth(c: Committee, e: Evidence, s: set<PublicKey>, t: set<PublicKey>) returns (h: PublicKey)
    requires FaultBound(c, e.Keys)
    requires c.Quorum(s) && c.Quorum(t)
    ensures h in s && h in t && h in e
  {
    h := QuorumIntersection(c, s, t, FaultyNames(c, e.Keys));
    LookupPresent(c.authorities, h);
  }

  /** Every certified block has an honest voter, hence the shape that honest voters check. */
  lemma CertifiedHasHonestVoter(c: Committee, e: Evidence, hash: Digest, round: Round) returns (h: PublicKey)
    requires EvidenceOk(c, e) && Certified(c, e, hash, round)
    ensures h in e && VoteDigest(hash, round) in e[h] && VoteOk(c, e, h, VoteDigest(hash, round))
    ensures hash.BlockDigest? && hash.round == round
  {
    var s :| c.Quorum(s) && AllMaySign(e, s, VoteDigest(hash, round));
    h := HonestInBoth(c, e, s, s);
    assert MaySign(e, h, VoteDigest(hash, round));
  }

  /** Certified blocks have certified ancestors, whose rounds grow from parent to child. */
  lemma {:induction false} CertifiedIsAscending(c: Committee, e: Evidence, d: Digest, round: Round)
    requires EvidenceOk(c, e) && Certified(c, e, d, round)
    ensures d.BlockDigest? && d.round == round && d != GENESIS_DIGEST && Ascending(d)
    decreases d
  {
    var h := CertifiedHasHonestVoter(c, e, d, round);
    if !d.parent.Zero? {
      CertifiedIsAscending(c, e, d.parent, d.parent.round);
    }
  }

  /** One certified block per round. */
  lemma OneCertifiedBlockPerRound(c: Committee, e: Evidence, d: Digest, d': Digest, round: Round)
    requires EvidenceOk(c, e)
    requires Certified(c, e, d, round) && Certified(c, e, d', round)
    ensures d == d'
  {
    var s :| c.Quorum(s) && AllMaySign(e, s, VoteDigest(d, round));
    var t :| c.Quorum(t) && AllMaySign(e, t, VoteDigest(d', round));
    var h := HonestInBoth(c, e, s, t);
    assert MaySign(e, h, VoteDigest(d, round)) && MaySign(e, h, VoteDigest(d', round));
  }

  /** Timeout evidence: once a block carrying a QC of round r is certified, every timeout
      certificate for its round or a later one reports a QC of round r or later. */
  lemma TimeoutsReportCertifiedParent(c: Committee, e: Evidence, d: Digest, timeoutRound: Round, bound: Round)
    requires EvidenceOk(c, e)
    requires d.BlockDigest? && Certified(c, e, d, d.round)
    requires d.round <= timeoutRound && TimedOut(c, e, timeoutRound, bound)
    ensures ParentRound(d) <= bound
  {
    var s :| c.Quorum(s) && AllMaySign(e, s, VoteDigest(d, d.round));
    var reports: map<PublicKey, Round> :| c.Quorum(reports.Keys) && MayReport(e, reports, timeoutRound, bound);
    var h := HonestInBoth(c, e, s, reports.Keys);
    assert MaySign(e, h, VoteDigest(d, d.round));
    var t := TimeoutDigest(timeoutRound, reports[h]);
    assert t in e[h];
  }

  /** A block is committed by a certified child of the next round. */
  ghost predicate CommittedBy(c: Committee, e: Evidence, d0: Digest, d1: Digest)
  {
    && d0.BlockDigest? && d1.BlockDigest? && d1.parent == d0 && d1.round == d0.round + 1
    && Certified(c, e, d1, d1.round)
  }

  ghost predicate Committed(c: Committee, e: Evidence, d0: Digest)
  {
    exists d1 :: CommittedBy(c, e, d0, d1)
  }

  /** A block certified after the commit of `d0` extends a block at least as new as `d0`: the
      common honest voter either saw the previous round certified, or saw a timeout certificate
      that reports `d0`'s round, or proposed on top of everything it had voted for. */
  lemma LaterBlocksExtendCommittedRound(c: Committee, e: Evidence, d0: Digest, d1: Digest, d: Digest)
    requires EvidenceOk(c, e) && CommittedBy(c, e, d0, d1)
    requires d.BlockDigest? && Certified(c, e, d, d.round) && d.round > d1.round
    ensures d0.round <= ParentRound(d)
  {
    var h := VoterOfBoth(c, e, d1, d);
    var v1 := VoteDigest(d1, d1.round);
    assert v1 in e[h] && VoteOk(c, e, h, VoteDigest(d, d.round));
    if TimedOut(c, e, d.round - 1, ParentRound(d)) {
      TimeoutsReportCertifiedParent(c, e, d1, d.round - 1, ParentRound(d));
    }
  }

  lemma VoterOfBoth(c: Committee, e: Evidence, d: Digest, d': Digest) returns (h: PublicKey)
    requires EvidenceOk(c, e) && d.BlockDigest? && d'.BlockDigest?
    requires Certified(c, e, d, d.round) && Certified(c, e, d', d'.round)
    ensures h in e && VoteDigest(d, d.round) in e[h] && VoteDigest(d', d'.round) in e[h]
  {
    var s :| c.Quorum(s) && AllMaySign(e, s, VoteDigest(d, d.round));
    var t :| c.Quorum(t) && AllMaySign(e, t, VoteDigest(d', d'.round));
    h := HonestInBoth(c, e, s, t);
    assert MaySign(e, h, VoteDigest(d, d.round)) && MaySign(e, h, VoteDigest(d', d'.round));
  }

  /** Locked chain: when `d0` and its child of the next round are certified, every certified block
      of `d0`'s round or later is `d0` or descends from it. */
  lemma {:induction false} LockedChain(c: Committee, e: Evidence, d0: Digest, d1: Digest, d: Digest)
    requires EvidenceOk(c, e) && CommittedBy(c, e, d0, d1)
    requires d.BlockDigest? && Certified(c, e, d, d.round) && d.round >= d0.round
    ensures Extends(d, d0)
    decreases d
  {
    ChainEnds(d);
    CertifiedIsAscending(c, e, d1, d1.round);
    CertifiedIsAscending(c, e, d, d.round);
    var h := CertifiedHasHonestVoter(c, e, d1, d1.round);
    CertifiedIsAscending(c, e, d0, d0.round);
    if d.round == d0.round {
      OneCertifiedBlockPerRound(c, e, d, d0, d.round);
    } else if d.round == d1.round {
      OneCertifiedBlockPerRound(c, e, d, d1, d.round);
      ChainEnds(d0);
    } else {
      LaterBlocksExtendCommittedRound(c, e, d0, d1, d);
      var h' := CertifiedHasHonestVoter(c, e, d, d.round);
      LockedChain(c, e, d0, d1, d.parent);
    }
  }

  /** Any two committed blocks lie on one chain. */
  lemma CommittedBlocksAgree(c: Committee, e: Evidence, d: Digest, d': Digest)
    requires EvidenceOk(c, e) && Committed(c, e, d) && Committed(c, e, d')
    ensures Extends(d, d') || Extends(d', d)
    ensures d.BlockDigest? && d'.BlockDigest?
    ensures d.round >= d'.round ==> Extends(d, d')
  {
    var x :| CommittedBy(c, e, d, x);
    var y :| CommittedBy(c, e, d', y);
    var h := CertifiedHasHonestVoter(c, e, x, x.round);
    var h' := CertifiedHasHonestVoter(c, e, y, y.round);
    if d.round >= d'.round {
      LockedChain(c, e, d', y, d);
    } else {
      LockedChain(c, e, d, x, d');
    }
  }
}
