/** What holds of an honest replica in every reachable state, relative to the messages that honest
    replicas have signed so far. */
module Invariants {
  import opened Wrappers
  import opened Committees
  import opened Messages
  import opened Aggregators
  import opened Chains
  import opened Evidence
  import opened Replicas
  import opened Delivery

  // ---- The local state ----

  /** `last_voted_round` bounds every signed vote and timeout, `high_qc` is at least as new as the
      QC of every block voted for, and the round is past `high_qc`. */
  ghost predicate StateOk(c: Committee, e: Evidence, r: Replica)
  {
    && r.highQc.round < r.round && r.lastVotedRound <= r.round
    && QCOk(c, e, r.highQc)
    && (forall v | v in r.signed && v.VoteDigest? ::
          v.voteRound <= r.lastVotedRound && ParentRound(v.hash) <= r.highQc.round)
    && (forall t | t in r.signed && t.TimeoutDigest? :: t.timeoutRound <= r.lastVotedRound)
  }

  /** A proposal of this replica for `round` on top of `qc`. */
  ghost predicate RequestOk(c: Committee, e: Evidence, r: Replica, round: Round, qc: QC)
  {
    && QCOk(c, e, qc) && qc.round < round <= r.round && qc.round <= r.highQc.round
    && CoversEarlierVotes(r.signed, round, qc.round)
  }

  /** A block whose certificates were adopted; its TC was verified unless the block is our own. */
  ghost predicate BlockOk(c: Committee, e: Evidence, r: Replica, block: Block)
  {
    && QCOk(c, e, block.qc) && block.qc.round <= r.highQc.round
    && (|| RequestOk(c, e, r, block.round, block.qc)
        || (block.tc.Some? && block.tc.value.votes != [] ==>
              TimedOut(c, e, block.tc.value.round, Max(block.tc.value.HighQcRounds()))))
  }

  ghost predicate InboxOk(c: Committee, e: Evidence, r: Replica)
  {
    && (forall p | p in r.proposals :: RequestOk(c, e, r, p.round, p.qc))
    && (forall b | b in r.ownBlocks :: RequestOk(c, e, r, b.round, b.qc))
    && (forall b | b in r.suspended :: BlockOk(c, e, r, b))
  }

  // ---- The aggregator ----

  ghost predicate QCMakerOk(c: Committee, e: Evidence, digest: Digest, m: QCMaker)
  {
    && m.weight <= c.StakeIn(m.used)
    && (forall i, j | 0 <= i < j < |m.votes| :: m.votes[i].author != m.votes[j].author)
    && m.used == (set v | v in m.votes :: v.author)
    && (forall v | v in m.votes ::
          c.Stake(v.author) > 0 && v.signature.Verifies(digest, v.author) && MaySign(e, v.author, digest))
  }

  ghost predicate TCMakerOk(c: Committee, e: Evidence, round: Round, m: TCMaker)
  {
    && m.weight <= c.StakeIn(m.used)
    && (forall i, j | 0 <= i < j < |m.votes| :: m.votes[i].author != m.votes[j].author)
    && m.used == (set v | v in m.votes :: v.author)
    && (forall v | v in m.votes ::
          && c.Stake(v.author) > 0
          && v.signature.Verifies(TimeoutDigest(round, v.highQcRound), v.author)
          && MaySign(e, v.author, TimeoutDigest(round, v.highQcRound)))
  }

  ghost predicate MakersOk(c: Committee, e: Evidence, a: Makers)
  {
    && (forall k, d | k in a.votes && d in a.votes[k] :: QCMakerOk(c, e, d, a.votes[k][d]))
    && (forall k | k in a.timeouts :: TCMakerOk(c, e, k, a.timeouts[k]))
  }

  /** The certificates assembled so far: one per round at most, and each passes `verify`. */
  ghost predicate AssembledOk(c: Committee, r: Replica)
  {
    && (forall i, j | 0 <= i < j < |r.qcs| :: r.qcs[i].round < r.qcs[j].round)
    && (forall i, j | 0 <= i < j < |r.tcs| :: r.tcs[i].round < r.tcs[j].round)
    && (forall i | 0 <= i < |r.qcs| :: r.qcs[i].round < r.round && r.qcs[i].Verifies(c))
    && (forall i | 0 <= i < |r.tcs| :: r.tcs[i].round < r.round && r.tcs[i].Verifies(c))
  }

  // ---- Everything together ----

  ghost predicate ReplicaOk(c: Committee, e: Evidence, r: Replica)
  {
    && StateOk(c, e, r) && InboxOk(c, e, r)
    && StoreOk(c, e, r.store) && LogOk(c, e, r)
    && MakersOk(c, e, r.makers) && AssembledOk(c, r)
    && r.fault != Some(MissingAncestor)
  }

  /** The replica and the global record agree on what the replica has signed. */
  ghost predicate Good(c: Committee, e: Evidence, r: Replica)
  {
    && c.authorities != []
    && r.name in e && e[r.name] == r.signed
    && EvidenceOk(c, e) && ReplicaOk(c, e, r)
  }

  // ---- More signatures never invalidate anything ----

  /** `e'` records everything that `e` does, for the same honest replicas. */
  ghost predicate Grows(e: Evidence, e': Evidence)
  {
    e.Keys == e'.Keys && forall h | h in e :: e[h] <= e'[h]
  }

  lemma CertifiedGrows(c: Committee, e: Evidence, e': Evidence, hash: Digest, round: Round)
    requires Grows(e, e') && Certified(c, e, hash, round)
    ensures Certified(c, e', hash, round)
  {
    var s :| c.Quorum(s) && AllMaySign(e, s, VoteDigest(hash, round));
    assert AllMaySign(e', s, VoteDigest(hash, round)) by {
      forall n | n in s
        ensures MaySign(e', n, VoteDigest(hash, round))
      {
        assert MaySign(e, n, VoteDigest(hash, round));
      }
    }
  }

  lemma TimedOutGrows(c: Committee, e: Evidence, e': Evidence, round: Round, bound: Round, bound': Round)
    requires Grows(e, e') && TimedOut(c, e, round, bound) && bound <= bound'
    ensures TimedOut(c, e', round, bound')
  {
    var reports: map<PublicKey, Round> :| c.Quorum(reports.Keys) && MayReport(e, reports, round, bound);
    assert MayReport(e', reports, round, bound');
  }

  lemma QCOkGrows(c: Committee, e: Evidence, e': Evidence, qc: QC)
    requires Grows(e, e') && QCOk(c, e, qc)
    ensures QCOk(c, e', qc)
  {
    if !qc.IsGenesis() {
      CertifiedGrows(c, e, e', qc.hash, qc.round);
    }
  }

  lemma LogOkGrows(c: Committee, e: Evidence, e': Evidence, r: Replica)
    requires Grows(e, e') && LogOk(c, e, r)
    ensures LogOk(c, e', r)
  {
    var head := Head(r.output);
    if head != GENESIS_DIGEST {
      var d1 :| CommittedBy(c, e, head, d1);
      CertifiedGrows(c, e, e', d1, d1.round);
      assert CommittedBy(c, e', head, d1);
    }
  }

  lemma BlockOkGrows(c: Committee, e: Evidence, e': Evidence, r: Replica, b: Block)
    requires Grows(e, e') && BlockOk(c, e, r, b)
    ensures BlockOk(c, e', r, b)
  {
    QCOkGrows(c, e, e', b.qc);
    if b.tc.Some? && b.tc.value.votes != [] && !RequestOk(c, e, r, b.round, b.qc) {
      var max := Max(b.tc.value.HighQcRounds());
      TimedOutGrows(c, e, e', b.tc.value.round, max, max);
    }
  }

  lemma InboxOkGrows(c: Committee, e: Evidence, e': Evidence, r: Replica)
    requires Grows(e, e') && InboxOk(c, e, r)
    ensures InboxOk(c, e', r)
  {
    forall p | p in r.proposals
      ensures RequestOk(c, e', r, p.round, p.qc)
    {
      QCOkGrows(c, e, e', p.qc);
    }
    forall b | b in r.ownBlocks
      ensures RequestOk(c, e', r, b.round, b.qc)
    {
      QCOkGrows(c, e, e', b.qc);
    }
    forall b | b in r.suspended
      ensures BlockOk(c, e', r, b)
    {
      BlockOkGrows(c, e, e', r, b);
    }
  }

  lemma MakersOkGrows(c: Committee, e: Evidence, e': Evidence, a: Makers)
    requires Grows(e, e') && MakersOk(c, e, a)
    ensures MakersOk(c, e', a)
  {
    forall k, d | k in a.votes && d in a.votes[k]
      ensures QCMakerOk(c, e', d, a.votes[k][d])
    {
      assert QCMakerOk(c, e, d, a.votes[k][d]);
    }
    forall k | k in a.timeouts
      ensures TCMakerOk(c, e', k, a.timeouts[k])
    {
      assert TCMakerOk(c, e, k, a.timeouts[k]);
    }
  }

  lemma ReplicaOkGrows(c: Committee, e: Evidence, e': Evidence, r: Replica)
    requires Grows(e, e') && ReplicaOk(c, e, r)
    ensures ReplicaOk(c, e', r)
  {
    QCOkGrows(c, e, e', r.highQc);
    InboxOkGrows(c, e, e', r);
    forall d | d in r.store
      ensures QCOk(c, e', r.store[d].qc)
    {
      QCOkGrows(c, e, e', r.store[d].qc);
    }
    LogOkGrows(c, e, e', r);
    MakersOkGrows(c, e, e', r.makers);
  }

  lemma VoteOkGrows(c: Committee, e: Evidence, e': Evidence, h: PublicKey, v: Digest)
    requires Grows(e, e') && h in e && v.VoteDigest? && VoteOk(c, e, h, v)
    requires forall w | w in e'[h] && w.VoteDigest? && w.voteRound < v.voteRound :: w in e[h]
    ensures VoteOk(c, e', h, v)
  {
    var d := v.hash;
    if !d.parent.Zero? {
      CertifiedGrows(c, e, e', d.parent, d.parent.round);
    }
    if d.round >= 1 && TimedOut(c, e, d.round - 1, ParentRound(d)) {
      TimedOutGrows(c, e, e', d.round - 1, ParentRound(d), ParentRound(d));
    }
  }

  lemma HonestRecordGrows(c: Committee, e: Evidence, e': Evidence, h: PublicKey)
    requires Grows(e, e') && h in e && e'[h] == e[h] && HonestRecord(c, e, h)
    ensures HonestRecord(c, e', h)
  {
    forall v | v in e'[h] && v.VoteDigest?
      ensures VoteOk(c, e', h, v)
    {
      VoteOkGrows(c, e, e', h, v);
    }
  }

  // ---- Messages that verify ----

  /** Signatures cannot be forged: an honest signature in a message was made by its signer. */
  predicate Genuine(e: Evidence, s: Signature)
  {
    MaySign(e, s.signer, s.content)
  }

  predicate GenuineQC(e: Evidence, qc: QC)
  {
    forall v | v in qc.votes :: Genuine(e, v.signature)
  }

  predicate GenuineTC(e: Evidence, tc: TC)
  {
    forall v | v in tc.votes :: Genuine(e, v.signature)
  }

  predicate GenuineTimeout(e: Evidence, timeout: Timeout)
  {
    Genuine(e, timeout.signature) && GenuineQC(e, timeout.highQc)
  }

  lemma VerifiedQCIsCertified(c: Committee, e: Evidence, qc: QC)
    requires qc.Verifies(c) && GenuineQC(e, qc)
    ensures Certified(c, e, qc.hash, qc.round)
  {
    var s := NameSet(qc.Names());
    forall n | n in s
      ensures MaySign(e, n, VoteDigest(qc.hash, qc.round))
    {
      var i :| 0 <= i < |qc.Names()| && qc.Names()[i] == n;
      assert qc.votes[i] in qc.votes;
      assert Genuine(e, qc.votes[i].signature);
    }
    assert AllMaySign(e, s, VoteDigest(qc.hash, qc.round));
  }

  lemma VerifiedTCNotEmpty(c: Committee, tc: TC)
    requires tc.Verifies(c)
    ensures tc.votes != []
  {
    if tc.votes == [] {
      assert NameSet(tc.Names()) == {};
      WeightEmpty(c.authorities);
    }
  }

  /** The position of the vote of `name`. */
  ghost function VoteIndex(tc: TC, name: PublicKey): (i: nat)
    requires name in tc.Names()
    ensures i < |tc.votes| && tc.votes[i].author == name
  {
    var i :| 0 <= i < |tc.Names()| && tc.Names()[i] == name;
    i
  }

  lemma VerifiedTCTimesOut(c: Committee, e: Evidence, tc: TC)
    requires tc.Verifies(c) && GenuineTC(e, tc)
    ensures tc.votes != []
    ensures TimedOut(c, e, tc.round, Max(tc.HighQcRounds()))
  {
    VerifiedTCNotEmpty(c, tc);
    var names, max := NameSet(tc.Names()), Max(tc.HighQcRounds());
    var reports := map n | n in names :: tc.votes[VoteIndex(tc, n)].highQcRound;
    forall n | n in reports
      ensures reports[n] <= max && MaySign(e, n, TimeoutDigest(tc.round, reports[n]))
    {
      var i := VoteIndex(tc, n);
      assert tc.HighQcRounds()[i] == reports[n] && reports[n] in tc.HighQcRounds();
      assert tc.votes[i] in tc.votes;
      assert Genuine(e, tc.votes[i].signature);
    }
    assert reports.Keys == names;
    assert MayReport(e, reports, tc.round, max);
  }
}
