/** Every step of an honest replica keeps the invariants. */
module Steps {
  import opened Wrappers
  import opened Committees
  import opened Messages
  import opened Aggregators
  import opened Evidence
  import opened Replicas
  import opened Invariants

  // ---- Rounds ----

  lemma AdvanceRoundGood(c: Committee, e: Evidence, r: Replica, round: Round)
    requires Good(c, e, r)
    ensures Good(c, e, AdvanceRound(r, round))
  {
    var r' := AdvanceRound(r, round);
    if round >= r.round {
      forall k, d | k in r'.makers.votes && d in r'.makers.votes[k]
        ensures QCMakerOk(c, e, d, r'.makers.votes[k][d])
      {
        assert k in r.makers.votes && d in r.makers.votes[k];
      }
      InboxKept(c, e, r, r');
    }
  }

  /** The inbox stays in order while rounds and `high_qc` advance and nothing is signed. */
  lemma InboxKept(c: Committee, e: Evidence, r: Replica, r': Replica)
    requires InboxOk(c, e, r)
    requires r.round <= r'.round && r.highQc.round <= r'.highQc.round && r'.signed == r.signed
    requires r'.proposals == r.proposals && r'.ownBlocks == r.ownBlocks && r'.suspended == r.suspended
    ensures InboxOk(c, e, r')
  {
    forall b | b in r.suspended
      ensures BlockOk(c, e, r', b)
    {
      assert BlockOk(c, e, r, b);
      if RequestOk(c, e, r, b.round, b.qc) {
        assert RequestOk(c, e, r', b.round, b.qc);
      }
    }
  }

  lemma ProcessQCGood(c: Committee, e: Evidence, r: Replica, qc: QC)
    requires Good(c, e, r) && QCOk(c, e, qc)
    ensures Good(c, e, ProcessQC(r, qc))
    ensures qc.round <= ProcessQC(r, qc).highQc.round
  {
    AdvanceRoundGood(c, e, r, qc.round);
    var r1, r2 := AdvanceRound(r, qc.round), ProcessQC(r, qc);
    InboxKept(c, e, r1, r2);
  }

  lemma GenerateProposalGood(c: Committee, e: Evidence, r: Replica, tc: Option<TC>)
    requires Good(c, e, r)
    ensures Good(c, e, ProposeIfLeader(c, r, tc))
  {
    var r' := ProposeIfLeader(c, r, tc);
    forall p | p in r'.proposals
      ensures RequestOk(c, e, r', p.round, p.qc)
    {
      if p in r.proposals {
        assert RequestOk(c, e, r, p.round, p.qc);
      }
    }
    forall b | b in r'.ownBlocks
      ensures RequestOk(c, e, r', b.round, b.qc)
    {
      assert RequestOk(c, e, r, b.round, b.qc);
    }
    forall b | b in r'.suspended
      ensures BlockOk(c, e, r', b)
    {
      assert BlockOk(c, e, r, b);
      if RequestOk(c, e, r, b.round, b.qc) {
        assert RequestOk(c, e, r', b.round, b.qc);
      }
    }
  }

  lemma MakersReplacedGood(c: Committee, e: Evidence, r: Replica, makers: Makers)
    requires Good(c, e, r) && MakersOk(c, e, makers)
    ensures Good(c, e, r.(makers := makers))
  {
    InboxKept(c, e, r, r.(makers := makers));
  }

  predicate RoundsBelow(qcs: seq<QC>, tcs: seq<TC>, round: Round)
  {
    && (forall i | 0 <= i < |qcs| :: qcs[i].round < round)
    && (forall i | 0 <= i < |tcs| :: tcs[i].round < round)
  }

  lemma AssembledBelowRound(c: Committee, r: Replica)
    requires AssembledOk(c, r)
    ensures RoundsBelow(r.qcs, r.tcs, r.round)
  {
  }

  lemma QCRecordedGood(c: Committee, e: Evidence, r: Replica, qc: QC)
    requires Good(c, e, r) && qc.Verifies(c)
    requires RoundsBelow(r.qcs, [], qc.round) && qc.round < r.round
    ensures Good(c, e, r.(qcs := r.qcs + [qc]))
  {
    InboxKept(c, e, r, r.(qcs := r.qcs + [qc]));
  }

  lemma TCRecordedGood(c: Committee, e: Evidence, r: Replica, tc: TC)
    requires Good(c, e, r) && tc.Verifies(c)
    requires RoundsBelow([], r.tcs, tc.round) && tc.round < r.round
    ensures Good(c, e, r.(tcs := r.tcs + [tc]))
  {
    InboxKept(c, e, r, r.(tcs := r.tcs + [tc]));
  }

  // ---- Votes ----

  lemma AppendedVoteOk(c: Committee, e: Evidence, m: QCMaker, vote: Vote)
    requires QCMakerOk(c, e, vote.Digest(), m)
    requires vote.Verifies(c) && Genuine(e, vote.signature)
    ensures QCMakerOk(c, e, vote.Digest(), AppendVote(c, m, vote).0)
    ensures var added := AppendVote(c, m, vote).1;
            added.Ok? && added.value.Some? ==>
              && added.value.value.Verifies(c) && GenuineQC(e, added.value.value)
              && added.value.value.round == vote.round
  {
    if vote.author !in m.used {
      var votes := m.votes + [SignedVote(vote.author, vote.signature)];
      StakeInInsert(c, m.used, vote.author);
      assert forall v | v in m.votes :: v.author in m.used;
      var counted := QCMaker(m.weight + c.Stake(vote.author), votes, m.used + {vote.author});
      assert QCMakerOk(c, e, vote.Digest(), counted);
      if counted.weight >= c.QuorumThreshold() {
        QCFromMaker(c, e, counted, vote.hash, vote.round);
      }
    }
  }

  lemma QCFromMaker(c: Committee, e: Evidence, m: QCMaker, hash: Digest, round: Round)
    requires QCMakerOk(c, e, VoteDigest(hash, round), m)
    requires m.weight >= c.QuorumThreshold()
    ensures QC(hash, round, m.votes).Verifies(c) && GenuineQC(e, QC(hash, round, m.votes))
  {
    var qc := QC(hash, round, m.votes);
    NamesAreAuthors(qc.votes, (v: SignedVote) => v.author, qc.Names());
    assert NameSet(qc.Names()) == m.used;
    forall i | 0 <= i < |qc.Names()|
      ensures c.Stake(qc.Names()[i]) > 0
    {
      assert m.votes[i] in m.votes;
    }
  }

  lemma NamesAreAuthors<V>(votes: seq<V>, author: V -> PublicKey, names: seq<PublicKey>)
    requires |names| == |votes| && forall i | 0 <= i < |votes| :: names[i] == author(votes[i])
    ensures NameSet(names) == set v | v in votes :: author(v)
  {
    forall v | v in votes
      ensures author(v) in names
    {
      var i :| 0 <= i < |votes| && votes[i] == v;
      assert names[i] == author(v);
    }
  }

  lemma FreshMakersOk(c: Committee, e: Evidence, digest: Digest, round: Round)
    ensures QCMakerOk(c, e, digest, NEW_QC_MAKER) && TCMakerOk(c, e, round, NEW_TC_MAKER)
  {
  }

  lemma WithVoteOk(c: Committee, e: Evidence, a: Makers, vote: Vote)
    requires MakersOk(c, e, a)
    requires vote.Verifies(c) && Genuine(e, vote.signature)
    ensures MakersOk(c, e, WithVote(c, a, vote).0)
    ensures var added := WithVote(c, a, vote).1;
            added.Ok? && added.value.Some? ==>
              && added.value.value.Verifies(c) && GenuineQC(e, added.value.value)
              && added.value.value.round == vote.round
  {
    FreshMakersOk(c, e, vote.Digest(), vote.round);
    AppendedVoteOk(c, e, VoteMaker(a, vote.round, vote.Digest()), vote);
  }

  lemma HandleVoteGood(c: Committee, e: Evidence, r: Replica, vote: Vote)
    requires Good(c, e, r) && Genuine(e, vote.signature)
    ensures Good(c, e, HandleVote(c, r, vote))
  {
    if vote.round >= r.round && vote.Verifies(c) {
      var (makers, added) := WithVote(c, r.makers, vote);
      WithVoteOk(c, e, r.makers, vote);
      var r1 := r.(makers := makers);
      MakersReplacedGood(c, e, r, makers);
      if added.Ok? && added.value.Some? {
        var qc := added.value.value;
        AssembledBelowRound(c, r);
        VerifiedQCIsCertified(c, e, qc);
        ProcessQCGood(c, e, r1, qc);
        QCRecordedGood(c, e, ProcessQC(r1, qc), qc);
        GenerateProposalGood(c, e, ProcessQC(r1, qc).(qcs := r.qcs + [qc]), None);
      }
    }
  }

  // ---- Timeouts ----

  lemma AppendedTimeoutOk(c: Committee, e: Evidence, m: TCMaker, timeout: Timeout)
    requires TCMakerOk(c, e, timeout.round, m)
    requires timeout.Verifies(c) && Genuine(e, timeout.signature)
    ensures TCMakerOk(c, e, timeout.round, AppendTimeout(c, m, timeout).0)
    ensures var added := AppendTimeout(c, m, timeout).1;
            added.Ok? && added.value.Some? ==>
              added.value.value.Verifies(c) && added.value.value.round == timeout.round
  {
    if timeout.author !in m.used {
      var votes := m.votes + [SignedTimeout(timeout.author, timeout.signature, timeout.highQc.round)];
      StakeInInsert(c, m.used, timeout.author);
      assert forall v | v in m.votes :: v.author in m.used;
      var counted := TCMaker(m.weight + c.Stake(timeout.author), votes, m.used + {timeout.author});
      assert TCMakerOk(c, e, timeout.round, counted);
      if counted.weight >= c.QuorumThreshold() {
        TCFromMaker(c, e, counted, timeout.round);
      }
    }
  }

  lemma TCFromMaker(c: Committee, e: Evidence, m: TCMaker, round: Round)
    requires TCMakerOk(c, e, round, m)
    requires m.weight >= c.QuorumThreshold()
    ensures TC(round, m.votes).Verifies(c)
  {
    var tc := TC(round, m.votes);
    NamesAreAuthors(tc.votes, (v: SignedTimeout) => v.author, tc.Names());
    assert NameSet(tc.Names()) == m.used;
    forall i | 0 <= i < |tc.Names()|
      ensures c.Stake(tc.Names()[i]) > 0
    {
      assert m.votes[i] in m.votes;
    }
  }

  lemma WithTimeoutOk(c: Committee, e: Evidence, a: Makers, timeout: Timeout)
    requires MakersOk(c, e, a)
    requires timeout.Verifies(c) && Genuine(e, timeout.signature)
    ensures MakersOk(c, e, WithTimeout(c, a, timeout).0)
    ensures var added := WithTimeout(c, a, timeout).1;
            added.Ok? && added.value.Some? ==>
              added.value.value.Verifies(c) && added.value.value.round == timeout.round
  {
    FreshMakersOk(c, e, Zero, timeout.round);
    AppendedTimeoutOk(c, e, TimeoutMaker(a, timeout.round), timeout);
  }

  lemma CollectTimeoutGood(c: Committee, e: Evidence, r: Replica, timeout: Timeout)
    requires Good(c, e, r) && RoundsBelow([], r.tcs, timeout.round)
    requires timeout.Verifies(c) && Genuine(e, timeout.signature)
    ensures Good(c, e, CollectTimeout(c, r, timeout))
  {
    var (makers, added) := WithTimeout(c, r.makers, timeout);
    WithTimeoutOk(c, e, r.makers, timeout);
    var r1 := r.(makers := makers);
    MakersReplacedGood(c, e, r, makers);
    if added.Ok? && added.value.Some? {
      var tc := added.value.value;
      AdvanceRoundGood(c, e, r1, tc.round);
      TCRecordedGood(c, e, AdvanceRound(r1, tc.round), tc);
      GenerateProposalGood(c, e, AdvanceRound(r1, tc.round).(tcs := r.tcs + [tc]), Some(tc));
    }
  }

  lemma HandleTimeoutGood(c: Committee, e: Evidence, r: Replica, timeout: Timeout)
    requires Good(c, e, r)
    requires timeout.Verifies(c) ==> Genuine(e, timeout.signature) && QCOk(c, e, timeout.highQc)
    ensures Good(c, e, HandleTimeout(c, r, timeout))
  {
    if timeout.round >= r.round && timeout.Verifies(c) {
      AssembledBelowRound(c, r);
      ProcessQCGood(c, e, r, timeout.highQc);
      CollectTimeoutGood(c, e, ProcessQC(r, timeout.highQc), timeout);
    }
  }

  lemma HandleTCGood(c: Committee, e: Evidence, r: Replica, tc: TC)
    requires Good(c, e, r)
    ensures Good(c, e, HandleTC(c, r, tc))
  {
    AdvanceRoundGood(c, e, r, tc.round);
    GenerateProposalGood(c, e, AdvanceRound(r, tc.round), Some(tc));
  }
}
