/** Counting votes and timeouts across round changes: nothing counted for an open round is lost, so a quorum
    of verified votes or timeouts of a round always moves a replica past it. */
module Counting {
  import opened Wrappers
  import opened Committees
  import opened Messages
  import opened Aggregators
  import opened Replicas
  import opened Blocks
  import opened Protocol
  import opened Effects
  import opened Leaders

  predicate QCMakerExact(c: Committee, m: QCMaker)
  {
    m.weight == c.StakeIn(m.used) && !c.Quorum(m.used)
  }

  predicate TCMakerExact(c: Committee, m: TCMaker)
  {
    m.weight == c.StakeIn(m.used) && !c.Quorum(m.used)
  }

  /** The makers of rounds from `round` on have not been completed, and their weight is the stake of the
      members they counted. */
  ghost predicate MakersExact(c: Committee, a: Makers, round: Round)
  {
    && (forall k, d | k >= round :: QCMakerExact(c, VoteMaker(a, k, d)))
    && (forall k | k >= round :: TCMakerExact(c, TimeoutMaker(a, k)))
  }

  /** Every member counted for a round that is still open stays counted. */
  ghost predicate Kept(a: Makers, a': Makers, round: Round)
  {
    && (forall k, d | k >= round :: VoteMaker(a, k, d).used <= VoteMaker(a', k, d).used)
    && (forall k | k >= round :: TimeoutMaker(a, k).used <= TimeoutMaker(a', k).used)
  }

  /** A step that keeps what was counted, and the makers exact. */
  ghost predicate CountsOn(c: Committee, r: Replica, r': Replica)
  {
    && r'.name == r.name && r.round <= r'.round && Kept(r.makers, r'.makers, r'.round)
    && (MakersExact(c, r.makers, r.round) ==> MakersExact(c, r'.makers, r'.round))
  }

  lemma CountsOnTransitive(c: Committee, r: Replica, r': Replica, r'': Replica)
    requires CountsOn(c, r, r') && CountsOn(c, r', r'')
    ensures CountsOn(c, r, r'')
  {
    hide MakersExact, VoteMaker, TimeoutMaker;
  }

  predicate SameCounts(r: Replica, r': Replica)
  {
    r'.name == r.name && r'.round == r.round && r'.makers == r.makers
  }

  lemma SameCountsOn(c: Committee, r: Replica, r': Replica)
    requires SameCounts(r, r')
    ensures CountsOn(c, r, r')
  {}

  /** Advancing drops the makers of older rounds and leaves those of the new round and later alone. */
  lemma AdvanceRoundCountsOn(c: Committee, r: Replica, round: Round)
    ensures var r' := AdvanceRound(r, round);
            && CountsOn(c, r, r')
            && (forall k, d | k >= r'.round :: VoteMaker(r'.makers, k, d) == VoteMaker(r.makers, k, d))
            && (forall k | k >= r'.round :: TimeoutMaker(r'.makers, k) == TimeoutMaker(r.makers, k))
  {
    hide QCMakerExact, TCMakerExact;
  }

  lemma ProcessQCCountsOn(c: Committee, r: Replica, qc: QC)
    ensures CountsOn(c, r, ProcessQC(r, qc))
  {
    hide CountsOn, AdvanceRound;
    var r1 := AdvanceRound(r, qc.round);
    AdvanceRoundCountsOn(c, r, qc.round);
    SameCountsOn(c, r1, ProcessQC(r, qc));
    CountsOnTransitive(c, r, r1, ProcessQC(r, qc));
  }

  // ---- One vote ----

  /** An exact maker completes a certificate exactly when the author makes the counted members a quorum. */
  lemma AppendVoteExact(c: Committee, m: QCMaker, vote: Vote)
    requires QCMakerExact(c, m)
    ensures var (m', added) := AppendVote(c, m, vote);
            && m'.used == m.used + {vote.author}
            && ((added.Ok? && added.value.Some?) <==> c.Quorum(m.used + {vote.author}))
            && (!c.Quorum(m.used + {vote.author}) ==> QCMakerExact(c, m'))
  {
    if vote.author in m.used {
      assert m.used + {vote.author} == m.used;
    } else {
      StakeInInsert(c, m.used, vote.author);
    }
  }

  lemma AppendTimeoutExact(c: Committee, m: TCMaker, timeout: Timeout)
    requires TCMakerExact(c, m)
    ensures var (m', added) := AppendTimeout(c, m, timeout);
            && m'.used == m.used + {timeout.author}
            && ((added.Ok? && added.value.Some?) <==> c.Quorum(m.used + {timeout.author}))
            && (!c.Quorum(m.used + {timeout.author}) ==> TCMakerExact(c, m'))
  {
    if timeout.author in m.used {
      assert m.used + {timeout.author} == m.used;
    } else {
      StakeInInsert(c, m.used, timeout.author);
    }
  }

  /** Adding a vote concerns the maker of its round and digest only. */
  lemma WithVoteIs(c: Committee, a: Makers, vote: Vote)
    ensures var (a', added) := WithVote(c, a, vote);
            && (VoteMaker(a', vote.round, vote.Digest()), added)
            == AppendVote(c, VoteMaker(a, vote.round, vote.Digest()), vote)
            && (forall k, d | k != vote.round || d != vote.Digest() :: VoteMaker(a', k, d) == VoteMaker(a, k, d))
            && (forall k :: TimeoutMaker(a', k) == TimeoutMaker(a, k))
  {
    hide AppendVote;
  }

  lemma WithTimeoutIs(c: Committee, a: Makers, timeout: Timeout)
    ensures var (a', added) := WithTimeout(c, a, timeout);
            && (TimeoutMaker(a', timeout.round), added) == AppendTimeout(c, TimeoutMaker(a, timeout.round), timeout)
            && (forall k, d :: VoteMaker(a', k, d) == VoteMaker(a, k, d))
            && (forall k | k != timeout.round :: TimeoutMaker(a', k) == TimeoutMaker(a, k))
  {
    hide AppendTimeout;
  }

  /** A vote that is taken into account completes a QC exactly if its author and the members counted before
      hold a quorum. */
  predicate CompletesQC(c: Committee, r: Replica, vote: Vote)
  {
    && vote.round >= r.round && vote.Verifies(c)
    && c.Quorum(VoteMaker(r.makers, vote.round, vote.Digest()).used + {vote.author})
  }

  lemma AppendedQCIsForVote(c: Committee, m: QCMaker, vote: Vote)
    ensures var added := AppendVote(c, m, vote).1;
            added.Ok? && added.value.Some? ==>
              added.value.value.round == vote.round && added.value.value.hash == vote.hash
  {}

  /** The leader of the round reached has asked for a block on its newest QC and this TC. */
  predicate AsksIfLeader(c: Committee, r: Replica, tc: Option<TC>)
    requires c.authorities != []
  {
    r.name == c.Leader(r.round) ==> ProposerMessage(r.round, r.highQc, tc) in r.proposals
  }

  lemma HandleVoteIs(c: Committee, r: Replica, vote: Vote)
    requires c.authorities != []
    ensures var (makers, added) := WithVote(c, r.makers, vote);
            var r', r1 := HandleVote(c, r, vote), r.(makers := makers);
            if vote.round < r.round || !vote.Verifies(c) then r' == r
            else if added.Ok? && added.value.Some? then
              var r2 := AdvanceRound(r1, added.value.value.round);
              && r'.qcs == r.qcs + [added.value.value] && SameCounts(r2, r')
              && r'.highQc.round >= added.value.value.round && AsksIfLeader(c, r', None)
            else r' == r1
  {
    hide WithVote, AdvanceRound;
  }

  /** What a vote does: one that is late or does not verify changes nothing. Any other completes a QC of its
      block exactly if its author and the members counted before hold a quorum; the QC is then adopted and the
      leader of the round reached asks for a block on it. Otherwise its author is counted. In any case nobody
      counted for an open round is lost. */
  lemma HandleVoteCounts(c: Committee, r: Replica, vote: Vote)
    requires c.authorities != [] && MakersExact(c, r.makers, r.round)
    ensures var r' := HandleVote(c, r, vote);
            && CountsOn(c, r, r')
            && (vote.round < r.round || !vote.Verifies(c) ==> r' == r)
            && (if CompletesQC(c, r, vote) then
                  && |r'.qcs| == |r.qcs| + 1 && r'.qcs[|r.qcs|].round == vote.round < r'.round
                  && r'.qcs[|r.qcs|].hash == vote.hash && r'.highQc.round >= vote.round && AsksIfLeader(c, r', None)
                else r'.qcs == r.qcs && r'.round == r.round)
            && (vote.Verifies(c) && r'.round <= vote.round ==>
                  vote.author in VoteMaker(r'.makers, vote.round, vote.Digest()).used)
  {
    hide AppendVote, VoteMaker, TimeoutMaker, WithVote, AdvanceRound, QCMakerExact, TCMakerExact, HandleVote;
    HandleVoteIs(c, r, vote);
    if vote.round >= r.round && vote.Verifies(c) {
      var (makers, added) := WithVote(c, r.makers, vote);
      WithVoteIs(c, r.makers, vote);
      AppendVoteExact(c, VoteMaker(r.makers, vote.round, vote.Digest()), vote);
      AppendedQCIsForVote(c, VoteMaker(r.makers, vote.round, vote.Digest()), vote);
      if added.Ok? && added.value.Some? {
        AdvanceRoundReaches(r.(makers := makers), vote.round);
        AdvanceRoundCountsOn(c, r.(makers := makers), vote.round);
      }
    }
  }

  // ---- One timeout ----

  lemma CollectTimeoutIs(c: Committee, r: Replica, timeout: Timeout)
    requires c.authorities != []
    ensures var (makers, added) := WithTimeout(c, r.makers, timeout);
            var r', r1 := CollectTimeout(c, r, timeout), r.(makers := makers);
            if added.Ok? && added.value.Some? then
              var r2 := AdvanceRound(r1, added.value.value.round);
              && r'.tcs == r.tcs + [added.value.value] && SameCounts(r2, r')
              && AsksIfLeader(c, r', Some(added.value.value))
            else r' == r1
  {
    hide WithTimeout, AdvanceRound;
  }

  lemma AppendedTCIsForRound(c: Committee, m: TCMaker, timeout: Timeout)
    ensures var added := AppendTimeout(c, m, timeout).1;
            added.Ok? && added.value.Some? ==> added.value.value.round == timeout.round
  {}

  /** Whether the author of a timeout and the members counted before hold a quorum. */
  predicate CompletesTC(c: Committee, a: Makers, timeout: Timeout)
  {
    c.Quorum(TimeoutMaker(a, timeout.round).used + {timeout.author})
  }

  lemma CollectTimeoutCounts(c: Committee, r: Replica, timeout: Timeout)
    requires c.authorities != [] && MakersExact(c, r.makers, r.round)
    ensures var r' := CollectTimeout(c, r, timeout);
            && CountsOn(c, r, r')
            && (timeout.round >= r.round ==>
                  if CompletesTC(c, r.makers, timeout) then
                    && |r'.tcs| == |r.tcs| + 1 && r'.tcs[|r.tcs|].round == timeout.round < r'.round
                    && AsksIfLeader(c, r', Some(r'.tcs[|r.tcs|]))
                  else r'.tcs == r.tcs && r'.round == r.round)
            && (r'.round <= timeout.round ==> timeout.author in TimeoutMaker(r'.makers, timeout.round).used)
  {
    hide AppendTimeout, VoteMaker, TimeoutMaker, WithTimeout, AdvanceRound, QCMakerExact, TCMakerExact, CollectTimeout;
    CollectTimeoutIs(c, r, timeout);
    var (makers, added) := WithTimeout(c, r.makers, timeout);
    WithTimeoutIs(c, r.makers, timeout);
    AppendedTCIsForRound(c, TimeoutMaker(r.makers, timeout.round), timeout);
    if timeout.round >= r.round {
      AppendTimeoutExact(c, TimeoutMaker(r.makers, timeout.round), timeout);
    }
    if added.Ok? && added.value.Some? {
      AdvanceRoundReaches(r.(makers := makers), timeout.round);
      AdvanceRoundCountsOn(c, r.(makers := makers), timeout.round);
    }
  }

  /** What a timeout does: its QC is adopted first. If that leaves its round open, it completes a TC exactly
      if its author and the members counted before hold a quorum, and the leader of the round reached then asks
      for a block on that TC; otherwise its author is counted. */
  lemma HandleTimeoutCounts(c: Committee, r: Replica, timeout: Timeout)
    requires c.authorities != [] && MakersExact(c, r.makers, r.round)
    ensures var r' := HandleTimeout(c, r, timeout);
            && CountsOn(c, r, r')
            && (timeout.Verifies(c) && MaxRound(r.round, timeout.highQc.round + 1) <= timeout.round ==>
                  if CompletesTC(c, r.makers, timeout) then
                    && |r'.tcs| == |r.tcs| + 1 && r'.tcs[|r.tcs|].round == timeout.round < r'.round
                    && AsksIfLeader(c, r', Some(r'.tcs[|r.tcs|]))
                  else r'.tcs == r.tcs && r'.round == MaxRound(r.round, timeout.highQc.round + 1))
            && (timeout.Verifies(c) && r'.round <= timeout.round ==>
                  timeout.author in TimeoutMaker(r'.makers, timeout.round).used)
  {
    hide CountsOn, MakersExact, VoteMaker, TimeoutMaker, CollectTimeout, ProcessQC;
    SameCountsOn(c, r, r);
    if timeout.round >= r.round && timeout.Verifies(c) {
      var r1 := ProcessQC(r, timeout.highQc);
      ProcessQCReaches(r, timeout.highQc);
      ProcessQCCountsOn(c, r, timeout.highQc);
      CountsOnExact(c, r, r1);
      ProcessQCKeepsMaker(c, r, timeout.highQc, timeout.round);
      CollectTimeoutCounts(c, r1, timeout);
      CountsOnTransitive(c, r, r1, CollectTimeout(c, r1, timeout));
    }
  }

  lemma CountsOnExact(c: Committee, r: Replica, r': Replica)
    requires CountsOn(c, r, r') && MakersExact(c, r.makers, r.round)
    ensures MakersExact(c, r'.makers, r'.round)
  {}

  lemma ProcessQCKeepsMaker(c: Committee, r: Replica, qc: QC, k: Round)
    ensures var r' := ProcessQC(r, qc);
            r'.tcs == r.tcs && (k >= r'.round ==> TimeoutMaker(r'.makers, k) == TimeoutMaker(r.makers, k))
  {
    AdvanceRoundCountsOn(c, r, qc.round);
  }

  // ---- Every event ----

  lemma VoteForCountsOn(c: Committee, r: Replica, block: Block)
    requires c.authorities != [] && MakersExact(c, r.makers, r.round)
    ensures CountsOn(c, r, VoteFor(c, r, block))
  {
    hide CountsOn, HandleVote, MakersExact;
    var (r1, vote) := MakeVote(r, block);
    SameCountsOn(c, r, r1);
    if vote.Some? {
      HandleVoteCounts(c, r1, vote.value);
      CountsOnTransitive(c, r, r1, HandleVote(c, r1, vote.value));
    }
  }

  lemma ProcessBlockCountsOn(c: Committee, r: Replica, block: Block)
    requires c.authorities != [] && MakersExact(c, r.makers, r.round)
    ensures CountsOn(c, r, ProcessBlock(c, r, block))
  {
    hide CountsOn, VoteFor, MakersExact;
    var r' := ProcessBlock(c, r, block);
    var b1 := ParentBlock(r.store, block);
    var b0 := if b1.Some? then ParentBlock(r.store, b1.value) else None;
    if b0.Some? {
      var r1 := StoreAndCommit(r, block, b0.value, b1.value);
      SameCountsOn(c, r, r1);
      VoteForCountsOn(c, r1, block);
      CountsOnTransitive(c, r, r1, VoteFor(c, r1, block));
    } else {
      SameCountsOn(c, r, r');
    }
  }

  lemma HandleProposalCountsOn(c: Committee, r: Replica, block: Block, payloadOk: bool)
    requires c.authorities != [] && MakersExact(c, r.makers, r.round)
    ensures CountsOn(c, r, HandleProposal(c, r, block, payloadOk))
  {
    hide CountsOn, ProcessBlock, MakersExact;
    var r1 := AdoptCertificates(r, block);
    SameCountsOn(c, r, r);
    AdoptCountsOn(c, r, block);
    CountsOnExact(c, r, r1);
    ProcessBlockCountsOn(c, r1, block);
    CountsOnTransitive(c, r, r1, ProcessBlock(c, r1, block));
  }

  lemma AdoptCountsOn(c: Committee, r: Replica, block: Block)
    ensures CountsOn(c, r, AdoptCertificates(r, block))
  {
    hide CountsOn, ProcessQC, AdvanceRound;
    var r1 := ProcessQC(r, block.qc);
    ProcessQCCountsOn(c, r, block.qc);
    if block.tc.Some? {
      AdvanceRoundCountsOn(c, r1, block.tc.value.round);
      CountsOnTransitive(c, r, r1, AdvanceRound(r1, block.tc.value.round));
    }
  }

  lemma HandleCountsOn(c: Committee, r: Replica, event: Event)
    requires c.authorities != [] && MakersExact(c, r.makers, r.round)
    ensures CountsOn(c, r, Handle(c, r, event))
  {
    hide CountsOn, ProcessBlock, HandleVote, HandleTimeout, HandleProposal, MakersExact;
    match event
    case Propose(block, payloadOk) => HandleProposalCountsOn(c, r, block, payloadOk);
    case ReceiveVote(vote) => HandleVoteCounts(c, r, vote);
    case ReceiveTimeout(timeout) => HandleTimeoutCounts(c, r, timeout);
    case ReceiveTC(tc) => HandleTCCountsOn(c, r, tc);
    case Timer =>
      SameCountsOn(c, r, SignTimeout(r));
      CountsOnExact(c, r, SignTimeout(r));
      HandleTimeoutCounts(c, SignTimeout(r), SignedTimeoutOf(r));
      CountsOnTransitive(c, r, SignTimeout(r), LocalTimeout(c, r));
    case MakeProposal(message, payload) => SameCountsOn(c, r, MakeBlock(r, message, payload));
    case Loopback(own) => ProcessBlockCountsOn(c, r, own);
    case Resume(waiting) => ProcessBlockCountsOn(c, r, waiting);
  }

  lemma HandleTCCountsOn(c: Committee, r: Replica, tc: TC)
    requires c.authorities != []
    ensures CountsOn(c, r, HandleTC(c, r, tc))
  {
    hide CountsOn, AdvanceRound;
    var r1 := AdvanceRound(r, tc.round);
    AdvanceRoundCountsOn(c, r, tc.round);
    SameCountsOn(c, r1, HandleTC(c, r, tc));
    CountsOnTransitive(c, r, r1, HandleTC(c, r, tc));
  }

  // ---- A quorum moves a replica on ----

  lemma {:induction false} LifeIsExact(c: Committee, name: PublicKey, rs: seq<Replica>, events: seq<Event>, n: nat)
    requires IsLife(c, name, rs, events) && n < |rs|
    ensures MakersExact(c, rs[n].makers, rs[n].round)
  {
    hide Handle;
    if n == 0 {
      WeightEmpty(c.authorities);
    } else {
      LifeIsExact(c, name, rs, events, n - 1);
      HandleCountsOn(c, rs[n - 1], events[n - 1]);
      CountsOnExact(c, rs[n - 1], rs[n]);
    }
  }

  /** The members whose verified votes with this digest are among the events. */
  function Voters(c: Committee, events: seq<Event>, digest: Digest): set<PublicKey>
  {
    set e | e in events && e.ReceiveVote? && e.vote.Verifies(c) && e.vote.Digest() == digest :: e.vote.author
  }

  /** The members whose verified timeouts of this round are among the events. */
  ghost function TimedOutMembers(c: Committee, events: seq<Event>, round: Round): set<PublicKey>
  {
    set e | e in events && e.ReceiveTimeout? && e.timeout.Verifies(c) && e.timeout.round == round :: e.timeout.author
  }

  /** As long as the round of a vote is open, everyone whose verified vote arrived is counted, however early it
      came and whatever happened in between. */
  lemma {:induction false} VotersAreCounted(
    c: Committee, name: PublicKey, rs: seq<Replica>, events: seq<Event>, n: nat, hash: Digest, k: Round)
    requires IsLife(c, name, rs, events) && n < |rs| && rs[n].round <= k
    ensures Voters(c, events[..n], VoteDigest(hash, k)) <= VoteMaker(rs[n].makers, k, VoteDigest(hash, k)).used
  {
    hide Handle, VoteMaker, TimeoutMaker, MakersExact, CompletesQC, AsksIfLeader;
    if n > 0 {
      var r, e, digest := rs[n - 1], events[n - 1], VoteDigest(hash, k);
      LifeIsExact(c, name, rs, events, n - 1);
      HandleCountsOn(c, r, e);
      VotersAreCounted(c, name, rs, events, n - 1, hash, k);
      assert events[..n] == events[..n - 1] + [e];
      if e.ReceiveVote? && e.vote.Verifies(c) && e.vote.Digest() == digest {
        HandleVoteCounts(c, r, e.vote);
        HandleOfVote(c, r, e);
        assert Voters(c, events[..n], digest) == Voters(c, events[..n - 1], digest) + {e.vote.author};
      } else {
        assert Voters(c, events[..n], digest) == Voters(c, events[..n - 1], digest);
      }
    }
  }

  lemma HandleOfVote(c: Committee, r: Replica, event: Event)
    requires c.authorities != [] && (event.ReceiveVote? || event.ReceiveTimeout?)
    ensures event.ReceiveVote? ==> Handle(c, r, event) == HandleVote(c, r, event.vote)
    ensures event.ReceiveTimeout? ==> Handle(c, r, event) == HandleTimeout(c, r, event.timeout)
  {}

  lemma {:induction false} TimedOutMembersAreCounted(
    c: Committee, name: PublicKey, rs: seq<Replica>, events: seq<Event>, n: nat, k: Round)
    requires IsLife(c, name, rs, events) && n < |rs| && rs[n].round <= k
    ensures TimedOutMembers(c, events[..n], k) <= TimeoutMaker(rs[n].makers, k).used
  {
    hide Handle, TimeoutMaker, VoteMaker, MakersExact, CompletesTC, AsksIfLeader;
    if n > 0 {
      var r, e := rs[n - 1], events[n - 1];
      LifeIsExact(c, name, rs, events, n - 1);
      HandleCountsOn(c, r, e);
      TimedOutMembersAreCounted(c, name, rs, events, n - 1, k);
      assert events[..n] == events[..n - 1] + [e];
      if e.ReceiveTimeout? && e.timeout.Verifies(c) && e.timeout.round == k {
        HandleTimeoutCounts(c, r, e.timeout);
        HandleOfVote(c, r, e);
        assert TimedOutMembers(c, events[..n], k) == TimedOutMembers(c, events[..n - 1], k) + {e.timeout.author};
      } else {
        assert TimedOutMembers(c, events[..n], k) == TimedOutMembers(c, events[..n - 1], k);
      }
    }
  }

  lemma {:induction false} LifeKeepsName(c: Committee, name: PublicKey, rs: seq<Replica>, events: seq<Event>, n: nat)
    requires IsLife(c, name, rs, events) && n < |rs|
    ensures rs[n].name == name
  {
    hide Handle;
    if n > 0 {
      LifeKeepsName(c, name, rs, events, n - 1);
      LifeIsExact(c, name, rs, events, n - 1);
      HandleCountsOn(c, rs[n - 1], events[n - 1]);
    }
  }

  // ---- The replica's own votes and timeouts count as well ----

  /** Own votes are counted here if this replica leads the next round, own timeouts always. */
  ghost predicate CountedIfOwn(c: Committee, r: Replica, d: Digest)
    requires c.authorities != []
  {
    && (d.VoteDigest? && r.round <= d.voteRound && r.name == c.Leader(d.voteRound + 1) ==>
          r.name in VoteMaker(r.makers, d.voteRound, d).used)
    && (d.TimeoutDigest? && r.round <= d.timeoutRound ==> r.name in TimeoutMaker(r.makers, d.timeoutRound).used)
  }

  ghost predicate OwnCounted(c: Committee, r: Replica)
    requires c.authorities != []
  {
    forall d | d in r.signed :: CountedIfOwn(c, r, d)
  }

  lemma OwnStayCounted(c: Committee, r: Replica, r': Replica)
    requires c.authorities != [] && OwnCounted(c, r) && CountsOn(c, r, r')
    requires forall d | d in r'.signed && d !in r.signed :: CountedIfOwn(c, r', d)
    ensures OwnCounted(c, r')
  {
    hide VoteMaker, TimeoutMaker, MakersExact;
    forall d | d in r'.signed
      ensures CountedIfOwn(c, r', d)
    {
      if d in r.signed {
        assert CountedIfOwn(c, r, d);
      }
    }
  }

  lemma MadeVoteIs(r: Replica, block: Block)
    ensures var (r1, vote) := MakeVote(r, block);
            && SameCounts(r, r1)
            && (vote.None? ==> r1.signed == r.signed)
            && (vote.Some? ==>
                  && r1.signed == r.signed + {vote.value.Digest()} && vote.value.round == block.round
                  && vote.value.author == r.name && vote.value.signature.Verifies(vote.value.Digest(), r.name))
  {
    hide MayExtend;
  }

  /** The vote is signed and, if this replica leads the next round, counted. */
  lemma VoteForOwnCounted(c: Committee, r: Replica, block: Block)
    requires c.authorities != [] && MakersExact(c, r.makers, r.round) && OwnCounted(c, r)
    requires c.Stake(r.name) > 0 && block.round == r.round
    ensures OwnCounted(c, VoteFor(c, r, block))
  {
    hide CountsOn, HandleVote, MakersExact, VoteMaker, TimeoutMaker, MakeVote, OwnCounted;
    var r' := VoteFor(c, r, block);
    VoteForCountsOn(c, r, block);
    MadeVoteIs(r, block);
    var (r1, vote) := MakeVote(r, block);
    if vote.Some? {
      HandleVoteCounts(c, r1, vote.value);
      HandleVoteSignsNothing(c, r1, vote.value);
    }
    OwnStayCounted(c, r, r');
  }

  lemma SameSignedOwnCounted(c: Committee, r: Replica, r': Replica)
    requires c.authorities != [] && OwnCounted(c, r) && CountsOn(c, r, r')
    requires r'.signed == r.signed
    ensures OwnCounted(c, r')
  {
    hide CountsOn, OwnCounted;
    OwnStayCounted(c, r, r');
  }

  lemma StoreAndCommitSigns(r: Replica, block: Block, b0: Block, b1: Block)
    ensures var r' := StoreAndCommit(r, block, b0, b1);
            SameCounts(r, r') && r'.signed == r.signed
  {
    hide Walk;
  }

  lemma ProcessBlockOwnCounted(c: Committee, r: Replica, block: Block)
    requires c.authorities != [] && MakersExact(c, r.makers, r.round) && OwnCounted(c, r) && c.Stake(r.name) > 0
    ensures OwnCounted(c, ProcessBlock(c, r, block))
  {
    hide CountsOn, VoteFor, MakersExact, OwnCounted, StoreAndCommit;
    var r' := ProcessBlock(c, r, block);
    var b1 := ParentBlock(r.store, block);
    var b0 := if b1.Some? then ParentBlock(r.store, b1.value) else None;
    if b0.Some? {
      var r1 := StoreAndCommit(r, block, b0.value, b1.value);
      StoreAndCommitSigns(r, block, b0.value, b1.value);
      SameCountsOn(c, r, r1);
      SameSignedOwnCounted(c, r, r1);
      if block.round == r1.round {
        VoteForOwnCounted(c, r1, block);
      }
    } else {
      SameCountsOn(c, r, r');
      SameSignedOwnCounted(c, r, r');
    }
  }

  lemma HandleProposalOwnCounted(c: Committee, r: Replica, block: Block, payloadOk: bool)
    requires c.authorities != [] && MakersExact(c, r.makers, r.round) && OwnCounted(c, r) && c.Stake(r.name) > 0
    ensures OwnCounted(c, HandleProposal(c, r, block, payloadOk))
  {
    hide CountsOn, ProcessBlock, MakersExact, OwnCounted, AdoptCertificates;
    var r1 := AdoptCertificates(r, block);
    AdoptCountsOn(c, r, block);
    AdoptEffect(r, block);
    CountsOnExact(c, r, r1);
    SameSignedOwnCounted(c, r, r1);
    ProcessBlockOwnCounted(c, r1, block);
  }

  /** The timer makes the replica's own timeout count, since its own newest QC verifies. */
  lemma LocalTimeoutOwnCounted(c: Committee, r: Replica)
    requires c.authorities != [] && MakersExact(c, r.makers, r.round) && OwnCounted(c, r) && c.Stake(r.name) > 0
    requires ValidQC(c, r.highQc)
    ensures OwnCounted(c, LocalTimeout(c, r))
  {
    hide CountsOn, HandleTimeout, MakersExact, OwnCounted, VoteMaker, TimeoutMaker;
    var r1, timeout := SignTimeout(r), SignedTimeoutOf(r);
    HandleTimeoutCounts(c, r1, timeout);
    SameCountsOn(c, r, r1);
    CountsOnTransitive(c, r, r1, LocalTimeout(c, r));
    HandleTimeoutSignsNothing(c, r1, timeout);
    OwnStayCounted(c, r, LocalTimeout(c, r));
  }

  lemma HandleOwnCounted(c: Committee, r: Replica, event: Event)
    requires c.authorities != [] && MakersExact(c, r.makers, r.round) && OwnCounted(c, r) && c.Stake(r.name) > 0
    requires ValidQC(c, r.highQc)
    ensures OwnCounted(c, Handle(c, r, event))
  {
    hide CountsOn, ProcessBlock, HandleVote, HandleTimeout, HandleProposal, MakersExact, OwnCounted;
    HandleCountsOn(c, r, event);
    match event
    case Propose(block, payloadOk) => HandleProposalOwnCounted(c, r, block, payloadOk);
    case ReceiveVote(vote) =>
      HandleVoteSignsNothing(c, r, vote);
      SameSignedOwnCounted(c, r, HandleVote(c, r, vote));
    case ReceiveTimeout(timeout) =>
      HandleTimeoutSignsNothing(c, r, timeout);
      SameSignedOwnCounted(c, r, HandleTimeout(c, r, timeout));
    case ReceiveTC(tc) => SameSignedOwnCounted(c, r, HandleTC(c, r, tc));
    case Timer => LocalTimeoutOwnCounted(c, r);
    case MakeProposal(message, payload) => OwnStayCounted(c, r, MakeBlock(r, message, payload));
    case Loopback(own) => ProcessBlockOwnCounted(c, r, own);
    case Resume(waiting) => ProcessBlockOwnCounted(c, r, waiting);
  }

  lemma {:induction false} LifeCountsOwn(c: Committee, name: PublicKey, rs: seq<Replica>, events: seq<Event>, n: nat)
    requires IsLife(c, name, rs, events) && n < |rs| && c.Stake(name) > 0
    ensures OwnCounted(c, rs[n])
  {
    hide Handle, MakersExact, CountedIfOwn;
    if n > 0 {
      LifeCountsOwn(c, name, rs, events, n - 1);
      LifeIsExact(c, name, rs, events, n - 1);
      LifeIsLed(c, name, rs, events, n - 1);
      LifeKeepsName(c, name, rs, events, n - 1);
      HandleOwnCounted(c, rs[n - 1], events[n - 1]);
    }
  }

  /** The replica itself, if it has signed a vote that it also has to count. */
  function OwnVoter(c: Committee, r: Replica, digest: Digest): set<PublicKey>
    requires c.authorities != [] && digest.VoteDigest?
  {
    if digest in r.signed && r.name == c.Leader(digest.voteRound + 1) && c.Stake(r.name) > 0 then {r.name} else {}
  }

  /** The replica itself, if its timer expired in this round. */
  ghost function OwnTimedOut(c: Committee, r: Replica, round: Round): set<PublicKey>
  {
    if c.Stake(r.name) > 0 && exists d | d in r.signed :: d.TimeoutDigest? && d.timeoutRound == round
    then {r.name} else {}
  }

  /** A quorum of verified votes for one block of round `k`, the replica's own included if it leads the next
      round, in any order and interleaved with anything else, has moved the replica past round `k` by the time
      the last of them is handled. */
  lemma QuorumOfVotesMovesOn(
    c: Committee, name: PublicKey, rs: seq<Replica>, events: seq<Event>, n: nat, hash: Digest, k: Round)
    requires IsLife(c, name, rs, events) && n < |rs|
    requires c.Quorum(Voters(c, events[..n], VoteDigest(hash, k)) + OwnVoter(c, rs[n], VoteDigest(hash, k)))
    ensures rs[n].round > k
  {
    hide Handle, VoteMaker, TimeoutMaker, Voters;
    if rs[n].round <= k {
      var digest := VoteDigest(hash, k);
      var voters, own := Voters(c, events[..n], digest), OwnVoter(c, rs[n], digest);
      var maker := VoteMaker(rs[n].makers, k, digest);
      VotersAreCounted(c, name, rs, events, n, hash, k);
      if own != {} {
        LifeKeepsName(c, name, rs, events, n);
        LifeCountsOwn(c, name, rs, events, n);
        assert CountedIfOwn(c, rs[n], digest);
      }
      LifeIsExact(c, name, rs, events, n);
      assert QCMakerExact(c, maker);
      WeightMonotone(c.authorities, voters + own, maker.used);
      assert false;
    }
  }

  /** The same for timeouts: a quorum of verified timeouts of round `k`, the replica's own included, moves the
      replica past round `k`. */
  lemma QuorumOfTimeoutsMovesOn(
    c: Committee, name: PublicKey, rs: seq<Replica>, events: seq<Event>, n: nat, k: Round)
    requires IsLife(c, name, rs, events) && n < |rs|
    requires c.Quorum(TimedOutMembers(c, events[..n], k) + OwnTimedOut(c, rs[n], k))
    ensures rs[n].round > k
  {
    hide Handle, VoteMaker, TimeoutMaker, TimedOutMembers;
    if rs[n].round <= k {
      var members, own := TimedOutMembers(c, events[..n], k), OwnTimedOut(c, rs[n], k);
      var maker := TimeoutMaker(rs[n].makers, k);
      TimedOutMembersAreCounted(c, name, rs, events, n, k);
      if own != {} {
        var d :| d in rs[n].signed && d.TimeoutDigest? && d.timeoutRound == k;
        LifeKeepsName(c, name, rs, events, n);
        LifeCountsOwn(c, name, rs, events, n);
        assert CountedIfOwn(c, rs[n], d);
      }
      LifeIsExact(c, name, rs, events, n);
      assert TCMakerExact(c, maker);
      WeightMonotone(c.authorities, members + own, maker.used);
      assert false;
    }
  }
}
