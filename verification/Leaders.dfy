/** Blocks come from the leaders of their rounds: what a replica stores, votes for, makes and delivers. */
module Leaders {
  import opened Wrappers
  import opened Committees
  import opened Messages
  import opened Aggregators
  import opened Evidence
  import opened Replicas
  import opened Invariants
  import opened Steps
  import opened Protocol

  predicate ByLeader(c: Committee, block: Block)
    requires c.authorities != []
  {
    block.author == c.Leader(block.round)
  }

  ghost predicate ValidQC(c: Committee, qc: QC)
  {
    qc.IsGenesis() || qc.Verifies(c)
  }

  /** A block that `name` signed as the leader of its round. */
  ghost predicate OwnBlock(c: Committee, name: PublicKey, block: Block)
    requires c.authorities != []
  {
    block.author == name && ByLeader(c, block) && block.signature.Verifies(block.Digest(), name) && ValidQC(c, block.qc)
  }

  /** The digest of a vote of round `round` for a block that the leader of that round authored. */
  predicate VoteForLeader(c: Committee, v: Digest)
    requires c.authorities != []
  {
    v.VoteDigest? ==> v.hash.BlockDigest? && v.hash.round == v.voteRound && v.hash.author == c.Leader(v.voteRound)
  }

  /** No honest signature has to be assumed genuine here: what is counted has been verified. */
  const NO_EVIDENCE: Evidence := map[]

  ghost predicate Led(c: Committee, r: Replica)
    requires c.authorities != []
  {
    && ValidQC(c, r.highQc) && MakersOk(c, NO_EVIDENCE, r.makers)
    && (forall p | p in r.proposals :: r.name == c.Leader(p.round) && ValidQC(c, p.qc))
    && (forall b | b in r.ownBlocks :: OwnBlock(c, r.name, b))
    && (forall b | b in r.suspended :: ByLeader(c, b))
    && (forall d | d in r.store :: ByLeader(c, r.store[d]))
    && (forall v | v in r.signed :: VoteForLeader(c, v))
    && (forall b | b in r.output :: b == GENESIS || ByLeader(c, b))
  }

  // ---- Every handler keeps it ----

  lemma SameHoldingsLed(c: Committee, r: Replica, r': Replica)
    requires c.authorities != [] && Led(c, r)
    requires r'.name == r.name && r'.proposals == r.proposals && r'.ownBlocks == r.ownBlocks
    requires r'.suspended == r.suspended && r'.store == r.store && r'.signed == r.signed && r'.output == r.output
    requires ValidQC(c, r'.highQc) && MakersOk(c, NO_EVIDENCE, r'.makers)
    ensures Led(c, r')
  {
    hide MakersOk, ValidQC;
  }

  lemma CleanedUpOk(c: Committee, a: Makers, round: Round)
    requires MakersOk(c, NO_EVIDENCE, a)
    ensures MakersOk(c, NO_EVIDENCE, CleanedUp(a, round))
  {
    hide QCMakerOk, TCMakerOk;
    var a' := CleanedUp(a, round);
    forall k, d | k in a'.votes && d in a'.votes[k]
      ensures QCMakerOk(c, NO_EVIDENCE, d, a'.votes[k][d])
    {
      assert k in a.votes && d in a.votes[k];
    }
  }

  lemma AdvanceRoundLed(c: Committee, r: Replica, round: Round)
    requires c.authorities != [] && Led(c, r)
    ensures Led(c, AdvanceRound(r, round))
  {
    hide MakersOk, ValidQC;
    CleanedUpOk(c, r.makers, round + 1);
  }

  lemma ProcessQCLed(c: Committee, r: Replica, qc: QC)
    requires c.authorities != [] && Led(c, r) && ValidQC(c, qc)
    ensures Led(c, ProcessQC(r, qc))
  {
    hide MakersOk, ValidQC, AdvanceRound;
    AdvanceRoundLed(c, r, qc.round);
  }

  lemma ProposeIfLeaderLed(c: Committee, r: Replica, tc: Option<TC>)
    requires c.authorities != [] && Led(c, r)
    ensures Led(c, ProposeIfLeader(c, r, tc))
  {
    hide MakersOk, ValidQC;
  }

  lemma HandleVoteLed(c: Committee, r: Replica, vote: Vote)
    requires c.authorities != [] && Led(c, r)
    ensures Led(c, HandleVote(c, r, vote))
  {
    hide MakersOk, WithVote, ProcessQC, ProposeIfLeader;
    if vote.round >= r.round && vote.Verifies(c) {
      WithVoteOk(c, NO_EVIDENCE, r.makers, vote);
      var (makers, added) := WithVote(c, r.makers, vote);
      var r1 := r.(makers := makers);
      SameHoldingsLed(c, r, r1);
      if added.Ok? && added.value.Some? {
        var qc := added.value.value;
        ProcessQCLed(c, r1, qc);
        SameHoldingsLed(c, ProcessQC(r1, qc), ProcessQC(r1, qc).(qcs := r.qcs + [qc]));
        ProposeIfLeaderLed(c, ProcessQC(r1, qc).(qcs := r.qcs + [qc]), None);
      }
    }
  }

  lemma CollectTimeoutLed(c: Committee, r: Replica, timeout: Timeout)
    requires c.authorities != [] && Led(c, r) && timeout.Verifies(c)
    ensures Led(c, CollectTimeout(c, r, timeout))
  {
    hide MakersOk, WithTimeout, AdvanceRound, ProposeIfLeader;
    WithTimeoutOk(c, NO_EVIDENCE, r.makers, timeout);
    var (makers, added) := WithTimeout(c, r.makers, timeout);
    var r1 := r.(makers := makers);
    SameHoldingsLed(c, r, r1);
    if added.Ok? && added.value.Some? {
      var tc := added.value.value;
      AdvanceRoundLed(c, r1, tc.round);
      SameHoldingsLed(c, AdvanceRound(r1, tc.round), AdvanceRound(r1, tc.round).(tcs := r.tcs + [tc]));
      ProposeIfLeaderLed(c, AdvanceRound(r1, tc.round).(tcs := r.tcs + [tc]), Some(tc));
    }
  }

  lemma HandleTimeoutLed(c: Committee, r: Replica, timeout: Timeout)
    requires c.authorities != [] && Led(c, r)
    ensures Led(c, HandleTimeout(c, r, timeout))
  {
    hide Led, CollectTimeout, ProcessQC;
    if timeout.round >= r.round && timeout.Verifies(c) {
      ProcessQCLed(c, r, timeout.highQc);
      CollectTimeoutLed(c, ProcessQC(r, timeout.highQc), timeout);
    }
  }

  lemma LocalTimeoutLed(c: Committee, r: Replica)
    requires c.authorities != [] && Led(c, r)
    ensures Led(c, LocalTimeout(c, r))
  {
    hide MakersOk, ValidQC, HandleTimeout;
    assert Led(c, SignTimeout(r));
    HandleTimeoutLed(c, SignTimeout(r), SignedTimeoutOf(r));
  }

  lemma HandleTCLed(c: Committee, r: Replica, tc: TC)
    requires c.authorities != [] && Led(c, r)
    ensures Led(c, HandleTC(c, r, tc))
  {
    hide Led, AdvanceRound, ProposeIfLeader;
    AdvanceRoundLed(c, r, tc.round);
    ProposeIfLeaderLed(c, AdvanceRound(r, tc.round), Some(tc));
  }

  /** A walk delivers stored blocks, besides the block it starts from and genesis. */
  lemma {:induction false} WalkStaysInStore(store: Store, lastCommitted: Round, block: Block, b: Block)
    requires Walk(store, lastCommitted, block).Some? && b in Walk(store, lastCommitted, block).value
    ensures b in {block, GENESIS} || b in store.Values
    decreases if block == GENESIS then 0 else 1, block.Digest()
  {
    if b != block {
      var parent := ParentBlock(store, block).value;
      WalkStaysInStore(store, lastCommitted, parent, b);
      if !block.qc.IsGenesis() {
        assert store[block.qc.hash] == parent;
      }
    }
  }

  lemma CommitLed(c: Committee, r: Replica, block: Block)
    requires c.authorities != [] && Led(c, r) && (block == GENESIS || ByLeader(c, block))
    ensures Led(c, Commit(r, block))
  {
    hide MakersOk, ValidQC, Walk;
    var walk := Walk(r.store, r.lastCommittedRound, block);
    if walk.Some? {
      forall b | b in walk.value
        ensures b == GENESIS || ByLeader(c, b)
      {
        WalkStaysInStore(r.store, r.lastCommittedRound, block, b);
      }
    }
  }

  lemma StoreAndCommitLed(c: Committee, r: Replica, block: Block, b0: Block, b1: Block)
    requires c.authorities != [] && Led(c, r) && ByLeader(c, block) && (b0 == GENESIS || ByLeader(c, b0))
    ensures Led(c, StoreAndCommit(r, block, b0, b1))
  {
    hide MakersOk, ValidQC, Commit;
    assert Led(c, StoreBlock(r, block));
    CommitLed(c, StoreBlock(r, block), b0);
  }

  lemma MakeVoteLed(c: Committee, r: Replica, block: Block)
    requires c.authorities != [] && Led(c, r) && ByLeader(c, block)
    ensures Led(c, MakeVote(r, block).0)
  {
    hide MakersOk, ValidQC, MayExtend;
  }

  lemma VoteForLed(c: Committee, r: Replica, block: Block)
    requires c.authorities != [] && Led(c, r) && ByLeader(c, block)
    ensures Led(c, VoteFor(c, r, block))
  {
    hide Led, MakeVote, HandleVote;
    MakeVoteLed(c, r, block);
    var (r1, vote) := MakeVote(r, block);
    if vote.Some? {
      HandleVoteLed(c, r1, vote.value);
    }
  }

  /** Ancestors that are looked up are stored blocks or genesis. */
  lemma FoundByLeader(c: Committee, r: Replica, block: Block)
    requires c.authorities != [] && Led(c, r) && ParentBlock(r.store, block).Some?
    ensures var b := ParentBlock(r.store, block).value; b == GENESIS || ByLeader(c, b)
  {}

  lemma ProcessBlockLed(c: Committee, r: Replica, block: Block)
    requires c.authorities != [] && Led(c, r) && ByLeader(c, block)
    ensures Led(c, ProcessBlock(c, r, block))
  {
    hide MakersOk, ValidQC, VoteFor, StoreAndCommit;
    var b1 := ParentBlock(r.store, block);
    if b1.Some? {
      FoundByLeader(c, r, block);
      var b0 := ParentBlock(r.store, b1.value);
      if b0.Some? {
        FoundByLeader(c, r, b1.value);
        StoreAndCommitLed(c, r, block, b0.value, b1.value);
        VoteForLed(c, StoreAndCommit(r, block, b0.value, b1.value), block);
      }
    }
  }

  lemma HandleProposalLed(c: Committee, r: Replica, block: Block, payloadOk: bool)
    requires c.authorities != [] && Led(c, r)
    ensures Led(c, HandleProposal(c, r, block, payloadOk))
  {
    hide Led, ProcessBlock, ProcessQC, AdvanceRound;
    if block.author == c.Leader(block.round) && block.Verifies(c) {
      ProcessQCLed(c, r, block.qc);
      if block.tc.Some? {
        AdvanceRoundLed(c, ProcessQC(r, block.qc), block.tc.value.round);
      }
      ProcessBlockLed(c, AdoptCertificates(r, block), block);
    }
  }

  lemma MakeBlockLed(c: Committee, r: Replica, p: ProposerMessage, payload: seq<Certificate>)
    requires c.authorities != [] && Led(c, r) && p in r.proposals
    ensures Led(c, MakeBlock(r, p, payload))
  {
    hide MakersOk, ValidQC;
  }

  lemma HandleLed(c: Committee, r: Replica, event: Event)
    requires c.authorities != [] && Led(c, r) && Possible(r, event)
    ensures Led(c, Handle(c, r, event))
  {
    match event
    case Propose(block, payloadOk) => HandleProposalLed(c, r, block, payloadOk);
    case ReceiveVote(vote) => HandleVoteLed(c, r, vote);
    case ReceiveTimeout(timeout) => HandleTimeoutLed(c, r, timeout);
    case ReceiveTC(tc) => HandleTCLed(c, r, tc);
    case Timer => LocalTimeoutLed(c, r);
    case MakeProposal(message, payload) => MakeBlockLed(c, r, message, payload);
    case Loopback(own) => ProcessBlockLed(c, r, own);
    case Resume(waiting) => ProcessBlockLed(c, r, waiting);
  }

  // ---- The life of one replica ----

  /** The states that a replica goes through from its start, and the events that lead from each to the next. */
  ghost predicate IsLife(c: Committee, name: PublicKey, rs: seq<Replica>, events: seq<Event>)
  {
    && c.authorities != [] && |rs| == |events| + 1 && rs[0] == Boot(c, name)
    && forall i | 0 <= i < |events| :: Possible(rs[i], events[i]) && rs[i + 1] == Handle(c, rs[i], events[i])
  }

  lemma {:induction false} LifeIsLed(c: Committee, name: PublicKey, rs: seq<Replica>, events: seq<Event>, n: nat)
    requires IsLife(c, name, rs, events) && n < |rs|
    ensures Led(c, rs[n])
  {
    if n > 0 {
      LifeIsLed(c, name, rs, events, n - 1);
      HandleLed(c, rs[n - 1], events[n - 1]);
    }
  }

  lemma LifeGoesOn(c: Committee, name: PublicKey, rs: seq<Replica>, events: seq<Event>, event: Event)
    requires IsLife(c, name, rs, events) && Possible(rs[|events|], event)
    ensures IsLife(c, name, rs + [Handle(c, rs[|events|], event)], events + [event])
  {
    hide Handle, Possible, Boot;
  }

  lemma LifeStarts(c: Committee, name: PublicKey)
    requires c.authorities != []
    ensures IsLife(c, name, [Boot(c, name)], [])
  {}

  /** What a replica goes through in a run of the system is such a life. */
  lemma {:induction false} LifeInRun(c: Committee, honest: set<PublicKey>, run: seq<System>, i: nat, h: PublicKey)
    returns (rs: seq<Replica>, events: seq<Event>)
    requires IsRun(c, honest, run) && i < |run| && h in honest
    ensures h in run[i] && IsLife(c, h, rs, events) && |rs| == |events| + 1 && rs[|events|] == run[i][h]
  {
    hide Handle, Possible, Deliverable, Boot, IsLife, SignedIn;
    if i == 0 {
      rs, events := [run[0][h]], [];
      LifeStarts(c, h);
    } else {
      rs, events := LifeInRun(c, honest, run, i - 1, h);
      assert Next(c, run[i - 1], run[i]);
      var x, event :| Step(c, run[i - 1], run[i], x, event);
      if x == h {
        LifeGoesOn(c, h, rs, events, event);
        rs, events := rs + [run[i][h]], events + [event];
      }
    }
  }

  lemma MemberIsLed(c: Committee, honest: set<PublicKey>, run: seq<System>, i: nat, h: PublicKey)
    requires IsRun(c, honest, run) && i < |run| && h in honest
    ensures h in run[i] && Led(c, run[i][h])
  {
    hide IsLife, Led;
    var rs, events := LifeInRun(c, honest, run, i, h);
    LifeIsLed(c, h, rs, events, |events|);
  }

  // ---- Theorems ----

  /** In every reachable state, every vote an honest replica has signed is for a block whose author leads the
      round of the vote, and every block it stores or has delivered was authored by the leader of its round. */
  lemma VotesAreForLeaders(c: Committee, honest: set<PublicKey>, run: seq<System>, i: nat, h: PublicKey)
    requires IsRun(c, honest, run) && i < |run| && h in honest
    ensures h in run[i]
    ensures forall v | v in run[i][h].signed :: VoteForLeader(c, v)
    ensures forall d | d in run[i][h].store :: ByLeader(c, run[i][h].store[d])
    ensures forall b | b in run[i][h].output :: b == GENESIS || ByLeader(c, b)
  {
    MemberIsLed(c, honest, run, i, h);
  }

  /** A QC that verifies, from whomever it comes, names a block that the leader of its round authored. */
  lemma VerifiedQCsNameLeaders(c: Committee, honest: set<PublicKey>, run: seq<System>, i: nat, qc: QC)
    requires IsRun(c, honest, run) && i < |run|
    requires qc.Verifies(c) && GenuineQC(SignedIn(run[i]), qc)
    ensures qc.hash.BlockDigest? && qc.hash.round == qc.round && qc.hash.author == c.Leader(qc.round)
  {
    hide Led;
    RunIsOk(c, honest, run, i);
    VerifiedQCIsCertified(c, SignedIn(run[i]), qc);
    var h := CertifiedHasHonestVoter(c, SignedIn(run[i]), qc.hash, qc.round);
    VotesAreForLeaders(c, honest, run, i, h);
    assert VoteForLeader(c, VoteDigest(qc.hash, qc.round));
  }

  /** A block made by an honest member passes every check that another replica makes on it, unless the TC
      it was asked to build on does not verify: only TCs handed over unverified can have that effect. */
  lemma HonestBlocksAreAccepted(
    c: Committee, honest: set<PublicKey>, run: seq<System>, i: nat, h: PublicKey, block: Block)
    requires IsRun(c, honest, run) && i < |run| && h in honest && c.Stake(h) > 0
    requires h in run[i] && block in run[i][h].ownBlocks
    ensures block.author == c.Leader(block.round)
    ensures block.Verifies(c) <==> (block.tc.Some? ==> block.tc.value.Verifies(c))
  {
    MemberIsLed(c, honest, run, i, h);
    assert OwnBlock(c, run[i][h].name, block);
    RunIsOk(c, honest, run, i);
  }
}
