/** Replicas only move forward: nothing delivered is withdrawn, and no counter falls. */
module Progress {
  import opened Wrappers
  import opened Committees
  import opened Messages
  import opened Aggregators
  import opened Replicas
  import opened Blocks
  import opened Protocol

  ghost predicate Onward(r: Replica, r': Replica)
  {
    && r.output <= r'.output && r.store.Keys <= r'.store.Keys && r.signed <= r'.signed
    && r.round <= r'.round && r.lastVotedRound <= r'.lastVotedRound
    && r.lastCommittedRound <= r'.lastCommittedRound && r.highQc.round <= r'.highQc.round
  }

  lemma OnwardTransitive(r: Replica, r': Replica, r'': Replica)
    requires Onward(r, r') && Onward(r', r'')
    ensures Onward(r, r'')
  {}

  lemma ProcessQCOnward(r: Replica, qc: QC)
    ensures Onward(r, ProcessQC(r, qc))
  {}

  lemma HandleVoteOnward(c: Committee, r: Replica, vote: Vote)
    requires c.authorities != []
    ensures Onward(r, HandleVote(c, r, vote))
  {
    hide CleanedUp, AppendVote, VoteMaker;
    var (makers, added) := WithVote(c, r.makers, vote);
    if added.Ok? && added.value.Some? {
      ProcessQCOnward(r.(makers := makers), added.value.value);
    }
  }

  lemma CollectTimeoutOnward(c: Committee, r: Replica, timeout: Timeout)
    requires c.authorities != []
    ensures Onward(r, CollectTimeout(c, r, timeout))
  {}

  lemma HandleTimeoutOnward(c: Committee, r: Replica, timeout: Timeout)
    requires c.authorities != []
    ensures Onward(r, HandleTimeout(c, r, timeout))
  {
    var r1 := ProcessQC(r, timeout.highQc);
    ProcessQCOnward(r, timeout.highQc);
    CollectTimeoutOnward(c, r1, timeout);
    OnwardTransitive(r, r1, CollectTimeout(c, r1, timeout));
  }

  lemma CommitOnward(r: Replica, block: Block)
    ensures Onward(r, Commit(r, block))
  {}

  lemma StoreAndCommitOnward(r: Replica, block: Block, b0: Block, b1: Block)
    ensures Onward(r, StoreAndCommit(r, block, b0, b1))
  {
    CommitOnward(StoreBlock(r, block), b0);
    OnwardTransitive(r, StoreBlock(r, block), StoreAndCommit(r, block, b0, b1));
  }

  lemma VoteForOnward(c: Committee, r: Replica, block: Block)
    requires c.authorities != []
    ensures Onward(r, VoteFor(c, r, block))
  {
    var r1 := MakeVote(r, block).0;
    if VoteFor(c, r, block) != r1 {
      HandleVoteOnward(c, r1, MakeVote(r, block).1.value);
      OnwardTransitive(r, r1, VoteFor(c, r, block));
    }
  }

  lemma ProcessBlockOnward(c: Committee, r: Replica, block: Block)
    requires c.authorities != []
    ensures Onward(r, ProcessBlock(c, r, block))
  {
    var b1 := ParentBlock(r.store, block);
    var b0 := if b1.Some? then ParentBlock(r.store, b1.value) else None;
    if b0.Some? {
      var r1 := StoreAndCommit(r, block, b0.value, b1.value);
      StoreAndCommitOnward(r, block, b0.value, b1.value);
      VoteForOnward(c, r1, block);
      OnwardTransitive(r, r1, VoteFor(c, r1, block));
    }
  }

  lemma HandleProposalOnward(c: Committee, r: Replica, block: Block, payloadOk: bool)
    requires c.authorities != []
    ensures Onward(r, HandleProposal(c, r, block, payloadOk))
  {
    AdoptedOnward(c, r, AdoptCertificates(r, block), block);
    HandleProposalIs(c, r, block, payloadOk);
  }

  lemma AdoptedOnward(c: Committee, r: Replica, r1: Replica, block: Block)
    requires c.authorities != [] && r1 == AdoptCertificates(r, block)
    ensures Onward(r, r1) && Onward(r, ProcessBlock(c, r1, block))
  {
    ProcessBlockOnward(c, r1, block);
    AdoptCertificatesOnward(r, block);
    OnwardTransitive(r, r1, ProcessBlock(c, r1, block));
  }

  lemma AdoptCertificatesOnward(r: Replica, block: Block)
    ensures Onward(r, AdoptCertificates(r, block))
  {}

  lemma HandleOnward(c: Committee, r: Replica, e: Event)
    requires c.authorities != []
    ensures Onward(r, Handle(c, r, e))
  {
    match e
    case Propose(block, payloadOk) => HandleProposalOnward(c, r, block, payloadOk);
    case ReceiveVote(vote) => HandleVoteOnward(c, r, vote);
    case ReceiveTimeout(timeout) => HandleTimeoutOnward(c, r, timeout);
    case ReceiveTC(tc) =>
    case Timer =>
      HandleTimeoutOnward(c, SignTimeout(r), SignedTimeoutOf(r));
      OnwardTransitive(r, SignTimeout(r), LocalTimeout(c, r));
    case MakeProposal(message, payload) =>
    case Loopback(own) => ProcessBlockOnward(c, r, own);
    case Resume(waiting) => ProcessBlockOnward(c, r, waiting);
  }

  lemma NextOnward(c: Committee, s: System, s': System, h: PublicKey)
    requires c.authorities != [] && Next(c, s, s') && h in s
    ensures h in s' && Onward(s[h], s'[h])
  {
    var x, event :| Step(c, s, s', x, event);
    if x == h {
      HandleOnward(c, s[h], event);
    }
  }

  ghost predicate SystemOnward(s: System, s': System)
  {
    forall h | h in s :: h in s' && Onward(s[h], s'[h])
  }

  ghost predicate MovingOn(run: seq<System>)
  {
    forall k, l | 0 <= k && l == k + 1 < |run| :: SystemOnward(run[k], run[l])
  }

  lemma SystemOnwardReflexive(s: System)
    ensures SystemOnward(s, s)
  {}

  lemma SystemOnwardTransitive(s: System, s': System, s'': System)
    requires SystemOnward(s, s') && SystemOnward(s', s'')
    ensures SystemOnward(s, s'')
  {
    forall h | h in s
      ensures h in s'' && Onward(s[h], s''[h])
    {
      OnwardTransitive(s[h], s'[h], s''[h]);
    }
  }

  lemma RunIsMovingOn(c: Committee, honest: set<PublicKey>, run: seq<System>)
    requires IsRun(c, honest, run)
    ensures MovingOn(run)
  {
    forall k, l | 0 <= k && l == k + 1 < |run|
      ensures SystemOnward(run[k], run[l])
    {
      assert Next(c, run[k], run[l]);
      NextSystemOnward(c, run[k], run[l]);
    }
  }

  lemma NextSystemOnward(c: Committee, s: System, s': System)
    requires c.authorities != [] && Next(c, s, s')
    ensures SystemOnward(s, s')
  {
    forall h | h in s
      ensures h in s' && Onward(s[h], s'[h])
    {
      NextOnward(c, s, s', h);
    }
  }

  lemma {:induction false} MovingOnIsMonotone(run: seq<System>, i: nat, j: nat)
    requires MovingOn(run) && i <= j < |run|
    ensures SystemOnward(run[i], run[j])
    decreases j
  {
    hide SystemOnward;
    SystemOnwardReflexive(run[i]);
    if i < j {
      MovingOnIsMonotone(run, i, j - 1);
      SystemOnwardTransitive(run[i], run[j - 1], run[j]);
    }
  }

  /** Nothing is taken back: as a run goes on, an honest replica's output only grows at the end, its
      signatures and stored blocks only accumulate, and its rounds never fall. */
  lemma NothingIsTakenBack(c: Committee, honest: set<PublicKey>, run: seq<System>, i: nat, j: nat, h: PublicKey)
    requires IsRun(c, honest, run) && i <= j < |run| && h in run[i]
    ensures h in run[j] && Onward(run[i][h], run[j][h])
  {
    RunIsMovingOn(c, honest, run);
    MovingOnIsMonotone(run, i, j);
  }
}
