/** The imperative engine of `hotstuff/src/core.rs`. Each method updates the fields in place and is
    proved to have the effect that the functions of `Replicas` describe. */
module Core {
  import opened Wrappers
  import opened Committees
  import opened Messages
  import opened Aggregators
  import opened Replicas

  class Core {
    const name: PublicKey
    const committee: Committee
    const aggregator: Aggregator
    var round: Round
    var lastVotedRound: Round
    var lastCommittedRound: Round
    var highQc: QC
    var store: Store
    var signed: set<Digest>
    var proposals: set<ProposerMessage>
    var ownBlocks: set<Block>
    var suspended: set<Block>
    var output: seq<Block>
    var qcs: seq<QC>
    var tcs: seq<TC>
    var fault: Option<Fault>

    ghost predicate Valid()
      reads this, aggregator
    {
      committee.authorities != [] && aggregator.committee == committee
    }

    ghost function View(): Replica
      reads this, aggregator
    {
      Replica(name, round, lastVotedRound, lastCommittedRound, highQc, store, aggregator.View(),
              signed, proposals, ownBlocks, suspended, output, qcs, tcs, fault)
    }

    constructor (name: PublicKey, committee: Committee)
      requires committee.authorities != []
      ensures Valid() && fresh(aggregator)
      ensures this.name == name && this.committee == committee
      ensures View() == Boot(committee, name)
    {
      this.name := name;
      this.committee := committee;
      aggregator := new Aggregator(committee);
      round, lastVotedRound, lastCommittedRound := 1, 0, 0;
      highQc := GENESIS_QC;
      store := map[];
      signed, proposals, ownBlocks, suspended := {}, {}, {}, {};
      output, qcs, tcs := [], [], [];
      fault := None;
      new;
      if name == committee.Leader(round) {
        GenerateProposal(None);
      }
    }

    method IncreaseLastVotedRound(target: Round)
      requires Valid()
      modifies this`lastVotedRound
      ensures lastVotedRound == MaxRound(old(lastVotedRound), target)
    {
      if target > lastVotedRound {
        lastVotedRound := target;
      }
    }

    method AdvanceRound(target: Round)
      requires Valid()
      modifies this`round, aggregator
      ensures Valid()
      ensures View() == Replicas.AdvanceRound(old(View()), target)
    {
      if target < round {
        return;
      }
      round := target + 1;
      aggregator.Cleanup(round);
    }

    method UpdateHighQC(qc: QC)
      modifies this`highQc
      ensures highQc == if qc.round > old(highQc).round then qc else old(highQc)
    {
      if qc.round > highQc.round {
        highQc := qc;
      }
    }

    method ProcessQC(qc: QC)
      requires Valid()
      modifies this`round, this`highQc, aggregator
      ensures Valid()
      ensures View() == Replicas.ProcessQC(old(View()), qc)
    {
      AdvanceRound(qc.round);
      UpdateHighQC(qc);
    }

    method GenerateProposal(tc: Option<TC>)
      requires Valid()
      modifies this`proposals
      ensures Valid()
      ensures View() == Replicas.GenerateProposal(old(View()), tc)
    {
      proposals := proposals + {ProposerMessage(round, highQc, tc)};
    }

    method HandleVote(vote: Vote)
      requires Valid()
      modifies this, aggregator
      ensures Valid()
      ensures View() == Replicas.HandleVote(committee, old(View()), vote)
    {
      if vote.round < round || !vote.Verifies(committee) {
        return;
      }
      var added := aggregator.AddVote(vote);
      if added.Ok? && added.value.Some? {
        var qc := added.value.value;
        assert View() == old(View()).(makers := WithVote(committee, old(View()).makers, vote).0);
        ProcessQC(qc);
        qcs := qcs + [qc];
        if name == committee.Leader(round) {
          GenerateProposal(None);
        }
      }
    }

    method HandleTimeout(timeout: Timeout)
      requires Valid()
      modifies this, aggregator
      ensures Valid()
      ensures View() == Replicas.HandleTimeout(committee, old(View()), timeout)
    {
      if timeout.round < round {
        return;
      }
      var verified := VerifyTimeout(committee, timeout);
      if verified.Err? {
        return;
      }
      ProcessQC(timeout.highQc);
      var added := aggregator.AddTimeout(timeout);
      if added.Ok? && added.value.Some? {
        var tc := added.value.value;
        AdvanceRound(tc.round);
        tcs := tcs + [tc];
        if name == committee.Leader(round) {
          GenerateProposal(Some(tc));
        }
      }
    }

    method LocalTimeoutRound()
      requires Valid()
      modifies this, aggregator
      ensures Valid()
      ensures View() == LocalTimeout(committee, old(View()))
    {
      IncreaseLastVotedRound(round);
      var digest := TimeoutDigest(round, highQc.round);
      signed := signed + {digest};
      var timeout := Timeout(highQc, round, name, Signature(name, digest));
      HandleTimeout(timeout);
    }

    method HandleTC(tc: TC)
      requires Valid()
      modifies this, aggregator
      ensures Valid()
      ensures View() == Replicas.HandleTC(committee, old(View()), tc)
    {
      AdvanceRound(tc.round);
      if name == committee.Leader(round) {
        GenerateProposal(Some(tc));
      }
    }

    method MakeVote(block: Block) returns (vote: Option<Vote>)
      requires Valid()
      modifies this`lastVotedRound, this`signed, this`fault
      ensures Valid()
      ensures (View(), vote) == Replicas.MakeVote(old(View()), block)
    {
      var safetyRule1 := block.round > lastVotedRound;
      var safetyRule2 := block.qc.round + 1 == block.round;
      if block.tc.Some? {
        var tc := block.tc.value;
        var canExtend := tc.round + 1 == block.round;
        if tc.votes == [] {
          fault := Some(EmptyTC);
          return None;
        }
        canExtend := canExtend && block.qc.round >= Max(tc.HighQcRounds());
        safetyRule2 := safetyRule2 || canExtend;
      }
      if !(safetyRule1 && safetyRule2) {
        return None;
      }
      IncreaseLastVotedRound(block.round);
      var digest := VoteDigest(block.Digest(), block.round);
      signed := signed + {digest};
      return Some(Vote(block.Digest(), block.round, name, Signature(name, digest)));
    }

    /** `commit`: collect the ancestors newest first, then send them out oldest first. */
    method Commit(block: Block)
      requires Valid()
      modifies this`lastCommittedRound, this`output, this`fault
      ensures Valid()
      ensures View() == Replicas.Commit(old(View()), block)
    {
      if lastCommittedRound >= block.round {
        return;
      }
      var toCommit := [block];
      var parent := block;
      ghost var walk := Walk(store, lastCommittedRound, block);
      assert walk.Some? ==> walk.value + Reversed([]) == walk.value;
      while lastCommittedRound + 1 < parent.round
        invariant toCommit != [] && toCommit[|toCommit| - 1] == parent
        invariant Valid() && View() == old(View())
        invariant walk == ThenNewest(Walk(store, lastCommittedRound, parent), toCommit)
        decreases if parent == GENESIS then 0 else 1, parent.Digest()
      {
        var ancestor := ParentBlock(store, parent);
        if ancestor.None? {
          assert Walk(store, lastCommittedRound, parent) == None;
          assert walk == None;
          fault := Some(MissingAncestor);
          return;
        }
        WalkGoesOn(store, lastCommittedRound, parent, ancestor.value, toCommit);
        toCommit := toCommit + [ancestor.value];
        parent := ancestor.value;
      }
      assert Walk(store, lastCommittedRound, parent) == Some([parent]);
      assert walk == Some(Reversed(toCommit));
      assert Replicas.Commit(View(), block)
          == View().(lastCommittedRound := block.round, output := output + Reversed(toCommit));
      lastCommittedRound := block.round;
      SendNewestLast(toCommit);
    }

    /** The second loop of `commit` pops the collected blocks from the back. */
    method SendNewestLast(blocks: seq<Block>)
      modifies this`output
      ensures output == old(output) + Reversed(blocks)
    {
      var toCommit := blocks;
      while toCommit != []
        invariant output + Reversed(toCommit) == old(output) + Reversed(blocks)
      {
        var last := toCommit[|toCommit| - 1];
        assert output + Reversed(toCommit) == (output + [last]) + Reversed(toCommit[..|toCommit| - 1]);
        toCommit := toCommit[..|toCommit| - 1];
        output := output + [last];
      }
      assert output + [] == output;
    }

    /** The last step of `process_block`: vote, and count the vote when leading the next round. */
    method VoteFor(block: Block)
      requires Valid()
      modifies this, aggregator
      ensures Valid()
      ensures View() == Replicas.VoteFor(committee, old(View()), block)
    {
      var vote := MakeVote(block);
      if vote.Some? {
        var nextLeader := committee.Leader(round + 1);
        if nextLeader == name {
          HandleVote(vote.value);
        }
      }
    }

    method ProcessBlock(block: Block)
      requires Valid()
      modifies this, aggregator
      ensures Valid()
      ensures View() == Replicas.ProcessBlock(committee, old(View()), block)
    {
      var b1 := ParentBlock(store, block);
      if b1.None? {
        suspended := suspended + {block};
        return;
      }
      var b0 := ParentBlock(store, b1.value);
      if b0.None? {
        suspended := suspended + {b1.value};
        fault := Some(MissingAncestor);
        return;
      }
      store := store[block.Digest() := block];
      assert View() == StoreBlock(old(View()), block);
      if b0.value.round + 1 == b1.value.round {
        Commit(b0.value);
        if fault.Some? {
          return;
        }
      }
      if block.round != round || fault.Some? {
        return;
      }
      VoteFor(block);
    }

    /** The verdict on the payload certificates is an input. */
    method HandleProposal(block: Block, payloadOk: bool)
      requires Valid()
      modifies this, aggregator
      ensures Valid()
      ensures View() == Replicas.HandleProposal(committee, old(View()), block, payloadOk)
    {
      if block.author != committee.Leader(block.round) {
        return;
      }
      var verified := VerifyBlock(committee, block);
      if verified.Err? {
        return;
      }
      ProcessQC(block.qc);
      if block.tc.Some? {
        AdvanceRound(block.tc.value.round);
      }
      if payloadOk {
        ProcessBlock(block);
      }
    }
  }

  function Reversed(blocks: seq<Block>): seq<Block>
  {
    if blocks == [] then [] else [blocks[|blocks| - 1]] + Reversed(blocks[..|blocks| - 1])
  }

  /** The blocks of a walk up to the newest of `toCommit`, followed by the others, oldest first. */
  function ThenNewest(walk: Option<seq<Block>>, toCommit: seq<Block>): Option<seq<Block>>
    requires toCommit != []
  {
    match walk
    case None => None
    case Some(blocks) => Some(blocks + Reversed(toCommit[..|toCommit| - 1]))
  }

  lemma WalkGoesOn(store: Store, lastCommitted: Round, parent: Block, ancestor: Block, toCommit: seq<Block>)
    requires toCommit != [] && toCommit[|toCommit| - 1] == parent
    requires lastCommitted + 1 < parent.round && ParentBlock(store, parent) == Some(ancestor)
    ensures ThenNewest(Walk(store, lastCommitted, parent), toCommit)
         == ThenNewest(Walk(store, lastCommitted, ancestor), toCommit + [ancestor])
  {
    var init, rest := toCommit[..|toCommit| - 1], Walk(store, lastCommitted, ancestor);
    assert (toCommit + [ancestor])[..|toCommit|] == toCommit;
    if rest.Some? {
      assert rest.value + ([parent] + Reversed(init)) == (rest.value + [parent]) + Reversed(init);
    }
  }
}
