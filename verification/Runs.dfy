/** Concrete runs: they show that the theorems about runs speak about something, and where the engine
    falls short of what one might expect of it. */
module Runs {
  import opened Wrappers
  import opened Committees
  import opened Messages
  import opened Aggregators
  import opened Replicas
  import opened Evidence
  import opened Invariants
  import opened Protocol
  import opened Panics

  /** The run in which only `h` moves, through the states `rs`. */
  ghost function AloneOn(s: System, h: PublicKey, rs: seq<Replica>): (run: seq<System>)
    ensures |run| == |rs| && forall i | 0 <= i < |rs| :: run[i] == s[h := rs[i]]
  {
    seq(|rs|, i requires 0 <= i < |rs| => s[h := rs[i]])
  }

  /** Nobody else's signature is needed for the event. */
  ghost predicate Unsigned(event: Event)
  {
    match event
    case ReceiveTC(tc) => tc.votes == []
    case _ => event.Timer? || event.MakeProposal? || event.Loopback? || event.Resume?
  }

  ghost function Started(c: Committee, honest: set<PublicKey>): System
    requires c.authorities != []
  {
    map h | h in honest :: Boot(c, h)
  }

  lemma AloneIsRun(
    c: Committee, honest: set<PublicKey>, h: PublicKey, rs: seq<Replica>, events: seq<Event>) returns (run: seq<System>)
    requires c.authorities != [] && FaultBound(c, honest) && h in honest
    requires Handled(c, rs, events) && rs[0] == Boot(c, h)
    ensures IsRun(c, honest, run) && |run| == |rs|
    ensures forall i | 0 <= i < |rs| :: h in run[i] && run[i][h] == rs[i]
  {
    var s := Started(c, honest);
    run := AloneOn(s, h, rs);
    assert s[h := rs[0]] == s;
    forall i, j | 0 <= i && j == i + 1 < |run|
      ensures Next(c, run[i], run[j])
    {
      AloneStep(c, s, h, rs[i], events[i], rs[j]);
    }
  }

  lemma AloneStep(c: Committee, s: System, h: PublicKey, r: Replica, event: Event, r': Replica)
    requires c.authorities != [] && h in s && HandledOne(c, r, event, r')
    ensures Next(c, s[h := r], s[h := r'])
  {
    assert s[h := r][h := r'] == s[h := r'];
    assert Step(c, s[h := r], s[h := r'], h, event);
  }

  ghost predicate HandledOne(c: Committee, r: Replica, event: Event, r': Replica)
    requires c.authorities != []
  {
    Unsigned(event) && Possible(r, event) && r' == Handle(c, r, event)
  }

  /** The states of a replica that handles the events in turn. */
  ghost predicate Handled(c: Committee, rs: seq<Replica>, events: seq<Event>)
    requires c.authorities != []
  {
    && |rs| == |events| + 1
    && forall i, j | 0 <= i && j == i + 1 < |rs| :: HandledOne(c, rs[i], events[i], rs[j])
  }

  /** In every committee whose first leader is honest, a TC without votes brings that leader down. */
  lemma EmptyTCStopsFirstLeader(c: Committee, honest: set<PublicKey>)
    requires c.authorities != [] && FaultBound(c, honest) && c.Leader(1) in honest
    ensures exists run: seq<System> :: IsRun(c, honest, run) && |run| == 4
                       && c.Leader(1) in run[3] && run[3][c.Leader(1)].fault == Some(EmptyTC)
  {
    var rs, events := EmptyTCSteps(c, honest, c.Leader(1));
    var run := AloneIsRun(c, honest, c.Leader(1), rs, events);
  }

  lemma EmptyTCSteps(c: Committee, honest: set<PublicKey>, h: PublicKey)
    returns (rs: seq<Replica>, events: seq<Event>)
    requires c.authorities != [] && FaultBound(c, honest) && h == c.Leader(1) && h in honest
    ensures Handled(c, rs, events) && |rs| == 4 && rs[0] == Boot(c, h) && rs[3].fault == Some(EmptyTC)
  {
    var r0, tc := Boot(c, h), TC(0, []);
    var r1 := HandleTC(c, r0, tc);
    var p := ProposerMessage(r1.round, r1.highQc, Some(tc));
    var r2 := MakeBlock(r1, p, []);
    var own := ProposedBlock(h, p, []);
    var r3 := ProcessBlock(c, r2, own);
    FirstLeaderIsGood(c, honest, h);
    HarmfulTCPanicsIffParentStored(c, SignedIn(Started(c, honest)), r0, tc, []);
    rs, events := [r0, r1, r2, r3], [ReceiveTC(tc), MakeProposal(p, []), Loopback(own)];
    HandledByThree(c, r0, r1, r2, r3, events[0], events[1], events[2]);
  }

  lemma HandledByThree(
    c: Committee, r0: Replica, r1: Replica, r2: Replica, r3: Replica, e0: Event, e1: Event, e2: Event)
    requires c.authorities != []
    requires HandledOne(c, r0, e0, r1) && HandledOne(c, r1, e1, r2) && HandledOne(c, r2, e2, r3)
    ensures Handled(c, [r0, r1, r2, r3], [e0, e1, e2])
  {}

  lemma FirstLeaderIsGood(c: Committee, honest: set<PublicKey>, h: PublicKey)
    requires c.authorities != [] && FaultBound(c, honest) && h in honest
    ensures Good(c, SignedIn(Started(c, honest)), Boot(c, h))
  {
    InitOk(c, honest, Started(c, honest));
  }

  // ---- A run that skips a round ----

  const SOLO: Committee := Committee([Authority(0, 1)])

  lemma SoloFacts(round: Round)
    ensures SOLO.Leader(round) == 0 && SOLO.Stake(0) == 1 && SOLO.QuorumThreshold() == 1
    ensures FaultBound(SOLO, {0})
  {
    assert SOLO.Total() == 1 + Sum(SOLO.authorities[1..]);
    assert FaultyNames(SOLO, {0}) == {};
    assert SOLO.StakeIn({}) == 0 + Weight(SOLO.authorities[1..], {});
  }

  /** The replica may vote in its round and has counted no vote yet. */
  predicate Ready(r: Replica)
  {
    && r.name == 0 && r.fault.None? && r.makers.votes == map[]
    && r.lastVotedRound < r.round && r.highQc.round < r.round
  }

  /** Voting for a block of its round takes the only replica to the next round. */
  lemma SoloVote(r: Replica, block: Block, r': Replica)
    requires Ready(r) && block.round == r.round && r' == VoteFor(SOLO, r, block)
    requires HasVotes(block.tc) && MayExtend(block)
    ensures Ready(r') && r'.round == r.round + 1
    ensures r'.highQc.hash == block.Digest() && r'.highQc.round == block.round
    ensures ProposerMessage(r'.round, r'.highQc, None) in r'.proposals
    ensures r'.store == r.store && r'.output == r.output && r'.lastCommittedRound == r.lastCommittedRound
  {
    SoloFacts(r.round + 1);
    var (r1, vote) := MakeVote(r, block);
    assert r1.makers == r.makers && vote.value.Verifies(SOLO);
    SoloVoteCounts(r1, vote.value, r');
  }

  lemma SoloVoteCounts(r: Replica, vote: Vote, r': Replica)
    requires r.name == 0 && r.makers.votes == map[] && r.highQc.round < r.round && r.fault.None?
    requires vote.round == r.round && vote.author == 0 && vote.Verifies(SOLO) && r' == HandleVote(SOLO, r, vote)
    ensures r'.round == r.round + 1 && r'.makers.votes == map[]
    ensures r'.highQc.hash == vote.hash && r'.highQc.round == vote.round
    ensures ProposerMessage(r'.round, r'.highQc, None) in r'.proposals
    ensures r'.store == r.store && r'.output == r.output && r'.lastCommittedRound == r.lastCommittedRound
    ensures r'.fault.None? && r'.name == 0 && r'.lastVotedRound == r.lastVotedRound
  {
    SoloFacts(r.round + 1);
    var (makers, added) := WithVote(SOLO, r.makers, vote);
    assert added.Ok? && added.value.Some?;
    assert forall k | k in makers.votes :: k == vote.round;
    assert CleanedUp(makers, vote.round + 1).votes == map[];
  }

  /** Turning a request into a block and processing it. */
  function OwnRound(r: Replica, p: ProposerMessage): Replica
  {
    ProcessBlock(SOLO, MakeBlock(r, p, []), ProposedBlock(0, p, []))
  }

  lemma SoloRound(r: Replica, p: ProposerMessage, own: Block, b1: Block, b0: Block, r': Replica)
    requires Ready(r) && p in r.proposals && p.round == r.round && own == ProposedBlock(0, p, [])
    requires HasVotes(p.tc) && MayExtend(own) && r' == OwnRound(r, p)
    requires ParentBlock(r.store, own) == Some(b1) && ParentBlock(r.store, b1) == Some(b0)
    requires b0.round + 1 == b1.round ==> Walk(r.store[own.Digest() := own], r.lastCommittedRound, b0).Some?
    ensures Ready(r') && r'.round == r.round + 1
    ensures r'.highQc.hash == own.Digest() && r'.highQc.round == own.round
    ensures ProposerMessage(r'.round, r'.highQc, None) in r'.proposals
    ensures r'.store == r.store[own.Digest() := own]
    ensures if b0.round + 1 != b1.round || r.lastCommittedRound >= b0.round then
              r'.output == r.output && r'.lastCommittedRound == r.lastCommittedRound
            else
              && r'.output == r.output + Walk(r'.store, r.lastCommittedRound, b0).value
              && r'.lastCommittedRound == b0.round
  {
    hide VoteFor, MakeVote, MayExtend, Walk;
    var r1 := StoreAndCommit(MakeBlock(r, p, []), own, b0, b1);
    SoloVote(r1, own, VoteFor(SOLO, r1, own));
  }

  lemma HandledAppend(c: Committee, rs: seq<Replica>, events: seq<Event>, event: Event, r': Replica)
    requires c.authorities != [] && Handled(c, rs, events) && HandledOne(c, rs[|rs| - 1], event, r')
    ensures Handled(c, rs + [r'], events + [event])
  {
    var rs', events' := rs + [r'], events + [event];
    forall i, j | 0 <= i && j == i + 1 < |rs'|
      ensures HandledOne(c, rs'[i], events'[i], rs'[j])
    {
      assert j < |rs| ==> rs'[i] == rs[i] && rs'[j] == rs[j] && events'[i] == events[i];
      assert j == |rs| ==> rs'[i] == rs[|rs| - 1] && events'[i] == event;
    }
  }

  lemma HandledOwnRound(rs: seq<Replica>, events: seq<Event>, p: ProposerMessage)
    returns (rs': seq<Replica>, events': seq<Event>)
    requires Handled(SOLO, rs, events) && Ready(rs[|rs| - 1]) && p in rs[|rs| - 1].proposals
    ensures Handled(SOLO, rs', events') && |rs'| == |rs| + 2 && rs'[0] == rs[0]
    ensures rs'[|rs'| - 1] == OwnRound(rs[|rs| - 1], p)
  {
    var r, own := rs[|rs| - 1], ProposedBlock(0, p, []);
    var r1 := MakeBlock(r, p, []);
    HandledAppend(SOLO, rs, events, MakeProposal(p, []), r1);
    HandledAppend(SOLO, rs + [r1], events + [MakeProposal(p, [])], Loopback(own), OwnRound(r, p));
    rs', events' := rs + [r1] + [OwnRound(r, p)], events + [MakeProposal(p, [])] + [Loopback(own)];
  }

  /** The only replica's timeout completes a certificate and skips round 1. */
  lemma SoloTimeout(r: Replica) returns (tc: TC)
    requires r == LocalTimeout(SOLO, Boot(SOLO, 0))
    ensures Ready(r) && r.round == 2 && r.store == map[] && r.output == [] && r.lastCommittedRound == 0
    ensures tc.round == 1 && tc.votes != [] && Max(tc.HighQcRounds()) == 0
    ensures ProposerMessage(2, GENESIS_QC, Some(tc)) in r.proposals
  {
    SoloFacts(1);
    SoloFacts(2);
    var r0 := SignTimeout(Boot(SOLO, 0));
    var timeout := SignedTimeoutOf(Boot(SOLO, 0));
    assert timeout.Verifies(SOLO);
    assert ProcessQC(r0, GENESIS_QC) == r0;
    tc := SoloTimeoutCounts(r0, timeout, r);
  }

  lemma SoloTimeoutCounts(r: Replica, timeout: Timeout, r': Replica) returns (tc: TC)
    requires r.name == 0 && r.round == 1 && r.makers == NO_MAKERS && r.highQc == GENESIS_QC
    requires r.fault.None? && r.lastVotedRound == 1
    requires timeout.round == 1 && timeout.author == 0 && timeout.highQc == GENESIS_QC
    requires r' == CollectTimeout(SOLO, r, timeout)
    ensures Ready(r') && r'.round == 2
    ensures r'.store == r.store && r'.output == r.output && r'.lastCommittedRound == r.lastCommittedRound
    ensures tc.round == 1 && tc.votes != [] && Max(tc.HighQcRounds()) == 0
    ensures ProposerMessage(2, GENESIS_QC, Some(tc)) in r'.proposals
  {
    SoloFacts(2);
    var (makers, added) := WithTimeout(SOLO, r.makers, timeout);
    assert added.Ok? && added.value.Some?;
    tc := added.value.value;
    assert tc.votes == [SignedTimeout(0, timeout.signature, 0)];
    assert tc.HighQcRounds() == [0];
    assert CleanedUp(makers, 2).votes == map[];
  }

  lemma SoloSteps() returns (rs: seq<Replica>, events: seq<Event>, b2: Block, b3: Block)
    ensures Handled(SOLO, rs, events) && |rs| == 6 && rs[0] == Boot(SOLO, 0)
    ensures Ready(rs[5]) && rs[5].round == 4 && rs[5].output == [] && rs[5].lastCommittedRound == 0
    ensures b2.qc == GENESIS_QC && b2.round == 2 && b3.qc.hash == b2.Digest() && b3.round == 3
    ensures b2.Digest() in rs[5].store && rs[5].store[b2.Digest()] == b2
    ensures b3.Digest() in rs[5].store && rs[5].store[b3.Digest()] == b3
    ensures rs[5].highQc.hash == b3.Digest() && rs[5].highQc.round == 3
    ensures ProposerMessage(4, rs[5].highQc, None) in rs[5].proposals
  {
    hide OwnRound, Handled, LocalTimeout;
    SoloFacts(1);
    var r1 := LocalTimeout(SOLO, Boot(SOLO, 0));
    var tc := SoloTimeout(r1);
    HandledAppend(SOLO, [Boot(SOLO, 0)], [], Timer, r1);
    rs, events := [Boot(SOLO, 0)] + [r1], [] + [Timer];
    var p2 := ProposerMessage(2, GENESIS_QC, Some(tc));
    b2 := ProposedBlock(0, p2, []);
    rs, events := HandledOwnRound(rs, events, p2);
    var r3 := rs[3];
    SoloRound(r1, p2, b2, GENESIS, GENESIS, r3);
    var p3 := ProposerMessage(3, r3.highQc, None);
    b3 := ProposedBlock(0, p3, []);
    rs, events := HandledOwnRound(rs, events, p3);
    SoloRound(r3, p3, b3, b2, GENESIS, rs[5]);
  }

  lemma SoloCommit(r: Replica, p: ProposerMessage, b2: Block, b3: Block, r': Replica)
    requires Ready(r) && r.round == 4 && r.output == [] && r.lastCommittedRound == 0
    requires b2.qc == GENESIS_QC && b2.round == 2 && b3.qc.hash == b2.Digest() && b3.round == 3
    requires b2.Digest() in r.store && r.store[b2.Digest()] == b2
    requires b3.Digest() in r.store && r.store[b3.Digest()] == b3
    requires r.highQc.hash == b3.Digest() && r.highQc.round == 3
    requires p == ProposerMessage(4, r.highQc, None) && p in r.proposals && r' == OwnRound(r, p)
    ensures r'.output == [GENESIS, b2] && r'.lastCommittedRound == 2
  {
    var b4 := ProposedBlock(0, p, []);
    assert Walk(r.store[b4.Digest() := b4], 0, GENESIS) == Some([GENESIS]);
    assert Walk(r.store[b4.Digest() := b4], 0, b2) == Some([GENESIS] + [b2]);
    SoloRound(r, p, b4, b3, b2, r');
  }

  predicate RepeatsGenesis(s: System, block: Block)
  {
    && 0 in s && s[0].output == [GENESIS, block] && s[0].lastCommittedRound == block.round == 2
    && block.qc == GENESIS_QC && block != GENESIS
  }

  /** A committed block whose round follows a skipped one makes the engine deliver the block committed
      before it once more, here genesis. The run needs no fault: a timeout, then three proposals. It
      also shows that the theorems about delivered blocks speak about runs that deliver some. */
  lemma SkippedRoundRepeatsGenesis()
    ensures exists run: seq<System>, b2 :: IsRun(SOLO, {0}, run) && |run| == 8 && RepeatsGenesis(run[7], b2)
  {
    var rs, events, b2, b3 := SoloSteps();
    var r5, p4 := rs[5], ProposerMessage(4, rs[5].highQc, None);
    rs, events := HandledOwnRound(rs, events, p4);
    SoloCommit(r5, p4, b2, b3, rs[7]);
    SoloFacts(1);
    var run := AloneIsRun(SOLO, {0}, 0, rs, events);
    assert RepeatsGenesis(run[7], b2);
  }
}
