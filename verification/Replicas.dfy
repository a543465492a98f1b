/** What one replica does on each event, as functions on its state: the specification of
    `hotstuff/src/core.rs`, together with the two tasks that feed its loopback channel, the
    proposer and the synchronizer. */
module Replicas {
  import opened Wrappers
  import opened Committees
  import opened Messages
  import opened Aggregators

  /** Blocks are stored under their digest. */
  type Store = s: map<Digest, Block> | forall d | d in s :: s[d].Digest() == d witness map[]

  /** The request sent to the proposer when this replica leads a round. */
  datatype ProposerMessage = ProposerMessage(round: Round, qc: QC, tc: Option<TC>)

  /** The two `expect`s of the engine that could bring it down. */
  datatype Fault = EmptyTC | MissingAncestor

  datatype Replica = Replica(
    name: PublicKey,
    round: Round,
    lastVotedRound: Round,
    lastCommittedRound: Round,
    highQc: QC,
    store: Store,
    makers: Makers,
    /** Every digest given to the signature service so far. */
    signed: set<Digest>,
    /** Messages sent to the proposer, and the blocks it made of them. */
    proposals: set<ProposerMessage>,
    ownBlocks: set<Block>,
    /** Blocks handed to the synchronizer because their parent was missing. */
    suspended: set<Block>,
    /** The blocks sent to the application, oldest first. */
    output: seq<Block>,
    /** The certificates assembled from votes and timeouts, oldest first. */
    qcs: seq<QC>,
    tcs: seq<TC>,
    /** Set when the engine has panicked. */
    fault: Option<Fault>)

  function MaxRound(a: Round, b: Round): Round
  {
    if a >= b then a else b
  }

  ghost function Boot(c: Committee, name: PublicKey): Replica
    requires c.authorities != []
  {
    Replica(name, 1, 0, 0, GENESIS_QC, map[], NO_MAKERS, {},
            if name == c.Leader(1) then {ProposerMessage(1, GENESIS_QC, None)} else {},
            {}, {}, [], [], [], None)
  }

  // ---- Rounds and quorum certificates ----

  function AdvanceRound(r: Replica, round: Round): Replica
  {
    if round < r.round then r
    else r.(round := round + 1, makers := CleanedUp(r.makers, round + 1))
  }

  function ProcessQC(r: Replica, qc: QC): Replica
  {
    var r1 := AdvanceRound(r, qc.round);
    if qc.round > r1.highQc.round then r1.(highQc := qc) else r1
  }

  function GenerateProposal(r: Replica, tc: Option<TC>): Replica
  {
    r.(proposals := r.proposals + {ProposerMessage(r.round, r.highQc, tc)})
  }

  /** Proposes when this replica leads its current round. */
  function ProposeIfLeader(c: Committee, r: Replica, tc: Option<TC>): Replica
    requires c.authorities != []
  {
    if r.name == c.Leader(r.round) then GenerateProposal(r, tc) else r
  }

  // ---- Votes and timeouts ----

  function HandleVote(c: Committee, r: Replica, vote: Vote): Replica
    requires c.authorities != []
  {
    if vote.round < r.round || !vote.Verifies(c) then r
    else
      var (makers, added) := WithVote(c, r.makers, vote);
      var r1 := r.(makers := makers);
      if added.Ok? && added.value.Some? then
        var qc := added.value.value;
        ProposeIfLeader(c, ProcessQC(r1, qc).(qcs := r.qcs + [qc]), None)
      else r1
  }

  /** Counts a verified timeout and moves on when it completes a certificate. */
  function CollectTimeout(c: Committee, r: Replica, timeout: Timeout): Replica
    requires c.authorities != []
  {
    var (makers, added) := WithTimeout(c, r.makers, timeout);
    var r1 := r.(makers := makers);
    if added.Ok? && added.value.Some? then
      var tc := added.value.value;
      ProposeIfLeader(c, AdvanceRound(r1, tc.round).(tcs := r.tcs + [tc]), Some(tc))
    else r1
  }

  ghost function HandleTimeout(c: Committee, r: Replica, timeout: Timeout): Replica
    requires c.authorities != []
  {
    if timeout.round < r.round || !timeout.Verifies(c) then r
    else CollectTimeout(c, ProcessQC(r, timeout.highQc), timeout)
  }

  function SignedTimeoutOf(r: Replica): Timeout
  {
    Timeout(r.highQc, r.round, r.name, Signature(r.name, TimeoutDigest(r.round, r.highQc.round)))
  }

  function SignTimeout(r: Replica): Replica
  {
    r.(lastVotedRound := MaxRound(r.lastVotedRound, r.round),
       signed := r.signed + {TimeoutDigest(r.round, r.highQc.round)})
  }

  ghost function LocalTimeout(c: Committee, r: Replica): Replica
    requires c.authorities != []
  {
    HandleTimeout(c, SignTimeout(r), SignedTimeoutOf(r))
  }

  function HandleTC(c: Committee, r: Replica, tc: TC): Replica
    requires c.authorities != []
  {
    ProposeIfLeader(c, AdvanceRound(r, tc.round), Some(tc))
  }

  // ---- Blocks ----

  /** `get_parent_block`, without its request to the synchronizer. */
  function ParentBlock(store: Store, block: Block): Option<Block>
  {
    if block.qc.IsGenesis() then Some(GENESIS)
    else if block.qc.hash in store then Some(store[block.qc.hash])
    else None
  }

  /** The blocks `commit` sends out, oldest first: it walks back while
      `last_committed_round + 1 < parent.round`. */
  function Walk(store: Store, lastCommitted: Round, block: Block): Option<seq<Block>>
    decreases if block == GENESIS then 0 else 1, block.Digest()
  {
    if lastCommitted + 1 < block.round then
      match ParentBlock(store, block)
      case None => None
      case Some(ancestor) =>
        match Walk(store, lastCommitted, ancestor)
        case None => None
        case Some(blocks) => Some(blocks + [block])
    else Some([block])
  }

  function Commit(r: Replica, block: Block): Replica
  {
    if r.lastCommittedRound >= block.round then r
    else
      match Walk(r.store, r.lastCommittedRound, block)
      case None => r.(fault := Some(MissingAncestor))
      case Some(blocks) => r.(lastCommittedRound := block.round, output := r.output + blocks)
  }

  /** Safety rule 2: the block extends the previous round, or its TC allows it. */
  predicate MayExtend(block: Block)
    requires block.tc.Some? ==> block.tc.value.votes != []
  {
    || block.qc.round + 1 == block.round
    || (block.tc.Some? && block.tc.value.round + 1 == block.round
        && block.qc.round >= Max(block.tc.value.HighQcRounds()))
  }

  /** The vote, if the safety rules allow one; `None` also when the TC is empty and the engine panics. */
  function MakeVote(r: Replica, block: Block): (Replica, Option<Vote>)
  {
    if block.tc.Some? && block.tc.value.votes == [] then (r.(fault := Some(EmptyTC)), None)
    else if !(block.round > r.lastVotedRound && MayExtend(block)) then (r, None)
    else
      var digest := VoteDigest(block.Digest(), block.round);
      (r.(lastVotedRound := MaxRound(r.lastVotedRound, block.round), signed := r.signed + {digest}),
       Some(Vote(block.Digest(), block.round, r.name, Signature(r.name, digest))))
  }

  /** Votes for the block and, if this replica leads the next round, counts its own vote. */
  function VoteFor(c: Committee, r: Replica, block: Block): Replica
    requires c.authorities != []
  {
    var (r1, vote) := MakeVote(r, block);
    if vote.Some? && c.Leader(r1.round + 1) == r1.name then HandleVote(c, r1, vote.value) else r1
  }

  function StoreBlock(r: Replica, block: Block): Replica
  {
    r.(store := r.store[block.Digest() := block])
  }

  /** Stores the block and commits its grandparent when the rounds of the latter two are consecutive. */
  function StoreAndCommit(r: Replica, block: Block, b0: Block, b1: Block): Replica
  {
    var r1 := StoreBlock(r, block);
    if b0.round + 1 == b1.round then Commit(r1, b0) else r1
  }

  function ProcessBlock(c: Committee, r: Replica, block: Block): Replica
    requires c.authorities != []
  {
    var b1 := ParentBlock(r.store, block);
    if b1.None? then r.(suspended := r.suspended + {block})
    else
      var b0 := ParentBlock(r.store, b1.value);
      if b0.None? then r.(suspended := r.suspended + {b1.value}, fault := Some(MissingAncestor))
      else
        var r1 := StoreAndCommit(r, block, b0.value, b1.value);
        if r1.fault.Some? || block.round != r1.round then r1
        else VoteFor(c, r1, block)
  }

  /** The part of `handle_proposal` that precedes `process_block`. */
  function AdoptCertificates(r: Replica, block: Block): Replica
  {
    var r1 := ProcessQC(r, block.qc);
    if block.tc.Some? then AdvanceRound(r1, block.tc.value.round) else r1
  }

  /** `payloadOk` is the verdict of the mempool driver on the payload certificates. */
  ghost function HandleProposal(c: Committee, r: Replica, block: Block, payloadOk: bool): Replica
    requires c.authorities != []
  {
    if block.author != c.Leader(block.round) || !block.Verifies(c) then r
    else if !payloadOk then AdoptCertificates(r, block)
    else ProcessBlock(c, AdoptCertificates(r, block), block)
  }

  function ProposedBlock(author: PublicKey, p: ProposerMessage, payload: seq<Certificate>): Block
  {
    var unsigned := Block(p.qc, p.tc, author, p.round, payload, Signature(author, Zero));
    unsigned.(signature := Signature(author, unsigned.Digest()))
  }

  /** The proposer turns a request into a signed block and puts it on the loopback channel. */
  function MakeBlock(r: Replica, p: ProposerMessage, payload: seq<Certificate>): Replica
  {
    var block := ProposedBlock(r.name, p, payload);
    r.(ownBlocks := r.ownBlocks + {block}, signed := r.signed + {block.Digest()})
  }

  // ---- Events ----

  datatype Event =
    | Propose(block: Block, payloadOk: bool)
    | ReceiveVote(vote: Vote)
    | ReceiveTimeout(timeout: Timeout)
    | ReceiveTC(tc: TC)
    | Timer
    | MakeProposal(message: ProposerMessage, payload: seq<Certificate>)
    | Loopback(own: Block)
    | Resume(waiting: Block)

  ghost function Handle(c: Committee, r: Replica, e: Event): Replica
    requires c.authorities != []
  {
    match e
    case Propose(block, payloadOk) => HandleProposal(c, r, block, payloadOk)
    case ReceiveVote(vote) => HandleVote(c, r, vote)
    case ReceiveTimeout(timeout) => HandleTimeout(c, r, timeout)
    case ReceiveTC(tc) => HandleTC(c, r, tc)
    case Timer => LocalTimeout(c, r)
    case MakeProposal(message, payload) => MakeBlock(r, message, payload)
    case Loopback(own) => ProcessBlock(c, r, own)
    case Resume(waiting) => ProcessBlock(c, r, waiting)
  }

  /** Local conditions for an event: a replica that has panicked takes no step, the proposer works
      on requests it received, and the loopback channel only carries the replica's own blocks and
      suspended blocks whose parent has since been stored. */
  predicate Possible(r: Replica, e: Event)
  {
    && r.fault.None?
    && match e
       case MakeProposal(message, _) => message in r.proposals
       case Loopback(own) => own in r.ownBlocks
       case Resume(waiting) => waiting in r.suspended && waiting.qc.hash in r.store
       case _ => true
  }
}
