/** The messages of `hotstuff/src/messages.rs`, with hashing and signing made symbolic:
    digests are injective terms and a signature is the pair of its signer and its content. */
module Messages {
  import opened Wrappers
  import opened Committees

  type Round = nat
  type HeaderId = nat

  /** A header certificate of the data layer. Block digests cover only its header id. */
  datatype Certificate = Certificate(headerId: HeaderId, voters: seq<PublicKey>)

  /** `Zero` is `Digest::default()`; the other forms are what the three `Hash` implementations
      feed to the hasher. They have different lengths, so they never coincide. */
  datatype Digest =
    | Zero
    | BlockDigest(author: PublicKey, round: Round, payload: seq<HeaderId>, parent: Digest)
    | VoteDigest(hash: Digest, voteRound: Round)
    | TimeoutDigest(timeoutRound: Round, highQcRound: Round)

  datatype Signature = Signature(signer: PublicKey, content: Digest) {

    predicate Verifies(digest: Digest, name: PublicKey)
    {
      this == Signature(name, digest)
    }
  }

  datatype SignedVote = SignedVote(author: PublicKey, signature: Signature)

  datatype SignedTimeout = SignedTimeout(author: PublicKey, signature: Signature, highQcRound: Round)

  datatype ConsensusError =
    | AuthorityReuse(name: PublicKey)
    | UnknownAuthority(name: PublicKey)
    | QCRequiresQuorum
    | TCRequiresQuorum
    | InvalidSignature
    | WrongLeader
    | InvalidPayload

  /** The checks that `QC::verify` and `TC::verify` make on the names of the voters. */
  ghost predicate DistinctAndKnown(c: Committee, names: seq<PublicKey>)
  {
    && (forall i, j | 0 <= i < j < |names| :: names[i] != names[j])
    && (forall i | 0 <= i < |names| :: c.Stake(names[i]) > 0)
  }

  function NameSet(names: seq<PublicKey>): set<PublicKey>
  {
    set n | n in names
  }

  /** A quorum certificate for the block digest `hash`. */
  datatype QC = QC(hash: Digest, round: Round, votes: seq<SignedVote>) {

    /** Equality with `QC::genesis()`, which ignores the votes. */
    predicate IsGenesis()
    {
      hash == Zero && round == 0
    }

    function Names(): seq<PublicKey>
    {
      seq(|votes|, i requires 0 <= i < |votes| => votes[i].author)
    }

    ghost predicate Verifies(c: Committee)
    {
      && DistinctAndKnown(c, Names())
      && c.Quorum(NameSet(Names()))
      && forall v | v in votes :: v.signature.Verifies(VoteDigest(hash, round), v.author)
    }
  }

  const GENESIS_QC: QC := QC(Zero, 0, [])

  /** A timeout certificate. */
  datatype TC = TC(round: Round, votes: seq<SignedTimeout>) {

    function Names(): seq<PublicKey>
    {
      seq(|votes|, i requires 0 <= i < |votes| => votes[i].author)
    }

    function HighQcRounds(): seq<Round>
    {
      seq(|votes|, i requires 0 <= i < |votes| => votes[i].highQcRound)
    }

    ghost predicate Verifies(c: Committee)
    {
      && DistinctAndKnown(c, Names())
      && c.Quorum(NameSet(Names()))
      && forall v | v in votes :: v.signature.Verifies(TimeoutDigest(round, v.highQcRound), v.author)
    }
  }

  /** `iter().max()` of a non-empty list. */
  function Max(rounds: seq<Round>): (m: Round)
    requires rounds != []
    ensures m in rounds
    ensures forall r | r in rounds :: r <= m
  {
    if |rounds| == 1 then rounds[0]
    else
      var m := Max(rounds[1..]);
      assert rounds == [rounds[0]] + rounds[1..];
      if rounds[0] > m then rounds[0] else m
  }

  datatype Block = Block(
    qc: QC, tc: Option<TC>, author: PublicKey, round: Round, payload: seq<Certificate>, signature: Signature) {

    /** The digest leaves out `tc`, `qc.round`, `qc.votes` and all of a certificate but its header id. */
    function Digest(): Digest
    {
      BlockDigest(author, round, seq(|payload|, i requires 0 <= i < |payload| => payload[i].headerId), qc.hash)
    }

    ghost predicate Verifies(c: Committee)
    {
      && c.Stake(author) > 0
      && signature.Verifies(Digest(), author)
      && (qc.IsGenesis() || qc.Verifies(c))
      && (tc.Some? ==> tc.value.Verifies(c))
    }
  }

  const GENESIS: Block := Block(GENESIS_QC, None, 0, 0, [], Signature(0, Zero))

  datatype Vote = Vote(hash: Digest, round: Round, author: PublicKey, signature: Signature) {

    function Digest(): Digest
    {
      VoteDigest(hash, round)
    }

    predicate Verifies(c: Committee)
    {
      c.Stake(author) > 0 && signature.Verifies(Digest(), author)
    }
  }

  datatype Timeout = Timeout(highQc: QC, round: Round, author: PublicKey, signature: Signature) {

    function Digest(): Digest
    {
      TimeoutDigest(round, highQc.round)
    }

    ghost predicate Verifies(c: Committee)
    {
      && c.Stake(author) > 0
      && signature.Verifies(Digest(), author)
      && (highQc.IsGenesis() || highQc.Verifies(c))
    }
  }

  /** The loop shared by `QC::verify` and `TC::verify`: it fails on the first reused or unknown
      name, and otherwise adds up the stake of every voter. */
  method CheckVoters(c: Committee, names: seq<PublicKey>, tooFew: ConsensusError)
    returns (r: Result<(), ConsensusError>)
    requires tooFew == QCRequiresQuorum || tooFew == TCRequiresQuorum
    ensures r.Ok? <==> DistinctAndKnown(c, names) && c.Quorum(NameSet(names))
    ensures r == Err(tooFew) <==> DistinctAndKnown(c, names) && !c.Quorum(NameSet(names))
    ensures r.Err? && r.error.AuthorityReuse? ==>
              exists i, j | 0 <= i < j < |names| :: names[i] == names[j] == r.error.name
    ensures r.Err? && r.error.UnknownAuthority? ==> r.error.name in names && c.Stake(r.error.name) == 0
    ensures r.Ok? || r.error in {tooFew} || r.error.AuthorityReuse? || r.error.UnknownAuthority?
  {
    var weight := 0;
    var used: set<PublicKey> := {};
    WeightEmpty(c.authorities);
    for k := 0 to |names|
      invariant used == NameSet(names[..k])
      invariant weight == c.StakeIn(used)
      invariant DistinctAndKnown(c, names[..k])
    {
      var name := names[k];
      if name in used {
        return Err(AuthorityReuse(name));
      }
      var votingRights := c.Stake(name);
      if votingRights == 0 {
        return Err(UnknownAuthority(name));
      }
      StakeInInsert(c, used, name);
      used := used + {name};
      weight := weight + votingRights;
      assert names[..k + 1] == names[..k] + [name];
    }
    assert names[..|names|] == names;
    if weight < c.QuorumThreshold() {
      return Err(tooFew);
    }
    return Ok(());
  }

  /** `QC::verify`. */
  method VerifyQC(c: Committee, qc: QC) returns (r: Result<(), ConsensusError>)
    ensures r.Ok? <==> qc.Verifies(c)
  {
    r := CheckVoters(c, qc.Names(), QCRequiresQuorum);
    if r.Err? {
      return;
    }
    if exists v | v in qc.votes :: !v.signature.Verifies(VoteDigest(qc.hash, qc.round), v.author) {
      return Err(InvalidSignature);
    }
  }

  /** `TC::verify`. */
  method VerifyTC(c: Committee, tc: TC) returns (r: Result<(), ConsensusError>)
    ensures r.Ok? <==> tc.Verifies(c)
  {
    r := CheckVoters(c, tc.Names(), TCRequiresQuorum);
    if r.Err? {
      return;
    }
    for k := 0 to |tc.votes|
      invariant forall v | v in tc.votes[..k] :: v.signature.Verifies(TimeoutDigest(tc.round, v.highQcRound), v.author)
    {
      var v := tc.votes[k];
      if !v.signature.Verifies(TimeoutDigest(tc.round, v.highQcRound), v.author) {
        return Err(InvalidSignature);
      }
      assert tc.votes[..k + 1] == tc.votes[..k] + [v];
    }
    assert tc.votes[..|tc.votes|] == tc.votes;
  }

  /** `Block::verify`. */
  method VerifyBlock(c: Committee, block: Block) returns (r: Result<(), ConsensusError>)
    ensures r.Ok? <==> block.Verifies(c)
  {
    if c.Stake(block.author) == 0 {
      return Err(UnknownAuthority(block.author));
    }
    if !block.signature.Verifies(block.Digest(), block.author) {
      return Err(InvalidSignature);
    }
    if !block.qc.IsGenesis() {
      r := VerifyQC(c, block.qc);
      if r.Err? {
        return;
      }
    }
    if block.tc.Some? {
      r := VerifyTC(c, block.tc.value);
      if r.Err? {
        return;
      }
    }
    return Ok(());
  }

  /** `Timeout::verify`. */
  method VerifyTimeout(c: Committee, timeout: Timeout) returns (r: Result<(), ConsensusError>)
    ensures r.Ok? <==> timeout.Verifies(c)
  {
    if c.Stake(timeout.author) == 0 {
      return Err(UnknownAuthority(timeout.author));
    }
    if !timeout.signature.Verifies(timeout.Digest(), timeout.author) {
      return Err(InvalidSignature);
    }
    if !timeout.highQc.IsGenesis() {
      r := VerifyQC(c, timeout.highQc);
      if r.Err? {
        return;
      }
    }
    return Ok(());
  }
}
