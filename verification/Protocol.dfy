/** The whole system: honest replicas that take steps on any messages an adversary can assemble
    from the signatures made so far, and the safety theorems over all its runs. */
module Protocol {
  import opened Wrappers
  import opened Committees
  import opened Messages
  import opened Chains
  import opened Evidence
  import opened Replicas
  import opened Delivery
  import opened Invariants
  import opened Steps
  import opened Signing
  import opened Blocks

  /** The states of the honest replicas. Faulty replicas have no state: whatever they could send
      is any message whose honest signatures are genuine. */
  type System = map<PublicKey, Replica>

  ghost function SignedIn(s: System): Evidence
  {
    map h | h in s :: s[h].signed
  }

  /** Messages may be lost, reordered, repeated and invented, but honest signatures are not forged. */
  predicate Deliverable(e: Evidence, event: Event)
  {
    match event
    case Propose(block, _) => GenuineBlock(e, block)
    case ReceiveVote(vote) => Genuine(e, vote.signature)
    case ReceiveTimeout(timeout) => GenuineTimeout(e, timeout)
    case ReceiveTC(tc) => GenuineTC(e, tc)
    case _ => true
  }

  ghost predicate Init(c: Committee, honest: set<PublicKey>, s: System)
    requires c.authorities != []
  {
    s.Keys == honest && forall h | h in s :: s[h] == Boot(c, h)
  }

  ghost predicate Step(c: Committee, s: System, s': System, h: PublicKey, event: Event)
    requires c.authorities != []
  {
    && h in s && Possible(s[h], event) && Deliverable(SignedIn(s), event)
    && s' == s[h := Handle(c, s[h], event)]
  }

  ghost predicate Next(c: Committee, s: System, s': System)
    requires c.authorities != []
  {
    exists h, event :: Step(c, s, s', h, event)
  }

  /** A run of the protocol in which the replicas `honest` follow the code and all others,
      holding less than a third of the stake, behave arbitrarily. */
  ghost predicate IsRun(c: Committee, honest: set<PublicKey>, run: seq<System>)
  {
    && c.authorities != [] && FaultBound(c, honest)
    && run != [] && Init(c, honest, run[0])
    && forall i, j | 0 <= i && j == i + 1 < |run| :: Next(c, run[i], run[j])
  }

  // ---- The invariant of all runs ----

  ghost predicate SystemOk(c: Committee, honest: set<PublicKey>, s: System)
  {
    && s.Keys == honest && EvidenceOk(c, SignedIn(s))
    && forall h | h in s :: s[h].name == h && Good(c, SignedIn(s), s[h])
  }

  lemma BootGood(c: Committee, e: Evidence, h: PublicKey)
    requires c.authorities != [] && FaultBound(c, e.Keys)
    requires h in e && forall x | x in e :: e[x] == {}
    ensures Good(c, e, Boot(c, h))
  {
    assert EvidenceOk(c, e);
    var r := Boot(c, h);
    assert Collapsed([]) == [GENESIS_DIGEST] == Chain(GENESIS_DIGEST);
    assert LogOk(c, e, r);
    assert InboxOk(c, e, r);
  }

  lemma NothingSigned(c: Committee, honest: set<PublicKey>, s: System)
    requires c.authorities != [] && FaultBound(c, honest) && Init(c, honest, s)
    ensures SignedIn(s).Keys == honest
    ensures forall h | h in SignedIn(s) :: SignedIn(s)[h] == {}
    ensures EvidenceOk(c, SignedIn(s))
  {
  }

  lemma MemberBoots(c: Committee, honest: set<PublicKey>, s: System, h: PublicKey)
    requires c.authorities != [] && FaultBound(c, honest) && Init(c, honest, s) && h in s
    ensures s[h].name == h && Good(c, SignedIn(s), s[h])
  {
    NothingSigned(c, honest, s);
    BootGood(c, SignedIn(s), h);
  }

  lemma InitOk(c: Committee, honest: set<PublicKey>, s: System)
    requires c.authorities != [] && FaultBound(c, honest) && Init(c, honest, s)
    ensures SystemOk(c, honest, s)
  {
    NothingSigned(c, honest, s);
    forall h | h in s
      ensures s[h].name == h && Good(c, SignedIn(s), s[h])
    {
      MemberBoots(c, honest, s, h);
    }
  }

  lemma VerifiedTimeoutQC(c: Committee, e: Evidence, timeout: Timeout)
    requires GenuineQC(e, timeout.highQc)
    ensures timeout.Verifies(c) ==> QCOk(c, e, timeout.highQc)
  {
    if timeout.Verifies(c) && !timeout.highQc.IsGenesis() {
      VerifiedQCIsCertified(c, e, timeout.highQc);
    }
  }

  lemma HandleTimeoutSignsNothing(c: Committee, r: Replica, timeout: Timeout)
    requires c.authorities != []
    ensures HandleTimeout(c, r, timeout).signed == r.signed && HandleTimeout(c, r, timeout).name == r.name
  {
    hide CollectTimeout;
    CollectTimeoutSignsNothing(c, ProcessQC(r, timeout.highQc), timeout);
  }

  lemma CollectTimeoutSignsNothing(c: Committee, r: Replica, timeout: Timeout)
    requires c.authorities != []
    ensures CollectTimeout(c, r, timeout).signed == r.signed && CollectTimeout(c, r, timeout).name == r.name
  {
  }

  lemma LocalTimeoutGood(c: Committee, e: Evidence, r: Replica)
    requires Good(c, e, r)
    ensures StepGood(c, e, r, LocalTimeout(c, r))
  {
    hide InboxOk, StoreOk, LogOk, MakersOk, AssembledOk, EvidenceOk;
    SignTimeoutGood(c, e, r);
    var r1, timeout := SignTimeout(r), SignedTimeoutOf(r);
    var e' := Record(e, r.name, TimeoutDigest(r.round, r.highQc.round));
    assert QCOk(c, e', r1.highQc);
    HandleTimeoutGood(c, e', r1, timeout);
    HandleTimeoutSignsNothing(c, r1, timeout);
    assert Updated(e, LocalTimeout(c, r)) == e';
  }

  lemma LoopbackGood(c: Committee, e: Evidence, r: Replica, own: Block)
    requires Good(c, e, r) && own in r.ownBlocks
    ensures StepGood(c, e, r, ProcessBlock(c, r, own))
  {
    assert RequestOk(c, e, r, own.round, own.qc);
    ProcessBlockGood(c, e, r, own);
  }

  lemma ResumeGood(c: Committee, e: Evidence, r: Replica, waiting: Block)
    requires Good(c, e, r) && waiting in r.suspended
    ensures StepGood(c, e, r, ProcessBlock(c, r, waiting))
  {
    assert BlockOk(c, e, r, waiting);
    ProcessBlockGood(c, e, r, waiting);
  }

  lemma VoteStepGood(c: Committee, e: Evidence, r: Replica, vote: Vote)
    requires Good(c, e, r) && Genuine(e, vote.signature)
    ensures StepGood(c, e, r, HandleVote(c, r, vote))
  {
    HandleVoteGood(c, e, r, vote);
    HandleVoteSignsNothing(c, r, vote);
    SilentStepGood(c, e, r, HandleVote(c, r, vote));
  }

  lemma TimeoutStepGood(c: Committee, e: Evidence, r: Replica, timeout: Timeout)
    requires Good(c, e, r) && Genuine(e, timeout.signature) && GenuineQC(e, timeout.highQc)
    ensures StepGood(c, e, r, HandleTimeout(c, r, timeout))
  {
    VerifiedTimeoutQC(c, e, timeout);
    HandleTimeoutGood(c, e, r, timeout);
    HandleTimeoutSignsNothing(c, r, timeout);
    SilentStepGood(c, e, r, HandleTimeout(c, r, timeout));
  }

  lemma TCStepGood(c: Committee, e: Evidence, r: Replica, tc: TC)
    requires Good(c, e, r)
    ensures StepGood(c, e, r, HandleTC(c, r, tc))
  {
    HandleTCGood(c, e, r, tc);
    SilentStepGood(c, e, r, HandleTC(c, r, tc));
  }

  lemma MakeBlockStepGood(c: Committee, e: Evidence, r: Replica, p: ProposerMessage, payload: seq<Certificate>)
    requires Good(c, e, r) && p in r.proposals
    ensures StepGood(c, e, r, MakeBlock(r, p, payload))
  {
    MakeBlockGood(c, e, r, p, payload);
    assert Updated(e, MakeBlock(r, p, payload)) == Record(e, r.name, ProposedBlock(r.name, p, payload).Digest());
  }

  lemma HandleGood(c: Committee, e: Evidence, r: Replica, event: Event)
    requires Good(c, e, r) && Possible(r, event) && Deliverable(e, event)
    ensures StepGood(c, e, r, Handle(c, r, event))
  {
    match event
    case Propose(block, payloadOk) => HandleProposalGood(c, e, r, block, payloadOk);
    case ReceiveVote(vote) => VoteStepGood(c, e, r, vote);
    case ReceiveTimeout(timeout) => TimeoutStepGood(c, e, r, timeout);
    case ReceiveTC(tc) => TCStepGood(c, e, r, tc);
    case Timer => LocalTimeoutGood(c, e, r);
    case MakeProposal(message, payload) => MakeBlockStepGood(c, e, r, message, payload);
    case Loopback(own) => LoopbackGood(c, e, r, own);
    case Resume(waiting) => ResumeGood(c, e, r, waiting);
  }

  lemma OthersStayGood(c: Committee, e: Evidence, e': Evidence, r: Replica)
    requires Good(c, e, r) && Grows(e, e') && e'[r.name] == e[r.name] && EvidenceOk(c, e')
    ensures Good(c, e', r)
  {
    ReplicaOkGrows(c, e, e', r);
  }

  lemma ReplacedEvidence(s: System, h: PublicKey, r: Replica)
    requires h in s && r.name == h
    ensures SignedIn(s[h := r]) == Updated(SignedIn(s), r)
  {
  }

  lemma MemberGood(c: Committee, honest: set<PublicKey>, s: System, s': System, h: PublicKey, x: PublicKey)
    requires SystemOk(c, honest, s) && h in s && s'.Keys == s.Keys && s' == s[h := s'[h]]
    requires StepGood(c, SignedIn(s), s[h], s'[h]) && x in s
    ensures s'[x].name == x && Good(c, SignedIn(s'), s'[x])
  {
    ReplacedEvidence(s, h, s'[h]);
    if x != h {
      OthersStayGood(c, SignedIn(s), SignedIn(s'), s[x]);
    }
  }

  lemma ReplacedGrows(c: Committee, s: System, s': System, h: PublicKey)
    requires h in s && s'.Keys == s.Keys && s' == s[h := s'[h]] && s[h].name == h
    requires StepGood(c, SignedIn(s), s[h], s'[h])
    ensures EvidenceOk(c, SignedIn(s')) && Grows(SignedIn(s), SignedIn(s'))
  {
    ReplacedEvidence(s, h, s'[h]);
  }

  lemma ReplacedSystemOk(c: Committee, honest: set<PublicKey>, s: System, s': System, h: PublicKey)
    requires SystemOk(c, honest, s) && h in s && s'.Keys == s.Keys && s' == s[h := s'[h]]
    requires StepGood(c, SignedIn(s), s[h], s'[h])
    ensures SystemOk(c, honest, s') && Grows(SignedIn(s), SignedIn(s'))
  {
    ReplacedGrows(c, s, s', h);
    forall x | x in s'
      ensures s'[x].name == x && Good(c, SignedIn(s'), s'[x])
    {
      MemberGood(c, honest, s, s', h, x);
    }
  }

  lemma StepIsGood(c: Committee, s: System, s': System, h: PublicKey, event: Event)
    requires c.authorities != [] && Step(c, s, s', h, event) && Good(c, SignedIn(s), s[h])
    ensures StepGood(c, SignedIn(s), s[h], s'[h])
  {
    HandleGood(c, SignedIn(s), s[h], event);
  }

  lemma StepReplacesOne(c: Committee, s: System, s': System, h: PublicKey, event: Event)
    requires c.authorities != [] && Step(c, s, s', h, event)
    ensures h in s && s'.Keys == s.Keys && s' == s[h := s'[h]]
  {
  }

  lemma StepKeepsSystemOk(c: Committee, honest: set<PublicKey>, s: System, s': System, h: PublicKey, event: Event)
    requires c.authorities != [] && SystemOk(c, honest, s) && Step(c, s, s', h, event)
    ensures SystemOk(c, honest, s') && Grows(SignedIn(s), SignedIn(s'))
  {
    StepReplacesOne(c, s, s', h, event);
    StepIsGood(c, s, s', h, event);
    ReplacedSystemOk(c, honest, s, s', h);
  }

  lemma NextKeepsSystemOk(c: Committee, honest: set<PublicKey>, s: System, s': System)
    requires c.authorities != [] && SystemOk(c, honest, s) && Next(c, s, s')
    ensures SystemOk(c, honest, s') && Grows(SignedIn(s), SignedIn(s'))
  {
    var h, event :| Step(c, s, s', h, event);
    StepKeepsSystemOk(c, honest, s, s', h, event);
  }

  /** The invariant holds throughout every run. */
  lemma {:induction false} RunIsOk(c: Committee, honest: set<PublicKey>, run: seq<System>, i: nat)
    requires IsRun(c, honest, run) && i < |run|
    ensures SystemOk(c, honest, run[i])
  {
    if i == 0 {
      InitOk(c, honest, run[0]);
    } else {
      RunIsOk(c, honest, run, i - 1);
      assert Next(c, run[i - 1], run[i]);
      NextKeepsSystemOk(c, honest, run[i - 1], run[i]);
    }
  }

  lemma GrowsTransitive(e: Evidence, e': Evidence, e'': Evidence)
    requires Grows(e, e') && Grows(e', e'')
    ensures Grows(e, e'')
  {
  }

  lemma StepSignaturesGrow(c: Committee, honest: set<PublicKey>, run: seq<System>, j: nat)
    requires IsRun(c, honest, run) && 0 < j < |run|
    ensures Grows(SignedIn(run[j - 1]), SignedIn(run[j]))
  {
    RunIsOk(c, honest, run, j - 1);
    assert Next(c, run[j - 1], run[j]);
    NextKeepsSystemOk(c, honest, run[j - 1], run[j]);
  }

  /** The evidence at every time of a run. */
  ghost function History(run: seq<System>): seq<Evidence>
  {
    seq(|run|, k requires 0 <= k < |run| => SignedIn(run[k]))
  }

  ghost predicate Growing(es: seq<Evidence>)
  {
    forall k, l | 0 <= k && l == k + 1 < |es| :: Grows(es[k], es[l])
  }

  lemma RunIsGrowing(c: Committee, honest: set<PublicKey>, run: seq<System>)
    requires IsRun(c, honest, run)
    ensures Growing(History(run))
  {
    forall k, l | 0 <= k && l == k + 1 < |run|
      ensures Grows(History(run)[k], History(run)[l])
    {
      StepSignaturesGrow(c, honest, run, l);
    }
  }

  lemma {:induction false} GrowingIsMonotone(es: seq<Evidence>, i: nat, j: nat)
    requires Growing(es) && i <= j < |es|
    ensures Grows(es[i], es[j])
    decreases j
  {
    if i < j {
      GrowingIsMonotone(es, i, j - 1);
      GrowsTransitive(es[i], es[j - 1], es[j]);
    }
  }

  /** Signatures are never withdrawn. */
  lemma RunSignaturesGrow(c: Committee, honest: set<PublicKey>, run: seq<System>, i: nat, j: nat)
    requires IsRun(c, honest, run) && i <= j < |run|
    ensures Grows(SignedIn(run[i]), SignedIn(run[j]))
  {
    RunIsGrowing(c, honest, run);
    GrowingIsMonotone(History(run), i, j);
  }

  // ---- Theorems ----

  /** Delivery refines the chain: at any time, the log of an honest replica without adjacent
      repeats is exactly the chain from genesis to its last committed block. */
  lemma DeliveryRefinesChain(c: Committee, honest: set<PublicKey>, run: seq<System>, i: nat, h: PublicKey)
    requires IsRun(c, honest, run) && i < |run| && h in honest
    ensures h in run[i]
    ensures var r := run[i][h];
            && Collapsed(r.output) == Chain(Head(r.output))
            && Head(r.output).BlockDigest? && Head(r.output).round == r.lastCommittedRound
            && Ascending(Head(r.output))
  {
    RunIsOk(c, honest, run, i);
  }

  /** The last blocks committed by any two honest replicas, at any two times, lie on one chain. */
  lemma HeadsAgree(c: Committee, honest: set<PublicKey>, run: seq<System>, i: nat, j: nat, h: PublicKey, h': PublicKey)
    requires IsRun(c, honest, run) && i <= j < |run| && h in honest && h' in honest
    ensures h in run[i] && h' in run[j]
    ensures var d, d' := Head(run[i][h].output), Head(run[j][h'].output); Extends(d, d') || Extends(d', d)
  {
    RunIsOk(c, honest, run, i);
    RunIsOk(c, honest, run, j);
    RunSignaturesGrow(c, honest, run, i, j);
    var e := SignedIn(run[j]);
    LogOkGrows(c, SignedIn(run[i]), e, run[i][h]);
    var d, d' := Head(run[i][h].output), Head(run[j][h'].output);
    if d == GENESIS_DIGEST {
      ChainEnds(d');
    } else if d' == GENESIS_DIGEST {
      ChainEnds(d);
    } else {
      CommittedBlocksAgree(c, e, d, d');
    }
  }

  /** Agreement: at any two times of any run, the logs of any two honest replicas are one a prefix
      of the other, up to adjacent repeats. */
  lemma LogsAgree(c: Committee, honest: set<PublicKey>, run: seq<System>, i: nat, j: nat, h: PublicKey, h': PublicKey)
    requires IsRun(c, honest, run) && i < |run| && j < |run| && h in honest && h' in honest
    ensures h in run[i] && h' in run[j]
    ensures || Collapsed(run[i][h].output) <= Collapsed(run[j][h'].output)
            || Collapsed(run[j][h'].output) <= Collapsed(run[i][h].output)
  {
    DeliveryRefinesChain(c, honest, run, i, h);
    DeliveryRefinesChain(c, honest, run, j, h');
    if i <= j {
      HeadsAgree(c, honest, run, i, j, h, h');
    } else {
      HeadsAgree(c, honest, run, j, i, h', h);
    }
    var d, d' := Head(run[i][h].output), Head(run[j][h'].output);
    if Extends(d, d') {
      AncestorChainIsPrefix(d, d');
    } else {
      AncestorChainIsPrefix(d', d);
    }
  }

  /** Everything delivered is in the collapsed log. */
  lemma {:induction false} CollapseKeepsElements(log: seq<Digest>, ds: seq<Digest>, d: Digest)
    requires log != [] && (d in ds || d in log)
    ensures d in CollapseOnto(log, ds)
    decreases |ds|
  {
    if ds != [] {
      CollapseKeepsElements(if log[|log| - 1] == ds[0] then log else log + [ds[0]], ds[1..], d);
    }
  }

  /** Agreement on blocks: any two blocks delivered by honest replicas, at any two times of any
      run, lie on one chain. */
  lemma DeliveredBlocksAgree(
    c: Committee, honest: set<PublicKey>, run: seq<System>,
    i: nat, j: nat, h: PublicKey, h': PublicKey, b: Block, b': Block)
    requires IsRun(c, honest, run) && i < |run| && j < |run|
    requires h in run[i] && h' in run[j] && b in run[i][h].output && b' in run[j][h'].output
    ensures Extends(b.Digest(), b'.Digest()) || Extends(b'.Digest(), b.Digest())
  {
    RunIsOk(c, honest, run, i);
    RunIsOk(c, honest, run, j);
    DeliveryRefinesChain(c, honest, run, i, h);
    DeliveryRefinesChain(c, honest, run, j, h');
    LogsAgree(c, honest, run, i, j, h, h');
    DeliveredInChain(run[i][h].output, b);
    DeliveredInChain(run[j][h'].output, b');
    OnPrefixChains(Head(run[i][h].output), Head(run[j][h'].output), b.Digest(), b'.Digest());
  }

  lemma OnPrefixChains(d: Digest, d': Digest, a: Digest, a': Digest)
    requires Extends(d, a) && Extends(d', a')
    requires Chain(d) <= Chain(d') || Chain(d') <= Chain(d)
    ensures Extends(a, a') || Extends(a', a)
  {
    if Chain(d) <= Chain(d') {
      OnOneChain(d', a, a');
    } else {
      OnOneChain(d, a, a');
    }
  }

  lemma DeliveredInChain(output: seq<Block>, b: Block)
    requires b in output
    ensures b.Digest() in Collapsed(output)
  {
    var i :| 0 <= i < |output| && output[i] == b;
    assert Digests(output)[i] == b.Digest();
    CollapseKeepsElements([GENESIS_DIGEST], Digests(output), b.Digest());
  }

  /** Two ancestors of one block are related. */
  lemma {:induction false} OnOneChain(d: Digest, a: Digest, b: Digest)
    requires Extends(d, a) && Extends(d, b)
    ensures Extends(a, b) || Extends(b, a)
  {
    ChainEnds(a);
    ChainEnds(b);
    if a != d && b != d && d.BlockDigest? && d != GENESIS_DIGEST && !d.parent.Zero? {
      OnOneChain(d.parent, a, b);
    }
  }

  /** One certified block per round, over whole runs: two QCs of one round that pass `verify` name
      the same block, whoever assembled them and whenever. */
  lemma OneQCPerRound(c: Committee, honest: set<PublicKey>, run: seq<System>, i: nat, j: nat, qc: QC, qc': QC)
    requires IsRun(c, honest, run) && i <= j < |run|
    requires qc.Verifies(c) && GenuineQC(SignedIn(run[i]), qc)
    requires qc'.Verifies(c) && GenuineQC(SignedIn(run[j]), qc')
    requires qc.round == qc'.round
    ensures qc.hash == qc'.hash && qc.hash.BlockDigest? && qc.hash.round == qc.round
    ensures ParentRound(qc.hash) < qc.round
  {
    RunIsOk(c, honest, run, j);
    RunSignaturesGrow(c, honest, run, i, j);
    var e := SignedIn(run[j]);
    VerifiedQCIsCertified(c, SignedIn(run[i]), qc);
    CertifiedGrows(c, SignedIn(run[i]), e, qc.hash, qc.round);
    VerifiedQCIsCertified(c, e, qc');
    OneCertifiedBlockPerRound(c, e, qc.hash, qc'.hash, qc.round);
    var h := CertifiedHasHonestVoter(c, e, qc.hash, qc.round);
  }

  /** Locked chain over whole runs: when a QC that passes `verify` names a block of the round after its
      parent's, every QC of the parent's round or later that passes `verify`, at any time, names the parent
      or a block that descends from it. */
  lemma VerifiedQCsExtendLockedBlock(
    c: Committee, honest: set<PublicKey>, run: seq<System>, i: nat, j: nat, child: QC, qc: QC, parent: Digest)
    requires IsRun(c, honest, run) && i < |run| && j < |run|
    requires child.Verifies(c) && GenuineQC(SignedIn(run[i]), child)
    requires qc.Verifies(c) && GenuineQC(SignedIn(run[j]), qc)
    requires child.hash.BlockDigest? && child.hash.parent == parent && parent.BlockDigest?
    requires child.round == parent.round + 1 && qc.round >= parent.round
    ensures Extends(qc.hash, parent)
  {
    var k := if i <= j then j else i;
    RunSignaturesGrow(c, honest, run, i, k);
    RunSignaturesGrow(c, honest, run, j, k);
    RunIsOk(c, honest, run, k);
    var e := SignedIn(run[k]);
    VerifiedQCIsCertified(c, SignedIn(run[i]), child);
    CertifiedGrows(c, SignedIn(run[i]), e, child.hash, child.round);
    VerifiedQCIsCertified(c, SignedIn(run[j]), qc);
    CertifiedGrows(c, SignedIn(run[j]), e, qc.hash, qc.round);
    CertifiedIsAscending(c, e, child.hash, child.round);
    CertifiedIsAscending(c, e, qc.hash, qc.round);
    LockedChain(c, e, parent, child.hash, qc.hash);
  }

  /** Timeout evidence over whole runs: once a block whose parent has round r is certified, every
      TC for its round or later that passes `verify` reports a high QC of round at least r. */
  lemma VerifiedTCsReportCertifiedParent(
    c: Committee, honest: set<PublicKey>, run: seq<System>, i: nat, j: nat, qc: QC, tc: TC)
    requires IsRun(c, honest, run) && i < |run| && j < |run|
    requires qc.Verifies(c) && GenuineQC(SignedIn(run[i]), qc)
    requires tc.Verifies(c) && GenuineTC(SignedIn(run[j]), tc)
    requires qc.round <= tc.round
    ensures tc.votes != [] && ParentRound(qc.hash) <= Max(tc.HighQcRounds())
  {
    var k := if i <= j then j else i;
    RunSignaturesGrow(c, honest, run, i, k);
    RunSignaturesGrow(c, honest, run, j, k);
    RunIsOk(c, honest, run, k);
    VerifiedQCIsCertified(c, SignedIn(run[i]), qc);
    CertifiedGrows(c, SignedIn(run[i]), SignedIn(run[k]), qc.hash, qc.round);
    VerifiedTCTimesOut(c, SignedIn(run[j]), tc);
    var max := Max(tc.HighQcRounds());
    TimedOutGrows(c, SignedIn(run[j]), SignedIn(run[k]), tc.round, max, max);
    var h := CertifiedHasHonestVoter(c, SignedIn(run[k]), qc.hash, qc.round);
    TimeoutsReportCertifiedParent(c, SignedIn(run[k]), qc.hash, tc.round, max);
  }

  /** The engine's own bookkeeping in every reachable state: the round is past the newest QC, no
      lookup of an ancestor has failed, the store is closed under parents, and the assembled
      certificates are at most one per round and all pass `verify`. */
  lemma ReplicaBookkeeping(c: Committee, honest: set<PublicKey>, run: seq<System>, i: nat, h: PublicKey)
    requires IsRun(c, honest, run) && i < |run| && h in run[i]
    ensures var r := run[i][h];
            && r.highQc.round < r.round && r.lastVotedRound <= r.round
            && r.fault != Some(MissingAncestor)
            && StoreClosed(r.store)
            && AssembledOk(c, r)
  {
    RunIsOk(c, honest, run, i);
    StoreOkIsClosed(c, SignedIn(run[i]), run[i][h].store);
  }
}
