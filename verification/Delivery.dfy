/** What `commit` hands to the application, measured against the chain of committed blocks. */
module Delivery {
  import opened Committees
  import opened Messages
  import opened Chains
  import opened Evidence
  import opened Replicas

  function Digests(blocks: seq<Block>): seq<Digest>
  {
    seq(|blocks|, i requires 0 <= i < |blocks| => blocks[i].Digest())
  }

  /** Appends `ds` to `log`, dropping every element equal to the one just before it. */
  function CollapseOnto(log: seq<Digest>, ds: seq<Digest>): (r: seq<Digest>)
    requires log != []
    ensures r != []
    decreases |ds|
  {
    if ds == [] then log
    else CollapseOnto(if log[|log| - 1] == ds[0] then log else log + [ds[0]], ds[1..])
  }

  /** The application's log without adjacent repeats, starting from genesis. */
  function Collapsed(output: seq<Block>): seq<Digest>
  {
    CollapseOnto([GENESIS_DIGEST], Digests(output))
  }

  /** The last block delivered. */
  function Head(output: seq<Block>): Digest
  {
    if output == [] then GENESIS_DIGEST else output[|output| - 1].Digest()
  }

  /** The parent of `block` can be found, and a zero parent hash means genesis. */
  predicate HasParent(store: Store, block: Block)
  {
    if block.qc.IsGenesis() then true
    else block.qc.hash in store && block.qc.hash.BlockDigest? && block.qc.hash != GENESIS_DIGEST
  }

  /** Stored blocks carry genuine quorum certificates and have their parents in the store. */
  ghost predicate StoreOk(c: Committee, e: Evidence, store: Store)
  {
    forall d | d in store :: QCOk(c, e, store[d].qc) && HasParent(store, store[d])
  }

  predicate StoreClosed(store: Store)
  {
    forall d | d in store :: HasParent(store, store[d])
  }

  /** The block found by `get_parent_block` is the one that the digest names. */
  lemma ParentBlockIsParent(store: Store, block: Block)
    requires StoreClosed(store) && HasParent(store, block)
    ensures ParentBlock(store, block).Some?
    ensures var parent := ParentBlock(store, block).value;
            && HasParent(store, parent)
            && parent.round == ParentRound(block.Digest())
            && (block.Digest() != GENESIS_DIGEST ==> Chain(block.Digest()) == Chain(parent.Digest()) + [block.Digest()])
            && (parent == GENESIS || (parent.Digest() == block.Digest().parent && !block.qc.IsGenesis()))
            && (Ascending(block.Digest()) ==> Ascending(parent.Digest()))
  {
  }

  lemma {:induction false} CollapseConcat(log: seq<Digest>, xs: seq<Digest>, ys: seq<Digest>)
    requires log != []
    ensures CollapseOnto(log, xs + ys) == CollapseOnto(CollapseOnto(log, xs), ys)
    decreases |xs|
  {
    if xs == [] {
      assert xs + ys == ys;
    } else {
      CollapseConcat(if log[|log| - 1] == xs[0] then log else log + [xs[0]], xs[1..], ys);
      assert (xs + ys)[1..] == xs[1..] + ys;
    }
  }

  /** Neighbours on an ascending chain have growing rounds. */
  lemma {:induction false} ChainNeighbours(d: Digest, i: nat)
    requires Ascending(d) && i + 1 < |Chain(d)|
    ensures Chain(d)[i].BlockDigest? && Chain(d)[i + 1].BlockDigest?
    ensures Chain(d)[i].round < Chain(d)[i + 1].round
  {
    if d != GENESIS_DIGEST && !d.parent.Zero? {
      ChainEnds(d.parent);
      if i + 1 < |Chain(d.parent)| {
        ChainNeighbours(d.parent, i);
      }
    }
  }

  /** Appending the rest of a chain to one of its prefixes repeats nothing. */
  lemma {:induction false} CollapseChain(d: Digest, n: nat)
    requires Ascending(d) && 0 < n <= |Chain(d)|
    ensures CollapseOnto(Chain(d)[..n], Chain(d)[n..]) == Chain(d)
    decreases |Chain(d)| - n
  {
    if n < |Chain(d)| {
      ChainNeighbours(d, n - 1);
      assert Chain(d)[..n] + [Chain(d)[n]] == Chain(d)[..n + 1];
      assert Chain(d)[n..][1..] == Chain(d)[n + 1..];
      CollapseChain(d, n + 1);
    } else {
      assert Chain(d)[..n] == Chain(d);
    }
  }

  /** The part of the chain of `d` after its ancestor `head`. */
  function After(d: Digest, head: Digest): seq<Digest>
    requires Chain(head) <= Chain(d)
  {
    Chain(d)[|Chain(head)|..]
  }

  /** What is delivered to go from `head` to the last element of `rest`: `head` comes again when the
      first block of `rest` skipped a round, or when there is none. */
  function Delivery(head: Digest, rest: seq<Digest>): seq<Digest>
    requires head.BlockDigest?
  {
    if rest != [] && rest[0].BlockDigest? && rest[0].round == head.round + 1 then rest else [head] + rest
  }

  lemma DeliveryExtends(head: Digest, rest: seq<Digest>, d: Digest)
    requires head.BlockDigest?
    requires d.BlockDigest? && d.round > head.round + 1
    ensures Delivery(head, rest + [d]) == Delivery(head, rest) + [d]
  {
    assert ([head] + rest) + [d] == [head] + (rest + [d]);
  }

  lemma DigestsConcat(xs: seq<Block>, ys: seq<Block>)
    ensures Digests(xs + ys) == Digests(xs) + Digests(ys)
  {
  }

  lemma DigestsOfOne(block: Block)
    ensures Digests([block]) == [block.Digest()]
  {
  }

  lemma WalkStep(store: Store, lastCommitted: Round, block: Block)
    requires lastCommitted + 1 < block.round
    requires ParentBlock(store, block).Some?
    requires Walk(store, lastCommitted, ParentBlock(store, block).value).Some?
    ensures Walk(store, lastCommitted, block).Some?
    ensures Digests(Walk(store, lastCommitted, block).value)
         == Digests(Walk(store, lastCommitted, ParentBlock(store, block).value).value) + [block.Digest()]
  {
    DigestsConcat(Walk(store, lastCommitted, ParentBlock(store, block).value).value, [block]);
    DigestsOfOne(block);
  }

  /** Facts about a proper ancestor `head` of `d`, seen from the parent `p` of `d`. */
  lemma AncestorOfParent(d: Digest, p: Digest, head: Digest)
    requires Ascending(d) && Ascending(p)
    requires Chain(d) == Chain(p) + [d]
    requires Extends(d, head) && d != head
    ensures Extends(p, head) && Chain(head) <= Chain(p) && Chain(head) <= Chain(d)
    ensures After(d, head) == After(p, head) + [d]
    ensures head.BlockDigest? && p.BlockDigest?
    ensures head.round <= p.round && (p.round == head.round ==> p == head && After(p, head) == [])
  {
    LastOrEarlier(Chain(p), d, head);
    AncestorChainIsPrefix(p, head);
    DropOfAppend(Chain(p), d, Chain(head));
    AncestorRounds(p, head);
  }

  lemma LastOrEarlier(xs: seq<Digest>, x: Digest, y: Digest)
    requires y in xs + [x] && y != x
    ensures y in xs
  {
  }

  lemma DropOfAppend(xs: seq<Digest>, x: Digest, prefix: seq<Digest>)
    requires prefix <= xs
    ensures prefix <= xs + [x] && (xs + [x])[|prefix|..] == xs[|prefix|..] + [x]
    ensures xs == prefix ==> xs[|prefix|..] == []
  {
  }

  /** `commit` sends the part of the chain after the previously committed block `head`, preceded by
      `head` itself when the first block of that part skipped a round (or there is no such part). */
  lemma {:induction false} WalkDelivers(store: Store, head: Digest, block: Block)
    requires StoreClosed(store) && HasParent(store, block)
    requires Ascending(block.Digest())
    requires head.BlockDigest? && Extends(block.Digest(), head)
    ensures Chain(head) <= Chain(block.Digest())
    ensures Walk(store, head.round, block).Some?
    ensures Digests(Walk(store, head.round, block).value) == Delivery(head, After(block.Digest(), head))
    decreases if block == GENESIS then 0 else 1, block.Digest()
  {
    var d := block.Digest();
    AncestorRounds(d, head);
    if d == head {
      assert After(d, head) == [];
      DigestsOfOne(block);
    } else {
      assert d != GENESIS_DIGEST;
      ParentBlockIsParent(store, block);
      var parent := ParentBlock(store, block).value;
      var p := parent.Digest();
      AncestorOfParent(d, p, head);
      if head.round + 1 < block.round {
        WalkDelivers(store, head, parent);
        WalkStep(store, head.round, block);
        DeliveryExtends(head, After(p, head), d);
      } else {
        DigestsOfOne(block);
      }
    }
  }

  // ---- The log ----

  /** The log of a replica refines the committed chain. */
  ghost predicate LogOk(c: Committee, e: Evidence, r: Replica)
  {
    var head := Head(r.output);
    && (head == GENESIS_DIGEST || Committed(c, e, head))
    && head.BlockDigest? && Ascending(head)
    && head.round == r.lastCommittedRound
    && Collapsed(r.output) == Chain(head)
  }

  lemma CommittedIsAscending(c: Committee, e: Evidence, d: Digest)
    requires EvidenceOk(c, e) && Committed(c, e, d)
    ensures d.BlockDigest? && Ascending(d) && Certified(c, e, d, d.round)
  {
    var d1 :| CommittedBy(c, e, d, d1);
    var h := CertifiedHasHonestVoter(c, e, d1, d1.round);
    CertifiedIsAscending(c, e, d, d.round);
  }

  /** A newly committed block extends everything delivered before it. */
  lemma CommittedExtendsHead(c: Committee, e: Evidence, r: Replica, d: Digest)
    requires EvidenceOk(c, e) && LogOk(c, e, r)
    requires Committed(c, e, d) && d.BlockDigest? && d.round >= r.lastCommittedRound
    ensures Extends(d, Head(r.output))
  {
    CommittedIsAscending(c, e, d);
    if Head(r.output) == GENESIS_DIGEST {
      ChainEnds(d);
    } else {
      CommittedBlocksAgree(c, e, d, Head(r.output));
    }
  }

  /** Collapsing a delivery onto the chain of `head` yields the longer chain. */
  lemma CollapseDelivery(d: Digest, head: Digest)
    requires Ascending(d) && head.BlockDigest? && Extends(d, head)
    ensures Chain(head) <= Chain(d)
    ensures Chain(head) != [] && CollapseOnto(Chain(head), Delivery(head, After(d, head))) == Chain(d)
  {
    AncestorChainIsPrefix(d, head);
    ChainEnds(head);
    var rest := After(d, head);
    CollapseChain(d, |Chain(head)|);
    assert Chain(d)[..|Chain(head)|] == Chain(head);
    assert ([head] + rest)[1..] == rest;
  }

  /** `commit` never misses an ancestor and keeps the log a refinement of the committed chain. */
  lemma CommitKeepsLog(c: Committee, e: Evidence, r: Replica, block: Block)
    requires EvidenceOk(c, e) && StoreClosed(r.store) && LogOk(c, e, r)
    requires HasParent(r.store, block) && Committed(c, e, block.Digest())
    ensures LogOk(c, e, Commit(r, block)) && Commit(r, block).fault == r.fault
  {
    hide Chain, Walk, Ascending, StoreClosed, HasParent, Delivery, After, CollapseOnto, Extends;
    if r.lastCommittedRound < block.round {
      var d, head := block.Digest(), Head(r.output);
      CommittedIsAscending(c, e, d);
      CommittedExtendsHead(c, e, r, d);
      WalkDelivers(r.store, head, block);
      var blocks := Walk(r.store, head.round, block).value;
      WalkEnds(r.store, head.round, block);
      DigestsConcat(r.output, blocks);
      CollapseConcat([GENESIS_DIGEST], Digests(r.output), Digests(blocks));
      CollapseDelivery(d, head);
    }
  }

  lemma WalkEnds(store: Store, lastCommitted: Round, block: Block)
    requires Walk(store, lastCommitted, block).Some?
    ensures var blocks := Walk(store, lastCommitted, block).value;
            blocks != [] && blocks[|blocks| - 1] == block
  {
  }

  /** The blocks added to the log by committing `block`. */
  lemma CommitDelivers(c: Committee, e: Evidence, r: Replica, block: Block)
    requires EvidenceOk(c, e) && StoreClosed(r.store) && LogOk(c, e, r)
    requires HasParent(r.store, block) && Committed(c, e, block.Digest())
    requires r.lastCommittedRound < block.round
    ensures Chain(Head(r.output)) < Chain(block.Digest())
    ensures Digests(Commit(r, block).output)
         == Digests(r.output) + Delivery(Head(r.output), After(block.Digest(), Head(r.output)))
  {
    var d, head := block.Digest(), Head(r.output);
    CommittedIsAscending(c, e, d);
    CommittedExtendsHead(c, e, r, d);
    WalkDelivers(r.store, head, block);
    DigestsConcat(r.output, Walk(r.store, head.round, block).value);
    ChainEnds(head);
    ChainEnds(d);
  }

  lemma FirstAfter(d: Digest, head: Digest)
    requires Ascending(d) && Chain(head) < Chain(d)
    ensures After(d, head) != [] && After(d, head)[0].BlockDigest?
  {
    ChainEnds(head);
    ChainNeighbours(d, |Chain(head)| - 1);
  }

  /** Exactly-once delivery is not what `commit` provides: it repeats the previously committed
      block exactly when the next block on the chain skipped a round. */
  lemma CommitRepeatsIffRoundSkipped(c: Committee, e: Evidence, r: Replica, block: Block)
    requires EvidenceOk(c, e) && StoreClosed(r.store) && LogOk(c, e, r)
    requires HasParent(r.store, block) && Committed(c, e, block.Digest())
    requires r.lastCommittedRound < block.round
    ensures Chain(Head(r.output)) < Chain(block.Digest())
    ensures var head, rest := Head(r.output), After(block.Digest(), Head(r.output));
            && rest != [] && rest[0].BlockDigest?
            && (Digests(Commit(r, block).output) == Digests(r.output) + rest
                <==> rest[0].round == r.lastCommittedRound + 1)
            && (Digests(Commit(r, block).output) == Digests(r.output) + ([head] + rest)
                <==> rest[0].round != r.lastCommittedRound + 1)
  {
    CommitDelivers(c, e, r, block);
    CommittedIsAscending(c, e, block.Digest());
    var head, rest, sent := Head(r.output), After(block.Digest(), Head(r.output)), Digests(r.output);
    FirstAfter(block.Digest(), head);
    assert |sent + ([head] + rest)| == |sent + rest| + 1;
  }
}
