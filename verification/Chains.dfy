/** Chains of blocks, followed through the parent hashes inside digests. */
module Chains {
  import opened Messages

  const GENESIS_DIGEST: Digest := BlockDigest(0, 0, [], Zero)

  /** The round of the block that `d` extends; extending genesis means carrying a zero hash. */
  function ParentRound(d: Digest): Round
  {
    if d.BlockDigest? && d.parent.BlockDigest? then d.parent.round else 0
  }

  /** The digests from the root of `d`'s history up to `d`, oldest first. */
  function Chain(d: Digest): seq<Digest>
  {
    if !d.BlockDigest? || d == GENESIS_DIGEST then [d]
    else if d.parent.Zero? then [GENESIS_DIGEST, d]
    else Chain(d.parent) + [d]
  }

  /** `a` is `d` or one of its ancestors. */
  predicate Extends(d: Digest, a: Digest)
  {
    a in Chain(d)
  }

  /** The history of `d` is rooted in genesis and its rounds grow from parent to child. */
  predicate Ascending(d: Digest)
  {
    || d == GENESIS_DIGEST
    || (d.BlockDigest? && ParentRound(d) < d.round && (d.parent.Zero? || Ascending(d.parent)))
  }

  lemma {:induction false} ChainEnds(d: Digest)
    ensures Chain(d) != [] && Chain(d)[|Chain(d)| - 1] == d
    ensures Ascending(d) ==> Chain(d)[0] == GENESIS_DIGEST
  {
    if d.BlockDigest? && d != GENESIS_DIGEST && !d.parent.Zero? {
      ChainEnds(d.parent);
    }
  }

  /** The history of an ancestor is a prefix of the history. */
  lemma {:induction false} AncestorChainIsPrefix(d: Digest, a: Digest)
    requires Extends(d, a)
    ensures Chain(a) <= Chain(d)
  {
    if a != d && d.BlockDigest? && d != GENESIS_DIGEST && !d.parent.Zero? {
      AncestorChainIsPrefix(d.parent, a);
    }
  }

  /** On an ascending history a round identifies its block. */
  lemma {:induction false} AncestorRounds(d: Digest, a: Digest)
    requires Ascending(d) && Extends(d, a)
    ensures a.BlockDigest? && Ascending(a)
    ensures a.round <= d.round && (a.round == d.round ==> a == d)
  {
    if a != d && d != GENESIS_DIGEST && !d.parent.Zero? {
      AncestorRounds(d.parent, a);
    }
  }
}
