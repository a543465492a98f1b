/** Committees, stake and the thresholds of `config/src/lib.rs`. */
module Committees {
  import opened Arithmetic

  type PublicKey = nat
  type Stake = nat

  datatype Authority = Authority(name: PublicKey, stake: Stake)

  /** The stake held by the members of `s` among the authorities `auths`. */
  function Weight(auths: seq<Authority>, s: set<PublicKey>): Stake
  {
    if auths == [] then 0
    else (if auths[0].name in s then auths[0].stake else 0) + Weight(auths[1..], s)
  }

  /** The sum of all stakes. */
  function Sum(auths: seq<Authority>): Stake
  {
    if auths == [] then 0 else auths[0].stake + Sum(auths[1..])
  }

  /** The stake of `name`, or 0 when it is not an authority. */
  function Lookup(auths: seq<Authority>, name: PublicKey): Stake
  {
    if auths == [] then 0
    else if auths[0].name == name then auths[0].stake
    else Lookup(auths[1..], name)
  }

  /** Authorities are kept in a `BTreeMap`, hence strictly sorted by name. */
  ghost predicate SortedByName(auths: seq<Authority>)
  {
    forall i, j | 0 <= i < j < |auths| :: auths[i].name < auths[j].name
  }

  type Authorities = a: seq<Authority> | SortedByName(a) witness []

  datatype Committee = Committee(authorities: Authorities) {

    function Stake(name: PublicKey): Stake
    {
      Lookup(authorities, name)
    }

    function Total(): Stake
    {
      Sum(authorities)
    }

    function StakeIn(s: set<PublicKey>): Stake
    {
      Weight(authorities, s)
    }

    /** The stake required to reach a quorum (2f+1). */
    function QuorumThreshold(): Stake
    {
      2 * Total() / 3 + 1
    }

    /** The stake required to reach availability (f+1). */
    function ValidityThreshold(): Stake
    {
      (Total() + 2) / 3
    }

    function FastThreshold(): Stake
    {
      Total()
    }

    predicate Quorum(s: set<PublicKey>)
    {
      StakeIn(s) >= QuorumThreshold()
    }

    /** The round-robin leader of a round. */
    function Leader(round: nat): PublicKey
      requires authorities != []
    {
      authorities[round % |authorities|].name
    }
  }

  lemma {:induction false} WeightInclusionExclusion(auths: seq<Authority>, s: set<PublicKey>, t: set<PublicKey>)
    ensures Weight(auths, s + t) + Weight(auths, s * t) == Weight(auths, s) + Weight(auths, t)
  {
    if auths != [] {
      WeightInclusionExclusion(auths[1..], s, t);
    }
  }

  lemma {:induction false} WeightBounded(auths: seq<Authority>, s: set<PublicKey>)
    ensures Weight(auths, s) <= Sum(auths)
  {
    if auths != [] {
      WeightBounded(auths[1..], s);
    }
  }

  lemma {:induction false} LookupPresent(auths: seq<Authority>, name: PublicKey)
    requires Lookup(auths, name) > 0
    ensures exists i | 0 <= i < |auths| :: auths[i].name == name
  {
    if auths[0].name != name {
      LookupPresent(auths[1..], name);
    }
  }

  lemma {:induction false} WeightMonotone(auths: seq<Authority>, s: set<PublicKey>, t: set<PublicKey>)
    requires forall x | x in s && Lookup(auths, x) > 0 :: x in t
    requires SortedByName(auths)
    ensures Weight(auths, s) <= Weight(auths, t)
  {
    if auths != [] {
      forall x | x in s && Lookup(auths[1..], x) > 0
        ensures x in t
      {
        LookupPresent(auths[1..], x);
      }
      WeightMonotone(auths[1..], s, t);
    }
  }

  lemma {:induction false} WeightAbsent(auths: seq<Authority>, name: PublicKey)
    requires forall a | a in auths :: a.name != name
    ensures Weight(auths, {name}) == 0
  {
    if auths != [] {
      assert auths[0] in auths;
      WeightAbsent(auths[1..], name);
    }
  }

  lemma {:induction false} WeightSingleton(auths: seq<Authority>, name: PublicKey)
    requires SortedByName(auths)
    ensures Weight(auths, {name}) == Lookup(auths, name)
  {
    if auths != [] {
      if auths[0].name == name {
        WeightAbsent(auths[1..], name);
      } else {
        WeightSingleton(auths[1..], name);
      }
    }
  }

  lemma {:induction false} WeightEmpty(auths: seq<Authority>)
    ensures Weight(auths, {}) == 0
  {
    if auths != [] {
      WeightEmpty(auths[1..]);
    }
  }

  /** Counting one more voter adds exactly its stake: the step of every weight accumulator. */
  lemma StakeInInsert(c: Committee, s: set<PublicKey>, name: PublicKey)
    requires name !in s
    ensures c.StakeIn(s + {name}) == c.StakeIn(s) + c.Stake(name)
  {
    WeightInclusionExclusion(c.authorities, s, {name});
    assert s * {name} == {};
    WeightEmpty(c.authorities);
    WeightSingleton(c.authorities, name);
  }

  /** Two quorums share more stake than any set holding under a third of it can account for. */
  lemma QuorumIntersection(c: Committee, s: set<PublicKey>, t: set<PublicKey>, faulty: set<PublicKey>)
    returns (x: PublicKey)
    requires c.Quorum(s) && c.Quorum(t)
    requires 3 * c.StakeIn(faulty) < c.Total()
    ensures x in s && x in t && x !in faulty && c.Stake(x) > 0
  {
    WeightInclusionExclusion(c.authorities, s, t);
    WeightBounded(c.authorities, s + t);
    if forall y | y in s * t && c.Stake(y) > 0 :: y in faulty {
      WeightMonotone(c.authorities, s * t, faulty);
      assert false;
    }
    x :| x in s * t && c.Stake(x) > 0 && x !in faulty;
  }

  /** A quorum and a set reaching the validity threshold always intersect. */
  lemma QuorumMeetsValidity(c: Committee, s: set<PublicKey>, t: set<PublicKey>) returns (x: PublicKey)
    requires c.Quorum(s) && c.StakeIn(t) >= c.ValidityThreshold()
    ensures x in s && x in t
  {
    WeightInclusionExclusion(c.authorities, s, t);
    WeightBounded(c.authorities, s + t);
    if s * t == {} {
      WeightEmpty(c.authorities);
      assert false;
    }
    x :| x in s * t;
  }

  /** What remains after a quorum is never a quorum again. */
  lemma ComplementNotQuorum(c: Committee, s: set<PublicKey>, t: set<PublicKey>)
    requires c.Quorum(s) && s !! t
    ensures !c.Quorum(t)
  {
    WeightInclusionExclusion(c.authorities, s, t);
    WeightBounded(c.authorities, s + t);
    assert s * t == {};
    WeightEmpty(c.authorities);
  }

  function Names(c: Committee): set<PublicKey>
  {
    set a | a in c.authorities :: a.name
  }

  lemma {:induction false} WeightOfAll(auths: seq<Authority>, s: set<PublicKey>)
    requires forall a | a in auths :: a.name in s
    ensures Weight(auths, s) == Sum(auths)
  {
    if auths != [] {
      assert auths[0] in auths;
      WeightOfAll(auths[1..], s);
    }
  }

  /** Both thresholds fit the fault bound: when the faulty members hold less than a third of the stake, all
      others together are a quorum, and every set that reaches the validity threshold has one of them. */
  lemma ThresholdsFitFaults(c: Committee, faulty: set<PublicKey>, s: set<PublicKey>)
    requires 3 * c.StakeIn(faulty) < c.Total()
    ensures c.Quorum(Names(c) - faulty)
    ensures c.StakeIn(s) >= c.ValidityThreshold() ==> exists x :: x in s && x !in faulty && c.Stake(x) > 0
  {
    var rest := Names(c) - faulty;
    WeightInclusionExclusion(c.authorities, rest, faulty);
    WeightOfAll(c.authorities, rest + faulty);
    assert rest * faulty == {};
    WeightEmpty(c.authorities);
    if c.StakeIn(s) >= c.ValidityThreshold() && forall x | x in s && c.Stake(x) > 0 :: x in faulty {
      WeightMonotone(c.authorities, s, faulty);
    }
  }

  lemma ModStep(x: nat, k: nat, n: nat)
    requires n > 0 && k < n
    ensures (x + k) % n == if x % n + k < n then x % n + k else x % n + k - n
  {
    var q, r := x / n, x % n;
    assert x + k == q * n + (r + k);
    if r + k < n {
      DivModUnique(x + k, n, q, r + k);
    } else {
      assert x + k == (q + 1) * n + (r + k - n);
      DivModUnique(x + k, n, q + 1, r + k - n);
    }
  }

  /** Leadership rotates: of any `n` consecutive rounds, where `n` is the size of the committee, each member
      leads exactly one. */
  lemma EveryMemberLeadsOnce(c: Committee, from: nat, i: nat) returns (round: nat)
    requires i < |c.authorities|
    ensures from <= round < from + |c.authorities| && c.Leader(round) == c.authorities[i].name
    ensures forall k | from <= k < from + |c.authorities| && c.Leader(k) == c.authorities[i].name :: k == round
  {
    var n := |c.authorities|;
    var first := from % n;
    round := from + if i >= first then i - first else i + n - first;
    ModStep(from, round - from, n);
    forall k | from <= k < from + n && c.Leader(k) == c.authorities[i].name
      ensures k == round
    {
      ModStep(from, k - from, n);
      assert k % n == i;
    }
  }
}
