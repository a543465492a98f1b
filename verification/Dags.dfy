/** The certificate DAG of `consensus/src/lib.rs` and the reachability test between leaders. */
module Dags {
  import opened Wrappers
  import opened Committees

  type Round = nat

  /** The program hashes the header's digest and the round. That digest is assumed to cover the author,
      so that certificates of different authors never share a digest. */
  datatype Digest = CertificateDigest(headerId: nat, round: Round, origin: PublicKey)

  datatype Certificate = Certificate(headerId: nat, round: Round, origin: PublicKey, parents: seq<Digest>) {

    function Digest(): Digest
    {
      CertificateDigest(headerId, round, origin)
    }
  }

  type Dag = map<Round, map<PublicKey, Certificate>>

  function CertificateAt(dag: Dag, round: Round, origin: PublicKey): Option<Certificate>
  {
    if round in dag && origin in dag[round] then Some(dag[round][origin]) else None
  }

  predicate InDag(dag: Dag, x: Certificate)
  {
    CertificateAt(dag, x.round, x.origin) == Some(x)
  }

  predicate FiledAt(x: Certificate, round: Round, origin: PublicKey)
  {
    x.round == round && x.origin == origin && (round == 0 ==> x.parents == [])
  }

  /** Certificates are filed under their round and origin; those of round 0 have no parents. */
  predicate WellFiled(dag: Dag)
  {
    forall k: Round, o: PublicKey | k in dag && o in dag[k] :: FiledAt(dag[k][o], k, o)
  }

  /** `y` is a parent of `x` that is present in the DAG. */
  predicate Parent(dag: Dag, x: Certificate, y: Certificate)
  {
    InDag(dag, y) && y.round + 1 == x.round && y.Digest() in x.parents
  }

  /** Consecutive certificates of `p` are child and parent. */
  predicate IsPath(dag: Dag, p: seq<Certificate>)
  {
    p != [] && forall i, j | 0 <= i && j == i + 1 < |p| :: Parent(dag, p[i], p[j])
  }

  ghost predicate Reaches(dag: Dag, x: Certificate, y: Certificate)
  {
    exists p :: IsPath(dag, p) && p[0] == x && p[|p| - 1] == y
  }

  // ---- Layers of ancestors ----

  /** The present parents, of round `round`, of the certificates in `frontier`. */
  function ParentsOf(dag: Dag, frontier: set<Certificate>, round: Round): set<Certificate>
  {
    if round !in dag then {}
    else set o | o in dag[round] && (exists x | x in frontier :: dag[round][o].Digest() in x.parents) :: dag[round][o]
  }

  /** The ancestors of `x` reached after `n` rounds. */
  function Layer(dag: Dag, x: Certificate, n: nat): set<Certificate>
    requires n <= x.round
  {
    if n == 0 then {x} else ParentsOf(dag, Layer(dag, x, n - 1), x.round - n)
  }

  lemma {:induction false} LayerRounds(dag: Dag, x: Certificate, n: nat)
    requires WellFiled(dag) && n <= x.round
    ensures forall y | y in Layer(dag, x, n) :: y.round == x.round - n
  {
  }

  lemma {:induction false} LayerIsReached(dag: Dag, x: Certificate, n: nat, y: Certificate)
    returns (p: seq<Certificate>)
    requires WellFiled(dag) && n <= x.round && y in Layer(dag, x, n)
    ensures IsPath(dag, p) && p[0] == x && p[|p| - 1] == y
  {
    if n == 0 {
      p := [x];
    } else {
      var round := x.round - n;
      var z :| z in Layer(dag, x, n - 1) && y.Digest() in z.parents;
      LayerRounds(dag, x, n - 1);
      var q := LayerIsReached(dag, x, n - 1, z);
      p := q + [y];
      assert Parent(dag, z, y);
    }
  }

  lemma {:induction false} PathRounds(dag: Dag, p: seq<Certificate>)
    requires IsPath(dag, p)
    ensures p[|p| - 1].round + |p| - 1 == p[0].round
  {
    if |p| > 1 {
      var q := p[..|p| - 1];
      PathRounds(dag, q);
      assert Parent(dag, p[|p| - 2], p[|p| - 1]);
    }
  }

  lemma {:induction false} ReachedIsInLayer(dag: Dag, p: seq<Certificate>)
    requires IsPath(dag, p)
    ensures |p| - 1 <= p[0].round && p[|p| - 1] in Layer(dag, p[0], |p| - 1)
  {
    PathRounds(dag, p);
    if |p| > 1 {
      var q := p[..|p| - 1];
      ReachedIsInLayer(dag, q);
      assert Parent(dag, p[|p| - 2], p[|p| - 1]);
    }
  }

  /** The layers are exactly the certificates reached by parent paths. */
  lemma LayerIffReaches(dag: Dag, x: Certificate, y: Certificate)
    requires WellFiled(dag) && y.round <= x.round
    ensures y in Layer(dag, x, x.round - y.round) <==> Reaches(dag, x, y)
  {
    if y in Layer(dag, x, x.round - y.round) {
      var p := LayerIsReached(dag, x, x.round - y.round, y);
    }
    if Reaches(dag, x, y) {
      var p :| IsPath(dag, p) && p[0] == x && p[|p| - 1] == y;
      PathRounds(dag, p);
      ReachedIsInLayer(dag, p);
    }
  }

  /** `linked`: walks the frontier down one round at a time. `None` is the failed `expect` when a
      round is missing from the DAG. */
  method Linked(leader: Certificate, prevLeader: Certificate, dag: Dag) returns (r: Option<bool>)
    requires WellFiled(dag)
    ensures r.None? <==> exists k | prevLeader.round <= k < leader.round :: k !in dag
    ensures r.Some? ==> (r.value <==> Reaches(dag, leader, prevLeader))
  {
    hide Reaches;
    var parents := {leader};
    var r': nat := leader.round;
    while r' > prevLeader.round
      invariant r' <= leader.round && (prevLeader.round <= leader.round ==> prevLeader.round <= r')
      invariant parents == Layer(dag, leader, leader.round - r')
      invariant forall k | r' <= k < leader.round :: k in dag
    {
      r' := r' - 1;
      if r' !in dag {
        return None;
      }
      var layer := dag[r'];
      parents := set o | o in layer && (exists x | x in parents :: layer[o].Digest() in x.parents) :: layer[o];
    }
    if prevLeader.round <= leader.round {
      LayerIffReaches(dag, leader, prevLeader);
    } else {
      HigherIsNotReached(dag, leader, prevLeader);
    }
    return Some(prevLeader in parents);
  }

  lemma HigherIsNotReached(dag: Dag, x: Certificate, y: Certificate)
    requires y.round > x.round
    ensures !Reaches(dag, x, y)
  {
    if Reaches(dag, x, y) {
      var p :| IsPath(dag, p) && p[0] == x && p[|p| - 1] == y;
      PathRounds(dag, p);
    }
  }

  // ---- Support ----

  /** The authorities of the next round whose certificate references `leader`. */
  function Supporters(dag: Dag, leader: Certificate): set<PublicKey>
  {
    if leader.round + 1 !in dag then {}
    else
      var next := dag[leader.round + 1];
      set o | o in next && leader.Digest() in next[o].parents
  }

  /** The authorities of the previous round that `x` references. */
  function Referenced(dag: Dag, x: Certificate): set<PublicKey>
  {
    if x.round == 0 || x.round - 1 !in dag then {}
    else
      var previous := dag[x.round - 1];
      set o | o in previous && previous[o].Digest() in x.parents
  }

  /** Every certificate more than one round above `round` references a quorum of the round before. */
  ghost predicate WellConnected(c: Committee, dag: Dag, round: Round)
  {
    forall k: Round, o: PublicKey | k in dag && o in dag[k] && k >= round + 2 :: c.Quorum(Referenced(dag, dag[k][o]))
  }

  /** Support implies reachability: a leader referenced by f+1 stake of the next round is reached
      from every certificate two or more rounds above it. */
  lemma {:induction false} SupportImpliesReached(c: Committee, dag: Dag, leader: Certificate, x: Certificate)
    requires WellFiled(dag) && WellConnected(c, dag, leader.round)
    requires InDag(dag, leader) && InDag(dag, x)
    requires c.StakeIn(Supporters(dag, leader)) >= c.ValidityThreshold()
    requires x.round >= leader.round + 2
    ensures Reaches(dag, x, leader)
    decreases x.round
  {
    assert c.Quorum(Referenced(dag, x));
    var o: PublicKey;
    if x.round == leader.round + 2 {
      o := QuorumMeetsValidity(c, Referenced(dag, x), Supporters(dag, leader));
      var y := dag[x.round - 1][o];
      var p := [x, y, leader];
      assert Parent(dag, x, y) && Parent(dag, y, leader);
      assert IsPath(dag, p);
    } else {
      o := QuorumMember(c, Referenced(dag, x));
      var y := dag[x.round - 1][o];
      assert Parent(dag, x, y);
      SupportImpliesReached(c, dag, leader, y);
      PathExtends(dag, x, y, leader);
    }
  }

  lemma QuorumMember(c: Committee, s: set<PublicKey>) returns (x: PublicKey)
    requires c.Quorum(s)
    ensures x in s
  {
    if s == {} {
      WeightEmpty(c.authorities);
    }
    x :| x in s;
  }

  lemma PathExtends(dag: Dag, x: Certificate, y: Certificate, z: Certificate)
    requires Parent(dag, x, y) && Reaches(dag, y, z)
    ensures Reaches(dag, x, z)
  {
    var p :| IsPath(dag, p) && p[0] == y && p[|p| - 1] == z;
    var q := [x] + p;
    forall i, j | 0 <= i && j == i + 1 < |q|
      ensures Parent(dag, q[i], q[j])
    {
      if i > 0 {
        assert q[i] == p[i - 1] && q[j] == p[i];
      }
    }
    assert IsPath(dag, q);
  }

  /** What the run loop relies on: once a leader has f+1 support, `linked` answers true from every
      certificate two or more rounds above it whose history is present. */
  lemma SupportedLeadersStayLinked(c: Committee, dag: Dag, leader: Certificate)
    requires WellFiled(dag) && WellConnected(c, dag, leader.round) && InDag(dag, leader)
    requires c.StakeIn(Supporters(dag, leader)) >= c.ValidityThreshold()
    ensures forall x | InDag(dag, x) && x.round >= leader.round + 2 :: leader in Layer(dag, x, x.round - leader.round)
  {
    forall x | InDag(dag, x) && x.round >= leader.round + 2
      ensures leader in Layer(dag, x, x.round - leader.round)
    {
      SupportImpliesReached(c, dag, leader, x);
      LayerIffReaches(dag, x, leader);
    }
  }
}
