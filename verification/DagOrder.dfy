/** `order_dag` of `consensus/src/lib.rs`: flattening the sub-DAG of a leader. */
module DagOrder {
  import opened Wrappers
  import opened Committees
  import opened Dags
  import opened Sorting

  type LastCommitted = map<PublicKey, Round>

  /** The certificate of round `round` with the given digest, if present. */
  function Find(dag: Dag, round: Round, digest: Digest): Option<Certificate>
  {
    var found := CertificateAt(dag, round, digest.origin);
    if found.Some? && found.value.Digest() == digest then found else None
  }

  /** Only a certificate at exactly the last committed round of its author is skipped. */
  predicate Skipped(last: LastCommitted, x: Certificate)
  {
    x.origin in last && last[x.origin] == x.round
  }

  predicate Follows(dag: Dag, last: LastCommitted, x: Certificate, y: Certificate)
  {
    Parent(dag, x, y) && !Skipped(last, y)
  }

  predicate IsTrail(dag: Dag, last: LastCommitted, p: seq<Certificate>)
  {
    p != [] && forall i, j | 0 <= i && j == i + 1 < |p| :: Follows(dag, last, p[i], p[j])
  }

  /** `x` is the leader or one of its ancestors through present certificates that are not skipped. */
  ghost predicate Drawn(dag: Dag, last: LastCommitted, leader: Certificate, x: Certificate)
  {
    exists p :: IsTrail(dag, last, p) && p[0] == leader && p[|p| - 1] == x
  }

  predicate Distinct(s: seq<Certificate>)
  {
    forall i, j | 0 <= i < j < |s| :: s[i] != s[j]
  }

  predicate SortedByRound(s: seq<Certificate>)
  {
    forall i, j | 0 <= i < j < |s| :: s[i].round <= s[j].round
  }

  lemma LeaderIsDrawn(dag: Dag, last: LastCommitted, leader: Certificate)
    ensures Drawn(dag, last, leader, leader)
  {
    assert IsTrail(dag, last, [leader]);
  }

  lemma DrawnStep(dag: Dag, last: LastCommitted, leader: Certificate, x: Certificate, y: Certificate)
    requires Drawn(dag, last, leader, x) && Follows(dag, last, x, y)
    ensures Drawn(dag, last, leader, y)
  {
    var p :| IsTrail(dag, last, p) && p[0] == leader && p[|p| - 1] == x;
    assert IsTrail(dag, last, p + [y]);
  }

  /** A set holding the leader and closed under `Follows` holds everything drawn. */
  lemma {:induction false} TrailStaysInClosedSet(
    dag: Dag, last: LastCommitted, p: seq<Certificate>, s: set<Certificate>)
    requires IsTrail(dag, last, p) && p[0] in s
    requires forall x, y | x in s && Follows(dag, last, x, y) :: y in s
    ensures p[|p| - 1] in s
  {
    if |p| > 1 {
      TrailStaysInClosedSet(dag, last, p[..|p| - 1], s);
      assert Follows(dag, last, p[|p| - 2], p[|p| - 1]);
    }
  }

  lemma {:induction false} TrailRounds(dag: Dag, last: LastCommitted, p: seq<Certificate>)
    requires IsTrail(dag, last, p)
    ensures p[|p| - 1].round + |p| - 1 == p[0].round
    ensures |p| > 1 ==> InDag(dag, p[|p| - 1]) && !Skipped(last, p[|p| - 1])
  {
    if |p| > 1 {
      TrailRounds(dag, last, p[..|p| - 1]);
      assert Follows(dag, last, p[|p| - 2], p[|p| - 1]);
    }
  }

  /** Everything drawn besides the leader is present, not skipped and of a lower round. */
  lemma DrawnIsPresent(dag: Dag, last: LastCommitted, leader: Certificate, x: Certificate)
    requires Drawn(dag, last, leader, x)
    ensures x == leader || (InDag(dag, x) && !Skipped(last, x) && x.round < leader.round)
  {
    var p :| IsTrail(dag, last, p) && p[0] == leader && p[|p| - 1] == x;
    TrailRounds(dag, last, p);
  }

  function AllDigests(dag: Dag): set<Digest>
  {
    set k, o | k in dag && o in dag[k] :: dag[k][o].Digest()
  }

  function Elements(s: seq<Certificate>): set<Certificate>
  {
    set x | x in s
  }

  /** The state of the depth-first search: `done` has been sequenced, `todo` is the stack, and
      `seen` holds the digests of everything pushed after the leader. */
  ghost predicate Searching(
    dag: Dag, last: LastCommitted, leader: Certificate,
    done: seq<Certificate>, todo: seq<Certificate>, seen: set<Digest>)
  {
    && Distinct(done) && Distinct(todo) && Elements(done) !! Elements(todo)
    && leader in Elements(done) + Elements(todo)
    && (forall x | x in Elements(done) + Elements(todo) ::
          Drawn(dag, last, leader, x) && (x == leader || x.Digest() in seen))
    && (forall x | InDag(dag, x) && x.Digest() in seen :: x in Elements(done) + Elements(todo))
    && leader.Digest() !in seen && seen <= AllDigests(dag)
  }

  /** The parents of `x` listed before position `k` have been dealt with. */
  ghost predicate Expanded(
    dag: Dag, last: LastCommitted, x: Certificate, k: nat, done: seq<Certificate>, todo: seq<Certificate>)
    requires k <= |x.parents|
  {
    forall y | Follows(dag, last, x, y) && y.Digest() in x.parents[..k] :: y in Elements(done) + Elements(todo)
  }

  lemma PushKeepsSearching(
    dag: Dag, last: LastCommitted, leader: Certificate,
    done: seq<Certificate>, todo: seq<Certificate>, seen: set<Digest>, x: Certificate, y: Certificate)
    requires WellFiled(dag) && Searching(dag, last, leader, done, todo, seen)
    requires x in done && Follows(dag, last, x, y) && y.Digest() !in seen
    ensures Searching(dag, last, leader, done, todo + [y], seen + {y.Digest()})
    ensures Elements(todo + [y]) == Elements(todo) + {y}
  {
    DrawnStep(dag, last, leader, x, y);
    DrawnIsPresent(dag, last, leader, x);
    assert y.Digest() in AllDigests(dag);
    assert y != leader && y.Digest() != leader.Digest();
  }

  lemma PopKeepsSearching(
    dag: Dag, last: LastCommitted, leader: Certificate,
    done: seq<Certificate>, todo: seq<Certificate>, seen: set<Digest>)
    requires Searching(dag, last, leader, done, todo, seen) && todo != []
    ensures var x, rest := todo[|todo| - 1], todo[..|todo| - 1];
            && Searching(dag, last, leader, done + [x], rest, seen)
            && Elements(done + [x]) + Elements(rest) == Elements(done) + Elements(todo)
  {
    var x, rest := todo[|todo| - 1], todo[..|todo| - 1];
    PopElements(todo);
    assert x in Elements(todo) && x !in Elements(done);
    assert Elements(done + [x]) == Elements(done) + {x};
    SameMembersSearching(dag, last, leader, done, todo, seen, done + [x], rest);
  }

  lemma PopElements(todo: seq<Certificate>)
    requires todo != [] && Distinct(todo)
    ensures var x, rest := todo[|todo| - 1], todo[..|todo| - 1];
            Distinct(rest) && x !in Elements(rest) && Elements(todo) == Elements(rest) + {x}
  {
    assert todo == todo[..|todo| - 1] + [todo[|todo| - 1]];
  }

  lemma SameMembersSearching(
    dag: Dag, last: LastCommitted, leader: Certificate,
    done: seq<Certificate>, todo: seq<Certificate>, seen: set<Digest>, done': seq<Certificate>, todo': seq<Certificate>)
    requires Searching(dag, last, leader, done, todo, seen)
    requires Distinct(done') && Distinct(todo') && Elements(done') !! Elements(todo')
    requires Elements(done') + Elements(todo') == Elements(done) + Elements(todo)
    ensures Searching(dag, last, leader, done', todo', seen)
  {}

  /** The inner loop of `order_dag`: pushes the parents of `x`, just sequenced, that are present,
      not yet seen and not skipped. */
  method PushParents(
    ghost leader: Certificate, dag: Dag, last: LastCommitted,
    ghost done: seq<Certificate>, todo0: seq<Certificate>, seen0: set<Digest>, x: Certificate)
    returns (todo: seq<Certificate>, seen: set<Digest>)
    requires WellFiled(dag) && x in done
    requires Searching(dag, last, leader, done, todo0, seen0)
    ensures Searching(dag, last, leader, done, todo, seen)
    ensures Elements(todo0) <= Elements(todo)
    ensures Expanded(dag, last, x, |x.parents|, done, todo)
    ensures seen0 <= seen && (seen == seen0 ==> |todo| == |todo0|)
  {
    todo, seen := todo0, seen0;
    for k := 0 to |x.parents|
      invariant Searching(dag, last, leader, done, todo, seen)
      invariant Elements(todo0) <= Elements(todo)
      invariant Expanded(dag, last, x, k, done, todo)
      invariant seen0 <= seen && (seen == seen0 ==> |todo| == |todo0|)
    {
      var found := if x.round == 0 then None else Find(dag, x.round - 1, x.parents[k]);
      ghost var before := Elements(done) + Elements(todo);
      if found.Some? {
        var y := found.value;
        if y.Digest() !in seen && !Skipped(last, y) {
          PushKeepsSearching(dag, last, leader, done, todo, seen, x, y);
          todo := todo + [y];
          seen := seen + {y.Digest()};
        }
      }
      ExpandNext(dag, last, x, k, done, todo, before, seen, leader);
    }
    assert x.parents[..|x.parents|] == x.parents;
  }

  /** One iteration of the outer loop: sequences the top of the stack and pushes its parents. */
  method SequenceNext(
    ghost leader: Certificate, dag: Dag, last: LastCommitted,
    done0: seq<Certificate>, todo0: seq<Certificate>, seen0: set<Digest>)
    returns (done: seq<Certificate>, todo: seq<Certificate>, seen: set<Digest>)
    requires WellFiled(dag) && todo0 != []
    requires Searching(dag, last, leader, done0, todo0, seen0)
    requires forall x | x in done0 :: Expanded(dag, last, x, |x.parents|, done0, todo0)
    ensures Searching(dag, last, leader, done, todo, seen)
    ensures forall x | x in done :: Expanded(dag, last, x, |x.parents|, done, todo)
    ensures var all := AllDigests(dag);
            |all - seen| < |all - seen0| || (|all - seen| == |all - seen0| && |todo| < |todo0|)
  {
    PopKeepsSearching(dag, last, leader, done0, todo0, seen0);
    var x := todo0[|todo0| - 1];
    done := done0 + [x];
    todo, seen := PushParents(leader, dag, last, done, todo0[..|todo0| - 1], seen0, x);
    Shrinks(AllDigests(dag), seen0, seen);
    ExpandedKept(dag, last, done0, todo0, done, todo, x);
  }

  /** The search: sequences exactly what is drawn from the leader, each certificate once. */
  method SubDag(leader: Certificate, dag: Dag, last: LastCommitted) returns (done: seq<Certificate>)
    requires WellFiled(dag) && (leader.round == 0 ==> leader.parents == [])
    ensures Distinct(done)
    ensures forall x :: x in done <==> Drawn(dag, last, leader, x)
  {
    done := [];
    var todo := [leader];
    var seen: set<Digest> := {};
    SearchStarts(dag, last, leader);
    while todo != []
      invariant Searching(dag, last, leader, done, todo, seen)
      invariant forall x | x in done :: Expanded(dag, last, x, |x.parents|, done, todo)
      decreases |AllDigests(dag) - seen|, |todo|
    {
      done, todo, seen := SequenceNext(leader, dag, last, done, todo, seen);
    }
    DoneIsDrawn(dag, last, leader, done, seen);
  }

  /** `order_dag`: the result holds, each once and by growing round, exactly the certificates
      drawn from the leader that are recent enough not to be garbage collected. Parents come
      before their children. */
  method OrderDag(leader: Certificate, dag: Dag, last: LastCommitted, lastRound: Round, gcDepth: nat)
    returns (ordered: seq<Certificate>)
    requires WellFiled(dag) && (leader.round == 0 ==> leader.parents == [])
    ensures Distinct(ordered) && SortedByRound(ordered)
    ensures forall x :: x in ordered <==> Drawn(dag, last, leader, x) && x.round + gcDepth >= lastRound
    ensures forall i, j | 0 <= i < |ordered| && 0 <= j < |ordered| && Parent(dag, ordered[i], ordered[j]) :: j < i
  {
    var done := SubDag(leader, dag, last);
    ordered := SortBy((x: Certificate) => x.round as real, Retain(done, gcDepth, lastRound));
    RetainedAndSorted(done, gcDepth, lastRound);
  }

  lemma SearchStarts(dag: Dag, last: LastCommitted, leader: Certificate)
    ensures Searching(dag, last, leader, [], [leader], {})
  {
    LeaderIsDrawn(dag, last, leader);
  }

  lemma DoneIsDrawn(dag: Dag, last: LastCommitted, leader: Certificate, done: seq<Certificate>, seen: set<Digest>)
    requires Searching(dag, last, leader, done, [], seen)
    requires forall x | x in done :: Expanded(dag, last, x, |x.parents|, done, [])
    ensures forall x :: x in done <==> Drawn(dag, last, leader, x)
  {
    forall x | Drawn(dag, last, leader, x)
      ensures x in done
    {
      AllDrawnAreDone(dag, last, leader, done, x);
    }
    forall x | x in done
      ensures Drawn(dag, last, leader, x)
    {
      assert x in Elements(done) + Elements([]);
    }
  }

  lemma RetainedAndSorted(done: seq<Certificate>, gcDepth: nat, lastRound: Round)
    requires Distinct(done)
    ensures var ordered := SortBy((x: Certificate) => x.round as real, Retain(done, gcDepth, lastRound));
            && Distinct(ordered) && SortedByRound(ordered)
            && forall x :: x in ordered <==> x in done && x.round + gcDepth >= lastRound
  {
    var key := (x: Certificate) => x.round as real;
    var kept := Retain(done, gcDepth, lastRound);
    RetainKeeps(done, gcDepth, lastRound);
    SortBySorts(key, kept);
    var ordered := SortBy(key, kept);
    SameElements(ordered, kept);
    forall i, j | 0 <= i < j < |ordered|
      ensures ordered[i].round <= ordered[j].round
    {
      assert key(ordered[i]) <= key(ordered[j]);
    }
  }

  lemma Shrinks(all: set<Digest>, before: set<Digest>, after: set<Digest>)
    requires before <= after <= all
    ensures before == after || |all - after| < |all - before|
  {
    if before != after {
      var d :| d in after && d !in before;
      assert all - after < all - before;
      SubsetSmaller(all - after, all - before);
    }
  }

  lemma SubsetSmaller<T>(a: set<T>, b: set<T>)
    requires a < b
    ensures |a| < |b|
  {
    var x :| x in b && x !in a;
    assert a <= b - {x};
    SubsetNotLarger(a, b - {x});
  }

  lemma {:induction false} SubsetNotLarger<T>(a: set<T>, b: set<T>)
    requires a <= b
    ensures |a| <= |b|
  {
    if a != {} {
      var x :| x in a;
      SubsetNotLarger(a - {x}, b - {x});
    }
  }

  /** After trying the parent at `k`, it has been dealt with. */
  lemma ExpandNext(
    dag: Dag, last: LastCommitted, x: Certificate, k: nat,
    done: seq<Certificate>, todo: seq<Certificate>, before: set<Certificate>, seen: set<Digest>, leader: Certificate)
    requires WellFiled(dag) && k < |x.parents|
    requires Searching(dag, last, leader, done, todo, seen)
    requires before <= Elements(done) + Elements(todo)
    requires forall y | Follows(dag, last, x, y) && y.Digest() in x.parents[..k] :: y in before
    requires x.round > 0 ==>
               var found := Find(dag, x.round - 1, x.parents[k]);
               found.Some? && !Skipped(last, found.value) ==> found.value.Digest() in seen
    ensures Expanded(dag, last, x, k + 1, done, todo)
  {
    assert x.parents[..k + 1] == x.parents[..k] + [x.parents[k]];
  }

  lemma ExpandedKept(
    dag: Dag, last: LastCommitted, done0: seq<Certificate>, todo0: seq<Certificate>,
    done: seq<Certificate>, todo: seq<Certificate>, x: Certificate)
    requires done == done0 + [x]
    requires Elements(done0) + Elements(todo0) <= Elements(done) + Elements(todo)
    requires forall z | z in done0 :: Expanded(dag, last, z, |z.parents|, done0, todo0)
    requires Expanded(dag, last, x, |x.parents|, done, todo)
    ensures forall z | z in done :: Expanded(dag, last, z, |z.parents|, done, todo)
  {
    forall z | z in done
      ensures Expanded(dag, last, z, |z.parents|, done, todo)
    {
      if z != x {
        assert z in done0;
      }
    }
  }

  lemma AllDrawnAreDone(dag: Dag, last: LastCommitted, leader: Certificate, done: seq<Certificate>, x: Certificate)
    requires leader in done && Drawn(dag, last, leader, x)
    requires forall z | z in done :: Expanded(dag, last, z, |z.parents|, done, [])
    ensures x in done
  {
    var p :| IsTrail(dag, last, p) && p[0] == leader && p[|p| - 1] == x;
    forall z, y | z in Elements(done) && Follows(dag, last, z, y)
      ensures y in Elements(done)
    {
      assert Expanded(dag, last, z, |z.parents|, done, []);
      assert z.parents[..|z.parents|] == z.parents;
    }
    TrailStaysInClosedSet(dag, last, p, Elements(done));
  }

  // ---- The two passes over the result ----

  /** `retain`: keeps what has not been garbage collected. */
  function Retain(s: seq<Certificate>, gcDepth: nat, lastRound: Round): seq<Certificate>
  {
    if s == [] then []
    else (if s[0].round + gcDepth >= lastRound then [s[0]] else []) + Retain(s[1..], gcDepth, lastRound)
  }

  lemma {:induction false} RetainKeeps(s: seq<Certificate>, gcDepth: nat, lastRound: Round)
    ensures forall x :: x in Retain(s, gcDepth, lastRound) <==> x in s && x.round + gcDepth >= lastRound
    ensures Distinct(s) ==> Distinct(Retain(s, gcDepth, lastRound))
  {
    if s != [] {
      RetainKeeps(s[1..], gcDepth, lastRound);
      assert s == [s[0]] + s[1..];
      if Distinct(s) {
        assert s[0] !in s[1..];
      }
    }
  }

  lemma SameElements(s: seq<Certificate>, t: seq<Certificate>)
    requires multiset(s) == multiset(t)
    ensures forall x :: x in s <==> x in t
    ensures Distinct(t) ==> Distinct(s)
  {
    assert forall x :: x in s <==> x in multiset(s);
    assert forall x :: x in t <==> x in multiset(t);
    if Distinct(t) {
      DistinctMultiset(t);
      MultisetDistinct(s);
    }
  }

  lemma {:induction false} DistinctMultiset(s: seq<Certificate>)
    requires Distinct(s)
    ensures forall x :: multiset(s)[x] <= 1
  {
    if s != [] {
      DistinctMultiset(s[1..]);
      assert s == [s[0]] + s[1..];
      assert s[0] !in s[1..];
    }
  }

  lemma {:induction false} MultisetDistinct(s: seq<Certificate>)
    requires forall x :: multiset(s)[x] <= 1
    ensures Distinct(s)
  {
    if s != [] {
      assert s == [s[0]] + s[1..];
      assert multiset(s) == multiset{s[0]} + multiset(s[1..]);
      assert multiset(s)[s[0]] == 1 + multiset(s[1..])[s[0]];
      assert s[0] !in multiset(s[1..]) && s[0] !in s[1..];
      forall x
        ensures multiset(s[1..])[x] <= 1
      {
        assert multiset(s)[x] >= multiset(s[1..])[x];
      }
      MultisetDistinct(s[1..]);
    }
  }
}
