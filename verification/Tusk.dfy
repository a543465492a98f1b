/** The state of `consensus/src/lib.rs` and its run loop: whatever certificates arrive, in
    whatever order, none is output twice. */
module Tusk {
  import opened Wrappers
  import opened Committees
  import opened Dags
  import opened DagOrder

  function Max(a: Round, b: Round): Round
  {
    if a >= b then a else b
  }

  ghost predicate IsMax(last: LastCommitted, m: Round)
  {
    (exists o | o in last :: last[o] == m) && forall o | o in last :: last[o] <= m
  }

  // ---- Pruning ----

  /** What survives pruning: entries not below the last commit of their author, in rounds that are
      not garbage collected. */
  predicate Kept(last: LastCommitted, lastRound: Round, gcDepth: nat, round: Round, origin: PublicKey)
  {
    round + gcDepth >= lastRound && (origin in last ==> round >= last[origin])
  }

  /** `dag'` is `dag` without the entries that are not kept and without empty rounds. */
  ghost predicate PrunedFrom(dag': Dag, dag: Dag, last: LastCommitted, lastRound: Round, gcDepth: nat)
  {
    && (forall k: Round, o: PublicKey :: CertificateAt(dag', k, o)
                       == if Kept(last, lastRound, gcDepth, k, o) then CertificateAt(dag, k, o) else None)
    && (forall k | k in dag' :: dag'[k] != map[])
  }

  class State {
    var lastCommittedRound: Round
    var lastCommitted: LastCommitted
    var dag: Dag

    /** The genesis certificates count as committed at round 0. */
    constructor (genesis: map<PublicKey, Certificate>)
      ensures lastCommittedRound == 0 && dag == map[0 := genesis]
      ensures lastCommitted == map o | o in genesis :: genesis[o].round
    {
      lastCommittedRound := 0;
      lastCommitted := map o | o in genesis :: genesis[o].round;
      dag := map[0 := genesis];
    }

    /** `update`: record the commit of `certificate` and prune the DAG. */
    method Update(certificate: Certificate, gcDepth: nat)
      modifies this
      ensures var o := certificate.origin;
              lastCommitted == old(lastCommitted)[
                o := if o in old(lastCommitted) then Max(old(lastCommitted)[o], certificate.round)
                     else certificate.round]
      ensures IsMax(lastCommitted, lastCommittedRound)
      ensures PrunedFrom(dag, old(dag), lastCommitted, lastCommittedRound, gcDepth)
    {
      var o := certificate.origin;
      lastCommitted := lastCommitted[
        o := if o in lastCommitted then Max(lastCommitted[o], certificate.round) else certificate.round];
      assert o in lastCommitted;
      lastCommittedRound := MaxValue(lastCommitted);
      dag := Prune(dag, lastCommitted, lastCommittedRound, gcDepth);
    }
  }

  /** `values().max().unwrap()`. */
  method MaxValue(last: LastCommitted) returns (m: Round)
    requires last != map[]
    ensures IsMax(last, m)
  {
    var o :| o in last;
    m := last[o];
    var rest := last.Keys - {o};
    while rest != {}
      invariant rest <= last.Keys
      invariant (exists x | x in last :: last[x] == m) && forall x | x in last && x !in rest :: last[x] <= m
      decreases rest
    {
      var x :| x in rest;
      m := Max(m, last[x]);
      rest := rest - {x};
    }
  }

  /** The entries of round `round` that the pair (`name`, `committed`) does not prune. */
  function RetainAuthorities(
    authorities: map<PublicKey, Certificate>, round: Round, name: PublicKey, committed: Round)
    : map<PublicKey, Certificate>
  {
    map n | n in authorities && (n != name || round >= committed) :: authorities[n]
  }

  /** One `retain` over the rounds. */
  function RetainRounds(dag: Dag, name: PublicKey, committed: Round, lastRound: Round, gcDepth: nat): Dag
  {
    map k | k in dag && RetainAuthorities(dag[k], k, name, committed) != map[] && k + gcDepth >= lastRound
      :: RetainAuthorities(dag[k], k, name, committed)
  }

  lemma RetainRoundsLookup(
    dag: Dag, name: PublicKey, committed: Round, lastRound: Round, gcDepth: nat, k: Round, o: PublicKey)
    ensures CertificateAt(RetainRounds(dag, name, committed, lastRound, gcDepth), k, o)
         == if k + gcDepth >= lastRound && (o == name ==> k >= committed) then CertificateAt(dag, k, o) else None
  {
    if k in dag {
      var kept := RetainAuthorities(dag[k], k, name, committed);
      if o in kept {
        assert kept != map[];
      }
    }
  }

  /** The loop of `update` over the last committed rounds. */
  method Prune(dag0: Dag, last: LastCommitted, lastRound: Round, gcDepth: nat) returns (dag: Dag)
    requires last != map[]
    ensures PrunedFrom(dag, dag0, last, lastRound, gcDepth)
  {
    dag := dag0;
    var rest := last.Keys;
    ghost var done: set<PublicKey> := {};
    while rest != {}
      invariant done + rest == last.Keys && done !! rest
      invariant forall k: Round, o: PublicKey :: CertificateAt(dag, k, o)
                               == if (done != {} ==> k + gcDepth >= lastRound) && (o in done ==> k >= last[o])
                                  then CertificateAt(dag0, k, o) else None
      invariant done != {} ==> forall k | k in dag :: dag[k] != map[]
      decreases rest
    {
      var name :| name in rest;
      ghost var before := dag;
      dag := RetainRounds(dag, name, last[name], lastRound, gcDepth);
      forall k: Round, o: PublicKey
        ensures CertificateAt(dag, k, o)
             == if k + gcDepth >= lastRound && (o in done + {name} ==> k >= last[o])
                then CertificateAt(dag0, k, o) else None
      {
        RetainRoundsLookup(before, name, last[name], lastRound, gcDepth, k, o);
      }
      rest := rest - {name};
      done := done + {name};
    }
    assert done == last.Keys;
  }

  // ---- The invariant of the run loop ----

  function Key(x: Certificate): (Round, PublicKey)
  {
    (x.round, x.origin)
  }

  predicate KeyIn(log: seq<Certificate>, round: Round, origin: PublicKey)
  {
    exists i | 0 <= i < |log| :: Key(log[i]) == (round, origin)
  }

  lemma KeyInAppend(log: seq<Certificate>, x: Certificate, round: Round, origin: PublicKey)
    ensures KeyIn(log + [x], round, origin) <==> KeyIn(log, round, origin) || Key(x) == (round, origin)
  {
    if KeyIn(log, round, origin) {
      var i :| 0 <= i < |log| && Key(log[i]) == (round, origin);
      assert (log + [x])[i] == log[i];
    }
    if Key(x) == (round, origin) {
      assert (log + [x])[|log|] == x;
    }
  }

  predicate DistinctKeys(log: seq<Certificate>)
  {
    forall i, j | 0 <= i < j < |log| :: Key(log[i]) != Key(log[j])
  }

  /** `log` is what has been output. An entry of the DAG that has been output sits exactly at the
      last committed round of its author, which is all that the equality test of `order_dag` skips. */
  ghost predicate StateOk(
    dag: Dag, last: LastCommitted, lastRound: Round, delivered: set<(Round, PublicKey)>, log: seq<Certificate>)
  {
    && WellFiled(dag) && DistinctKeys(log)
    && (forall k: Round, o: PublicKey | k in dag && o in dag[k] :: (k, o) in delivered)
    && (forall x | x in log :: Key(x) in delivered && x.origin in last && x.round <= last[x.origin])
    && (forall k: Round, o: PublicKey | k in dag && o in dag[k] && KeyIn(log, k, o) :: o in last && last[o] == k)
    && (forall o | o in last :: last[o] <= lastRound)
  }

  /** Pruning only removes entries. */
  lemma PrunedEntry(
    dag': Dag, dag: Dag, last: LastCommitted, lastRound: Round, gcDepth: nat, k: Round, o: PublicKey)
    requires PrunedFrom(dag', dag, last, lastRound, gcDepth) && k in dag' && o in dag'[k]
    ensures k in dag && o in dag[k] && dag[k][o] == dag'[k][o] && (o in last ==> k >= last[o])
  {
    assert CertificateAt(dag', k, o) == Some(dag'[k][o]);
  }

  lemma PrunedWellFiled(dag': Dag, dag: Dag, last: LastCommitted, lastRound: Round, gcDepth: nat)
    requires PrunedFrom(dag', dag, last, lastRound, gcDepth) && WellFiled(dag)
    ensures WellFiled(dag')
  {
    forall k: Round, o: PublicKey | k in dag' && o in dag'[k]
      ensures FiledAt(dag'[k][o], k, o)
    {
      PrunedEntry(dag', dag, last, lastRound, gcDepth, k, o);
    }
  }

  /** Committing a certificate that was not output before keeps the invariant. */
  lemma UpdateKeepsStateOk(
    dag: Dag, last: LastCommitted, lastRound: Round, delivered: set<(Round, PublicKey)>, log: seq<Certificate>,
    x: Certificate, dag': Dag, last': LastCommitted, lastRound': Round, gcDepth: nat)
    requires StateOk(dag, last, lastRound, delivered, log)
    requires Key(x) in delivered && !KeyIn(log, x.round, x.origin)
    requires last' == last[x.origin := if x.origin in last then Max(last[x.origin], x.round) else x.round]
    requires IsMax(last', lastRound') && PrunedFrom(dag', dag, last', lastRound', gcDepth)
    ensures StateOk(dag', last', lastRound', delivered, log + [x])
    ensures lastRound' <= Max(lastRound, x.round)
  {
    PrunedWellFiled(dag', dag, last', lastRound', gcDepth);
    forall k: Round, o: PublicKey | k in dag' && o in dag'[k]
      ensures (k, o) in delivered
      ensures KeyIn(log + [x], k, o) ==> o in last' && last'[o] == k
    {
      PrunedEntry(dag', dag, last', lastRound', gcDepth, k, o);
      KeyInAppend(log, x, k, o);
    }
    forall i | 0 <= i < |log|
      ensures Key(log[i]) != Key(x)
    {
    }
  }

  /** None of the certificates in `next` has been output, and their keys are distinct. */
  ghost predicate Fresh(delivered: set<(Round, PublicKey)>, log: seq<Certificate>, next: seq<Certificate>)
  {
    && DistinctKeys(next)
    && forall x | x in next :: Key(x) in delivered && !KeyIn(log, x.round, x.origin)
  }

  lemma OutputIsCommitted(
    dag: Dag, last: LastCommitted, lastRound: Round, delivered: set<(Round, PublicKey)>, log: seq<Certificate>,
    x: Certificate)
    requires StateOk(dag, last, lastRound, delivered, log) && KeyIn(log, x.round, x.origin)
    ensures x.round <= lastRound
    ensures InDag(dag, x) ==> Skipped(last, x)
  {
    var i :| 0 <= i < |log| && Key(log[i]) == (x.round, x.origin);
    assert log[i] in log;
  }

  /** Flattening a leader above all committed rounds yields only fresh certificates. */
  lemma SubDagIsFresh(
    dag: Dag, last: LastCommitted, lastRound: Round, delivered: set<(Round, PublicKey)>, log: seq<Certificate>,
    leader: Certificate, next: seq<Certificate>)
    requires StateOk(dag, last, lastRound, delivered, log)
    requires leader.round > lastRound && Key(leader) in delivered
    requires Distinct(next) && forall x | x in next :: Drawn(dag, last, leader, x)
    ensures Fresh(delivered, log, next)
    ensures forall x | x in next :: x.round <= leader.round
  {
    forall x | x in next
      ensures Key(x) in delivered && !KeyIn(log, x.round, x.origin) && x.round <= leader.round
      ensures x == leader || (InDag(dag, x) && x.round < leader.round)
    {
      DrawnIsPresent(dag, last, leader, x);
      if KeyIn(log, x.round, x.origin) {
        OutputIsCommitted(dag, last, lastRound, delivered, log, x);
      }
    }
    forall i, j | 0 <= i < j < |next|
      ensures Key(next[i]) != Key(next[j])
    {
      assert next[i] in next && next[j] in next;
    }
  }

  lemma FreshRest(delivered: set<(Round, PublicKey)>, log: seq<Certificate>, next: seq<Certificate>)
    requires Fresh(delivered, log, next) && next != []
    ensures Key(next[0]) in delivered && !KeyIn(log, next[0].round, next[0].origin)
    ensures Fresh(delivered, log + [next[0]], next[1..])
  {
    forall x | x in next[1..]
      ensures !KeyIn(log + [next[0]], x.round, x.origin)
    {
      assert x in next;
      KeyInAppend(log, next[0], x.round, x.origin);
    }
  }

  // ---- Nothing above the last commit is lost ----

  /** Everything delivered above the last committed round is present, and that round was committed. */
  ghost predicate Whole(dag: Dag, last: LastCommitted, lastRound: Round, delivered: set<(Round, PublicKey)>)
  {
    && (forall k: Round, o: PublicKey | (k, o) in delivered && k > lastRound :: k in dag && o in dag[k])
    && (lastRound == 0 || exists o | o in last :: last[o] == lastRound)
  }

  /** `last'` is at least `last` for every author. */
  ghost predicate Advances(last: LastCommitted, last': LastCommitted)
  {
    forall o | o in last :: o in last' && last[o] <= last'[o]
  }

  lemma AdvancesRound(
    last: LastCommitted, lastRound: Round, last': LastCommitted, lastRound': Round)
    requires Advances(last, last') && IsMax(last', lastRound')
    requires lastRound == 0 || exists o | o in last :: last[o] == lastRound
    ensures lastRound <= lastRound'
  {}

  lemma PruningKeepsWhole(
    dag: Dag, last: LastCommitted, lastRound: Round, delivered: set<(Round, PublicKey)>,
    dag': Dag, last': LastCommitted, lastRound': Round, gcDepth: nat)
    requires Whole(dag, last, lastRound, delivered) && Advances(last, last')
    requires IsMax(last', lastRound') && PrunedFrom(dag', dag, last', lastRound', gcDepth)
    ensures Whole(dag', last', lastRound', delivered) && lastRound <= lastRound'
  {
    AdvancesRound(last, lastRound, last', lastRound');
    forall k: Round, o: PublicKey | (k, o) in delivered && k > lastRound'
      ensures k in dag' && o in dag'[k]
    {
      assert CertificateAt(dag', k, o) == CertificateAt(dag, k, o) != None;
    }
  }

  predicate RoundIn(delivered: set<(Round, PublicKey)>, round: Round)
  {
    exists x | x in delivered :: x.0 == round
  }

  /** Below every delivered certificate there is one of each earlier round but genesis's. */
  predicate Grounded(delivered: set<(Round, PublicKey)>)
  {
    forall x | x in delivered && x.0 >= 2 :: RoundIn(delivered, x.0 - 1)
  }

  lemma {:induction false} LowerRoundsDelivered(delivered: set<(Round, PublicKey)>, round: Round, k: Round)
    requires Grounded(delivered) && RoundIn(delivered, round) && 1 <= k <= round
    ensures RoundIn(delivered, k)
    decreases round
  {
    if k < round {
      var x :| x in delivered && x.0 == round;
      LowerRoundsDelivered(delivered, round - 1, k);
    }
  }

  /** So no round between the last commit and a delivered certificate is missing. */
  lemma NoRoundMissing(
    dag: Dag, last: LastCommitted, lastRound: Round, delivered: set<(Round, PublicKey)>, round: Round, k: Round)
    requires Whole(dag, last, lastRound, delivered) && Grounded(delivered) && RoundIn(delivered, round)
    requires lastRound < k < round
    ensures k in dag
  {
    LowerRoundsDelivered(delivered, round, k);
    var x :| x in delivered && x.0 == k;
    assert (k, x.1) in delivered;
  }

  // ---- What a commit outputs ----

  /** The state of the loop at some time. */
  datatype Snapshot = Snapshot(dag: Dag, last: LastCommitted, lastRound: Round)

  /** The history of a leader as flattened from a state of the loop. */
  datatype Flattening = Flattening(from: Snapshot, leader: Certificate, next: seq<Certificate>)

  predicate ParentsFirst(dag: Dag, s: seq<Certificate>)
  {
    forall i, j | 0 <= i < |s| && 0 <= j < |s| && Parent(dag, s[i], s[j]) :: j < i
  }

  /** `next` holds, each once, the certificates drawn from the leader that are not garbage collected,
      by growing round and parents before children. */
  ghost predicate Flattens(f: Flattening, gcDepth: nat)
  {
    && Distinct(f.next) && SortedByRound(f.next) && ParentsFirst(f.from.dag, f.next)
    && forall x :: x in f.next <==>
         Drawn(f.from.dag, f.from.last, f.leader, x) && x.round + gcDepth >= f.from.lastRound
  }

  function LastAfter(last: LastCommitted, next: seq<Certificate>): LastCommitted
  {
    if next == [] then last
    else
      var before, x := LastAfter(last, next[..|next| - 1]), next[|next| - 1];
      before[x.origin := if x.origin in before then Max(before[x.origin], x.round) else x.round]
  }

  /** Committing the flattened history takes the loop from one state to the next. */
  ghost predicate Leads(f: Flattening, to: Snapshot, gcDepth: nat)
  {
    && to.last == LastAfter(f.from.last, f.next) && IsMax(to.last, to.lastRound)
    && PrunedFrom(to.dag, f.from.dag, to.last, to.lastRound, gcDepth)
  }

  /** Pruning twice is pruning once with the later bounds. */
  lemma PruningComposes(
    dag: Dag, dag': Dag, last': LastCommitted, lastRound': Round,
    dag'': Dag, last'': LastCommitted, lastRound'': Round, gcDepth: nat)
    requires PrunedFrom(dag', dag, last', lastRound', gcDepth)
    requires PrunedFrom(dag'', dag', last'', lastRound'', gcDepth)
    requires Advances(last', last'') && lastRound' <= lastRound''
    ensures PrunedFrom(dag'', dag, last'', lastRound'', gcDepth)
  {
    forall k: Round, o: PublicKey
      ensures CertificateAt(dag'', k, o)
           == if Kept(last'', lastRound'', gcDepth, k, o) then CertificateAt(dag, k, o) else None
    {
      assert Kept(last'', lastRound'', gcDepth, k, o) ==> Kept(last', lastRound', gcDepth, k, o);
    }
  }

  /** What committing `next` one by one leads to. */
  ghost predicate Reached(
    dag0: Dag, last0: LastCommitted, next: seq<Certificate>,
    dag: Dag, last: LastCommitted, lastRound: Round, gcDepth: nat)
  {
    && last == LastAfter(last0, next)
    && (next == [] ==> dag == dag0)
    && (next != [] ==> IsMax(last, lastRound) && PrunedFrom(dag, dag0, last, lastRound, gcDepth))
  }

  lemma ReachedAtStart(dag: Dag, last: LastCommitted, lastRound: Round, gcDepth: nat)
    ensures Reached(dag, last, [], dag, last, lastRound, gcDepth)
  {}

  lemma SliceStep(s: seq<Certificate>, i: nat)
    requires i < |s|
    ensures s[i..] != [] && s[i..][0] == s[i] && s[i..][1..] == s[i + 1..]
    ensures s[..i + 1] == s[..i] + [s[i]] && s[i] in s
  {}

  lemma ReachedNext(
    dag0: Dag, last0: LastCommitted, next: seq<Certificate>, dag: Dag, last: LastCommitted, lastRound: Round,
    x: Certificate, dag': Dag, last': LastCommitted, lastRound': Round, gcDepth: nat)
    requires Reached(dag0, last0, next, dag, last, lastRound, gcDepth) && lastRound <= lastRound'
    requires last' == last[x.origin := if x.origin in last then Max(last[x.origin], x.round) else x.round]
    requires IsMax(last', lastRound') && PrunedFrom(dag', dag, last', lastRound', gcDepth)
    ensures Reached(dag0, last0, next + [x], dag', last', lastRound', gcDepth)
  {
    assert (next + [x])[..|next|] == next;
    if next != [] {
      PruningComposes(dag0, dag, last, lastRound, dag', last', lastRound', gcDepth);
    }
  }

  /** Everything that holds of the state of the loop. */
  ghost predicate Sane(
    dag: Dag, last: LastCommitted, lastRound: Round, delivered: set<(Round, PublicKey)>, log: seq<Certificate>)
  {
    StateOk(dag, last, lastRound, delivered, log) && Whole(dag, last, lastRound, delivered)
  }

  lemma SaneWellFiled(
    dag: Dag, last: LastCommitted, lastRound: Round, delivered: set<(Round, PublicKey)>, log: seq<Certificate>)
    requires Sane(dag, last, lastRound, delivered, log)
    ensures WellFiled(dag) && DistinctKeys(log)
  {
  }

  lemma SanePresent(
    dag: Dag, last: LastCommitted, lastRound: Round, delivered: set<(Round, PublicKey)>, log: seq<Certificate>,
    round: Round, origin: PublicKey)
    requires Sane(dag, last, lastRound, delivered, log) && CertificateAt(dag, round, origin).Some?
    ensures var x := CertificateAt(dag, round, origin).value; Key(x) == (round, origin) && Key(x) in delivered
  {
    assert FiledAt(dag[round][origin], round, origin);
  }

  lemma SaneFresh(
    dag: Dag, last: LastCommitted, lastRound: Round, delivered: set<(Round, PublicKey)>, log: seq<Certificate>,
    leader: Certificate, next: seq<Certificate>)
    requires Sane(dag, last, lastRound, delivered, log)
    requires leader.round > lastRound && Key(leader) in delivered
    requires Distinct(next) && forall x | x in next :: Drawn(dag, last, leader, x)
    ensures Fresh(delivered, log, next)
    ensures forall x | x in next :: x.round <= leader.round
  {
    SubDagIsFresh(dag, last, lastRound, delivered, log, leader, next);
  }

  /** One update keeps everything that holds of the state while a history is committed. */
  lemma UpdateKeeps(
    dag: Dag, last: LastCommitted, lastRound: Round, delivered: set<(Round, PublicKey)>, log: seq<Certificate>,
    rest: seq<Certificate>, dag': Dag, last': LastCommitted, lastRound': Round, gcDepth: nat,
    dag0: Dag, last0: LastCommitted, done: seq<Certificate>)
    requires Sane(dag, last, lastRound, delivered, log) && rest != [] && Fresh(delivered, log, rest)
    requires var x := rest[0];
             last' == last[x.origin := if x.origin in last then Max(last[x.origin], x.round) else x.round]
    requires IsMax(last', lastRound') && PrunedFrom(dag', dag, last', lastRound', gcDepth)
    requires Reached(dag0, last0, done, dag, last, lastRound, gcDepth)
    ensures Sane(dag', last', lastRound', delivered, log + [rest[0]])
    ensures Reached(dag0, last0, done + [rest[0]], dag', last', lastRound', gcDepth)
    ensures Fresh(delivered, log + [rest[0]], rest[1..]) && lastRound' <= Max(lastRound, rest[0].round)
  {
    FreshRest(delivered, log, rest);
    UpdateKeepsStateOk(dag, last, lastRound, delivered, log, rest[0], dag', last', lastRound', gcDepth);
    PruningKeepsWhole(dag, last, lastRound, delivered, dag', last', lastRound', gcDepth);
    ReachedNext(dag0, last0, done, dag, last, lastRound, rest[0], dag', last', lastRound', gcDepth);
  }

  function Flat(trace: seq<Flattening>): seq<Certificate>
  {
    if trace == [] then [] else Flat(trace[..|trace| - 1]) + trace[|trace| - 1].next
  }

  ghost predicate IsHistory(f: Flattening, gcDepth: nat)
  {
    Flattens(f, gcDepth) && f.leader in f.next
  }

  /** The histories of the leaders, which are given newest first: each is flattened from where the one
      before leads, the first from `start`. */
  ghost predicate Traces(trace: seq<Flattening>, leaders: seq<Certificate>, start: Snapshot, gcDepth: nat)
    decreases |trace|, 0
  {
    if trace == [] then leaders == []
    else
      var rest, f := trace[..|trace| - 1], trace[|trace| - 1];
      && leaders != [] && f.leader == leaders[0] && IsHistory(f, gcDepth)
      && TracesTo(rest, leaders[1..], start, f.from, gcDepth)
  }

  /** The same, and the last history leads to `to`. */
  ghost predicate TracesTo(
    trace: seq<Flattening>, leaders: seq<Certificate>, start: Snapshot, to: Snapshot, gcDepth: nat)
    decreases |trace|, 1
  {
    && Traces(trace, leaders, start, gcDepth)
    && if trace == [] then to == start else Leads(trace[|trace| - 1], to, gcDepth)
  }

  lemma TraceStarts(start: Snapshot, gcDepth: nat)
    ensures TracesTo([], [], start, start, gcDepth) && Flat([]) == []
  {}

  lemma {:induction false} TraceGoesOn(
    trace: seq<Flattening>, leaders: seq<Certificate>, start: Snapshot, f: Flattening, to: Snapshot, gcDepth: nat)
    requires TracesTo(trace, leaders, start, f.from, gcDepth) && IsHistory(f, gcDepth) && Leads(f, to, gcDepth)
    ensures TracesTo(trace + [f], [f.leader] + leaders, start, to, gcDepth)
    ensures Flat(trace + [f]) == Flat(trace) + f.next
  {
    assert (trace + [f])[..|trace|] == trace;
    assert ([f.leader] + leaders)[1..] == leaders;
  }

  lemma {:induction false} LeadersAreOutput(
    trace: seq<Flattening>, leaders: seq<Certificate>, start: Snapshot, gcDepth: nat)
    requires Traces(trace, leaders, start, gcDepth)
    ensures forall x | x in leaders :: x in Flat(trace)
    decreases |trace|
  {
    hide Flattens, Leads;
    if trace != [] {
      LeadersAreOutput(trace[..|trace| - 1], leaders[1..], start, gcDepth);
      assert leaders == [leaders[0]] + leaders[1..];
    }
  }

  lemma {:induction false} CommittedLeadersAreOutput(
    trace: seq<Flattening>, leaders: seq<Certificate>, start: Snapshot, to: Snapshot, gcDepth: nat)
    requires TracesTo(trace, leaders, start, to, gcDepth)
    ensures forall x | x in leaders :: x in Flat(trace)
  {
    LeadersAreOutput(trace, leaders, start, gcDepth);
  }

  // ---- The run loop ----

  function Inserted(dag: Dag, x: Certificate): Dag
  {
    dag[x.round := (if x.round in dag then dag[x.round] else map[])[x.origin := x]]
  }

  /** The certificate of the elected leader of a round. */
  function ElectedLeader(c: Committee, dag: Dag, round: Round): Option<Certificate>
    requires c.authorities != []
  {
    CertificateAt(dag, round, c.Leader(round))
  }

  predicate RoundsFall(s: seq<Certificate>)
  {
    forall i, j | 0 <= i < j < |s| :: s[i].round > s[j].round
  }

  /** Leaders of falling rounds, starting with `leader`, each reached from the one before. */
  ghost predicate LeaderChain(c: Committee, dag: Dag, leader: Certificate, leaders: seq<Certificate>)
    requires c.authorities != []
  {
    && leaders != [] && leaders[0] == leader && RoundsFall(leaders)
    && forall i, j | 0 <= i && j == i + 1 < |leaders| ::
         && Reaches(dag, leaders[i], leaders[j])
         && ElectedLeader(c, dag, leaders[j].round) == Some(leaders[j])
  }

  // ---- The past leaders ----

  predicate RoundMissing(dag: Dag, from: Round, to: Round)
  {
    exists k | from <= k < to :: k !in dag
  }

  function Joined(s: seq<Certificate>, more: Option<seq<Certificate>>): Option<seq<Certificate>>
  {
    if more.None? then None else Some(s + more.value)
  }

  /** The past leaders that commit before `current`, newest first, walking down from round `k` in steps of
      two to above the round after the last commit. `None` when the walk meets a missing round. */
  ghost function PastLeaders(
    c: Committee, dag: Dag, current: Certificate, k: int, lastRound: Round): Option<seq<Certificate>>
    requires c.authorities != []
    decreases if k < 0 then 0 else k + 1
  {
    if k < lastRound + 2 then Some([])
    else
      var prev := ElectedLeader(c, dag, k);
      if prev.None? then PastLeaders(c, dag, current, k - 2, lastRound)
      else if RoundMissing(dag, prev.value.round, current.round) then None
      else if !Reaches(dag, current, prev.value) then PastLeaders(c, dag, current, k - 2, lastRound)
      else Joined([prev.value], PastLeaders(c, dag, prev.value, k - 2, lastRound))
  }

  /** The rounds at which the walk looks. */
  predicate Visited(k: int, lastRound: Round, round: Round)
  {
    lastRound + 2 <= round <= k && (k - round) % 2 == 0
  }

  /** The walk passes over round `k`. */
  ghost predicate Passes(c: Committee, dag: Dag, current: Certificate, k: Round)
    requires c.authorities != []
  {
    var prev := ElectedLeader(c, dag, k);
    prev.None? || (!RoundMissing(dag, prev.value.round, current.round) && !Reaches(dag, current, prev.value))
  }

  /** The walk takes the leader of round `k`. */
  ghost predicate Takes(c: Committee, dag: Dag, current: Certificate, k: Round)
    requires c.authorities != []
  {
    var prev := ElectedLeader(c, dag, k);
    prev.Some? && !RoundMissing(dag, prev.value.round, current.round) && Reaches(dag, current, prev.value)
  }

  lemma {:induction false} PastLeadersEnd(
    c: Committee, dag: Dag, current: Certificate, k: int, lastRound: Round)
    requires c.authorities != [] && k < lastRound + 2
    ensures PastLeaders(c, dag, current, k, lastRound) == Some([])
  {}

  lemma {:induction false} PastLeadersStep(c: Committee, dag: Dag, current: Certificate, k: Round, lastRound: Round)
    requires c.authorities != [] && k >= lastRound + 2
    ensures PastLeaders(c, dag, current, k, lastRound)
         == if Passes(c, dag, current, k) then PastLeaders(c, dag, current, k - 2, lastRound)
            else if Takes(c, dag, current, k) then
              var prev := ElectedLeader(c, dag, k).value;
              Joined([prev], PastLeaders(c, dag, prev, k - 2, lastRound))
            else None
  {}

  lemma TakenIsLinked(c: Committee, dag: Dag, current: Certificate, k: Round)
    requires c.authorities != [] && WellFiled(dag) && Takes(c, dag, current, k)
    ensures ElectedLeader(c, dag, k).Some?
    ensures var prev := ElectedLeader(c, dag, k).value;
            prev.round == k && InDag(dag, prev) && Reaches(dag, current, prev)
  {
    ElectedIsFiled(c, dag, k);
  }

  /** The past leaders form a chain with the newest one. */
  lemma {:induction false} PastLeadersAreLinked(
    c: Committee, dag: Dag, current: Certificate, k: int, lastRound: Round)
    requires c.authorities != [] && WellFiled(dag) && k < current.round
    requires PastLeaders(c, dag, current, k, lastRound).Some?
    ensures LeaderChain(c, dag, current, [current] + PastLeaders(c, dag, current, k, lastRound).value)
    decreases if k < 0 then 0 else k + 1
  {
    if k < lastRound + 2 {
      PastLeadersEnd(c, dag, current, k, lastRound);
    } else {
      hide PastLeaders, Passes, Takes, Reaches, WellFiled, LeaderChain, InDag;
      PastLeadersStep(c, dag, current, k, lastRound);
      if Passes(c, dag, current, k) {
        PastLeadersAreLinked(c, dag, current, k - 2, lastRound);
      } else {
        TakenIsLinked(c, dag, current, k);
        var prev := ElectedLeader(c, dag, k).value;
        PastLeadersAreLinked(c, dag, prev, k - 2, lastRound);
        ChainGoesOn(c, dag, current, prev, [prev] + PastLeaders(c, dag, prev, k - 2, lastRound).value);
      }
    }
  }

  /** They are elected for rounds that the walk visits. */
  lemma {:induction false} PastLeadersAreElected(
    c: Committee, dag: Dag, current: Certificate, k: int, lastRound: Round, x: Certificate)
    requires c.authorities != [] && WellFiled(dag) && PastLeaders(c, dag, current, k, lastRound).Some?
    requires x in PastLeaders(c, dag, current, k, lastRound).value
    ensures Visited(k, lastRound, x.round) && InDag(dag, x) && ElectedLeader(c, dag, x.round) == Some(x)
    decreases if k < 0 then 0 else k + 1
  {
    hide PastLeaders, Passes, Takes, Reaches, WellFiled, InDag;
    if k < lastRound + 2 {
      PastLeadersEnd(c, dag, current, k, lastRound);
    } else {
      PastLeadersStep(c, dag, current, k, lastRound);
      if Passes(c, dag, current, k) {
        PastLeadersAreElected(c, dag, current, k - 2, lastRound, x);
      } else {
        TakenIsLinked(c, dag, current, k);
        var prev := ElectedLeader(c, dag, k).value;
        if x != prev {
          PastLeadersAreElected(c, dag, prev, k - 2, lastRound, x);
        }
      }
    }
  }

  lemma ElectedIsFiled(c: Committee, dag: Dag, k: Round)
    requires c.authorities != [] && WellFiled(dag) && ElectedLeader(c, dag, k).Some?
    ensures var x := ElectedLeader(c, dag, k).value; x.round == k && InDag(dag, x)
  {
    assert FiledAt(dag[k][c.Leader(k)], k, c.Leader(k));
  }

  lemma ChainGoesOn(
    c: Committee, dag: Dag, current: Certificate, prev: Certificate, chain: seq<Certificate>)
    requires c.authorities != [] && LeaderChain(c, dag, prev, chain)
    requires prev.round < current.round && Reaches(dag, current, prev)
    requires ElectedLeader(c, dag, prev.round) == Some(prev)
    ensures LeaderChain(c, dag, current, [current] + chain)
  {
    var all := [current] + chain;
    forall i, j | 0 <= i < j < |all|
      ensures all[i].round > all[j].round
    {
      assert all[j] == chain[j - 1] && (i > 0 ==> all[i] == chain[i - 1]);
    }
    forall i, j | 0 <= i && j == i + 1 < |all|
      ensures Reaches(dag, all[i], all[j]) && ElectedLeader(c, dag, all[j].round) == Some(all[j])
    {
      assert all[j] == chain[j - 1] && (i > 0 ==> all[i] == chain[i - 1]);
    }
  }

  /** The walk passes over a leader only if the one it took last above does not reach it: a leader that
      is elected for a visited round between two neighbours of the chain, or below its end. */
  lemma {:induction false} SkippedLeadersAreNotReached(
    c: Committee, dag: Dag, current: Certificate, k: int, lastRound: Round, i: nat, round: Round)
    requires c.authorities != [] && WellFiled(dag) && k < current.round
    requires PastLeaders(c, dag, current, k, lastRound).Some?
    requires Visited(k, lastRound, round) && ElectedLeader(c, dag, round).Some?
    requires Between([current] + PastLeaders(c, dag, current, k, lastRound).value, i, round)
    ensures var all := [current] + PastLeaders(c, dag, current, k, lastRound).value;
            !Reaches(dag, all[i], ElectedLeader(c, dag, round).value)
    decreases if k < 0 then 0 else k + 1
  {
    hide PastLeaders, Reaches, WellFiled, InDag, Passes, Takes;
    PastLeadersStep(c, dag, current, k, lastRound);
    if round == k {
      SkippedAtOnce(c, dag, current, k, lastRound, i);
    } else if Passes(c, dag, current, k) {
      SkippedLeadersAreNotReached(c, dag, current, k - 2, lastRound, i, round);
    } else {
      TakenIsLinked(c, dag, current, k);
      var prev := ElectedLeader(c, dag, k).value;
      var rest := PastLeaders(c, dag, prev, k - 2, lastRound).value;
      BetweenRest(current, [prev] + rest, i, round);
      SkippedLeadersAreNotReached(c, dag, prev, k - 2, lastRound, i - 1, round);
    }
  }

  lemma {:induction false} SkippedAtOnce(
    c: Committee, dag: Dag, current: Certificate, k: Round, lastRound: Round, i: nat)
    requires c.authorities != [] && WellFiled(dag) && lastRound + 2 <= k < current.round
    requires PastLeaders(c, dag, current, k, lastRound).Some? && ElectedLeader(c, dag, k).Some?
    requires Between([current] + PastLeaders(c, dag, current, k, lastRound).value, i, k)
    ensures i == 0 && !Reaches(dag, current, ElectedLeader(c, dag, k).value)
  {
    PastLeadersStep(c, dag, current, k, lastRound);
    hide PastLeaders, Reaches, WellFiled, InDag;
    FirstIsLower(c, dag, current, k, lastRound, i);
    TakenComesFirst(c, dag, current, k, lastRound);
  }

  lemma TakenComesFirst(c: Committee, dag: Dag, current: Certificate, k: Round, lastRound: Round)
    requires c.authorities != [] && WellFiled(dag) && lastRound + 2 <= k
    requires PastLeaders(c, dag, current, k, lastRound).Some?
    ensures Takes(c, dag, current, k) ==>
              var past := PastLeaders(c, dag, current, k, lastRound).value;
              past != [] && past[0].round == k && ([current] + past)[1] == past[0]
  {
    PastLeadersStep(c, dag, current, k, lastRound);
    if Takes(c, dag, current, k) {
      TakenIsLinked(c, dag, current, k);
    }
  }

  lemma BetweenRest(current: Certificate, chain: seq<Certificate>, i: nat, round: Round)
    requires chain != [] && round < chain[0].round && Between([current] + chain, i, round)
    ensures i > 0 && Between(chain, i - 1, round) && ([current] + chain)[i] == chain[i - 1]
  {
    assert ([current] + chain)[1] == chain[0];
  }

  predicate Between(all: seq<Certificate>, i: nat, round: Round)
  {
    i < |all| && round < all[i].round && (i + 1 < |all| ==> all[i + 1].round < round)
  }

  lemma {:induction false} FirstIsLower(
    c: Committee, dag: Dag, current: Certificate, k: int, lastRound: Round, i: nat)
    requires c.authorities != [] && WellFiled(dag) && PastLeaders(c, dag, current, k, lastRound).Some?
    requires var all := [current] + PastLeaders(c, dag, current, k, lastRound).value; i < |all| && all[i].round > k
    ensures i == 0
  {
    var past := PastLeaders(c, dag, current, k, lastRound).value;
    if i > 0 {
      assert ([current] + past)[i] == past[i - 1];
      PastLeadersAreElected(c, dag, current, k, lastRound, past[i - 1]);
    }
  }

  /** The walk fails only on a round that is missing between the last commit and the leader. */
  lemma {:induction false} FailureNeedsMissingRound(
    c: Committee, dag: Dag, current: Certificate, k: int, lastRound: Round)
    requires c.authorities != [] && WellFiled(dag) && k < current.round
    requires PastLeaders(c, dag, current, k, lastRound).None?
    ensures RoundMissing(dag, lastRound + 1, current.round)
    decreases if k < 0 then 0 else k + 1
  {
    PastLeadersStep(c, dag, current, k, lastRound);
    hide PastLeaders, Reaches, WellFiled;
    if Passes(c, dag, current, k) {
      FailureNeedsMissingRound(c, dag, current, k - 2, lastRound);
    } else {
      ElectedIsFiled(c, dag, k);
      if Takes(c, dag, current, k) {
        FailureNeedsMissingRound(c, dag, ElectedLeader(c, dag, k).value, k - 2, lastRound);
      }
    }
  }

  lemma JoinedTwice(s: seq<Certificate>, x: Certificate, more: Option<seq<Certificate>>)
    ensures Joined(s, Joined([x], more)) == Joined(s + [x], more)
  {
    if more.Some? {
      assert s + ([x] + more.value) == (s + [x]) + more.value;
    }
  }

  /** The leaders to commit are linked, were delivered, and lie above the last commit. */
  lemma OrderedLeadersOk(
    c: Committee, dag: Dag, last: LastCommitted, lastRound: Round, delivered: set<(Round, PublicKey)>,
    log: seq<Certificate>, leader: Certificate)
    requires c.authorities != [] && Sane(dag, last, lastRound, delivered, log)
    requires Key(leader) in delivered && leader.round > lastRound
    requires PastLeaders(c, dag, leader, leader.round - 1, lastRound).Some?
    ensures var all := [leader] + PastLeaders(c, dag, leader, leader.round - 1, lastRound).value;
            LeaderChain(c, dag, leader, all) && forall x | x in all :: Key(x) in delivered && x.round > lastRound
  {
    hide Sane, PastLeaders, WellFiled, LeaderChain;
    SaneWellFiled(dag, last, lastRound, delivered, log);
    PastLeadersAreLinked(c, dag, leader, leader.round - 1, lastRound);
    forall x | x in PastLeaders(c, dag, leader, leader.round - 1, lastRound).value
      ensures Key(x) in delivered && x.round > lastRound
    {
      PastLeadersAreElected(c, dag, leader, leader.round - 1, lastRound, x);
      SanePresent(dag, last, lastRound, delivered, log, x.round, x.origin);
    }
  }

  /** Every past leader is of the other parity than the newest one. The run loop elects leaders of even
      rounds, so none of those is ever ordered as a past leader. */
  lemma PastLeadersHaveOddDistance(c: Committee, dag: Dag, leader: Certificate, lastRound: Round)
    requires c.authorities != [] && WellFiled(dag)
    requires PastLeaders(c, dag, leader, leader.round - 1, lastRound).Some?
    ensures forall x | x in PastLeaders(c, dag, leader, leader.round - 1, lastRound).value ::
              lastRound + 2 <= x.round < leader.round && (leader.round - x.round) % 2 == 1
  {
    hide PastLeaders, WellFiled, InDag;
    forall x | x in PastLeaders(c, dag, leader, leader.round - 1, lastRound).value
      ensures lastRound + 2 <= x.round < leader.round && (leader.round - x.round) % 2 == 1
    {
      PastLeadersAreElected(c, dag, leader, leader.round - 1, lastRound, x);
    }
  }

  const ALONE: Committee := Committee([Authority(0, 1)])

  /** The certificates of a single authority, each on top of the one before. */
  function InLine(round: Round): Certificate
  {
    Certificate(round, round, 0, if round == 0 then [] else [CertificateDigest(round - 1, round - 1, 0)])
  }

  function Line(): Dag
  {
    map k: Round | k <= 4 :: map[0 := InLine(k)]
  }

  /** From the leader of round 4 the walk takes the one of round 3, and never looks at the leader of round
      2, which the run loop would have elected and which is reached. */
  lemma EvenLeaderIsPassedOver()
    ensures PastLeaders(ALONE, Line(), InLine(4), 3, 0) == Some([InLine(3)])
    ensures ElectedLeader(ALONE, Line(), 2) == Some(InLine(2)) && Reaches(Line(), InLine(4), InLine(2))
  {
    var dag := Line();
    ElectedInLine(2);
    ElectedInLine(3);
    LineReaches();
    PastLeadersEnd(ALONE, dag, InLine(3), 1, 0);
    PastLeadersStep(ALONE, dag, InLine(4), 3, 0);
    hide PastLeaders, Reaches;
    assert !RoundMissing(dag, 3, 4);
    assert Takes(ALONE, dag, InLine(4), 3) && !Passes(ALONE, dag, InLine(4), 3);
    assert [InLine(3)] + [] == [InLine(3)];
  }

  lemma ElectedInLine(k: Round)
    requires k <= 4
    ensures ElectedLeader(ALONE, Line(), k) == Some(InLine(k))
  {
    assert ALONE.Leader(k) == 0;
  }

  lemma LineReaches()
    ensures Reaches(Line(), InLine(4), InLine(3)) && Reaches(Line(), InLine(4), InLine(2))
  {
    ElectedInLine(2);
    ElectedInLine(3);
    assert Parent(Line(), InLine(4), InLine(3)) && Parent(Line(), InLine(3), InLine(2));
    assert IsPath(Line(), [InLine(4), InLine(3)]);
    assert IsPath(Line(), [InLine(4), InLine(3), InLine(2)]);
  }

  /** Whether a certificate of round `round` makes the loop look at a leader: that of three rounds below,
      if the round before `round` is even, and it is present and above the last commit. */
  predicate Elects(c: Committee, dag: Dag, lastRound: Round, round: Round)
    requires c.authorities != [] && round >= 1
  {
    && (round - 1) % 2 == 0 && round - 1 >= 4 && round - 3 > lastRound
    && ElectedLeader(c, dag, round - 3).Some?
  }

  /** The leader commits if f+1 stake references it. */
  predicate Triggers(c: Committee, dag: Dag, lastRound: Round, round: Round)
    requires c.authorities != [] && round >= 1
  {
    && Elects(c, dag, lastRound, round)
    && c.StakeIn(Supporters(dag, ElectedLeader(c, dag, round - 3).value)) >= c.ValidityThreshold()
  }

  /** The leaders that a certificate of round `round` commits in a state, newest first. */
  ghost function Decided(c: Committee, now: Snapshot, round: Round): seq<Certificate>
    requires c.authorities != [] && round >= 1
  {
    if !Triggers(c, now.dag, now.lastRound, round) then []
    else
      var leader := ElectedLeader(c, now.dag, round - 3).value;
      var past := PastLeaders(c, now.dag, leader, leader.round - 1, now.lastRound);
      if past.None? then [] else [leader] + past.value
  }

  /** The two `expect`s of the loop: the round of the supporters, or one on the walk, is missing. */
  ghost predicate Fails(c: Committee, now: Snapshot, round: Round)
    requires c.authorities != [] && round >= 1
  {
    && Elects(c, now.dag, now.lastRound, round)
    && (|| round - 2 !in now.dag
        || (&& Triggers(c, now.dag, now.lastRound, round)
            && var leader := ElectedLeader(c, now.dag, round - 3).value;
               PastLeaders(c, now.dag, leader, leader.round - 1, now.lastRound).None?))
  }

  // ---- What commits, in terms of stake ----

  /** Members with a third of the stake or more reference the leader from the round above it. */
  ghost predicate Backed(c: Committee, dag: Dag, leader: Certificate)
  {
    exists s: set<PublicKey> :: 3 * c.StakeIn(s) >= c.Total() && AllReference(dag, s, leader)
  }

  predicate AllReference(dag: Dag, s: set<PublicKey>, leader: Certificate)
  {
    forall o | o in s ::
      var x := CertificateAt(dag, leader.round + 1, o);
      x.Some? && leader.Digest() in x.value.parents
  }

  lemma BackedIffSupported(c: Committee, dag: Dag, leader: Certificate)
    ensures Backed(c, dag, leader) <==> c.StakeIn(Supporters(dag, leader)) >= c.ValidityThreshold()
  {
    var all := Supporters(dag, leader);
    assert AllReference(dag, all, leader);
    if Backed(c, dag, leader) {
      var s: set<PublicKey> :| 3 * c.StakeIn(s) >= c.Total() && AllReference(dag, s, leader);
      forall o | o in s
        ensures o in all
      {
        assert CertificateAt(dag, leader.round + 1, o).Some?;
      }
      WeightMonotone(c.authorities, s, all);
    }
  }

  /** The leader that a certificate of round `round` commits: that of the even round three below, not covered by
      the last commit, present under its author, and referenced by a third of the stake or more. */
  ghost predicate Commits(c: Committee, now: Snapshot, round: Round, leader: Certificate)
    requires c.authorities != []
  {
    && round % 2 == 1 && round >= 5 && leader.round == round - 3 > now.lastRound
    && CertificateAt(now.dag, leader.round, c.Leader(leader.round)) == Some(leader)
    && Backed(c, now.dag, leader)
  }

  lemma TriggersIffCommits(c: Committee, now: Snapshot, round: Round)
    requires c.authorities != [] && round >= 1 && WellFiled(now.dag)
    ensures Triggers(c, now.dag, now.lastRound, round) ==>
              Commits(c, now, round, ElectedLeader(c, now.dag, round - 3).value)
    ensures forall leader | Commits(c, now, round, leader) ::
              Triggers(c, now.dag, now.lastRound, round) && ElectedLeader(c, now.dag, round - 3) == Some(leader)
  {
    hide Backed;
    forall leader: Certificate
      ensures Backed(c, now.dag, leader) <==> c.StakeIn(Supporters(now.dag, leader)) >= c.ValidityThreshold()
    {
      BackedIffSupported(c, now.dag, leader);
    }
  }

  /** The newest of the committed leaders is the one that commits, and there is none if none commits. */
  ghost predicate NewestIs(c: Committee, now: Snapshot, round: Round, leaders: seq<Certificate>)
    requires c.authorities != []
  {
    && (leaders != [] ==> Commits(c, now, round, leaders[0]))
    && (forall leader | Commits(c, now, round, leader) :: leaders != [] && leaders[0] == leader)
  }

  /** The loop commits a leader exactly if one is elected, not covered yet and referenced by a third of the stake
      or more, unless it fails; and that leader is the newest it commits. */
  lemma DecidedIffCommits(c: Committee, now: Snapshot, round: Round)
    requires c.authorities != [] && round >= 1 && WellFiled(now.dag) && !Fails(c, now, round)
    ensures NewestIs(c, now, round, Decided(c, now, round))
  {
    hide Commits, PastLeaders, Elects, Supporters, ElectedLeader;
    TriggersIffCommits(c, now, round);
  }

  /** Everything that `dag` holds of a round, `dag'` holds too. */
  ghost predicate RoundKept(dag: Dag, dag': Dag, round: Round)
  {
    forall o: PublicKey ::
      CertificateAt(dag, round, o).Some? ==> CertificateAt(dag', round, o) == CertificateAt(dag, round, o)
  }

  /** A leader that is committed is reached by every certificate two or more rounds above it, in this DAG and in
      any other in which the same support is seen and certificates reference quorums: nobody can pass it over. */
  lemma CommittedLeaderStaysLinked(
    c: Committee, now: Snapshot, round: Round, leader: Certificate, dag: Dag, x: Certificate)
    requires c.authorities != [] && Commits(c, now, round, leader)
    requires WellFiled(dag) && WellConnected(c, dag, leader.round) && InDag(dag, leader) && InDag(dag, x)
    requires RoundKept(now.dag, dag, leader.round + 1)
    requires x.round >= leader.round + 2
    ensures leader in Layer(dag, x, x.round - leader.round)
  {
    hide WellConnected, Layer, WellFiled;
    var s: set<PublicKey> :| 3 * c.StakeIn(s) >= c.Total() && AllReference(now.dag, s, leader);
    assert AllReference(dag, s, leader);
    BackedIffSupported(c, dag, leader);
    SupportedLeadersStayLinked(c, dag, leader);
  }

  lemma GoneIf(c: Committee, now: Snapshot, round: Round)
    requires c.authorities != [] && round >= 1
    ensures Elects(c, now.dag, now.lastRound, round) && round - 2 !in now.dag ==>
              Fails(c, now, round) && RoundMissing(now.dag, now.lastRound + 1, round)
  {}

  lemma DecidedIf(c: Committee, now: Snapshot, round: Round)
    requires c.authorities != [] && round >= 1
    requires Triggers(c, now.dag, now.lastRound, round) && round - 2 in now.dag
    ensures ElectedLeader(c, now.dag, round - 3).Some?
    ensures var leader := ElectedLeader(c, now.dag, round - 3).value;
            var past := PastLeaders(c, now.dag, leader, leader.round - 1, now.lastRound);
            && (Fails(c, now, round) <==> past.None?)
            && Decided(c, now, round) == (if past.None? then [] else [leader] + past.value)
  {}

  lemma UnsupportedIf(c: Committee, now: Snapshot, round: Round)
    requires c.authorities != [] && round >= 1 && !Triggers(c, now.dag, now.lastRound, round)
    requires !(Elects(c, now.dag, now.lastRound, round) && round - 2 !in now.dag)
    ensures !Fails(c, now, round) && Decided(c, now, round) == []
  {}

  lemma MissingBelow(dag: Dag, from: Round, to: Round, to': Round)
    requires to <= to'
    ensures RoundMissing(dag, from, to) ==> RoundMissing(dag, from, to')
  {}

  lemma FallsAt(leaders: seq<Certificate>, n: nat)
    requires RoundsFall(leaders) && n < |leaders|
    ensures n > 0 ==> leaders[n - 1].round > leaders[n].round
  {}

  lemma ChainFalls(c: Committee, dag: Dag, leader: Certificate, leaders: seq<Certificate>)
    requires c.authorities != [] && LeaderChain(c, dag, leader, leaders)
    ensures RoundsFall(leaders)
  {}

  function Keys(certificates: seq<Certificate>): set<(Round, PublicKey)>
  {
    set x | x in certificates :: Key(x)
  }

  /** When a certificate arrives, one of the round before has been delivered. */
  predicate HistoryFirst(delivered: set<(Round, PublicKey)>, certificates: seq<Certificate>)
    decreases |certificates|
  {
    certificates == []
    || (&& (certificates[0].round >= 2 ==> RoundIn(delivered, certificates[0].round - 1))
        && HistoryFirst(delivered + {Key(certificates[0])}, certificates[1..]))
  }

  lemma InsertKeepsWhole(
    dag: Dag, last: LastCommitted, lastRound: Round, delivered: set<(Round, PublicKey)>, x: Certificate)
    requires Whole(dag, last, lastRound, delivered)
    ensures Whole(Inserted(dag, x), last, lastRound, delivered + {Key(x)})
  {}

  /** With its history delivered, a certificate finds every round above the last commit present. */
  lemma ProcessNeverFails(
    dag: Dag, last: LastCommitted, lastRound: Round, delivered: set<(Round, PublicKey)>, log: seq<Certificate>,
    x: Certificate)
    requires Sane(dag, last, lastRound, delivered, log) && Grounded(delivered)
    requires x.round >= 2 ==> RoundIn(delivered, x.round - 1)
    ensures Grounded(delivered + {Key(x)})
    ensures forall k | lastRound < k < x.round :: k in Inserted(dag, x)
  {
    var all := delivered + {Key(x)};
    forall y | y in all && y.0 >= 2
      ensures RoundIn(all, y.0 - 1)
    {
      var z :| z in delivered && z.0 == y.0 - 1;
      assert z in all;
    }
    InsertKeepsWhole(dag, last, lastRound, delivered, x);
    assert Key(x) in all;
    forall k | lastRound < k < x.round
      ensures k in Inserted(dag, x)
    {
      NoRoundMissing(Inserted(dag, x), last, lastRound, all, x.round, k);
    }
  }

  class Consensus {
    const committee: Committee
    const gcDepth: nat
    const state: State
    var output: seq<Certificate>
    /** Set when an `expect` on a missing round has failed. */
    var halted: bool
    /** The rounds and authors of all certificates received, and of genesis. */
    ghost var delivered: set<(Round, PublicKey)>

    ghost predicate Valid()
      reads this, state
    {
      && committee.authorities != []
      && Sane(state.dag, state.lastCommitted, state.lastCommittedRound, delivered, output)
    }

    constructor (committee: Committee, gcDepth: nat, genesis: map<PublicKey, Certificate>)
      requires committee.authorities != []
      requires forall o | o in genesis :: genesis[o].round == 0 && genesis[o].origin == o && genesis[o].parents == []
      ensures Valid() && fresh(state) && output == [] && !halted
      ensures delivered == (set o | o in genesis :: (0, o)) && Grounded(delivered)
    {
      this.committee, this.gcDepth := committee, gcDepth;
      state := new State(genesis);
      output, halted := [], false;
      delivered := set o | o in genesis :: (0, o);
    }

    /** `order_leaders`: the newest leader and the past ones, newest first. It fails exactly when the walk
        over the past leaders meets a missing round. */
    method OrderLeaders(leader: Certificate) returns (r: Option<seq<Certificate>>)
      requires Valid() && Key(leader) in delivered && leader.round > state.lastCommittedRound
      ensures r == Joined([leader], Past(leader))
      ensures r.None? ==> RoundMissing(state.dag, state.lastCommittedRound + 1, leader.round)
      ensures r.Some? ==>
                && LeaderChain(committee, state.dag, leader, r.value)
                && forall x | x in r.value :: Key(x) in delivered && x.round > state.lastCommittedRound
    {
      hide Sane, LeaderChain;
      SaneWellFiled(state.dag, state.lastCommitted, state.lastCommittedRound, delivered, output);
      var toCommit := [leader];
      var current := leader;
      var k: int := leader.round - 1;
      while k >= state.lastCommittedRound + 2
        invariant k < current.round
        invariant Joined(toCommit, PastLeaders(committee, state.dag, current, k, state.lastCommittedRound))
               == Joined([leader], Past(leader))
      {
        PastLeadersStep(committee, state.dag, current, k, state.lastCommittedRound);
        var prev := ElectedLeader(committee, state.dag, k);
        if prev.Some? {
          ElectedIsFiled(committee, state.dag, k);
          var linked := Linked(current, prev.value, state.dag);
          if linked.None? {
            FailureNeedsMissingRound(
              committee, state.dag, leader, leader.round - 1, state.lastCommittedRound);
            return None;
          }
          if linked.value {
            JoinedTwice(
              toCommit, prev.value,
              PastLeaders(committee, state.dag, prev.value, k - 2, state.lastCommittedRound));
            toCommit := toCommit + [prev.value];
            current := prev.value;
          }
        }
        k := k - 2;
      }
      assert toCommit + [] == toCommit;
      OrderedLeadersOk(committee, state.dag, state.lastCommitted, state.lastCommittedRound, delivered, output, leader);
      return Some(toCommit);
    }

    /** The past leaders that commit before `leader` now. */
    ghost function Past(leader: Certificate): Option<seq<Certificate>>
      requires committee.authorities != []
      reads this, state
    {
      PastLeaders(committee, state.dag, leader, leader.round - 1, state.lastCommittedRound)
    }

    /** Commits the flattened sub-DAG of one leader: every certificate updates the state and joins
        the sequence to output. */
    method CommitAll(next: seq<Certificate>, sequence0: seq<Certificate>, ghost bound: Round)
      returns (sequence: seq<Certificate>)
      requires state.lastCommittedRound <= bound && forall x | x in next :: x.round <= bound
      requires Fresh(delivered, output + sequence0, next)
      requires Sane(state.dag, state.lastCommitted, state.lastCommittedRound, delivered, output + sequence0)
      modifies state
      ensures sequence == sequence0 + next
      ensures Sane(state.dag, state.lastCommitted, state.lastCommittedRound, delivered, output + sequence)
      ensures state.lastCommittedRound <= bound
      ensures Reached(old(state.dag), old(state.lastCommitted), next,
                      state.dag, state.lastCommitted, state.lastCommittedRound, gcDepth)
    {
      hide Sane, Reached, Fresh, PrunedFrom, IsMax;
      sequence := sequence0;
      ghost var dag0, last0 := state.dag, state.lastCommitted;
      assert next[..0] == [] && next[0..] == next;
      ReachedAtStart(dag0, last0, state.lastCommittedRound, gcDepth);
      for i := 0 to |next|
        invariant sequence == sequence0 + next[..i]
        invariant Sane(state.dag, state.lastCommitted, state.lastCommittedRound, delivered, output + sequence)
        invariant Reached(dag0, last0, next[..i], state.dag, state.lastCommitted, state.lastCommittedRound, gcDepth)
        invariant Fresh(delivered, output + sequence, next[i..])
        invariant state.lastCommittedRound <= bound
      {
        var x := next[i];
        ghost var log := output + sequence;
        ghost var dag, last, lastRound := state.dag, state.lastCommitted, state.lastCommittedRound;
        state.Update(x, gcDepth);
        UpdateKeeps(dag, last, lastRound, delivered, log, next[i..],
                    state.dag, state.lastCommitted, state.lastCommittedRound, gcDepth, dag0, last0, next[..i]);
        sequence := sequence + [x];
        assert output + sequence == log + [x];
        SliceStep(next, i);
      }
      assert next[..|next|] == next;
    }

    /** Commits the sub-DAG of one leader. */
    method CommitLeader(leader: Certificate, sequence0: seq<Certificate>)
      returns (sequence: seq<Certificate>, ghost f: Flattening)
      requires committee.authorities != []
      requires Key(leader) in delivered && leader.round > state.lastCommittedRound
      requires Sane(state.dag, state.lastCommitted, state.lastCommittedRound, delivered, output + sequence0)
      modifies state
      ensures Sane(state.dag, state.lastCommitted, state.lastCommittedRound, delivered, output + sequence)
      ensures state.lastCommittedRound <= leader.round
      ensures f.from == old(Now()) && f.leader == leader && IsHistory(f, gcDepth) && Leads(f, Now(), gcDepth)
      ensures sequence == sequence0 + f.next
    {
      hide Sane, Fresh;
      LeaderIsDrawn(state.dag, state.lastCommitted, leader);
      SaneWellFiled(state.dag, state.lastCommitted, state.lastCommittedRound, delivered, output + sequence0);
      var next := OrderDag(leader, state.dag, state.lastCommitted, state.lastCommittedRound, gcDepth);
      f := Flattening(Now(), leader, next);
      SaneFresh(
        state.dag, state.lastCommitted, state.lastCommittedRound, delivered, output + sequence0, leader, next);
      sequence := CommitAll(next, sequence0, leader.round);
    }

    /** One iteration of the loop over the leaders, with the histories committed so far. */
    method CommitNext(
      leader: Certificate, sequence0: seq<Certificate>, ghost start: Snapshot,
      ghost leaders: seq<Certificate>, ghost trace0: seq<Flattening>)
      returns (sequence: seq<Certificate>, ghost trace: seq<Flattening>)
      requires committee.authorities != []
      requires Key(leader) in delivered && leader.round > state.lastCommittedRound
      requires Sane(state.dag, state.lastCommitted, state.lastCommittedRound, delivered, output + sequence0)
      requires sequence0 == Flat(trace0)
      requires TracesTo(trace0, leaders, start, Now(), gcDepth)
      modifies state
      ensures Sane(state.dag, state.lastCommitted, state.lastCommittedRound, delivered, output + sequence)
      ensures state.lastCommittedRound <= leader.round
      ensures sequence == Flat(trace)
      ensures TracesTo(trace, [leader] + leaders, start, Now(), gcDepth)
    {
      hide Sane, IsHistory, Leads, TracesTo;
      ghost var f;
      sequence, f := CommitLeader(leader, sequence0);
      TraceGoesOn(trace0, leaders, start, f, Now(), gcDepth);
      trace := trace0 + [f];
    }

    /** The loop over the linked leaders, oldest first. The history of every leader, flattened from the
        state that the leaders before it left, is output in turn. */
    method CommitLeaders(leaders: seq<Certificate>)
      returns (sequence: seq<Certificate>, ghost trace: seq<Flattening>)
      requires Valid()
      requires forall x | x in leaders :: Key(x) in delivered && x.round > state.lastCommittedRound
      requires RoundsFall(leaders)
      modifies state
      ensures Sane(state.dag, state.lastCommitted, state.lastCommittedRound, delivered, output + sequence)
      ensures sequence == Flat(trace)
      ensures TracesTo(trace, leaders, old(Now()), Now(), gcDepth)
    {
      hide Sane, TracesTo, Flat, RoundsFall;
      sequence, trace := [], [];
      ghost var start := Now();
      assert output + [] == output && leaders[|leaders|..] == [];
      TraceStarts(start, gcDepth);
      var n := |leaders|;
      while n > 0
        invariant 0 <= n <= |leaders|
        invariant Sane(state.dag, state.lastCommitted, state.lastCommittedRound, delivered, output + sequence)
        invariant n > 0 ==> leaders[n - 1].round > state.lastCommittedRound
        invariant sequence == Flat(trace) && TracesTo(trace, leaders[n..], start, Now(), gcDepth)
      {
        n := n - 1;
        ghost var newer := leaders[n + 1..];
        FallsAt(leaders, n);
        assert leaders[n] in leaders && leaders[n..] == [leaders[n]] + newer;
        sequence, trace := CommitNext(leaders[n], sequence, start, newer, trace);
      }
      assert leaders[0..] == leaders;
    }

    /** The state of the loop, before any leader is chosen. */
    ghost function Now(): Snapshot
      reads this, state
    {
      Snapshot(state.dag, state.lastCommitted, state.lastCommittedRound)
    }

    /** Commits a supported leader: after what was output before, the histories of the past leaders and of
        the leader itself, oldest first. It fails exactly when the walk over the past leaders meets a missing
        round, and then changes nothing. */
    method CommitFrom(leader: Certificate) returns (ghost leaders: seq<Certificate>, ghost trace: seq<Flattening>)
      requires Valid() && !halted
      requires Key(leader) in delivered && leader.round > state.lastCommittedRound
      modifies this`output, this`halted, state
      ensures Valid()
      ensures output == old(output) + Flat(trace) && TracesTo(trace, leaders, old(Now()), Now(), gcDepth)
      ensures halted <==> old(Past(leader)).None?
      ensures leaders == if halted then [] else [leader] + old(Past(leader)).value
      ensures !halted ==> LeaderChain(committee, old(state.dag), leader, leaders)
      ensures halted ==> RoundMissing(old(state.dag), old(state.lastCommittedRound) + 1, leader.round)
      ensures forall x | x in leaders :: x in output
    {
      hide Sane, TracesTo, Flat, LeaderChain, PastLeaders, RoundMissing;
      leaders, trace := [], [];
      assert output + [] == output;
      TraceStarts(Now(), gcDepth);
      var found := OrderLeaders(leader);
      if found.None? {
        halted := true;
        return;
      }
      leaders := found.value;
      ghost var start := Now();
      ChainFalls(committee, state.dag, leader, found.value);
      var sequence;
      sequence, trace := CommitLeaders(found.value);
      CommittedLeadersAreOutput(trace, leaders, start, Now(), gcDepth);
      output := output + sequence;
    }

    /** Commits the leader that a certificate of round `round` decides on, if it is there and supported. */
    method CommitSupported(round: Round) returns (ghost leaders: seq<Certificate>, ghost trace: seq<Flattening>)
      requires Valid() && !halted && round >= 1
      modifies this`output, this`halted, state
      ensures Valid()
      ensures output == old(output) + Flat(trace) && TracesTo(trace, leaders, old(Now()), Now(), gcDepth)
      ensures halted <==> Fails(committee, old(Now()), round)
      ensures leaders == if halted then [] else Decided(committee, old(Now()), round)
      ensures !halted ==> NewestIs(committee, old(Now()), round, leaders)
      ensures forall x | x in leaders :: x in output
      ensures halted ==> RoundMissing(old(state.dag), old(state.lastCommittedRound) + 1, round)
    {
      hide Sane, TracesTo, Flat, LeaderChain, PastLeaders, Fails, Decided, RoundMissing, Triggers, Elects, NewestIs;
      leaders, trace := [], [];
      assert output + [] == output;
      TraceStarts(Now(), gcDepth);
      GoneIf(committee, Now(), round);
      SaneWellFiled(state.dag, state.lastCommitted, state.lastCommittedRound, delivered, output);
      if !Fails(committee, Now(), round) {
        DecidedIffCommits(committee, Now(), round);
      }
      var gone, leader := SupportedLeader(round);
      if gone {
        halted := true;
      } else if leader.Some? {
        MissingBelow(state.dag, state.lastCommittedRound + 1, leader.value.round, round);
        DecidedIf(committee, Now(), round);
        leaders, trace := CommitFrom(leader.value);
      } else {
        UnsupportedIf(committee, Now(), round);
      }
    }

    /** The leader three rounds below, if it is elected and supported; `gone` when the round of its
        supporters is missing. */
    method SupportedLeader(round: Round) returns (gone: bool, r: Option<Certificate>)
      requires Valid() && round >= 1
      ensures gone <==> Elects(committee, state.dag, state.lastCommittedRound, round) && round - 2 !in state.dag
      ensures r.Some? <==> !gone && Triggers(committee, state.dag, state.lastCommittedRound, round)
      ensures r.Some? ==> Commits(committee, Now(), round, r.value)
      ensures !gone ==> forall x | Commits(committee, Now(), round, x) :: r == Some(x)
      ensures r.Some? ==>
                && r == ElectedLeader(committee, state.dag, round - 3) && r.value.round == round - 3
                && Key(r.value) in delivered && r.value.round > state.lastCommittedRound
                && round - 2 in state.dag
    {
      hide Sane, Commits;
      SaneWellFiled(state.dag, state.lastCommitted, state.lastCommittedRound, delivered, output);
      TriggersIffCommits(committee, Now(), round);
      var previous := round - 1;
      if previous % 2 != 0 || previous < 4 {
        return false, None;
      }
      var leaderRound := previous - 2;
      if leaderRound <= state.lastCommittedRound {
        return false, None;
      }
      var leader := ElectedLeader(committee, state.dag, leaderRound);
      if leader.None? {
        return false, None;
      }
      if previous - 1 !in state.dag {
        return true, None;
      }
      var stake := committee.StakeIn(Supporters(state.dag, leader.value));
      if stake < committee.ValidityThreshold() {
        return false, None;
      }
      SanePresent(state.dag, state.lastCommitted, state.lastCommittedRound, delivered, output,
                  leaderRound, committee.Leader(leaderRound));
      return false, leader;
    }

    /** One iteration of the run loop. If every round and author is received at most once, no two
        certificates of one round and author are ever output. A supported leader makes the loop output,
        after what was output before, the histories of the past leaders and its own, oldest first, each
        flattened from the state that the one before left; otherwise nothing is output. When it fails, and
        which leaders these are, is decided by the DAG and the last committed round alone. */
    method Process(certificate: Certificate) returns (ghost leaders: seq<Certificate>, ghost trace: seq<Flattening>)
      requires Valid() && !halted
      requires certificate.round >= 1 && Key(certificate) !in delivered
      modifies this, state
      ensures Valid() && DistinctKeys(output)
      ensures delivered == old(delivered) + {Key(certificate)}
      ensures output == old(output) + Flat(trace)
      ensures var start := old(Now()).(dag := Inserted(old(state.dag), certificate));
              && TracesTo(trace, leaders, start, Now(), gcDepth)
              && (halted <==> Fails(committee, start, certificate.round))
              && leaders == (if halted then [] else Decided(committee, start, certificate.round))
              && (!halted ==> NewestIs(committee, start, certificate.round, leaders))
              && (forall x | x in leaders :: x in output)
              && (halted ==> RoundMissing(start.dag, start.lastRound + 1, certificate.round))
    {
      hide Sane, TracesTo, Fails, Decided, RoundMissing, DistinctKeys, NewestIs;
      Insert(certificate);
      leaders, trace := CommitSupported(certificate.round);
      SaneWellFiled(state.dag, state.lastCommitted, state.lastCommittedRound, delivered, output);
    }

    /** Adds the certificate to the local storage. */
    method Insert(certificate: Certificate)
      requires Valid() && certificate.round >= 1 && Key(certificate) !in delivered
      modifies this`delivered, state`dag
      ensures Valid()
      ensures Now() == old(Now()).(dag := Inserted(old(state.dag), certificate))
      ensures delivered == old(delivered) + {Key(certificate)}
    {
      InsertKeepsSane(certificate);
      state.dag := Inserted(state.dag, certificate);
      delivered := delivered + {Key(certificate)};
    }

    /** The run loop. The primary is to send a certificate only after its whole history, so one of every
        earlier round; then the loop never fails on a missing round, whatever else arrives. */
    method Run(certificates: seq<Certificate>)
      requires Valid() && !halted
      requires forall x | x in certificates :: x.round >= 1 && Key(x) !in delivered
      requires DistinctKeys(certificates)
      modifies this, state
      ensures Valid() && old(output) <= output && DistinctKeys(output)
      ensures old(Grounded(delivered)) && HistoryFirst(old(delivered), certificates) ==>
                !halted && delivered == old(delivered) + Keys(certificates) && Grounded(delivered)
    {
      hide Sane, TracesTo, Fails, Decided, Grounded, NewestIs;
      var i := 0;
      ghost var keeps := Grounded(delivered) && HistoryFirst(delivered, certificates);
      assert certificates[..0] == [] && certificates[0..] == certificates;
      while i < |certificates| && !halted
        invariant i <= |certificates| && Valid() && old(output) <= output
        invariant forall j | i <= j < |certificates| :: Key(certificates[j]) !in delivered
        invariant delivered == old(delivered) + Keys(certificates[..i])
        invariant keeps ==> !halted && Grounded(delivered) && HistoryFirst(delivered, certificates[i..])
      {
        var x := certificates[i];
        ghost var dag, last := state.dag, state.lastCommitted;
        ghost var lastRound, before, log := state.lastCommittedRound, delivered, output;
        SliceStep(certificates, i);
        ghost var leaders, trace := Process(x);
        if keeps {
          ProcessNeverFails(dag, last, lastRound, before, log, x);
        }
        i := i + 1;
      }
      assert i == |certificates| ==> certificates[..i] == certificates;
      SaneWellFiled(state.dag, state.lastCommitted, state.lastCommittedRound, delivered, output);
    }

    lemma InsertKeepsSane(x: Certificate)
      requires Valid() && x.round >= 1 && Key(x) !in delivered
      ensures Sane(
                Inserted(state.dag, x), state.lastCommitted, state.lastCommittedRound, delivered + {Key(x)}, output)
    {
      KeyNotOutput(state.dag, state.lastCommitted, state.lastCommittedRound, delivered, output, x);
      InsertKeepsWhole(state.dag, state.lastCommitted, state.lastCommittedRound, delivered, x);
    }
  }

  lemma KeyNotOutput(
    dag: Dag, last: LastCommitted, lastRound: Round, delivered: set<(Round, PublicKey)>, log: seq<Certificate>,
    x: Certificate)
    requires StateOk(dag, last, lastRound, delivered, log) && Key(x) !in delivered
    ensures !KeyIn(log, x.round, x.origin)
  {
  }
}
