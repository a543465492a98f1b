/** The vote and timeout aggregators of `hotstuff/src/aggregator.rs`. */
module Aggregators {
  import opened Wrappers
  import opened Committees
  import opened Messages

  /** `weight` counts the stake of the voters since the last certificate was made. */
  datatype QCMaker = QCMaker(weight: Stake, votes: seq<SignedVote>, used: set<PublicKey>)

  datatype TCMaker = TCMaker(weight: Stake, votes: seq<SignedTimeout>, used: set<PublicKey>)

  const NEW_QC_MAKER: QCMaker := QCMaker(0, [], {})
  const NEW_TC_MAKER: TCMaker := TCMaker(0, [], {})

  function AppendVote(c: Committee, m: QCMaker, vote: Vote): (QCMaker, Result<Option<QC>, ConsensusError>)
  {
    if vote.author in m.used then (m, Err(AuthorityReuse(vote.author)))
    else
      var m' := QCMaker(m.weight + c.Stake(vote.author),
                        m.votes + [SignedVote(vote.author, vote.signature)],
                        m.used + {vote.author});
      if m'.weight >= c.QuorumThreshold() then
        (m'.(weight := 0), Ok(Some(QC(vote.hash, vote.round, m'.votes))))
      else (m', Ok(None))
  }

  function AppendTimeout(c: Committee, m: TCMaker, timeout: Timeout): (TCMaker, Result<Option<TC>, ConsensusError>)
  {
    if timeout.author in m.used then (m, Err(AuthorityReuse(timeout.author)))
    else
      var m' := TCMaker(m.weight + c.Stake(timeout.author),
                        m.votes + [SignedTimeout(timeout.author, timeout.signature, timeout.highQc.round)],
                        m.used + {timeout.author});
      if m'.weight >= c.QuorumThreshold() then
        (m'.(weight := 0), Ok(Some(TC(timeout.round, m'.votes))))
      else (m', Ok(None))
  }

  /** The makers of the open rounds. */
  datatype Makers = Makers(votes: map<Round, map<Digest, QCMaker>>, timeouts: map<Round, TCMaker>)

  const NO_MAKERS: Makers := Makers(map[], map[])

  function VoteMaker(a: Makers, round: Round, digest: Digest): QCMaker
  {
    if round in a.votes && digest in a.votes[round] then a.votes[round][digest] else NEW_QC_MAKER
  }

  function TimeoutMaker(a: Makers, round: Round): TCMaker
  {
    if round in a.timeouts then a.timeouts[round] else NEW_TC_MAKER
  }

  function WithVote(c: Committee, a: Makers, vote: Vote): (Makers, Result<Option<QC>, ConsensusError>)
  {
    var (m, r) := AppendVote(c, VoteMaker(a, vote.round, vote.Digest()), vote);
    var ofRound := if vote.round in a.votes then a.votes[vote.round] else map[];
    (a.(votes := a.votes[vote.round := ofRound[vote.Digest() := m]]), r)
  }

  function WithTimeout(c: Committee, a: Makers, timeout: Timeout): (Makers, Result<Option<TC>, ConsensusError>)
  {
    var (m, r) := AppendTimeout(c, TimeoutMaker(a, timeout.round), timeout);
    (a.(timeouts := a.timeouts[timeout.round := m]), r)
  }

  function CleanedUp(a: Makers, round: Round): Makers
  {
    Makers(map k | k in a.votes && k >= round :: a.votes[k],
           map k | k in a.timeouts && k >= round :: a.timeouts[k])
  }

  /** The `Aggregator` object. A boxed maker is owned by its map entry, hence a value here. */
  class Aggregator {
    const committee: Committee
    var votesAggregators: map<Round, map<Digest, QCMaker>>
    var timeoutsAggregators: map<Round, TCMaker>

    ghost function View(): Makers
      reads this
    {
      Makers(votesAggregators, timeoutsAggregators)
    }

    constructor (committee: Committee)
      ensures View() == NO_MAKERS
      ensures this.committee == committee
    {
      this.committee := committee;
      votesAggregators := map[];
      timeoutsAggregators := map[];
    }

    method AddVote(vote: Vote) returns (r: Result<Option<QC>, ConsensusError>)
      modifies this
      ensures (View(), r) == WithVote(committee, old(View()), vote)
    {
      if vote.round !in votesAggregators {
        votesAggregators := votesAggregators[vote.round := map[]];
      }
      var digest := vote.Digest();
      var ofRound := votesAggregators[vote.round];
      if digest !in ofRound {
        ofRound := ofRound[digest := NEW_QC_MAKER];
      }
      var (m, result) := AppendVote(committee, ofRound[digest], vote);
      r := result;
      ofRound := ofRound[digest := m];
      votesAggregators := votesAggregators[vote.round := ofRound];
      ghost var before := old(votesAggregators);
      assert ofRound == (if vote.round in before then before[vote.round] else map[])[digest := m];
      assert votesAggregators == before[vote.round := ofRound];
    }

    method AddTimeout(timeout: Timeout) returns (r: Result<Option<TC>, ConsensusError>)
      modifies this
      ensures (View(), r) == WithTimeout(committee, old(View()), timeout)
    {
      if timeout.round !in timeoutsAggregators {
        timeoutsAggregators := timeoutsAggregators[timeout.round := NEW_TC_MAKER];
      }
      var (m, result) := AppendTimeout(committee, timeoutsAggregators[timeout.round], timeout);
      r := result;
      timeoutsAggregators := timeoutsAggregators[timeout.round := m];
      assert timeoutsAggregators == old(timeoutsAggregators)[timeout.round := m];
    }

    method Cleanup(round: Round)
      modifies this
      ensures View() == CleanedUp(old(View()), round)
    {
      votesAggregators := map k | k in votesAggregators && k >= round :: votesAggregators[k];
      timeoutsAggregators := map k | k in timeoutsAggregators && k >= round :: timeoutsAggregators[k];
    }
  }

  // ---- One maker over its whole life ----

  /** Feeds votes to a fresh maker and collects the certificates it returns. */
  function Feed(c: Committee, votes: seq<Vote>): (QCMaker, seq<QC>)
  {
    if votes == [] then (NEW_QC_MAKER, [])
    else
      var (m, qcs) := Feed(c, votes[..|votes| - 1]);
      var (m', r) := AppendVote(c, m, votes[|votes| - 1]);
      (m', if r.Ok? && r.value.Some? then qcs + [r.value.value] else qcs)
  }

  function Authors(votes: seq<Vote>): set<PublicKey>
  {
    set v | v in votes :: v.author
  }

  /** Before the certificate `weight` is the stake seen; after it, the stake seen since. */
  ghost predicate MakerRan(c: Committee, m: QCMaker, seen: set<PublicKey>, qcs: seq<QC>)
  {
    && m.used == seen == (set v | v in m.votes :: v.author)
    && (forall i, j | 0 <= i < j < |m.votes| :: m.votes[i].author != m.votes[j].author)
    && (qcs == [] ==> m.weight == c.StakeIn(seen) && !c.Quorum(seen))
    && (qcs != [] ==>
          var s := NameSet(qcs[0].Names());
          && |qcs| == 1 && c.Quorum(s) && s <= seen
          && (forall i, j | 0 <= i < j < |qcs[0].votes| :: qcs[0].votes[i].author != qcs[0].votes[j].author)
          && m.weight == c.StakeIn(seen - s))
  }

  lemma MakerStep(c: Committee, m: QCMaker, seen: set<PublicKey>, qcs: seq<QC>, vote: Vote)
    requires MakerRan(c, m, seen, qcs)
    ensures var (m', r) := AppendVote(c, m, vote);
            MakerRan(c, m', seen + {vote.author}, if r.Ok? && r.value.Some? then qcs + [r.value.value] else qcs)
  {
    var a := vote.author;
    if a in seen {
      assert seen + {a} == seen;
    } else {
      StakeInInsert(c, seen, a);
      if qcs == [] {
        var qc := QC(vote.hash, vote.round, m.votes + [SignedVote(a, vote.signature)]);
        forall n | n in seen + {a}
          ensures n in qc.Names()
        {
          if n == a {
            assert qc.Names()[|m.votes|] == a;
          } else {
            var v :| v in m.votes && v.author == n;
            var i :| 0 <= i < |m.votes| && m.votes[i] == v;
            assert qc.Names()[i] == n;
          }
        }
        assert NameSet(qc.Names()) == seen + {a};
        assert (seen + {a}) - (seen + {a}) == {};
        WeightEmpty(c.authorities);
      } else {
        var s := NameSet(qcs[0].Names());
        assert seen + {a} - s == (seen - s) + {a};
        StakeInInsert(c, seen - s, a);
        ComplementNotQuorum(c, s, seen + {a} - s);
      }
    }
  }

  lemma {:induction false} FeedRan(c: Committee, votes: seq<Vote>)
    ensures MakerRan(c, Feed(c, votes).0, Authors(votes), Feed(c, votes).1)
  {
    if votes == [] {
      WeightEmpty(c.authorities);
    } else {
      var init, last := votes[..|votes| - 1], votes[|votes| - 1];
      FeedRan(c, init);
      MakerStep(c, Feed(c, init).0, Authors(init), Feed(c, init).1, last);
      assert votes == init + [last];
      assert Authors(votes) == Authors(init) + {last.author};
    }
  }

  /** Whatever the order and repetition of the votes, a maker returns exactly one certificate if
      their distinct authors hold a quorum, and none otherwise. Resetting `weight` therefore
      neither loses a certificate nor lets a second one out, and the certificate's own voters are
      pairwise distinct and hold a quorum. */
  lemma MakerFiresExactlyOnce(c: Committee, votes: seq<Vote>)
    ensures |Feed(c, votes).1| == (if c.Quorum(Authors(votes)) then 1 else 0)
    ensures forall qc | qc in Feed(c, votes).1 ::
              && c.Quorum(NameSet(qc.Names()))
              && NameSet(qc.Names()) <= Authors(votes)
              && forall i, j | 0 <= i < j < |qc.votes| :: qc.votes[i].author != qc.votes[j].author
  {
    FeedRan(c, votes);
    var qcs := Feed(c, votes).1;
    if qcs != [] {
      var s := NameSet(qcs[0].Names());
      WeightMonotone(c.authorities, s, Authors(votes));
    }
  }

  // ---- Timeouts are counted like votes ----

  function FeedTimeouts(c: Committee, timeouts: seq<Timeout>): (TCMaker, seq<TC>)
  {
    if timeouts == [] then (NEW_TC_MAKER, [])
    else
      var (m, tcs) := FeedTimeouts(c, timeouts[..|timeouts| - 1]);
      var (m', r) := AppendTimeout(c, m, timeouts[|timeouts| - 1]);
      (m', if r.Ok? && r.value.Some? then tcs + [r.value.value] else tcs)
  }

  function AsVote(t: Timeout): Vote
  {
    Vote(Zero, t.round, t.author, t.signature)
  }

  function AsVotes(timeouts: seq<Timeout>): seq<Vote>
  {
    if timeouts == [] then []
    else
      AsVotes(timeouts[..|timeouts| - 1]) + [AsVote(timeouts[|timeouts| - 1])]
  }

  predicate SameAuthors(ts: seq<SignedTimeout>, vs: seq<SignedVote>)
  {
    |ts| == |vs| && forall i | 0 <= i < |ts| :: ts[i].author == vs[i].author
  }

  predicate CountAlike(m: TCMaker, tcs: seq<TC>, n: QCMaker, qcs: seq<QC>)
  {
    && m.weight == n.weight && m.used == n.used && SameAuthors(m.votes, n.votes)
    && |tcs| == |qcs| && forall i | 0 <= i < |tcs| :: SameAuthors(tcs[i].votes, qcs[i].votes)
  }

  lemma AppendAlike(c: Committee, m: TCMaker, tcs: seq<TC>, n: QCMaker, qcs: seq<QC>, timeout: Timeout)
    requires CountAlike(m, tcs, n, qcs)
    ensures var (m', r) := AppendTimeout(c, m, timeout);
            var (n', q) := AppendVote(c, n, AsVote(timeout));
            CountAlike(m', if r.Ok? && r.value.Some? then tcs + [r.value.value] else tcs,
                       n', if q.Ok? && q.value.Some? then qcs + [q.value.value] else qcs)
  {}

  lemma {:induction false} TimeoutsCountLikeVotes(c: Committee, timeouts: seq<Timeout>)
    ensures var (m, tcs) := FeedTimeouts(c, timeouts);
            var (n, qcs) := Feed(c, AsVotes(timeouts));
            CountAlike(m, tcs, n, qcs)
  {
    if timeouts != [] {
      var init, last := timeouts[..|timeouts| - 1], timeouts[|timeouts| - 1];
      TimeoutsCountLikeVotes(c, init);
      var (m, tcs) := FeedTimeouts(c, init);
      var (n, qcs) := Feed(c, AsVotes(init));
      AppendAlike(c, m, tcs, n, qcs, last);
      FeedAppend(c, AsVotes(init), AsVote(last));
    }
  }

  lemma FeedAppend(c: Committee, votes: seq<Vote>, vote: Vote)
    ensures var (m, qcs) := Feed(c, votes);
            var (m', r) := AppendVote(c, m, vote);
            Feed(c, votes + [vote]) == (m', if r.Ok? && r.value.Some? then qcs + [r.value.value] else qcs)
  {
    assert (votes + [vote])[..|votes|] == votes;
  }

  function TimeoutAuthors(timeouts: seq<Timeout>): set<PublicKey>
  {
    set t | t in timeouts :: t.author
  }

  lemma {:induction false} AuthorsAsVotes(timeouts: seq<Timeout>)
    ensures Authors(AsVotes(timeouts)) == TimeoutAuthors(timeouts)
  {
    if timeouts != [] {
      var init, last := timeouts[..|timeouts| - 1], timeouts[|timeouts| - 1];
      AuthorsAsVotes(init);
      assert timeouts == init + [last];
      assert TimeoutAuthors(timeouts) == TimeoutAuthors(init) + {last.author};
      assert Authors(AsVotes(init) + [AsVote(last)]) == Authors(AsVotes(init)) + {last.author};
    }
  }

  /** The same for timeouts: whatever their order and repetition, a maker returns exactly one timeout
      certificate if their distinct authors hold a quorum, and none otherwise; its voters are pairwise
      distinct and hold a quorum. */
  lemma TCMakerFiresExactlyOnce(c: Committee, timeouts: seq<Timeout>)
    ensures |FeedTimeouts(c, timeouts).1| == (if c.Quorum(TimeoutAuthors(timeouts)) then 1 else 0)
    ensures forall tc | tc in FeedTimeouts(c, timeouts).1 ::
              && c.Quorum(NameSet(tc.Names()))
              && NameSet(tc.Names()) <= TimeoutAuthors(timeouts)
              && forall i, j | 0 <= i < j < |tc.votes| :: tc.votes[i].author != tc.votes[j].author
  {
    hide FeedTimeouts, Feed, AsVotes;
    TimeoutsCountLikeVotes(c, timeouts);
    MakerFiresExactlyOnce(c, AsVotes(timeouts));
    AuthorsAsVotes(timeouts);
    var tcs, qcs := FeedTimeouts(c, timeouts).1, Feed(c, AsVotes(timeouts)).1;
    forall i | 0 <= i < |tcs|
      ensures tcs[i].Names() == qcs[i].Names() && qcs[i] in qcs
    {
    }
  }
}
