/** The fast and slow path of one Prepare instance: `QCMaker` of `primary/src/aggregators.rs` and its two
    users in `primary/src/core.rs`, `process_consensus_vote` and `process_vote`. */
module FastPath {
  import opened Wrappers
  import opened Committees

  type Digest = nat

  const DEFAULT_DIGEST: Digest := 0

  datatype QC = QC(id: Digest, voters: seq<PublicKey>)

  datatype DagError = AuthorityReuse | InvalidSlowQCRequest

  /** `ready` says that a QC is available; `qc` carries it once it may be used. */
  datatype Available = Available(ready: bool, qc: Option<QC>)

  function VoterSet(voters: seq<PublicKey>): set<PublicKey>
  {
    set v | v in voters
  }

  predicate DistinctVoters(voters: seq<PublicKey>)
  {
    forall i, j | 0 <= i < j < |voters| :: voters[i] != voters[j]
  }

  // ---- The maker ----

  /** `spent` records the voters counted when `weight` was last reset. */
  datatype Maker = Maker(
    weight: Stake, votes: seq<PublicKey>, used: set<PublicKey>, tryFast: bool, qcDig: Digest, first: bool,
    completedFast: bool, fastPathDisabled: bool, sentConfirm: bool, spent: set<PublicKey>)

  const NEW_MAKER: Maker := Maker(0, [], {}, false, DEFAULT_DIGEST, true, false, false, false, {})

  /** The stake that one more vote has to complete. */
  function Threshold(c: Committee, tryFast: bool): Stake
  {
    if tryFast then c.FastThreshold() else c.QuorumThreshold()
  }

  function Appended(c: Committee, m: Maker, author: PublicKey, id: Digest): (Maker, Result<Available, DagError>)
  {
    if author in m.used then (m, Err(AuthorityReuse))
    else
      var m1 := m.(used := m.used + {author}, votes := m.votes + [author], weight := m.weight + c.Stake(author));
      if m1.tryFast then
        var (m2, available) := FastChecked(c, m1, id);
        (m2, Ok(available))
      else if m1.weight >= c.QuorumThreshold() then
        (m1.(weight := 0, spent := m1.used), Ok(Available(true, Some(QC(id, m1.votes)))))
      else (m1, Ok(Available(false, None)))
  }

  function FastChecked(c: Committee, m: Maker, id: Digest): (Maker, Available)
  {
    if m.weight >= c.FastThreshold() then
      (m.(weight := 0, spent := m.used, completedFast := true), Available(true, Some(QC(id, m.votes))))
    else if m.weight >= c.QuorumThreshold() then (m.(qcDig := id, first := false), Available(m.first, None))
    else (m, Available(false, None))
  }

  function SlowQC(m: Maker): Result<Available, DagError>
  {
    if m.completedFast then Ok(Available(false, None))
    else if m.qcDig == DEFAULT_DIGEST then Err(InvalidSlowQCRequest)
    else Ok(Available(true, Some(QC(m.qcDig, m.votes))))
  }

  /** Voters are distinct, `weight` is the stake seen since it was last reset, that happened at a quorum,
      and at the full stake if it was on the fast path. */
  ghost predicate MakerOk(c: Committee, m: Maker)
  {
    && m.used == VoterSet(m.votes) && DistinctVoters(m.votes)
    && m.spent <= m.used && m.weight == c.StakeIn(m.used - m.spent)
    && (m.spent != {} ==> c.Quorum(m.spent))
    && (m.completedFast ==> c.StakeIn(m.spent) == c.Total())
    && (m.qcDig != DEFAULT_DIGEST ==> c.Quorum(m.used))
  }

  class QCMaker {
    const committee: Committee
    var weight: Stake
    var votes: seq<PublicKey>
    var used: set<PublicKey>
    var tryFast: bool
    var qcDig: Digest
    var first: bool
    var completedFast: bool
    var fastPathDisabled: bool
    var sentConfirm: bool
    ghost var spent: set<PublicKey>

    ghost function View(): Maker
      reads this
    {
      Maker(weight, votes, used, tryFast, qcDig, first, completedFast, fastPathDisabled, sentConfirm, spent)
    }

    constructor (committee: Committee)
      ensures this.committee == committee && View() == NEW_MAKER
    {
      this.committee := committee;
      weight, votes, used, spent := 0, [], {}, {};
      tryFast, qcDig, first := false, DEFAULT_DIGEST, true;
      completedFast, fastPathDisabled, sentConfirm := false, false, false;
    }

    method Append(author: PublicKey, id: Digest) returns (r: Result<Available, DagError>)
      modifies this`weight, this`votes, this`used, this`qcDig, this`first, this`completedFast, this`spent
      ensures (View(), r) == Appended(committee, old(View()), author, id)
    {
      if author in used {
        return Err(AuthorityReuse);
      }
      used := used + {author};
      votes := votes + [author];
      weight := weight + committee.Stake(author);
      if tryFast {
        var available := CheckFastQC(id);
        return Ok(available);
      }
      if weight >= committee.QuorumThreshold() {
        weight, spent := 0, used;
        return Ok(Available(true, Some(QC(id, votes))));
      }
      return Ok(Available(false, None));
    }

    method CheckFastQC(id: Digest) returns (r: Available)
      modifies this`weight, this`qcDig, this`first, this`completedFast, this`spent
      ensures (View(), r) == FastChecked(committee, old(View()), id)
    {
      if weight >= committee.FastThreshold() {
        weight, spent := 0, used;
        completedFast := true;
        return Available(true, Some(QC(id, votes)));
      } else if weight >= committee.QuorumThreshold() {
        qcDig := id;
        r := Available(first, None);
        first := false;
        return;
      }
      return Available(false, None);
    }

    /** Fetches the slow QC after the fast-path timer has expired. It does not reset `weight`. */
    method GetQC() returns (r: Result<Available, DagError>)
      ensures r == SlowQC(View())
    {
      if completedFast {
        return Ok(Available(false, None));
      }
      if qcDig == DEFAULT_DIGEST {
        return Err(InvalidSlowQCRequest);
      }
      return Ok(Available(true, Some(QC(qcDig, votes))));
    }
  }

  /** How one more vote changes the stakes that a maker keeps track of. */
  lemma VoteWeights(c: Committee, spent: set<PublicKey>, used: set<PublicKey>, author: PublicKey)
    requires spent <= used && author !in used
    ensures c.StakeIn((used + {author}) - spent) == c.StakeIn(used - spent) + c.Stake(author)
    ensures c.StakeIn(used + {author}) >= c.StakeIn((used + {author}) - spent) + c.StakeIn(spent)
    ensures c.StakeIn(used) <= c.StakeIn(used + {author}) <= c.Total()
  {
    StakeInInsert(c, used, author);
    var all := used + {author};
    assert all - spent == (used - spent) + {author};
    StakeInInsert(c, used - spent, author);
    WeightInclusionExclusion(c.authorities, all - spent, spent);
    assert (all - spent) + spent == all && (all - spent) * spent == {};
    WeightEmpty(c.authorities);
    WeightBounded(c.authorities, all);
  }

  lemma NothingLeft(c: Committee, used: set<PublicKey>)
    ensures c.StakeIn(used - used) == 0
  {
    assert used - used == {};
    WeightEmpty(c.authorities);
  }

  /** Once a quorum has been spent, no vote completes a threshold again, on either path. */
  lemma NoSecondQC(c: Committee, m: Maker, author: PublicKey)
    requires MakerOk(c, m) && c.Total() > 0 && m.spent != {} && author !in m.used
    ensures m.weight + c.Stake(author) < c.QuorumThreshold() <= c.FastThreshold()
  {
    VoteWeights(c, m.spent, m.used, author);
  }

  predicate Completes(c: Committee, m: Maker, author: PublicKey)
  {
    author !in m.used && m.weight + c.Stake(author) >= Threshold(c, m.tryFast)
  }

  /** What a vote returns: an error for a known author, a QC exactly when the vote of a new one
      completes the threshold of the current path. */
  lemma AppendedReturns(c: Committee, m: Maker, author: PublicKey, id: Digest)
    ensures var (m', r) := Appended(c, m, author, id);
            && (r.Err? <==> author in m.used)
            && (r.Ok? && r.value.qc.Some? <==> Completes(c, m, author))
            && (r.Ok? && r.value.qc.Some? ==> r.value == Available(true, Some(QC(id, m'.votes))))
            && (r.Ok? && r.value.ready && r.value.qc.None? ==> m.first && !m'.first)
  {}

  /** The QC has distinct voters that hold a quorum, on the fast path the full stake, and it is the
      only one: nothing was spent before. */
  lemma CompletedIsOk(c: Committee, m: Maker, author: PublicKey, id: Digest)
    requires MakerOk(c, m) && c.Total() > 0 && Completes(c, m, author)
    ensures var m' := Appended(c, m, author, id).0;
            && MakerOk(c, m') && m.spent == {} && m'.spent == m'.used != {}
            && m'.completedFast == m.tryFast && m'.used == VoterSet(m'.votes) && DistinctVoters(m'.votes)
            && c.Quorum(m'.used) && (m.tryFast ==> c.StakeIn(m'.used) == c.Total())
  {
    if m.spent != {} {
      NoSecondQC(c, m, author);
    }
    VoteWeights(c, m.spent, m.used, author);
    NothingLeft(c, m.used + {author});
    assert author in m.used + {author};
    assert m.used - {} == m.used;
    if m.completedFast {
      WeightEmpty(c.authorities);
    }
  }

  lemma UncompletedIsOk(c: Committee, m: Maker, author: PublicKey, id: Digest)
    requires MakerOk(c, m) && !Completes(c, m, author)
    ensures var m' := Appended(c, m, author, id).0;
            MakerOk(c, m') && m'.spent == m.spent && m'.completedFast == m.completedFast
  {
    if author !in m.used {
      VoteWeights(c, m.spent, m.used, author);
    }
  }

  // ---- The leader's side of one Prepare ----

  datatype Message = Commit(qc: QC) | Confirm(qc: QC)

  /** What made the leader send a message. */
  datatype Cause = ByVote | ByTimer | ByCar

  datatype Sent = Sent(message: Message, cause: Cause)

  /** `fastTimers` and `carTimers` are the timers started for this Prepare that have not expired. */
  datatype Instance = Instance(maker: Maker, useFastPath: bool, fastTimers: nat, carTimers: nat, sent: seq<Sent>)

  function Opened(useFastPath: bool): Instance
  {
    Instance(NEW_MAKER, useFastPath, 0, 0, [])
  }

  /** Whether the next vote is counted on the fast path. */
  predicate OnFastPath(s: Instance)
  {
    s.useFastPath && !s.maker.fastPathDisabled
  }

  function Counted(c: Committee, s: Instance, author: PublicKey, id: Digest): (Instance, Result<Available, DagError>)
  {
    var (m, r) := Appended(c, s.maker.(tryFast := OnFastPath(s)), author, id);
    (s.(maker := m), r)
  }

  /** `process_consensus_vote` confirms only if nothing was sent by it before. */
  function Confirmed(s: Instance, qc: QC, cause: Cause): Instance
  {
    if s.maker.sentConfirm || s.maker.completedFast then s
    else s.(maker := s.maker.(sentConfirm := true), sent := s.sent + [Sent(Confirm(qc), cause)])
  }

  /** `process_consensus_vote` for a vote sent on its own. */
  function OnVote(c: Committee, id: Digest, s: Instance, author: PublicKey): Instance
  {
    var (s1, r) := Counted(c, s, author, id);
    if r.Err? || !r.value.ready then s1
    else if r.value.qc.None? then (if s1.useFastPath then s1.(fastTimers := s1.fastTimers + 1) else s1)
    else if s1.maker.tryFast then s1.(sent := s1.sent + [Sent(Commit(r.value.qc.value), ByVote)])
    else Confirmed(s1, r.value.qc.value, ByVote)
  }

  /** The end of the loop body of `process_vote`. */
  function CarAnswered(s: Instance, available: Available): Instance
  {
    if !available.ready then s
    else if available.qc.None? then (if s.useFastPath then s.(carTimers := s.carTimers + 1) else s)
    else
      var qc := available.qc.value;
      s.(sent := s.sent + [Sent(if s.maker.tryFast then Commit(qc) else Confirm(qc), ByCar)])
  }

  /** The loop body of `process_vote` for a vote that is no loopback. It looks neither at `sent_confirm`
      nor at `completed_fast`. */
  function OnCarVote(c: Committee, id: Digest, s: Instance, author: PublicKey): Instance
  {
    var (s1, r) := Counted(c, s, author, id);
    if r.Err? then s1 else CarAnswered(s1, r.value)
  }

  /** `process_consensus_vote` for the loopback of its timer: the fast path is given up for good. */
  function OnTimer(s: Instance): Instance
    requires s.fastTimers > 0
  {
    var s1 := s.(fastTimers := s.fastTimers - 1, maker := s.maker.(tryFast := false, fastPathDisabled := true));
    var r := SlowQC(s1.maker);
    if r.Ok? && r.value.qc.Some? then Confirmed(s1, r.value.qc.value, ByTimer) else s1
  }

  /** The loop body of `process_vote` for a loopback: it would confirm as the other timer does. */
  function CarLoopback(s: Instance): Instance
  {
    var s1 := s.(maker := s.maker.(tryFast := false, fastPathDisabled := true));
    var r := SlowQC(s1.maker);
    if r.Err? then s1 else CarAnswered(s1, r.value)
  }

  /** `process_vote` as far as it concerns the Prepare: `current` says that the vote is on the leader's
      current header, `carries` that it carries a vote on the Prepare. */
  function OnCar(
    c: Committee, id: Digest, s: Instance, author: PublicKey, current: bool, carries: bool, loopback: bool): Instance
  {
    if !current || (loopback && carries) then s
    else if !carries then s
    else if loopback then CarLoopback(s)
    else OnCarVote(c, id, s, author)
  }

  /** The timer that `process_vote` starts hands it a loopback that carries the vote. */
  function OnCarTimer(c: Committee, id: Digest, s: Instance): Instance
    requires s.carTimers > 0
  {
    OnCar(c, id, s.(carTimers := s.carTimers - 1), 0, false, true, true)
  }

  /** A parameter update may switch the fast path on or off at any time. */
  datatype Event = Switch(enabled: bool) | Vote(author: PublicKey) | CarVote(author: PublicKey) | Timer | CarTimer

  predicate Enabled(s: Instance, e: Event)
  {
    (e.Timer? ==> s.fastTimers > 0) && (e.CarTimer? ==> s.carTimers > 0)
  }

  function Step(c: Committee, id: Digest, s: Instance, e: Event): Instance
    requires Enabled(s, e)
  {
    match e
    case Switch(enabled) => s.(useFastPath := enabled)
    case Vote(author) => OnVote(c, id, s, author)
    case CarVote(author) => OnCar(c, id, s, author, true, true, false)
    case Timer => OnTimer(s)
    case CarTimer => OnCarTimer(c, id, s)
  }

  /** The state that the events lead to from `start`; expiries of timers that do not exist change nothing. */
  function RunFrom(c: Committee, id: Digest, start: Instance, events: seq<Event>): Instance
  {
    if events == [] then start
    else
      var s, e := RunFrom(c, id, start, events[..|events| - 1]), events[|events| - 1];
      if Enabled(s, e) then Step(c, id, s, e) else s
  }

  function Run(c: Committee, id: Digest, useFastPath: bool, events: seq<Event>): Instance
  {
    RunFrom(c, id, Opened(useFastPath), events)
  }

  // ---- What every step keeps ----

  ghost predicate QCGood(c: Committee, id: Digest, message: Message)
  {
    var voters := message.qc.voters;
    && message.qc.id == id && DistinctVoters(voters)
    && (if message.Commit? then c.StakeIn(VoterSet(voters)) == c.Total() else c.Quorum(VoterSet(voters)))
  }

  /** The messages sent so far, and what the maker still knows of them. */
  ghost predicate SentOk(m: Maker, sent: seq<Sent>)
  {
    if sent == [] then !m.sentConfirm && !m.completedFast && m.spent == {}
    else if |sent| == 1 then
      var x := sent[0];
      && (m.completedFast <==> x.message.Commit?)
      && (m.sentConfirm <==> x.message.Confirm? && !x.cause.ByCar?)
      && (if x.cause.ByTimer? then x.message.Confirm? && m.fastPathDisabled else m.spent != {})
    else
      && |sent| == 2 && sent[0].message.Confirm? && sent[1].message.Confirm?
      && (sent[0].cause, sent[1].cause) in {(ByTimer, ByCar), (ByCar, ByTimer)}
      && m.sentConfirm && !m.completedFast && m.spent != {}
  }

  ghost predicate Sound(c: Committee, id: Digest, s: Instance)
  {
    && MakerOk(c, s.maker) && SentOk(s.maker, s.sent)
    && (forall x | x in s.sent :: QCGood(c, id, x.message))
    && s.maker.qcDig in {DEFAULT_DIGEST, id}
    && s.fastTimers + s.carTimers <= (if s.maker.first then 0 else 1)
  }

  /** What counting a vote leaves as it is. */
  lemma CountedKeeps(c: Committee, id: Digest, s: Instance, author: PublicKey)
    ensures var (s1, r) := Counted(c, s, author, id);
            && s1 == s.(maker := s1.maker)
            && s1.maker.tryFast == OnFastPath(s) && s1.maker.sentConfirm == s.maker.sentConfirm
            && s1.maker.fastPathDisabled == s.maker.fastPathDisabled
            && (s.maker.qcDig in {DEFAULT_DIGEST, id} ==> s1.maker.qcDig in {DEFAULT_DIGEST, id})
            && (s1.maker.first ==> s.maker.first)
  {}

  /** The maker as it counts the next vote. */
  function Counting(s: Instance): Maker
  {
    s.maker.(tryFast := OnFastPath(s))
  }

  /** The QC that a vote completes. */
  function QCWith(s: Instance, id: Digest, author: PublicKey): QC
  {
    QC(id, s.maker.votes + [author])
  }

  lemma CountedReturns(c: Committee, id: Digest, s: Instance, author: PublicKey)
    ensures var (s1, r) := Counted(c, s, author, id);
            && (r.Ok? && r.value.qc.Some? <==> Completes(c, Counting(s), author))
            && (r.Ok? && r.value.qc.Some? ==> r.value == Available(true, Some(QCWith(s, id, author))))
            && (r.Ok? && r.value.qc.Some? ==> s1.maker.votes == s.maker.votes + [author])
            && (r.Ok? && r.value.ready && r.value.qc.None? ==> s.maker.first && !s1.maker.first)
  {
    AppendedReturns(c, Counting(s), author, id);
  }

  lemma CountedIsOk(c: Committee, id: Digest, s: Instance, author: PublicKey)
    requires Sound(c, id, s) && c.Total() > 0
    ensures var s1 := Counted(c, s, author, id).0;
            && MakerOk(c, s1.maker)
            && if Completes(c, Counting(s), author) then
                 && s.maker.spent == {} && s1.maker.spent == s1.maker.used != {}
                 && s1.maker.completedFast == OnFastPath(s)
                 && QCGood(c, id, if OnFastPath(s) then Commit(QCWith(s, id, author))
                                  else Confirm(QCWith(s, id, author)))
               else s1.maker.spent == s.maker.spent && s1.maker.completedFast == s.maker.completedFast
  {
    CountedReturns(c, id, s, author);
    if Completes(c, Counting(s), author) {
      CompletedIsOk(c, Counting(s), author, id);
    } else {
      UncompletedIsOk(c, Counting(s), author, id);
    }
  }

  /** A vote sent on its own makes the leader send a message exactly when it completes the threshold of
      the current path and nothing was sent before: a fast Commit or a Confirm. */
  lemma VoteSends(c: Committee, id: Digest, s: Instance, author: PublicKey)
    requires Sound(c, id, s) && c.Total() > 0
    ensures Sound(c, id, OnVote(c, id, s, author))
    ensures var qc := QCWith(s, id, author);
            OnVote(c, id, s, author).sent
            == s.sent + if Completes(c, Counting(s), author) && s.sent == [] then
                          [Sent(if OnFastPath(s) then Commit(qc) else Confirm(qc), ByVote)]
                        else []
  {
    CountedKeeps(c, id, s, author);
    CountedReturns(c, id, s, author);
    CountedIsOk(c, id, s, author);
  }

  /** A vote carried by a car vote makes the leader send a message exactly when it completes the
      threshold of the current path, even if one was sent before; then it is a second Confirm. */
  lemma CarVoteSends(c: Committee, id: Digest, s: Instance, author: PublicKey)
    requires Sound(c, id, s) && c.Total() > 0
    ensures Sound(c, id, OnCarVote(c, id, s, author))
    ensures var qc := QCWith(s, id, author);
            OnCarVote(c, id, s, author).sent
            == s.sent + if Completes(c, Counting(s), author) then
                          [Sent(if OnFastPath(s) then Commit(qc) else Confirm(qc), ByCar)]
                        else []
    ensures s.sent != [] ==>
              (OnCarVote(c, id, s, author).sent != s.sent <==>
                 && author !in s.maker.used && !OnFastPath(s)
                 && s.maker.weight + c.Stake(author) >= c.QuorumThreshold())
  {
    CountedKeeps(c, id, s, author);
    CountedReturns(c, id, s, author);
    CountedIsOk(c, id, s, author);
  }

  /** The expired timer confirms exactly when a quorum waits and no vote sent on its own has made the
      leader send anything. */
  lemma TimerSends(c: Committee, id: Digest, s: Instance)
    requires Sound(c, id, s) && s.fastTimers > 0
    ensures Sound(c, id, OnTimer(s)) && OnTimer(s).maker.fastPathDisabled
    ensures OnTimer(s).sent
         == s.sent + if s.maker.qcDig != DEFAULT_DIGEST && !s.maker.sentConfirm && !s.maker.completedFast then
                       [Sent(Confirm(QC(id, s.maker.votes)), ByTimer)]
                     else []
  {}

  lemma StepSound(c: Committee, id: Digest, s: Instance, e: Event)
    requires Sound(c, id, s) && c.Total() > 0 && Enabled(s, e)
    ensures Sound(c, id, Step(c, id, s, e))
  {
    match e
    case Switch(enabled) =>
    case Vote(author) => VoteSends(c, id, s, author);
    case CarVote(author) => CarVoteSends(c, id, s, author);
    case Timer => TimerSends(c, id, s);
    case CarTimer =>
  }

  lemma OpenedSound(c: Committee, id: Digest, useFastPath: bool)
    ensures Sound(c, id, Opened(useFastPath))
  {
    NothingLeft(c, {});
  }

  lemma {:induction false} RunFromSound(c: Committee, id: Digest, start: Instance, events: seq<Event>)
    requires c.Total() > 0 && Sound(c, id, start)
    ensures Sound(c, id, RunFrom(c, id, start, events))
  {
    if events != [] {
      var before := events[..|events| - 1];
      var s, e := RunFrom(c, id, start, before), events[|events| - 1];
      RunFromSound(c, id, start, before);
      if Enabled(s, e) {
        StepSound(c, id, s, e);
      }
    }
  }

  lemma RunSound(c: Committee, id: Digest, useFastPath: bool, events: seq<Event>)
    requires c.Total() > 0
    ensures Sound(c, id, Run(c, id, useFastPath, events))
  {
    OpenedSound(c, id, useFastPath);
    RunFromSound(c, id, Opened(useFastPath), events);
  }

  predicate SentBy(sent: seq<Sent>, cause: Cause)
  {
    exists i | 0 <= i < |sent| :: sent[i].cause == cause
  }

  lemma {:induction false} CarMessagesNeedCarVotes(c: Committee, id: Digest, useFastPath: bool, events: seq<Event>)
    requires c.Total() > 0 && SentBy(Run(c, id, useFastPath, events).sent, ByCar)
    ensures exists e | e in events :: e.CarVote?
  {
    var before := events[..|events| - 1];
    var s, e := Run(c, id, useFastPath, before), events[|events| - 1];
    if SentBy(s.sent, ByCar) {
      CarMessagesNeedCarVotes(c, id, useFastPath, before);
    } else {
      RunSound(c, id, useFastPath, before);
      OnlyCarVotesSendByCar(c, id, s, e);
      assert e in events;
    }
  }

  lemma OnlyCarVotesSendByCar(c: Committee, id: Digest, s: Instance, e: Event)
    requires Sound(c, id, s) && c.Total() > 0 && Enabled(s, e) && !SentBy(s.sent, ByCar)
    ensures SentBy(Step(c, id, s, e).sent, ByCar) ==> e.CarVote?
  {
    match e
    case Switch(enabled) =>
    case Vote(author) => VoteSends(c, id, s, author);
    case CarVote(author) =>
    case Timer => TimerSends(c, id, s);
    case CarTimer =>
  }

  // ---- Main results ----

  /** Over every interleaving of votes of both kinds, timers and switches of the fast path, the leader
      never sends both a Commit and a Confirm, sends at most two messages, and every QC it uses is for the
      Prepare and has distinct voters of quorum stake, of full stake in a Commit. */
  lemma OnePathPerPrepare(c: Committee, id: Digest, useFastPath: bool, events: seq<Event>)
    requires c.Total() > 0
    ensures var sent := Run(c, id, useFastPath, events).sent;
            && |sent| <= 2
            && (forall i, j | 0 <= i < j < |sent| :: sent[i].message.Confirm? && sent[j].message.Confirm?)
            && (forall x | x in sent :: QCGood(c, id, x.message))
  {
    RunSound(c, id, useFastPath, events);
    SoundSends(c, id, Run(c, id, useFastPath, events));
  }

  lemma SoundSends(c: Committee, id: Digest, s: Instance)
    requires Sound(c, id, s)
    ensures |s.sent| <= 2 && forall x | x in s.sent :: QCGood(c, id, x.message)
    ensures forall i, j | 0 <= i < j < |s.sent| :: s.sent[i].message.Confirm? && s.sent[j].message.Confirm?
    ensures |s.sent| == 2 <==> SentBy(s.sent, ByTimer) && SentBy(s.sent, ByCar)
  {
    if |s.sent| == 2 {
      assert s.sent[0].cause == ByTimer || s.sent[1].cause == ByTimer;
      assert s.sent[0].cause == ByCar || s.sent[1].cause == ByCar;
    }
  }

  /** Two messages are sent if and only if the timer caused one and a vote carried by a car vote another.
      So at most one is sent when votes only come on their own. */
  lemma TwoMessagesIffTimerAndCar(c: Committee, id: Digest, useFastPath: bool, events: seq<Event>)
    requires c.Total() > 0
    ensures var sent := Run(c, id, useFastPath, events).sent;
            && (|sent| == 2 <==> SentBy(sent, ByTimer) && SentBy(sent, ByCar))
            && ((forall e | e in events :: !e.CarVote?) ==> |sent| <= 1)
  {
    RunSound(c, id, useFastPath, events);
    SoundSends(c, id, Run(c, id, useFastPath, events));
    if |Run(c, id, useFastPath, events).sent| == 2 {
      CarMessagesNeedCarVotes(c, id, useFastPath, events);
    }
  }

  /** Exactly when a message follows an earlier one: a vote of a new author carried by a car vote
      completes a quorum on the slow path, or the timer expires with a quorum waiting while only a car
      vote has made the leader send something. */
  lemma SecondMessageIff(c: Committee, id: Digest, s: Instance, e: Event)
    requires Sound(c, id, s) && c.Total() > 0 && Enabled(s, e) && s.sent != []
    ensures Step(c, id, s, e).sent != s.sent <==>
              match e
              case CarVote(author) =>
                && author !in s.maker.used && !OnFastPath(s)
                && s.maker.weight + c.Stake(author) >= c.QuorumThreshold()
              case Timer => s.maker.qcDig != DEFAULT_DIGEST && !s.maker.sentConfirm && !s.maker.completedFast
              case _ => false
  {
    match e
    case Vote(author) => VoteSends(c, id, s, author);
    case CarVote(author) => CarVoteSends(c, id, s, author);
    case Timer => TimerSends(c, id, s);
    case Switch(enabled) =>
    case CarTimer =>
  }

  // ---- The timer of process_vote ----

  /** No loopback ever reaches the loop body of `process_vote`: one that carries votes returns before, one
      that carries none has nothing to loop over. */
  lemma LoopbackDoesNothing(
    c: Committee, id: Digest, s: Instance, author: PublicKey, current: bool, carries: bool)
    ensures OnCar(c, id, s, author, current, carries, true) == s
  {}

  /** A quorum was announced on the fast path, and no timer of `process_consensus_vote` waits for it. */
  ghost predicate Waiting(c: Committee, id: Digest, s: Instance)
  {
    && Sound(c, id, s) && OnFastPath(s) && !s.maker.first && s.fastTimers == 0
    && s.sent == [] && c.StakeIn(s.maker.used) < c.Total()
  }

  /** The authors of a vote of either kind. */
  function Author(e: Event): set<PublicKey>
  {
    match e
    case Vote(author) => {author}
    case CarVote(author) => {author}
    case _ => {}
  }

  lemma CompletesAtFullStake(c: Committee, id: Digest, s: Instance, author: PublicKey)
    requires Sound(c, id, s) && OnFastPath(s) && s.sent == [] && author !in s.maker.used
    ensures Completes(c, Counting(s), author) <==> c.StakeIn(s.maker.used + {author}) == c.Total()
  {
    assert s.maker.used - {} == s.maker.used;
    StakeInInsert(c, s.maker.used, author);
    WeightBounded(c.authorities, s.maker.used + {author});
  }

  lemma CountedUses(c: Committee, id: Digest, s: Instance, author: PublicKey)
    ensures Counted(c, s, author, id).0.maker.used == s.maker.used + {author}
    ensures author in s.maker.used ==> s.maker.used + {author} == s.maker.used
  {}

  /** From then on, unless the fast path is switched, a step sends exactly one Commit if it completes the
      full stake, and otherwise sends nothing and leaves the instance waiting. */
  lemma WaitingStep(c: Committee, id: Digest, s: Instance, e: Event)
    requires Waiting(c, id, s) && c.Total() > 0 && Enabled(s, e) && !e.Switch?
    ensures Step(c, id, s, e).maker.used == s.maker.used + Author(e)
    ensures if c.StakeIn(s.maker.used + Author(e)) == c.Total() then CommitSent(Step(c, id, s, e))
            else Waiting(c, id, Step(c, id, s, e))
  {
    WeightBounded(c.authorities, s.maker.used + Author(e));
    if Author(e) != {} {
      var author :| author in Author(e);
      assert Author(e) == {author};
      if author !in s.maker.used {
        CompletesAtFullStake(c, id, s, author);
      }
      CountedUses(c, id, s, author);
      CountedKeeps(c, id, s, author);
      CountedReturns(c, id, s, author);
      VoteSends(c, id, s, author);
      CarVoteSends(c, id, s, author);
    } else {
      assert s.maker.used + Author(e) == s.maker.used;
    }
  }

  predicate CommitSent(s: Instance)
  {
    |s.sent| == 1 && s.sent[0].message.Commit?
  }

  lemma StepAppends(c: Committee, id: Digest, s: Instance, e: Event)
    requires Sound(c, id, s) && c.Total() > 0 && Enabled(s, e)
    ensures s.sent <= Step(c, id, s, e).sent
  {
    match e
    case Vote(author) => VoteSends(c, id, s, author);
    case CarVote(author) => CarVoteSends(c, id, s, author);
    case Timer => TimerSends(c, id, s);
    case Switch(enabled) =>
    case CarTimer =>
  }

  lemma StepUses(c: Committee, id: Digest, s: Instance, e: Event)
    requires Enabled(s, e)
    ensures Step(c, id, s, e).maker.used == s.maker.used + Author(e)
  {
    match e
    case Vote(author) => CountedUses(c, id, s, author);
    case CarVote(author) => CountedUses(c, id, s, author);
    case _ =>
  }

  lemma CommitStays(c: Committee, id: Digest, s: Instance, e: Event)
    requires Sound(c, id, s) && c.Total() > 0 && Enabled(s, e) && CommitSent(s)
    ensures CommitSent(Step(c, id, s, e))
  {
    StepSound(c, id, s, e);
    StepAppends(c, id, s, e);
    SoundSends(c, id, Step(c, id, s, e));
  }

  function Authors(events: seq<Event>): set<PublicKey>
  {
    if events == [] then {} else Authors(events[..|events| - 1]) + Author(events[|events| - 1])
  }

  /** Over every run without a switch: an instance that waits sends a message if and only if the full stake
      votes, and then it is one Commit. The quorum it already has is never confirmed. */
  lemma {:induction false} WaitingUntilFullStake(c: Committee, id: Digest, start: Instance, events: seq<Event>)
    requires Waiting(c, id, start) && c.Total() > 0 && forall e | e in events :: !e.Switch?
    ensures var s := RunFrom(c, id, start, events);
            && Sound(c, id, s) && s.maker.used == start.maker.used + Authors(events)
            && if c.StakeIn(start.maker.used + Authors(events)) == c.Total() then CommitSent(s) else Waiting(c, id, s)
  {
    if events == [] {
      assert start.maker.used + Authors(events) == start.maker.used;
    } else {
      var before := events[..|events| - 1];
      var s, e := RunFrom(c, id, start, before), events[|events| - 1];
      WaitingUntilFullStake(c, id, start, before);
      assert start.maker.used + Authors(events) == s.maker.used + Author(e);
      if Enabled(s, e) {
        StepSound(c, id, s, e);
        if CommitSent(s) {
          CommitStays(c, id, s, e);
          StepUses(c, id, s, e);
          WeightMonotone(c.authorities, s.maker.used, s.maker.used + Author(e));
          WeightBounded(c.authorities, s.maker.used + Author(e));
        } else {
          WaitingStep(c, id, s, e);
        }
      } else {
        assert s.maker.used + Author(e) == s.maker.used;
      }
    }
  }

  /** Which of the two handlers announces the first quorum of the fast path decides whether the slow path
      is there to fall back to: a vote on its own starts the timer that confirms the quorum, a car
      vote leaves the instance waiting for the full stake. */
  lemma FallbackIffAnnouncedByVote(c: Committee, id: Digest, s: Instance, author: PublicKey)
    requires Sound(c, id, s) && OnFastPath(s) && s.maker.first && s.sent == [] && id != DEFAULT_DIGEST
    requires author !in s.maker.used
    requires c.QuorumThreshold() <= c.StakeIn(s.maker.used + {author}) < c.Total()
    ensures var v := OnVote(c, id, s, author);
            && v.sent == [] && v.fastTimers == 1
            && OnTimer(v).sent == [Sent(Confirm(QCWith(s, id, author)), ByTimer)]
    ensures var v := OnCarVote(c, id, s, author); v.carTimers == 1 && Waiting(c, id, v)
  {
    assert s.maker.used - {} == s.maker.used;
    StakeInInsert(c, s.maker.used, author);
    CountedUses(c, id, s, author);
    VoteSends(c, id, s, author);
    CarVoteSends(c, id, s, author);
  }

  const FOUR: Committee := Committee([Authority(0, 1), Authority(1, 1), Authority(2, 1), Authority(3, 1)])

  /** A second Confirm: three votes start the timer, its expiry confirms without resetting `weight`, and a
      fourth vote carried by a car vote completes the quorum once more. */
  lemma SecondConfirm(id: Digest)
    requires id != DEFAULT_DIGEST
    ensures Run(FOUR, id, true, [Vote(0), Vote(1), Vote(2), Timer, CarVote(3)]).sent
         == [Sent(Confirm(QC(id, [0, 1, 2])), ByTimer), Sent(Confirm(QC(id, [0, 1, 2, 3])), ByCar)]
  {
    var s3 := ThreeVotes(id);
    var s4 := OnTimer(s3);
    FourFacts();
    var s5 := OnCarVote(FOUR, id, s4, 3);
    assert s4.sent == [Sent(Confirm(QC(id, [0, 1, 2])), ByTimer)];
    assert [0, 1, 2] + [3] == [0, 1, 2, 3];
    assert s5.sent == s4.sent + [Sent(Confirm(QC(id, [0, 1, 2] + [3])), ByCar)];
    RunAppend(id, [Vote(0), Vote(1), Vote(2)], Timer);
    RunAppend(id, [Vote(0), Vote(1), Vote(2), Timer], CarVote(3));
    assert [Vote(0), Vote(1), Vote(2)] + [Timer] == [Vote(0), Vote(1), Vote(2), Timer];
    assert [Vote(0), Vote(1), Vote(2), Timer] + [CarVote(3)] == [Vote(0), Vote(1), Vote(2), Timer, CarVote(3)];
  }

  lemma ThreeVotes(id: Digest) returns (s3: Instance)
    requires id != DEFAULT_DIGEST
    ensures s3 == Run(FOUR, id, true, [Vote(0), Vote(1), Vote(2)])
    ensures s3 == Instance(Maker(3, [0, 1, 2], {0, 1, 2}, true, id, false, false, false, false, {}), true, 1, 0, [])
  {
    FourFacts();
    var s1 := OnVote(FOUR, id, Opened(true), 0);
    assert s1 == Instance(
        Maker(1, [0], {0}, true, DEFAULT_DIGEST, true, false, false, false, {}), true, 0, 0, []);
    var s2 := OnVote(FOUR, id, s1, 1);
    assert s2 == Instance(
        Maker(2, [0, 1], {0, 1}, true, DEFAULT_DIGEST, true, false, false, false, {}), true, 0, 0, []);
    s3 := OnVote(FOUR, id, s2, 2);
    RunAppend(id, [], Vote(0));
    RunAppend(id, [Vote(0)], Vote(1));
    RunAppend(id, [Vote(0), Vote(1)], Vote(2));
    assert [] + [Vote(0)] == [Vote(0)];
    assert [Vote(0)] + [Vote(1)] == [Vote(0), Vote(1)];
    assert [Vote(0), Vote(1)] + [Vote(2)] == [Vote(0), Vote(1), Vote(2)];
  }

  lemma FourFacts()
    ensures FOUR.QuorumThreshold() == 3 && FOUR.FastThreshold() == FOUR.Total() == 4
    ensures forall k: nat | k < 4 :: FOUR.Stake(k) == 1
  {
    var rest := FOUR.authorities[1..];
    assert rest == [Authority(1, 1), Authority(2, 1), Authority(3, 1)];
    assert rest[1..] == [Authority(2, 1), Authority(3, 1)];
    assert rest[1..][1..] == [Authority(3, 1)];
    assert Sum([Authority(3, 1)]) == 1;
    assert Sum(rest[1..]) == 2;
    assert Sum(rest) == 3;
    assert Lookup(rest[1..], 3) == 1 && Lookup(rest[1..], 2) == 1;
    assert Lookup(rest, 3) == 1 && Lookup(rest, 2) == 1 && Lookup(rest, 1) == 1;
  }

  /** Three car votes announce a quorum, and the expiry of the timer they start sends nothing. */
  lemma SilentCarTimer(id: Digest)
    requires id != DEFAULT_DIGEST
    ensures var s := Run(FOUR, id, true, [CarVote(0), CarVote(1), CarVote(2)]);
            s.carTimers == 1 && s.sent == [] && FOUR.Quorum(s.maker.used) && Waiting(FOUR, id, s)
    ensures var s := Run(FOUR, id, true, [CarVote(0), CarVote(1), CarVote(2), CarTimer]);
            s.carTimers == 0 && s.sent == [] && Waiting(FOUR, id, s)
  {
    var events := [CarVote(0), CarVote(1), CarVote(2)];
    var s3 := ThreeCarVotes(id);
    RunSound(FOUR, id, true, events);
    FourFacts();
    assert s3.maker.used - {} == s3.maker.used;
    WaitingStep(FOUR, id, s3, CarTimer);
    RunAppend(id, events, CarTimer);
    assert s3.maker.used + Author(CarTimer) == s3.maker.used;
    assert events + [CarTimer] == [CarVote(0), CarVote(1), CarVote(2), CarTimer];
  }

  lemma ThreeCarVotes(id: Digest) returns (s3: Instance)
    requires id != DEFAULT_DIGEST
    ensures s3 == Run(FOUR, id, true, [CarVote(0), CarVote(1), CarVote(2)])
    ensures s3 == Instance(Maker(3, [0, 1, 2], {0, 1, 2}, true, id, false, false, false, false, {}), true, 0, 1, [])
  {
    FourFacts();
    var s1 := OnCarVote(FOUR, id, Opened(true), 0);
    assert s1 == Instance(
        Maker(1, [0], {0}, true, DEFAULT_DIGEST, true, false, false, false, {}), true, 0, 0, []);
    var s2 := OnCarVote(FOUR, id, s1, 1);
    assert s2 == Instance(
        Maker(2, [0, 1], {0, 1}, true, DEFAULT_DIGEST, true, false, false, false, {}), true, 0, 0, []);
    s3 := OnCarVote(FOUR, id, s2, 2);
    RunAppend(id, [], CarVote(0));
    RunAppend(id, [CarVote(0)], CarVote(1));
    RunAppend(id, [CarVote(0), CarVote(1)], CarVote(2));
    assert [] + [CarVote(0)] == [CarVote(0)];
    assert [CarVote(0)] + [CarVote(1)] == [CarVote(0), CarVote(1)];
    assert [CarVote(0), CarVote(1)] + [CarVote(2)] == [CarVote(0), CarVote(1), CarVote(2)];
  }

  lemma RunAppend(id: Digest, events: seq<Event>, e: Event)
    ensures var s := Run(FOUR, id, true, events);
            Run(FOUR, id, true, events + [e]) == if Enabled(s, e) then Step(FOUR, id, s, e) else s
  {
    assert (events + [e])[..|events|] == events;
  }

  /** The part of the primary's core that serves one Prepare. */
  class PrepareInstance {
    const qcMaker: QCMaker
    const digest: Digest
    var useFastPath: bool
    var sent: seq<Sent>
    var fastTimers: nat
    var carTimers: nat

    ghost function View(): Instance
      reads this, qcMaker
    {
      Instance(qcMaker.View(), useFastPath, fastTimers, carTimers, sent)
    }

    constructor (committee: Committee, digest: Digest, useFastPath: bool)
      ensures fresh(qcMaker) && qcMaker.committee == committee && this.digest == digest
      ensures View() == Opened(useFastPath)
    {
      this.digest, this.useFastPath := digest, useFastPath;
      qcMaker := new QCMaker(committee);
      sent, fastTimers, carTimers := [], 0, 0;
    }

    /** `process_consensus_vote` with `is_loopback` unset. */
    method ProcessConsensusVote(author: PublicKey) returns (r: Result<(), DagError>)
      modifies this`sent, this`fastTimers, qcMaker
      ensures View() == OnVote(qcMaker.committee, digest, old(View()), author)
      ensures r.Err? <==> author in old(qcMaker.used)
    {
      hide Appended;
      qcMaker.tryFast := useFastPath && !qcMaker.fastPathDisabled;
      AppendedReturns(qcMaker.committee, qcMaker.View(), author, digest);
      var available := qcMaker.Append(author, digest);
      if available.Err? {
        return Err(available.error);
      }
      if available.value.ready {
        if available.value.qc.None? && useFastPath {
          fastTimers := fastTimers + 1;
        } else if available.value.qc.Some? {
          if qcMaker.tryFast {
            sent := sent + [Sent(Commit(available.value.qc.value), ByVote)];
          } else {
            ConfirmOnce(available.value.qc.value, ByVote);
          }
        }
      }
      return Ok(());
    }

    /** `process_consensus_vote` with `is_loopback` set. */
    method ProcessLoopback() returns (r: Result<(), DagError>)
      requires fastTimers > 0
      modifies this`sent, this`fastTimers, qcMaker
      ensures View() == OnTimer(old(View()))
    {
      fastTimers := fastTimers - 1;
      qcMaker.tryFast := false;
      qcMaker.fastPathDisabled := true;
      var available := qcMaker.GetQC();
      if available.Err? {
        return Err(available.error);
      }
      if available.value.qc.Some? {
        ConfirmOnce(available.value.qc.value, ByTimer);
      }
      return Ok(());
    }

    method ConfirmOnce(qc: QC, cause: Cause)
      modifies this`sent, qcMaker`sentConfirm
      ensures View() == Confirmed(old(View()), qc, cause)
    {
      if !qcMaker.sentConfirm && !qcMaker.completedFast {
        qcMaker.sentConfirm := true;
        sent := sent + [Sent(Confirm(qc), cause)];
      }
    }

    /** The loop body of `process_vote`, for the vote on the Prepare. */
    method CountCarVote(author: PublicKey, loopback: bool) returns (r: Result<(), DagError>)
      modifies this`sent, this`carTimers, qcMaker
      ensures View() == if loopback then CarLoopback(old(View()))
                        else OnCarVote(qcMaker.committee, digest, old(View()), author)
      ensures !loopback ==> (r.Err? <==> author in old(qcMaker.used))
    {
      hide Appended, SlowQC, CarAnswered;
      qcMaker.tryFast := useFastPath && !qcMaker.fastPathDisabled;
      var available;
      if loopback {
        qcMaker.tryFast := false;
        qcMaker.fastPathDisabled := true;
        available := qcMaker.GetQC();
      } else {
        AppendedReturns(qcMaker.committee, qcMaker.View(), author, digest);
        available := qcMaker.Append(author, digest);
      }
      if available.Err? {
        return Err(available.error);
      }
      AnswerCar(available.value);
      return Ok(());
    }

    method AnswerCar(available: Available)
      modifies this`sent, this`carTimers
      ensures View() == CarAnswered(old(View()), available)
    {
      if available.ready {
        if available.qc.None? && useFastPath {
          carTimers := carTimers + 1;
        } else if available.qc.Some? {
          var qc := available.qc.value;
          sent := sent + [Sent(if qcMaker.tryFast then Commit(qc) else Confirm(qc), ByCar)];
        }
      }
    }

    /** `process_vote`, with its loop over the consensus votes reduced to the vote on the Prepare, if the
        car vote carries one. */
    method ProcessVote(author: PublicKey, current: bool, carries: bool, loopback: bool)
      returns (r: Result<(), DagError>)
      modifies this`sent, this`carTimers, qcMaker
      ensures View() == OnCar(qcMaker.committee, digest, old(View()), author, current, carries, loopback)
      ensures r.Err? <==> current && carries && !loopback && author in old(qcMaker.used)
    {
      var consensusLoopback := loopback && carries;
      if !current || consensusLoopback {
        return Ok(());
      }
      if carries {
        r := CountCarVote(author, loopback);
        return;
      }
      return Ok(());
    }
  }

  // ---- Either path, in terms of who has voted ----

  predicate ConfirmSent(s: Instance)
  {
    |s.sent| == 1 && s.sent[0].message.Confirm? && !s.sent[0].cause.ByTimer?
  }

  /** On the slow path: one Confirm as soon as the members counted hold a quorum, nothing before. */
  ghost predicate Slow(c: Committee, id: Digest, s: Instance)
  {
    && Sound(c, id, s) && !s.useFastPath && s.fastTimers == 0 && s.carTimers == 0
    && (if c.Quorum(s.maker.used) then ConfirmSent(s) else s.sent == [])
  }

  lemma CompletesAtQuorum(c: Committee, id: Digest, s: Instance, author: PublicKey)
    requires Slow(c, id, s) && c.Total() > 0
    ensures Completes(c, Counting(s), author) <==> !c.Quorum(s.maker.used) && c.Quorum(s.maker.used + {author})
  {
    if author in s.maker.used {
      assert s.maker.used + {author} == s.maker.used;
    } else if s.sent == [] {
      assert s.maker.used - {} == s.maker.used;
      StakeInInsert(c, s.maker.used, author);
    } else {
      NoSecondQC(c, s.maker, author);
    }
  }

  lemma SlowStep(c: Committee, id: Digest, s: Instance, e: Event)
    requires Slow(c, id, s) && c.Total() > 0 && Enabled(s, e) && !e.Switch?
    ensures Slow(c, id, Step(c, id, s, e))
  {
    hide Sound, Completes;
    StepUses(c, id, s, e);
    StepSound(c, id, s, e);
    WeightMonotone(c.authorities, s.maker.used, s.maker.used + Author(e));
    match e
    case Vote(author) => SlowVote(c, id, s, author, OnVote(c, id, s, author));
    case CarVote(author) => SlowVote(c, id, s, author, OnCarVote(c, id, s, author));
    case _ =>
  }

  lemma SlowVote(c: Committee, id: Digest, s: Instance, author: PublicKey, s': Instance)
    requires Slow(c, id, s) && c.Total() > 0
    requires s' == OnVote(c, id, s, author) || s' == OnCarVote(c, id, s, author)
    ensures !s'.useFastPath && s'.fastTimers == 0 && s'.carTimers == 0
    ensures if c.Quorum(s.maker.used + {author}) then ConfirmSent(s') else s'.sent == []
  {
    hide Sound, Completes;
    CountedKeeps(c, id, s, author);
    CountedReturns(c, id, s, author);
    CompletesAtQuorum(c, id, s, author);
    VoteSends(c, id, s, author);
    CarVoteSends(c, id, s, author);
    WeightMonotone(c.authorities, s.maker.used, s.maker.used + {author});
  }

  /** Without the fast path, for any votes of either kind in any order and with any repetition: the leader sends
      one Confirm once the distinct members that voted hold a quorum, and sends nothing otherwise. */
  lemma {:induction false} SlowPathConfirmsIffQuorum(c: Committee, id: Digest, events: seq<Event>)
    requires c.Total() > 0 && forall e | e in events :: !e.Switch?
    ensures var s := Run(c, id, false, events);
            && Slow(c, id, s) && s.maker.used == Authors(events)
            && if c.Quorum(Authors(events)) then ConfirmSent(s) else s.sent == []
  {
    hide Slow, Step, Sound, ConfirmSent;
    if events == [] {
      OpenedSlow(c, id);
    } else {
      var before := events[..|events| - 1];
      var s, e := Run(c, id, false, before), events[|events| - 1];
      SlowPathConfirmsIffQuorum(c, id, before);
      StepOrStay(c, id, false, before, e);
      if Enabled(s, e) {
        SlowStep(c, id, s, e);
        StepUses(c, id, s, e);
      }
      assert events == before + [e];
    }
    SlowMeans(c, id, Run(c, id, false, events));
  }

  lemma OpenedSlow(c: Committee, id: Digest)
    requires c.Total() > 0
    ensures Slow(c, id, Opened(false))
  {
    OpenedSound(c, id, false);
    WeightEmpty(c.authorities);
  }

  lemma SlowMeans(c: Committee, id: Digest, s: Instance)
    requires Slow(c, id, s)
    ensures if c.Quorum(s.maker.used) then ConfirmSent(s) else s.sent == []
  {}

  lemma StepOrStay(c: Committee, id: Digest, useFastPath: bool, before: seq<Event>, e: Event)
    ensures var s, s' := Run(c, id, useFastPath, before), Run(c, id, useFastPath, before + [e]);
            && (if Enabled(s, e) then s' == Step(c, id, s, e) else s' == s && Author(e) == {})
            && Authors(before + [e]) == Authors(before) + Author(e)
  {
    hide Step;
    assert (before + [e])[..|before|] == before;
  }

  /** On the fast path: one Commit as soon as the members counted hold the full stake, nothing before. */
  ghost predicate Fast(c: Committee, id: Digest, s: Instance)
  {
    && Sound(c, id, s) && OnFastPath(s)
    && (if c.StakeIn(s.maker.used) == c.Total() then CommitSent(s) else s.sent == [])
  }

  lemma FastStep(c: Committee, id: Digest, s: Instance, e: Event)
    requires Fast(c, id, s) && c.Total() > 0 && Enabled(s, e) && !e.Switch? && !e.Timer?
    ensures Fast(c, id, Step(c, id, s, e))
  {
    hide Sound, Completes;
    StepUses(c, id, s, e);
    StepSound(c, id, s, e);
    WeightMonotone(c.authorities, s.maker.used, s.maker.used + Author(e));
    WeightBounded(c.authorities, s.maker.used + Author(e));
    match e
    case Vote(author) => FastVote(c, id, s, author, OnVote(c, id, s, author));
    case CarVote(author) => FastVote(c, id, s, author, OnCarVote(c, id, s, author));
    case _ =>
  }

  lemma FastVote(c: Committee, id: Digest, s: Instance, author: PublicKey, s': Instance)
    requires Fast(c, id, s) && c.Total() > 0
    requires s' == OnVote(c, id, s, author) || s' == OnCarVote(c, id, s, author)
    ensures OnFastPath(s')
    ensures if c.StakeIn(s.maker.used + {author}) == c.Total() then CommitSent(s') else s'.sent == []
  {
    hide Sound;
    CountedKeeps(c, id, s, author);
    CountedReturns(c, id, s, author);
    VoteSends(c, id, s, author);
    CarVoteSends(c, id, s, author);
    WeightMonotone(c.authorities, s.maker.used, s.maker.used + {author});
    WeightBounded(c.authorities, s.maker.used + {author});
    if author in s.maker.used {
      assert s.maker.used + {author} == s.maker.used;
    } else if s.sent == [] {
      CompletesAtFullStake(c, id, s, author);
    }
  }

  lemma OpenedFast(c: Committee, id: Digest)
    requires c.Total() > 0
    ensures Fast(c, id, Opened(true))
  {
    OpenedSound(c, id, true);
    WeightEmpty(c.authorities);
  }

  lemma FastMeans(c: Committee, id: Digest, s: Instance)
    requires Fast(c, id, s)
    ensures if c.StakeIn(s.maker.used) == c.Total() then CommitSent(s) else s.sent == []
  {}

  /** With the fast path, as long as no timer expires: the leader sends one Commit once the distinct members that
      voted hold the full stake, and sends nothing otherwise. */
  lemma {:induction false} FastPathCommitsIffFullStake(c: Committee, id: Digest, events: seq<Event>)
    requires c.Total() > 0 && forall e | e in events :: !e.Switch? && !e.Timer?
    ensures var s := Run(c, id, true, events);
            && Fast(c, id, s) && s.maker.used == Authors(events)
            && if c.StakeIn(Authors(events)) == c.Total() then CommitSent(s) else s.sent == []
  {
    hide Fast, Step, Sound, CommitSent;
    if events == [] {
      OpenedFast(c, id);
    } else {
      var before := events[..|events| - 1];
      var s, e := Run(c, id, true, before), events[|events| - 1];
      FastPathCommitsIffFullStake(c, id, before);
      StepOrStay(c, id, true, before, e);
      if Enabled(s, e) {
        FastStep(c, id, s, e);
        StepUses(c, id, s, e);
      }
      assert events == before + [e];
    }
    FastMeans(c, id, Run(c, id, true, events));
  }
}
