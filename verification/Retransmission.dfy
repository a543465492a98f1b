/** The retransmission queue of `network/src/reliable_sender.rs`: a connection keeps messages until
    the peer acknowledges them or their sender gives them up. */
module Retransmission {

  /** The sending end of a one-shot channel, through which a message is acknowledged or given up. */
  type Handler = nat
  datatype Message = Message(data: nat, handler: Handler)

  datatype Phase = Disconnected | Flushing | Waiting

  const RETRY_DELAY: nat := 200
  const MAX_DELAY: nat := 60_000

  /** `channel`, `buffer` and `pending` are the queues of the connection. `submitted`, `acked` and
      `dropped` record what became of every message, and `wire` what was written to the current
      stream. */
  datatype State = State(
    phase: Phase, delay: nat, retry: nat,
    channel: seq<Message>, buffer: seq<Message>, pending: seq<Message>, closed: set<Handler>,
    submitted: seq<Message>, acked: seq<Message>, dropped: set<Handler>, wire: seq<Message>)
  {
    /** The messages still to be acknowledged, first those already transmitted. */
    function Queue(): seq<Message>
    {
      pending + (buffer + channel)
    }
  }

  const START: State := State(Disconnected, RETRY_DELAY, 0, [], [], [], {}, [], [], {}, [])

  function Min(a: nat, b: nat): nat
  {
    if a <= b then a else b
  }

  /** The messages whose handler is outside `gone`. */
  function Retain(ms: seq<Message>, gone: set<Handler>): seq<Message>
  {
    if ms == [] then []
    else (if ms[0].handler in gone then [] else [ms[0]]) + Retain(ms[1..], gone)
  }

  function Handlers(ms: seq<Message>): set<Handler>
  {
    set m | m in ms :: m.handler
  }

  /** The steps of the connection between two points where it waits, and those of its callers.
      `Transmit` is one round of the loop that empties the buffer. */
  datatype Event =
    | Submit(data: nat)
    | Cancel(handlers: set<Handler>)
    | Connected
    | TimerElapsed
    | Drain
    | Transmit(sent: bool)
    | Receive
    | Response(ok: bool)

  /** The end of `keep_alive`: unacknowledged messages go back to the front of the buffer. */
  function TornDown(s: State): State
  {
    s.(phase := Disconnected, buffer := s.pending + s.buffer, pending := [], wire := [])
  }

  function OnTransmit(s: State, sent: bool): State
  {
    if s.buffer == [] then s.(phase := Waiting)
    else
      var m := s.buffer[0];
      if m.handler in s.closed then s.(buffer := s.buffer[1..], dropped := s.dropped + {m.handler})
      else if sent then s.(buffer := s.buffer[1..], pending := s.pending + [m], wire := s.wire + [m])
      else TornDown(s)
  }

  function OnDrain(s: State): State
    requires s.channel != []
  {
    var buffer := s.buffer + [s.channel[0]];
    s.(channel := s.channel[1..], buffer := Retain(buffer, s.closed),
       dropped := s.dropped + Handlers(buffer) * s.closed)
  }

  function OnReceive(s: State): State
    requires s.channel != []
  {
    s.(phase := Flushing, channel := s.channel[1..], buffer := s.buffer + [s.channel[0]])
  }

  function OnResponse(s: State, ok: bool): State
  {
    if s.pending == [] || !ok then TornDown(s)
    else s.(phase := Flushing, pending := s.pending[1..], acked := s.acked + [s.pending[0]])
  }

  function OnSubmit(s: State, data: nat): State
  {
    var m := Message(data, |s.submitted|);
    s.(submitted := s.submitted + [m], channel := s.channel + [m])
  }

  function Closing(s: State, handlers: set<Handler>): State
  {
    s.(closed := s.closed + handlers)
  }

  predicate Enabled(s: State, e: Event)
  {
    match e
    case Submit(_) => true
    case Cancel(handlers) => forall h | h in handlers :: h < |s.submitted|
    case Connected => s.phase.Disconnected?
    case TimerElapsed => s.phase.Disconnected?
    case Drain => s.phase.Disconnected? && s.channel != []
    case Transmit(_) => s.phase.Flushing?
    case Receive => s.phase.Waiting? && s.channel != []
    case Response(_) => s.phase.Waiting?
  }

  function Step(s: State, e: Event): State
    requires Enabled(s, e)
  {
    match e
    case Submit(data) => OnSubmit(s, data)
    case Cancel(handlers) => Closing(s, handlers)
    case Connected => s.(phase := Flushing, delay := RETRY_DELAY, retry := 0)
    case TimerElapsed => s.(delay := Min(2 * s.delay, MAX_DELAY), retry := s.retry + 1)
    case Drain => OnDrain(s)
    case Transmit(sent) => OnTransmit(s, sent)
    case Receive => OnReceive(s)
    case Response(ok) => OnResponse(s, ok)
  }

  ghost predicate IsRun(run: seq<State>)
  {
    IsPath(run) && run[0] == START
  }

  ghost predicate IsPath(run: seq<State>)
  {
    run != [] && forall i | 0 <= i < |run| - 1 :: Follows(run[i], run[i + 1])
  }

  ghost predicate Follows(s: State, s': State)
  {
    exists e :: Enabled(s, e) && s' == Step(s, e)
  }

  // ----- What every step keeps -----

  ghost predicate Increasing(ms: seq<Message>)
  {
    forall i, j | 0 <= i < j < |ms| :: ms[i].handler < ms[j].handler
  }

  predicate IsSubmitted(submitted: seq<Message>, m: Message)
  {
    m.handler < |submitted| && submitted[m.handler] == m
  }

  /** The messages of `log` are those of `submitted` that were not dropped, in the same order. */
  ghost predicate Accounts(log: seq<Message>, submitted: seq<Message>, dropped: set<Handler>)
  {
    && Increasing(log)
    && (forall m | m in log :: IsSubmitted(submitted, m) && m.handler !in dropped)
    && (forall i | 0 <= i < |submitted| :: submitted[i].handler == i)
    && (forall i | 0 <= i < |submitted| && i !in dropped :: submitted[i] in log)
    && (forall h | h in dropped :: h < |submitted|)
  }

  ghost predicate Conserved(s: State)
  {
    && Accounts(s.acked + s.Queue(), s.submitted, s.dropped)
    && s.dropped <= s.closed
    && (s.phase.Disconnected? ==> s.pending == [])
    && (s.phase.Waiting? ==> s.buffer == [])
  }

  /** The stream carries acknowledged messages followed by pending ones. */
  ghost predicate InStep(s: State)
  {
    && (s.phase.Disconnected? ==> s.wire == [] && s.pending == [])
    && |s.pending| <= |s.wire| <= |s.acked| + |s.pending|
    && s.wire == (s.acked + s.pending)[|s.acked| + |s.pending| - |s.wire|..]
  }

  function Pow2(n: nat): nat
  {
    if n == 0 then 1 else 2 * Pow2(n - 1)
  }

  lemma {:induction false} RetainIs(ms: seq<Message>, gone: set<Handler>)
    ensures forall m :: m in Retain(ms, gone) <==> m in ms && m.handler !in gone
    ensures Increasing(ms) ==> Increasing(Retain(ms, gone))
  {
    if ms != [] {
      RetainIs(ms[1..], gone);
      assert ms == [ms[0]] + ms[1..];
      var rest := Retain(ms[1..], gone);
      if Increasing(ms) {
        forall i | 0 <= i < |rest|
          ensures ms[0].handler < rest[i].handler
        {
          assert rest[i] in ms[1..];
        }
      }
    }
  }

  lemma RestOf(a: seq<Message>)
    requires Increasing(a) && a != []
    ensures forall m :: m in a[1..] <==> m in a && m != a[0]
    ensures forall m | m in a :: a[0].handler <= m.handler
  {
    assert a == [a[0]] + a[1..];
    assert forall i | 0 <= i < |a[1..]| :: a[1..][i] == a[i + 1];
  }

  /** An increasing sequence is determined by its elements. */
  lemma {:induction false} IncreasingIsUnique(a: seq<Message>, b: seq<Message>)
    requires Increasing(a) && Increasing(b)
    requires forall m :: m in a <==> m in b
    ensures a == b
  {
    assert a != [] ==> a[0] in b;
    assert b != [] ==> b[0] in a;
    if a != [] {
      RestOf(a);
      RestOf(b);
      SameHead(a, b);
      IncreasingIsUnique(a[1..], b[1..]);
      assert a == [a[0]] + a[1..];
      assert b == [b[0]] + b[1..];
    }
  }

  lemma SameHead(a: seq<Message>, b: seq<Message>)
    requires Increasing(a) && Increasing(b) && a != [] && b != [] && a[0] in b && b[0] in a
    ensures a[0] == b[0]
  {
    var i :| 0 <= i < |b| && b[i] == a[0];
    var j :| 0 <= j < |a| && a[j] == b[0];
  }

  lemma SubmitAccounts(log: seq<Message>, submitted: seq<Message>, dropped: set<Handler>, m: Message)
    requires Accounts(log, submitted, dropped) && m.handler == |submitted|
    ensures Accounts(log + [m], submitted + [m], dropped)
  {
    assert forall k | k in log :: k.handler < |submitted|;
    forall i | 0 <= i < |submitted + [m]| && i !in dropped
      ensures (submitted + [m])[i] in log + [m]
    {
      if i < |submitted| {
        assert submitted[i] in log;
      } else {
        assert (log + [m])[|log|] == m;
      }
    }
  }

  ghost predicate Before(a: seq<Message>, b: seq<Message>)
  {
    forall m, k | m in a && k in b :: m.handler < k.handler
  }

  lemma SplitIncreasing(a: seq<Message>, b: seq<Message>)
    requires Increasing(a + b)
    ensures Increasing(a) && Increasing(b) && Before(a, b)
  {
    var log := a + b;
    assert forall i | 0 <= i < |a| :: log[i] == a[i];
    assert forall i | 0 <= i < |b| :: log[|a| + i] == b[i];
    forall m, k | m in a && k in b
      ensures m.handler < k.handler
    {
      var i :| 0 <= i < |a| && a[i] == m;
      var j :| 0 <= j < |b| && b[j] == k;
      assert log[i].handler < log[|a| + j].handler;
    }
  }

  lemma JoinIncreasing(a: seq<Message>, b: seq<Message>)
    requires Increasing(a) && Increasing(b) && Before(a, b)
    ensures Increasing(a + b)
  {}

  lemma RetainMiddle(a: seq<Message>, b: seq<Message>, c: seq<Message>, gone: set<Handler>)
    requires Increasing(a + (b + c))
    ensures Increasing(a + (Retain(b, gone) + c))
  {
    SplitIncreasing(a, b + c);
    SplitIncreasing(b, c);
    RetainIs(b, gone);
    JoinIncreasing(Retain(b, gone), c);
    JoinIncreasing(a, Retain(b, gone) + c);
  }

  /** Dropping messages whose sender gave them up, from the middle of the log. */
  lemma DropAccounts(a: seq<Message>, b: seq<Message>, c: seq<Message>, submitted: seq<Message>,
                     dropped: set<Handler>, gone: set<Handler>)
    requires Accounts(a + (b + c), submitted, dropped)
    ensures Accounts(a + (Retain(b, gone) + c), submitted, dropped + Handlers(b) * gone)
  {
    RetainMiddle(a, b, c, gone);
    RetainIs(b, gone);
    var log, kept, less := a + (b + c), a + (Retain(b, gone) + c), dropped + Handlers(b) * gone;
    forall m | m in kept
      ensures IsSubmitted(submitted, m) && m.handler !in less
    {
      assert m in log;
      if m.handler in Handlers(b) * gone {
        var k :| k in b && k.handler == m.handler;
        assert k in log;
        assert k == m;
        OnlyInMiddle(a, b, c, m);
      }
    }
    forall i | 0 <= i < |submitted| && i !in less
      ensures submitted[i] in kept
    {
      assert submitted[i] in log;
      assert submitted[i].handler == i;
      if submitted[i] in b {
        assert i in Handlers(b);
        assert submitted[i] in Retain(b, gone);
      }
    }
  }

  lemma OnlyInMiddle(a: seq<Message>, b: seq<Message>, c: seq<Message>, m: Message)
    requires Increasing(a + (b + c)) && m in b
    ensures m !in a && m !in c
  {
    SplitIncreasing(a, b + c);
    SplitIncreasing(b, c);
    assert m in b + c;
  }

  lemma SubmitConserves(s: State, data: nat)
    requires Conserved(s)
    ensures Conserved(OnSubmit(s, data))
  {
    var s' := OnSubmit(s, data);
    var m := Message(data, |s.submitted|);
    assert s'.acked + s'.Queue() == (s.acked + s.Queue()) + [m];
    SubmitAccounts(s.acked + s.Queue(), s.submitted, s.dropped, m);
  }

  lemma DrainConserves(s: State)
    requires Conserved(s) && s.phase.Disconnected? && s.channel != []
    ensures Conserved(OnDrain(s))
  {
    var s' := OnDrain(s);
    var buffer := s.buffer + [s.channel[0]];
    var a := s.acked + s.pending;
    assert s.acked + s.Queue() == a + (buffer + s'.channel);
    assert s'.acked + s'.Queue() == a + (Retain(buffer, s.closed) + s'.channel);
    DropAccounts(a, buffer, s'.channel, s.submitted, s.dropped, s.closed);
  }

  lemma TearDownConserves(s: State)
    requires Conserved(s)
    ensures Conserved(TornDown(s))
  {
    assert TornDown(s).acked + TornDown(s).Queue() == s.acked + s.Queue();
  }

  lemma TransmitConserves(s: State, sent: bool)
    requires Conserved(s) && s.phase.Flushing?
    ensures Conserved(OnTransmit(s, sent))
  {
    if s.buffer != [] {
      var m, rest := s.buffer[0], s.buffer[1..];
      assert s.buffer == [m] + rest;
      if m.handler in s.closed {
        DropFirst(s, OnTransmit(s, sent));
      } else if sent {
        assert s.acked + ((s.pending + [m]) + (rest + s.channel)) == s.acked + s.Queue();
      } else {
        TearDownConserves(s);
      }
    }
  }

  lemma DropFirst(s: State, s': State)
    requires Conserved(s) && s.buffer != [] && s.buffer[0].handler in s.closed
    requires s' == s.(buffer := s.buffer[1..], dropped := s.dropped + {s.buffer[0].handler})
    requires !s.phase.Waiting?
    ensures Conserved(s')
  {
    var m, a := s.buffer[0], s.acked + s.pending;
    assert s.acked + s.Queue() == a + ([m] + (s'.buffer + s.channel));
    DropAccounts(a, [m], s'.buffer + s.channel, s.submitted, s.dropped, {m.handler});
    assert Retain([m], {m.handler}) == [];
    assert m in [m];
    assert Handlers([m]) == {m.handler};
    assert s'.acked + s'.Queue() == a + (Retain([m], {m.handler}) + (s'.buffer + s.channel));
  }

  lemma ResponseConserves(s: State, ok: bool)
    requires Conserved(s) && s.phase.Waiting?
    ensures Conserved(OnResponse(s, ok))
  {
    if s.pending == [] || !ok {
      TearDownConserves(s);
    } else {
      MoveAcross(s.acked, s.pending, s.buffer + s.channel);
    }
  }

  lemma MoveAcross(a: seq<Message>, b: seq<Message>, c: seq<Message>)
    requires b != []
    ensures (a + [b[0]]) + (b[1..] + c) == a + (b + c)
  {
    assert b == [b[0]] + b[1..];
  }

  lemma StepConserves(s: State, e: Event)
    requires Conserved(s) && Enabled(s, e)
    ensures Conserved(Step(s, e))
  {
    match e
    case Submit(data) => SubmitConserves(s, data);
    case Drain => DrainConserves(s);
    case Transmit(sent) => TransmitConserves(s, sent);
    case Receive => assert OnReceive(s).acked + OnReceive(s).Queue() == s.acked + s.Queue();
    case Response(ok) => ResponseConserves(s, ok);
    case Connected =>
    case TimerElapsed =>
    case Cancel(handlers) =>
  }

  lemma StepKeepsInStep(s: State, e: Event)
    requires InStep(s) && Enabled(s, e)
    ensures InStep(Step(s, e))
  {
    match e
    case Transmit(sent) =>
      var s' := OnTransmit(s, sent);
      assert s.buffer != [] ==> s.acked + (s.pending + [s.buffer[0]]) == (s.acked + s.pending) + [s.buffer[0]];
    case Response(ok) =>
      var s' := OnResponse(s, ok);
      assert s'.phase.Flushing? ==> s'.acked + s'.pending == s.acked + s.pending;
    case _ =>
  }

  ghost predicate BackedOff(s: State)
  {
    s.delay == Min(RETRY_DELAY * Pow2(s.retry), MAX_DELAY)
  }

  lemma StepKeepsBackOff(s: State, e: Event)
    requires BackedOff(s) && Enabled(s, e)
    ensures BackedOff(Step(s, e))
  {
    assert Pow2(s.retry + 1) == 2 * Pow2(s.retry);
  }

  lemma StartIsOk()
    ensures Conserved(START) && InStep(START) && BackedOff(START)
  {}

  lemma {:induction false} RunIsOk(run: seq<State>)
    requires IsRun(run)
    ensures forall s | s in run :: Conserved(s) && InStep(s) && BackedOff(s)
  {
    hide Conserved, InStep, BackedOff, Step, Enabled;
    StartIsOk();
    var n := |run| - 1;
    if n > 0 {
      var s, s' := run[n - 1], run[n];
      assert IsRun(run[..n]) by {
        assert forall i | 0 <= i < n - 1 :: Follows(run[..n][i], run[..n][i + 1]) by {
          assert forall i | 0 <= i < n - 1 :: Follows(run[i], run[i + 1]);
        }
      }
      RunIsOk(run[..n]);
      assert s in run[..n] && Follows(s, s');
      var e :| Enabled(s, e) && s' == Step(s, e);
      StepConserves(s, e);
      StepKeepsInStep(s, e);
      StepKeepsBackOff(s, e);
      assert run == run[..n] + [s'];
    }
  }

  // ----- Main results -----

  /** In every reachable state the messages that wait for an acknowledgement, then the buffer, then
      the channel hold exactly the submitted messages that were neither acknowledged nor dropped, in
      the order of submission; only cancelled messages are dropped. */
  lemma NothingIsLostOrReordered(run: seq<State>, s: State)
    requires IsRun(run) && s in run
    ensures s.Queue() == Retain(s.submitted, Handlers(s.acked) + s.dropped)
    ensures s.dropped <= s.closed
  {
    RunIsOk(run);
    QueueIsRemainder(s);
  }

  lemma QueueIsRemainder(s: State)
    requires Conserved(s)
    ensures s.Queue() == Retain(s.submitted, Handlers(s.acked) + s.dropped)
  {
    var log, gone := s.acked + s.Queue(), Handlers(s.acked) + s.dropped;
    RetainIs(s.submitted, gone);
    forall m | m in s.Queue()
      ensures m in Retain(s.submitted, gone)
    {
      assert m in log;
      QueueIsUnacked(s, m);
    }
    forall m | m in Retain(s.submitted, gone)
      ensures m in s.Queue()
    {
      var i :| 0 <= i < |s.submitted| && s.submitted[i] == m;
      assert m in log;
      assert m in s.acked ==> m.handler in Handlers(s.acked);
    }
    SplitIncreasing(s.acked, s.Queue());
    IncreasingIsUnique(s.Queue(), Retain(s.submitted, gone));
  }

  lemma QueueIsUnacked(s: State, m: Message)
    requires Conserved(s) && m in s.Queue()
    ensures m.handler !in Handlers(s.acked)
  {
    SplitIncreasing(s.acked, s.Queue());
  }

  /** Messages are acknowledged at most once and in the order of submission, and a message that is
      not acknowledged yet was submitted after all those that are. */
  lemma AcknowledgementsFollowSubmissions(run: seq<State>, s: State)
    requires IsRun(run) && s in run
    ensures forall i, j | 0 <= i < j < |s.acked| :: s.acked[i].handler < s.acked[j].handler
    ensures forall m, k | m in s.acked && k in s.Queue() :: m.handler < k.handler
  {
    RunIsOk(run);
    SplitIncreasing(s.acked, s.Queue());
  }

  // ----- Replies -----

  /** A run together with the events that lead from each state to the next. */
  ghost predicate IsHistory(run: seq<State>, events: seq<Event>)
  {
    && |run| == |events| + 1 && run[0] == START
    && forall i | 0 <= i < |events| :: Enabled(run[i], events[i]) && run[i + 1] == Step(run[i], events[i])
  }

  /** The good replies read since the connection was last lost, up to the `n`-th state. */
  function RepliesRead(run: seq<State>, events: seq<Event>, n: nat): nat
    requires |run| == |events| + 1 && n < |run|
  {
    if n == 0 || run[n].phase.Disconnected? then 0
    else RepliesRead(run, events, n - 1) + if events[n - 1] == Response(true) then 1 else 0
  }

  /** All good replies, but for those that made the connection end. */
  function RepliesAccepted(run: seq<State>, events: seq<Event>, n: nat): nat
    requires |run| == |events| + 1 && n < |run|
  {
    if n == 0 then 0
    else
      var accepted := events[n - 1] == Response(true) && !run[n].phase.Disconnected?;
      RepliesAccepted(run, events, n - 1) + if accepted then 1 else 0
  }

  /** How many of the messages on the stream have been answered, and how many messages ever. */
  ghost predicate Answered(s: State, replies: nat, accepted: nat)
  {
    |s.wire| == |s.pending| + replies && |s.acked| == accepted
  }

  lemma StepAnswers(s: State, e: Event, replies: nat, accepted: nat)
    requires Enabled(s, e) && InStep(s) && Answered(s, replies, accepted)
    ensures var s', good := Step(s, e), if e == Response(true) then 1 else 0;
            if s'.phase.Disconnected? then Answered(s', 0, accepted) else Answered(s', replies + good, accepted + good)
  {
    hide Retain, Handlers, Min;
  }

  lemma {:induction false} HistoryAnswers(run: seq<State>, events: seq<Event>, n: nat)
    requires IsHistory(run, events) && n < |run|
    ensures InStep(run[n]) && Answered(run[n], RepliesRead(run, events, n), RepliesAccepted(run, events, n))
  {
    hide Step, InStep, Answered;
    if n == 0 {
      StartAnswers();
    } else {
      HistoryAnswers(run, events, n - 1);
      StepKeepsInStep(run[n - 1], events[n - 1]);
      StepAnswers(run[n - 1], events[n - 1],
                  RepliesRead(run, events, n - 1), RepliesAccepted(run, events, n - 1));
    }
  }

  lemma StartAnswers()
    ensures InStep(START) && Answered(START, 0, 0)
  {}

  /** The n-th good reply on a stream acknowledges the n-th message written to it, however often the connection
      was lost before: after `k` replies exactly the first `k` messages of the stream are acknowledged, and all
      others of it still wait. Every reply accepted acknowledges one message. */
  lemma {:induction false} RepliesMatchTheStream(run: seq<State>, events: seq<Event>, n: nat)
    requires IsHistory(run, events) && n < |run|
    ensures var s, k := run[n], RepliesRead(run, events, n);
            && k <= |s.wire| && k <= |s.acked|
            && s.acked[|s.acked| - k..] == s.wire[..k] && s.pending == s.wire[k..]
            && |s.acked| == RepliesAccepted(run, events, n)
  {
    hide RepliesRead, RepliesAccepted, Step, Enabled;
    HistoryAnswers(run, events, n);
    SplitStream(run[n].acked, run[n].pending, run[n].wire, RepliesRead(run, events, n));
  }

  lemma SplitStream(acked: seq<Message>, pending: seq<Message>, wire: seq<Message>, k: nat)
    requires |wire| == |pending| + k && k <= |acked| && wire == (acked + pending)[|acked| - k..]
    ensures acked[|acked| - k..] == wire[..k] && pending == wire[k..]
  {
    assert wire == acked[|acked| - k..] + pending;
  }

  /** A reply ends the stream exactly if it is bad or all messages of the stream were answered before. */
  lemma {:induction false} ReplyEndsStreamIff(run: seq<State>, events: seq<Event>, n: nat, ok: bool)
    requires IsHistory(run, events) && n < |events| && events[n] == Response(ok)
    ensures run[n + 1].phase.Disconnected? <==> !ok || RepliesRead(run, events, n) == |run[n].wire|
    ensures run[n + 1].phase.Disconnected? ==> run[n + 1].acked == run[n].acked
  {
    HistoryAnswers(run, events, n);
  }

  /** The waiting time doubles with every failed attempt, up to a maximum. */
  lemma DelayDoublesUpToAMaximum(run: seq<State>, s: State)
    requires IsRun(run) && s in run
    ensures s.delay == Min(RETRY_DELAY * Pow2(s.retry), MAX_DELAY)
  {
    RunIsOk(run);
  }

  // ----- The connection itself -----

  /** What happens to one message of the buffer: the senders that give up before it is taken, and
      whether writing it succeeds. */
  datatype Attempt = Attempt(cancelled: set<Handler>, sent: bool)

  /** The loop that empties the buffer, until it is empty or a write fails. */
  function TransmitAll(s: State, attempts: seq<Attempt>): State
    requires |s.buffer| <= |attempts|
    decreases |attempts|
  {
    if s.buffer == [] then OnTransmit(s, true)
    else
      var s' := OnTransmit(Closing(s, attempts[0].cancelled), attempts[0].sent);
      if s'.phase.Disconnected? then s' else TransmitAll(s', attempts[1..])
  }

  class Connection {
    const retryDelay: nat
    var phase: Phase
    var delay: nat
    var retry: nat
    var receiver: seq<Message>
    var buffer: seq<Message>
    var pendingReplies: seq<Message>
    var closed: set<Handler>
    ghost var submitted: seq<Message>
    ghost var acked: seq<Message>
    ghost var dropped: set<Handler>
    ghost var wire: seq<Message>

    ghost function View(): State
      reads this
    {
      State(phase, delay, retry, receiver, buffer, pendingReplies, closed, submitted, acked, dropped, wire)
    }

    constructor ()
      ensures View() == START && retryDelay == RETRY_DELAY
    {
      retryDelay := RETRY_DELAY;
      phase, delay, retry := Disconnected, RETRY_DELAY, 0;
      receiver, buffer, pendingReplies, closed := [], [], [], {};
      submitted, acked, dropped, wire := [], [], {}, [];
    }

    /** A caller hands over a message. */
    method Submit(data: nat, handler: Handler)
      requires handler == |submitted|
      modifies this`receiver, this`submitted
      ensures View() == Step(old(View()), Event.Submit(data))
    {
      receiver := receiver + [Message(data, handler)];
      submitted := submitted + [Message(data, handler)];
    }

    /** Callers give up messages. */
    method Cancel(handlers: set<Handler>)
      requires forall h | h in handlers :: h < |submitted|
      modifies this`closed
      ensures View() == Step(old(View()), Event.Cancel(handlers))
    {
      closed := closed + handlers;
    }

    /** The connection is established. */
    method Connect()
      requires phase.Disconnected? && retryDelay == RETRY_DELAY
      modifies this`phase, this`delay, this`retry
      ensures View() == Step(old(View()), Connected)
    {
      phase, delay, retry := Flushing, retryDelay, 0;
    }

    /** The waiting time before the next attempt is over. */
    method Retry()
      requires phase.Disconnected?
      modifies this`delay, this`retry
      ensures View() == Step(old(View()), TimerElapsed)
    {
      delay := Min(2 * delay, MAX_DELAY);
      retry := retry + 1;
    }

    /** While waiting for a connection, a message moves from the channel to the buffer, which is
        cleared of cancelled messages. */
    method DrainChannel()
      requires phase.Disconnected? && receiver != []
      modifies this`receiver, this`buffer, this`dropped
      ensures View() == Step(old(View()), Drain)
      ensures forall m | m in buffer :: m.handler !in closed
    {
      buffer := buffer + [receiver[0]];
      receiver := receiver[1..];
      dropped := dropped + Handlers(buffer) * closed;
      RetainIs(buffer, closed);
      buffer := Retain(buffer, closed);
    }

    /** Writes the messages of the buffer, in order. */
    method TransmitBuffer(attempts: seq<Attempt>)
      requires phase.Flushing? && |buffer| <= |attempts|
      modifies this
      ensures View() == TransmitAll(old(View()), attempts)
    {
      var i := 0;
      while buffer != []
        invariant phase.Flushing? && i <= |attempts| && |buffer| <= |attempts| - i
        invariant TransmitAll(View(), attempts[i..]) == TransmitAll(old(View()), attempts)
        decreases |buffer|
      {
        closed := closed + attempts[i].cancelled;
        var m := buffer[0];
        buffer := buffer[1..];
        assert attempts[i..][1..] == attempts[i + 1..];
        if m.handler in closed {
          dropped := dropped + {m.handler};
        } else if attempts[i].sent {
          pendingReplies := pendingReplies + [m];
          wire := wire + [m];
        } else {
          buffer := [m] + buffer;
          TearDown();
          return;
        }
        i := i + 1;
      }
      phase := Waiting;
    }

    method Receive()
      requires phase.Waiting? && receiver != []
      modifies this`phase, this`receiver, this`buffer
      ensures View() == Step(old(View()), Event.Receive)
    {
      buffer := buffer + [receiver[0]];
      receiver := receiver[1..];
      phase := Flushing;
    }

    /** A reply arrives, or reading fails. */
    method HandleResponse(ok: bool)
      requires phase.Waiting?
      modifies this
      ensures View() == Step(old(View()), Response(ok))
    {
      if pendingReplies == [] {
        TearDown();
        return;
      }
      var m := pendingReplies[0];
      pendingReplies := pendingReplies[1..];
      if ok {
        acked := acked + [m];
        phase := Flushing;
      } else {
        pendingReplies := [m] + pendingReplies;
        TearDown();
      }
    }

    /** Moves the unacknowledged messages back to the front of the buffer, last one first. */
    method TearDown()
      modifies this`phase, this`buffer, this`pendingReplies, this`wire
      ensures View() == TornDown(old(View()))
    {
      while pendingReplies != []
        invariant pendingReplies + buffer == old(pendingReplies + buffer)
        decreases |pendingReplies|
      {
        var last := |pendingReplies| - 1;
        var m := pendingReplies[last];
        pendingReplies := pendingReplies[..last];
        buffer := [m] + buffer;
      }
      phase := Disconnected;
      wire := [];
    }
  }

  /** Emptying the buffer is a run of single steps, with cancellations between them. */
  lemma {:induction false} TransmitAllIsAPath(s: State, attempts: seq<Attempt>) returns (run: seq<State>)
    requires s.phase.Flushing? && |s.buffer| <= |attempts|
    requires forall a | a in attempts :: forall h | h in a.cancelled :: h < |s.submitted|
    ensures IsPath(run) && run[0] == s && run[|run| - 1] == TransmitAll(s, attempts)
    decreases |attempts|
  {
    if s.buffer == [] {
      FollowsBy(s, Transmit(true));
      run := [s, OnTransmit(s, true)];
    } else {
      var s1 := Closing(s, attempts[0].cancelled);
      var s2 := OnTransmit(s1, attempts[0].sent);
      FollowsBy(s, Cancel(attempts[0].cancelled));
      FollowsBy(s1, Transmit(attempts[0].sent));
      if s2.phase.Disconnected? {
        run := [s, s1, s2];
      } else {
        var rest := TransmitAllIsAPath(s2, attempts[1..]);
        run := [s, s1] + rest;
      }
    }
  }

  /** The loop ends with an empty buffer or a failed write. */
  lemma {:induction false} TransmitAllEnds(s: State, attempts: seq<Attempt>)
    requires s.phase.Flushing? && |s.buffer| <= |attempts|
    ensures var s' := TransmitAll(s, attempts);
            s'.phase.Disconnected? || (s'.phase.Waiting? && s'.buffer == [])
    ensures (forall a | a in attempts :: a.sent) ==> TransmitAll(s, attempts).phase.Waiting?
    decreases |attempts|
  {
    if s.buffer != [] {
      var s2 := OnTransmit(Closing(s, attempts[0].cancelled), attempts[0].sent);
      if !s2.phase.Disconnected? {
        TransmitAllEnds(s2, attempts[1..]);
      }
    }
  }

  /** Writing the first message of the buffer, or skipping it because it is cancelled. */
  lemma TransmitFirst(s: State)
    requires s.phase.Flushing? && s.buffer != []
    ensures var s', open := OnTransmit(s, true), Retain(s.buffer, s.closed);
            && s'.phase.Flushing? && s'.buffer == s.buffer[1..] && s'.closed == s.closed
            && s'.wire + Retain(s'.buffer, s.closed) == s.wire + open
            && s'.pending + Retain(s'.buffer, s.closed) == s.pending + open
  {}

  lemma ClosingNothing(s: State, handlers: set<Handler>)
    requires handlers <= s.closed
    ensures Closing(s, handlers) == s
  {
    assert s.closed + handlers == s.closed;
  }

  /** If no write fails and nobody gives up meanwhile, everything in the buffer that is not cancelled is on the
      stream, in order, and waits for its reply. */
  lemma {:induction false} TransmitAllWrites(s: State, attempts: seq<Attempt>)
    requires s.phase.Flushing? && |s.buffer| <= |attempts|
    requires forall a | a in attempts :: a.sent && a.cancelled <= s.closed
    ensures var s', open := TransmitAll(s, attempts), Retain(s.buffer, s.closed);
            s'.wire == s.wire + open && s'.pending == s.pending + open && s'.phase.Waiting? && s'.buffer == []
    decreases |attempts|
  {
    hide Retain, OnTransmit;
    if s.buffer == [] {
      TransmitNothing(s);
    } else {
      ClosingNothing(s, attempts[0].cancelled);
      TransmitFirst(s);
      TransmitAllWrites(OnTransmit(s, true), attempts[1..]);
    }
  }

  lemma TransmitNothing(s: State)
    requires s.buffer == []
    ensures OnTransmit(s, true) == s.(phase := Waiting) && Retain(s.buffer, s.closed) == []
  {}

  lemma FollowsBy(s: State, e: Event)
    requires Enabled(s, e)
    ensures Follows(s, Step(s, e))
  {}

  // ----- Nothing gets stuck -----

  /** What to let happen next for the queues to empty: connect, write, answer, or take the next message. */
  function NextEvent(s: State): Event
    requires s.Queue() != []
  {
    if s.phase.Disconnected? then Connected
    else if s.phase.Flushing? then Transmit(true)
    else if s.pending != [] then Response(true)
    else Receive
  }

  /** How far the queues are from being empty. */
  function Distance(s: State): nat
  {
    5 * |s.channel| + 3 * |s.buffer| + 2 * |s.pending|
    + match s.phase case Disconnected => 2 case Flushing => 1 case Waiting => 0
  }

  lemma NextEventHelps(s: State)
    requires s.Queue() != [] && (s.phase.Waiting? ==> s.buffer == [])
    ensures Enabled(s, NextEvent(s))
    ensures var s' := Step(s, NextEvent(s));
            && Distance(s') < Distance(s) && (s'.phase.Waiting? ==> s'.buffer == [])
            && s'.submitted == s.submitted && s'.closed == s.closed
  {
    hide Retain, Handlers, Min;
  }

  /** From every state the queues can be emptied by a connection that works and a peer that answers. */
  lemma {:induction false} QueuesCanEmpty(s: State) returns (run: seq<State>)
    requires s.phase.Waiting? ==> s.buffer == []
    ensures IsPath(run) && run[0] == s
    ensures var s' := run[|run| - 1]; s'.Queue() == [] && s'.submitted == s.submitted && s'.closed == s.closed
    decreases Distance(s)
  {
    hide Step, Enabled;
    if s.Queue() == [] {
      run := [s];
    } else {
      NextEventHelps(s);
      var s' := Step(s, NextEvent(s));
      FollowsBy(s, NextEvent(s));
      var rest := QueuesCanEmpty(s');
      run := [s] + rest;
    }
  }

  lemma {:induction false} RunThenPath(run: seq<State>, rest: seq<State>)
    requires IsRun(run) && IsPath(rest) && rest[0] == run[|run| - 1]
    ensures IsRun(run + rest[1..])
  {
    var all := run + rest[1..];
    forall i | 0 <= i < |all| - 1
      ensures Follows(all[i], all[i + 1])
    {
      if i >= |run| - 1 {
        assert all[i] == rest[i - (|run| - 1)];
        assert all[i + 1] == rest[i + 1 - (|run| - 1)];
      }
    }
  }

  /** No message gets stuck: every run can be continued, without submitting or cancelling anything more, until
      each message has been acknowledged that was not cancelled. */
  lemma EveryRunCanBeFinished(run: seq<State>) returns (rest: seq<State>)
    requires IsRun(run)
    ensures IsPath(rest) && rest[0] == run[|run| - 1] && IsRun(run + rest[1..])
    ensures var s, s' := run[|run| - 1], rest[|rest| - 1];
            && s'.submitted == s.submitted && s'.closed == s.closed
            && forall m | m in s.submitted && m.handler !in s.closed :: m in s'.acked
  {
    hide Step, Enabled, Follows;
    var s := run[|run| - 1];
    RunIsOk(run);
    assert s in run && Conserved(s);
    rest := QueuesCanEmpty(s);
    RunThenPath(run, rest);
    var s' := rest[|rest| - 1];
    LastOfBoth(run, rest);
    RunIsOk(run + rest[1..]);
    assert Conserved(s');
    forall m | m in s.submitted && m.handler !in s.closed
      ensures m in s'.acked
    {
      var i :| 0 <= i < |s'.submitted| && s'.submitted[i] == m;
      assert s'.submitted[i] in s'.acked + s'.Queue();
    }
  }

  lemma LastOfBoth(run: seq<State>, rest: seq<State>)
    requires run != [] && rest != [] && rest[0] == run[|run| - 1]
    ensures rest[|rest| - 1] in run + rest[1..]
  {
    var all := run + rest[1..];
    assert all[|all| - 1] == rest[|rest| - 1];
  }
}
