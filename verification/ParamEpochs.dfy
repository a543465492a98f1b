/** Epoch-based parameter updates of `primary/src/core.rs`: signals make an update pending, and the
    commit of the right slot applies it. */
module ParamEpochs {
  import opened Arithmetic
  import opened Wrappers

  type Slot = nat
  type Epoch = nat
  /** The content of the parameters file. */
  type Params = nat

  datatype Config = Config(epochSlots: nat, appliedBegin: nat) {

    /** The configurations in which updates wait for a slot. */
    predicate Deferred()
    {
      1 <= appliedBegin <= epochSlots
    }

    predicate Immediate()
    {
      epochSlots == 0 || appliedBegin == 0
    }

    function EpochIndex(slot: Slot): Epoch
    {
      if epochSlots == 0 || slot == 0 then 0 else (slot - 1) / epochSlots
    }

    function EpochSlotIndex(slot: Slot): Option<nat>
    {
      if epochSlots == 0 || slot == 0 then None else Some((slot - 1) % epochSlots + 1)
    }
  }

  /** An update that was taken: the epoch it was pending for, the slot whose commit triggered it,
      and the values, if any could be read. */
  datatype Update = Update(epoch: Epoch, slot: Slot, params: Option<Params>)

  datatype State = State(
    lastCommittedSlot: Slot, signalEpoch: Epoch, pendingEpoch: Option<Epoch>, pendingParams: Option<Params>,
    /** Pending updates that were applied, and updates applied at once by a signal. */
    applied: seq<Update>, immediate: seq<Option<Params>>)

  const INITIAL: State := State(0, 0, None, None, [], [])

  function Later(a: nat, b: nat): nat
  {
    if a >= b then a else b
  }

  function Capture(s: State, file: Option<Params>): State
  {
    if s.pendingParams.Some? then s else s.(pendingParams := file)
  }

  /** `handle_param_update_signal`; a payload without an epoch counts for the expected one. */
  function OnSignal(c: Config, s: State, payload: Option<Epoch>, file: Option<Params>): State
  {
    var epoch := if payload.Some? then payload.value else s.signalEpoch;
    var current := c.EpochIndex(s.lastCommittedSlot);
    if c.Immediate() then s.(signalEpoch := epoch + 1, immediate := s.immediate + [file])
    else if epoch < s.signalEpoch then s
    else if s.pendingEpoch.Some? && epoch <= s.pendingEpoch.value then s
    else
      var s1 := if s.pendingEpoch.Some? then s.(pendingEpoch := None, pendingParams := None) else s;
      if epoch < current then s1.(signalEpoch := Later(s1.signalEpoch, epoch + 1))
      else if epoch > current then Capture(s1.(signalEpoch := epoch, pendingEpoch := Some(epoch)), file)
      else
        var position := c.EpochSlotIndex(s.lastCommittedSlot);
        if position.None? then s1
        else if position.value >= c.appliedBegin then s1.(signalEpoch := epoch + 1)
        else Capture(s1.(pendingEpoch := Some(epoch)), file)
  }

  function Apply(s: State, slot: Slot, file: Option<Params>): State
    requires s.pendingEpoch.Some?
  {
    var params := if s.pendingParams.Some? then s.pendingParams else file;
    s.(pendingEpoch := None, pendingParams := None, signalEpoch := s.signalEpoch + 1,
       applied := s.applied + [Update(s.pendingEpoch.value, slot, params)])
  }

  /** The part of `process_commit_message` that concerns parameters. */
  function OnCommit(c: Config, s: State, slot: Slot, file: Option<Params>): State
  {
    var s1 := s.(lastCommittedSlot := Later(slot, s.lastCommittedSlot));
    if s1.pendingEpoch.None? then s1
    else if c.Immediate() then Apply(s1, slot, file)
    else if c.EpochSlotIndex(slot) == Some(c.appliedBegin) && c.EpochIndex(slot) == s1.pendingEpoch.value then
      Apply(s1, slot, file)
    else s1
  }

  datatype Event = Signal(payload: Option<Epoch>, file: Option<Params>) | Commit(slot: Slot, current: Option<Params>)

  function Step(c: Config, s: State, e: Event): State
  {
    match e
    case Signal(payload, file) => OnSignal(c, s, payload, file)
    case Commit(slot, current) => OnCommit(c, s, slot, current)
  }

  function Run(c: Config, events: seq<Event>): State
  {
    if events == [] then INITIAL else Step(c, Run(c, events[..|events| - 1]), events[|events| - 1])
  }

  /** Applied updates have growing epochs, sit at their epoch's slot, and lie in the past; a pending
      update is for a later epoch than all of them. */
  ghost predicate Ordered(c: Config, s: State)
  {
    && (forall i, j | 0 <= i < j < |s.applied| :: s.applied[i].epoch < s.applied[j].epoch)
    && (forall u | u in s.applied :: u.slot == u.epoch * c.epochSlots + c.appliedBegin <= s.lastCommittedSlot)
    && (s.pendingEpoch.Some? ==> forall u | u in s.applied :: u.epoch < s.pendingEpoch.value)
  }

  /** The slot at position `appliedBegin` of an epoch. */
  lemma {:induction false} SlotOfEpoch(c: Config, slot: Slot, epoch: Epoch)
    requires c.Deferred()
    ensures c.EpochSlotIndex(slot) == Some(c.appliedBegin) && c.EpochIndex(slot) == epoch
       <==> slot == epoch * c.epochSlots + c.appliedBegin
  {
    var n := c.epochSlots;
    if slot == epoch * n + c.appliedBegin {
      DivModUnique(slot - 1, n, epoch, c.appliedBegin - 1);
    }
  }

  /** A slot at or after position `appliedBegin` of an epoch belongs to that epoch or a later one. */
  lemma EpochReached(c: Config, slot: Slot, epoch: Epoch)
    requires c.Deferred() && epoch * c.epochSlots + c.appliedBegin <= slot
    ensures epoch <= c.EpochIndex(slot)
    ensures epoch == c.EpochIndex(slot) ==> c.EpochSlotIndex(slot).value >= c.appliedBegin
  {
    var n, q := c.epochSlots, c.EpochIndex(slot);
    assert slot - 1 == q * n + (slot - 1) % n;
    if q < epoch {
      MultiplesGrow(n, q, epoch);
    }
  }

  /** A signal makes an update pending only for an epoch whose slot to apply at has not been passed. */
  lemma {:induction false} SignalPends(c: Config, s: State, payload: Option<Epoch>, file: Option<Params>, epoch: Epoch)
    requires c.Deferred()
    requires OnSignal(c, s, payload, file).pendingEpoch == Some(epoch) && s.pendingEpoch != Some(epoch)
    ensures s.lastCommittedSlot < epoch * c.epochSlots + c.appliedBegin
  {
    if epoch * c.epochSlots + c.appliedBegin <= s.lastCommittedSlot {
      EpochReached(c, s.lastCommittedSlot, epoch);
    }
  }

  lemma SignalChangesOnlyPending(c: Config, s: State, payload: Option<Epoch>, file: Option<Params>)
    requires c.Deferred()
    ensures var s' := OnSignal(c, s, payload, file);
            s'.applied == s.applied && s'.lastCommittedSlot == s.lastCommittedSlot
  {}

  lemma EpochOrderIsSlotOrder(c: Config, a: Epoch, b: Epoch)
    requires a * c.epochSlots < b * c.epochSlots
    ensures a < b
  {
    if b < a {
      MultiplesGrow(c.epochSlots, b, a);
    }
  }

  lemma SignalKeepsOrder(c: Config, s: State, payload: Option<Epoch>, file: Option<Params>)
    requires c.Deferred() && Ordered(c, s)
    ensures Ordered(c, OnSignal(c, s, payload, file))
  {
    var s' := OnSignal(c, s, payload, file);
    SignalChangesOnlyPending(c, s, payload, file);
    if s'.pendingEpoch.Some? && s'.pendingEpoch != s.pendingEpoch {
      SignalPends(c, s, payload, file, s'.pendingEpoch.value);
      forall u | u in s.applied
        ensures u.epoch < s'.pendingEpoch.value
      {
        EpochOrderIsSlotOrder(c, u.epoch, s'.pendingEpoch.value);
      }
    }
  }

  lemma CommitKeepsOrder(c: Config, s: State, slot: Slot, file: Option<Params>)
    requires c.Deferred() && Ordered(c, s)
    ensures Ordered(c, OnCommit(c, s, slot, file))
  {
    if s.pendingEpoch.Some? {
      SlotOfEpoch(c, slot, s.pendingEpoch.value);
    }
  }

  /** A commit applies the pending update exactly at slot epoch * epoch_slots + applied_begin. */
  lemma {:induction false} AppliedExactlyAtItsSlot(c: Config, s: State, slot: Slot, file: Option<Params>)
    requires c.Deferred()
    ensures OnCommit(c, s, slot, file).applied != s.applied
       <==> s.pendingEpoch.Some? && slot == s.pendingEpoch.value * c.epochSlots + c.appliedBegin
  {
    if s.pendingEpoch.Some? {
      SlotOfEpoch(c, slot, s.pendingEpoch.value);
      assert |(s.applied + [Update(s.pendingEpoch.value, slot, file)])| == |s.applied| + 1;
    }
  }

  lemma {:induction false} RunIsOrdered(c: Config, events: seq<Event>)
    requires c.Deferred()
    ensures Ordered(c, Run(c, events))
  {
    if events != [] {
      var s := Run(c, events[..|events| - 1]);
      RunIsOrdered(c, events[..|events| - 1]);
      match events[|events| - 1]
      case Signal(payload, file) => SignalKeepsOrder(c, s, payload, file);
      case Commit(slot, current) => CommitKeepsOrder(c, s, slot, current);
    }
  }

  /** Over every interleaving of signals and commits, in any order of slots: pending updates are
      applied in strictly increasing epoch order, at most once per epoch, and only at the slot of
      their epoch. */
  lemma {:induction false} UpdatesApplyInOrderOncePerEpoch(c: Config, events: seq<Event>)
    requires c.Deferred()
    ensures var applied := Run(c, events).applied;
            && (forall i, j | 0 <= i < j < |applied| :: applied[i].epoch < applied[j].epoch)
            && (forall i | 0 <= i < |applied| ::
                  applied[i].slot == applied[i].epoch * c.epochSlots + c.appliedBegin)
  {
    RunIsOrdered(c, events);
  }

  /** In every other configuration no pending update is ever applied: either signals act at once, or
      the position to apply at lies outside every epoch. */
  lemma {:induction false} OtherConfigurationsNeverApply(c: Config, events: seq<Event>)
    requires !c.Deferred()
    ensures Run(c, events).applied == []
    ensures c.Immediate() ==> Run(c, events).pendingEpoch == None
  {
    if events != [] {
      OtherConfigurationsNeverApply(c, events[..|events| - 1]);
    }
  }

  lemma RunAppend(c: Config, events: seq<Event>, e: Event)
    ensures Run(c, events + [e]) == Step(c, Run(c, events), e)
  {
    assert (events + [e])[..|events|] == events;
  }

  /** A signal for epoch 1 at the start makes an update pending, unless signals act at once. */
  lemma FirstSignalPends(c: Config, file: Option<Params>)
    requires !c.Immediate()
    ensures var s := Run(c, [Signal(Some(1), file)]);
            s.pendingEpoch == Some(1) && s.pendingParams == file && s.applied == []
  {
    RunAppend(c, [], Signal(Some(1), file));
    assert [] + [Signal(Some(1), file)] == [Signal(Some(1), file)];
  }

  /** Pending updates get applied in exactly those configurations whose position to apply at lies inside
      an epoch: there some run applies one, in all others none does. */
  lemma SomeRunAppliesIffDeferred(c: Config)
    ensures (exists events :: Run(c, events).applied != []) <==> c.Deferred()
  {
    if c.Deferred() {
      var slot := 1 * c.epochSlots + c.appliedBegin;
      var first := [Signal(Some(1), None)];
      FirstSignalPends(c, None);
      AppliedExactlyAtItsSlot(c, Run(c, first), slot, None);
      RunAppend(c, first, Commit(slot, None));
      assert Run(c, first + [Commit(slot, None)]).applied != [];
    } else {
      forall events
        ensures Run(c, events).applied == []
      {
        OtherConfigurationsNeverApply(c, events);
      }
    }
  }

  /** The position to apply at lies beyond the end of the epochs. */
  predicate Stuck(c: Config)
  {
    1 <= c.epochSlots < c.appliedBegin
  }

  /** An update can be stuck, that is pend where none is ever applied, exactly in these configurations. */
  lemma UpdatesGetStuckIff(c: Config)
    ensures (exists events :: Run(c, events).pendingEpoch.Some?) && (forall events :: Run(c, events).applied == [])
       <==> Stuck(c)
  {
    SomeRunAppliesIffDeferred(c);
    if c.Immediate() {
      forall events
        ensures Run(c, events).pendingEpoch == None
      {
        OtherConfigurationsNeverApply(c, events);
      }
    } else {
      FirstSignalPends(c, None);
      assert Run(c, [Signal(Some(1), None)]).pendingEpoch.Some?;
    }
  }

  lemma CommitsLeaveStuckUpdate(c: Config, s: State, slot: Slot, current: Option<Params>)
    requires Stuck(c)
    ensures var s' := OnCommit(c, s, slot, current);
            s'.pendingEpoch == s.pendingEpoch && s'.pendingParams == s.pendingParams && s'.applied == s.applied
  {}

  /** A stuck update: the one for epoch 1, signalled at the start, still pends after any commits. */
  lemma {:induction false} StuckUpdatePendsForEver(c: Config, file: Option<Params>, commits: seq<Event>)
    requires Stuck(c) && forall e | e in commits :: e.Commit?
    ensures var s := Run(c, [Signal(Some(1), file)] + commits);
            s.pendingEpoch == Some(1) && s.pendingParams == file && s.applied == []
  {
    var first := [Signal(Some(1), file)];
    if commits == [] {
      FirstSignalPends(c, file);
      assert first + commits == first;
    } else {
      var before, e := commits[..|commits| - 1], commits[|commits| - 1];
      StuckUpdatePendsForEver(c, file, before);
      RunAppend(c, first + before, e);
      CommitsLeaveStuckUpdate(c, Run(c, first + before), e.slot, e.current);
      assert first + commits == (first + before) + [e];
    }
  }

  // ---- The values that updates carry ----

  function SignalledEpoch(s: State, payload: Option<Epoch>): Epoch
  {
    if payload.Some? then payload.value else s.signalEpoch
  }

  /** The slot of the epoch is still to come. Before the first commit epoch 0 does not count as such. */
  predicate StillToCome(c: Config, s: State, epoch: Epoch)
  {
    s.lastCommittedSlot < epoch * c.epochSlots + c.appliedBegin && (epoch > 0 || s.lastCommittedSlot > 0)
  }

  predicate Stale(s: State, epoch: Epoch)
  {
    epoch < s.signalEpoch || (s.pendingEpoch.Some? && epoch <= s.pendingEpoch.value)
  }

  /** Nothing is left of an update that no longer pends. */
  predicate NoLeftovers(s: State)
  {
    s.pendingEpoch.None? ==> s.pendingParams.None?
  }

  lemma StillToComeIff(c: Config, s: State, epoch: Epoch)
    requires c.Deferred()
    ensures var last := s.lastCommittedSlot;
            StillToCome(c, s, epoch) <==>
              || epoch > c.EpochIndex(last)
              || (epoch == c.EpochIndex(last) && last > 0 && c.EpochSlotIndex(last).value < c.appliedBegin)
  {
    var n, last, current := c.epochSlots, s.lastCommittedSlot, c.EpochIndex(s.lastCommittedSlot);
    if epoch * n + c.appliedBegin <= last {
      EpochReached(c, last, epoch);
    } else if last > 0 {
      assert last == current * n + c.EpochSlotIndex(last).value;
      if epoch < current {
        MultiplesGrow(n, epoch, current);
      }
    }
  }

  /** The epoch expected next: signalling ahead sets it, and an epoch whose slot was passed is not expected
      again. */
  function ExpectedAfter(c: Config, s: State, epoch: Epoch): Epoch
  {
    if epoch * c.epochSlots + c.appliedBegin <= s.lastCommittedSlot then epoch + 1
    else if epoch > c.EpochIndex(s.lastCommittedSlot) then epoch
    else s.signalEpoch
  }

  /** Exactly what a signal does where updates wait for a slot. One that is stale changes nothing. Any other
      makes an update with the content of the file pend, in place of an earlier one, if and only if its slot is
      still to come; otherwise nothing pends after it, and an epoch whose slot was passed is stale from then on. */
  lemma SignalEffect(c: Config, s: State, payload: Option<Epoch>, file: Option<Params>)
    requires c.Deferred() && NoLeftovers(s)
    ensures var s', epoch := OnSignal(c, s, payload, file), SignalledEpoch(s, payload);
            if Stale(s, epoch) then s' == s
            else
              && s'.pendingEpoch == (if StillToCome(c, s, epoch) then Some(epoch) else None)
              && s'.pendingParams == (if StillToCome(c, s, epoch) then file else None)
              && s'.applied == s.applied && s'.immediate == s.immediate && s'.lastCommittedSlot == s.lastCommittedSlot
              && s'.signalEpoch == ExpectedAfter(c, s, epoch)
  {
    StillToComeIff(c, s, SignalledEpoch(s, payload));
  }

  lemma {:induction false} RunHasNoLeftovers(c: Config, events: seq<Event>)
    ensures NoLeftovers(Run(c, events))
  {
    if events != [] {
      RunHasNoLeftovers(c, events[..|events| - 1]);
    }
  }

  /** The update for `epoch` pends since the `i`-th event, a signal, and has not been touched after it. */
  ghost predicate PendingSince(c: Config, events: seq<Event>, i: nat, epoch: Epoch)
  {
    && i < |events| && events[i].Signal?
    && SignalledEpoch(Run(c, events[..i]), events[i].payload) == epoch
    && Run(c, events[..i]).pendingEpoch != Some(epoch)
    && forall k | i < k <= |events| :: Run(c, events[..k]).pendingEpoch == Some(epoch)
  }

  lemma StepPends(c: Config, s: State, e: Event)
    requires NoLeftovers(s) && Step(c, s, e).pendingEpoch.Some?
    ensures var s' := Step(c, s, e);
            if s'.pendingEpoch == s.pendingEpoch then
              s'.pendingParams == s.pendingParams && (c.Deferred() ==> s'.signalEpoch == s.signalEpoch)
            else
              e.Signal? && s'.pendingEpoch == Some(SignalledEpoch(s, e.payload)) && s'.pendingParams == e.file
  {}

  lemma PendsOn(c: Config, before: seq<Event>, i: nat, epoch: Epoch, e: Event)
    requires PendingSince(c, before, i, epoch) && Run(c, before + [e]).pendingEpoch == Some(epoch)
    ensures PendingSince(c, before + [e], i, epoch)
  {
    hide Run, Step;
    var events := before + [e];
    assert before[..i] == events[..i];
    forall k | i < k <= |events|
      ensures Run(c, events[..k]).pendingEpoch == Some(epoch)
    {
      assert events[..k] == if k < |events| then before[..k] else events;
    }
  }

  lemma PendsFrom(c: Config, before: seq<Event>, epoch: Epoch, e: Event)
    requires e.Signal? && SignalledEpoch(Run(c, before), e.payload) == epoch
    requires Run(c, before).pendingEpoch != Some(epoch) && Run(c, before + [e]).pendingEpoch == Some(epoch)
    ensures PendingSince(c, before + [e], |before|, epoch)
  {
    hide Run, Step;
    var events := before + [e];
    assert events[..|before|] == before;
    assert events[..|events|] == events;
  }

  /** A pending update holds the content of the file at the signal that made it pend: it is captured once. */
  lemma {:induction false} PendingCarriesFile(c: Config, events: seq<Event>) returns (i: nat)
    requires Run(c, events).pendingEpoch.Some?
    ensures PendingSince(c, events, i, Run(c, events).pendingEpoch.value)
    ensures Run(c, events).pendingParams == events[i].file
    ensures c.Deferred() ==> Run(c, events).signalEpoch == Run(c, events[..i + 1]).signalEpoch
  {
    hide Step;
    assert events != [];
    var before, e := events[..|events| - 1], events[|events| - 1];
    var epoch := Run(c, events).pendingEpoch.value;
    assert events == before + [e];
    RunHasNoLeftovers(c, before);
    StepPends(c, Run(c, before), e);
    if Run(c, before).pendingEpoch == Some(epoch) {
      i := PendingCarriesFile(c, before);
      PendsOn(c, before, i, epoch, e);
      assert before[..i + 1] == events[..i + 1];
    } else {
      i := |before|;
      PendsFrom(c, before, epoch, e);
      assert events[..i + 1] == events;
    }
  }

  /** The update that a commit applies is the pending one, with its values, or those of the file now if none
      could be read at the signal. */
  lemma CommitApplies(c: Config, s: State, e: Event)
    requires Step(c, s, e).applied != s.applied
    ensures e.Commit? && s.pendingEpoch.Some?
    ensures var params := if s.pendingParams.Some? then s.pendingParams else e.current;
            Step(c, s, e).applied == s.applied + [Update(s.pendingEpoch.value, e.slot, params)]
    ensures Step(c, s, e).pendingEpoch == None && Step(c, s, e).pendingParams == None
    ensures Step(c, s, e).signalEpoch == s.signalEpoch + 1
  {}

  /** Over every run: whatever is applied carries the content that the file had at the signal since which the
      update pends, whatever the file holds at the commit; only if it could not be read then is it read at the
      commit. */
  lemma AppliedCarriesSignalledValues(c: Config, events: seq<Event>, e: Event) returns (i: nat)
    requires Step(c, Run(c, events), e).applied != Run(c, events).applied
    ensures Run(c, events).pendingEpoch.Some? && e.Commit?
    ensures var s, epoch := Run(c, events), Run(c, events).pendingEpoch.value;
            && PendingSince(c, events, i, epoch)
            && Run(c, events + [e]).applied
            == s.applied + [Update(epoch, e.slot, if events[i].file.Some? then events[i].file else e.current)]
  {
    CommitApplies(c, Run(c, events), e);
    i := PendingCarriesFile(c, events);
    RunAppend(c, events, e);
  }

  /** The epoch that is expected after an update was applied, that is the one that a signal without an epoch
      counts for: the next one if the update had been signalled ahead of its epoch. Signalled within its epoch, it
      only moves the expectation by one, which may lag behind. */
  lemma AppliedMovesExpectation(c: Config, events: seq<Event>, e: Event) returns (i: nat)
    requires c.Deferred() && Step(c, Run(c, events), e).applied != Run(c, events).applied
    ensures Run(c, events).pendingEpoch.Some?
    ensures var epoch := Run(c, events).pendingEpoch.value;
            && PendingSince(c, events, i, epoch)
            && var before := Run(c, events[..i]);
               Run(c, events + [e]).signalEpoch
               == (if epoch > c.EpochIndex(before.lastCommittedSlot) then epoch else before.signalEpoch) + 1
  {
    hide Step;
    CommitApplies(c, Run(c, events), e);
    i := PendingCarriesFile(c, events);
    RunAppend(c, events, e);
    var before := Run(c, events[..i]);
    RunAppend(c, events[..i], events[i]);
    assert events[..i] + [events[i]] == events[..i + 1];
    RunHasNoLeftovers(c, events[..i]);
    SignalEffect(c, before, events[i].payload, events[i].file);
    StepOfSignal(c, before, events[i]);
  }

  lemma StepOfSignal(c: Config, s: State, e: Event)
    requires e.Signal?
    ensures Step(c, s, e) == OnSignal(c, s, e.payload, e.file)
  {}

  /** The contents of the file at the signals of a run. */
  function SignalledFiles(events: seq<Event>): seq<Option<Params>>
  {
    if events == [] then []
    else
      var e := events[|events| - 1];
      SignalledFiles(events[..|events| - 1]) + if e.Signal? then [e.file] else []
  }

  /** Where signals act at once, each applies the file as it is, in order; elsewhere none does. */
  lemma StepActsAtOnce(c: Config, s: State, e: Event)
    ensures Step(c, s, e).immediate == s.immediate + if c.Immediate() && e.Signal? then [e.file] else []
  {}

  lemma {:induction false} SignalsActAtOnceIffImmediate(c: Config, events: seq<Event>)
    ensures Run(c, events).immediate == if c.Immediate() then SignalledFiles(events) else []
  {
    hide Step;
    if events != [] {
      SignalsActAtOnceIffImmediate(c, events[..|events| - 1]);
      StepActsAtOnce(c, Run(c, events[..|events| - 1]), events[|events| - 1]);
    }
  }

  lemma StepLastCommitted(c: Config, s: State, e: Event)
    ensures Step(c, s, e).lastCommittedSlot
         == if e.Commit? && e.slot > s.lastCommittedSlot then e.slot else s.lastCommittedSlot
  {}

  /** The last committed slot is the highest slot committed so far. */
  lemma {:induction false} LastCommittedIsHighest(c: Config, events: seq<Event>)
    ensures var last := Run(c, events).lastCommittedSlot;
            && (forall e | e in events && e.Commit? :: e.slot <= last)
            && (last == 0 || exists e :: e in events && e.Commit? && e.slot == last)
  {
    hide Step;
    if events != [] {
      var before, e := events[..|events| - 1], events[|events| - 1];
      LastCommittedIsHighest(c, before);
      StepLastCommitted(c, Run(c, before), e);
      assert events == before + [e];
    }
  }

  /** The fields of the primary's core that these handlers update. */
  class ParamUpdater {
    const config: Config
    var lastCommittedSlot: Slot
    var rlParamSignalEpoch: Epoch
    var pendingParamUpdateEpoch: Option<Epoch>
    var pendingParamUpdateParams: Option<Params>
    var applied: seq<Update>
    var immediate: seq<Option<Params>>

    ghost function View(): State
      reads this
    {
      State(lastCommittedSlot, rlParamSignalEpoch, pendingParamUpdateEpoch, pendingParamUpdateParams,
            applied, immediate)
    }

    constructor (config: Config)
      ensures this.config == config && View() == INITIAL
    {
      this.config := config;
      lastCommittedSlot, rlParamSignalEpoch := 0, 0;
      pendingParamUpdateEpoch, pendingParamUpdateParams := None, None;
      applied, immediate := [], [];
    }

    method CapturePendingParameters(file: Option<Params>)
      modifies this`pendingParamUpdateParams
      ensures View() == Capture(old(View()), file)
    {
      if pendingParamUpdateParams.Some? {
        return;
      }
      pendingParamUpdateParams := file;
    }

    method HandleParamUpdateSignal(payload: Option<Epoch>, file: Option<Params>)
      modifies this
      ensures View() == OnSignal(config, old(View()), payload, file)
    {
      var signalEpoch := if payload.Some? then payload.value else rlParamSignalEpoch;
      var currentEpoch := config.EpochIndex(lastCommittedSlot);
      if config.epochSlots == 0 || config.appliedBegin == 0 {
        immediate := immediate + [file];
        rlParamSignalEpoch := signalEpoch + 1;
        return;
      }
      if signalEpoch < rlParamSignalEpoch {
        return;
      }
      if pendingParamUpdateEpoch.Some? {
        if signalEpoch <= pendingParamUpdateEpoch.value {
          return;
        }
        pendingParamUpdateEpoch := None;
        pendingParamUpdateParams := None;
      }
      if signalEpoch < currentEpoch {
        rlParamSignalEpoch := Later(rlParamSignalEpoch, signalEpoch + 1);
        return;
      }
      if signalEpoch > currentEpoch {
        rlParamSignalEpoch := signalEpoch;
        pendingParamUpdateEpoch := Some(signalEpoch);
        CapturePendingParameters(file);
        return;
      }
      var position := config.EpochSlotIndex(lastCommittedSlot);
      if position.Some? {
        if position.value >= config.appliedBegin {
          rlParamSignalEpoch := signalEpoch + 1;
        } else {
          pendingParamUpdateEpoch := Some(signalEpoch);
          CapturePendingParameters(file);
        }
      }
    }

    method ProcessCommit(slot: Slot, file: Option<Params>)
      modifies this
      ensures View() == OnCommit(config, old(View()), slot, file)
    {
      lastCommittedSlot := Later(slot, lastCommittedSlot);
      if pendingParamUpdateEpoch.Some? {
        var target := pendingParamUpdateEpoch.value;
        var position := config.EpochSlotIndex(slot);
        if config.Immediate()
           || (position.Some? && position.value == config.appliedBegin && config.EpochIndex(slot) == target) {
          var params := if pendingParamUpdateParams.Some? then pendingParamUpdateParams else file;
          applied := applied + [Update(target, slot, params)];
          pendingParamUpdateParams := None;
          pendingParamUpdateEpoch := None;
          rlParamSignalEpoch := rlParamSignalEpoch + 1;
        }
      }
    }
  }
}
