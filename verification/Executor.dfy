/** The slot executor of `primary/src/committer.rs`: commit messages arrive in any order and any
    number of times, and execution follows slot order. */
module Executor {
  import opened Committees

  type Slot = nat
  type Height = nat

  /** A lane is a chain of headers, followed through parent links down to its genesis header. */
  datatype Header = GenesisHeader(author: PublicKey) | LaneHeader(author: PublicKey, id: nat, parent: Header) {

    function Height(): Height
    {
      if GenesisHeader? then 0 else 1 + parent.Height()
    }
  }

  /** The tip proposed for each lane. */
  type Proposals = map<PublicKey, Header>

  /** The proposals that consensus decides, slot by slot. */
  type Decisions = d: imap<Slot, Proposals> | forall s: Slot :: s in d ghost witness imap s: Slot :: map[]

  /** `get_all_headers_for_proposal`: the headers above `stop`, newest first. */
  function Segment(tip: Header, stop: Height): seq<Header>
  {
    if tip.Height() <= stop then [] else [tip] + Segment(tip.parent, stop)
  }

  datatype Executed = Executed(lane: PublicKey, header: Header)

  /** The headers of one lane, in the order of execution. */
  function OfLane(output: seq<Executed>, lane: PublicKey): seq<Header>
  {
    OfLaneUpTo(output, |output|, lane)
  }

  function OfLaneUpTo(output: seq<Executed>, n: nat, lane: PublicKey): seq<Header>
    requires n <= |output|
  {
    if n == 0 then []
    else OfLaneUpTo(output, n - 1, lane) + (if output[n - 1].lane == lane then [output[n - 1].header] else [])
  }

  // ---- The simple in-order execution ----

  /** The height of a lane after executing slots 1 to `slot` in order. */
  function LaneHeight(decided: Decisions, slot: Slot, lane: PublicKey): Height
  {
    if slot == 0 then 0
    else
      var before := LaneHeight(decided, slot - 1, lane);
      if lane in decided[slot] && decided[slot][lane].Height() > before then decided[slot][lane].Height() else before
  }

  /** The headers of a lane executed by slots 1 to `slot`, in order. */
  function LaneOutput(decided: Decisions, slot: Slot, lane: PublicKey): seq<Header>
  {
    if slot == 0 then []
    else
      LaneOutput(decided, slot - 1, lane)
      + if lane in decided[slot] then Segment(decided[slot][lane], LaneHeight(decided, slot - 1, lane)) else []
  }

  predicate HasHeight(hs: seq<Header>, k: Height)
  {
    exists i | 0 <= i < |hs| :: hs[i].Height() == k
  }

  predicate DistinctHeights(hs: seq<Header>)
  {
    forall i, j | 0 <= i < j < |hs| :: hs[i].Height() != hs[j].Height()
  }

  lemma {:induction false} SegmentHeights(tip: Header, stop: Height)
    ensures DistinctHeights(Segment(tip, stop))
    ensures forall k: Height :: HasHeight(Segment(tip, stop), k) <==> stop < k <= tip.Height()
  {
    if tip.Height() > stop {
      var rest := Segment(tip.parent, stop);
      SegmentHeights(tip.parent, stop);
      forall k: Height
        ensures HasHeight([tip] + rest, k) <==> stop < k <= tip.Height()
      {
        HasHeightConcat([tip], rest, k);
        assert [tip][0].Height() == tip.Height();
      }
      forall j | 0 <= j < |rest|
        ensures rest[j].Height() != tip.Height()
      {
        assert HasHeight(rest, rest[j].Height());
      }
    }
  }

  /** A segment starts at the tip and follows the parent links, as far as the stop height. */
  lemma {:induction false} SegmentFollowsParents(tip: Header, stop: Height)
    ensures var hs := Segment(tip, stop);
            && |hs| == (if tip.Height() > stop then tip.Height() - stop else 0)
            && (hs != [] ==> hs[0] == tip)
            && forall i | 0 <= i < |hs| - 1 :: hs[i].LaneHeader? && hs[i + 1] == hs[i].parent
  {
    if tip.Height() > stop {
      SegmentFollowsParents(tip.parent, stop);
    }
  }

  /** In-order execution leaves a lane at the height of the highest tip proposed for it. */
  lemma {:induction false} LaneHeightIsHighest(decided: Decisions, slot: Slot, lane: PublicKey)
    ensures var height := LaneHeight(decided, slot, lane);
            && (forall s | 1 <= s <= slot && lane in decided[s] :: decided[s][lane].Height() <= height)
            && (height == 0 || exists s :: 1 <= s <= slot && lane in decided[s] && decided[s][lane].Height() == height)
  {
    if slot > 0 {
      LaneHeightIsHighest(decided, slot - 1, lane);
    }
  }

  lemma HasHeightConcat(xs: seq<Header>, ys: seq<Header>, k: Height)
    ensures HasHeight(xs + ys, k) <==> HasHeight(xs, k) || HasHeight(ys, k)
  {
    if HasHeight(xs, k) {
      var i :| 0 <= i < |xs| && xs[i].Height() == k;
      assert (xs + ys)[i].Height() == k;
    }
    if HasHeight(ys, k) {
      var i :| 0 <= i < |ys| && ys[i].Height() == k;
      assert (xs + ys)[|xs| + i].Height() == k;
    }
  }

  /** Every height of a lane up to its executed height is executed exactly once, whatever tips the
      slots propose. */
  lemma {:induction false} EachHeightOnce(decided: Decisions, slot: Slot, lane: PublicKey)
    ensures DistinctHeights(LaneOutput(decided, slot, lane))
    ensures forall k: Height ::
              HasHeight(LaneOutput(decided, slot, lane), k) <==> 1 <= k <= LaneHeight(decided, slot, lane)
  {
    if slot > 0 {
      EachHeightOnce(decided, slot - 1, lane);
      if lane in decided[slot] {
        var before, stop := LaneOutput(decided, slot - 1, lane), LaneHeight(decided, slot - 1, lane);
        var segment := Segment(decided[slot][lane], stop);
        SegmentHeights(decided[slot][lane], stop);
        forall k: Height
          ensures HasHeight(before + segment, k) <==> 1 <= k <= LaneHeight(decided, slot, lane)
        {
          HasHeightConcat(before, segment, k);
        }
        forall i, j | 0 <= i < |before| && 0 <= j < |segment|
          ensures before[i].Height() != segment[j].Height()
        {
          assert HasHeight(before, before[i].Height()) && HasHeight(segment, segment[j].Height());
        }
      } else {
        assert LaneOutput(decided, slot, lane) == LaneOutput(decided, slot - 1, lane);
      }
    }
  }

  // ---- The buffered execution ----

  /** The state after receiving exactly the slots `received`: slots 1 to `executed` have been run in
      order, and the next slot has not arrived. */
  ghost predicate Refines(
    decided: Decisions, lanes: set<PublicKey>, received: set<Slot>,
    log: map<Slot, Proposals>, executed: Slot, heights: map<PublicKey, Height>, output: seq<Executed>)
  {
    && Executing(decided, lanes, received, log, executed, heights, output)
    && executed + 1 !in log
  }

  ghost predicate Executing(
    decided: Decisions, lanes: set<PublicKey>, received: set<Slot>,
    log: map<Slot, Proposals>, executed: Slot, heights: map<PublicKey, Height>, output: seq<Executed>)
  {
    && heights.Keys == lanes
    && (forall s | s in log :: s in received && log[s] == decided[s])
    && (forall s | s in received :: s <= executed || s in log)
    && (forall s | 1 <= s <= executed :: s in received)
    && LanesAt(decided, executed, lanes, heights, output)
  }

  /** A lane stands where executing slots 1 to `slot` in order leaves it. */
  ghost predicate LaneAt(decided: Decisions, slot: Slot, lane: PublicKey, height: Height, output: seq<Executed>)
  {
    height == LaneHeight(decided, slot, lane) && OfLane(output, lane) == LaneOutput(decided, slot, lane)
  }

  /** Order independence: executors that received the same slots, in whatever order and however
      often, have executed the same slots and the same headers of every lane. */
  lemma OrderIndependent(
    decided: Decisions, lanes: set<PublicKey>, received: set<Slot>,
    log: map<Slot, Proposals>, executed: Slot, heights: map<PublicKey, Height>, output: seq<Executed>,
    log': map<Slot, Proposals>, executed': Slot, heights': map<PublicKey, Height>, output': seq<Executed>)
    requires Refines(decided, lanes, received, log, executed, heights, output)
    requires Refines(decided, lanes, received, log', executed', heights', output')
    ensures executed == executed' && heights == heights'
    ensures forall pk | pk in lanes :: OfLane(output, pk) == OfLane(output', pk)
    ensures forall s | 1 <= s <= executed :: s in received
    ensures executed + 1 !in received
  {
    assert executed + 1 !in received && executed' + 1 !in received;
    assert executed < executed' ==> executed + 1 in received;
    assert executed' < executed ==> executed' + 1 in received;
  }

  /** Each lane height is executed at most once, and no height below the executed one is missed. */
  lemma ExecutedHeightsOnce(
    decided: Decisions, lanes: set<PublicKey>, received: set<Slot>,
    log: map<Slot, Proposals>, executed: Slot, heights: map<PublicKey, Height>, output: seq<Executed>, lane: PublicKey)
    requires Refines(decided, lanes, received, log, executed, heights, output) && lane in lanes
    ensures lane in heights && DistinctHeights(OfLane(output, lane))
    ensures forall k: Height :: HasHeight(OfLane(output, lane), k) <==> 1 <= k <= heights[lane]
  {
    EachHeightOnce(decided, executed, lane);
  }

  lemma OfLaneAppend(output: seq<Executed>, x: Executed, lane: PublicKey)
    ensures OfLane(output + [x], lane) == OfLane(output, lane) + (if x.lane == lane then [x.header] else [])
  {
    OfLanePrefix(output, [x], |output|, lane);
  }

  lemma {:induction false} OfLanePrefix(output: seq<Executed>, more: seq<Executed>, n: nat, lane: PublicKey)
    requires n <= |output|
    ensures OfLaneUpTo(output + more, n, lane) == OfLaneUpTo(output, n, lane)
  {
    if n > 0 {
      OfLanePrefix(output, more, n - 1, lane);
    }
  }

  /** The buffered slots that have not been executed. */
  function Pending(log: map<Slot, Proposals>, executed: Slot): set<Slot>
  {
    set s | s in log && s > executed
  }

  lemma PendingShrinks(log: map<Slot, Proposals>, executed: Slot)
    requires executed + 1 in log
    ensures Pending(log, executed + 1) < Pending(log, executed)
  {
    assert executed + 1 in Pending(log, executed);
  }

  ghost predicate LanesAt(
    decided: Decisions, slot: Slot, lanes: set<PublicKey>, heights: map<PublicKey, Height>, output: seq<Executed>)
  {
    forall pk | pk in lanes :: pk in heights && LaneAt(decided, slot, pk, heights[pk], output)
  }

  /** Lanes without a proposal are done as they are. */
  lemma LanesMerge(
    decided: Decisions, slot: Slot, lanes: set<PublicKey>, todo: set<PublicKey>,
    heights: map<PublicKey, Height>, output: seq<Executed>)
    requires todo <= lanes && todo !! decided[slot + 1].Keys
    requires LanesAt(decided, slot, todo, heights, output)
    requires LanesAt(decided, slot + 1, lanes - todo, heights, output)
    ensures LanesAt(decided, slot + 1, lanes, heights, output)
  {
    forall pk | pk in lanes
      ensures pk in heights && LaneAt(decided, slot + 1, pk, heights[pk], output)
    {
      if pk in todo {
        assert LaneAt(decided, slot, pk, heights[pk], output);
      } else {
        assert pk in lanes - todo;
      }
    }
  }

  lemma Arrives(
    decided: Decisions, lanes: set<PublicKey>, received: set<Slot>, slot: Slot,
    log: map<Slot, Proposals>, executed: Slot, heights: map<PublicKey, Height>, output: seq<Executed>)
    requires Refines(decided, lanes, received, log, executed, heights, output)
    ensures slot <= executed ==> Refines(decided, lanes, received + {slot}, log, executed, heights, output)
    ensures Executing(decided, lanes, received + {slot}, log[slot := decided[slot]], executed, heights, output)
  {}

  lemma NextIsExecuted(
    decided: Decisions, lanes: set<PublicKey>, received: set<Slot>,
    log: map<Slot, Proposals>, executed: Slot, heights: map<PublicKey, Height>, output: seq<Executed>,
    heights': map<PublicKey, Height>, output': seq<Executed>)
    requires Executing(decided, lanes, received, log, executed, heights, output)
    requires executed + 1 in log && heights'.Keys == lanes
    requires LanesAt(decided, executed + 1, lanes, heights', output')
    ensures Executing(decided, lanes, received, log, executed + 1, heights', output')
  {}

  /** The next slot has been executed for all lanes but those in `todo`. */
  ghost predicate Halfway(
    decided: Decisions, slot: Slot, lanes: set<PublicKey>, todo: set<PublicKey>,
    heights: map<PublicKey, Height>, output: seq<Executed>)
  {
    && heights.Keys == lanes && todo <= lanes
    && LanesAt(decided, slot, todo, heights, output)
    && LanesAt(decided, slot + 1, lanes - todo, heights, output)
  }

  lemma HalfwayStarts(
    decided: Decisions, slot: Slot, lanes: set<PublicKey>, proposed: set<PublicKey>,
    heights: map<PublicKey, Height>, output: seq<Executed>)
    requires heights.Keys == lanes && proposed <= lanes
    requires LanesAt(decided, slot, lanes, heights, output)
    ensures Halfway(decided, slot, lanes, proposed + (lanes - proposed), heights, output)
  {
    assert proposed + (lanes - proposed) == lanes;
  }

  lemma HalfwayEnds(
    decided: Decisions, slot: Slot, lanes: set<PublicKey>, proposed: set<PublicKey>,
    heights: map<PublicKey, Height>, output: seq<Executed>)
    requires proposed == decided[slot + 1].Keys
    requires Halfway(decided, slot, lanes, {} + (lanes - proposed), heights, output)
    ensures heights.Keys == lanes && LanesAt(decided, slot + 1, lanes, heights, output)
  {
    LanesMerge(decided, slot, lanes, {} + (lanes - proposed), heights, output);
  }

  lemma LaneToDo(
    decided: Decisions, slot: Slot, lanes: set<PublicKey>, todo: set<PublicKey>,
    heights: map<PublicKey, Height>, output: seq<Executed>, pk: PublicKey)
    requires Halfway(decided, slot, lanes, todo, heights, output) && pk in todo
    ensures heights.Keys == lanes && pk in heights && LaneAt(decided, slot, pk, heights[pk], output)
  {}

  lemma LaneAdvances(
    decided: Decisions, slot: Slot, pk: PublicKey, height: Height, output: seq<Executed>,
    height': Height, output': seq<Executed>)
    requires LaneAt(decided, slot, pk, height, output) && pk in decided[slot + 1]
    requires var tip := decided[slot + 1][pk];
             && height' == (if tip.Height() > height then tip.Height() else height)
             && OfLane(output', pk) == OfLane(output, pk) + Segment(tip, height)
    ensures LaneAt(decided, slot + 1, pk, height', output')
  {}

  /** Executing one lane leaves the others where they are. */
  lemma LaneDone(
    decided: Decisions, slot: Slot, lanes: set<PublicKey>, todo: set<PublicKey>,
    heights: map<PublicKey, Height>, output: seq<Executed>,
    heights': map<PublicKey, Height>, output': seq<Executed>, pk: PublicKey)
    requires Halfway(decided, slot, lanes, todo, heights, output)
    requires heights'.Keys == lanes && pk in lanes && LaneAt(decided, slot + 1, pk, heights'[pk], output')
    requires forall x | x in lanes && x != pk :: heights'[x] == heights[x] && OfLane(output', x) == OfLane(output, x)
    ensures Halfway(decided, slot, lanes, todo - {pk}, heights', output')
  {
    forall x | x in lanes && x != pk
      ensures x in todo ==> LaneAt(decided, slot, x, heights'[x], output')
      ensures x !in todo ==> LaneAt(decided, slot + 1, x, heights'[x], output')
    {
      assert x !in todo ==> x in lanes - todo;
    }
  }

  lemma RemovedFromUnion(s: set<PublicKey>, t: set<PublicKey>, x: PublicKey)
    requires x in s && x !in t
    ensures (s + t) - {x} == (s - {x}) + t && x in s + t
  {}

  class Committer {
    var log: map<Slot, Proposals>
    var lastExecutedSlot: Slot
    var lastExecutedHeights: map<PublicKey, Height>
    var output: seq<Executed>
    /** The proposals that consensus decided for each slot, and the slots received so far. */
    ghost const decided: Decisions
    ghost const lanes: set<PublicKey>
    ghost var received: set<Slot>

    ghost predicate Valid()
      reads this
    {
      && Refines(decided, lanes, received, log, lastExecutedSlot, lastExecutedHeights, output)
      && forall s: Slot :: decided[s].Keys <= lanes
    }

    constructor (authorities: set<PublicKey>, ghost decided: Decisions)
      requires forall s: Slot :: decided[s].Keys <= authorities
      ensures Valid() && received == {} && output == []
      ensures this.decided == decided && lanes == authorities
    {
      log := map[];
      lastExecutedSlot := 0;
      lastExecutedHeights := map pk | pk in authorities :: 0;
      output := [];
      this.decided := decided;
      lanes := authorities;
      received := {};
    }

    /** `process_commit_message`. Messages of one slot agree; they may come early, late or again. */
    method ProcessCommitMessage(slot: Slot, proposals: Proposals)
      requires Valid() && proposals == decided[slot]
      modifies this
      ensures Valid()
      ensures received == old(received) + {slot}
      ensures old(lastExecutedSlot) <= lastExecutedSlot
    {
      hide LanesAt;
      Arrives(decided, lanes, received, slot, log, lastExecutedSlot, lastExecutedHeights, output);
      received := received + {slot};
      if slot <= lastExecutedSlot {
        return;
      }
      log := log[slot := proposals];
      while lastExecutedSlot + 1 in log
        invariant Executing(decided, lanes, received, log, lastExecutedSlot, lastExecutedHeights, output)
        invariant received == old(received) + {slot}
        invariant old(lastExecutedSlot) <= lastExecutedSlot
        decreases Pending(log, lastExecutedSlot)
      {
        PendingShrinks(log, lastExecutedSlot);
        ExecuteNext();
      }
    }

    /** The body of the loop: executes the next buffered slot. */
    method ExecuteNext()
      requires Executing(decided, lanes, received, log, lastExecutedSlot, lastExecutedHeights, output)
      requires lastExecutedSlot + 1 in log && decided[lastExecutedSlot + 1].Keys <= lanes
      modifies this`lastExecutedSlot, this`lastExecutedHeights, this`output
      ensures Executing(decided, lanes, received, log, lastExecutedSlot, lastExecutedHeights, output)
      ensures lastExecutedSlot == old(lastExecutedSlot) + 1
    {
      hide LanesAt;
      ghost var heights, out := lastExecutedHeights, output;
      Execute(log[lastExecutedSlot + 1]);
      NextIsExecuted(decided, lanes, received, log, lastExecutedSlot, heights, out, lastExecutedHeights, output);
      lastExecutedSlot := lastExecutedSlot + 1;
    }

    /** Executes the next slot: every lane is advanced to its proposed tip, unless that is too old. */
    method Execute(proposals: Proposals)
      requires lastExecutedHeights.Keys == lanes
      requires proposals == decided[lastExecutedSlot + 1] && proposals.Keys <= lanes
      requires LanesAt(decided, lastExecutedSlot, lanes, lastExecutedHeights, output)
      modifies this`lastExecutedHeights, this`output
      ensures lastExecutedHeights.Keys == lanes
      ensures LanesAt(decided, lastExecutedSlot + 1, lanes, lastExecutedHeights, output)
    {
      hide Halfway, LanesAt;
      var rest := proposals.Keys;
      ghost var idle := lanes - proposals.Keys;
      HalfwayStarts(decided, lastExecutedSlot, lanes, rest, lastExecutedHeights, output);
      while rest != {}
        invariant rest <= proposals.Keys
        invariant Halfway(decided, lastExecutedSlot, lanes, rest + idle, lastExecutedHeights, output)
        decreases rest
      {
        var pk :| pk in rest;
        RemovedFromUnion(rest, idle, pk);
        ExecuteLane(pk, proposals[pk], rest + idle);
        rest := rest - {pk};
      }
      HalfwayEnds(decided, lastExecutedSlot, lanes, proposals.Keys, lastExecutedHeights, output);
    }

    /** The body of the loop over the proposals. */
    method ExecuteLane(pk: PublicKey, tip: Header, ghost todo: set<PublicKey>)
      requires pk in todo && pk in decided[lastExecutedSlot + 1] && decided[lastExecutedSlot + 1][pk] == tip
      requires Halfway(decided, lastExecutedSlot, lanes, todo, lastExecutedHeights, output)
      modifies this`lastExecutedHeights, this`output
      ensures Halfway(decided, lastExecutedSlot, lanes, todo - {pk}, lastExecutedHeights, output)
    {
      ghost var heights0, output0 := lastExecutedHeights, output;
      LaneToDo(decided, lastExecutedSlot, lanes, todo, heights0, output0, pk);
      var stopHeight := lastExecutedHeights[pk];
      if tip.Height() <= stopHeight {
        assert Segment(tip, stopHeight) == [];
      } else {
        lastExecutedHeights := lastExecutedHeights[pk := tip.Height()];
        Send(pk, Segment(tip, stopHeight));
      }
      LaneAdvances(decided, lastExecutedSlot, pk, stopHeight, output0, lastExecutedHeights[pk], output);
      LaneDone(decided, lastExecutedSlot, lanes, todo, heights0, output0, lastExecutedHeights, output, pk);
    }

    /** Sends the headers of a lane to the application. */
    method Send(lane: PublicKey, headers: seq<Header>)
      modifies this`output
      ensures OfLane(output, lane) == OfLane(old(output), lane) + headers
      ensures forall pk | pk != lane :: OfLane(output, pk) == OfLane(old(output), pk)
    {
      for i := 0 to |headers|
        invariant OfLane(output, lane) == OfLane(old(output), lane) + headers[..i]
        invariant forall pk | pk != lane :: OfLane(output, pk) == OfLane(old(output), pk)
      {
        var x := Executed(lane, headers[i]);
        forall pk
          ensures OfLane(output + [x], pk) == OfLane(output, pk) + (if pk == lane then [x.header] else [])
        {
          OfLaneAppend(output, x, pk);
        }
        output := output + [x];
      }
    }
  }
}
