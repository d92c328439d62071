/** path_model.cpp: the simulator's validator, and the batches it cuts a PATH into at wait nodes. */
module PathModel {
  import opened PathMessages
  import opened PathProtocol
  import opened Cutting

  /** The interface's fixed-size arrays. */
  predicate WellSized(goal: Goal) {
    && (forall i :: 0 <= i < |goal.frames| ==> |goal.frames[i].pose| == 6)
    && (forall i :: 0 <= i < |goal.nodes| ==> |goal.nodes[i].target| == 6)
  }

  /** The one rule the bridge's validator does not have. */
  predicate ViasDoNotWait(goal: Goal) {
    goal.pathType == CARTESIAN ==>
      forall i :: 0 <= i < |goal.nodes| && goal.nodes[i].wait ==> goal.nodes[i].motionType != MOTION_SEG_VIA
  }

  // validate_path_goal, as the simulator runs it.

  predicate FramesFine(frames: seq<PathFrame>) {
    && (forall i :: 0 <= i < |frames| ==> 1 <= frames[i].index <= 7)
    && (forall i, j :: 0 <= i < j < |frames| ==> frames[i].index != frames[j].index)
  }

  method InsertFrames(list: seq<PathFrame>) returns (ok: bool, frames: set<nat>)
    ensures ok <==> FramesFine(list)
    ensures ok ==> frames == FrameIndexes(list)
  {
    frames := {};
    for i := 0 to |list|
      invariant FramesFine(list[..i]) && frames == FrameIndexes(list[..i])
    {
      var frame := list[i];
      assert list[..i + 1] == list[..i] + [frame];
      if frame.index < 1 || frame.index > 7 {
        return false, frames;
      }
      if frame.index in frames {
        var f :| f in list[..i] && f.index == frame.index;
        var k :| 0 <= k < i && list[k] == f;
        return false, frames;
      }
      assert forall k :: 0 <= k < i ==> list[..i][k] in list[..i];
      frames := frames + {frame.index};
    }
    assert list[..|list|] == list;
    return true, frames;
  }

  method InsertConditions(list: seq<PathCondition>) returns (ok: bool, slots: set<nat>)
    ensures ok <==> ValidConditions(list)
    ensures ok ==> slots == Slots(list)
  {
    slots := {};
    for i := 0 to |list|
      invariant ValidConditions(list[..i]) && slots == Slots(list[..i])
    {
      var condition := list[i];
      assert list[..i + 1] == list[..i] + [condition];
      if condition.slot < 1 || condition.slot > 32 || condition.handler <= 0 {
        return false, slots;
      }
      if condition.slot in slots {
        var c :| c in list[..i] && c.slot == condition.slot;
        var k :| 0 <= k < i && list[k] == c;
        return false, slots;
      }
      assert forall k :: 0 <= k < i ==> list[..i][k] in list[..i];
      slots := slots + {condition.slot};
    }
    assert list[..|list|] == list;
    return true, slots;
  }

  method CheckMasks(node: PathNode, slots: set<nat>) returns (ok: bool)
    ensures ok <==> MaskDefined(node.conditionMask, slots) && MaskDefined(node.conditionMaskBack, slots)
  {
    var masks := [node.conditionMask, node.conditionMaskBack];
    for m := 0 to 2
      invariant forall k :: 0 <= k < m ==> MaskDefined(masks[k], slots)
    {
      for bit := 0 to 32
        invariant forall b: nat | b < bit && MaskBit(masks[m], b) :: b + 1 in slots
      {
        if MaskBit(masks[m], bit) && bit + 1 !in slots {
          assert !MaskDefined(masks[m], slots);
          return false;
        }
      }
    }
    assert MaskDefined(masks[0], slots) && MaskDefined(masks[1], slots);
    return true;
  }

  method CheckParameters(node: PathNode, pathType: nat, frames: set<nat>, slots: set<nat>) returns (ok: bool)
    requires |node.target| == 6 && node.motionType <= 3 && (pathType == JOINT ==> node.motionType == MOTION_JOINT)
    ensures ok <==> ValidNode(node, pathType, frames, slots)
  {
    if node.segmentOverride <= 0.0 || node.segmentOverride > 100.0 || node.terminationType > 4 || node.flyType > 1 ||
       node.flyDistance < 0.0 || node.flyTrajectory > 3 || node.referenceIndex > 7 || node.toolIndex > 7 {
      return false;
    }
    if node.fly && (node.flyPercent < 1.0 || node.flyPercent > 100.0) {
      return false;
    }
    if pathType == JOINT && (node.referenceIndex != 0 || node.toolIndex != 0) {
      return false;
    }
    if node.referenceIndex != 0 && node.referenceIndex !in frames {
      return false;
    }
    if node.toolIndex != 0 && node.toolIndex !in frames {
      return false;
    }
    var masksOk := CheckMasks(node, slots);
    return masksOk && !(pathType == JOINT && node.fly && node.flyType != 0);
  }

  /** What the node loop has established before node n. */
  predicate NodesFine(goal: Goal, n: nat, frames: set<nat>, slots: set<nat>)
    requires n <= |goal.nodes|
  {
    && (forall k :: 0 <= k < n ==> ValidNode(goal.nodes[k], goal.pathType, frames, slots))
    && (goal.pathType == CARTESIAN ==>
          && (forall k :: 0 <= k < n && goal.nodes[k].motionType == MOTION_CIRCULAR ==>
                k > 0 && goal.nodes[k - 1].motionType == MOTION_SEG_VIA)
          && (forall k :: 0 <= k < n - 1 && goal.nodes[k].motionType == MOTION_SEG_VIA ==>
                goal.nodes[k + 1].motionType == MOTION_CIRCULAR)
          && (forall k :: 0 <= k < n && goal.nodes[k].wait ==> goal.nodes[k].motionType != MOTION_SEG_VIA))
  }

  method CheckNodeList(goal: Goal, frames: set<nat>, slots: set<nat>) returns (ok: bool)
    requires WellSized(goal)
    ensures ok <==> NodesFine(goal, |goal.nodes|, frames, slots)
  {
    var previous := 255;
    for i := 0 to |goal.nodes|
      invariant previous == if i == 0 then 255 else goal.nodes[i - 1].motionType
      invariant NodesFine(goal, i, frames, slots)
    {
      var node := goal.nodes[i];
      if node.motionType > MOTION_SEG_VIA || (goal.pathType == JOINT && node.motionType != MOTION_JOINT) {
        return false;
      }
      if goal.pathType == CARTESIAN {
        if node.motionType == MOTION_CIRCULAR && previous != MOTION_SEG_VIA {
          return false;
        }
        if previous == MOTION_SEG_VIA && node.motionType != MOTION_CIRCULAR {
          assert goal.nodes[i - 1].motionType == MOTION_SEG_VIA;
          return false;
        }
        if node.wait && node.motionType == MOTION_SEG_VIA {
          return false;
        }
      }
      var parametersOk := CheckParameters(node, goal.pathType, frames, slots);
      if !parametersOk {
        return false;
      }
      previous := node.motionType;
    }
    return true;
  }

  /**
   * The simulator's validator accepts exactly the goals the bridge's validator accepts and in which no
   * Cartesian via waits.
   */
  method ValidatePathGoal(goal: Goal, maxNodes: nat) returns (ok: bool)
    requires WellSized(goal)
    ensures ok <==> Valid(goal, maxNodes) && ViasDoNotWait(goal)
  {
    if goal.pathId == 0 || goal.pathId > MAX_ID || (goal.pathType != CARTESIAN && goal.pathType != JOINT) {
      return false;
    }
    if |goal.nodes| == 0 || |goal.nodes| > maxNodes {
      return false;
    }
    var start := if goal.startIndex == 0 then 1 else goal.startIndex;
    var end := if goal.endIndex == 0 then |goal.nodes| else goal.endIndex;
    if start < 1 || start > |goal.nodes| || end < 1 || end > |goal.nodes| {
      return false;
    }
    var framesOk, frames := InsertFrames(goal.frames);
    if !framesOk {
      return false;
    }
    var slotsOk, slots := InsertConditions(goal.conditions);
    if !slotsOk {
      return false;
    }
    var nodesOk := CheckNodeList(goal, frames, slots);
    if !nodesOk {
      return false;
    }
    if goal.nodes[|goal.nodes| - 1].motionType == MOTION_SEG_VIA {
      assert goal.pathType == CARTESIAN;
      return false;
    }
    return goal.nodes[start - 1].motionType != MOTION_CIRCULAR && goal.nodes[end - 1].motionType != MOTION_SEG_VIA;
  }

  predicate Runnable(goal: Goal, maxNodes: nat) {
    Valid(goal, maxNodes) && ViasDoNotWait(goal)
  }

  // execution_node_indexes and partition_path_at_waits.

  method ExecutionNodeIndexes(goal: Goal) returns (indexes: seq<int>)
    requires ValidRange(goal)
    ensures indexes == Range(goal.Start(), goal.End())
  {
    var start, end := goal.Start(), goal.End();
    indexes := [];
    if start <= end {
      var index := start;
      while index <= end
        invariant start <= index <= end + 1
        invariant indexes == Range(start, end)[..index - start]
      {
        indexes := indexes + [index];
        index := index + 1;
      }
    } else {
      var index := start;
      while true
        invariant end <= index <= start
        invariant indexes == Range(start, end)[..start - index]
        decreases index
      {
        indexes := indexes + [index];
        if index == end {
          break;
        }
        index := index - 1;
      }
    }
  }

  predicate NodeWaits(goal: Goal, index: int) {
    1 <= index <= |goal.nodes| && goal.nodes[index - 1].wait
  }

  function WaitsIn(goal: Goal): int -> bool {
    index => NodeWaits(goal, index)
  }

  function Batches(goal: Goal): seq<seq<int>> {
    Cut(Range(goal.Start(), goal.End()), WaitsIn(goal))
  }

  lemma {:induction false} PiecesSoFar(s: seq<int>, ends: int -> bool, batches: seq<seq<int>>, batch: seq<int>, i: nat)
    requires i < |s| && Cut(s, ends) == batches + Pieces(s[i..], ends, batch)
    ensures ends(s[i]) ==> Cut(s, ends) == batches + [batch + [s[i]]] + Pieces(s[i + 1..], ends, [])
    ensures !ends(s[i]) ==> Cut(s, ends) == batches + Pieces(s[i + 1..], ends, batch + [s[i]])
  {
    assert s[i..][1..] == s[i + 1..];
  }

  method PartitionPathAtWaits(goal: Goal) returns (batches: seq<seq<int>>)
    requires ValidRange(goal)
    ensures batches == Batches(goal)
  {
    batches := [];
    var batch: seq<int> := [];
    var indexes := ExecutionNodeIndexes(goal);
    for i := 0 to |indexes|
      invariant Batches(goal) == batches + Pieces(indexes[i..], WaitsIn(goal), batch)
    {
      PiecesSoFar(indexes, WaitsIn(goal), batches, batch, i);
      var index := indexes[i];
      batch := batch + [index];
      if goal.nodes[index - 1].wait {
        batches := batches + [batch];
        batch := [];
      }
    }
    assert indexes[|indexes|..] == [];
    if batch != [] {
      batches := batches + [batch];
    }
  }

  /** The batches cover the execution range, each wait closes its batch, and only the last need not wait. */
  lemma {:induction false} BatchesAreExact(goal: Goal)
    requires ValidRange(goal)
    ensures Flatten(Batches(goal)) == Range(goal.Start(), goal.End())
    ensures Batches(goal) != [] && CutAtEnds(Batches(goal), WaitsIn(goal))
    ensures Length(Batches(goal)) == RangeLength(goal.Start(), goal.End())
  {
    CutIsExact(Range(goal.Start(), goal.End()), WaitsIn(goal));
    FlattenLength(Batches(goal));
  }

  predicate ViaAt(goal: Goal, index: int) {
    1 <= index <= |goal.nodes| && goal.nodes[index - 1].motionType == MOTION_SEG_VIA
  }

  predicate ArcAt(goal: Goal, index: int) {
    1 <= index <= |goal.nodes| && goal.nodes[index - 1].motionType == MOTION_CIRCULAR
  }

  lemma {:induction false} BatchIndexes(goal: Goal, b: nat)
    requires ValidRange(goal) && b < |Batches(goal)|
    ensures Batches(goal)[b] != []
    ensures forall i :: 0 <= i < |Batches(goal)[b]| ==> 1 <= Batches(goal)[b][i] <= |goal.nodes|
  {
    BatchesAreExact(goal);
    BatchesWithin(Batches(goal));
    forall i | 0 <= i < |Batches(goal)[b]|
      ensures 1 <= Batches(goal)[b][i] <= |goal.nodes|
    {
      assert Batches(goal)[b][i] in Range(goal.Start(), goal.End());
    }
  }

  /** The simulator suspends once per wait node in the range, except at a wait on its last node. */
  lemma {:induction false} SimulatedWaits(goal: Goal)
    requires ValidRange(goal)
    ensures |Batches(goal)| - 1 ==
            Count(Range(goal.Start(), goal.End()), WaitsIn(goal)) - (if NodeWaits(goal, goal.End()) then 1 else 0)
  {
    var range := Range(goal.Start(), goal.End());
    CutCount(range, WaitsIn(goal));
    assert range[|range| - 1] == goal.End();
  }
}
