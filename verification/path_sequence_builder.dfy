/**
 * path_sequence_builder.cpp's build_path_sequence_batch: which batches of a PATH it turns into planner
 * requests, and which of its exceptions a goal the simulator accepts can reach.
 */
module PathSequenceBuilder {
  import opened Wrappers
  import opened PathMessages
  import opened PathProtocol
  import opened PathModel
  import opened Cutting
  import opened CoupledJoints

  /** Run forward, an arc shares its batch with the via before it. */
  lemma {:induction false} ArcsStayWhole(goal: Goal, maxNodes: nat, b: nat, i: nat)
    requires Runnable(goal, maxNodes) && goal.Start() <= goal.End()
    requires b < |Batches(goal)| && i < |Batches(goal)[b]| && ArcAt(goal, Batches(goal)[b][i])
    ensures i > 0 && Batches(goal)[b][i - 1] == Batches(goal)[b][i] - 1 && ViaAt(goal, Batches(goal)[b][i - 1])
  {
    var batches, range := Batches(goal), Range(goal.Start(), goal.End());
    BatchesAreExact(goal);
    Predecessor(batches, WaitsIn(goal), b, i);
    var p := Offset(batches, b) + i;
    assert range[p] == goal.Start() + p && (p > 0 ==> range[p - 1] == range[p] - 1);
    ArcIsPreceded(goal, maxNodes, range[p]);
  }

  lemma {:induction false} ArcIsPreceded(goal: Goal, maxNodes: nat, index: int)
    requires Runnable(goal, maxNodes) && ArcAt(goal, index)
    ensures ViaAt(goal, index - 1) && !NodeWaits(goal, index - 1) && index != goal.Start()
    ensures goal.pathType == CARTESIAN
  {
    assert ValidNode(goal.nodes[index - 1], goal.pathType, FrameIndexes(goal.frames), Slots(goal.conditions));
  }

  lemma {:induction false} ViasNeitherWaitNorEnd(goal: Goal, maxNodes: nat, index: int)
    requires Runnable(goal, maxNodes) && ViaAt(goal, index)
    ensures !NodeWaits(goal, index) && index != goal.End()
  {
    assert ValidNode(goal.nodes[index - 1], goal.pathType, FrameIndexes(goal.frames), Slots(goal.conditions));
  }

  /** The last node of a batch, run either way, is a destination. */
  lemma {:induction false} BatchEndsAtDestination(goal: Goal, maxNodes: nat, b: nat)
    requires Runnable(goal, maxNodes) && b < |Batches(goal)|
    ensures Batches(goal)[b] != [] && !ViaAt(goal, Batches(goal)[b][|Batches(goal)[b]| - 1])
  {
    var batches, range := Batches(goal), Range(goal.Start(), goal.End());
    BatchesAreExact(goal);
    var last := batches[b][|batches[b]| - 1];
    FlattenLast(batches);
    assert b == |batches| - 1 ==> last == range[|range| - 1] == goal.End();
    assert b < |batches| - 1 ==> WaitsIn(goal)(last);
    if ViaAt(goal, last) {
      ViasNeitherWaitNorEnd(goal, maxNodes, last);
    }
  }

  // build_path_sequence_batch: its checks, and the destinations it plans.

  datatype BatchError = EmptyBatch | ReverseArc | NoDestination | OutsideLimits | NoVia

  function Destinations(goal: Goal, indexes: seq<int>): seq<int> {
    if indexes == [] then []
    else
      var n := |indexes| - 1;
      Destinations(goal, indexes[..n]) + (if ViaAt(goal, indexes[n]) then [] else [indexes[n]])
  }

  /** The builder takes a batch to run backwards when it has two nodes and descends. */
  predicate SeenAsForward(indexes: seq<int>) {
    |indexes| < 2 || indexes[0] < indexes[|indexes| - 1]
  }

  predicate HasArcNode(goal: Goal, indexes: seq<int>) {
    exists i :: 0 <= i < |indexes| && (ArcAt(goal, indexes[i]) || ViaAt(goal, indexes[i]))
  }

  /** The builder's reverse check lets the batch through. */
  predicate PassesReverse(goal: Goal, indexes: seq<int>) {
    SeenAsForward(indexes) || !HasArcNode(goal, indexes)
  }

  /** planning_joint_target accepts the node; Cartesian nodes are not subject to it. */
  predicate Plannable(goal: Goal, c: Coupling, index: int) {
    goal.pathType == JOINT && 1 <= index <= |goal.nodes| && |goal.nodes[index - 1].target| == 6 ==>
      PlanningJointTarget(c, goal.nodes[index - 1].target).Some?
  }

  predicate InRange(goal: Goal, indexes: seq<int>) {
    forall i :: 0 <= i < |indexes| ==> 1 <= indexes[i] <= |goal.nodes| && |goal.nodes[indexes[i] - 1].target| == 6
  }

  predicate AllPlannable(goal: Goal, c: Coupling, indexes: seq<int>) {
    forall k :: 0 <= k < |indexes| ==> Plannable(goal, c, indexes[k])
  }

  method PassesReverseCheck(goal: Goal, indexes: seq<int>) returns (ok: bool)
    requires InRange(goal, indexes) && indexes != []
    ensures ok <==> PassesReverse(goal, indexes)
  {
    var forward := |indexes| < 2 || indexes[0] < indexes[|indexes| - 1];
    if !forward {
      for i := 0 to |indexes|
        invariant forall k :: 0 <= k < i ==> !ArcAt(goal, indexes[k]) && !ViaAt(goal, indexes[k])
      {
        var motion := goal.nodes[indexes[i] - 1].motionType;
        if motion == MOTION_CIRCULAR || motion == MOTION_SEG_VIA {
          return false;
        }
      }
    }
    return true;
  }

  method CollectDestinations(goal: Goal, indexes: seq<int>) returns (items: seq<int>)
    requires InRange(goal, indexes)
    ensures items == Destinations(goal, indexes) && InRange(goal, items)
    ensures forall k :: 0 <= k < |items| ==> items[k] in indexes
  {
    items := [];
    for i := 0 to |indexes|
      invariant items == Destinations(goal, indexes[..i]) && InRange(goal, items)
      invariant forall k :: 0 <= k < |items| ==> items[k] in indexes
    {
      assert indexes[..i + 1][..i] == indexes[..i];
      if goal.nodes[indexes[i] - 1].motionType != MOTION_SEG_VIA {
        items := items + [indexes[i]];
      }
    }
    assert indexes[..|indexes|] == indexes;
  }

  method TargetsReachable(goal: Goal, c: Coupling, items: seq<int>) returns (ok: bool)
    requires InRange(goal, items)
    ensures ok <==> AllPlannable(goal, c, items)
  {
    if goal.pathType == JOINT {
      for k := 0 to |items|
        invariant forall j :: 0 <= j < k ==> Plannable(goal, c, items[j])
      {
        if PlanningJointTarget(c, goal.nodes[items[k] - 1].target).None? {
          assert !Plannable(goal, c, items[k]);
          return false;
        }
      }
    }
    return true;
  }

  method HasVias(goal: Goal, items: seq<int>) returns (ok: bool)
    requires InRange(goal, items)
    ensures ok <==> forall k :: 0 <= k < |items| && ArcAt(goal, items[k]) ==> ViaAt(goal, items[k] - 1)
  {
    for k := 0 to |items|
      invariant forall j :: 0 <= j < k && ArcAt(goal, items[j]) ==> ViaAt(goal, items[j] - 1)
    {
      var index := items[k];
      if goal.nodes[index - 1].motionType == MOTION_CIRCULAR {
        if index < 2 || goal.nodes[index - 2].motionType != MOTION_SEG_VIA {
          assert ArcAt(goal, items[k]) && !ViaAt(goal, items[k] - 1);
          return false;
        }
      }
    }
    return true;
  }

  method BatchItems(goal: Goal, c: Coupling, indexes: seq<int>) returns (r: Result<seq<int>, BatchError>)
    requires InRange(goal, indexes)
    ensures r.Ok? ==> r.value == Destinations(goal, indexes) != [] && AllPlannable(goal, c, r.value)
    ensures r == Err(EmptyBatch) <==> indexes == []
    ensures r == Err(ReverseArc) <==> !PassesReverse(goal, indexes)
    ensures r == Err(NoDestination) ==> Destinations(goal, indexes) == []
    ensures r == Err(OutsideLimits) ==> !AllPlannable(goal, c, Destinations(goal, indexes))
    ensures r == Err(NoVia) ==>
              exists i :: 0 <= i < |indexes| && ArcAt(goal, indexes[i]) && !ViaAt(goal, indexes[i] - 1)
  {
    if indexes == [] {
      return Err(EmptyBatch);
    }
    hide AllPlannable, InRange, Destinations;
    var passes := PassesReverseCheck(goal, indexes);
    if !passes {
      return Err(ReverseArc);
    }
    var items := CollectDestinations(goal, indexes);
    if items == [] {
      return Err(NoDestination);
    }
    var reachable := TargetsReachable(goal, c, items);
    if !reachable {
      return Err(OutsideLimits);
    }
    var vias := HasVias(goal, items);
    if !vias {
      var k :| 0 <= k < |items| && ArcAt(goal, items[k]) && !ViaAt(goal, items[k] - 1);
      var i :| 0 <= i < |indexes| && indexes[i] == items[k];
      return Err(NoVia);
    }
    return Ok(items);
  }

  lemma {:induction false} DestinationsKeep(goal: Goal, indexes: seq<int>)
    requires indexes != [] && !ViaAt(goal, indexes[|indexes| - 1])
    ensures Destinations(goal, indexes) != []
  {
  }

  /**
   * For a goal the simulator accepts, a batch is built exactly if the reverse check lets it through and,
   * in a JOINT PATH, every destination keeps the coupled joints in their limits; the builder's other
   * errors cannot occur.
   */
  method BuildBatch(goal: Goal, maxNodes: nat, c: Coupling, b: nat) returns (r: Result<seq<int>, BatchError>)
    requires Runnable(goal, maxNodes) && b < |Batches(goal)|
    ensures var batch := Batches(goal)[b];
            && (r.Ok? <==> PassesReverse(goal, batch) && AllPlannable(goal, c, Destinations(goal, batch)))
            && (r.Ok? ==> r.value == Destinations(goal, batch))
            && (r.Err? ==> r.error == if PassesReverse(goal, batch) then OutsideLimits else ReverseArc)
    ensures r == Err(OutsideLimits) ==> goal.pathType == JOINT
    ensures r == Err(ReverseArc) ==> goal.pathType == CARTESIAN && goal.Start() > goal.End()
  {
    BatchIndexes(goal, b);
    BatchEndsAtDestination(goal, maxNodes, b);
    var batch := Batches(goal)[b];
    DestinationsKeep(goal, batch);
    forall i | 0 <= i < |batch| && ArcAt(goal, batch[i])
      ensures ViaAt(goal, batch[i] - 1)
    {
      ArcIsPreceded(goal, maxNodes, batch[i]);
    }
    assert goal.pathType == JOINT ==> !HasArcNode(goal, batch);
    if goal.Start() <= goal.End() {
      ForwardBatch(goal, b);
    }
    r := BatchItems(goal, c, batch);
    if r.Err? {
      match r.error
      case EmptyBatch =>
      case ReverseArc =>
      case NoDestination =>
      case OutsideLimits =>
      case NoVia =>
    }
  }

  lemma {:induction false} ForwardBatch(goal: Goal, b: nat)
    requires ValidRange(goal) && goal.Start() <= goal.End() && b < |Batches(goal)|
    ensures SeenAsForward(Batches(goal)[b])
  {
    var batches, range := Batches(goal), Range(goal.Start(), goal.End());
    BatchesAreExact(goal);
    BatchIsStretch(batches, b);
    var from, n := Offset(batches, b), |batches[b]|;
    assert n >= 2 ==> batches[b][0] == range[from] && batches[b][n - 1] == range[from + n - 1];
  }

  // Running a PATH with arcs backwards.

  lemma {:induction false} ReversedBatch(goal: Goal, b: nat)
    requires ValidRange(goal) && goal.Start() > goal.End() && b < |Batches(goal)|
    ensures SeenAsForward(Batches(goal)[b]) <==> |Batches(goal)[b]| < 2
  {
    var batches, range := Batches(goal), Range(goal.Start(), goal.End());
    BatchesAreExact(goal);
    BatchIsStretch(batches, b);
    var from, n := Offset(batches, b), |batches[b]|;
    assert n >= 2 ==> batches[b][0] == range[from] && batches[b][n - 1] == range[from + n - 1];
  }

  /** A node after another in the range shares the batch with it unless the earlier one waits. */
  lemma {:induction false} SharedBatch(goal: Goal, index: int) returns (b: nat, i: nat)
    requires ValidRange(goal) && goal.Start() > index >= goal.End() && !NodeWaits(goal, index + 1)
    ensures b < |Batches(goal)| && 0 < i < |Batches(goal)[b]|
    ensures Batches(goal)[b][i] == index && Batches(goal)[b][i - 1] == index + 1
  {
    var range := Range(goal.Start(), goal.End());
    var p := goal.Start() - index;
    BatchesAreExact(goal);
    assert range[p] == index && range[p - 1] == index + 1;
    b, i := Locate(Batches(goal), p);
    Predecessor(Batches(goal), WaitsIn(goal), b, i);
  }

  predicate ArcsClearOfReverse(goal: Goal) {
    && (forall j :: goal.End() < j <= goal.Start() ==> !ArcAt(goal, j) && !ViaAt(goal, j))
    && (ArcAt(goal, goal.End()) ==> NodeWaits(goal, goal.End() + 1))
  }

  /**
   * A PATH run backwards passes the reverse check in every batch exactly if no arc or via lies in its
   * range, other than an arc at its very end that follows a wait; such an arc is then planned forward.
   */
  lemma {:induction false} ReverseCheck(goal: Goal, maxNodes: nat)
    requires Runnable(goal, maxNodes) && goal.Start() > goal.End()
    ensures (forall b :: 0 <= b < |Batches(goal)| ==> PassesReverse(goal, Batches(goal)[b])) <==>
            ArcsClearOfReverse(goal)
  {
    if ArcsClearOfReverse(goal) {
      forall b | 0 <= b < |Batches(goal)|
        ensures PassesReverse(goal, Batches(goal)[b])
      {
        ClearBatchPasses(goal, maxNodes, b);
      }
    } else if ArcAt(goal, goal.End()) && !NodeWaits(goal, goal.End() + 1) {
      EndIsCaught(goal);
    } else {
      var j :| goal.End() < j <= goal.Start() && (ArcAt(goal, j) || ViaAt(goal, j));
      if ArcAt(goal, j) {
        ArcIsPreceded(goal, maxNodes, j);
        ViasNeitherWaitNorEnd(goal, maxNodes, j - 1);
      }
      ViaIsCaught(goal, maxNodes, if ArcAt(goal, j) then j - 1 else j);
    }
  }

  lemma {:induction false} EndIsCaught(goal: Goal)
    requires ValidRange(goal) && goal.Start() > goal.End()
    requires ArcAt(goal, goal.End()) && !NodeWaits(goal, goal.End() + 1)
    ensures exists b :: 0 <= b < |Batches(goal)| && !PassesReverse(goal, Batches(goal)[b])
  {
    var b, i := SharedBatch(goal, goal.End());
    ReversedBatch(goal, b);
    assert HasArcNode(goal, Batches(goal)[b]);
  }

  lemma {:induction false} ViaIsCaught(goal: Goal, maxNodes: nat, index: int)
    requires Runnable(goal, maxNodes) && goal.End() < index <= goal.Start() && ViaAt(goal, index)
    ensures exists b :: 0 <= b < |Batches(goal)| && !PassesReverse(goal, Batches(goal)[b])
  {
    ViasNeitherWaitNorEnd(goal, maxNodes, index);
    var b, i := SharedBatch(goal, index - 1);
    ReversedBatch(goal, b);
    assert HasArcNode(goal, Batches(goal)[b]);
  }

  /** In such a goal, the only arc of the range that a batch may hold follows a wait. */
  lemma {:induction false} OnlyTheEnd(goal: Goal, maxNodes: nat, index: int)
    requires Runnable(goal, maxNodes) && goal.Start() >= index >= goal.End() && ArcsClearOfReverse(goal)
    requires ArcAt(goal, index) || ViaAt(goal, index)
    ensures index == goal.End() && NodeWaits(goal, index + 1)
  {
    if ViaAt(goal, index) {
      ViasNeitherWaitNorEnd(goal, maxNodes, index);
    }
  }

  lemma {:induction false} ClearBatchPasses(goal: Goal, maxNodes: nat, b: nat)
    requires Runnable(goal, maxNodes) && goal.Start() > goal.End() && ArcsClearOfReverse(goal) && b < |Batches(goal)|
    ensures PassesReverse(goal, Batches(goal)[b])
  {
    ReversedBatch(goal, b);
    if |Batches(goal)[b]| >= 2 {
      forall i | 0 <= i < |Batches(goal)[b]|
        ensures !ArcAt(goal, Batches(goal)[b][i]) && !ViaAt(goal, Batches(goal)[b][i])
      {
        ClearNode(goal, maxNodes, b, i);
      }
    }
  }

  lemma {:induction false} ReversedIndex(goal: Goal, b: nat, i: nat)
    requires ValidRange(goal) && goal.Start() > goal.End() && b < |Batches(goal)| && i < |Batches(goal)[b]|
    ensures var p := Offset(Batches(goal), b) + i;
            Batches(goal)[b][i] == goal.Start() - p >= goal.End()
              && (i > 0 ==> Batches(goal)[b][i - 1] == goal.Start() - p + 1)
  {
    var range := Range(goal.Start(), goal.End());
    BatchesAreExact(goal);
    Predecessor(Batches(goal), WaitsIn(goal), b, i);
    var p := Offset(Batches(goal), b) + i;
    assert range[p] == goal.Start() - p && (p > 0 ==> range[p - 1] == range[p] + 1);
  }

  /** The range's last node, when it shares a batch, does not follow a wait. */
  lemma {:induction false} EndSharesBatch(goal: Goal, b: nat, i: nat)
    requires ValidRange(goal) && goal.Start() > goal.End() && b < |Batches(goal)| && i < |Batches(goal)[b]|
    requires |Batches(goal)[b]| >= 2 && Batches(goal)[b][i] == goal.End()
    ensures !NodeWaits(goal, goal.End() + 1)
  {
    var last := |Batches(goal)[b]| - 1;
    BatchesAreExact(goal);
    ReversedIndex(goal, b, i);
    ReversedIndex(goal, b, last);
    hide Batches, Offset;
    assert i == last;
    assert !WaitsIn(goal)(Batches(goal)[b][i - 1]);
  }

  lemma {:induction false} ClearNode(goal: Goal, maxNodes: nat, b: nat, i: nat)
    requires Runnable(goal, maxNodes) && goal.Start() > goal.End() && ArcsClearOfReverse(goal)
    requires b < |Batches(goal)| && i < |Batches(goal)[b]| && |Batches(goal)[b]| >= 2
    ensures !ArcAt(goal, Batches(goal)[b][i]) && !ViaAt(goal, Batches(goal)[b][i])
  {
    var index := Batches(goal)[b][i];
    ReversedIndex(goal, b, i);
    if ArcAt(goal, index) || ViaAt(goal, index) {
      OnlyTheEnd(goal, maxNodes, index);
      EndSharesBatch(goal, b, i);
    }
  }

  // A reverse range whose last batch is a lone arc.

  const ORIGIN := [0.0, 0.0, 0.0, 0.0, 0.0, 0.0]

  function ArcNode(motionType: nat, wait: bool): PathNode {
    PlainNode(motionType, ORIGIN, 50.0, wait)
  }

  const REVERSE_ARC :=
    Goal(1, CARTESIAN, [], [],
         [ArcNode(MOTION_LINEAR, false), ArcNode(MOTION_SEG_VIA, false), ArcNode(MOTION_CIRCULAR, false),
          ArcNode(MOTION_LINEAR, true)],
         4, 3)

  lemma {:induction false} ArcNodeIsValid(motionType: nat, wait: bool)
    requires motionType <= 3
    ensures ValidNode(ArcNode(motionType, wait), CARTESIAN, {}, {})
  {
    ZeroMask({});
  }

  lemma {:induction false} ReverseArcIsRunnable()
    ensures Runnable(REVERSE_ARC, 256)
  {
    ArcNodeIsValid(MOTION_LINEAR, false);
    ArcNodeIsValid(MOTION_SEG_VIA, false);
    ArcNodeIsValid(MOTION_CIRCULAR, false);
    ArcNodeIsValid(MOTION_LINEAR, true);
    assert FrameIndexes([]) == {} && Slots([]) == {};
  }

  /**
   * The reverse check looks only at the two ends of a batch, so a valid goal run backwards can have its
   * arc planned as a forward one: both batches of this goal are built.
   */
  lemma {:induction false} ReverseCheckMissesLoneArcs()
    ensures Runnable(REVERSE_ARC, 256) && REVERSE_ARC.Start() > REVERSE_ARC.End()
    ensures Batches(REVERSE_ARC) == [[4], [3]] && ArcAt(REVERSE_ARC, 3)
    ensures SeenAsForward([4]) && SeenAsForward([3])
  {
    hide Runnable, Pieces;
    ReverseArcIsRunnable();
    var ends := WaitsIn(REVERSE_ARC);
    assert ends(4) && !ends(3);
    assert CutAtEnds([[4], [3]], ends);
    assert Range(4, 3) == [4, 3];
    assert [[4], [3]][1..] == [[3]] && [[3]][1..] == [];
    assert Flatten([[3]]) == [3];
    assert Flatten([[4], [3]]) == [4, 3];
    CutIsUnique([[4], [3]], ends);
  }
}
