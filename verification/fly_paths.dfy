/** The FLY queue, its execution, and the PATH that publish_fly_path records for it. */
module FlyPaths {
  import opened Wrappers
  import opened JointNames
  import opened PathMessages
  import opened PathProtocol
  import opened PathModel
  import opened PathBlocks
  import opened CoupledJoints
  import T = TrajectoryPaths

  datatype QueueType = NoType | CartesianQueue | JointQueue

  datatype SegmentType = Linear | Circular | JointMove

  datatype Segment = Segment(kind: SegmentType, values: seq<real>)

  datatype FlyMode = Normal | Cartesian

  /** FlySettings and the speed settings a recorded node takes. */
  datatype Settings = Settings(
    mode: FlyMode, normalPercent: real, stressPercent: real, trajectoryMode: nat, distance: real,
    linearSpeed: real, overrides: seq<real>)

  function TypeOf(kind: SegmentType): QueueType {
    if kind.JointMove? then JointQueue else CartesianQueue
  }

  datatype Queue = Queue(segments: seq<Segment>, kind: QueueType)

  datatype QueueError = Full | Mixed

  function AddOf(q: Queue, maxPoints: nat, s: Segment): Result<Queue, QueueError> {
    if |q.segments| >= maxPoints then Err(Full)
    else if q.kind != NoType && q.kind != TypeOf(s.kind) then Err(Mixed)
    else Ok(Queue(q.segments + [s], TypeOf(s.kind)))
  }

  /** A queue never exceeds its capacity, and its type is the type of every segment in it. */
  predicate Consistent(q: Queue, maxPoints: nat) {
    && |q.segments| <= maxPoints
    && (q.segments == [] <==> q.kind == NoType)
    && (forall i :: 0 <= i < |q.segments| ==> TypeOf(q.segments[i].kind) == q.kind)
  }

  class FlyQueue {
    const maxPoints: nat
    var segments: seq<Segment>
    var kind: QueueType

    ghost function View(): Queue
      reads this
    {
      Queue(segments, kind)
    }

    ghost predicate Valid()
      reads this
    {
      Consistent(View(), maxPoints)
    }

    constructor (maxPoints: nat)
      requires maxPoints > 0
      ensures Valid() && View() == Queue([], NoType) && this.maxPoints == maxPoints
    {
      this.maxPoints := maxPoints;
      segments, kind := [], NoType;
    }

    method Add(s: Segment) returns (error: Option<QueueError>)
      requires Valid()
      modifies this
      ensures Valid()
      ensures match AddOf(old(View()), maxPoints, s)
              case Ok(q) => error == None && View() == q
              case Err(e) => error == Some(e) && View() == old(View())
    {
      if |segments| >= maxPoints {
        return Some(Full);
      }
      if kind != NoType && kind != TypeOf(s.kind) {
        return Some(Mixed);
      }
      kind := TypeOf(s.kind);
      segments := segments + [s];
      return None;
    }

    method Clear()
      modifies this
      ensures Valid() && View() == Queue([], NoType)
    {
      segments, kind := [], NoType;
    }
  }

  // publish_fly_path.

  function MaxOverride(overrides: seq<real>): real {
    if |overrides| == 0 then 0.0
    else if |overrides| == 1 then overrides[0]
    else
      var rest := MaxOverride(overrides[1..]);
      if overrides[0] >= rest then overrides[0] else rest
  }

  /** `command_path_node`. */
  function CommandNode(s: Settings, motionType: nat, target: seq<real>, reference: nat): PathNode {
    PathNode(motionType, target, s.linearSpeed, 10.0, MaxOverride(s.overrides), 1, 1.0, true, false, 0, 75.0, 0.0,
             0, 0.0, reference, 0, 0, 0, false)
  }

  function Flying(s: Settings, node: PathNode): PathNode {
    if s.mode.Cartesian? then
      node.(fly := true, flyType := 1, flyDistance := s.distance, flyTrajectory := s.trajectoryMode,
            stressPercent := s.stressPercent, flyPercent := 100.0)
    else node.(fly := true, flyType := 0, flyPercent := s.normalPercent)
  }

  function WithFly(s: Settings, node: PathNode, fly: bool): PathNode {
    if fly then Flying(s, node) else node
  }

  predicate Sized(segment: Segment) {
    |segment.values| == if segment.kind.Circular? then 12 else 6
  }

  function Reference(kind: QueueType): nat {
    if kind == JointQueue then 0 else 1
  }

  /** One segment's nodes: a circular one becomes its via and its destination; only the destination flies. */
  function SegmentNodes(s: Settings, segment: Segment, reference: nat, fly: bool): seq<PathNode>
    requires Sized(segment)
  {
    match segment.kind
    case Circular =>
      [CommandNode(s, MOTION_SEG_VIA, segment.values[..6], reference),
       WithFly(s, CommandNode(s, MOTION_CIRCULAR, segment.values[6..], reference), fly)]
    case Linear => [WithFly(s, CommandNode(s, MOTION_LINEAR, segment.values, reference), fly)]
    case JointMove => [WithFly(s, CommandNode(s, MOTION_JOINT, segment.values, reference), fly)]
  }

  /** The nodes of the first n segments; every segment but the queue's last flies. */
  function FlyNodes(s: Settings, q: Queue, n: nat): seq<PathNode>
    requires n <= |q.segments| && SizedQueue(q)
  {
    if n == 0 then []
    else FlyNodes(s, q, n - 1) + SegmentNodes(s, q.segments[n - 1], Reference(q.kind), n < |q.segments|)
  }

  method PublishFlyNodes(s: Settings, q: Queue) returns (nodes: seq<PathNode>)
    requires SizedQueue(q)
    ensures nodes == FlyNodes(s, q, |q.segments|)
  {
    nodes := [];
    var reference := Reference(q.kind);
    for index := 0 to |q.segments|
      invariant nodes == FlyNodes(s, q, index)
    {
      var segment := q.segments[index];
      var fly := index + 1 < |q.segments|;
      var added: seq<PathNode>;
      if segment.kind.Circular? {
        added := [CommandNode(s, MOTION_SEG_VIA, segment.values[..6], reference),
                  CommandNode(s, MOTION_CIRCULAR, segment.values[6..], reference)];
      } else {
        var motionType := if segment.kind.JointMove? then MOTION_JOINT else MOTION_LINEAR;
        added := [CommandNode(s, motionType, segment.values, reference)];
      }
      if fly {
        added := added[|added| - 1 := Flying(s, added[|added| - 1])];
      }
      nodes := nodes + added;
    }
  }

  /** The recorded block; `frame` is the user frame, `start` and `end` the trajectory's joint angles. */
  function FlyBlock(s: Settings, q: Queue, frame: seq<real>, start: Six, end: Six): Block
    requires SizedQueue(q)
  {
    var nodes := FlyNodes(s, q, |q.segments|);
    Block(0, if q.kind == JointQueue then JOINT else CARTESIAN,
          if q.kind == JointQueue then [] else [PathFrame(1, frame)], [], nodes, 1, |nodes|, start, end, false)
  }

  // The block is a valid PATH.

  predicate ValidSettings(s: Settings) {
    && 1.0 <= s.normalPercent <= 100.0
    && s.trajectoryMode <= 3 && s.distance >= 0.0
    && s.overrides != [] && (forall i :: 0 <= i < |s.overrides| ==> 1.0 <= s.overrides[i] <= 100.0)
  }

  lemma {:induction false} MaxIsOverride(overrides: seq<real>)
    requires overrides != [] && forall i :: 0 <= i < |overrides| ==> 1.0 <= overrides[i] <= 100.0
    ensures 1.0 <= MaxOverride(overrides) <= 100.0
  {
    if |overrides| > 1 {
      MaxIsOverride(overrides[1..]);
    }
  }

  function Tables(kind: QueueType): set<nat> {
    if kind == JointQueue then {} else {1}
  }

  function PathType(kind: QueueType): nat {
    if kind == JointQueue then JOINT else CARTESIAN
  }

  lemma {:induction false} FlyNodeIsValid(s: Settings, kind: QueueType, motionType: nat, target: seq<real>, fly: bool)
    requires ValidSettings(s) && |target| == 6
    requires if kind == JointQueue then motionType == MOTION_JOINT else motionType <= 3
    ensures var node := WithFly(s, CommandNode(s, motionType, target, Reference(kind)), fly);
            && node.motionType == motionType && !node.wait && node.fly == fly
            && (ValidNode(node, PathType(kind), Tables(kind), {}) <==>
               !(kind == JointQueue && fly && s.mode.Cartesian?))
  {
    MaxIsOverride(s.overrides);
    ZeroMask({});
  }

  /** Whether a flying node of this queue is one the controller can run. */
  predicate ModeFits(s: Settings, kind: QueueType) {
    kind == JointQueue ==> s.mode.Normal?
  }

  predicate FlyValid(s: Settings, kind: QueueType, nodes: seq<PathNode>) {
    && ArcOrder(nodes)
    && (forall i :: 0 <= i < |nodes| ==> ValidNode(nodes[i], PathType(kind), Tables(kind), {}) && !nodes[i].wait)
    && (nodes != [] ==> nodes[0].motionType != MOTION_CIRCULAR && nodes[|nodes| - 1].motionType != MOTION_SEG_VIA)
  }

  lemma {:induction false} SegmentIsValid(s: Settings, kind: QueueType, segment: Segment, fly: bool)
    requires ValidSettings(s) && Sized(segment) && TypeOf(segment.kind) == kind && (fly ==> ModeFits(s, kind))
    ensures FlyValid(s, kind, SegmentNodes(s, segment, Reference(kind), fly))
    ensures SegmentNodes(s, segment, Reference(kind), fly) != []
  {
    match segment.kind
    case Circular =>
      FlyNodeIsValid(s, kind, MOTION_SEG_VIA, segment.values[..6], false);
      FlyNodeIsValid(s, kind, MOTION_CIRCULAR, segment.values[6..], fly);
    case Linear => FlyNodeIsValid(s, kind, MOTION_LINEAR, segment.values, fly);
    case JointMove => FlyNodeIsValid(s, kind, MOTION_JOINT, segment.values, fly);
  }

  lemma {:induction false} ConcatIsValid(s: Settings, kind: QueueType, a: seq<PathNode>, b: seq<PathNode>)
    requires FlyValid(s, kind, a) && FlyValid(s, kind, b) && b != []
    ensures FlyValid(s, kind, a + b)
  {
    ArcsConcat(a, b);
  }

  predicate SizedQueue(q: Queue) {
    forall i :: 0 <= i < |q.segments| ==> Sized(q.segments[i])
  }

  lemma {:induction false} FlyNodesAreValid(s: Settings, q: Queue, maxPoints: nat, n: nat)
    requires ValidSettings(s) && Consistent(q, maxPoints) && SizedQueue(q) && n <= |q.segments|
    requires |q.segments| >= 2 ==> ModeFits(s, q.kind)
    ensures FlyValid(s, q.kind, FlyNodes(s, q, n)) && (n > 0 ==> FlyNodes(s, q, n) != [])
  {
    if n > 0 {
      FlyNodesAreValid(s, q, maxPoints, n - 1);
      SegmentIsValid(s, q.kind, q.segments[n - 1], n < |q.segments|);
      ConcatIsValid(s, q.kind, FlyNodes(s, q, n - 1),
        SegmentNodes(s, q.segments[n - 1], Reference(q.kind), n < |q.segments|));
    }
  }

  lemma {:induction false} FlyTables(q: Queue, s: Settings, frame: seq<real>, start: Six, end: Six)
    requires SizedQueue(q)
    ensures FrameIndexes(FlyBlock(s, q, frame, start, end).frames) == Tables(q.kind) && Slots([]) == {}
  {
    assert FrameIndexes([]) == {};
    assert FrameIndexes([PathFrame(1, frame)]) == {1} by {
      assert PathFrame(1, frame) in [PathFrame(1, frame)];
    }
  }

  // execute_fly_queue.

  function JointTarget(c: Coupling, segment: Segment): Option<Six>
    requires Sized(segment) && segment.kind.JointMove?
  {
    PlanningJointTarget(c, segment.values)
  }

  predicate Reachable(c: Coupling, segment: Segment)
    requires Sized(segment)
  {
    segment.kind.JointMove? ==> JointTarget(c, segment).Some?
  }

  /** build_pilz_sequence's guards: two segments, the FLY mode of the queue, and joint targets in their limits. */
  predicate FlyAccepted(s: Settings, q: Queue, c: Coupling)
    requires SizedQueue(q)
  {
    && |q.segments| >= 2
    && (q.kind == CartesianQueue ==> s.mode.Cartesian?)
    && (q.kind == JointQueue ==> s.mode.Normal?)
    && (forall i :: 0 <= i < |q.segments| ==> Reachable(c, q.segments[i]))
  }

  datatype FlyError = TooFew | WrongMode | OutsideLimits | NotMoved | NotRecorded(error: T.Error)

  /** Planning and execution of the sequence: its combined trajectory, or a failure. */
  datatype Outcome = Failed | Moved(names: seq<string>, points: seq<seq<real>>)

  method CheckFly(s: Settings, q: Queue, c: Coupling) returns (error: Option<FlyError>)
    requires SizedQueue(q)
    ensures error.None? <==> FlyAccepted(s, q, c)
  {
    if |q.segments| < 2 {
      return Some(TooFew);
    }
    if q.kind == CartesianQueue && !s.mode.Cartesian? {
      return Some(WrongMode);
    }
    if q.kind == JointQueue && !s.mode.Normal? {
      return Some(WrongMode);
    }
    for i := 0 to |q.segments|
      invariant forall k :: 0 <= k < i ==> Reachable(c, q.segments[k])
    {
      if q.segments[i].kind.JointMove? {
        if PlanningJointTarget(c, q.segments[i].values).None? {
          assert !Reachable(c, q.segments[i]);
          return Some(OutsideLimits);
        }
      }
    }
    return None;
  }

  /** The block is published exactly if the sequence was accepted, moved and recorded; only then is it cleared. */
  method ExecuteFlyQueue(queue: FlyQueue, s: Settings, frame: seq<real>, o: T.Options, moved: Outcome)
    returns (r: Result<Block, FlyError>)
    requires queue.Valid() && SizedQueue(queue.View())
    modifies queue
    ensures queue.Valid()
    ensures r.Ok? <==>
              FlyAccepted(s, old(queue.View()), o.coupling) && moved.Moved?
                && T.Recordable(o, moved.names, moved.points)
    ensures r.Ok? ==>
              var ends := T.RecordedBlock(o, T.Kept(o, moved.names, moved.points));
              && r.value == FlyBlock(s, old(queue.View()), frame, ends.expectedStart, ends.expectedEnd)
              && queue.View() == Queue([], NoType)
    ensures r.Err? ==> queue.View() == old(queue.View())
  {
    var q := Queue(queue.segments, queue.kind);
    var error := CheckFly(s, q, o.coupling);
    if error.Some? {
      return Err(error.value);
    }
    if moved.Failed? {
      return Err(NotMoved);
    }
    var nodes := PublishFlyNodes(s, q);
    var ends := T.TrajectoryToJointPath(o, moved.names, moved.points);
    if ends.Err? {
      return Err(NotRecorded(ends.error));
    }
    var joint := q.kind == JointQueue;
    r := Ok(Block(0, if joint then JOINT else CARTESIAN, if joint then [] else [PathFrame(1, frame)], [], nodes, 1,
                  |nodes|, ends.value.expectedStart, ends.value.expectedEnd, false));
    queue.Clear();
  }

  /** How many nodes a queue records: one a segment, and the vias. */
  function Circulars(segments: seq<Segment>): nat {
    if segments == [] then 0
    else Circulars(segments[..|segments| - 1]) + (if segments[|segments| - 1].kind.Circular? then 1 else 0)
  }

  lemma {:induction false} NodeCount(s: Settings, q: Queue, n: nat)
    requires SizedQueue(q) && n <= |q.segments|
    ensures |FlyNodes(s, q, n)| == n + Circulars(q.segments[..n])
  {
    if n > 0 {
      NodeCount(s, q, n - 1);
      assert q.segments[..n][..n - 1] == q.segments[..n - 1];
    }
  }

  /** Whatever is published runs under both validators, with an id filled in, exactly if its nodes fit. */
  lemma {:induction false} PublishedIsRunnable(
    s: Settings, q: Queue, maxPoints: nat, c: Coupling, frame: seq<real>, start: Six, end: Six, id: nat, maxNodes: nat)
    requires ValidSettings(s) && Consistent(q, maxPoints) && SizedQueue(q) && FlyAccepted(s, q, c) && |frame| == 6
    requires 0 < id <= MAX_ID
    ensures Runnable(PathGoal(FlyBlock(s, q, frame, start, end), id), maxNodes) <==>
            |q.segments| + Circulars(q.segments) <= maxNodes
  {
    var n := |q.segments|;
    var goal := PathGoal(FlyBlock(s, q, frame, start, end), id);
    FlyTables(q, s, frame, start, end);
    FlyNodesAreValid(s, q, maxPoints, n);
    NodeCount(s, q, n);
    assert q.segments[..n] == q.segments;
    assert goal.nodes == FlyNodes(s, q, n);
    assert forall i :: 0 <= i < |goal.nodes| ==>
        ValidNode(goal.nodes[i], goal.pathType, FrameIndexes(goal.frames), Slots(goal.conditions));
  }

  /** Every node but the last and the vias flies. */
  lemma {:induction false} OnlyTheLastStops(s: Settings, q: Queue, n: nat)
    requires SizedQueue(q) && 0 < n <= |q.segments|
    ensures var nodes := FlyNodes(s, q, n);
            && nodes != []
            && (forall k :: 0 <= k < |nodes| ==>
                  (nodes[k].fly <==> nodes[k].motionType != MOTION_SEG_VIA && (k < |nodes| - 1 || n < |q.segments|)))
            && nodes[|nodes| - 1].motionType != MOTION_SEG_VIA
  {
    assert FlyNodes(s, q, 0) == [];
    if n > 1 {
      OnlyTheLastStops(s, q, n - 1);
    }
  }
}
