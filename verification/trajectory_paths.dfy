/**
 * ompl_trajectory_to_path.cpp: a planned joint trajectory recorded as a JOINT PATH, and
 * path_sequence_builder.cpp's planning_joint_target, which plans a recorded node again.
 */
module TrajectoryPaths {
  import opened Wrappers
  import opened JointNames
  import opened CoupledJoints
  import opened PathMessages
  import opened PathProtocol
  import opened PathModel
  import opened PathBlocks
  import opened Reals

  const ACTIVE := ["joint_1", "joint_2", "joint_7", "joint_4", "joint_5", "joint_6"]

  datatype Options = Options(
    coupling: Coupling, threshold: real, segmentOverride: real, maxNodes: nat, terminationType: nat, omitInitial: bool)

  datatype Error = BadOptions | EmptyTrajectory | WrongJoints | IncompletePoint | OutsideLimits | TooManyNodes

  // validate_coupled_trajectory.

  predicate CoupledPoint(c: Coupling, names: seq<string>, p: seq<real>) {
    var j2, j7 := IndexOf(names, "joint_2"), IndexOf(names, "joint_7");
    j2 < |p| && j7 < |p| && c.Allows(c.Joint3(p[j2], p[j7]), p[j7])
  }

  predicate Coupled(c: Coupling, names: seq<string>, points: seq<seq<real>>) {
    && "joint_2" in names && "joint_7" in names
    && forall i :: 0 <= i < |points| ==> CoupledPoint(c, names, points[i])
  }

  method ValidateCoupledTrajectory(c: Coupling, names: seq<string>, points: seq<seq<real>>) returns (ok: bool)
    ensures ok <==> Coupled(c, names, points)
  {
    var index2 := FindJoint(names, "joint_2");
    var index7 := FindJoint(names, "joint_7");
    if index2 == |names| || index7 == |names| {
      return false;
    }
    for i := 0 to |points|
      invariant forall k :: 0 <= k < i ==> CoupledPoint(c, names, points[k])
    {
      var positions := points[i];
      if index2 >= |positions| || index7 >= |positions| {
        return false;
      }
      var joint2, joint7 := positions[index2], positions[index7];
      var joint3 := joint7 - joint2 - c.offset;
      if joint7 < c.joint7Min || joint7 > c.joint7Max || joint3 < c.joint3Min || joint3 > c.joint3Max {
        return false;
      }
    }
    return true;
  }

  // trajectory_to_joint_path.

  predicate HasActive(names: seq<string>) {
    |names| == 6 && forall k :: 0 <= k < 6 ==> ACTIVE[k] in names
  }

  /** The planner's joint in place k of ACTIVE. */
  function Planner(names: seq<string>, p: seq<real>, k: nat): real
    requires k < 6 && HasActive(names) && |p| == 6
  {
    p[IndexOf(names, ACTIVE[k])]
  }

  function PlannerJoints(names: seq<string>, p: seq<real>): Six
    requires HasActive(names) && |p| == 6
  {
    [Planner(names, p, 0), Planner(names, p, 1), Planner(names, p, 2), Planner(names, p, 3), Planner(names, p, 4),
     Planner(names, p, 5)]
  }

  /** `c4g_axes`: physical joints in degrees. */
  function Axes(o: Options, names: seq<string>, p: seq<real>): Six
    requires HasActive(names) && |p| == 6
  {
    [Degrees(Planner(names, p, 0)), Degrees(Planner(names, p, 1)),
     Degrees(o.coupling.Joint3(Planner(names, p, 1), Planner(names, p, 2))), Degrees(Planner(names, p, 3)),
     Degrees(Planner(names, p, 4)), Degrees(Planner(names, p, 5))]
  }

  /** `nearly_equal`. */
  predicate Near(o: Options, a: Six, b: Six) {
    forall k :: 0 <= k < 6 ==> Distance(a[k], b[k]) <= Degrees(o.threshold)
  }

  function Keep(o: Options, kept: seq<Six>, a: Six): seq<Six> {
    if kept == [] || !Near(o, kept[|kept| - 1], a) then kept + [a] else kept
  }

  predicate SixEach(points: seq<seq<real>>) {
    forall i :: 0 <= i < |points| ==> |points[i]| == 6
  }

  /** The samples kept: each one farther than the threshold from the last one kept. */
  function Kept(o: Options, names: seq<string>, points: seq<seq<real>>): (r: seq<Six>)
    requires HasActive(names) && SixEach(points)
    ensures points != [] ==> r != [] && r[0] == Axes(o, names, points[0])
  {
    if points == [] then []
    else Keep(o, Kept(o, names, points[..|points| - 1]), Axes(o, names, points[|points| - 1]))
  }

  function Node(o: Options, target: seq<real>): PathNode {
    PathNode(MOTION_JOINT, target, 0.0, 0.0, o.segmentOverride, o.terminationType, 0.0, true, false, 0, 0.0, 0.0,
             0, 0.0, 0, 0, 0, 0, false)
  }

  function Nodes(o: Options, axes: seq<Six>): (r: seq<PathNode>)
    ensures |r| == |axes| && forall i :: 0 <= i < |r| ==> r[i] == Node(o, axes[i])
  {
    seq(|axes|, i requires 0 <= i < |axes| => Node(o, axes[i]))
  }

  function FirstNode(o: Options): nat {
    if o.omitInitial then 1 else 0
  }

  function RecordedBlock(o: Options, kept: seq<Six>): Block
    requires kept != []
  {
    Block(0, JOINT, [], [], Nodes(o, kept[FirstNode(o)..]), 1, |kept| - FirstNode(o), kept[0], kept[|kept| - 1], false)
  }

  predicate ValidOptions(o: Options) {
    o.maxNodes > 0 && 0.0 < o.segmentOverride <= 100.0
  }

  /** Every point is complete and within the coupled limits. */
  predicate Convertible(o: Options, names: seq<string>, points: seq<seq<real>>) {
    && ValidOptions(o) && points != [] && HasActive(names) && SixEach(points)
    && AllCoupled(o.coupling, names, points)
  }

  /** The conversion succeeds: its input is convertible and the samples kept fit. */
  predicate Recordable(o: Options, names: seq<string>, points: seq<seq<real>>) {
    Convertible(o, names, points) && |Kept(o, names, points)| - FirstNode(o) <= o.maxNodes
  }

  method ConvertPoint(o: Options, names: seq<string>, p: seq<real>) returns (r: Result<Six, Error>)
    requires HasActive(names)
    ensures r.Ok? <==> |p| == 6 && CoupledPoint(o.coupling, names, p)
    ensures r.Ok? ==> r.value == Axes(o, names, p)
    ensures r.Err? ==> r.error == (if |p| != 6 then IncompletePoint else OutsideLimits)
  {
    if |p| != |names| {
      return Err(IncompletePoint);
    }
    assert ACTIVE[1] in names && ACTIVE[2] in names;
    var joint2, joint7 := p[IndexOf(names, "joint_2")], p[IndexOf(names, "joint_7")];
    var joint3 := joint7 - joint2 - o.coupling.offset;
    if joint3 < o.coupling.joint3Min || joint3 > o.coupling.joint3Max ||
       joint7 < o.coupling.joint7Min || joint7 > o.coupling.joint7Max {
      return Err(OutsideLimits);
    }
    return Ok(Axes(o, names, p));
  }

  method NearlyEqual(o: Options, left: Six, right: Six) returns (r: bool)
    ensures r <==> Near(o, left, right)
  {
    for index := 0 to 6
      invariant forall k :: 0 <= k < index ==> Distance(left[k], right[k]) <= Degrees(o.threshold)
    {
      if Distance(left[index], right[index]) > Degrees(o.threshold) {
        return false;
      }
    }
    return true;
  }

  method CheckNames(names: seq<string>) returns (ok: bool)
    ensures ok <==> HasActive(names)
  {
    if |names| != 6 {
      return false;
    }
    for k := 0 to 6
      invariant forall j :: 0 <= j < k ==> ACTIVE[j] in names
    {
      var index := FindJoint(names, ACTIVE[k]);
      if index == |names| {
        return false;
      }
    }
    return true;
  }

  predicate AllCoupled(c: Coupling, names: seq<string>, points: seq<seq<real>>) {
    forall i :: 0 <= i < |points| ==> CoupledPoint(c, names, points[i])
  }

  /** The loop over the trajectory's points, which drops samples too near the last one kept. */
  method SamplePoints(o: Options, names: seq<string>, points: seq<seq<real>>) returns (r: Result<seq<Six>, Error>)
    requires HasActive(names)
    ensures r.Ok? <==> SixEach(points) && AllCoupled(o.coupling, names, points)
    ensures r.Ok? ==> r.value == Kept(o, names, points)
    ensures r == Err(OutsideLimits) ==>
              exists i :: 0 <= i < |points| && |points[i]| == 6 && !CoupledPoint(o.coupling, names, points[i])
  {
    hide CoupledPoint, Axes, Near;
    var axes: seq<Six> := [];
    for i := 0 to |points|
      invariant SixEach(points[..i]) && AllCoupled(o.coupling, names, points[..i])
      invariant axes == Kept(o, names, points[..i])
    {
      var converted := ConvertPoint(o, names, points[i]);
      if converted.Err? {
        return Err(converted.error);
      }
      assert points[..i + 1] == points[..i] + [points[i]];
      var near := false;
      if axes != [] {
        near := NearlyEqual(o, axes[|axes| - 1], converted.value);
      }
      if !near {
        axes := axes + [converted.value];
      }
    }
    assert points[..|points|] == points;
    return Ok(axes);
  }

  /** Conversion fails exactly on bad input, limit violations or too many nodes; else it records the samples. */
  method TrajectoryToJointPath(o: Options, names: seq<string>, points: seq<seq<real>>) returns (r: Result<Block, Error>)
    ensures r.Ok? <==> Recordable(o, names, points)
    ensures r.Ok? ==> r.value == RecordedBlock(o, Kept(o, names, points))
    ensures r == Err(OutsideLimits) ==>
              exists i :: 0 <= i < |points| && |points[i]| == 6 && !CoupledPoint(o.coupling, names, points[i])
  {
    if o.maxNodes == 0 || o.segmentOverride <= 0.0 || o.segmentOverride > 100.0 {
      return Err(BadOptions);
    }
    if points == [] {
      return Err(EmptyTrajectory);
    }
    var named := CheckNames(names);
    if !named {
      return Err(WrongJoints);
    }
    var axes := SamplePoints(o, names, points);
    if axes.Err? {
      return Err(axes.error);
    }
    if |axes.value| - FirstNode(o) > o.maxNodes {
      return Err(TooManyNodes);
    }
    return Ok(RecordedBlock(o, axes.value));
  }

  // What is recorded.

  lemma {:induction false} KeptStaysNear(o: Options, names: seq<string>, points: seq<seq<real>>)
    requires HasActive(names) && SixEach(points) && points != [] && o.threshold >= 0.0
    ensures var kept := Kept(o, names, points); Near(o, kept[|kept| - 1], Axes(o, names, points[|points| - 1]))
  {
    assert Degrees(o.threshold) >= 0.0;
  }

  /** Every sample is within the threshold of the last one kept by then. */
  lemma {:induction false} DroppedAreNear(o: Options, names: seq<string>, points: seq<seq<real>>, i: nat)
    requires HasActive(names) && SixEach(points) && i < |points| && o.threshold >= 0.0
    ensures var kept := Kept(o, names, points[..i + 1]);
            Near(o, kept[|kept| - 1], Axes(o, names, points[i])) && kept <= Kept(o, names, points)
  {
    KeptStaysNear(o, names, points[..i + 1]);
    assert points[..i + 1][i] == points[i];
    KeptGrows(o, names, points, i + 1);
  }

  lemma {:induction false} KeptGrows(o: Options, names: seq<string>, points: seq<seq<real>>, n: nat)
    requires HasActive(names) && SixEach(points) && n <= |points|
    ensures Kept(o, names, points[..n]) <= Kept(o, names, points)
  {
    if n < |points| {
      KeptGrows(o, names, points[..|points| - 1], n);
      assert points[..|points| - 1][..n] == points[..n];
    } else {
      assert points[..n] == points;
    }
  }

  /** Consecutive recorded samples are farther apart than the threshold. */
  lemma {:induction false} KeptAreApart(o: Options, names: seq<string>, points: seq<seq<real>>, k: nat)
    requires HasActive(names) && SixEach(points) && k + 1 < |Kept(o, names, points)|
    ensures var kept := Kept(o, names, points); !Near(o, kept[k], kept[k + 1])
  {
    var n := |points| - 1;
    var before := Kept(o, names, points[..n]);
    if k + 1 < |before| {
      KeptAreApart(o, names, points[..n], k);
    }
  }

  /** Every recorded sample is one of the trajectory's. */
  lemma {:induction false} KeptAreSamples(o: Options, names: seq<string>, points: seq<seq<real>>, k: nat)
    requires HasActive(names) && SixEach(points) && k < |Kept(o, names, points)|
    ensures exists i :: 0 <= i < |points| && Kept(o, names, points)[k] == Axes(o, names, points[i])
  {
    var n := |points| - 1;
    var before := Kept(o, names, points[..n]);
    if k < |before| {
      KeptAreSamples(o, names, points[..n], k);
      var i :| 0 <= i < n && before[k] == Axes(o, names, points[..n][i]);
      assert points[..n][i] == points[i];
    }
  }

  /** After coupled validation the conversion cannot fail on the joint limits. */
  lemma {:induction false} ValidatedIsConvertible(o: Options, names: seq<string>, points: seq<seq<real>>)
    requires Coupled(o.coupling, names, points) && ValidOptions(o) && points != [] && HasActive(names)
             && SixEach(points)
    ensures Convertible(o, names, points)
  {
  }

  /** The recorded block, if it has a node, is accepted by both validators under any id. */
  lemma {:induction false} RecordedIsSound(o: Options, kept: seq<Six>, maxNodes: nat)
    requires ValidOptions(o) && o.terminationType <= 4 && FirstNode(o) < |kept| && |kept| - FirstNode(o) <= maxNodes
    ensures Sound(RecordedBlock(o, kept), maxNodes)
  {
    var block := RecordedBlock(o, kept);
    var goal := PathGoal(block.(pathId := 1), 1);
    assert FrameIndexes([]) == {} && Slots([]) == {};
    forall i | 0 <= i < |goal.nodes|
      ensures ValidNode(goal.nodes[i], goal.pathType, FrameIndexes(goal.frames), Slots(goal.conditions))
    {
      NodeIsValid(o, kept[FirstNode(o)..][i]);
    }
  }

  lemma {:induction false} NodeIsValid(o: Options, target: Six)
    requires ValidOptions(o) && o.terminationType <= 4
    ensures ValidNode(Node(o, target), JOINT, {}, {})
  {
    ZeroMask({});
  }

  // Planning a recorded node again.

  lemma {:induction false} RadiansOfDegrees(x: real)
    ensures Radians(Degrees(x)) == x
  {
  }

  /** A recorded sample is accepted again, and gives back the planner's own joints. */
  lemma {:induction false} ReplayReturnsJoints(o: Options, names: seq<string>, p: seq<real>)
    requires HasActive(names) && |p| == 6 && CoupledPoint(o.coupling, names, p)
    ensures PlanningJointTarget(o.coupling, Axes(o, names, p)) == Some(PlannerJoints(names, p))
  {
    RadiansOfDegrees(Planner(names, p, 0));
    RadiansOfDegrees(Planner(names, p, 1));
    RadiansOfDegrees(o.coupling.Joint3(Planner(names, p, 1), Planner(names, p, 2)));
    RadiansOfDegrees(Planner(names, p, 3));
    RadiansOfDegrees(Planner(names, p, 4));
    RadiansOfDegrees(Planner(names, p, 5));
  }

  /** So every node recorded from a validated trajectory replans to a sample of that trajectory. */
  lemma {:induction false} EveryNodeReplays(o: Options, names: seq<string>, points: seq<seq<real>>, k: nat)
    requires Convertible(o, names, points) && k < |Kept(o, names, points)|
    ensures exists i :: 0 <= i < |points| &&
                        PlanningJointTarget(o.coupling, Kept(o, names, points)[k]) ==
                          Some(PlannerJoints(names, points[i]))
  {
    KeptAreSamples(o, names, points, k);
    var i :| 0 <= i < |points| && Kept(o, names, points)[k] == Axes(o, names, points[i]);
    ReplayReturnsJoints(o, names, points[i]);
  }
}
