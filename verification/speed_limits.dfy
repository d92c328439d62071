/**
 * trajectory_speed_limiter.cpp: the ratios by which a trajectory exceeds its limits, and what slowing
 * it down by the largest of them does. Times are whole nanoseconds.
 */
module SpeedLimits {
  import opened Wrappers
  import opened JointNames
  import opened Rounding
  import opened Reals

  const SECOND: real := 1000000000.0

  datatype Point = Point(time: nat, positions: seq<real>, velocities: seq<real>, accelerations: seq<real>)

  datatype Settings = Settings(
    overrides: Six, maxVelocities: Six, maxAccelerations: Six, linearSpeed: real, accelerationPercent: real,
    decelerationPercent: real)

  predicate ValidSettings(s: Settings) {
    && (forall i :: 0 <= i < 6 ==>
       1.0 <= s.overrides[i] <= 100.0 && s.maxVelocities[i] > 0.0 && s.maxAccelerations[i] > 0.0)
    && s.linearSpeed > 0.0
    && 1.0 <= s.accelerationPercent <= 100.0 && 1.0 <= s.decelerationPercent <= 100.0
  }

  /** The planner's joints in the order of the physical axes; axis 3 is coupled. */
  const REQUIRED := ["joint_1", "joint_2", "joint_7", "joint_4", "joint_5", "joint_6"]

  predicate HasRequired(names: seq<string>) {
    forall k :: 0 <= k < 6 ==> REQUIRED[k] in names
  }

  function DistinctNames(names: seq<string>): nat {
    |set n | n in names|
  }

  predicate Complete(names: seq<string>, values: seq<real>) {
    && |values| >= DistinctNames(names)
    && (forall k :: 0 <= k < 6 ==> IndexOf(names, REQUIRED[k]) < |values|)
  }

  function Planner(names: seq<string>, values: seq<real>, k: nat): real
    requires k < 6 && Complete(names, values)
  {
    values[IndexOf(names, REQUIRED[k])]
  }

  /** `physical_values`: physical joint 3 is planner joint 7 minus joint 2. */
  function Physical(names: seq<string>, values: seq<real>, axis: nat): real
    requires axis < 6 && Complete(names, values)
  {
    if axis == 2 then Planner(names, values, 2) - Planner(names, values, 1) else Planner(names, values, axis)
  }

  function AllowedVelocity(s: Settings, axis: nat): real
    requires axis < 6
  {
    s.maxVelocities[axis] * s.overrides[axis] / 100.0
  }

  /** Whether the input point slows this axis down. */
  predicate Decelerating(names: seq<string>, p: Point, axis: nat)
    requires axis < 6 && Complete(names, p.accelerations) && (p.velocities != [] ==> Complete(names, p.velocities))
  {
    p.velocities != [] && Physical(names, p.velocities, axis) * Physical(names, p.accelerations, axis) < -0.000000000001
  }

  function AllowedAcceleration(names: seq<string>, s: Settings, p: Point, axis: nat): real
    requires axis < 6 && Complete(names, p.accelerations) && (p.velocities != [] ==> Complete(names, p.velocities))
  {
    s.maxAccelerations[axis] *
    (if Decelerating(names, p, axis) then s.decelerationPercent else s.accelerationPercent) / 100.0
  }

  lemma {:induction false} AllowancesArePositive(names: seq<string>, s: Settings, p: Point, axis: nat)
    requires ValidSettings(s) && axis < 6
    ensures AllowedVelocity(s, axis) > 0.0
    ensures Complete(names, p.accelerations) && (p.velocities != [] ==> Complete(names, p.velocities)) ==>
              AllowedAcceleration(names, s, p, axis) > 0.0
  {
    ProductIsPositive(s.maxVelocities[axis], s.overrides[axis]);
    ProductIsPositive(s.maxAccelerations[axis], s.decelerationPercent);
    ProductIsPositive(s.maxAccelerations[axis], s.accelerationPercent);
  }

  lemma {:induction false} ProductIsPositive(x: real, y: real)
    requires x > 0.0 && y > 0.0
    ensures Product(x, y) > 0.0
  {
  }

  // Square roots and the ratios.

  /** Square roots, as std::sqrt over exact reals. */
  ghost predicate IsRoot(root: real -> real) {
    forall x: real :: x >= 0.0 ==> root(x) >= 0.0 && Product(root(x), root(x)) == x
  }

  /** What the limiter reads besides the trajectory; `travel` is the TCP distance between two joint vectors. */
  datatype Limiter = Limiter(
    names: seq<string>, settings: Settings, root: real -> real, travel: (seq<real>, seq<real>) -> real,
    enforceLinear: bool)

  ghost predicate ValidLimiter(l: Limiter) {
    && ValidSettings(l.settings) && HasRequired(l.names) && IsRoot(l.root)
    && (forall a, b :: l.travel(a, b) >= 0.0)
  }

  function Seconds(before: Point, after: Point): real {
    (after.time - before.time) as real / SECOND
  }

  predicate PointComplete(names: seq<string>, p: Point) {
    (p.velocities != [] ==> Complete(names, p.velocities))
      && (p.accelerations != [] ==> Complete(names, p.accelerations))
  }

  predicate SegmentComplete(names: seq<string>, before: Point, after: Point) {
    before.time < after.time && Complete(names, before.positions) && Complete(names, after.positions)
  }

  function VelocityRatio(l: Limiter, p: Point, axis: nat): real
    requires axis < 6 && ValidSettings(l.settings) && Complete(l.names, p.velocities)
  {
    AllowancesArePositive(l.names, l.settings, p, axis);
    Magnitude(Physical(l.names, p.velocities, axis)) / AllowedVelocity(l.settings, axis)
  }

  function AccelerationRatio(l: Limiter, p: Point, axis: nat): real
    requires axis < 6 && ValidSettings(l.settings) && Complete(l.names, p.accelerations)
    requires p.velocities != [] ==> Complete(l.names, p.velocities)
  {
    AllowancesArePositive(l.names, l.settings, p, axis);
    l.root(Magnitude(Physical(l.names, p.accelerations, axis)) / AllowedAcceleration(l.names, l.settings, p, axis))
  }

  function SegmentRatio(l: Limiter, before: Point, after: Point, axis: nat): real
    requires axis < 6 && ValidSettings(l.settings) && SegmentComplete(l.names, before, after)
  {
    AllowancesArePositive(l.names, l.settings, after, axis);
    Magnitude(Physical(l.names, after.positions, axis) - Physical(l.names, before.positions, axis)) /
    Seconds(before, after)
      / AllowedVelocity(l.settings, axis)
  }

  function LinearRatio(l: Limiter, before: Point, after: Point): real
    requires ValidSettings(l.settings) && before.time < after.time
  {
    l.travel(before.positions, after.positions) / Seconds(before, after) / l.settings.linearSpeed
  }

  // A factor that is large enough for part of a trajectory.

  /** No axis of the point needs a larger factor for its velocity. */
  predicate VelocitiesBound(l: Limiter, p: Point, factor: real)
    requires ValidSettings(l.settings) && PointComplete(l.names, p)
  {
    p.velocities != [] ==> forall axis :: 0 <= axis < 6 ==> VelocityRatio(l, p, axis) <= factor
  }

  predicate AccelerationsBound(l: Limiter, p: Point, factor: real)
    requires ValidSettings(l.settings) && PointComplete(l.names, p)
  {
    p.accelerations != [] ==> forall axis :: 0 <= axis < 6 ==> AccelerationRatio(l, p, axis) <= factor
  }

  predicate PointBound(l: Limiter, p: Point, factor: real)
    requires ValidSettings(l.settings) && PointComplete(l.names, p)
  {
    VelocitiesBound(l, p, factor) && AccelerationsBound(l, p, factor)
  }

  predicate SegmentBound(l: Limiter, before: Point, after: Point, n: nat, factor: real)
    requires n <= 6 && ValidSettings(l.settings) && SegmentComplete(l.names, before, after)
  {
    forall axis :: 0 <= axis < n ==> SegmentRatio(l, before, after, axis) <= factor
  }

  predicate Checked(names: seq<string>, points: seq<Point>, n: nat)
    requires n <= |points|
  {
    && (forall i :: 0 <= i < n ==> PointComplete(names, points[i]))
    && (forall i :: 0 < i < n ==> SegmentComplete(names, points[i - 1], points[i]))
  }

  predicate PointsBound(l: Limiter, points: seq<Point>, n: nat, factor: real)
    requires n <= |points| && ValidSettings(l.settings) && Checked(l.names, points, n)
  {
    forall i :: 0 <= i < n ==> PointBound(l, points[i], factor)
  }

  predicate SegmentsBound(l: Limiter, points: seq<Point>, n: nat, factor: real)
    requires n <= |points| && ValidSettings(l.settings) && Checked(l.names, points, n)
  {
    forall i :: 0 < i < n ==> SegmentBound(l, points[i - 1], points[i], 6, factor)
  }

  predicate Bound(l: Limiter, points: seq<Point>, n: nat, factor: real)
    requires n <= |points| && ValidSettings(l.settings) && Checked(l.names, points, n)
  {
    PointsBound(l, points, n, factor) && SegmentsBound(l, points, n, factor)
  }

  predicate LinearBound(l: Limiter, points: seq<Point>, n: nat, factor: real)
    requires n <= |points| && ValidSettings(l.settings) && Increasing(points, n)
  {
    forall i :: 0 < i < n ==> LinearRatio(l, points[i - 1], points[i]) <= factor
  }

  predicate Increasing(points: seq<Point>, n: nat)
    requires n <= |points|
  {
    forall i :: 0 < i < n ==> points[i - 1].time < points[i].time
  }

  predicate VelocityNeeds(l: Limiter, points: seq<Point>, i: nat, axis: nat, factor: real)
    requires ValidSettings(l.settings)
  {
    i < |points| && axis < 6 && points[i].velocities != [] && PointComplete(l.names, points[i]) &&
    VelocityRatio(l, points[i], axis) == factor
  }

  predicate AccelerationNeeds(l: Limiter, points: seq<Point>, i: nat, axis: nat, factor: real)
    requires ValidSettings(l.settings)
  {
    i < |points| && axis < 6 && points[i].accelerations != [] && PointComplete(l.names, points[i]) &&
    AccelerationRatio(l, points[i], axis) == factor
  }

  predicate SegmentNeeds(l: Limiter, points: seq<Point>, i: nat, axis: nat, factor: real)
    requires ValidSettings(l.settings)
  {
    0 < i < |points| && axis < 6 && SegmentComplete(l.names, points[i - 1], points[i]) &&
    SegmentRatio(l, points[i - 1], points[i], axis) == factor
  }

  predicate TravelNeeds(l: Limiter, points: seq<Point>, i: nat, factor: real)
    requires ValidSettings(l.settings)
  {
    l.enforceLinear && 0 < i < |points| && points[i - 1].time < points[i].time &&
    LinearRatio(l, points[i - 1], points[i]) == factor
  }

  /** Some limit needs exactly this factor. */
  ghost predicate Attained(l: Limiter, points: seq<Point>, factor: real)
    requires ValidSettings(l.settings)
  {
    || (exists i: nat, axis: nat ::
          VelocityNeeds(l, points, i, axis, factor) || AccelerationNeeds(l, points, i, axis, factor) ||
          SegmentNeeds(l, points, i, axis, factor))
    || (exists i: nat :: TravelNeeds(l, points, i, factor))
  }

  lemma {:induction false} BoundsGrow(l: Limiter, points: seq<Point>, n: nat, factor: real, larger: real)
    requires n <= |points| && ValidSettings(l.settings) && factor <= larger
    ensures Checked(l.names, points, n) && Bound(l, points, n, factor) ==> Bound(l, points, n, larger)
    ensures Increasing(points, n) && LinearBound(l, points, n, factor) ==> LinearBound(l, points, n, larger)
  {
  }

  // Measuring.

  datatype Error = BadSettings | EmptyTrajectory | MissingJoint | IncompletePoint | NotIncreasing

  /** consider_ratio over the six axes of one point's velocities. */
  method MeasureVelocities(l: Limiter, points: seq<Point>, i: nat, before: real) returns (largest: real)
    requires i < |points| && ValidSettings(l.settings) && PointComplete(l.names, points[i])
             && points[i].velocities != []
    ensures largest >= before && forall axis :: 0 <= axis < 6 ==> VelocityRatio(l, points[i], axis) <= largest
    ensures largest == before || exists axis: nat :: VelocityNeeds(l, points, i, axis, largest)
  {
    largest := before;
    for axis := 0 to 6
      invariant largest >= before && forall k :: 0 <= k < axis ==> VelocityRatio(l, points[i], k) <= largest
      invariant largest == before || exists k: nat :: VelocityNeeds(l, points, i, k, largest)
    {
      var ratio := VelocityRatio(l, points[i], axis);
      if ratio > largest {
        largest := ratio;
        assert VelocityNeeds(l, points, i, axis, largest);
      }
    }
  }

  method MeasureAccelerations(l: Limiter, points: seq<Point>, i: nat, before: real) returns (largest: real)
    requires i < |points| && ValidSettings(l.settings) && PointComplete(l.names, points[i])
             && points[i].accelerations != []
    ensures largest >= before && forall axis :: 0 <= axis < 6 ==> AccelerationRatio(l, points[i], axis) <= largest
    ensures largest == before || exists axis: nat :: AccelerationNeeds(l, points, i, axis, largest)
  {
    largest := before;
    for axis := 0 to 6
      invariant largest >= before && forall k :: 0 <= k < axis ==> AccelerationRatio(l, points[i], k) <= largest
      invariant largest == before || exists k: nat :: AccelerationNeeds(l, points, i, k, largest)
    {
      var ratio := AccelerationRatio(l, points[i], axis);
      if ratio > largest {
        largest := ratio;
        assert AccelerationNeeds(l, points, i, axis, largest);
      }
    }
  }

  method MeasureSegment(l: Limiter, points: seq<Point>, i: nat, before: real) returns (largest: real)
    requires 0 < i < |points| && ValidSettings(l.settings) && SegmentComplete(l.names, points[i - 1], points[i])
    ensures largest >= before && SegmentBound(l, points[i - 1], points[i], 6, largest)
    ensures largest == before || exists axis: nat :: SegmentNeeds(l, points, i, axis, largest)
  {
    largest := before;
    for axis := 0 to 6
      invariant largest >= before && SegmentBound(l, points[i - 1], points[i], axis, largest)
      invariant largest == before || exists k: nat :: SegmentNeeds(l, points, i, k, largest)
    {
      var ratio := SegmentRatio(l, points[i - 1], points[i], axis);
      if ratio > largest {
        largest := ratio;
        assert SegmentNeeds(l, points, i, axis, largest);
      }
    }
  }

  /** The checks of the first pass at one point. */
  function Fault(names: seq<string>, points: seq<Point>, i: nat): Option<Error>
    requires i < |points|
  {
    if !PointComplete(names, points[i]) then Some(IncompletePoint)
    else if i == 0 then None
    else if points[i].time <= points[i - 1].time then Some(NotIncreasing)
    else if !SegmentComplete(names, points[i - 1], points[i]) then Some(IncompletePoint)
    else None
  }

  lemma {:induction false} NoFault(names: seq<string>, points: seq<Point>, i: nat)
    requires i < |points| && Checked(names, points, i)
    ensures Fault(names, points, i).None? <==> Checked(names, points, i + 1)
  {
    assert Checked(names, points, i + 1) ==> PointComplete(names, points[i]);
    assert Checked(names, points, i + 1) && i > 0 ==> SegmentComplete(names, points[i - 1], points[i]);
  }

  method MeasurePoint(l: Limiter, points: seq<Point>, i: nat, before: real) returns (largest: real)
    requires i < |points| && ValidSettings(l.settings) && Fault(l.names, points, i).None?
    ensures largest >= before && PointBound(l, points[i], largest)
    ensures i > 0 ==> SegmentBound(l, points[i - 1], points[i], 6, largest)
    ensures largest == before || Attained(l, points, largest)
  {
    largest := before;
    if points[i].velocities != [] {
      largest := MeasureVelocities(l, points, i, largest);
    }
    if points[i].accelerations != [] {
      largest := MeasureAccelerations(l, points, i, largest);
    }
    if i > 0 {
      largest := MeasureSegment(l, points, i, largest);
    }
  }

  /** The joint pass: the largest ratio, at least 1. */
  method MeasureJoints(l: Limiter, points: seq<Point>) returns (r: Result<real, Error>)
    requires ValidSettings(l.settings)
    ensures r.Ok? <==> Checked(l.names, points, |points|)
    ensures r.Ok? ==> r.value >= 1.0 && Bound(l, points, |points|, r.value)
    ensures r.Ok? ==> r.value == 1.0 || Attained(l, points, r.value)
    ensures r.Err? ==> r.error in {IncompletePoint, NotIncreasing}
  {
    hide ValidSettings, PointBound, SegmentBound, PointComplete, SegmentComplete, Attained;
    var largest := 1.0;
    for i := 0 to |points|
      invariant Checked(l.names, points, i) && largest >= 1.0 && Bound(l, points, i, largest)
      invariant largest == 1.0 || Attained(l, points, largest)
    {
      NoFault(l.names, points, i);
      var fault := Fault(l.names, points, i);
      if fault.Some? {
        return Err(fault.value);
      }
      var before := largest;
      largest := MeasurePoint(l, points, i, before);
      BoundsGrow(l, points, i, before, largest);
    }
    return Ok(largest);
  }

  /** The TCP pass, which starts from the joint pass's ratio. */
  method MeasureTravel(l: Limiter, points: seq<Point>, before: real) returns (r: Result<real, Error>)
    requires ValidSettings(l.settings) && l.enforceLinear && Increasing(points, |points|)
    ensures r.Ok? <==> forall i :: 0 <= i < |points| ==> |points[i].positions| == |l.names|
    ensures r.Ok? ==> r.value >= before && LinearBound(l, points, |points|, r.value)
    ensures r.Ok? ==> r.value == before || Attained(l, points, r.value)
    ensures r.Err? ==> r.error == IncompletePoint
  {
    var largest := before;
    for i := 0 to |points|
      invariant forall k :: 0 <= k < i ==> |points[k].positions| == |l.names|
      invariant largest >= before && LinearBound(l, points, i, largest)
      invariant largest == before || Attained(l, points, largest)
    {
      if |points[i].positions| != |l.names| {
        return Err(IncompletePoint);
      }
      if i > 0 {
        var ratio := LinearRatio(l, points[i - 1], points[i]);
        if ratio > largest {
          BoundsGrow(l, points, i, largest, ratio);
          largest := ratio;
          assert TravelNeeds(l, points, i, largest);
        }
      }
    }
    return Ok(largest);
  }

  // What a factor does to the limits.

  function Divided(values: seq<real>, factor: real): (r: seq<real>)
    requires factor > 0.0
    ensures |r| == |values| && forall i :: 0 <= i < |r| ==> r[i] == values[i] / factor
  {
    seq(|values|, i requires 0 <= i < |values| => values[i] / factor)
  }

  lemma {:induction false} PhysicalDivides(names: seq<string>, values: seq<real>, axis: nat, factor: real)
    requires axis < 6 && factor > 0.0 && Complete(names, values)
    ensures Complete(names, Divided(values, factor))
    ensures Physical(names, Divided(values, factor), axis) == Physical(names, values, axis) / factor
    ensures Magnitude(Physical(names, Divided(values, factor), axis)) ==
            Magnitude(Physical(names, values, axis)) / factor
  {
    QuotientSign(Physical(names, values, axis), factor);
  }

  lemma {:induction false} QuotientSign(x: real, factor: real)
    requires factor > 0.0
    ensures x < 0.0 <==> x / factor < 0.0
    ensures Magnitude(x / factor) == Magnitude(x) / factor
  {
  }

  lemma {:induction false} RatioMeaning(x: real, allowed: real, g: real)
    requires x >= 0.0 && allowed > 0.0
    ensures x / allowed <= g <==> x <= allowed * g
  {
  }

  lemma {:induction false} RootMeaning(root: real -> real, x: real, g: real)
    requires IsRoot(root) && x >= 0.0 && g > 0.0
    ensures root(x) <= g <==> x <= Product(g, g)
  {
    ProductsOrder(root(x), g);
  }

  lemma {:induction false} ProductsOrder(x: real, y: real)
    requires x >= 0.0 && y > 0.0
    ensures x <= y <==> Product(x, x) <= Product(y, y)
  {
    assert x <= y ==> Product(x, x) <= Product(x, y) <= Product(y, y);
    assert x > y ==> Product(x, x) > Product(x, y) > Product(y, y);
  }

  predicate MeetsVelocities(l: Limiter, p: Point, g: real)
    requires PointComplete(l.names, p)
  {
    p.velocities != [] ==>
      forall axis :: 0 <= axis < 6 ==>
        Magnitude(Physical(l.names, p.velocities, axis)) <= AllowedVelocity(l.settings, axis) * g
  }

  predicate MeetsAccelerations(l: Limiter, p: Point, g: real)
    requires PointComplete(l.names, p)
  {
    p.accelerations != [] ==>
      forall axis :: 0 <= axis < 6 ==>
        Magnitude(Physical(l.names, p.accelerations, axis)) <=
          AllowedAcceleration(l.names, l.settings, p, axis) * Product(g, g)
  }

  /** The segment, taking `seconds`, is within the velocity limits on average. */
  predicate MeetsSegment(l: Limiter, before: seq<real>, after: seq<real>, seconds: real)
    requires Complete(l.names, before) && Complete(l.names, after)
  {
    forall axis :: 0 <= axis < 6 ==>
      Magnitude(Physical(l.names, after, axis) - Physical(l.names, before, axis)) <=
        AllowedVelocity(l.settings, axis) * seconds
  }

  predicate MeetsTravel(l: Limiter, before: seq<real>, after: seq<real>, seconds: real) {
    l.enforceLinear ==> l.travel(before, after) <= l.settings.linearSpeed * seconds
  }

  ghost predicate MeetsPoints(l: Limiter, points: seq<Point>, g: real)
    requires Checked(l.names, points, |points|)
  {
    forall i :: 0 <= i < |points| ==> MeetsVelocities(l, points[i], g) && MeetsAccelerations(l, points[i], g)
  }

  ghost predicate MeetsSegments(l: Limiter, points: seq<Point>, g: real)
    requires Checked(l.names, points, |points|)
  {
    forall i :: 0 < i < |points| ==>
      MeetsSegment(l, points[i - 1].positions, points[i].positions, g * Seconds(points[i - 1], points[i]))
  }

  ghost predicate MeetsTravels(l: Limiter, points: seq<Point>, g: real) {
    forall i :: 0 < i < |points| ==>
      MeetsTravel(l, points[i - 1].positions, points[i].positions, g * Seconds(points[i - 1], points[i]))
  }

  /** Every limit holds when the trajectory is slowed by exactly g. */
  ghost predicate Meets(l: Limiter, points: seq<Point>, g: real)
    requires Checked(l.names, points, |points|)
  {
    MeetsPoints(l, points, g) && MeetsSegments(l, points, g) && MeetsTravels(l, points, g)
  }

  lemma {:induction false} VelocitiesMeaning(l: Limiter, p: Point, g: real)
    requires ValidLimiter(l) && PointComplete(l.names, p) && g > 0.0
    ensures VelocitiesBound(l, p, g) <==> MeetsVelocities(l, p, g)
  {
    if p.velocities != [] {
      forall axis: nat | axis < 6
        ensures VelocityRatio(l, p, axis) <= g <==>
                Magnitude(Physical(l.names, p.velocities, axis)) <= AllowedVelocity(l.settings, axis) * g
      {
        AllowancesArePositive(l.names, l.settings, p, axis);
        RatioMeaning(Magnitude(Physical(l.names, p.velocities, axis)), AllowedVelocity(l.settings, axis), g);
      }
    }
  }

  lemma {:induction false} AccelerationsMeaning(l: Limiter, p: Point, g: real)
    requires ValidLimiter(l) && PointComplete(l.names, p) && g > 0.0
    ensures AccelerationsBound(l, p, g) <==> MeetsAccelerations(l, p, g)
  {
    if p.accelerations != [] {
      forall axis: nat | axis < 6
        ensures AccelerationRatio(l, p, axis) <= g <==>
                Magnitude(Physical(l.names, p.accelerations, axis)) <=
                  AllowedAcceleration(l.names, l.settings, p, axis) * Product(g, g)
      {
        AxisAcceleration(l, p, axis, g);
      }
    }
  }

  lemma {:induction false} AxisAcceleration(l: Limiter, p: Point, axis: nat, g: real)
    requires ValidLimiter(l) && PointComplete(l.names, p) && p.accelerations != [] && axis < 6 && g > 0.0
    ensures AccelerationRatio(l, p, axis) <= g <==>
            Magnitude(Physical(l.names, p.accelerations, axis)) <=
              AllowedAcceleration(l.names, l.settings, p, axis) * Product(g, g)
  {
    AllowancesArePositive(l.names, l.settings, p, axis);
    RootRatio(l.root, Magnitude(Physical(l.names, p.accelerations, axis)),
              AllowedAcceleration(l.names, l.settings, p, axis), g);
  }

  lemma {:induction false} RootRatio(root: real -> real, x: real, allowed: real, g: real)
    requires IsRoot(root) && x >= 0.0 && allowed > 0.0 && g > 0.0
    ensures root(x / allowed) <= g <==> x <= allowed * Product(g, g)
  {
    QuotientSign(x, allowed);
    RootMeaning(root, x / allowed, g);
    RatioMeaning(x, allowed, Product(g, g));
  }

  lemma {:induction false} TwoQuotients(x: real, seconds: real, allowed: real, g: real)
    requires seconds > 0.0 && allowed > 0.0 && g > 0.0
    ensures x / seconds / allowed <= g <==> x <= allowed * (g * seconds)
  {
    assert x / seconds / allowed <= g <==> x / seconds <= g * allowed;
    assert x / seconds <= g * allowed <==> x <= g * allowed * seconds;
    assert g * allowed * seconds == allowed * (g * seconds);
  }

  lemma {:induction false} AxisSegment(l: Limiter, before: Point, after: Point, axis: nat, g: real)
    requires ValidLimiter(l) && SegmentComplete(l.names, before, after) && axis < 6 && g > 0.0
    ensures SegmentRatio(l, before, after, axis) <= g <==>
            Magnitude(Physical(l.names, after.positions, axis) - Physical(l.names, before.positions, axis))
              <= AllowedVelocity(l.settings, axis) * (g * Seconds(before, after))
  {
    AllowancesArePositive(l.names, l.settings, after, axis);
    TwoQuotients(Magnitude(Physical(l.names, after.positions, axis) - Physical(l.names, before.positions, axis)),
                 Seconds(before, after), AllowedVelocity(l.settings, axis), g);
  }

  lemma {:induction false} SegmentMeaning(l: Limiter, before: Point, after: Point, g: real)
    requires ValidLimiter(l) && SegmentComplete(l.names, before, after) && g > 0.0
    ensures SegmentBound(l, before, after, 6, g) <==>
            MeetsSegment(l, before.positions, after.positions, g * Seconds(before, after))
    ensures l.enforceLinear ==> (LinearRatio(l, before, after) <= g <==>
            MeetsTravel(l, before.positions, after.positions, g * Seconds(before, after)))
  {
    forall axis: nat | axis < 6
      ensures SegmentRatio(l, before, after, axis) <= g <==>
              Magnitude(Physical(l.names, after.positions, axis) - Physical(l.names, before.positions, axis))
                <= AllowedVelocity(l.settings, axis) * (g * Seconds(before, after))
    {
      AxisSegment(l, before, after, axis, g);
    }
    TwoQuotients(l.travel(before.positions, after.positions), Seconds(before, after), l.settings.linearSpeed, g);
  }

  lemma {:induction false} PointsMeaning(l: Limiter, points: seq<Point>, g: real)
    requires ValidLimiter(l) && Checked(l.names, points, |points|) && g > 0.0
    ensures PointsBound(l, points, |points|, g) <==> MeetsPoints(l, points, g)
  {
    forall i | 0 <= i < |points|
      ensures VelocitiesBound(l, points[i], g) <==> MeetsVelocities(l, points[i], g)
      ensures AccelerationsBound(l, points[i], g) <==> MeetsAccelerations(l, points[i], g)
    {
      VelocitiesMeaning(l, points[i], g);
      AccelerationsMeaning(l, points[i], g);
    }
  }

  lemma {:induction false} SegmentsMeet(l: Limiter, points: seq<Point>, g: real)
    requires ValidLimiter(l) && Checked(l.names, points, |points|) && g > 0.0 && SegmentsBound(l, points, |points|, g)
    ensures MeetsSegments(l, points, g)
  {
    hide Physical, AllowedVelocity, Seconds, SegmentRatio, IndexOf, DistinctNames;
    forall i | 0 < i < |points|
      ensures MeetsSegment(l, points[i - 1].positions, points[i].positions, g * Seconds(points[i - 1], points[i]))
    {
      SegmentMeaning(l, points[i - 1], points[i], g);
    }
  }

  lemma {:induction false} SegmentsAreBound(l: Limiter, points: seq<Point>, g: real)
    requires ValidLimiter(l) && Checked(l.names, points, |points|) && g > 0.0 && MeetsSegments(l, points, g)
    ensures SegmentsBound(l, points, |points|, g)
  {
    hide Physical, AllowedVelocity, Seconds, SegmentRatio, IndexOf, DistinctNames;
    forall i | 0 < i < |points|
      ensures SegmentBound(l, points[i - 1], points[i], 6, g)
    {
      SegmentMeaning(l, points[i - 1], points[i], g);
    }
  }

  lemma {:induction false} TravelsMeaning(l: Limiter, points: seq<Point>, g: real)
    requires ValidLimiter(l) && Checked(l.names, points, |points|) && g > 0.0
    ensures Increasing(points, |points|)
    ensures (l.enforceLinear ==> LinearBound(l, points, |points|, g)) <==> MeetsTravels(l, points, g)
  {
    forall i | 0 < i < |points|
      ensures l.enforceLinear ==>
                (LinearRatio(l, points[i - 1], points[i]) <= g <==>
                 MeetsTravel(l, points[i - 1].positions, points[i].positions, g * Seconds(points[i - 1], points[i])))
    {
      SegmentMeaning(l, points[i - 1], points[i], g);
    }
  }

  /** The measured bounds are exactly the limits. */
  lemma {:induction false} BoundMeaning(l: Limiter, points: seq<Point>, g: real)
    requires ValidLimiter(l) && Checked(l.names, points, |points|) && g > 0.0
    ensures Increasing(points, |points|)
    ensures Bound(l, points, |points|, g) && (l.enforceLinear ==> LinearBound(l, points, |points|, g)) <==>
            Meets(l, points, g)
  {
    PointsMeaning(l, points, g);
    if SegmentsBound(l, points, |points|, g) {
      SegmentsMeet(l, points, g);
    }
    if MeetsSegments(l, points, g) {
      SegmentsAreBound(l, points, g);
    }
    TravelsMeaning(l, points, g);
  }

  lemma {:induction false} NeededFactor(l: Limiter, points: seq<Point>, factor: real, g: real)
    requires ValidLimiter(l) && Checked(l.names, points, |points|) && g > 0.0
    requires Attained(l, points, factor) && Meets(l, points, g)
    ensures factor <= g
  {
    BoundMeaning(l, points, g);
  }

  /** The largest ratio is the least factor from 1 up with which every limit holds. */
  ghost predicate LeastFactor(l: Limiter, points: seq<Point>, factor: real)
    requires Checked(l.names, points, |points|)
  {
    factor >= 1.0 && Meets(l, points, factor) && forall g: real :: g >= 1.0 && Meets(l, points, g) ==> factor <= g
  }

  lemma {:induction false} MeasuredIsLeast(l: Limiter, points: seq<Point>, factor: real)
    requires ValidLimiter(l) && Checked(l.names, points, |points|) && factor >= 1.0
    requires Increasing(points, |points|)
    requires Bound(l, points, |points|, factor) && (l.enforceLinear ==> LinearBound(l, points, |points|, factor))
    requires factor == 1.0 || Attained(l, points, factor)
    ensures LeastFactor(l, points, factor)
  {
    BoundMeaning(l, points, factor);
    forall g: real | g >= 1.0 && Meets(l, points, g)
      ensures factor <= g
    {
      if factor != 1.0 {
        NeededFactor(l, points, factor, g);
      }
    }
  }

  // The scaled trajectory.

  /** A time stretched by `factor`, rounded to a nanosecond. */
  function SlowTime(time: nat, factor: real): nat
    requires factor >= 1.0
  {
    RoundIsMonotone(0.0, time as real * factor);
    RoundOfInt(0);
    Round(time as real * factor)
  }

  /** A point slowed by `factor`. */
  function Slowed(p: Point, factor: real): (q: Point)
    requires factor >= 1.0
  {
    ProductIsPositive(factor, factor);
    Point(SlowTime(p.time, factor), p.positions, Divided(p.velocities, factor),
          Divided(p.accelerations, Product(factor, factor)))
  }

  function AllSlowed(points: seq<Point>, factor: real): (q: seq<Point>)
    requires factor >= 1.0
    ensures |q| == |points| && forall i :: 0 <= i < |q| ==> q[i] == Slowed(points[i], factor)
  {
    seq(|points|, i requires 0 <= i < |points| => Slowed(points[i], factor))
  }

  /** Two times a nanosecond or more apart stay so. */
  lemma {:induction false} TimesStayApart(t: nat, u: nat, factor: real)
    requires t < u && factor >= 1.0
    ensures SlowTime(t, factor) < SlowTime(u, factor)
    ensures factor * (u - t) as real <= (SlowTime(u, factor) - SlowTime(t, factor)) as real + 1.0
  {
    var x, y := t as real * factor, u as real * factor;
    assert y - x == factor * (u - t) as real >= factor >= 1.0;
    RoundIsMonotone(x + 1.0, y);
    RoundSteps(x);
  }

  lemma {:induction false} RoundSteps(x: real)
    requires x >= 0.0
    ensures Round(x + 1.0) == Round(x) + 1
  {
  }

  const NANOSECOND: real := 0.000000001

  /** The slowed point is within the velocity limits, and within the acceleration limits of its phase in the input. */
  predicate WithinLimits(l: Limiter, input: Point, q: Point)
    requires PointComplete(l.names, input)
  {
    && (input.velocities != [] ==>
          Complete(l.names, q.velocities) &&
          forall axis :: 0 <= axis < 6 ==>
            Magnitude(Physical(l.names, q.velocities, axis)) <= AllowedVelocity(l.settings, axis))
    && (input.accelerations != [] ==>
          Complete(l.names, q.accelerations) &&
          forall axis :: 0 <= axis < 6 ==>
            Magnitude(Physical(l.names, q.accelerations, axis)) <=
              AllowedAcceleration(l.names, l.settings, input, axis))
  }

  lemma {:induction false} VelocitiesSlowed(l: Limiter, p: Point, factor: real)
    requires PointComplete(l.names, p) && factor >= 1.0 && MeetsVelocities(l, p, factor) && p.velocities != []
    ensures Complete(l.names, Slowed(p, factor).velocities)
    ensures forall axis :: 0 <= axis < 6 ==>
              Magnitude(Physical(l.names, Slowed(p, factor).velocities, axis)) <= AllowedVelocity(l.settings, axis)
  {
    forall axis: nat | axis < 6
      ensures Complete(l.names, Slowed(p, factor).velocities)
      ensures Magnitude(Physical(l.names, Slowed(p, factor).velocities, axis)) <= AllowedVelocity(l.settings, axis)
    {
      PhysicalDivides(l.names, p.velocities, axis, factor);
      RatioMeaning(Magnitude(Physical(l.names, p.velocities, axis)), factor, AllowedVelocity(l.settings, axis));
    }
    PhysicalDivides(l.names, p.velocities, 0, factor);
  }

  lemma {:induction false} AccelerationsSlowed(l: Limiter, p: Point, factor: real)
    requires PointComplete(l.names, p) && factor >= 1.0 && MeetsAccelerations(l, p, factor) && p.accelerations != []
    ensures Complete(l.names, Slowed(p, factor).accelerations)
    ensures forall axis :: 0 <= axis < 6 ==>
              Magnitude(Physical(l.names, Slowed(p, factor).accelerations, axis)) <=
                AllowedAcceleration(l.names, l.settings, p, axis)
  {
    ProductIsPositive(factor, factor);
    var square := Product(factor, factor);
    forall axis: nat | axis < 6
      ensures Complete(l.names, Slowed(p, factor).accelerations)
      ensures Magnitude(Physical(l.names, Slowed(p, factor).accelerations, axis)) <=
                AllowedAcceleration(l.names, l.settings, p, axis)
    {
      PhysicalDivides(l.names, p.accelerations, axis, square);
      RatioMeaning(Magnitude(Physical(l.names, p.accelerations, axis)), square,
        AllowedAcceleration(l.names, l.settings, p, axis));
    }
    PhysicalDivides(l.names, p.accelerations, 0, square);
  }

  lemma {:induction false} PointSlowed(l: Limiter, p: Point, factor: real)
    requires PointComplete(l.names, p) && factor >= 1.0
    requires MeetsVelocities(l, p, factor) && MeetsAccelerations(l, p, factor)
    ensures WithinLimits(l, p, Slowed(p, factor))
  {
    if p.velocities != [] {
      VelocitiesSlowed(l, p, factor);
    }
    if p.accelerations != [] {
      AccelerationsSlowed(l, p, factor);
    }
  }

  lemma {:induction false} LongerIsSlower(allowed: real, short: real, long: real)
    requires allowed >= 0.0 && short <= long
    ensures allowed * short <= allowed * long
  {
  }

  lemma {:induction false} LongerMeets(l: Limiter, before: seq<real>, after: seq<real>, short: real, long: real)
    requires ValidSettings(l.settings) && Complete(l.names, before) && Complete(l.names, after) && short <= long
    ensures MeetsSegment(l, before, after, short) ==> MeetsSegment(l, before, after, long)
    ensures MeetsTravel(l, before, after, short) ==> MeetsTravel(l, before, after, long)
  {
    forall axis: nat | axis < 6
      ensures AllowedVelocity(l.settings, axis) * short <= AllowedVelocity(l.settings, axis) * long
    {
      AllowancesArePositive(l.names, l.settings, Point(0, [], [], []), axis);
      LongerIsSlower(AllowedVelocity(l.settings, axis), short, long);
    }
    LongerIsSlower(l.settings.linearSpeed, short, long);
  }

  lemma {:induction false} SlowedSeconds(before: Point, after: Point, factor: real)
    requires before.time < after.time && factor >= 1.0
    ensures Slowed(before, factor).time < Slowed(after, factor).time
    ensures factor * Seconds(before, after) <= Seconds(Slowed(before, factor), Slowed(after, factor)) + NANOSECOND
  {
    hide SlowTime;
    TimesStayApart(before.time, after.time, factor);
    assert factor * Seconds(before, after) == factor * (after.time - before.time) as real / SECOND;
  }

  /** Strictly increasing times, and average speeds within limits but for the nanosecond rounding may take. */
  predicate WithinSegment(l: Limiter, before: Point, after: Point) {
    && before.time < after.time
    && Complete(l.names, before.positions) && Complete(l.names, after.positions)
    && MeetsSegment(l, before.positions, after.positions, Seconds(before, after) + NANOSECOND)
    && MeetsTravel(l, before.positions, after.positions, Seconds(before, after) + NANOSECOND)
  }

  lemma {:induction false} SegmentSlowed(l: Limiter, before: Point, after: Point, factor: real)
    requires ValidLimiter(l) && SegmentComplete(l.names, before, after) && factor >= 1.0
    requires MeetsSegment(l, before.positions, after.positions, factor * Seconds(before, after))
    requires MeetsTravel(l, before.positions, after.positions, factor * Seconds(before, after))
    ensures WithinSegment(l, Slowed(before, factor), Slowed(after, factor))
  {
    SlowedSeconds(before, after, factor);
    LongerMeets(l, before.positions, after.positions, factor * Seconds(before, after),
                Seconds(Slowed(before, factor), Slowed(after, factor)) + NANOSECOND);
  }

  /** Slowing a trajectory by a factor with which every limit holds leaves it within them. */
  lemma {:induction false} SlowedIsLimited(l: Limiter, points: seq<Point>, factor: real, i: nat)
    requires ValidLimiter(l) && Checked(l.names, points, |points|) && factor >= 1.0 && Meets(l, points, factor)
    requires i < |points|
    ensures var q := AllSlowed(points, factor);
            WithinLimits(l, points[i], q[i]) && (i > 0 ==> WithinSegment(l, q[i - 1], q[i]))
  {
    hide WithinLimits, WithinSegment, MeetsVelocities, MeetsAccelerations, Slowed;
    PointSlowed(l, points[i], factor);
    if i > 0 {
      SegmentSlowed(l, points[i - 1], points[i], factor);
    }
  }

  // What a caller may rely on, scaled or not.

  /** Factors up to this one are not applied. */
  const DEAD_BAND: real := 1.000000001

  /** The point is within the velocity limits and, in its phase of the input, the acceleration limits, but for `g`. */
  predicate PointWithin(l: Limiter, input: Point, q: Point, g: real)
    requires PointComplete(l.names, input)
  {
    && (input.velocities != [] ==>
          Complete(l.names, q.velocities) &&
          forall axis :: 0 <= axis < 6 ==>
            Magnitude(Physical(l.names, q.velocities, axis)) <= AllowedVelocity(l.settings, axis) * g)
    && (input.accelerations != [] ==>
          Complete(l.names, q.accelerations) &&
          forall axis :: 0 <= axis < 6 ==>
            Magnitude(Physical(l.names, q.accelerations, axis)) <=
              AllowedAcceleration(l.names, l.settings, input, axis) * Product(g, g))
  }

  /** And the way from one point to the next, but for `g` and the nanosecond rounding may take. */
  predicate SegmentWithin(l: Limiter, before: Point, after: Point, g: real) {
    && before.time < after.time
    && Complete(l.names, before.positions) && Complete(l.names, after.positions)
    && MeetsSegment(l, before.positions, after.positions, g * (Seconds(before, after) + NANOSECOND))
    && MeetsTravel(l, before.positions, after.positions, g * (Seconds(before, after) + NANOSECOND))
  }

  /** A trajectory that is within all limits, up to the dead band and a nanosecond. */
  ghost predicate Limited(l: Limiter, input: seq<Point>, points: seq<Point>)
    requires Checked(l.names, input, |input|)
  {
    && |points| == |input|
    && (forall i :: 0 <= i < |points| ==> PointWithin(l, input[i], points[i], DEAD_BAND))
    && (forall i :: 0 < i < |points| ==> SegmentWithin(l, points[i - 1], points[i], DEAD_BAND))
  }

  lemma {:induction false} BandProducts(x: real, allowed: real, g: real)
    requires allowed > 0.0 && 1.0 <= g <= DEAD_BAND
    ensures x <= allowed ==> x <= allowed * DEAD_BAND && x <= allowed * Product(DEAD_BAND, DEAD_BAND)
    ensures x <= allowed * g ==> x <= allowed * DEAD_BAND
    ensures x <= allowed * Product(g, g) ==> x <= allowed * Product(DEAD_BAND, DEAD_BAND)
  {
    ProductsOrder(g, DEAD_BAND);
    LongerIsSlower(allowed, 1.0, DEAD_BAND);
    LongerIsSlower(allowed, g, DEAD_BAND);
    LongerIsSlower(allowed, 1.0, Product(DEAD_BAND, DEAD_BAND));
    LongerIsSlower(allowed, Product(g, g), Product(DEAD_BAND, DEAD_BAND));
  }

  /** A point is within the band if its input needs no more than `g`, or meets the limits outright. */
  lemma {:induction false} PointInBand(l: Limiter, input: Point, q: Point, g: real)
    requires ValidLimiter(l) && PointComplete(l.names, input) && 1.0 <= g <= DEAD_BAND
    requires PointWithin(l, input, q, g)
    ensures PointWithin(l, input, q, DEAD_BAND)
  {
    hide Physical, AllowedVelocity, AllowedAcceleration, Complete, Product, IsRoot;
    forall axis: nat | axis < 6
      ensures input.velocities != [] ==>
                Magnitude(Physical(l.names, q.velocities, axis)) <= AllowedVelocity(l.settings, axis) * DEAD_BAND
      ensures input.accelerations != [] ==>
                Magnitude(Physical(l.names, q.accelerations, axis)) <=
                  AllowedAcceleration(l.names, l.settings, input, axis) * Product(DEAD_BAND, DEAD_BAND)
    {
      AllowancesArePositive(l.names, l.settings, input, axis);
      if input.velocities != [] {
        BandProducts(Magnitude(Physical(l.names, q.velocities, axis)), AllowedVelocity(l.settings, axis), g);
      }
      if input.accelerations != [] {
        BandProducts(Magnitude(Physical(l.names, q.accelerations, axis)),
                     AllowedAcceleration(l.names, l.settings, input, axis), g);
      }
    }
  }

  lemma {:induction false} LimitedPoint(l: Limiter, p: Point, q: Point)
    requires ValidLimiter(l) && PointComplete(l.names, p) && WithinLimits(l, p, q)
    ensures PointWithin(l, p, q, DEAD_BAND)
  {
    assert Product(1.0, 1.0) == 1.0;
    assert PointWithin(l, p, q, 1.0);
    hide WithinLimits, PointWithin;
    PointInBand(l, p, q, 1.0);
  }

  lemma {:induction false} UnscaledPoint(l: Limiter, p: Point, factor: real)
    requires ValidLimiter(l) && PointComplete(l.names, p) && 1.0 <= factor <= DEAD_BAND
    requires MeetsVelocities(l, p, factor) && MeetsAccelerations(l, p, factor)
    ensures PointWithin(l, p, p, DEAD_BAND)
  {
    assert PointWithin(l, p, p, factor);
    hide MeetsVelocities, MeetsAccelerations, PointWithin;
    PointInBand(l, p, p, factor);
  }

  lemma {:induction false} BandSeconds(seconds: real, factor: real)
    requires seconds > 0.0 && 1.0 <= factor <= DEAD_BAND
    ensures factor * seconds <= DEAD_BAND * (seconds + NANOSECOND)
    ensures seconds + NANOSECOND <= DEAD_BAND * (seconds + NANOSECOND)
  {
    LongerIsSlower(seconds, factor, DEAD_BAND);
    LongerIsSlower(DEAD_BAND, seconds, seconds + NANOSECOND);
    LongerIsSlower(seconds + NANOSECOND, 1.0, DEAD_BAND);
  }

  lemma {:induction false} UnscaledSegment(l: Limiter, before: Point, after: Point, factor: real)
    requires ValidLimiter(l) && SegmentComplete(l.names, before, after) && 1.0 <= factor <= DEAD_BAND
    requires MeetsSegment(l, before.positions, after.positions, factor * Seconds(before, after))
    requires MeetsTravel(l, before.positions, after.positions, factor * Seconds(before, after))
    ensures SegmentWithin(l, before, after, DEAD_BAND)
  {
    BandSeconds(Seconds(before, after), factor);
    LongerMeets(l, before.positions, after.positions, factor * Seconds(before, after),
                DEAD_BAND * (Seconds(before, after) + NANOSECOND));
    hide MeetsSegment, MeetsTravel;
  }

  lemma {:induction false} LimitedSegment(l: Limiter, before: Point, after: Point)
    requires ValidLimiter(l) && WithinSegment(l, before, after)
    ensures SegmentWithin(l, before, after, DEAD_BAND)
  {
    BandSeconds(Seconds(before, after), 1.0);
    LongerMeets(l, before.positions, after.positions, Seconds(before, after) + NANOSECOND,
                DEAD_BAND * (Seconds(before, after) + NANOSECOND));
    hide MeetsSegment, MeetsTravel;
  }

  /** Slowed by a sufficient factor, or left as it is when that is within the dead band, a trajectory is limited. */
  lemma {:induction false} ResultIsLimited(l: Limiter, points: seq<Point>, factor: real)
    requires ValidLimiter(l) && Checked(l.names, points, |points|) && factor >= 1.0 && Meets(l, points, factor)
    ensures Limited(l, points, if factor > DEAD_BAND then AllSlowed(points, factor) else points)
  {
    var q := if factor > DEAD_BAND then AllSlowed(points, factor) else points;
    hide WithinLimits, WithinSegment, PointWithin, SegmentWithin, MeetsVelocities, MeetsAccelerations, MeetsSegment;
    hide MeetsTravel, ValidLimiter, Slowed, Seconds;
    forall i: nat | i < |points|
      ensures PointWithin(l, points[i], q[i], DEAD_BAND)
      ensures i > 0 ==> SegmentWithin(l, q[i - 1], q[i], DEAD_BAND)
    {
      if factor > DEAD_BAND {
        SlowedIsLimited(l, points, factor, i);
        LimitedPoint(l, points[i], q[i]);
        if i > 0 {
          LimitedSegment(l, q[i - 1], q[i]);
        }
      } else {
        UnscaledPoint(l, points[i], factor);
        if i > 0 {
          UnscaledSegment(l, points[i - 1], points[i], factor);
        }
      }
    }
  }
}
