/** trajectory_speed_limiter.cpp's apply_speed_limits as it runs on a trajectory, in place. */
module TrajectoryScaling {
  import opened Wrappers
  import opened JointNames
  import opened Rounding
  import opened SpeedLimits
  import opened Reals

  // collapse_zero_duration_duplicate_points.

  predicate SamePositions(a: seq<real>, b: seq<real>) {
    |a| == |b| && forall i :: 0 <= i < |a| ==> Magnitude(a[i] - b[i]) <= 0.000000000001
  }

  /** Times that differ by at most 1e-12 s are the same whole nanosecond. */
  predicate Duplicates(kept: Point, p: Point) {
    kept.time == p.time && SamePositions(kept.positions, p.positions)
  }

  function Absorb(kept: seq<Point>, p: Point): seq<Point> {
    if kept != [] && Duplicates(kept[|kept| - 1], p) then kept[|kept| - 1 := p] else kept + [p]
  }

  function Collapsed(points: seq<Point>): (r: seq<Point>)
    ensures points != [] ==> r != [] && r[|r| - 1] == points[|points| - 1]
  {
    if points == [] then [] else Absorb(Collapsed(points[..|points| - 1]), points[|points| - 1])
  }

  /** Points at equal times are duplicates of each other, and times do not decrease. */
  predicate OnlyDuplicatesShareTimes(points: seq<Point>) {
    && (forall i, j :: 0 <= i < j < |points| ==> points[i].time <= points[j].time)
    && (forall i, j :: 0 <= i < j < |points| && points[i].time == points[j].time ==>
          SamePositions(points[i].positions, points[j].positions))
  }

  lemma {:induction false} AbsorbIncreases(kept: seq<Point>, p: Point)
    requires kept != [] && Increasing(kept, |kept|)
    requires Duplicates(kept[|kept| - 1], p) || kept[|kept| - 1].time < p.time
    ensures Increasing(Absorb(kept, p), |Absorb(kept, p)|)
  {
  }

  /** Collapsing such a trajectory leaves strictly increasing times. */
  lemma {:induction false} CollapsedIncreases(points: seq<Point>)
    requires OnlyDuplicatesShareTimes(points)
    ensures Increasing(Collapsed(points), |Collapsed(points)|)
  {
    var n := |points| - 1;
    if n > 0 {
      CollapsedIncreases(points[..n]);
      assert points[..n][n - 1] == points[n - 1];
      AbsorbIncreases(Collapsed(points[..n]), points[n]);
    }
  }

  predicate HasTime(points: seq<Point>, time: nat) {
    exists i :: 0 <= i < |points| && points[i].time == time
  }

  lemma {:induction false} AbsorbTimes(kept: seq<Point>, p: Point, time: nat)
    ensures HasTime(Absorb(kept, p), time) <==> HasTime(kept, time) || p.time == time
  {
    var all := Absorb(kept, p);
    assert all[|all| - 1] == p;
    if HasTime(kept, time) {
      var i :| 0 <= i < |kept| && kept[i].time == time;
      assert all[i].time == time;
    }
    if HasTime(all, time) {
      var i :| 0 <= i < |all| && all[i].time == time;
      assert i < |kept| ==> kept[i].time == time;
    }
  }

  /** No time disappears and none is invented. */
  lemma {:induction false} CollapsedTimes(points: seq<Point>, time: nat)
    ensures HasTime(Collapsed(points), time) <==> HasTime(points, time)
  {
    if points != [] {
      var n := |points| - 1;
      CollapsedTimes(points[..n], time);
      AbsorbTimes(Collapsed(points[..n]), points[n], time);
      if HasTime(points, time) && points[n].time != time {
        var i :| 0 <= i < |points| && points[i].time == time;
        assert points[..n][i].time == time;
      }
      assert points[n].time == time ==> HasTime(points, time);
      assert forall i :: 0 <= i < n ==> points[..n][i] == points[i];
    }
  }

  lemma {:induction false} LaterIsKept(kept: seq<Point>, p: Point)
    requires kept == [] || kept[|kept| - 1].time < p.time
    ensures Absorb(kept, p) == kept + [p]
  {
  }

  lemma {:induction false} CollapsedSnoc(kept: seq<Point>, p: Point)
    ensures Collapsed(kept + [p]) == Absorb(Collapsed(kept), p)
  {
    var all := kept + [p];
    assert all[..|all| - 1] == kept;
    hide Absorb;
  }

  /** Strictly increasing times are left alone. */
  lemma {:induction false} CollapsedIsIdle(points: seq<Point>)
    requires Increasing(points, |points|)
    ensures Collapsed(points) == points
  {
    if points != [] {
      var kept, p := points[..|points| - 1], points[|points| - 1];
      hide Collapsed, Absorb;
      CollapsedIsIdle(kept);
      LaterIsKept(kept, p);
      CollapsedSnoc(kept, p);
      assert points == kept + [p];
    }
  }

  // seconds_to_duration.

  /** A duration message. */
  datatype Duration = Duration(sec: int, nanosec: nat)

  /**
   * Whole seconds and rounded nanoseconds, with the carry when they round up to a full second; None for
   * the exception on negative seconds.
   */
  method SecondsToDuration(seconds: real) returns (d: Option<Duration>)
    ensures d.Some? <==> seconds >= 0.0
    ensures d.Some? ==>
              d.value.nanosec < 1000000000 && d.value.sec * 1000000000 + d.value.nanosec == Round(seconds * SECOND)
  {
    if seconds < 0.0 {
      return None;
    }
    var whole := seconds.Floor;
    var rest := (seconds - whole as real) * SECOND;
    var nanoseconds := Round(rest);
    RoundIsMonotone(0.0, rest);
    RoundIsMonotone(rest, SECOND);
    RoundOfInt(0);
    RoundOfInt(1000000000);
    RoundShifts(rest, whole * 1000000000);
    assert rest + (whole * 1000000000) as real == seconds * SECOND;
    if nanoseconds >= 1000000000 {
      return Some(Duration(whole + 1, nanoseconds - 1000000000));
    }
    return Some(Duration(whole, nanoseconds));
  }

  lemma {:induction false} ScaledSeconds(time: nat, factor: real)
    requires factor >= 1.0
    ensures time as real / SECOND * factor >= 0.0
    ensures time as real / SECOND * factor * SECOND == time as real * factor
  {
    var seconds := time as real / SECOND;
    assert seconds * SECOND == time as real;
    assert seconds * factor * SECOND == seconds * SECOND * factor;
  }

  lemma {:induction false} RoundShifts(x: real, n: int)
    requires x >= 0.0 && n >= 0
    ensures Round(x + n as real) == Round(x) + n
  {
    assert (x + n as real + 0.5).Floor == (x + 0.5).Floor + n;
  }

  // apply_speed_limits.

  predicate FullPositions(names: seq<string>, points: seq<Point>) {
    forall i :: 0 <= i < |points| ==> |points[i].positions| == |names|
  }

  predicate AcceptsTrajectory(l: Limiter, points: seq<Point>) {
    && ValidSettings(l.settings) && points != [] && HasRequired(l.names)
    && Checked(l.names, Collapsed(points), |Collapsed(points)|)
    && (l.enforceLinear ==> FullPositions(l.names, Collapsed(points)))
  }

  lemma {:induction false} CheckedIncreases(names: seq<string>, points: seq<Point>)
    requires Checked(names, points, |points|)
    ensures Increasing(points, |points|)
  {
    forall i | 0 < i < |points|
      ensures points[i - 1].time < points[i].time
    {
      assert SegmentComplete(names, points[i - 1], points[i]);
    }
  }

  /** The joint pass and, when asked for, the TCP pass. */
  method MeasureAll(l: Limiter, points: seq<Point>) returns (r: Result<real, Error>)
    requires ValidLimiter(l)
    ensures r.Ok? <==> Checked(l.names, points, |points|) && (l.enforceLinear ==> FullPositions(l.names, points))
    ensures r.Ok? ==> LeastFactor(l, points, r.value)
  {
    r := MeasureJoints(l, points);
    if r.Err? {
      return;
    }
    CheckedIncreases(l.names, points);
    if l.enforceLinear {
      var before := r.value;
      r := MeasureTravel(l, points, before);
      if r.Err? {
        return;
      }
      BoundsGrow(l, points, |points|, before, r.value);
    }
    MeasuredIsLeast(l, points, r.value);
  }

  class Trajectory {
    var points: seq<Point>

    method Collapse()
      modifies this
      ensures points == Collapsed(old(points))
    {
      var normalized: seq<Point> := [];
      for i := 0 to |points|
        invariant points == old(points) && normalized == Collapsed(points[..i])
      {
        var point := points[i];
        assert points[..i + 1][..i] == points[..i];
        if normalized == [] {
          normalized := [point];
        } else {
          var same := IsDuplicate(normalized[|normalized| - 1], point);
          if same {
            normalized := normalized[|normalized| - 1 := point];
          } else {
            normalized := normalized + [point];
          }
        }
      }
      assert points[..|points|] == points;
      points := normalized;
    }

    static method IsDuplicate(kept: Point, p: Point) returns (r: bool)
      ensures r <==> Duplicates(kept, p)
    {
      if kept.time != p.time || |kept.positions| != |p.positions| {
        return false;
      }
      for index := 0 to |p.positions|
        invariant forall k :: 0 <= k < index ==> Magnitude(kept.positions[k] - p.positions[k]) <= 0.000000000001
      {
        if Magnitude(kept.positions[index] - p.positions[index]) > 0.000000000001 {
          return false;
        }
      }
      return true;
    }

    static method SlowPoint(p: Point, factor: real) returns (q: Point)
      requires factor >= 1.0
      ensures q == Slowed(p, factor)
    {
      ScaledSeconds(p.time, factor);
      var duration := SecondsToDuration(p.time as real / SECOND * factor);
      ProductIsPositive(factor, factor);
      q := Point(duration.value.sec * 1000000000 + duration.value.nanosec, p.positions, Divided(p.velocities, factor),
                 Divided(p.accelerations, Product(factor, factor)));
    }

    method Scale(factor: real)
      requires factor >= 1.0
      modifies this
      ensures points == AllSlowed(old(points), factor)
    {
      var scaled: seq<Point> := [];
      for i := 0 to |points|
        invariant points == old(points) && scaled == AllSlowed(points, factor)[..i]
      {
        var point := SlowPoint(points[i], factor);
        scaled := scaled + [point];
      }
      points := scaled;
    }

    static method CheckSettings(l: Limiter) returns (error: Option<Error>)
      ensures error.None? <==> ValidSettings(l.settings)
      ensures error.Some? ==> error.value == BadSettings
    {
      var s := l.settings;
      for i := 0 to 6
        invariant forall k :: 0 <= k < i ==>
                    1.0 <= s.overrides[k] <= 100.0 && s.maxVelocities[k] > 0.0 && s.maxAccelerations[k] > 0.0
      {
        if s.overrides[i] < 1.0 || s.overrides[i] > 100.0 || s.maxVelocities[i] <= 0.0 || s.maxAccelerations[i] <= 0.0 {
          return Some(BadSettings);
        }
      }
      if s.linearSpeed <= 0.0 || s.accelerationPercent < 1.0 || s.accelerationPercent > 100.0 ||
         s.decelerationPercent < 1.0 || s.decelerationPercent > 100.0 {
        return Some(BadSettings);
      }
      return None;
    }

    static method CheckNames(l: Limiter) returns (ok: bool)
      ensures ok <==> HasRequired(l.names)
    {
      for k := 0 to 6
        invariant forall j :: 0 <= j < k ==> REQUIRED[j] in l.names
      {
        var index := FindJoint(l.names, REQUIRED[k]);
        if index == |l.names| {
          return false;
        }
      }
      return true;
    }

    /**
     * apply_speed_limits: the result is the least factor from 1 up with which every limit holds, and the
     * trajectory is slowed by it when it exceeds 1 by more than a billionth. Either way every velocity,
     * acceleration and segment of the result is then within its limits, up to that billionth and a
     * nanosecond. On an error nothing is scaled.
     */
    method ApplySpeedLimits(l: Limiter) returns (r: Result<real, Error>)
      requires IsRoot(l.root) && forall a, b :: l.travel(a, b) >= 0.0
      modifies this
      ensures r.Ok? <==> AcceptsTrajectory(l, old(points))
      ensures r.Ok? ==>
                var collapsed := Collapsed(old(points));
                LeastFactor(l, collapsed, r.value) &&
                points == (if r.value > DEAD_BAND then AllSlowed(collapsed, r.value) else collapsed) &&
                Limited(l, collapsed, points)
      ensures r.Err? ==> points == old(points) || points == Collapsed(old(points))
    {
      var bad := CheckSettings(l);
      if bad.Some? {
        return Err(bad.value);
      }
      if points == [] {
        return Err(EmptyTrajectory);
      }
      Collapse();
      var named := CheckNames(l);
      if !named {
        return Err(MissingJoint);
      }
      r := MeasureAll(l, points);
      if r.Err? {
        return;
      }
      var factor := r.value;
      ResultIsLimited(l, points, factor);
      if factor > 1.0 + 0.000000001 {
        Scale(factor);
      }
    }
  }
}
