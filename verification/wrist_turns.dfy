/**
 * wrist_turn_preserver.cpp: replacing each wrist position of a trajectory by the equivalent one, whole
 * turns away, that lies in the limits and is nearest to the position before it.
 */
module WristTurns {
  import opened Wrappers
  import opened JointNames
  import opened Rounding
  import opened Reals

  const TWO_PI: real := 6.28318530717958647692

  /** The search looks this many turns to each side of the nearest one. */
  const WINDOW: int := 16

  function Turned(raw: real, turn: int): real {
    raw + turn as real * TWO_PI
  }

  datatype Limits = Limits(low: real, high: real)
  {
    predicate Contain(x: real) {
      low <= x <= high
    }
  }

  function CenterTurn(raw: real, reference: real): int {
    Round((reference - raw) / TWO_PI)
  }

  /** `turn` is the first of the best among the turns that `among` selects. */
  ghost predicate IsBest(raw: real, reference: real, limits: Limits, among: int -> bool, turn: int) {
    && among(turn) && limits.Contain(Turned(raw, turn))
    && (forall j: int :: among(j) && limits.Contain(Turned(raw, j)) ==> NoCloser(raw, reference, turn, j))
  }

  predicate NoCloser(raw: real, reference: real, turn: int, j: int) {
    var d, e := Distance(Turned(raw, turn), reference), Distance(Turned(raw, j), reference);
    d <= e && (j < turn ==> d < e)
  }

  function Every(): int -> bool {
    (j: int) => true
  }

  function Between(from: int, to: int): int -> bool {
    (j: int) => from <= j < to
  }

  /** No equivalent position lies in the limits. */
  ghost predicate Unreachable(raw: real, limits: Limits) {
    forall j: int :: !limits.Contain(Turned(raw, j))
  }

  /** No equivalent position in the search's window lies in the limits. */
  ghost predicate EmptyWindow(raw: real, reference: real, limits: Limits) {
    var c := CenterTurn(raw, reference);
    forall j: int :: c - WINDOW <= j <= c + WINDOW ==> !limits.Contain(Turned(raw, j))
  }

  /**
   * Less than 16.5 turns from every position in the limits or, when the limits span a turn or more, at
   * most 15.5 turns from the limits.
   */
  predicate NearLimits(reference: real, limits: Limits) {
    var width := limits.high - limits.low;
    if width < TWO_PI then
      width < 0.0 || limits.high - 16.5 * TWO_PI < reference < limits.low + 16.5 * TWO_PI
    else
      limits.low - 15.5 * TWO_PI <= reference <= limits.high + 15.5 * TWO_PI
  }

  /** The inner loop: the first best turn of the window, if any is in the limits. */
  method SearchWindow(raw: real, reference: real, limits: Limits) returns (r: Option<int>)
    ensures var c := CenterTurn(raw, reference);
            match r
            case Some(turn) => IsBest(raw, reference, limits, Between(c - WINDOW, c + WINDOW + 1), turn)
            case None => EmptyWindow(raw, reference, limits)
  {
    r := None;
    var best, bestDistance := 0.0, 0.0;
    var center := CenterTurn(raw, reference);
    for turn := center - WINDOW to center + WINDOW + 1
      invariant r.Some? ==>
                  && best == Turned(raw, r.value) && bestDistance == Distance(best, reference)
                  && IsBest(raw, reference, limits, Between(center - WINDOW, turn), r.value)
      invariant r.None? ==> forall j: int :: center - WINDOW <= j < turn ==> !limits.Contain(Turned(raw, j))
    {
      var candidate := Turned(raw, turn);
      if limits.Contain(candidate) {
        var distance := Distance(candidate, reference);
        if r.None? || distance < bestDistance {
          r, best, bestDistance := Some(turn), candidate, distance;
        }
      }
    }
  }

  /** The turns from the search's centre to `turn`, as a difference of positions. */
  lemma {:induction false} TurnsApart(raw: real, reference: real, turn: int)
    ensures var apart := (CenterTurn(raw, reference) - turn) as real * TWO_PI;
            apart - 0.5 * TWO_PI <= reference - Turned(raw, turn) <= apart + 0.5 * TWO_PI
  {
    var turns := (reference - raw) / TWO_PI;
    assert turns * TWO_PI == reference - raw;
  }

  /** A turn outside the window is beaten by any turn inside it, or by the window's edge, itself in the limits. */
  lemma {:induction false} InsideIsCloser(raw: real, reference: real, limits: Limits, turn: int, j: int)
    requires var c := CenterTurn(raw, reference); c - WINDOW <= turn <= c + WINDOW && !(c - WINDOW <= j <= c + WINDOW)
    requires limits.Contain(Turned(raw, turn)) && limits.Contain(Turned(raw, j))
    ensures var c := CenterTurn(raw, reference);
            var edge := if j > c then c + WINDOW else c - WINDOW;
            limits.Contain(Turned(raw, edge)) &&
            Distance(Turned(raw, edge), reference) < Distance(Turned(raw, j), reference)
  {
    var c := CenterTurn(raw, reference);
    TurnsApart(raw, reference, j);
    TurnsApart(raw, reference, c + WINDOW);
    TurnsApart(raw, reference, c - WINDOW);
  }

  /** So the window loses nothing: its best turn is the best of all turns. */
  lemma {:induction false} WindowSuffices(raw: real, reference: real, limits: Limits, turn: int)
    requires var c := CenterTurn(raw, reference);
             IsBest(raw, reference, limits, Between(c - WINDOW, c + WINDOW + 1), turn)
    ensures IsBest(raw, reference, limits, Every(), turn)
  {
    var c := CenterTurn(raw, reference);
    var window := Between(c - WINDOW, c + WINDOW + 1);
    assert window(turn);
    forall j: int | limits.Contain(Turned(raw, j))
      ensures NoCloser(raw, reference, turn, j)
    {
      if !window(j) {
        InsideIsCloser(raw, reference, limits, turn, j);
        assert window(if j > c then c + WINDOW else c - WINDOW);
      }
    }
  }

  lemma {:induction false} NearIsFound(raw: real, reference: real, limits: Limits)
    requires NearLimits(reference, limits) && EmptyWindow(raw, reference, limits)
    ensures Unreachable(raw, limits)
  {
    var c := CenterTurn(raw, reference);
    forall j: int
      ensures !limits.Contain(Turned(raw, j))
    {
      if limits.Contain(Turned(raw, j)) {
        TurnsApart(raw, reference, j);
        TurnsApart(raw, reference, c + WINDOW);
        TurnsApart(raw, reference, c - WINDOW);
      }
    }
  }

  /** A position in the limits that the search misses, from a start too far away. */
  function Missed(reference: real, limits: Limits): real {
    var above, below := reference + 16.5 * TWO_PI, reference - 16.5 * TWO_PI;
    if limits.high - limits.low < TWO_PI then
      if above <= limits.high then limits.high else limits.low
    else if above < limits.low + TWO_PI then
      ((if above < limits.low then limits.low else above) + limits.low + TWO_PI) / 2.0
    else
      ((if below > limits.high then limits.high else below) + limits.high - TWO_PI) / 2.0
  }

  lemma {:induction false} FarIsMissed(reference: real, limits: Limits)
    requires !NearLimits(reference, limits)
    ensures var raw := Missed(reference, limits); EmptyWindow(raw, reference, limits) && limits.Contain(Turned(raw, 0))
  {
    var raw := Missed(reference, limits);
    var turns := (reference - raw) / TWO_PI;
    assert turns * TWO_PI == reference - raw;
    assert if reference < raw then turns <= -16.5 else turns >= 16.5;
  }

  /** Every refusal is honest exactly for a start near the limits. */
  lemma {:induction false} RefusalsAreHonest(reference: real, limits: Limits)
    ensures (forall raw: real :: EmptyWindow(raw, reference, limits) ==> Unreachable(raw, limits)) <==>
            NearLimits(reference, limits)
  {
    if NearLimits(reference, limits) {
      forall raw: real | EmptyWindow(raw, reference, limits)
        ensures Unreachable(raw, limits)
      {
        NearIsFound(raw, reference, limits);
      }
    } else {
      FarIsMissed(reference, limits);
    }
  }

  lemma {:induction false} BestIsUnique(raw: real, reference: real, limits: Limits, among: int -> bool, a: int, b: int)
    requires IsBest(raw, reference, limits, among, a) && IsBest(raw, reference, limits, among, b)
    ensures a == b
  {
    assert NoCloser(raw, reference, a, b) && NoCloser(raw, reference, b, a);
  }

  // The trajectory.

  datatype Error = MissingJoint | IncompletePoint | NoTurn

  /** The wrist position before point i: the start position, or point i-1 as already replaced. */
  function Previous(points: seq<seq<real>>, index: nat, current: real, i: nat): real
    requires i <= |points| && forall k :: 0 <= k < i ==> index < |points[k]|
  {
    if i == 0 then current else points[i - 1][index]
  }

  /** Point i is the original with its wrist position turned to the nearest equivalent in the limits. */
  ghost predicate Preserved(was: seq<seq<real>>, now: seq<seq<real>>, index: nat, current: real, limits: Limits, i: nat)
    requires |was| == |now| && i < |now|
    requires forall k :: 0 <= k <= i ==> index < |was[k]| && index < |now[k]|
  {
    var raw := was[i][index];
    exists turn: int ::
      IsBest(raw, Previous(now, index, current, i), limits, Every(), turn) &&
      now[i] == was[i][index := Turned(raw, turn)]
  }

  /**
   * preserve_absolute_turns. On success every wrist position is the globally nearest equivalent in the
   * limits. NoTurn is thrown at the first point whose window is empty, with the points before it replaced;
   * that point then has no equivalent in the limits at all, unless it is the first and the start is far.
   */
  method PreserveAbsoluteTurns(
      points: array<seq<real>>, names: seq<string>, name: string, current: real, limits: Limits)
    returns (r: Result<nat, (Error, nat)>)
    modifies points
    ensures var index, was, now := IndexOf(names, name), old(points[..]), points[..];
            match r
            case Ok(count) =>
              && count == |was| && name in names
                 && (forall k :: 0 <= k < |was| ==> index < |was[k]| && index < |now[k]|)
              && (forall i :: 0 <= i < |was| ==> Preserved(was, now, index, current, limits, i))
            case Err((error, at)) =>
              if error == MissingJoint then name !in names && now == was
              else
                && name in names && at < |was| && now[at..] == was[at..]
                && (error == IncompletePoint <==> index >= |was[at]|)
                && (forall k :: 0 <= k < at ==> index < |was[k]| && index < |now[k]|)
                && (forall i :: 0 <= i < at ==> Preserved(was, now, index, current, limits, i))
                && (error == NoTurn ==>
                      && EmptyWindow(was[at][index], Previous(now, index, current, at), limits)
                      && (at > 0 || NearLimits(current, limits) ==> Unreachable(was[at][index], limits)))
  {
    var index := FindJoint(names, name);
    if index == |names| {
      return Err((MissingJoint, 0));
    }
    hide NearLimits, EmptyWindow, IsBest, Unreachable, Turned;
    var reference := current;
    ghost var was := points[..];
    for i := 0 to points.Length
      invariant NearLimits(current, limits) || i > 0 ==> NearLimits(reference, limits)
      invariant points[..][i..] == was[i..]
      invariant forall k :: 0 <= k < i ==> index < |was[k]| && index < |points[..][k]|
      invariant reference == Previous(points[..], index, current, i)
      invariant forall k :: 0 <= k < i ==> Preserved(was, points[..], index, current, limits, k)
    {
      ghost var before := points[..];
      assert points[i] == before[i..][0] == was[i];
      if index >= |points[i]| {
        return Err((IncompletePoint, i));
      }
      var raw := points[i][index];
      var turn := SearchWindow(raw, reference, limits);
      if turn.None? {
        if NearLimits(reference, limits) {
          NearIsFound(raw, reference, limits);
        }
        return Err((NoTurn, i));
      }
      WindowSuffices(raw, reference, limits, turn.value);
      BestIsNear(raw, reference, limits, turn.value);
      points[i] := points[i][index := Turned(raw, turn.value)];
      reference := Turned(raw, turn.value);
      assert points[..] == before[i := points[i]];
      StillPreserved(was, before, points[..], index, current, limits, i);
    }
    return Ok(points.Length);
  }

  lemma {:induction false} BestIsNear(raw: real, reference: real, limits: Limits, turn: int)
    requires IsBest(raw, reference, limits, Every(), turn)
    ensures NearLimits(Turned(raw, turn), limits)
  {
  }

  lemma {:induction false} StillPreserved(
    was: seq<seq<real>>, before: seq<seq<real>>, now: seq<seq<real>>, index: nat, current: real, limits: Limits, i: nat)
    requires |was| == |before| == |now| && i < |now| && now[..i] == before[..i]
    requires forall k :: 0 <= k <= i ==> index < |was[k]| && index < |now[k]|
    requires forall k :: 0 <= k < i ==> index < |before[k]|
    requires forall k :: 0 <= k < i ==> Preserved(was, before, index, current, limits, k)
    ensures forall k :: 0 <= k < i ==> Preserved(was, now, index, current, limits, k)
  {
    forall k | 0 <= k < i
      ensures Preserved(was, now, index, current, limits, k)
    {
      assert Preserved(was, before, index, current, limits, k);
      assert now[..i][k] == before[..i][k] && (k > 0 ==> now[..i][k - 1] == before[..i][k - 1]);
    }
  }
}
