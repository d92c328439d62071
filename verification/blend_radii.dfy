/**
 * Blend radii in both sequence builders. A route is given by the distances between consecutive points,
 * the first of which is the start position; target i ends distance i.
 */
module BlendRadii {
  import opened Wrappers
  import opened PathMessages
  import opened PathProtocol
  import FlyPaths

  function Min(x: real, y: real): real {
    if x <= y then x else y
  }

  /** pilz_sequence_builder.cpp: the radius at target i. */
  function FlyRadius(distances: seq<real>, s: FlyPaths.Settings, factor: real, i: nat): real
    requires i < |distances|
  {
    if i + 1 == |distances| then 0.0
    else if s.mode.Cartesian? then s.distance / 1000.0
    else NormalRadius(factor, Min(distances[i], distances[i + 1]), s.normalPercent)
  }

  /** compute_fly_blend_radii; None for the exception on fewer than two targets. */
  method ComputeFlyBlendRadii(distances: seq<real>, s: FlyPaths.Settings, factor: real) returns (r: Option<array<real>>)
    ensures r.Some? <==> |distances| >= 2
    ensures r.Some? ==>
              && r.value.Length == |distances|
              && forall i :: 0 <= i < |distances| ==> r.value[i] == FlyRadius(distances, s, factor, i)
  {
    if |distances| < 2 {
      return None;
    }
    var radii := new real[|distances|](_ => 0.0);
    for i := 0 to |distances| - 1
      invariant forall k :: 0 <= k < i ==> radii[k] == FlyRadius(distances, s, factor, k)
      invariant radii[|distances| - 1] == 0.0
    {
      if s.mode.Cartesian? {
        radii[i] := s.distance / 1000.0;
      } else {
        radii[i] := NormalRadius(factor, Min(distances[i], distances[i + 1]), s.normalPercent);
      }
    }
    return Some(radii);
  }

  /** path_sequence_builder.cpp's blend_radius at target i; the node says whether and how it flies. */
  function PathRadius(distances: seq<real>, nodes: seq<PathNode>, factor: real, i: nat): real
    requires i < |distances| == |nodes|
  {
    var incoming := distances[i];
    var outgoing := if i + 1 < |distances| then distances[i + 1] else incoming;
    if i + 1 == |nodes| || !nodes[i].fly then 0.0
    else if nodes[i].flyType == 1 then nodes[i].flyDistance / 1000.0
    else NormalRadius(factor, Min(incoming, outgoing), nodes[i].flyPercent)
  }

  predicate Positive(distances: seq<real>) {
    forall i :: 0 <= i < |distances| ==> distances[i] > 0.0
  }

  /** The share of the shorter distance that a normal blend takes. */
  function Share(factor: real, percent: real): real {
    factor * percent / 100.0
  }

  function NormalRadius(factor: real, shorter: real, percent: real): real {
    factor * shorter * percent / 100.0
  }

  lemma {:induction false} LessThanHalf(factor: real, percent: real, shorter: real, next: real)
    requires Share(factor, percent) < 0.5 && 0.0 < shorter <= next
    ensures NormalRadius(factor, shorter, percent) < next / 2.0
  {
    assert factor * shorter * percent / 100.0 == factor * percent / 100.0 * shorter;
    assert factor * percent / 100.0 * shorter < 0.5 * shorter;
  }

  lemma {:induction false} UnitRadius(factor: real, percent: real)
    ensures NormalRadius(factor, 1.0, percent) == Share(factor, percent)
  {
  }

  /** Adjacent normal blends stay apart, and the last target is reached. */
  predicate Apart(distances: seq<real>, s: FlyPaths.Settings, factor: real) {
    && (forall i :: 0 <= i < |distances| - 1 ==>
          FlyRadius(distances, s, factor, i) + FlyRadius(distances, s, factor, i + 1) < distances[i + 1])
    && (distances != [] ==> FlyRadius(distances, s, factor, |distances| - 1) == 0.0)
  }

  lemma {:induction false} SmallBlendsAreApart(distances: seq<real>, s: FlyPaths.Settings, factor: real)
    requires s.mode.Normal? && Share(factor, s.normalPercent) < 0.5
    requires Positive(distances)
    ensures Apart(distances, s, factor)
  {
    forall i | 0 <= i < |distances| - 1
      ensures FlyRadius(distances, s, factor, i) + FlyRadius(distances, s, factor, i + 1) < distances[i + 1]
    {
      LessThanHalf(factor, s.normalPercent, Min(distances[i], distances[i + 1]), distances[i + 1]);
      if i + 2 < |distances| {
        LessThanHalf(factor, s.normalPercent, Min(distances[i + 1], distances[i + 2]), distances[i + 1]);
      }
    }
  }

  /**
   * In normal mode the blends of every route stay apart exactly when the safety factor times the
   * percentage is below one half; in particular for every factor below 0.5 and percentage up to 100.
   */
  lemma {:induction false} BlendsStayApart(s: FlyPaths.Settings, factor: real)
    requires s.mode.Normal?
    ensures (forall distances: seq<real> :: Positive(distances) ==> Apart(distances, s, factor)) <==>
            Share(factor, s.normalPercent) < 0.5
  {
    if Share(factor, s.normalPercent) < 0.5 {
      forall distances: seq<real> | Positive(distances)
        ensures Apart(distances, s, factor)
      {
        SmallBlendsAreApart(distances, s, factor);
      }
    } else {
      var equal := [1.0, 1.0, 1.0];
      UnitRadius(factor, s.normalPercent);
      assert Positive(equal);
      assert FlyRadius(equal, s, factor, 0) + FlyRadius(equal, s, factor, 1) >= equal[1];
    }
  }

  /** A safety factor the simulator starts with. */
  predicate ValidFactor(factor: real) {
    0.0 < factor < 0.5
  }

  lemma {:induction false} HalfFactor(factor: real, percent: real)
    requires ValidFactor(factor) && 0.0 <= percent <= 100.0
    ensures Share(factor, percent) < 0.5
  {
    assert factor * percent <= factor * 100.0;
  }

  /** So every accepted configuration keeps the normal blends of every route apart. */
  lemma {:induction false} ConfiguredBlendsStayApart(distances: seq<real>, s: FlyPaths.Settings, factor: real)
    requires FlyPaths.ValidSettings(s) && s.mode.Normal? && ValidFactor(factor) && Positive(distances)
    ensures Apart(distances, s, factor)
  {
    HalfFactor(factor, s.normalPercent);
    SmallBlendsAreApart(distances, s, factor);
  }

  /**
   * Cartesian blends all have the configured distance. They stay apart exactly if twice that distance is
   * less than the way between any two blended targets, and once that distance less than the last way.
   */
  lemma {:induction false} CartesianBlends(distances: seq<real>, s: FlyPaths.Settings, factor: real)
    requires s.mode.Cartesian?
    ensures Apart(distances, s, factor) <==>
            && (forall i :: 0 < i < |distances| - 1 ==> 2.0 * s.distance < 1000.0 * distances[i])
            && (|distances| >= 2 ==> s.distance < 1000.0 * distances[|distances| - 1])
  {
    var n := |distances|;
    if Apart(distances, s, factor) {
      forall i | 0 < i < n
        ensures (if i < n - 1 then 2.0 * s.distance else s.distance) < 1000.0 * distances[i]
      {
        assert FlyRadius(distances, s, factor, i - 1) + FlyRadius(distances, s, factor, i - 1 + 1) < distances[i];
      }
    } else {
      var i :| 0 <= i < n - 1
        && FlyRadius(distances, s, factor, i) + FlyRadius(distances, s, factor, i + 1) >= distances[i + 1];
      assert (if i + 1 < n - 1 then 2.0 * s.distance else s.distance) >= 1000.0 * distances[i + 1];
    }
  }

  /** The configured distance ignores the route: only zero keeps the blends of every route apart. */
  lemma {:induction false} CartesianBlendsOverlap(s: FlyPaths.Settings, factor: real)
    requires FlyPaths.ValidSettings(s) && s.mode.Cartesian?
    ensures (forall distances: seq<real> :: Positive(distances) ==> Apart(distances, s, factor)) <==> s.distance == 0.0
  {
    if s.distance == 0.0 {
      forall distances: seq<real> | Positive(distances)
        ensures Apart(distances, s, factor)
      {
        CartesianBlends(distances, s, factor);
      }
    } else {
      var short := [s.distance / 1000.0, s.distance / 1000.0];
      assert Positive(short);
      CartesianBlends(short, s, factor);
    }
  }

  /** So do those of a batch whose flying nodes all blend in normal mode, whatever each one's percentage. */
  lemma {:induction false} PathBlendsStayApart(distances: seq<real>, nodes: seq<PathNode>, factor: real, i: nat)
    requires |distances| == |nodes| && i + 1 < |nodes| && Positive(distances) && ValidFactor(factor)
    requires forall k :: 0 <= k < |nodes| && nodes[k].fly ==>
             nodes[k].flyType == 0 && 0.0 <= nodes[k].flyPercent <= 100.0
    ensures PathRadius(distances, nodes, factor, i) + PathRadius(distances, nodes, factor, i + 1) < distances[i + 1]
    ensures PathRadius(distances, nodes, factor, |nodes| - 1) == 0.0
  {
    SmallRadius(distances, nodes, factor, i);
    SmallRadius(distances, nodes, factor, i + 1);
  }

  /** A normal radius, or one without a distance, is less than half of the way before and after it. */
  lemma {:induction false} SmallRadius(distances: seq<real>, nodes: seq<PathNode>, factor: real, i: nat)
    requires |distances| == |nodes| && i < |nodes| && Positive(distances) && ValidFactor(factor)
    requires i + 1 < |nodes| && nodes[i].fly ==>
               0.0 <= nodes[i].flyPercent <= 100.0 && (nodes[i].flyType == 1 ==> nodes[i].flyDistance == 0.0)
    ensures PathRadius(distances, nodes, factor, i) < distances[i] / 2.0
    ensures i + 1 < |nodes| ==> PathRadius(distances, nodes, factor, i) < distances[i + 1] / 2.0
  {
    if i + 1 < |nodes| && nodes[i].fly && nodes[i].flyType != 1 {
      var shorter := Min(distances[i], distances[i + 1]);
      HalfFactor(factor, nodes[i].flyPercent);
      LessThanHalf(factor, nodes[i].flyPercent, shorter, distances[i]);
      LessThanHalf(factor, nodes[i].flyPercent, shorter, distances[i + 1]);
    }
  }

  // Batches that mix both kinds of blend.

  /** Adjacent blends of a batch stay apart, and its last target is reached. */
  predicate PathApart(distances: seq<real>, nodes: seq<PathNode>, factor: real)
    requires |distances| == |nodes|
  {
    && (forall i :: 0 <= i < |nodes| - 1 ==>
          PathRadius(distances, nodes, factor, i) + PathRadius(distances, nodes, factor, i + 1) < distances[i + 1])
    && (nodes != [] ==> PathRadius(distances, nodes, factor, |nodes| - 1) == 0.0)
  }

  /** What validation asks of a node's blend. */
  predicate ValidBlend(node: PathNode) {
    node.fly ==> 0.0 <= node.flyPercent <= 100.0 && node.flyDistance >= 0.0
  }

  predicate ValidBlends(nodes: seq<PathNode>) {
    forall k :: 0 <= k < |nodes| ==> ValidBlend(nodes[k])
  }

  lemma {:induction false} ValidNodesBlend(nodes: seq<PathNode>, pathType: nat, frames: set<nat>, slots: set<nat>)
    requires forall k :: 0 <= k < |nodes| ==> ValidNode(nodes[k], pathType, frames, slots)
    ensures ValidBlends(nodes)
  {
    hide MaskDefined;
  }

  /** The way, in millimetres, that a Cartesian blend takes at target i. */
  function Reach(nodes: seq<PathNode>, i: nat): real
    requires i < |nodes|
  {
    if i + 1 < |nodes| && nodes[i].fly then nodes[i].flyDistance else 0.0
  }

  /** If all flying nodes blend in Cartesian mode, adjacent ones must leave room for each other's distance. */
  lemma {:induction false} CartesianPathBlends(distances: seq<real>, nodes: seq<PathNode>, factor: real)
    requires |distances| == |nodes| && forall k :: 0 <= k < |nodes| && nodes[k].fly ==> nodes[k].flyType == 1
    ensures PathApart(distances, nodes, factor) <==>
              forall i :: 0 <= i < |nodes| - 1 ==> Reach(nodes, i) + Reach(nodes, i + 1) < 1000.0 * distances[i + 1]
  {
    assert forall i :: 0 <= i < |nodes| ==> PathRadius(distances, nodes, factor, i) == Reach(nodes, i) / 1000.0;
    if PathApart(distances, nodes, factor) {
      forall i | 0 <= i < |nodes| - 1
        ensures Reach(nodes, i) + Reach(nodes, i + 1) < 1000.0 * distances[i + 1]
      {
        assert PathRadius(distances, nodes, factor, i) + PathRadius(distances, nodes, factor, i + 1) < distances[i + 1];
      }
    } else {
      var i :| 0 <= i < |nodes| - 1
        && PathRadius(distances, nodes, factor, i) + PathRadius(distances, nodes, factor, i + 1) >= distances[i + 1];
      assert Reach(nodes, i) + Reach(nodes, i + 1) >= 1000.0 * distances[i + 1];
    }
  }

  /** No node but the last blends in Cartesian mode over a positive distance. */
  predicate NoReach(nodes: seq<PathNode>) {
    forall i :: 0 <= i < |nodes| - 1 && nodes[i].fly && nodes[i].flyType == 1 ==> nodes[i].flyDistance == 0.0
  }

  /** Whatever the mix, a batch's blends stay apart on every route exactly if no Cartesian one has a distance. */
  lemma {:induction false} MixedBlends(
    nodes: seq<PathNode>, pathType: nat, frames: set<nat>, slots: set<nat>, factor: real)
    requires ValidFactor(factor) && forall k :: 0 <= k < |nodes| ==> ValidNode(nodes[k], pathType, frames, slots)
    ensures (forall distances: seq<real> :: |distances| == |nodes| && Positive(distances) ==>
               PathApart(distances, nodes, factor)) <==>
            NoReach(nodes)
  {
    ValidNodesBlend(nodes, pathType, frames, slots);
    hide ValidNode;
    if NoReach(nodes) {
      forall distances: seq<real> | |distances| == |nodes| && Positive(distances)
        ensures PathApart(distances, nodes, factor)
      {
        WithoutReach(distances, nodes, factor);
      }
    } else {
      var i :| 0 <= i < |nodes| - 1 && nodes[i].fly && nodes[i].flyType == 1 && nodes[i].flyDistance != 0.0;
      assert ValidBlend(nodes[i]);
      var short := seq(|nodes|, k => nodes[i].flyDistance / 1000.0);
      assert Positive(short);
      RadiusIsNotNegative(short, nodes, factor, i + 1);
      assert PathRadius(short, nodes, factor, i) + PathRadius(short, nodes, factor, i + 1) >= short[i + 1];
    }
  }

  lemma {:induction false} RadiusIsNotNegative(distances: seq<real>, nodes: seq<PathNode>, factor: real, i: nat)
    requires |distances| == |nodes| && i < |nodes| && Positive(distances) && ValidBlends(nodes) && ValidFactor(factor)
    ensures PathRadius(distances, nodes, factor, i) >= 0.0
  {
    assert ValidBlend(nodes[i]);
    if i + 1 < |nodes| && nodes[i].fly && nodes[i].flyType != 1 {
      var shorter := Min(distances[i], distances[i + 1]);
      assert factor * shorter >= 0.0;
      assert factor * shorter * nodes[i].flyPercent >= 0.0;
    }
  }

  lemma {:induction false} WithoutReach(distances: seq<real>, nodes: seq<PathNode>, factor: real)
    requires |distances| == |nodes| && Positive(distances) && ValidBlends(nodes) && ValidFactor(factor)
    requires NoReach(nodes)
    ensures PathApart(distances, nodes, factor)
  {
    forall i | 0 <= i < |nodes| - 1
      ensures PathRadius(distances, nodes, factor, i) + PathRadius(distances, nodes, factor, i + 1) < distances[i + 1]
    {
      assert ValidBlend(nodes[i]) && ValidBlend(nodes[i + 1]);
      assert distances[i] > 0.0 && distances[i + 1] > 0.0;
      SmallRadius(distances, nodes, factor, i);
      SmallRadius(distances, nodes, factor, i + 1);
    }
  }
}
