/** The ExecutePath goal and its parts, as the interface package declares them. */
module PathMessages {
  const CARTESIAN: nat := 0
  const JOINT: nat := 1

  const MOTION_JOINT: nat := 0
  const MOTION_LINEAR: nat := 1
  const MOTION_CIRCULAR: nat := 2
  const MOTION_SEG_VIA: nat := 3

  datatype PathNode = PathNode(
    motionType: nat,
    target: seq<real>,
    linearSpeed: real,
    rotationalSpeed: real,
    segmentOverride: real,
    terminationType: nat,
    tolerance: real,
    segmentData: bool,
    fly: bool,
    flyType: nat,
    flyPercent: real,
    flyDistance: real,
    flyTrajectory: nat,
    stressPercent: real,
    referenceIndex: nat,
    toolIndex: nat,
    conditionMask: int,
    conditionMaskBack: int,
    wait: bool)

  datatype PathFrame = PathFrame(index: nat, pose: seq<real>)

  datatype PathCondition = PathCondition(slot: nat, handler: int)

  datatype Goal = Goal(
    pathId: nat,
    pathType: nat,
    frames: seq<PathFrame>,
    conditions: seq<PathCondition>,
    nodes: seq<PathNode>,
    startIndex: nat,
    endIndex: nat)
  {
    /** Both validators read a zero start index as the first node and a zero end index as the last. */
    function Start(): nat {
      if startIndex == 0 then 1 else startIndex
    }

    function End(): nat {
      if endIndex == 0 then |nodes| else endIndex
    }
  }

  /** How many nodes the range first..last has; it runs backwards when last precedes first. */
  function RangeLength(first: int, last: int): nat {
    if first <= last then last - first + 1 else first - last + 1
  }

  function RangeNode(first: int, last: int, i: nat): int {
    if first <= last then first + i else first - i
  }

  function Range(first: int, last: int): (r: seq<int>)
    ensures |r| == RangeLength(first, last)
    ensures forall i :: 0 <= i < |r| ==> r[i] == RangeNode(first, last, i)
  {
    seq(RangeLength(first, last), i requires 0 <= i => RangeNode(first, last, i))
  }

  function FrameIndexes(frames: seq<PathFrame>): set<nat> {
    set f | f in frames :: f.index
  }

  function Slots(conditions: seq<PathCondition>): set<nat> {
    set c | c in conditions :: c.slot
  }

  /** Bit `bit` of a 32-bit two's complement mask. */
  predicate MaskBit(mask: int, bit: nat) {
    (mask % 0x1_0000_0000) / Pow2(bit) % 2 == 1
  }

  function Pow2(n: nat): (p: nat)
    ensures p > 0
  {
    if n == 0 then 1 else 2 * Pow2(n - 1)
  }

  predicate MaskDefined(mask: int, slots: set<nat>) {
    forall bit: nat | bit < 32 && MaskBit(mask, bit) :: bit + 1 in slots
  }

  lemma {:induction false} ZeroMask(slots: set<nat>)
    ensures MaskDefined(0, slots)
  {
    forall bit: nat | bit < 32
      ensures !MaskBit(0, bit)
    {
      assert 0 / Pow2(bit) == 0;
    }
  }

  /** A node that neither flies nor uses frames or conditions. */
  function PlainNode(motionType: nat, target: seq<real>, override: real, wait: bool): PathNode {
    PathNode(motionType, target, 0.0, 0.0, override, 0, 0.0, false, false, 0, 75.0, 0.0, 0, 10.0, 0, 0, 0, 0, wait)
  }
}
