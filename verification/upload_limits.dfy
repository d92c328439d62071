/** Which goals the upload theorem covers, and two validated goals the controller refuses. */
module UploadLimits {
  import opened Wrappers
  import opened PathMessages
  import opened DecimalText
  import opened RoundTrip
  import opened PathProtocol
  import opened MovementsState
  import opened Upload

  const LARGEST := 99999999999999999

  predicate Moderate(x: real) {
    -LARGEST as real <= x <= LARGEST as real
  }

  predicate AllModerate(values: seq<real>) {
    forall i :: 0 <= i < |values| ==> Moderate(values[i])
  }

  predicate ModerateNode(node: PathNode) {
    && AllModerate(node.target)
    && Moderate(node.linearSpeed) && Moderate(node.rotationalSpeed) && Moderate(node.tolerance)
    && Moderate(node.flyDistance)
    && Moderate(node.conditionMask as real) && Moderate(node.conditionMaskBack as real)
  }

  /** Every free number of the goal is below 10^17 in magnitude. */
  predicate ModerateGoal(goal: Goal) {
    && (forall i :: 0 <= i < |goal.nodes| ==> ModerateNode(goal.nodes[i]))
    && (forall i :: 0 <= i < |goal.frames| ==> AllModerate(goal.frames[i].pose))
    && (forall i :: 0 <= i < |goal.conditions| ==> Moderate(goal.conditions[i].handler as real))
  }

  lemma {:induction false} ModerateFits(values: seq<real>)
    requires AllModerate(values)
    ensures AllFit(values)
  {
    forall i | 0 <= i < |values|
      ensures Fits(values[i])
    {
      ModerateValuesFit(values[i]);
    }
  }

  predicate ModerateCommand(c: Command) {
    AllModerate(c.values)
  }

  lemma {:induction false} ModerateNodesFit(path: Goal, k: nat, frames: set<nat>, slots: set<nat>)
    requires path.pathId <= MAX_ID && k < |path.nodes| < LARGEST && ModerateNode(path.nodes[k])
    requires ValidNode(path.nodes[k], path.pathType, frames, slots)
    ensures NodeEvery(path, k, ModerateCommand)
  {
    var node := path.nodes[k];
    var target := TargetCommand(path, k + 1, node).values;
    assert forall i :: 3 <= i < |target| ==> target[i] == node.target[i - 3];
  }

  lemma {:induction false} ModerateHeader(path: Goal)
    requires path.pathId <= MAX_ID && path.pathType <= 1 && |path.nodes| < LARGEST
    requires path.startIndex <= |path.nodes| && path.endIndex <= |path.nodes|
    ensures AllModerate(BeginCommand(path).values) && AllModerate(CommitCommand(path).values)
  {
  }

  lemma {:induction false} ModerateFrame(path: Goal, frame: PathFrame)
    requires path.pathId <= MAX_ID && frame.index <= 7 && AllModerate(frame.pose)
    ensures AllModerate(FrameCommand(path, frame).values)
  {
    var values := FrameCommand(path, frame).values;
    assert forall i :: 2 <= i < |values| ==> values[i] == frame.pose[i - 2];
  }

  lemma {:induction false} ModerateUpload(path: Goal, maxNodes: nat)
    requires Resolved(path, maxNodes) && maxNodes < LARGEST && ModerateGoal(path)
    ensures Every(UploadCommands(path), ModerateCommand)
  {
    ModerateHeader(path);
    forall i | 0 <= i < |path.frames|
      ensures AllModerate(FrameCommand(path, path.frames[i]).values)
    {
      ModerateFrame(path, path.frames[i]);
    }
    forall k | 0 <= k < |path.nodes|
      ensures NodeEvery(path, k, ModerateCommand)
    {
      ModerateNodesFit(path, k, FrameIndexes(path.frames), Slots(path.conditions));
    }
    BlocksEvery(path, BlockCount(path), ModerateCommand);
  }

  /** Every goal of ordinary magnitude meets the token limit. */
  lemma {:induction false} ModerateGoalsFit(goal: Goal, maxNodes: nat)
    requires Valid(goal, maxNodes) && maxNodes < LARGEST && ModerateGoal(goal)
    ensures TokensFit(Validated(goal))
  {
    var path := Validated(goal);
    ValidatedIsResolved(goal, maxNodes);
    ModerateUpload(path, maxNodes);
    forall i | 0 <= i < |UploadCommands(path)|
      ensures AllFit(UploadCommands(path)[i].values)
    {
      ModerateFits(UploadCommands(path)[i].values);
    }
  }

  // The validator is not enough on its own.

  const ORIGIN := [0.0, 0.0, 0.0, 0.0, 0.0, 0.0]

  /** One JOINT node at the origin. */
  function JointGoal(frames: seq<PathFrame>, override: real): Goal {
    Goal(1, JOINT, frames, [], [PlainNode(MOTION_JOINT, ORIGIN, override, false)], 1, 1)
  }

  lemma {:induction false} JointGoalIsValid(frames: seq<PathFrame>, override: real)
    requires ValidFrames(frames) && 0.0 < override <= 100.0
    requires forall i :: 0 <= i < |frames| ==> AllModerate(frames[i].pose)
    ensures Valid(JointGoal(frames, override), 256) && ModerateGoal(JointGoal(frames, override))
  {
    ZeroMask(Slots([]));
    assert ValidNode(PlainNode(MOTION_JOINT, ORIGIN, override, false), JOINT, FrameIndexes(frames), Slots([]));
    assert ModerateNode(PlainNode(MOTION_JOINT, ORIGIN, override, false));
  }

  lemma {:induction false} Refused(s: Movements, goal: Goal, maxNodes: nat)
    requires Invariant(s) && Valid(goal, maxNodes) && maxNodes < LARGEST && ModerateGoal(goal) && !Uploadable(goal)
    requires goal == Validated(goal)
    ensures Feed(s, Texts(UploadCommands(goal))).None?
  {
    hide Invariant, Valid, ModerateGoal, Uploadable, Validated;
    ModerateGoalsFit(goal, maxNodes);
    UploadIsExact(s, goal, maxNodes);
  }

  /**
   * validate_path_goal accepts every JOINT goal with an unused frame; no controller accepts its upload.
   */
  lemma {:induction false} JointFramesAreRefused(s: Movements, frame: PathFrame)
    requires Invariant(s) && 1 <= frame.index <= 7 && |frame.pose| == 6 && AllModerate(frame.pose)
    ensures Valid(JointGoal([frame], 50.0), 256) && Feed(s, Texts(UploadCommands(JointGoal([frame], 50.0)))).None?
  {
    hide Invariant, Valid, ModerateGoal, Feed, Texts, UploadCommands;
    JointGoalIsValid([frame], 50.0);
    Refused(s, JointGoal([frame], 50.0), 256);
  }

  /** Likewise with an override that is positive but prints as zero. */
  lemma {:induction false} TinyOverridesAreRefused(s: Movements, override: real)
    requires Invariant(s) && 0.0 < override < 0.0000005
    ensures Valid(JointGoal([], override), 256) && Feed(s, Texts(UploadCommands(JointGoal([], override)))).None?
  {
    hide Invariant, Valid, ModerateGoal, Feed, Texts, UploadCommands;
    TinyPrintsAsZero(override);
    JointGoalIsValid([], override);
    assert JointGoal([], override).nodes[0].segmentOverride == override;
    Refused(s, JointGoal([], override), 256);
  }

  lemma {:induction false} TinyPrintsAsZero(x: real)
    requires 0.0 < x < 0.0000005
    ensures Micro(x) == 0
  {
    assert 0.0 < x * 1000000.0 < 0.5;
  }
}
