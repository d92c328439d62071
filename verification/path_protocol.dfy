/** path_protocol.py: validating a goal and printing it as upload commands. */
module PathProtocol {
  import opened Wrappers
  import opened PathMessages
  import opened PathActions
  import opened DecimalText

  const MAX_ID: nat := 2147483647

  // validate_path_goal, as a predicate.

  predicate ValidFrames(frames: seq<PathFrame>) {
    && (forall i :: 0 <= i < |frames| ==> 1 <= frames[i].index <= 7 && |frames[i].pose| == 6)
    && (forall i, j :: 0 <= i < j < |frames| ==> frames[i].index != frames[j].index)
  }

  predicate ValidConditions(conditions: seq<PathCondition>) {
    && (forall i :: 0 <= i < |conditions| ==> 1 <= conditions[i].slot <= 32 && conditions[i].handler > 0)
    && (forall i, j :: 0 <= i < j < |conditions| ==> conditions[i].slot != conditions[j].slot)
  }

  /** An arc is a SEG_VIA node directly followed by its CIRCULAR node. */
  predicate ArcOrder(nodes: seq<PathNode>) {
    && (forall i :: 0 <= i < |nodes| && nodes[i].motionType == MOTION_CIRCULAR ==>
          i > 0 && nodes[i - 1].motionType == MOTION_SEG_VIA)
    && (forall i :: 0 <= i < |nodes| && nodes[i].motionType == MOTION_SEG_VIA ==>
          i + 1 < |nodes| && nodes[i + 1].motionType == MOTION_CIRCULAR)
  }

  predicate ValidNode(node: PathNode, pathType: nat, frameIndexes: set<nat>, slots: set<nat>) {
    && node.motionType <= 3
    && (pathType == JOINT ==> node.motionType == MOTION_JOINT)
    && |node.target| == 6
    && 0.0 < node.segmentOverride <= 100.0
    && node.terminationType <= 4
    && node.flyType <= 1
    && node.flyTrajectory <= 3
    && (node.fly ==> 1.0 <= node.flyPercent <= 100.0)
    && node.flyDistance >= 0.0
    && node.referenceIndex <= 7 && node.toolIndex <= 7
    && (pathType == JOINT ==> node.referenceIndex == 0 && node.toolIndex == 0)
    && (node.referenceIndex != 0 ==> node.referenceIndex in frameIndexes)
    && (node.toolIndex != 0 ==> node.toolIndex in frameIndexes)
    && MaskDefined(node.conditionMask, slots)
    && MaskDefined(node.conditionMaskBack, slots)
    && (pathType == JOINT && node.fly ==> node.flyType == 0)
  }

  predicate ValidRange(goal: Goal) {
    && 1 <= goal.Start() <= |goal.nodes|
    && 1 <= goal.End() <= |goal.nodes|
    && goal.nodes[goal.Start() - 1].motionType != MOTION_CIRCULAR
    && goal.nodes[goal.End() - 1].motionType != MOTION_SEG_VIA
  }

  predicate Valid(goal: Goal, maxNodes: nat) {
    && 0 < goal.pathId <= MAX_ID
    && goal.pathType in {CARTESIAN, JOINT}
    && 0 < |goal.nodes| <= maxNodes
    && ValidFrames(goal.frames)
    && ValidConditions(goal.conditions)
    && (forall i :: 0 <= i < |goal.nodes| ==>
          ValidNode(goal.nodes[i], goal.pathType, FrameIndexes(goal.frames), Slots(goal.conditions)))
    && (goal.pathType == CARTESIAN ==> ArcOrder(goal.nodes))
    && ValidRange(goal)
  }

  /** The goal with its execution range made explicit. */
  function Validated(goal: Goal): Goal {
    goal.(startIndex := goal.Start(), endIndex := goal.End())
  }

  // validate_path_goal, as the program runs it.

  method CollectFrames(frames: seq<PathFrame>) returns (ok: bool, indexes: set<nat>)
    ensures ok <==> ValidFrames(frames)
    ensures ok ==> indexes == FrameIndexes(frames)
  {
    indexes := {};
    for i := 0 to |frames|
      invariant ValidFrames(frames[..i]) && indexes == FrameIndexes(frames[..i])
    {
      var frame := frames[i];
      assert frames[..i + 1] == frames[..i] + [frame];
      if !(1 <= frame.index <= 7) || frame.index in indexes || |frame.pose| != 6 {
        if frame.index in indexes {
          var f :| f in frames[..i] && f.index == frame.index;
          var k :| 0 <= k < i && frames[k] == f;
        }
        return false, indexes;
      }
      assert forall k :: 0 <= k < i ==> frames[..i][k] in frames[..i];
      indexes := indexes + {frame.index};
    }
    assert frames[..|frames|] == frames;
    return true, indexes;
  }

  method CollectSlots(conditions: seq<PathCondition>) returns (ok: bool, slots: set<nat>)
    ensures ok <==> ValidConditions(conditions)
    ensures ok ==> slots == Slots(conditions)
  {
    slots := {};
    for i := 0 to |conditions|
      invariant ValidConditions(conditions[..i]) && slots == Slots(conditions[..i])
    {
      var condition := conditions[i];
      assert conditions[..i + 1] == conditions[..i] + [condition];
      if !(1 <= condition.slot <= 32) || condition.slot in slots || condition.handler <= 0 {
        if condition.slot in slots {
          var c :| c in conditions[..i] && c.slot == condition.slot;
          var k :| 0 <= k < i && conditions[k] == c;
        }
        return false, slots;
      }
      assert forall k :: 0 <= k < i ==> conditions[..i][k] in conditions[..i];
      slots := slots + {condition.slot};
    }
    assert conditions[..|conditions|] == conditions;
    return true, slots;
  }

  method CheckMask(mask: int, slots: set<nat>) returns (ok: bool)
    ensures ok <==> MaskDefined(mask, slots)
  {
    for bit := 0 to 32
      invariant forall b: nat | b < bit && MaskBit(mask, b) :: b + 1 in slots
    {
      if MaskBit(mask, bit) && bit + 1 !in slots {
        return false;
      }
    }
    return true;
  }

  method CheckNode(node: PathNode, pathType: nat, indexes: set<nat>, slots: set<nat>) returns (ok: bool)
    ensures ok <==> ValidNode(node, pathType, indexes, slots)
  {
    if node.motionType > 3 || (pathType == JOINT && node.motionType != MOTION_JOINT) || |node.target| != 6 {
      return false;
    }
    if !(0.0 < node.segmentOverride <= 100.0) || node.terminationType > 4 || node.flyType > 1 {
      return false;
    }
    if node.flyTrajectory > 3 || (node.fly && !(1.0 <= node.flyPercent <= 100.0)) || node.flyDistance < 0.0 {
      return false;
    }
    if node.referenceIndex > 7 || node.toolIndex > 7 {
      return false;
    }
    if pathType == JOINT && (node.referenceIndex != 0 || node.toolIndex != 0) {
      return false;
    }
    if node.referenceIndex != 0 && node.referenceIndex !in indexes {
      return false;
    }
    if node.toolIndex != 0 && node.toolIndex !in indexes {
      return false;
    }
    var mask := CheckMask(node.conditionMask, slots);
    var maskBack := CheckMask(node.conditionMaskBack, slots);
    return mask && maskBack && !(pathType == JOINT && node.fly && node.flyType != 0);
  }

  /** The node loop of validate_path_goal, which remembers the previous motion type. */
  method CheckNodes(goal: Goal, indexes: set<nat>, slots: set<nat>) returns (ok: bool)
    ensures ok <==>
            && (forall i :: 0 <= i < |goal.nodes| ==> ValidNode(goal.nodes[i], goal.pathType, indexes, slots))
            && (goal.pathType == CARTESIAN ==> ArcOrder(goal.nodes))
  {
    var previous: Option<nat> := None;
    for i := 0 to |goal.nodes|
      invariant previous == if i == 0 then None else Some(goal.nodes[i - 1].motionType)
      invariant forall k :: 0 <= k < i ==> ValidNode(goal.nodes[k], goal.pathType, indexes, slots)
      invariant goal.pathType == CARTESIAN ==>
                  forall k :: 0 <= k < i && goal.nodes[k].motionType == MOTION_CIRCULAR ==>
                    k > 0 && goal.nodes[k - 1].motionType == MOTION_SEG_VIA
      invariant goal.pathType == CARTESIAN ==>
                  forall k :: 0 <= k < i - 1 && goal.nodes[k].motionType == MOTION_SEG_VIA ==>
                    goal.nodes[k + 1].motionType == MOTION_CIRCULAR
    {
      var node := goal.nodes[i];
      if goal.pathType == CARTESIAN {
        if node.motionType == MOTION_CIRCULAR && previous != Some(MOTION_SEG_VIA) {
          return false;
        }
        if previous == Some(MOTION_SEG_VIA) && node.motionType != MOTION_CIRCULAR {
          assert goal.nodes[i - 1].motionType == MOTION_SEG_VIA;
          return false;
        }
      }
      var nodeOk := CheckNode(node, goal.pathType, indexes, slots);
      if !nodeOk {
        return false;
      }
      previous := Some(node.motionType);
    }
    return !(goal.pathType == CARTESIAN && previous == Some(MOTION_SEG_VIA));
  }

  /** validate_path_goal accepts exactly the valid goals and resolves their execution range. */
  method ValidatePathGoal(goal: Goal, maxNodes: nat) returns (r: Result<Goal, string>)
    ensures r.Ok? <==> Valid(goal, maxNodes)
    ensures r.Ok? ==> r.value == Validated(goal)
  {
    if !(0 < goal.pathId <= MAX_ID) {
      return Err("path_id must fit a positive C4G INTEGER");
    }
    if goal.pathType != CARTESIAN && goal.pathType != JOINT {
      return Err("path_type must be CARTESIAN or JOINT");
    }
    if |goal.nodes| == 0 || |goal.nodes| > maxNodes {
      return Err("bad node count");
    }
    var start, end := goal.Start(), goal.End();
    if !(1 <= start <= |goal.nodes|) || !(1 <= end <= |goal.nodes|) {
      return Err("execution range is outside the PATH");
    }
    var framesOk, indexes := CollectFrames(goal.frames);
    if !framesOk {
      return Err("bad frame");
    }
    var slotsOk, slots := CollectSlots(goal.conditions);
    if !slotsOk {
      return Err("bad condition");
    }
    var nodesOk := CheckNodes(goal, indexes, slots);
    if !nodesOk {
      return Err("bad node");
    }
    if goal.nodes[start - 1].motionType == MOTION_CIRCULAR {
      return Err("execution range cannot start at a CIRCULAR node");
    }
    if goal.nodes[end - 1].motionType == MOTION_SEG_VIA {
      return Err("execution range cannot end at a SEG_VIA node");
    }
    return Ok(Validated(goal));
  }

  // build_upload_commands.

  datatype Command = Command(action: PathAction, values: seq<real>)
  {
    function Text(): string {
      CommandText(Name(action), values)
    }
  }

  function Texts(commands: seq<Command>): seq<string> {
    seq(|commands|, i requires 0 <= i < |commands| => commands[i].Text())
  }

  function Flag(b: bool): real {
    if b then 1.0 else 0.0
  }

  /** `_c4g_percent`. */
  function C4gPercent(value: real, fallback: real): real {
    if 1.0 <= value <= 100.0 then value else fallback
  }

  function BeginCommand(path: Goal): Command {
    Command(BeginPath,
            [path.pathId as real, path.pathType as real, |path.nodes| as real,
             path.startIndex as real, path.endIndex as real])
  }

  function FrameCommand(path: Goal, frame: PathFrame): Command {
    Command(SetPathFrame, [path.pathId as real, frame.index as real] + frame.pose)
  }

  function ConditionCommand(path: Goal, condition: PathCondition): Command {
    Command(SetPathCondition, [path.pathId as real, condition.slot as real, condition.handler as real])
  }

  function TargetCommand(path: Goal, index: nat, node: PathNode): Command {
    Command(PathNodeTarget, [path.pathId as real, index as real, node.motionType as real] + node.target)
  }

  function MotionCommand(path: Goal, index: nat, node: PathNode): Command {
    Command(PathNodeMotion,
            [path.pathId as real, index as real, node.linearSpeed, node.rotationalSpeed, node.segmentOverride,
             node.terminationType as real, node.tolerance, Flag(node.segmentData)])
  }

  function BlendCommand(path: Goal, index: nat, node: PathNode): Command {
    Command(PathNodeBlend,
            [path.pathId as real, index as real, Flag(node.fly), node.flyType as real,
             C4gPercent(node.flyPercent, 75.0), node.flyDistance, node.flyTrajectory as real,
             C4gPercent(node.stressPercent, 10.0)])
  }

  function SyncCommand(path: Goal, index: nat, node: PathNode): Command {
    Command(PathNodeSync,
            [path.pathId as real, index as real, node.referenceIndex as real, node.toolIndex as real,
             node.conditionMask as real, node.conditionMaskBack as real, Flag(node.wait)])
  }

  function CommitNodeCommand(path: Goal, index: nat): Command {
    Command(CommitPathNode, [path.pathId as real, index as real])
  }

  function CommitCommand(path: Goal): Command {
    Command(CommitPath, [path.pathId as real, |path.nodes| as real])
  }

  function ExecuteCommand(path: Goal): Command {
    Command(ExecutePath, [path.pathId as real, path.startIndex as real, path.endIndex as real])
  }

  /** The five commands of one node; node indexes on the wire start at 1. */
  function NodeCommands(path: Goal, i: nat): (c: seq<Command>)
    requires i < |path.nodes|
    ensures |c| == 5
  {
    var node := path.nodes[i];
    [TargetCommand(path, i + 1, node), MotionCommand(path, i + 1, node), BlendCommand(path, i + 1, node),
     SyncCommand(path, i + 1, node), CommitNodeCommand(path, i + 1)]
  }

  /** The upload as blocks: the announcement, each frame, each condition, each node, the closing commit. */
  function BlockCount(path: Goal): nat {
    |path.frames| + |path.conditions| + |path.nodes| + 2
  }

  function Block(path: Goal, j: nat): seq<Command>
    requires j < BlockCount(path)
  {
    var f, c := |path.frames|, |path.conditions|;
    if j == 0 then [BeginCommand(path)]
    else if j <= f then [FrameCommand(path, path.frames[j - 1])]
    else if j <= f + c then [ConditionCommand(path, path.conditions[j - 1 - f])]
    else if j <= f + c + |path.nodes| then NodeCommands(path, j - 1 - f - c)
    else [CommitCommand(path)]
  }

  function Blocks(path: Goal, n: nat): seq<Command>
    requires n <= BlockCount(path)
  {
    if n == 0 then [] else Blocks(path, n - 1) + Block(path, n - 1)
  }

  function UploadCommands(path: Goal): seq<Command> {
    Blocks(path, BlockCount(path))
  }

  /** The announcement opens the upload and does not recur; no command aborts or executes. */
  lemma {:induction false} BeginsOnce(path: Goal, n: nat)
    requires 0 < n <= BlockCount(path)
    ensures Blocks(path, n) != [] && Blocks(path, n)[0] == BeginCommand(path)
    ensures forall i :: 1 <= i < |Blocks(path, n)| ==> Continues(Blocks(path, n)[i].action)
  {
    if n > 1 {
      BeginsOnce(path, n - 1);
      var block := Block(path, n - 1);
      assert forall i :: 0 <= i < |block| ==> Continues(block[i].action);
    } else {
      assert Blocks(path, 0) == [];
      assert Blocks(path, 1) == [BeginCommand(path)];
    }
  }

  predicate Continues(action: PathAction) {
    action !in {BeginPath, AbortPathUpload, ExecutePath}
  }

  // A condition on every command of the upload, checked block by block.

  predicate NodeEvery(path: Goal, k: nat, fit: Command -> bool)
    requires k < |path.nodes|
  {
    var node := path.nodes[k];
    && fit(TargetCommand(path, k + 1, node))
    && fit(MotionCommand(path, k + 1, node))
    && fit(BlendCommand(path, k + 1, node))
    && fit(SyncCommand(path, k + 1, node))
    && fit(CommitNodeCommand(path, k + 1))
  }

  predicate Every(commands: seq<Command>, fit: Command -> bool) {
    forall i :: 0 <= i < |commands| ==> fit(commands[i])
  }

  lemma {:induction false} BlocksEvery(path: Goal, n: nat, fit: Command -> bool)
    requires n <= BlockCount(path)
    requires fit(BeginCommand(path)) && fit(CommitCommand(path))
    requires forall i :: 0 <= i < |path.frames| ==> fit(FrameCommand(path, path.frames[i]))
    requires forall i :: 0 <= i < |path.conditions| ==> fit(ConditionCommand(path, path.conditions[i]))
    requires forall k :: 0 <= k < |path.nodes| ==> NodeEvery(path, k, fit)
    ensures Every(Blocks(path, n), fit)
  {
    if n > 0 {
      BlocksEvery(path, n - 1, fit);
      var j, h := n - 1, |path.frames| + |path.conditions|;
      assert 0 < j <= |path.frames| ==> Block(path, j) == [FrameCommand(path, path.frames[j - 1])];
      assert h < j <= h + |path.nodes| ==>
          Block(path, j) == NodeCommands(path, j - 1 - h) && NodeEvery(path, j - 1 - h, fit);
    }
  }

  lemma {:induction false} TextsConcat(a: seq<Command>, b: seq<Command>)
    ensures Texts(a + b) == Texts(a) + Texts(b)
  {
    hide CommandText;
  }

  lemma {:induction false} NextBlock(path: Goal, n: nat, block: seq<Command>)
    requires n < BlockCount(path) && block == Block(path, n)
    ensures Texts(Blocks(path, n + 1)) == Texts(Blocks(path, n)) + Texts(block)
  {
    TextsConcat(Blocks(path, n), block);
  }

  lemma {:induction false} NextFrame(path: Goal, i: nat)
    requires i < |path.frames|
    ensures Texts(Blocks(path, i + 2)) == Texts(Blocks(path, i + 1)) + Texts([FrameCommand(path, path.frames[i])])
  {
    hide CommandText, Blocks, Texts;
    NextBlock(path, i + 1, [FrameCommand(path, path.frames[i])]);
  }

  lemma {:induction false} NextCondition(path: Goal, i: nat)
    requires i < |path.conditions|
    ensures Texts(Blocks(path, |path.frames| + i + 2)) ==
            Texts(Blocks(path, |path.frames| + i + 1)) + Texts([ConditionCommand(path, path.conditions[i])])
  {
    hide CommandText, Blocks, Texts;
    NextBlock(path, |path.frames| + i + 1, [ConditionCommand(path, path.conditions[i])]);
  }

  lemma {:induction false} NextNode(path: Goal, i: nat)
    requires i < |path.nodes|
    ensures Texts(Blocks(path, |path.frames| + |path.conditions| + i + 2)) ==
            Texts(Blocks(path, |path.frames| + |path.conditions| + i + 1)) + Texts(NodeCommands(path, i))
  {
    hide CommandText, Blocks, Texts, NodeCommands;
    NextBlock(path, |path.frames| + |path.conditions| + i + 1, NodeCommands(path, i));
  }

  lemma {:induction false} EndBlocks(path: Goal)
    ensures Texts(Blocks(path, 1)) == Texts([BeginCommand(path)])
    ensures Texts(UploadCommands(path)) == Texts(Blocks(path, BlockCount(path) - 1)) + Texts([CommitCommand(path)])
  {
    hide CommandText, BeginCommand, CommitCommand;
    assert Blocks(path, 0) == [];
    assert [] + [BeginCommand(path)] == [BeginCommand(path)];
    NextBlock(path, BlockCount(path) - 1, [CommitCommand(path)]);
  }

  method CommandTexts(commands: seq<Command>) returns (texts: seq<string>)
    ensures texts == Texts(commands)
  {
    hide CommandText;
    texts := [];
    for i := 0 to |commands|
      invariant texts == Texts(commands)[..i]
    {
      texts := texts + [commands[i].Text()];
    }
  }

  /** The announcement, frames and conditions. */
  method HeaderTexts(path: Goal) returns (commands: seq<string>)
    ensures commands == Texts(Blocks(path, |path.frames| + |path.conditions| + 1))
  {
    hide CommandText, Blocks, Texts, FrameCommand, ConditionCommand, BeginCommand;
    var texts := CommandTexts([BeginCommand(path)]);
    commands := texts;
    EndBlocks(path);
    for i := 0 to |path.frames|
      invariant commands == Texts(Blocks(path, i + 1))
    {
      NextFrame(path, i);
      texts := CommandTexts([FrameCommand(path, path.frames[i])]);
      commands := commands + texts;
    }
    for i := 0 to |path.conditions|
      invariant commands == Texts(Blocks(path, |path.frames| + i + 1))
    {
      NextCondition(path, i);
      texts := CommandTexts([ConditionCommand(path, path.conditions[i])]);
      commands := commands + texts;
    }
  }

  /** build_upload_commands prints the upload in protocol order. */
  method BuildUploadCommands(path: Goal) returns (commands: seq<string>)
    ensures commands == Texts(UploadCommands(path))
  {
    hide CommandText, Blocks, Texts, NodeCommands, CommitCommand;
    commands := HeaderTexts(path);
    for i := 0 to |path.nodes|
      invariant commands == Texts(Blocks(path, |path.frames| + |path.conditions| + i + 1))
    {
      NextNode(path, i);
      var texts := CommandTexts(NodeCommands(path, i));
      commands := commands + texts;
    }
    EndBlocks(path);
    var texts := CommandTexts([CommitCommand(path)]);
    commands := commands + texts;
  }
}
