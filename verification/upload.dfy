/**
 * The upload end to end: the commands path_protocol.py prints, fed to ROS2_MOVEMENTS_1, leave the
 * controller holding exactly the validated goal.
 */
module Upload {
  import opened Wrappers
  import opened Folding
  import opened PathMessages
  import opened PathActions
  import opened Rounding
  import opened DecimalText
  import opened PdlText
  import opened RoundTrip
  import opened PathProtocol
  import opened MovementsState

  /** call_service on one command text; None unless it returns RESULT_OK. */
  function FeedOne(s: Movements, text: string): Option<Movements> {
    if !Invariant(s) then None
    else
      var (after, reply) := CallService(s, text, RESULT_UNAVAILABLE);
      if reply == Returned(RESULT_OK) then Some(after) else None
  }

  /** Feeds command texts while each returns RESULT_OK. */
  function Feed(s: Movements, texts: seq<string>): Option<Movements> {
    FoldAll(FeedOne, s, texts)
  }

  /** The same on a command that has not been printed. */
  function Perform(s: Movements, c: Command): Option<Movements> {
    if !Invariant(s) then None
    else
      var (after, reply) := Dispatch(s, c.action, RoundedAll(c.values));
      if reply == Returned(RESULT_OK) then Some(after) else None
  }

  predicate Printable(c: Command) {
    |c.values| <= PARAM_LENGTH && AllFit(c.values)
  }

  lemma {:induction false} PrintedCommand(s: Movements, c: Command, other: int)
    requires Invariant(s) && Printable(c)
    ensures CallService(s, c.Text(), other) == Dispatch(s, c.action, RoundedAll(c.values))
    ensures ActionOf(c.Text()) == Name(c.action)
  {
    NamesAreDistinct(c.action);
    CommandRoundTrip(Name(c.action), c.values);
  }

  /** Printing and parsing in between changes nothing. */
  lemma {:induction false} FeedIsPerform(s: Movements, commands: seq<Command>)
    requires forall i :: 0 <= i < |commands| ==> Printable(commands[i])
    ensures Feed(s, Texts(commands)) == FoldAll(Perform, s, commands)
  {
    forall i, t | 0 <= i < |commands|
      ensures FeedOne(t, Texts(commands)[i]) == Perform(t, commands[i])
    {
      if Invariant(t) {
        PrintedCommand(t, commands[i], RESULT_UNAVAILABLE);
      }
    }
    FoldAgree(FeedOne, Perform, s, Texts(commands), commands);
  }

  // What the controller should hold.

  function ExpectedNode(path: Goal, node: PathNode): NativeNode {
    var cart := path.pathType == CARTESIAN;
    NativeNode(
      Some(Pose(RoundedAll(node.target))),
      Some(node.motionType),
      Some(if cart then
             CartMotion(Rounded(node.linearSpeed), Rounded(node.rotationalSpeed), Round(Rounded(node.segmentOverride)),
                        Rounded(node.tolerance), node.terminationType, node.segmentData)
           else
             JointMotion(Round(Rounded(node.segmentOverride)), Rounded(node.tolerance), node.terminationType,
                         node.segmentData)),
      Some(if cart then
             CartBlend(node.fly, Round(Rounded(C4gPercent(node.flyPercent, 75.0))), Rounded(node.flyDistance),
                       Round(Rounded(C4gPercent(node.stressPercent, 10.0))), node.flyType == 1, node.flyTrajectory)
           else
             JointBlend(node.fly, Round(Rounded(C4gPercent(node.flyPercent, 75.0))), node.flyType == 1)),
      Some(if cart then
             CartSync(node.referenceIndex, node.toolIndex, node.conditionMask, node.conditionMaskBack, node.wait)
           else JointSync(node.conditionMask, node.conditionMaskBack, node.wait)))
  }

  function ExpectedNodes(path: Goal, k: nat): seq<NativeNode>
    requires k <= |path.nodes|
  {
    if k == 0 then [] else ExpectedNodes(path, k - 1) + [ExpectedNode(path, path.nodes[k - 1])]
  }

  /** A condition table holding exactly the given slots. */
  predicate HoldsConditions(table: seq<int>, conditions: seq<PathCondition>) {
    && |table| == 32
    && (forall i :: 0 <= i < |conditions| && 1 <= conditions[i].slot <= 32 ==>
          table[conditions[i].slot - 1] == conditions[i].handler)
    && (forall j :: 0 <= j < 32 && table[j] != 0 ==> j + 1 in Slots(conditions))
  }

  predicate HoldsFrames(table: seq<Pose>, frames: seq<PathFrame>) {
    && |table| == 7
    && (forall i :: 0 <= i < |frames| && 1 <= frames[i].index <= 7 ==>
          table[frames[i].index - 1] == Pose(RoundedAll(frames[i].pose)))
  }

  /** The upload of `path` after its first f frames, c conditions and k nodes. */
  predicate Uploaded(s: Movements, path: Goal, f: nat, c: nat, k: nat)
    requires f <= |path.frames| && c <= |path.conditions| && k <= |path.nodes|
  {
    && s.upload == Upload(true, path.pathId, path.pathType, |path.nodes|, k, path.startIndex, path.endIndex)
    && !s.pending.present
    && s.run.state == PathUploading
    && HoldsFrames(s.cart.frames, path.frames[..f])
    && HoldsConditions(s.Active().conditions, path.conditions[..c])
    && s.Nodes() == ExpectedNodes(path, k)
  }

  /** The controller is ready to execute `path`. */
  predicate ReadyWith(s: Movements, path: Goal) {
    && s.run.state == PathReady
    && s.upload == Upload(false, path.pathId, path.pathType, |path.nodes|, |path.nodes|, path.startIndex, path.endIndex)
    && HoldsFrames(s.cart.frames, path.frames)
    && HoldsConditions(s.Active().conditions, path.conditions)
    && s.Nodes() == ExpectedNodes(path, |path.nodes|)
  }

  /** The two properties the validator does not ask for and the controller does. */
  predicate Uploadable(path: Goal) {
    && (path.pathType == JOINT ==> path.frames == [])
    && (forall i :: 0 <= i < |path.nodes| ==> Micro(path.nodes[i].segmentOverride) > 0)
  }

  predicate Resolved(path: Goal, maxNodes: nat) {
    Valid(path, maxNodes) && path.startIndex > 0 && path.endIndex > 0
  }

  lemma {:induction false} ValidatedIsResolved(goal: Goal, maxNodes: nat)
    requires Valid(goal, maxNodes)
    ensures Resolved(Validated(goal), maxNodes)
  {
  }

  lemma {:induction false} IntParam(n: int)
    ensures Rounded(n as real) == n as real && Round(n as real) == n
  {
    MicroOfInt(n);
    RoundOfInt(n);
  }

  lemma {:induction false} FlagParam(b: bool)
    ensures Rounded(Flag(b)) == Flag(b)
  {
    MicroOfInt(0);
    MicroOfInt(1);
  }

  lemma {:induction false} BeginPerforms(s: Movements, path: Goal, maxNodes: nat)
    requires Invariant(s) && Resolved(path, maxNodes)
    ensures Perform(s, BeginCommand(path)).Some?
    ensures Uploaded(Perform(s, BeginCommand(path)).value, path, 0, 0, 0)
  {
    IntParam(path.pathId);
    IntParam(path.pathType);
    IntParam(|path.nodes|);
    IntParam(path.startIndex);
    IntParam(path.endIndex);
    var p := RoundedAll(BeginCommand(path).values);
    assert p == BeginCommand(path).values;
    assert !BadAnnouncement(p);
    assert Announced(s, p).Active().conditions == NoConditions();
  }

  lemma {:induction false} FrameStored(table: seq<Pose>, frames: seq<PathFrame>, f: nat)
    requires ValidFrames(frames) && f < |frames| && HoldsFrames(table, frames[..f])
    ensures HoldsFrames(table[frames[f].index - 1 := Pose(RoundedAll(frames[f].pose))], frames[..f + 1])
  {
    assert forall i :: 0 <= i < f ==> frames[..f][i] == frames[i] && frames[i].index != frames[f].index;
  }

  lemma {:induction false} FramePerforms(s: Movements, path: Goal, f: nat, maxNodes: nat)
    requires Resolved(path, maxNodes) && f < |path.frames|
    requires Invariant(s) && Uploaded(s, path, f, 0, 0)
    ensures Perform(s, FrameCommand(path, path.frames[f])).Some? <==> path.pathType == CARTESIAN
    ensures path.pathType == CARTESIAN ==>
              Uploaded(Perform(s, FrameCommand(path, path.frames[f])).value, path, f + 1, 0, 0)
  {
    var frame := path.frames[f];
    IntParam(path.pathId);
    IntParam(frame.index);
    var p := RoundedAll(FrameCommand(path, frame).values);
    assert p[2..] == RoundedAll(frame.pose);
    FrameStored(s.cart.frames, path.frames, f);
  }

  lemma {:induction false} ConditionStored(table: seq<int>, conditions: seq<PathCondition>, c: nat)
    requires ValidConditions(conditions) && c < |conditions| && HoldsConditions(table, conditions[..c])
    ensures HoldsConditions(table[conditions[c].slot - 1 := conditions[c].handler], conditions[..c + 1])
  {
    var before, after := conditions[..c], conditions[..c + 1];
    assert after == before + [conditions[c]];
    assert forall i :: 0 <= i < c ==> before[i] == conditions[i] && conditions[i].slot != conditions[c].slot;
    assert Slots(after) == Slots(before) + {conditions[c].slot};
  }

  lemma {:induction false} ConditionPerforms(s: Movements, path: Goal, c: nat, maxNodes: nat)
    requires Resolved(path, maxNodes) && c < |path.conditions|
    requires Invariant(s) && Uploaded(s, path, |path.frames|, c, 0)
    ensures Perform(s, ConditionCommand(path, path.conditions[c])).Some?
    ensures Uploaded(Perform(s, ConditionCommand(path, path.conditions[c])).value, path, |path.frames|, c + 1, 0)
  {
    var condition := path.conditions[c];
    IntParam(path.pathId);
    IntParam(condition.slot);
    IntParam(condition.handler);
    var p := RoundedAll(ConditionCommand(path, condition).values);
    assert p == ConditionCommand(path, condition).values;
    ConditionStored(s.Active().conditions, path.conditions, c);
  }

  // One node.

  /** Node k is pending with the given parts on top of the k nodes committed so far. */
  predicate PendingNode(s: Movements, base: Movements, path: Goal, k: nat, node: NativeNode, flags: Pending)
    requires k < |path.nodes|
  {
    && s.pending == flags
    && s == base.WithActive(base.Active().(nodes := ExpectedNodes(path, k) + [node])).(pending := flags)
  }

  predicate BeforeNode(s: Movements, path: Goal, k: nat)
    requires k < |path.nodes|
  {
    && s.upload == Upload(true, path.pathId, path.pathType, |path.nodes|, k, path.startIndex, path.endIndex)
    && !s.pending.present
    && s.Nodes() == ExpectedNodes(path, k)
  }

  lemma {:induction false} ExpectedLength(path: Goal, k: nat)
    requires k <= |path.nodes|
    ensures |ExpectedNodes(path, k)| == k
  {
    if k > 0 {
      ExpectedLength(path, k - 1);
    }
  }

  lemma {:induction false} FillPending(
    s: Movements, base: Movements, path: Goal, k: nat, was: NativeNode, flags: Pending, node: NativeNode,
    flags': Pending)
    requires k < |path.nodes| && BeforeNode(base, path, k) && PendingNode(s, base, path, k, was, flags)
    ensures k + 1 <= |s.Nodes()| && s.Nodes()[k] == was
    ensures PendingNode(FillNode(s, k + 1, node).(pending := flags'), base, path, k, node, flags')
  {
    ExpectedLength(path, k);
    assert (ExpectedNodes(path, k) + [was])[k := node] == ExpectedNodes(path, k) + [node];
  }

  lemma {:induction false} NodeRoutines(s: Movements, p: seq<real>)
    requires Invariant(s)
    ensures Dispatch(s, PathNodeTarget, p) == (PathNodeTargetOf(s, p).0, Returned(PathNodeTargetOf(s, p).1))
    ensures Dispatch(s, PathNodeMotion, p) == (PathNodeMotionOf(s, p).0, Returned(PathNodeMotionOf(s, p).1))
    ensures Dispatch(s, PathNodeBlend, p) == (PathNodeBlendOf(s, p).0, Returned(PathNodeBlendOf(s, p).1))
    ensures Dispatch(s, PathNodeSync, p) == (PathNodeSyncOf(s, p).0, Returned(PathNodeSyncOf(s, p).1))
  {
  }

  lemma {:induction false} AppendedAtEnd(s: Movements, target: Pose, moveType: int)
    ensures var node := BLANK_NODE.(target := Some(target), moveType := Some(moveType));
            Appended(s, |s.Nodes()| + 1, target, Some(moveType)) ==
            s.WithActive(s.Active().(nodes := s.Nodes() + [node]))
  {
    var node := BLANK_NODE.(target := Some(target), moveType := Some(moveType));
    assert (s.Nodes() + [BLANK_NODE])[|s.Nodes()| := node] == s.Nodes() + [node];
  }

  lemma {:induction false} TargetStep(s: Movements, path: Goal, k: nat, p: seq<real>, maxNodes: nat)
    requires Resolved(path, maxNodes) && k < |path.nodes| && Invariant(s) && BeforeNode(s, path, k)
    requires |p| == 9 && Round(p[0]) == path.pathId && Round(p[1]) == k + 1
    requires p[2] == path.nodes[k].motionType as real && p[3..] == RoundedAll(path.nodes[k].target)
    ensures PathNodeTargetOf(s, p).1 == RESULT_OK
    ensures PendingNode(PathNodeTargetOf(s, p).0, s, path, k,
                        BLANK_NODE.(target := Some(Pose(p[3..])), moveType := Some(path.nodes[k].motionType)),
                        Pending(true, k + 1, true, false, false, false))
  {
    ExpectedLength(path, k);
    assert MoveType(p[2]) == Some(path.nodes[k].motionType);
    assert path.pathType != CARTESIAN ==> path.nodes[k].motionType == 0;
    hide Resolved, MoveType, RoundedAll, Round, ExpectedNodes, Complete, Appended;
    AppendedAtEnd(s, Pose(p[3..]), path.nodes[k].motionType);
  }

  lemma {:induction false} TargetPerforms(s: Movements, path: Goal, k: nat, maxNodes: nat)
    requires Resolved(path, maxNodes) && k < |path.nodes|
    requires Invariant(s) && BeforeNode(s, path, k)
    ensures var r, n := Perform(s, TargetCommand(path, k + 1, path.nodes[k])), ExpectedNode(path, path.nodes[k]);
            && r.Some?
            && PendingNode(r.value, s, path, k, BLANK_NODE.(target := n.target, moveType := n.moveType),
                           Pending(true, k + 1, true, false, false, false))
  {
    var node := path.nodes[k];
    IntParam(path.pathId);
    IntParam(k + 1);
    IntParam(node.motionType);
    var p := RoundedAll(TargetCommand(path, k + 1, node).values);
    assert p[3..] == RoundedAll(node.target);
    hide Invariant, Micro, Dispatch, PathNodeTargetOf, BeforeNode;
    NodeRoutines(s, p);
    TargetStep(s, path, k, p, maxNodes);
  }

  lemma {:induction false} MotionParams(path: Goal, k: nat, maxNodes: nat)
    requires Resolved(path, maxNodes) && k < |path.nodes|
    ensures var p, node := RoundedAll(MotionCommand(path, k + 1, path.nodes[k]).values), path.nodes[k];
            && |p| == 8 && Round(p[0]) == path.pathId && Round(p[1]) == k + 1
            && p[2] == Rounded(node.linearSpeed) && p[3] == Rounded(node.rotationalSpeed)
            && p[4] == Rounded(node.segmentOverride) <= 100.0 && p[5] == node.terminationType as real
            && p[6] == Rounded(node.tolerance) && p[7] == Flag(node.segmentData)
  {
    var node := path.nodes[k];
    IntParam(path.pathId);
    IntParam(k + 1);
    IntParam(node.terminationType);
    FlagParam(node.segmentData);
    IntParam(100);
    RoundingIsMonotone(node.segmentOverride, 100.0);
  }

  lemma {:induction false} MotionStep(s: Movements, path: Goal, k: nat, p: seq<real>, n: NativeNode, maxNodes: nat)
    requires Resolved(path, maxNodes) && k < |path.nodes| && Invariant(s)
    requires s.pending.present && s.pending.node == k + 1 && s.upload.id == path.pathId
    requires s.upload.kind == path.pathType && k < |s.Nodes()| && s.Nodes()[k] == n
    requires |p| == 8 && Round(p[0]) == path.pathId && Round(p[1]) == k + 1 && p[4] <= 100.0
    requires p[5] == path.nodes[k].terminationType as real && p[7] == Flag(path.nodes[k].segmentData)
    ensures p[4] <= 0.0 ==> PathNodeMotionOf(s, p).1 != RESULT_OK
    ensures p[4] > 0.0 ==>
              var motion := if path.pathType == CARTESIAN then
                              CartMotion(p[2], p[3], Round(p[4]), p[6], path.nodes[k].terminationType,
                                path.nodes[k].segmentData)
                            else JointMotion(Round(p[4]), p[6], path.nodes[k].terminationType,
                              path.nodes[k].segmentData);
              PathNodeMotionOf(s, p) ==
                (FillNode(s, k + 1, n.(motion := Some(motion))).(pending := s.pending.(motion := true)), RESULT_OK)
  {
    assert Termination(p[5]) == path.nodes[k].terminationType;
  }

  lemma {:induction false} MotionPerforms(s: Movements, base: Movements, path: Goal, k: nat, n: NativeNode,
      maxNodes: nat)
    requires Resolved(path, maxNodes) && k < |path.nodes| && BeforeNode(base, path, k)
    requires Invariant(s) && PendingNode(s, base, path, k, n, Pending(true, k + 1, true, false, false, false))
    ensures var r := Perform(s, MotionCommand(path, k + 1, path.nodes[k]));
            && (r.Some? <==> Micro(path.nodes[k].segmentOverride) > 0)
            && (r.Some? ==> PendingNode(r.value, base, path, k, n.(motion := ExpectedNode(path, path.nodes[k]).motion),
                                        Pending(true, k + 1, true, true, false, false)))
  {
    hide Valid, Invariant, Micro, Dispatch, PathNodeMotionOf;
    var p := RoundedAll(MotionCommand(path, k + 1, path.nodes[k]).values);
    MotionParams(path, k, maxNodes);
    NodeRoutines(s, p);
    FillPending(s, base, path, k, n, s.pending, n.(motion := ExpectedNode(path, path.nodes[k]).motion),
                Pending(true, k + 1, true, true, false, false));
    MotionStep(s, path, k, p, n, maxNodes);
  }

  lemma {:induction false} BlendParams(path: Goal, k: nat, maxNodes: nat)
    requires Resolved(path, maxNodes) && k < |path.nodes|
    ensures var p, node := RoundedAll(BlendCommand(path, k + 1, path.nodes[k]).values), path.nodes[k];
            && |p| == 8 && Round(p[0]) == path.pathId && Round(p[1]) == k + 1
            && p[2] == Flag(node.fly) && p[3] == node.flyType as real
            && p[4] == Rounded(C4gPercent(node.flyPercent, 75.0)) && p[5] == Rounded(node.flyDistance) >= 0.0
            && p[6] == node.flyTrajectory as real && p[7] == Rounded(C4gPercent(node.stressPercent, 10.0))
  {
    var node := path.nodes[k];
    IntParam(path.pathId);
    IntParam(k + 1);
    IntParam(node.flyType);
    IntParam(node.flyTrajectory);
    FlagParam(node.fly);
    IntParam(0);
    RoundingIsMonotone(0.0, node.flyDistance);
  }

  lemma {:induction false} BlendStep(s: Movements, path: Goal, k: nat, p: seq<real>, n: NativeNode, maxNodes: nat)
    requires Resolved(path, maxNodes) && k < |path.nodes| && Invariant(s)
    requires s.pending.present && s.pending.node == k + 1 && s.upload.id == path.pathId
    requires s.upload.kind == path.pathType && k < |s.Nodes()| && s.Nodes()[k] == n
    requires |p| == 8 && Round(p[0]) == path.pathId && Round(p[1]) == k + 1 && p[5] >= 0.0
    requires p[2] == Flag(path.nodes[k].fly) && p[3] == path.nodes[k].flyType as real
    requires p[6] == path.nodes[k].flyTrajectory as real
    ensures var node := path.nodes[k];
            var blend := if path.pathType == CARTESIAN then
                           CartBlend(node.fly, Round(p[4]), p[5], Round(p[7]), node.flyType == 1, node.flyTrajectory)
                         else JointBlend(node.fly, Round(p[4]), node.flyType == 1);
            PathNodeBlendOf(s, p) ==
              (FillNode(s, k + 1, n.(blend := Some(blend))).(pending := s.pending.(blend := true)), RESULT_OK)
  {
    assert Trajectory(p[6]) == path.nodes[k].flyTrajectory;
  }

  lemma {:induction false} BlendPerforms(s: Movements, base: Movements, path: Goal, k: nat, n: NativeNode,
      maxNodes: nat)
    requires Resolved(path, maxNodes) && k < |path.nodes| && BeforeNode(base, path, k)
    requires Invariant(s) && PendingNode(s, base, path, k, n, Pending(true, k + 1, true, true, false, false))
    ensures var r := Perform(s, BlendCommand(path, k + 1, path.nodes[k]));
            && r.Some?
            && PendingNode(r.value, base, path, k, n.(blend := ExpectedNode(path, path.nodes[k]).blend),
                           Pending(true, k + 1, true, true, true, false))
  {
    hide Valid, Invariant, Micro, Dispatch, PathNodeBlendOf;
    var p := RoundedAll(BlendCommand(path, k + 1, path.nodes[k]).values);
    BlendParams(path, k, maxNodes);
    NodeRoutines(s, p);
    FillPending(s, base, path, k, n, s.pending, n.(blend := ExpectedNode(path, path.nodes[k]).blend),
                Pending(true, k + 1, true, true, true, false));
    BlendStep(s, path, k, p, n, maxNodes);
  }

  lemma {:induction false} SyncParams(path: Goal, k: nat, maxNodes: nat)
    requires Resolved(path, maxNodes) && k < |path.nodes|
    ensures var p, node := RoundedAll(SyncCommand(path, k + 1, path.nodes[k]).values), path.nodes[k];
            && |p| == 7 && Round(p[0]) == path.pathId && Round(p[1]) == k + 1
            && p[2] == node.referenceIndex as real && Round(p[2]) == node.referenceIndex
            && p[3] == node.toolIndex as real && Round(p[3]) == node.toolIndex
            && Round(p[4]) == node.conditionMask && Round(p[5]) == node.conditionMaskBack && p[6] == Flag(node.wait)
  {
    var node := path.nodes[k];
    IntParam(path.pathId);
    IntParam(k + 1);
    IntParam(node.referenceIndex);
    IntParam(node.toolIndex);
    IntParam(node.conditionMask);
    IntParam(node.conditionMaskBack);
    FlagParam(node.wait);
  }

  lemma {:induction false} SyncStep(s: Movements, path: Goal, k: nat, p: seq<real>, n: NativeNode, maxNodes: nat)
    requires Resolved(path, maxNodes) && k < |path.nodes| && Invariant(s)
    requires s.pending.present && s.pending.node == k + 1 && s.upload.id == path.pathId
    requires s.upload.kind == path.pathType && k < |s.Nodes()| && s.Nodes()[k] == n
    requires |p| == 7 && Round(p[0]) == path.pathId && Round(p[1]) == k + 1
    requires p[2] == path.nodes[k].referenceIndex as real && p[3] == path.nodes[k].toolIndex as real
    requires p[6] == Flag(path.nodes[k].wait)
    ensures var node := path.nodes[k];
            var sync := if path.pathType == CARTESIAN then
                          CartSync(Round(p[2]), Round(p[3]), Round(p[4]), Round(p[5]), node.wait)
                        else JointSync(Round(p[4]), Round(p[5]), node.wait);
            PathNodeSyncOf(s, p) ==
              (FillNode(s, k + 1, n.(sync := Some(sync))).(pending := s.pending.(sync := true)), RESULT_OK)
  {
  }

  lemma {:induction false} SyncPerforms(s: Movements, base: Movements, path: Goal, k: nat, n: NativeNode, maxNodes: nat)
    requires Resolved(path, maxNodes) && k < |path.nodes| && BeforeNode(base, path, k)
    requires Invariant(s) && PendingNode(s, base, path, k, n, Pending(true, k + 1, true, true, true, false))
    ensures var r := Perform(s, SyncCommand(path, k + 1, path.nodes[k]));
            && r.Some?
            && PendingNode(r.value, base, path, k, n.(sync := ExpectedNode(path, path.nodes[k]).sync),
                           Pending(true, k + 1, true, true, true, true))
  {
    hide Valid, Invariant, Micro, Dispatch, PathNodeSyncOf;
    var p := RoundedAll(SyncCommand(path, k + 1, path.nodes[k]).values);
    SyncParams(path, k, maxNodes);
    NodeRoutines(s, p);
    FillPending(s, base, path, k, n, s.pending, n.(sync := ExpectedNode(path, path.nodes[k]).sync),
                Pending(true, k + 1, true, true, true, true));
    SyncStep(s, path, k, p, n, maxNodes);
  }

  lemma {:induction false} CommitNodePerforms(s: Movements, base: Movements, path: Goal, k: nat, maxNodes: nat)
    requires Resolved(path, maxNodes) && k < |path.nodes| && BeforeNode(base, path, k)
    requires Invariant(s)
    requires PendingNode(s, base, path, k, ExpectedNode(path, path.nodes[k]),
             Pending(true, k + 1, true, true, true, true))
    ensures var r := Perform(s, CommitNodeCommand(path, k + 1));
            && r.Some?
            && r.value.upload == base.upload.(committed := k + 1)
            && !r.value.pending.present && r.value.run == base.run
            && r.value.cart.frames == base.cart.frames
            && r.value.Active().conditions == base.Active().conditions
            && r.value.Nodes() == ExpectedNodes(path, k + 1)
  {
    IntParam(path.pathId);
    IntParam(k + 1);
    var p := RoundedAll(CommitNodeCommand(path, k + 1).values);
    assert |p| == 2 && Round(p[0]) == path.pathId && Round(p[1]) == k + 1;
    assert Dispatch(s, CommitPathNode, p) == (CommitPathNodeOf(s, p).0, Returned(CommitPathNodeOf(s, p).1));
    hide Valid, Invariant, Micro, Dispatch, Complete;
  }

  /** The step accepts `c` on `s` exactly if `ok`, and leaves the pending node as described. */
  ghost predicate FillsAt(
    step: (Movements, Command) -> Option<Movements>, c: Command, s: Movements, base: Movements, path: Goal, k: nat,
    ok: bool, n': NativeNode, flags': Pending)
    requires k < |path.nodes|
  {
    && (step(s, c).Some? <==> ok)
    && (ok ==> Invariant(step(s, c).value) && PendingNode(step(s, c).value, base, path, k, n', flags'))
  }

  /** So it does wherever node k is pending with the given parts. */
  ghost predicate Fills(
    step: (Movements, Command) -> Option<Movements>, c: Command, base: Movements, path: Goal, k: nat,
    n: NativeNode, flags: Pending, ok: bool, n': NativeNode, flags': Pending)
    requires k < |path.nodes|
  {
    forall s :: Invariant(s) && PendingNode(s, base, path, k, n, flags) ==>
      FillsAt(step, c, s, base, path, k, ok, n', flags')
  }

  ghost predicate Commits(
    step: (Movements, Command) -> Option<Movements>, c: Command, base: Movements, path: Goal, k: nat,
    n: NativeNode, flags: Pending)
    requires k < |path.nodes|
  {
    forall s :: Invariant(s) && PendingNode(s, base, path, k, n, flags) ==>
      && step(s, c).Some?
      && Uploaded(step(s, c).value, path, |path.frames|, |path.conditions|, k + 1)
  }

  function Targeted(k: nat): Pending { Pending(true, k + 1, true, false, false, false) }
  function Moved(k: nat): Pending { Pending(true, k + 1, true, true, false, false) }
  function Blended(k: nat): Pending { Pending(true, k + 1, true, true, true, false) }
  function Synced(k: nat): Pending { Pending(true, k + 1, true, true, true, true) }

  lemma {:induction false} MotionFillsAt(s: Movements, base: Movements, path: Goal, k: nat, n: NativeNode,
      maxNodes: nat)
    requires Resolved(path, maxNodes) && k < |path.nodes| && BeforeNode(base, path, k)
    requires Invariant(s) && PendingNode(s, base, path, k, n, Targeted(k))
    ensures FillsAt(Perform, MotionCommand(path, k + 1, path.nodes[k]), s, base, path, k,
            Micro(path.nodes[k].segmentOverride) > 0,
                    n.(motion := ExpectedNode(path, path.nodes[k]).motion), Moved(k))
  {
    MotionPerforms(s, base, path, k, n, maxNodes);
    KeepsInvariant(s, MotionCommand(path, k + 1, path.nodes[k]));
  }

  lemma {:induction false} MotionFills(base: Movements, path: Goal, k: nat, n: NativeNode, maxNodes: nat)
    requires Resolved(path, maxNodes) && k < |path.nodes| && BeforeNode(base, path, k)
    ensures Fills(Perform, MotionCommand(path, k + 1, path.nodes[k]), base, path, k,
                  n, Targeted(k), Micro(path.nodes[k].segmentOverride) > 0,
                  n.(motion := ExpectedNode(path, path.nodes[k]).motion), Moved(k))
  {
    forall s | Invariant(s) && PendingNode(s, base, path, k, n, Targeted(k))
      ensures FillsAt(Perform, MotionCommand(path, k + 1, path.nodes[k]), s, base, path, k,
              Micro(path.nodes[k].segmentOverride) > 0,
                      n.(motion := ExpectedNode(path, path.nodes[k]).motion), Moved(k))
    {
      MotionFillsAt(s, base, path, k, n, maxNodes);
    }
  }

  lemma {:induction false} BlendFillsAt(s: Movements, base: Movements, path: Goal, k: nat, n: NativeNode, maxNodes: nat)
    requires Resolved(path, maxNodes) && k < |path.nodes| && BeforeNode(base, path, k)
    requires Invariant(s) && PendingNode(s, base, path, k, n, Moved(k))
    ensures FillsAt(Perform, BlendCommand(path, k + 1, path.nodes[k]), s, base, path, k, true,
                    n.(blend := ExpectedNode(path, path.nodes[k]).blend), Blended(k))
  {
    BlendPerforms(s, base, path, k, n, maxNodes);
    KeepsInvariant(s, BlendCommand(path, k + 1, path.nodes[k]));
  }

  lemma {:induction false} BlendFills(base: Movements, path: Goal, k: nat, n: NativeNode, maxNodes: nat)
    requires Resolved(path, maxNodes) && k < |path.nodes| && BeforeNode(base, path, k)
    ensures Fills(Perform, BlendCommand(path, k + 1, path.nodes[k]), base, path, k,
                  n, Moved(k), true, n.(blend := ExpectedNode(path, path.nodes[k]).blend), Blended(k))
  {
    forall s | Invariant(s) && PendingNode(s, base, path, k, n, Moved(k))
      ensures FillsAt(Perform, BlendCommand(path, k + 1, path.nodes[k]), s, base, path, k, true,
                      n.(blend := ExpectedNode(path, path.nodes[k]).blend), Blended(k))
    {
      BlendFillsAt(s, base, path, k, n, maxNodes);
    }
  }

  lemma {:induction false} SyncFillsAt(s: Movements, base: Movements, path: Goal, k: nat, n: NativeNode, maxNodes: nat)
    requires Resolved(path, maxNodes) && k < |path.nodes| && BeforeNode(base, path, k)
    requires Invariant(s) && PendingNode(s, base, path, k, n, Blended(k))
    ensures FillsAt(Perform, SyncCommand(path, k + 1, path.nodes[k]), s, base, path, k, true,
                    n.(sync := ExpectedNode(path, path.nodes[k]).sync), Synced(k))
  {
    SyncPerforms(s, base, path, k, n, maxNodes);
    KeepsInvariant(s, SyncCommand(path, k + 1, path.nodes[k]));
  }

  lemma {:induction false} SyncFills(base: Movements, path: Goal, k: nat, n: NativeNode, maxNodes: nat)
    requires Resolved(path, maxNodes) && k < |path.nodes| && BeforeNode(base, path, k)
    ensures Fills(Perform, SyncCommand(path, k + 1, path.nodes[k]), base, path, k,
                  n, Blended(k), true, n.(sync := ExpectedNode(path, path.nodes[k]).sync), Synced(k))
  {
    forall s | Invariant(s) && PendingNode(s, base, path, k, n, Blended(k))
      ensures FillsAt(Perform, SyncCommand(path, k + 1, path.nodes[k]), s, base, path, k, true,
                      n.(sync := ExpectedNode(path, path.nodes[k]).sync), Synced(k))
    {
      SyncFillsAt(s, base, path, k, n, maxNodes);
    }
  }

  lemma {:induction false} CommitNodeCommits(base: Movements, path: Goal, k: nat, maxNodes: nat)
    requires Resolved(path, maxNodes) && k < |path.nodes|
    requires Invariant(base) && Uploaded(base, path, |path.frames|, |path.conditions|, k)
    ensures Commits(Perform, CommitNodeCommand(path, k + 1), base, path, k, ExpectedNode(path, path.nodes[k]),
            Synced(k))
  {
    forall s | Invariant(s) && PendingNode(s, base, path, k, ExpectedNode(path, path.nodes[k]), Synced(k)) {
      CommitNodePerforms(s, base, path, k, maxNodes);
    }
  }

  function Then(step: (Movements, Command) -> Option<Movements>, s: Option<Movements>, c: Command): Option<Movements> {
    if s.None? then None else step(s.value, c)
  }

  lemma {:induction false} FiveSteps(
    step: (Movements, Command) -> Option<Movements>, s: Movements, a: Command, b: Command, c: Command, d: Command,
    e: Command)
    ensures FoldAll(step, s, [a, b, c, d, e]) ==
            Then(step, Then(step, Then(step, Then(step, step(s, a), b), c), d), e)
  {
    assert [a, b, c, d, e][..4] == [a, b, c, d] && [a, b, c, d][..3] == [a, b, c];
    assert [a, b, c][..2] == [a, b] && [a, b][..1] == [a] && [a][..0] == [];
    assert FoldAll(step, s, [a]) == step(s, a);
    assert FoldAll(step, s, [a, b]) == Then(step, step(s, a), b);
    assert FoldAll(step, s, [a, b, c]) == Then(step, Then(step, step(s, a), b), c);
    assert FoldAll(step, s, [a, b, c, d]) == Then(step, Then(step, Then(step, step(s, a), b), c), d);
  }

  /** Chaining the five commands of one node, for any step that fills and commits it. */
  lemma {:induction false} NodeChain(
    step: (Movements, Command) -> Option<Movements>, s: Movements, path: Goal, k: nat, ok: bool,
    a: Command, b: Command, c: Command, d: Command, e: Command,
    n1: NativeNode, f1: Pending, n2: NativeNode, f2: Pending, n3: NativeNode, f3: Pending, n4: NativeNode, f4: Pending)
    requires k < |path.nodes|
    requires step(s, a).Some? && Invariant(step(s, a).value) && PendingNode(step(s, a).value, s, path, k, n1, f1)
    requires Fills(step, b, s, path, k, n1, f1, ok, n2, f2)
    requires Fills(step, c, s, path, k, n2, f2, true, n3, f3)
    requires Fills(step, d, s, path, k, n3, f3, true, n4, f4)
    requires Commits(step, e, s, path, k, n4, f4)
    ensures var r := FoldAll(step, s, [a, b, c, d, e]);
            (r.Some? <==> ok) && (ok ==> Uploaded(r.value, path, |path.frames|, |path.conditions|, k + 1))
  {
    FiveSteps(step, s, a, b, c, d, e);
  }

  /** The five commands of node k succeed exactly when its printed override is positive. */
  lemma {:induction false} NodePerforms(s: Movements, path: Goal, k: nat, maxNodes: nat)
    requires Resolved(path, maxNodes) && k < |path.nodes| && Invariant(s)
    requires Uploaded(s, path, |path.frames|, |path.conditions|, k)
    ensures var r := FoldAll(Perform, s, NodeCommands(path, k));
            && (r.Some? <==> Micro(path.nodes[k].segmentOverride) > 0)
            && (r.Some? ==> Uploaded(r.value, path, |path.frames|, |path.conditions|, k + 1))
  {
    var node, n := path.nodes[k], ExpectedNode(path, path.nodes[k]);
    var n1 := BLANK_NODE.(target := n.target, moveType := n.moveType);
    var n2 := n1.(motion := n.motion);
    var n3 := n2.(blend := n.blend);
    TargetPerforms(s, path, k, maxNodes);
    KeepsInvariant(s, TargetCommand(path, k + 1, node));
    MotionFills(s, path, k, n1, maxNodes);
    BlendFills(s, path, k, n2, maxNodes);
    SyncFills(s, path, k, n3, maxNodes);
    CommitNodeCommits(s, path, k, maxNodes);
    NodeChain(Perform, s, path, k, Micro(node.segmentOverride) > 0, TargetCommand(path, k + 1, node),
              MotionCommand(path, k + 1, node), BlendCommand(path, k + 1, node), SyncCommand(path, k + 1, node),
              CommitNodeCommand(path, k + 1), n1, Targeted(k), n2, Moved(k), n3, Blended(k), n, Synced(k));
  }

  lemma {:induction false} KeepsInvariant(s: Movements, c: Command)
    ensures Perform(s, c).Some? ==> Invariant(Perform(s, c).value)
  {
    if Invariant(s) {
      DispatchKeeps(s, c.action, RoundedAll(c.values));
    }
  }

  // The whole upload.

  lemma {:induction false} CommitParams(path: Goal)
    ensures var p := RoundedAll(CommitCommand(path).values);
            |p| == 2 && Round(p[0]) == path.pathId && Round(p[1]) == |path.nodes|
  {
    IntParam(path.pathId);
    IntParam(|path.nodes|);
  }

  lemma {:induction false} ReadyAfter(s: Movements, path: Goal)
    requires Uploaded(s, path, |path.frames|, |path.conditions|, |path.nodes|)
    ensures ReadyWith(s.(upload := s.upload.(active := false), run := s.run.(state := PathReady)), path)
  {
    assert path.frames[..|path.frames|] == path.frames && path.conditions[..|path.conditions|] == path.conditions;
  }

  lemma {:induction false} CommitPerforms(s: Movements, path: Goal, maxNodes: nat)
    requires Resolved(path, maxNodes) && Invariant(s)
    requires Uploaded(s, path, |path.frames|, |path.conditions|, |path.nodes|)
    ensures Perform(s, CommitCommand(path)).Some? && ReadyWith(Perform(s, CommitCommand(path)).value, path)
  {
    CommitParams(path);
    ExpectedLength(path, |path.nodes|);
    ReadyAfter(s, path);
    assert CommitPathOf(s, RoundedAll(CommitCommand(path).values)) ==
           (s.(upload := s.upload.(active := false), run := s.run.(state := PathReady)), RESULT_OK);
  }

  /** What holds before block j of the upload. */
  predicate Before(s: Movements, path: Goal, j: nat)
    requires j <= BlockCount(path)
  {
    var f, c := |path.frames|, |path.conditions|;
    && Invariant(s)
    && if j == 0 then true
       else if j <= 1 + f then Uploaded(s, path, j - 1, 0, 0)
       else if j <= 1 + f + c then Uploaded(s, path, f, j - 1 - f, 0)
       else if j <= 1 + f + c + |path.nodes| then Uploaded(s, path, f, c, j - 1 - f - c)
       else ReadyWith(s, path)
  }

  /** Whether the controller accepts block j. */
  predicate Acceptable(path: Goal, j: nat)
    requires j < BlockCount(path)
  {
    var f, c := |path.frames|, |path.conditions|;
    if 0 < j <= f then path.pathType == CARTESIAN
    else if f + c < j <= f + c + |path.nodes| then Micro(path.nodes[j - 1 - f - c].segmentOverride) > 0
    else true
  }

  lemma {:induction false} AcceptableBlocks(path: Goal)
    requires path.pathType in {CARTESIAN, JOINT}
    ensures (forall j: nat :: j < BlockCount(path) ==> Acceptable(path, j)) <==> Uploadable(path)
  {
    var f, c := |path.frames|, |path.conditions|;
    if forall j: nat :: j < BlockCount(path) ==> Acceptable(path, j) {
      assert f > 0 ==> Acceptable(path, 1);
      forall i | 0 <= i < |path.nodes| ensures Micro(path.nodes[i].segmentOverride) > 0 {
        assert Acceptable(path, f + c + i + 1);
      }
    }
  }

  lemma {:induction false} FoldKeepsInvariant(s: Movements, commands: seq<Command>)
    requires Invariant(s)
    ensures FoldAll(Perform, s, commands).Some? ==> Invariant(FoldAll(Perform, s, commands).value)
  {
    if commands != [] {
      var before := FoldAll(Perform, s, commands[..|commands| - 1]);
      FoldKeepsInvariant(s, commands[..|commands| - 1]);
      if before.Some? {
        KeepsInvariant(before.value, commands[|commands| - 1]);
      }
    }
  }

  lemma {:induction false} OneStep(step: (Movements, Command) -> Option<Movements>, s: Movements, c: Command)
    ensures FoldAll(step, s, [c]) == step(s, c)
  {
    assert [c][..0] == [];
  }

  lemma {:induction false} BeginBlock(s: Movements, path: Goal, maxNodes: nat)
    requires Resolved(path, maxNodes) && Before(s, path, 0)
    ensures Advances(s, path, 0)
  {
    hide Invariant, Valid, Uploaded, Perform;
    OneStep(Perform, s, BeginCommand(path));
    BeginPerforms(s, path, maxNodes);
  }

  lemma {:induction false} FrameBlock(s: Movements, path: Goal, j: nat, maxNodes: nat)
    requires Resolved(path, maxNodes) && 0 < j <= |path.frames| && Before(s, path, j)
    ensures Advances(s, path, j)
  {
    hide Invariant, Valid, Uploaded, Perform;
    OneStep(Perform, s, FrameCommand(path, path.frames[j - 1]));
    FramePerforms(s, path, j - 1, maxNodes);
  }

  lemma {:induction false} ConditionBlock(s: Movements, path: Goal, j: nat, maxNodes: nat)
    requires Resolved(path, maxNodes) && |path.frames| < j <= |path.frames| + |path.conditions|
    requires Before(s, path, j)
    ensures Advances(s, path, j)
  {
    hide Invariant, Valid, Uploaded, Perform;
    OneStep(Perform, s, ConditionCommand(path, path.conditions[j - 1 - |path.frames|]));
    ConditionPerforms(s, path, j - 1 - |path.frames|, maxNodes);
  }

  lemma {:induction false} NodeBlock(s: Movements, path: Goal, j: nat, maxNodes: nat)
    requires Resolved(path, maxNodes)
    requires |path.frames| + |path.conditions| < j <= |path.frames| + |path.conditions| + |path.nodes|
    requires Before(s, path, j)
    ensures Advances(s, path, j)
  {
    hide Invariant, Valid, Uploaded, Perform;
    var k := j - 1 - |path.frames| - |path.conditions|;
    assert Block(path, j) == NodeCommands(path, k);
    assert Acceptable(path, j) <==> Micro(path.nodes[k].segmentOverride) > 0;
    NodePerforms(s, path, k, maxNodes);
  }

  lemma {:induction false} CommitBlock(s: Movements, path: Goal, maxNodes: nat)
    requires Resolved(path, maxNodes) && Before(s, path, BlockCount(path) - 1)
    ensures Advances(s, path, BlockCount(path) - 1)
  {
    hide Invariant, Valid, Uploaded, Perform, ReadyWith;
    OneStep(Perform, s, CommitCommand(path));
    CommitPerforms(s, path, maxNodes);
  }

  /** Block j succeeds exactly when acceptable, and leads to where block j + 1 starts. */
  predicate Advances(s: Movements, path: Goal, j: nat)
    requires j < BlockCount(path)
  {
    var r := FoldAll(Perform, s, Block(path, j));
    (r.Some? <==> Acceptable(path, j)) && (r.Some? && Invariant(r.value) ==> Before(r.value, path, j + 1))
  }

  lemma {:induction false} HeaderAdvances(s: Movements, path: Goal, j: nat, maxNodes: nat)
    requires Resolved(path, maxNodes) && j <= |path.frames| + |path.conditions| && Before(s, path, j)
    ensures Advances(s, path, j)
  {
    if j == 0 {
      BeginBlock(s, path, maxNodes);
    } else if j <= |path.frames| {
      FrameBlock(s, path, j, maxNodes);
    } else {
      ConditionBlock(s, path, j, maxNodes);
    }
  }

  lemma {:induction false} BlockAdvances(s: Movements, path: Goal, j: nat, maxNodes: nat)
    requires Resolved(path, maxNodes) && j < BlockCount(path) && Before(s, path, j)
    ensures Advances(s, path, j)
  {
    if j <= |path.frames| + |path.conditions| {
      HeaderAdvances(s, path, j, maxNodes);
    } else if j <= |path.frames| + |path.conditions| + |path.nodes| {
      NodeBlock(s, path, j, maxNodes);
    } else {
      CommitBlock(s, path, maxNodes);
    }
  }

  lemma {:induction false} BlockPerforms(s: Movements, path: Goal, j: nat, maxNodes: nat)
    requires Resolved(path, maxNodes) && j < BlockCount(path) && Before(s, path, j)
    ensures FoldAll(Perform, s, Block(path, j)).Some? <==> Acceptable(path, j)
    ensures Acceptable(path, j) ==> Before(FoldAll(Perform, s, Block(path, j)).value, path, j + 1)
  {
    BlockAdvances(s, path, j, maxNodes);
    FoldKeepsInvariant(s, Block(path, j));
  }

  /** Block j, started at t, succeeds exactly if `ok` and ends where the next one starts. */
  ghost predicate ChainsAt(
    step: (Movements, Command) -> Option<Movements>, at: (Movements, nat) -> bool, ok: nat -> bool, t: Movements,
    path: Goal, j: nat)
    requires j < BlockCount(path)
  {
    && (FoldAll(step, t, Block(path, j)).Some? <==> ok(j))
    && (ok(j) ==> at(FoldAll(step, t, Block(path, j)).value, j + 1))
  }

  ghost predicate Chains(
    step: (Movements, Command) -> Option<Movements>, at: (Movements, nat) -> bool, ok: nat -> bool, path: Goal)
  {
    forall t, j: nat :: j < BlockCount(path) && at(t, j) ==> ChainsAt(step, at, ok, t, path, j)
  }

  predicate AllOk(ok: nat -> bool, n: nat) {
    forall j: nat :: j < n ==> ok(j)
  }

  lemma {:induction false} ChainNext(
    step: (Movements, Command) -> Option<Movements>, at: (Movements, nat) -> bool, ok: nat -> bool,
    mid: Option<Movements>, path: Goal, j: nat)
    requires j < BlockCount(path) && Chains(step, at, ok, path)
    requires (mid.Some? <==> AllOk(ok, j)) && (mid.Some? ==> at(mid.value, j))
    ensures var next := if mid.None? then None else FoldAll(step, mid.value, Block(path, j));
            (next.Some? <==> AllOk(ok, j + 1)) && (next.Some? ==> at(next.value, j + 1))
  {
    if mid.Some? {
      assert ChainsAt(step, at, ok, mid.value, path, j);
    }
  }

  /** Chaining the blocks, for any step and any assertion between blocks. */
  lemma {:induction false} BlocksChain(
    step: (Movements, Command) -> Option<Movements>, at: (Movements, nat) -> bool, ok: nat -> bool, s: Movements,
    path: Goal, n: nat)
    requires n <= BlockCount(path) && at(s, 0) && Chains(step, at, ok, path)
    ensures FoldAll(step, s, Blocks(path, n)).Some? <==> AllOk(ok, n)
    ensures FoldAll(step, s, Blocks(path, n)).Some? ==> at(FoldAll(step, s, Blocks(path, n)).value, n)
  {
    hide Chains, Block;
    if n > 0 {
      BlocksChain(step, at, ok, s, path, n - 1);
      FoldConcat(step, s, Blocks(path, n - 1), Block(path, n - 1));
      ChainNext(step, at, ok, FoldAll(step, s, Blocks(path, n - 1)), path, n - 1);
    }
  }

  function At(path: Goal): (Movements, nat) -> bool {
    (t: Movements, j: nat) => j <= BlockCount(path) && Before(t, path, j)
  }

  function Ok(path: Goal): nat -> bool {
    (j: nat) => j < BlockCount(path) && Acceptable(path, j)
  }

  lemma {:induction false} UploadChainsAt(t: Movements, path: Goal, j: nat, maxNodes: nat)
    requires Resolved(path, maxNodes) && j < BlockCount(path) && At(path)(t, j)
    ensures ChainsAt(Perform, At(path), Ok(path), t, path, j)
  {
    hide Invariant, Valid, Uploaded, Perform, ReadyWith, Before, Acceptable, Block;
    assert Before(t, path, j);
    BlockPerforms(t, path, j, maxNodes);
  }

  lemma {:induction false} UploadChain(path: Goal, maxNodes: nat)
    requires Resolved(path, maxNodes)
    ensures Chains(Perform, At(path), Ok(path), path)
  {
    forall t, j: nat | j < BlockCount(path) && At(path)(t, j)
      ensures ChainsAt(Perform, At(path), Ok(path), t, path, j)
    {
      UploadChainsAt(t, path, j, maxNodes);
    }
  }

  lemma {:induction false} ChainStarts(s: Movements, path: Goal)
    requires Invariant(s)
    ensures At(path)(s, 0)
  {
    hide Invariant;
    assert Before(s, path, 0);
  }

  lemma {:induction false} ChainEnds(s: Movements, path: Goal)
    requires At(path)(s, BlockCount(path))
    ensures ReadyWith(s, path)
  {
    hide Invariant, ReadyWith, Uploaded;
    assert Before(s, path, BlockCount(path));
  }

  lemma {:induction false} AllBlocksOk(path: Goal)
    requires path.pathType in {CARTESIAN, JOINT}
    ensures AllOk(Ok(path), BlockCount(path)) <==> Uploadable(path)
  {
    hide Acceptable, Uploadable;
    AcceptableBlocks(path);
    assert forall j: nat :: j < BlockCount(path) ==> (Ok(path)(j) <==> Acceptable(path, j));
  }

  lemma {:induction false} ResolvedType(path: Goal, maxNodes: nat)
    requires Resolved(path, maxNodes)
    ensures path.pathType in {CARTESIAN, JOINT}
  {
  }

  /** The controller accepts the whole upload exactly when the path is uploadable, and then holds it. */
  lemma {:induction false} UploadPerforms(s: Movements, path: Goal, maxNodes: nat)
    requires Invariant(s) && Resolved(path, maxNodes)
    ensures FoldAll(Perform, s, UploadCommands(path)).Some? <==> Uploadable(path)
    ensures Uploadable(path) ==> ReadyWith(FoldAll(Perform, s, UploadCommands(path)).value, path)
  {
    hide Invariant, ReadyWith, Valid, Uploadable;
    assert path.pathType in {CARTESIAN, JOINT} by { ResolvedType(path, maxNodes); }
    UploadChain(path, maxNodes);
    ChainStarts(s, path);
    AllBlocksOk(path);
    BlocksChain(Perform, At(path), Ok(path), s, path, BlockCount(path));
    var r := FoldAll(Perform, s, UploadCommands(path));
    if r.Some? {
      ChainEnds(r.value, path);
    }
  }

  // The main results, about goals as they arrive.

  predicate TokensFit(path: Goal) {
    forall i :: 0 <= i < |UploadCommands(path)| ==> AllFit(UploadCommands(path)[i].values)
  }

  predicate Short(c: Command) {
    |c.values| <= 9 && |Name(c.action)| <= (if |c.values| <= 3 then 16 else 14)
  }

  lemma {:induction false} UploadIsShort(path: Goal, maxNodes: nat)
    requires Valid(path, maxNodes)
    ensures Every(UploadCommands(path), Short)
  {
    BlocksEvery(path, BlockCount(path), Short);
  }

  /**
   * End to end: for every validated goal whose numbers fit the controller's tokens, and every
   * controller state the invariant allows, every printed upload command returns RESULT_OK exactly when
   * a JOINT goal has no frames and no segment override prints as zero; and the controller is then
   * READY with precisely that goal.
   */
  lemma {:induction false} UploadIsExact(s: Movements, goal: Goal, maxNodes: nat)
    requires Invariant(s) && Valid(goal, maxNodes) && TokensFit(Validated(goal))
    ensures Feed(s, Texts(UploadCommands(Validated(goal)))).Some? <==> Uploadable(goal)
    ensures Uploadable(goal) ==> ReadyWith(Feed(s, Texts(UploadCommands(Validated(goal)))).value, Validated(goal))
  {
    var path := Validated(goal);
    ValidatedIsResolved(goal, maxNodes);
    UploadIsShort(path, maxNodes);
    FeedIsPerform(s, UploadCommands(path));
    UploadPerforms(s, path, maxNodes);
  }

  lemma {:induction false} ExpectedAt(path: Goal, k: nat, i: nat)
    requires i < k <= |path.nodes|
    ensures |ExpectedNodes(path, k)| == k && ExpectedNodes(path, k)[i] == ExpectedNode(path, path.nodes[i])
  {
    ExpectedLength(path, k - 1);
    if i < k - 1 {
      ExpectedAt(path, k - 1, i);
    }
  }

  /**
   * In a ready controller, native node i is goal node i, every frame or tool index it selects holds a
   * frame of this upload, and every condition bit selects a handler of this goal.
   */
  lemma {:induction false} ReadyNodesResolve(s: Movements, path: Goal, maxNodes: nat, i: nat)
    requires Resolved(path, maxNodes) && ReadyWith(s, path) && i < |path.nodes|
    ensures |s.Nodes()| == |path.nodes| && s.Nodes()[i] == ExpectedNode(path, path.nodes[i])
    ensures path.nodes[i].referenceIndex != 0 ==> HoldsUploadedFrame(s, path, path.nodes[i].referenceIndex)
    ensures path.nodes[i].toolIndex != 0 ==> HoldsUploadedFrame(s, path, path.nodes[i].toolIndex)
    ensures HandlersUploaded(s, path, path.nodes[i].conditionMask)
    ensures HandlersUploaded(s, path, path.nodes[i].conditionMaskBack)
  {
    ExpectedAt(path, |path.nodes|, i);
    assert ValidNode(path.nodes[i], path.pathType, FrameIndexes(path.frames), Slots(path.conditions));
    MaskIsUploaded(s, path, path.nodes[i].conditionMask);
    MaskIsUploaded(s, path, path.nodes[i].conditionMaskBack);
    if path.nodes[i].referenceIndex != 0 {
      FrameIsUploaded(s, path, path.nodes[i].referenceIndex);
    }
    if path.nodes[i].toolIndex != 0 {
      FrameIsUploaded(s, path, path.nodes[i].toolIndex);
    }
  }

  predicate HoldsUploadedFrame(s: Movements, path: Goal, index: nat) {
    1 <= index <= |s.cart.frames| &&
    exists j :: 0 <= j < |path.frames| && path.frames[j].index == index &&
                s.cart.frames[index - 1] == Pose(RoundedAll(path.frames[j].pose))
  }

  predicate HoldsUploadedHandler(s: Movements, path: Goal, slot: nat) {
    1 <= slot <= |s.Active().conditions| &&
    exists j :: 0 <= j < |path.conditions| && path.conditions[j].slot == slot &&
                s.Active().conditions[slot - 1] == path.conditions[j].handler
  }

  /** Every condition bit of the mask selects a handler of this upload. */
  predicate HandlersUploaded(s: Movements, path: Goal, mask: int) {
    forall bit: nat | bit < 32 && MaskBit(mask, bit) :: HoldsUploadedHandler(s, path, bit + 1)
  }

  lemma {:induction false} MaskIsUploaded(s: Movements, path: Goal, mask: int)
    requires ReadyWith(s, path) && ValidConditions(path.conditions) && MaskDefined(mask, Slots(path.conditions))
    ensures HandlersUploaded(s, path, mask)
  {
    forall bit: nat | bit < 32 && MaskBit(mask, bit)
      ensures HoldsUploadedHandler(s, path, bit + 1)
    {
      var c :| c in path.conditions && c.slot == bit + 1;
      var j :| 0 <= j < |path.conditions| && path.conditions[j] == c;
    }
  }

  lemma {:induction false} FrameIsUploaded(s: Movements, path: Goal, index: nat)
    requires ReadyWith(s, path) && ValidFrames(path.frames) && index in FrameIndexes(path.frames)
    ensures HoldsUploadedFrame(s, path, index)
  {
    var frame :| frame in path.frames && frame.index == index;
    var j :| 0 <= j < |path.frames| && path.frames[j] == frame;
  }

  /** A ready controller that is not being aborted starts the move when the bridge asks for it. */
  lemma {:induction false} ExecuteStarts(s: Movements, path: Goal, maxNodes: nat, other: int)
    requires Invariant(s) && Resolved(path, maxNodes) && ReadyWith(s, path) && AllFit(ExecuteCommand(path).values)
    ensures var (t, reply) := CallService(ResetAbort(s), ExecuteCommand(path).Text(), other);
            reply == Moving && t.run == Run(PathExecuting, false, path.startIndex, false)
  {
    MoveKeeps(s, []);
    PrintedCommand(ResetAbort(s), ExecuteCommand(path), other);
    IntParam(path.pathId);
    IntParam(path.startIndex);
    IntParam(path.endIndex);
  }

  /** No upload command is longer than 248 characters. */
  lemma {:induction false} CommandsAreShort(path: Goal, maxNodes: nat)
    requires Valid(path, maxNodes) && TokensFit(path)
    ensures forall i :: 0 <= i < |UploadCommands(path)| ==> |UploadCommands(path)[i].Text()| <= 248
  {
    UploadIsShort(path, maxNodes);
    forall i | 0 <= i < |UploadCommands(path)|
      ensures |UploadCommands(path)[i].Text()| <= 248
    {
      JoinLength(UploadCommands(path)[i].values);
    }
  }
}
