/** ROS2_MOVEMENTS_1's PATH routines as they run: global variables updated in place. */
module MovementsProgram {
  import opened Wrappers
  import opened PdlText
  import opened PathActions
  import opened Rounding
  import opened MovementsState

  /** The program's PATH variables, grouped as in MovementsState. */
  class Program {
    var cart: NativePath
    var joint: NativePath
    var upload: Upload
    var pending: Pending
    var run: Run

    ghost function Vars(): Movements
      reads this
    {
      Movements(cart, joint, upload, pending, run)
    }

    ghost predicate Valid()
      reads this
    {
      Invariant(Vars())
    }

    constructor ()
      ensures Valid() && Vars() == INITIAL
    {
      cart, joint := InitialPath(), InitialPath();
      upload := Upload(false, 0, PATH_CART, 0, 0, 0, 0);
      pending := Pending(false, 0, false, false, false, false);
      run := Run(PathEmpty, false, 0, false);
      new;
      InitialHolds();
    }

    method ClearNativePaths()
      requires |cart.conditions| == |joint.conditions| == 32
      modifies `cart, `joint
      ensures cart == Cleared(old(cart)) && joint == Cleared(old(joint))
    {
      cart, joint := cart.(nodes := []), joint.(nodes := []);
      for idx := 0 to 32
        invariant |cart.conditions| == |joint.conditions| == 32
        invariant forall k :: 0 <= k < idx ==> cart.conditions[k] == joint.conditions[k] == 0
        invariant cart == old(cart).(nodes := [], conditions := cart.conditions)
        invariant joint == old(joint).(nodes := [], conditions := joint.conditions)
      {
        cart := cart.(conditions := cart.conditions[idx := 0]);
        joint := joint.(conditions := joint.conditions[idx := 0]);
      }
      assert cart.conditions == NoConditions() && joint.conditions == NoConditions();
    }

    method BeginPathRoutine(p: seq<real>) returns (code: int)
      requires Valid()
      modifies this
      ensures (Vars(), code) == BeginPathOf(old(Vars()), p)
    {
      if |p| != 5 {
        return RESULT_UNAVAILABLE;
      }
      if p[0] <= 0.0 || p[2] <= 0.0 {
        return RESULT_UNAVAILABLE;
      }
      if p[1] != 0.0 && p[1] != 1.0 {
        return RESULT_UNAVAILABLE;
      }
      if p[3] < 1.0 || p[4] < 1.0 || p[3] > p[2] || p[4] > p[2] {
        return RESULT_UNAVAILABLE;
      }
      ClearNativePaths();
      upload := upload.(id := Round(p[0]), kind := Round(p[1]), expected := Round(p[2]), committed := 0);
      pending := pending.(node := 0);
      upload := upload.(first := Round(p[3]), last := Round(p[4]));
      run := run.(node := 0);
      upload := upload.(active := true);
      pending := pending.(present := false);
      run := run.(waiting := false, state := PathUploading);
      return RESULT_OK;
    }

    method SetPathFrameRoutine(p: seq<real>) returns (code: int)
      requires Valid()
      modifies this
      ensures (Vars(), code) == SetPathFrameOf(old(Vars()), p)
    {
      if |p| != 8 {
        return RESULT_UNAVAILABLE;
      }
      if !upload.active || Round(p[0]) != upload.id || upload.kind != PATH_CART {
        return RESULT_UNAVAILABLE;
      }
      var idx := Round(p[1]);
      if idx < 1 || idx > 7 {
        return RESULT_UNAVAILABLE;
      }
      cart := cart.(frames := cart.frames[idx - 1 := Pose(p[2..])]);
      return RESULT_OK;
    }

    method SetPathConditionRoutine(p: seq<real>) returns (code: int)
      requires Valid()
      modifies this
      ensures (Vars(), code) == SetPathConditionOf(old(Vars()), p)
    {
      if |p| != 3 {
        return RESULT_UNAVAILABLE;
      }
      if !upload.active || Round(p[0]) != upload.id {
        return RESULT_UNAVAILABLE;
      }
      var idx := Round(p[1]);
      if idx < 1 || idx > 32 || p[2] <= 0.0 {
        return RESULT_UNAVAILABLE;
      }
      if upload.kind == PATH_CART {
        cart := cart.(conditions := cart.conditions[idx - 1 := Round(p[2])]);
      } else {
        joint := joint.(conditions := joint.conditions[idx - 1 := Round(p[2])]);
      }
      return RESULT_OK;
    }

    method PathNodeTargetRoutine(p: seq<real>) returns (code: int)
      requires Valid()
      modifies this
      ensures (Vars(), code) == PathNodeTargetOf(old(Vars()), p)
    {
      if |p| != 9 {
        return RESULT_UNAVAILABLE;
      }
      var idx := Round(p[1]);
      if !upload.active || pending.present || Round(p[0]) != upload.id || idx != upload.committed + 1 ||
         idx > upload.expected {
        return RESULT_UNAVAILABLE;
      }
      var moveType := MoveType(p[2]);
      if upload.kind == PATH_CART {
        AppendCartNode(idx, Pose(p[3..]), moveType);
        if moveType.None? {
          return RESULT_UNAVAILABLE;
        }
      } else {
        if p[2] != 0.0 {
          return RESULT_UNAVAILABLE;
        }
        joint := joint.(nodes := joint.nodes + [BLANK_NODE]);
        SetJointNode(idx, joint.nodes[idx - 1].(target := Some(Pose(p[3..])), moveType := Some(0)));
      }
      pending := pending.(node := idx, present := true);
      pending := pending.(target := true, motion := false, blend := false, sync := false);
      return RESULT_OK;
    }

    /** NODE_APP and the assignments to cart_path.NODE[idx]; an unknown type leaves $MOVE_TYPE unset. */
    method AppendCartNode(idx: int, target: Pose, moveType: Option<int>)
      requires upload.kind == PATH_CART && 1 <= idx <= |cart.nodes| + 1
      modifies `cart
      ensures Vars() == Appended(old(Vars()), idx, target, moveType)
    {
      cart := cart.(nodes := cart.nodes + [BLANK_NODE]);
      SetCartNode(idx, cart.nodes[idx - 1].(target := Some(target)));
      if moveType.Some? {
        SetCartNode(idx, cart.nodes[idx - 1].(moveType := moveType));
        assert cart.nodes == (old(cart.nodes) + [BLANK_NODE])[idx - 1 := cart.nodes[idx - 1]];
      }
    }

    method SetCartNode(idx: int, node: NativeNode)
      requires 1 <= idx <= |cart.nodes|
      modifies `cart
      ensures cart == old(cart).(nodes := old(cart.nodes)[idx - 1 := node])
    {
      cart := cart.(nodes := cart.nodes[idx - 1 := node]);
    }

    method SetJointNode(idx: int, node: NativeNode)
      requires 1 <= idx <= |joint.nodes|
      modifies `joint
      ensures joint == old(joint).(nodes := old(joint.nodes)[idx - 1 := node])
    {
      joint := joint.(nodes := joint.nodes[idx - 1 := node]);
    }

    method PathNodeMotionRoutine(p: seq<real>) returns (code: int)
      requires Valid()
      modifies this
      ensures (Vars(), code) == PathNodeMotionOf(old(Vars()), p)
    {
      if |p| != 8 {
        return RESULT_UNAVAILABLE;
      }
      var idx := Round(p[1]);
      if !pending.present || Round(p[0]) != upload.id || idx != pending.node || p[4] <= 0.0 || p[4] > 100.0 ||
         p[5] < 0.0 || p[5] > 4.0 {
        return RESULT_UNAVAILABLE;
      }
      if upload.kind == PATH_CART {
        var motion := CartMotion(p[2], p[3], Round(p[4]), p[6], Termination(p[5]), p[7] != 0.0);
        SetCartNode(idx, cart.nodes[idx - 1].(motion := Some(motion)));
      } else {
        var motion := JointMotion(Round(p[4]), p[6], Termination(p[5]), p[7] != 0.0);
        SetJointNode(idx, joint.nodes[idx - 1].(motion := Some(motion)));
      }
      pending := pending.(motion := true);
      return RESULT_OK;
    }

    method PathNodeBlendRoutine(p: seq<real>) returns (code: int)
      requires Valid()
      modifies this
      ensures (Vars(), code) == PathNodeBlendOf(old(Vars()), p)
    {
      if |p| != 8 {
        return RESULT_UNAVAILABLE;
      }
      var idx := Round(p[1]);
      if !pending.present || Round(p[0]) != upload.id || idx != pending.node || p[3] < 0.0 || p[3] > 1.0 ||
         p[6] < 0.0 || p[6] > 3.0 || p[5] < 0.0 {
        return RESULT_UNAVAILABLE;
      }
      if upload.kind == PATH_CART {
        var blend := CartBlend(p[2] != 0.0, Round(p[4]), p[5], Round(p[7]), p[3] != 0.0, Trajectory(p[6]));
        SetCartNode(idx, cart.nodes[idx - 1].(blend := Some(blend)));
      } else {
        var blend := JointBlend(p[2] != 0.0, Round(p[4]), p[3] != 0.0);
        SetJointNode(idx, joint.nodes[idx - 1].(blend := Some(blend)));
      }
      pending := pending.(blend := true);
      return RESULT_OK;
    }

    method PathNodeSyncRoutine(p: seq<real>) returns (code: int)
      requires Valid()
      modifies this
      ensures (Vars(), code) == PathNodeSyncOf(old(Vars()), p)
    {
      if |p| != 7 {
        return RESULT_UNAVAILABLE;
      }
      var idx := Round(p[1]);
      if !pending.present || Round(p[0]) != upload.id || idx != pending.node || p[2] < 0.0 || p[2] > 7.0 ||
         p[3] < 0.0 || p[3] > 7.0 {
        return RESULT_UNAVAILABLE;
      }
      if upload.kind == PATH_CART {
        var sync := CartSync(Round(p[2]), Round(p[3]), Round(p[4]), Round(p[5]), p[6] != 0.0);
        SetCartNode(idx, cart.nodes[idx - 1].(sync := Some(sync)));
      } else {
        if p[2] != 0.0 || p[3] != 0.0 {
          return RESULT_UNAVAILABLE;
        }
        var sync := JointSync(Round(p[4]), Round(p[5]), p[6] != 0.0);
        SetJointNode(idx, joint.nodes[idx - 1].(sync := Some(sync)));
      }
      pending := pending.(sync := true);
      return RESULT_OK;
    }

    method CommitPathNodeRoutine(p: seq<real>) returns (code: int)
      requires Valid()
      modifies this
      ensures (Vars(), code) == CommitPathNodeOf(old(Vars()), p)
    {
      if |p| != 2 {
        return RESULT_UNAVAILABLE;
      }
      if !pending.present || Round(p[0]) != upload.id || Round(p[1]) != pending.node || !pending.target ||
         !pending.motion || !pending.blend || !pending.sync {
        return RESULT_UNAVAILABLE;
      }
      upload := upload.(committed := upload.committed + 1);
      pending := pending.(present := false);
      pending := pending.(node := 0);
      return RESULT_OK;
    }

    method CommitPathRoutine(p: seq<real>) returns (code: int)
      requires Valid()
      modifies this
      ensures (Vars(), code) == CommitPathOf(old(Vars()), p)
    {
      if |p| != 2 {
        return RESULT_UNAVAILABLE;
      }
      if !upload.active || pending.present || Round(p[0]) != upload.id || Round(p[1]) != upload.expected ||
         upload.committed != upload.expected {
        return RESULT_UNAVAILABLE;
      }
      var actualCount;
      if upload.kind == PATH_CART {
        actualCount := |cart.nodes|;
      } else {
        actualCount := |joint.nodes|;
      }
      if actualCount != upload.expected {
        return RESULT_UNAVAILABLE;
      }
      upload := upload.(active := false);
      run := run.(state := PathReady);
      return RESULT_OK;
    }

    method AbortPathUploadRoutine(p: seq<real>) returns (code: int)
      requires Valid()
      modifies this
      ensures (Vars(), code) == AbortPathUploadOf(old(Vars()), p)
    {
      if |p| != 1 {
        return RESULT_UNAVAILABLE;
      }
      if Round(p[0]) != upload.id {
        return RESULT_UNAVAILABLE;
      }
      ClearNativePaths();
      upload := upload.(active := false);
      pending := pending.(present := false);
      run := run.(waiting := false);
      upload := upload.(expected := 0, committed := 0);
      run := run.(node := 0, state := PathAborted);
      return RESULT_OK;
    }

    /** execute_path up to its MOVE ALONG statement. */
    method StartExecutionRoutine(p: seq<real>) returns (code: Option<int>)
      requires Valid()
      modifies this
      ensures (Vars(), code) == StartExecution(old(Vars()), p)
    {
      if |p| != 3 {
        return Some(RESULT_UNAVAILABLE);
      }
      if run.state != PathReady || Round(p[0]) != upload.id || Round(p[1]) != upload.first ||
         Round(p[2]) != upload.last {
        return Some(RESULT_UNAVAILABLE);
      }
      if run.aborted {
        return Some(RESULT_ABORTED);
      }
      run := run.(state := PathExecuting);
      run := run.(waiting := false);
      run := run.(node := upload.first);
      return None;
    }

    /** execute_path once MOVE ALONG has ended. */
    method FinishExecutionRoutine() returns (code: int)
      modifies this
      ensures (Vars(), code) == FinishExecution(old(Vars()))
    {
      if run.aborted {
        run := run.(state := PathAborted);
        return RESULT_ABORTED;
      }
      run := run.(node := upload.last);
      run := run.(state := PathDone);
      return RESULT_OK;
    }

    method RequestAbortRoutine()
      modifies this
      ensures Vars() == RequestAbort(old(Vars()))
    {
      run := run.(aborted := true);
      upload := upload.(active := false);
      pending := pending.(present := false);
      run := run.(state := PathAborted);
      run := run.(waiting := false);
    }

    method ResetAbortRoutine()
      modifies this
      ensures Vars() == ResetAbort(old(Vars()))
    {
      run := run.(aborted := false);
    }

    method SignalPathSegment(pathId: int, expectedNode: int) returns (accepted: bool)
      modifies this
      ensures (Vars(), accepted) == SignalSegment(old(Vars()), pathId, expectedNode)
    {
      if pathId != upload.id || !run.waiting {
        return false;
      }
      if expectedNode != 0 && expectedNode != run.node {
        return false;
      }
      run := run.(waiting := false);
      run := run.(state := PathExecuting);
      return true;
    }

    method ReportPathWait(node: int)
      modifies this
      ensures Vars() == ReportWait(old(Vars()), node)
    {
      run := run.(waiting := true);
      run := run.(state := PathWaiting);
      run := run.(node := node);
    }

    method ReportPathEvent(node: int)
      modifies this
      ensures Vars() == ReportEvent(old(Vars()), node)
    {
      run := run.(node := node);
    }

    /** call_service; `other` is the code of the routines outside this model. */
    method CallServiceRoutine(command: string, other: int) returns (reply: Reply)
      requires Valid()
      modifies this
      ensures (Vars(), reply) == CallService(old(Vars()), command, other)
      ensures Valid()
    {
      CallServiceKeeps(Vars(), command, other);
      var action := ActionOf(command);
      if action == "Hello" || action == "clearFlyQueue" || action == "executeFlyQueue" {
        return Returned(other);
      }
      var count, param := GetParameter(command);
      if count < 0 {
        return Returned(RESULT_PARSE_ERROR);
      }
      if Named(action).None? {
        return Returned(other);
      }
      reply := DispatchRoutine(Named(action).value, param);
    }

    method DispatchRoutine(action: PathAction, param: seq<real>) returns (reply: Reply)
      requires Valid()
      modifies this
      ensures (Vars(), reply) == Dispatch(old(Vars()), action, param)
    {
      if action.ExecutePath? {
        var started := StartExecutionRoutine(param);
        return if started.None? then Moving else Returned(started.value);
      }
      var code;
      match action {
        case BeginPath => code := BeginPathRoutine(param);
        case SetPathFrame => code := SetPathFrameRoutine(param);
        case SetPathCondition => code := SetPathConditionRoutine(param);
        case PathNodeTarget => code := PathNodeTargetRoutine(param);
        case PathNodeMotion => code := PathNodeMotionRoutine(param);
        case PathNodeBlend => code := PathNodeBlendRoutine(param);
        case PathNodeSync => code := PathNodeSyncRoutine(param);
        case CommitPathNode => code := CommitPathNodeRoutine(param);
        case CommitPath => code := CommitPathRoutine(param);
        case AbortPathUpload => code := AbortPathUploadRoutine(param);
      }
      return Returned(code);
    }
  }
}
