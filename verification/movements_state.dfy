/**
 * ROS2_MOVEMENTS_1's PATH variables and routines as functions on a value. Routines take the parsed
 * parameter array; the two results are the new variables and the returned code.
 */
module MovementsState {
  import opened Wrappers
  import opened PdlText
  import opened PathActions
  import opened Rounding

  const RESULT_OK: int := 1
  const RESULT_UNAVAILABLE: int := 0
  const RESULT_PARSE_ERROR: int := -2
  const RESULT_ABORTED: int := -3

  const PATH_CART: int := 0
  const PATH_JOINT: int := 1

  datatype PathState =
    PathEmpty | PathUploading | PathReady | PathExecuting | PathWaiting | PathDone | PathAborted

  datatype Motion =
    | CartMotion(linSpeed: real, rotSpeed: real, override: int, tolerance: real, termination: int, data: bool)
    | JointMotion(override: int, tolerance: real, termination: int, data: bool)

  datatype Blend =
    | CartBlend(fly: bool, percent: int, distance: real, stress: int, flyCart: bool, trajectory: int)
    | JointBlend(fly: bool, percent: int, flyCart: bool)

  datatype Sync =
    | CartSync(reference: int, tool: int, mask: int, maskBack: int, wait: bool)
    | JointSync(mask: int, maskBack: int, wait: bool)

  /** A native node; NODE_APP leaves every field unset. */
  datatype NativeNode = NativeNode(
    target: Option<Pose>,
    moveType: Option<int>,
    motion: Option<Motion>,
    blend: Option<Blend>,
    sync: Option<Sync>)

  const BLANK_NODE := NativeNode(None, None, None, None, None)

  /** A POSITION built from six numbers. */
  datatype Pose = Pose(v: seq<real>)

  /** A native PATH variable: its nodes, COND_TBL and (used by cart_path only) FRM_TBL. */
  datatype NativePath = NativePath(nodes: seq<NativeNode>, conditions: seq<int>, frames: seq<Pose>)

  /** The upload in progress or completed: path_upload_active, active_path_id, ..., path_end_index. */
  datatype Upload = Upload(active: bool, id: int, kind: int, expected: int, committed: int, first: int, last: int)

  /** The node between its target and its commit: path_node_pending, pending_path_node, path_*_set. */
  datatype Pending = Pending(present: bool, node: int, target: bool, motion: bool, blend: bool, sync: bool)

  /** path_state, path_is_waiting, path_current_node, motion_aborted. */
  datatype Run = Run(state: PathState, waiting: bool, node: int, aborted: bool)

  datatype Movements = Movements(cart: NativePath, joint: NativePath, upload: Upload, pending: Pending, run: Run)
  {
    function Active(): NativePath {
      if upload.kind == PATH_CART then cart else joint
    }

    function Nodes(): seq<NativeNode> {
      Active().nodes
    }

    /** The same variables with another active native PATH. */
    function WithActive(p: NativePath): Movements {
      if upload.kind == PATH_CART then this.(cart := p) else this.(joint := p)
    }
  }

  /** An empty COND_TBL. */
  function NoConditions(): (t: seq<int>)
    ensures |t| == 32 && forall i :: 0 <= i < 32 ==> t[i] == 0
  {
    seq(32, _ => 0)
  }

  function NoFrames(): (t: seq<Pose>)
    ensures |t| == 7
  {
    seq(7, _ => Pose([]))
  }

  function Cleared(p: NativePath): NativePath {
    NativePath([], NoConditions(), p.frames)
  }

  function InitialPath(): NativePath {
    NativePath([], NoConditions(), NoFrames())
  }

  const INITIAL := Movements(InitialPath(), InitialPath(), Upload(false, 0, PATH_CART, 0, 0, 0, 0),
                             Pending(false, 0, false, false, false, false), Run(PathEmpty, false, 0, false))

  // What the routines keep.

  predicate Complete(node: NativeNode) {
    node.target.Some? && node.moveType.Some? && node.motion.Some? && node.blend.Some? && node.sync.Some?
  }

  predicate Finalised(state: PathState) {
    state in {PathReady, PathExecuting, PathWaiting, PathDone}
  }

  predicate TablesSized(p: NativePath) {
    |p.conditions| == 32 && |p.frames| == 7
  }

  /** The part of the pending node each flag vouches for. */
  predicate PendingParts(s: Movements, node: NativeNode) {
    && s.pending.target && node.target.Some? && node.moveType.Some?
    && (s.pending.motion ==> node.motion.Some?)
    && (s.pending.blend ==> node.blend.Some?)
    && (s.pending.sync ==> node.sync.Some?)
  }

  /**
   * The receiver invariant. A pending node implies an active upload; committed nodes have all four
   * parts; a finalised PATH has exactly its announced nodes, all complete; a wait belongs to WAITING.
   */
  predicate Invariant(s: Movements) {
    && TablesSized(s.cart) && TablesSized(s.joint)
    && s.upload.kind in {PATH_CART, PATH_JOINT}
    && (s.upload.active <==> s.run.state == PathUploading)
    && (s.pending.present ==> s.upload.active)
    && (s.run.waiting <==> s.run.state == PathWaiting)
    && (s.upload.active ==>
          && 0 <= s.upload.committed <= s.upload.expected
          && s.upload.committed <= |s.Nodes()|
          && (forall i :: 0 <= i < s.upload.committed ==> Complete(s.Nodes()[i])))
    && (s.pending.present ==>
          && s.pending.node == s.upload.committed + 1 <= s.upload.expected
          && s.pending.node <= |s.Nodes()|
          && PendingParts(s, s.Nodes()[s.upload.committed]))
    && (s.upload.active || Finalised(s.run.state) ==>
          1 <= s.upload.first <= s.upload.expected && 1 <= s.upload.last <= s.upload.expected)
    && (Finalised(s.run.state) ==>
          && |s.Nodes()| == s.upload.committed == s.upload.expected
          && (forall i :: 0 <= i < |s.Nodes()| ==> Complete(s.Nodes()[i])))
  }

  // The routines.

  /** Rejected as a new PATH's announcement. */
  predicate BadAnnouncement(p: seq<real>) {
    || |p| != 5
    || p[0] <= 0.0 || p[2] <= 0.0
    || (p[1] != 0.0 && p[1] != 1.0)
    || p[3] < 1.0 || p[4] < 1.0 || p[3] > p[2] || p[4] > p[2]
  }

  function Announced(s: Movements, p: seq<real>): Movements
    requires |p| == 5
  {
    s.(cart := Cleared(s.cart), joint := Cleared(s.joint),
       upload := Upload(true, Round(p[0]), Round(p[1]), Round(p[2]), 0, Round(p[3]), Round(p[4])),
       pending := s.pending.(present := false, node := 0),
       run := s.run.(state := PathUploading, waiting := false, node := 0))
  }

  function BeginPathOf(s: Movements, p: seq<real>): (Movements, int) {
    if BadAnnouncement(p) then (s, RESULT_UNAVAILABLE) else (Announced(s, p), RESULT_OK)
  }

  function SetPathFrameOf(s: Movements, p: seq<real>): (Movements, int)
    requires Invariant(s)
  {
    if |p| != 8 || !s.upload.active || Round(p[0]) != s.upload.id || s.upload.kind != PATH_CART then
      (s, RESULT_UNAVAILABLE)
    else
      var idx := Round(p[1]);
      if idx < 1 || idx > 7 then (s, RESULT_UNAVAILABLE)
      else (s.(cart := s.cart.(frames := s.cart.frames[idx - 1 := Pose(p[2..])])), RESULT_OK)
  }

  function SetPathConditionOf(s: Movements, p: seq<real>): (Movements, int)
    requires Invariant(s)
  {
    if |p| != 3 || !s.upload.active || Round(p[0]) != s.upload.id then (s, RESULT_UNAVAILABLE)
    else
      var idx := Round(p[1]);
      if idx < 1 || idx > 32 || p[2] <= 0.0 then (s, RESULT_UNAVAILABLE)
      else
        var path := s.Active();
        (s.WithActive(path.(conditions := path.conditions[idx - 1 := Round(p[2])])), RESULT_OK)
  }

  /** Appends a blank node, then fills node `idx`, which is the appended one unless a stray precedes it. */
  function Appended(s: Movements, idx: int, target: Pose, moveType: Option<int>): Movements
    requires 1 <= idx <= |s.Nodes()| + 1
  {
    var nodes := s.Nodes() + [BLANK_NODE];
    var node := nodes[idx - 1].(target := Some(target));
    s.WithActive(s.Active().(nodes := nodes[idx - 1 := if moveType.Some? then node.(moveType := moveType) else node]))
  }

  /** The motion types a Cartesian node accepts. */
  function MoveType(t: real): Option<int> {
    if t == 0.0 then Some(0) else if t == 1.0 then Some(1) else if t == 2.0 then Some(2)
    else if t == 3.0 then Some(3) else None
  }

  function PathNodeTargetOf(s: Movements, p: seq<real>): (Movements, int)
    requires Invariant(s)
  {
    if |p| != 9 then (s, RESULT_UNAVAILABLE)
    else
      var idx := Round(p[1]);
      if !s.upload.active || s.pending.present || Round(p[0]) != s.upload.id || idx != s.upload.committed + 1 ||
         idx > s.upload.expected
      then (s, RESULT_UNAVAILABLE)
      else if s.upload.kind == PATH_CART && MoveType(p[2]).None? then
        (Appended(s, idx, Pose(p[3..]), None), RESULT_UNAVAILABLE)
      else if s.upload.kind != PATH_CART && p[2] != 0.0 then (s, RESULT_UNAVAILABLE)
      else
        (Appended(s, idx, Pose(p[3..]), MoveType(p[2])).(
            pending := Pending(true, idx, true, false, false, false)),
         RESULT_OK)
  }

  function FillNode(s: Movements, idx: int, node: NativeNode): Movements
    requires 1 <= idx <= |s.Nodes()|
  {
    s.WithActive(s.Active().(nodes := s.Nodes()[idx - 1 := node]))
  }

  predicate Addressed(s: Movements, p: seq<real>)
    requires |p| >= 2
  {
    s.pending.present && Round(p[0]) == s.upload.id && Round(p[1]) == s.pending.node
  }

  function Termination(t: real): int {
    if t == 0.0 then 0 else if t == 1.0 then 1 else if t == 2.0 then 2 else if t == 3.0 then 3 else 4
  }

  function PathNodeMotionOf(s: Movements, p: seq<real>): (Movements, int)
    requires Invariant(s)
  {
    if |p| != 8 || !Addressed(s, p) || p[4] <= 0.0 || p[4] > 100.0 || p[5] < 0.0 || p[5] > 4.0 then
      (s, RESULT_UNAVAILABLE)
    else
      var motion :=
        if s.upload.kind == PATH_CART then
          CartMotion(p[2], p[3], Round(p[4]), p[6], Termination(p[5]), p[7] != 0.0)
        else JointMotion(Round(p[4]), p[6], Termination(p[5]), p[7] != 0.0);
      (FillNode(s, s.pending.node,
        s.Nodes()[s.pending.node - 1].(motion := Some(motion))).(pending := s.pending.(motion := true)), RESULT_OK)
  }

  function Trajectory(t: real): int {
    if t == 0.0 then 0 else if t == 1.0 then 1 else if t == 2.0 then 2 else 3
  }

  function PathNodeBlendOf(s: Movements, p: seq<real>): (Movements, int)
    requires Invariant(s)
  {
    if |p| != 8 || !Addressed(s, p) || p[3] < 0.0 || p[3] > 1.0 || p[6] < 0.0 || p[6] > 3.0 || p[5] < 0.0 then
      (s, RESULT_UNAVAILABLE)
    else
      var blend :=
        if s.upload.kind == PATH_CART then
          CartBlend(p[2] != 0.0, Round(p[4]), p[5], Round(p[7]), p[3] != 0.0, Trajectory(p[6]))
        else JointBlend(p[2] != 0.0, Round(p[4]), p[3] != 0.0);
      (FillNode(s, s.pending.node,
        s.Nodes()[s.pending.node - 1].(blend := Some(blend))).(pending := s.pending.(blend := true)), RESULT_OK)
  }

  function PathNodeSyncOf(s: Movements, p: seq<real>): (Movements, int)
    requires Invariant(s)
  {
    if |p| != 7 || !Addressed(s, p) || p[2] < 0.0 || p[2] > 7.0 || p[3] < 0.0 || p[3] > 7.0 then
      (s, RESULT_UNAVAILABLE)
    else if s.upload.kind != PATH_CART && (p[2] != 0.0 || p[3] != 0.0) then (s, RESULT_UNAVAILABLE)
    else
      var sync :=
        if s.upload.kind == PATH_CART then
          CartSync(Round(p[2]), Round(p[3]), Round(p[4]), Round(p[5]), p[6] != 0.0)
        else JointSync(Round(p[4]), Round(p[5]), p[6] != 0.0);
      (FillNode(s, s.pending.node,
        s.Nodes()[s.pending.node - 1].(sync := Some(sync))).(pending := s.pending.(sync := true)), RESULT_OK)
  }

  function CommitPathNodeOf(s: Movements, p: seq<real>): (Movements, int) {
    if |p| != 2 || !Addressed(s, p) || !s.pending.target || !s.pending.motion || !s.pending.blend ||
       !s.pending.sync then
      (s, RESULT_UNAVAILABLE)
    else (s.(upload := s.upload.(committed := s.upload.committed + 1),
      pending := s.pending.(present := false, node := 0)),
          RESULT_OK)
  }

  function CommitPathOf(s: Movements, p: seq<real>): (Movements, int) {
    if |p| != 2 || !s.upload.active || s.pending.present || Round(p[0]) != s.upload.id ||
       Round(p[1]) != s.upload.expected ||
       s.upload.committed != s.upload.expected || |s.Nodes()| != s.upload.expected
    then (s, RESULT_UNAVAILABLE)
    else (s.(upload := s.upload.(active := false), run := s.run.(state := PathReady)), RESULT_OK)
  }

  function AbortPathUploadOf(s: Movements, p: seq<real>): (Movements, int) {
    if |p| != 1 || Round(p[0]) != s.upload.id then (s, RESULT_UNAVAILABLE)
    else
      (s.(cart := Cleared(s.cart), joint := Cleared(s.joint),
          upload := s.upload.(active := false, expected := 0, committed := 0),
          pending := s.pending.(present := false),
          run := s.run.(state := PathAborted, waiting := false, node := 0)),
       RESULT_OK)
  }

  /** execute_path up to MOVE ALONG: None means the move starts. */
  function StartExecution(s: Movements, p: seq<real>): (Movements, Option<int>) {
    if |p| != 3 || s.run.state != PathReady || Round(p[0]) != s.upload.id || Round(p[1]) != s.upload.first ||
       Round(p[2]) != s.upload.last
    then (s, Some(RESULT_UNAVAILABLE))
    else if s.run.aborted then (s, Some(RESULT_ABORTED))
    else (s.(run := s.run.(state := PathExecuting, waiting := false, node := s.upload.first)), None)
  }

  /** execute_path after MOVE ALONG. */
  function FinishExecution(s: Movements): (Movements, int) {
    if s.run.aborted then (s.(run := s.run.(state := PathAborted)), RESULT_ABORTED)
    else (s.(run := s.run.(state := PathDone, node := s.upload.last)), RESULT_OK)
  }

  function RequestAbort(s: Movements): Movements {
    s.(upload := s.upload.(active := false), pending := s.pending.(present := false),
       run := s.run.(aborted := true, state := PathAborted, waiting := false))
  }

  function ResetAbort(s: Movements): Movements {
    s.(run := s.run.(aborted := false))
  }

  function SignalSegment(s: Movements, pathId: int, expectedNode: int): (Movements, bool) {
    if pathId != s.upload.id || !s.run.waiting || (expectedNode != 0 && expectedNode != s.run.node) then (s, false)
    else (s.(run := s.run.(waiting := false, state := PathExecuting)), true)
  }

  function ReportWait(s: Movements, node: int): Movements {
    s.(run := s.run.(waiting := true, state := PathWaiting, node := node))
  }

  /** report_path_event, which a condition handler calls as the motion passes a node. */
  function ReportEvent(s: Movements, node: int): Movements {
    s.(run := s.run.(node := node))
  }

  /** A command that returns, or the start of a blocking move. */
  datatype Reply = Returned(code: int) | Moving

  /** The PATH part of call_service's dispatch on a parsed command. */
  function Dispatch(s: Movements, action: PathAction, p: seq<real>): (Movements, Reply)
    requires Invariant(s)
  {
    if action.ExecutePath? then
      var (t, code) := StartExecution(s, p);
      (t, if code.None? then Moving else Returned(code.value))
    else
      var (t, code) :=
        match action
        case BeginPath => BeginPathOf(s, p)
        case SetPathFrame => SetPathFrameOf(s, p)
        case SetPathCondition => SetPathConditionOf(s, p)
        case PathNodeTarget => PathNodeTargetOf(s, p)
        case PathNodeMotion => PathNodeMotionOf(s, p)
        case PathNodeBlend => PathNodeBlendOf(s, p)
        case PathNodeSync => PathNodeSyncOf(s, p)
        case CommitPathNode => CommitPathNodeOf(s, p)
        case CommitPath => CommitPathOf(s, p)
        case AbortPathUpload => AbortPathUploadOf(s, p)
        case ExecutePath => (s, RESULT_UNAVAILABLE);
      (t, Returned(code))
  }

  /**
   * call_service. The three parameterless actions and the setters and single moves are not modelled:
   * they touch no PATH variable, and `other` is the code they return.
   */
  function CallService(s: Movements, command: string, other: int): (Movements, Reply)
    requires Invariant(s)
  {
    var action := ActionOf(command);
    if action in UNPARSED_ACTIONS then (s, Returned(other))
    else
      var params := ParamsOf(command);
      if !params.Values? then (s, Returned(RESULT_PARSE_ERROR))
      else if Named(action).Some? then Dispatch(s, Named(action).value, params.v)
      else (s, Returned(other))
  }

  // The invariant is inductive.

  lemma {:induction false} InitialHolds()
    ensures Invariant(INITIAL)
  {
  }

  lemma {:induction false} BeginKeeps(s: Movements, p: seq<real>)
    requires Invariant(s)
    ensures Invariant(BeginPathOf(s, p).0)
  {
    if BeginPathOf(s, p).1 == RESULT_OK {
      RoundOfInt(0);
      RoundOfInt(1);
      RoundIsMonotone(1.0, p[3]);
      RoundIsMonotone(1.0, p[4]);
      RoundIsMonotone(p[3], p[2]);
      RoundIsMonotone(p[4], p[2]);
    }
  }

  lemma {:induction false} TablesKeep(s: Movements, p: seq<real>)
    requires Invariant(s)
    ensures Invariant(SetPathFrameOf(s, p).0) && Invariant(SetPathConditionOf(s, p).0)
  {
  }

  lemma {:induction false} AppendKeeps(s: Movements, target: Pose, moveType: Option<int>)
    requires Invariant(s) && s.upload.active && !s.pending.present && s.upload.committed < s.upload.expected
    ensures var t := Appended(s, s.upload.committed + 1, target, moveType);
            && Invariant(t)
            && t == s.WithActive(t.Active())
            && t.Nodes()[..s.upload.committed] == s.Nodes()[..s.upload.committed]
            && |t.Nodes()| > s.upload.committed
            && t.Nodes()[s.upload.committed].target == Some(target)
            && (moveType.Some? ==> t.Nodes()[s.upload.committed].moveType == moveType)
  {
    var t := Appended(s, s.upload.committed + 1, target, moveType);
    assert forall i :: 0 <= i < s.upload.committed ==> t.Nodes()[i] == s.Nodes()[i];
  }

  lemma {:induction false} TargetKeeps(s: Movements, p: seq<real>)
    requires Invariant(s)
    ensures Invariant(PathNodeTargetOf(s, p).0)
  {
    if |p| == 9 && s.upload.active && !s.pending.present && Round(p[1]) == s.upload.committed + 1 <= s.upload.expected {
      AppendKeeps(s, Pose(p[3..]), None);
      AppendKeeps(s, Pose(p[3..]), MoveType(p[2]));
    }
  }

  lemma {:induction false} FillKeeps(s: Movements, node: NativeNode, motion: bool, blend: bool, sync: bool)
    requires Invariant(s) && s.pending.present
    requires PendingParts(s.(pending := s.pending.(motion := motion, blend := blend, sync := sync)), node)
    ensures Invariant(FillNode(s, s.pending.node, node).(
                        pending := s.pending.(motion := motion, blend := blend, sync := sync)))
  {
    var t := FillNode(s, s.pending.node, node);
    assert forall i :: 0 <= i < s.upload.committed ==> t.Nodes()[i] == s.Nodes()[i];
    assert t.Nodes()[s.upload.committed] == node;
  }

  lemma {:induction false} MotionKeeps(s: Movements, p: seq<real>)
    requires Invariant(s)
    ensures Invariant(PathNodeMotionOf(s, p).0)
  {
    var t := PathNodeMotionOf(s, p);
    if t.1 == RESULT_OK {
      FillKeeps(s, t.0.Nodes()[s.upload.committed], true, s.pending.blend, s.pending.sync);
    }
  }

  lemma {:induction false} BlendKeeps(s: Movements, p: seq<real>)
    requires Invariant(s)
    ensures Invariant(PathNodeBlendOf(s, p).0)
  {
    var t := PathNodeBlendOf(s, p);
    if t.1 == RESULT_OK {
      FillKeeps(s, t.0.Nodes()[s.upload.committed], s.pending.motion, true, s.pending.sync);
    }
  }

  lemma {:induction false} SyncKeeps(s: Movements, p: seq<real>)
    requires Invariant(s)
    ensures Invariant(PathNodeSyncOf(s, p).0)
  {
    var t := PathNodeSyncOf(s, p);
    if t.1 == RESULT_OK {
      FillKeeps(s, t.0.Nodes()[s.upload.committed], s.pending.motion, s.pending.blend, true);
    }
  }

  lemma {:induction false} CommitsKeep(s: Movements, p: seq<real>)
    requires Invariant(s)
    ensures Invariant(CommitPathNodeOf(s, p).0) && Invariant(CommitPathOf(s, p).0)
            && Invariant(AbortPathUploadOf(s, p).0)
  {
  }

  lemma {:induction false} MoveKeeps(s: Movements, p: seq<real>)
    requires Invariant(s)
    ensures Invariant(StartExecution(s, p).0) && Invariant(RequestAbort(s)) && Invariant(ResetAbort(s))
    ensures !s.upload.active && !s.run.waiting && (s.run.aborted || s.run.state == PathExecuting) ==>
              Invariant(FinishExecution(s).0)
  {
  }

  lemma {:induction false} WaitKeeps(s: Movements, id: int, node: int)
    requires Invariant(s)
    ensures Invariant(SignalSegment(s, id, node).0)
    ensures s.run.state == PathExecuting ==> Invariant(ReportWait(s, node))
    ensures Invariant(ReportEvent(s, node))
  {
  }

  lemma {:induction false} DispatchKeeps(s: Movements, action: PathAction, p: seq<real>)
    requires Invariant(s)
    ensures Invariant(Dispatch(s, action, p).0)
  {
    match action
    case BeginPath => BeginKeeps(s, p);
    case SetPathFrame => TablesKeep(s, p);
    case SetPathCondition => TablesKeep(s, p);
    case PathNodeTarget => TargetKeeps(s, p);
    case PathNodeMotion => MotionKeeps(s, p);
    case PathNodeBlend => BlendKeeps(s, p);
    case PathNodeSync => SyncKeeps(s, p);
    case CommitPathNode => CommitsKeep(s, p);
    case CommitPath => CommitsKeep(s, p);
    case AbortPathUpload => CommitsKeep(s, p);
    case ExecutePath => MoveKeeps(s, p);
  }

  /** No command text whatever breaks the receiver invariant. */
  lemma {:induction false} CallServiceKeeps(s: Movements, command: string, other: int)
    requires Invariant(s)
    ensures Invariant(CallService(s, command, other).0)
  {
    var params, action := ParamsOf(command), Named(ActionOf(command));
    if params.Values? && action.Some? {
      DispatchKeeps(s, action.value, params.v);
    }
  }
}
