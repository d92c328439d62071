/**
 * The controller's PATH behaviour over whole runs: commands served one at a time by
 * PDL2_ROS2_main_1, which clears the abort flag before it calls the service, MOVE ALONG split into node
 * visits, and aborts and continue signals that arrive at any moment over the control connection.
 */
module Controller {
  import opened Wrappers
  import opened PathMessages
  import opened PathActions
  import opened PdlText
  import opened MovementsState

  /**
   * Cleared is between reset_abort and call_service. Along is a MOVE ALONG in progress: the nodes visited
   * so far, and the signals it has consumed.
   */
  datatype Task =
    | Idle
    | Cleared
    | Along(visited: seq<int>, suspended: bool, cancelled: bool, signals: nat)

  datatype Controller = Controller(vars: Movements, task: Task)

  datatype Event =
    | Reset
    | Serve(command: string, other: int)
    | Abort
    | Continue(pathId: int, expectedNode: int)
    | Visit
    | Report(node: int, code: int)
    | Finish

  predicate WaitsAt(s: Movements, node: int) {
    && 1 <= node <= |s.Nodes()|
    && s.Nodes()[node - 1].sync.Some?
    && s.Nodes()[node - 1].sync.value.wait
  }

  function Waits(s: Movements, visited: seq<int>): nat {
    if visited == [] then 0
    else Waits(s, visited[..|visited| - 1]) + (if WaitsAt(s, visited[|visited| - 1]) then 1 else 0)
  }

  /** The node the motion is at: the last one visited. */
  function AtNode(c: Controller): int
    requires c.task.Along? && c.task.visited != []
  {
    c.task.visited[|c.task.visited| - 1]
  }

  /**
   * The condition handlers run at the start and end of a segment and at a via: they report the node last
   * visited or the one the motion is heading for. No segment starts while the motion is suspended.
   */
  predicate CanReport(c: Controller, node: int) {
    && c.task.Along?
    && ((c.task.visited != [] && node == AtNode(c)) ||
        (!c.task.suspended && |c.task.visited| < RangeLength(c.vars.upload.first, c.vars.upload.last) &&
         node == RangeNode(c.vars.upload.first, c.vars.upload.last, |c.task.visited|)))
  }

  predicate Enabled(c: Controller, e: Event) {
    match e
    case Reset => c.task.Idle?
    case Serve(_, _) => c.task.Cleared?
    case Abort => true
    case Continue(_, _) => true
    case Visit =>
      && c.task.Along? && !c.task.suspended && !c.task.cancelled
      && |c.task.visited| < RangeLength(c.vars.upload.first, c.vars.upload.last)
    case Report(node, _) => CanReport(c, node)
    case Finish =>
      && c.task.Along?
      && (c.task.cancelled ||
          (!c.task.suspended && |c.task.visited| == RangeLength(c.vars.upload.first, c.vars.upload.last)))
  }

  /** The main loop's call_service. */
  function Served(s: Movements, command: string, other: int): (Controller, Reply)
    requires Invariant(s)
  {
    var (vars, reply) := CallService(s, command, other);
    (Controller(vars, if reply.Moving? then Along([], false, false, 0) else Idle), reply)
  }

  function Next(c: Controller, e: Event): Controller
    requires Invariant(c.vars) && Enabled(c, e)
  {
    match e
    case Reset => Controller(ResetAbort(c.vars), Cleared)
    case Serve(command, other) => Served(c.vars, command, other).0
    case Abort =>
      Controller(RequestAbort(c.vars), if c.task.Along? then c.task.(suspended := false, cancelled := true) else c.task)
    case Continue(pathId, node) =>
      var (vars, accepted) := SignalSegment(c.vars, pathId, node);
      Controller(vars,
                 if accepted && c.task.Along? then c.task.(suspended := false, signals := c.task.signals + 1)
                 else c.task)
    case Visit =>
      var node := RangeNode(c.vars.upload.first, c.vars.upload.last, |c.task.visited|);
      if WaitsAt(c.vars, node) then
        Controller(ReportWait(c.vars, node), c.task.(visited := c.task.visited + [node], suspended := true))
      else Controller(c.vars, c.task.(visited := c.task.visited + [node]))
    case Report(node, _) => Controller(ReportEvent(c.vars, node), c.task)
    case Finish => Controller(FinishExecution(c.vars).0, Idle)
  }

  // What every run keeps.

  predicate VisitsInOrder(s: Movements, visited: seq<int>) {
    && |visited| <= RangeLength(s.upload.first, s.upload.last)
    && (forall i :: 0 <= i < |visited| ==> visited[i] == RangeNode(s.upload.first, s.upload.last, i))
  }

  predicate Executing(s: Movements, task: Task)
    requires task.Along?
  {
    && VisitsInOrder(s, task.visited)
    && !s.upload.active
    && (task.cancelled <==> s.run.aborted)
    && if task.cancelled then
         && s.run.state == PathAborted && !task.suspended
         && task.signals <= Waits(s, task.visited) <= task.signals + 1
       else
         && s.run.state == (if task.suspended then PathWaiting else PathExecuting)
         && task.signals + (if task.suspended then 1 else 0) == Waits(s, task.visited)
         && (task.suspended ==>
               task.visited != []
               && var last := task.visited[|task.visited| - 1]; s.run.node == last && WaitsAt(s, last))
  }

  /** Every finished or waiting state belongs to the move in progress. */
  predicate Safe(c: Controller) {
    && Invariant(c.vars)
    && (if c.task.Along? then Executing(c.vars, c.task) else c.vars.run.state !in {PathExecuting, PathWaiting})
    && (c.task.Cleared? && c.vars.run.aborted ==> c.vars.run.state == PathAborted)
  }

  lemma {:induction false} InitialIsSafe()
    ensures Safe(Controller(INITIAL, Idle))
  {
    InitialHolds();
  }

  /** How one dispatched action may change the path state. */
  predicate StateEffect(s: Movements, action: PathAction, t: Movements, reply: Reply) {
    if reply.Moving? then
      && action.ExecutePath? && s.run.state == PathReady && t == s.(run := t.run)
      && t.run == Run(PathExecuting, false, s.upload.first, false) && !s.run.aborted
    else
      || t.run.state == s.run.state
      || (t.run.state == PathUploading && action.BeginPath?)
      || (t.run.state == PathReady && s.run.state == PathUploading && action.CommitPath?)
      || (t.run.state == PathAborted && action.AbortPathUpload?)
  }

  lemma {:induction false} DispatchStates(s: Movements, action: PathAction, p: seq<real>)
    requires Invariant(s)
    ensures StateEffect(s, action, Dispatch(s, action, p).0, Dispatch(s, action, p).1)
  {
    match action
    case BeginPath =>
    case SetPathFrame =>
    case SetPathCondition =>
    case PathNodeTarget =>
    case PathNodeMotion =>
    case PathNodeBlend =>
    case PathNodeSync =>
    case CommitPathNode =>
    case CommitPath =>
    case AbortPathUpload =>
    case ExecutePath =>
  }

  /** The only commands that change the path state, and how. */
  lemma {:induction false} ServedStates(s: Movements, command: string, other: int)
    requires Invariant(s)
    ensures var (t, reply) := CallService(s, command, other);
            || (t == s && reply.Returned?)
            || (Named(ActionOf(command)).Some? && StateEffect(s, Named(ActionOf(command)).value, t, reply))
  {
    hide Dispatch, Named, ActionOf, ParamsOf, Invariant, StateEffect;
    var action, params := Named(ActionOf(command)), ParamsOf(command);
    if action.Some? && params.Values? {
      DispatchStates(s, action.value, params.v);
    }
  }

  lemma {:induction false} WaitsUnchanged(s: Movements, t: Movements, visited: seq<int>)
    requires s.Nodes() == t.Nodes()
    ensures Waits(s, visited) == Waits(t, visited)
  {
    if visited != [] {
      WaitsUnchanged(s, t, visited[..|visited| - 1]);
    }
  }

  lemma {:induction false} ServeIsSafe(c: Controller, command: string, other: int)
    requires Safe(c) && c.task.Cleared?
    ensures Safe(Next(c, Serve(command, other)))
  {
    CallServiceKeeps(c.vars, command, other);
    ServedStates(c.vars, command, other);
  }

  lemma {:induction false} VisitIsSafe(c: Controller)
    requires Safe(c) && Enabled(c, Visit)
    ensures Safe(Next(c, Visit))
  {
    var next := Next(c, Visit);
    var visited := next.task.visited;
    assert visited[..|visited| - 1] == c.task.visited;
    WaitKeeps(c.vars, 0, visited[|visited| - 1]);
    WaitsUnchanged(c.vars, next.vars, visited);
  }

  lemma {:induction false} InterruptIsSafe(c: Controller, e: Event)
    requires Safe(c) && Enabled(c, e) && (e.Abort? || e.Continue? || e.Report?)
    ensures Safe(Next(c, e))
  {
    MoveKeeps(c.vars, []);
    if e.Continue? {
      WaitKeeps(c.vars, e.pathId, e.expectedNode);
    } else if e.Report? {
      WaitKeeps(c.vars, 0, e.node);
    }
    if c.task.Along? {
      WaitsUnchanged(c.vars, Next(c, e).vars, c.task.visited);
    }
  }

  lemma {:induction false} NextIsSafe(c: Controller, e: Event)
    requires Safe(c) && Enabled(c, e)
    ensures Safe(Next(c, e))
  {
    match e
    case Reset => MoveKeeps(c.vars, []);
    case Serve(command, other) => ServeIsSafe(c, command, other);
    case Visit => VisitIsSafe(c);
    case Finish => MoveKeeps(c.vars, []);
    case Abort => InterruptIsSafe(c, e);
    case Continue(_, _) => InterruptIsSafe(c, e);
    case Report(_, _) => InterruptIsSafe(c, e);
  }

  /** A run: any interleaving of commands, aborts, signals and motion steps. */
  predicate IsRun(states: seq<Controller>, events: seq<Event>) {
    && |states| == |events| + 1
    && Safe(states[0])
    && (forall i :: 0 <= i < |events| ==> StepsTo(states[i], events[i], states[i + 1]))
  }

  predicate StepsTo(c: Controller, e: Event, d: Controller) {
    Invariant(c.vars) && Enabled(c, e) && d == Next(c, e)
  }

  lemma {:induction false} RunsAreSafe(states: seq<Controller>, events: seq<Event>, i: nat)
    requires IsRun(states, events) && i < |states|
    ensures Safe(states[i])
  {
    if i > 0 {
      var j := i - 1;
      RunsAreSafe(states, events, j);
      assert StepsTo(states[j], events[j], states[j + 1]);
      NextIsSafe(states[j], events[j]);
    }
  }

  /** In every reachable state a ready PATH is whole, and a pending node belongs to an active upload. */
  lemma {:induction false} ReadyIsComplete(states: seq<Controller>, events: seq<Event>, i: nat)
    requires IsRun(states, events) && i < |states|
    ensures var s := states[i].vars;
            && (s.pending.present ==> s.upload.active)
            && (s.run.state == PathReady ==>
                  && |s.Nodes()| == s.upload.committed == s.upload.expected
                  && forall k :: 0 <= k < |s.Nodes()| ==> Complete(s.Nodes()[k]))
  {
    RunsAreSafe(states, events, i);
  }

  // Waits and signals.

  /** In every run, a suspended move waits at the node it visited last, and path_current_node names it. */
  lemma {:induction false} WaitsAtItsNode(states: seq<Controller>, events: seq<Event>, i: nat)
    requires IsRun(states, events) && i < |states| && states[i].task.Along? && states[i].task.suspended
    ensures var c := states[i];
            && c.task.visited != [] && WaitsAt(c.vars, AtNode(c)) && c.vars.run.node == AtNode(c)
            && AtNode(c) == RangeNode(c.vars.upload.first, c.vars.upload.last, |c.task.visited| - 1)
  {
    RunsAreSafe(states, events, i);
  }

  /**
   * A suspended move goes on only through a signal accepted while it waits; a signal is accepted exactly
   * if it names the path and either no node or the one waited at.
   */
  lemma {:induction false} WaitNeedsSignal(c: Controller, e: Event)
    requires Safe(c) && Enabled(c, e) && c.task.Along? && c.task.suspended
    ensures var next := Next(c, e);
            next.task.Along? && (next.task.suspended || next.task.cancelled || e.Continue?)
    ensures e.Continue? ==>
              (!Next(c, e).task.suspended <==> e.pathId == c.vars.upload.id && e.expectedNode in {0, AtNode(c)})
  {
  }

  /** A signal that arrives when nothing waits is refused and leaves no trace. */
  lemma {:induction false} SignalsAreNotQueued(c: Controller, pathId: int, node: int)
    requires Safe(c) && !(c.task.Along? && c.task.suspended)
    ensures Next(c, Continue(pathId, node)) == c
  {
  }

  /** A move that ends in DONE has visited its whole range in order and consumed one signal per wait node. */
  lemma {:induction false} DoneVisitedEverything(c: Controller)
    requires Safe(c) && Enabled(c, Finish) && Next(c, Finish).vars.run.state == PathDone
    ensures c.task.visited == Range(c.vars.upload.first, c.vars.upload.last)
    ensures c.task.signals == Waits(c.vars, Range(c.vars.upload.first, c.vars.upload.last))
  {
  }

  // After an abort.

  predicate Began(c: Controller, e: Event) {
    e.Serve? && Named(ActionOf(e.command)) == Some(BeginPath)
  }

  predicate Committed(c: Controller, e: Event) {
    e.Serve? && Named(ActionOf(e.command)) == Some(CommitPath)
  }

  lemma {:induction false} StateChanges(c: Controller, e: Event)
    requires Safe(c) && Enabled(c, e)
    ensures var t := Next(c, e);
            && (t.vars.run.state == PathUploading ==> c.vars.run.state == PathUploading || Began(c, e))
            && (t.vars.run.state == PathReady ==>
                  c.vars.run.state == PathReady || (c.vars.run.state == PathUploading && Committed(c, e)))
            && (!c.task.Along? && t.task.Along? ==> c.vars.run.state == PathReady)
  {
    if e.Serve? {
      ServedStates(c.vars, e.command, e.other);
    }
  }

  /** From i to k the path state is UPLOADING, except that i itself is the announcement. */
  predicate UploadedDuring(states: seq<Controller>, events: seq<Event>, b: nat, k: nat)
    requires |states| == |events| + 1
  {
    b < k < |states| && Began(states[b], events[b]) &&
    forall j :: b < j <= k ==> states[j].vars.run.state == PathUploading
  }

  predicate CompleteUpload(states: seq<Controller>, events: seq<Event>, b: nat, m: nat)
    requires |states| == |events| + 1
  {
    m < |events| && UploadedDuring(states, events, b, m) && Committed(states[m], events[m])
  }

  lemma {:induction false} UploadHistory(states: seq<Controller>, events: seq<Event>, i: nat, k: nat)
    requires IsRun(states, events) && i <= k < |states|
    requires states[i].vars.run.state !in {PathUploading, PathReady}
    ensures states[k].vars.run.state == PathUploading ==>
              exists b: nat :: i <= b && UploadedDuring(states, events, b, k)
    ensures states[k].vars.run.state == PathReady ==>
              exists b: nat, m: nat :: i <= b && m < k && CompleteUpload(states, events, b, m)
  {
    if i < k {
      var j := k - 1;
      UploadHistory(states, events, i, j);
      RunsAreSafe(states, events, j);
      var c, e := states[j], events[j];
      assert StepsTo(c, e, states[j + 1]);
      StateChanges(c, e);
      if states[k].vars.run.state == PathUploading {
        if c.vars.run.state == PathUploading {
          var b: nat :| i <= b && UploadedDuring(states, events, b, k - 1);
          assert UploadedDuring(states, events, b, k);
        } else {
          assert UploadedDuring(states, events, k - 1, k);
        }
      } else if states[k].vars.run.state == PathReady && c.vars.run.state == PathUploading {
        var b: nat :| i <= b && UploadedDuring(states, events, b, k - 1);
        assert CompleteUpload(states, events, b, k - 1);
      }
    }
  }

  /**
   * After request_abort, an upload abort or a finished move, no move starts until some client has
   * announced a new PATH and carried it, uninterrupted, to commitPath.
   */
  lemma {:induction false} ExecutionNeedsNewUpload(states: seq<Controller>, events: seq<Event>, i: nat, k: nat)
    requires IsRun(states, events) && i <= k < |events|
    requires states[i].vars.run.state in {PathAborted, PathDone, PathEmpty}
    requires !states[k].task.Along? && states[k + 1].task.Along?
    ensures exists b: nat, m: nat :: i <= b && m < k && CompleteUpload(states, events, b, m)
  {
    RunsAreSafe(states, events, k);
    StateChanges(states[k], events[k]);
    UploadHistory(states, events, i, k);
  }

  /** An abort that arrives between the reset and the call wins: no move starts, and executePath is unavailable. */
  lemma {:induction false} AbortBeforeCall(c: Controller, command: string, other: int)
    requires Safe(c) && c.task.Cleared? && c.vars.run.aborted
    ensures Next(c, Serve(command, other)).task.Idle?
    ensures Named(ActionOf(command)) == Some(ExecutePath) ==>
              var reply := Served(c.vars, command, other).1;
              reply == Returned(RESULT_UNAVAILABLE) || reply == Returned(RESULT_PARSE_ERROR)
  {
    ServedStates(c.vars, command, other);
    NamedIsName(ActionOf(command));
  }
}
