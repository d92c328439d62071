/**
 * The controller's MOVEMENT_STATE as it runs: the abort flag is cleared, the command called and, for
 * executePath, the native path moved along, while aborts, continue signals and condition events interrupt.
 */
module MovementsExecution {
  import opened Wrappers
  import opened PdlText
  import opened PathActions
  import opened PathMessages
  import opened PathProtocol
  import opened RoundTrip
  import opened MovementsState
  import opened MovementsProgram
  import opened Upload
  import opened PathModel
  import opened Cutting
  import opened Controller
  import opened Execution

  /**
   * What interruptions leave as it is: during a move, where it is and what it moves along; before the
   * command is called everything, unless they abort it.
   */
  predicate Interrupted(c: Controller, d: Controller) {
    if c.task.Along? then
      && SamePath(c.vars, d.vars) && d.task.Along? && d.task.visited == c.task.visited
      && (d.task.suspended ==> c.task.suspended)
    else d.task == c.task && (d.vars == c.vars || (d.vars.run.aborted && d.vars.run.state == PathAborted))
  }

  lemma {:induction false} InterruptionKeeps(c: Controller, e: Event)
    requires Safe(c) && Enabled(c, e) && (c.task.Along? || c.task.Cleared?)
    requires e.Abort? || e.Continue? || e.Report?
    ensures Interrupted(c, Next(c, e))
  {
    if c.task.Along? {
      MotionKeepsPath(c, e);
    }
    hide Waits;
  }

  /** executePath called on a program that holds the goal begins the move; on an aborted one it changes nothing. */
  lemma {:induction false} GoalIsCalled(s: Movements, called: Movements, path: Goal, maxNodes: nat, other: int)
    requires Resolved(path, maxNodes) && ReadyWith(s, path) && AllFit(ExecuteCommand(path).values)
    requires Invariant(s) && Invariant(called)
    requires called == ResetAbort(s) || (called.run.aborted && called.run.state == PathAborted)
    ensures var (t, reply) := CallService(called, ExecuteCommand(path).Text(), other);
            if reply.Returned? then t == called && called != ResetAbort(s) && reply.code != RESULT_OK
            else t.upload == s.upload && t.Nodes() == s.Nodes()
  {
    PrintedCommand(called, ExecuteCommand(path), other);
    if called == ResetAbort(s) {
      ExecuteStarts(s, path, maxNodes, other);
    }
    hide Invariant, Resolved, ReadyWith, AllFit, CallService;
  }

  /** The program and the native move; the ghost says how far the command being served has come. */
  class MovementService {
    const program: Program
    ghost var task: Task

    ghost function Now(): Controller
      reads this, program
    {
      Controller(program.Vars(), task)
    }

    ghost predicate Valid()
      reads this, program
    {
      Safe(Now())
    }

    constructor ()
      ensures Valid() && Now() == Controller(INITIAL, Idle) && fresh(program)
    {
      program := new Program();
      task := Idle;
      new;
      InitialIsSafe();
    }

    /** Records a step whose effect on the program has already taken place. */
    ghost method Did(before: Controller, e: Event)
      requires Safe(before) && Enabled(before, e) && Next(before, e).vars == program.Vars()
      modifies this
      ensures Now() == Next(before, e) && Valid()
    {
      NextIsSafe(before, e);
      task := Next(before, e).task;
    }

    /** The nodes moved so far, or none before the command is called. */
    ghost predicate At(moving: Option<seq<int>>)
      reads this, program
    {
      && Valid()
      && if moving.Some? then task.Along? && task.visited == moving.value else task.Cleared?
    }

    /** The node of a condition event: the last one visited, or the one the motion heads for. */
    method ReportedNode(visited: seq<int>, heading: bool) returns (node: Option<int>)
      requires At(Some(visited))
      ensures node.Some? ==> CanReport(Now(), node.value)
    {
      var first, last := program.upload.first, program.upload.last;
      if heading && program.run.state != PathWaiting && |visited| < RangeLength(first, last) {
        return Some(RangeNode(first, last, |visited|));
      }
      return if visited == [] then None else Some(visited[|visited| - 1]);
    }

    /** An abort, a continue signal or a condition event. */
    method Interrupt(moving: Option<seq<int>>)
      requires At(moving)
      modifies this, program
      ensures At(moving) && Interrupted(old(Now()), Now())
    {
      hide Invariant, Safe, CanReport;
      ghost var before := Now();
      var choice: int, pathId: int, node: int := *, *, *;
      if choice == 0 {
        program.RequestAbortRoutine();
        Did(before, Abort);
        InterruptionKeeps(before, Abort);
      } else if choice == 1 {
        var _ := program.SignalPathSegment(pathId, node);
        Did(before, Continue(pathId, node));
        InterruptionKeeps(before, Continue(pathId, node));
      } else if moving.Some? {
        var reported := ReportedNode(moving.value, choice == 2);
        if reported.Some? {
          program.ReportPathEvent(reported.value);
          Did(before, Report(reported.value, node));
          InterruptionKeeps(before, Report(reported.value, node));
        }
      }
    }

    /** Any number of them. */
    method Interrupts(moving: Option<seq<int>>)
      requires At(moving)
      modifies this, program
      ensures At(moving) && Interrupted(old(Now()), Now())
    {
      hide Invariant, Safe;
      var n: int := *;
      for i := 0 to if n < 0 then 0 else n
        invariant At(moving) && Interrupted(old(Now()), Now())
      {
        Interrupt(moving);
      }
    }

    /** The motion reaches its next node, and is suspended there if the node waits. */
    method VisitNode(visited: seq<int>) returns (now: seq<int>)
      requires At(Some(visited)) && Enabled(Now(), Visit)
      modifies this, program
      ensures At(Some(now)) && Now() == Next(old(Now()), Visit) && |now| == |visited| + 1
      ensures SamePath(old(program.Vars()), program.Vars())
    {
      hide Invariant, Safe;
      ghost var before := Now();
      MotionKeepsPath(before, Visit);
      var node := RangeNode(program.upload.first, program.upload.last, |visited|);
      if WaitsAt(Movements(program.cart, program.joint, program.upload, program.pending, program.run), node) {
        program.ReportPathWait(node);
      }
      Did(before, Visit);
      return visited + [node];
    }

    /** MOVE ALONG; `ended` unless it is suspended at a wait nothing has released. */
    method MoveAlong() returns (ended: bool, visited: seq<int>)
      requires At(Some([])) && !task.suspended
      modifies this, program
      ensures At(Some(visited)) && SamePath(old(program.Vars()), program.Vars())
      ensures if ended then Enabled(Now(), Finish) else task.suspended
    {
      hide Invariant;
      visited := [];
      while |visited| < RangeLength(program.upload.first, program.upload.last) && !program.run.aborted
        invariant At(Some(visited)) && !task.suspended && SamePath(old(program.Vars()), program.Vars())
        decreases RangeLength(program.upload.first, program.upload.last) - |visited|, !program.run.aborted
      {
        Interrupts(Some(visited));
        if !program.run.aborted {
          visited := VisitNode(visited);
          Interrupts(Some(visited));
          if program.run.state == PathWaiting {
            return false, visited;
          }
        }
      }
      return true, visited;
    }

    /** What a move that has been served leaves: at its end, or suspended at a wait. */
    ghost predicate Moved(code: Option<int>, visited: seq<int>, signals: nat)
      reads this, program
    {
      var s := program.Vars();
      var range := Range(s.upload.first, s.upload.last);
      && Valid() && visited <= range
      && match code
         case None =>
           && task.Along? && task.suspended && visited != [] && WaitsAt(s, visited[|visited| - 1])
           && s.run.state == PathWaiting && s.run.node == visited[|visited| - 1]
         case Some(c) =>
           && task.Idle?
           && if c == RESULT_OK then
                s.run.state == PathDone && visited == range && signals == Waits(s, range)
              else c == RESULT_ABORTED && s.run.state == PathAborted && s.run.aborted
    }

    /** The rest of execute_path, once its guards have passed. */
    method Move() returns (code: Option<int>, visited: seq<int>, ghost signals: nat)
      requires At(Some([])) && !task.suspended
      modifies this, program
      ensures Moved(code, visited, signals) && SamePath(old(program.Vars()), program.Vars())
    {
      hide Invariant;
      var ended;
      ended, visited := MoveAlong();
      signals := task.signals;
      if !ended {
        return None, visited, signals;
      }
      ghost var before := Now();
      var c := program.FinishExecutionRoutine();
      Did(before, Finish);
      if c == RESULT_OK {
        DoneVisitedEverything(before);
        WaitsUnchanged(before.vars, program.Vars(), visited);
      }
      return Some(c), visited, signals;
    }

    /**
     * MOVEMENT_STATE, for all but the two queries. `called` is the state in which the command was called: the
     * one before with the abort flag cleared, or an aborted one. A move that begins ends as Moved says.
     */
    method ServeCommand(command: string, other: int)
      returns (code: Option<int>, visited: seq<int>, ghost called: Movements, ghost signals: nat)
      requires Valid() && task.Idle?
      modifies this, program
      ensures Valid() && Invariant(called)
      ensures called == ResetAbort(old(program.Vars())) || (called.run.aborted && called.run.state == PathAborted)
      ensures var (s, reply) := CallService(called, command, other);
              match reply
              case Returned(c) => code == Some(c) && task.Idle? && program.Vars() == s && visited == []
              case Moving => Moved(code, visited, signals) && SamePath(s, program.Vars())
    {
      hide Invariant;
      visited, signals := [], 0;
      ghost var before := Now();
      program.ResetAbortRoutine();
      Did(before, Reset);
      Interrupts(None);
      before, called := Now(), program.Vars();
      var reply := program.CallServiceRoutine(command, other);
      Did(before, Serve(command, other));
      if reply.Returned? {
        return Some(reply.code), visited, called, signals;
      }
      code, visited, signals := Move();
    }

    /**
     * The bridge's executePath, served by a program that holds the goal: the move along the goal's range is
     * done, with one accepted signal per wait node of the goal, or was aborted, or waits at a wait node.
     */
    method ExecuteGoal(path: Goal, maxNodes: nat, other: int)
      returns (code: Option<int>, visited: seq<int>, ghost signals: nat)
      requires Valid() && task.Idle? && Resolved(path, maxNodes) && ReadyWith(program.Vars(), path)
      requires AllFit(ExecuteCommand(path).values)
      modifies this, program
      ensures Valid() && visited <= Range(path.startIndex, path.endIndex)
      ensures match code
              case None => task.Along? && visited != [] && NodeWaits(path, visited[|visited| - 1])
              case Some(c) =>
                && task.Idle?
                && if c == RESULT_OK then
                     && program.run.state == PathDone && visited == Range(path.startIndex, path.endIndex)
                     && signals == Count(visited, WaitsIn(path))
                   else program.run.state == PathAborted && program.run.aborted
    {
      hide Resolved, AllFit, CallService, Invariant;
      ghost var s := program.Vars();
      ghost var called;
      code, visited, called, signals := ServeCommand(ExecuteCommand(path).Text(), other);
      GoalIsCalled(s, called, path, maxNodes, other);
      if CallService(called, ExecuteCommand(path).Text(), other).1.Moving? {
        MovedAlongGoal(this, path, code, visited, signals);
      }
    }
  }

  /** A move along the goal's native path, in the goal's terms. */
  lemma {:induction false} MovedAlongGoal(
    m: MovementService, path: Goal, code: Option<int>, visited: seq<int>, signals: nat)
    requires m.Moved(code, visited, signals) && m.program.Vars().Nodes() == ExpectedNodes(path, |path.nodes|)
    requires m.program.Vars().upload.first == path.startIndex && m.program.Vars().upload.last == path.endIndex
    ensures visited <= Range(path.startIndex, path.endIndex)
    ensures code.None? ==> NodeWaits(path, visited[|visited| - 1])
    ensures code == Some(RESULT_OK) ==> signals == Count(visited, WaitsIn(path))
  {
    hide Invariant, Safe;
    WaitsAreCounted(m.program.Vars(), path, visited);
    if code.None? {
      NativeWaits(m.program.Vars(), path, visited[|visited| - 1]);
    }
  }
}
