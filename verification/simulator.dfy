/**
 * moveit_command_server.cpp's execute_path_goal, batch by batch, against signal_path and the cancel
 * handler on other threads. Planning and motion succeed or fail.
 */
module Simulator {
  import opened Wrappers
  import opened PathMessages
  import opened PathProtocol
  import opened PathModel
  import opened Cutting

  datatype Phase = Planning | Executing | Moved | Waiting | Done | Failed

  /** path_waiting_, path_continue_requested_, path_cancel_requested_, active_path_node_. */
  datatype Signals = Signals(waiting: bool, continueRequested: bool, cancelRequested: bool, node: int)

  /** `visited`: nodes moved to; `accepted`: signals accepted; `passed`: waits passed. */
  datatype Simulator = Simulator(
    goal: Goal, batch: nat, phase: Phase, signals: Signals, visited: seq<int>, accepted: nat, passed: nat)

  datatype Event =
    | Plan(ok: bool)
    | Execute(ok: bool)
    | AfterBatch
    | Resume
    | Signal(pathId: nat, expectedNode: int)
    | Cancel

  function Start(goal: Goal): Simulator {
    Simulator(goal, 0, Planning, Signals(false, false, false, 0), [], 0, 0)
  }

  function Current(s: Simulator): seq<int>
    requires s.batch < |Batches(s.goal)|
  {
    Batches(s.goal)[s.batch]
  }

  /** signal_path's check. */
  predicate AcceptsSignal(s: Signals, activeId: nat, pathId: nat, expectedNode: int) {
    pathId == activeId && s.waiting && (expectedNode == 0 || expectedNode == s.node)
  }

  predicate Accepts(s: Simulator, pathId: nat, expectedNode: int) {
    AcceptsSignal(s.signals, s.goal.pathId, pathId, expectedNode)
  }

  function SignalOf(s: Signals, activeId: nat, pathId: nat, expectedNode: int): (Signals, bool) {
    if AcceptsSignal(s, activeId, pathId, expectedNode) then (s.(waiting := false, continueRequested := true), true)
    else (s, false)
  }

  /** handle_path_cancel, which also wakes a waiting executor. */
  function CancelOf(s: Signals): Signals {
    s.(waiting := false, continueRequested := true, cancelRequested := true)
  }

  function WaitOf(s: Signals): Signals {
    s.(waiting := true, continueRequested := false)
  }

  predicate Woken(s: Signals) {
    s.continueRequested || s.cancelRequested
  }

  /** The end of a wait; false when it ends in a cancel. */
  function ResumeOf(s: Signals): (Signals, bool) {
    if s.cancelRequested then (s, false) else (s.(waiting := false, continueRequested := false), true)
  }

  /** However the goal ends. */
  function EndOf(s: Signals): Signals {
    s.(waiting := false)
  }

  predicate Enabled(s: Simulator, e: Event) {
    match e
    case Plan(_) => s.phase.Planning? && s.batch < |Batches(s.goal)| && Current(s) != []
    case Execute(_) => s.phase.Executing? && s.batch < |Batches(s.goal)| && Current(s) != []
    case AfterBatch => s.phase.Moved? && s.batch < |Batches(s.goal)| && Current(s) != []
    case Resume => s.phase.Waiting? && Woken(s.signals)
    case Signal(_, _) => true
    case Cancel => true
  }

  /** The wait flag of the batch's last node, unless it is the last batch. */
  predicate WaitHere(s: Simulator)
    requires s.batch < |Batches(s.goal)| && Current(s) != []
  {
    NodeWaits(s.goal, Current(s)[|Current(s)| - 1]) && s.batch + 1 < |Batches(s.goal)|
  }

  function Next(s: Simulator, e: Event): Simulator
    requires Enabled(s, e)
  {
    match e
    case Plan(ok) =>
      if s.signals.cancelRequested then s.(phase := Failed, signals := EndOf(s.signals))
      else if !ok then s.(phase := Failed, signals := EndOf(s.signals.(node := Current(s)[0])))
      else s.(phase := Executing, signals := s.signals.(node := Current(s)[0]))
    case Execute(ok) =>
      if !ok then s.(phase := Failed, signals := EndOf(s.signals))
      else
        s.(phase := Moved, visited := s.visited + Current(s),
          signals := s.signals.(node := Current(s)[|Current(s)| - 1]))
    case AfterBatch =>
      if WaitHere(s) then s.(phase := Waiting, signals := WaitOf(s.signals))
      else if s.batch + 1 < |Batches(s.goal)| then s.(phase := Planning, batch := s.batch + 1)
      else s.(phase := Done, signals := EndOf(s.signals))
    case Resume =>
      var (signals, passes) := ResumeOf(s.signals);
      if passes then s.(phase := Planning, batch := s.batch + 1, passed := s.passed + 1, signals := signals)
      else s.(phase := Failed, signals := EndOf(signals))
    case Signal(pathId, node) =>
      var (signals, accepted) := SignalOf(s.signals, s.goal.pathId, pathId, node);
      s.(accepted := s.accepted + (if accepted then 1 else 0), signals := signals)
    case Cancel => s.(signals := CancelOf(s.signals))
  }

  /** Visited batches, passed waits and accepted signals agree with the batch index. */
  predicate Safe(s: Simulator) {
    var n := |Batches(s.goal)|;
    && ValidRange(s.goal)
    && s.batch < n
    && (s.signals.waiting ==> s.phase.Waiting? && !s.signals.continueRequested)
    && match s.phase
       case Planning => s.visited == Flatten(Batches(s.goal)[..s.batch]) && s.passed == s.batch == s.accepted
         && !s.signals.waiting
       case Executing => s.visited == Flatten(Batches(s.goal)[..s.batch]) && s.passed == s.batch == s.accepted
         && !s.signals.waiting
       case Moved =>
         && Current(s) != [] && s.signals.node == Current(s)[|Current(s)| - 1]
         && s.visited == Flatten(Batches(s.goal)[..s.batch + 1]) && s.passed == s.batch == s.accepted
            && !s.signals.waiting
       case Waiting =>
         && s.batch + 1 < n
         && s.visited == Flatten(Batches(s.goal)[..s.batch + 1]) && s.passed == s.batch
         && s.passed <= s.accepted <= s.passed + 1
         && (s.signals.waiting <==> !s.signals.continueRequested)
         && (s.signals.waiting ==> s.accepted == s.passed)
         && (s.signals.continueRequested && !s.signals.cancelRequested ==> s.accepted == s.passed + 1)
         && Current(s) != [] && s.signals.node == Current(s)[|Current(s)| - 1]
       case Done => s.batch == n - 1 && s.visited == Flatten(Batches(s.goal)) && s.passed == s.accepted == n - 1
       case Failed => s.accepted <= s.passed + 1
  }

  lemma {:induction false} StartIsSafe(goal: Goal)
    requires ValidRange(goal)
    ensures Safe(Start(goal))
  {
    BatchesAreExact(goal);
    assert Batches(goal)[..0] == [];
  }

  lemma {:induction false} VisitedGrows(batches: seq<seq<int>>, b: nat)
    requires b < |batches|
    ensures Flatten(batches[..b + 1]) == Flatten(batches[..b]) + batches[b]
  {
    FlattenLast(batches[..b + 1]);
    assert batches[..b + 1][..b] == batches[..b];
  }

  /** Every batch but the last ends in a wait, so the executor always waits between two batches. */
  lemma {:induction false} WaitsBetween(s: Simulator)
    requires ValidRange(s.goal) && s.batch < |Batches(s.goal)|
    ensures Current(s) != [] && (WaitHere(s) <==> s.batch + 1 < |Batches(s.goal)|)
  {
    BatchesAreExact(s.goal);
    var batches, last := Batches(s.goal), Current(s)[|Current(s)| - 1];
    assert s.batch < |batches| - 1 ==> WaitsIn(s.goal)(last);
  }

  lemma {:induction false} NextIsSafe(s: Simulator, e: Event)
    requires Safe(s) && Enabled(s, e)
    ensures Safe(Next(s, e))
  {
    hide Batches, Flatten, NodeWaits, ValidRange;
    if e.Signal? || e.Cancel? {
      InterruptIsSafe(s, e);
    } else {
      WaitsBetween(s);
      VisitedGrows(Batches(s.goal), s.batch);
      assert Batches(s.goal)[..|Batches(s.goal)|] == Batches(s.goal);
    }
  }

  lemma {:induction false} InterruptIsSafe(s: Simulator, e: Event)
    requires Safe(s) && (e.Signal? || e.Cancel?)
    ensures Safe(Next(s, e))
  {
    hide Batches, Flatten, NodeWaits, ValidRange;
  }

  predicate StepsTo(s: Simulator, e: Event, next: Simulator) {
    Enabled(s, e) && next == Next(s, e)
  }

  predicate IsRun(goal: Goal, states: seq<Simulator>, events: seq<Event>) {
    && |states| == |events| + 1
    && states[0] == Start(goal)
    && (forall i :: 0 <= i < |events| ==> StepsTo(states[i], events[i], states[i + 1]))
  }

  lemma {:induction false} RunsAreSafe(goal: Goal, states: seq<Simulator>, events: seq<Event>, i: nat)
    requires ValidRange(goal) && IsRun(goal, states, events) && i < |states|
    ensures Safe(states[i]) && states[i].goal == goal
  {
    if i == 0 {
      StartIsSafe(goal);
    } else {
      var j := i - 1;
      RunsAreSafe(goal, states, events, j);
      assert StepsTo(states[j], events[j], states[j + 1]);
      NextIsSafe(states[j], events[j]);
    }
  }

  /**
   * A simulated PATH that succeeds has visited its execution range in order, reports as many nodes as
   * the bridge does, and has used up one accepted signal for each wait before the last node.
   */
  lemma {:induction false} DoneVisitedRange(goal: Goal, states: seq<Simulator>, events: seq<Event>, i: nat)
    requires ValidRange(goal) && IsRun(goal, states, events) && i < |states| && states[i].phase.Done?
    ensures states[i].visited == Range(goal.Start(), goal.End())
    ensures |states[i].visited| ==
            (if goal.End() >= goal.Start() then goal.End() - goal.Start() else goal.Start() - goal.End()) + 1
    ensures states[i].accepted == states[i].passed ==
            Count(Range(goal.Start(), goal.End()), WaitsIn(goal)) - (if NodeWaits(goal, goal.End()) then 1 else 0)
  {
    RunsAreSafe(goal, states, events, i);
    BatchesAreExact(goal);
    SimulatedWaits(goal);
  }

  /** A signal is accepted only while the PATH waits at the node the signal names, and only one per wait. */
  lemma {:induction false} SignalsDoNotLeak(goal: Goal, states: seq<Simulator>, events: seq<Event>, i: nat)
    requires ValidRange(goal) && IsRun(goal, states, events) && i < |states|
    ensures var s := states[i];
            && s.accepted <= s.passed + 1
            && (s.accepted > s.passed ==> s.phase.Waiting? || s.phase.Failed?)
            && (forall pathId: nat, node :: Accepts(s, pathId, node) ==>
                  && s.phase.Waiting? && s.accepted == s.passed
                  && s.batch < |Batches(goal)| && s.goal == goal && Current(s) != []
                  && node in {0, Current(s)[|Current(s)| - 1]})
  {
    RunsAreSafe(goal, states, events, i);
  }

  // The executor and the callbacks as they run.

  /** The state after the events, if each of them was possible. */
  function Play(goal: Goal, events: seq<Event>): Option<Simulator> {
    if events == [] then Some(Start(goal))
    else
      var before := Play(goal, events[..|events| - 1]);
      var e := events[|events| - 1];
      if before.Some? && Enabled(before.value, e) then Some(Next(before.value, e)) else None
  }

  /** What has been played is a run. */
  lemma {:induction false} PlayIsRun(goal: Goal, events: seq<Event>) returns (states: seq<Simulator>)
    requires Play(goal, events).Some?
    ensures IsRun(goal, states, events) && states[|events|] == Play(goal, events).value
  {
    hide Next, Enabled;
    if events == [] {
      states := [Start(goal)];
    } else {
      var n := |events| - 1;
      var before := PlayIsRun(goal, events[..n]);
      states := before + [Play(goal, events).value];
      forall i | 0 <= i < |events|
        ensures StepsTo(states[i], events[i], states[i + 1])
      {
        assert i < n ==> StepsTo(before[i], events[..n][i], before[i + 1]);
      }
    }
  }

  lemma {:induction false} PlayedIsSafe(goal: Goal, events: seq<Event>)
    requires ValidRange(goal) && Play(goal, events).Some?
    ensures Safe(Play(goal, events).value) && Play(goal, events).value.goal == goal
  {
    var states := PlayIsRun(goal, events);
    RunsAreSafe(goal, states, events, |events|);
  }

  lemma {:induction false} PlaySnoc(goal: Goal, events: seq<Event>, e: Event)
    requires Play(goal, events).Some? && Enabled(Play(goal, events).value, e)
    ensures Play(goal, events + [e]) == Some(Next(Play(goal, events).value, e))
  {
    assert (events + [e])[..|events|] == events;
  }

  /** How a goal ends; the last is a PATH that still waits when nothing more happens. */
  datatype Outcome = Refused | Succeeded | Failure | StillWaiting

  /** How one batch ends: with the next one, the whole PATH, a failure or a cancel, or a wait. */
  datatype Left = Onward | Ended | Canceled | Suspended

  /** The shared PATH fields; the ghosts say what has happened in the goal's terms. */
  class PathServer {
    var activeId: nat
    var waiting: bool
    var continueRequested: bool
    var cancelRequested: bool
    var node: int
    ghost var goal: Goal
    ghost var events: seq<Event>

    ghost function View(): Signals
      reads this
    {
      Signals(waiting, continueRequested, cancelRequested, node)
    }

    /** The state of the simulator this is. */
    ghost function Now(): Simulator
      reads this
      requires Play(goal, events).Some?
    {
      Play(goal, events).value
    }

    /** The fields are those of a run of the goal. */
    ghost predicate Tracks(g: Goal)
      reads this
    {
      && g == goal && activeId == g.pathId && ValidRange(g)
      && Play(g, events).Some? && View() == Now().signals
      && Safe(Now()) && Now().goal == g
    }

    /** Records a step whose effect on the fields has already taken place. */
    ghost method Did(e: Event)
      requires goal.pathId == activeId && ValidRange(goal) && Play(goal, events).Some?
      requires Enabled(Now(), e) && View() == Next(Now(), e).signals
      modifies `events
      ensures Tracks(goal) && Now() == Next(old(Now()), e)
    {
      PlaySnoc(goal, events, e);
      events := events + [e];
      PlayedIsSafe(goal, events);
    }

    method BeginPath(g: Goal)
      requires ValidRange(g)
      modifies this
      ensures Tracks(g) && Now() == Start(g)
    {
      activeId, node := g.pathId, 0;
      waiting, continueRequested, cancelRequested := false, false, false;
      goal, events := g, [];
      PlayedIsSafe(g, []);
    }

    method SignalPath(pathId: nat, expectedNode: int) returns (accepted: bool)
      requires Tracks(goal)
      modifies `waiting, `continueRequested, `events
      ensures Tracks(goal) && Now() == Next(old(Now()), Signal(pathId, expectedNode))
      ensures accepted == Accepts(old(Now()), pathId, expectedNode)
    {
      accepted := pathId == activeId && waiting && (expectedNode == 0 || expectedNode == node);
      if accepted {
        continueRequested, waiting := true, false;
      }
      Did(Signal(pathId, expectedNode));
    }

    method HandleCancel()
      requires Tracks(goal)
      modifies `waiting, `continueRequested, `cancelRequested, `events
      ensures Tracks(goal) && Now() == Next(old(Now()), Cancel)
    {
      cancelRequested, continueRequested, waiting := true, true, false;
      Did(Cancel);
    }

    /** A signal or a cancel from another thread. */
    method OtherThread()
      requires Tracks(goal)
      modifies `waiting, `continueRequested, `cancelRequested, `events
      ensures Tracks(goal) && SameProgress(old(Now()), Now())
    {
      hide Play, Safe;
      var signal: bool, pathId: int, expectedNode: int := *, *, *;
      if signal {
        var _ := SignalPath(if pathId < 0 then 0 else pathId, expectedNode);
      } else {
        HandleCancel();
      }
    }

    /** Any number of them. */
    method OtherThreads()
      requires Tracks(goal)
      modifies `waiting, `continueRequested, `cancelRequested, `events
      ensures Tracks(goal) && SameProgress(old(Now()), Now())
    {
      hide Play, Safe, Next;
      var n: int := *;
      for i := 0 to if n < 0 then 0 else n
        invariant Tracks(goal) && SameProgress(old(Now()), Now())
      {
        OtherThread();
      }
    }

    /** Up to the planned request: the cancel check, the current node, and planning, which may fail. */
    method PlanBatch(batch: seq<int>) returns (ok: bool)
      requires Tracks(goal) && Now().phase.Planning? && Now().batch < |Batches(goal)| && batch == Current(Now()) != []
      modifies `waiting, `node, `events
      ensures Tracks(goal) && Now() == Next(old(Now()), Plan(ok))
      ensures ok ==> Now().phase.Executing?
      ensures !ok ==> Now().phase.Failed?
    {
      hide Play, Safe;
      if cancelRequested {
        waiting := false;
        Did(Plan(false));
        return false;
      }
      node := batch[0];
      ok := *;
      if !ok {
        waiting := false;
      }
      Did(Plan(ok));
    }

    method MoveBatch(batch: seq<int>) returns (ok: bool)
      requires Tracks(goal) && Now().phase.Executing? && Now().batch < |Batches(goal)| && batch == Current(Now()) != []
      modifies `waiting, `node, `events
      ensures Tracks(goal) && Now() == Next(old(Now()), Execute(ok))
    {
      hide Play, Safe;
      ok := *;
      if ok {
        node := batch[|batch| - 1];
      } else {
        waiting := false;
      }
      Did(Execute(ok));
    }

    /** The wait at the end of a batch. None: nothing has woken it. */
    method AwaitSignal() returns (passes: Option<bool>)
      requires Tracks(goal) && Enabled(Now(), AfterBatch) && WaitHere(Now())
      modifies `waiting, `continueRequested, `cancelRequested, `events
      ensures Tracks(goal)
      ensures Now().goal == old(Now()).goal && Now().visited == old(Now()).visited
      ensures passes == Some(true) ==> Now().phase.Planning? && Now().batch == old(Now()).batch + 1
      ensures passes == Some(false) ==> Now().phase.Failed? && !waiting
      ensures passes == None ==> Now().phase.Waiting? && !Woken(View())
    {
      hide Play, Safe;
      waiting, continueRequested := true, false;
      Did(AfterBatch);
      OtherThreads();
      if !continueRequested && !cancelRequested {
        return None;
      }
      if cancelRequested {
        waiting := false;
        Did(Resume);
        return Some(false);
      }
      waiting, continueRequested := false, false;
      Did(Resume);
      return Some(true);
    }

    /** After a moved batch: the wait at its end, the next batch, or the end of the PATH. */
    method LeaveBatch(g: Goal, batch: seq<int>, last: bool) returns (r: Left)
      requires Tracks(g) && Enabled(Now(), AfterBatch) && batch == Current(Now())
      requires last <==> Now().batch + 1 == |Batches(g)|
      modifies `waiting, `continueRequested, `cancelRequested, `events
      ensures Tracks(g) && Now().visited == old(Now()).visited
      ensures match r
              case Onward => !last && Now().phase.Planning? && Now().batch == old(Now()).batch + 1
              case Ended => last && Now().phase.Done?
              case Canceled => Now().phase.Failed? && !waiting
              case Suspended => Now().phase.Waiting? && !Woken(View())
    {
      hide Play, Safe;
      OtherThreads();
      BatchIndexes(g, Now().batch);
      if g.nodes[batch[|batch| - 1] - 1].wait && !last {
        var passes := AwaitSignal();
        if passes.None? {
          return Suspended;
        }
        return if passes.value then Onward else Canceled;
      }
      if last {
        waiting := false;
      }
      Did(AfterBatch);
      return if last then Ended else Onward;
    }

    /** One pass of the loop over the batches; `moved` is the number of nodes it moved. */
    method RunBatch(g: Goal, batch: seq<int>, last: bool) returns (r: Left, moved: nat)
      requires Tracks(g) && Now().phase.Planning? && Now().batch < |Batches(g)| && batch == Current(Now()) != []
      requires last <==> Now().batch + 1 == |Batches(g)|
      modifies `waiting, `continueRequested, `cancelRequested, `node, `events
      ensures Tracks(g) && |Now().visited| == |old(Now()).visited| + moved
      ensures match r
              case Onward => !last && Now().phase.Planning? && Now().batch == old(Now()).batch + 1
              case Ended => last && Now().phase.Done?
              case Canceled => Now().phase.Failed? && !waiting
              case Suspended => Now().phase.Waiting? && !Woken(View())
    {
      hide Play, Safe;
      OtherThreads();
      var planned := PlanBatch(batch);
      if !planned {
        return Canceled, 0;
      }
      OtherThreads();
      var done := MoveBatch(batch);
      if !done {
        return Canceled, 0;
      }
      moved := |batch|;
      r := LeaveBatch(g, batch, last);
    }

    /**
     * execute_path_goal. A PATH reported as succeeded has executed as many nodes as it reports, those of the
     * goal's range in order, with one accepted signal for every wait before the last node; a failed one
     * reports the nodes of the batches it moved.
     */
    method ExecutePathGoal(g: Goal, maxNodes: nat) returns (outcome: Outcome, executed: nat)
      requires WellSized(g)
      modifies this
      ensures outcome.Refused? <==> !Runnable(g, maxNodes)
      ensures !outcome.Refused? ==> Tracks(g) && executed == |Now().visited|
      ensures outcome.Failure? ==> Now().phase.Failed? && !waiting
      ensures outcome.StillWaiting? ==> Now().phase.Waiting? && !Woken(View())
      ensures outcome.Succeeded? ==>
                && Now().visited == Range(g.Start(), g.End())
                && executed == RangeLength(g.Start(), g.End())
                && Now().accepted == Count(Now().visited, WaitsIn(g)) - (if NodeWaits(g, g.End()) then 1 else 0)
    {
      var valid := PathModel.ValidatePathGoal(g, maxNodes);
      if !valid {
        return Refused, 0;
      }
      BeginPath(g);
      hide Play, Safe, Runnable, Next, Enabled;
      var batches := PartitionPathAtWaits(g);
      BatchesAreExact(g);
      executed := 0;
      var b := 0;
      while true
        invariant b < |batches| && Tracks(g)
        invariant Now().phase.Planning? && Now().batch == b && executed == |Now().visited|
        decreases |batches| - b
      {
        var r, moved := RunBatch(g, batches[b], b + 1 == |batches|);
        executed := executed + moved;
        match r {
          case Onward => b := b + 1;
          case Ended =>
            PlayedVisits(g, events);
            return Succeeded, executed;
          case Canceled => return Failure, executed;
          case Suspended => return StillWaiting, executed;
        }
      }
    }
  }

  /** What a finished play has visited. */
  lemma {:induction false} PlayedVisits(goal: Goal, events: seq<Event>)
    requires ValidRange(goal) && Play(goal, events).Some? && Play(goal, events).value.phase.Done?
    ensures var s := Play(goal, events).value;
            && s.visited == Range(goal.Start(), goal.End())
            && s.accepted == Count(s.visited, WaitsIn(goal)) - (if NodeWaits(goal, goal.End()) then 1 else 0)
  {
    var states := PlayIsRun(goal, events);
    DoneVisitedRange(goal, states, events, |events|);
  }

  /** Nothing but signals has come in between. */
  predicate SameProgress(s: Simulator, t: Simulator) {
    s.goal == t.goal && s.batch == t.batch && s.phase == t.phase && s.visited == t.visited && s.passed == t.passed &&
    s.signals.node == t.signals.node
  }
}
