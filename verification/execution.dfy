/**
 * Executing an uploaded goal: what the controller's move visits and how many signals it takes, in the
 * goal's own terms, and how that compares with the simulator running the same goal.
 */
module Execution {
  import opened DecimalText
  import opened PdlText
  import opened PathActions
  import opened PathMessages
  import opened PathProtocol
  import opened RoundTrip
  import opened MovementsState
  import opened Upload
  import opened PathModel
  import opened Cutting
  import opened Controller
  import Simulator

  /** Native node i waits exactly if goal node i does. */
  lemma {:induction false} NativeWaits(s: Movements, path: Goal, node: int)
    requires s.Nodes() == ExpectedNodes(path, |path.nodes|)
    ensures WaitsAt(s, node) <==> NodeWaits(path, node)
  {
    ExpectedLength(path, |path.nodes|);
    if 1 <= node <= |path.nodes| {
      ExpectedAt(path, |path.nodes|, node - 1);
    }
  }

  lemma {:induction false} CountSnoc<T>(s: seq<T>, last: T, ends: T -> bool)
    ensures Count(s + [last], ends) == Count(s, ends) + (if ends(last) then 1 else 0)
  {
    if s == [] {
      assert s + [last] == [last];
      assert [last][1..] == [];
    } else {
      assert (s + [last])[1..] == s[1..] + [last];
      CountSnoc(s[1..], last, ends);
    }
  }

  lemma {:induction false} WaitsAreCounted(s: Movements, path: Goal, visited: seq<int>)
    requires s.Nodes() == ExpectedNodes(path, |path.nodes|)
    ensures Waits(s, visited) == Count(visited, WaitsIn(path))
  {
    if visited != [] {
      var n := |visited| - 1;
      WaitsAreCounted(s, path, visited[..n]);
      NativeWaits(s, path, visited[n]);
      CountSnoc(visited[..n], visited[n], WaitsIn(path));
      assert visited == visited[..n] + [visited[n]];
    }
  }

  /** The part of the controller's variables a move depends on. */
  predicate SamePath(s: Movements, t: Movements) {
    s.upload == t.upload && s.Nodes() == t.Nodes()
  }

  lemma {:induction false} MotionKeepsPath(c: Controller, e: Event)
    requires Safe(c) && Enabled(c, e) && c.task.Along?
    ensures SamePath(c.vars, Next(c, e).vars)
  {
    hide Invariant, Waits;
  }

  /** From its start to its end a move stays on the path it was started with. */
  lemma {:induction false} MoveKeepsItsPath(states: seq<Controller>, events: seq<Event>, i: nat, k: nat)
    requires IsRun(states, events) && i <= k < |states|
    requires forall j :: i <= j < k ==> states[j].task.Along?
    ensures SamePath(states[i].vars, states[k].vars)
  {
    if i < k {
      var j := k - 1;
      MoveKeepsItsPath(states, events, i, j);
      RunsAreSafe(states, events, j);
      assert StepsTo(states[j], events[j], states[j + 1]);
      MotionKeepsPath(states[j], events[j]);
    }
  }

  /** From a ready controller not aborted meanwhile, the bridge's executePath starts the move along the goal's path. */
  lemma {:induction false} ExecuteBeginsMove(c: Controller, path: Goal, maxNodes: nat, other: int)
    requires Safe(c) && c.task.Cleared? && !c.vars.run.aborted && Resolved(path, maxNodes) && ReadyWith(c.vars, path)
    requires AllFit(ExecuteCommand(path).values)
    ensures var next := Next(c, Serve(ExecuteCommand(path).Text(), other));
            next.task == Along([], false, false, 0) && SamePath(c.vars, next.vars)
  {
    hide Resolved, Named, ActionOf, ParamsOf, CommandText;
    assert ResetAbort(c.vars) == c.vars;
    ExecuteStarts(c.vars, path, maxNodes, other);
    ServedStates(c.vars, ExecuteCommand(path).Text(), other);
  }

  /**
   * A move started from a controller that holds the goal, and ending in DONE, has visited the goal's
   * execution range in order and used up one accepted signal for each of its wait nodes.
   */
  lemma {:induction false} GoalIsExecuted(states: seq<Controller>, events: seq<Event>, i: nat, k: nat, path: Goal)
    requires IsRun(states, events) && i < k < |events|
    requires ReadyWith(states[i].vars, path) && SamePath(states[i].vars, states[i + 1].vars)
    requires forall j :: i < j <= k ==> states[j].task.Along?
    requires events[k].Finish? && states[k + 1].vars.run.state == PathDone
    ensures states[k].task.visited == Range(path.startIndex, path.endIndex)
    ensures states[k].task.signals == Count(Range(path.startIndex, path.endIndex), WaitsIn(path))
  {
    MoveKeepsItsPath(states, events, i + 1, k);
    RunsAreSafe(states, events, k);
    assert StepsTo(states[k], events[k], states[k + 1]);
    DoneVisitedEverything(states[k]);
    WaitsAreCounted(states[k].vars, path, states[k].task.visited);
  }

  /**
   * Controller and simulator agree: a goal that each has executed to the end was visited alike, and the
   * controller used as many signals as the simulator, plus one if the last node waits.
   */
  lemma {:induction false} BackendsAgree(
    states: seq<Controller>, events: seq<Event>, i: nat, k: nat, goal: Goal,
    runs: seq<Simulator.Simulator>, steps: seq<Simulator.Event>, n: nat)
    requires IsRun(states, events) && i < k < |events|
    requires ReadyWith(states[i].vars, Validated(goal)) && SamePath(states[i].vars, states[i + 1].vars)
    requires forall j :: i < j <= k ==> states[j].task.Along?
    requires events[k].Finish? && states[k + 1].vars.run.state == PathDone
    requires ValidRange(goal) && Simulator.IsRun(goal, runs, steps) && n < |runs| && runs[n].phase.Done?
    ensures states[k].task.visited == runs[n].visited
    ensures states[k].task.signals == runs[n].accepted + (if NodeWaits(goal, goal.End()) then 1 else 0)
  {
    GoalIsExecuted(states, events, i, k, Validated(goal));
    Simulator.DoneVisitedRange(goal, runs, steps, n);
    SameCount(Range(goal.Start(), goal.End()), goal);
  }

  lemma {:induction false} SameCount(indexes: seq<int>, goal: Goal)
    ensures Count(indexes, WaitsIn(Validated(goal))) == Count(indexes, WaitsIn(goal))
  {
    if indexes != [] {
      SameCount(indexes[1..], goal);
    }
  }
}
