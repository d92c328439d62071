/**
 * The sync node as it runs: timer ticks, messages, enable calls and service replies in any order, each
 * handled by the node's own method, with the passive solver on the other end of its service.
 */
module GazeboSession {
  import opened Wrappers
  import opened GazeboSync

  class Session {
    const node: C4GGazeboSync
    var clock: real
    var solver: Solver
    ghost var log: seq<Milestone>

    ghost function Now(): System
      reads this, node
    {
      System(node.config, node.View(), clock, log, solver)
    }

    ghost predicate Valid()
      reads this, node
    {
      Safe(Now())
    }

    constructor (config: Config, enabled: bool, now: real)
      requires ValidConfig(config)
      ensures Valid() && IsInitial(Now()) && node.config == config && fresh(node)
    {
      node := new C4GGazeboSync(config, enabled, now);
      clock, solver, log := now, Solver(false, 0), [];
    }

    /** Records a step whose effect on node, clock and solver has already taken place. */
    ghost method Did(before: System, e: Event)
      requires Safe(before) && Enabled(before, e) && before.config == node.config
      requires Next(before, e).(log := log) == Now()
      modifies `log
      ensures Valid() && Now() == Next(before, e)
    {
      NextIsSafe(before, e);
      log := Next(before, e).log;
    }

    /** The solver handles the oldest request it has been sent. */
    method SolverAnswers(success: Option<bool>)
      requires Outstanding(Now()) != []
      modifies `solver, node`teleport
      ensures Now() == Handled(old(Now()), success)
    {
      var sent := node.teleport.sent;
      var enable := sent[solver.handled];
      if solver.handled + 1 == |sent| && node.teleport.solver == Some(Pending) {
        node.teleport := node.teleport.(solver := Some(Answered(success)));
      }
      solver := Solver(if success == Some(true) then !enable else solver.paused, solver.handled + 1);
    }

    /** One event that can happen now. */
    method Handle(e: Event)
      requires Valid() && Enabled(Now(), e)
      modifies this, node
      ensures Valid() && Now() == Next(old(Now()), e)
    {
      ghost var before := Now();
      SafeIsConfigured(before);
      hide Safe, TickOf, EnableOf;
      match e {
        case Timer(t) => node.TimerCallback(t);
        case Enable => node.EnableSync(clock);
        case C4g(positions) => node.feedback := node.feedback.(c4g := Some(positions), c4gTime := clock);
        case GazeboState(gazebo) => node.feedback := node.feedback.(gazebo := Some(gazebo));
        case SolverReplies(success) => SolverAnswers(success);
        case ResetReplies(success) => node.teleport := node.teleport.(reset := Some(Answered(success)));
        case Elapse(seconds) => clock := clock + seconds;
      }
      Did(before, e);
    }

    /** Whether the event can happen now: a tick shows the clock, and a reply answers a request. */
    method CanHappen(e: Event) returns (ok: bool)
      requires Valid()
      ensures ok <==> Enabled(Now(), e)
    {
      hide Safe;
      match e {
        case Timer(t) => return t.now == clock;
        case SolverReplies(_) => return solver.handled < |node.teleport.sent|;
        case ResetReplies(_) => return node.teleport.reset == Some(Pending);
        case Elapse(seconds) => return seconds >= 0.0;
        case _ => return true;
      }
    }

    /**
     * From the start, whatever happens in whatever order: what the node has gone through is a run. If it is
     * in the live mirror, a whole handover lies behind it and the solver runs; if its last step left it in
     * an error, the solver is left paused exactly in the cases of LeavesPaused.
     */
    method Drive(events: seq<Event>) returns (ghost states: seq<System>, ghost happened: seq<Event>)
      requires Valid() && IsInitial(Now())
      modifies this, node
      ensures Valid() && IsRun(states, happened) && states[|happened|] == Now()
      ensures node.state.LiveSync? ==>
                && HandedOver(node.config, log, node.teleport.target)
                && !node.teleport.solverPaused && !solver.paused
      ensures node.state.Error? && happened != [] ==>
                var n := |happened| - 1;
                StaysPaused(Now()) <==> LeavesPaused(states[n], happened[n])
    {
      states, happened := [Now()], [];
      hide IsInitial, Safe, Next, Enabled, StepsTo;
      for i := 0 to |events|
        invariant Valid() && IsRun(states, happened) && states[|happened|] == Now()
      {
        var possible := CanHappen(events[i]);
        if possible {
          ghost var before := Now();
          Handle(events[i]);
          RunGrows(states, happened, before, events[i], Now());
          states, happened := states + [Now()], happened + [events[i]];
        }
      }
      hide HandedOver, StaysPaused, LeavesPaused;
      if node.state.LiveSync? {
        LiveIsHandedOver(states, happened, |happened|);
      }
      if node.state.Error? && happened != [] {
        ErrorLeavesPaused(states, happened, |happened| - 1);
      }
    }
  }

  lemma {:induction false} SafeIsConfigured(s: System)
    requires Safe(s)
    ensures ValidConfig(s.config)
  {
  }

  lemma {:induction false} RunGrows(states: seq<System>, events: seq<Event>, s: System, e: Event, next: System)
    requires IsRun(states, events) && states[|events|] == s && Safe(s) && Enabled(s, e) && next == Next(s, e)
    ensures IsRun(states + [next], events + [e])
  {
    SafeIsConfigured(s);
    var now, all := states + [next], events + [e];
    hide IsInitial, Safe;
    forall i | 0 <= i < |all|
      ensures StepsTo(now[i], all[i], now[i + 1])
    {
      assert i < |events| ==> StepsTo(states[i], events[i], states[i + 1]);
    }
  }
}
