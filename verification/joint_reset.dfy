/**
 * joint_reset_system.cpp: a service thread that asks for a joint reset and waits, against the
 * simulation thread's PreUpdate that pauses the world, applies the reset, unpauses it and verifies.
 */
module JointReset {
  import opened Wrappers
  import opened Reals

  datatype Phase = Idle | RequestPause | WaitPaused | WaitUnpaused

  datatype Request = Request(names: seq<string>, positions: seq<real>, pauseWorld: bool)

  /** What the simulator reports of a joint. */
  datatype Reading = Reading(position: real, velocity: real)

  type Joints = map<string, Option<Reading>>

  /** Controllers the reset stops, tolerance, settle time and verification limit, in seconds. */
  datatype Config = Config(controllers: seq<string>, tolerance: real, settle: real, verify: real)

  /** The fields under mutex_. `paused` is the last pause event emitted. */
  datatype Reset = Reset(
    phase: Phase, request: Request, completed: bool, success: bool, applied: bool, startTime: Option<real>,
    paused: bool)

  /** ApplyReset finds every joint. */
  predicate AllKnown(r: Request, joints: Joints) {
    forall i :: 0 <= i < |r.names| ==> r.names[i] in joints
  }

  /** ResetMatches: every joint reports the requested position and no velocity, within the tolerance. */
  predicate Matches(c: Config, r: Request, joints: Joints)
    requires |r.names| == |r.positions|
  {
    forall i :: 0 <= i < |r.names| ==>
      && r.names[i] in joints && joints[r.names[i]].Some?
      && Magnitude(joints[r.names[i]].value.position - r.positions[i]) <= c.tolerance
      && Magnitude(joints[r.names[i]].value.velocity) <= c.tolerance
  }

  predicate ValidRequest(r: Request) {
    r.names != [] && |r.names| == |r.positions|
  }

  /** The locked section that hands the request to the simulation thread. */
  function ArmOf(s: Reset, r: Request): (Reset, bool) {
    if !s.phase.Idle? then (s, false) else (Reset(RequestPause, r, false, false, false, None, s.paused), true)
  }

  function CompleteOf(s: Reset, success: bool): Reset {
    s.(completed := true, success := success, phase := Idle)
  }

  /** The service thread gives up waiting. */
  function TimeOutOf(s: Reset): Reset {
    s.(phase := Idle, success := false, paused := s.paused && !s.request.pauseWorld)
  }

  function PreUpdateOf(c: Config, s: Reset, paused: bool, time: real, joints: Joints): Reset
    requires |s.request.names| == |s.request.positions|
  {
    match s.phase
    case Idle => s
    case RequestPause =>
      if s.request.pauseWorld then s.(paused := true, phase := WaitPaused)
      else s.(applied := AllKnown(s.request, joints), startTime := Some(time), phase := WaitUnpaused)
    case WaitPaused =>
      if !paused then s
      else s.(applied := AllKnown(s.request, joints), paused := false, phase := WaitUnpaused)
    case WaitUnpaused =>
      if s.request.pauseWorld && paused then s
      else if !s.applied then CompleteOf(s, false)
      else
        var start := if s.startTime.Some? then s.startTime.value else time;
        var started := s.(startTime := Some(start));
        if time - start < c.settle then started
        else if Matches(c, s.request, joints) then CompleteOf(started, true)
        else if time - start >= c.verify then CompleteOf(started, false)
        else started
  }

  // Both threads.

  /** The service thread; only one request is served at a time. */
  datatype Service =
    | NoRequest
    | Listing(request: Request)
    | Deactivating(request: Request, restore: seq<string>)
    | Arming(request: Request, restore: seq<string>)
    | Waiting(request: Request, restore: seq<string>)
    | Restoring(request: Request, restore: seq<string>, success: bool)

  /**
   * Controllers active before the request, whether a switch of an earlier request has taken effect during
   * it, and how its joints looked when it was declared done.
   */
  datatype History = History(before: set<string>, disturbed: bool, done: Option<Done>)

  /** A switch the controller manager was asked for: the controllers, and whether to activate them. */
  datatype Switch = Switch(names: set<string>, on: bool)

  function Switched(active: set<string>, w: Switch): set<string> {
    if w.on then active + w.names else active - w.names
  }

  datatype Done = Done(applied: bool, settled: real, joints: Joints)

  /** `late` are the switches given up on that have not taken effect, and may yet. */
  datatype System = System(
    config: Config, reset: Reset, service: Service, active: set<string>, late: seq<Switch>, response: Option<bool>,
    history: History)

  datatype Event =
    | Call(request: Request)
    | List(ok: bool)
    | Deactivate(ok: bool, effective: bool)
    | Arm
    | Wake
    | TimeOut
    | Restore(ok: bool, effective: bool)
    | Update(paused: bool, time: real, joints: Joints)
    | Late(index: nat)

  function Names(s: seq<string>): set<string> {
    set n | n in s
  }

  /** The configured controllers that are active. */
  function ToStop(c: Config, active: set<string>): (r: seq<string>)
    ensures Names(r) == Names(c.controllers) * active
  {
    Select(c.controllers, active)
  }

  function Select(names: seq<string>, active: set<string>): (r: seq<string>)
    ensures Names(r) == Names(names) * active
  {
    if names == [] then []
    else
      var rest := Select(names[1..], active);
      NamesCons(names[0], names[1..]);
      NamesCons(names[0], rest);
      assert names == [names[0]] + names[1..];
      if names[0] in active then [names[0]] + rest else rest
  }

  lemma {:induction false} NamesCons(name: string, rest: seq<string>)
    ensures Names([name] + rest) == {name} + Names(rest)
  {
  }

  /** A switch that succeeds takes effect; one that fails or times out may take effect as well, or later. */
  predicate Enabled(s: System, e: Event) {
    match e
    case Call(_) => s.service.NoRequest?
    case List(_) => s.service.Listing?
    case Deactivate(ok, effective) => s.service.Deactivating? && (ok ==> effective) && (s.service.restore == [] ==> ok)
    case Arm => s.service.Arming?
    case Wake => s.service.Waiting? && s.reset.completed
    case TimeOut => s.service.Waiting? && !s.reset.completed
    case Restore(ok, effective) => s.service.Restoring? && (ok ==> effective) && (s.service.restore == [] ==> ok)
    case Update(_, _, _) => |s.reset.request.names| == |s.reset.request.positions|
    case Late(index) => index < |s.late|
  }

  /** The controllers and the outstanding switches after one that was asked for. */
  function After(s: System, w: Switch, effective: bool): System {
    if effective then s.(active := Switched(s.active, w)) else s.(late := s.late + [w])
  }

  function Next(s: System, e: Event): System
    requires Enabled(s, e)
  {
    match e
    case Call(r) =>
      if !ValidRequest(r) then s.(response := Some(false))
      else s.(service := Listing(r), response := None, history := History(s.active, false, None))
    case List(ok) =>
      if ok then s.(service := Deactivating(s.service.request, ToStop(s.config, s.active)))
      else s.(service := NoRequest, response := Some(false))
    case Deactivate(ok, effective) =>
      var after := After(s, Switch(Names(s.service.restore), false), effective);
      if ok then after.(service := Arming(s.service.request, s.service.restore))
      else after.(service := NoRequest, response := Some(false))
    case Arm =>
      var (reset, armed) := ArmOf(s.reset, s.service.request);
      if armed then s.(reset := reset, service := Waiting(s.service.request, s.service.restore))
      else s.(service := Restoring(s.service.request, s.service.restore, false))
    case Wake => s.(service := Restoring(s.service.request, s.service.restore, s.reset.success))
    case TimeOut =>
      s.(reset := TimeOutOf(s.reset), service := Restoring(s.service.request, s.service.restore, false))
    case Restore(ok, effective) =>
      After(s, Switch(Names(s.service.restore), true), effective).(
        service := NoRequest, response := Some(s.service.success && ok))
    case Update(paused, time, joints) =>
      var reset := PreUpdateOf(s.config, s.reset, paused, time, joints);
      s.(reset := reset,
         history := if reset.completed && !s.reset.completed
                    then s.history.(done := Some(
                      Done(s.reset.applied,
                           if reset.startTime.Some? then time - reset.startTime.value else 0.0, joints)))
                    else s.history)
    case Late(index) =>
      s.(active := Switched(s.active, s.late[index]), late := s.late[..index] + s.late[index + 1..],
         history := s.history.(disturbed := true))
  }

  /** What a successful reset was declared on. */
  predicate Verified(s: System, r: Request) {
    && ValidRequest(r)
    && s.history.done.Some?
    && s.history.done.value.applied
    && s.history.done.value.settled >= s.config.settle
    && Matches(s.config, r, s.history.done.value.joints)
  }

  /** Unless an earlier request's switch has interfered, `restore` are the controllers to stop. */
  predicate Listed(s: System, restore: seq<string>) {
    !s.history.disturbed ==> Names(restore) == Names(s.config.controllers) * s.history.before
  }

  /** And they alone are stopped. */
  predicate Stopped(s: System, restore: seq<string>) {
    Listed(s, restore) && (!s.history.disturbed ==> s.active == s.history.before - Names(restore))
  }

  predicate Untouched(s: System) {
    !s.history.disturbed ==> s.active == s.history.before
  }

  predicate Safe(s: System) {
    && |s.reset.request.names| == |s.reset.request.positions|
    && (s.reset.phase.WaitPaused? <==> s.reset.paused)
    && (s.reset.phase.WaitPaused? ==> s.reset.request.pauseWorld)
    && match s.service
       case NoRequest => s.reset.phase.Idle?
       case Listing(r) => s.reset.phase.Idle? && ValidRequest(r) && Untouched(s)
       case Deactivating(r, restore) => s.reset.phase.Idle? && ValidRequest(r) && Untouched(s) && Listed(s, restore)
       case Arming(r, restore) => s.reset.phase.Idle? && ValidRequest(r) && Stopped(s, restore)
       case Waiting(r, restore) =>
         && s.reset.request == r && ValidRequest(r) && Stopped(s, restore)
         && (s.reset.phase.Idle? <==> s.reset.completed)
         && (s.reset.completed && s.reset.success ==> Verified(s, r))
       case Restoring(r, restore, success) =>
         && s.reset.phase.Idle? && ValidRequest(r) && Stopped(s, restore)
         && (success ==> Verified(s, r))
  }

  lemma {:induction false} UpdateIsSafe(s: System, paused: bool, time: real, joints: Joints)
    requires Safe(s)
    ensures Safe(Next(s, Update(paused, time, joints)))
  {
  }

  lemma {:induction false} NextIsSafe(s: System, e: Event)
    requires Safe(s) && Enabled(s, e)
    ensures Safe(Next(s, e))
  {
    match e
    case Update(paused, time, joints) => UpdateIsSafe(s, paused, time, joints);
    case Call(_) =>
    case List(_) =>
    case Deactivate(_, _) =>
    case Arm =>
    case Wake =>
    case TimeOut =>
    case Restore(_, _) =>
    case Late(_) =>
  }

  function Initial(c: Config, active: set<string>): System {
    System(c, Reset(Idle, Request([], [], false), false, false, false, None, false), NoRequest, active, [], None,
           History({}, false, None))
  }

  predicate StepsTo(s: System, e: Event, next: System) {
    Enabled(s, e) && next == Next(s, e)
  }

  predicate IsRun(states: seq<System>, events: seq<Event>) {
    && |states| == |events| + 1
    && states[0] == Initial(states[0].config, states[0].active)
    && (forall i :: 0 <= i < |events| ==> StepsTo(states[i], events[i], states[i + 1]))
  }

  lemma {:induction false} RunsAreSafe(states: seq<System>, events: seq<Event>, i: nat)
    requires IsRun(states, events) && i < |states|
    ensures Safe(states[i])
  {
    if i > 0 {
      var j := i - 1;
      RunsAreSafe(states, events, j);
      assert StepsTo(states[j], events[j], states[j + 1]);
      NextIsSafe(states[j], events[j]);
    }
  }

  // The main results, for every interleaving of the two threads.

  /** "another joint reset is already pending" is never answered. */
  lemma {:induction false} NoResetIsPending(states: seq<System>, events: seq<Event>, k: nat)
    requires IsRun(states, events) && k < |events| && events[k].Arm?
    ensures states[k + 1].service.Waiting? && states[k + 1].reset.phase.RequestPause?
  {
    RunsAreSafe(states, events, k);
    assert StepsTo(states[k], events[k], states[k + 1]);
  }

  /**
   * The reset waits for the world to pause exactly while the last pause event asked for it; so between
   * requests, and once a request has completed or timed out, no pause is asked for.
   */
  lemma {:induction false} PausesAreReleased(states: seq<System>, events: seq<Event>, i: nat)
    requires IsRun(states, events) && i < |states|
    ensures var s := states[i];
            && (s.reset.paused <==> s.reset.phase.WaitPaused?)
            && (s.reset.paused ==> s.service.Waiting? && !s.reset.completed && s.reset.request.pauseWorld)
  {
    RunsAreSafe(states, events, i);
  }

  /**
   * A request that succeeds was applied to every joint, found in place and at rest within the tolerance
   * after the settle time. The controllers it stopped are active again; and exactly those are active that
   * were before it, unless a switch that an earlier request had given up on took effect meanwhile.
   */
  lemma {:induction false} SuccessIsVerified(states: seq<System>, events: seq<Event>, k: nat)
    requires IsRun(states, events) && k < |events| && events[k].Restore? && states[k + 1].response == Some(true)
    ensures Verified(states[k], states[k].service.request)
    ensures Names(states[k].service.restore) <= states[k + 1].active
    ensures !states[k].history.disturbed ==> states[k + 1].active == states[k].history.before
  {
    RunsAreSafe(states, events, k);
    assert StepsTo(states[k], events[k], states[k + 1]);
    RestoredSet(states[k]);
  }

  lemma {:induction false} RestoredSet(s: System)
    requires Safe(s) && s.service.Restoring?
    ensures !s.history.disturbed ==> s.active + Names(s.service.restore) == s.history.before
  {
    assert !s.history.disturbed ==> Names(s.service.restore) <= s.history.before;
  }

  /** Only a switch given up on before can interfere: as long as none was, none does. */
  lemma {:induction false} SwitchesAreUndisturbed(states: seq<System>, events: seq<Event>, i: nat)
    requires IsRun(states, events) && i < |states|
    requires forall j :: 0 <= j < i ==>
               (events[j].Deactivate? ==> events[j].effective) && (events[j].Restore? ==> events[j].effective)
    ensures states[i].late == [] && !states[i].history.disturbed
  {
    if i > 0 {
      SwitchesAreUndisturbed(states, events, i - 1);
      assert StepsTo(states[i - 1], events[i - 1], states[i]);
    }
  }

  lemma {:induction false} NamesEmpty(names: seq<string>)
    ensures Names(names) == {} <==> names == []
  {
    if names != [] {
      assert names[0] in Names(names);
    }
  }

  /**
   * However a request ends that no earlier switch has interfered with, the controllers are as before it
   * exactly if the last switch it asked for took effect, or there was none to make; a deactivation that
   * times out but takes effect is not undone.
   */
  lemma {:induction false} ControllersAfter(states: seq<System>, events: seq<Event>, k: nat)
    requires IsRun(states, events) && k < |events| && !states[k].service.NoRequest? && states[k + 1].service.NoRequest?
    ensures !states[k].history.disturbed ==>
              (states[k + 1].active == states[k].history.before <==>
                (events[k].Restore? && events[k].effective) || (events[k].Deactivate? && !events[k].effective) ||
                events[k].List? || (states[k].service.restore == []))
  {
    RunsAreSafe(states, events, k);
    assert StepsTo(states[k], events[k], states[k + 1]);
    var s := states[k];
    if s.history.disturbed {
    } else if s.service.Restoring? {
      RestoredSet(s);
      NamesEmpty(s.service.restore);
      assert s.active !! Names(s.service.restore);
    } else if s.service.Deactivating? {
      NamesEmpty(s.service.restore);
      assert Names(s.service.restore) <= s.active;
    }
  }

  // Both threads as they run.

  class JointResetSystem {
    const config: Config
    var phase: Phase
    var request: Request
    var completed: bool
    var success: bool
    var applied: bool
    var startTime: Option<real>
    var paused: bool

    // The controller manager, and what has happened.
    var active: set<string>
    var late: seq<Switch>
    ghost var service: Service
    ghost var response: Option<bool>
    ghost var history: History

    ghost function State(): Reset
      reads this
    {
      Reset(phase, request, completed, success, applied, startTime, paused)
    }

    ghost function Now(): System
      reads this
    {
      System(config, State(), service, active, late, response, history)
    }

    ghost predicate Valid()
      reads this
    {
      Safe(Now())
    }

    constructor (config: Config, active: set<string>)
      ensures Valid() && Now() == Initial(config, active)
    {
      this.config := config;
      phase, request := Idle, Request([], [], false);
      completed, success, applied, startTime, paused := false, false, false, None, false;
      this.active, late := active, [];
      service, response, history := NoRequest, None, History({}, false, None);
    }

    method Arm(r: Request) returns (armed: bool)
      modifies this`phase, this`request, this`completed, this`success, this`applied, this`startTime
      ensures (State(), armed) == ArmOf(old(State()), r)
    {
      if phase != Idle {
        return false;
      }
      request := r;
      completed, success, applied := false, false, false;
      startTime := None;
      phase := RequestPause;
      return true;
    }

    method TimeOut()
      modifies this`phase, this`success, this`paused
      ensures State() == TimeOutOf(old(State()))
    {
      phase := Idle;
      success := false;
      if request.pauseWorld {
        paused := false;
      }
    }

    method ApplyReset(joints: Joints) returns (ok: bool)
      ensures ok <==> AllKnown(request, joints)
    {
      for i := 0 to |request.names|
        invariant forall k :: 0 <= k < i ==> request.names[k] in joints
      {
        if request.names[i] !in joints {
          return false;
        }
      }
      return true;
    }

    method ResetMatches(joints: Joints) returns (ok: bool)
      requires |request.names| == |request.positions|
      ensures ok <==> Matches(config, request, joints)
    {
      for i := 0 to |request.names|
        invariant Matches(config, request.(names := request.names[..i], positions := request.positions[..i]), joints)
      {
        var name := request.names[i];
        if name !in joints || joints[name].None? {
          return false;
        }
        if Magnitude(joints[name].value.position - request.positions[i]) > config.tolerance ||
           Magnitude(joints[name].value.velocity) > config.tolerance {
          return false;
        }
      }
      return true;
    }

    method Complete(ok: bool)
      modifies this`success, this`completed, this`phase
      ensures State() == CompleteOf(old(State()), ok)
    {
      success := ok;
      completed := true;
      phase := Idle;
    }

    method PreUpdate(worldPaused: bool, time: real, joints: Joints)
      requires |request.names| == |request.positions|
      modifies this`phase, this`success, this`completed, this`paused, this`applied, this`startTime
      ensures State() == PreUpdateOf(config, old(State()), worldPaused, time, joints)
    {
      if phase == Idle {
        return;
      }
      if phase == RequestPause {
        if request.pauseWorld {
          paused := true;
          phase := WaitPaused;
          return;
        }
        applied := ApplyReset(joints);
        startTime := Some(time);
        phase := WaitUnpaused;
        return;
      }
      if phase == WaitPaused {
        if !worldPaused {
          return;
        }
        applied := ApplyReset(joints);
        paused := false;
        phase := WaitUnpaused;
        return;
      }
      if request.pauseWorld && worldPaused {
        return;
      }
      if !applied {
        Complete(false);
        return;
      }
      if startTime.None? {
        startTime := Some(time);
      }
      var elapsed := time - startTime.value;
      if elapsed < config.settle {
        return;
      }
      var matched := ResetMatches(joints);
      if matched {
        Complete(true);
        return;
      }
      if elapsed >= config.verify {
        Complete(false);
      }
    }

    /** Records a step whose effect on the fields has already taken place. */
    ghost method Did(before: System, e: Event)
      requires Safe(before) && Enabled(before, e) && before.config == config
      requires Next(before, e).reset == State() && Next(before, e).active == active && Next(before, e).late == late
      modifies this`service, this`response, this`history
      ensures Valid() && Now() == Next(before, e)
    {
      NextIsSafe(before, e);
      var next := Next(before, e);
      service, response, history := next.service, next.response, next.history;
    }

    /** An update of the simulation, or a switch given up on that takes effect after all. */
    method Other()
      requires Valid()
      modifies this
      ensures Valid() && SameRequest(old(Now()), Now())
    {
      hide Safe;
      ghost var before := Now();
      var choice: int, worldPaused: bool, time: real, joints: Joints := *, *, *, *;
      if 0 <= choice < |late| {
        active, late := Switched(active, late[choice]), late[..choice] + late[choice + 1..];
        Did(before, Late(choice));
      } else {
        NamesMatch(before);
        PreUpdate(worldPaused, time, joints);
        Did(before, Update(worldPaused, time, joints));
      }
    }

    /** Any number of them. */
    method Others()
      requires Valid()
      modifies this
      ensures Valid() && SameRequest(old(Now()), Now())
    {
      hide Safe;
      var n: int := *;
      for i := 0 to if n < 0 then 0 else n
        invariant Valid() && SameRequest(old(Now()), Now())
      {
        Other();
      }
    }

    /** The configured controllers that the manager lists as active; None if it does not answer. */
    method ActiveResetControllers() returns (names: Option<seq<string>>)
      requires Valid() && service.Listing?
      modifies this
      ensures Valid() && history == old(history)
      ensures names.Some? ==> service == Deactivating(old(service.request), names.value)
      ensures names.Some? ==> Names(names.value) == Names(config.controllers) * active && active == old(active)
      ensures names.None? ==> service.NoRequest? && response == Some(false)
      ensures names.None? && !history.disturbed ==> active == history.before
    {
      ghost var before := Now();
      var answered: bool := *;
      if !answered {
        Did(before, List(false));
        return None;
      }
      var found := [];
      for i := 0 to |config.controllers|
        invariant Now() == before && found == Select(config.controllers[..i], active)
      {
        SelectSnoc(config.controllers[..i], config.controllers[i], active);
        assert config.controllers[..i + 1] == config.controllers[..i] + [config.controllers[i]];
        if config.controllers[i] in active {
          found := found + [config.controllers[i]];
        }
      }
      assert config.controllers[..|config.controllers|] == config.controllers;
      Did(before, List(true));
      return Some(found);
    }

    /** What the manager does with a switch: it answers or not, and it switches now, later or never. */
    method SwitchControllers(names: seq<string>, on: bool) returns (ok: bool, ghost effective: bool)
      modifies this`active, this`late
      ensures (ok ==> effective) && (names == [] ==> ok)
      ensures var w := Switch(Names(names), on);
              if effective then active == Switched(old(active), w) && late == old(late)
              else active == old(active) && late == old(late) + [w]
    {
      if names == [] {
        return true, true;
      }
      var takes: bool := *;
      ok := *;
      var w := Switch(Names(names), on);
      if ok || takes {
        active := Switched(active, w);
        return ok, true;
      }
      late := late + [w];
      return false, false;
    }

    /** Stops the controllers. */
    method Deactivates(names: seq<string>) returns (ok: bool)
      requires Valid() && service.Deactivating? && service.restore == names
      modifies this
      ensures Valid() && history == old(history)
      ensures ok ==> service == Arming(old(service.request), names)
      ensures !ok ==> service.NoRequest? && response == Some(false)
    {
      ghost var before := Now();
      ghost var effective;
      ok, effective := SwitchControllers(names, false);
      Did(before, Deactivate(ok, effective));
    }

    /** Hands the request to the simulation thread and waits until it is done or the time is up. */
    method Resets(r: Request) returns (done: bool)
      requires Valid() && service.Arming? && service.request == r
      modifies this
      ensures Valid() && SameBefore(old(history), history)
      ensures service == Restoring(r, old(service.restore), done)
    {
      hide Safe;
      ghost var before := Now();
      ArmsFromIdle(before);
      var armed := Arm(r);
      Did(before, Event.Arm);
      Others();
      before := Now();
      if completed {
        done := success;
        Did(before, Wake);
      } else {
        TimeOut();
        Did(before, Event.TimeOut);
        done := false;
      }
    }

    /** Starts them again. */
    method Restores(names: seq<string>, done: bool) returns (ok: bool)
      requires Valid() && service.Restoring? && service.restore == names && service.success == done
      modifies this
      ensures Valid() && history == old(history) && service.NoRequest? && response == Some(ok)
      ensures ok ==> done && Verified(Now(), old(service.request)) && Names(names) <= active
      ensures ok && !history.disturbed ==> active == history.before
    {
      ghost var before := Now();
      RestoredSet(before);
      ghost var effective;
      ok, effective := SwitchControllers(names, true);
      Did(before, Restore(ok, effective));
      ok := done && ok;
    }

    /**
     * HandleResetRequest, with updates of the simulation and late switches between its steps. It reports
     * success only for a reset that was applied, found in place and at rest after the settle time, and then
     * exactly those controllers are active that were before, unless an earlier request's switch interfered.
     * However it ends, the next request finds the simulation idle and no pause asked for.
     */
    method HandleResetRequest(r: Request) returns (ok: bool)
      requires Valid() && service.NoRequest?
      modifies this
      ensures Valid() && service.NoRequest? && response == Some(ok) && phase.Idle? && !paused
      ensures ok ==> ValidRequest(r) && Verified(Now(), r) && history.before == old(active)
      ensures ok && !history.disturbed ==> active == old(active)
    {
      ghost var before := Now();
      Did(before, Call(r));
      if r.names == [] || |r.names| != |r.positions| {
        return false;
      }
      hide Safe, Verified;
      Others();
      var names := ActiveResetControllers();
      ok := false;
      if names.Some? {
        Others();
        var stopped := Deactivates(names.value);
        if stopped {
          Others();
          var done := Resets(r);
          Others();
          ok := Restores(names.value, done);
        }
      }
      NothingPending(Now());
    }
  }

  /** What updates and late switches leave as it is. */
  predicate SameRequest(s: System, t: System) {
    && s.config == t.config && s.service == t.service && s.response == t.response
    && SameBefore(s.history, t.history)
  }

  predicate SameBefore(h: History, k: History) {
    k.before == h.before && (h.disturbed ==> k.disturbed)
  }

  lemma {:induction false} NamesMatch(s: System)
    requires Safe(s)
    ensures |s.reset.request.names| == |s.reset.request.positions|
  {
  }

  lemma {:induction false} ArmsFromIdle(s: System)
    requires Safe(s) && s.service.Arming?
    ensures s.reset.phase.Idle?
  {
  }

  lemma {:induction false} NothingPending(s: System)
    requires Safe(s) && s.service.NoRequest?
    ensures s.reset.phase.Idle? && !s.reset.paused
  {
  }

  lemma {:induction false} SelectSnoc(names: seq<string>, name: string, active: set<string>)
    ensures Select(names + [name], active) == Select(names, active) + (if name in active then [name] else [])
  {
    if names == [] {
      assert [name][1..] == [] && names + [name] == [name];
    } else {
      assert (names + [name])[1..] == names[1..] + [name];
      SelectSnoc(names[1..], name, active);
    }
  }
}
