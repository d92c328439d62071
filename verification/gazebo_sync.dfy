/**
 * c4g_gazebo_sync_node.py with initial_sync_mode "teleport" and the passive solver handover required:
 * the timed handover that ends in the live mirror. Positions are the six active joints followed by the
 * two passive ones.
 */
module GazeboSync {
  import opened Wrappers
  import opened JointNames
  import opened Reals

  datatype SyncState =
    | Disabled | Error | WaitInitialGazebo | WaitC4gFeedback | PrepareTeleport | ResetToReal | VerifyReset
    | ResumePassiveSolver | LiveSync

  datatype Config = Config(
    requireInitialPose: bool, startupDelay: real, initialPositions: seq<real>, initialTolerance: real,
    initialStable: real, feedbackTimeout: real, couplingOffset: real, lower: seq<real>, upper: seq<real>,
    limitTolerance: real, resetTimeout: real, resetTolerance: real, velocityTolerance: real, stableDuration: real)

  predicate ValidConfig(c: Config) {
    |c.initialPositions| == 6 && |c.lower| == 8 && |c.upper| == 8
  }

  /** A service call: pending, or answered with success, failure or nothing. */
  datatype Call = Pending | Answered(success: Option<bool>)

  type Joints = s: seq<real> | |s| == 8 witness [0.0, 0.0, 0.0, 0.0, 0.0, 0.0, 0.0, 0.0]

  datatype Gazebo = Gazebo(positions: Joints, velocities: Joints)

  /** Latest messages received. */
  datatype Feedback = Feedback(c4g: Option<Six>, c4gTime: real, gazebo: Option<Gazebo>)

  datatype Startup = Startup(startTime: real, poseReached: Option<real>)

  /** `solver` is the reply awaited from the passive solver; `sent` are the requests sent to it, true to enable it. */
  datatype Teleport = Teleport(
    target: Option<Joints>, reset: Option<Call>, solver: Option<Call>, solverPaused: bool,
    resetStart: Option<real>, stableStart: Option<real>, sent: seq<bool>)

  const NO_TELEPORT := Teleport(None, None, None, false, None, None, [])

  /** An asynchronous call of the solver's enable service. */
  function Asked(p: Teleport, enable: bool): Teleport {
    p.(solver := Some(Pending), sent := p.sent + [enable])
  }

  datatype Node = Node(state: SyncState, startup: Startup, teleport: Teleport, feedback: Feedback)

  function Started(c: Config): SyncState {
    if c.requireInitialPose then WaitInitialGazebo else WaitC4gFeedback
  }

  /** `_prepare_teleport`'s target: the feedback and the two passive joints that follow from it. */
  function TargetOf(c: Config, active: Six): Joints {
    var passive := active[1] + active[2] + c.couplingOffset;
    active + [passive, -passive]
  }

  predicate WithinLimits(c: Config, target: Joints)
    requires ValidConfig(c)
  {
    forall i :: 0 <= i < 8 ==> c.lower[i] - c.limitTolerance <= target[i] <= c.upper[i] + c.limitTolerance
  }

  predicate AtInitialPose(c: Config, g: Gazebo)
    requires ValidConfig(c)
  {
    forall i :: 0 <= i < 6 ==> Distance(g.positions[i], c.initialPositions[i]) <= c.initialTolerance
  }

  /** `_reset_is_stable`. */
  predicate Stable(c: Config, t: Teleport, f: Feedback) {
    && t.target.Some? && f.gazebo.Some?
    && forall i :: 0 <= i < 8 ==>
         && Distance(f.gazebo.value.positions[i], t.target.value[i]) <= c.resetTolerance
         && Distance(f.gazebo.value.velocities[i], 0.0) <= c.velocityTolerance
  }

  predicate Fresh(c: Config, f: Feedback, now: real) {
    f.c4g.Some? && now - f.c4gTime <= c.feedbackTimeout
  }

  /** A timer tick: the time, and which services are ready. */
  datatype Tick = Tick(now: real, solverReady: bool, resetReady: bool)

  // `_timer_callback`, state by state.

  function TickInitial(c: Config, n: Node, t: Tick): Node
    requires ValidConfig(c)
  {
    if t.now - n.startup.startTime < c.startupDelay || n.feedback.gazebo.None? then n
    else if !AtInitialPose(c, n.feedback.gazebo.value) then n.(startup := n.startup.(poseReached := None))
    else if n.startup.poseReached.None? then n.(startup := n.startup.(poseReached := Some(t.now)))
    else if t.now - n.startup.poseReached.value < c.initialStable then n
    else n.(state := WaitC4gFeedback)
  }

  function TickWait(c: Config, n: Node, t: Tick): Node
    requires ValidConfig(c)
  {
    if n.feedback.c4g.None? || !Fresh(c, n.feedback, t.now) then n
    else
      var prepared := n.teleport.(target := Some(TargetOf(c, n.feedback.c4g.value)));
      if !WithinLimits(c, prepared.target.value) || !t.solverReady then n.(state := Error, teleport := prepared)
      else n.(state := PrepareTeleport, teleport := Asked(prepared, false))
  }

  /** `_start_joint_reset` and the step to RESET_TO_REAL. */
  function StartReset(n: Node, t: Tick): Node {
    if n.teleport.target.None? || !t.resetReady then n
    else n.(state := ResetToReal,
      teleport := n.teleport.(reset := Some(Pending), resetStart := Some(t.now), stableStart := None))
  }

  function TickPrepare(n: Node, t: Tick): Node {
    if n.teleport.solver.None? then StartReset(n, t)
    else if n.teleport.solver.value.Pending? then n
    else
      var answered := n.(teleport := n.teleport.(solver := None));
      if n.teleport.solver.value.success != Some(true) then answered.(state := Error)
      else StartReset(answered.(teleport := answered.teleport.(solverPaused := true)), t)
  }

  /** `_abort_teleport`: the solver is asked to resume if its service is ready, and no longer counts as paused. */
  function AbortOf(n: Node, t: Tick): Node {
    var p := if n.teleport.solverPaused && t.solverReady then Asked(n.teleport, true) else n.teleport;
    n.(state := Error, teleport := p.(solverPaused := false))
  }

  predicate TimedOut(c: Config, n: Node, t: Tick) {
    n.teleport.resetStart.Some? && t.now - n.teleport.resetStart.value > c.resetTimeout
  }

  function TickReset(c: Config, n: Node, t: Tick): Node {
    if n.teleport.reset.None? then n.(state := WaitC4gFeedback)
    else if n.teleport.reset.value.Pending? then
      if TimedOut(c, n, t) then AbortOf(n.(teleport := n.teleport.(reset := None)), t) else n
    else
      var answered := n.(teleport := n.teleport.(reset := None));
      if n.teleport.reset.value.success != Some(true) then AbortOf(answered, t)
      else answered.(state := VerifyReset, teleport := answered.teleport.(stableStart := None))
  }

  function TickVerify(c: Config, n: Node, t: Tick): Node {
    if Stable(c, n.teleport, n.feedback) then
      if n.teleport.stableStart.None? then n.(teleport := n.teleport.(stableStart := Some(t.now)))
      else if t.now - n.teleport.stableStart.value < c.stableDuration then n
      else if !t.solverReady then n.(state := Error)
      else n.(state := ResumePassiveSolver, teleport := Asked(n.teleport, true))
    else
      var unstable := n.(teleport := n.teleport.(stableStart := None));
      if TimedOut(c, n, t) then AbortOf(unstable, t) else unstable
  }

  function TickResume(n: Node, t: Tick): Node {
    if n.teleport.solver.None? then n.(state := Error)
    else if n.teleport.solver.value.Pending? then n
    else
      var answered := n.(teleport := n.teleport.(solver := None));
      if n.teleport.solver.value.success != Some(true) then AbortOf(answered, t)
      else answered.(state := LiveSync, teleport := answered.teleport.(solverPaused := false))
  }

  function TickOf(c: Config, n: Node, t: Tick): Node
    requires ValidConfig(c)
  {
    match n.state
    case Disabled => n
    case Error => n
    case WaitInitialGazebo => TickInitial(c, n, t)
    case WaitC4gFeedback => TickWait(c, n, t)
    case PrepareTeleport => TickPrepare(n, t)
    case ResetToReal => TickReset(c, n, t)
    case VerifyReset => TickVerify(c, n, t)
    case ResumePassiveSolver => TickResume(n, t)
    case LiveSync => n
  }

  /** `_enable_sync`; the paused flag is not reset. */
  function EnableOf(c: Config, n: Node, now: real): Node {
    if n.state != Disabled && n.state != Error then n
    else
      Node(Started(c), Startup(now, None),
        NO_TELEPORT.(solverPaused := n.teleport.solverPaused, sent := n.teleport.sent),
           n.feedback)
  }

  // Runs.

  /** What a handover has gone through since its target was computed. */
  datatype Milestone =
    | Checked(target: Joints)
    | SolverPaused
    | ResetDone
    | Observed(time: real, stable: bool)
    | SolverResumed

  /** The passive solver itself; it handles the requests sent to it in order. */
  datatype Solver = Solver(paused: bool, handled: nat)

  datatype System = System(config: Config, node: Node, clock: real, log: seq<Milestone>, solver: Solver)

  /** Requests on their way to the solver. */
  function Outstanding(s: System): seq<bool> {
    if s.solver.handled <= |s.node.teleport.sent| then s.node.teleport.sent[s.solver.handled..] else []
  }

  /** The solver handles its next request; a reply to an older one than the last is not awaited any more. */
  function Handled(s: System, success: Option<bool>): System
    requires Outstanding(s) != []
  {
    var p, enable := s.node.teleport, Outstanding(s)[0];
    var awaited := |Outstanding(s)| == 1 && p.solver == Some(Pending);
    s.(node := s.node.(teleport := if awaited then p.(solver := Some(Answered(success))) else p),
       solver := Solver(if success == Some(true) then !enable else s.solver.paused, s.solver.handled + 1))
  }

  datatype Event =
    | Timer(tick: Tick)
    | Enable
    | C4g(positions: Six)
    | GazeboState(gazebo: Gazebo)
    | SolverReplies(success: Option<bool>)
    | ResetReplies(success: Option<bool>)
    | Elapse(seconds: real)

  function Extended(s: System, t: Tick): seq<Milestone>
    requires ValidConfig(s.config)
  {
    var n, next := s.node, TickOf(s.config, s.node, t);
    match n.state
    case WaitC4gFeedback =>
      if next.state.PrepareTeleport? && next.teleport.target.Some? then [Checked(next.teleport.target.value)] else s.log
    case PrepareTeleport =>
      if n.teleport.solver == Some(Answered(Some(true))) then s.log + [SolverPaused] else s.log
    case ResetToReal => if next.state.VerifyReset? then s.log + [ResetDone] else s.log
    case VerifyReset => s.log + [Observed(t.now, Stable(s.config, n.teleport, n.feedback))]
    case ResumePassiveSolver => if next.state.LiveSync? then s.log + [SolverResumed] else s.log
    case _ => s.log
  }

  predicate Enabled(s: System, e: Event) {
    match e
    case Timer(t) => t.now == s.clock
    case SolverReplies(_) => Outstanding(s) != []
    case ResetReplies(_) => s.node.teleport.reset == Some(Pending)
    case Elapse(seconds) => seconds >= 0.0
    case _ => true
  }

  function Next(s: System, e: Event): System
    requires ValidConfig(s.config) && Enabled(s, e)
  {
    var n := s.node;
    match e
    case Timer(t) => s.(node := TickOf(s.config, n, t), log := Extended(s, t))
    case Enable => s.(node := EnableOf(s.config, n, s.clock))
    case C4g(positions) => s.(node := n.(feedback := n.feedback.(c4g := Some(positions), c4gTime := s.clock)))
    case GazeboState(gazebo) => s.(node := n.(feedback := n.feedback.(gazebo := Some(gazebo))))
    case SolverReplies(success) => Handled(s, success)
    case ResetReplies(success) => s.(node := n.(teleport := n.teleport.(reset := Some(Answered(success)))))
    case Elapse(seconds) => s.(clock := s.clock + seconds)
  }

  /** The solver's pause was acknowledged for a target within the limits. */
  predicate Paused(c: Config, log: seq<Milestone>, target: Option<Joints>)
    requires ValidConfig(c)
  {
    && target.Some? && WithinLimits(c, target.value)
    && |log| >= 2 && log[0] == Checked(target.value) && log[1] == SolverPaused
  }

  /** The reset then succeeded, and since then only observations were made. */
  predicate ResetLogged(c: Config, log: seq<Milestone>, target: Option<Joints>)
    requires ValidConfig(c)
  {
    Paused(c, log, target) && |log| >= 3 && log[2] == ResetDone && forall j :: 3 <= j < |log| ==> log[j].Observed?
  }

  /** Every tick from entry k on found the reset pose stable. */
  predicate StableFrom(log: seq<Milestone>, k: nat) {
    3 <= k < |log| && forall j :: k <= j < |log| ==> log[j].Observed? && log[j].stable
  }

  ghost predicate StableSince(log: seq<Milestone>, start: real) {
    exists k: nat :: StableFrom(log, k) && log[k].time == start
  }

  /** They span at least the stable duration. */
  ghost predicate Held(log: seq<Milestone>, duration: real) {
    exists k: nat :: StableFrom(log, k) && log[|log| - 1].time - log[k].time >= duration
  }

  ghost predicate HandedOver(c: Config, log: seq<Milestone>, target: Option<Joints>)
    requires ValidConfig(c)
  {
    && log != [] && log[|log| - 1] == SolverResumed
    && ResetLogged(c, log[..|log| - 1], target) && Held(log[..|log| - 1], c.stableDuration)
  }

  /** No request to pause is on its way, and at most one to resume. */
  predicate OnlyResumes(out: seq<bool>) {
    out == [] || out == [true]
  }

  /** What the solver's state, its outstanding requests and the node's record have to do with each other. */
  predicate SolverFits(s: System) {
    var p, out := s.node.teleport, Outstanding(s);
    && s.solver.handled <= |p.sent|
    && match s.node.state
       case PrepareTeleport =>
         if p.solver == Some(Pending) then out == [false] || out == [true, false]
         else out == [] && (p.solver.None? || p.solver == Some(Answered(Some(true))) ==> s.solver.paused)
       case ResetToReal => out == [] && s.solver.paused && p.solver.None?
       case VerifyReset => out == [] && s.solver.paused && p.solver.None?
       case ResumePassiveSolver =>
         && p.solver.Some? && p.solverPaused
         && out == (if p.solver == Some(Pending) then [true] else [])
         && (s.solver.paused <==> p.solver != Some(Answered(Some(true))))
       case LiveSync => out == [] && !s.solver.paused
       case Error => OnlyResumes(out)
       case _ => OnlyResumes(out) && p.solver.None?
  }

  /** The handover so far, as its milestones tell it. */
  ghost predicate Progress(s: System) {
    && ValidConfig(s.config)
    && var p := s.node.teleport;
       match s.node.state
       case PrepareTeleport =>
         && p.target.Some? && WithinLimits(s.config, p.target.value)
         && if p.solver.Some? then s.log == [Checked(p.target.value)]
            else s.log == [Checked(p.target.value), SolverPaused] && p.solverPaused
       case ResetToReal =>
         && p.target.Some? && WithinLimits(s.config, p.target.value)
         && s.log == [Checked(p.target.value), SolverPaused] && p.solverPaused && p.reset.Some?
       case VerifyReset =>
         && ResetLogged(s.config, s.log, p.target) && p.solverPaused
         && (p.stableStart.Some? ==> StableSince(s.log, p.stableStart.value))
       case ResumePassiveSolver =>
         && ResetLogged(s.config, s.log, p.target) && Held(s.log, s.config.stableDuration) && p.solver.Some?
       case LiveSync => HandedOver(s.config, s.log, p.target) && !p.solverPaused
       case _ => true
  }

  ghost predicate Safe(s: System) {
    Progress(s) && SolverFits(s)
  }

  lemma {:induction false} VerifyProgresses(s: System, t: Tick)
    requires Progress(s) && s.node.state.VerifyReset? && t.now == s.clock
    ensures Progress(Next(s, Timer(t)))
  {
    var next, stable := Next(s, Timer(t)), Stable(s.config, s.node.teleport, s.node.feedback);
    assert forall j :: 0 <= j < |s.log| ==> next.log[j] == s.log[j];
    assert next.log[|s.log|] == Observed(t.now, stable);
    if stable {
      if s.node.teleport.stableStart.None? {
        assert StableFrom(next.log, |s.log|);
      } else {
        var start := s.node.teleport.stableStart.value;
        var k: nat :| StableFrom(s.log, k) && s.log[k].time == start;
        assert StableFrom(next.log, k);
      }
    }
  }

  lemma {:induction false} ResumeProgresses(s: System, t: Tick)
    requires Progress(s) && s.node.state.ResumePassiveSolver? && t.now == s.clock
    ensures Progress(Next(s, Timer(t)))
  {
    var next := Next(s, Timer(t));
    if next.node.state.LiveSync? {
      assert next.log[..|next.log| - 1] == s.log;
    }
  }

  lemma {:induction false} NextProgresses(s: System, e: Event)
    requires Progress(s) && Enabled(s, e)
    ensures Progress(Next(s, e))
  {
    if e.Timer? && s.node.state.VerifyReset? {
      VerifyProgresses(s, e.tick);
    } else if e.Timer? && s.node.state.ResumePassiveSolver? {
      ResumeProgresses(s, e.tick);
    }
  }

  /** How one state's tick changed the node, and what it sent. */
  predicate Ticked(s: System, next: System, node: Node, asked: seq<bool>) {
    && next.solver == s.solver && next.node == node
    && node.teleport.sent == s.node.teleport.sent + asked
    && Outstanding(next) == Outstanding(s) + asked
  }

  lemma {:induction false} TickedNode(s: System, t: Tick, node: Node, asked: seq<bool>)
    requires ValidConfig(s.config) && Enabled(s, Timer(t)) && SolverFits(s)
    requires TickOf(s.config, s.node, t) == node && node.teleport.sent == s.node.teleport.sent + asked
    ensures Ticked(s, Next(s, Timer(t)), node, asked)
  {
    hide TickOf;
    assert Outstanding(Next(s, Timer(t))) == Outstanding(s) + asked;
  }

  /** What an aborted handover sends. */
  function Abort(n: Node, t: Tick): seq<bool> {
    if n.teleport.solverPaused && t.solverReady then [true] else []
  }

  lemma {:induction false} WaitFits(s: System, t: Tick)
    requires Safe(s) && Enabled(s, Timer(t)) && s.node.state.WaitC4gFeedback?
    ensures SolverFits(Next(s, Timer(t))) && Next(s, Timer(t)).solver == s.solver
    ensures Outstanding(Next(s, Timer(t))) in {Outstanding(s), Outstanding(s) + [false]}
    ensures Next(s, Timer(t)).node.state.Error? ==> Outstanding(Next(s, Timer(t))) == Outstanding(s)
  {
    var node := TickWait(s.config, s.node, t);
    TickedNode(s, t, node, if node.state.PrepareTeleport? then [false] else []);
    hide TickOf, Progress;
  }

  lemma {:induction false} PrepareFits(s: System, t: Tick)
    requires Safe(s) && Enabled(s, Timer(t)) && s.node.state.PrepareTeleport?
    ensures SolverFits(Next(s, Timer(t))) && Next(s, Timer(t)).solver == s.solver
    ensures Outstanding(Next(s, Timer(t))) == Outstanding(s)
  {
    TickedNode(s, t, TickPrepare(s.node, t), []);
    hide TickOf;
  }

  /** A step that ends in an abort, or does not end in an error and sends nothing. */
  predicate FailsByAbort(s: System, t: Tick, node: Node, asked: seq<bool>) {
    if node.state.Error? then asked == Abort(s.node, t) else asked == []
  }

  lemma {:induction false} ResetFits(s: System, t: Tick) returns (asked: seq<bool>)
    requires Safe(s) && Enabled(s, Timer(t)) && s.node.state.ResetToReal?
    ensures Ticked(s, Next(s, Timer(t)), TickReset(s.config, s.node, t), asked)
    ensures FailsByAbort(s, t, TickReset(s.config, s.node, t), asked)
    ensures asked in {[], [true]}
    ensures SolverFits(Next(s, Timer(t)))
  {
    var node := TickReset(s.config, s.node, t);
    asked := if node.state.Error? then Abort(s.node, t) else [];
    TickedNode(s, t, node, asked);
    hide TickOf;
  }

  lemma {:induction false} VerifyFits(s: System, t: Tick) returns (asked: seq<bool>)
    requires Safe(s) && Enabled(s, Timer(t)) && s.node.state.VerifyReset?
    ensures Ticked(s, Next(s, Timer(t)), TickVerify(s.config, s.node, t), asked)
    ensures TickVerify(s.config, s.node, t).state.Error? ==> asked == Abort(s.node, t)
    ensures asked in {[], [true]}
    ensures SolverFits(Next(s, Timer(t)))
  {
    var node := TickVerify(s.config, s.node, t);
    asked := if node.state.Error? then Abort(s.node, t) else if node.state.ResumePassiveSolver? then [true] else [];
    hide Stable;
    TickedNode(s, t, node, asked);
    hide TickOf, Progress;
  }

  lemma {:induction false} ResumeFits(s: System, t: Tick) returns (asked: seq<bool>)
    requires Safe(s) && Enabled(s, Timer(t)) && s.node.state.ResumePassiveSolver?
    ensures Ticked(s, Next(s, Timer(t)), TickResume(s.node, t), asked)
    ensures FailsByAbort(s, t, TickResume(s.node, t), asked)
    ensures asked in {[], [true]}
    ensures SolverFits(Next(s, Timer(t)))
  {
    hide ResetLogged, Held, HandedOver;
    var node := TickResume(s.node, t);
    asked := if node.state.Error? then Abort(s.node, t) else [];
    TickedNode(s, t, node, asked);
    hide TickOf, Progress;
  }

  lemma {:induction false} IdleFits(s: System, t: Tick)
    requires Safe(s) && Enabled(s, Timer(t)) && s.node.state in {Disabled, Error, WaitInitialGazebo, LiveSync}
    ensures SolverFits(Next(s, Timer(t)))
    ensures Outstanding(Next(s, Timer(t))) == Outstanding(s)
  {
    hide Progress, AtInitialPose;
  }

  lemma {:induction false} TimerFits(s: System, t: Tick)
    requires Safe(s) && Enabled(s, Timer(t))
    ensures SolverFits(Next(s, Timer(t)))
  {
    hide Progress, SolverFits, TickOf;
    match s.node.state
    case WaitC4gFeedback => WaitFits(s, t);
    case PrepareTeleport => PrepareFits(s, t);
    case ResetToReal => var _ := ResetFits(s, t);
    case VerifyReset => var _ := VerifyFits(s, t);
    case ResumePassiveSolver => var _ := ResumeFits(s, t);
    case _ => IdleFits(s, t);
  }

  lemma {:induction false} ReplyFits(s: System, success: Option<bool>)
    requires SolverFits(s) && Outstanding(s) != []
    ensures SolverFits(Handled(s, success))
  {
    assert Outstanding(Handled(s, success)) == Outstanding(s)[1..];
  }

  lemma {:induction false} NextIsSafe(s: System, e: Event)
    requires Safe(s) && Enabled(s, e)
    ensures Safe(Next(s, e))
  {
    NextProgresses(s, e);
    if e.Timer? {
      TimerFits(s, e.tick);
    } else if e.SolverReplies? {
      ReplyFits(s, e.success);
    }
    hide Progress;
  }

  /** The node as constructed; the solver is recorded as enabled. */
  predicate IsInitial(s: System) {
    && ValidConfig(s.config)
    && (s.node.state == Started(s.config) || s.node.state.Disabled?)
    && s.node.teleport == NO_TELEPORT && s.log == [] && s.solver == Solver(false, 0)
  }

  predicate StepsTo(s: System, e: Event, next: System) {
    ValidConfig(s.config) && Enabled(s, e) && next == Next(s, e)
  }

  predicate IsRun(states: seq<System>, events: seq<Event>) {
    && |states| == |events| + 1
    && IsInitial(states[0])
    && (forall i :: 0 <= i < |events| ==> StepsTo(states[i], events[i], states[i + 1]))
  }

  lemma {:induction false} RunsAreSafe(states: seq<System>, events: seq<Event>, i: nat)
    requires IsRun(states, events) && i < |states|
    ensures Safe(states[i])
  {
    if i > 0 {
      var j := i - 1;
      RunsAreSafe(states, events, j);
      assert StepsTo(states[j], events[j], states[j + 1]);
      NextIsSafe(states[j], events[j]);
    }
  }

  /**
   * In every run, the live mirror is only entered through a whole handover, in this order: a target
   * within the limits, the solver's pause acknowledged, the reset's success, ticks that all found the
   * eight joints in place and at rest over the stable duration, the solver's resumption acknowledged.
   * In the live mirror the solver runs, and is not recorded as paused.
   */
  lemma {:induction false} LiveIsHandedOver(states: seq<System>, events: seq<Event>, i: nat)
    requires IsRun(states, events) && i < |states| && states[i].node.state.LiveSync?
    ensures ValidConfig(states[i].config)
    ensures var s := states[i];
            && HandedOver(s.config, s.log, s.node.teleport.target)
            && !s.node.teleport.solverPaused && !s.solver.paused
  {
    RunsAreSafe(states, events, i);
  }

  /** The tick records `m` after what was recorded before. */
  predicate Records(s: System, next: System, m: Milestone) {
    next.log == s.log + [m]
  }

  /**
   * What is recorded is what the node saw, not its own bookkeeping; nothing else is recorded, and only a
   * new target starts the record over.
   */
  lemma {:induction false} ObservationsAreReal(states: seq<System>, events: seq<Event>, k: nat)
    requires IsRun(states, events) && k < |events| && states[k + 1].log != states[k].log
    ensures events[k].Timer?
    ensures var s, next := states[k], states[k + 1];
            var p, f := s.node.teleport, s.node.feedback;
            match s.node.state
            case WaitC4gFeedback =>
              && f.c4g.Some? && Fresh(s.config, f, s.clock) && events[k].tick.solverReady
              && var target := TargetOf(s.config, f.c4g.value);
                 WithinLimits(s.config, target) && next.log == [Checked(target)]
                   && next.node.teleport.target == Some(target)
            case PrepareTeleport => p.solver == Some(Answered(Some(true))) && Records(s, next, SolverPaused)
            case ResetToReal => p.reset == Some(Answered(Some(true))) && Records(s, next, ResetDone)
            case VerifyReset => Records(s, next, Observed(s.clock, Stable(s.config, p, f)))
            case ResumePassiveSolver => p.solver == Some(Answered(Some(true))) && Records(s, next, SolverResumed)
            case _ => false
  {
    assert StepsTo(states[k], events[k], states[k + 1]);
  }

  // Failed handovers.

  /** The solver is paused, and no request that would resume it is on its way. */
  predicate StaysPaused(s: System) {
    s.solver.paused && true !in Outstanding(s)
  }

  /** A step after which an error leaves the solver paused: an abort without the service, a refused resumption. */
  predicate LeavesPaused(s: System, e: Event) {
    match e
    case Timer(t) =>
      if s.node.state in {ResetToReal, VerifyReset, ResumePassiveSolver} then !t.solverReady else StaysPaused(s)
    case SolverReplies(success) => s.solver.paused && |Outstanding(s)| == 1 && success != Some(true)
    case _ => StaysPaused(s)
  }

  /**
   * In every run, an error leaves the solver paused exactly if the handover failed while the solver's
   * service was not ready, or the resumption the abort asked for was refused, or it was left so before.
   */
  lemma {:induction false} ErrorLeavesPaused(states: seq<System>, events: seq<Event>, k: nat)
    requires IsRun(states, events) && k < |events| && states[k + 1].node.state.Error?
    ensures StaysPaused(states[k + 1]) <==> LeavesPaused(states[k], events[k])
  {
    RunsAreSafe(states, events, k);
    assert StepsTo(states[k], events[k], states[k + 1]);
    var s, e := states[k], events[k];
    hide Progress;
    if e.Timer? {
      TimerLeavesPaused(s, e.tick);
    } else if e.SolverReplies? {
      assert Outstanding(Handled(s, e.success)) == Outstanding(s)[1..];
    }
  }

  lemma {:induction false} TimerLeavesPaused(s: System, t: Tick)
    requires Safe(s) && Enabled(s, Timer(t)) && Next(s, Timer(t)).node.state.Error?
    ensures StaysPaused(Next(s, Timer(t))) <==> LeavesPaused(s, Timer(t))
  {
    hide TickOf;
    match s.node.state
    case WaitC4gFeedback => WaitFits(s, t);
    case PrepareTeleport => PrepareFits(s, t);
    case ResetToReal => AbortLeavesPaused(s, t);
    case VerifyReset => AbortLeavesPaused(s, t);
    case ResumePassiveSolver => AbortLeavesPaused(s, t);
    case _ => IdleFits(s, t);
  }

  /** From the acknowledged pause on, an error leaves the solver paused exactly if its service is not ready. */
  lemma {:induction false} AbortLeavesPaused(s: System, t: Tick)
    requires Safe(s) && Enabled(s, Timer(t)) && Next(s, Timer(t)).node.state.Error?
    requires s.node.state in {ResetToReal, VerifyReset, ResumePassiveSolver}
    ensures StaysPaused(Next(s, Timer(t))) <==> !t.solverReady
  {
    var asked: seq<bool>;
    if s.node.state.ResetToReal? {
      asked := ResetFits(s, t);
    } else if s.node.state.VerifyReset? {
      asked := VerifyFits(s, t);
    } else {
      asked := ResumeFits(s, t);
    }
    hide TickOf;
  }

  /**
   * When a handover fails after the reset was asked for, the node's record says the solver is paused only if
   * the service was missing for a stable pose; after every abort it says the opposite, rightly or not.
   */
  lemma {:induction false} RecordAfterFailure(states: seq<System>, events: seq<Event>, k: nat)
    requires IsRun(states, events) && k < |events| && events[k].Timer? && states[k + 1].node.state.Error?
    requires states[k].node.state in {ResetToReal, VerifyReset, ResumePassiveSolver}
    ensures var s, p := states[k], states[k].node.teleport;
            && (states[k + 1].node.teleport.solverPaused <==>
               s.node.state.VerifyReset? && Stable(s.config, p, s.node.feedback))
            && (states[k + 1].node.teleport.solverPaused ==> StaysPaused(states[k + 1]))
            && (StaysPaused(states[k + 1]) && !states[k + 1].node.teleport.solverPaused <==>
                  !events[k].tick.solverReady && !(s.node.state.VerifyReset? && Stable(s.config, p, s.node.feedback)))
  {
    RunsAreSafe(states, events, k);
    assert StepsTo(states[k], events[k], states[k + 1]);
    ErrorLeavesPaused(states, events, k);
  }

  lemma {:induction false} ReplyKeepsPause(s: System, success: Option<bool>)
    requires StaysPaused(s) && Outstanding(s) != []
    ensures StaysPaused(Handled(s, success))
  {
    assert Outstanding(Handled(s, success)) == Outstanding(s)[1..];
    assert Outstanding(s)[0] in Outstanding(s);
  }

  lemma {:induction false} TickKeepsPause(s: System, t: Tick)
    requires Safe(s) && Enabled(s, Timer(t)) && StaysPaused(s)
    ensures var next := Next(s, Timer(t));
            StaysPaused(next) || next.node.teleport.sent == s.node.teleport.sent + [true]
  {
    hide Progress, SolverFits, TickOf, TickReset, TickVerify, TickResume, FailsByAbort;
    match s.node.state
    case WaitC4gFeedback => WaitFits(s, t);
    case PrepareTeleport => PrepareFits(s, t);
    case ResetToReal => var _ := ResetFits(s, t);
    case VerifyReset => var _ := VerifyFits(s, t);
    case ResumePassiveSolver => var _ := ResumeFits(s, t);
    case _ => IdleFits(s, t);
  }

  /** A solver left paused stays so, through enabling too, until a node's tick asks it to resume. */
  lemma {:induction false} PauseOutlastsErrors(states: seq<System>, events: seq<Event>, k: nat)
    requires IsRun(states, events) && k < |events| && StaysPaused(states[k]) && !StaysPaused(states[k + 1])
    ensures events[k].Timer? && states[k + 1].node.teleport.sent == states[k].node.teleport.sent + [true]
  {
    RunsAreSafe(states, events, k);
    assert StepsTo(states[k], events[k], states[k + 1]);
    var s, e := states[k], events[k];
    hide Progress;
    if e.Timer? {
      TickKeepsPause(s, e.tick);
    } else if e.SolverReplies? {
      ReplyKeepsPause(s, e.success);
    }
  }

  const ZEROS: Joints := [0.0, 0.0, 0.0, 0.0, 0.0, 0.0, 0.0, 0.0]

  const SMALL_CONFIG := Config(false, 0.0, ZEROS[..6], 0.0, 0.0, 1.0, 0.0, ZEROS, ZEROS, 1.0, 1.0, 1.0, 1.0, 1.0)

  /** A handover whose reset fails while the solver's service is not ready. */
  const FAILED_RESET: seq<Event> :=
    [C4g(ZEROS[..6]), Timer(Tick(0.0, true, true)), SolverReplies(Some(true)), Timer(Tick(0.0, true, true)),
     ResetReplies(Some(false)), Timer(Tick(0.0, false, true))]

  /** The solver has acknowledged its pause, and the reset is awaited. */
  predicate AwaitsReset(s: System) {
    && ValidConfig(s.config) && s.clock == 0.0 && s.node.state.ResetToReal?
    && s.node.teleport.reset == Some(Pending) && s.node.teleport.solverPaused
    && s.node.teleport.sent == [false] && s.solver == Solver(true, 1)
  }

  lemma {:induction false} PreparedReset(s0: System) returns (s1: System, s2: System, s3: System, s4: System)
    requires s0 == System(SMALL_CONFIG,
             Node(WaitC4gFeedback, Startup(0.0, None), NO_TELEPORT, Feedback(None, 0.0, None)),
                          0.0, [], Solver(false, 0))
    ensures StepsTo(s0, FAILED_RESET[0], s1) && StepsTo(s1, FAILED_RESET[1], s2)
    ensures StepsTo(s2, FAILED_RESET[2], s3) && StepsTo(s3, FAILED_RESET[3], s4)
    ensures AwaitsReset(s4)
  {
    s1 := Next(s0, FAILED_RESET[0]);
    s2 := Next(s1, FAILED_RESET[1]);
    assert WithinLimits(SMALL_CONFIG, TargetOf(SMALL_CONFIG, ZEROS[..6]));
    hide WithinLimits, TargetOf;
    assert s2.node.teleport.sent == [false] && Outstanding(s2) == [false];
    s3 := Next(s2, FAILED_RESET[2]);
    s4 := Next(s3, FAILED_RESET[3]);
  }

  lemma {:induction false} FailedReset(s4: System) returns (s5: System, s6: System)
    requires AwaitsReset(s4)
    ensures StepsTo(s4, FAILED_RESET[4], s5) && StepsTo(s5, FAILED_RESET[5], s6)
    ensures s6.node.state.Error? && StaysPaused(s6) && !s6.node.teleport.solverPaused
  {
    s5 := Next(s4, FAILED_RESET[4]);
    s6 := Next(s5, FAILED_RESET[5]);
    assert Outstanding(s6) == [];
  }

  /** The run ends in an error with the solver left paused and recorded as running. */
  lemma {:induction false} FailedResetLeavesPaused() returns (states: seq<System>)
    ensures IsRun(states, FAILED_RESET)
    ensures var s := states[6]; s.node.state.Error? && StaysPaused(s) && !s.node.teleport.solverPaused
  {
    var s0 := System(SMALL_CONFIG, Node(WaitC4gFeedback, Startup(0.0, None), NO_TELEPORT, Feedback(None, 0.0, None)),
                     0.0, [], Solver(false, 0));
    assert IsInitial(s0);
    hide StepsTo, IsInitial, StaysPaused, AwaitsReset;
    var s1, s2, s3, s4 := PreparedReset(s0);
    var s5, s6 := FailedReset(s4);
    states := [s0, s1, s2, s3, s4, s5, s6];
    StepsMakeRun(s0, s1, s2, s3, s4, s5, s6);
  }

  lemma {:induction false} StepsMakeRun(
    s0: System, s1: System, s2: System, s3: System, s4: System, s5: System, s6: System)
    requires IsInitial(s0) && StepsTo(s0, FAILED_RESET[0], s1) && StepsTo(s1, FAILED_RESET[1], s2)
    requires StepsTo(s2, FAILED_RESET[2], s3) && StepsTo(s3, FAILED_RESET[3], s4)
    requires StepsTo(s4, FAILED_RESET[4], s5) && StepsTo(s5, FAILED_RESET[5], s6)
    ensures IsRun([s0, s1, s2, s3, s4, s5, s6], FAILED_RESET)
  {
    hide StepsTo, IsInitial;
  }

  // The node as it runs.

  class C4GGazeboSync {
    const config: Config
    var state: SyncState
    var startup: Startup
    var teleport: Teleport
    var feedback: Feedback

    ghost function View(): Node
      reads this
    {
      Node(state, startup, teleport, feedback)
    }

    constructor (config: Config, enabled: bool, now: real)
      ensures View() == Node(if enabled then Started(config) else Disabled, Startup(now, None),
                             NO_TELEPORT, Feedback(None, 0.0, None))
      ensures this.config == config
    {
      this.config := config;
      state := if enabled then Started(config) else Disabled;
      startup := Startup(now, None);
      teleport := NO_TELEPORT;
      feedback := Feedback(None, 0.0, None);
    }

    method EnableSync(now: real)
      modifies this
      ensures View() == EnableOf(config, old(View()), now)
    {
      if state != Disabled && state != Error {
        return;
      }
      startup := Startup(now, None);
      teleport := teleport.(resetStart := None, stableStart := None, reset := None, solver := None, target := None);
      state := Started(config);
    }

    method TeleportLimitError(target: Joints) returns (outside: bool)
      requires ValidConfig(config)
      ensures !outside <==> WithinLimits(config, target)
    {
      for i := 0 to 8
        invariant forall k :: 0 <= k < i ==>
                    config.lower[k] - config.limitTolerance <= target[k] <= config.upper[k] + config.limitTolerance
      {
        if target[i] < config.lower[i] - config.limitTolerance || target[i] > config.upper[i] + config.limitTolerance {
          return true;
        }
      }
      return false;
    }

    method ResetIsStable() returns (stable: bool)
      ensures stable <==> Stable(config, teleport, feedback)
    {
      if teleport.target.None? || feedback.gazebo.None? {
        return false;
      }
      var target, g := teleport.target.value, feedback.gazebo.value;
      for i := 0 to 8
        invariant forall k :: 0 <= k < i ==>
                    Distance(g.positions[k], target[k]) <= config.resetTolerance &&
                    Distance(g.velocities[k], 0.0) <= config.velocityTolerance
      {
        if Distance(g.positions[i], target[i]) > config.resetTolerance ||
           Distance(g.velocities[i], 0.0) > config.velocityTolerance {
          return false;
        }
      }
      return true;
    }

    method IsAtInitialPose(g: Gazebo) returns (there: bool)
      requires ValidConfig(config)
      ensures there <==> AtInitialPose(config, g)
    {
      for i := 0 to 6
        invariant forall k :: 0 <= k < i ==>
                    Distance(g.positions[k], config.initialPositions[k]) <= config.initialTolerance
      {
        if Distance(g.positions[i], config.initialPositions[i]) > config.initialTolerance {
          return false;
        }
      }
      return true;
    }

    method WaitInitial(t: Tick)
      requires ValidConfig(config)
      modifies this`state, this`startup
      ensures View() == old(TickInitial(config, View(), t))
    {
      if t.now - startup.startTime < config.startupDelay || feedback.gazebo.None? {
        return;
      }
      var there := IsAtInitialPose(feedback.gazebo.value);
      if !there {
        startup := startup.(poseReached := None);
        return;
      }
      if startup.poseReached.None? {
        startup := startup.(poseReached := Some(t.now));
        return;
      }
      if t.now - startup.poseReached.value < config.initialStable {
        return;
      }
      state := WaitC4gFeedback;
    }

    method WaitFeedback(t: Tick)
      requires ValidConfig(config)
      modifies this`state, this`teleport
      ensures View() == old(TickWait(config, View(), t))
    {
      if feedback.c4g.None? || t.now - feedback.c4gTime > config.feedbackTimeout {
        return;
      }
      var target := TargetOf(config, feedback.c4g.value);
      teleport := teleport.(target := Some(target));
      var outside := TeleportLimitError(target);
      if outside || !t.solverReady {
        state := Error;
        return;
      }
      teleport := Asked(teleport, false);
      state := PrepareTeleport;
    }

    method StartJointReset(t: Tick)
      modifies this`state, this`teleport
      ensures View() == old(StartReset(View(), t))
    {
      if teleport.target.None? || !t.resetReady {
        return;
      }
      teleport := teleport.(reset := Some(Pending), resetStart := Some(t.now), stableStart := None);
      state := ResetToReal;
    }

    method PollPrepare(t: Tick)
      modifies this`state, this`teleport
      ensures View() == old(TickPrepare(View(), t))
    {
      if teleport.solver.None? {
        StartJointReset(t);
        return;
      }
      if teleport.solver.value.Pending? {
        return;
      }
      var success := teleport.solver.value.success;
      teleport := teleport.(solver := None);
      if success != Some(true) {
        state := Error;
        return;
      }
      teleport := teleport.(solverPaused := true);
      StartJointReset(t);
    }

    method AbortTeleport(t: Tick)
      modifies this`state, this`teleport
      ensures View() == old(AbortOf(View(), t))
    {
      if teleport.solverPaused {
        if t.solverReady {
          teleport := Asked(teleport, true);
        }
        teleport := teleport.(solverPaused := false);
      }
      state := Error;
    }

    method PollReset(t: Tick)
      modifies this`state, this`teleport
      ensures View() == old(TickReset(config, View(), t))
    {
      if teleport.reset.None? {
        state := WaitC4gFeedback;
        return;
      }
      if teleport.reset.value.Pending? {
        if teleport.resetStart.Some? && t.now - teleport.resetStart.value > config.resetTimeout {
          teleport := teleport.(reset := None);
          AbortTeleport(t);
        }
        return;
      }
      var success := teleport.reset.value.success;
      teleport := teleport.(reset := None);
      if success != Some(true) {
        AbortTeleport(t);
        return;
      }
      teleport := teleport.(stableStart := None);
      state := VerifyReset;
    }

    method Verify(t: Tick)
      modifies this`state, this`teleport
      ensures View() == old(TickVerify(config, View(), t))
    {
      var stable := ResetIsStable();
      if stable {
        if teleport.stableStart.None? {
          teleport := teleport.(stableStart := Some(t.now));
          return;
        }
        if t.now - teleport.stableStart.value < config.stableDuration {
          return;
        }
        if !t.solverReady {
          state := Error;
          return;
        }
        teleport := Asked(teleport, true);
        state := ResumePassiveSolver;
        return;
      }
      teleport := teleport.(stableStart := None);
      if teleport.resetStart.Some? && t.now - teleport.resetStart.value > config.resetTimeout {
        AbortTeleport(t);
      }
    }

    method PollResume(t: Tick)
      modifies this`state, this`teleport
      ensures View() == old(TickResume(View(), t))
    {
      if teleport.solver.None? {
        state := Error;
        return;
      }
      if teleport.solver.value.Pending? {
        return;
      }
      var success := teleport.solver.value.success;
      teleport := teleport.(solver := None);
      if success != Some(true) {
        AbortTeleport(t);
        return;
      }
      teleport := teleport.(solverPaused := false);
      state := LiveSync;
    }

    method TimerCallback(t: Tick)
      requires ValidConfig(config)
      modifies this
      ensures View() == TickOf(config, old(View()), t)
    {
      match state {
        case Disabled =>
        case Error =>
        case WaitInitialGazebo => WaitInitial(t);
        case WaitC4gFeedback => WaitFeedback(t);
        case PrepareTeleport => PollPrepare(t);
        case ResetToReal => PollReset(t);
        case VerifyReset => Verify(t);
        case ResumePassiveSolver => PollResume(t);
        case LiveSync =>
      }
    }
  }
}
