/**
 * Uploading over the handshake: what the controller's PATH variables are, transaction by transaction,
 * while `execute_path_callback` sends its upload commands and abort requests may arrive at any moment.
 */
module Delivery {
  import opened PathActions
  import opened PathMessages
  import opened PathProtocol
  import opened MovementsState
  import opened Upload
  import opened Handshake
  import opened UploadScripts
  import Motion = Controller

  // What a run does to the PATH variables.

  predicate Aborts(e: Event) {
    e.Motion? && e.motion.Abort?
  }

  predicate IsQuery(command: string) {
    command == "getJoints" || command == "getPose"
  }

  /** The step of the controller at which its main loop calls a command. */
  predicate CallsCommand(l: Link, e: Event) {
    e.Loop? && l.main.Calling?
  }

  function Did(l: Link, e: Event): seq<Step> {
    if Aborts(e) then [Interrupt]
    else if e.Loop? && l.main.Movement? && !IsQuery(l.main.command) then [Clear]
    else if CallsCommand(l, e) then [Call(l.main.command)]
    else []
  }

  /** What a run has done from state i to state k. */
  function ScriptOf(states: seq<Link>, events: seq<Event>, i: nat, k: nat): seq<Step>
    requires i <= k < |states| == |events| + 1
  {
    if i == k then [] else ScriptOf(states, events, i, k - 1) + Did(states[k - 1], events[k - 1])
  }

  /** The controller's variables and runs since `base` are those of the script. */
  predicate Played(base: Link, l: Link, script: seq<Step>) {
    && Invariant(base.controller.vars) && base.history.runs <= l.history.runs && !l.controller.task.Along?
    && Play(base.controller.vars, script) == (l.controller.vars, l.history.runs[|base.history.runs|..])
  }

  predicate FreshUpload(base: Link, l: Link) {
    forall n :: |base.history.runs| <= n < |l.history.started| ==> Uploads(l.history.started[n])
  }

  lemma {:induction false} QueriesDoNotUpload(command: string)
    requires IsQuery(command)
    ensures !Uploads(command)
  {
    assert command[0] == 'g';
    PlainAction(command);
    NamedIsName(command);
    if Named(command).Some? {
      FirstLetters(Named(command).value);
    }
  }

  /** One more step of the script. */
  lemma {:induction false} PlayedSnoc(base: Link, l: Link, script: seq<Step>, step: Step, next: Link)
    requires Played(base, l, script) && Invariant(l.controller.vars) && l.history.runs <= next.history.runs
    requires !next.controller.task.Along?
    requires PlayStep(l.controller.vars, step) ==
             (next.controller.vars, next.history.runs[|l.history.runs|..])
    ensures Played(base, next, script + [step])
  {
    PlainSnoc(base.controller.vars, script, step);
    var n := |base.history.runs|;
    assert next.history.runs[n..] == l.history.runs[n..] + next.history.runs[|l.history.runs|..];
  }

  lemma {:induction false} CallPlays(base: Link, l: Link, other: int, reading: string, script: seq<Step>)
    requires Good(l) && Played(base, l, script) && l.main.Calling? && Uploads(l.main.command)
    ensures Played(base, LoopStep(l, other, reading), script + [Call(l.main.command)])
  {
    var command, next := l.main.command, LoopStep(l, other, reading);
    UploadReply(l.controller.vars, command, other);
    var (vars, reply) := CallService(l.controller.vars, command, other);
    hide CallService, Play, InStep, Motion.Safe, Invariant;
    assert next.history.runs == l.history.runs + [Outcome(command, Result(reply))];
    PlayedSnoc(base, l, script, Call(command), next);
  }

  lemma {:induction false} ClearPlays(base: Link, l: Link, other: int, reading: string, script: seq<Step>)
    requires Good(l) && Played(base, l, script) && l.main.Movement? && Uploads(l.main.command)
    ensures Played(base, LoopStep(l, other, reading), script + [Clear]) && !IsQuery(l.main.command)
  {
    if IsQuery(l.main.command) {
      QueriesDoNotUpload(l.main.command);
    }
    hide Play, InStep;
    assert l.history.runs[|l.history.runs|..] == [];
    PlayedSnoc(base, l, script, Clear, LoopStep(l, other, reading));
  }

  lemma {:induction false} MotionPlays(base: Link, l: Link, m: Motion.Event, script: seq<Step>)
    requires Good(l) && Enabled(l, Motion(m)) && Played(base, l, script)
    ensures Played(base, Moves(l, m), script + Did(l, Motion(m)))
  {
    hide Play, InStep;
    if m.Abort? {
      assert l.history.runs[|l.history.runs|..] == [] && l.toBridge + [] == l.toBridge;
      PlayedSnoc(base, l, script, Interrupt, Moves(l, m));
    } else {
      Motion.SignalsAreNotQueued(l.controller, m.pathId, m.expectedNode);
      assert script + [] == script;
    }
  }

  lemma {:induction false} LoopPlays(base: Link, l: Link, other: int, reading: string, script: seq<Step>)
    requires Good(l) && Enabled(l, Loop(other, reading)) && Played(base, l, script)
    requires Busy(l.main) ==> Uploads(l.main.command)
    ensures Played(base, LoopStep(l, other, reading), script + Did(l, Loop(other, reading)))
  {
    if l.main.Movement? {
      ClearPlays(base, l, other, reading, script);
    } else if l.main.Calling? {
      CallPlays(base, l, other, reading, script);
    } else {
      hide Play, CallService, Invariant;
      assert script + [] == script;
    }
  }

  /** The command being served is one the bridge has started. */
  lemma {:induction false} BusyIsStarted(base: Link, l: Link)
    requires Good(l) && Busy(l.main) && base.history.runs <= l.history.runs && FreshUpload(base, l)
    ensures Uploads(l.main.command)
  {
    assert l.history.started == Commands(l.history.runs) + [l.main.command];
    assert l.history.started[|l.history.runs|] == l.main.command;
    hide Motion.Safe, Uploads;
  }

  lemma {:induction false} StepPlays(base: Link, l: Link, e: Event, script: seq<Step>)
    requires Good(l) && Enabled(l, e) && Played(base, l, script) && FreshUpload(base, l)
    ensures Played(base, Next(l, e), script + Did(l, e))
  {
    match e
    case Loop(other, reading) =>
      if Busy(l.main) {
        BusyIsStarted(base, l);
      }
      LoopPlays(base, l, other, reading, script);
    case Motion(m) => MotionPlays(base, l, m, script);
    case Send(_, _) => BridgePlays(base, l, e, script);
    case Receive => BridgePlays(base, l, e, script);
    case Close => BridgePlays(base, l, e, script);
  }

  lemma {:induction false} BridgePlays(base: Link, l: Link, e: Event, script: seq<Step>)
    requires Good(l) && Enabled(l, e) && (e.Send? || e.Receive? || e.Close?) && Played(base, l, script)
    ensures Played(base, Next(l, e), script + Did(l, e))
  {
    hide Invariant, Play;
    assert script + [] == script;
  }

  lemma {:induction false} StartedGrows(l: Link, e: Event)
    requires Good(l) && Enabled(l, e)
    ensures l.history.started <= Next(l, e).history.started
  {
  }

  /** A stretch of a run, from a transaction boundary to a later state, in which the bridge starts upload commands. */
  predicate Stretch(states: seq<Link>, events: seq<Event>, i: nat, k: nat) {
    && IsRun(states, events) && i <= k < |states|
    && states[i].bridge.Ready? && states[i].controller.task.Idle?
    && FreshUpload(states[i], states[k])
  }

  lemma {:induction false} StretchShrinks(states: seq<Link>, events: seq<Event>, i: nat, k: nat)
    requires Stretch(states, events, i, k) && i < k
    ensures k < |states| == |events| + 1 && Stretch(states, events, i, k - 1) && Good(states[k - 1])
    ensures StepsTo(states[k - 1], events[k - 1], states[k])
  {
    RunsAreGood(states, events, k - 1);
    assert StepsTo(states[k - 1], events[k - 1], states[k]);
    StartedGrows(states[k - 1], events[k - 1]);
    hide Good, StepsTo;
  }

  lemma {:induction false} StretchIsPlayed(states: seq<Link>, events: seq<Event>, i: nat, k: nat)
    requires Stretch(states, events, i, k)
    ensures Played(states[i], states[k], ScriptOf(states, events, i, k))
  {
    if i == k {
      RunsAreGood(states, events, i);
      NothingPlayed(states[i]);
    } else {
      var j := k - 1;
      StretchShrinks(states, events, i, k);
      StretchIsPlayed(states, events, i, j);
      hide Good, Played, IsRun, FreshUpload;
      StepPlays(states[i], states[j], events[j], ScriptOf(states, events, i, j));
    }
  }

  lemma {:induction false} NothingPlayed(l: Link)
    requires Good(l) && !l.controller.task.Along?
    ensures Played(l, l, [])
  {
    assert l.history.runs[|l.history.runs|..] == [];
    hide InStep, Motion.Executing;
  }

  /** The results the bridge has returned since `base`. */
  function Since(base: Link, l: Link): seq<Outcome> {
    var n := |base.history.returned|;
    if n <= |l.history.returned| then l.history.returned[n..] else []
  }

  /**
   * At every transaction boundary the controller's PATH variables, and the results the bridge has
   * returned, are those of the commands and aborts of the run, one after another.
   */
  lemma {:induction false} BoundariesReplay(states: seq<Link>, events: seq<Event>, i: nat, k: nat)
    requires Stretch(states, events, i, k) && states[k].bridge.Ready?
    ensures Invariant(states[i].controller.vars)
    ensures (states[k].controller.vars, Since(states[i], states[k])) ==
            Play(states[i].controller.vars, ScriptOf(states, events, i, k))
    ensures Commands(Since(states[i], states[k])) == Calls(ScriptOf(states, events, i, k))
  {
    RunsAreGood(states, events, i);
    RunsAreGood(states, events, k);
    StretchIsPlayed(states, events, i, k);
    PlayResults(states[i].controller.vars, ScriptOf(states, events, i, k));
  }

  // Aborts between the commands.

  /** Since state i a command has been called before state j. */
  predicate CalledBefore(states: seq<Link>, i: nat, j: nat)
    requires i <= j < |states|
  {
    |states[j].history.runs| > |states[i].history.runs|
  }

  /** From i to k, an abort has arrived after the first command was called. */
  predicate AbortedAfter(states: seq<Link>, events: seq<Event>, i: nat, k: nat)
    requires i <= k < |states| == |events| + 1
  {
    exists j :: i <= j < k && Aborts(events[j]) && CalledBefore(states, i, j)
  }

  /** And a later command has then been called. */
  predicate AbortedBetween(states: seq<Link>, events: seq<Event>, i: nat, k: nat)
    requires i <= k < |states| == |events| + 1
  {
    exists m :: i <= m < k && CallsCommand(states[m], events[m]) && AbortedAfter(states, events, i, m)
  }

  lemma {:induction false} PlayedCalls(base: Link, l: Link, script: seq<Step>)
    requires Played(base, l, script)
    ensures Calls(script) != [] <==> |l.history.runs| > |base.history.runs|
  {
    PlayResults(base.controller.vars, script);
  }

  lemma {:induction false} AbortsGrow(states: seq<Link>, events: seq<Event>, i: nat, k: nat)
    requires i < k < |states| == |events| + 1
    ensures AbortedAfter(states, events, i, k) <==>
              AbortedAfter(states, events, i, k - 1) || (Aborts(events[k - 1]) && CalledBefore(states, i, k - 1))
    ensures AbortedBetween(states, events, i, k) <==>
              AbortedBetween(states, events, i, k - 1) ||
              (CallsCommand(states[k - 1], events[k - 1]) && AbortedAfter(states, events, i, k - 1))
  {
    hide CalledBefore, Aborts, CallsCommand;
  }

  /** The script tells both. */
  lemma {:induction false} ScriptTells(states: seq<Link>, events: seq<Event>, i: nat, k: nat)
    requires Stretch(states, events, i, k)
    ensures Stopped(ScriptOf(states, events, i, k)) <==> AbortedAfter(states, events, i, k)
    ensures Interrupted(ScriptOf(states, events, i, k)) <==> AbortedBetween(states, events, i, k)
  {
    hide *;
    if i >= k {
      NothingTold(states, events, i, k);
    } else {
      StretchShrinks(states, events, i, k);
      var j := k - 1;
      ScriptTells(states, events, i, j);
      StretchIsPlayed(states, events, i, j);
      PlayedCalls(states[i], states[j], ScriptOf(states, events, i, j));
      DidTells(states, events, i, j);
      ScriptGrows(ScriptOf(states, events, i, j), Did(states[j], events[j]));
      AbortsGrow(states, events, i, k);
    }
  }

  lemma {:induction false} NothingTold(states: seq<Link>, events: seq<Event>, i: nat, k: nat)
    requires Stretch(states, events, i, k) && i >= k
    ensures !Stopped(ScriptOf(states, events, i, k)) && !AbortedAfter(states, events, i, k)
    ensures !Interrupted(ScriptOf(states, events, i, k)) && !AbortedBetween(states, events, i, k)
  {
    hide IsRun, FreshUpload;
  }

  /** What a step of a stretch adds to the script. */
  lemma {:induction false} DidTells(states: seq<Link>, events: seq<Event>, i: nat, j: nat)
    requires Stretch(states, events, i, j) && j < |events| && StepsTo(states[j], events[j], states[j + 1])
    ensures var more := Did(states[j], events[j]);
            && |more| <= 1
            && (more == [Interrupt] <==> Aborts(events[j]))
            && (more != [] && more[0].Call? <==> CallsCommand(states[j], events[j]))
            && ScriptOf(states, events, i, j + 1) == ScriptOf(states, events, i, j) + more
    ensures CalledBefore(states, i, j) <==> |states[j].history.runs| > |states[i].history.runs|
  {
    hide Good, FreshUpload, StepsTo, IsRun;
  }

  lemma {:induction false} ScriptGrows(before: seq<Step>, more: seq<Step>)
    requires |more| <= 1
    ensures Stopped(before + more) <==> Stopped(before) || (more == [Interrupt] && Calls(before) != [])
    ensures Interrupted(before + more) <==> Interrupted(before) || (more != [] && more[0].Call? && Stopped(before))
  {
    if more == [] {
      assert before + more == before;
    } else {
      assert (before + more)[..|before|] == before;
    }
  }

  /**
   * At every transaction boundary after the first n commands of a goal's upload, with aborts anywhere: the
   * controller's committed nodes are the finished commits. The results are all "Movement finished" if the
   * goal is uploadable and no abort came between two of the commands; if one did, they are not. For the
   * whole upload this is exact; the controller then holds the goal, unless an abort came after the last
   * command.
   */
  lemma {:induction false} UploadIsDelivered(
    states: seq<Link>, events: seq<Event>, i: nat, k: nat, goal: Goal, maxNodes: nat, n: nat)
    requires Stretch(states, events, i, k) && states[k].bridge.Ready?
    requires Valid(goal, maxNodes) && TokensFit(Validated(goal)) && 0 < n <= |UploadCommands(Validated(goal))|
    requires Commands(Since(states[i], states[k])) == Texts(UploadCommands(Validated(goal)))[..n]
    ensures var path, vars := Validated(goal), states[k].controller.vars;
            var results := Since(states[i], states[k]);
            && FirstFinished(results) && vars.upload.committed == FinishedNodes(results)
            && (Uploadable(goal) && !AbortedBetween(states, events, i, k) ==> AllFinished(results))
            && (AbortedBetween(states, events, i, k) ==> !AllFinished(results))
            && (n == |UploadCommands(path)| && AllFinished(results) ==>
                  && Uploadable(goal)
                  && (if AbortedAfter(states, events, i, k) then vars.run.state == PathAborted
                      else ReadyWith(vars, path)))
  {
    BoundariesReplay(states, events, i, k);
    ScriptTells(states, events, i, k);
    UploadIsPlayed(states[i].controller.vars, ScriptOf(states, events, i, k), goal, maxNodes, n);
  }
}
