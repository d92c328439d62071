/**
 * `execute_path_callback` once its upload is over: the executePath it sends, and what the result the
 * bridge returns for it says about the move.
 */
module PathCallback {
  import opened PathMessages
  import opened PathProtocol
  import opened PdlText
  import opened RoundTrip
  import opened MovementsState
  import opened Upload
  import opened PathModel
  import opened Cutting
  import opened Handshake
  import opened UploadScripts
  import opened Delivery
  import opened UploadLoop
  import Motion = Controller
  import opened Execution

  function ExecuteText(path: Goal): string {
    ExecuteCommand(path).Text()
  }

  /** The bridge sends executePath at i and returns its result at k. */
  predicate Transaction(states: seq<Link>, events: seq<Event>, path: Goal, i: nat, k: nat) {
    && IsRun(states, events) && i < k < |states|
    && states[i].bridge.Ready? && events[i] == Send(ExecuteText(path), true)
    && (forall j :: i < j < k ==> !states[j].bridge.Ready?) && states[k].bridge.Ready?
  }

  /** An abort at j, before the result of the command sent at i was decided. */
  predicate AbortsBefore(states: seq<Link>, events: seq<Event>, i: nat, j: nat)
    requires i < |states| && j < |events| < |states|
  {
    Aborts(events[j]) && |states[j].history.runs| <= |states[i].history.runs|
  }

  predicate Hit(states: seq<Link>, events: seq<Event>, i: nat, j: nat)
    requires i <= j < |states| == |events| + 1
  {
    states[i].controller.vars.run.state == PathAborted || exists a :: i <= a < j && AbortsBefore(states, events, i, a)
  }

  /** The move's last step, with the goal's range visited and one signal used for each of its wait nodes. */
  predicate CarriesOut(l: Link, e: Event, path: Goal) {
    && e == Motion(Motion.Finish) && l.controller.task.Along?
    && l.controller.task.visited == Range(path.startIndex, path.endIndex)
    && l.controller.task.signals == Count(l.controller.task.visited, WaitsIn(path))
  }

  /** The goal's nodes and range are the controller's. */
  predicate Holds(s: Movements, path: Goal) {
    && s.upload.first == path.startIndex && s.upload.last == path.endIndex
    && s.Nodes() == ExpectedNodes(path, |path.nodes|)
  }

  /** Before the result: the goal is held, or moved along, unless an abort has hit it. */
  predicate Pending(l: Link, path: Goal, hit: bool) {
    var s, task := l.controller.vars, l.controller.task;
    && (hit ==> s.run.state == PathAborted)
    && if task.Along? then Holds(s, path) && (hit <==> task.cancelled)
       else !hit ==> ReadyWith(s, path) && (task.Cleared? ==> !s.run.aborted)
  }

  predicate Decided(base: Link, l: Link, path: Goal, hit: bool) {
    && |l.history.runs| == |base.history.runs| + 1 && base.history.runs <= l.history.runs
    && var result := l.history.runs[|base.history.runs|];
       result.command == ExecuteText(path) && result.final in {FINAL_OK, FINAL_ABORTED, FINAL_UNAVAILABLE} &&
       (result.final == FINAL_OK <==> !hit)
  }

  /** How far the transaction has come. */
  predicate Serving(base: Link, l: Link, path: Goal, hit: bool) {
    && l.bridge in {AwaitEcho(ExecuteText(path), true), AwaitFinal(ExecuteText(path), true)}
    && (if l.history.runs == base.history.runs then Pending(l, path, hit) else Decided(base, l, path, hit))
  }

  lemma {:induction false} CallServes(l: Link, other: int, reading: string, path: Goal, maxNodes: nat, hit: bool)
    requires Good(l) && l.main == Calling(ExecuteText(path)) && Pending(l, path, hit)
    requires Resolved(path, maxNodes) && AllFit(ExecuteCommand(path).values)
    ensures var next := LoopStep(l, other, reading);
            && next.bridge == l.bridge
            && if hit then next.history.runs == l.history.runs + [Outcome(ExecuteText(path), FINAL_UNAVAILABLE)]
               else next.history == l.history && Pending(next, path, false)
  {
    if hit {
      HitCallServes(l, other, reading, path);
    } else {
      hide Dispatch, ParamsOf, ActionOf, CallService, Resolved, InStep;
      var s := l.controller.vars;
      assert ResetAbort(s) == s;
      ExecuteStarts(s, path, maxNodes, other);
      Motion.ServedStates(s, ExecuteText(path), other);
    }
  }

  lemma {:induction false} HitCallServes(l: Link, other: int, reading: string, path: Goal)
    requires Good(l) && l.main == Calling(ExecuteText(path)) && Pending(l, path, true)
    requires AllFit(ExecuteCommand(path).values)
    ensures var next := LoopStep(l, other, reading);
            && next.bridge == l.bridge
            && next.history.runs == l.history.runs + [Outcome(ExecuteText(path), FINAL_UNAVAILABLE)]
  {
    hide Invariant, ReadyWith, InStep, CallService, Printable;
    PrintedCommand(l.controller.vars, ExecuteCommand(path), other);
  }

  lemma {:induction false} FinishServes(l: Link, path: Goal, hit: bool)
    requires Good(l) && Enabled(l, Motion(Motion.Finish)) && Pending(l, path, hit)
    ensures var next := Moves(l, Motion.Finish);
            && next.bridge == l.bridge && l.main.Running?
            && next.history.runs ==
               l.history.runs + [Outcome(l.main.command, if hit then FINAL_ABORTED else FINAL_OK)]
    ensures !hit ==> CarriesOut(l, Motion(Motion.Finish), path)
  {
    if !hit {
      Motion.DoneVisitedEverything(l.controller);
      WaitsAreCounted(l.controller.vars, path, l.controller.task.visited);
    }
    hide Invariant, InStep;
  }

  lemma {:induction false} MotionServes(l: Link, m: Motion.Event, path: Goal, hit: bool)
    requires Good(l) && Enabled(l, Motion(m)) && !m.Finish? && Pending(l, path, hit)
    ensures var next := Moves(l, m);
            next.bridge == l.bridge && next.history == l.history && Pending(next, path, hit || m.Abort?)
  {
    hide Invariant, InStep;
    if l.controller.task.Along? {
      MotionKeepsPath(l.controller, m);
      Motion.NextIsSafe(l.controller, m);
    } else if m.Continue? {
      Motion.SignalsAreNotQueued(l.controller, m.pathId, m.expectedNode);
    }
  }

  /** The steps of the main loop that do not call the command. */
  lemma {:induction false} LoopServes(l: Link, other: int, reading: string, path: Goal, hit: bool)
    requires Good(l) && Enabled(l, Loop(other, reading)) && Pending(l, path, hit) && !l.main.Calling?
    requires l.main.Movement? ==> !IsQuery(l.main.command)
    ensures var next := LoopStep(l, other, reading);
            next.bridge == l.bridge && next.history == l.history && Pending(next, path, hit)
  {
    hide Invariant, InStep, CallService;
  }

  lemma {:induction false} EchoServes(base: Link, l: Link, path: Goal, hit: bool)
    requires Good(l) && Enabled(l, Receive) && Serving(base, l, path, hit) && l.bridge.AwaitEcho?
    ensures var next := Receives(l);
            && next.history.runs == l.history.runs && next.history.returned == l.history.returned
            && (!next.bridge.Closed? ==> Serving(base, next, path, hit))
            && !next.bridge.Ready?
  {
    hide Motion.Safe, Invariant, ReadyWith, Holds, InStep;
  }

  lemma {:induction false} MessageServes(base: Link, l: Link, path: Goal, hit: bool)
    requires Good(l) && Enabled(l, Receive) && Serving(base, l, path, hit) && l.bridge.AwaitFinal?
    requires IsIntermediate(l.toBridge[0])
    ensures var next := Receives(l);
            next.history == l.history && Serving(base, next, path, hit) && next.bridge.AwaitFinal?
  {
    FinalsDiffer(l.toBridge[0], 0, "");
    hide Motion.Safe, Invariant, ReadyWith, Holds, InStep;
  }

  /** Anything but an intermediate message is the result. */
  lemma {:induction false} ResultArrives(l: Link)
    requires Good(l) && Enabled(l, Receive) && l.bridge.AwaitFinal? && !IsIntermediate(l.toBridge[0])
    ensures l.history.runs == l.history.returned + [Outcome(l.bridge.command, l.toBridge[0])]
    ensures l.toController == [] && Resting(l.main)
  {
    hide Motion.Safe, Invariant;
  }

  lemma {:induction false} FinalServes(base: Link, l: Link, path: Goal, hit: bool)
    requires Good(l) && Enabled(l, Receive) && Serving(base, l, path, hit) && base.history.runs == l.history.returned
    requires l.bridge.AwaitFinal? && !IsIntermediate(l.toBridge[0])
    ensures var next := Receives(l);
            && next.bridge.Ready? && next.history.runs == l.history.runs
            && next.history.returned == next.history.runs && Decided(base, next, path, hit)
  {
    ResultArrives(l);
    hide Good, Pending;
  }

  /** The bridge's own steps, up to the result. */
  lemma {:induction false} ReceiveServes(base: Link, l: Link, path: Goal, hit: bool)
    requires Good(l) && Enabled(l, Receive) && Serving(base, l, path, hit) && base.history.runs == l.history.returned
    ensures var next := Receives(l);
            && next.history.runs == l.history.runs
            && (next.bridge.AwaitEcho? || next.bridge.AwaitFinal? ==>
                  Serving(base, next, path, hit) && next.history.returned == l.history.returned)
            && (next.bridge.Ready? ==> next.history.returned == next.history.runs && Decided(base, next, path, hit))
  {
    if l.bridge.AwaitEcho? {
      EchoServes(base, l, path, hit);
    } else if IsIntermediate(l.toBridge[0]) {
      MessageServes(base, l, path, hit);
    } else {
      FinalServes(base, l, path, hit);
    }
    hide Good, Receives, Decided, Pending, IsIntermediate;
  }

  lemma {:induction false} ResultDecides(base: Link, l: Link, next: Link, path: Goal, hit: bool, final: string)
    requires l.history.runs == base.history.runs
    requires next.history.runs == l.history.runs + [Outcome(ExecuteText(path), final)]
    requires final in {FINAL_OK, FINAL_ABORTED, FINAL_UNAVAILABLE} && (final == FINAL_OK <==> !hit)
    ensures Decided(base, next, path, hit)
  {
  }

  lemma {:induction false} FinalsAreDistinct()
    ensures FINAL_OK != FINAL_ABORTED && FINAL_OK != FINAL_UNAVAILABLE
  {
    FinalTextOk(RESULT_ABORTED);
    FinalTextOk(RESULT_UNAVAILABLE);
  }

  /** The command being served is the executePath. */
  lemma {:induction false} BusyExecutes(base: Link, l: Link, path: Goal, hit: bool)
    requires Good(l) && Serving(base, l, path, hit) && Busy(l.main)
    ensures l.main.command == ExecuteText(path) && !IsQuery(l.main.command)
  {
    BusyBridge(l);
    ReadingsDoNotExecute();
    hide Motion.Safe, Pending, ExecuteText;
  }

  lemma {:induction false} PendingLoop(
    base: Link, l: Link, other: int, reading: string, path: Goal, maxNodes: nat, hit: bool)
    requires Good(l) && Enabled(l, Loop(other, reading)) && Serving(base, l, path, hit)
    requires l.history.runs == base.history.runs
    requires Resolved(path, maxNodes) && AllFit(ExecuteCommand(path).values)
    ensures var next := LoopStep(l, other, reading);
            Serving(base, next, path, hit) && (next.history.runs == base.history.runs || hit)
  {
    FinalsAreDistinct();
    if Busy(l.main) {
      BusyExecutes(base, l, path, hit);
    }
    if l.main.Calling? {
      CallServes(l, other, reading, path, maxNodes, hit);
      if hit {
        ResultDecides(base, l, LoopStep(l, other, reading), path, true, FINAL_UNAVAILABLE);
      }
    } else {
      LoopServes(l, other, reading, path, hit);
    }
    hide Good, Pending, Invariant, Resolved, AllFit, LoopStep, ExecuteText;
  }

  lemma {:induction false} PendingMotion(base: Link, l: Link, m: Motion.Event, path: Goal, hit: bool)
    requires Good(l) && Enabled(l, Motion(m)) && Serving(base, l, path, hit) && l.history.runs == base.history.runs
    ensures var next := Moves(l, m);
            && Serving(base, next, path, hit || m.Abort?)
            && (next.history.runs == base.history.runs || hit || CarriesOut(l, Motion(m), path))
  {
    FinalsAreDistinct();
    if m.Finish? {
      FinishServes(l, path, hit);
      BusyExecutes(base, l, path, hit);
      ResultDecides(base, l, Moves(l, m), path, hit, if hit then FINAL_ABORTED else FINAL_OK);
    } else {
      MotionServes(l, m, path, hit);
    }
    hide Good, Pending, Invariant, CarriesOut, Moves, ExecuteText;
  }

  /** What the controller does while the result is outstanding. */
  lemma {:induction false} PendingServes(base: Link, l: Link, e: Event, path: Goal, maxNodes: nat, hit: bool)
    requires Good(l) && Enabled(l, e) && (e.Loop? || e.Motion?) && Serving(base, l, path, hit)
    requires l.history.runs == base.history.runs
    requires Resolved(path, maxNodes) && AllFit(ExecuteCommand(path).values)
    ensures Serving(base, Next(l, e), path, hit || Aborts(e))
    ensures Next(l, e).history.runs == base.history.runs || hit || CarriesOut(l, e, path)
  {
    match e
    case Loop(other, reading) => PendingLoop(base, l, other, reading, path, maxNodes, hit);
    case Motion(m) => PendingMotion(base, l, m, path, hit);
  }

  /** Once the result is on its way, nothing runs any more. */
  lemma {:induction false} DecidedStays(base: Link, l: Link, e: Event, path: Goal, hit: bool)
    requires Good(l) && Enabled(l, e) && (e.Loop? || e.Motion?) && Serving(base, l, path, hit)
    requires l.history.runs != base.history.runs && base.history.runs == l.history.returned
    ensures Serving(base, Next(l, e), path, hit) && Next(l, e).history.runs == l.history.runs
  {
    hide Motion.Safe, Invariant, CallService, Pending;
  }

  /** One step of the transaction. */
  lemma {:induction false} StepServes(base: Link, l: Link, e: Event, path: Goal, maxNodes: nat, hit: bool)
    requires Good(l) && Enabled(l, e) && Serving(base, l, path, hit) && base.history.runs == l.history.returned
    requires Resolved(path, maxNodes) && AllFit(ExecuteCommand(path).values)
    ensures var next, now := Next(l, e), hit || (Aborts(e) && |l.history.runs| <= |base.history.runs|);
            && (next.bridge.AwaitEcho? || next.bridge.AwaitFinal? ==>
                  Serving(base, next, path, now) && next.history.returned == l.history.returned)
            && (next.bridge.Ready? ==> next.history.returned == next.history.runs && Decided(base, next, path, now))
            && (next.history.runs != l.history.runs && !now ==> CarriesOut(l, e, path))
  {
    if e.Receive? {
      ReceiveServes(base, l, path, hit);
      hide Good, Serving, Receives;
    } else if e.Loop? || e.Motion? {
      BridgeUntouched(l, e);
      ControllerServes(base, l, e, path, maxNodes, hit);
      hide Good, Pending, Decided, CarriesOut, Invariant, Next, Enabled, Resolved, AllFit;
    } else {
      hide Good, Serving;
    }
  }

  lemma {:induction false} ControllerServes(base: Link, l: Link, e: Event, path: Goal, maxNodes: nat, hit: bool)
    requires Good(l) && Enabled(l, e) && (e.Loop? || e.Motion?) && Serving(base, l, path, hit)
    requires base.history.runs == l.history.returned
    requires Resolved(path, maxNodes) && AllFit(ExecuteCommand(path).values)
    ensures var next, now := Next(l, e), hit || (Aborts(e) && |l.history.runs| <= |base.history.runs|);
            && Serving(base, next, path, now)
            && (next.history.runs != l.history.runs && !now ==> CarriesOut(l, e, path))
  {
    if l.history.runs == base.history.runs {
      PendingServes(base, l, e, path, maxNodes, hit);
    } else {
      assert Decided(base, l, path, hit);
      DecidedStays(base, l, e, path, hit);
    }
    hide Good, Pending, Invariant, CarriesOut, Next, Enabled, Resolved, AllFit;
  }

  // The whole transaction.

  lemma {:induction false} ClosedStays(states: seq<Link>, events: seq<Event>, j: nat, k: nat)
    requires IsRun(states, events) && j <= k < |states| && states[j].bridge.Closed?
    ensures states[k].bridge.Closed?
  {
    if j < k {
      ClosedStays(states, events, j, k - 1);
      assert StepsTo(states[k - 1], events[k - 1], states[k]);
      hide Invariant;
    }
  }

  lemma {:induction false} HitGrows(states: seq<Link>, events: seq<Event>, i: nat, j: nat)
    requires i < j < |states| == |events| + 1
    ensures Hit(states, events, i, j) <==> Hit(states, events, i, j - 1) || AbortsBefore(states, events, i, j - 1)
  {
    hide AbortsBefore;
  }

  /** A move that carries the goal out has ended between i and j. */
  predicate CarriedOut(states: seq<Link>, events: seq<Event>, path: Goal, i: nat, j: nat)
    requires j < |states| == |events| + 1
  {
    exists m :: i < m < j && CarriesOut(states[m], events[m], path)
  }

  predicate Ended(states: seq<Link>, events: seq<Event>, path: Goal, i: nat, j: nat)
    requires i <= j < |states| == |events| + 1
  {
    states[j].history.runs != states[i].history.runs && !Hit(states, events, i, j) ==>
      CarriedOut(states, events, path, i, j)
  }

  predicate HeldOrAborted(l: Link, path: Goal) {
    l.controller.vars.run.state == PathAborted || ReadyWith(l.controller.vars, path)
  }

  lemma {:induction false} SendServes(states: seq<Link>, events: seq<Event>, path: Goal, i: nat, k: nat)
    requires Transaction(states, events, path, i, k) && i + 1 < k && HeldOrAborted(states[i], path)
    ensures Serving(states[i], states[i + 1], path, Hit(states, events, i, i + 1))
    ensures states[i + 1].history.returned == states[i].history.returned && Ended(states, events, path, i, i + 1)
  {
    RunsAreGood(states, events, i);
    assert StepsTo(states[i], events[i], states[i + 1]);
    HitGrows(states, events, i, i + 1);
    assert !states[i].controller.task.Along? && !states[i].controller.task.Cleared?;
    hide Good, Invariant, IsRun, StepsTo, AbortsBefore, ReadyWith, Holds, ExecuteText;
  }

  lemma {:induction false} TransactionHolds(
    states: seq<Link>, events: seq<Event>, path: Goal, maxNodes: nat, i: nat, k: nat, j: nat)
    requires Transaction(states, events, path, i, k) && HeldOrAborted(states[i], path) && i < j < k
    requires Resolved(path, maxNodes) && AllFit(ExecuteCommand(path).values)
    ensures Serving(states[i], states[j], path, Hit(states, events, i, j)) && Ended(states, events, path, i, j)
    ensures states[j].history.returned == states[i].history.returned == states[i].history.runs
  {
    hide *;
    StillAwaited(states, events, path, i, k, j);
    if j == i + 1 {
      SendServes(states, events, path, i, k);
    } else {
      TransactionHolds(states, events, path, maxNodes, i, k, j - 1);
      TransactionStep(states, events, path, maxNodes, i, j - 1);
    }
  }

  lemma {:induction false} StillAwaited(
    states: seq<Link>, events: seq<Event>, path: Goal, i: nat, k: nat, j: nat)
    requires Transaction(states, events, path, i, k) && i < j < k
    ensures k < |states| == |events| + 1
    ensures IsRun(states, events) && (states[j].bridge.AwaitEcho? || states[j].bridge.AwaitFinal?)
    ensures states[i].history.returned == states[i].history.runs
  {
    RunsAreGood(states, events, i);
    if states[j].bridge.Closed? {
      ClosedStays(states, events, j, k);
    }
    hide Motion.Safe, IsRun;
  }

  lemma {:induction false} TransactionStep(
    states: seq<Link>, events: seq<Event>, path: Goal, maxNodes: nat, i: nat, j: nat)
    requires IsRun(states, events) && i < j < |events|
    requires Serving(states[i], states[j], path, Hit(states, events, i, j)) && Ended(states, events, path, i, j)
    requires states[j].history.returned == states[i].history.returned == states[i].history.runs
    requires Resolved(path, maxNodes) && AllFit(ExecuteCommand(path).values)
    ensures var next, hit := states[j + 1], Hit(states, events, i, j + 1);
            && Ended(states, events, path, i, j + 1)
            && (next.bridge.AwaitEcho? || next.bridge.AwaitFinal? ==>
                  Serving(states[i], next, path, hit) && next.history.returned == states[j].history.returned)
            && (next.bridge.Ready? ==>
                  next.history.returned == next.history.runs && Decided(states[i], next, path, hit))
  {
    RunsAreGood(states, events, j);
    assert StepsTo(states[j], events[j], states[j + 1]);
    StepServes(states[i], states[j], events[j], path, maxNodes, Hit(states, events, i, j));
    HitGrows(states, events, i, j + 1);
    hide Good, Serving, Decided, Resolved, AllFit, Hit, IsRun, CarriesOut, Invariant, Next, Enabled;
  }

  /** The bridge has returned executePath's result, "Movement finished" if `ok` and another one otherwise. */
  predicate Returns(base: Link, l: Link, path: Goal, ok: bool) {
    var n := |base.history.returned|;
    && |l.history.returned| == n + 1 && base.history.returned <= l.history.returned
    && l.history.returned[n].command == ExecuteText(path)
    && l.history.returned[n].final in {FINAL_OK, FINAL_ABORTED, FINAL_UNAVAILABLE}
    && (l.history.returned[n].final == FINAL_OK <==> ok)
  }

  /**
   * The bridge's result for executePath on a controller that holds the goal, or was aborted meanwhile: it is
   * "Movement finished" exactly if no abort arrived before the controller was done, and then the move has
   * visited the goal's range in order and used one accepted signal for each of its wait nodes.
   */
  lemma {:induction false} ResultTells(
    states: seq<Link>, events: seq<Event>, path: Goal, maxNodes: nat, i: nat, k: nat)
    requires Transaction(states, events, path, i, k) && HeldOrAborted(states[i], path)
    requires Resolved(path, maxNodes) && AllFit(ExecuteCommand(path).values)
    ensures Returns(states[i], states[k], path, !Hit(states, events, i, k))
    ensures !Hit(states, events, i, k) ==> CarriedOut(states, events, path, i, k)
  {
    hide *;
    ResultIsDecided(states, events, path, maxNodes, i, k);
    ResultReads(states, events, path, i, k);
  }

  lemma {:induction false} ResultIsDecided(
    states: seq<Link>, events: seq<Event>, path: Goal, maxNodes: nat, i: nat, k: nat)
    requires Transaction(states, events, path, i, k) && HeldOrAborted(states[i], path)
    requires Resolved(path, maxNodes) && AllFit(ExecuteCommand(path).values)
    ensures i <= k < |states| == |events| + 1 && Ended(states, events, path, i, k)
    ensures Decided(states[i], states[k], path, Hit(states, events, i, k))
    ensures states[k].history.returned == states[k].history.runs
    ensures states[i].history.returned == states[i].history.runs
  {
    hide *;
    NotAtOnce(states, events, path, i, k);
    var j := k - 1;
    assert j + 1 == k;
    TransactionHolds(states, events, path, maxNodes, i, k, j);
    TransactionStep(states, events, path, maxNodes, i, j);
  }

  lemma {:induction false} ResultReads(states: seq<Link>, events: seq<Event>, path: Goal, i: nat, k: nat)
    requires i <= k < |states| == |events| + 1 && Ended(states, events, path, i, k)
    requires Decided(states[i], states[k], path, Hit(states, events, i, k))
    requires states[k].history.returned == states[k].history.runs
    requires states[i].history.returned == states[i].history.runs
    ensures Returns(states[i], states[k], path, !Hit(states, events, i, k))
    ensures !Hit(states, events, i, k) ==> CarriedOut(states, events, path, i, k)
  {
    hide Hit, CarriedOut, ExecuteText;
  }

  /** The result is not there right after the command is sent. */
  lemma {:induction false} NotAtOnce(states: seq<Link>, events: seq<Event>, path: Goal, i: nat, k: nat)
    requires Transaction(states, events, path, i, k)
    ensures i + 1 < k < |states| == |events| + 1 && IsRun(states, events) && states[k].bridge.Ready?
  {
    assert StepsTo(states[i], events[i], states[i + 1]);
    hide Invariant;
  }

  // From the upload to the end of the move.

  /** An abort has arrived after the upload's first command was called and before executePath's result was decided. */
  predicate AbortedBy(states: seq<Link>, events: seq<Event>, i: nat, k: nat)
    requires i <= k < |states| == |events| + 1
  {
    exists a :: 0 <= a < k && Aborts(events[a]) && CalledBefore(states, 0, a) && NotYetRun(states, i, a)
  }

  predicate NotYetRun(states: seq<Link>, i: nat, a: nat)
    requires i < |states| && a < |states|
  {
    |states[a].history.runs| <= |states[i].history.runs|
  }

  lemma {:induction false} RunsGrow(states: seq<Link>, events: seq<Event>, a: nat, b: nat)
    requires IsRun(states, events) && a <= b < |states|
    ensures |states[a].history.runs| <= |states[b].history.runs|
  {
    if a < b {
      RunsGrow(states, events, a, b - 1);
      RunsAreGood(states, events, b - 1);
      assert StepsTo(states[b - 1], events[b - 1], states[b]);
      RunsStep(states[b - 1], events[b - 1]);
      hide Good, IsRun, StepsTo;
    }
  }

  lemma {:induction false} RunsStep(l: Link, e: Event)
    requires Good(l) && Enabled(l, e)
    ensures |l.history.runs| <= |Next(l, e).history.runs|
  {
    hide Motion.Safe, Invariant, CallService, InStep;
  }

  lemma {:induction false} HitIsAborted(states: seq<Link>, events: seq<Event>, i: nat, k: nat)
    requires IsRun(states, events) && i < k < |states|
    requires |states[i].history.runs| > |states[0].history.runs|
    requires states[i].controller.vars.run.state == PathAborted <==>
               AbortedAfter(states[..i + 1], events[..i], 0, i)
    ensures Hit(states, events, i, k) <==> AbortedBy(states, events, i, k)
  {
    if AbortedBy(states, events, i, k) {
      var a :| 0 <= a < k && Aborts(events[a]) && CalledBefore(states, 0, a) && NotYetRun(states, i, a);
      if a < i {
        assert Aborts(events[..i][a]) && CalledBefore(states[..i + 1], 0, a);
      } else {
        assert AbortsBefore(states, events, i, a);
      }
    }
    if Hit(states, events, i, k) {
      if states[i].controller.vars.run.state == PathAborted {
        var a :| 0 <= a < i && Aborts(events[..i][a]) && CalledBefore(states[..i + 1], 0, a);
        RunsGrow(states, events, a, i);
        assert Aborts(events[a]) && CalledBefore(states, 0, a) && NotYetRun(states, i, a);
      } else {
        var a :| i <= a < k && AbortsBefore(states, events, i, a);
        RunsGrow(states, events, i, a);
        assert Aborts(events[a]) && CalledBefore(states, 0, a) && NotYetRun(states, i, a);
      }
    }
  }

  lemma {:induction false} ExecuteFits(goal: Goal, maxNodes: nat)
    requires Valid(goal, maxNodes) && TokensFit(Validated(goal))
    ensures Resolved(Validated(goal), maxNodes) && AllFit(ExecuteCommand(Validated(goal)).values)
  {
    ValidatedIsResolved(goal, maxNodes);
    hide Resolved, Valid;
    BeginFits(Validated(goal));
  }

  lemma {:induction false} BeginFits(path: Goal)
    requires TokensFit(path)
    ensures AllFit(ExecuteCommand(path).values)
  {
    hide Fits, Blocks;
    BeginsOnce(path, BlockCount(path));
    var values := BeginCommand(path).values;
    assert AllFit(UploadCommands(path)[0].values);
    assert Fits(values[0]) && Fits(values[3]) && Fits(values[4]);
    assert ExecuteCommand(path).values == [values[0], values[3], values[4]];
  }

  /** What the upload leaves when its loop has ended by itself. */
  lemma {:induction false} UploadLeaves(
    states: seq<Link>, events: seq<Event>, loops: seq<Uploader>, goal: Goal, maxNodes: nat, i: nat)
    requires Valid(goal, maxNodes) && TokensFit(Validated(goal)) && i == |events|
    requires IsUpload(states, events, loops, Texts(UploadCommands(Validated(goal))))
    requires loops[i].phase.Uploaded? && states[i].bridge.Ready?
    ensures HeldOrAborted(states[i], Validated(goal))
    ensures states[i].controller.vars.run.state == PathAborted <==> AbortedAfter(states, events, 0, i)
    ensures |states[i].history.runs| > |states[0].history.runs|
  {
    var commands := Texts(UploadCommands(Validated(goal)));
    LoopDelivers(states, events, loops, goal, maxNodes, i);
    LoopHolds(states, events, loops, commands, i);
    RunsAreGood(states, events, 0);
    assert |Commands(Since(states[0], states[i]))| == |commands|;
    hide Valid, TokensFit, IsRun;
  }

  /** `executed_nodes`. */
  function ExecutedNodes(path: Goal): int {
    (if path.endIndex >= path.startIndex then path.endIndex - path.startIndex
     else path.startIndex - path.endIndex) + 1
  }

  /** The nodes moved are as many as the callback reports. */
  predicate Counted(l: Link, path: Goal) {
    l.controller.task.Along? && |l.controller.task.visited| == ExecutedNodes(path)
  }

  /**
   * execute_path_callback on an open connection, from the announcement to the result: once the upload has
   * ended by itself, the bridge gets "Movement finished" for its executePath exactly if no abort arrived
   * after the announcement was called and before the controller was done. The move has then visited the
   * goal's range in order, as many nodes as are reported, with one accepted signal for each wait node.
   */
  lemma {:induction false} GoalIsCarriedOut(
    states: seq<Link>, events: seq<Event>, loops: seq<Uploader>, goal: Goal, maxNodes: nat, i: nat, k: nat)
    requires Valid(goal, maxNodes) && TokensFit(Validated(goal)) && i < |states| == |events| + 1
    requires IsUpload(states[..i + 1], events[..i], loops, Texts(UploadCommands(Validated(goal))))
    requires loops[i].phase.Uploaded? && Transaction(states, events, Validated(goal), i, k)
    ensures var path, ok := Validated(goal), !AbortedBy(states, events, i, k);
            && Uploadable(goal) && Returns(states[i], states[k], path, ok)
            && (ok ==> exists m :: i < m < k && CarriesOut(states[m], events[m], path) && Counted(states[m], path))
  {
    var path, before := Validated(goal), states[..i + 1];
    ExecuteFits(goal, maxNodes);
    NotAtOnce(states, events, path, i, k);
    hide Valid, TokensFit, IsUpload, IsRun, Hit, AbortedBy, AbortedAfter, ReadyWith, Uploadable, Transaction, Resolved;
    hide AllFit, CarriesOut, HeldOrAborted;
    LoopDelivers(before, events[..i], loops, goal, maxNodes, i);
    UploadLeaves(before, events[..i], loops, goal, maxNodes, i);
    ResultTells(states, events, path, maxNodes, i, k);
    HitIsAborted(states, events, i, k);
    if CarriedOut(states, events, path, i, k) {
      var m :| i < m < k && CarriesOut(states[m], events[m], path);
      VisitedNodes(states[m], events[m], path);
    }
  }

  lemma {:induction false} VisitedNodes(l: Link, e: Event, path: Goal)
    requires CarriesOut(l, e, path)
    ensures Counted(l, path)
  {
  }
}
