/**
 * The command handshake: the bridge's `_perform_command` and `execute_callback` against
 * PDL2_ROS2_main_1's loop, over two FIFO channels of messages, with the strict echo check on. A close
 * stands for a timeout, an I/O error or any exception that makes the bridge drop the connection.
 */
module Handshake {
  import opened Strings
  import opened DecimalText
  import opened PdlText
  import opened PathActions
  import opened MovementsState
  import Motion = Controller

  /** read_from_LUN keeps 254 characters. */
  const MAX_MESSAGE := 254

  const FINAL_OK := "Movement finished"
  const FINAL_UNAVAILABLE := "Movement unavailable"
  const FINAL_ERROR := "ERROR"
  const FINAL_ABORTED := "Motion aborted"
  const START := "start"

  /** `listens` is set while executePath passes intermediate messages to a callback. */
  datatype Bridge =
    | Ready
    | AwaitEcho(command: string, listens: bool)
    | AwaitFinal(command: string, listens: bool)
    | Closed

  datatype Main =
    | Idle
    | Permission(command: string)
    | AwaitStart(command: string, retried: bool)
    | Movement(command: string)
    | Calling(command: string)
    | Running(command: string)
    | Error

  datatype Outcome = Outcome(command: string, final: string)

  /** What has happened: commands the bridge started, commands run to a result, results the bridge returned. */
  datatype History = History(started: seq<string>, runs: seq<Outcome>, returned: seq<Outcome>)

  datatype Link = Link(
    bridge: Bridge, main: Main, controller: Motion.Controller,
    toController: seq<string>, toBridge: seq<string>, history: History)

  datatype Event =
    | Send(command: string, listens: bool)
    | Receive
    | Close
    | Loop(other: int, reading: string)
    | Motion(motion: Motion.Event)

  function Cut(message: string): string {
    Bounded(message, MAX_MESSAGE)
  }

  predicate IsFinal(message: string) {
    message in {FINAL_OK, FINAL_UNAVAILABLE, FINAL_ERROR, FINAL_ABORTED}
  }

  predicate IsReading(message: string) {
    "JOINTS:" <= message || "POSE:" <= message
  }

  predicate IsIntermediate(message: string) {
    "PATH_" <= message
  }

  predicate Executes(command: string) {
    ActionOf(command) == Name(ExecutePath)
  }

  function FinalText(code: int): string {
    if code == RESULT_OK then FINAL_OK
    else if code == RESULT_UNAVAILABLE then FINAL_UNAVAILABLE
    else if code == RESULT_ABORTED then FINAL_ABORTED
    else FINAL_ERROR
  }

  function IntText(n: int): string {
    if n < 0 then "-" + Decimal(-n) else Decimal(n)
  }

  function Enabled(l: Link, e: Event): bool {
    match e
    case Send(command, listens) => l.bridge.Ready? && command != "" && (listens ==> Executes(command))
    case Receive => (l.bridge.AwaitEcho? || l.bridge.AwaitFinal?) && l.toBridge != []
    case Close => true
    case Loop(_, _) =>
      (l.main.Idle? || l.main.AwaitStart? ==> l.toController != []) && !l.main.Running?
    case Motion(m) =>
      !m.Serve? && !m.Reset? && Motion.Enabled(l.controller, m)
  }

  /** Sends the result of `command` and returns to the idle or error state. */
  function Completed(l: Link, command: string, controller: Motion.Controller, final: string): Link {
    l.(main := if final == FINAL_ERROR then Error else Idle, controller := controller, toBridge := l.toBridge + [final],
       history := l.history.(runs := l.history.runs + [Outcome(command, final)]))
  }

  /** What the controller's motion is doing is what its main loop has called. */
  predicate InService(l: Link) {
    && (l.main.Running? <==> l.controller.task.Along?)
    && (l.main.Calling? <==> l.controller.task.Cleared?)
  }

  /** One pass of the controller's main loop, up to its next read, the reset of the abort flag or the call. */
  function LoopStep(l: Link, other: int, reading: string): Link
    requires Invariant(l.controller.vars) && Enabled(l, Loop(other, reading))
    requires InService(l)
  {
    match l.main
    case Idle =>
      var command := Cut(l.toController[0]);
      l.(main := if command == "" then Idle else Permission(command), toController := l.toController[1..])
    case Permission(command) => l.(main := AwaitStart(command, false), toBridge := l.toBridge + [command])
    case AwaitStart(command, retried) =>
      var answer := Cut(l.toController[0]);
      l.(main := if answer == START then Movement(command)
                 else if answer == "" && !retried then AwaitStart(command, true) else Idle,
         toController := l.toController[1..])
    case Movement(command) =>
      if command == "getJoints" then Completed(l, command, l.controller, "JOINTS:" + reading)
      else if command == "getPose" then Completed(l, command, l.controller, "POSE:" + reading)
      else l.(main := Calling(command), controller := Motion.Next(l.controller, Motion.Reset))
    case Calling(command) =>
      var (controller, reply) := Motion.Served(l.controller.vars, command, other);
      if reply.Moving? then l.(main := Running(command), controller := controller)
      else Completed(l, command, controller, FinalText(reply.code))
    case Error => l.(main := Idle)
    case Running(_) => l
  }

  function Receives(l: Link): Link
    requires Enabled(l, Receive)
  {
    var message := l.toBridge[0];
    var next := l.(toBridge := l.toBridge[1..]);
    if l.bridge.AwaitEcho? then
      if message != l.bridge.command then next.(bridge := Closed)
      else
        next.(bridge := AwaitFinal(l.bridge.command, l.bridge.listens), toController := l.toController + [START],
              history := l.history.(started := l.history.started + [l.bridge.command]))
    else if IsFinal(message) || (!l.bridge.listens && IsReading(message)) then
      next.(bridge := Ready,
        history := l.history.(returned := l.history.returned + [Outcome(l.bridge.command, message)]))
    else if l.bridge.listens then next
    else next.(bridge := Closed)
  }

  function EventText(fields: string): (message: string)
    ensures IsIntermediate(message)
  {
    "PATH_EVENT:" + fields
  }

  function WaitingText(fields: string): (message: string)
    ensures IsIntermediate(message)
  {
    "PATH_WAITING:" + fields
  }

  /** What the condition handlers write to the bridge as the motion passes or stops at a node. */
  function Messages(l: Link, m: Motion.Event): seq<string>
    requires Invariant(l.controller.vars) && Enabled(l, Motion(m))
  {
    var s := Motion.Next(l.controller, m).vars;
    if m.Report? then [EventText(IntText(s.upload.id) + "," + IntText(m.node) + "," + IntText(m.code))]
    else if m.Visit? && s.run.waiting then [WaitingText(IntText(s.upload.id) + "," + IntText(s.run.node))]
    else []
  }

  function Moves(l: Link, m: Motion.Event): Link
    requires Invariant(l.controller.vars) && Enabled(l, Motion(m))
  {
    var controller := Motion.Next(l.controller, m);
    if m.Finish? && l.main.Running? then
      Completed(l, l.main.command, controller, FinalText(FinishExecution(l.controller.vars).1))
    else l.(controller := controller, toBridge := l.toBridge + Messages(l, m))
  }

  function Next(l: Link, e: Event): Link
    requires Invariant(l.controller.vars) && Enabled(l, e) && InService(l)
  {
    match e
    case Send(command, listens) =>
      l.(bridge := AwaitEcho(command, listens), toController := l.toController + [command])
    case Receive => Receives(l)
    case Close => l.(bridge := Closed)
    case Loop(other, reading) => LoopStep(l, other, reading)
    case Motion(m) => Moves(l, m)
  }

  // Lockstep.

  /** A started command is being served. */
  predicate Busy(main: Main) {
    main.Movement? || main.Calling? || main.Running?
  }

  predicate Resting(main: Main) {
    main.Idle? || main.Error?
  }

  predicate AllIntermediate(messages: seq<string>) {
    forall i :: 0 <= i < |messages| ==> IsIntermediate(messages[i])
  }

  /** The result still on its way is the one of the bridge's own command. */
  predicate ResultInFlight(messages: seq<string>, h: History, command: string) {
    && messages != []
    && var final := messages[|messages| - 1];
       && (IsFinal(final) || (IsReading(final) && |messages| == 1 && !Executes(command)))
       && AllIntermediate(messages[..|messages| - 1])
       && h.runs == h.returned + [Outcome(command, final)]
  }

  predicate EchoPending(l: Link)
    requires l.bridge.AwaitEcho?
  {
    var command := l.bridge.command;
    || (l.toController == [command] && l.toBridge == [] && Resting(l.main))
    || (l.toController == [] && l.toBridge == [] && l.main == Permission(Cut(command)))
    || (l.toController == [] && l.toBridge == [Cut(command)] && l.main == AwaitStart(Cut(command), false))
  }

  predicate FinalPending(l: Link)
    requires l.bridge.AwaitFinal?
  {
    var command := l.bridge.command;
    || (l.toController == [START] && l.toBridge == [] && l.main == AwaitStart(command, false)
       && l.history.runs == l.history.returned)
    || (l.toController == [] && l.toBridge == [] && l.main in {Movement(command), Calling(command)} &&
        l.history.runs == l.history.returned)
    || (l.toController == [] && AllIntermediate(l.toBridge) && l.main == Running(command)
       && l.history.runs == l.history.returned)
    || (l.toController == [] && Resting(l.main) && ResultInFlight(l.toBridge, l.history, command))
  }

  function Commands(outcomes: seq<Outcome>): (c: seq<string>)
    ensures |c| == |outcomes| && forall i :: 0 <= i < |c| ==> c[i] == outcomes[i].command
  {
    seq(|outcomes|, i requires 0 <= i < |outcomes| => outcomes[i].command)
  }

  /** The controller is committed to running its command, which the bridge has started. */
  predicate Owed(l: Link) {
    || (Busy(l.main) && l.toController == [])
    || (l.main.AwaitStart? && l.toController == [START])
  }

  /** After a close the controller may still finish the transaction it is in, and nothing else. */
  predicate Abandoned(l: Link) {
    var h := l.history;
    && h.returned <= h.runs
    && if Owed(l) then h.started == Commands(h.runs) + [l.main.command]
       else
         && h.started == Commands(h.runs)
         && (l.toController == [] || (|l.toController| == 1 && Resting(l.main)))
         && !Busy(l.main)
  }

  /** Bridge and controller are at matching points of the same transaction. */
  predicate InStep(l: Link) {
    var h := l.history;
    match l.bridge
    case Ready =>
      l.toController == [] && l.toBridge == [] && Resting(l.main) && h.runs == h.returned
        && Commands(h.runs) == h.started
    case AwaitEcho(command, listens) =>
      && command != "" && (listens ==> Executes(command))
      && h.runs == h.returned && Commands(h.runs) == h.started && EchoPending(l)
    case AwaitFinal(command, listens) =>
      && command != "" && |command| <= MAX_MESSAGE && (listens ==> Executes(command))
      && Commands(h.returned) + [command] == h.started && FinalPending(l)
    case Closed => Abandoned(l)
  }

  predicate StartedFit(h: History) {
    forall i :: 0 <= i < |h.started| ==> h.started[i] != "" && |h.started[i]| <= MAX_MESSAGE
  }

  predicate Good(l: Link) {
    && Motion.Safe(l.controller)
    && InService(l)
    && InStep(l)
    && StartedFit(l.history)
  }

  function Initial(): Link {
    Link(Ready, Idle, Motion.Controller(INITIAL, Motion.Idle), [], [], History([], [], []))
  }

  lemma {:induction false} InitialIsGood()
    ensures Good(Initial())
  {
    Motion.InitialIsSafe();
    assert Commands([]) == [];
  }

  // Messages are told apart by how they begin.

  lemma {:induction false} FinalsDiffer(message: string, code: int, reading: string)
    ensures IsIntermediate(message) ==> !IsFinal(message) && !IsReading(message)
    ensures IsFinal(FinalText(code))
    ensures IsReading("JOINTS:" + reading) && IsReading("POSE:" + reading)
    ensures FINAL_ERROR != "JOINTS:" + reading && FINAL_ERROR != "POSE:" + reading
  {
    if IsIntermediate(message) {
      assert message[1] == 'A' && message[0] == 'P';
    }
    assert "JOINTS:" + reading != FINAL_ERROR by { assert ("JOINTS:" + reading)[0] == 'J'; }
    assert "POSE:" + reading != FINAL_ERROR by { assert ("POSE:" + reading)[0] == 'P'; }
  }

  lemma {:induction false} PlainAction(command: string)
    requires ':' !in command && |command| <= TOKEN_LENGTH
    ensures ActionOf(command) == command
  {
    FindNone(command, ':');
    assert command[..|command|] == command;
  }

  lemma {:induction false} ReadingsDoNotExecute()
    ensures !Executes("getJoints") && !Executes("getPose")
  {
    PlainAction("getJoints");
    PlainAction("getPose");
    assert "getJoints"[0] == 'g' && "getPose"[0] == 'g' && "executePath"[0] == 'e';
  }

  // Every step keeps the two in step.

  predicate Paired(l: Link) {
    InStep(l) && StartedFit(l.history)
  }

  lemma {:induction false} SendStays(l: Link, command: string, listens: bool)
    requires Good(l) && Enabled(l, Send(command, listens))
    ensures Paired(Next(l, Send(command, listens)))
  {
  }

  lemma {:induction false} CloseStays(l: Link)
    requires Good(l)
    ensures Paired(Next(l, Close))
  {
  }

  /** The bridge starts the command exactly when the controller could hold all of it. */
  lemma {:induction false} EchoStays(l: Link)
    requires Good(l) && l.bridge.AwaitEcho? && Enabled(l, Receive)
    ensures Paired(Receives(l))
    ensures Receives(l).bridge.AwaitFinal? <==> |l.bridge.command| <= MAX_MESSAGE
  {
  }

  lemma {:induction false} ResultStays(l: Link)
    requires Paired(l) && l.bridge.AwaitFinal? && l.toController == [] && Resting(l.main)
    requires ResultInFlight(l.toBridge, l.history, l.bridge.command) && |l.toBridge| == 1
    ensures Paired(Receives(l))
  {
    assert l.toBridge == [l.toBridge[0]];
    FinalsDiffer(l.toBridge[0], 0, "");
  }

  lemma {:induction false} IntermediateStays(l: Link)
    requires Paired(l) && l.bridge.AwaitFinal? && l.toBridge != [] && IsIntermediate(l.toBridge[0])
    ensures Paired(Receives(l))
  {
    FinalsDiffer(l.toBridge[0], 0, "");
    var rest := l.toBridge[1..];
    if Resting(l.main) {
      assert |rest| > 0 ==> rest[|rest| - 1] == l.toBridge[|l.toBridge| - 1];
      assert |rest| > 0 ==> rest[..|rest| - 1] == l.toBridge[..|l.toBridge| - 1][1..];
    }
  }

  lemma {:induction false} FinalStays(l: Link)
    requires Good(l) && l.bridge.AwaitFinal? && Enabled(l, Receive)
    ensures Paired(Receives(l))
  {
    if IsIntermediate(l.toBridge[0]) {
      IntermediateStays(l);
    } else {
      ResultStays(l);
    }
  }

  /** The end of a command, whether it returned at once or moved. */
  lemma {:induction false} CompletedStays(l: Link, controller: Motion.Controller, final: string)
    requires Paired(l) && Busy(l.main) && !l.bridge.Ready? && !l.bridge.AwaitEcho?
    requires IsFinal(final) || (IsReading(final) && l.main.Movement? && !Executes(l.main.command))
    ensures Paired(Completed(l, l.main.command, controller, final))
  {
    var next := Completed(l, l.main.command, controller, final);
    assert next.toBridge[..|next.toBridge| - 1] == l.toBridge;
    assert Commands(next.history.runs) == Commands(l.history.runs) + [l.main.command];
  }

  /** While a command runs, the bridge either waits for its result or has closed. */
  lemma {:induction false} BusyBridge(l: Link)
    requires Paired(l) && Busy(l.main)
    ensures !l.bridge.Ready? && !l.bridge.AwaitEcho?
    ensures l.bridge.AwaitFinal? ==> l.main.command == l.bridge.command
  {
  }

  lemma {:induction false} MovementStays(l: Link, other: int, reading: string)
    requires Good(l) && l.main.Movement?
    ensures Paired(LoopStep(l, other, reading))
  {
    if l.main.command in {"getJoints", "getPose"} {
      QueryStays(l, other, reading);
    } else {
      ResetStays(l, other, reading);
    }
  }

  lemma {:induction false} QueryStays(l: Link, other: int, reading: string)
    requires Good(l) && l.main.Movement? && l.main.command in {"getJoints", "getPose"}
    ensures Paired(LoopStep(l, other, reading))
  {
    assert Invariant(l.controller.vars);
    hide InStep, Motion.Safe, StartedFit, Completed, LoopStep, Executes, IsReading, IsFinal, Invariant;
    BusyBridge(l);
    FinalsDiffer("", RESULT_OK, reading);
    ReadingsDoNotExecute();
    var prefix := if l.main.command == "getJoints" then "JOINTS:" else "POSE:";
    CompletedStays(l, l.controller, prefix + reading);
    QueryCompletes(l, other, reading, prefix);
  }

  lemma {:induction false} QueryCompletes(l: Link, other: int, reading: string, prefix: string)
    requires Invariant(l.controller.vars) && InService(l) && l.main.Movement?
    requires l.main.command in {"getJoints", "getPose"}
    requires prefix == if l.main.command == "getJoints" then "JOINTS:" else "POSE:"
    ensures LoopStep(l, other, reading) == Completed(l, l.main.command, l.controller, prefix + reading)
  {
    hide Completed, Invariant;
  }

  lemma {:induction false} ResetStays(l: Link, other: int, reading: string)
    requires Good(l) && l.main.Movement? && l.main.command !in {"getJoints", "getPose"}
    ensures Paired(LoopStep(l, other, reading))
  {
    hide Motion.Safe, Motion.Next, Executes, IsIntermediate, IsReading, IsFinal;
  }

  lemma {:induction false} CallStays(l: Link, other: int, reading: string)
    requires Good(l) && l.main.Calling?
    ensures Paired(LoopStep(l, other, reading))
  {
    hide CallService;
    BusyBridge(l);
    var (controller, reply) := Motion.Served(l.controller.vars, l.main.command, other);
    if reply.Returned? {
      FinalsDiffer("", reply.code, reading);
      CompletedStays(l, controller, FinalText(reply.code));
    }
  }

  lemma {:induction false} LoopStays(l: Link, other: int, reading: string)
    requires Good(l) && Enabled(l, Loop(other, reading))
    ensures Paired(LoopStep(l, other, reading))
  {
    if l.main.Movement? {
      MovementStays(l, other, reading);
    } else if l.main.Calling? {
      CallStays(l, other, reading);
    }
  }

  lemma {:induction false} FinishStays(l: Link)
    requires Good(l) && Enabled(l, Motion(Motion.Finish))
    ensures Paired(Moves(l, Motion.Finish))
  {
    BusyBridge(l);
    var code := FinishExecution(l.controller.vars).1;
    FinalsDiffer("", code, "");
    CompletedStays(l, Motion.Next(l.controller, Motion.Finish), FinalText(code));
  }

  /** One more intermediate message, or none, while the command goes on. */
  lemma {:induction false} AlongStays(l: Link, controller: Motion.Controller, messages: seq<string>)
    requires Paired(l) && AllIntermediate(messages) && (messages != [] ==> l.main.Running?)
    ensures Paired(l.(controller := controller, toBridge := l.toBridge + messages))
  {
    if messages == [] {
      assert l.toBridge + messages == l.toBridge;
    } else {
      BusyBridge(l);
    }
  }

  lemma {:induction false} MessagesAreIntermediate(l: Link, m: Motion.Event)
    requires Good(l) && Enabled(l, Motion(m))
    ensures AllIntermediate(Messages(l, m)) && (Messages(l, m) != [] ==> l.main.Running?)
  {
    assert Messages(l, m) == [] || l.controller.task.Along?;
  }

  lemma {:induction false} MovesStays(l: Link, m: Motion.Event)
    requires Good(l) && Enabled(l, Motion(m))
    ensures Paired(Moves(l, m))
  {
    if m.Finish? {
      FinishStays(l);
    } else {
      MessagesAreIntermediate(l, m);
      AlongStays(l, Motion.Next(l.controller, m), Messages(l, m));
    }
  }

  lemma {:induction false} MotionStays(l: Link, m: Motion.Event)
    requires Good(l) && Enabled(l, Motion(m))
    ensures var next := Moves(l, m);
            Motion.Safe(next.controller) && InService(next)
  {
    Motion.NextIsSafe(l.controller, m);
  }

  lemma {:induction false} LoopSafe(l: Link, other: int, reading: string)
    requires Good(l) && Enabled(l, Loop(other, reading))
    ensures var next := LoopStep(l, other, reading);
            Motion.Safe(next.controller) && InService(next)
  {
    hide InStep, StartedFit, Motion.Safe, CallService;
    if l.main.Movement? {
      Motion.NextIsSafe(l.controller, Motion.Reset);
    } else if l.main.Calling? {
      Motion.ServeIsSafe(l.controller, l.main.command, other);
    }
  }

  lemma {:induction false} ControllerStays(l: Link, e: Event)
    requires Good(l) && Enabled(l, e)
    ensures var next := Next(l, e);
            Motion.Safe(next.controller) && InService(next)
  {
    match e
    case Motion(m) => MotionStays(l, m);
    case Loop(other, reading) => LoopSafe(l, other, reading);
    case Send(_, _) =>
    case Receive =>
    case Close =>
  }

  lemma {:induction false} NextIsGood(l: Link, e: Event)
    requires Good(l) && Enabled(l, e)
    ensures Good(Next(l, e))
  {
    ControllerStays(l, e);
    match e
    case Send(command, listens) => SendStays(l, command, listens);
    case Receive =>
      if l.bridge.AwaitEcho? {
        EchoStays(l);
      } else {
        FinalStays(l);
      }
    case Close => CloseStays(l);
    case Loop(other, reading) => LoopStays(l, other, reading);
    case Motion(m) => MovesStays(l, m);
  }

  predicate StepsTo(l: Link, e: Event, next: Link) {
    Invariant(l.controller.vars) && Enabled(l, e) && InService(l) && next == Next(l, e)
  }

  /** A run of both programs from a state in lockstep, such as the initial one. */
  predicate IsRun(states: seq<Link>, events: seq<Event>) {
    && |states| == |events| + 1
    && Good(states[0])
    && (forall i :: 0 <= i < |events| ==> StepsTo(states[i], events[i], states[i + 1]))
  }

  lemma {:induction false} RunsAreGood(states: seq<Link>, events: seq<Event>, i: nat)
    requires IsRun(states, events) && i < |states|
    ensures Good(states[i])
  {
    if i > 0 {
      var j := i - 1;
      RunsAreGood(states, events, j);
      assert StepsTo(states[j], events[j], states[j + 1]);
      NextIsGood(states[j], events[j]);
    }
  }

  // The main results.

  /**
   * At every moment of every run: the commands the controller has run are those the bridge started, in
   * order, each once, with at most the last one outstanding; the results the bridge has returned are
   * the controller's, in order; and until the bridge closes, the two never differ by more than the
   * result on its way.
   */
  lemma {:induction false} LockstepHolds(states: seq<Link>, events: seq<Event>, i: nat)
    requires IsRun(states, events) && i < |states|
    ensures var h := states[i].history;
            && Commands(h.runs) <= h.started && |h.started| <= |h.runs| + 1
            && h.returned <= h.runs
            && (!states[i].bridge.Closed? ==> |h.runs| <= |h.returned| + 1)
            && (states[i].bridge.Ready? ==> h.returned == h.runs && h.started == Commands(h.runs))
  {
    RunsAreGood(states, events, i);
  }

  /** A command only runs after the bridge has seen it echoed unchanged and answered with start. */
  lemma {:induction false} RunningIsStarted(states: seq<Link>, events: seq<Event>, i: nat)
    requires IsRun(states, events) && i < |states|
    requires Busy(states[i].main)
    ensures var l := states[i];
            && l.history.started == Commands(l.history.runs) + [l.main.command]
            && 0 < |l.main.command| <= MAX_MESSAGE
            && (!l.bridge.Closed? ==> l.bridge.AwaitFinal? && l.bridge.command == l.main.command)
  {
    RunsAreGood(states, events, i);
    BusyBridge(states[i]);
    var h := states[i].history;
    assert h.started[|h.started| - 1] == states[i].main.command;
  }

  /** The bridge starts a command exactly when its echo is the command: when it fits the controller's buffer. */
  lemma {:induction false} EchoDecides(states: seq<Link>, events: seq<Event>, i: nat)
    requires IsRun(states, events) && i < |events|
    requires states[i].bridge.AwaitEcho? && events[i].Receive?
    ensures var command := states[i].bridge.command;
            if |command| <= MAX_MESSAGE then
              && states[i + 1].bridge == AwaitFinal(command, states[i].bridge.listens)
              && states[i + 1].history.started == states[i].history.started + [command]
            else
              states[i + 1].bridge == Closed && states[i + 1].history == states[i].history
  {
    RunsAreGood(states, events, i);
    assert StepsTo(states[i], events[i], states[i + 1]);
    EchoStays(states[i]);
  }
}
