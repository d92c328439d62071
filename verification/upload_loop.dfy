/**
 * The loop in which `execute_path_callback` sends its upload commands over the handshake: one command a
 * transaction, on to the next only after "Movement finished", counting the committed nodes as it goes.
 */
module UploadLoop {
  import opened PathMessages
  import opened PathProtocol
  import opened MovementsState
  import opened Upload
  import opened Handshake
  import opened UploadScripts
  import opened Delivery

  /** Before a command, within its transaction, or out of the loop. */
  datatype Phase = Sending | Waiting | Uploaded | Failed | Canceled

  /** `index` is the next command's, `uploaded` the callback's `uploaded_nodes`. */
  datatype Uploader = Uploader(phase: Phase, index: nat, uploaded: nat)

  const START_UPLOAD := Uploader(Sending, 0, 0)

  /** The loop sends its next command and nothing else. */
  predicate Allows(u: Uploader, commands: seq<string>, e: Event) {
    e.Send? ==>
      u.phase.Sending? && u.index < |commands| && e.command == commands[u.index] && !e.listens
  }

  /** After a transaction's result: on to the next command, or out. */
  function AfterResult(u: Uploader, commands: seq<string>, final: string): Uploader
    requires u.index < |commands|
  {
    if final != FINAL_OK then u.(phase := Failed)
    else
      Uploader(if u.index + 1 == |commands| then Uploaded else Sending, u.index + 1,
               u.uploaded + (if COMMIT_PREFIX <= commands[u.index] then 1 else 0))
  }

  /** What a step of bridge and controller, which leads to `next`, does to the loop. */
  function LoopNext(u: Uploader, commands: seq<string>, e: Event, next: Link): Uploader {
    if e.Send? then u.(phase := Waiting)
    else if u.phase.Waiting? && next.bridge.Closed? then u.(phase := Failed)
    else if u.phase.Waiting? && next.bridge.Ready? && u.index < |commands| && next.history.returned != [] then
      AfterResult(u, commands, next.history.returned[|next.history.returned| - 1].final)
    else if u.phase.Sending? && next.bridge.Closed? then u.(phase := Failed)
    else u
  }

  /** One step; the loop may also notice a cancel request before its next command. */
  predicate LoopSteps(u: Uploader, commands: seq<string>, e: Event, next: Link, v: Uploader) {
    && Allows(u, commands, e)
    && (v == LoopNext(u, commands, e, next) ||
        (u.phase.Sending? && !e.Send? && !next.bridge.Closed? && v == u.(phase := Canceled)))
  }

  /** A run of the loop over a run of the handshake, on a bridge and a controller at rest. */
  predicate IsUpload(states: seq<Link>, events: seq<Event>, loops: seq<Uploader>, commands: seq<string>) {
    && IsRun(states, events) && |loops| == |states|
    && states[0].bridge.Ready? && states[0].controller.task.Idle?
    && loops[0] == START_UPLOAD && commands != []
    && (forall i :: 0 <= i < |events| ==> LoopSteps(loops[i], commands, events[i], states[i + 1], loops[i + 1]))
  }

  /** The transactions so far are those of the commands before `index`, all finished. */
  predicate Sent(base: Link, l: Link, u: Uploader, commands: seq<string>) {
    var done := Since(base, l);
    && u.index <= |commands|
    && base.history.returned <= l.history.returned
    && Commands(done) == commands[..u.index] && AllFinished(done)
    && u.uploaded == UploadedNodes(commands[..u.index])
  }

  /** They are those up to the command at `index`, which alone was not finished. */
  predicate Refused(base: Link, l: Link, u: Uploader, commands: seq<string>) {
    var results := Since(base, l);
    && u.index < |commands|
    && base.history.returned <= l.history.returned
    && Commands(results) == commands[..u.index + 1]
    && AllFinished(results[..u.index]) && results[u.index].final != FINAL_OK
    && u.uploaded == UploadedNodes(commands[..u.index])
  }

  /** Where the loop is, the bridge is. */
  predicate InLoop(base: Link, l: Link, u: Uploader, commands: seq<string>) {
    match u.phase
    case Sending => Sent(base, l, u, commands) && u.index < |commands| && l.bridge.Ready?
    case Waiting =>
      && Sent(base, l, u, commands) && u.index < |commands|
      && l.bridge in {AwaitEcho(commands[u.index], false), AwaitFinal(commands[u.index], false)}
    case Uploaded => Sent(base, l, u, commands) && u.index == |commands| && (l.bridge.Ready? || l.bridge.Closed?)
    case Canceled => Sent(base, l, u, commands) && (l.bridge.Ready? || l.bridge.Closed?)
    case Failed => l.bridge.Closed? || (l.bridge.Ready? && Refused(base, l, u, commands))
  }

  lemma {:induction false} ResultExtends(base: Link, l: Link, u: Uploader, commands: seq<string>, final: string)
    requires Sent(base, l, u, commands) && u.index < |commands|
    ensures var outcome := Outcome(commands[u.index], final);
            var next := l.(history := l.history.(returned := l.history.returned + [outcome]));
            && base.history.returned <= next.history.returned
            && Since(base, next) == Since(base, l) + [outcome]
            && Commands(Since(base, next)) == commands[..u.index + 1]
            && (AllFinished(Since(base, next)) <==> final == FINAL_OK)
            && UploadedNodes(commands[..u.index + 1]) ==
               u.uploaded + (if COMMIT_PREFIX <= commands[u.index] then 1 else 0)
  {
    var outcome := Outcome(commands[u.index], final);
    var next := l.(history := l.history.(returned := l.history.returned + [outcome]));
    var before, after := commands[..u.index], commands[..u.index + 1];
    assert after == before + [commands[u.index]] && after[..|after| - 1] == before;
    assert Since(base, next) == Since(base, l) + [outcome];
    FinishedSnoc(Since(base, l), outcome);
  }

  /** A step in which the bridge returns nothing leaves what has been sent as it is. */
  lemma {:induction false} SentStays(base: Link, l: Link, u: Uploader, commands: seq<string>, next: Link)
    requires Sent(base, l, u, commands) && next.history.returned == l.history.returned
    ensures Sent(base, next, u, commands)
  {
  }

  lemma {:induction false} ReceiveStays(base: Link, l: Link, u: Uploader, commands: seq<string>)
    requires Good(l) && Enabled(l, Receive) && InLoop(base, l, u, commands)
    ensures InLoop(base, Receives(l), LoopNext(u, commands, Receive, Receives(l)), commands)
    ensures u.phase.Waiting?
  {
    hide Good;
    var next := Receives(l);
    if next.bridge.Ready? {
      var final := l.toBridge[0];
      assert next.history.returned == l.history.returned + [Outcome(commands[u.index], final)];
      ResultExtends(base, l, u, commands, final);
      ResultStays(base, l, u, commands, next, final);
    } else {
      SentStays(base, l, u, commands, next);
    }
  }

  lemma {:induction false} ResultStays(
    base: Link, l: Link, u: Uploader, commands: seq<string>, next: Link, final: string)
    requires Sent(base, l, u, commands) && u.index < |commands| && u.phase.Waiting? && next.bridge.Ready?
    requires next.history.returned == l.history.returned + [Outcome(commands[u.index], final)]
    requires var results := Since(base, next);
             && results == Since(base, l) + [Outcome(commands[u.index], final)]
             && Commands(results) == commands[..u.index + 1] && (AllFinished(results) <==> final == FINAL_OK)
             && UploadedNodes(commands[..u.index + 1]) ==
                u.uploaded + (if COMMIT_PREFIX <= commands[u.index] then 1 else 0)
    ensures InLoop(base, next, AfterResult(u, commands, final), commands)
  {
    var done := Since(base, l);
    assert |Commands(done)| == u.index;
    assert Since(base, next)[..u.index] == done && Since(base, next)[u.index].final == final;
    hide UploadedNodes;
  }

  /** The steps of the controller and its channels do not touch the bridge. */
  lemma {:induction false} BridgeUntouched(l: Link, e: Event)
    requires Good(l) && Enabled(l, e) && (e.Loop? || e.Motion?)
    ensures Next(l, e).bridge == l.bridge && Next(l, e).history.returned == l.history.returned
  {
  }

  lemma {:induction false} LoopStays(base: Link, l: Link, u: Uploader, commands: seq<string>, e: Event, v: Uploader)
    requires Good(l) && Enabled(l, e) && InLoop(base, l, u, commands)
    requires LoopSteps(u, commands, e, Next(l, e), v)
    ensures InLoop(base, Next(l, e), v, commands)
  {
    match e
    case Receive => ReceiveStays(base, l, u, commands);
    case Send(_, _) => SentStays(base, l, u, commands, Next(l, e));
    case Close => SentOrFailed(base, l, u, commands, e);
    case Loop(_, _) =>
      BridgeUntouched(l, e);
      SentOrFailed(base, l, u, commands, e);
    case Motion(_) =>
      BridgeUntouched(l, e);
      SentOrFailed(base, l, u, commands, e);
  }

  lemma {:induction false} SentOrFailed(base: Link, l: Link, u: Uploader, commands: seq<string>, e: Event)
    requires Good(l) && Enabled(l, e) && InLoop(base, l, u, commands)
    requires Next(l, e).history.returned == l.history.returned
    ensures Since(base, Next(l, e)) == Since(base, l)
    ensures !u.phase.Failed? ==> Sent(base, Next(l, e), u, commands)
  {
  }

  lemma {:induction false} LoopHolds(states: seq<Link>, events: seq<Event>, loops: seq<Uploader>,
      commands: seq<string>, i: nat)
    requires IsUpload(states, events, loops, commands) && i < |states|
    ensures Good(states[i]) && InLoop(states[0], states[i], loops[i], commands)
  {
    RunsAreGood(states, events, i);
    if i == 0 {
      assert Since(states[0], states[0]) == [] && Commands([]) == commands[..0] == [];
    } else {
      var j := i - 1;
      LoopHolds(states, events, loops, commands, j);
      assert StepsTo(states[j], events[j], states[j + 1]);
      LoopStays(states[0], states[j], loops[j], commands, events[j], loops[j + 1]);
    }
  }

  // The goal's upload.

  predicate StartedIn(base: Link, l: Link, commands: seq<string>) {
    forall n :: |base.history.runs| <= n < |l.history.started| ==> l.history.started[n] in commands
  }

  lemma {:induction false} StartsStay(base: Link, l: Link, u: Uploader, commands: seq<string>, e: Event)
    requires Good(l) && Enabled(l, e) && InLoop(base, l, u, commands) && StartedIn(base, l, commands)
    ensures StartedIn(base, Next(l, e), commands)
  {
    if e.Receive? && l.bridge.AwaitEcho? {
      assert commands[u.index] in commands;
    }
  }

  /** The bridge starts nothing but the loop's commands. */
  lemma {:induction false} StartsAreCommands(
    states: seq<Link>, events: seq<Event>, loops: seq<Uploader>, commands: seq<string>, i: nat)
    requires IsUpload(states, events, loops, commands) && i < |states|
    ensures StartedIn(states[0], states[i], commands)
  {
    if i == 0 {
      RunsAreGood(states, events, 0);
    } else {
      var j := i - 1;
      LoopHolds(states, events, loops, commands, j);
      StartsAreCommands(states, events, loops, commands, j);
      assert StepsTo(states[j], events[j], states[j + 1]);
      StartsStay(states[0], states[j], loops[j], commands, events[j]);
    }
  }

  lemma {:induction false} LoopIsStretch(
    states: seq<Link>, events: seq<Event>, loops: seq<Uploader>, goal: Goal, maxNodes: nat, i: nat)
    requires Valid(goal, maxNodes) && TokensFit(Validated(goal))
    requires IsUpload(states, events, loops, Texts(UploadCommands(Validated(goal)))) && i < |states|
    ensures Stretch(states, events, 0, i)
  {
    var commands := Texts(UploadCommands(Validated(goal)));
    StartsAreCommands(states, events, loops, commands, i);
    UploadTexts(goal, maxNodes);
    forall n | |states[0].history.runs| <= n < |states[i].history.started|
      ensures Uploads(states[i].history.started[n])
    {
      var k :| 0 <= k < |commands| && commands[k] == states[i].history.started[n];
    }
  }

  /**
   * At every transaction boundary after the first command, whatever aborts have arrived, uploaded_nodes is
   * the controller's committed count. When the loop is over on an open connection, it has failed exactly if
   * the goal is not uploadable or an abort came between two of its commands. If it ended by itself the
   * controller holds the goal, unless an abort came after the last command; the state is then ABORTED.
   */
  lemma {:induction false} LoopDelivers(
    states: seq<Link>, events: seq<Event>, loops: seq<Uploader>, goal: Goal, maxNodes: nat, i: nat)
    requires Valid(goal, maxNodes) && TokensFit(Validated(goal))
    requires IsUpload(states, events, loops, Texts(UploadCommands(Validated(goal)))) && i < |states|
    requires states[i].bridge.Ready?
    ensures var u, vars := loops[i], states[i].controller.vars;
            && (u.index > 0 ==> u.uploaded == vars.upload.committed)
            && (u.phase in {Uploaded, Failed} ==>
                  (u.phase.Failed? <==> !Uploadable(goal) || AbortedBetween(states, events, 0, i)))
            && (u.phase.Uploaded? ==>
                  if AbortedAfter(states, events, 0, i) then vars.run.state == PathAborted
                  else ReadyWith(vars, Validated(goal)))
            && (u.phase in {Sending, Canceled} ==> !AbortedBetween(states, events, 0, i))
            && !u.phase.Waiting?
  {
    var commands, u := Texts(UploadCommands(Validated(goal))), loops[i];
    LoopHolds(states, events, loops, commands, i);
    LoopIsStretch(states, events, loops, goal, maxNodes, i);
    ResultsOfLoop(states[0], states[i], u, commands);
    var n := if u.phase.Failed? then u.index + 1 else u.index;
    if n > 0 {
      UploadIsDelivered(states, events, 0, i, goal, maxNodes, n);
    } else {
      assert |Commands(Since(states[0], states[i]))| == 0;
      NothingCalled(states, events, i);
    }
    hide Valid, TokensFit, IsUpload, Stretch, InLoop, UploadedNodes, FinishedNodes, ReadyWith;
    hide AbortedAfter, AbortedBetween;
  }

  /** The results at a boundary, and how many node commits were finished. */
  lemma {:induction false} ResultsOfLoop(base: Link, l: Link, u: Uploader, commands: seq<string>)
    requires InLoop(base, l, u, commands) && l.bridge.Ready? && u.index <= |commands|
    ensures var results := Since(base, l);
            && !u.phase.Waiting?
            && Commands(results) == commands[..if u.phase.Failed? then u.index + 1 else u.index]
            && (AllFinished(results) <==> !u.phase.Failed?)
            && FinishedNodes(results) == u.uploaded
            && (u.phase.Failed? && u.index == 0 ==> !FirstFinished(results))
            && (u.phase.Uploaded? ==> u.index == |commands|)
  {
    var results := Since(base, l);
    if u.phase.Failed? {
      var done := results[..u.index];
      AllFinishedNodes(done);
      assert Commands(done) == commands[..u.index];
      assert results == done + [results[u.index]];
      FinishedNodesSnoc(done, results[u.index]);
      FinishedSnoc(done, results[u.index]);
    } else {
      AllFinishedNodes(results);
    }
  }

  /** Before the first command no abort counts. */
  lemma {:induction false} NothingCalled(states: seq<Link>, events: seq<Event>, i: nat)
    requires Stretch(states, events, 0, i) && states[i].bridge.Ready? && Since(states[0], states[i]) == []
    ensures !AbortedAfter(states, events, 0, i) && !AbortedBetween(states, events, 0, i)
  {
    BoundariesReplay(states, events, 0, i);
    ScriptTells(states, events, 0, i);
    StoppedHasCall(ScriptOf(states, events, 0, i));
  }
}
