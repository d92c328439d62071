/**
 * What a list of upload commands does to the controller's PATH variables and what it answers, when abort
 * requests may arrive between any two of them.
 */
module UploadScripts {
  import opened Wrappers
  import opened Strings
  import opened Folding
  import opened PathMessages
  import opened PathActions
  import opened DecimalText
  import opened PdlText
  import opened RoundTrip
  import opened PathProtocol
  import opened MovementsState
  import opened Upload
  import opened Handshake

  /** A command of the upload protocol: it touches PATH variables and returns at once. */
  predicate Uploads(command: string) {
    Named(ActionOf(command)).Some? && !Executes(command)
  }

  /** reset_abort and call_service. */
  function Ran(s: Movements, command: string): (r: (Movements, Reply))
    requires Invariant(s)
    ensures Invariant(r.0)
  {
    MoveKeeps(s, []);
    CallServiceKeeps(ResetAbort(s), command, RESULT_UNAVAILABLE);
    CallService(ResetAbort(s), command, RESULT_UNAVAILABLE)
  }

  function Result(reply: Reply): string {
    if reply.Returned? then FinalText(reply.code) else FINAL_OK
  }

  /** Running the commands one after another, with their results. */
  function Replay(s: Movements, commands: seq<string>): (r: (Movements, seq<Outcome>))
    requires Invariant(s)
    ensures Invariant(r.0) && |r.1| == |commands|
  {
    if commands == [] then (s, [])
    else
      var command := commands[|commands| - 1];
      var (before, outcomes) := Replay(s, commands[..|commands| - 1]);
      var (after, reply) := Ran(before, command);
      (after, outcomes + [Outcome(command, Result(reply))])
  }

  lemma {:induction false} UploadDispatch(s: Movements, action: PathAction, p: seq<real>)
    requires Invariant(s) && action != ExecutePath
    ensures Dispatch(s, action, p).1.Returned? && Dispatch(s, action, p).0.run.aborted == s.run.aborted
  {
  }

  lemma {:induction false} UploadReply(s: Movements, command: string, other: int)
    requires Invariant(s) && Uploads(command)
    ensures CallService(s, command, other) == CallService(s, command, RESULT_UNAVAILABLE)
    ensures CallService(s, command, other).1.Returned?
    ensures CallService(s, command, other).0.run.aborted == s.run.aborted
  {
    var name := ActionOf(command);
    var action := Named(name).value;
    NamedIsName(name);
    NamesAreDistinct(action);
    if ParamsOf(command).Values? {
      UploadDispatch(s, action, ParamsOf(command).v);
    }
  }

  // Scripts: commands and what comes between them.

  /** The abort flag's reset, an abort request, or the call of a command. */
  datatype Step = Clear | Interrupt | Call(command: string)

  function Calls(script: seq<Step>): seq<string> {
    if script == [] then []
    else
      var last := script[|script| - 1];
      Calls(script[..|script| - 1]) + (if last.Call? then [last.command] else [])
  }

  function PlayStep(s: Movements, step: Step): (r: (Movements, seq<Outcome>))
    requires Invariant(s)
    ensures Invariant(r.0)
  {
    match step
    case Clear =>
      MoveKeeps(s, []);
      (ResetAbort(s), [])
    case Interrupt =>
      MoveKeeps(s, []);
      (RequestAbort(s), [])
    case Call(command) =>
      CallServiceKeeps(s, command, RESULT_UNAVAILABLE);
      var (after, reply) := CallService(s, command, RESULT_UNAVAILABLE);
      (after, [Outcome(command, Result(reply))])
  }

  /** The steps of a script one after another: the variables they leave and the results of the calls. */
  function Play(s: Movements, script: seq<Step>): (r: (Movements, seq<Outcome>))
    requires Invariant(s)
    ensures Invariant(r.0)
  {
    if script == [] then (s, [])
    else
      var (before, results) := Play(s, script[..|script| - 1]);
      var (after, more) := PlayStep(before, script[|script| - 1]);
      (after, results + more)
  }

  lemma {:induction false} PlayResults(s: Movements, script: seq<Step>)
    requires Invariant(s)
    ensures Commands(Play(s, script).1) == Calls(script) && |Play(s, script).1| == |Calls(script)|
  {
    if script != [] {
      PlayResults(s, script[..|script| - 1]);
      hide Invariant, CallService, Result;
    } else {
      assert Commands([]) == [];
    }
  }

  /** An abort has arrived after a call. */
  predicate Stopped(script: seq<Step>) {
    && script != []
    && var before := script[..|script| - 1];
       Stopped(before) || (script[|script| - 1].Interrupt? && Calls(before) != [])
  }

  /** An abort has arrived after a call and before another. */
  predicate Interrupted(script: seq<Step>) {
    && script != []
    && var before := script[..|script| - 1];
       Interrupted(before) || (script[|script| - 1].Call? && Stopped(before))
  }

  /** The variables when the first command is called, or now. */
  function Entry(s: Movements, script: seq<Step>): (r: Movements)
    requires Invariant(s)
    ensures Invariant(r)
  {
    if Calls(script) == [] then Play(s, script).0
    else Entry(s, script[..|script| - 1])
  }

  // Replaying and feeding.

  predicate AllFinished(outcomes: seq<Outcome>) {
    forall i :: 0 <= i < |outcomes| ==> outcomes[i].final == FINAL_OK
  }

  lemma {:induction false} FinalTextOk(code: int)
    ensures FinalText(code) == FINAL_OK <==> code == RESULT_OK
  {
    assert FINAL_OK[9] == 'f' && FINAL_UNAVAILABLE[9] == 'u' && FINAL_ABORTED[0] == 'M' && FINAL_ABORTED[1] == 'o';
    assert FINAL_ABORTED[2] == 't' && FINAL_OK[2] == 'v' && FINAL_ERROR[0] == 'E';
  }

  /** All results are OK exactly when feeding succeeds, and both leave the same variables. */
  lemma {:induction false} ReplayIsFeed(s: Movements, commands: seq<string>)
    requires Invariant(s) && forall i :: 0 <= i < |commands| ==> Uploads(commands[i])
    ensures AllFinished(Replay(s, commands).1) <==> Feed(ResetAbort(s), commands).Some?
    ensures AllFinished(Replay(s, commands).1) ==>
              Feed(ResetAbort(s), commands) == Some(ResetAbort(Replay(s, commands).0))
  {
    if commands != [] {
      var n := |commands| - 1;
      ReplayIsFeed(s, commands[..n]);
      ReplayStep(s, commands);
      var (before, outcomes) := Replay(s, commands[..n]);
      var reply := Ran(before, commands[n]).1;
      MoveKeeps(before, []);
      UploadReply(ResetAbort(before), commands[n], RESULT_UNAVAILABLE);
      FinalTextOk(reply.code);
    }
  }

  lemma {:induction false} FinishedSnoc(outcomes: seq<Outcome>, last: Outcome)
    ensures AllFinished(outcomes + [last]) <==> AllFinished(outcomes) && last.final == FINAL_OK
  {
    var all := outcomes + [last];
    assert all[|outcomes|] == last && forall i :: 0 <= i < |outcomes| ==> all[i] == outcomes[i];
  }

  lemma {:induction false} ReplayStep(s: Movements, commands: seq<string>)
    requires Invariant(s) && commands != []
    ensures var n := |commands| - 1;
            var (before, outcomes) := Replay(s, commands[..n]);
            AllFinished(Replay(s, commands).1) <==>
              AllFinished(outcomes) && Result(Ran(before, commands[n]).1) == FINAL_OK
  {
    var command := commands[|commands| - 1];
    var (before, outcomes) := Replay(s, commands[..|commands| - 1]);
    FinishedSnoc(outcomes, Outcome(command, Result(Ran(before, command).1)));
  }

  // The bridge's node count.

  const COMMIT_PREFIX := "commitPathNode:"

  /** `uploaded_nodes`: how many of the commands start with "commitPathNode:". */
  function UploadedNodes(commands: seq<string>): nat {
    if commands == [] then 0
    else
      UploadedNodes(commands[..|commands| - 1]) + (if COMMIT_PREFIX <= commands[|commands| - 1] then 1 else 0)
  }

  lemma {:induction false} PrefixIsAction(c: Command)
    ensures COMMIT_PREFIX <= c.Text() <==> c.action == CommitPathNode
  {
    var name := Name(c.action);
    NamesAreDistinct(c.action);
    NamesAreDistinct(CommitPathNode);
    assert c.Text() == name + [':'] + Join(c.values);
    FindAfter(name, ':', Join(c.values));
    if COMMIT_PREFIX <= c.Text() {
      var rest := c.Text()[|COMMIT_PREFIX|..];
      FindAfter("commitPathNode", ':', rest);
      assert c.Text() == "commitPathNode" + [':'] + rest;
      assert name == c.Text()[..14] == "commitPathNode";
    }
  }

  // A script in which no abort follows a call is a plain run of its calls.

  /** The abort flag does not matter to a command of the upload, apart from staying as it was. */
  lemma {:induction false} DispatchIgnoresFlag(s: Movements, action: PathAction, p: seq<real>)
    requires Invariant(s) && Invariant(ResetAbort(s)) && action != ExecutePath
    ensures ResetAbort(Dispatch(s, action, p).0) == Dispatch(ResetAbort(s), action, p).0
    ensures Dispatch(s, action, p).1 == Dispatch(ResetAbort(s), action, p).1
  {
    match action
    case BeginPath =>
    case SetPathFrame =>
    case SetPathCondition =>
    case PathNodeTarget =>
    case PathNodeMotion =>
    case PathNodeBlend =>
    case PathNodeSync =>
    case CommitPathNode =>
    case CommitPath =>
    case AbortPathUpload =>
  }

  lemma {:induction false} CallIgnoresFlag(s: Movements, command: string)
    requires Invariant(s) && Uploads(command)
    ensures Invariant(ResetAbort(s))
    ensures var (t, reply), (u, other) := CallService(s, command, RESULT_UNAVAILABLE), Ran(s, command);
            ResetAbort(t) == ResetAbort(u) && reply == other
  {
    hide Dispatch, Invariant, ParamsOf, ActionOf, Named;
    MoveKeeps(s, []);
    NamedIsName(ActionOf(command));
    if ParamsOf(command).Values? {
      DispatchIgnoresFlag(s, Named(ActionOf(command)).value, ParamsOf(command).v);
    }
  }

  /** Apart from the abort flag, `s` is `t`. */
  predicate SameButFlag(s: Movements, t: Movements) {
    ResetAbort(s) == ResetAbort(t)
  }

  predicate AllUpload(commands: seq<string>) {
    forall i :: 0 <= i < |commands| ==> Uploads(commands[i])
  }

  /** What the calls alone would have done and answered. */
  function Plain(s: Movements, script: seq<Step>): (Movements, seq<Outcome>)
    requires Invariant(s)
  {
    Replay(Entry(s, script), Calls(script))
  }

  lemma {:induction false} PlainSnoc(s: Movements, before: seq<Step>, step: Step)
    requires Invariant(s)
    ensures Calls(before + [step]) == Calls(before) + (if step.Call? then [step.command] else [])
    ensures Play(s, before + [step]).0 == PlayStep(Play(s, before).0, step).0
    ensures Play(s, before + [step]).1 == Play(s, before).1 + PlayStep(Play(s, before).0, step).1
    ensures step.Call? || Calls(before) != [] ==> Entry(s, before + [step]) == Entry(s, before)
  {
    assert (before + [step])[..|before|] == before;
  }

  lemma {:induction false} PlainCall(s: Movements, before: seq<Step>, command: string)
    requires Invariant(s) && Uploads(command)
    requires SameButFlag(Play(s, before).0, Plain(s, before).0) && Play(s, before).1 == Plain(s, before).1
    ensures var script := before + [Call(command)];
            SameButFlag(Play(s, script).0, Plain(s, script).0) && Play(s, script).1 == Plain(s, script).1
  {
    var t, u := Play(s, before).0, Plain(s, before).0;
    assert Ran(t, command) == Ran(u, command);
    hide Ran, CallService, Entry;
    PlainSnoc(s, before, Call(command));
    CallIgnoresFlag(t, command);
    var calls := Calls(before) + [command];
    assert calls[..|calls| - 1] == Calls(before);
  }

  /** Without an abort after the first call, results and variables are those of the calls alone. */
  lemma {:induction false} UnstoppedIsPlain(s: Movements, script: seq<Step>)
    requires Invariant(s) && AllUpload(Calls(script)) && !Stopped(script)
    ensures SameButFlag(Play(s, script).0, Plain(s, script).0) && Play(s, script).1 == Plain(s, script).1
  {
    if Calls(script) == [] {
      CallsNothing(s, script);
    } else {
      var before, last := script[..|script| - 1], script[|script| - 1];
      assert script == before + [last];
      PlainSnoc(s, before, last);
      assert forall i :: 0 <= i < |Calls(before)| ==> Calls(script)[i] == Calls(before)[i];
      UnstoppedIsPlain(s, before);
      hide Plain, PlayStep, Ran;
      if last.Call? {
        assert Calls(script)[|Calls(before)|] == last.command;
        PlainCall(s, before, last.command);
      } else {
        PlainClear(s, before);
      }
    }
  }

  lemma {:induction false} PlainClear(s: Movements, before: seq<Step>)
    requires Invariant(s) && Calls(before) != []
    requires SameButFlag(Play(s, before).0, Plain(s, before).0) && Play(s, before).1 == Plain(s, before).1
    ensures var script := before + [Clear];
            SameButFlag(Play(s, script).0, Plain(s, script).0) && Play(s, script).1 == Plain(s, script).1
  {
    PlainSnoc(s, before, Clear);
    assert Calls(before) + [] == Calls(before) && Play(s, before).1 + [] == Play(s, before).1;
  }

  lemma {:induction false} CallsNothing(s: Movements, script: seq<Step>)
    requires Invariant(s) && Calls(script) == []
    ensures Play(s, script).1 == [] && Plain(s, script) == Play(s, script)
  {
    PlayResults(s, script);
  }

  lemma {:induction false} StoppedHasCall(script: seq<Step>)
    ensures Stopped(script) || Interrupted(script) ==> Calls(script) != []
  {
    if script != [] {
      StoppedHasCall(script[..|script| - 1]);
    }
  }

  /** An abort after the last call drops the upload and leaves everything else. */
  lemma {:induction false} StoppedIsDropped(s: Movements, script: seq<Step>)
    requires Invariant(s) && AllUpload(Calls(script)) && Stopped(script) && !Interrupted(script)
    ensures SameButFlag(Play(s, script).0, RequestAbort(Plain(s, script).0)) && Play(s, script).1 == Plain(s, script).1
  {
    var before, last := script[..|script| - 1], script[|script| - 1];
    assert script == before + [last];
    PlainSnoc(s, before, last);
    StoppedHasCall(before);
    assert Calls(script) == Calls(before) && Calls(before) != [];
    if Stopped(before) {
      StoppedIsDropped(s, before);
    } else {
      UnstoppedIsPlain(s, before);
    }
  }

  // After an abort nothing of the upload is accepted any more.

  /** No upload is in progress, and none has been finished since the abort. */
  predicate Halted(s: Movements) {
    s.run.state == PathAborted && !s.upload.active && !s.pending.present
  }

  /** A command of the upload after its announcement. */
  predicate GoesOn(command: string) {
    Named(ActionOf(command)).Some? && Continues(Named(ActionOf(command)).value)
  }

  lemma {:induction false} HaltedDispatch(s: Movements, action: PathAction, p: seq<real>)
    requires Invariant(s) && Halted(s) && Continues(action)
    ensures Dispatch(s, action, p) == (s, Returned(RESULT_UNAVAILABLE))
  {
  }

  lemma {:induction false} HaltedRefuses(s: Movements, command: string)
    requires Invariant(s) && Halted(s) && GoesOn(command)
    ensures PlayStep(s, Call(command)).0 == s && PlayStep(s, Call(command)).1[0].final != FINAL_OK
  {
    var action := Named(ActionOf(command)).value;
    NamedIsName(ActionOf(command));
    NamesAreDistinct(action);
    if ParamsOf(command).Values? {
      HaltedDispatch(s, action, ParamsOf(command).v);
    }
    FinalTextOk(RESULT_PARSE_ERROR);
    FinalTextOk(RESULT_UNAVAILABLE);
    hide Dispatch, ActionOf, ParamsOf, Named;
  }

  predicate OneUpload(commands: seq<string>) {
    forall i :: 1 <= i < |commands| ==> GoesOn(commands[i])
  }

  lemma {:induction false} StoppedIsHalted(s: Movements, script: seq<Step>)
    requires Invariant(s) && OneUpload(Calls(script)) && Stopped(script)
    ensures Halted(Play(s, script).0) && Calls(script) != []
  {
    var before, last := script[..|script| - 1], script[|script| - 1];
    assert script == before + [last];
    PlainSnoc(s, before, last);
    if Stopped(before) {
      assert forall i :: 0 <= i < |Calls(before)| ==> Calls(script)[i] == Calls(before)[i];
      StoppedIsHalted(s, before);
      if last.Call? {
        assert Calls(script)[|Calls(before)|] == last.command;
        HaltedRefuses(Play(s, before).0, last.command);
      }
    }
  }

  lemma {:induction false} FinishedConcat(a: seq<Outcome>, b: seq<Outcome>)
    ensures AllFinished(a + b) <==> AllFinished(a) && AllFinished(b)
  {
    assert forall i :: 0 <= i < |a| ==> (a + b)[i] == a[i];
    assert forall i :: 0 <= i < |b| ==> (a + b)[|a| + i] == b[i];
  }

  /** A command called after an abort that followed the announcement is refused. */
  lemma {:induction false} InterruptedIsRefused(s: Movements, script: seq<Step>)
    requires Invariant(s) && OneUpload(Calls(script)) && Interrupted(script)
    ensures !AllFinished(Play(s, script).1)
  {
    var before, last := script[..|script| - 1], script[|script| - 1];
    assert script == before + [last];
    PlainSnoc(s, before, last);
    assert forall i :: 0 <= i < |Calls(before)| ==> Calls(script)[i] == Calls(before)[i];
    FinishedConcat(Play(s, before).1, PlayStep(Play(s, before).0, last).1);
    if Interrupted(before) {
      InterruptedIsRefused(s, before);
    } else {
      StoppedIsHalted(s, before);
      assert Calls(script)[|Calls(before)|] == last.command;
      HaltedRefuses(Play(s, before).0, last.command);
    }
  }

  // The controller's node count.

  /** How many node commits were finished. */
  function FinishedNodes(results: seq<Outcome>): nat {
    if results == [] then 0
    else
      var last := results[|results| - 1];
      FinishedNodes(results[..|results| - 1]) +
      (if last.final == FINAL_OK && COMMIT_PREFIX <= last.command then 1 else 0)
  }

  lemma {:induction false} FinishedNodesSnoc(results: seq<Outcome>, last: Outcome)
    ensures FinishedNodes(results + [last]) ==
            FinishedNodes(results) + (if last.final == FINAL_OK && COMMIT_PREFIX <= last.command then 1 else 0)
  {
    assert (results + [last])[..|results|] == results;
  }

  predicate FirstFinished(results: seq<Outcome>) {
    results != [] && results[0].final == FINAL_OK
  }

  lemma {:induction false} DispatchCounts(s: Movements, action: PathAction, p: seq<real>)
    requires Invariant(s) && action != AbortPathUpload && action != ExecutePath
    ensures var (t, reply) := Dispatch(s, action, p);
            if action.BeginPath? then reply == Returned(RESULT_OK) ==> t.upload.committed == 0
            else t.upload.committed ==
                 s.upload.committed + (if action.CommitPathNode? && reply == Returned(RESULT_OK) then 1 else 0)
  {
  }

  lemma {:induction false} CallCounts(s: Movements, c: Command)
    requires Invariant(s) && Printable(c) && c.action != AbortPathUpload && c.action != ExecutePath
    ensures var (t, results) := PlayStep(s, Call(c.Text()));
            if c.action.BeginPath? then
              results[0].final == FINAL_OK ==> t.upload.committed == FinishedNodes(results) == 0
            else t.upload.committed == s.upload.committed + FinishedNodes(results)
  {
    PrintedCommand(s, c, RESULT_UNAVAILABLE);
    var (t, reply) := Dispatch(s, c.action, RoundedAll(c.values));
    DispatchCounts(s, c.action, RoundedAll(c.values));
    UploadDispatch(s, c.action, RoundedAll(c.values));
    FinalTextOk(reply.code);
    PrefixIsAction(c);
    FinishedNodesSnoc([], Outcome(c.Text(), Result(reply)));
    hide Dispatch, Invariant;
  }

  /**
   * Once the announcement was finished, the controller's committed nodes are the finished commits, whatever
   * was refused and whenever an abort arrived.
   */
  lemma {:induction false} CommitsAreCounted(s: Movements, script: seq<Step>, commands: seq<Command>)
    requires Invariant(s) && Calls(script) == Texts(commands) && commands != [] && commands[0].action == BeginPath
    requires forall i :: 1 <= i < |commands| ==> Continues(commands[i].action)
    requires forall i :: 0 <= i < |commands| ==> Printable(commands[i])
    requires FirstFinished(Play(s, script).1)
    ensures Play(s, script).0.upload.committed == FinishedNodes(Play(s, script).1)
  {
    hide *;
    SnocScript(s, script, commands);
    var before, last := script[..|script| - 1], script[|script| - 1];
    if !last.Call? {
      OthersDoNotCount(s, before, last);
      CommitsAreCounted(s, before, commands);
    } else {
      var n := |commands| - 1;
      if n > 0 {
        CommitsAreCounted(s, before, commands[..n]);
      }
      LastCallCounts(s, before, commands[n]);
    }
  }

  /** What the last step of an upload's script is, and that the steps before it are such a script. */
  lemma {:induction false} SnocScript(s: Movements, script: seq<Step>, commands: seq<Command>)
    requires Invariant(s) && Calls(script) == Texts(commands) && commands != []
    requires forall i :: 1 <= i < |commands| ==> Continues(commands[i].action)
    requires FirstFinished(Play(s, script).1)
    ensures script != []
    ensures var before, last, n := script[..|script| - 1], script[|script| - 1], |commands| - 1;
            && script == before + [last]
            && (n > 0 ==> commands[n].action !in {BeginPath, AbortPathUpload, ExecutePath})
            && if last.Call? then
                 && last.command == commands[n].Text() && Calls(before) == Texts(commands[..n])
                 && (n == 0 <==> Calls(before) == [])
                 && (n > 0 ==> FirstFinished(Play(s, before).1))
               else Calls(before) == Texts(commands) && FirstFinished(Play(s, before).1)
  {
    var n := |commands| - 1;
    TextsSnoc(commands);
    assert script != [] && (n > 0 ==> commands[n].action !in {BeginPath, AbortPathUpload, ExecutePath});
    hide *;
    var before, last := script[..|script| - 1], script[|script| - 1];
    assert script == before + [last];
    PlainSnoc(s, before, last);
    FirstResult(s, before, last);
    if last.Call? {
      SnocInjective(Calls(before), last.command, Texts(commands[..n]), commands[n].Text());
    } else {
      assert Calls(before) + [] == Calls(before);
    }
  }

  lemma {:induction false} SnocInjective<T>(a: seq<T>, x: T, b: seq<T>, y: T)
    requires a + [x] == b + [y]
    ensures a == b && x == y
  {
    assert (a + [x])[..|a|] == a && (b + [y])[..|b|] == b && (a + [x])[|a|] == x && (b + [y])[|b|] == y;
  }

  lemma {:induction false} TextsSnoc(commands: seq<Command>)
    requires commands != []
    ensures var n := |commands| - 1;
            Texts(commands) == Texts(commands[..n]) + [commands[n].Text()] && Texts(commands) != []
    ensures |Texts(commands[..|commands| - 1])| == |commands| - 1
  {
  }

  lemma {:induction false} LastCallCounts(s: Movements, before: seq<Step>, c: Command)
    requires Invariant(s) && Printable(c) && c.action != AbortPathUpload && c.action != ExecutePath
    requires if Calls(before) == [] then c.action.BeginPath?
             else !c.action.BeginPath? && Play(s, before).0.upload.committed == FinishedNodes(Play(s, before).1)
    requires FirstFinished(Play(s, before + [Call(c.Text())]).1)
    ensures var (t, results) := Play(s, before + [Call(c.Text())]);
            t.upload.committed == FinishedNodes(results)
  {
    CallExtends(s, before, c);
    hide PlayStep, Play, Printable;
    if Calls(before) == [] {
      PlayResults(s, before);
    }
  }

  lemma {:induction false} FirstResult(s: Movements, before: seq<Step>, step: Step)
    requires Invariant(s)
    ensures |Play(s, before).1| == |Calls(before)|
    ensures Calls(before) != [] ==>
              (FirstFinished(Play(s, before + [step]).1) <==> FirstFinished(Play(s, before).1))
  {
    PlainSnoc(s, before, step);
    PlayResults(s, before);
  }

  lemma {:induction false} OthersDoNotCount(s: Movements, before: seq<Step>, step: Step)
    requires Invariant(s) && !step.Call?
    ensures Play(s, before + [step]).0.upload.committed == Play(s, before).0.upload.committed
    ensures Play(s, before + [step]).1 == Play(s, before).1
  {
    PlainSnoc(s, before, step);
    assert PlayStep(Play(s, before).0, step).1 == [];
  }

  lemma {:induction false} CallExtends(s: Movements, before: seq<Step>, c: Command)
    requires Invariant(s) && Printable(c) && c.action != AbortPathUpload && c.action != ExecutePath
    ensures var results := PlayStep(Play(s, before).0, Call(c.Text())).1;
            && |results| == 1
            && Play(s, before + [Call(c.Text())]).1 == Play(s, before).1 + results
            && FinishedNodes(Play(s, before).1 + results) == FinishedNodes(Play(s, before).1) + FinishedNodes(results)
            && var count := Play(s, before + [Call(c.Text())]).0.upload.committed;
               if c.action.BeginPath? then results[0].final == FINAL_OK ==> count == FinishedNodes(results) == 0
               else count == Play(s, before).0.upload.committed + FinishedNodes(results)
  {
    var results := PlayStep(Play(s, before).0, Call(c.Text())).1;
    PlainSnoc(s, before, Call(c.Text()));
    CallCounts(Play(s, before).0, c);
    hide PlayStep, Play;
    assert results == [results[0]];
    FinishedNodesSnoc(Play(s, before).1, results[0]);
    FinishedNodesSnoc([], results[0]);
  }

  // The upload of a goal.

  lemma {:induction false} UploadTexts(goal: Goal, maxNodes: nat)
    requires Valid(goal, maxNodes) && TokensFit(Validated(goal))
    ensures forall i :: 0 <= i < |UploadCommands(Validated(goal))| ==>
              Printable(UploadCommands(Validated(goal))[i]) && Uploads(Texts(UploadCommands(Validated(goal)))[i])
  {
    hide Valid, Blocks, Short;
    var path := Validated(goal);
    ValidatedIsResolved(goal, maxNodes);
    UploadIsShort(path, maxNodes);
    BeginsOnce(path, BlockCount(path));
    forall i | 0 <= i < |UploadCommands(path)|
      ensures Printable(UploadCommands(path)[i]) && Uploads(Texts(UploadCommands(path))[i])
    {
      PrintedUploads(UploadCommands(path)[i]);
    }
  }

  lemma {:induction false} PrintedUploads(c: Command)
    requires Short(c) && AllFit(c.values) && c.action != ExecutePath
    ensures Printable(c) && Uploads(c.Text())
  {
    NamesAreDistinct(c.action);
    NamesAreDistinct(ExecutePath);
    CommandRoundTrip(Name(c.action), c.values);
  }

  lemma {:induction false} ResetIsReady(s: Movements, path: Goal)
    ensures ReadyWith(ResetAbort(s), path) ==> ReadyWith(s, path)
  {
  }

  /** Replaying a prefix of texts whose whole feed is known. */
  lemma {:induction false} ReplayPrefix(s: Movements, texts: seq<string>, n: nat)
    requires Invariant(s) && n <= |texts| && forall i :: 0 <= i < |texts| ==> Uploads(texts[i])
    ensures Feed(ResetAbort(s), texts).Some? ==> AllFinished(Replay(s, texts[..n]).1)
    ensures n == |texts| ==>
              && (AllFinished(Replay(s, texts[..n]).1) <==> Feed(ResetAbort(s), texts).Some?)
              && (Feed(ResetAbort(s), texts).Some? ==>
                    Feed(ResetAbort(s), texts).value == ResetAbort(Replay(s, texts[..n]).0))
  {
    ReplayIsFeed(s, texts[..n]);
    FoldPrefix(FeedOne, ResetAbort(s), texts, n);
    assert texts[..|texts|] == texts;
  }

  lemma {:induction false} ReplayDelivers(s: Movements, goal: Goal, maxNodes: nat, n: nat)
    requires Invariant(s) && Valid(goal, maxNodes) && TokensFit(Validated(goal))
    requires n <= |UploadCommands(Validated(goal))|
    ensures var r := Replay(s, Texts(UploadCommands(Validated(goal)))[..n]);
            && (Uploadable(goal) ==> AllFinished(r.1))
            && (n == |UploadCommands(Validated(goal))| ==>
                  (AllFinished(r.1) <==> Uploadable(goal)) && (Uploadable(goal) ==> ReadyWith(r.0, Validated(goal))))
  {
    var texts := Texts(UploadCommands(Validated(goal)));
    UploadTexts(goal, maxNodes);
    MoveKeeps(s, []);
    ReplayPrefix(s, texts, n);
    UploadIsExact(ResetAbort(s), goal, maxNodes);
    ResetIsReady(Replay(s, texts[..n]).0, Validated(goal));
  }

  /** What an upload's commands are, apart from their parameters. */
  lemma {:induction false} UploadShape(goal: Goal, maxNodes: nat, n: nat)
    requires Valid(goal, maxNodes) && TokensFit(Validated(goal)) && 0 < n <= |UploadCommands(Validated(goal))|
    ensures var commands := UploadCommands(Validated(goal))[..n];
            && Texts(UploadCommands(Validated(goal)))[..n] == Texts(commands)
            && commands[0] == BeginCommand(Validated(goal)) && commands[0].action == BeginPath
            && (forall i :: 1 <= i < n ==> Continues(commands[i].action))
            && (forall i :: 0 <= i < n ==> Printable(commands[i]))
            && AllUpload(Texts(commands)) && OneUpload(Texts(commands))
  {
    hide Valid, Blocks, Short;
    var path, commands := Validated(goal), UploadCommands(Validated(goal));
    UploadTexts(goal, maxNodes);
    BeginsOnce(path, BlockCount(path));
    assert Texts(commands)[..n] == Texts(commands[..n]);
    forall i | 1 <= i < n
      ensures GoesOn(Texts(commands[..n])[i])
    {
      PrintedGoesOn(commands[i]);
    }
  }

  lemma {:induction false} PrintedGoesOn(c: Command)
    requires Printable(c) && Continues(c.action)
    ensures GoesOn(c.Text())
  {
    NamesAreDistinct(c.action);
    CommandRoundTrip(Name(c.action), c.values);
  }

  /** The announcement of a valid goal is accepted in every state. */
  lemma {:induction false} AnnouncementIsFinished(s: Movements, goal: Goal, maxNodes: nat)
    requires Invariant(s) && Valid(goal, maxNodes) && TokensFit(Validated(goal))
    ensures PlayStep(s, Call(BeginCommand(Validated(goal)).Text())).1[0].final == FINAL_OK
  {
    hide *;
    BeginIsPrintable(goal, maxNodes);
    BeginIsFinished(s, Validated(goal), maxNodes);
  }

  lemma {:induction false} BeginIsPrintable(goal: Goal, maxNodes: nat)
    requires Valid(goal, maxNodes) && TokensFit(Validated(goal))
    ensures Resolved(Validated(goal), maxNodes) && Printable(BeginCommand(Validated(goal)))
  {
    hide Resolved, Valid, TokensFit, Printable, Blocks;
    ValidatedIsResolved(goal, maxNodes);
    BeginsOnce(Validated(goal), BlockCount(Validated(goal)));
    UploadTexts(goal, maxNodes);
    assert Printable(UploadCommands(Validated(goal))[0]);
  }

  lemma {:induction false} BeginIsFinished(s: Movements, path: Goal, maxNodes: nat)
    requires Invariant(s) && Resolved(path, maxNodes) && Printable(BeginCommand(path))
    ensures PlayStep(s, Call(BeginCommand(path).Text())).1[0].final == FINAL_OK
  {
    hide Invariant, Resolved, Printable, Dispatch;
    BeginPerforms(s, path, maxNodes);
    PrintedCommand(s, BeginCommand(path), RESULT_UNAVAILABLE);
    FinalTextOk(RESULT_OK);
  }

  lemma {:induction false} FirstIsAnnouncement(s: Movements, script: seq<Step>, goal: Goal, maxNodes: nat)
    requires Invariant(s) && Valid(goal, maxNodes) && TokensFit(Validated(goal))
    requires Calls(script) != [] && Calls(script)[0] == BeginCommand(Validated(goal)).Text()
    ensures FirstFinished(Play(s, script).1)
  {
    assert script != [];
    hide *;
    var before, last := script[..|script| - 1], script[|script| - 1];
    assert script == before + [last];
    FirstCall(before, last);
    if Calls(before) == [] {
      AnnouncementIsFinished(Play(s, before).0, goal, maxNodes);
      OnlyResult(s, before, last);
    } else {
      FirstIsAnnouncement(s, before, goal, maxNodes);
      FirstResult(s, before, last);
    }
  }

  lemma {:induction false} FirstCall(before: seq<Step>, step: Step)
    ensures Calls(before) == [] ==>
              (Calls(before + [step]) != [] <==> step.Call?) &&
              (step.Call? ==> Calls(before + [step]) == [step.command])
    ensures Calls(before) != [] ==> Calls(before + [step]) != [] && Calls(before + [step])[0] == Calls(before)[0]
  {
    assert (before + [step])[..|before|] == before;
  }

  lemma {:induction false} OnlyResult(s: Movements, before: seq<Step>, step: Step)
    requires Invariant(s) && Calls(before) == [] && step.Call?
    requires PlayStep(Play(s, before).0, step).1[0].final == FINAL_OK
    ensures FirstFinished(Play(s, before + [step]).1)
  {
    CallsNothing(s, before);
    PlainSnoc(s, before, step);
    hide PlayStep, Play;
  }

  /**
   * The first n commands of a goal's upload, with aborts anywhere. They are all finished if the goal is
   * uploadable and no abort arrived between two of them; with such an abort they never are. For the whole
   * upload this is exact, and the controller then holds the goal unless an abort followed the last command.
   */
  lemma {:induction false} UploadIsPlayed(s: Movements, script: seq<Step>, goal: Goal, maxNodes: nat, n: nat)
    requires Invariant(s) && Valid(goal, maxNodes) && TokensFit(Validated(goal))
    requires 0 < n <= |UploadCommands(Validated(goal))|
    requires Calls(script) == Texts(UploadCommands(Validated(goal)))[..n]
    ensures var (vars, results) := Play(s, script);
            && FirstFinished(results) && vars.upload.committed == FinishedNodes(results)
            && (Uploadable(goal) && !Interrupted(script) ==> AllFinished(results))
            && (Interrupted(script) ==> !AllFinished(results))
            && (n == |UploadCommands(Validated(goal))| && AllFinished(results) ==>
                  && Uploadable(goal)
                  && (Stopped(script) ==> vars.run.state == PathAborted)
                  && (!Stopped(script) ==> ReadyWith(vars, Validated(goal))))
  {
    hide Valid, TokensFit, PlayStep, Uploadable, ReadyWith;
    UploadShape(goal, maxNodes, n);
    FirstIsAnnouncement(s, script, goal, maxNodes);
    CommitsAreCounted(s, script, UploadCommands(Validated(goal))[..n]);
    if Interrupted(script) {
      InterruptedIsRefused(s, script);
    } else {
      ReplayDelivers(Entry(s, script), goal, maxNodes, n);
      if Stopped(script) {
        StoppedIsDropped(s, script);
        StoppedIsHalted(s, script);
      } else {
        UnstoppedIsPlain(s, script);
        SameReady(Play(s, script).0, Plain(s, script).0, Validated(goal));
      }
    }
  }

  lemma {:induction false} SameReady(s: Movements, t: Movements, path: Goal)
    requires SameButFlag(s, t)
    ensures ReadyWith(s, path) <==> ReadyWith(t, path)
  {
    assert ReadyWith(ResetAbort(s), path) <==> ReadyWith(s, path);
    assert ReadyWith(ResetAbort(t), path) <==> ReadyWith(t, path);
  }

  /** If all were finished, the finished commits are the commits. */
  lemma {:induction false} AllFinishedNodes(results: seq<Outcome>)
    requires AllFinished(results)
    ensures FinishedNodes(results) == UploadedNodes(Commands(results))
  {
    if results != [] {
      var n := |results| - 1;
      AllFinishedNodes(results[..n]);
      assert Commands(results)[..n] == Commands(results[..n]);
    }
  }
}
