/**
 * path_sequence_action_server.py: one executor working through a sequence's blocks while signals and
 * cancel requests arrive from other threads. A cancel request runs the cancel callback first; the
 * goal's cancel flag becomes visible to the executor in a later step.
 */
module SequenceServer {
  import opened Wrappers
  import opened PathProtocol
  import opened PathBlocks

  const MAX_SEQUENCE_ID: nat := 2000000

  datatype Request = Request(sequenceId: nat, blocks: seq<Block>, checkStart: bool)

  /** The fields the threads share; zero is no active sequence and no wait. */
  datatype Shared = Shared(activeId: nat, waitingAfter: nat, continueRequested: bool, busy: bool)

  datatype End = Succeeded | Canceled | Aborted

  /** Where the executor is; `index` is the block it works on, `completed` its counter. */
  datatype Executor =
    | NoGoal
    | Accepted
    | Preparing
    | AtBlock(index: nat)
    | Checked(index: nat)
    | Running(index: nat)
    | Finished(index: nat)
    | Waiting(index: nat)
    | Polling(index: nat)
    | Ending(end: End)

  datatype Cancel = Cancel(called: bool, visible: bool)

  /**
   * What has happened in this goal: indexes of blocks sent, checked and succeeded, grants since the
   * current wait began, and blocks sent since the cancel flag became visible.
   */
  datatype History = History(sent: seq<nat>, checked: seq<nat>, succeeded: seq<nat>, grants: nat, late: nat)

  const NOTHING := History([], [], [], 0, 0)

  datatype Server = Server(
    request: Request, shared: Shared, executor: Executor, completed: nat, cancel: Cancel, history: History)

  datatype Event =
    | Goal(request: Request)
    | Begin
    | Prepare(ok: bool)
    | Check(passes: bool)
    | Send(accepted: bool)
    | Result(success: bool)
    | AfterBlock
    | PollCancel
    | PollContinue
    | Finally
    | Signal(sequenceId: nat, expectedPath: nat)
    | CancelCallback
    | CancelVisible

  predicate AcceptsGoal(s: Shared, r: Request) {
    r.blocks != [] && 0 < r.sequenceId <= MAX_SEQUENCE_ID && !s.busy
  }

  /** `_signal_sequence`. */
  predicate AcceptsSignal(s: Shared, sequenceId: nat, expectedPath: nat) {
    && s.activeId != 0 && sequenceId == s.activeId && s.waitingAfter != 0
    && (expectedPath == 0 || expectedPath == s.waitingAfter)
  }

  function GoalOf(s: Shared, r: Request): (Shared, bool) {
    if AcceptsGoal(s, r) then (s.(busy := true), true) else (s, false)
  }

  function BeginOf(s: Shared, r: Request): Shared {
    s.(activeId := r.sequenceId, waitingAfter := 0, continueRequested := false)
  }

  function SignalOf(s: Shared, sequenceId: nat, expectedPath: nat): (Shared, bool) {
    if AcceptsSignal(s, sequenceId, expectedPath) then (s.(continueRequested := true), true) else (s, false)
  }

  function CancelOf(s: Shared): Shared {
    s.(continueRequested := true)
  }

  function WaitOf(s: Shared, index: nat): Shared {
    s.(waitingAfter := index + 1, continueRequested := false)
  }

  function PollOf(s: Shared): (Shared, bool) {
    if s.continueRequested then (s.(waitingAfter := 0, continueRequested := false), true) else (s, false)
  }

  function FinallyOf(s: Shared): Shared {
    Shared(0, 0, false, false)
  }

  predicate Enabled(s: Server, e: Event) {
    match e
    case Goal(_) => true
    case Begin => s.executor.Accepted?
    case Prepare(_) => s.executor.Preparing?
    case Check(_) => s.executor.AtBlock? && s.executor.index < |s.request.blocks|
    case Send(_) => s.executor.Checked?
    case Result(_) => s.executor.Running?
    case AfterBlock => s.executor.Finished? || (s.executor.AtBlock? && s.executor.index == |s.request.blocks|)
    case PollCancel => s.executor.Waiting?
    case PollContinue => s.executor.Polling?
    case Finally => s.executor.Ending?
    case Signal(_, _) => true
    case CancelCallback => !s.executor.NoGoal? && !s.executor.Ending?
    case CancelVisible => s.cancel.called && !s.executor.NoGoal? && !s.executor.Ending?
  }

  predicate WaitsAfter(r: Request, index: nat) {
    index + 1 < |r.blocks| && r.blocks[index].waitAfter
  }

  function Next(s: Server, e: Event): Server
    requires Enabled(s, e)
  {
    var h := s.history;
    match e
    case Goal(r) =>
      if s.executor.NoGoal? && AcceptsGoal(s.shared, r) then
        Server(r, GoalOf(s.shared, r).0, Accepted, 0, Cancel(false, false), NOTHING)
      else s
    case Begin => s.(shared := BeginOf(s.shared, s.request), executor := Preparing)
    case Prepare(ok) => s.(executor := if ok then AtBlock(0) else Ending(Aborted))
    case Check(passes) =>
      var i := s.executor.index;
      if s.cancel.visible then s.(executor := Ending(Canceled))
      else if s.request.checkStart then
        if passes then s.(executor := Checked(i), history := h.(checked := h.checked + [i]))
        else s.(executor := Ending(Aborted))
      else s.(executor := Checked(i))
    case Send(accepted) =>
      var i := s.executor.index;
      s.(executor := if accepted then Running(i) else Ending(Aborted),
         history := h.(sent := h.sent + [i], late := h.late + (if s.cancel.visible then 1 else 0)))
    case Result(success) =>
      var i := s.executor.index;
      if success then
        s.(executor := Finished(i), completed := s.completed + 1, history := h.(succeeded := h.succeeded + [i]))
      else s.(executor := Ending(Aborted))
    case AfterBlock =>
      if s.executor.AtBlock? then s.(executor := Ending(Succeeded))
      else if WaitsAfter(s.request, s.executor.index) then
        s.(shared := WaitOf(s.shared, s.executor.index), executor := Waiting(s.executor.index),
           history := h.(grants := 0))
      else s.(executor := AtBlock(s.executor.index + 1))
    case PollCancel =>
      s.(executor := if s.cancel.visible then Ending(Canceled) else Polling(s.executor.index))
    case PollContinue =>
      var (shared, passed) := PollOf(s.shared);
      s.(shared := shared, executor := if passed then AtBlock(s.executor.index + 1) else Waiting(s.executor.index))
    case Finally => s.(shared := FinallyOf(s.shared), executor := NoGoal)
    case Signal(id, path) =>
      var (shared, accepted) := SignalOf(s.shared, id, path);
      s.(shared := shared, history := if accepted then h.(grants := h.grants + 1) else h)
    case CancelCallback =>
      s.(shared := CancelOf(s.shared), cancel := s.cancel.(called := true),
         history := h.(grants := h.grants + 1))
    case CancelVisible => s.(cancel := s.cancel.(visible := true))
  }

  // What every interleaving keeps.

  function Iota(n: nat): (r: seq<nat>)
    ensures |r| == n && forall i :: 0 <= i < n ==> r[i] == i
  {
    seq(n, i requires 0 <= i => i)
  }

  /** The start checks passed before n blocks were sent. */
  function Checks(r: Request, n: nat): seq<nat> {
    if r.checkStart then Iota(n) else []
  }

  /** How many blocks have been sent, checked and finished when the executor is here. */
  predicate Progress(s: Server) {
    var h, n := s.history, |s.request.blocks|;
    && h.succeeded == Iota(s.completed)
    && match s.executor
       case NoGoal => true
       case Accepted => h.sent == h.checked == [] && s.completed == 0
       case Preparing => h.sent == h.checked == [] && s.completed == 0
       case AtBlock(i) => i <= n && h.sent == Iota(i) && s.completed == i && h.checked == Checks(s.request, i)
       case Checked(i) => i < n && h.sent == Iota(i) && s.completed == i && h.checked == Checks(s.request, i + 1)
       case Running(i) => i < n && h.sent == Iota(i + 1) && s.completed == i && h.checked == Checks(s.request, i + 1)
       case Finished(i) => i < n && h.sent == Iota(i + 1) && s.completed == i + 1
         && h.checked == Checks(s.request, i + 1)
       case Waiting(i) => WaitsAfter(s.request, i) && h.sent == Iota(i + 1) && s.completed == i + 1
         && h.checked == Checks(s.request, i + 1)
       case Polling(i) => WaitsAfter(s.request, i) && h.sent == Iota(i + 1) && s.completed == i + 1
         && h.checked == Checks(s.request, i + 1)
       case Ending(end) =>
         && |h.sent| <= n && h.sent == Iota(|h.sent|) && s.completed <= |h.sent| <= s.completed + 1
         && (s.request.checkStart ==> |h.sent| <= |h.checked| && h.checked == Iota(|h.checked|))
         && (end.Succeeded? ==> s.completed == n && h.sent == Iota(n))
  }

  /** The shared fields say what the executor does. */
  predicate SharedFits(s: Server) {
    && (s.shared.busy <==> !s.executor.NoGoal?)
    && (!s.executor.NoGoal? ==> 0 < s.request.sequenceId <= MAX_SEQUENCE_ID && s.request.blocks != [])
    && s.shared.activeId == (if s.executor.NoGoal? || s.executor.Accepted? then 0 else s.request.sequenceId)
    && match s.executor
       case Waiting(i) => s.shared.waitingAfter == i + 1 && (s.shared.continueRequested <==> s.history.grants > 0)
       case Polling(i) => s.shared.waitingAfter == i + 1 && (s.shared.continueRequested <==> s.history.grants > 0)
       case Ending(_) => true
       case _ => s.shared.waitingAfter == 0
  }

  predicate CancelFits(s: Server) {
    && (s.cancel.visible ==> s.cancel.called)
    && s.history.late <= (if s.cancel.visible && !s.executor.Checked? then 1 else 0)
  }

  predicate Safe(s: Server) {
    Progress(s) && SharedFits(s) && CancelFits(s)
  }

  function Initial(): Server {
    Server(Request(0, [], false), Shared(0, 0, false, false), NoGoal, 0, Cancel(false, false), NOTHING)
  }

  lemma {:induction false} IotaSnoc(n: nat)
    ensures Iota(n + 1) == Iota(n) + [n] && Iota(0) == []
  {
  }

  lemma {:induction false} ProgressKept(s: Server, e: Event)
    requires Safe(s) && Enabled(s, e)
    ensures Progress(Next(s, e))
  {
    if e.Check? || e.Send? || e.Result? {
      StepKept(s, e);
    } else {
      MoveKept(s, e);
    }
  }

  /** Steps that neither check, send nor finish a block. */
  lemma {:induction false} MoveKept(s: Server, e: Event)
    requires Safe(s) && Enabled(s, e) && !e.Check? && !e.Send? && !e.Result?
    ensures Progress(Next(s, e))
  {
    IotaSnoc(0);
    hide Iota, CancelFits;
  }

  lemma {:induction false} StepKept(s: Server, e: Event)
    requires Safe(s) && Enabled(s, e) && (e.Check? || e.Send? || e.Result?)
    ensures Progress(Next(s, e))
  {
    IotaSnoc(s.executor.index);
    match e
    case Check(_) =>
    case Send(_) =>
    case Result(_) =>
  }

  lemma {:induction false} NextIsSafe(s: Server, e: Event)
    requires Safe(s) && Enabled(s, e)
    ensures Safe(Next(s, e))
  {
    ProgressKept(s, e);
    SharedKept(s, e);
    CancelKept(s, e);
    hide Next, Enabled, Progress, SharedFits, CancelFits;
  }

  lemma {:induction false} SharedKept(s: Server, e: Event)
    requires Safe(s) && Enabled(s, e)
    ensures SharedFits(Next(s, e))
  {
    hide Iota, Checks, CancelFits;
  }

  lemma {:induction false} CancelKept(s: Server, e: Event)
    requires Safe(s) && Enabled(s, e)
    ensures CancelFits(Next(s, e))
  {
    hide Iota, Checks, Progress;
  }

  predicate StepsTo(s: Server, e: Event, next: Server) {
    Enabled(s, e) && next == Next(s, e)
  }

  predicate IsRun(states: seq<Server>, events: seq<Event>) {
    && |states| == |events| + 1
    && states[0] == Initial()
    && (forall i :: 0 <= i < |events| ==> StepsTo(states[i], events[i], states[i + 1]))
  }

  lemma {:induction false} RunsAreSafe(states: seq<Server>, events: seq<Event>, i: nat)
    requires IsRun(states, events) && i < |states|
    ensures Safe(states[i])
  {
    if i == 0 {
      IotaSnoc(0);
    } else {
      var j := i - 1;
      RunsAreSafe(states, events, j);
      assert StepsTo(states[j], events[j], states[j + 1]);
      NextIsSafe(states[j], events[j]);
    }
  }

  // The main results, for every interleaving of executor, signals and cancels.

  /** Block i is sent once, as the (i+1)st, after all before it succeeded and its own start check passed. */
  lemma {:induction false} BlocksGoInOrder(states: seq<Server>, events: seq<Event>, k: nat)
    requires IsRun(states, events) && k < |events| && events[k].Send?
    ensures var s, next := states[k], states[k + 1];
            && s.executor.index < |s.request.blocks|
            && s.history.sent == Iota(s.executor.index) == s.history.succeeded
            && next.history.sent == Iota(s.executor.index + 1)
            && (s.request.checkStart ==> s.executor.index in s.history.checked)
  {
    RunsAreSafe(states, events, k);
    assert StepsTo(states[k], events[k], states[k + 1]);
    var s := states[k];
    IotaSnoc(s.executor.index);
    assert s.request.checkStart ==> s.history.checked[s.executor.index] == s.executor.index;
  }

  /** The reported counter is the number of blocks that succeeded; success means all of them did. */
  lemma {:induction false} ResultsAreHonest(states: seq<Server>, events: seq<Event>, i: nat)
    requires IsRun(states, events) && i < |states| && states[i].executor.Ending?
    ensures var s := states[i];
            && s.completed == |s.history.succeeded| <= |s.history.sent| <= s.completed + 1
            && (s.executor.end.Succeeded? ==> s.history.succeeded == s.history.sent == Iota(|s.request.blocks|))
            && (s.executor.end.Canceled? ==> s.cancel.visible)
  {
    RunsAreSafe(states, events, i);
    if states[i].executor.end.Canceled? {
      CanceledIsVisible(states, events, i);
    }
  }

  lemma {:induction false} CanceledIsVisible(states: seq<Server>, events: seq<Event>, i: nat)
    requires IsRun(states, events) && i < |states| && states[i].executor == Ending(Canceled)
    ensures states[i].cancel.visible
  {
    if i > 0 {
      var j := i - 1;
      assert StepsTo(states[j], events[j], states[j + 1]);
      if states[j].executor == Ending(Canceled) {
        CanceledIsVisible(states, events, j);
      }
    }
  }

  /** A wait is passed only through a signal accepted, or a cancel callback run, since that wait began. */
  lemma {:induction false} WaitsNeedGrants(states: seq<Server>, events: seq<Event>, k: nat)
    requires IsRun(states, events) && k < |events| && events[k].PollContinue?
    ensures var s, next := states[k], states[k + 1];
            && (next.executor.AtBlock? <==> s.history.grants > 0)
            && (!next.executor.AtBlock? ==> next.executor == Waiting(s.executor.index))
  {
    RunsAreSafe(states, events, k);
    assert StepsTo(states[k], events[k], states[k + 1]);
  }

  lemma {:induction false} GrantsAreFresh(states: seq<Server>, events: seq<Event>, k: nat)
    requires IsRun(states, events) && k < |events|
    ensures var s, next := states[k], states[k + 1];
            && (next.executor.Waiting? && !s.executor.Polling? && !s.executor.Waiting? ==> next.history.grants == 0)
            && (next.history.grants > s.history.grants ==>
                  events[k].CancelCallback? ||
                  (events[k].Signal? && AcceptsSignal(s.shared, events[k].sequenceId, events[k].expectedPath)))
  {
    assert StepsTo(states[k], events[k], states[k + 1]);
  }

  /** An accepted signal names the active sequence, which is waiting or ending, and the block if it waits. */
  lemma {:induction false} SignalsReachTheirWait(states: seq<Server>, events: seq<Event>, k: nat)
    requires IsRun(states, events) && k < |events| && events[k].Signal?
    requires AcceptsSignal(states[k].shared, events[k].sequenceId, events[k].expectedPath)
    ensures var s := states[k];
            && s.request.sequenceId == events[k].sequenceId
            && (s.executor.Waiting? || s.executor.Polling? ==> events[k].expectedPath in {0, s.executor.index + 1})
            && (s.executor.Waiting? || s.executor.Polling? || s.executor.Ending?)
  {
    RunsAreSafe(states, events, k);
  }

  /** Once the cancel flag is visible, at most one more block is sent. */
  lemma {:induction false} AtMostOneLateBlock(states: seq<Server>, events: seq<Event>, i: nat)
    requires IsRun(states, events) && i < |states|
    ensures states[i].history.late <= 1
  {
    RunsAreSafe(states, events, i);
  }

  // Generated path ids.

  function GeneratedId(sequenceId: nat, index: nat): nat {
    sequenceId * 1000 + index + 1
  }

  /** Over the accepted sequence ids, the generated ids fit the controller exactly up to 147483647 blocks. */
  lemma {:induction false} GeneratedIdsFit(count: nat)
    ensures (forall sequenceId: nat, index: nat :: 0 < sequenceId <= MAX_SEQUENCE_ID && index < count ==>
                0 < GeneratedId(sequenceId, index) <= MAX_ID) <==> count <= MAX_ID - MAX_SEQUENCE_ID * 1000
  {
    if count > MAX_ID - MAX_SEQUENCE_ID * 1000 {
      assert GeneratedId(MAX_SEQUENCE_ID, count - 1) > MAX_ID;
    }
  }

  /** Sequences of up to 1000 blocks, and only those, never share a generated id. */
  lemma {:induction false} GeneratedIdsDiffer(count: nat)
    ensures (forall s: nat, i: nat, t: nat, j: nat ::
               0 < s <= MAX_SEQUENCE_ID && 0 < t <= MAX_SEQUENCE_ID && i < count && j < count ==>
                 (GeneratedId(s, i) == GeneratedId(t, j) ==> s == t && i == j)) <==> count <= 1000
  {
    if count > 1000 {
      assert GeneratedId(1, 1000) == GeneratedId(2, 0);
    }
  }

  // The executor and the callbacks as they run.

  /** The state after the events, if each of them was possible. */
  function Play(events: seq<Event>): Option<Server> {
    if events == [] then Some(Initial())
    else
      var before := Play(events[..|events| - 1]);
      var e := events[|events| - 1];
      if before.Some? && Enabled(before.value, e) then Some(Next(before.value, e)) else None
  }

  /** What has been played is a run. */
  lemma {:induction false} PlayIsRun(events: seq<Event>) returns (states: seq<Server>)
    requires Play(events).Some?
    ensures IsRun(states, events) && states[|events|] == Play(events).value
  {
    hide Next, Enabled;
    if events == [] {
      states := [Initial()];
    } else {
      var n := |events| - 1;
      var before := PlayIsRun(events[..n]);
      states := before + [Play(events).value];
      forall i | 0 <= i < |events|
        ensures StepsTo(states[i], events[i], states[i + 1])
      {
        assert i < n ==> StepsTo(before[i], events[..n][i], before[i + 1]);
      }
    }
  }

  lemma {:induction false} PlayedIsSafe(events: seq<Event>)
    requires Play(events).Some?
    ensures Safe(Play(events).value)
  {
    var states := PlayIsRun(events);
    RunsAreSafe(states, events, |events|);
  }

  lemma {:induction false} PlaySnoc(events: seq<Event>, e: Event)
    requires Play(events).Some? && Enabled(Play(events).value, e)
    ensures Play(events + [e]) == Some(Next(Play(events).value, e))
  {
    assert (events + [e])[..|events|] == events;
  }

  /** Only signals and cancels have come in between. */
  predicate SameProgress(s: Server, t: Server) {
    && s.request == t.request && s.executor == t.executor && s.completed == t.completed
    && s.history.sent == t.history.sent && s.history.checked == t.history.checked
    && s.history.succeeded == t.history.succeeded
  }

  predicate Active(s: Server) {
    !s.executor.NoGoal? && !s.executor.Ending?
  }

  /** The server's shared fields and the goal handle's cancel flag; the ghost says what has happened. */
  class PathSequenceServer {
    var activeId: nat
    var waitingAfter: nat
    var continueRequested: bool
    var busy: bool
    var cancelCalled: bool
    var cancelVisible: bool
    ghost var events: seq<Event>

    ghost function Now(): Server
      reads this
      requires Play(events).Some?
    {
      Play(events).value
    }

    /** The fields are those of a run. */
    ghost predicate Tracks()
      reads this
    {
      && Play(events).Some? && Safe(Now())
      && Now().shared == Shared(activeId, waitingAfter, continueRequested, busy)
      && Now().cancel == Cancel(cancelCalled, cancelVisible)
    }

    constructor ()
      ensures Tracks() && Now() == Initial()
    {
      activeId, waitingAfter, continueRequested, busy := 0, 0, false, false;
      cancelCalled, cancelVisible := false, false;
      events := [];
      PlayedIsSafe([]);
    }

    /** Records a step whose effect on the fields has already taken place. */
    ghost method Did(e: Event)
      requires Play(events).Some? && Enabled(Now(), e)
      requires Next(Now(), e).shared == Shared(activeId, waitingAfter, continueRequested, busy)
      requires Next(Now(), e).cancel == Cancel(cancelCalled, cancelVisible)
      modifies `events
      ensures Tracks() && Now() == Next(old(Now()), e)
    {
      PlaySnoc(events, e);
      events := events + [e];
      PlayedIsSafe(events);
    }

    method GoalCallback(r: Request) returns (accepted: bool)
      requires Tracks()
      modifies this
      ensures Tracks() && Now() == Next(old(Now()), Goal(r))
      ensures accepted <==> r.blocks != [] && 0 < r.sequenceId <= MAX_SEQUENCE_ID && old(Now()).executor.NoGoal?
      ensures accepted ==> Now().executor.Accepted? && Now().request == r
    {
      hide Play;
      if r.blocks == [] || r.sequenceId <= 0 || r.sequenceId > MAX_SEQUENCE_ID || busy {
        Did(Goal(r));
        return false;
      }
      busy, cancelCalled, cancelVisible := true, false, false;
      Did(Goal(r));
      return true;
    }

    method SignalSequence(sequenceId: nat, expectedPath: nat) returns (accepted: bool)
      requires Tracks()
      modifies this`continueRequested, this`events
      ensures Tracks() && Now() == Next(old(Now()), Signal(sequenceId, expectedPath))
      ensures accepted == AcceptsSignal(old(Now()).shared, sequenceId, expectedPath)
    {
      hide Play, Safe;
      accepted := true;
      if activeId == 0 || sequenceId != activeId || waitingAfter == 0 {
        accepted := false;
      } else if expectedPath != 0 && expectedPath != waitingAfter {
        accepted := false;
      } else {
        continueRequested := true;
      }
      Did(Signal(sequenceId, expectedPath));
    }

    method CancelRequest()
      requires Tracks() && Active(Now())
      modifies this`continueRequested, this`cancelCalled, this`events
      ensures Tracks() && Now() == Next(old(Now()), CancelCallback)
    {
      hide Play, Safe;
      continueRequested, cancelCalled := true, true;
      Did(CancelCallback);
    }

    /** One thing another thread does: a signal, a cancel request, or the flag of an earlier one. */
    method OtherThread()
      requires Tracks() && Active(Now())
      modifies this`continueRequested, this`cancelCalled, this`cancelVisible, this`events
      ensures Tracks() && SameProgress(old(Now()), Now())
    {
      hide Play, Safe;
      var choice: int, sequenceId: int, expectedPath: int := *, *, *;
      if choice == 0 {
        CancelRequest();
      } else if choice == 1 && cancelCalled {
        cancelVisible := true;
        Did(CancelVisible);
      } else {
        var _ := SignalSequence(if sequenceId < 0 then 0 else sequenceId, if expectedPath < 0 then 0 else expectedPath);
      }
    }

    method OtherThreads()
      requires Tracks() && Active(Now())
      modifies this`continueRequested, this`cancelCalled, this`cancelVisible, this`events
      ensures Tracks() && SameProgress(old(Now()), Now())
    {
      hide Play, Safe, Next;
      var n: int := *;
      for i := 0 to if n < 0 then 0 else n
        invariant Tracks() && SameProgress(old(Now()), Now())
      {
        OtherThread();
      }
    }

    /** Makes the sequence the active one, and checks its parameters and the path server, which may fail. */
    method Prepares(r: Request) returns (ok: bool)
      requires Tracks() && Now().executor.Accepted? && Now().request == r
      modifies this
      ensures Tracks() && Now().request == r && Now().completed == 0
      ensures Now().executor == if ok then AtBlock(0) else Ending(Aborted)
    {
      assert Now().completed == 0;
      hide Play, Safe;
      activeId, waitingAfter, continueRequested := r.sequenceId, 0, false;
      Did(Begin);
      OtherThreads();
      ok := *;
      Did(Prepare(ok));
    }

    /** The loop's body up to the wait. None: the block succeeded. */
    method SendBlock(r: Request, index: nat) returns (end: Option<End>)
      requires Tracks() && Now().request == r && Now().executor == AtBlock(index) && index < |r.blocks|
      modifies this`continueRequested, this`cancelCalled, this`cancelVisible, this`events
      ensures Tracks() && Now().request == r
      ensures Now().executor == if end.None? then Finished(index) else Ending(end.value)
      ensures Now().completed == old(Now()).completed + (if end.None? then 1 else 0)
      ensures end != Some(Succeeded) && (end == Some(Canceled) ==> cancelVisible)
    {
      hide Play, Safe;
      OtherThreads();
      if cancelVisible {
        Did(Check(false));
        return Some(Canceled);
      }
      var passes := true;
      if r.checkStart {
        passes := *;
      }
      Did(Check(passes));
      if !passes {
        return Some(Aborted);
      }
      OtherThreads();
      var accepted: bool := *;
      Did(Send(accepted));
      if !accepted {
        return Some(Aborted);
      }
      OtherThreads();
      var success: bool := *;
      Did(Result(success));
      return if success then None else Some(Aborted);
    }

    /** One look at the cancel flag and the continue flag. None: the wait goes on. */
    method Poll(r: Request, index: nat) returns (passes: Option<bool>)
      requires Tracks() && Now().request == r && Now().executor == Waiting(index)
      modifies this
      ensures Tracks() && Now().request == r && Now().completed == old(Now()).completed
      ensures Now().executor == if passes.None? then Waiting(index)
              else if passes.value then AtBlock(index + 1)
              else Ending(Canceled)
      ensures passes == Some(false) ==> cancelVisible
    {
      hide Play, Safe;
      OtherThreads();
      Did(PollCancel);
      if cancelVisible {
        return Some(false);
      }
      OtherThreads();
      if continueRequested {
        waitingAfter, continueRequested := 0, false;
        Did(PollContinue);
        return Some(true);
      }
      Did(PollContinue);
      return None;
    }

    /** The wait after a block, polled any number of times. */
    method AwaitSignal(r: Request, index: nat) returns (passes: Option<bool>)
      requires Tracks() && Now().request == r && Now().executor == Finished(index) && WaitsAfter(r, index)
      modifies this
      ensures Tracks() && Now().request == r && Now().completed == old(Now()).completed
      ensures Now().executor == if passes.None? then Waiting(index)
              else if passes.value then AtBlock(index + 1)
              else Ending(Canceled)
      ensures passes == Some(false) ==> cancelVisible
    {
      hide Play, Safe;
      waitingAfter, continueRequested := index + 1, false;
      Did(AfterBlock);
      hide Next, Enabled;
      passes := None;
      var n: int := *;
      for i := 0 to if n < 0 then 0 else n
        invariant passes == None && Tracks() && Now().request == r && Now().completed == old(Now()).completed
        invariant Now().executor == Waiting(index)
      {
        passes := Poll(r, index);
        if passes.Some? {
          return;
        }
      }
    }

    /** The finally block. */
    method Release()
      requires Tracks() && Now().executor.Ending?
      modifies this
      ensures Tracks() && Now().executor.NoGoal? && Now().history == old(Now()).history
      ensures Now().completed == old(Now()).completed && cancelVisible == old(cancelVisible)
      ensures activeId == 0 && waitingAfter == 0 && !continueRequested && !busy
    {
      hide Play, Safe;
      activeId, waitingAfter, continueRequested, busy := 0, 0, false, false;
      Did(Finally);
    }

    /** The blocks one after another; None while a wait goes on. */
    method RunBlocks(r: Request) returns (end: Option<End>, completed: nat)
      requires Tracks() && Now().request == r && Now().executor == AtBlock(0) && Now().completed == 0
      modifies this
      ensures Tracks() && Now().request == r && completed == Now().completed
      ensures if end.Some? then Now().executor == Ending(end.value) else Now().executor.Waiting?
      ensures end == Some(Canceled) ==> cancelVisible
    {
      hide Play, Safe;
      completed := 0;
      for index := 0 to |r.blocks|
        invariant Tracks() && Now().request == r && Now().executor == AtBlock(index) && completed == Now().completed
      {
        end := SendBlock(r, index);
        if end.Some? {
          return;
        }
        completed := completed + 1;
        if r.blocks[index].waitAfter && index + 1 < |r.blocks| {
          var passes := AwaitSignal(r, index);
          if passes.None? {
            return None, completed;
          }
          if !passes.value {
            return Some(Canceled), completed;
          }
        } else {
          Did(AfterBlock);
        }
      }
      Did(AfterBlock);
      return Some(Succeeded), completed;
    }

    /**
     * _execute_callback. It reports the number of blocks that succeeded, success only when all did, in
     * order, and a cancel only when one was requested; and however the goal ends, the server is free again.
     */
    method ExecuteCallback(r: Request) returns (end: Option<End>, completed: nat)
      requires Tracks() && Now().executor.Accepted? && Now().request == r
      modifies this
      ensures Tracks() && (end.None? ==> Now().executor.Waiting?)
      ensures completed == |Now().history.succeeded| <= |Now().history.sent| <= completed + 1
      ensures end.Some? ==> Now().executor.NoGoal? && activeId == 0 && waitingAfter == 0 && !continueRequested && !busy
      ensures end == Some(Succeeded) ==> Now().history.succeeded == Now().history.sent == Iota(|r.blocks|)
      ensures end == Some(Canceled) ==> cancelVisible
    {
      var ready := Prepares(r);
      if ready {
        end, completed := RunBlocks(r);
      } else {
        end, completed := Some(Aborted), 0;
      }
      if end.None? {
        return;
      }
      hide Play;
      assert Progress(Now());
      Release();
    }
  }
}
