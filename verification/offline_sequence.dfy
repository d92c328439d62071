/** The offline sequence editor's rules on values: recording, drafts, accepting, merging, undo. */
module OfflineSequence {
  import opened Wrappers
  import opened PathMessages
  import opened PathProtocol
  import opened PathModel
  import opened Cutting
  import opened PathBlocks
  import opened Reals

  /** The node's merge parameters. */
  datatype Config = Config(mergeCompatible: bool, tolerance: real, maxNodes: nat)

  /** `sending` and `previewing` say whether an action goal is held. */
  datatype Editor = Editor(
    recording: bool, motionActive: bool, draft: Option<Block>, paths: seq<Block>, sending: bool, previewing: bool)

  const EMPTY := Editor(false, false, None, [], false, false)

  /** `_compatible`. */
  predicate Compatible(left: Block, right: Block, c: Config) {
    && !left.waitAfter
    && SameTables(left, right)
    && (forall i :: 0 <= i < 6 ==> Distance(left.expectedEnd[i], right.expectedStart[i]) <= c.tolerance)
    && |left.nodes| + |right.nodes| <= c.maxNodes
  }

  lemma {:induction false} WaitStaysCompatible(left: Block, right: Block, wait: bool, c: Config)
    requires right.nodes != []
    ensures Compatible(left, WithEndWait(right, wait), c) <==> Compatible(left, right, c)
  {
  }

  predicate SomeEndsInWait(paths: seq<Block>) {
    exists i :: 0 <= i < |paths| && EndsInWait(paths[i])
  }

  /** `_cannot_finalize_reason` is empty. */
  predicate CanFinalize(e: Editor) {
    !e.motionActive && e.draft.None? && !SomeEndsInWait(e.paths)
  }

  function DraftOf(e: Editor, block: Block): Editor {
    if e.recording && e.draft.None? then e.(draft := Some(block)) else e
  }

  function StartOf(e: Editor): (Editor, bool) {
    if e.recording || e.motionActive || e.draft.Some? || e.sending || e.previewing then (e, false)
    else (e.(recording := true), true)
  }

  function StopOf(e: Editor): (Editor, bool) {
    if !e.recording || !CanFinalize(e) then (e, false) else (e.(recording := false), true)
  }

  function EndWaitOf(e: Editor, wait: bool): (Editor, bool) {
    if !e.recording || e.draft.None? || e.draft.value.nodes == [] then (e, false)
    else
      var draft := e.draft.value;
      if wait && (draft.nodes[|draft.nodes| - 1].motionType == MOTION_SEG_VIA || draft.waitAfter) then (e, false)
      else (e.(draft := Some(WithEndWait(draft, wait))), true)
  }

  function WaitAfterOf(e: Editor, wait: bool): (Editor, bool) {
    if !e.recording || e.draft.None? || (wait && EndsInWait(e.draft.value)) then (e, false)
    else (e.(draft := Some(e.draft.value.(waitAfter := wait))), true)
  }

  /** The accepted draft extends the last block instead of becoming one. */
  predicate Merges(e: Editor, c: Config)
    requires e.draft.Some?
  {
    c.mergeCompatible && e.paths != [] && Compatible(e.paths[|e.paths| - 1], e.draft.value, c)
  }

  function AcceptOf(e: Editor, c: Config): (Editor, bool) {
    if !e.recording || e.draft.None? then (e, false)
    else
      var n := |e.paths| - 1;
      if Merges(e, c) then
        (e.(draft := None, paths := e.paths[n := Merge(e.paths[n], e.draft.value)]), true)
      else if e.paths != [] && EndsInWait(e.paths[n]) then (e, false)
      else (e.(draft := None, paths := e.paths + [e.draft.value]), true)
  }

  /** The blocks after a draft is taken, if it is. */
  predicate Taken(before: seq<Block>, draft: Block, after: seq<Block>, ok: bool, c: Config) {
    var n := |before| - 1;
    if c.mergeCompatible && before != [] && Compatible(before[n], draft, c) then
      ok && after == before[n := Merge(before[n], draft)]
    else if before != [] && EndsInWait(before[n]) then !ok && after == before
    else ok && after == before + [draft]
  }

  lemma {:induction false} TakenCases(before: seq<Block>, draft: Block, after: seq<Block>, ok: bool, c: Config)
    requires var n := |before| - 1;
             var merges := c.mergeCompatible && before != [] && Compatible(before[n], draft, c);
             var open := before == [] || !EndsInWait(before[n]);
             if merges then ok && after == before[n := Merge(before[n], draft)]
             else ok == open && after == if open then before + [draft] else before
    ensures Taken(before, draft, after, ok, c)
  {
  }

  lemma {:induction false} AcceptTakes(e: Editor, c: Config, after: seq<Block>, ok: bool)
    requires e.recording && e.draft.Some? && Taken(e.paths, e.draft.value, after, ok, c)
    ensures AcceptOf(e, c) == (e.(draft := if ok then None else e.draft, paths := after), ok)
  {
  }

  /** Accepting merges the draft into the last block and thereby changes it. */
  predicate MergeChanges(e: Editor, c: Config) {
    && e.recording && e.draft.Some? && Merges(e, c)
    && var last := e.paths[|e.paths| - 1]; Merge(last, e.draft.value) != last
  }

  /** Accepting keeps every block, in its place, exactly unless it is such a merge. */
  lemma {:induction false} AcceptKeepsBlocks(e: Editor, c: Config)
    ensures var after := AcceptOf(e, c).0.paths;
            |after| >= |e.paths| && (after[..|e.paths|] == e.paths <==> !MergeChanges(e, c))
  {
    hide Compatible, Merge, EndsInWait;
    if e.recording && e.draft.Some? && Merges(e, c) {
      var n := |e.paths| - 1;
      var after := AcceptOf(e, c).0.paths;
      assert after[..|e.paths|] == after;
      assert after[n] == Merge(e.paths[n], e.draft.value);
    }
  }

  function RejectOf(e: Editor): (Editor, bool) {
    if !e.recording then (e, false) else (e.(draft := None), e.draft.Some?)
  }

  function UndoOf(e: Editor): (Editor, bool) {
    if !e.recording || e.motionActive || e.draft.Some? || e.paths == [] then (e, false)
    else (e.(paths := e.paths[..|e.paths| - 1]), true)
  }

  function ClearOf(e: Editor): (Editor, bool) {
    if e.motionActive || e.sending || e.previewing then (e, false)
    else (e.(paths := [], draft := None, recording := false), true)
  }

  /** The gate of `_export`, and the first two of `_send` and `_preview_all`. */
  predicate CanExport(e: Editor) {
    !e.recording && e.draft.None? && e.paths != []
  }

  // Sessions: any calls in any order, with the drafts each block was made of.

  datatype Event =
    | Draft(block: Block)
    | MotionActive(active: bool)
    | Sending(active: bool)
    | Previewing(active: bool)
    | Start | Stop | Accept | Reject | Undo | Clear
    | EndWait(wait: bool)
    | WaitAfter(wait: bool)

  function Next(e: Editor, event: Event, c: Config): Editor {
    match event
    case Draft(block) => DraftOf(e, block)
    case MotionActive(active) => e.(motionActive := active)
    case Sending(active) => e.(sending := active)
    case Previewing(active) => e.(previewing := active)
    case Start => StartOf(e).0
    case Stop => StopOf(e).0
    case Accept => AcceptOf(e, c).0
    case Reject => RejectOf(e).0
    case Undo => UndoOf(e).0
    case Clear => ClearOf(e).0
    case EndWait(wait) => EndWaitOf(e, wait).0
    case WaitAfter(wait) => WaitAfterOf(e, wait).0
  }

  datatype Session = Session(editor: Editor, groups: seq<seq<Block>>)

  /** Accepting appends the reviewed draft to the last group, or starts one; undo drops a group. */
  function GroupsAfter(s: Session, event: Event, c: Config): seq<seq<Block>> {
    var after := Next(s.editor, event, c);
    if event.Accept? && AcceptOf(s.editor, c).1 then
      var draft := s.editor.draft.value;
      if |after.paths| == |s.editor.paths| && s.groups != [] then
        s.groups[|s.groups| - 1 := s.groups[|s.groups| - 1] + [draft]]
      else s.groups + [[draft]]
    else if |after.paths| < |s.groups| then s.groups[..|after.paths|]
    else s.groups
  }

  function Step(s: Session, event: Event, c: Config): Session {
    Session(Next(s.editor, event, c), GroupsAfter(s, event, c))
  }

  function Run(events: seq<Event>, c: Config): Session {
    if events == [] then Session(EMPTY, [])
    else Step(Run(events[..|events| - 1], c), events[|events| - 1], c)
  }

  // No wait is lost.

  /** Only the last block may end in a node wait, and only while recording. */
  predicate WaitsPlaced(e: Editor) {
    && (forall i :: 0 <= i < |e.paths| - 1 ==> !EndsInWait(e.paths[i]))
    && (!e.recording ==> e.draft.None? && !SomeEndsInWait(e.paths))
  }

  lemma {:induction false} WaitsStayPlaced(e: Editor, event: Event, c: Config)
    requires WaitsPlaced(e)
    ensures WaitsPlaced(Next(e, event, c))
  {
  }

  /** In every reachable state of the editor, whatever drafts arrive. */
  lemma {:induction false} EveryWaitIsPlaced(events: seq<Event>, c: Config)
    ensures WaitsPlaced(Run(events, c).editor)
  {
    if events != [] {
      EveryWaitIsPlaced(events[..|events| - 1], c);
      WaitsStayPlaced(Run(events[..|events| - 1], c).editor, events[|events| - 1], c);
    }
  }

  // Merging keeps validity.

  /** Every draft that arrives is full-range and accepted by both validators, whatever its path_id. */
  predicate SoundDrafts(events: seq<Event>, maxNodes: nat) {
    forall i :: 0 <= i < |events| && events[i].Draft? ==> Sound(events[i].block, maxNodes)
  }

  predicate AllSound(e: Editor, maxNodes: nat) {
    && (forall i :: 0 <= i < |e.paths| ==> Sound(e.paths[i], maxNodes))
    && (e.draft.Some? ==> Sound(e.draft.value, maxNodes))
  }

  lemma {:induction false} MergedBlock(left: Block, right: Block, c: Config)
    requires Sound(left, c.maxNodes) && Sound(right, c.maxNodes) && Compatible(left, right, c)
    ensures Sound(Merge(left, right), c.maxNodes)
  {
    hide Sound;
    MergeIsSound(left, right, c.maxNodes);
  }

  lemma {:induction false} AcceptIsSound(e: Editor, c: Config)
    requires AllSound(e, c.maxNodes)
    ensures AllSound(AcceptOf(e, c).0, c.maxNodes)
  {
    hide Sound, Compatible, Merge;
    if e.recording && e.draft.Some? && Merges(e, c) {
      MergedBlock(e.paths[|e.paths| - 1], e.draft.value, c);
    }
  }

  lemma {:induction false} WaitAfterIsSound(b: Block, wait: bool, maxNodes: nat)
    requires Sound(b, maxNodes)
    ensures Sound(b.(waitAfter := wait), maxNodes)
  {
    hide Runnable;
  }

  lemma {:induction false} NextIsSound(e: Editor, event: Event, c: Config)
    requires AllSound(e, c.maxNodes) && (event.Draft? ==> Sound(event.block, c.maxNodes))
    ensures AllSound(Next(e, event, c), c.maxNodes)
  {
    hide Sound, WithEndWait;
    if event.Accept? {
      AcceptIsSound(e, c);
      hide AcceptOf;
    } else if event.EndWait? && EndWaitOf(e, event.wait).1 {
      EndWaitIsSound(e.draft.value, event.wait, c.maxNodes);
    } else if event.WaitAfter? && WaitAfterOf(e, event.wait).1 {
      WaitAfterIsSound(e.draft.value, event.wait, c.maxNodes);
    }
  }

  /** Through any accepting, merging, wait editing and undoing, every block stays valid for both programs. */
  lemma {:induction false} BlocksStaySound(events: seq<Event>, c: Config)
    requires SoundDrafts(events, c.maxNodes)
    ensures AllSound(Run(events, c).editor, c.maxNodes)
  {
    if events != [] {
      var before := events[..|events| - 1];
      assert forall i :: 0 <= i < |before| ==> before[i] == events[i];
      BlocksStaySound(before, c);
      NextIsSound(Run(before, c).editor, events[|events| - 1], c);
    }
  }

  // The two kinds of wait are never both asked for, unless a draft arrives that way.

  predicate OneWait(b: Block) {
    b.nodes != [] && !(b.waitAfter && EndsInWait(b))
  }

  predicate OneWaitEach(e: Editor) {
    && (forall i :: 0 <= i < |e.paths| ==> OneWait(e.paths[i]))
    && (e.draft.Some? ==> OneWait(e.draft.value))
  }

  lemma {:induction false} WaitsStayExclusive(e: Editor, event: Event, c: Config)
    requires OneWaitEach(e) && (event.Draft? ==> OneWait(event.block))
    ensures OneWaitEach(Next(e, event, c))
  {
    if event.Accept? && e.recording && e.draft.Some? && Merges(e, c) {
      var left, right := e.paths[|e.paths| - 1], e.draft.value;
      var nodes := left.nodes + right.nodes;
      assert nodes[|nodes| - 1] == right.nodes[|right.nodes| - 1];
    }
  }

  /** If no draft arrives empty or with both kinds of wait, no block ever has both. */
  lemma {:induction false} WaitsAreExclusive(events: seq<Event>, c: Config)
    requires forall i :: 0 <= i < |events| && events[i].Draft? ==> OneWait(events[i].block)
    ensures OneWaitEach(Run(events, c).editor)
  {
    if events != [] {
      var before := events[..|events| - 1];
      assert forall i :: 0 <= i < |before| ==> before[i] == events[i];
      WaitsAreExclusive(before, c);
      WaitsStayExclusive(Run(before, c).editor, events[|events| - 1], c);
      hide OneWaitEach, Next;
    }
  }

  // What the blocks are made of.

  /** Block i is the merge of the drafts in group i. */
  predicate Explained(s: Session) {
    && |s.groups| == |s.editor.paths|
    && (forall i :: 0 <= i < |s.groups| ==> s.groups[i] != [] && s.editor.paths[i] == Merged(s.groups[i]))
  }

  lemma {:induction false} MergedSnoc(drafts: seq<Block>, draft: Block)
    requires drafts != []
    ensures Merged(drafts + [draft]) == Merge(Merged(drafts), draft)
  {
    assert (drafts + [draft])[..|drafts|] == drafts;
  }

  lemma {:induction false} NextIsExplained(s: Session, event: Event, c: Config)
    requires Explained(s)
    ensures Explained(Step(s, event, c))
  {
    if event.Accept? && AcceptOf(s.editor, c).1 && Merges(s.editor, c) {
      MergedSnoc(s.groups[|s.groups| - 1], s.editor.draft.value);
    }
  }

  /** Every block holds its accepted drafts' nodes in order, from the first draft's start to the last one's end. */
  lemma {:induction false} BlocksAreExplained(events: seq<Event>, c: Config)
    ensures Explained(Run(events, c))
    ensures var s := Run(events, c);
            forall i :: 0 <= i < |s.groups| ==> s.editor.paths[i].nodes == Flatten(NodeLists(s.groups[i]))
  {
    if events != [] {
      BlocksAreExplained(events[..|events| - 1], c);
      NextIsExplained(Run(events[..|events| - 1], c), events[|events| - 1], c);
    }
    var s := Run(events, c);
    forall i | 0 <= i < |s.groups|
      ensures s.editor.paths[i].nodes == Flatten(NodeLists(s.groups[i]))
    {
      MergedInOrder(s.groups[i]);
    }
  }

  // Exported sequences.

  lemma {:induction false} LastNodeWaits(b: Block, maxNodes: nat, generatedId: nat)
    requires Sound(b, maxNodes)
    ensures var goal := PathGoal(b, generatedId);
            ValidRange(goal) && goal.End() == |b.nodes| && (NodeWaits(goal, goal.End()) <==> EndsInWait(b))
  {
  }

  /**
   * Whatever can be exported is accepted by both validators under any generated id, has no wait on a
   * final node, and so is suspended by the simulator exactly once per wait node.
   */
  lemma {:induction false} ExportsLoseNoWait(events: seq<Event>, c: Config, i: nat, generatedId: nat)
    requires SoundDrafts(events, c.maxNodes) && CanExport(Run(events, c).editor)
    requires i < |Run(events, c).editor.paths|
    requires 0 < PathGoal(Run(events, c).editor.paths[i], generatedId).pathId <= MAX_ID
    ensures var goal := PathGoal(Run(events, c).editor.paths[i], generatedId);
            && Runnable(goal, c.maxNodes)
            && !NodeWaits(goal, goal.End())
            && |Batches(goal)| - 1 == Count(Range(goal.Start(), goal.End()), WaitsIn(goal))
  {
    var e := Run(events, c).editor;
    EveryWaitIsPlaced(events, c);
    BlocksStaySound(events, c);
    assert Sound(e.paths[i], c.maxNodes) && !EndsInWait(e.paths[i]);
    SoundWithId(e.paths[i], c.maxNodes, generatedId);
    LastNodeWaits(e.paths[i], c.maxNodes, generatedId);
    SimulatedWaits(PathGoal(e.paths[i], generatedId));
  }
}
