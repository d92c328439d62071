/** The editor used between a preview's request and its start, on the blocks as they are shared. */
module OfflinePreviewSession {
  import opened PathBlocks
  import opened OfflineSequence
  import opened OfflineSequenceManagers
  import opened OfflinePreview

  /** A call of the editor's services or topics. */
  datatype Call =
    | DraftArrives(block: PathBlock)
    | MotionFlag(active: bool)
    | SendingFlag(active: bool)
    | PreviewingFlag(active: bool)
    | StartCall | StopCall | AcceptCall | RejectCall | UndoCall | ClearCall
    | EndWaitCall(wait: bool)
    | WaitAfterCall(wait: bool)

  ghost function EventOf(call: Call): Event
    reads if call.DraftArrives? then {call.block} else {}
  {
    match call
    case DraftArrives(block) => Draft(block.View())
    case MotionFlag(active) => MotionActive(active)
    case SendingFlag(active) => Sending(active)
    case PreviewingFlag(active) => Previewing(active)
    case StartCall => Start
    case StopCall => Stop
    case AcceptCall => Accept
    case RejectCall => Reject
    case UndoCall => Undo
    case ClearCall => Clear
    case EndWaitCall(wait) => EndWait(wait)
    case WaitAfterCall(wait) => WaitAfter(wait)
  }

  /** The editor's first `shared` blocks are the list's; nothing else of the list is still the editor's. */
  ghost predicate Shares(m: OfflineSequenceManager, list: seq<PathBlock>, shared: nat)
    reads m
  {
    && m.Valid() && Distinct(list)
    && shared <= |m.paths| && shared <= |list| && m.paths[..shared] == list[..shared]
    && (forall i, j :: shared <= i < |m.paths| && 0 <= j < |list| ==> m.paths[i] != list[j])
    && (m.draft != null ==> m.draft !in list)
  }

  ghost function State(m: OfflineSequenceManager, list: seq<PathBlock>, shared: nat): Preview
    reads m, m.draft, m.paths, list
  {
    Preview(m.View(), shared, Views(list))
  }

  /** The block that arrives, if any, is a new message. */
  ghost predicate Arrives(m: OfflineSequenceManager, list: seq<PathBlock>, call: Call)
    reads m
  {
    call.DraftArrives? ==> call.block !in m.paths && call.block !in list && call.block != m.draft
  }

  lemma {:induction false} StateFits(m: OfflineSequenceManager, list: seq<PathBlock>, shared: nat)
    requires Shares(m, list, shared)
    ensures Fits(State(m, list, shared))
    ensures forall j :: shared <= j < |list| ==> list[j] !in m.paths
  {
    hide Views;
    assert forall i :: 0 <= i < shared ==> m.paths[i] == m.paths[..shared][i] == list[..shared][i] == list[i];
  }

  lemma {:induction false} AcceptStep(p: Preview, c: Config, now: seq<Block>)
    requires Fits(p) && |now| == |p.blocks|
    requires var after := AcceptOf(p.editor, c).0.paths;
             |after| >= |p.editor.paths| && now[..p.shared] == after[..p.shared]
    requires now[p.shared..] == p.blocks[p.shared..]
    ensures PreviewStep(p, Accept, c) == Preview(AcceptOf(p.editor, c).0, p.shared, now)
  {
    hide Compatible, Merge, EndsInWait;
    var after, blocks := AcceptOf(p.editor, c).0.paths, PreviewStep(p, Accept, c).blocks;
    forall k | 0 <= k < |now|
      ensures blocks[k] == now[k]
    {
      if k < p.shared {
        assert now[k] == now[..p.shared][k] == after[..p.shared][k] == after[k];
        assert p.editor.paths[..p.shared][k] == p.blocks[..p.shared][k];
      } else {
        assert now[k] == now[p.shared..][k - p.shared] == p.blocks[p.shared..][k - p.shared];
      }
    }
    assert blocks == now;
  }

  lemma {:induction false} StillShares(
    m: OfflineSequenceManager, list: seq<PathBlock>, shared: nat, paths: seq<PathBlock>, draft: PathBlock?)
    requires m.Valid() && Distinct(list)
    requires shared <= |paths| && shared <= |list| && paths[..shared] == list[..shared]
    requires forall i, j :: shared <= i < |paths| && 0 <= j < |list| ==> paths[i] != list[j]
    requires draft != null ==> draft !in list
    requires m.paths == paths || (draft != null && m.paths == paths + [draft])
    requires m.draft == null || m.draft == draft
    ensures Shares(m, list, shared)
  {
    hide Distinct;
  }

  /** The list's views after an accept, from those of the blocks the editor had. */
  lemma {:induction false} SharedViews(
    list: seq<PathBlock>, shared: nat, paths: seq<PathBlock>, blocks: seq<Block>)
    requires shared <= |paths| && shared <= |list| == |blocks| && paths[..shared] == list[..shared]
    requires forall j :: shared <= j < |list| ==> list[j].View() == blocks[j]
    ensures Views(list)[..shared] == Views(paths)[..shared] && Views(list)[shared..] == blocks[shared..]
  {
    hide Views;
    assert forall j :: 0 <= j < shared ==> list[j] == list[..shared][j] == paths[..shared][j] == paths[j];
  }

  /** Accepting: the only call that can change a block of the list. */
  method Accepts(m: OfflineSequenceManager, ghost list: seq<PathBlock>, ghost shared: nat)
    requires Shares(m, list, shared)
    modifies m`draft, m`paths, m.paths
    ensures Shares(m, list, shared)
    ensures m.paths == old(m.paths) || (old(m.draft) != null && m.paths == old(m.paths) + [old(m.draft)])
    ensures m.draft == null || m.draft == old(m.draft)
    ensures Fits(old(State(m, list, shared)))
    ensures State(m, list, shared) == PreviewStep(old(State(m, list, shared)), Accept, m.config)
  {
    hide AcceptOf, Compatible, Merge, EndsInWait, Views, MergeChanges, PreviewStep, Distinct;
    StateFits(m, list, shared);
    ghost var before, paths, draft := State(m, list, shared), m.paths, m.draft;
    AcceptKeepsBlocks(before.editor, m.config);
    var ok := m.AcceptDraft();
    StillShares(m, list, shared, paths, draft);
    hide Shares, Fits;
    SharedViews(list, shared, paths, before.blocks);
    AcceptStep(before, m.config, Views(list));
  }

  /** Calls that leave blocks and draft as they are. */
  method SetsFlag(m: OfflineSequenceManager, call: Call)
    requires m.Valid()
    requires call.MotionFlag? || call.SendingFlag? || call.PreviewingFlag? || call.StartCall? || call.StopCall?
    modifies m`recording, m`motionActive, m`sending, m`previewing
    ensures m.Valid() && m.View() == Next(old(m.View()), old(EventOf(call)), m.config)
  {
    hide Views, Distinct, SomeEndsInWait;
    match call {
      case MotionFlag(active) => m.motionActive := active;
      case SendingFlag(active) => m.sending := active;
      case PreviewingFlag(active) => m.previewing := active;
      case StartCall => var _ := m.StartRecording();
      case StopCall => var _ := m.StopRecording();
    }
  }

  /** Calls that change the draft, or bring a new one. */
  method EditsDraft(m: OfflineSequenceManager, call: Call)
    requires m.Valid() && (call.DraftArrives? ==> call.block !in m.paths)
    requires call.DraftArrives? || call.RejectCall? || call.EndWaitCall? || call.WaitAfterCall?
    modifies m`draft, m.draft
    ensures m.Valid() && m.View() == Next(old(m.View()), old(EventOf(call)), m.config)
    ensures m.draft == null || m.draft == old(m.draft) || (call.DraftArrives? && m.draft == call.block)
  {
    hide Views, Distinct, WithEndWait;
    match call {
      case DraftArrives(block) => m.DraftCallback(block);
      case RejectCall => var _ := m.RejectDraft();
      case EndWaitCall(wait) => var _ := m.SetDraftEndWait(wait);
      case WaitAfterCall(wait) => var _ := m.SetDraftWaitAfter(wait);
    }
  }

  /** Calls that drop blocks. */
  method DropsBlocks(m: OfflineSequenceManager, call: Call)
    requires m.Valid() && (call.UndoCall? || call.ClearCall?)
    modifies m`draft, m`paths, m`recording
    ensures m.Valid() && m.View() == Next(old(m.View()), old(EventOf(call)), m.config)
    ensures m.paths <= old(m.paths) && (m.draft == null || m.draft == old(m.draft))
  {
    hide Views, Distinct;
    if call.UndoCall? {
      var _ := m.UndoLast();
    } else {
      var _ := m.Clear();
    }
  }

  lemma {:induction false} OtherStep(p: Preview, event: Event, c: Config, after: Editor)
    requires Fits(p) && !event.Accept? && after == Next(p.editor, event, c)
    ensures PreviewStep(p, event, c) ==
            Preview(after, if |after.paths| < p.shared then |after.paths| else p.shared, p.blocks)
  {
  }

  lemma {:induction false} SharesFewer(
    m: OfflineSequenceManager, list: seq<PathBlock>, shared: nat, paths: seq<PathBlock>)
    requires m.Valid() && Distinct(list) && m.paths <= paths && (m.draft != null ==> m.draft !in list)
    requires shared <= |paths| && shared <= |list| && paths[..shared] == list[..shared]
    requires forall i, j :: shared <= i < |paths| && 0 <= j < |list| ==> paths[i] != list[j]
    ensures Shares(m, list, if |m.paths| < shared then |m.paths| else shared)
  {
    var now := if |m.paths| < shared then |m.paths| else shared;
    assert m.paths[..now] == paths[..shared][..now] == list[..shared][..now] == list[..now];
  }

  method Others(m: OfflineSequenceManager, call: Call, ghost list: seq<PathBlock>, ghost shared: nat)
    returns (ghost now: nat)
    requires Shares(m, list, shared) && Arrives(m, list, call) && !call.AcceptCall?
    modifies m, m.draft
    ensures Shares(m, list, now) && Fits(old(State(m, list, shared)))
    ensures State(m, list, now) == PreviewStep(old(State(m, list, shared)), old(EventOf(call)), m.config)
    ensures m.paths <= old(m.paths)
    ensures m.draft == null || m.draft == old(m.draft) || (call.DraftArrives? && m.draft == call.block)
  {
    hide Views, PreviewStep, Distinct, Next;
    StateFits(m, list, shared);
    ghost var before, event, paths := State(m, list, shared), EventOf(call), m.paths;
    if call.DraftArrives? || call.RejectCall? || call.EndWaitCall? || call.WaitAfterCall? {
      EditsDraft(m, call);
    } else if call.UndoCall? || call.ClearCall? {
      DropsBlocks(m, call);
    } else {
      SetsFlag(m, call);
    }
    now := if |m.paths| < shared then |m.paths| else shared;
    SharesFewer(m, list, shared, paths);
    OtherStep(before, event, m.config, m.View());
  }

  /** Any call, on a list whose first `shared` blocks are the editor's. */
  method Apply(m: OfflineSequenceManager, call: Call, ghost list: seq<PathBlock>, ghost shared: nat)
    returns (ghost now: nat)
    requires Shares(m, list, shared) && Arrives(m, list, call)
    modifies m, m.draft, m.paths
    ensures Shares(m, list, now) && Fits(old(State(m, list, shared)))
    ensures State(m, list, now) == PreviewStep(old(State(m, list, shared)), old(EventOf(call)), m.config)
    ensures m.paths <= old(m.paths) || (old(m.draft) != null && m.paths == old(m.paths) + [old(m.draft)])
    ensures m.draft == null || m.draft == old(m.draft) || (call.DraftArrives? && m.draft == call.block)
  {
    if call.AcceptCall? {
      Accepts(m, list, shared);
      now := shared;
    } else {
      now := Others(m, call, list, shared);
    }
  }

  ghost function Messages(calls: seq<Call>): set<PathBlock> {
    set k | 0 <= k < |calls| && calls[k].DraftArrives? :: calls[k].block
  }

  ghost function EventsOf(calls: seq<Call>): (events: seq<Event>)
    reads Messages(calls)
    ensures |events| == |calls| && forall k :: 0 <= k < |calls| ==> events[k] == EventOf(calls[k])
  {
    if calls == [] then []
    else
      var before := calls[..|calls| - 1];
      assert Messages(before) <= Messages(calls);
      assert forall k :: 0 <= k < |before| ==> before[k] == calls[k];
      EventsOf(before) + [EventOf(calls[|calls| - 1])]
  }

  /** Every draft that arrives is a message of its own. */
  ghost predicate NewMessages(calls: seq<Call>, blocks: seq<PathBlock>) {
    && (forall k :: 0 <= k < |calls| && calls[k].DraftArrives? ==> calls[k].block !in blocks)
    && (forall j, k :: 0 <= j < k < |calls| && calls[j].DraftArrives? && calls[k].DraftArrives? ==>
          calls[j].block != calls[k].block)
  }

  /** The messages of call k and later are not yet the editor's. */
  ghost predicate ToCome(m: OfflineSequenceManager, calls: seq<Call>, list: seq<PathBlock>, k: nat)
    reads m
  {
    forall j :: k <= j < |calls| && calls[j].DraftArrives? ==>
      calls[j].block !in m.paths && calls[j].block != m.draft && calls[j].block !in list
  }

  /** The editor only touches its own messages and the list's. */
  ghost predicate Confined(m: OfflineSequenceManager, calls: seq<Call>, list: seq<PathBlock>)
    reads m
  {
    && (m.draft == null || m.draft in Messages(calls))
    && (forall b :: b in m.paths ==> b in list || b in Messages(calls))
  }

  /** What holds before call k. */
  ghost predicate Midway(
    m: OfflineSequenceManager, calls: seq<Call>, list: seq<PathBlock>, events: seq<Event>, shared: nat, k: nat)
    reads m, Messages(calls)
  {
    && Shares(m, list, shared) && ToCome(m, calls, list, k) && Confined(m, calls, list) && |events| == |calls|
    && (forall j :: k <= j < |calls| ==> EventOf(calls[j]) == events[j])
  }

  lemma {:induction false} StillToCome(
    m: OfflineSequenceManager, calls: seq<Call>, list: seq<PathBlock>, k: nat, paths: seq<PathBlock>, draft: PathBlock?)
    requires k < |calls| && NewMessages(calls, list)
    requires forall j :: k <= j < |calls| && calls[j].DraftArrives? ==>
               calls[j].block !in paths && calls[j].block != draft && calls[j].block !in list
    requires (draft == null || draft in Messages(calls)) && forall b :: b in paths ==> b in list || b in Messages(calls)
    requires m.paths <= paths || (draft != null && m.paths == paths + [draft])
    requires m.draft == null || m.draft == draft || (calls[k].DraftArrives? && m.draft == calls[k].block)
    ensures ToCome(m, calls, list, k + 1) && Confined(m, calls, list)
  {
    assert calls[k].DraftArrives? ==> calls[k].block in Messages(calls);
  }

  method OneCall(
    m: OfflineSequenceManager, calls: seq<Call>, k: nat, ghost list: seq<PathBlock>, ghost events: seq<Event>,
    ghost shared: nat)
    returns (ghost now: nat)
    requires k < |calls| && NewMessages(calls, list) && Midway(m, calls, list, events, shared, k)
    modifies m, m.draft, m.paths
    ensures Midway(m, calls, list, events, now, k + 1)
    ensures Fits(old(State(m, list, shared)))
    ensures State(m, list, now) == PreviewStep(old(State(m, list, shared)), events[k], m.config)
  {
    hide Views, PreviewStep, Distinct, NewMessages, Shares, Fits;
    ghost var paths, draft := m.paths, m.draft;
    now := Apply(m, calls[k], list, shared);
    StillToCome(m, calls, list, k, paths, draft);
  }

  /**
   * Any calls between the preview's request and its start: the requested list then holds what
   * OfflinePreview says, and PreviewStays and PreviewShowsRequest say when that is what was requested.
   */
  method UseEditor(m: OfflineSequenceManager, calls: seq<Call>)
    requires m.Valid() && CanExport(m.View()) && NewMessages(calls, m.paths)
    modifies m, m.paths, Messages(calls)
    ensures m.Valid()
    ensures Views(old(m.paths)) == During(Requested(old(m.View())), old(EventsOf(calls)), m.config).blocks
  {
    ghost var list, events, before := m.paths, EventsOf(calls), Requested(m.View());
    ghost var shared: nat := |list|;
    hide Views, Next, CanExport, PreviewStep, Distinct, Shares, ToCome, EventOf, During, EventsOf, NewMessages,
      Confined;
    StartsMidway(m, calls);
    DuringNothing(before, events, m.config);
    for k := 0 to |calls|
      invariant Midway(m, calls, list, events, shared, k)
      invariant State(m, list, shared) == During(before, events[..k], m.config)
    {
      DuringStep(before, events, m.config, k);
      shared := OneCall(m, calls, k, list, events, shared);
    }
    assert events[..|calls|] == events;
    SharesIsValid(m, list, shared);
  }

  lemma {:induction false} StartsMidway(m: OfflineSequenceManager, calls: seq<Call>)
    requires m.Valid() && CanExport(m.View()) && NewMessages(calls, m.paths)
    ensures Midway(m, calls, m.paths, EventsOf(calls), |m.paths|, 0)
    ensures Fits(Requested(m.View())) && State(m, m.paths, |m.paths|) == Requested(m.View())
  {
    hide Views;
  }

  lemma {:induction false} SharesIsValid(m: OfflineSequenceManager, list: seq<PathBlock>, shared: nat)
    requires Shares(m, list, shared)
    ensures m.Valid()
  {
  }

  lemma {:induction false} DuringNothing(p: Preview, events: seq<Event>, c: Config)
    requires Fits(p)
    ensures During(p, events[..0], c) == p
  {
  }
}
