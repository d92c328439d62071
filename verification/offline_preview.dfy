/**
 * What a final preview shows when the editor is used between the preview's request and its start: the
 * requested list holds the editor's own blocks, which a later merge extends in place.
 */
module OfflinePreview {
  import opened Wrappers
  import opened PathProtocol
  import opened PathBlocks
  import opened OfflineSequence

  /** The first `shared` blocks of the editor are blocks of the requested list; `blocks` is what the list holds now. */
  datatype Preview = Preview(editor: Editor, shared: nat, blocks: seq<Block>)

  predicate Fits(p: Preview) {
    && p.shared <= |p.editor.paths| && p.shared <= |p.blocks|
    && p.editor.paths[..p.shared] == p.blocks[..p.shared]
  }

  function Requested(e: Editor): Preview {
    Preview(e, |e.paths|, e.paths)
  }

  /** The call is an accept that merges the draft into a block of the requested list. */
  predicate MergesInto(p: Preview, event: Event, c: Config) {
    && event.Accept? && p.editor.recording && p.editor.draft.Some? && Merges(p.editor, c)
    && p.shared == |p.editor.paths|
  }

  /** And the merge changes the block. */
  predicate Changes(p: Preview, event: Event, c: Config) {
    MergesInto(p, event, c) && MergeChanges(p.editor, c)
  }

  function PreviewStep(p: Preview, event: Event, c: Config): Preview
    requires Fits(p)
  {
    var after := Next(p.editor, event, c);
    Preview(after, if |after.paths| < p.shared then |after.paths| else p.shared,
            if MergesInto(p, event, c) then p.blocks[p.shared - 1 := after.paths[p.shared - 1]] else p.blocks)
  }

  lemma {:induction false} StepFits(p: Preview, event: Event, c: Config)
    requires Fits(p)
    ensures Fits(PreviewStep(p, event, c))
    ensures PreviewStep(p, event, c).blocks == p.blocks <==> !Changes(p, event, c)
  {
    if MergesInto(p, event, c) {
      assert p.blocks[..p.shared][p.shared - 1] == p.blocks[p.shared - 1];
    }
  }

  function During(p: Preview, events: seq<Event>, c: Config): (q: Preview)
    requires Fits(p)
    ensures Fits(q)
  {
    if events == [] then p
    else
      var before := During(p, events[..|events| - 1], c);
      StepFits(before, events[|events| - 1], c);
      PreviewStep(before, events[|events| - 1], c)
  }

  lemma {:induction false} DuringStep(p: Preview, events: seq<Event>, c: Config, k: nat)
    requires Fits(p) && k < |events|
    ensures During(p, events[..k + 1], c) == PreviewStep(During(p, events[..k], c), events[k], c)
  {
    assert events[..k + 1][..k] == events[..k];
  }

  /** No call so far has changed a block of the list. */
  predicate NoneChanges(p: Preview, events: seq<Event>, c: Config)
    requires Fits(p)
  {
    forall k :: 0 <= k < |events| ==> !Changes(During(p, events[..k], c), events[k], c)
  }

  /** The list still holds what was requested after every call. */
  predicate Unchanged(p: Preview, events: seq<Event>, c: Config)
    requires Fits(p)
  {
    forall k :: 0 <= k <= |events| ==> During(p, events[..k], c).blocks == p.blocks
  }

  /**
   * Through any calls of the editor, the requested list stays as requested exactly if none of them is an
   * accept that merges a changing draft into one of its blocks.
   */
  lemma {:induction false} PreviewStays(p: Preview, events: seq<Event>, c: Config)
    requires Fits(p)
    ensures Unchanged(p, events, c) <==> NoneChanges(p, events, c)
  {
    if Unchanged(p, events, c) {
      forall k | 0 <= k < |events|
        ensures !Changes(During(p, events[..k], c), events[k], c)
      {
        DuringStep(p, events, c, k);
        StepFits(During(p, events[..k], c), events[k], c);
      }
    } else {
      var k :| 0 <= k <= |events| && During(p, events[..k], c).blocks != p.blocks;
      FirstChange(p, events, c, k);
    }
  }

  lemma {:induction false} FirstChange(p: Preview, events: seq<Event>, c: Config, k: nat)
    requires Fits(p) && k <= |events| && During(p, events[..k], c).blocks != p.blocks
    ensures !NoneChanges(p, events, c)
  {
    assert k > 0;
    var j := k - 1;
    DuringStep(p, events, c, j);
    StepFits(During(p, events[..j], c), events[j], c);
    if During(p, events[..j], c).blocks != p.blocks {
      FirstChange(p, events, c, j);
    } else {
      assert Changes(During(p, events[..j], c), events[j], c);
    }
  }

  // What a caller can check.

  lemma {:induction false} NothingRecorded(p: Preview, events: seq<Event>, c: Config)
    requires Fits(p) && !p.editor.recording && forall k :: 0 <= k < |events| ==> !events[k].Start?
    ensures !During(p, events, c).editor.recording
  {
    if events != [] {
      NothingRecorded(p, events[..|events| - 1], c);
    }
  }

  /** As long as recording is not started again, the preview shows what was requested. */
  lemma {:induction false} NotRecordingKeepsPreview(e: Editor, events: seq<Event>, c: Config)
    requires CanExport(e) && forall k :: 0 <= k < |events| ==> !events[k].Start?
    ensures Unchanged(Requested(e), events, c)
    ensures During(Requested(e), events, c).blocks == e.paths
  {
    var p := Requested(e);
    forall k | 0 <= k < |events|
      ensures !Changes(During(p, events[..k], c), events[k], c)
    {
      NothingRecorded(p, events[..k], c);
    }
    PreviewStays(p, events, c);
    assert events[..|events|] == events;
  }

  // Drafts with nodes.

  function NodesIn(blocks: seq<Block>): nat {
    if blocks == [] then 0 else NodesIn(blocks[..|blocks| - 1]) + |blocks[|blocks| - 1].nodes|
  }

  lemma {:induction false} NodesUpdated(blocks: seq<Block>, i: nat, b: Block)
    requires i < |blocks|
    ensures NodesIn(blocks[i := b]) == NodesIn(blocks) - |blocks[i].nodes| + |b.nodes|
  {
    var n := |blocks| - 1;
    if i < n {
      NodesUpdated(blocks[..n], i, b);
      assert blocks[i := b][..n] == blocks[..n][i := b];
    } else {
      assert blocks[i := b][..n] == blocks[..n];
    }
  }

  predicate DraftHasNodes(e: Editor) {
    e.draft.Some? ==> e.draft.value.nodes != []
  }

  lemma {:induction false} StepGrows(p: Preview, event: Event, c: Config)
    requires Fits(p) && DraftHasNodes(p.editor) && (event.Draft? ==> event.block.nodes != [])
    ensures DraftHasNodes(PreviewStep(p, event, c).editor)
    ensures NodesIn(PreviewStep(p, event, c).blocks) >= NodesIn(p.blocks)
    ensures NodesIn(PreviewStep(p, event, c).blocks) > NodesIn(p.blocks) <==> MergesInto(p, event, c)
  {
    if MergesInto(p, event, c) {
      var i := p.shared - 1;
      assert p.editor.paths[..p.shared][i] == p.blocks[..p.shared][i];
      NodesUpdated(p.blocks, i, Next(p.editor, event, c).paths[i]);
    }
  }

  predicate NoneMerges(p: Preview, events: seq<Event>, c: Config)
    requires Fits(p)
  {
    forall k :: 0 <= k < |events| ==> !MergesInto(During(p, events[..k], c), events[k], c)
  }

  lemma {:induction false} NoneMergesSnoc(p: Preview, events: seq<Event>, c: Config)
    requires Fits(p) && events != []
    ensures var n := |events| - 1;
            NoneMerges(p, events, c) <==>
              NoneMerges(p, events[..n], c) && !MergesInto(During(p, events[..n], c), events[n], c)
  {
    hide During, MergesInto;
    var n := |events| - 1;
    assert forall k :: 0 <= k < n ==> events[..n][k] == events[k] && events[..n][..k] == events[..k];
  }

  lemma {:induction false} NodesGrow(p: Preview, events: seq<Event>, c: Config)
    requires Fits(p) && DraftHasNodes(p.editor)
    requires forall k :: 0 <= k < |events| && events[k].Draft? ==> events[k].block.nodes != []
    ensures DraftHasNodes(During(p, events, c).editor)
    ensures NodesIn(During(p, events, c).blocks) >= NodesIn(p.blocks)
    ensures NodesIn(During(p, events, c).blocks) > NodesIn(p.blocks) <==> !NoneMerges(p, events, c)
  {
    if events != [] {
      var n := |events| - 1;
      hide DraftHasNodes, MergesInto, NoneMerges, PreviewStep;
      NodesGrow(p, events[..n], c);
      StepGrows(During(p, events[..n], c), events[n], c);
      NoneMergesSnoc(p, events, c);
    }
  }

  /** For drafts with nodes, the preview shows what was requested exactly if no draft was merged into it. */
  lemma {:induction false} PreviewShowsRequest(e: Editor, events: seq<Event>, c: Config)
    requires CanExport(e)
    requires forall k :: 0 <= k < |events| && events[k].Draft? ==> events[k].block.nodes != []
    ensures During(Requested(e), events, c).blocks == e.paths <==> NoneMerges(Requested(e), events, c)
  {
    var p := Requested(e);
    NodesGrow(p, events, c);
    if NoneMerges(p, events, c) {
      assert NoneChanges(p, events, c);
      PreviewStays(p, events, c);
      assert events[..|events|] == events;
    }
  }
}
