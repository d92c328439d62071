/** OfflineSequenceManager as it runs: messages and fields changed in place. */
module OfflineSequenceManagers {
  import opened Wrappers
  import opened JointNames
  import opened PathMessages
  import opened PathBlocks
  import opened OfflineSequence
  import opened Reals

  /** A PathBlock message; the editor changes its last four fields. */
  class PathBlock {
    const header: Block
    var nodes: seq<PathNode>
    var endIndex: nat
    var expectedEnd: Six
    var waitAfter: bool

    ghost function View(): Block
      reads this
    {
      header.(nodes := nodes, endIndex := endIndex, expectedEnd := expectedEnd, waitAfter := waitAfter)
    }

    constructor (b: Block)
      ensures View() == b
    {
      header := b;
      nodes, endIndex, expectedEnd, waitAfter := b.nodes, b.endIndex, b.expectedEnd, b.waitAfter;
    }
  }

  ghost function Views(blocks: seq<PathBlock>): (v: seq<Block>)
    reads blocks
    ensures |v| == |blocks| && forall i :: 0 <= i < |v| ==> v[i] == blocks[i].View()
  {
    if blocks == [] then [] else Views(blocks[..|blocks| - 1]) + [blocks[|blocks| - 1].View()]
  }

  ghost predicate Distinct(blocks: seq<PathBlock>) {
    forall i, j :: 0 <= i < j < |blocks| ==> blocks[i] != blocks[j]
  }

  class OfflineSequenceManager {
    const config: Config
    var recording: bool
    var motionActive: bool
    var draft: PathBlock?
    var paths: seq<PathBlock>
    var sending: bool
    var previewing: bool

    /** No block occurs twice; the draft is not yet a block. */
    ghost predicate Valid()
      reads this
    {
      && Distinct(paths)
      && (draft != null ==> draft !in paths)
    }

    ghost function Draft(): Option<Block>
      reads this, draft
    {
      if draft == null then None else Some(draft.View())
    }

    ghost function View(): Editor
      reads this, draft, paths
    {
      Editor(recording, motionActive, Draft(), Views(paths), sending, previewing)
    }

    constructor (config: Config)
      ensures Valid() && View() == EMPTY && this.config == config && paths == [] && draft == null
    {
      this.config := config;
      recording, motionActive, sending, previewing := false, false, false, false;
      draft, paths := null, [];
    }

    method DraftCallback(block: PathBlock)
      requires Valid() && block !in paths
      modifies this`draft
      ensures Valid() && View() == DraftOf(old(View()), block.View())
      ensures draft == if old(recording && draft == null) then block else old(draft)
    {
      if recording && draft == null {
        draft := block;
      }
    }

    method StartRecording() returns (ok: bool)
      requires Valid()
      modifies this`recording
      ensures Valid() && (View(), ok) == StartOf(old(View()))
    {
      if recording || motionActive || draft != null || sending || previewing {
        return false;
      }
      recording := true;
      return true;
    }

    method CannotFinalize() returns (blocked: bool)
      requires Valid()
      ensures !blocked <==> CanFinalize(View())
    {
      if motionActive || draft != null {
        return true;
      }
      for i := 0 to |paths|
        invariant forall k :: 0 <= k < i ==> !EndsInWait(Views(paths)[k])
      {
        assert Views(paths)[i] == paths[i].View();
        if paths[i].nodes != [] && paths[i].nodes[|paths[i].nodes| - 1].wait {
          return true;
        }
      }
      return false;
    }

    method StopRecording() returns (ok: bool)
      requires Valid()
      modifies this`recording
      ensures Valid() && (View(), ok) == StopOf(old(View()))
    {
      if !recording {
        return false;
      }
      var blocked := CannotFinalize();
      if blocked {
        return false;
      }
      recording := false;
      return true;
    }

    method SetDraftEndWait(wait: bool) returns (ok: bool)
      requires Valid()
      modifies draft
      ensures Valid() && (View(), ok) == EndWaitOf(old(View()), wait)
    {
      if !recording || draft == null || draft.nodes == [] {
        return false;
      }
      var n := |draft.nodes| - 1;
      var node := draft.nodes[n];
      if wait && (node.motionType == MOTION_SEG_VIA || draft.waitAfter) {
        return false;
      }
      node := node.(wait := wait);
      if node.wait {
        node := node.(fly := false);
      }
      draft.nodes := draft.nodes[n := node];
      return true;
    }

    method SetDraftWaitAfter(wait: bool) returns (ok: bool)
      requires Valid()
      modifies draft
      ensures Valid() && (View(), ok) == WaitAfterOf(old(View()), wait)
    {
      if !recording || draft == null {
        return false;
      }
      if wait && draft.nodes != [] && draft.nodes[|draft.nodes| - 1].wait {
        return false;
      }
      draft.waitAfter := wait;
      return true;
    }

    method IsCompatible(left: PathBlock, right: PathBlock) returns (r: bool)
      ensures r <==> Compatible(left.View(), right.View(), config)
    {
      var l, s := left.header, right.header;
      if left.waitAfter || l.pathType != s.pathType || l.frames != s.frames || l.conditions != s.conditions {
        return false;
      }
      for index := 0 to 6
        invariant forall k :: 0 <= k < index ==> Distance(left.expectedEnd[k], s.expectedStart[k]) <= config.tolerance
      {
        if Distance(left.expectedEnd[index], s.expectedStart[index]) > config.tolerance {
          return false;
        }
      }
      return |left.nodes| + |right.nodes| <= config.maxNodes;
    }

    /** The in-place extension of the previous block. */
    method Extend(previous: PathBlock, block: PathBlock)
      requires previous != block
      modifies previous
      ensures previous.View() == Merge(old(previous.View()), old(block.View()))
    {
      previous.nodes := previous.nodes + block.nodes;
      previous.endIndex := |previous.nodes|;
      previous.expectedEnd := block.expectedEnd;
      previous.waitAfter := block.waitAfter;
    }

    method ExtendLast(block: PathBlock)
      requires Valid() && paths != [] && block !in paths
      modifies paths[|paths| - 1]
      ensures var n := |paths| - 1;
              Views(paths) == old(Views(paths))[n := Merge(old(Views(paths))[n], old(block.View()))]
    {
      Extend(paths[|paths| - 1], block);
    }

    method Append(block: PathBlock)
      requires Valid() && block !in paths
      modifies this`paths
      ensures paths == old(paths) + [block]
      ensures Views(paths) == old(Views(paths)) + [block.View()]
    {
      paths := paths + [block];
    }

    /** Whether the draft can become a block of its own. */
    method EndsOpen() returns (r: bool)
      requires Valid()
      ensures r <==> paths == [] || !EndsInWait(Views(paths)[|paths| - 1])
    {
      if paths == [] {
        return true;
      }
      var last := paths[|paths| - 1];
      return last.nodes == [] || !last.nodes[|last.nodes| - 1].wait;
    }

    method MergesWithLast(block: PathBlock) returns (r: bool)
      requires Valid()
      ensures r <==> config.mergeCompatible && paths != [] &&
                     Compatible(Views(paths)[|paths| - 1], block.View(), config)
    {
      if !config.mergeCompatible || paths == [] {
        return false;
      }
      r := IsCompatible(paths[|paths| - 1], block);
    }

    method TakeDraft(block: PathBlock) returns (ok: bool)
      requires Valid() && block !in paths
      modifies this`paths, paths
      ensures Taken(old(Views(paths)), old(block.View()), Views(paths), ok, config)
      ensures paths == old(paths) || (ok && paths == old(paths) + [block])
      ensures block.View() == old(block.View()) && Distinct(paths) && (ok || Valid())
    {
      hide Compatible, Merge, EndsInWait, Views, Taken;
      ghost var before, taken := Views(paths), block.View();
      ok := true;
      var merged := MergesWithLast(block);
      if merged {
        ExtendLast(block);
      } else {
        ok := EndsOpen();
        if ok {
          Append(block);
        }
      }
      TakenCases(before, taken, Views(paths), ok, config);
    }

    method DropDraft()
      requires Distinct(paths)
      modifies this`draft
      ensures Valid() && draft == null && Views(paths) == old(Views(paths))
    {
      draft := null;
    }

    /** Takes the draft as a block, or leaves it under review. */
    method ReviewDraft(block: PathBlock) returns (ok: bool)
      requires Valid() && draft == block
      modifies this`draft, this`paths, paths
      ensures Valid()
      ensures Taken(old(Views(paths)), old(block.View()), Views(paths), ok, config)
      ensures Draft() == if ok then None else old(Draft())
      ensures draft == null || draft == old(draft)
      ensures paths == old(paths) || paths == old(paths) + [block]
    {
      hide Taken, Compatible, Merge, EndsInWait, Views, Distinct;
      ok := TakeDraft(block);
      if ok {
        DropDraft();
      }
    }

    method AcceptPending() returns (ok: bool)
      requires Valid() && recording && draft != null
      modifies this`draft, this`paths, paths
      ensures Valid() && (View(), ok) == AcceptOf(old(View()), config)
      ensures paths == old(paths) || paths == old(paths) + [old(draft)]
      ensures draft == null || draft == old(draft)
    {
      hide Taken, AcceptOf, Compatible, Merge, EndsInWait, Views, Distinct;
      ghost var before := View();
      ok := ReviewDraft(draft);
      hide Draft, Valid;
      AcceptTakes(before, config, Views(paths), ok);
    }

    method AcceptDraft() returns (ok: bool)
      requires Valid()
      modifies this`draft, this`paths, paths
      ensures Valid() && (View(), ok) == AcceptOf(old(View()), config)
      ensures paths == old(paths) || (old(draft) != null && paths == old(paths) + [old(draft)])
      ensures draft == null || draft == old(draft)
      ensures Views(old(paths)) == Views(paths)[..|old(paths)|]
      ensures Views(old(paths)) == old(Views(paths)) <==> !MergeChanges(old(View()), config)
    {
      ghost var before, blocks := View(), paths;
      if !recording || draft == null {
        return false;
      }
      hide AcceptOf, Views, Distinct, MergeChanges, Draft, Valid;
      ok := AcceptPending();
      AcceptKeepsBlocks(before, config);
      assert Views(blocks) == Views(paths)[..|blocks|];
    }

    method RejectDraft() returns (ok: bool)
      requires Valid()
      modifies this`draft
      ensures Valid() && (View(), ok) == RejectOf(old(View()))
      ensures draft == null || draft == old(draft)
    {
      if !recording {
        return false;
      }
      ok := draft != null;
      draft := null;
    }

    method UndoLast() returns (ok: bool)
      requires Valid()
      modifies this`paths
      ensures Valid() && (View(), ok) == UndoOf(old(View()))
      ensures paths <= old(paths)
    {
      if !recording || motionActive || draft != null || paths == [] {
        return false;
      }
      paths := paths[..|paths| - 1];
      return true;
    }

    method Clear() returns (ok: bool)
      requires Valid()
      modifies this`paths, this`draft, this`recording
      ensures Valid() && (View(), ok) == ClearOf(old(View()))
      ensures paths <= old(paths) && (draft == null || draft == old(draft))
    {
      if motionActive || sending || previewing {
        return false;
      }
      paths, draft, recording := [], null, false;
      return true;
    }

    /** The sequence `_preview_all` keeps until the simulator has been reset: a new list of the same blocks. */
    method PreviewAll() returns (ok: bool, sequence: seq<PathBlock>)
      requires Valid()
      ensures ok <==> CanExport(View()) && !previewing
      ensures ok ==> sequence == paths
    {
      if recording || draft != null || paths == [] || previewing {
        return false, [];
      }
      return true, paths;
    }
  }

  function Stopped(paths: seq<Block>): Editor {
    Editor(false, false, None, paths, false, false)
  }

  lemma {:induction false} FirstAccept(e: Editor, c: Config)
    requires e.recording && e.draft.Some? && e.paths == []
    ensures AcceptOf(e, c) == (e.(draft := None, paths := [e.draft.value]), true)
  {
    assert e.paths + [e.draft.value] == [e.draft.value];
  }

  /** Records one block and stops. */
  method RecordOne(config: Config, block: PathBlock) returns (manager: OfflineSequenceManager)
    requires !EndsInWait(block.View())
    ensures fresh(manager) && manager.Valid() && manager.config == config && manager.paths == [block]
    ensures manager.View() == Stopped([block.View()])
  {
    hide AcceptOf, Compatible, Merge, Views, Distinct, MergeChanges;
    manager := new OfflineSequenceManager(config);
    var ok := manager.StartRecording();
    assert manager.View() == EMPTY.(recording := true);
    manager.DraftCallback(block);
    assert manager.View() == Editor(true, false, Some(block.View()), [], false, false);
    FirstAccept(manager.View(), config);
    ok := manager.AcceptDraft();
    assert manager.View() == Editor(true, false, None, [block.View()], false, false);
    ok := manager.StopRecording();
  }

  /** Records again, with a draft that merges and is made to wait at its end. */
  method MergeOne(manager: OfflineSequenceManager, draft: PathBlock)
    requires manager.Valid() && |manager.paths| == 1 && draft !in manager.paths
    requires manager.View() == Stopped([manager.paths[0].View()])
    requires draft.nodes != [] && draft.nodes[|draft.nodes| - 1].motionType != MOTION_SEG_VIA && !draft.waitAfter
    requires manager.config.mergeCompatible && Compatible(manager.paths[0].View(), draft.View(), manager.config)
    modifies manager, manager.paths, draft
    ensures old(manager.paths[0]).View() == Merge(old(manager.paths[0].View()), WithEndWait(old(draft.View()), true))
  {
    hide Compatible, Views;
    var block := manager.paths[0];
    WaitStaysCompatible(block.View(), draft.View(), true, manager.config);
    var ok := manager.StartRecording();
    manager.DraftCallback(draft);
    assert manager.View() == Editor(true, false, Some(draft.View()), [block.View()], false, false);
    ok := manager.SetDraftEndWait(true);
    var waiting := WithEndWait(old(draft.View()), true);
    assert manager.View() == Editor(true, false, Some(waiting), [block.View()], false, false);
    ok := manager.AcceptDraft();
    assert manager.View().paths == [Merge(old(block.View()), waiting)];
    assert Views(manager.paths)[0] == manager.paths[0].View();
  }

  /**
   * The preview list shares its blocks with the editor. When recording starts again before the
   * simulator's reset has completed, a later draft that merges changes the block about to be previewed:
   * here it gains nodes and a wait on its final node.
   */
  method PreviewSeesLaterEdits(config: Config, first: Block, second: Block)
    returns (requested: Block, previewed: seq<PathBlock>)
    requires config.mergeCompatible && Compatible(first, second, config)
    requires second.nodes != [] && !EndsInWait(first) && !second.waitAfter
    requires second.nodes[|second.nodes| - 1].motionType != MOTION_SEG_VIA
    ensures requested == first && !EndsInWait(requested)
    ensures |previewed| == 1 && fresh(previewed[0])
    ensures previewed[0].View() == Merge(first, WithEndWait(second, true)) && EndsInWait(previewed[0].View())
  {
    hide Compatible, Views;
    var block := new PathBlock(first);
    var manager := RecordOne(config, block);
    var ok;
    ok, previewed := manager.PreviewAll();
    requested := first;
    assert previewed == [block] && block.View() == requested;
    var draft := new PathBlock(second);
    MergeOne(manager, draft);
  }
}
