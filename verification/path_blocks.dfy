/** PATH blocks of an offline sequence: what merging two blocks does to their meaning. */
module PathBlocks {
  import opened JointNames
  import opened PathMessages
  import opened PathProtocol
  import opened PathModel
  import opened Cutting

  datatype Block = Block(
    pathId: nat,
    pathType: nat,
    frames: seq<PathFrame>,
    conditions: seq<PathCondition>,
    nodes: seq<PathNode>,
    startIndex: nat,
    endIndex: nat,
    expectedStart: Six,
    expectedEnd: Six,
    waitAfter: bool)

  /** The goal the sequence server sends for a block. */
  function PathGoal(b: Block, generatedId: nat): Goal {
    Goal(if b.pathId != 0 then b.pathId else generatedId, b.pathType, b.frames, b.conditions, b.nodes,
         if b.startIndex != 0 then b.startIndex else 1, if b.endIndex != 0 then b.endIndex else |b.nodes|)
  }

  predicate FullRange(b: Block) {
    b.startIndex <= 1 && b.endIndex in {0, |b.nodes|}
  }

  /** Full-range and accepted by both validators, whatever its path_id. */
  predicate Sound(b: Block, maxNodes: nat) {
    FullRange(b) && Runnable(PathGoal(b.(pathId := 1), 1), maxNodes)
  }

  predicate EndsInWait(b: Block) {
    b.nodes != [] && b.nodes[|b.nodes| - 1].wait
  }

  /** How `_accept` extends the previous block in place. */
  function Merge(left: Block, right: Block): Block {
    left.(nodes := left.nodes + right.nodes, endIndex := |left.nodes| + |right.nodes|,
          expectedEnd := right.expectedEnd, waitAfter := right.waitAfter)
  }

  predicate SameTables(left: Block, right: Block) {
    left.pathType == right.pathType && left.frames == right.frames && left.conditions == right.conditions
  }

  lemma {:induction false} SoundWithId(b: Block, maxNodes: nat, generatedId: nat)
    requires Sound(b, maxNodes) && 0 < PathGoal(b, generatedId).pathId <= MAX_ID
    ensures Runnable(PathGoal(b, generatedId), maxNodes)
  {
  }

  lemma {:induction false} ArcsConcat(a: seq<PathNode>, b: seq<PathNode>)
    requires ArcOrder(a) && ArcOrder(b)
    ensures ArcOrder(a + b)
  {
    var nodes := a + b;
    forall i | 0 <= i < |nodes| && nodes[i].motionType == MOTION_CIRCULAR
      ensures i > 0 && nodes[i - 1].motionType == MOTION_SEG_VIA
    {
      if i < |a| {
        assert a[i].motionType == MOTION_CIRCULAR;
      } else {
        assert b[i - |a|].motionType == MOTION_CIRCULAR;
      }
    }
    forall i | 0 <= i < |nodes| && nodes[i].motionType == MOTION_SEG_VIA
      ensures i + 1 < |nodes| && nodes[i + 1].motionType == MOTION_CIRCULAR
    {
      if i < |a| {
        assert a[i].motionType == MOTION_SEG_VIA;
      } else {
        assert b[i - |a|].motionType == MOTION_SEG_VIA;
      }
    }
  }

  /** Merging two sound blocks with the same tables gives a sound block. */
  lemma {:induction false} MergeIsSound(left: Block, right: Block, maxNodes: nat)
    requires Sound(left, maxNodes) && Sound(right, maxNodes) && SameTables(left, right)
    requires |left.nodes| + |right.nodes| <= maxNodes
    ensures Sound(Merge(left, right), maxNodes)
  {
    hide ValidNode, ArcOrder, ValidFrames, ValidConditions;
    var goal := PathGoal(Merge(left, right).(pathId := 1), 1);
    if left.pathType == CARTESIAN {
      ArcsConcat(left.nodes, right.nodes);
    }
    assert goal.nodes[0] == left.nodes[0] && goal.nodes[|goal.nodes| - 1] == right.nodes[|right.nodes| - 1];
    forall i | 0 <= i < |goal.nodes|
      ensures ValidNode(goal.nodes[i], goal.pathType, FrameIndexes(goal.frames), Slots(goal.conditions))
    {
      assert goal.nodes[i] == if i < |left.nodes| then left.nodes[i] else right.nodes[i - |left.nodes|];
    }
  }

  /** `_set_draft_end_wait` on a block with nodes. */
  function WithEndWait(b: Block, wait: bool): Block
    requires b.nodes != []
  {
    var n := |b.nodes| - 1;
    b.(nodes := b.nodes[n := b.nodes[n].(wait := wait, fly := b.nodes[n].fly && !wait)])
  }

  lemma {:induction false} WaitKeepsNode(node: PathNode, wait: bool, pathType: nat, frames: set<nat>, slots: set<nat>)
    requires ValidNode(node, pathType, frames, slots)
    ensures ValidNode(node.(wait := wait, fly := node.fly && !wait), pathType, frames, slots)
  {
  }

  lemma {:induction false} EndWaitIsSound(b: Block, wait: bool, maxNodes: nat)
    requires Sound(b, maxNodes)
    ensures Sound(WithEndWait(b, wait), maxNodes)
  {
    hide ValidNode, ValidFrames, ValidConditions;
    var before, goal := PathGoal(b.(pathId := 1), 1), PathGoal(WithEndWait(b, wait).(pathId := 1), 1);
    assert forall i :: 0 <= i < |b.nodes| ==> goal.nodes[i].motionType == before.nodes[i].motionType;
    forall i | 0 <= i < |goal.nodes|
      ensures ValidNode(goal.nodes[i], goal.pathType, FrameIndexes(goal.frames), Slots(goal.conditions))
    {
      WaitKeepsNode(before.nodes[i], wait, goal.pathType, FrameIndexes(goal.frames), Slots(goal.conditions));
    }
  }

  // What the simulator does with the nodes.

  predicate Waits(node: PathNode) {
    node.wait
  }

  function NodeBatches(b: Block): seq<seq<PathNode>> {
    Cut(b.nodes, Waits)
  }

  lemma {:induction false} SoundRange(b: Block, maxNodes: nat, generatedId: nat)
    requires Sound(b, maxNodes)
    ensures var goal := PathGoal(b, generatedId);
            goal.nodes == b.nodes && b.nodes != [] && goal.Start() == 1 && goal.End() == |b.nodes|
  {
  }

  /** The batches of a full-range block's goal, as nodes. */
  lemma {:induction false} BatchesAreNodeBatches(b: Block, maxNodes: nat, generatedId: nat)
    requires Sound(b, maxNodes)
    ensures var goal := PathGoal(b, generatedId);
            MapAll(Batches(goal), NodeAt(b.nodes)) == NodeBatches(b)
  {
    SoundRange(b, maxNodes, generatedId);
    hide Sound, Pieces;
    var goal := PathGoal(b, generatedId);
    var range := Range(goal.Start(), goal.End());
    assert Map(range, NodeAt(b.nodes)) == b.nodes;
    CutOfMap(range, NodeAt(b.nodes), WaitsIn(goal), Waits);
  }

  function NodeAt(nodes: seq<PathNode>): int -> PathNode {
    index => if 1 <= index <= |nodes| then nodes[index - 1] else PlainNode(MOTION_JOINT, [], 50.0, false)
  }

  /**
   * A merged block is cut into the batches of its two parts, in order; they are joined at the seam
   * unless the left part ends in a wait.
   */
  lemma {:induction false} MergeBatches(left: Block, right: Block)
    requires left.nodes != [] && right.nodes != []
    ensures EndsInWait(left) ==> NodeBatches(Merge(left, right)) == NodeBatches(left) + NodeBatches(right)
    ensures !EndsInWait(left) ==>
              && NodeBatches(left) != [] && NodeBatches(right) != []
              && NodeBatches(Merge(left, right)) == Seam(NodeBatches(left), NodeBatches(right))
  {
    if EndsInWait(left) {
      CutSeparates(left.nodes, right.nodes, Waits);
    } else {
      CutJoins(left.nodes, right.nodes, Waits);
    }
  }

  // Several drafts merged into one block.

  function Merged(drafts: seq<Block>): Block
    requires drafts != []
  {
    if |drafts| == 1 then drafts[0]
    else Merge(Merged(drafts[..|drafts| - 1]), drafts[|drafts| - 1])
  }

  function NodeLists(drafts: seq<Block>): (r: seq<seq<PathNode>>)
    ensures |r| == |drafts| && forall i :: 0 <= i < |r| ==> r[i] == drafts[i].nodes
  {
    seq(|drafts|, i requires 0 <= i < |drafts| => drafts[i].nodes)
  }

  /** A block's nodes are its drafts' nodes in order; it starts where the first starts and ends where the last ends. */
  lemma {:induction false} MergedInOrder(drafts: seq<Block>)
    requires drafts != []
    ensures var b, last := Merged(drafts), drafts[|drafts| - 1];
            && b.nodes == Flatten(NodeLists(drafts))
            && b.expectedStart == drafts[0].expectedStart && b.startIndex == drafts[0].startIndex
            && b.expectedEnd == last.expectedEnd && b.waitAfter == last.waitAfter
            && (last.nodes != [] ==> EndsInWait(b) == EndsInWait(last))
  {
    var n := |drafts| - 1;
    FlattenLast(NodeLists(drafts));
    if n == 0 {
      assert NodeLists(drafts)[..0] == [];
    } else {
      MergedInOrder(drafts[..n]);
      assert NodeLists(drafts)[..n] == NodeLists(drafts[..n]);
    }
  }
}
