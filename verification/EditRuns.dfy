/**
 * Whole runs of edits: whatever is set, removed, copied, or done to groups and instances, at any
 * depth, a message stays well-formed, and what was copied in is as well-formed as where it came from.
 */
module EditRuns {
  import opened Tape
  import opened Document
  import opened Editing
  import opened Lookup
  import opened Numerals
  import opened Storage
  import opened Messages
  import opened Groups
  import opened Copying
  import opened Shape
  import opened Pruning

  /** An edit: of the block a path leads to, or of the `k`th node there, a group. */
  datatype Edit =
    | PutFields(r: Region, p: Path, members: Option<Members>, entries: seq<Entry>)
    | RemoveTag(r: Region, p: Path, tag: nat)
    | AddGroup(r: Region, p: Path, members: Option<Members>, tag: nat)
    | AddInstance(r: Region, p: Path, k: nat, n: nat)
    | RemoveInstanceAt(r: Region, p: Path, k: nat, n: nat)
    | RetainInstances(r: Region, p: Path, k: nat, keep: seq<bool>)
    | ClearGroup(r: Region, p: Path, k: nat)
    | CopyNodesIn(r: Region, p: Path, members: Option<Members>, tag: nat, nodes: seq<Node>)
    | PruneInstance(r: Region, p: Path, k: nat, n: nat)

  /** No Length in the block has this tag. */
  predicate NoLength(block: seq<Node>, tag: nat) {
    forall k :: 0 <= k < |block| && block[k].entry.kind.DataLen? ==> block[k].entry.tag != tag
  }

  /** The block and the group are there, and the dictionary's tables agree with what the block holds. */
  predicate Allowed(doc: Doc, e: Edit) {
    && HoldsFields(doc, e.r, e.p)
    && var block := Block(Part(doc, e.r), e.p);
       match e {
         case PutFields(_, p, members, entries) =>
           && FieldOrPair(entries) && KindsAgree(block, entries)
           && (p == [] ==> members == None) && Lists(members, block)
           && (First(block, HasTag(entries[|entries| - 1].tag)) == |block| ==> NoLength(block, entries[0].tag))
         case RemoveTag(_, _, _) => Paired(block)
         case AddGroup(_, p, members, tag) =>
           (p == [] ==> members == None) && Lists(members, block) && NoLength(block, tag)
         case AddInstance(r, p, k, n) => IsGroupAt(doc, r, p, k) && n <= |block[k].kids|
         case RemoveInstanceAt(r, p, k, n) => IsGroupAt(doc, r, p, k) && n < |block[k].kids|
         case RetainInstances(r, p, k, keep) => IsGroupAt(doc, r, p, k) && |keep| == |block[k].kids|
         case ClearGroup(r, p, k) => IsGroupAt(doc, r, p, k)
         case CopyNodesIn(r, p, members, tag, nodes) =>
           && Paired(block) && (p == [] ==> members == None)
           && nodes != [] && Shaped(nodes, false)
           && (WithoutStays(doc, r, p, tag);
               var left := Block(Part(Without(doc, r, p, tag), r), p);
               Lists(members, left) && NoLength(left, nodes[0].entry.tag))
         case PruneInstance(r, p, k, n) => IsGroupAt(doc, r, p, k) && n < |block[k].kids|
       }
  }

  /** What the edit does. */
  function Applied(doc: Doc, e: Edit): Doc
    requires Allowed(doc, e)
  {
    match e
    case PutFields(r, p, members, entries) => Put(doc, r, p, members, entries)
    case RemoveTag(r, p, tag) => Without(doc, r, p, tag)
    case AddGroup(r, p, members, tag) =>
      InsertedNodes(doc, r, p, Position(Block(Part(doc, r), p), r == Header && p == [], members, tag), [Node(GroupEntry(tag), [])])
    case AddInstance(r, p, k, n) => InstanceAdded(doc, r, p, k, n)
    case RemoveInstanceAt(r, p, k, n) => InstanceGone(doc, r, p, k, n)
    case RetainInstances(r, p, k, keep) => Retained(doc, r, p, k, keep)
    case ClearGroup(r, p, k) => NodeGone(doc, r, p, k)
    case CopyNodesIn(r, p, members, tag, nodes) => Replaced(doc, r, p, members, tag, nodes)
    case PruneInstance(r, p, k, n) => Pruned(doc, r, p, k, n)
  }

  lemma {:induction false} AppliedKeepsShape(doc: Doc, e: Edit)
    requires WellFormed(doc) && Allowed(doc, e)
    ensures WellFormed(Applied(doc, e))
  {
    hide WellFormed, Shaped, HoldsFields, Lists, KindsAgree, Position, Block, Part, First, Edited, NodeGone;
    match e
    case PutFields(r, p, members, entries) => PutKeepsShape(doc, r, p, members, entries);
    case RemoveTag(r, p, tag) => WithoutKeepsShape(doc, r, p, tag);
    case AddGroup(r, p, members, tag) =>
      NewGroupShaped(tag);
      InsertKeepsShape(doc, r, p, members, tag, [Node(GroupEntry(tag), [])]);
    case AddInstance(r, p, k, n) =>
      NewGroupShaped(0);
      Further(doc, r, p, k);
      InstancesKeepShape(doc, r, p, k, n, n, [EMPTY_INSTANCE]);
    case RemoveInstanceAt(r, p, k, n) => InstanceGoneKeepsShape(doc, r, p, k, n);
    case RetainInstances(r, p, k, keep) =>
      RetainedKeepsShape(doc, r, p, k, keep);
    case ClearGroup(r, p, k) => NodeGoneKeepsShape(doc, r, p, k);
    case CopyNodesIn(_, _, _, _, _) => ReplacedKeepsShape(doc, e);
    case PruneInstance(r, p, k, n) => InstanceGoneKeepsShape(doc, r, p, k, n);
  }

  lemma {:induction false} InstanceGoneKeepsShape(doc: Doc, r: Region, p: Path, k: nat, n: nat)
    requires WellFormed(doc) && HoldsFields(doc, r, p) && IsGroupAt(doc, r, p, k) && n < |Block(Part(doc, r), p)[k].kids|
    ensures WellFormed(InstanceGone(doc, r, p, k, n))
  {
    hide WellFormed, Shaped, Part, Block, Edited, NodeGone, HoldsFields;
    NewGroupShaped(0);
    Further(doc, r, p, k);
    NodeGoneKeepsShape(doc, r, p, k);
    InstancesKeepShape(doc, r, p, k, n, n + 1, []);
  }

  lemma {:induction false} ReplacedKeepsShape(doc: Doc, e: Edit)
    requires WellFormed(doc) && e.CopyNodesIn? && Allowed(doc, e)
    ensures WellFormed(Applied(doc, e))
  {
    hide WellFormed, Shaped, First, HasTag, Lists, Position, InsertedNodes;
    WithoutKeepsShape(doc, e.r, e.p, e.tag);
    WithoutHolds(doc, e.r, e.p, e.tag);
    WithoutStays(doc, e.r, e.p, e.tag);
    hide Without, Block, Part;
    InsertKeepsShape(Without(doc, e.r, e.p, e.tag), e.r, e.p, e.members, e.nodes[0].entry.tag, e.nodes);
  }

  lemma {:induction false} WithoutHolds(doc: Doc, r: Region, p: Path, tag: nat)
    requires HoldsFields(doc, r, p) && Paired(Block(Part(doc, r), p))
    ensures HoldsFields(Without(doc, r, p, tag), r, p)
  {
    hide First, HasTag, Edited, Part, Block;
    var block := Block(Part(doc, r), p);
    var k := First(block, HasTag(tag));
    if k < |block| {
      EditedStays(doc, r, p, Whole(block, k).0, Whole(block, k).1, []);
    }
  }

  lemma {:induction false} NewGroupShaped(tag: nat)
    ensures Shaped([Node(GroupEntry(tag), [])], false)
    ensures Shaped([EMPTY_INSTANCE], true)
    ensures Shaped([], true)
  {
    assert Shaped([], true) && Shaped([], false);
  }

  lemma {:induction false} RetainedKeepsShape(doc: Doc, r: Region, p: Path, k: nat, keep: seq<bool>)
    requires WellFormed(doc) && HoldsFields(doc, r, p) && IsGroupAt(doc, r, p, k)
    requires |keep| == |Block(Part(doc, r), p)[k].kids|
    ensures WellFormed(Retained(doc, r, p, k, keep))
  {
    hide WellFormed, Shaped, Part, Block, Edited, NodeGone, HoldsFields;
    var kids := Block(Part(doc, r), p)[k].kids;
    NewGroupShaped(0);
    Further(doc, r, p, k);
    NodeGoneKeepsShape(doc, r, p, k);
    InstancesKeepShape(doc, r, p, k, 0, 0, []);
    KeptShaped(kids, keep);
    InstancesKeepShape(doc, r, p, k, 0, |kids|, Kept(kids, keep));
  }

  /** A run of edits, each allowed when it comes. */
  predicate AllAllowed(doc: Doc, edits: seq<Edit>)
    decreases |edits|
  {
    edits == [] || (Allowed(doc, edits[0]) && AllAllowed(Applied(doc, edits[0]), edits[1..]))
  }

  function AfterAll(doc: Doc, edits: seq<Edit>): Doc
    requires AllAllowed(doc, edits)
    decreases |edits|
  {
    if edits == [] then doc else AfterAll(Applied(doc, edits[0]), edits[1..])
  }

  /** However a message is edited, it stays well-formed. */
  lemma {:induction false} EditsKeepShape(doc: Doc, edits: seq<Edit>)
    requires WellFormed(doc) && AllAllowed(doc, edits)
    ensures WellFormed(AfterAll(doc, edits))
    decreases |edits|
  {
    if edits != [] {
      AppliedKeepsShape(doc, edits[0]);
      EditsKeepShape(Applied(doc, edits[0]), edits[1..]);
    }
  }

  // ---------------------------------------------------------------------
  // What is copied
  // ---------------------------------------------------------------------

  lemma {:induction false} CopyShaped(src: Segments, ns: seq<Node>, group: bool, arena: seq<Byte>)
    requires AllPresent(src, ns) && Shaped(ns, group)
    ensures Shaped(CopyNodes(src, ns, arena).0, group)
  {
    var c := CopyNodes(src, ns, arena).0;
    CopyKinds(src, ns, arena);
    CopyShapedEach(src, ns, group, arena);
    if !group {
      SameKinds(ns, c);
    }
  }

  lemma {:induction false} SameKinds(ns: seq<Node>, ns': seq<Node>)
    requires |ns'| == |ns| && forall k :: 0 <= k < |ns| ==> ns'[k].entry.kind == ns[k].entry.kind
    ensures Paired(ns) ==> Paired(ns')
  {
  }

  lemma {:induction false} CopyShapedEach(src: Segments, ns: seq<Node>, group: bool, arena: seq<Byte>)
    requires AllPresent(src, ns) && forall i :: 0 <= i < |ns| ==> ShapedNode(ns[i], group)
    ensures forall i :: 0 <= i < |ns| ==> ShapedNode(CopyNodes(src, ns, arena).0[i], group)
    decreases ns, 1
  {
    if ns != [] {
      CopyShapedNode(src, ns[0], group, arena);
      hide ShapedNode, CopyNode;
      CopyShapedEach(src, ns[1..], group, CopyNode(src, ns[0], arena).1);
    }
  }

  lemma {:induction false} CopyShapedNode(src: Segments, n: Node, group: bool, arena: seq<Byte>)
    requires PresentIn(src, n) && ShapedNode(n, group)
    ensures ShapedNode(CopyNode(src, n, arena).0, group)
    decreases n, 0
  {
    var a := CopyEntry(src, n.entry, arena).1;
    CopyKind(src, n.entry, arena);
    var inner := group || n.entry.kind.Group?;
    if inner {
      ShapedInside(n, group);
      CopyShapedEach(src, n.kids, !group, a);
      CopyKinds(src, n.kids, a);
      SameKinds(n.kids, CopyNodes(src, n.kids, a).0);
    }
  }

  lemma {:induction false} ShapedInside(n: Node, group: bool)
    requires ShapedNode(n, group) && (group || n.entry.kind.Group?)
    ensures Shaped(n.kids, !group) && forall i :: 0 <= i < |n.kids| ==> ShapedNode(n.kids[i], !group)
  {
  }

  /** What a tag names in a well-formed block can be copied: the copies are well-formed nodes. */
  lemma {:induction false} NamedShaped(block: seq<Node>, tag: nat)
    requires Shaped(block, false) && First(block, HasTag(tag)) < |block|
    ensures Paired(block) && Shaped(Named(block, tag), false)
  {
    hide ShapedNode, First, HasTag;
    var k := First(block, HasTag(tag));
    var ij := Whole(block, k);
    WholeNotSplit(block, k);
    PairsSplit(block, ij.1);
    assert block[..ij.1][ij.0..] == block[ij.0..ij.1];
    assert NotSplit(block[..ij.1], ij.0);
    PairsSplit(block[..ij.1], ij.0);
  }
}
