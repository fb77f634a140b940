/**
 * Whole runs of edits keep every instance of a message in the order of its group's definition
 * (message/edit.rs:367-387, 546-646, 757-896).
 */
module OrderedRuns {
  import opened Tape
  import opened Document
  import opened Editing
  import opened Lookup
  import opened Numerals
  import opened Storage
  import opened Messages
  import opened Groups
  import opened Copying
  import opened Shape
  import opened Pruning
  import opened EditRuns
  import opened MemberOrder

  /** The definition of a group, by the tags of the groups it is in and its own. */
  type Tables = seq<nat> -> Option<Members>

  /** Instances below these nodes are in order; `tags` are the groups around them. */
  predicate Ordered(t: Tables, tags: seq<nat>, ns: seq<Node>)
    decreases ns, 1
  {
    forall i :: 0 <= i < |ns| ==> OrderedNode(t, tags, ns[i])
  }

  predicate OrderedNode(t: Tables, tags: seq<nat>, n: Node)
    decreases n, 0
  {
    match n.entry.kind
    case Group => Ordered(t, tags + [n.entry.tag], n.kids)
    case Instance => Contents(t, tags, true, n.kids)
    case _ => true
  }

  /** What is in an instance, or in anything else, is in order, and so are the instances below. */
  predicate Contents(t: Tables, tags: seq<nat>, instance: bool, ns: seq<Node>)
    decreases ns, 2
  {
    && (instance && t(tags).Some? ==> InOrder(t(tags).value, ns))
    && Ordered(t, tags, ns)
  }

  /** The groups around the block a path leads to. */
  function TagsAt(ns: seq<Node>, p: Path, tags: seq<nat>): seq<nat>
    requires ValidPath(ns, p)
    decreases p
  {
    if p == [] then tags
    else
      var n := ns[p[0]];
      TagsAt(n.kids, p[1..], if n.entry.kind.Group? then tags + [n.entry.tag] else tags)
  }

  /** Whether a path leads into an instance. */
  predicate IntoInstance(ns: seq<Node>, p: Path, instance: bool)
    requires ValidPath(ns, p)
    decreases p
  {
    if p == [] then instance else IntoInstance(ns[p[0]].kids, p[1..], ns[p[0]].entry.kind.Instance?)
  }

  lemma {:induction false} IntoInstanceOwner(ns: seq<Node>, p: Path, instance: bool)
    requires ValidPath(ns, p)
    ensures IntoInstance(ns, p, instance) == if p == [] then instance else Owner(ns, p).entry.kind.Instance?
    decreases p
  {
    if |p| > 1 {
      IntoInstanceOwner(ns[p[0]].kids, p[1..], ns[p[0]].entry.kind.Instance?);
    }
  }

  /** Every block is in order, and another that is in the place of one leaves the rest in order. */
  lemma {:induction false} OrderedWithin(t: Tables, tags: seq<nat>, instance: bool, ns: seq<Node>, p: Path, cs: seq<Node>)
    requires Contents(t, tags, instance, ns) && ValidPath(ns, p) && Spanned(ns, p)
    ensures Contents(t, TagsAt(ns, p, tags), IntoInstance(ns, p, instance), Block(ns, p))
    ensures Contents(t, TagsAt(ns, p, tags), IntoInstance(ns, p, instance), cs) ==> Contents(t, tags, instance, SetBlock(ns, p, cs))
    decreases p
  {
    if p != [] {
      var i, n := p[0], ns[p[0]];
      var tags' := if n.entry.kind.Group? then tags + [n.entry.tag] else tags;
      NodeContents(t, tags, n);
      assert OrderedNode(t, tags, ns[i]);
      hide Contents, InOrder;
      OrderedWithin(t, tags', n.entry.kind.Instance?, n.kids, p[1..], cs);
      if Contents(t, TagsAt(ns, p, tags), IntoInstance(ns, p, instance), cs) {
        var n' := n.(kids := SetBlock(n.kids, p[1..], cs));
        NodeContents(t, tags, n');
        OneNodeOrdered(t, tags, instance, ns, i, n');
      }
    }
  }

  /** A group or an instance is in order exactly when what is in it is. */
  lemma {:induction false} NodeContents(t: Tables, tags: seq<nat>, n: Node)
    requires n.entry.kind.Group? || n.entry.kind.Instance?
    ensures OrderedNode(t, tags, n)
            <==> Contents(t, if n.entry.kind.Group? then tags + [n.entry.tag] else tags, n.entry.kind.Instance?, n.kids)
  {
  }

  /** One node exchanged for another with the same entry. */
  lemma {:induction false} OneNodeOrdered(t: Tables, tags: seq<nat>, instance: bool, ns: seq<Node>, i: nat, n: Node)
    requires Contents(t, tags, instance, ns) && i < |ns| && n.entry == ns[i].entry && OrderedNode(t, tags, n)
    ensures Contents(t, tags, instance, ns[i := n])
  {
    hide OrderedNode;
    if instance && t(tags).Some? {
      SameInOrder(t(tags).value, ns, ns[i := n]);
    }
    hide InOrder;
  }

  // ---------------------------------------------------------------------
  // Messages
  // ---------------------------------------------------------------------

  /** Every instance of a message is in the order of its definition. */
  predicate InDefinedOrder(t: Region -> Tables, doc: Doc) {
    forall r: Region :: Ordered(t(r), [], Part(doc, r))
  }

  /** The groups around a block of a message. */
  function TagsOf(doc: Doc, r: Region, p: Path): seq<nat>
    requires IsBlock(doc, r, p)
  {
    TagsAt(Part(doc, r), p, [])
  }

  /** A block that may be in this place. */
  predicate BlockInOrder(t: Region -> Tables, doc: Doc, r: Region, p: Path, cs: seq<Node>)
    requires IsBlock(doc, r, p)
  {
    Contents(t(r), TagsOf(doc, r, p), p != [] && Owner(Part(doc, r), p).entry.kind.Instance?, cs)
  }

  lemma {:induction false} BlocksInOrder(t: Region -> Tables, doc: Doc, r: Region, p: Path, cs: seq<Node>)
    requires InDefinedOrder(t, doc) && IsBlock(doc, r, p)
    ensures BlockInOrder(t, doc, r, p, Block(Part(doc, r), p))
    ensures BlockInOrder(t, doc, r, p, cs) ==> InDefinedOrder(t, WithPart(doc, r, SetBlock(Part(doc, r), p, cs)))
  {
    hide Contents, Ordered, TagsAt, IntoInstance;
    assert Ordered(t(r), [], Part(doc, r));
    TopContents(t(r), Part(doc, r));
    OrderedWithin(t(r), [], false, Part(doc, r), p, cs);
    IntoInstanceOwner(Part(doc, r), p, false);
    if BlockInOrder(t, doc, r, p, cs) {
      var ns := SetBlock(Part(doc, r), p, cs);
      TopContents(t(r), ns);
      OthersStay(doc, r, ns);
    }
  }

  lemma {:induction false} TopContents(t: Tables, ns: seq<Node>)
    ensures Contents(t, [], false, ns) <==> Ordered(t, [], ns)
  {
  }

  lemma {:induction false} OthersStay(doc: Doc, r: Region, ns: seq<Node>)
    ensures forall q: Region :: Part(WithPart(doc, r, ns), q) == if q == r then ns else Part(doc, q)
  {
  }

  /** Nodes of a block exchanged: what comes in is in order below, and the block stays in order. */
  lemma {:induction false} EditInOrder(t: Region -> Tables, doc: Doc, r: Region, p: Path, i: nat, j: nat, cs: seq<Node>)
    requires InDefinedOrder(t, doc) && IsBlock(doc, r, p) && i <= j <= |Block(Part(doc, r), p)|
    requires Ordered(t(r), TagsOf(doc, r, p), cs)
    requires var m := t(r)(TagsOf(doc, r, p));
             p != [] && Owner(Part(doc, r), p).entry.kind.Instance? && m.Some? ==>
               InOrder(m.value, Exchanged(Block(Part(doc, r), p), i, j, cs))
    ensures InDefinedOrder(t, Edited(doc, r, p, i, j, cs))
  {
    hide InDefinedOrder, InOrder, TagsOf, Owner, Block, Part, SetBlock;
    var block := Block(Part(doc, r), p);
    var block' := Exchanged(block, i, j, cs);
    BlocksInOrder(t, doc, r, p, block');
    ExchangedOrdered(t(r), TagsOf(doc, r, p), block, i, j, cs);
  }

  lemma {:induction false} ExchangedOrdered(t: Tables, tags: seq<nat>, block: seq<Node>, i: nat, j: nat, cs: seq<Node>)
    requires i <= j <= |block| && Ordered(t, tags, block) && Ordered(t, tags, cs)
    ensures Ordered(t, tags, Exchanged(block, i, j, cs))
  {
    hide OrderedNode;
    var all := Exchanged(block, i, j, cs);
    assert forall x :: 0 <= x < |all| ==>
        all[x] == if x < i then block[x] else if x < i + |cs| then cs[x - i] else block[x - |cs| + (j - i)];
  }

  /** Taking nodes out of a block keeps the message in order. */
  lemma {:induction false} RemovalInOrder(t: Region -> Tables, doc: Doc, r: Region, p: Path, i: nat, j: nat)
    requires InDefinedOrder(t, doc) && IsBlock(doc, r, p) && i <= j <= |Block(Part(doc, r), p)|
    ensures InDefinedOrder(t, Edited(doc, r, p, i, j, []))
  {
    hide InDefinedOrder, InOrder, Edited, TagsOf, Owner, Block, Part;
    var block := Block(Part(doc, r), p);
    BlocksInOrder(t, doc, r, p, block);
    var m := t(r)(TagsOf(doc, r, p));
    if p != [] && Owner(Part(doc, r), p).entry.kind.Instance? && m.Some? {
      FewerInOrder(m.value, block, i, j);
    }
    EditInOrder(t, doc, r, p, i, j, []);
  }

  // ---------------------------------------------------------------------
  // Edits
  // ---------------------------------------------------------------------

  /** Fields and gaps hold no instances. */
  lemma {:induction false} FlatNodesOrdered(t: Tables, tags: seq<nat>, ns: seq<Node>)
    requires forall i :: 0 <= i < |ns| ==> !ns[i].entry.kind.Group? && !ns[i].entry.kind.Instance?
    ensures Ordered(t, tags, ns)
  {
  }

  lemma {:induction false} EmptyOrdered(t: Tables, tags: seq<nat>, tag: nat)
    ensures Ordered(t, tags, [EMPTY_INSTANCE]) && Ordered(t, tags, [Node(GroupEntry(tag), [])]) && Ordered(t, tags, [])
  {
    assert forall tags' :: Ordered(t, tags', []);
  }

  /** Nodes put where a new entry goes. */
  lemma {:induction false} InsertInOrder(t: Region -> Tables, doc: Doc, r: Region, p: Path, k: nat, cs: seq<Node>)
    requires InDefinedOrder(t, doc) && HoldsFields(doc, r, p) && k <= |Block(Part(doc, r), p)|
    requires Ordered(t(r), TagsOf(doc, r, p), cs)
    requires var m := t(r)(TagsOf(doc, r, p));
             p != [] && m.Some? ==> InOrder(m.value, Exchanged(Block(Part(doc, r), p), k, k, cs))
    ensures InDefinedOrder(t, InsertedNodes(doc, r, p, k, cs))
  {
    if FitsGap(doc, r, p, k, cs) {
      hide InDefinedOrder, Edited, NodeSize, Size;
      var left := Remaining(NodeSize(doc.header[k]), Size(cs));
      FlatNodesOrdered(t(Header), TagsOf(doc, Header, []), left);
      HeaderBlock(doc);
      ExchangedOrdered(t(Header), TagsOf(doc, Header, []), cs, |cs|, |cs|, left);
      assert Exchanged(cs, |cs|, |cs|, left) == cs + left;
      EditInOrder(t, doc, Header, [], k, k + 1, cs + left);
    } else {
      hide InDefinedOrder, Edited, NodeSize, Size, TagsOf, Block, Part, Owner;
      EditInOrder(t, doc, r, p, k, k, cs);
    }
  }

  /** The definition an edit goes by is the group's own, and lists a Length right in front of its data. */
  predicate Consults(t: Region -> Tables, doc: Doc, e: Edit)
    requires Allowed(doc, e)
  {
    match e
    case PutFields(r, p, members, entries) =>
      && (p != [] ==> members == t(r)(TagsOf(doc, r, p)))
      && (members.Some? ==> SameLength(Block(Part(doc, r), p), entries))
      && (members.Some? && |entries| == 2 ==> ListsPair(members.value, entries[0].tag, entries[1].tag))
    case AddGroup(r, p, members, _) => p != [] ==> members == t(r)(TagsOf(doc, r, p))
    case CopyNodesIn(r, p, members, _, nodes) =>
      && (p != [] ==> members == t(r)(TagsOf(doc, r, p)))
      && OnePiece(nodes) && Ordered(t(r), TagsOf(doc, r, p), nodes)
      && (members.Some? && |nodes| == 2 ==> ListsPair(members.value, nodes[0].entry.tag, nodes[1].entry.tag))
    case _ => true
  }

  lemma {:induction false} AdjacentNoneBetween(m: Members, block: seq<Node>, length: nat, data: nat)
    requires ListsPair(m, length, data)
    ensures ListsBoth(m, length, data) && (length in m ==> NoneBetween(m, block, m[length], m[data]))
  {
  }

  lemma {:induction false} PutInOrder(t: Region -> Tables, doc: Doc, e: Edit)
    requires InDefinedOrder(t, doc) && e.PutFields? && Allowed(doc, e) && Consults(t, doc, e)
    ensures InDefinedOrder(t, Applied(doc, e))
  {
    hide InDefinedOrder, InOrder, Ordered, Edited, Position, Block, Part, First, Owner, Lists, NoneBetween, TagsOf, Exchanged;
    var PutFields(r, p, members, entries) := e;
    var block := Block(Part(doc, r), p);
    var k := First(block, HasTag(entries[|entries| - 1].tag));
    FlatNodesOrdered(t(r), TagsOf(doc, r, p), Leaves(entries));
    BlocksInOrder(t, doc, r, p, block);
    if members.Some? && |entries| == 2 {
      AdjacentNoneBetween(members.value, block, entries[0].tag, entries[1].tag);
    }
    if k < |block| {
      if members.Some? {
        OverwriteInOrder(members.value, block, entries, k);
      }
      EditInOrder(t, doc, r, p, k + 1 - |entries|, k + 1, Leaves(entries));
    } else {
      if members.Some? {
        LeavesInOrder(members.value, block, entries);
      }
      InsertInOrder(t, doc, r, p, Position(block, r == Header && p == [], members, entries[0].tag), Leaves(entries));
    }
  }

  lemma {:induction false} AddGroupInOrder(t: Region -> Tables, doc: Doc, e: Edit)
    requires InDefinedOrder(t, doc) && e.AddGroup? && Allowed(doc, e) && Consults(t, doc, e)
    ensures InDefinedOrder(t, Applied(doc, e))
  {
    hide InDefinedOrder, InOrder, Ordered, Edited, Position, Block, Part, Owner, Lists, TagsOf, Exchanged;
    var AddGroup(r, p, members, tag) := e;
    var block, n := Block(Part(doc, r), p), Node(GroupEntry(tag), []);
    EmptyOrdered(t(r), TagsOf(doc, r, p), tag);
    BlocksInOrder(t, doc, r, p, block);
    if members.Some? {
      OneInOrder(members.value, block, n);
    }
    InsertInOrder(t, doc, r, p, Position(block, r == Header && p == [], members, tag), [n]);
  }

  lemma {:induction false} RemoveTagInOrder(t: Region -> Tables, doc: Doc, r: Region, p: Path, tag: nat)
    requires InDefinedOrder(t, doc) && HoldsFields(doc, r, p) && Paired(Block(Part(doc, r), p))
    ensures InDefinedOrder(t, Without(doc, r, p, tag))
  {
    hide InDefinedOrder, Edited, First;
    var block := Block(Part(doc, r), p);
    var k := First(block, HasTag(tag));
    if k < |block| {
      RemovalInOrder(t, doc, r, p, Whole(block, k).0, Whole(block, k).1);
    }
  }

  /** An edit of a block leaves the groups around it. */
  lemma {:induction false} TagsStay(ns: seq<Node>, p: Path, tags: seq<nat>, cs: seq<Node>)
    requires ValidPath(ns, p) && ValidPath(SetBlock(ns, p, cs), p)
    ensures TagsAt(SetBlock(ns, p, cs), p, tags) == TagsAt(ns, p, tags)
    decreases p
  {
    if p != [] {
      var n := ns[p[0]];
      TagsStay(n.kids, p[1..], if n.entry.kind.Group? then tags + [n.entry.tag] else tags, cs);
    }
  }

  lemma {:induction false} WithoutTags(doc: Doc, r: Region, p: Path, tag: nat)
    requires IsBlock(doc, r, p) && Paired(Block(Part(doc, r), p)) && IsBlock(Without(doc, r, p, tag), r, p)
    ensures TagsOf(Without(doc, r, p, tag), r, p) == TagsOf(doc, r, p)
  {
    hide First, TagsAt;
    var block := Block(Part(doc, r), p);
    var k := First(block, HasTag(tag));
    if k < |block| {
      var ij := Whole(block, k);
      TagsStay(Part(doc, r), p, [], Exchanged(block, ij.0, ij.1, []));
    }
  }

  lemma {:induction false} CopyInOrder(t: Region -> Tables, doc: Doc, e: Edit)
    requires InDefinedOrder(t, doc) && e.CopyNodesIn? && Allowed(doc, e) && Consults(t, doc, e)
    ensures InDefinedOrder(t, Applied(doc, e))
  {
    hide InDefinedOrder, InOrder, Ordered, Edited, Position, Block, Part, Owner, Lists, TagsOf, Exchanged, Without, NoneBetween, Shaped;
    var CopyNodesIn(r, p, members, tag, nodes) := e;
    WithoutStays(doc, r, p, tag);
    WithoutHolds(doc, r, p, tag);
    WithoutTags(doc, r, p, tag);
    RemoveTagInOrder(t, doc, r, p, tag);
    var doc1 := Without(doc, r, p, tag);
    var left := Block(Part(doc1, r), p);
    BlocksInOrder(t, doc1, r, p, left);
    if members.Some? && |nodes| == 2 {
      AdjacentNoneBetween(members.value, left, nodes[0].entry.tag, nodes[1].entry.tag);
    }
    if members.Some? {
      PieceInOrder(members.value, left, nodes);
    }
    InsertInOrder(t, doc1, r, p, Position(left, r == Header && p == [], members, nodes[0].entry.tag), nodes);
  }

  lemma {:induction false} GroupEditInOrder(t: Region -> Tables, doc: Doc, r: Region, p: Path, k: nat, i: nat, j: nat, cs: seq<Node>)
    requires InDefinedOrder(t, doc) && IsGroupAt(doc, r, p, k) && i <= j <= |Block(Part(doc, r), p)[k].kids|
    requires forall tags :: Ordered(t(r), tags, cs)
    ensures IsBlock(doc, r, p + [k]) && Block(Part(doc, r), p + [k]) == Block(Part(doc, r), p)[k].kids
    ensures InDefinedOrder(t, Edited(doc, r, p + [k], i, j, cs))
  {
    hide InDefinedOrder, InOrder, Ordered, Edited, Block, Part, Owner, TagsOf, Exchanged, At, Around, Depth;
    Further(doc, r, p, k);
    EditInOrder(t, doc, r, p + [k], i, j, cs);
  }

  lemma {:induction false} InstanceGoneInOrder(t: Region -> Tables, doc: Doc, r: Region, p: Path, k: nat, n: nat)
    requires InDefinedOrder(t, doc) && IsGroupAt(doc, r, p, k) && n < |Block(Part(doc, r), p)[k].kids|
    ensures InDefinedOrder(t, InstanceGone(doc, r, p, k, n))
  {
    hide InDefinedOrder, Edited, Ordered, At, Around, Depth;
    Further(doc, r, p, k);
    RemovalInOrder(t, doc, r, p, k, k + 1);
    RemovalInOrder(t, doc, r, p + [k], n, n + 1);
  }

  lemma {:induction false} KeptOrdered(t: Tables, tags: seq<nat>, ns: seq<Node>, keep: seq<bool>)
    requires |keep| == |ns| && Ordered(t, tags, ns)
    ensures Ordered(t, tags, Kept(ns, keep))
    decreases |ns|
  {
    hide OrderedNode;
    if ns != [] {
      var last := |ns| - 1;
      KeptOrdered(t, tags, ns[..last], keep[..last]);
    }
  }

  lemma {:induction false} RetainedInOrder(t: Region -> Tables, doc: Doc, r: Region, p: Path, k: nat, keep: seq<bool>)
    requires InDefinedOrder(t, doc) && IsGroupAt(doc, r, p, k) && |keep| == |Block(Part(doc, r), p)[k].kids|
    ensures InDefinedOrder(t, Retained(doc, r, p, k, keep))
  {
    hide InDefinedOrder, Edited, Ordered, At, Around, Depth, TagsOf, Block, Part, Kept, Owner, InOrder;
    Further(doc, r, p, k);
    var kids := Block(Part(doc, r), p)[k].kids;
    RemovalInOrder(t, doc, r, p, k, k + 1);
    BlocksInOrder(t, doc, r, p + [k], kids);
    KeptOrdered(t(r), TagsOf(doc, r, p + [k]), kids, keep);
    EditInOrder(t, doc, r, p + [k], 0, |kids|, Kept(kids, keep));
  }

  lemma {:induction false} AppliedInOrder(t: Region -> Tables, doc: Doc, e: Edit)
    requires InDefinedOrder(t, doc) && Allowed(doc, e) && Consults(t, doc, e)
    ensures InDefinedOrder(t, Applied(doc, e))
  {
    hide InDefinedOrder, HoldsFields, Lists, KindsAgree, Position, Block, Part, First, Edited, NodeGone, Put, Without,
         InstanceGone, Retained, Replaced, InsertedNodes, Shaped, Ordered, TagsOf;
    match e
    case PutFields(_, _, _, _) => PutInOrder(t, doc, e);
    case RemoveTag(r, p, tag) => RemoveTagInOrder(t, doc, r, p, tag);
    case AddGroup(_, _, _, _) => AddGroupInOrder(t, doc, e);
    case AddInstance(r, p, k, n) => AddInstanceInOrder(t, doc, r, p, k, n);
    case RemoveInstanceAt(r, p, k, n) => InstanceGoneInOrder(t, doc, r, p, k, n);
    case RetainInstances(r, p, k, keep) => RetainedInOrder(t, doc, r, p, k, keep);
    case ClearGroup(r, p, k) => ClearInOrder(t, doc, r, p, k);
    case CopyNodesIn(_, _, _, _, _) => CopyInOrder(t, doc, e);
    case PruneInstance(r, p, k, n) => InstanceGoneInOrder(t, doc, r, p, k, n);
  }

  lemma {:induction false} AddInstanceInOrder(t: Region -> Tables, doc: Doc, r: Region, p: Path, k: nat, n: nat)
    requires InDefinedOrder(t, doc) && IsGroupAt(doc, r, p, k) && n <= |Block(Part(doc, r), p)[k].kids|
    ensures InDefinedOrder(t, InstanceAdded(doc, r, p, k, n))
  {
    hide InDefinedOrder, Edited, Ordered, Block, Part;
    forall tags
      ensures Ordered(t(r), tags, [EMPTY_INSTANCE])
    {
      EmptyOrdered(t(r), tags, 0);
    }
    GroupEditInOrder(t, doc, r, p, k, n, n, [EMPTY_INSTANCE]);
  }

  lemma {:induction false} ClearInOrder(t: Region -> Tables, doc: Doc, r: Region, p: Path, k: nat)
    requires InDefinedOrder(t, doc) && IsGroupAt(doc, r, p, k)
    ensures InDefinedOrder(t, NodeGone(doc, r, p, k))
  {
    hide InDefinedOrder, Edited, Ordered;
    RemovalInOrder(t, doc, r, p, k, k + 1);
  }

  predicate AllConsult(t: Region -> Tables, doc: Doc, edits: seq<Edit>)
    requires AllAllowed(doc, edits)
    decreases |edits|
  {
    edits == [] || (Consults(t, doc, edits[0]) && AllConsult(t, Applied(doc, edits[0]), edits[1..]))
  }

  /** However a message is edited, its instances stay in the order of their definitions, at any depth. */
  lemma {:induction false} EditsKeepOrder(t: Region -> Tables, doc: Doc, edits: seq<Edit>)
    requires InDefinedOrder(t, doc) && AllAllowed(doc, edits) && AllConsult(t, doc, edits)
    ensures InDefinedOrder(t, AfterAll(doc, edits))
    decreases |edits|
  {
    hide InDefinedOrder, Applied, Allowed, Consults;
    if edits != [] {
      AppliedInOrder(t, doc, edits[0]);
      EditsKeepOrder(t, Applied(doc, edits[0]), edits[1..]);
    }
  }

  /**
   * So in a message built from nothing by any edits, every instance has the members its definition lists in
   * that order.
   */
  lemma {:induction false} BuiltInOrder(t: Region -> Tables, beginString: seq<Byte>, msgType: seq<Byte>, edits: seq<Edit>,
                                        r: Region, p: Path)
    requires var doc := Fresh(beginString, msgType);
             AllAllowed(doc, edits) && AllConsult(t, doc, edits) && p != [] && HoldsFields(AfterAll(doc, edits), r, p)
    ensures var doc := AfterAll(Fresh(beginString, msgType), edits);
            var m := t(r)(TagsOf(doc, r, p));
            m.Some? ==> InOrder(m.value, Block(Part(doc, r), p))
  {
    FreshInOrder(t, beginString, msgType);
    hide InDefinedOrder, Applied, Allowed, Consults, Fresh, TagsOf, Block, Part, Owner, AfterAll, InOrder;
    EditsKeepOrder(t, Fresh(beginString, msgType), edits);
    var doc := AfterAll(Fresh(beginString, msgType), edits);
    BlocksInOrder(t, doc, r, p, []);
  }

  lemma {:induction false} FreshInOrder(t: Region -> Tables, beginString: seq<Byte>, msgType: seq<Byte>)
    ensures InDefinedOrder(t, Fresh(beginString, msgType))
  {
    hide Ordered;
    var doc := Fresh(beginString, msgType);
    forall r: Region
      ensures Ordered(t(r), [], Part(doc, r))
    {
      FlatNodesOrdered(t(r), [], Part(doc, r));
    }
  }
}
