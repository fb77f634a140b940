/**
 * Where new entries go (message/edit.rs:367-387): in an instance, in the order the group's definition
 * lists its members; elsewhere last, and in the header in front of its gap.
 */
module MemberOrder {
  import opened Tape
  import opened Document
  import opened Editing
  import opened Lookup
  import opened Messages
  import opened Groups
  import opened Copying
  import opened Shape
  import opened Pruning
  import opened EditRuns

  // ---------------------------------------------------------------------
  // One block
  // ---------------------------------------------------------------------

  /** The definition lists it. */
  predicate Listed(m: Members, n: Node) {
    n.entry.IsTagged() && n.entry.tag in m
  }

  /** The members the definition lists come in its order. */
  predicate InOrder(m: Members, block: seq<Node>) {
    forall i, j :: 0 <= i < j < |block| && Listed(m, block[i]) && Listed(m, block[j]) ==>
      m[block[i].entry.tag] <= m[block[j].entry.tag]
  }

  /** What comes in front of a new entry's place is not later than it, and what comes behind is. */
  lemma {:induction false} PlaceParts(m: Members, block: seq<Node>, tag: nat)
    requires InOrder(m, block) && tag in m
    ensures var k := Position(block, false, Some(m), tag);
            && (forall i :: 0 <= i < k && Listed(m, block[i]) ==> m[block[i].entry.tag] <= m[tag])
            && (forall i :: k <= i < |block| && Listed(m, block[i]) ==> m[tag] < m[block[i].entry.tag])
  {
    hide First;
    var k := Position(block, false, Some(m), tag);
    forall i | k <= i < |block| && Listed(m, block[i])
      ensures m[tag] < m[block[i].entry.tag]
    {
      assert Listed(m, block[k]);
    }
  }

  /** One node, put where it belongs. */
  lemma {:induction false} OneInOrder(m: Members, block: seq<Node>, n: Node)
    requires InOrder(m, block) && n.entry.IsTagged()
    ensures var k := Position(block, false, Some(m), n.entry.tag);
            InOrder(m, Exchanged(block, k, k, [n]))
  {
    if n.entry.tag in m {
      PlaceParts(m, block, n.entry.tag);
    }
    hide Position;
    var k := Position(block, false, Some(m), n.entry.tag);
    InsertedParts(block, k, [n]);
  }

  lemma {:induction false} InsertedParts(block: seq<Node>, k: nat, cs: seq<Node>)
    requires k <= |block|
    ensures var all := Exchanged(block, k, k, cs);
            && |all| == |block| + |cs|
            && (forall i :: 0 <= i < k ==> all[i] == block[i])
            && (forall i :: 0 <= i < |cs| ==> all[k + i] == cs[i])
            && (forall i :: k + |cs| <= i < |all| ==> all[i] == block[i - |cs|])
  {
  }

  /** No member is listed between two others. */
  predicate NoneBetween(m: Members, block: seq<Node>, lo: nat, hi: nat) {
    forall i :: 0 <= i < |block| && Listed(m, block[i]) ==> !(lo < m[block[i].entry.tag] < hi)
  }

  /** The definition lists both of a pair, the first in front of the second, or neither. */
  predicate ListsBoth(m: Members, length: nat, data: nat) {
    (length in m <==> data in m) && (length in m ==> m[length] < m[data])
  }

  /** A Length and its data, put where the Length belongs: in order unless a member belongs between them. */
  lemma {:induction false} PairInOrder(m: Members, block: seq<Node>, a: Node, b: Node)
    requires InOrder(m, block) && a.entry.IsTagged() && b.entry.IsTagged() && ListsBoth(m, a.entry.tag, b.entry.tag)
    ensures var k := Position(block, false, Some(m), a.entry.tag);
            InOrder(m, Exchanged(block, k, k, [a, b]))
            <==> (a.entry.tag in m ==> NoneBetween(m, block, m[a.entry.tag], m[b.entry.tag]))
  {
    hide Position, Exchanged, InOrder, NoneBetween;
    var k := Position(block, false, Some(m), a.entry.tag);
    var all := Exchanged(block, k, k, [a, b]);
    InsertedParts(block, k, [a, b]);
    PairAt(all, k, a, b);
    if a.entry.tag in m {
      PlaceParts(m, block, a.entry.tag);
      if NoneBetween(m, block, m[a.entry.tag], m[b.entry.tag]) {
        PairPlaced(m, block, k, a, b, all);
      }
      if InOrder(m, all) {
        BetweenSeen(m, block, k, a, b, all);
      }
    } else {
      PairUnlisted(m, block, k, a, b, all);
    }
  }

  lemma {:induction false} PairAt(all: seq<Node>, k: nat, a: Node, b: Node)
    requires k + 2 <= |all| && forall i :: 0 <= i < |[a, b]| ==> all[k + i] == [a, b][i]
    ensures all[k] == a && all[k + 1] == b
  {
    assert all[k + 0] == [a, b][0] && all[k + 1] == [a, b][1];
  }

  lemma {:induction false} PairUnlisted(m: Members, block: seq<Node>, k: nat, a: Node, b: Node, all: seq<Node>)
    requires InOrder(m, block) && k <= |block| && |all| == |block| + 2 && !Listed(m, a) && !Listed(m, b)
    requires forall i :: 0 <= i < k ==> all[i] == block[i]
    requires all[k] == a && all[k + 1] == b
    requires forall i :: k + 2 <= i < |all| ==> all[i] == block[i - 2]
    ensures InOrder(m, all)
  {
  }

  lemma {:induction false} PairPlaced(m: Members, block: seq<Node>, k: nat, a: Node, b: Node, all: seq<Node>)
    requires InOrder(m, block) && k <= |block| && |all| == |block| + 2
    requires a.entry.tag in m && b.entry.tag in m && m[a.entry.tag] < m[b.entry.tag]
    requires NoneBetween(m, block, m[a.entry.tag], m[b.entry.tag])
    requires forall i :: 0 <= i < k && Listed(m, block[i]) ==> m[block[i].entry.tag] <= m[a.entry.tag]
    requires forall i :: k <= i < |block| && Listed(m, block[i]) ==> m[a.entry.tag] < m[block[i].entry.tag]
    requires forall i :: 0 <= i < k ==> all[i] == block[i]
    requires all[k] == a && all[k + 1] == b
    requires forall i :: k + 2 <= i < |all| ==> all[i] == block[i - 2]
    ensures InOrder(m, all)
  {
  }

  lemma {:induction false} BetweenSeen(m: Members, block: seq<Node>, k: nat, a: Node, b: Node, all: seq<Node>)
    requires k <= |block| && |all| == |block| + 2 && InOrder(m, all)
    requires a.entry.tag in m && Listed(m, b)
    requires forall i :: 0 <= i < k && Listed(m, block[i]) ==> m[block[i].entry.tag] <= m[a.entry.tag]
    requires all[k + 1] == b
    requires forall i :: k + 2 <= i < |all| ==> all[i] == block[i - 2]
    ensures NoneBetween(m, block, m[a.entry.tag], m[b.entry.tag])
  {
    forall i | 0 <= i < |block| && Listed(m, block[i])
      ensures !(m[a.entry.tag] < m[block[i].entry.tag] < m[b.entry.tag])
    {
      assert i >= k ==> all[i + 2] == block[i];
    }
  }

  /** Taking nodes out leaves the rest in order. */
  lemma {:induction false} FewerInOrder(m: Members, block: seq<Node>, i: nat, j: nat)
    requires InOrder(m, block) && i <= j <= |block|
    ensures InOrder(m, Exchanged(block, i, j, []))
  {
    var all := Exchanged(block, i, j, []);
    assert forall x :: 0 <= x < |all| ==> all[x] == block[if x < i then x else x + (j - i)];
  }

  /** Nodes exchanged one for one by others with the same tags. */
  lemma {:induction false} SameInOrder(m: Members, block: seq<Node>, block': seq<Node>)
    requires InOrder(m, block) && |block'| == |block|
    requires forall i :: 0 <= i < |block| ==>
               block'[i].entry.tag == block[i].entry.tag && block'[i].entry.IsTagged() == block[i].entry.IsTagged()
    ensures InOrder(m, block')
  {
  }

  /** If the first member the definition lists is there, no other listed member comes before it. */
  lemma {:induction false} DelimiterFirst(m: Members, block: seq<Node>, delimiter: nat, i: nat, j: nat)
    requires InOrder(m, block) && delimiter in m
    requires forall t :: t in m && t != delimiter ==> m[delimiter] < m[t]
    requires i < j < |block| && block[j].entry.IsTagged() && block[j].entry.tag == delimiter && Listed(m, block[i])
    ensures block[i].entry.tag == delimiter
  {
  }

  // ---------------------------------------------------------------------
  // An instance, edited
  // ---------------------------------------------------------------------

  /** A data field that is there already has the Length it is written with. */
  predicate SameLength(block: seq<Node>, entries: seq<Entry>)
    requires FieldOrPair(entries)
  {
    var k := First(block, HasTag(entries[|entries| - 1].tag));
    |entries| == 2 && 0 < k < |block| ==> block[k - 1].entry.tag == entries[0].tag
  }

  /** A new pair goes in between nothing that belongs inside it. */
  predicate Together(m: Members, block: seq<Node>, entries: seq<Entry>)
    requires FieldOrPair(entries)
  {
    |entries| == 2 && First(block, HasTag(entries[1].tag)) == |block| && entries[0].tag in m && entries[1].tag in m ==>
      NoneBetween(m, block, m[entries[0].tag], m[entries[1].tag])
  }

  /**
   * Setting a field of an instance keeps its listed members in the order of the definition. For data, which
   * comes with a Length, that is so if and only if the data is there already or no member is there that the
   * definition lists between the two.
   */
  lemma {:induction false} PutKeepsOrder(doc: Doc, r: Region, p: Path, m: Members, entries: seq<Entry>)
    requires HoldsFields(doc, r, p) && p != [] && FieldOrPair(entries) && KindsAgree(Block(Part(doc, r), p), entries)
    requires InOrder(m, Block(Part(doc, r), p)) && SameLength(Block(Part(doc, r), p), entries)
    requires |entries| == 2 ==> ListsBoth(m, entries[0].tag, entries[1].tag)
    ensures var doc' := Put(doc, r, p, Some(m), entries);
            && IsBlock(doc', r, p)
            && (InOrder(m, Block(Part(doc', r), p)) <==> Together(m, Block(Part(doc, r), p), entries))
  {
    hide Position, Edited, Part, Block, NoneBetween;
    var block := Block(Part(doc, r), p);
    var k := First(block, HasTag(entries[|entries| - 1].tag));
    if k < |block| {
      EditedStays(doc, r, p, k + 1 - |entries|, k + 1, Leaves(entries));
      OverwriteInOrder(m, block, entries, k);
    } else {
      var at := Position(block, false, Some(m), entries[0].tag);
      EditedStays(doc, r, p, at, at, Leaves(entries));
      LeavesInOrder(m, block, entries);
    }
  }

  /** One field in the instance of the one group of a message. */
  function OneInstance(e: Entry): Doc {
    Doc([], [Node(GroupEntry(100), [Node(INSTANCE, [Node(e, [])])])], [])
  }

  function PlainField(tag: nat, kind: Kind): Entry {
    Entry(tag, kind, 0, Arena, 0, 0, 0)
  }

  /**
   * The condition is needed: a definition that lists 1, a Length, then 3, then 2, its data. An instance has
   * 3, and 1 and 2 are set: they go in front of it, and 2 is out of order.
   */
  lemma {:induction false} PairSplitsOrder()
    ensures var m, doc := map[1 := 0, 3 := 1, 2 := 2], OneInstance(PlainField(3, Field));
            var entries := [PlainField(1, DataLen), PlainField(2, Data)];
            && HoldsFields(doc, Body, [0, 0]) && InOrder(m, Block(Part(doc, Body), [0, 0]))
            && KindsAgree(Block(Part(doc, Body), [0, 0]), entries)
            && IsBlock(Put(doc, Body, [0, 0], Some(m), entries), Body, [0, 0])
            && !InOrder(m, Block(Part(Put(doc, Body, [0, 0], Some(m), entries), Body), [0, 0]))
  {
    var m, doc := map[1 := 0, 3 := 1, 2 := 2], OneInstance(PlainField(3, Field));
    var entries := [PlainField(1, DataLen), PlainField(2, Data)];
    var block := [Node(PlainField(3, Field), [])];
    OneInstanceHolds(PlainField(3, Field));
    assert First(block, HasTag(2)) == 1 by {
      assert block[1..] == [];
    }
    hide First, Put, Block, Part;
    PutKeepsOrder(doc, Body, [0, 0], m, entries);
    assert Listed(m, block[0]);
  }

  lemma {:induction false} OneInstanceHolds(e: Entry)
    ensures HoldsFields(OneInstance(e), Body, [0, 0])
    ensures Block(Part(OneInstance(e), Body), [0, 0]) == [Node(e, [])]
  {
    assert [0, 0][1..] == [0] && [0][1..] == [];
  }

  lemma {:induction false} OverwriteInOrder(m: Members, block: seq<Node>, entries: seq<Entry>, k: nat)
    requires FieldOrPair(entries) && InOrder(m, block) && KindsAgree(block, entries) && SameLength(block, entries)
    requires k == First(block, HasTag(entries[|entries| - 1].tag)) < |block|
    ensures InOrder(m, Exchanged(block, k + 1 - |entries|, k + 1, Leaves(entries)))
  {
    hide First, InOrder;
    var block' := Exchanged(block, k + 1 - |entries|, k + 1, Leaves(entries));
    assert |block'| == |block|;
    assert forall i :: 0 <= i < |block| && !(k + 1 - |entries| <= i <= k) ==> block'[i] == block[i];
    assert block'[k].entry == entries[|entries| - 1];
    assert |entries| == 2 ==> block'[k - 1].entry == entries[0];
    SameInOrder(m, block, block');
  }

  lemma {:induction false} LeavesInOrder(m: Members, block: seq<Node>, entries: seq<Entry>)
    requires FieldOrPair(entries) && InOrder(m, block)
    requires |entries| == 2 ==> ListsBoth(m, entries[0].tag, entries[1].tag)
    ensures var k := Position(block, false, Some(m), entries[0].tag);
            InOrder(m, Exchanged(block, k, k, Leaves(entries)))
            <==> (|entries| == 2 && entries[0].tag in m ==> NoneBetween(m, block, m[entries[0].tag], m[entries[1].tag]))
  {
    hide Position, InOrder, NoneBetween, Exchanged;
    if |entries| == 1 {
      OneInOrder(m, block, Node(entries[0], []));
      assert Leaves(entries) == [Node(entries[0], [])];
    } else {
      PairInOrder(m, block, Node(entries[0], []), Node(entries[1], []));
      assert Leaves(entries) == [Node(entries[0], []), Node(entries[1], [])];
    }
  }

  /** Removing what a tag names keeps the rest of an instance in order. */
  lemma {:induction false} WithoutKeepsOrder(doc: Doc, r: Region, p: Path, m: Members, tag: nat)
    requires HoldsFields(doc, r, p) && Paired(Block(Part(doc, r), p)) && InOrder(m, Block(Part(doc, r), p))
    ensures var doc' := Without(doc, r, p, tag);
            IsBlock(doc', r, p) && InOrder(m, Block(Part(doc', r), p))
  {
    hide InOrder, Edited, Part, Block, First;
    var block := Block(Part(doc, r), p);
    var k := First(block, HasTag(tag));
    if k < |block| {
      var ij := Whole(block, k);
      EditedStays(doc, r, p, ij.0, ij.1, []);
      FewerInOrder(m, block, ij.0, ij.1);
    }
  }

  /** A new group of an instance goes where the definition lists it. */
  lemma {:induction false} GroupKeepsOrder(doc: Doc, r: Region, p: Path, m: Members, tag: nat)
    requires HoldsFields(doc, r, p) && p != [] && InOrder(m, Block(Part(doc, r), p))
    ensures var k := Position(Block(Part(doc, r), p), false, Some(m), tag);
            var doc' := InsertedNodes(doc, r, p, k, [Node(GroupEntry(tag), [])]);
            IsBlock(doc', r, p) && InOrder(m, Block(Part(doc', r), p))
  {
    hide InOrder, Edited, Part, Block, Position, Exchanged;
    var block := Block(Part(doc, r), p);
    var k := Position(block, false, Some(m), tag);
    EditedStays(doc, r, p, k, k, [Node(GroupEntry(tag), [])]);
    OneInOrder(m, block, Node(GroupEntry(tag), []));
  }

  /** What a tag can name: a single node, or a Length and its data. */
  predicate OnePiece(nodes: seq<Node>) {
    && (|nodes| == 1 || |nodes| == 2)
    && forall i :: 0 <= i < |nodes| ==> nodes[i].entry.IsTagged()
  }

  predicate PieceListed(m: Members, nodes: seq<Node>)
    requires OnePiece(nodes)
  {
    |nodes| == 2 ==> ListsBoth(m, nodes[0].entry.tag, nodes[1].entry.tag)
  }

  predicate PieceTogether(m: Members, block: seq<Node>, nodes: seq<Node>)
    requires OnePiece(nodes)
  {
    |nodes| == 2 && nodes[0].entry.tag in m && nodes[1].entry.tag in m ==>
      NoneBetween(m, block, m[nodes[0].entry.tag], m[nodes[1].entry.tag])
  }

  lemma {:induction false} PieceInOrder(m: Members, block: seq<Node>, nodes: seq<Node>)
    requires OnePiece(nodes) && PieceListed(m, nodes) && InOrder(m, block)
    ensures var k := Position(block, false, Some(m), nodes[0].entry.tag);
            InOrder(m, Exchanged(block, k, k, nodes)) <==> PieceTogether(m, block, nodes)
  {
    hide Position, InOrder, NoneBetween, Exchanged;
    if |nodes| == 1 {
      OneInOrder(m, block, nodes[0]);
      assert nodes == [nodes[0]];
    } else {
      PairInOrder(m, block, nodes[0], nodes[1]);
      assert nodes == [nodes[0], nodes[1]];
    }
  }

  /** Copying into an instance keeps its listed members in order, under the same condition for a pair. */
  lemma {:induction false} CopyKeepsOrder(doc: Doc, r: Region, p: Path, m: Members, tag: nat, nodes: seq<Node>)
    requires HoldsFields(doc, r, p) && p != [] && Paired(Block(Part(doc, r), p)) && InOrder(m, Block(Part(doc, r), p))
    requires OnePiece(nodes) && PieceListed(m, nodes)
    ensures IsBlock(Without(doc, r, p, tag), r, p)
    ensures var doc', left := Replaced(doc, r, p, Some(m), tag, nodes), Block(Part(Without(doc, r, p, tag), r), p);
            && IsBlock(doc', r, p)
            && (InOrder(m, Block(Part(doc', r), p)) <==> PieceTogether(m, left, nodes))
  {
    hide InOrder, Edited, Part, Block, Position, Exchanged, Without, NoneBetween;
    WithoutKeepsOrder(doc, r, p, m, tag);
    WithoutHolds(doc, r, p, tag);
    WithoutStays(doc, r, p, tag);
    var doc1 := Without(doc, r, p, tag);
    var left := Block(Part(doc1, r), p);
    var k := Position(left, false, Some(m), nodes[0].entry.tag);
    EditedStays(doc1, r, p, k, k, nodes);
    PieceInOrder(m, left, nodes);
  }

  // ---------------------------------------------------------------------
  // Outside the order
  // ---------------------------------------------------------------------

  /** A tag the definition does not list goes last in an instance, and so does any in the body or the trailer. */
  lemma {:induction false} OthersGoLast(doc: Doc, r: Region, p: Path, members: Option<Members>, entries: seq<Entry>)
    requires HoldsFields(doc, r, p) && FieldOrPair(entries)
    requires First(Block(Part(doc, r), p), HasTag(entries[|entries| - 1].tag)) == |Block(Part(doc, r), p)|
    requires if members.Some? then entries[0].tag !in members.value else !(r == Header && p == [])
    ensures var doc' := Put(doc, r, p, members, entries);
            IsBlock(doc', r, p) && Block(Part(doc', r), p) == Block(Part(doc, r), p) + Leaves(entries)
  {
    hide Edited, Part, Block, First, Exchanged, Size, NodeSize;
    var block := Block(Part(doc, r), p);
    HeaderBlock(doc);
    assert Put(doc, r, p, members, entries) == Edited(doc, r, p, |block|, |block|, Leaves(entries));
    EditedStays(doc, r, p, |block|, |block|, Leaves(entries));
    LastIs(block, Leaves(entries));
  }

  lemma {:induction false} LastIs(block: seq<Node>, cs: seq<Node>)
    ensures Exchanged(block, |block|, |block|, cs) == block + cs
  {
  }

  lemma {:induction false} HeaderBlock(doc: Doc)
    ensures Block(Part(doc, Header), []) == doc.header
  {
  }

  /** A new header field goes behind the others, and only the gap is behind it. */
  lemma {:induction false} HeaderGoesBeforeGap(doc: Doc, entries: seq<Entry>)
    requires FieldOrPair(entries) && First(doc.header, HasTag(entries[|entries| - 1].tag)) == |doc.header|
    requires IsBlock(doc, Header, []) && KindsAgree(Block(Part(doc, Header), []), entries)
    ensures var header := Put(doc, Header, [], None, entries).header;
            && Fields(doc.header) + Leaves(entries) <= header
            && forall i :: |Fields(doc.header)| + |entries| <= i < |header| ==> header[i].entry.kind.Gap?
  {
    hide Size, NodeSize, First, InsertedNodes, Part, Block;
    HeaderBlock(doc);
    var k := |Fields(doc.header)|;
    assert Put(doc, Header, [], None, entries) == InsertedNodes(doc, Header, [], k, Leaves(entries));
    HeaderInserted(doc, Leaves(entries));
  }

  /** Nodes put in front of the header's gap, or last if it has none. */
  lemma {:induction false} HeaderInserted(doc: Doc, cs: seq<Node>)
    requires IsBlock(doc, Header, []) && |Fields(doc.header)| <= |Block(Part(doc, Header), [])|
    ensures var header := InsertedNodes(doc, Header, [], |Fields(doc.header)|, cs).header;
            && Fields(doc.header) + cs <= header
            && forall i :: |Fields(doc.header)| + |cs| <= i < |header| ==> header[i].entry.kind.Gap?
  {
    hide Size, NodeSize;
    var h, f := doc.header, Fields(doc.header);
    var k := |f|;
    assert f == h[..k];
    var header := InsertedNodes(doc, Header, [], k, cs).header;
    if FitsGap(doc, Header, [], k, cs) {
      assert header == f + (cs + Remaining(NodeSize(h[k]), Size(cs))) + h[k + 1..];
      assert header[..k + |cs|] == f + cs;
    } else {
      assert header == f + cs + h[k..];
      assert header[..k + |cs|] == f + cs;
    }
  }
}
