/**
 * Pruning is not seen on the wire (message/edit.rs:141-159, message/encode.rs:128-189): an instance is taken
 * out exactly when there is no field in it at any depth, and what the message writes stays the same.
 */
module PruneUnseen {
  import opened Tape
  import opened Document
  import opened Editing
  import opened Lookup
  import opened Messages
  import opened Groups
  import opened Shape
  import opened Pruning
  import opened Parsing
  import opened Encoding
  import opened InstanceEdits

  // ---------------------------------------------------------------------
  // What writes
  // ---------------------------------------------------------------------

  /** There is a field among these nodes or below them. */
  predicate FieldBelow(ns: seq<Node>)
    decreases ns, 1
  {
    exists i :: 0 <= i < |ns| && FieldIn(ns[i])
  }

  predicate FieldIn(n: Node)
    decreases n, 0
  {
    n.entry.IsField() || ((n.entry.kind.Group? || n.entry.kind.Instance?) && FieldBelow(n.kids))
  }

  lemma {:induction false} BelowFirst(ns: seq<Node>)
    requires ns != []
    ensures FieldBelow(ns) <==> FieldIn(ns[0]) || FieldBelow(ns[1..])
  {
    hide FieldIn;
    if FieldBelow(ns[1..]) {
      var i :| 0 <= i < |ns[1..]| && FieldIn(ns[1..][i]);
      assert FieldIn(ns[i + 1]);
    }
    if FieldBelow(ns) && !FieldIn(ns[0]) {
      var i :| 0 <= i < |ns| && FieldIn(ns[i]);
      assert FieldIn(ns[1..][i - 1]);
    }
  }

  /** An instance writes something exactly when there is a field in it, however deep. */
  lemma {:induction false} WritesWhen(ns: seq<Node>)
    requires forall i :: 0 <= i < |ns| ==> ShapedNode(ns[i], false)
    ensures Writes(ns) <==> FieldBelow(ns)
    decreases ns, 1
  {
    if ns != [] {
      assert ShapedNode(ns[0], false);
      ChildWritesWhen(ns[0]);
      hide ChildWrites, FieldIn, ShapedNode;
      BelowFirst(ns);
      WritesWhen(ns[1..]);
    }
  }

  lemma {:induction false} ChildWritesWhen(n: Node)
    requires ShapedNode(n, false)
    ensures ChildWrites(n) <==> FieldIn(n)
    decreases n, 0
  {
    if n.entry.kind.Group? {
      LiveWhen(n.kids);
    }
  }

  lemma {:induction false} LiveWhen(ns: seq<Node>)
    requires Shaped(ns, true)
    ensures Live(ns) > 0 <==> FieldBelow(ns)
    decreases ns, 1
  {
    if ns != [] {
      ShapedAt(ns, true, 0);
      WritesWhen(ns[0].kids);
      BelowFirst(ns);
      hide Writes;
      LiveWhen(ns[1..]);
    }
  }

  // ---------------------------------------------------------------------
  // Blocks that write the same
  // ---------------------------------------------------------------------

  /** Nobody who reads what is written can tell one block from the other. */
  predicate Alike(a: seq<Node>, b: seq<Node>, depth: nat) {
    Emit(a, depth) == Emit(b, depth) && Writes(a) == Writes(b) && Live(a) == Live(b)
  }

  lemma {:induction false} BothWrite(a: seq<Node>, b: seq<Node>, depth: nat)
    ensures Emit(a + b, depth) == Emit(a, depth) + Emit(b, depth)
    ensures Writes(a + b) <==> Writes(a) || Writes(b)
    ensures Live(a + b) == Live(a) + Live(b)
    decreases |a|
  {
    if a == [] {
      assert a + b == b;
    } else {
      hide EmitNode, ChildWrites;
      assert (a + b)[1..] == a[1..] + b;
      BothWrite(a[1..], b, depth);
      assert EmitNode(a[0], depth) + Emit(a[1..], depth) + Emit(b, depth) == EmitNode(a[0], depth) + (Emit(a[1..], depth) + Emit(b, depth));
    }
  }

  lemma {:induction false} OneWrites(n: Node, depth: nat)
    ensures Emit([n], depth) == EmitNode(n, depth) && Writes([n]) == ChildWrites(n)
    ensures Live([n]) == if Writes(n.kids) then 1 else 0
  {
    assert [n][1..] == [];
    assert EmitNode(n, depth) + [] == EmitNode(n, depth);
  }

  /** A group or an instance with other contents that write the same. */
  lemma {:induction false} NodeAlike(n: Node, kids: seq<Node>, depth: nat)
    requires n.entry.kind.Group? || n.entry.kind.Instance?
    requires Alike(kids, n.kids, KidDepth(n, depth))
    ensures var n' := n.(kids := kids);
            EmitNode(n', depth) == EmitNode(n, depth) && ChildWrites(n') == ChildWrites(n) && Writes(n'.kids) == Writes(n.kids)
  {
  }

  /** One node of a block for another that writes the same. */
  lemma {:induction false} OneAlike(ns: seq<Node>, i: nat, n: Node, depth: nat)
    requires i < |ns|
    requires EmitNode(n, depth) == EmitNode(ns[i], depth) && ChildWrites(n) == ChildWrites(ns[i]) && Writes(n.kids) == Writes(ns[i].kids)
    ensures Alike(ns[i := n], ns, depth)
  {
    hide EmitNode, ChildWrites, Emit, Writes, Live;
    assert ns == ns[..i] + [ns[i]] + ns[i + 1..];
    assert ns[i := n] == ns[..i] + [n] + ns[i + 1..];
    BothWrite(ns[..i] + [ns[i]], ns[i + 1..], depth);
    BothWrite(ns[..i] + [n], ns[i + 1..], depth);
    BothWrite(ns[..i], [ns[i]], depth);
    BothWrite(ns[..i], [n], depth);
    OneWrites(n, depth);
    OneWrites(ns[i], depth);
  }

  /** A block anywhere, exchanged for one that writes the same. */
  lemma {:induction false} BlockAlike(ns: seq<Node>, p: Path, cs: seq<Node>, depth: nat)
    requires ValidPath(ns, p) && Spanned(ns, p) && Alike(cs, Block(ns, p), BlockDepth(ns, p, depth))
    ensures Alike(SetBlock(ns, p, cs), ns, depth)
    decreases p
  {
    hide EmitNode, ChildWrites, Emit, Writes, Live;
    if p != [] {
      var n := ns[p[0]];
      BlockAlike(n.kids, p[1..], cs, KidDepth(n, depth));
      NodeAlike(n, SetBlock(n.kids, p[1..], cs), depth);
      OneAlike(ns, p[0], n.(kids := SetBlock(n.kids, p[1..], cs)), depth);
    }
  }

  // ---------------------------------------------------------------------
  // Pruning
  // ---------------------------------------------------------------------

  /** Below a group, what writes nothing emits nothing. */
  lemma {:induction false} SilentEmits(ns: seq<Node>, depth: nat)
    requires !Writes(ns) && depth > 0 && forall i :: 0 <= i < |ns| ==> ShapedNode(ns[i], false)
    ensures Emit(ns, depth) == []
    decreases |ns|
  {
    if ns != [] {
      assert ShapedNode(ns[0], false);
      SilentEmits(ns[1..], depth);
    }
  }

  /** Nodes that write nothing, taken out. */
  lemma {:induction false} SilentGone(ns: seq<Node>, i: nat, depth: nat)
    requires i < |ns| && EmitNode(ns[i], depth) == [] && !ChildWrites(ns[i]) && !Writes(ns[i].kids)
    ensures Alike(ns[..i] + ns[i + 1..], ns, depth)
  {
    hide EmitNode, ChildWrites, Emit, Writes, Live;
    assert ns == ns[..i] + [ns[i]] + ns[i + 1..];
    BothWrite(ns[..i] + [ns[i]], ns[i + 1..], depth);
    BothWrite(ns[..i], [ns[i]], depth);
    BothWrite(ns[..i], ns[i + 1..], depth);
    OneWrites(ns[i], depth);
    assert Emit(ns[..i], depth) + [] == Emit(ns[..i], depth);
  }

  /** A group in a block of a message, with an instance that writes nothing. */
  predicate HasSilent(doc: Doc, r: Region, p: Path, k: nat, n: nat) {
    && IsGroupAt(doc, r, p, k) && Shaped(Block(Part(doc, r), p)[k].kids, true)
    && n < |Block(Part(doc, r), p)[k].kids| && !Writes(Block(Part(doc, r), p)[k].kids[n].kids)
  }

  lemma {:induction false} InstanceSilent(doc: Doc, r: Region, p: Path, k: nat, n: nat, depth: nat)
    requires HasSilent(doc, r, p, k, n)
    ensures var kids := Block(Part(doc, r), p)[k].kids;
            EmitNode(kids[n], depth + 1) == [] && !ChildWrites(kids[n])
  {
    hide Emit;
    var kids := Block(Part(doc, r), p)[k].kids;
    ShapedAt(kids, true, n);
    SilentEmits(kids[n].kids, depth + 1);
  }

  lemma {:induction false} GroupAlike(doc: Doc, r: Region, p: Path, k: nat, n: nat)
    requires HasSilent(doc, r, p, k, n)
    ensures var block, depth := Block(Part(doc, r), p), Depth(doc, r, p);
            var kids := block[k].kids;
            if |kids| == 1 then Alike(block[..k] + block[k + 1..], block, depth)
            else Alike(block[k := block[k].(kids := kids[..n] + kids[n + 1..])], block, depth)
  {
    hide Emit, Depth, Part, Block;
    var block, depth := Block(Part(doc, r), p), Depth(doc, r, p);
    var kids := block[k].kids;
    InstanceSilent(doc, r, p, k, n, depth);
    hide Writes, EmitNode;
    SilentGone(kids, n, depth + 1);
    if |kids| == 1 {
      OneSilent(block[k], depth);
      NoneBesides(kids);
      SilentGone(block, k, depth);
    } else {
      NodeAlike(block[k], kids[..n] + kids[n + 1..], depth);
      OneAlike(block, k, block[k].(kids := kids[..n] + kids[n + 1..]), depth);
    }
  }

  lemma {:induction false} OneSilent(n: Node, depth: nat)
    requires n.entry.kind.Group? && |n.kids| == 1 && !Writes(n.kids[0].kids)
    ensures EmitNode(n, depth) == [] && !ChildWrites(n)
  {
    assert n.kids[1..] == [] && Live(n.kids[1..]) == 0;
  }

  /** Instances are no children of a block. */
  lemma {:induction false} NoneBesides(kids: seq<Node>)
    requires Shaped(kids, true) && |kids| == 1
    ensures !Writes(kids)
  {
    ShapedAt(kids, true, 0);
    OneWrites(kids[0], 0);
    assert kids == [kids[0]];
  }

  lemma {:induction false} PrunedBlock(doc: Doc, r: Region, p: Path, k: nat, n: nat)
    requires HasSilent(doc, r, p, k, n)
    ensures var doc' := InstanceGone(doc, r, p, k, n);
            IsBlock(doc', r, p) && Alike(Block(Part(doc', r), p), Block(Part(doc, r), p), Depth(doc, r, p))
  {
    hide Alike, Depth, Part, Block, Edited, InstanceGone;
    RemovedAsAsked(doc, r, p, k, n);
    GroupAlike(doc, r, p, k, n);
  }

  /** A removal anywhere is an exchange of the block it is in. */
  lemma {:induction false} GoneIsExchange(doc: Doc, r: Region, p: Path, k: nat, n: nat)
    requires IsGroupAt(doc, r, p, k) && n < |Block(Part(doc, r), p)[k].kids|
    ensures var doc' := InstanceGone(doc, r, p, k, n);
            IsBlock(doc', r, p) && doc' == WithPart(doc, r, SetBlock(Part(doc, r), p, Block(Part(doc', r), p)))
  {
    hide Around, At, Depth;
    var block := Block(Part(doc, r), p);
    var kids := block[k].kids;
    Further(doc, r, p, k);
    EditedStays(doc, r, p, k, k + 1, []);
    EditedFurther(doc, r, p, k, n, n + 1, []);
    EditedStays(doc, r, p, k, k + 1, [block[k].(kids := Exchanged(kids, n, n + 1, []))]);
  }

  /** The first MsgType there is, and the fields in front of it, stay in front. */
  lemma {:induction false} SameMsgType(doc: Doc, r: Region, p: Path, k: nat, n: nat)
    requires IsGroupAt(doc, r, p, k) && n < |Block(Part(doc, r), p)[k].kids| && MsgTypeIsField(doc.header)
    ensures MsgTypeToken(InstanceGone(doc, r, p, k, n).header) == MsgTypeToken(doc.header)
  {
    hide Around, At, Depth, First;
    RemovedAsAsked(doc, r, p, k, n);
    GoneIsExchange(doc, r, p, k, n);
    var h, h' := doc.header, InstanceGone(doc, r, p, k, n).header;
    hide InstanceGone;
    if r == Header {
      if p != [] {
        assert |h'| == |h| && forall i :: 0 <= i < |h| ==> h'[i].entry == h[i].entry;
        SameFirst(h, h');
      } else if |h[k].kids| == 1 {
        FirstWithout(h, k);
        assert h' == h[..k] + h[k + 1..];
      } else {
        SameFirst(h, h');
      }
    }
  }

  lemma {:induction false} SameFirst(h: seq<Node>, h': seq<Node>)
    requires |h'| == |h| && forall i :: 0 <= i < |h| ==> h'[i].entry == h[i].entry
    ensures MsgTypeToken(h') == MsgTypeToken(h)
  {
    hide First;
    var k, k' := First(h, HasTag(35)), First(h', HasTag(35));
    assert !(k < k') && !(k' < k);
  }

  lemma {:induction false} FirstWithout(h: seq<Node>, k: nat)
    requires k < |h| && h[k].entry.kind.Group? && MsgTypeIsField(h)
    ensures MsgTypeToken(h[..k] + h[k + 1..]) == MsgTypeToken(h)
  {
    hide First;
    var f, h' := First(h, HasTag(35)), h[..k] + h[k + 1..];
    var f' := First(h', HasTag(35));
    assert forall i :: 0 <= i < |h'| ==> h'[i] == h[if i < k then i else i + 1];
    assert f != k;
    var g := if f < k then f else f - 1;
    assert g < |h'| ==> h'[g] == h[f];
    assert forall i :: 0 <= i < g ==> !HasTag(35)(h'[i].entry.tag, h'[i].entry.kind);
    assert !(f' < g) && !(g < f');
  }

  /**
   * What a view that is let go leaves behind: the instance stays if there is a field in it, however deep, and
   * goes if there is none; either way the message writes what it wrote before.
   */
  lemma {:induction false} PrunedUnseen(doc: Doc, r: Region, p: Path, k: nat, n: nat)
    requires WellFormed(doc) && MsgTypeIsField(doc.header)
    requires IsGroupAt(doc, r, p, k) && n < |Block(Part(doc, r), p)[k].kids|
    ensures var kids, doc' := Block(Part(doc, r), p)[k].kids, Pruned(doc, r, p, k, n);
            && (if FieldBelow(kids[n].kids) then doc' == doc
                else if |kids| == 1 then Ungrouped(doc, doc', r, p, k)
                else Regrouped(doc, doc', r, p, k, kids[..n] + kids[n + 1..]))
            && Visited(doc') == Visited(doc)
  {
    hide Emit, Alike, Depth, Edited, InstanceGone, Writes, Visited, Regrouped, Ungrouped, Shaped, FieldBelow;
    var kids := Block(Part(doc, r), p)[k].kids;
    GroupShaped(doc, r, p, k);
    ShapedAt(kids, true, n);
    ShapedNodes(kids[n].kids);
    WritesWhen(kids[n].kids);
    if !Writes(kids[n].kids) {
      RemovedAsAsked(doc, r, p, k, n);
      GoneUnseen(doc, r, p, k, n);
    }
  }

  lemma {:induction false} ShapedNodes(ns: seq<Node>)
    requires Shaped(ns, false)
    ensures forall i :: 0 <= i < |ns| ==> ShapedNode(ns[i], false)
  {
  }

  lemma {:induction false} GroupShaped(doc: Doc, r: Region, p: Path, k: nat)
    requires WellFormed(doc) && IsGroupAt(doc, r, p, k)
    ensures Shaped(Block(Part(doc, r), p)[k].kids, true)
  {
    hide Around, At, Depth, Shaped;
    Further(doc, r, p, k);
    BlocksShaped(doc, r, p + [k], []);
    IntoGroupOwner(Part(doc, r), p + [k], false);
  }

  lemma {:induction false} GoneUnseen(doc: Doc, r: Region, p: Path, k: nat, n: nat)
    requires HasSilent(doc, r, p, k, n) && MsgTypeIsField(doc.header)
    ensures Visited(InstanceGone(doc, r, p, k, n)) == Visited(doc)
  {
    hide Emit, Edited, InstanceGone, Writes, Live, MsgTypeToken, Block, SetBlock, BlockDepth;
    PrunedBlock(doc, r, p, k, n);
    GoneIsExchange(doc, r, p, k, n);
    SameMsgType(doc, r, p, k, n);
    var doc' := InstanceGone(doc, r, p, k, n);
    BlockAlike(Part(doc, r), p, Block(Part(doc', r), p), 0);
    BothWrite(doc.header + doc.body, doc.trailer, 0);
    BothWrite(doc.header, doc.body, 0);
    BothWrite(doc'.header + doc'.body, doc'.trailer, 0);
    BothWrite(doc'.header, doc'.body, 0);
  }
}
