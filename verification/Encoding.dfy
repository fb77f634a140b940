/**
 * What is written between BodyLength and CheckSum (message/encode.rs): a walk over the flat tape
 * that leaves out gaps, framing fields and whatever writes nothing.
 */
module Encoding {
  import opened Tape
  import opened Document
  import opened Editing
  import opened Lookup
  import opened Messages
  import opened Groups
  import opened Shape
  import opened Pruning
  import opened Parsing
  import opened RoundTrip

  // ---------------------------------------------------------------------
  // On trees
  // ---------------------------------------------------------------------

  /** BeginString, BodyLength, CheckSum and MsgType, outside groups, are written separately. */
  predicate Framing(e: Entry, depth: nat) {
    depth == 0 && (8 <= e.tag <= 10 || e.tag == 35)
  }

  function FieldToken(e: Entry): Token {
    Token(e.(depth := 0), None)
  }

  /** What a node writes. */
  function EmitNode(n: Node, depth: nat): seq<Token> {
    match n.entry.kind
    case Gap => []
    case Instance => Emit(n.kids, depth)
    case Group => if Live(n.kids) == 0 then [] else [CountToken(n.entry.tag, Live(n.kids))] + Emit(n.kids, depth + 1)
    case _ => if Framing(n.entry, depth) then [] else [FieldToken(n.entry)]
  }

  function Emit(ns: seq<Node>, depth: nat): seq<Token> {
    if ns == [] then [] else EmitNode(ns[0], depth) + Emit(ns[1..], depth)
  }

  /** What is left to write from an entry on. */
  function EmitFrom(ns: seq<Node>, depth: nat, off: nat): seq<Token>
    decreases ns, 1
  {
    if ns == [] then []
    else if off >= NodeSize(ns[0]) then EmitFrom(ns[1..], depth, off - NodeSize(ns[0]))
    else EmitNodeFrom(ns[0], depth, off) + Emit(ns[1..], depth)
  }

  function EmitNodeFrom(n: Node, depth: nat, off: nat): seq<Token>
    decreases n, 0
  {
    if off == 0 then EmitNode(n, depth)
    else if n.entry.kind.Gap? then []
    else EmitFrom(n.kids, KidDepth(n, depth), off - 1)
  }

  lemma {:induction false} EmitFromStart(ns: seq<Node>, depth: nat)
    ensures EmitFrom(ns, depth, 0) == Emit(ns, depth)
  {
  }

  lemma {:induction false} EmitFromEnd(ns: seq<Node>, depth: nat)
    ensures EmitFrom(ns, depth, Size(ns)) == []
  {
    if ns != [] {
      EmitFromEnd(ns[1..], depth);
    }
  }

  // ---------------------------------------------------------------------
  // One step of the walk
  // ---------------------------------------------------------------------

  /** The node whose entry is at an offset, if it is not an unused slot. */
  predicate HeadAt(ns: seq<Node>, depth: nat, off: nat, n: Node, d: nat)
    decreases ns, 1
  {
    && ns != []
    && if off >= NodeSize(ns[0]) then HeadAt(ns[1..], depth, off - NodeSize(ns[0]), n, d)
       else HeadWithin(ns[0], depth, off, n, d)
  }

  predicate HeadWithin(m: Node, depth: nat, off: nat, n: Node, d: nat)
    decreases m, 0
  {
    if off == 0 then m == n && d == depth
    else !m.entry.kind.Gap? && HeadAt(m.kids, KidDepth(m, depth), off - 1, n, d)
  }

  /** The walk past an entry: into a group or an instance, or over the whole of a node. */
  lemma {:induction false} EmitStep(ns: seq<Node>, depth: nat, off: nat, n: Node, d: nat)
    requires HeadAt(ns, depth, off, n, d)
    ensures off + NodeSize(n) <= Size(ns)
    ensures EmitFrom(ns, depth, off) == EmitNode(n, d) + EmitFrom(ns, depth, off + NodeSize(n))
    ensures !n.entry.kind.Gap? ==>
              EmitFrom(ns, depth, off + 1) == Emit(n.kids, KidDepth(n, d)) + EmitFrom(ns, depth, off + NodeSize(n))
    decreases ns, off
  {
    hide EmitFrom, EmitNode, Emit, EmitNodeFrom;
    var size := NodeSize(ns[0]);
    if off >= size {
      EmitStep(ns[1..], depth, off - size, n, d);
      EmitBehind(ns, depth, off);
      EmitBehind(ns, depth, off + 1);
      EmitBehind(ns, depth, off + NodeSize(n));
    } else if off == 0 {
      EmitFirst(ns, depth);
      if !n.entry.kind.Gap? {
        EmitIntoNode(ns, depth);
      }
    } else {
      var kids, e, rest := ns[0].kids, KidDepth(ns[0], depth), Emit(ns[1..], depth);
      EmitStep(kids, e, off - 1, n, d);
      EmitWithin(ns, depth, off);
      EmitWithin(ns, depth, off + 1);
      EmitWithin(ns, depth, off + NodeSize(n));
      var x := EmitFrom(kids, e, off - 1 + NodeSize(n));
      assert EmitNode(n, d) + x + rest == EmitNode(n, d) + (x + rest);
      assert Emit(n.kids, KidDepth(n, d)) + x + rest == Emit(n.kids, KidDepth(n, d)) + (x + rest);
    }
  }

  lemma {:induction false} EmitBehind(ns: seq<Node>, depth: nat, off: nat)
    requires ns != [] && off >= NodeSize(ns[0])
    ensures EmitFrom(ns, depth, off) == EmitFrom(ns[1..], depth, off - NodeSize(ns[0]))
  {
  }

  lemma {:induction false} EmitFirst(ns: seq<Node>, depth: nat)
    requires ns != []
    ensures EmitFrom(ns, depth, 0) == EmitNode(ns[0], depth) + EmitFrom(ns, depth, NodeSize(ns[0]))
  {
    EmitFromStart(ns[1..], depth);
  }

  /** From an offset inside the first node, or just behind it. */
  lemma {:induction false} EmitWithin(ns: seq<Node>, depth: nat, off: nat)
    requires ns != [] && !ns[0].entry.kind.Gap? && 1 <= off <= NodeSize(ns[0])
    ensures EmitFrom(ns, depth, off)
            == EmitFrom(ns[0].kids, KidDepth(ns[0], depth), off - 1) + Emit(ns[1..], depth)
  {
    if off == NodeSize(ns[0]) {
      EmitFromStart(ns[1..], depth);
      EmitFromEnd(ns[0].kids, KidDepth(ns[0], depth));
      assert [] + Emit(ns[1..], depth) == Emit(ns[1..], depth);
    }
  }

  lemma {:induction false} EmitIntoNode(ns: seq<Node>, depth: nat)
    requires ns != [] && !ns[0].entry.kind.Gap?
    ensures EmitFrom(ns, depth, 1) == Emit(ns[0].kids, KidDepth(ns[0], depth)) + EmitFrom(ns, depth, NodeSize(ns[0]))
  {
    EmitFromStart(ns[1..], depth);
    EmitWithin(ns, depth, 1);
    EmitFromStart(ns[0].kids, KidDepth(ns[0], depth));
  }

  // ---------------------------------------------------------------------
  // Where the walk stops
  // ---------------------------------------------------------------------

  /** An offset a walk can be at: an entry that is not an unused slot, or the end. */
  predicate IsStop(ns: seq<Node>, off: nat)
    decreases ns, 1
  {
    if ns == [] then off == 0
    else if off >= NodeSize(ns[0]) then IsStop(ns[1..], off - NodeSize(ns[0]))
    else StopWithin(ns[0], off)
  }

  predicate StopWithin(n: Node, off: nat)
    decreases n, 0
  {
    off == 0 || (!n.entry.kind.Gap? && IsStop(n.kids, off - 1))
  }

  lemma {:induction false} HereIs(ns: seq<Node>, depth: nat, off: nat) returns (n: Node, d: nat)
    requires IsStop(ns, off) && off < Size(ns)
    ensures HeadAt(ns, depth, off, n, d)
    decreases ns
  {
    if off >= NodeSize(ns[0]) {
      n, d := HereIs(ns[1..], depth, off - NodeSize(ns[0]));
    } else if off == 0 {
      n, d := ns[0], depth;
    } else {
      n, d := HereIs(ns[0].kids, KidDepth(ns[0], depth), off - 1);
    }
  }

  lemma {:induction false} StopNext(ns: seq<Node>, depth: nat, off: nat, n: Node, d: nat)
    requires HeadAt(ns, depth, off, n, d)
    ensures off + NodeSize(n) <= Size(ns)
    ensures IsStop(ns, off + NodeSize(n))
    ensures !n.entry.kind.Gap? ==> IsStop(ns, off + 1)
    decreases ns
  {
    if off >= NodeSize(ns[0]) {
      StopNext(ns[1..], depth, off - NodeSize(ns[0]), n, d);
    } else if off == 0 {
      StopStart(ns[1..]);
      StopStart(n.kids);
    } else {
      StopNext(ns[0].kids, KidDepth(ns[0], depth), off - 1, n, d);
      StopStart(ns[1..]);
    }
  }

  lemma {:induction false} StopStart(ns: seq<Node>)
    ensures IsStop(ns, 0)
  {
  }

  /** A gap, or a node that is shaped. */
  predicate Walkable(ns: seq<Node>, group: bool) {
    forall i :: 0 <= i < |ns| ==> ns[i].entry.kind.Gap? || ShapedNode(ns[i], group)
  }

  /** The path to the node at an offset. */
  lemma {:induction false} HeadPath(ns: seq<Node>, group: bool, depth: nat, off: nat, n: Node, d: nat)
    returns (p: Path, k: nat)
    requires Walkable(ns, group) && HeadAt(ns, depth, off, n, d)
    ensures ValidPath(ns, p) && Spanned(ns, p) && k < |Block(ns, p)| && Block(ns, p)[k] == n
    ensures Offset(ns, p) + Size(Block(ns, p)[..k]) == off && BlockDepth(ns, p, depth) == d
    ensures n.entry.kind.Gap? || (n.entry.IsField() && n.kids == []) || n.entry.kind.Instance?
            || (n.entry.kind.Group? && Shaped(n.kids, true))
    decreases ns
  {
    if off >= NodeSize(ns[0]) {
      assert Walkable(ns[1..], group);
      var q, j := HeadPath(ns[1..], group, depth, off - NodeSize(ns[0]), n, d);
      if q == [] {
        p, k := [], j + 1;
        assert ns[..k] == [ns[0]] + ns[1..][..j];
      } else {
        p, k := [q[0] + 1] + q[1..], j;
        assert p[1..] == q[1..] && ns[..p[0]] == [ns[0]] + ns[1..][..q[0]];
      }
    } else if off == 0 {
      p, k := [], 0;
      assert n.entry.kind.Gap? || ShapedNode(ns[0], group);
    } else {
      assert ShapedNode(ns[0], group);
      ShapedWalkable(ns[0].kids, ns[0].entry.kind.Group?);
      var q, j := HeadPath(ns[0].kids, ns[0].entry.kind.Group?, KidDepth(ns[0], depth), off - 1, n, d);
      p, k := [0] + q, j;
      assert p[1..] == q && ns[..0] == [];
    }
  }

  lemma {:induction false} ShapedWalkable(ns: seq<Node>, group: bool)
    requires Shaped(ns, group)
    ensures Walkable(ns, group) && NoGap(ns)
  {
    forall i | 0 <= i < |ns| ensures !ns[i].entry.kind.Gap? {
      ShapedAt(ns, group, i);
    }
  }

  // ---------------------------------------------------------------------
  // The walk
  // ---------------------------------------------------------------------

  /** A message's three trees as one. */
  function Forest(doc: Doc): seq<Node> {
    doc.header + doc.body + doc.trailer
  }

  /** MsgType is written first, wherever in the header it is. */
  function MsgTypeToken(header: seq<Node>): seq<Token> {
    var k := First(header, HasTag(35));
    if k < |header| then [FieldToken(header[k].entry)] else []
  }

  /** What a message writes between BodyLength and CheckSum. */
  function Visited(doc: Doc): seq<Token> {
    MsgTypeToken(doc.header) + Emit(Forest(doc), 0)
  }

  lemma {:induction false} ForestFlat(doc: Doc)
    ensures Flat(Forest(doc), 0) == ImageOf(doc).tape == ImageOf(Doc(Forest(doc), [], [])).tape
  {
    FlatAppend(doc.header + doc.body, doc.trailer, 0);
    FlatAppend(doc.header, doc.body, 0);
    assert Flat(Forest(doc), 0) + [] + [] == Flat(Forest(doc), 0);
  }

  lemma {:induction false} ForestWalkable(doc: Doc)
    requires WellFormed(doc)
    ensures Walkable(Forest(doc), false)
  {
    hide ShapedNode, NodeSize;
    WellFormedTidy(doc);
    var ns, h := Forest(doc), Fields(doc.header);
    forall i | 0 <= i < |ns|
      ensures ns[i].entry.kind.Gap? || ShapedNode(ns[i], false)
    {
      if i < |doc.header| {
        assert ns[i] == doc.header[i];
        assert i < |h| ==> h[i] == doc.header[i];
      }
    }
  }

  /** The entry the walk is at, and the node it is of. */
  lemma {:induction false} Here(doc: Doc, i: nat) returns (n: Node, d: nat, p: Path, k: nat)
    requires WellFormed(doc) && IsStop(Forest(doc), i) && i < Size(Forest(doc))
    ensures var one := Doc(Forest(doc), [], []);
            && HeadAt(Forest(doc), 0, i, n, d)
            && IsBlock(one, Header, p) && k < |Block(Forest(doc), p)| && Block(Forest(doc), p)[k] == n
            && At(one, Header, p, k) == i < |ImageOf(doc).tape|
            && ImageOf(doc).tape[i] == Head(n, d)
    ensures n.entry.kind.Gap? || (n.entry.IsField() && n.kids == []) || n.entry.kind.Instance?
            || (n.entry.kind.Group? && Shaped(n.kids, true))
  {
    hide IsStop, HeadAt, Flat, Size, Head, NodeSize, Walkable, Shaped;
    ForestWalkable(doc);
    ForestFlat(doc);
    n, d := HereIs(Forest(doc), 0, i);
    p, k := HeadPath(Forest(doc), false, 0, i, n, d);
    EntryAt(Doc(Forest(doc), [], []), Header, p, k);
  }

  /** MsgType, if the message has one, is a field. */
  predicate MsgTypeIsField(header: seq<Node>) {
    var k := First(header, HasTag(35));
    k < |header| ==> header[k].entry.IsField()
  }

  /** The loop over the flat tape; it emits what `Visited` says of the trees. */
  method Visit(msg: Message) returns (out: seq<Token>)
    requires msg.Valid() && WellFormed(msg.doc) && MsgTypeIsField(msg.doc.header)
    ensures out == Visited(msg.doc)
  {
    hide IsStop, HeadAt, Flat, Size, Head, NodeSize, Shaped, EmitFrom, Emit, Forest, ImageOf, WellFormed, Tidy;
    ghost var doc, ns := msg.doc, Forest(msg.doc);
    ForestFlat(doc);
    out := MsgType(msg);
    var i := 0;
    StopStart(ns);
    EmitFromStart(ns, 0);
    while i < |msg.tape|
      invariant i <= |msg.tape| && IsStop(ns, i)
      invariant out + EmitFrom(ns, 0, i) == Visited(doc)
    {
      ghost var n, d, p, k := Here(doc, i);
      EmitStep(ns, 0, i, n, d);
      StopNext(ns, 0, i, n, d);
      var written, next := VisitOne(msg.tape, i, Doc(ns, [], []), p, k, n, d);
      VisitedOn(ns, i, next, n, d, written, out);
      out := out + written;
      i := next;
    }
    EmitFromEnd(ns, 0);
    assert out + [] == out;
  }

  lemma {:induction false} VisitedOn(ns: seq<Node>, i: nat, next: nat, n: Node, d: nat, written: seq<Token>,
                                     out: seq<Token>)
    requires EmitFrom(ns, 0, i) == EmitNode(n, d) + EmitFrom(ns, 0, i + NodeSize(n))
    requires !n.entry.kind.Gap? ==>
               EmitFrom(ns, 0, i + 1) == Emit(n.kids, KidDepth(n, d)) + EmitFrom(ns, 0, i + NodeSize(n))
    requires || (next == i + NodeSize(n) && written == EmitNode(n, d))
             || (next == i + 1 && !n.entry.kind.Gap? && written + Emit(n.kids, KidDepth(n, d)) == EmitNode(n, d))
    ensures out + written + EmitFrom(ns, 0, next) == out + EmitFrom(ns, 0, i)
  {
    hide EmitFrom, Emit, EmitNode;
    var x, y := Emit(n.kids, KidDepth(n, d)), EmitFrom(ns, 0, i + NodeSize(n));
    assert out + written + (x + y) == out + (written + x + y);
    assert out + written + y == out + (written + y);
  }

  /** What one entry writes, and where the walk goes on. */
  method VisitOne(tape: seq<Entry>, i: nat, ghost doc: Doc, ghost p: Path, ghost k: nat, ghost n: Node, ghost d: nat)
    returns (written: seq<Token>, next: nat)
    requires tape == ImageOf(doc).tape && IsBlock(doc, Header, p) && k < |Block(doc.header, p)| && Block(doc.header, p)[k] == n
    requires At(doc, Header, p, k) == i < |tape| && tape[i] == Head(n, d)
    requires n.entry.kind.Gap? || (n.entry.IsField() && n.kids == []) || n.entry.kind.Instance?
             || (n.entry.kind.Group? && Shaped(n.kids, true))
    ensures || (next == i + NodeSize(n) && written == EmitNode(n, d))
            || (next == i + 1 && !n.entry.kind.Gap? && written + Emit(n.kids, KidDepth(n, d)) == EmitNode(n, d))
  {
    hide ImageOf, At, Shaped, Block, Flat;
    HeadKind(n, d);
    SpanIsSize(n, d);
    var e := tape[i];
    if e.kind.Gap? {
      return [], i + e.Span();
    }
    if e.kind.Instance? {
      assert [] + Emit(n.kids, d) == Emit(n.kids, d);
      return [], i + 1;
    }
    if e.kind.Group? {
      var live := LiveInstances(tape, i, doc, Header, p, k);
      if live == 0 {
        return [], i + e.Span();
      }
      return [CountToken(e.tag, live)], i + 1;
    }
    if e.depth == 0 && (8 <= e.tag <= 10 || e.tag == 35) {
      return [], i + 1;
    }
    return [FieldToken(e)], i + 1;
  }

  /** MsgType, wherever in the header it is. */
  method MsgType(msg: Message) returns (out: seq<Token>)
    requires msg.Valid() && WellFormed(msg.doc) && MsgTypeIsField(msg.doc.header)
    ensures out == MsgTypeToken(msg.doc.header)
  {
    hide Flat, NodeSize, First, HasTag, ImageOf, At, Shaped, Tidy;
    HeaderLeafy(msg.doc);
    FoundFirst(msg.doc, Header, [], 35);
    AtWithin(msg.doc, Header, [], 0);
    RegionRange(msg.doc, Header);
    var found := msg.FindIn(0, msg.bodyStart, 0, 35, None);
    if found.Some? {
      EntryAt(msg.doc, Header, [], First(msg.doc.header, HasTag(35)));
      return [FieldToken(msg.tape[found.value])];
    }
    return [];
  }

  lemma {:induction false} HeaderLeafy(doc: Doc)
    requires WellFormed(doc)
    ensures AllLeafy(Block(Part(doc, Header), []))
  {
    hide NodeSize;
    forall i | 0 <= i < |doc.header|
      ensures Leafy(doc.header[i])
    {
      if i < |Fields(doc.header)| {
        ShapedAt(Fields(doc.header), false, i);
      }
    }
  }

  // ---------------------------------------------------------------------
  // What is written is a tree's fields
  // ---------------------------------------------------------------------

  /** A tree without what is not written: gaps, framing fields, groups and instances with nothing to write. */
  function StripNode(n: Node, depth: nat): seq<Node> {
    match n.entry.kind
    case Gap => []
    case Instance => if Writes(n.kids) then [n.(kids := Stripped(n.kids, depth))] else []
    case Group => if Live(n.kids) == 0 then [] else [n.(kids := Stripped(n.kids, depth + 1))]
    case _ => if Framing(n.entry, depth) then [] else [n]
  }

  function Stripped(ns: seq<Node>, depth: nat): seq<Node> {
    if ns == [] then [] else StripNode(ns[0], depth) + Stripped(ns[1..], depth)
  }

  lemma {:induction false} TokensAppend(a: seq<Node>, b: seq<Node>)
    ensures Tokens(a + b) == Tokens(a) + Tokens(b)
    ensures InstanceTokens(a + b) == InstanceTokens(a) + InstanceTokens(b)
    decreases |a|
  {
    if a == [] {
      assert a + b == b;
    } else {
      hide NodeTokens;
      TokensAppend(a[1..], b);
      assert (a + b)[1..] == a[1..] + b;
      assert NodeTokens(a[0]) + (Tokens(a[1..]) + Tokens(b)) == NodeTokens(a[0]) + Tokens(a[1..]) + Tokens(b);
      assert Tokens(a[0].kids) + (InstanceTokens(a[1..]) + InstanceTokens(b))
             == Tokens(a[0].kids) + InstanceTokens(a[1..]) + InstanceTokens(b);
    }
  }

  lemma {:induction false} OneToken(n: Node)
    ensures Tokens([n]) == NodeTokens(n) && InstanceTokens([n]) == Tokens(n.kids)
  {
    assert [n][1..] == [];
    assert NodeTokens(n) + [] == NodeTokens(n) && Tokens(n.kids) + [] == Tokens(n.kids);
  }

  /** One node: what it writes is what is left of it when stripped. */
  ghost predicate EmitsStripped(n: Node, group: bool, depth: nat) {
    if group then
      && EmitNode(n, depth) == InstanceTokens(StripNode(n, depth))
      && |StripNode(n, depth)| == (if Writes(n.kids) then 1 else 0)
    else
      && EmitNode(n, depth) == Tokens(StripNode(n, depth))
      && (depth > 0 ==> (ChildWrites(n) <==> StripNode(n, depth) != []))
  }

  lemma {:induction false} NodeEmits(n: Node, group: bool, depth: nat)
    requires n.entry.kind.Gap? || ShapedNode(n, group)
    requires group ==> depth > 0 && !n.entry.kind.Gap?
    ensures EmitsStripped(n, group, depth)
    decreases n, 1
  {
    if n.entry.kind.Instance? {
      ShapedWalkable(n.kids, false);
      Emits(n.kids, false, depth);
      if Writes(n.kids) {
        OneToken(n.(kids := Stripped(n.kids, depth)));
      }
    } else if n.entry.kind.Group? {
      ShapedWalkable(n.kids, true);
      Emits(n.kids, true, depth + 1);
      if Live(n.kids) > 0 {
        OneToken(n.(kids := Stripped(n.kids, depth + 1)));
      }
    } else if !n.entry.kind.Gap? {
      OneToken(n);
    }
  }

  /**
   * Each group's written count is the number of its instances that write something, and what is
   * written is exactly the fields of the tree without the rest.
   */
  lemma {:induction false} Emits(ns: seq<Node>, group: bool, depth: nat)
    requires Walkable(ns, group) && (group ==> depth > 0 && NoGap(ns))
    ensures group ==> Emit(ns, depth) == InstanceTokens(Stripped(ns, depth)) && |Stripped(ns, depth)| == Live(ns)
    ensures !group ==> Emit(ns, depth) == Tokens(Stripped(ns, depth))
    ensures !group && depth > 0 ==> (Writes(ns) <==> Stripped(ns, depth) != [])
    decreases ns, 0
  {
    if ns != [] {
      hide EmitNode, StripNode, ChildWrites, ShapedNode;
      assert ns[0].entry.kind.Gap? || ShapedNode(ns[0], group);
      NodeEmits(ns[0], group, depth);
      Emits(ns[1..], group, depth);
      TokensAppend(StripNode(ns[0], depth), Stripped(ns[1..], depth));
    }
  }

  // ---------------------------------------------------------------------
  // What is written is read back
  // ---------------------------------------------------------------------

  /** A field, by its tag. */
  predicate IsFieldNode(n: Node, tag: nat) {
    n.entry.kind.Field? && n.entry.tag == tag && n.kids == []
  }

  lemma {:induction false} StrippedAppend(a: seq<Node>, b: seq<Node>, depth: nat)
    ensures Stripped(a + b, depth) == Stripped(a, depth) + Stripped(b, depth)
    decreases |a|
  {
    if a == [] {
      assert a + b == b;
    } else {
      hide StripNode;
      StrippedAppend(a[1..], b, depth);
      assert (a + b)[1..] == a[1..] + b;
      assert StripNode(a[0], depth) + (Stripped(a[1..], depth) + Stripped(b, depth))
             == StripNode(a[0], depth) + Stripped(a[1..], depth) + Stripped(b, depth);
    }
  }

  /** The whole message on the wire: BeginString and BodyLength, what is visited, and CheckSum. */
  function OnWire(doc: Doc, n8: Node, n9: Node, n10: Node): seq<Token> {
    [FieldToken(n8.entry), FieldToken(n9.entry)] + Visited(doc) + [FieldToken(n10.entry)]
  }

  lemma {:induction false} WireIsTokens(doc: Doc, n8: Node, n9: Node, n35: Node, n10: Node)
    requires WellFormed(doc)
    requires IsFieldNode(n8, 8) && IsFieldNode(n9, 9) && IsFieldNode(n10, 10) && IsFieldNode(n35, 35)
    requires MsgTypeToken(doc.header) == [FieldToken(n35.entry)]
    ensures OnWire(doc, n8, n9, n10)
            == Tokens([n8, n9, n35] + Stripped(doc.header, 0)) + Tokens(Stripped(doc.body, 0))
               + Tokens(Stripped(doc.trailer, 0) + [n10])
  {
    hide Stripped, Emit, WellFormed, First, HasTag;
    ForestWalkable(doc);
    Emits(Forest(doc), false, 0);
    StrippedAppend(doc.header + doc.body, doc.trailer, 0);
    StrippedAppend(doc.header, doc.body, 0);
    var h, b, t := Stripped(doc.header, 0), Stripped(doc.body, 0), Stripped(doc.trailer, 0);
    TokensAppend(h + b, t);
    TokensAppend(h, b);
    TokensAppend([n8, n9, n35], h);
    TokensAppend(t, [n10]);
    FramingTokens(n8, n9, n35);
    OneToken(n10);
    WireParts([FieldToken(n8.entry), FieldToken(n9.entry)], [FieldToken(n35.entry)], Tokens(h), Tokens(b), Tokens(t),
              [FieldToken(n10.entry)]);
  }

  lemma {:induction false} FramingTokens(n8: Node, n9: Node, n35: Node)
    requires IsFieldNode(n8, 8) && IsFieldNode(n9, 9) && IsFieldNode(n35, 35)
    ensures Tokens([n8, n9, n35]) == [FieldToken(n8.entry), FieldToken(n9.entry)] + [FieldToken(n35.entry)]
  {
    assert [n8, n9, n35] == [n8] + ([n9] + [n35]);
    TokensAppend([n8], [n9] + [n35]);
    TokensAppend([n9], [n35]);
    OneToken(n8);
    OneToken(n9);
    OneToken(n35);
  }

  lemma {:induction false} WireParts(a: seq<Token>, x: seq<Token>, h: seq<Token>, b: seq<Token>, t: seq<Token>,
                                     z: seq<Token>)
    ensures a + (x + (h + b + t)) + z == a + x + h + b + (t + z)
  {
  }

  /**
   * The structural round trip: what the walk over a message's tape writes, framed, is parsed to the
   * tape of the same trees without what is not written, whenever those can be told apart.
   */
  lemma {:induction false} WrittenIsReadBack(dict: Dict, doc: Doc, n8: Node, n9: Node, n35: Node, n10: Node)
    returns (m: Machine)
    requires WellFormed(doc)
    requires IsFieldNode(n8, 8) && IsFieldNode(n9, 9) && IsFieldNode(n10, 10) && IsFieldNode(n35, 35)
    requires MsgTypeToken(doc.header) == [FieldToken(n35.entry)]
    requires Conforms(dict, [n8, n9, n35] + Stripped(doc.header, 0), Stripped(doc.body, 0),
                      Stripped(doc.trailer, 0) + [n10])
    ensures Parsed(dict, OnWire(doc, n8, n9, n10)) == Ok(m)
    ensures Image(m.tape, m.bodyStart, m.trailerStart)
            == ImageOf(Doc([n8, n9, n35] + Stripped(doc.header, 0) + [GapNode(HEADER_GAP)], Stripped(doc.body, 0),
                           Stripped(doc.trailer, 0) + [n10]))
  {
    hide Stripped, WellFormed, First, HasTag, Conforms, ImageOf, OnWire, Tokens;
    WireIsTokens(doc, n8, n9, n35, n10);
    m := ParsedBack(dict, [n8, n9, n35] + Stripped(doc.header, 0), Stripped(doc.body, 0),
                    Stripped(doc.trailer, 0) + [n10]);
  }
}
