/**
 * Equality (message/encode.rs): two messages are equal if walks over their tapes see the same, and
 * what is written and read back is equal to what was sent.
 */
module Equality {
  import opened Tape
  import opened Document
  import opened Editing
  import opened Lookup
  import opened Messages
  import opened Groups
  import opened Numerals
  import opened Storage
  import opened Shape
  import opened Pruning
  import opened Parsing
  import opened RoundTrip
  import opened Encoding

  // ---------------------------------------------------------------------
  // What is compared
  // ---------------------------------------------------------------------

  /** What is seen of an entry: where a field's bytes are does not matter. */
  datatype Sight = Sight(kind: Kind, tag: nat, depth: nat, value: Option<seq<Byte>>, count: Option<nat>)

  function SightOf(segs: Segments, e: Entry): Sight {
    Sight(e.kind, e.tag, e.depth, if e.IsField() && Present(segs, e) then Some(Value(segs, e)) else None,
          if e.kind.Group? then Some(e.off) else None)
  }

  /** Not BodyLength, CheckSum, or a group without instances. */
  predicate IsCompared(e: Entry) {
    e.tag != 9 && e.tag != 10 && !(e.kind.Group? && e.off == 0)
  }

  function Seen(segs: Segments, e: Entry): seq<Sight> {
    if IsCompared(e) then [SightOf(segs, e)] else []
  }

  /** The walk over a tape: every entry, but gaps are skipped whole. */
  function Walk(segs: Segments, tape: seq<Entry>, i: nat): seq<Sight>
    decreases |tape| - i
  {
    if i >= |tape| then []
    else if tape[i].kind.Gap? then Walk(segs, tape, i + tape[i].Span())
    else Seen(segs, tape[i]) + Walk(segs, tape, i + 1)
  }

  predicate SameMessage(segs: Segments, tape: seq<Entry>, segs': Segments, tape': seq<Entry>) {
    Walk(segs, tape, 0) == Walk(segs', tape', 0)
  }

  /** The next entry that is compared. */
  method NextCompared(segs: Segments, tape: seq<Entry>, from: nat) returns (i: nat)
    ensures i >= |tape| ==> Walk(segs, tape, from) == []
    ensures i < |tape| ==> from <= i && Walk(segs, tape, from) == [SightOf(segs, tape[i])] + Walk(segs, tape, i + 1)
  {
    hide SightOf;
    i := from;
    while i < |tape| && (tape[i].kind.Gap? || !IsCompared(tape[i]))
      invariant from <= i && Walk(segs, tape, i) == Walk(segs, tape, from)
      decreases |tape| - i
    {
      if tape[i].kind.Gap? {
        i := i + tape[i].Span();
      } else {
        assert [] + Walk(segs, tape, i + 1) == Walk(segs, tape, i + 1);
        i := i + 1;
      }
    }
  }

  /** Messages of one version: two walks side by side, up to the first difference. */
  method Equal(begin: seq<Byte>, segs: Segments, tape: seq<Entry>, begin': seq<Byte>, segs': Segments, tape': seq<Entry>)
    returns (same: bool)
    ensures same <==> begin == begin' && SameMessage(segs, tape, segs', tape')
  {
    hide Walk, SightOf;
    if begin != begin' {
      return false;
    }
    var i, j := 0, 0;
    while true
      invariant SameMessage(segs, tape, segs', tape') <==> Walk(segs, tape, i) == Walk(segs', tape', j)
      decreases |tape| - i
    {
      var k := NextCompared(segs, tape, i);
      var l := NextCompared(segs', tape', j);
      if k >= |tape| || l >= |tape'| {
        return k >= |tape| && l >= |tape'|;
      }
      ghost var a, b := Walk(segs, tape, i), Walk(segs', tape', j);
      assert a[0] == SightOf(segs, tape[k]) && b[0] == SightOf(segs', tape'[l]);
      if SightOf(segs, tape[k]) != SightOf(segs', tape'[l]) {
        return false;
      }
      assert a[1..] == Walk(segs, tape, k + 1) && b[1..] == Walk(segs', tape', l + 1);
      assert a == [a[0]] + a[1..] && b == [b[0]] + b[1..];
      i, j := k + 1, l + 1;
    }
  }

  // ---------------------------------------------------------------------
  // What is seen of trees
  // ---------------------------------------------------------------------

  function NodeSights(segs: Segments, n: Node, depth: nat): seq<Sight> {
    if n.entry.kind.Gap? then [] else Seen(segs, Head(n, depth)) + Sights(segs, n.kids, KidDepth(n, depth))
  }

  function Sights(segs: Segments, ns: seq<Node>, depth: nat): seq<Sight> {
    if ns == [] then [] else NodeSights(segs, ns[0], depth) + Sights(segs, ns[1..], depth)
  }

  lemma {:induction false} SightsAppend(segs: Segments, a: seq<Node>, b: seq<Node>, depth: nat)
    ensures Sights(segs, a + b, depth) == Sights(segs, a, depth) + Sights(segs, b, depth)
    decreases |a|
  {
    if a == [] {
      assert a + b == b;
    } else {
      hide NodeSights;
      SightsAppend(segs, a[1..], b, depth);
      assert (a + b)[1..] == a[1..] + b;
      assert NodeSights(segs, a[0], depth) + (Sights(segs, a[1..], depth) + Sights(segs, b, depth))
             == NodeSights(segs, a[0], depth) + Sights(segs, a[1..], depth) + Sights(segs, b, depth);
    }
  }

  lemma {:induction false} SightsOne(segs: Segments, n: Node, depth: nat)
    ensures Sights(segs, [n], depth) == NodeSights(segs, n, depth)
  {
    assert [n][1..] == [];
    assert NodeSights(segs, n, depth) + [] == NodeSights(segs, n, depth);
  }

  /** The walk over nodes that are laid out somewhere on a tape sees what is seen of the nodes. */
  lemma {:induction false} WalkFlat(segs: Segments, tape: seq<Entry>, i: nat, ns: seq<Node>, depth: nat)
    requires i + Size(ns) <= |tape| && tape[i..i + Size(ns)] == Flat(ns, depth)
    ensures Walk(segs, tape, i) == Sights(segs, ns, depth) + Walk(segs, tape, i + Size(ns))
    decreases ns, 0
  {
    hide Walk, Sights, NodeSights, Flat, FlatNode;
    if ns == [] {
      NothingSeen(segs, depth);
      assert [] + Walk(segs, tape, i) == Walk(segs, tape, i);
    } else {
      var a, b := FlatNode(ns[0], depth), Flat(ns[1..], depth);
      FirstSeen(segs, ns, depth);
      TwoParts(tape, i, a, b);
      WalkNode(segs, tape, i, ns[0], depth);
      WalkFlat(segs, tape, i + |a|, ns[1..], depth);
    }
  }

  lemma {:induction false} NothingSeen(segs: Segments, depth: nat)
    ensures Sights(segs, [], depth) == [] && Size([]) == 0
  {
  }

  lemma {:induction false} FirstSeen(segs: Segments, ns: seq<Node>, depth: nat)
    requires ns != []
    ensures Sights(segs, ns, depth) == NodeSights(segs, ns[0], depth) + Sights(segs, ns[1..], depth)
    ensures Flat(ns, depth) == FlatNode(ns[0], depth) + Flat(ns[1..], depth)
  {
  }

  lemma {:induction false} TwoParts(tape: seq<Entry>, i: nat, a: seq<Entry>, b: seq<Entry>)
    requires i + |a| + |b| <= |tape| && tape[i..i + |a| + |b|] == a + b
    ensures tape[i..i + |a|] == a && tape[i + |a|..i + |a| + |b|] == b
  {
    var part := tape[i..i + |a| + |b|];
    assert part[..|a|] == tape[i..i + |a|] && part[|a|..] == tape[i + |a|..i + |a| + |b|];
    assert (a + b)[..|a|] == a && (a + b)[|a|..] == b;
  }

  lemma {:induction false} WalkNode(segs: Segments, tape: seq<Entry>, i: nat, n: Node, depth: nat)
    requires i + NodeSize(n) <= |tape| && tape[i..i + NodeSize(n)] == FlatNode(n, depth)
    ensures Walk(segs, tape, i) == NodeSights(segs, n, depth) + Walk(segs, tape, i + NodeSize(n))
    decreases n, 1
  {
    var k, part := NodeSize(n), tape[i..i + NodeSize(n)];
    assert part[0] == tape[i] == Head(n, depth);
    if n.entry.kind.Gap? {
      assert tape[i].Span() == k;
      assert [] + Walk(segs, tape, i + k) == Walk(segs, tape, i + k);
    } else {
      hide Flat, NodeSize;
      assert FlatNode(n, depth)[1..] == Flat(n.kids, KidDepth(n, depth));
      assert part[1..] == tape[i + 1..i + k];
      WalkFlat(segs, tape, i + 1, n.kids, KidDepth(n, depth));
    }
  }

  /** The walk over a message's tape sees what is seen of its trees. */
  lemma {:induction false} WalkIsSights(segs: Segments, doc: Doc)
    ensures Walk(segs, ImageOf(doc).tape, 0) == Sights(segs, Forest(doc), 0)
  {
    hide Walk, Flat, Sights, ImageOf;
    var tape, ns := ImageOf(doc).tape, Forest(doc);
    ForestFlat(doc);
    assert tape[0..0 + Size(ns)] == tape;
    WalkFlat(segs, tape, 0, ns, 0);
    WalkEnd(segs, tape);
  }

  lemma {:induction false} WalkEnd(segs: Segments, tape: seq<Entry>)
    ensures Walk(segs, tape, |tape|) == []
  {
  }

  // ---------------------------------------------------------------------
  // What is not written is not compared
  // ---------------------------------------------------------------------

  /** Every instance, at any depth, writes something. */
  predicate NoneEmpty(ns: seq<Node>) {
    forall i :: 0 <= i < |ns| ==> NoneEmptyIn(ns[i])
  }

  predicate NoneEmptyIn(n: Node) {
    (n.entry.kind.Instance? ==> Writes(n.kids)) && NoneEmpty(n.kids)
  }

  lemma {:induction false} AllLive(ns: seq<Node>)
    requires Walkable(ns, true) && NoGap(ns) && NoneEmpty(ns)
    ensures Live(ns) == |ns|
  {
    if ns != [] {
      assert NoneEmptyIn(ns[0]) && ShapedNode(ns[0], true);
      AllLive(ns[1..]);
    }
  }

  lemma {:induction false} NodeSightsStripped(segs: Segments, n: Node, group: bool, depth: nat)
    requires ShapedNode(n, group) && NoneEmptyIn(n) && (group ==> depth > 0)
    requires Framing(n.entry, depth) ==> n.entry.tag == 9 || n.entry.tag == 10
    ensures Sights(segs, StripNode(n, depth), depth) == NodeSights(segs, n, depth)
    decreases n, 1
  {
    if n.entry.kind.Instance? {
      ShapedWalkable(n.kids, false);
      SightsStripped(segs, n.kids, false, depth);
      SightsOne(segs, n.(kids := Stripped(n.kids, depth)), depth);
    } else if n.entry.kind.Group? {
      ShapedWalkable(n.kids, true);
      AllLive(n.kids);
      if n.kids != [] {
        Emits(n.kids, true, depth + 1);
        SightsStripped(segs, n.kids, true, depth + 1);
        SightsOne(segs, n.(kids := Stripped(n.kids, depth + 1)), depth);
      }
    } else {
      SightsOne(segs, n, depth);
    }
  }

  /** Only BodyLength and CheckSum are framing fields here. */
  predicate OnlyDerived(ns: seq<Node>, depth: nat) {
    forall i :: 0 <= i < |ns| && Framing(ns[i].entry, depth) ==> ns[i].entry.tag == 9 || ns[i].entry.tag == 10
  }

  lemma {:induction false} SightsStripped(segs: Segments, ns: seq<Node>, group: bool, depth: nat)
    requires Walkable(ns, group) && NoGap(ns) && NoneEmpty(ns) && (group ==> depth > 0) && OnlyDerived(ns, depth)
    ensures Sights(segs, Stripped(ns, depth), depth) == Sights(segs, ns, depth)
    decreases ns, 0
  {
    if ns != [] {
      hide StripNode, NodeSights;
      assert ShapedNode(ns[0], group) && NoneEmptyIn(ns[0]);
      NodeSightsStripped(segs, ns[0], group, depth);
      SightsStripped(segs, ns[1..], group, depth);
      SightsAppend(segs, StripNode(ns[0], depth), Stripped(ns[1..], depth), depth);
    }
  }

  /** BodyLength and CheckSum, wherever they are, are fields; instances have no tag. */
  predicate PlainFraming(ns: seq<Node>) {
    forall i :: 0 <= i < |ns| ==> PlainFramingIn(ns[i])
  }

  predicate PlainFramingIn(n: Node) {
    && (n.entry.tag == 9 || n.entry.tag == 10 ==> n.entry.kind.Field?)
    && (n.entry.kind.Instance? ==> n.entry.tag == 0)
    && PlainFraming(n.kids)
  }

  /** Without what is not written there is less to see, unless no instance is empty. */
  lemma {:induction false} NodeSeesLess(segs: Segments, n: Node, group: bool, depth: nat)
    requires ShapedNode(n, group) && PlainFramingIn(n) && (group ==> depth > 0)
    requires Framing(n.entry, depth) ==> n.entry.tag == 9 || n.entry.tag == 10
    ensures |Sights(segs, StripNode(n, depth), depth)| <= |NodeSights(segs, n, depth)|
    ensures |Sights(segs, StripNode(n, depth), depth)| == |NodeSights(segs, n, depth)| ==> NoneEmptyIn(n)
    decreases n, 1
  {
    hide SightOf;
    if n.entry.kind.Instance? {
      ShapedWalkable(n.kids, false);
      SeesLess(segs, n.kids, false, depth);
      SightsOne(segs, n.(kids := Stripped(n.kids, depth)), depth);
    } else if n.entry.kind.Group? {
      ShapedWalkable(n.kids, true);
      if Live(n.kids) > 0 {
        Emits(n.kids, true, depth + 1);
        SeesLess(segs, n.kids, true, depth + 1);
        SightsOne(segs, n.(kids := Stripped(n.kids, depth + 1)), depth);
      }
    } else {
      SightsOne(segs, n, depth);
    }
  }

  lemma {:induction false} SeesLess(segs: Segments, ns: seq<Node>, group: bool, depth: nat)
    requires Walkable(ns, group) && NoGap(ns) && PlainFraming(ns) && (group ==> depth > 0) && OnlyDerived(ns, depth)
    ensures |Sights(segs, Stripped(ns, depth), depth)| <= |Sights(segs, ns, depth)|
    ensures |Sights(segs, Stripped(ns, depth), depth)| == |Sights(segs, ns, depth)| ==> NoneEmpty(ns)
    decreases ns, 0
  {
    if ns != [] {
      hide StripNode, NodeSights, NoneEmptyIn;
      assert ShapedNode(ns[0], group) && PlainFramingIn(ns[0]);
      NodeSeesLess(segs, ns[0], group, depth);
      SeesLess(segs, ns[1..], group, depth);
      SightsAppend(segs, StripNode(ns[0], depth), Stripped(ns[1..], depth), depth);
      assert forall i :: 1 <= i < |ns| ==> ns[i] == ns[1..][i - 1];
    }
  }

  // ---------------------------------------------------------------------
  // What is read back is equal
  // ---------------------------------------------------------------------

  /** A header as it is built or parsed: BeginString, BodyLength if it has one, MsgType, and the rest. */
  predicate StartsAsWritten(doc: Doc, n8: Node, nine: seq<Node>, n35: Node, rest: seq<Node>) {
    && IsFieldNode(n8, 8) && IsFieldNode(n35, 35)
    && (nine == [] || (|nine| == 1 && IsFieldNode(nine[0], 9)))
    && Fields(doc.header) == [n8] + nine + [n35] + rest
    && OnlyDerived(rest, 0) && OnlyDerived(doc.body, 0) && OnlyDerived(doc.trailer, 0)
  }

  lemma {:induction false} FramingNode(segs: Segments, n: Node, tag: nat)
    requires IsFieldNode(n, tag) && (tag == 8 || tag == 9 || tag == 10 || tag == 35)
    ensures Stripped([n], 0) == []
    ensures Sights(segs, [n], 0) == if tag == 9 || tag == 10 then [] else [SightOf(segs, n.entry.(depth := 0))]
  {
    hide SightOf;
    assert [n][1..] == [];
  }

  lemma {:induction false} GapNowhere(segs: Segments, header: seq<Node>)
    ensures Stripped(header, 0) == Stripped(Fields(header), 0) && Sights(segs, header, 0) == Sights(segs, Fields(header), 0)
  {
    if EndsInGap(header) {
      var gap := header[|header| - 1];
      assert header == Fields(header) + [gap];
      StrippedAppend(Fields(header), [gap], 0);
      SightsAppend(segs, Fields(header), [gap], 0);
      assert [gap][1..] == [];
    }
  }

  /** What the start of a header comes to. */
  lemma {:induction false} StartParts(segs: Segments, n8: Node, nine: seq<Node>, n35: Node, rest: seq<Node>)
    requires IsFieldNode(n8, 8) && IsFieldNode(n35, 35) && (nine == [] || (|nine| == 1 && IsFieldNode(nine[0], 9)))
    ensures var ns := [n8] + nine + [n35] + rest;
            && Stripped(ns, 0) == Stripped(rest, 0)
            && Sights(segs, ns, 0) == Sights(segs, [n8], 0) + Sights(segs, [n35], 0) + Sights(segs, rest, 0)
  {
    hide NodeSights, StripNode;
    var a := [n8] + nine;
    StrippedAppend(a + [n35], rest, 0);
    StrippedAppend(a, [n35], 0);
    StrippedAppend([n8], nine, 0);
    SightsAppend(segs, a + [n35], rest, 0);
    SightsAppend(segs, a, [n35], 0);
    SightsAppend(segs, [n8], nine, 0);
    FramingNode(segs, n8, 8);
    FramingNode(segs, n35, 35);
    if nine != [] {
      assert nine == [nine[0]];
      FramingNode(segs, nine[0], 9);
    }
    assert [] + Stripped(rest, 0) == Stripped(rest, 0);
  }

  lemma {:induction false} MsgTypeFound(doc: Doc, n8: Node, nine: seq<Node>, n35: Node, rest: seq<Node>)
    requires StartsAsWritten(doc, n8, nine, n35, rest)
    ensures MsgTypeToken(doc.header) == [FieldToken(n35.entry)]
  {
    var k := 1 + |nine|;
    assert Fields(doc.header)[k] == n35 && doc.header[k] == n35 && doc.header[0] == n8;
    assert nine != [] ==> Fields(doc.header)[1] == nine[0] && doc.header[1] == nine[0];
    var first := First(doc.header, HasTag(35));
    assert HasTag(35)(n35.entry.tag, n35.entry.kind);
    assert first <= k;
    assert !HasTag(35)(n8.entry.tag, n8.entry.kind);
    assert nine != [] ==> !HasTag(35)(nine[0].entry.tag, nine[0].entry.kind);
  }

  /** A message as it is read back: framed anew, and without what is not written. */
  function ReadBackAs(doc: Doc, n8: Node, n9: Node, n35: Node, n10: Node): Doc {
    Doc([n8, n9, n35] + Stripped(doc.header, 0) + [GapNode(HEADER_GAP)], Stripped(doc.body, 0), Stripped(doc.trailer, 0) + [n10])
  }

  /** What is read back is equal, if no instance is empty. */
  lemma {:induction false} SameReadBack(segs: Segments, doc: Doc, n8: Node, nine: seq<Node>, n35: Node,
                                        rest: seq<Node>, n9: Node, n10: Node)
    requires WellFormed(doc) && StartsAsWritten(doc, n8, nine, n35, rest)
    requires IsFieldNode(n9, 9) && IsFieldNode(n10, 10)
    requires NoneEmpty(rest) && NoneEmpty(doc.body) && NoneEmpty(doc.trailer)
    ensures SameMessage(segs, ImageOf(doc).tape, segs, ImageOf(ReadBackAs(doc, n8, n9, n35, n10)).tape)
  {
    var h, b, t := Stripped(doc.header, 0), Stripped(doc.body, 0), Stripped(doc.trailer, 0);
    RestWalkable(doc, n8, nine, n35, rest);
    SightsStripped(segs, rest, false, 0);
    ShapedWalkable(doc.body, false);
    ShapedWalkable(doc.trailer, false);
    SightsStripped(segs, doc.body, false, 0);
    SightsStripped(segs, doc.trailer, false, 0);
    hide WellFormed, Stripped, Sights, Shaped, NoneEmpty, OnlyDerived, Walkable, Framing, ImageOf, Walk;
    GapNowhere(segs, doc.header);
    StartParts(segs, n8, nine, n35, rest);
    ForestSights(segs, doc);
    var doc' := ReadBackAs(doc, n8, n9, n35, n10);
    ForestSights(segs, doc');
    WrittenHeader(segs, n8, n9, n35, h);
    SightsAppend(segs, t, [n10], 0);
    FramingNode(segs, n10, 10);
    assert Sights(segs, t, 0) + [] == Sights(segs, t, 0);
    WalkIsSights(segs, doc);
    WalkIsSights(segs, doc');
  }

  /** And only then: a message equals what it is read back as if and only if no instance is empty. */
  lemma {:induction false} SameReadBackWhen(segs: Segments, doc: Doc, n8: Node, nine: seq<Node>, n35: Node,
                                            rest: seq<Node>, n9: Node, n10: Node)
    requires WellFormed(doc) && StartsAsWritten(doc, n8, nine, n35, rest)
    requires IsFieldNode(n9, 9) && IsFieldNode(n10, 10)
    requires PlainFraming(rest) && PlainFraming(doc.body) && PlainFraming(doc.trailer)
    ensures SameMessage(segs, ImageOf(doc).tape, segs, ImageOf(ReadBackAs(doc, n8, n9, n35, n10)).tape)
            <==> NoneEmpty(rest) && NoneEmpty(doc.body) && NoneEmpty(doc.trailer)
  {
    var h, b, t := Stripped(doc.header, 0), Stripped(doc.body, 0), Stripped(doc.trailer, 0);
    RestWalkable(doc, n8, nine, n35, rest);
    ShapedWalkable(doc.body, false);
    ShapedWalkable(doc.trailer, false);
    SeesLess(segs, rest, false, 0);
    SeesLess(segs, doc.body, false, 0);
    SeesLess(segs, doc.trailer, false, 0);
    hide WellFormed, Stripped, Sights, Shaped, NoneEmpty, OnlyDerived, Walkable, Framing, ImageOf, Walk, PlainFraming;
    BothWalks(segs, doc, n8, nine, n35, rest, n9, n10);
    if NoneEmpty(rest) && NoneEmpty(doc.body) && NoneEmpty(doc.trailer) {
      SameReadBack(segs, doc, n8, nine, n35, rest, n9, n10);
    }
  }

  /** What is seen of a message, and of the message it is read back as. */
  lemma {:induction false} BothWalks(segs: Segments, doc: Doc, n8: Node, nine: seq<Node>, n35: Node,
                                     rest: seq<Node>, n9: Node, n10: Node)
    requires StartsAsWritten(doc, n8, nine, n35, rest) && IsFieldNode(n9, 9) && IsFieldNode(n10, 10)
    ensures var start := Sights(segs, [n8], 0) + Sights(segs, [n35], 0);
            && Walk(segs, ImageOf(doc).tape, 0)
               == start + Sights(segs, rest, 0) + Sights(segs, doc.body, 0) + Sights(segs, doc.trailer, 0)
            && Walk(segs, ImageOf(ReadBackAs(doc, n8, n9, n35, n10)).tape, 0)
               == start + Sights(segs, Stripped(rest, 0), 0) + Sights(segs, Stripped(doc.body, 0), 0)
                  + Sights(segs, Stripped(doc.trailer, 0), 0)
  {
    hide Stripped, Sights, OnlyDerived, Framing, ImageOf, Walk;
    var t := Stripped(doc.trailer, 0);
    GapNowhere(segs, doc.header);
    StartParts(segs, n8, nine, n35, rest);
    ForestSights(segs, doc);
    var doc' := ReadBackAs(doc, n8, n9, n35, n10);
    ForestSights(segs, doc');
    WrittenHeader(segs, n8, n9, n35, Stripped(doc.header, 0));
    SightsAppend(segs, t, [n10], 0);
    FramingNode(segs, n10, 10);
    assert Sights(segs, t, 0) + [] == Sights(segs, t, 0);
    WalkIsSights(segs, doc);
    WalkIsSights(segs, doc');
  }

  lemma {:induction false} ForestSights(segs: Segments, doc: Doc)
    ensures Sights(segs, Forest(doc), 0) == Sights(segs, doc.header, 0) + Sights(segs, doc.body, 0) + Sights(segs, doc.trailer, 0)
  {
    SightsAppend(segs, doc.header + doc.body, doc.trailer, 0);
    SightsAppend(segs, doc.header, doc.body, 0);
  }

  lemma {:induction false} WrittenHeader(segs: Segments, n8: Node, n9: Node, n35: Node, h: seq<Node>)
    requires IsFieldNode(n8, 8) && IsFieldNode(n9, 9) && IsFieldNode(n35, 35)
    ensures Sights(segs, [n8, n9, n35] + h + [GapNode(HEADER_GAP)], 0)
            == Sights(segs, [n8], 0) + Sights(segs, [n35], 0) + Sights(segs, h, 0)
  {
    hide Sights;
    assert [n8, n9, n35] + h == [n8] + [n9] + [n35] + h;
    StartParts(segs, n8, [n9], n35, h);
    SightsAppend(segs, [n8, n9, n35] + h, [GapNode(HEADER_GAP)], 0);
    SightsOne(segs, GapNode(HEADER_GAP), 0);
    var all := Sights(segs, [n8], 0) + Sights(segs, [n35], 0) + Sights(segs, h, 0);
    assert all + [] == all;
  }

  lemma {:induction false} RestWalkable(doc: Doc, n8: Node, nine: seq<Node>, n35: Node, rest: seq<Node>)
    requires WellFormed(doc) && StartsAsWritten(doc, n8, nine, n35, rest)
    ensures Walkable(rest, false) && NoGap(rest)
  {
    var h := Fields(doc.header);
    ShapedWalkable(h, false);
    hide Shaped, ShapedNode, Fields, OnlyDerived;
    WalkableBehind([n8] + nine + [n35], rest);
  }

  lemma {:induction false} WalkableBehind(a: seq<Node>, b: seq<Node>)
    requires Walkable(a + b, false) && NoGap(a + b)
    ensures Walkable(b, false) && NoGap(b)
  {
    hide ShapedNode;
    assert forall i :: 0 <= i < |b| ==> b[i] == (a + b)[|a| + i];
  }

  /**
   * The round trip of the fields: a message that conforms to the dictionary and has no empty
   * instance, written and read back, comes back as a message equal to it, laid out and counted alike.
   */
  lemma {:induction false} RoundTrips(segs: Segments, dict: Dict, doc: Doc, n8: Node, nine: seq<Node>, n35: Node,
                                      rest: seq<Node>, n9: Node, n10: Node)
    returns (m: Machine)
    requires WellFormed(doc) && StartsAsWritten(doc, n8, nine, n35, rest)
    requires IsFieldNode(n9, 9) && IsFieldNode(n10, 10)
    requires NoneEmpty(rest) && NoneEmpty(doc.body) && NoneEmpty(doc.trailer)
    requires Conforms(dict, [n8, n9, n35] + Stripped(doc.header, 0), Stripped(doc.body, 0),
                      Stripped(doc.trailer, 0) + [n10])
    ensures Parsed(dict, OnWire(doc, n8, n9, n10)) == Ok(m)
    ensures Image(m.tape, m.bodyStart, m.trailerStart) == ImageOf(ReadBackAs(doc, n8, n9, n35, n10))
    ensures SameMessage(segs, ImageOf(doc).tape, segs, m.tape)
  {
    MsgTypeFound(doc, n8, nine, n35, rest);
    hide ImageOf, Conforms, Stripped, OnWire, Parsed, SameMessage, WellFormed, StartsAsWritten, NoneEmpty, MsgTypeToken;
    m := WrittenIsReadBack(dict, doc, n8, n9, n35, n10);
    SameReadBack(segs, doc, n8, nine, n35, rest, n9, n10);
  }
}
