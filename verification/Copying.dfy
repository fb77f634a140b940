/**
 * Copying a field, a pair or a whole group from one message's block to another's (message/edit.rs):
 * the bytes go to the end of the arena, and the entries to the depth of the block they go in.
 */
module Copying {
  import opened Tape
  import opened Document
  import opened Editing
  import opened Lookup
  import opened Numerals
  import opened Storage
  import opened Messages

  // ---------------------------------------------------------------------
  // Trees with their bytes elsewhere
  // ---------------------------------------------------------------------

  /** Every field of these trees is in its segment. */
  predicate AllPresent(segs: Segments, ns: seq<Node>) {
    ns != [] ==> PresentIn(segs, ns[0]) && AllPresent(segs, ns[1..])
  }

  predicate PresentIn(segs: Segments, n: Node) {
    (n.entry.IsField() ==> Present(segs, n.entry)) && AllPresent(segs, n.kids)
  }

  /** A field's entry once its bytes are copied to the end of an arena, and the arena with them. */
  function CopyEntry(src: Segments, e: Entry, arena: seq<Byte>): (Entry, seq<Byte>)
    requires e.IsField() ==> Present(src, e)
  {
    if e.IsField() then (e.(off := |arena|, seg := Arena), arena + FieldText(src, e)) else (e, arena)
  }

  function CopyNode(src: Segments, n: Node, arena: seq<Byte>): (Node, seq<Byte>)
    requires PresentIn(src, n)
    decreases n, 0
  {
    var head := CopyEntry(src, n.entry, arena);
    var kids := CopyNodes(src, n.kids, head.1);
    (Node(head.0, kids.0), kids.1)
  }

  function CopyNodes(src: Segments, ns: seq<Node>, arena: seq<Byte>): (r: (seq<Node>, seq<Byte>))
    requires AllPresent(src, ns)
    ensures |r.0| == |ns|
    decreases ns, 1
  {
    if ns == [] then ([], arena)
    else
      var first := CopyNode(src, ns[0], arena);
      var rest := CopyNodes(src, ns[1..], first.1);
      ([first.0] + rest.0, rest.1)
  }

  // ---------------------------------------------------------------------
  // The same, entry by entry
  // ---------------------------------------------------------------------

  predicate EntriesPresent(segs: Segments, es: seq<Entry>) {
    forall i :: 0 <= i < |es| && es[i].IsField() ==> Present(segs, es[i])
  }

  /** Entries copied one after the other, `shift` deeper. */
  function CopyEntries(src: Segments, es: seq<Entry>, shift: int, arena: seq<Byte>): (r: (seq<Entry>, seq<Byte>))
    requires EntriesPresent(src, es)
    ensures |r.0| == |es|
    decreases |es|
  {
    if es == [] then ([], arena)
    else
      var k := |es| - 1;
      var before := CopyEntries(src, es[..k], shift, arena);
      var last := CopyEntry(src, es[k], before.1);
      (before.0 + [last.0.(depth := Plus(last.0.depth, shift))], last.1)
  }

  lemma {:induction false} CopyEntriesAppend(src: Segments, a: seq<Entry>, b: seq<Entry>, shift: int, arena: seq<Byte>)
    requires EntriesPresent(src, a) && EntriesPresent(src, b)
    ensures EntriesPresent(src, a + b)
    ensures var first := CopyEntries(src, a, shift, arena);
            var rest := CopyEntries(src, b, shift, first.1);
            CopyEntries(src, a + b, shift, arena) == (first.0 + rest.0, rest.1)
    decreases |b|
  {
    if b == [] {
      assert a + b == a;
      var first := CopyEntries(src, a, shift, arena);
      assert first.0 + [] == first.0;
    } else {
      hide CopyEntry;
      var k := |b| - 1;
      assert (a + b)[..|a + b| - 1] == a + b[..k] && (a + b)[|a + b| - 1] == b[k];
      CopyEntriesAppend(src, a, b[..k], shift, arena);
      var first := CopyEntries(src, a, shift, arena);
      var mid := CopyEntries(src, b[..k], shift, first.1);
      var last := CopyEntry(src, b[k], mid.1).0;
      var x := [last.(depth := Plus(last.depth, shift))];
      assert first.0 + mid.0 + x == first.0 + (mid.0 + x);
    }
  }

  /** A copied tree takes up as many entries. */
  lemma {:induction false} CopySize(src: Segments, ns: seq<Node>, arena: seq<Byte>)
    requires AllPresent(src, ns)
    ensures Size(CopyNodes(src, ns, arena).0) == Size(ns)
    decreases ns, 1
  {
    if ns != [] {
      CopyNodeSize(src, ns[0], arena);
      CopySize(src, ns[1..], CopyNode(src, ns[0], arena).1);
    }
  }

  lemma {:induction false} CopyNodeSize(src: Segments, n: Node, arena: seq<Byte>)
    requires PresentIn(src, n)
    ensures NodeSize(CopyNode(src, n, arena).0) == NodeSize(n)
    decreases n, 0
  {
    CopySize(src, n.kids, CopyEntry(src, n.entry, arena).1);
  }

  lemma {:induction false} CopyHead(src: Segments, n: Node, d: nat, d': nat, arena: seq<Byte>)
    requires PresentIn(src, n) && !n.entry.kind.Gap?
    ensures var h := Head(n, d);
            && (h.IsField() ==> Present(src, h))
            && CopyEntry(src, h, arena).0.(depth := d') == Head(CopyNode(src, n, arena).0, d')
            && CopyEntry(src, h, arena).1 == CopyEntry(src, n.entry, arena).1
            && h.depth == d
  {
    CopyNodeSize(src, n, arena);
  }

  /** Copying a tree's entries, each as deep as before from the new depth on, lays out the copied tree. */
  lemma {:induction false} CopyFlat(src: Segments, ns: seq<Node>, d: nat, d': nat, arena: seq<Byte>)
    requires AllPresent(src, ns) && Solid(ns)
    ensures EntriesPresent(src, Flat(ns, d))
    ensures CopyEntries(src, Flat(ns, d), d' - d, arena)
            == (Flat(CopyNodes(src, ns, arena).0, d'), CopyNodes(src, ns, arena).1)
    decreases ns, 1
  {
    if ns != [] {
      hide FlatNode, CopyNode, CopyEntries;
      CopyNodeFlat(src, ns[0], d, d', arena);
      CopyFlat(src, ns[1..], d, d', CopyNode(src, ns[0], arena).1);
      CopyEntriesAppend(src, FlatNode(ns[0], d), Flat(ns[1..], d), d' - d, arena);
      FlatCons(CopyNode(src, ns[0], arena).0, CopyNodes(src, ns[1..], CopyNode(src, ns[0], arena).1).0, d');
    }
  }

  lemma {:induction false} FlatCons(n: Node, ns: seq<Node>, d: nat)
    ensures Flat([n] + ns, d) == FlatNode(n, d) + Flat(ns, d)
  {
    assert ([n] + ns)[1..] == ns;
  }

  lemma {:induction false} CopyNodeFlat(src: Segments, n: Node, d: nat, d': nat, arena: seq<Byte>)
    requires PresentIn(src, n) && !n.entry.kind.Gap? && Solid(n.kids)
    ensures EntriesPresent(src, FlatNode(n, d))
    ensures CopyEntries(src, FlatNode(n, d), d' - d, arena)
            == (FlatNode(CopyNode(src, n, arena).0, d'), CopyNode(src, n, arena).1)
    decreases n, 0
  {
    hide CopyEntries, Head, Flat, CopyEntry, FlatNode;
    var k, k', n' := KidDepth(n, d), KidDepth(n, d'), CopyNode(src, n, arena).0;
    CopyHead(src, n, d, d', arena);
    CopyFlat(src, n.kids, k, k', CopyEntry(src, n.entry, arena).1);
    CopyOne(src, Head(n, d), d' - d, arena);
    CopyEntriesAppend(src, [Head(n, d)], Flat(n.kids, k), d' - d, arena);
    FlatOf(n, d);
    CopyKind(src, n.entry, arena);
    CopyKind(src, Head(n, d), arena);
    FlatOf(n', d');
  }

  lemma {:induction false} FlatOf(n: Node, d: nat)
    requires !n.entry.kind.Gap?
    ensures FlatNode(n, d) == [Head(n, d)] + Flat(n.kids, KidDepth(n, d))
  {
  }

  lemma {:induction false} CopyKind(src: Segments, e: Entry, arena: seq<Byte>)
    requires e.IsField() ==> Present(src, e)
    ensures var e' := CopyEntry(src, e, arena).0; e'.kind == e.kind && e'.tag == e.tag && e'.depth == e.depth
  {
  }

  lemma {:induction false} CopyOne(src: Segments, e: Entry, shift: int, arena: seq<Byte>)
    requires e.IsField() ==> Present(src, e)
    ensures EntriesPresent(src, [e])
    ensures var r := CopyEntry(src, e, arena);
            CopyEntries(src, [e], shift, arena) == ([r.0.(depth := Plus(r.0.depth, shift))], r.1)
  {
    assert [e][..0] == [] && CopyEntries(src, [], shift, arena) == ([], arena);
    var r := CopyEntry(src, e, arena);
    assert [] + [r.0.(depth := Plus(r.0.depth, shift))] == [r.0.(depth := Plus(r.0.depth, shift))];
  }

  // ---------------------------------------------------------------------
  // What copying keeps
  // ---------------------------------------------------------------------

  /** The fields of these trees, in order, as they are written. */
  function Texts(segs: Segments, ns: seq<Node>): seq<seq<Byte>>
    requires AllPresent(segs, ns)
    decreases ns, 1
  {
    if ns == [] then [] else NodeTexts(segs, ns[0]) + Texts(segs, ns[1..])
  }

  function NodeTexts(segs: Segments, n: Node): seq<seq<Byte>>
    requires PresentIn(segs, n)
    decreases n, 0
  {
    (if n.entry.IsField() then [FieldText(segs, n.entry)] else []) + Texts(segs, n.kids)
  }

  lemma {:induction false} CopyGrows(src: Segments, ns: seq<Node>, arena: seq<Byte>)
    requires AllPresent(src, ns)
    ensures arena <= CopyNodes(src, ns, arena).1
    decreases ns, 1
  {
    if ns != [] {
      CopyNodeGrows(src, ns[0], arena);
      CopyGrows(src, ns[1..], CopyNode(src, ns[0], arena).1);
    }
  }

  lemma {:induction false} CopyNodeGrows(src: Segments, n: Node, arena: seq<Byte>)
    requires PresentIn(src, n)
    ensures CopyEntry(src, n.entry, arena).1 <= CopyNode(src, n, arena).1
    ensures arena <= CopyNode(src, n, arena).1
    decreases n, 0
  {
    CopyGrows(src, n.kids, CopyEntry(src, n.entry, arena).1);
  }

  /** The copies have the bytes of the originals, however much is appended after them. */
  lemma {:induction false} CopyTexts(src: Segments, ns: seq<Node>, arena: seq<Byte>, segs: Segments)
    requires AllPresent(src, ns) && CopyNodes(src, ns, arena).1 <= segs.arena
    ensures AllPresent(segs, CopyNodes(src, ns, arena).0)
    ensures Texts(segs, CopyNodes(src, ns, arena).0) == Texts(src, ns)
    decreases ns, 1
  {
    if ns != [] {
      hide CopyNode, NodeTexts;
      var first := CopyNode(src, ns[0], arena);
      var rest := CopyNodes(src, ns[1..], first.1);
      CopyGrows(src, ns[1..], first.1);
      CopyNodeTexts(src, ns[0], arena, segs);
      CopyTexts(src, ns[1..], first.1, segs);
      assert ([first.0] + rest.0)[1..] == rest.0;
    }
  }

  lemma {:induction false} CopyNodeTexts(src: Segments, n: Node, arena: seq<Byte>, segs: Segments)
    requires PresentIn(src, n) && CopyNode(src, n, arena).1 <= segs.arena
    ensures PresentIn(segs, CopyNode(src, n, arena).0)
    ensures NodeTexts(segs, CopyNode(src, n, arena).0) == NodeTexts(src, n)
    decreases n, 0
  {
    CopyNodeGrows(src, n, arena);
    CopyTexts(src, n.kids, CopyEntry(src, n.entry, arena).1, segs);
    if n.entry.IsField() {
      CopyEntryText(src, n.entry, arena, segs);
    }
  }

  lemma {:induction false} CopyEntryText(src: Segments, e: Entry, arena: seq<Byte>, segs: Segments)
    requires e.IsField() && Present(src, e) && CopyEntry(src, e, arena).1 <= segs.arena
    ensures Present(segs, CopyEntry(src, e, arena).0)
    ensures FieldText(segs, CopyEntry(src, e, arena).0) == FieldText(src, e)
  {
    var t := arena + FieldText(src, e);
    assert segs.arena[..|t|] == t;
    assert segs.arena[|arena|..|t|] == segs.arena[..|t|][|arena|..|t|] == FieldText(src, e);
  }

  // ---------------------------------------------------------------------
  // Copying into a block
  // ---------------------------------------------------------------------

  /** The nodes a tag names in a block: a field, a Length with its data, or a group with all its instances. */
  function Named(block: seq<Node>, tag: nat): (ns: seq<Node>)
    requires Paired(block) && First(block, HasTag(tag)) < |block|
    ensures ns != []
  {
    var ij := Whole(block, First(block, HasTag(tag)));
    block[ij.0..ij.1]
  }

  /** A block with what the tag names gone, and these nodes in, where the first of them belongs. */
  function Replaced(doc: Doc, r: Region, p: Path, members: Option<Members>, tag: nat, nodes: seq<Node>): Doc
    requires IsBlock(doc, r, p) && Paired(Block(Part(doc, r), p)) && nodes != []
  {
    WithoutStays(doc, r, p, tag);
    var doc1 := Without(doc, r, p, tag);
    InsertedNodes(doc1, r, p, Position(Block(Part(doc1, r), p), r == Header && p == [], members, nodes[0].entry.tag), nodes)
  }

  lemma {:induction false} WithoutStays(doc: Doc, r: Region, p: Path, tag: nat)
    requires IsBlock(doc, r, p) && Paired(Block(Part(doc, r), p))
    ensures IsBlock(Without(doc, r, p, tag), r, p)
    ensures var block, block' := Block(Part(doc, r), p), Block(Part(Without(doc, r, p, tag), r), p);
            && (forall n :: n in block' ==> n in block)
            && Depth(Without(doc, r, p, tag), r, p) == Depth(doc, r, p)
  {
    var block := Block(Part(doc, r), p);
    var k := First(block, HasTag(tag));
    if k < |block| {
      EditedStays(doc, r, p, Whole(block, k).0, Whole(block, k).1, []);
    }
  }

  /** Some nodes of a block, laid out. */
  lemma {:induction false} BlockSlice(doc: Doc, r: Region, p: Path, i: nat, j: nat)
    requires IsBlock(doc, r, p) && i <= j <= |Block(Part(doc, r), p)|
    ensures At(doc, r, p, i) <= At(doc, r, p, j) <= |ImageOf(doc).tape|
    ensures ImageOf(doc).tape[At(doc, r, p, i)..At(doc, r, p, j)] == Flat(Block(Part(doc, r), p)[i..j], Depth(doc, r, p))
  {
    hide ImageOf, Flat, Block, Size, Part, At, Depth;
    var block, d := Block(Part(doc, r), p), Depth(doc, r, p);
    AtIs(doc, r, p, i);
    AtIs(doc, r, p, j);
    AtWithin(doc, r, p, j);
    ExchangedSize(block, i, j, [], d);
    var a, b, c := Flat(block[..i], d), Flat(block[i..j], d), Flat(block[j..], d);
    forall k | 0 <= k < |b|
      ensures ImageOf(doc).tape[At(doc, r, p, i)..At(doc, r, p, j)][k] == b[k]
    {
      BlockEntry(doc, r, p, Size(block[..i]) + k);
      Between(a, b, c, k);
    }
  }

  lemma {:induction false} CopyKinds(src: Segments, ns: seq<Node>, arena: seq<Byte>)
    requires AllPresent(src, ns)
    ensures forall i :: 0 <= i < |ns| ==>
              var n := CopyNodes(src, ns, arena).0[i]; n.entry.kind == ns[i].entry.kind && n.entry.tag == ns[i].entry.tag
    decreases |ns|
  {
    if ns != [] {
      CopyKinds(src, ns[1..], CopyNode(src, ns[0], arena).1);
    }
  }

  lemma {:induction false} NamedSolid(block: seq<Node>, tag: nat)
    requires Paired(block) && FieldBlock(block) && First(block, HasTag(tag)) < |block|
    ensures Solid(Named(block, tag)) && NoGap(Named(block, tag))
  {
    var k := First(block, HasTag(tag));
    var ij := Whole(block, k);
    assert forall i :: ij.0 <= i < ij.1 ==> !block[i].entry.kind.Gap? && Solid(block[i].kids);
  }

  /** Copy entries one by one, their bytes to the end of the arena. */
  method TakeEntries(msg: Message, src: Segments, es: seq<Entry>, from: nat, to: nat) returns (entries: seq<Entry>)
    requires EntriesPresent(src, es)
    modifies msg`arena
    ensures (entries, msg.arena) == CopyEntries(src, es, to - from, old(msg.arena))
  {
    entries := [];
    var i := 0;
    while i < |es|
      invariant i <= |es| && EntriesPresent(src, es[..i])
      invariant (entries, msg.arena) == CopyEntries(src, es[..i], to - from, old(msg.arena))
    {
      assert es[..i + 1][..i] == es[..i] && es[..i + 1][i] == es[i];
      var e := es[i];
      if e.IsField() {
        var bytes := FieldText(src, e);
        e := e.(off := |msg.arena|, seg := Arena);
        msg.arena := msg.arena + bytes;
      }
      entries := entries + [e.(depth := Plus(e.depth, to - from))];
      i := i + 1;
    }
    assert es[..|es|] == es;
  }

  /** The nodes a tag names, found in a block: where their entries start and end, and how deep they are. */
  method Select(src: Message, place: Place, tag: nat, ghost p: Path) returns (range: Option<(nat, nat)>)
    requires src.Valid() && Fits(src.doc, place, p)
    requires AllLeafy(Block(Part(src.doc, place.region), p)) && Paired(Block(Part(src.doc, place.region), p))
    ensures range.Some? <==> First(Block(Part(src.doc, place.region), p), HasTag(tag)) < |Block(Part(src.doc, place.region), p)|
    ensures range.Some? ==>
              && range.value.0 < range.value.1 <= |src.tape|
              && src.tape[range.value.0..range.value.1]
                 == Flat(Named(Block(Part(src.doc, place.region), p), tag), Depth(src.doc, place.region, p))
  {
    hide ImageOf, At, Part, Block, First, HasTag, Tidy, Flat, Depth, Fits, AllLeafy, Spot;
    var found, pair := src.Locate(place, tag, p);
    if found.None? {
      return None;
    }
    SelectedIs(src.doc, place, p, tag, found.value, pair);
    var first := found.value;
    var last := if pair then first + 2 else first + src.tape[first].Span();
    return Some((first, last));
  }

  lemma {:induction false} SelectedIs(doc: Doc, place: Place, p: Path, tag: nat, at: nat, pair: bool)
    requires Fits(doc, place, p)
    requires AllLeafy(Block(Part(doc, place.region), p)) && Paired(Block(Part(doc, place.region), p))
    requires Spot(doc, place.region, p, tag, at, pair)
    ensures at < |ImageOf(doc).tape|
    ensures var last, block := if pair then at + 2 else at + ImageOf(doc).tape[at].Span(), Block(Part(doc, place.region), p);
            && at < last <= |ImageOf(doc).tape|
            && First(block, HasTag(tag)) < |block|
            && ImageOf(doc).tape[at..last] == Flat(Named(block, tag), Depth(doc, place.region, p))
  {
    hide ImageOf, At, Part, Block, First, HasTag, Flat, Depth, Head, Around, Owner;
    var r, block := place.region, Block(Part(doc, place.region), p);
    var ij := Whole(block, First(block, HasTag(tag)));
    BlockSlice(doc, r, p, ij.0, ij.1);
    EntryAt(doc, r, p, ij.0);
    SpanIsSize(block[ij.0], Depth(doc, r, p));
    AtWithin(doc, r, p, ij.1);
    if pair {
      EntryAt(doc, r, p, ij.0 + 1);
      PairSizes(block, First(block, HasTag(tag)));
    }
  }

  lemma {:induction false} PairSizes(block: seq<Node>, k: nat)
    requires k < |block| && Paired(block) && AllLeafy(block) && Whole(block, k).1 == Whole(block, k).0 + 2 <= |block|
    ensures NodeSize(block[Whole(block, k).0]) == 1 && NodeSize(block[Whole(block, k).0 + 1]) == 1
  {
  }

  /** What putting copied nodes in comes to. */
  lemma {:induction false} CopiedIn(doc: Doc, place: Place, p: Path, tag: nat, nodes: seq<Node>)
    requires Tidy(doc) && Fits(doc, place, p) && nodes != [] && NoGap(nodes)
    requires AllLeafy(Block(Part(doc, place.region), p)) && Paired(Block(Part(doc, place.region), p))
    requires Fits(Without(doc, place.region, p, tag), place, p) && Tidy(Without(doc, place.region, p, tag))
    ensures var r, doc1, doc' := place.region, Without(doc, place.region, p, tag), Replaced(doc, place.region, p, place.members, tag, nodes);
            var block1 := Block(Part(doc1, r), p);
            var at := At(doc1, r, p, Position(block1, r == Header && p == [], place.members, nodes[0].entry.tag));
            && AllLeafy(block1) && Depth(doc1, r, p) == Depth(doc, r, p)
            && CanInsert(ImageOf(doc1).tape, place.ancestors, at)
            && ImageOf(doc') == Inserted(ImageOf(doc1), r, place.ancestors, at, Flat(nodes, Depth(doc, r, p)))
            && Tidy(doc') && Fits(doc', place, p)
  {
    hide ImageOf, At, Part, First, Flat, HasTag, CanInsert, Inserted, Around, InsertedNodes, Without, Tidy, Position;
    WithoutStays(doc, place.region, p, tag);
    var r, doc1 := place.region, Without(doc, place.region, p, tag);
    var block1 := Block(Part(doc1, r), p);
    AllLeafyWithin(Block(Part(doc, r), p), block1);
    var k := Position(block1, r == Header && p == [], place.members, nodes[0].entry.tag);
    WithinHeader(doc1, r, p, k);
    PositionInHeader(block1, r == Header && p == [], place.members, nodes[0].entry.tag);
    InsertIntoBlock(doc1, r, p, k, nodes);
    TidyInserted(doc1, r, p, k, nodes);
    FitsInserted(doc1, place, p, k, nodes);
  }

  lemma {:induction false} AllLeafyWithin(a: seq<Node>, b: seq<Node>)
    requires AllLeafy(a) && forall n :: n in b ==> n in a
    ensures AllLeafy(b)
  {
    forall i | 0 <= i < |b| ensures Leafy(b[i]) {
      assert b[i] in a;
    }
  }

  lemma {:induction false} PositionInHeader(block: seq<Node>, header: bool, members: Option<Members>, tag: nat)
    requires header ==> members == None
    ensures header ==> Position(block, header, members, tag) < |block| || !EndsInGap(block)
  {
  }

  lemma {:induction false} FitsInserted(doc: Doc, place: Place, p: Path, k: nat, cs: seq<Node>)
    requires Fits(doc, place, p) && k <= |Block(Part(doc, place.region), p)|
    ensures Fits(InsertedNodes(doc, place.region, p, k, cs), place, p)
  {
    hide Edited, Block, Part, Size, Around, Owner;
    WithinHeader(doc, place.region, p, k);
    if FitsGap(doc, place.region, p, k, cs) {
      FitsEdited(doc, place, p, k, k + 1, cs + Remaining(NodeSize(doc.header[k]), Size(cs)));
    } else {
      FitsEdited(doc, place, p, k, k, cs);
    }
  }

  /** Put entries in, in place of what a tag names. */
  method PutIn(msg: Message, place: Place, tag: nat, entries: seq<Entry>, ghost p: Path, ghost nodes: seq<Node>)
    requires msg.Valid() && Fits(msg.doc, place, p) && !IsFraming(tag)
    requires AllLeafy(Block(Part(msg.doc, place.region), p)) && Paired(Block(Part(msg.doc, place.region), p))
    requires nodes != [] && NoGap(nodes) && entries == Flat(nodes, Depth(msg.doc, place.region, p))
    requires entries != [] && entries[0].tag == nodes[0].entry.tag
    modifies msg`tape, msg`bodyStart, msg`trailerStart, msg`clean, msg`doc
    ensures msg.Valid() && Fits(msg.doc, place, p) && !msg.clean
    ensures msg.doc == Replaced(old(msg.doc), place.region, p, place.members, tag, nodes)
  {
    hide ImageOf, At, Part, Block, First, HasTag, Tidy, Flat, Depth, Inserted, CanInsert, Without, Replaced, Position;
    ghost var was := msg.doc;
    msg.Remove(place, tag, p);
    CopiedIn(was, place, p, tag, nodes);
    var at := msg.InsertPos(place, entries[0].tag, p);
    msg.Insert(place.region, place.ancestors, at, entries);
    msg.doc := Replaced(was, place.region, p, place.members, tag, nodes);
  }

  /** Copy what a tag names from a block of another message, in place of what it names here. */
  method Copy(msg: Message, place: Place, src: Message, from: Place, tag: nat, ghost p: Path, ghost q: Path)
    returns (copied: bool)
    requires msg != src && msg.Valid() && Fits(msg.doc, place, p)
    requires AllLeafy(Block(Part(msg.doc, place.region), p)) && Paired(Block(Part(msg.doc, place.region), p))
    requires src.Valid() && Fits(src.doc, from, q)
    requires FieldBlock(Block(Part(src.doc, from.region), q)) && Paired(Block(Part(src.doc, from.region), q))
    requires var block := Block(Part(src.doc, from.region), q);
             First(block, HasTag(tag)) < |block| ==> AllPresent(src.Segs(), Named(block, tag))
    modifies msg`arena, msg`tape, msg`bodyStart, msg`trailerStart, msg`clean, msg`doc
    ensures msg.Valid() && Fits(msg.doc, place, p)
    ensures var block := Block(Part(src.doc, from.region), q);
            && copied == (!IsFraming(tag) && First(block, HasTag(tag)) < |block|)
            && (!copied ==> msg.doc == old(msg.doc) && msg.arena == old(msg.arena))
            && (copied ==>
                  var c := CopyNodes(src.Segs(), Named(block, tag), old(msg.arena));
                  && msg.arena == c.1 && !msg.clean
                  && msg.doc == Replaced(old(msg.doc), place.region, p, place.members, tag, c.0))
  {
    if IsFraming(tag) {
      return false;
    }
    hide ImageOf, At, Part, Block, First, HasTag, Tidy, Flat, Depth, Replaced, Named, CopyNodes, AllPresent, Paired;
    RangeFits(msg.doc, place, p);
    var start, end, depth := msg.OwnerRange(place.holder);
    ghost var arena := msg.arena;
    var entries := Gather(msg, src, from, tag, depth, q);
    if entries.None? {
      return false;
    }
    PutIn(msg, place, tag, entries.value, p, CopyNodes(src.Segs(), Named(Block(Part(src.doc, from.region), q), tag), arena).0);
    return true;
  }

  /** The entries of what a tag names, copied to a depth; nothing if it names nothing. */
  ghost predicate Gathered(src: Segments, block: seq<Node>, tag: nat, depth: nat, arena: seq<Byte>,
                           entries: Option<seq<Entry>>, arena': seq<Byte>)
    requires Paired(block) && (First(block, HasTag(tag)) < |block| ==> AllPresent(src, Named(block, tag)))
  {
    && (entries.Some? <==> First(block, HasTag(tag)) < |block|)
    && (entries.None? ==> arena' == arena)
    && (entries.Some? ==>
          var c := CopyNodes(src, Named(block, tag), arena);
          && (entries.value, arena') == (Flat(c.0, depth), c.1)
          && c.0 != [] && NoGap(c.0) && entries.value != [] && entries.value[0].tag == c.0[0].entry.tag)
  }

  /** Copy the entries of what a tag names, to a depth. */
  method Gather(msg: Message, src: Message, from: Place, tag: nat, depth: nat, ghost q: Path)
    returns (entries: Option<seq<Entry>>)
    requires msg != src && src.Valid() && Fits(src.doc, from, q)
    requires FieldBlock(Block(Part(src.doc, from.region), q)) && Paired(Block(Part(src.doc, from.region), q))
    requires var block := Block(Part(src.doc, from.region), q);
             First(block, HasTag(tag)) < |block| ==> AllPresent(src.Segs(), Named(block, tag))
    modifies msg`arena
    ensures Gathered(src.Segs(), Block(Part(src.doc, from.region), q), tag, depth, old(msg.arena), entries, msg.arena)
  {
    ghost var block, d := Block(Part(src.doc, from.region), q), Depth(src.doc, from.region, q);
    hide *;
    FieldBlockLeafy(block);
    var range := Select(src, from, tag, q);
    entries := TakeRange(msg, src, range, tag, depth, block, d);
  }

  /** Copy the entries of a range, which are those of what a tag names. */
  method TakeRange(msg: Message, src: Message, range: Option<(nat, nat)>, tag: nat, depth: nat, ghost block: seq<Node>,
                   ghost d: nat)
    returns (entries: Option<seq<Entry>>)
    requires msg != src && Paired(block) && FieldBlock(block)
    requires First(block, HasTag(tag)) < |block| ==> AllPresent(src.Segs(), Named(block, tag))
    requires range.Some? <==> First(block, HasTag(tag)) < |block|
    requires range.Some? ==>
               && range.value.0 < range.value.1 <= |src.tape|
               && src.tape[range.value.0..range.value.1] == Flat(Named(block, tag), d)
    modifies msg`arena
    ensures Gathered(src.Segs(), block, tag, depth, old(msg.arena), entries, msg.arena)
  {
    hide First, HasTag, Flat, Named, CopyNodes, CopyEntries, FieldBlock, AllPresent, Paired, EntriesPresent, Gathered;
    if range.None? {
      NothingGathered(src.Segs(), block, tag, depth, msg.arena);
      return None;
    }
    var es := src.tape[range.value.0..range.value.1];
    EntriesGathered(src.Segs(), block, tag, d, depth, msg.arena);
    var copies := TakeEntries(msg, src.Segs(), es, es[0].depth, depth);
    return Some(copies);
  }

  lemma {:induction false} NothingGathered(src: Segments, block: seq<Node>, tag: nat, depth: nat, arena: seq<Byte>)
    requires Paired(block) && First(block, HasTag(tag)) >= |block|
    ensures Gathered(src, block, tag, depth, arena, None, arena)
  {
    hide First;
  }

  lemma {:induction false} EntriesGathered(src: Segments, block: seq<Node>, tag: nat, d: nat, d': nat, arena: seq<Byte>)
    requires Paired(block) && FieldBlock(block) && First(block, HasTag(tag)) < |block| && AllPresent(src, Named(block, tag))
    ensures var es := Flat(Named(block, tag), d);
            && es != [] && es[0].depth == d && EntriesPresent(src, es)
            && var (entries, arena') := CopyEntries(src, es, d' - d, arena);
               Gathered(src, block, tag, d', arena, Some(entries), arena')
  {
    hide First, HasTag, CopyEntries, CopyNodes, Named, AllPresent, Flat;
    GatheredIs(src, block, tag, d, d', arena);
  }

  /** The entries gathered are the copied nodes', at their new depth. */
  lemma {:induction false} GatheredIs(src: Segments, block: seq<Node>, tag: nat, d: nat, d': nat, arena: seq<Byte>)
    requires Paired(block) && FieldBlock(block) && First(block, HasTag(tag)) < |block| && AllPresent(src, Named(block, tag))
    ensures var es, c := Flat(Named(block, tag), d), CopyNodes(src, Named(block, tag), arena);
            && es != [] && es[0].depth == d
            && EntriesPresent(src, es)
            && CopyEntries(src, es, d' - d, arena) == (Flat(c.0, d'), c.1)
            && c.0 != [] && NoGap(c.0)
            && Flat(c.0, d') != [] && Flat(c.0, d')[0].tag == c.0[0].entry.tag
  {
    hide First, HasTag, CopyEntries, CopyNodes;
    var ns := Named(block, tag);
    NamedSolid(block, tag);
    hide Named;
    CopyFlat(src, ns, d, d', arena);
    CopyKinds(src, ns, arena);
    var c := CopyNodes(src, ns, arena).0;
    HeadKind(c[0], d');
    HeadTag(c[0], d');
  }
}
