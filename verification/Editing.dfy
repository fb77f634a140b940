/**
 * Editing a message (message/edit.rs): splicing the tape. What each operation does to the image is
 * stated on values; that it does the same to the tree is proved beside it.
 */
module Editing {
  import opened Tape
  import opened Document

  // ---------------------------------------------------------------------
  // Surgery on the image
  // ---------------------------------------------------------------------

  /** How many slots the gap at an index has; none if there is no gap. */
  function Room(tape: seq<Entry>, at: nat): nat {
    if at < |tape| && tape[at].kind.Gap? then tape[at].Span() else 0
  }

  /** An index entries can go to, behind the entries around it. */
  predicate CanInsert(tape: seq<Entry>, ancestors: seq<nat>, at: nat) {
    && at <= |tape|
    && (ancestors == [] ==> at + Room(tape, at) <= |tape|)
    && forall i :: 0 <= i < |ancestors| ==> ancestors[i] < at
  }

  function WithShift(im: Image, tape: seq<Entry>, r: Region, n: int): Image {
    var bounds := Shifted(im.bodyStart, im.trailerStart, r, n);
    Image(tape, bounds.0, bounds.1)
  }

  /** Entries inserted: into the gap, if there is one there, it has room and nothing is around; otherwise by a splice. */
  function Inserted(im: Image, r: Region, ancestors: seq<nat>, at: nat, entries: seq<Entry>): Image
    requires CanInsert(im.tape, ancestors, at)
  {
    var room := Room(im.tape, at);
    if ancestors == [] && room > 0 && room >= |entries| then im.(tape := Filled(im.tape, at, room, entries))
    else WithShift(im, Spliced(im.tape, ancestors, at, at, entries), r, |entries|)
  }

  /** The entry at an index can be taken out, with all it spans. */
  predicate CanRemove(tape: seq<Entry>, ancestors: seq<nat>, at: nat) {
    at < |tape| && at + tape[at].Span() <= |tape| && forall i :: 0 <= i < |ancestors| ==> ancestors[i] < at
  }

  function Removed(im: Image, r: Region, ancestors: seq<nat>, at: nat): Image
    requires CanRemove(im.tape, ancestors, at)
  {
    var n: int := im.tape[at].Span();
    WithShift(im, Spliced(im.tape, ancestors, at, at + n, []), r, -n)
  }

  // ---------------------------------------------------------------------
  // Reading the image of a tree
  // ---------------------------------------------------------------------

  /** A block's entries, within the tape. */
  lemma {:induction false} BlockEntry(doc: Doc, r: Region, p: Path, k: nat)
    requires IsBlock(doc, r, p) && k < Size(Block(Part(doc, r), p))
    ensures At(doc, r, p, 0) + k < |ImageOf(doc).tape|
    ensures ImageOf(doc).tape[At(doc, r, p, 0) + k] == Flat(Block(Part(doc, r), p), Depth(doc, r, p))[k]
  {
    var ns, block := Part(doc, r), Block(Part(doc, r), p);
    AtStart(doc, r, p);
    hide ImageOf, Flat, Prefix, Suffix, Block, Size, Offset, Before, Behind, Part, At;
    LaidOut(doc, r);
    BlockInFlat(ns, p, 0);
    Inside(Before(doc, r), Prefix(ns, p, 0, 0, |block|), Flat(block, Depth(doc, r, p)), Suffix(ns, p, 0),
           Behind(doc, r), k);
  }

  lemma {:induction false} AtIs(doc: Doc, r: Region, p: Path, k: nat)
    requires IsBlock(doc, r, p) && k <= |Block(Part(doc, r), p)|
    ensures At(doc, r, p, k) == At(doc, r, p, 0) + Size(Block(Part(doc, r), p)[..k])
  {
  }

  /** A node of a block, and where the next one starts. */
  lemma {:induction false} EntryAt(doc: Doc, r: Region, p: Path, k: nat)
    requires IsBlock(doc, r, p) && k < |Block(Part(doc, r), p)|
    ensures At(doc, r, p, k) < |ImageOf(doc).tape|
    ensures ImageOf(doc).tape[At(doc, r, p, k)] == Head(Block(Part(doc, r), p)[k], Depth(doc, r, p))
    ensures At(doc, r, p, k + 1) == At(doc, r, p, k) + NodeSize(Block(Part(doc, r), p)[k])
  {
    hide ImageOf, Flat, Block, Head, Size, Part, At, Depth;
    AtIs(doc, r, p, k);
    AtIs(doc, r, p, k + 1);
    SiblingAt(Block(Part(doc, r), p), k, Depth(doc, r, p));
    BlockEntry(doc, r, p, Size(Block(Part(doc, r), p)[..k]));
  }

  /** A node's entries. */
  lemma {:induction false} NodeSlice(doc: Doc, r: Region, p: Path, k: nat)
    requires IsBlock(doc, r, p) && k < |Block(Part(doc, r), p)|
    ensures At(doc, r, p, k) <= At(doc, r, p, k + 1) <= |ImageOf(doc).tape|
    ensures ImageOf(doc).tape[At(doc, r, p, k)..At(doc, r, p, k + 1)]
            == FlatNode(Block(Part(doc, r), p)[k], Depth(doc, r, p))
  {
    hide ImageOf, Flat, FlatNode, Block, Size, Part, At, Depth, Head;
    var block, d := Block(Part(doc, r), p), Depth(doc, r, p);
    EntryAt(doc, r, p, k);
    AtIs(doc, r, p, k);
    AtWithin(doc, r, p, k + 1);
    FlatAround(block, k, d);
    var a, n, c := Flat(block[..k], d), FlatNode(block[k], d), Flat(block[k + 1..], d);
    forall i | 0 <= i < |n|
      ensures ImageOf(doc).tape[At(doc, r, p, k)..At(doc, r, p, k + 1)][i] == n[i]
    {
      BlockEntry(doc, r, p, Size(block[..k]) + i);
      Between(a, n, c, i);
    }
  }

  lemma {:induction false} Inside(a: seq<Entry>, b: seq<Entry>, c: seq<Entry>, e: seq<Entry>, f: seq<Entry>, k: nat)
    requires k < |c|
    ensures (a + (b + c + e) + f)[|a| + |b| + k] == c[k]
  {
  }

  /** The end of a block, within the tape. */
  lemma {:induction false} EndAt(doc: Doc, r: Region, p: Path)
    requires IsBlock(doc, r, p)
    ensures At(doc, r, p, |Block(Part(doc, r), p)|) == At(doc, r, p, 0) + Size(Block(Part(doc, r), p))
    ensures At(doc, r, p, |Block(Part(doc, r), p)|) <= |ImageOf(doc).tape|
  {
    var ns, block := Part(doc, r), Block(Part(doc, r), p);
    hide Block, Flat, Offset;
    assert block[..|block|] == block;
    LaidOut(doc, r);
    SetBlockSize(ns, p, block);
  }

  lemma {:induction false} AtWithin(doc: Doc, r: Region, p: Path, k: nat)
    requires IsBlock(doc, r, p) && k <= |Block(Part(doc, r), p)|
    ensures At(doc, r, p, 0) <= At(doc, r, p, k) <= At(doc, r, p, |Block(Part(doc, r), p)|) <= |ImageOf(doc).tape|
  {
    var block := Block(Part(doc, r), p);
    hide ImageOf, Block, Offset;
    EndAt(doc, r, p);
    assert block == block[..k] + block[k..];
    SizeAppend(block[..k], block[k..]);
  }

  /** The group or instance a block is in. */
  lemma {:induction false} OwnerEntry(doc: Doc, r: Region, p: Path)
    requires IsBlock(doc, r, p) && p != []
    ensures var at := Around(doc, r, p)[|p| - 1];
            && at + 1 == At(doc, r, p, 0)
            && at < |ImageOf(doc).tape|
            && ImageOf(doc).tape[at] == Head(Owner(Part(doc, r), p), OwnerDepth(Part(doc, r), p, 0))
  {
    hide ImageOf, Flat, Head, Offset, Before, Behind, Part, Ancestors, Owner, OwnerDepth, Start, At, Spanned, Block;
    AtStart(doc, r, p);
    OwnerAt(Part(doc, r), p, 0, Start(doc, r));
    LaidOut(doc, r);
    Between(Before(doc, r), Flat(Part(doc, r), 0), Behind(doc, r), Around(doc, r, p)[|p| - 1] - Start(doc, r));
  }

  lemma {:induction false} AtStart(doc: Doc, r: Region, p: Path)
    requires IsBlock(doc, r, p)
    ensures At(doc, r, p, 0) == Start(doc, r) + Offset(Part(doc, r), p)
    ensures p != [] ==> Around(doc, r, p)[|p| - 1] == Ancestors(Part(doc, r), p, Start(doc, r))[|p| - 1]
  {
  }

  lemma {:induction false} Between(a: seq<Entry>, b: seq<Entry>, c: seq<Entry>, k: nat)
    requires k < |b|
    ensures (a + b + c)[|a| + k] == b[k]
  {
  }

  // ---------------------------------------------------------------------
  // Gaps are only where the header ends
  // ---------------------------------------------------------------------

  predicate NoGap(ns: seq<Node>) {
    forall i :: 0 <= i < |ns| ==> !ns[i].entry.kind.Gap?
  }

  predicate Tidy(doc: Doc) {
    && NoGap(doc.body)
    && NoGap(doc.trailer)
    && forall i :: 0 <= i < |doc.header| && doc.header[i].entry.kind.Gap? ==>
         i == |doc.header| - 1 && doc.header[i] == GapNode(NodeSize(doc.header[i]))
  }

  lemma {:induction false} HeadKind(n: Node, depth: nat)
    ensures Head(n, depth).kind == n.entry.kind
    ensures n.entry.kind.Gap? ==> Head(n, depth).Span() == NodeSize(n)
  {
  }

  lemma {:induction false} RoomAt(doc: Doc, r: Region, k: nat)
    requires Tidy(doc) && k <= |Part(doc, r)|
    ensures Room(ImageOf(doc).tape, At(doc, r, [], k))
            == if k < |Part(doc, r)| && Part(doc, r)[k].entry.kind.Gap? then NodeSize(Part(doc, r)[k]) else 0
    ensures k < |Part(doc, r)| && Part(doc, r)[k].entry.kind.Gap? ==> r == Header
  {
    hide Flat, Head;
    if k < |Part(doc, r)| {
      EntryAt(doc, r, [], k);
      HeadKind(Part(doc, r)[k], 0);
    } else {
      assert Part(doc, r)[..k] == Part(doc, r);
      if r == Header && doc.body != [] {
        EntryAt(doc, Body, [], 0);
        HeadKind(doc.body[0], 0);
      } else if r != Trailer && doc.trailer != [] {
        EntryAt(doc, Trailer, [], 0);
        HeadKind(doc.trailer[0], 0);
      }
    }
  }

  // ---------------------------------------------------------------------
  // Surgery on the image is surgery on the tree
  // ---------------------------------------------------------------------

  /** Nodes inserted before the `k`th of a block: where that is the header gap, and it has room, in its place. */
  function InsertedNodes(doc: Doc, r: Region, p: Path, k: nat, cs: seq<Node>): Doc
    requires IsBlock(doc, r, p) && k <= |Block(Part(doc, r), p)|
  {
    if r == Header && p == [] && k < |doc.header| && doc.header[k].entry.kind.Gap? && NodeSize(doc.header[k]) >= Size(cs)
    then Edited(doc, Header, [], k, k + 1, cs + Remaining(NodeSize(doc.header[k]), Size(cs)))
    else Edited(doc, r, p, k, k, cs)
  }

  predicate FitsGap(doc: Doc, r: Region, p: Path, k: nat, cs: seq<Node>) {
    r == Header && p == [] && k < |doc.header| && doc.header[k].entry.kind.Gap? && NodeSize(doc.header[k]) >= Size(cs)
  }

  /** What an insertion into a block comes to; the count of a group is still to be set. */
  predicate InsertIs(doc: Doc, r: Region, p: Path, k: nat, cs: seq<Node>, doc': Doc)
    requires IsBlock(doc, r, p) && k <= |Block(Part(doc, r), p)|
  {
    var at, a := Around(doc, r, p), At(doc, r, p, k);
    && CanInsert(ImageOf(doc).tape, at, a)
    && var im := Inserted(ImageOf(doc), r, at, a, Flat(cs, Depth(doc, r, p)));
       && (forall i :: 0 <= i < |at| ==> at[i] < |im.tape|)
       && ImageOf(doc') == im.(tape := Recounted(im.tape, at, |Block(Part(doc, r), p)| + |cs|))
  }

  lemma {:induction false} InsertByFilling(doc: Doc, k: nat, cs: seq<Node>)
    requires Tidy(doc) && FitsGap(doc, Header, [], k, cs) && cs != []
    ensures InsertIs(doc, Header, [], k, cs,
                     Edited(doc, Header, [], k, k + 1, cs + Remaining(NodeSize(doc.header[k]), Size(cs))))
  {
    assert Size(cs) >= 1;
    RoomAt(doc, Header, k);
    FillRefines(doc, k, cs);
    hide ImageOf, Flat, Filled, Spliced, Edited, Remaining, At;
  }

  lemma {:induction false} InsertBySplicing(doc: Doc, r: Region, p: Path, k: nat, cs: seq<Node>)
    requires Tidy(doc) && IsBlock(doc, r, p) && k <= |Block(Part(doc, r), p)| && cs != []
    requires !FitsGap(doc, r, p, k, cs)
    ensures InsertIs(doc, r, p, k, cs, Edited(doc, r, p, k, k, cs))
  {
    hide ImageOf, Flat, Spliced, Edited, At, Ancestors, Recounted, Shifted, Inserted, Part, Block, Exchanged, Spanned,
         ValidPath, FitsGap, Tidy;
    SpliceRefines(doc, r, p, k, k, cs);
    ExchangedCount(Block(Part(doc, r), p), k, cs);
    if p == [] {
      NoRoom(doc, r, k, cs);
    }
    InsertedBySplice(ImageOf(doc), r, Around(doc, r, p), At(doc, r, p, k), Flat(cs, Depth(doc, r, p)));
  }

  lemma {:induction false} ExchangedCount(block: seq<Node>, k: nat, cs: seq<Node>)
    requires k <= |block|
    ensures |Exchanged(block, k, k, cs)| == |block| + |cs|
  {
  }

  lemma {:induction false} InsertedBySplice(im: Image, r: Region, at: seq<nat>, a: nat, entries: seq<Entry>)
    requires a <= |im.tape| && forall i :: 0 <= i < |at| ==> at[i] < a
    requires at == [] ==> Room(im.tape, a) < |entries| && a + Room(im.tape, a) <= |im.tape|
    ensures Inserted(im, r, at, a, entries) == WithShift(im, Spliced(im.tape, at, a, a, entries), r, |entries|)
    ensures |Inserted(im, r, at, a, entries).tape| >= a
  {
  }

  lemma {:induction false} NoRoom(doc: Doc, r: Region, k: nat, cs: seq<Node>)
    requires Tidy(doc) && k <= |Block(Part(doc, r), [])| && cs != [] && !FitsGap(doc, r, [], k, cs)
    ensures Room(ImageOf(doc).tape, At(doc, r, [], k)) < |Flat(cs, 0)|
    ensures At(doc, r, [], k) + Room(ImageOf(doc).tape, At(doc, r, [], k)) <= |ImageOf(doc).tape|
  {
    RoomAt(doc, r, k);
    hide ImageOf, Flat, Head, At;
    if k < |Part(doc, r)| {
      EntryAt(doc, r, [], k);
      AtWithin(doc, r, [], k + 1);
    } else {
      AtWithin(doc, r, [], k);
    }
  }

  /** Insertion, into the gap or by a splice, is insertion of nodes. */
  lemma {:induction false} InsertRefines(doc: Doc, r: Region, p: Path, k: nat, cs: seq<Node>)
    requires Tidy(doc) && IsBlock(doc, r, p) && k <= |Block(Part(doc, r), p)| && cs != []
    ensures InsertIs(doc, r, p, k, cs, InsertedNodes(doc, r, p, k, cs))
  {
    hide InsertIs, Edited, Remaining, Size, Block, Part;
    if FitsGap(doc, r, p, k, cs) {
      InsertByFilling(doc, k, cs);
    } else {
      InsertBySplicing(doc, r, p, k, cs);
    }
  }

  /** A block fields go in: a region, or an instance. Its owner has no count. */
  predicate HoldsFields(doc: Doc, r: Region, p: Path) {
    IsBlock(doc, r, p) && (p != [] ==> Owner(Part(doc, r), p).entry.kind.Instance?)
  }

  lemma {:induction false} InsertedStays(doc: Doc, r: Region, p: Path, k: nat, cs: seq<Node>)
    requires IsBlock(doc, r, p) && k <= |Block(Part(doc, r), p)|
    ensures var doc' := InsertedNodes(doc, r, p, k, cs);
            && IsBlock(doc', r, p)
            && Around(doc', r, p) == Around(doc, r, p)
            && (HoldsFields(doc, r, p) ==> HoldsFields(doc', r, p))
  {
    SetBlockStays(Part(doc, r), p, Exchanged(Block(Part(doc, r), p), k, k, cs), Start(doc, r), 0);
  }

  /** There is no count to set in a block that holds fields. */
  lemma {:induction false} NoCount(doc: Doc, r: Region, p: Path, tape: seq<Entry>, count: nat)
    requires HoldsFields(doc, r, p)
    requires forall i :: 0 <= i < |p| ==> Around(doc, r, p)[i] < |tape|
    requires ImageOf(doc).tape == Recounted(tape, Around(doc, r, p), count)
    ensures ImageOf(doc).tape == tape
  {
    hide ImageOf, Ancestors, Owner, OwnerDepth, Part, Head, ValidPath, Spanned;
    if p != [] {
      OwnerEntry(doc, r, p);
      HeadKind(Owner(Part(doc, r), p), OwnerDepth(Part(doc, r), p, 0));
      SameKind(tape, Around(doc, r, p), count);
    }
  }

  lemma {:induction false} SameKind(tape: seq<Entry>, at: seq<nat>, count: nat)
    requires at != [] && forall i :: 0 <= i < |at| ==> at[i] < |tape|
    ensures var last := at[|at| - 1];
            && Recounted(tape, at, count)[last].kind == tape[last].kind
            && (!tape[last].kind.Group? ==> Recounted(tape, at, count) == tape)
  {
  }

  /** In a region or an instance, insertion leaves the tape as it should be. */
  lemma {:induction false} InsertIntoBlock(doc: Doc, r: Region, p: Path, k: nat, cs: seq<Node>)
    requires Tidy(doc) && HoldsFields(doc, r, p) && k <= |Block(Part(doc, r), p)| && cs != []
    ensures CanInsert(ImageOf(doc).tape, Around(doc, r, p), At(doc, r, p, k))
    ensures ImageOf(InsertedNodes(doc, r, p, k, cs))
            == Inserted(ImageOf(doc), r, Around(doc, r, p), At(doc, r, p, k), Flat(cs, Depth(doc, r, p)))
  {
    hide ImageOf, InsertedNodes, Around, At, Inserted, CanInsert, Depth, Recounted, Flat, Tidy, Block, Part, Owner;
    InsertRefines(doc, r, p, k, cs);
    InsertedStays(doc, r, p, k, cs);
    hide HoldsFields;
    NoCount(InsertedNodes(doc, r, p, k, cs), r, p,
            Inserted(ImageOf(doc), r, Around(doc, r, p), At(doc, r, p, k), Flat(cs, Depth(doc, r, p))).tape,
            |Block(Part(doc, r), p)| + |cs|);
  }

  /** A field has nothing below it. */
  predicate Leafy(n: Node) {
    n.entry.IsField() ==> n.kids == []
  }

  /** What a removal from a block comes to; the count of a group is still to be set. */
  predicate RemoveIs(doc: Doc, r: Region, p: Path, k: nat, doc': Doc)
    requires IsBlock(doc, r, p) && k < |Block(Part(doc, r), p)|
  {
    var at, a := Around(doc, r, p), At(doc, r, p, k);
    && CanRemove(ImageOf(doc).tape, at, a)
    && var im := Removed(ImageOf(doc), r, at, a);
       && (forall i :: 0 <= i < |at| ==> at[i] < |im.tape|)
       && ImageOf(doc') == im.(tape := Recounted(im.tape, at, |Block(Part(doc, r), p)| - 1))
  }

  lemma {:induction false} SpanIsSize(n: Node, depth: nat)
    requires Leafy(n)
    ensures Head(n, depth).Span() == NodeSize(n)
  {
  }

  /** Taking out an entry with all it spans is taking out a node. */
  lemma {:induction false} RemoveRefines(doc: Doc, r: Region, p: Path, k: nat)
    requires IsBlock(doc, r, p) && k < |Block(Part(doc, r), p)| && Leafy(Block(Part(doc, r), p)[k])
    ensures RemoveIs(doc, r, p, k, Edited(doc, r, p, k, k + 1, []))
  {
    hide ImageOf, Flat, Spliced, Edited, At, Ancestors, Recounted, Shifted, Part, Block, Exchanged, Spanned, ValidPath,
         Head, Leafy;
    var block := Block(Part(doc, r), p);
    SpliceRefines(doc, r, p, k, k + 1, []);
    EntryAt(doc, r, p, k);
    SpanIsSize(block[k], Depth(doc, r, p));
    NothingFlat(Depth(doc, r, p));
    RemovedCount(block, k);
    RemovedBySplice(ImageOf(doc), r, Around(doc, r, p), At(doc, r, p, k));
  }

  lemma {:induction false} RemovedBySplice(im: Image, r: Region, at: seq<nat>, a: nat)
    requires CanRemove(im.tape, at, a)
    ensures Removed(im, r, at, a) == WithShift(im, Spliced(im.tape, at, a, a + im.tape[a].Span(), []), r, 0 - im.tape[a].Span())
    ensures |Removed(im, r, at, a).tape| >= a
  {
  }

  lemma {:induction false} NothingFlat(depth: nat)
    ensures Flat([], depth) == [] && Size([]) == 0
  {
  }

  lemma {:induction false} RemovedCount(block: seq<Node>, k: nat)
    requires k < |block|
    ensures |Exchanged(block, k, k + 1, [])| == |block| - 1
  {
  }

  lemma {:induction false} EditedStays(doc: Doc, r: Region, p: Path, i: nat, j: nat, cs: seq<Node>)
    requires IsBlock(doc, r, p) && i <= j <= |Block(Part(doc, r), p)|
    ensures var doc' := Edited(doc, r, p, i, j, cs);
            && IsBlock(doc', r, p)
            && Block(Part(doc', r), p) == Exchanged(Block(Part(doc, r), p), i, j, cs)
            && Around(doc', r, p) == Around(doc, r, p)
            && Depth(doc', r, p) == Depth(doc, r, p)
            && (HoldsFields(doc, r, p) ==> HoldsFields(doc', r, p))
            && (p != [] ==> Owner(Part(doc', r), p).entry == Owner(Part(doc, r), p).entry)
  {
    SetBlockStays(Part(doc, r), p, Exchanged(Block(Part(doc, r), p), i, j, cs), Start(doc, r), 0);
  }

  /** In a region or an instance, removal leaves the tape as it should be. */
  lemma {:induction false} RemoveFromBlock(doc: Doc, r: Region, p: Path, k: nat)
    requires HoldsFields(doc, r, p) && k < |Block(Part(doc, r), p)| && Leafy(Block(Part(doc, r), p)[k])
    ensures CanRemove(ImageOf(doc).tape, Around(doc, r, p), At(doc, r, p, k))
    ensures ImageOf(Edited(doc, r, p, k, k + 1, []))
            == Removed(ImageOf(doc), r, Around(doc, r, p), At(doc, r, p, k))
  {
    hide ImageOf, Edited, Around, At, Removed, CanRemove, Depth, Recounted, Block, Part, Owner, Leafy;
    RemoveRefines(doc, r, p, k);
    EditedStays(doc, r, p, k, k + 1, []);
    hide HoldsFields;
    NoCount(Edited(doc, r, p, k, k + 1, []), r, p,
            Removed(ImageOf(doc), r, Around(doc, r, p), At(doc, r, p, k)).tape, |Block(Part(doc, r), p)| - 1);
  }
}