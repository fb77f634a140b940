/**
 * Editing in place (message/edit.rs). `Message` holds tape, boundaries and bytes, and a ghost `doc`
 * they stand for; every method's contract says which tree operation it performs on `doc`.
 */
module Messages {
  import opened Tape
  import opened Document
  import opened Editing
  import opened Lookup
  import opened Numerals
  import opened Storage

  // ---------------------------------------------------------------------
  // Views
  // ---------------------------------------------------------------------

  /** Which block a view edits: a region, or the instance at an index. */
  datatype Holder = InRegion(region: Region) | InInstance(at: nat)

  /** What may be in an instance, tag by tag, and in which order. */
  type Members = map<nat, nat>

  /** Where a view's block is. */
  datatype Place = Place(holder: Holder, region: Region, members: Option<Members>, ancestors: seq<nat>)

  /** The place of the block at a path. */
  ghost predicate Fits(doc: Doc, place: Place, p: Path) {
    && HoldsFields(doc, place.region, p)
    && place.ancestors == Around(doc, place.region, p)
    && place.holder == (if p == [] then InRegion(place.region) else InInstance(place.ancestors[|p| - 1]))
    && (p == [] ==> place.members == None)
  }

  /** The start, end and depth of a view's block. */
  function Range(im: Image, holder: Holder): (nat, nat, nat)
    requires holder.InInstance? ==> holder.at < |im.tape|
  {
    match holder
    case InRegion(Header) => (0, im.bodyStart, 0)
    case InRegion(Body) => (im.bodyStart, im.trailerStart, 0)
    case InRegion(Trailer) => (im.trailerStart, |im.tape|, 0)
    case InInstance(q) => (q + 1, q + im.tape[q].Span(), im.tape[q].depth)
  }

  lemma {:induction false} RegionRange(doc: Doc, r: Region)
    ensures Range(ImageOf(doc), InRegion(r)) == (At(doc, r, [], 0), At(doc, r, [], |Part(doc, r)|), Depth(doc, r, []))
  {
    hide Flat;
    assert Part(doc, r)[..|Part(doc, r)|] == Part(doc, r);
  }

  /** A view's range is its block's. */
  lemma {:induction false} RangeFits(doc: Doc, place: Place, p: Path)
    requires Fits(doc, place, p)
    ensures place.holder.InInstance? ==> place.holder.at < |ImageOf(doc).tape|
    ensures Range(ImageOf(doc), place.holder)
            == (At(doc, place.region, p, 0), At(doc, place.region, p, |Block(Part(doc, place.region), p)|),
                Depth(doc, place.region, p))
  {
    var r := place.region;
    if p == [] {
      RegionRange(doc, r);
    } else {
      OwnerEntry(doc, r, p);
      EndAt(doc, r, p);
    }
  }

  // ---------------------------------------------------------------------
  // Where a new entry goes
  // ---------------------------------------------------------------------

  /** Members that come later in the group's definition. */
  function Later(members: Members, order: nat): Test {
    (t, k: Kind) => !k.Gap? && !k.Instance? && t in members && members[t] > order
  }

  /** Whether the last node of a header is a gap. */
  predicate EndsInGap(ns: seq<Node>) {
    ns != [] && ns[|ns| - 1].entry.kind.Gap?
  }

  /** The child a new entry goes in front of: by the definition's order where there is one, else last, but for the header's gap. */
  function Position(block: seq<Node>, header: bool, members: Option<Members>, tag: nat): (k: nat)
    ensures k <= |block|
  {
    match members
    case Some(m) => if tag in m then First(block, Later(m, m[tag])) else |block|
    case None => if header && EndsInGap(block) then |block| - 1 else |block|
  }

  /** The gap that ends at `end`, looking from `i`. */
  function GapFrom(tape: seq<Entry>, i: nat, end: nat): Option<nat>
    requires end <= |tape|
    decreases end - i
  {
    if i >= end then None
    else if tape[i].kind.Gap? && i + tape[i].Span() == end then Some(i)
    else GapFrom(tape, i + tape[i].Span(), end)
  }

  lemma {:induction false} GapFromIs(doc: Doc, i: nat)
    requires i <= |doc.header| && AllLeafy(doc.header)
    ensures Size(doc.header) <= |ImageOf(doc).tape|
    ensures GapFrom(ImageOf(doc).tape, At(doc, Header, [], i), Size(doc.header))
            == if i < |doc.header| && EndsInGap(doc.header) then Some(At(doc, Header, [], |doc.header| - 1)) else None
    decreases |doc.header| - i
  {
    hide Flat, Head, Leafy, ImageOf;
    RegionRange(doc, Header);
    AtWithin(doc, Header, [], i);
    assert doc.header[..|doc.header|] == doc.header;
    if i < |doc.header| {
      EntryAt(doc, Header, [], i);
      HeadKind(doc.header[i], 0);
      SpanIsSize(doc.header[i], 0);
      AtOrdered(doc, Header, [], i + 1, |doc.header|);
      GapFromIs(doc, i + 1);
    }
  }

  /** The header's gap is its last node. */
  lemma {:induction false} HeaderGapIs(doc: Doc)
    requires AllLeafy(Block(Part(doc, Header), []))
    ensures ImageOf(doc).bodyStart <= |ImageOf(doc).tape|
    ensures var block := Block(Part(doc, Header), []);
            GapFrom(ImageOf(doc).tape, 0, ImageOf(doc).bodyStart)
            == if EndsInGap(block) then Some(At(doc, Header, [], |block| - 1)) else None
  {
    GapFromIs(doc, 0);
  }

  lemma {:induction false} LaterSkipsGaps(members: Members, order: nat)
    ensures SkipsGaps(Later(members, order))
  {
  }

  // ---------------------------------------------------------------------
  // Overwriting entries
  // ---------------------------------------------------------------------

  lemma {:induction false} NoGrowth(tape: seq<Entry>, at: seq<nat>)
    requires forall i :: 0 <= i < |at| ==> at[i] < |tape|
    ensures GrowAll(tape, at, 0) == tape
    decreases |at|
  {
    if at != [] {
      assert tape[at[0] := Grow(tape[at[0]], 0)] == tape;
      NoGrowth(tape, at[1..]);
    }
  }

  /** The tape with some entries overwritten by as many. */
  function Overwritten(tape: seq<Entry>, at: nat, entries: seq<Entry>): seq<Entry>
    requires at + |entries| <= |tape|
  {
    tape[..at] + entries + tape[at + |entries|..]
  }

  /** Overwriting the entries of some nodes with those of others that take as many is exchanging them. */
  lemma {:induction false} OverwriteRefines(doc: Doc, r: Region, p: Path, i: nat, j: nat, cs: seq<Node>)
    requires HoldsFields(doc, r, p) && i <= j <= |Block(Part(doc, r), p)|
    requires Size(cs) == At(doc, r, p, j) - At(doc, r, p, i)
    ensures At(doc, r, p, j) <= |ImageOf(doc).tape|
    ensures ImageOf(Edited(doc, r, p, i, j, cs))
            == ImageOf(doc).(tape := Overwritten(ImageOf(doc).tape, At(doc, r, p, i), Flat(cs, Depth(doc, r, p))))
  {
    hide ImageOf, Edited, Around, At, Recounted, Exchanged, Flat, Spliced, Part, Block, Size, Overwritten;
    SpliceRefines(doc, r, p, i, j, cs);
    EditedStays(doc, r, p, i, j, cs);
    SameBounds(ImageOf(doc), r, Size(cs) - (At(doc, r, p, j) - At(doc, r, p, i)));
    var im, at := ImageOf(doc), Around(doc, r, p);
    var lo, hi, entries := At(doc, r, p, i), At(doc, r, p, j), Flat(cs, Depth(doc, r, p));
    SpliceSame(im.tape, at, lo, entries);
    NoCount(Edited(doc, r, p, i, j, cs), r, p, Spliced(im.tape, at, lo, hi, entries),
            |Exchanged(Block(Part(doc, r), p), i, j, cs)|);
  }

  lemma {:induction false} SameBounds(im: Image, r: Region, n: int)
    requires n == 0
    ensures Shifted(im.bodyStart, im.trailerStart, r, n) == (im.bodyStart, im.trailerStart)
  {
  }

  lemma {:induction false} SpliceSame(tape: seq<Entry>, at: seq<nat>, lo: nat, entries: seq<Entry>)
    requires lo + |entries| <= |tape| && forall i :: 0 <= i < |at| ==> at[i] < lo
    ensures Spliced(tape, at, lo, lo + |entries|, entries) == Overwritten(tape, lo, entries)
    ensures |Overwritten(tape, lo, entries)| == |tape|
  {
    NoGrowth(tape[..lo], at);
  }

  // ---------------------------------------------------------------------
  // The operations, on trees
  // ---------------------------------------------------------------------

  /** Fields as nodes. */
  function Leaves(entries: seq<Entry>): (ns: seq<Node>)
    ensures |ns| == |entries| && forall i :: 0 <= i < |ns| ==> ns[i] == Node(entries[i], [])
  {
    seq(|entries|, i requires 0 <= i < |entries| => Node(entries[i], []))
  }

  predicate AllFields(entries: seq<Entry>) {
    forall i :: 0 <= i < |entries| ==> entries[i].IsField()
  }

  function AtDepth(entries: seq<Entry>, depth: nat): (s: seq<Entry>)
    ensures |s| == |entries| && forall i :: 0 <= i < |s| ==> s[i] == entries[i].(depth := depth)
  {
    seq(|entries|, i requires 0 <= i < |entries| => entries[i].(depth := depth))
  }

  lemma {:induction false} LeavesFlat(entries: seq<Entry>, depth: nat)
    requires AllFields(entries)
    ensures Flat(Leaves(entries), depth) == AtDepth(entries, depth)
    ensures Size(Leaves(entries)) == |entries|
    decreases |entries|
  {
    if entries != [] {
      hide FlatNode, NodeSize;
      LeavesFlat(entries[1..], depth);
      LeafFlat(entries[0], depth);
      assert Leaves(entries)[1..] == Leaves(entries[1..]);
      assert AtDepth(entries, depth) == [entries[0].(depth := depth)] + AtDepth(entries[1..], depth);
    }
  }

  lemma {:induction false} LeafFlat(e: Entry, depth: nat)
    requires e.IsField()
    ensures FlatNode(Node(e, []), depth) == [e.(depth := depth)] && NodeSize(Node(e, [])) == 1
  {
  }

  /** One plain entry, or two that belong together. */
  predicate FieldOrPair(entries: seq<Entry>) {
    && AllFields(entries)
    && if |entries| == 1 then entries[0].kind.Field?
       else |entries| == 2 && entries[0].kind.DataLen? && entries[1].kind.Data?
  }

  /** Where a tag's field already is, it is one of the same kind: a single field, or a data field behind its Length. */
  predicate KindAgrees(block: seq<Node>, tag: nat, pair: bool) {
    var k := First(block, HasTag(tag));
    k < |block| ==>
      if pair then k > 0 && block[k].entry.kind.Data? && block[k - 1].entry.kind.DataLen?
      else block[k].entry.kind.Field?
  }

  predicate KindsAgree(block: seq<Node>, entries: seq<Entry>)
    requires FieldOrPair(entries)
  {
    KindAgrees(block, entries[|entries| - 1].tag, |entries| == 2)
  }

  /** Fresh entries put in a block: in place of those with the tag, or where a new entry goes. */
  function Put(doc: Doc, r: Region, p: Path, members: Option<Members>, entries: seq<Entry>): Doc
    requires IsBlock(doc, r, p) && FieldOrPair(entries) && KindsAgree(Block(Part(doc, r), p), entries)
  {
    var block := Block(Part(doc, r), p);
    var k := First(block, HasTag(entries[|entries| - 1].tag));
    if k < |block| then Edited(doc, r, p, k + 1 - |entries|, k + 1, Leaves(entries))
    else InsertedNodes(doc, r, p, Position(block, r == Header && p == [], members, entries[0].tag), Leaves(entries))
  }

  /** The range of nodes that is taken out, or copied, with the one at `k`. */
  function Whole(block: seq<Node>, k: nat): (ij: (nat, nat))
    requires k < |block|
    ensures ij.0 <= ij.1
  {
    if block[k].entry.kind.Data? then (if k == 0 then 0 else k - 1, k + 1)
    else if block[k].entry.kind.DataLen? then (k, k + 2)
    else (k, k + 1)
  }

  /** Lengths are followed by their data, and data preceded by its Length. */
  predicate Paired(block: seq<Node>) {
    && (forall k :: 0 <= k < |block| && block[k].entry.kind.DataLen? ==> k + 1 < |block| && block[k + 1].entry.kind.Data?)
    && (forall k :: 0 <= k < |block| && block[k].entry.kind.Data? ==> k > 0 && block[k - 1].entry.kind.DataLen?)
  }

  /** A field, with its Length or its data, or a whole group removed. */
  function Without(doc: Doc, r: Region, p: Path, tag: nat): Doc
    requires IsBlock(doc, r, p) && Paired(Block(Part(doc, r), p))
  {
    var block := Block(Part(doc, r), p);
    var k := First(block, HasTag(tag));
    if k < |block| then Edited(doc, r, p, Whole(block, k).0, Whole(block, k).1, []) else doc
  }

  /** Where the nodes a tag names start, and whether there are two. */
  predicate Spot(doc: Doc, r: Region, p: Path, tag: nat, at: nat, pair: bool)
    requires IsBlock(doc, r, p)
  {
    var block := Block(Part(doc, r), p);
    var k := First(block, HasTag(tag));
    && k < |block|
    && var ij := Whole(block, k);
       && ij.1 == (if pair then ij.0 + 2 else ij.0 + 1) <= |block|
       && at == At(doc, r, p, ij.0)
  }

  lemma {:induction false} WithoutNone(doc: Doc, r: Region, p: Path, tag: nat)
    requires IsBlock(doc, r, p) && Paired(Block(Part(doc, r), p))
    requires First(Block(Part(doc, r), p), HasTag(tag)) >= |Block(Part(doc, r), p)|
    ensures Without(doc, r, p, tag) == doc
  {
  }

  // ---------------------------------------------------------------------
  // Gaps stay where the header ends
  // ---------------------------------------------------------------------

  lemma {:induction false} TidyEdited(doc: Doc, r: Region, p: Path, i: nat, j: nat, cs: seq<Node>)
    requires Tidy(doc) && IsBlock(doc, r, p) && i <= j <= |Block(Part(doc, r), p)| && NoGap(cs)
    requires r == Header && p == [] && cs != [] ==> i < |doc.header| || !EndsInGap(doc.header)
    ensures Tidy(Edited(doc, r, p, i, j, cs))
  {
    hide Size, NodeSize, Exchanged;
    if p == [] {
      TidyExchanged(doc, r, i, j, cs);
    } else {
      var ns, ns' := Part(doc, r), Part(Edited(doc, r, p, i, j, cs), r);
      assert |ns'| == |ns| && forall k :: 0 <= k < |ns| ==> ns'[k].entry == ns[k].entry && (k != p[0] ==> ns'[k] == ns[k]);
    }
  }

  lemma {:induction false} TidyExchanged(doc: Doc, r: Region, i: nat, j: nat, cs: seq<Node>)
    requires Tidy(doc) && i <= j <= |Part(doc, r)| && NoGap(cs)
    requires r == Header && cs != [] ==> i < |doc.header| || !EndsInGap(doc.header)
    ensures Tidy(WithPart(doc, r, Exchanged(Part(doc, r), i, j, cs)))
  {
    hide Size, NodeSize;
    if r == Header {
      GapExchanged(doc.header, i, j, cs);
    }
  }

  lemma {:induction false} GapExchanged(ns: seq<Node>, i: nat, j: nat, cs: seq<Node>)
    requires i <= j <= |ns| && NoGap(cs) && (cs != [] ==> i < |ns| || !EndsInGap(ns))
    requires forall k :: 0 <= k < |ns| - 1 ==> !ns[k].entry.kind.Gap?
    ensures var ns' := Exchanged(ns, i, j, cs);
            forall k :: 0 <= k < |ns'| && ns'[k].entry.kind.Gap? ==> k == |ns'| - 1 && ns'[k] == ns[|ns| - 1]
  {
    if i == |ns| {
      assert Exchanged(ns, i, j, cs) == ns + cs;
    } else {
      assert NoGap(ns[..i] + cs);
    }
  }

  lemma {:induction false} TidyInserted(doc: Doc, r: Region, p: Path, k: nat, cs: seq<Node>)
    requires Tidy(doc) && IsBlock(doc, r, p) && k <= |Block(Part(doc, r), p)| && NoGap(cs)
    requires r == Header && p == [] ==> k < |doc.header| || !EndsInGap(doc.header)
    ensures Tidy(InsertedNodes(doc, r, p, k, cs))
  {
    hide Size, NodeSize;
    if FitsGap(doc, r, p, k, cs) {
      TidyFilled(doc, k, cs);
    } else {
      TidyEdited(doc, r, p, k, k, cs);
    }
  }

  lemma {:induction false} TidyFilled(doc: Doc, k: nat, cs: seq<Node>)
    requires Tidy(doc) && NoGap(cs) && FitsGap(doc, Header, [], k, cs)
    ensures Tidy(Edited(doc, Header, [], k, k + 1, cs + Remaining(NodeSize(doc.header[k]), Size(cs))))
  {
    var room := NodeSize(doc.header[k]);
    var rest := Remaining(room, Size(cs));
    var ns, ns' := doc.header, Exchanged(doc.header, k, k + 1, cs + rest);
    assert ns' == ns[..k] + cs + rest;
    assert rest != [] ==> NodeSize(rest[0]) == room - Size(cs);
  }

  /** Putting a field, or a pair, where the tag already is overwrites as many entries. */
  lemma {:induction false} PutOver(doc: Doc, r: Region, p: Path, members: Option<Members>, entries: seq<Entry>, k: nat)
    requires HoldsFields(doc, r, p) && FieldOrPair(entries) && KindsAgree(Block(Part(doc, r), p), entries)
    requires AllLeafy(Block(Part(doc, r), p)) && Tidy(doc)
    requires k == First(Block(Part(doc, r), p), HasTag(entries[|entries| - 1].tag)) < |Block(Part(doc, r), p)|
    ensures |entries| <= At(doc, r, p, k) + 1 <= |ImageOf(doc).tape|
    ensures ImageOf(Put(doc, r, p, members, entries))
            == ImageOf(doc).(tape := Overwritten(ImageOf(doc).tape, At(doc, r, p, k) + 1 - |entries|,
                                                 AtDepth(entries, Depth(doc, r, p))))
    ensures Tidy(Put(doc, r, p, members, entries))
  {
    hide ImageOf, At, Part, Block, First, Depth, Flat, Size, HasTag;
    var block := Block(Part(doc, r), p);
    EntryAt(doc, r, p, k);
    LeafSize(block[k]);
    if |entries| == 2 {
      EntryAt(doc, r, p, k - 1);
      LeafSize(block[k - 1]);
    }
    LeavesFlat(entries, Depth(doc, r, p));
    OverwriteRefines(doc, r, p, k + 1 - |entries|, k + 1, Leaves(entries));
    WithinHeader(doc, r, p, k);
    TidyEdited(doc, r, p, k + 1 - |entries|, k + 1, Leaves(entries));
  }

  lemma {:induction false} LeafSize(n: Node)
    requires Leafy(n) && n.entry.IsField()
    ensures NodeSize(n) == 1
  {
  }

  lemma {:induction false} WithinHeader(doc: Doc, r: Region, p: Path, k: nat)
    requires IsBlock(doc, r, p) && k <= |Block(Part(doc, r), p)|
    ensures r == Header && p == [] ==> k <= |doc.header| && Block(Part(doc, r), p) == doc.header
  {
  }

  /** Putting a field, or a pair, where the tag is not inserts it at its position. */
  lemma {:induction false} PutNew(doc: Doc, r: Region, p: Path, members: Option<Members>, entries: seq<Entry>)
    requires HoldsFields(doc, r, p) && FieldOrPair(entries) && KindsAgree(Block(Part(doc, r), p), entries)
    requires Tidy(doc) && (p == [] ==> members == None)
    requires First(Block(Part(doc, r), p), HasTag(entries[|entries| - 1].tag)) == |Block(Part(doc, r), p)|
    ensures var at := At(doc, r, p, Position(Block(Part(doc, r), p), r == Header && p == [], members, entries[0].tag));
            && CanInsert(ImageOf(doc).tape, Around(doc, r, p), at)
            && ImageOf(Put(doc, r, p, members, entries))
               == Inserted(ImageOf(doc), r, Around(doc, r, p), at, AtDepth(entries, Depth(doc, r, p)))
    ensures Tidy(Put(doc, r, p, members, entries))
  {
    hide ImageOf, At, Part, First, Depth, Flat, Size, HasTag, CanInsert, Inserted, Around, InsertedNodes;
    var block := Block(Part(doc, r), p);
    var k := Position(block, r == Header && p == [], members, entries[0].tag);
    LeavesFlat(entries, Depth(doc, r, p));
    InsertIntoBlock(doc, r, p, k, Leaves(entries));
    WithinHeader(doc, r, p, k);
    TidyInserted(doc, r, p, k, Leaves(entries));
  }

  /** A view is good after any edit inside its block, however deep: no index it keeps goes stale. */
  lemma {:induction false} FitsInside(doc: Doc, place: Place, p: Path, q: Path, i: nat, j: nat, cs: seq<Node>)
    requires Fits(doc, place, p) && IsBlock(doc, place.region, p + q)
    requires i <= j <= |Block(Part(doc, place.region), p + q)|
    ensures Fits(Edited(doc, place.region, p + q, i, j, cs), place, p)
  {
    hide Part, Edited, Block, Around, Owner;
    ViewsStay(doc, place.region, p, q, i, j, cs);
  }

  lemma {:induction false} FitsEdited(doc: Doc, place: Place, p: Path, i: nat, j: nat, cs: seq<Node>)
    requires Fits(doc, place, p) && i <= j <= |Block(Part(doc, place.region), p)|
    ensures Fits(Edited(doc, place.region, p, i, j, cs), place, p)
  {
    assert p + [] == p;
    FitsInside(doc, place, p, [], i, j, cs);
  }

  lemma {:induction false} FitsPut(doc: Doc, place: Place, p: Path, entries: seq<Entry>)
    requires Fits(doc, place, p) && FieldOrPair(entries) && KindsAgree(Block(Part(doc, place.region), p), entries)
    ensures Fits(Put(doc, place.region, p, place.members, entries), place, p)
  {
    hide Edited, Block, Part, First, HasTag, Size, Around, Owner;
    var r := place.region;
    var block := Block(Part(doc, r), p);
    var k := First(block, HasTag(entries[|entries| - 1].tag));
    if k < |block| {
      FitsEdited(doc, place, p, k + 1 - |entries|, k + 1, Leaves(entries));
    } else {
      var at, cs := Position(block, r == Header && p == [], place.members, entries[0].tag), Leaves(entries);
      WithinHeader(doc, r, p, at);
      if FitsGap(doc, r, p, at, cs) {
        FitsEdited(doc, place, p, at, at + 1, cs + Remaining(NodeSize(doc.header[at]), Size(cs)));
      } else {
        FitsEdited(doc, place, p, at, at, cs);
      }
    }
  }

  /** Two nodes taken out one after the other. */
  lemma {:induction false} EditedTwice(doc: Doc, r: Region, p: Path, k: nat)
    requires IsBlock(doc, r, p) && k + 1 < |Block(Part(doc, r), p)|
    ensures var doc1 := Edited(doc, r, p, k, k + 1, []);
            && IsBlock(doc1, r, p)
            && Block(Part(doc1, r), p) == Exchanged(Block(Part(doc, r), p), k, k + 1, [])
            && Block(Part(doc1, r), p)[k] == Block(Part(doc, r), p)[k + 1]
            && At(doc1, r, p, k) == At(doc, r, p, k)
            && Edited(doc1, r, p, k, k + 1, []) == Edited(doc, r, p, k, k + 2, [])
  {
    var ns, block := Part(doc, r), Block(Part(doc, r), p);
    var block1 := Exchanged(block, k, k + 1, []);
    EditedStays(doc, r, p, k, k + 1, []);
    SetBlockStays(ns, p, block1, Start(doc, r), 0);
    SetBlockTwice(ns, p, block1, Exchanged(block, k, k + 2, []));
    assert Exchanged(block1, k, k + 1, []) == Exchanged(block, k, k + 2, []);
    assert block1[..k] == block[..k];
  }

  lemma {:induction false} SetBlockTwice(ns: seq<Node>, p: Path, cs: seq<Node>, cs': seq<Node>)
    requires ValidPath(ns, p)
    ensures ValidPath(SetBlock(ns, p, cs), p)
    ensures SetBlock(SetBlock(ns, p, cs), p, cs') == SetBlock(ns, p, cs')
    decreases p
  {
    if p != [] {
      SetBlockTwice(ns[p[0]].kids, p[1..], cs, cs');
    }
  }

  /** Removing twice at an index takes out two nodes. */
  lemma {:induction false} RemoveTwice(doc: Doc, r: Region, p: Path, k: nat)
    requires HoldsFields(doc, r, p) && k + 1 < |Block(Part(doc, r), p)| && AllLeafy(Block(Part(doc, r), p))
    ensures var at, a := Around(doc, r, p), At(doc, r, p, k);
            && CanRemove(ImageOf(doc).tape, at, a)
            && var im := Removed(ImageOf(doc), r, at, a);
               && CanRemove(im.tape, at, a)
               && ImageOf(Edited(doc, r, p, k, k + 2, [])) == Removed(im, r, at, a)
  {
    var doc1 := Edited(doc, r, p, k, k + 1, []);
    hide ImageOf, Edited, Removed, CanRemove, Around, At, Leafy, Part, Block, Exchanged;
    RemoveFromBlock(doc, r, p, k);
    EditedTwice(doc, r, p, k);
    EditedStays(doc, r, p, k, k + 1, []);
    RemoveFromBlock(doc1, r, p, k);
  }

  /** Tags no edit touches. */
  predicate IsFraming(tag: nat) {
    tag == 8 || tag == 9 || tag == 10 || tag == 35
  }

  // ---------------------------------------------------------------------
  // The message
  // ---------------------------------------------------------------------

  /** Entries drained once the ancestors have shrunk. */
  lemma {:induction false} DrainIs(tape: seq<Entry>, at: seq<nat>, lo: nat, n: nat)
    requires lo + n <= |tape| && forall i :: 0 <= i < |at| ==> at[i] < lo
    ensures GrowAll(tape, at, 0 - n)[..lo] + GrowAll(tape, at, 0 - n)[lo + n..] == Spliced(tape, at, lo, lo + n, [])
  {
    hide GrowAll;
    GrowAppend(tape[..lo], tape[lo..], at, 0 - n);
    assert tape == tape[..lo] + tape[lo..];
    var a := GrowAll(tape[..lo], at, 0 - n);
    assert (a + tape[lo..])[..lo] == a && (a + tape[lo..])[lo + n..] == tape[lo + n..];
    assert a + [] + tape[lo + n..] == a + tape[lo + n..];
  }

  /** Removing what a tag names, in one or two steps. */
  lemma {:induction false} RemovalIs(doc: Doc, place: Place, p: Path, tag: nat, at: nat, pair: bool)
    requires Tidy(doc) && Fits(doc, place, p)
    requires AllLeafy(Block(Part(doc, place.region), p)) && Paired(Block(Part(doc, place.region), p))
    requires Spot(doc, place.region, p, tag, at, pair)
    ensures var r, doc' := place.region, Without(doc, place.region, p, tag);
            && Tidy(doc') && Fits(doc', place, p)
            && CanRemove(ImageOf(doc).tape, place.ancestors, at)
            && var im := Removed(ImageOf(doc), r, place.ancestors, at);
               if pair then CanRemove(im.tape, place.ancestors, at) && ImageOf(doc') == Removed(im, r, place.ancestors, at)
               else ImageOf(doc') == im
  {
    hide ImageOf, At, Part, Block, Removed, CanRemove, Edited, Tidy, First, HasTag, Around;
    var r := place.region;
    var ij := Whole(Block(Part(doc, r), p), First(Block(Part(doc, r), p), HasTag(tag)));
    TidyEdited(doc, r, p, ij.0, ij.1, []);
    FitsEdited(doc, place, p, ij.0, ij.1, []);
    if pair {
      RemoveTwice(doc, r, p, ij.0);
    } else {
      RemoveFromBlock(doc, r, p, ij.0);
    }
  }

  /** How the dictionary classes a tag, and the partner it names for one half of a pair. */
  datatype FieldKind = Plain | LengthOf(data: nat) | DataWith(length: nat)

  datatype SetError = Derived | EmptyValue | HasDelimiter

  /** Why a field cannot be set to a value: the message derives it, or the value cannot be written. */
  function SetFault(tag: nat, value: seq<Byte>, kind: FieldKind, isGroup: bool): Option<SetError> {
    if IsFraming(tag) || isGroup || kind.LengthOf? then Some(Derived)
    else if value == [] then Some(EmptyValue)
    else if kind.Plain? && SOH in value then Some(HasDelimiter)
    else None
  }

  /** What setting a field writes: a data field's Length goes behind it in the arena, and before it in the block. */
  function SetBytes(tag: nat, value: seq<Byte>, kind: FieldKind): seq<Byte> {
    if kind.DataWith? then Spelled(tag, value) + Spelled(kind.length, Digits(|value|)) else Spelled(tag, value)
  }

  function SetEntries(tag: nat, value: seq<Byte>, kind: FieldKind, at: nat): (entries: seq<Entry>)
    ensures FieldOrPair(entries) && entries[|entries| - 1].tag == tag && (|entries| == 2) == kind.DataWith?
  {
    if kind.DataWith? then
      [SpelledEntry(kind.length, DataLen, at + |Spelled(tag, value)|, Digits(|value|)), SpelledEntry(tag, Data, at, value)]
    else [SpelledEntry(tag, Field, at, value)]
  }

  /** A message just made: BeginString, MsgType, and room in the header. */
  function Fresh(beginString: seq<Byte>, msgType: seq<Byte>): Doc {
    Doc([Node(SpelledEntry(8, Field, 0, beginString), []),
         Node(SpelledEntry(35, Field, |Spelled(8, beginString)|, msgType), []), GapNode(HEADER_GAP)], [], [])
  }

  lemma {:induction false} FreshImage(beginString: seq<Byte>, msgType: seq<Byte>)
    ensures var doc := Fresh(beginString, msgType);
            && ImageOf(doc).tape == [doc.header[0].entry, doc.header[1].entry] + ([GapOf(HEADER_GAP)] + Unused(HEADER_GAP - 1))
            && ImageOf(doc).bodyStart == ImageOf(doc).trailerStart == 2 + HEADER_GAP
            && Tidy(doc)
  {
    var doc := Fresh(beginString, msgType);
    var h := doc.header;
    assert h == [h[0], h[1]] + [GapNode(HEADER_GAP)];
    FlatAppend([h[0], h[1]], [GapNode(HEADER_GAP)], 0);
    SizeAppend([h[0], h[1]], [GapNode(HEADER_GAP)]);
    FlatOne(GapNode(HEADER_GAP), 0);
    assert [h[0], h[1]] == Leaves([h[0].entry, h[1].entry]);
    LeavesFlat([h[0].entry, h[1].entry], 0);
    assert Flat(h, 0) + [] + [] == Flat(h, 0);
  }

  class Message {
    /** The message as received, and what was written since. */
    var wire: seq<Byte>
    var arena: seq<Byte>

    var tape: seq<Entry>
    var bodyStart: nat
    var trailerStart: nat
    var clean: bool

    /** The trees the tape stands for. */
    ghost var doc: Doc

    function Im(): Image
      reads `tape, `bodyStart, `trailerStart
    {
      Image(tape, bodyStart, trailerStart)
    }

    ghost predicate Valid()
      reads `tape, `bodyStart, `trailerStart, `doc
    {
      Im() == ImageOf(doc) && Tidy(doc)
    }

    function Segs(): Segments
      reads `wire, `arena
    {
      Segments(wire, arena)
    }

    constructor (beginString: seq<Byte>, msgType: seq<Byte>)
      ensures Valid() && doc == Fresh(beginString, msgType) && !clean
      ensures Segs() == Segments([], Spelled(8, beginString) + Spelled(35, msgType))
    {
      wire, arena, tape, bodyStart, trailerStart, clean := [], [], [], 0, 0, false;
      doc := Doc([], [], []);
      new;
      Reset(beginString, msgType);
    }

    /** A message as it was built, over the bytes it was read from. */
    constructor Built(wire: seq<Byte>, image: Image, clean: bool, ghost doc: Doc)
      requires image == ImageOf(doc) && Tidy(doc)
      ensures Valid() && this.doc == doc && this.clean == clean && Segs() == Segments(wire, []) && Im() == image
    {
      this.wire, arena, tape := wire, [], image.tape;
      bodyStart, trailerStart := image.bodyStart, image.trailerStart;
      this.clean, this.doc := clean, doc;
    }

    /** Make this an empty message of another type. */
    method Reset(beginString: seq<Byte>, msgType: seq<Byte>)
      modifies this
      ensures Valid() && doc == Fresh(beginString, msgType) && !clean
      ensures Segs() == Segments([], Spelled(8, beginString) + Spelled(35, msgType))
    {
      hide Digits, Unused, ImageOf, Tidy;
      wire, arena, tape, clean := [], [], [], false;
      var e := AppendField(8, beginString);
      tape := tape + [e];
      assert arena == Spelled(8, beginString);
      e := AppendField(35, msgType);
      tape := tape + [e];
      PushGap();
      bodyStart := |tape|;
      trailerStart := bodyStart;
      FreshImage(beginString, msgType);
      doc := Fresh(beginString, msgType);
    }

    method PushGap()
      modifies `tape
      ensures tape == old(tape) + ([GapOf(HEADER_GAP)] + Unused(HEADER_GAP - 1))
    {
      tape := tape + ([GapOf(HEADER_GAP)] + Unused(HEADER_GAP - 1));
    }

    /** Write a field to the arena; gives its entry. */
    method AppendField(tag: nat, value: seq<Byte>) returns (e: Entry)
      modifies `arena
      ensures arena == old(arena) + Spelled(tag, value)
      ensures e == SpelledEntry(tag, Field, |old(arena)|, value)
    {
      hide Digits;
      var off := StartField(tag);
      arena := arena + value;
      e := FinishField(tag, off, value);
      assert arena == old(arena) + Spelled(tag, value);
    }

    method StartField(tag: nat) returns (off: nat)
      modifies `arena
      ensures off == |old(arena)| && arena == old(arena) + (Digits(tag) + [EQUALS])
    {
      off := |arena|;
      var text := PutUint(tag);
      arena := arena + (text + [EQUALS]);
    }

    /** End a field whose tag was written at `off` and whose value has been. */
    method FinishField(tag: nat, off: nat, ghost value: seq<Byte>) returns (e: Entry)
      requires |arena| == off + |Digits(tag)| + 1 + |value|
      modifies `arena
      ensures arena == old(arena) + [SOH] && e == SpelledEntry(tag, Field, off, value)
    {
      var valOff := |Digits(tag)| + 1;
      e := Entry(tag, Field, 0, Arena, valOff, off, |arena| - off - valOff);
      arena := arena + [SOH];
    }

    method Grow(ancestors: seq<nat>, n: int)
      requires forall i :: 0 <= i < |ancestors| ==> ancestors[i] < |tape|
      modifies `tape
      ensures tape == GrowAll(old(tape), ancestors, n)
    {
      var i := 0;
      assert ancestors[0..] == ancestors;
      while i < |ancestors|
        invariant i <= |ancestors| && |tape| == |old(tape)|
        invariant GrowAll(tape, ancestors[i..], n) == GrowAll(old(tape), ancestors, n)
      {
        assert ancestors[i..][1..] == ancestors[i + 1..];
        var e := tape[ancestors[i]];
        tape := tape[ancestors[i] := e.(len := Plus(e.len, n))];
        i := i + 1;
      }
    }

    method ShiftBoundaries(region: Region, n: int)
      modifies `bodyStart, `trailerStart
      ensures (bodyStart, trailerStart) == Shifted(old(bodyStart), old(trailerStart), region, n)
    {
      match region
      case Header =>
        bodyStart := Plus(bodyStart, n);
        trailerStart := Plus(trailerStart, n);
      case Body =>
        trailerStart := Plus(trailerStart, n);
      case Trailer =>
    }

    /** Insert entries: the gap takes those that go to a region, if it has room. */
    method Insert(region: Region, ancestors: seq<nat>, at: nat, entries: seq<Entry>)
      requires CanInsert(tape, ancestors, at)
      modifies `tape, `bodyStart, `trailerStart, `clean
      ensures Im() == Inserted(old(Im()), region, ancestors, at, entries)
      ensures !clean
    {
      clean := false;
      if at < |tape| && tape[at].kind.Gap? && ancestors == [] {
        var room := tape[at].Span();
        if room >= |entries| {
          tape := tape[..at] + entries + tape[at + |entries|..];
          if room > |entries| {
            tape := tape[at + |entries| := GapOf(room - |entries|)];
          }
          return;
        }
      }
      GrowAppend(tape[..at], tape[at..], ancestors, |entries|);
      assert tape == tape[..at] + tape[at..];
      Grow(ancestors, |entries|);
      tape := tape[..at] + entries + tape[at..];
      ShiftBoundaries(region, |entries|);
    }

    /** Remove an entry and everything it spans. */
    method RemoveAt(region: Region, ancestors: seq<nat>, at: nat)
      requires CanRemove(tape, ancestors, at)
      modifies `tape, `bodyStart, `trailerStart, `clean
      ensures Im() == Removed(old(Im()), region, ancestors, at)
      ensures !clean
    {
      hide GrowAll, Shifted;
      clean := false;
      var n: int := tape[at].Span();
      DrainIs(tape, ancestors, at, n);
      Grow(ancestors, -n);
      tape := tape[..at] + tape[at + n..];
      ShiftBoundaries(region, -n);
    }

    method Scan(from: nat, end: nat, tag: nat) returns (found: Option<nat>)
      requires end <= |tape|
      ensures found == Scanned(tape, from, end, tag)
    {
      var i := from;
      while i < end
        invariant Seek(tape, i, end, HasTag(tag)) == Seek(tape, from, end, HasTag(tag))
        decreases end - i
      {
        if tape[i].tag == tag && tape[i].IsTagged() {
          return Some(i);
        }
        i := i + tape[i].Span();
      }
      return None;
    }

    method FindIn(start: nat, end: nat, depth: nat, tag: nat, from: Option<nat>) returns (found: Option<nat>)
      requires end <= |tape|
      ensures found == Found(tape, start, end, depth, tag, from)
    {
      var i := start;
      if from.Some? && start < from.value < end {
        if tape[from.value].depth == depth && !tape[from.value].kind.Instance? {
          i := from.value;
        }
      }
      found := Scan(i, end, tag);
      if found.None? && i > start {
        found := Scan(start, i, tag);
      }
    }

    method HeaderGap() returns (gap: Option<nat>)
      requires bodyStart <= |tape|
      ensures gap == GapFrom(tape, 0, bodyStart)
    {
      var i := 0;
      while i < bodyStart
        invariant GapFrom(tape, i, bodyStart) == GapFrom(tape, 0, bodyStart)
        decreases bodyStart - i
      {
        if tape[i].kind.Gap? && i + tape[i].Span() == bodyStart {
          return Some(i);
        }
        i := i + tape[i].Span();
      }
      return None;
    }

    /** A view's start, end and depth. */
    method OwnerRange(holder: Holder) returns (start: nat, end: nat, depth: nat)
      requires holder.InInstance? ==> holder.at < |tape|
      ensures (start, end, depth) == Range(Im(), holder)
    {
      match holder
      case InRegion(r) =>
        match r {
          case Header => return 0, bodyStart, 0;
          case Body => return bodyStart, trailerStart, 0;
          case Trailer => return trailerStart, |tape|, 0;
        }
      case InInstance(q) =>
        return q + 1, q + tape[q].Span(), tape[q].depth;
    }

    /** Where a new entry goes in a view's block. */
    method InsertPos(place: Place, tag: nat, ghost p: Path) returns (at: nat)
      requires Valid() && Fits(doc, place, p) && AllLeafy(Block(Part(doc, place.region), p))
      ensures at == At(doc, place.region, p,
                       Position(Block(Part(doc, place.region), p), place.region == Header && p == [], place.members, tag))
    {
      hide ImageOf, At, Seek, First, GapFrom, Block, Part, Leafy, Depth, Later;
      ghost var block := Block(Part(doc, place.region), p);
      RangeFits(doc, place, p);
      AtWithin(doc, place.region, p, 0);
      var start, end, depth := OwnerRange(place.holder);
      if place.members.Some? {
        var members := place.members.value;
        if tag in members {
          LaterSkipsGaps(members, members[tag]);
          SeekWhole(doc, place.region, p, Later(members, members[tag]));
          AtOrdered(doc, place.region, p, First(block, Later(members, members[tag])), |block|);
          at := FirstLater(members, members[tag], start, end);
          return;
        }
        return end;
      }
      if place.holder == InRegion(Header) {
        HeaderGapIs(doc);
        var gap := HeaderGap();
        if gap.Some? {
          return gap.value;
        }
      }
      return end;
    }

    /** The first member behind `order` in the group's definition, or the end. */
    method FirstLater(members: Members, order: nat, start: nat, end: nat) returns (at: nat)
      requires start <= end <= |tape|
      requires Seek(tape, start, end, Later(members, order)) <= end
      ensures at == Seek(tape, start, end, Later(members, order))
    {
      var i := start;
      while i < end
        invariant Seek(tape, i, end, Later(members, order)) == Seek(tape, start, end, Later(members, order))
        decreases end - i
      {
        var e := tape[i];
        if e.IsTagged() && e.tag in members && members[e.tag] > order {
          return i;
        }
        i := i + e.Span();
      }
      return end;
    }

    /** `Put`, on the tape: one or two entries overwritten where the tag is found, or spliced in. */
    method PlaceEntries(place: Place, entries: seq<Entry>, ghost p: Path)
      requires Valid() && Fits(doc, place, p) && AllLeafy(Block(Part(doc, place.region), p))
      requires FieldOrPair(entries) && KindsAgree(Block(Part(doc, place.region), p), entries)
      modifies `tape, `bodyStart, `trailerStart, `clean, `doc
      ensures doc == Put(old(doc), place.region, p, place.members, entries)
      ensures Valid() && Fits(doc, place, p) && !clean
    {
      hide ImageOf, At, Part, Block, First, Depth, HasTag, Inserted, Overwritten, Put, KindsAgree, Position, Found;
      ghost var r, block, was := place.region, Block(Part(doc, place.region), p), doc;
      RangeFits(doc, place, p);
      AtWithin(doc, r, p, 0);
      FitsPut(doc, place, p, entries);
      var start, end, depth := OwnerRange(place.holder);
      var es := AtDepth(entries, depth);
      var tag := es[|es| - 1].tag;
      FoundFirst(doc, r, p, tag);
      var found := FindIn(start, end, depth, tag, None);
      clean := false;
      if found.Some? {
        PutOver(doc, r, p, place.members, entries, First(block, HasTag(tag)));
        Over(found.value, es);
      } else {
        PutNew(doc, r, p, place.members, entries);
        var at := InsertPos(place, es[0].tag, p);
        Insert(place.region, place.ancestors, at, es);
      }
      doc := Put(was, r, p, place.members, entries);
    }

    /** Overwrite the entry at an index, and for a pair the one before it. */
    method Over(i: nat, entries: seq<Entry>)
      requires 1 <= |entries| <= i + 1 <= |tape|
      modifies `tape
      ensures tape == Overwritten(old(tape), i + 1 - |entries|, entries)
    {
      if |entries| == 1 {
        tape := tape[i := entries[0]];
      } else {
        tape := tape[..i + 1 - |entries|] + entries + tape[i + 1..];
      }
    }

    /** `Without`, on the tape; nothing for a tag no edit touches. */
    method Remove(place: Place, tag: nat, ghost p: Path)
      requires Valid() && Fits(doc, place, p)
      requires AllLeafy(Block(Part(doc, place.region), p)) && Paired(Block(Part(doc, place.region), p))
      modifies `tape, `bodyStart, `trailerStart, `clean, `doc
      ensures doc == if IsFraming(tag) then old(doc) else Without(old(doc), place.region, p, tag)
      ensures Valid() && Fits(doc, place, p)
    {
      if IsFraming(tag) {
        return;
      }
      hide ImageOf, At, Part, Block, First, HasTag, Whole, Tidy, Without, Spot;
      var found, pair := Locate(place, tag, p);
      if found.Some? {
        TakeOut(place, tag, found.value, pair, p);
      } else {
        WithoutNone(doc, place.region, p, tag);
      }
    }

    /** Where a tag's entries start, and whether there are two. */
    method Locate(place: Place, tag: nat, ghost p: Path) returns (found: Option<nat>, pair: bool)
      requires Valid() && Fits(doc, place, p)
      requires AllLeafy(Block(Part(doc, place.region), p)) && Paired(Block(Part(doc, place.region), p))
      ensures found.Some? <==> First(Block(Part(doc, place.region), p), HasTag(tag)) < |Block(Part(doc, place.region), p)|
      ensures found.Some? ==> Spot(doc, place.region, p, tag, found.value, pair)
    {
      hide ImageOf, At, Part, Block, First, Depth, HasTag, Found, Leafy;
      ghost var r, block := place.region, Block(Part(doc, place.region), p);
      ghost var k := First(block, HasTag(tag));
      RangeFits(doc, place, p);
      AtWithin(doc, r, p, 0);
      FoundFirst(doc, r, p, tag);
      var start, end, depth := OwnerRange(place.holder);
      pair := false;
      found := FindIn(start, end, depth, tag, None);
      if found.Some? {
        EntryAt(doc, r, p, k);
        HeadKind(block[k], Depth(doc, r, p));
        var i := found.value;
        if tape[i].kind.Data? {
          EntryAt(doc, r, p, k - 1);
          LeafSize(block[k - 1]);
          found, pair := Some(i - 1), true;
        } else if tape[i].kind.DataLen? {
          pair := true;
        }
      }
    }

    /** Take out what a tag names: one node, or two. */
    method TakeOut(place: Place, tag: nat, at: nat, pair: bool, ghost p: Path)
      requires Valid() && Fits(doc, place, p)
      requires AllLeafy(Block(Part(doc, place.region), p)) && Paired(Block(Part(doc, place.region), p))
      requires Spot(doc, place.region, p, tag, at, pair)
      modifies `tape, `bodyStart, `trailerStart, `clean, `doc
      ensures doc == Without(old(doc), place.region, p, tag)
      ensures Valid() && Fits(doc, place, p)
    {
      hide ImageOf, At, Part, Block, Removed, CanRemove, Tidy, Without, Spot, First, HasTag;
      ghost var without := Without(doc, place.region, p, tag);
      RemovalIs(doc, place, p, tag, at, pair);
      RemoveAt(place.region, place.ancestors, at);
      if pair {
        RemoveAt(place.region, place.ancestors, at);
      }
      doc := without;
    }

    /** Append a field; a value that cannot be written leaves the arena alone. */
    method WriteValue(tag: nat, data: bool, value: seq<Byte>) returns (e: Entry, fault: Option<SetError>)
      modifies `arena
      ensures fault == if value == [] then Some(EmptyValue) else if !data && SOH in value then Some(HasDelimiter) else None
      ensures fault.Some? ==> arena == old(arena)
      ensures fault.None? ==> arena == old(arena) + Spelled(tag, value)
      ensures fault.None? ==> e == SpelledEntry(tag, if data then Data else Field, |old(arena)|, value)
    {
      hide Digits;
      var off := StartField(tag);
      arena := arena + value;
      fault := if value == [] then Some(EmptyValue) else if !data && SOH in value then Some(HasDelimiter) else None;
      e := UNUSED;
      if fault.Some? {
        arena := arena[..off];
      } else {
        e := FinishField(tag, off, value);
        assert arena == old(arena) + Spelled(tag, value);
        if data {
          e := e.(kind := Data);
        }
      }
    }

    /** Set a field in a view's block, or say why not. */
    method SetField(place: Place, tag: nat, value: seq<Byte>, kind: FieldKind, isGroup: bool, ghost p: Path)
      returns (fault: Option<SetError>)
      requires Valid() && Fits(doc, place, p) && AllLeafy(Block(Part(doc, place.region), p))
      requires KindAgrees(Block(Part(doc, place.region), p), tag, kind.DataWith?)
      modifies `arena, `tape, `bodyStart, `trailerStart, `clean, `doc
      ensures fault == SetFault(tag, value, kind, isGroup)
      ensures Valid() && Fits(doc, place, p)
      ensures fault.Some? ==> doc == old(doc) && arena == old(arena) && clean == old(clean)
      ensures fault.None? ==>
                && arena == old(arena) + SetBytes(tag, value, kind) && !clean
                && doc == Put(old(doc), place.region, p, place.members, SetEntries(tag, value, kind, |old(arena)|))
    {
      hide Digits, Put, Fits, KindAgrees, Tidy, ImageOf, AllLeafy;
      if IsFraming(tag) || isGroup || kind.LengthOf? {
        return Some(Derived);
      }
      var e;
      e, fault := WriteValue(tag, kind.DataWith?, value);
      if fault.Some? {
        return;
      }
      var entries := [e];
      if kind.DataWith? {
        var text := PutUint(|value|);
        var len := AppendField(kind.length, text);
        entries := [len.(kind := DataLen), e];
        assert arena == old(arena) + SetBytes(tag, value, kind);
      }
      assert entries == SetEntries(tag, value, kind, |old(arena)|);
      PlaceEntries(place, entries, p);
    }
  }
}
