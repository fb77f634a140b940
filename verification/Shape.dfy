/**
 * `WellFormed`: which trees are messages. Only instances are in groups and only in groups, a Length
 * and its data are neighbours, and there is no gap but the header's last node. Edits keep it.
 */
module Shape {
  import opened Tape
  import opened Document
  import opened Editing
  import opened Lookup
  import opened Messages
  import opened Groups

  /** What may be in a group, and what may be in an instance or a region. */
  predicate Shaped(ns: seq<Node>, group: bool) {
    && (!group ==> Paired(ns))
    && forall i :: 0 <= i < |ns| ==> ShapedNode(ns[i], group)
  }

  predicate ShapedNode(n: Node, group: bool) {
    if group then n.entry.kind.Instance? && Shaped(n.kids, false)
    else
      && !n.entry.kind.Gap? && !n.entry.kind.Instance?
      && if n.entry.kind.Group? then Shaped(n.kids, true) else n.kids == []
  }

  /** A header without its gap. */
  function Fields(header: seq<Node>): seq<Node> {
    if EndsInGap(header) then header[..|header| - 1] else header
  }

  predicate WellFormed(doc: Doc) {
    && Shaped(Fields(doc.header), false) && Shaped(doc.body, false) && Shaped(doc.trailer, false)
    && (EndsInGap(doc.header) ==> doc.header[|doc.header| - 1] == GapNode(NodeSize(doc.header[|doc.header| - 1])))
  }

  lemma {:induction false} ShapedAt(ns: seq<Node>, group: bool, i: nat)
    requires Shaped(ns, group) && i < |ns|
    ensures ShapedNode(ns[i], group)
    ensures !ns[i].entry.kind.Gap?
    ensures ns[i].entry.kind.Instance? <==> group
    ensures ns[i].entry.kind.Group? || ns[i].entry.kind.Instance? ==> Shaped(ns[i].kids, ns[i].entry.kind.Group?)
    ensures ns[i].entry.IsField() ==> ns[i].kids == []
  {
    assert ShapedNode(ns[i], group);
  }

  lemma {:induction false} WellFormedTidy(doc: Doc)
    requires WellFormed(doc)
    ensures Tidy(doc)
  {
    hide NodeSize, Size;
    forall i | 0 <= i < |doc.body| ensures !doc.body[i].entry.kind.Gap? {
      ShapedAt(doc.body, false, i);
    }
    forall i | 0 <= i < |doc.trailer| ensures !doc.trailer[i].entry.kind.Gap? {
      ShapedAt(doc.trailer, false, i);
    }
    forall i | 0 <= i < |doc.header| && doc.header[i].entry.kind.Gap?
      ensures i == |doc.header| - 1
    {
      if i < |Fields(doc.header)| {
        ShapedAt(Fields(doc.header), false, i);
      }
    }
  }

  /** Whether a path leads into a group. */
  predicate IntoGroup(ns: seq<Node>, p: Path, group: bool)
    requires ValidPath(ns, p)
    decreases p
  {
    if p == [] then group else IntoGroup(ns[p[0]].kids, p[1..], ns[p[0]].entry.kind.Group?)
  }

  lemma {:induction false} IntoGroupOwner(ns: seq<Node>, p: Path, group: bool)
    requires ValidPath(ns, p) && p != []
    ensures IntoGroup(ns, p, group) == Owner(ns, p).entry.kind.Group?
    decreases p
  {
    if |p| > 1 {
      IntoGroupOwner(ns[p[0]].kids, p[1..], ns[p[0]].entry.kind.Group?);
    }
  }

  /** Blocks are shaped at any depth, and another shaped block in the place of one leaves the tree shaped. */
  lemma {:induction false} ShapedWithin(ns: seq<Node>, group: bool, p: Path, cs: seq<Node>)
    requires Shaped(ns, group) && ValidPath(ns, p) && Spanned(ns, p)
    ensures Shaped(Block(ns, p), IntoGroup(ns, p, group))
    ensures Shaped(cs, IntoGroup(ns, p, group)) ==> Shaped(SetBlock(ns, p, cs), group)
    decreases p
  {
    if p != [] {
      var i, n := p[0], ns[p[0]];
      ShapedAt(ns, group, i);
      ShapedWithin(n.kids, n.entry.kind.Group?, p[1..], cs);
      if Shaped(cs, IntoGroup(ns, p, group)) {
        var ns' := SetBlock(ns, p, cs);
        assert ns'[i].kids == SetBlock(n.kids, p[1..], cs);
        forall k | 0 <= k < |ns'|
          ensures ShapedNode(ns'[k], group)
        {
          assert k != i ==> ns'[k] == ns[k] && ShapedNode(ns[k], group);
        }
        SamePairs(ns, ns');
      }
    }
  }

  lemma {:induction false} SamePairs(ns: seq<Node>, ns': seq<Node>)
    requires |ns'| == |ns| && forall k :: 0 <= k < |ns| ==> ns'[k].entry == ns[k].entry
    ensures Paired(ns') == Paired(ns)
  {
  }

  // ---------------------------------------------------------------------
  // One block exchanged for another
  // ---------------------------------------------------------------------

  /** What may be in a block of a message: the header's own may end in a gap. */
  predicate ShapedBlock(doc: Doc, r: Region, p: Path, block: seq<Node>)
    requires IsBlock(doc, r, p)
  {
    if r == Header && p == [] then
      && Shaped(Fields(block), false)
      && (EndsInGap(block) ==> block[|block| - 1] == GapNode(NodeSize(block[|block| - 1])))
    else Shaped(block, IntoGroup(Part(doc, r), p, false))
  }

  /** Every block of a well-formed message is shaped; exchanging one for another that is keeps it well-formed. */
  lemma {:induction false} BlocksShaped(doc: Doc, r: Region, p: Path, cs: seq<Node>)
    requires WellFormed(doc) && IsBlock(doc, r, p)
    ensures ShapedBlock(doc, r, p, Block(Part(doc, r), p))
    ensures ShapedBlock(doc, r, p, cs) ==> WellFormed(WithPart(doc, r, SetBlock(Part(doc, r), p, cs)))
  {
    hide NodeSize, Size;
    if p != [] && r == Header {
      HeaderFields(doc.header, p, cs);
      ShapedWithin(Fields(doc.header), false, p, cs);
    } else if p != [] {
      ShapedWithin(Part(doc, r), false, p, cs);
    }
  }

  lemma {:induction false} HeaderFields(header: seq<Node>, p: Path, cs: seq<Node>)
    requires ValidPath(header, p) && Spanned(header, p) && p != []
    ensures ValidPath(Fields(header), p) && Spanned(Fields(header), p)
    ensures Block(Fields(header), p) == Block(header, p)
    ensures IntoGroup(Fields(header), p, false) == IntoGroup(header, p, false)
    ensures Fields(SetBlock(header, p, cs)) == SetBlock(Fields(header), p, cs)
    ensures EndsInGap(SetBlock(header, p, cs)) == EndsInGap(header)
    ensures EndsInGap(header) ==> SetBlock(header, p, cs)[|header| - 1] == header[|header| - 1]
  {
    hide NodeSize, Size;
  }

  /** No pair is split before this index. */
  predicate NotSplit(block: seq<Node>, i: nat) {
    0 < i < |block| ==> !block[i - 1].entry.kind.DataLen?
  }

  lemma {:induction false} PairsExchanged(block: seq<Node>, i: nat, j: nat, cs: seq<Node>)
    requires i <= j <= |block| && Paired(block) && Paired(cs) && NotSplit(block, i) && NotSplit(block, j)
    ensures Paired(Exchanged(block, i, j, cs))
  {
    PairsSplit(block, i);
    PairsSplit(block, j);
    PairsAppend(block[..i], cs);
    PairsAppend(block[..i] + cs, block[j..]);
  }

  lemma {:induction false} PairsSplit(ns: seq<Node>, i: nat)
    requires i <= |ns| && Paired(ns) && NotSplit(ns, i)
    ensures Paired(ns[..i]) && Paired(ns[i..])
  {
    PairsBefore(ns, i);
    PairsBehind(ns, i);
  }

  lemma {:induction false} PairsBefore(ns: seq<Node>, i: nat)
    requires i <= |ns| && Paired(ns) && NotSplit(ns, i)
    ensures Paired(ns[..i])
  {
    forall k | 0 <= k < i && ns[k].entry.kind.DataLen?
      ensures k + 1 < i
    {
      assert k + 1 < |ns|;
    }
  }

  lemma {:induction false} PairsBehind(ns: seq<Node>, i: nat)
    requires i <= |ns| && Paired(ns) && NotSplit(ns, i)
    ensures Paired(ns[i..])
  {
    assert forall k :: 0 <= k < |ns[i..]| ==> ns[i..][k] == ns[i + k];
    forall k | 0 <= k < |ns[i..]| && ns[i..][k].entry.kind.Data?
      ensures k > 0 && ns[i..][k - 1].entry.kind.DataLen?
    {
      assert ns[i + k - 1].entry.kind.DataLen?;
    }
    forall k | 0 <= k < |ns[i..]| && ns[i..][k].entry.kind.DataLen?
      ensures k + 1 < |ns[i..]| && ns[i..][k + 1].entry.kind.Data?
    {
      assert ns[i + k].entry.kind.DataLen?;
    }
  }

  lemma {:induction false} PairsAppend(a: seq<Node>, b: seq<Node>)
    requires Paired(a) && Paired(b)
    ensures Paired(a + b)
  {
    var c := a + b;
    forall k | 0 <= k < |c| && c[k].entry.kind.DataLen?
      ensures k + 1 < |c| && c[k + 1].entry.kind.Data?
    {
      if k < |a| {
        assert a[k].entry.kind.DataLen?;
      } else {
        assert b[k - |a|].entry.kind.DataLen?;
      }
    }
    forall k | 0 <= k < |c| && c[k].entry.kind.Data?
      ensures k > 0 && c[k - 1].entry.kind.DataLen?
    {
      if k < |a| {
        assert a[k].entry.kind.Data?;
      } else {
        assert b[k - |a|].entry.kind.Data?;
      }
    }
  }

  lemma {:induction false} ShapeExchanged(block: seq<Node>, i: nat, j: nat, cs: seq<Node>)
    requires i <= j <= |block| && Shaped(block, false) && Shaped(cs, false) && NotSplit(block, i) && NotSplit(block, j)
    ensures Shaped(Exchanged(block, i, j, cs), false)
  {
    hide ShapedNode;
    PairsExchanged(block, i, j, cs);
    var b := Exchanged(block, i, j, cs);
    forall k | 0 <= k < |b|
      ensures ShapedNode(b[k], false)
    {
      assert b[k] == if k < i then block[k] else if k < i + |cs| then cs[k - i] else block[k - i - |cs| + j];
    }
  }

  lemma {:induction false} LeavesShaped(entries: seq<Entry>)
    requires FieldOrPair(entries)
    ensures Shaped(Leaves(entries), false)
  {
  }

  /** The header's fields, with some exchanged. */
  lemma {:induction false} HeaderExchanged(header: seq<Node>, i: nat, j: nat, cs: seq<Node>)
    requires i <= j <= |Fields(header)| && NoGap(cs) && (EndsInGap(header) || NoGap(header))
    ensures Fields(Exchanged(header, i, j, cs)) == Exchanged(Fields(header), i, j, cs)
    ensures EndsInGap(Exchanged(header, i, j, cs)) == EndsInGap(header)
    ensures EndsInGap(header) ==> Exchanged(header, i, j, cs)[|Exchanged(header, i, j, cs)| - 1] == header[|header| - 1]
  {
    if EndsInGap(header) {
      GapExchanged(header, i, j, cs);
    } else {
      NoGapExchanged(header, i, j, cs);
    }
  }

  lemma {:induction false} GapExchanged(header: seq<Node>, i: nat, j: nat, cs: seq<Node>)
    requires i <= j < |header| && EndsInGap(header)
    ensures var b, k := Exchanged(header, i, j, cs), |header| - 1;
            EndsInGap(b) && b[|b| - 1] == header[k] && b[..|b| - 1] == Exchanged(header[..k], i, j, cs)
  {
    var b, k := Exchanged(header, i, j, cs), |header| - 1;
    assert b == header[..i] + cs + header[j..];
    assert b[..|b| - 1] == header[..i] + cs + header[j..k];
  }

  lemma {:induction false} NoGapExchanged(header: seq<Node>, i: nat, j: nat, cs: seq<Node>)
    requires i <= j <= |header| && NoGap(header) && NoGap(cs)
    ensures !EndsInGap(Exchanged(header, i, j, cs))
  {
    var b := Exchanged(header, i, j, cs);
    if b != [] {
      assert b[|b| - 1] == if j < |header| then header[|header| - 1] else if cs != [] then cs[|cs| - 1] else header[i - 1];
    }
  }

  /** A block with some of its fields exchanged for others. */
  lemma {:induction false} KeepsShape(doc: Doc, r: Region, p: Path, i: nat, j: nat, cs: seq<Node>)
    requires WellFormed(doc) && HoldsFields(doc, r, p) && i <= j <= |Block(Part(doc, r), p)| && Shaped(cs, false)
    requires NotSplit(Block(Part(doc, r), p), i) && NotSplit(Block(Part(doc, r), p), j)
    requires r == Header && p == [] ==> j <= |Fields(doc.header)|
    ensures WellFormed(Edited(doc, r, p, i, j, cs))
  {
    hide NodeSize, Size;
    var block := Block(Part(doc, r), p);
    BlocksShaped(doc, r, p, Exchanged(block, i, j, cs));
    if r == Header && p == [] {
      WellFormedTidy(doc);
      forall k | 0 <= k < |cs| ensures !cs[k].entry.kind.Gap? {
        ShapedAt(cs, false, k);
      }
      HeaderExchanged(block, i, j, cs);
      ShapeExchanged(Fields(block), i, j, cs);
    } else {
      if p != [] {
        IntoGroupOwner(Part(doc, r), p, false);
      }
      ShapeExchanged(block, i, j, cs);
    }
  }

  // ---------------------------------------------------------------------
  // Each operation
  // ---------------------------------------------------------------------

  /** Filling the header gap. */
  lemma {:induction false} FillKeepsShape(doc: Doc, k: nat, cs: seq<Node>)
    requires WellFormed(doc) && FitsGap(doc, Header, [], k, cs) && Shaped(cs, false)
    ensures WellFormed(Edited(doc, Header, [], k, k + 1, cs + Remaining(NodeSize(doc.header[k]), Size(cs))))
  {
    WellFormedTidy(doc);
    var h := doc.header;
    var rest := Remaining(NodeSize(h[k]), Size(cs));
    var fields := h[..k];
    assert Fields(h) == fields;
    assert Exchanged(h, k, k + 1, cs + rest) == fields + cs + rest;
    ShapeExchanged(fields, k, k, cs);
    assert Exchanged(fields, k, k, cs) == fields + cs;
    hide Shaped;
    if rest == [] {
      assert fields + cs + rest == fields + cs;
      NotGapped(fields + cs);
    } else {
      assert Fields(fields + cs + rest) == fields + cs;
      assert NodeSize(rest[0]) == NodeSize(h[k]) - Size(cs);
    }
  }

  lemma {:induction false} NotGapped(ns: seq<Node>)
    requires Shaped(ns, false)
    ensures !EndsInGap(ns) && Fields(ns) == ns
  {
    if ns != [] {
      ShapedAt(ns, false, |ns| - 1);
    }
  }

  /**
   * The group's definition has one position for each tag, and lists each data field there is in the
   * block right behind its Length.
   */
  predicate Lists(members: Option<Members>, block: seq<Node>) {
    members.Some? ==>
      && (forall s, t :: s in members.value && t in members.value && members.value[s] == members.value[t] ==> s == t)
      && forall k :: 0 <= k < |block| - 1 && block[k].entry.kind.DataLen? ==>
           ListsPair(members.value, block[k].entry.tag, block[k + 1].entry.tag)
  }

  predicate ListsPair(members: Members, length: nat, data: nat) {
    (length in members <==> data in members) && (length in members ==> members[data] == members[length] + 1)
  }

  /** A new entry never comes between a Length and its data. */
  lemma {:induction false} PositionNotSplit(block: seq<Node>, header: bool, members: Option<Members>, tag: nat)
    requires Lists(members, block) && (header ==> Paired(Fields(block))) && (!header ==> Paired(block))
    requires forall k :: 0 <= k < |block| && block[k].entry.kind.DataLen? ==> block[k].entry.tag != tag
    requires header ==> members == None
    ensures NotSplit(block, Position(block, header, members, tag))
    ensures header ==> Position(block, header, members, tag) == |Fields(block)|
  {
    var k := Position(block, header, members, tag);
    assert members.Some? && 0 < k < |block| && block[k - 1].entry.kind.DataLen? ==>
        ListsPair(members.value, block[k - 1].entry.tag, block[k].entry.tag);
    assert header && k > 0 ==> Fields(block)[k - 1] == block[k - 1];
  }

  /** Nodes inserted where a new entry goes. */
  lemma {:induction false} InsertKeepsShape(doc: Doc, r: Region, p: Path, members: Option<Members>, tag: nat,
                                            cs: seq<Node>)
    requires WellFormed(doc) && HoldsFields(doc, r, p) && Shaped(cs, false) && cs != []
    requires (p == [] ==> members == None) && Lists(members, Block(Part(doc, r), p))
    requires forall k :: 0 <= k < |Block(Part(doc, r), p)| && Block(Part(doc, r), p)[k].entry.kind.DataLen? ==>
               Block(Part(doc, r), p)[k].entry.tag != tag
    ensures WellFormed(InsertedNodes(doc, r, p, Position(Block(Part(doc, r), p), r == Header && p == [], members, tag), cs))
  {
    hide NodeSize, Size, Shaped, Position;
    var block, header := Block(Part(doc, r), p), r == Header && p == [];
    var k := Position(block, header, members, tag);
    BlocksShaped(doc, r, p, block);
    if p != [] {
      IntoGroupOwner(Part(doc, r), p, false);
    }
    ShapedPaired(if header then Fields(block) else block);
    PositionNotSplit(block, header, members, tag);
    WithinHeader(doc, r, p, k);
    if FitsGap(doc, r, p, k, cs) {
      FillKeepsShape(doc, k, cs);
    } else {
      KeepsShape(doc, r, p, k, k, cs);
    }
  }

  lemma {:induction false} ShapedPaired(ns: seq<Node>)
    requires Shaped(ns, false)
    ensures Paired(ns)
  {
  }

  /** What a block that holds fields is known to be. */
  lemma {:induction false} FieldsShaped(doc: Doc, r: Region, p: Path)
    requires WellFormed(doc) && HoldsFields(doc, r, p)
    ensures var block, header := Block(Part(doc, r), p), r == Header && p == [];
            && Shaped(if header then Fields(block) else block, false)
            && (header ==> |Fields(block)| <= |block| && forall k :: |Fields(block)| <= k < |block| ==> block[k].entry.kind.Gap?)
  {
    BlocksShaped(doc, r, p, Block(Part(doc, r), p));
    if p != [] {
      IntoGroupOwner(Part(doc, r), p, false);
    }
  }

  lemma {:induction false} FirstField(doc: Doc, r: Region, p: Path, tag: nat)
    requires WellFormed(doc) && HoldsFields(doc, r, p)
    requires First(Block(Part(doc, r), p), HasTag(tag)) < |Block(Part(doc, r), p)|
    ensures r == Header && p == [] ==> First(Block(Part(doc, r), p), HasTag(tag)) < |Fields(doc.header)|
    ensures Paired(Block(Part(doc, r), p))
  {
    hide Shaped;
    FieldsShaped(doc, r, p);
    var block := Block(Part(doc, r), p);
    ShapedPaired(if r == Header && p == [] then Fields(block) else block);
    if r == Header && p == [] {
      PairedWithGap(block);
    }
  }

  lemma {:induction false} PairedWithGap(header: seq<Node>)
    requires Paired(Fields(header))
    ensures Paired(header)
  {
    if EndsInGap(header) {
      var gap := header[|header| - 1];
      PairsAppend(Fields(header), [gap]);
      assert header == Fields(header) + [gap];
    }
  }

  /** Putting a field or a pair, over the old one or at its position. */
  lemma {:induction false} PutKeepsShape(doc: Doc, r: Region, p: Path, members: Option<Members>, entries: seq<Entry>)
    requires WellFormed(doc) && HoldsFields(doc, r, p) && FieldOrPair(entries)
    requires KindsAgree(Block(Part(doc, r), p), entries)
    requires (p == [] ==> members == None) && Lists(members, Block(Part(doc, r), p))
    requires First(Block(Part(doc, r), p), HasTag(entries[|entries| - 1].tag)) == |Block(Part(doc, r), p)| ==>
               forall k :: 0 <= k < |Block(Part(doc, r), p)| && Block(Part(doc, r), p)[k].entry.kind.DataLen? ==>
                 Block(Part(doc, r), p)[k].entry.tag != entries[0].tag
    ensures WellFormed(Put(doc, r, p, members, entries))
  {
    hide NodeSize, Size, Shaped, Position, WellFormed, HasTag;
    var block := Block(Part(doc, r), p);
    var k := First(block, HasTag(entries[|entries| - 1].tag));
    LeavesShaped(entries);
    if k < |block| {
      FirstField(doc, r, p, entries[|entries| - 1].tag);
      KeepsShape(doc, r, p, k + 1 - |entries|, k + 1, Leaves(entries));
    } else {
      InsertKeepsShape(doc, r, p, members, entries[0].tag, Leaves(entries));
    }
  }

  /** Removing a field, a pair or a group. */
  lemma {:induction false} WithoutKeepsShape(doc: Doc, r: Region, p: Path, tag: nat)
    requires WellFormed(doc) && HoldsFields(doc, r, p) && Paired(Block(Part(doc, r), p))
    ensures WellFormed(Without(doc, r, p, tag))
  {
    hide NodeSize, Size, WellFormed, HasTag, Whole, NotSplit;
    var block := Block(Part(doc, r), p);
    var k := First(block, HasTag(tag));
    if k < |block| {
      FirstField(doc, r, p, tag);
      HeaderWhole(doc, r, p, k);
      WholeNotSplit(block, k);
      NothingShaped();
      KeepsShape(doc, r, p, Whole(block, k).0, Whole(block, k).1, []);
    }
  }

  lemma {:induction false} WholeNotSplit(block: seq<Node>, k: nat)
    requires k < |block| && Paired(block)
    ensures Whole(block, k).1 <= |block| && NotSplit(block, Whole(block, k).0) && NotSplit(block, Whole(block, k).1)
  {
    var i := Whole(block, k).0;
    if i > 0 && block[i - 1].entry.kind.DataLen? {
      LengthThenData(block, i - 1);
      assert false;
    }
  }

  lemma {:induction false} LengthThenData(block: seq<Node>, k: nat)
    requires Paired(block) && k < |block| && block[k].entry.kind.DataLen?
    ensures k + 1 < |block| && block[k + 1].entry.kind.Data?
  {
  }

  lemma {:induction false} NothingShaped()
    ensures Shaped([], false)
  {
  }

  lemma {:induction false} HeaderWhole(doc: Doc, r: Region, p: Path, k: nat)
    requires WellFormed(doc) && HoldsFields(doc, r, p) && k < |Block(Part(doc, r), p)| && Paired(Block(Part(doc, r), p))
    requires r == Header && p == [] ==> k < |Fields(doc.header)|
    ensures r == Header && p == [] ==> Whole(doc.header, k).1 <= |Fields(doc.header)|
  {
    hide NodeSize, Size;
    if r == Header && p == [] {
      FieldsShaped(doc, r, p);
    }
  }

  // ---------------------------------------------------------------------
  // Groups
  // ---------------------------------------------------------------------

  /** The instances of a group exchanged for others. */
  lemma {:induction false} InstancesKeepShape(doc: Doc, r: Region, p: Path, k: nat, i: nat, j: nat, cs: seq<Node>)
    requires WellFormed(doc) && IsGroupAt(doc, r, p, k) && Shaped(cs, true)
    requires IsBlock(doc, r, p + [k]) && Block(Part(doc, r), p + [k]) == Block(Part(doc, r), p)[k].kids
    requires i <= j <= |Block(Part(doc, r), p)[k].kids|
    ensures WellFormed(Edited(doc, r, p + [k], i, j, cs))
    ensures Shaped(Block(Part(doc, r), p)[k].kids, true)
  {
    hide NodeSize, Size, WellFormed, Shaped;
    var kids := Block(Part(doc, r), p)[k].kids;
    Further(doc, r, p, k);
    BlocksShaped(doc, r, p + [k], Exchanged(kids, i, j, cs));
    IntoGroupOwner(Part(doc, r), p + [k], false);
    InstancesExchanged(kids, i, j, cs);
  }

  lemma {:induction false} InstancesExchanged(ns: seq<Node>, i: nat, j: nat, cs: seq<Node>)
    requires i <= j <= |ns| && Shaped(ns, true) && Shaped(cs, true)
    ensures Shaped(Exchanged(ns, i, j, cs), true)
  {
    hide ShapedNode;
    var b := Exchanged(ns, i, j, cs);
    forall k | 0 <= k < |b|
      ensures ShapedNode(b[k], true)
    {
      assert b[k] == if k < i then ns[k] else if k < i + |cs| then cs[k - i] else ns[k - i - |cs| + j];
    }
  }

  lemma {:induction false} NodeGoneKeepsShape(doc: Doc, r: Region, p: Path, k: nat)
    requires WellFormed(doc) && HoldsFields(doc, r, p) && IsGroupAt(doc, r, p, k)
    ensures WellFormed(NodeGone(doc, r, p, k))
  {
    hide NodeSize, Size, WellFormed;
    var block := Block(Part(doc, r), p);
    FieldsShaped(doc, r, p);
    NothingShaped();
    if r == Header && p == [] {
      PairedWithGap(block);
    }
    assert NotSplit(block, k) && NotSplit(block, k + 1);
    KeepsShape(doc, r, p, k, k + 1, []);
  }

  lemma {:induction false} KeptShaped(ns: seq<Node>, keep: seq<bool>)
    requires |keep| == |ns| && Shaped(ns, true)
    ensures Shaped(Kept(ns, keep), true)
    decreases |ns|
  {
    if ns != [] {
      var last := |ns| - 1;
      assert ShapedNode(ns[last], true);
      KeptShaped(ns[..last], keep[..last]);
    }
  }

  // ---------------------------------------------------------------------
  // What a view can rely on
  // ---------------------------------------------------------------------

  /** A view onto a block of a well-formed message meets what every edit through it asks for. */
  lemma {:induction false} ReadyToEdit(doc: Doc, place: Place, p: Path)
    requires WellFormed(doc) && Fits(doc, place, p)
    ensures var block := Block(Part(doc, place.region), p);
            && Tidy(doc) && AllLeafy(block) && Paired(block) && FieldBlock(block) && GroupsOfInstances(block)
            && forall k :: 0 <= k < |block| && block[k].entry.kind.Group? ==>
                 HasGroup(doc, place, p, k, block[k].entry.tag)
  {
    var r, block := place.region, Block(Part(doc, place.region), p);
    WellFormedTidy(doc);
    FieldsShaped(doc, r, p);
    WithinHeader(doc, r, p, |block|);
    hide *;
    BlockReady(block, r == Header && p == []);
    assert forall k :: 0 <= k < |block| && block[k].entry.kind.Group? ==> HasGroup(doc, place, p, k, block[k].entry.tag) by {
      GroupsThere(doc, place, p);
    }
  }

  lemma {:induction false} GroupsThere(doc: Doc, place: Place, p: Path)
    requires Tidy(doc) && Fits(doc, place, p)
    requires AllLeafy(Block(Part(doc, place.region), p)) && GroupsOfInstances(Block(Part(doc, place.region), p))
    ensures var block := Block(Part(doc, place.region), p);
            forall k :: 0 <= k < |block| && block[k].entry.kind.Group? ==> HasGroup(doc, place, p, k, block[k].entry.tag)
  {
    hide Part, Block, Around, Tidy, AllLeafy;
  }

  lemma {:induction false} BlockReady(block: seq<Node>, header: bool)
    requires Shaped(if header then Fields(block) else block, false)
    requires header ==> |Fields(block)| <= |block| && forall k :: |Fields(block)| <= k < |block| ==> block[k].entry.kind.Gap?
    requires header ==> forall k :: 0 <= k < |block| && block[k].entry.kind.Gap? ==> block[k].kids == []
    ensures AllLeafy(block) && Paired(block) && FieldBlock(block) && GroupsOfInstances(block)
  {
    hide Shaped;
    var fields := if header then Fields(block) else block;
    ShapedPaired(fields);
    if header {
      PairedWithGap(block);
    }
    forall k | 0 <= k < |block|
      ensures Leafy(block[k]) && !block[k].entry.kind.Instance? && Solid(block[k].kids)
      ensures block[k].entry.kind.Group? ==> AllInstances(block[k].kids)
    {
      if k < |fields| {
        assert fields[k] == block[k];
        ShapedAt(fields, false, k);
        if block[k].entry.kind.Group? {
          ShapedSolid(block[k].kids, true);
          ShapedInstances(block[k].kids);
        }
      }
    }
  }

  lemma {:induction false} ShapedInstances(ns: seq<Node>)
    requires Shaped(ns, true)
    ensures AllInstances(ns)
  {
    forall i | 0 <= i < |ns| ensures ns[i].entry.kind.Instance? {
      ShapedAt(ns, true, i);
    }
  }

  lemma {:induction false} ShapedSolid(ns: seq<Node>, group: bool)
    requires Shaped(ns, group)
    ensures Solid(ns)
    decreases ns
  {
    forall i | 0 <= i < |ns|
      ensures !ns[i].entry.kind.Gap? && Solid(ns[i].kids)
    {
      ShapedAt(ns, group, i);
      if ns[i].entry.kind.Group? || ns[i].entry.kind.Instance? {
        ShapedSolid(ns[i].kids, ns[i].entry.kind.Group?);
      }
    }
  }
}
