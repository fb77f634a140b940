/**
 * Repeating groups being edited (message/edit.rs): instances put in and taken out, with the group
 * itself going when its last instance does.
 */
module Groups {
  import opened Tape
  import opened Document
  import opened Editing
  import opened Lookup
  import opened Messages

  // ---------------------------------------------------------------------
  // One level further in
  // ---------------------------------------------------------------------

  /** A node of a block that is a block itself. */
  predicate Opens(doc: Doc, r: Region, p: Path, k: nat) {
    && IsBlock(doc, r, p)
    && k < |Block(Part(doc, r), p)|
    && (Block(Part(doc, r), p)[k].entry.kind.Group? || Block(Part(doc, r), p)[k].entry.kind.Instance?)
  }

  lemma {:induction false} FurtherBlock(ns: seq<Node>, p: Path, k: nat, depth: nat)
    requires ValidPath(ns, p) && Spanned(ns, p) && k < |Block(ns, p)|
    requires Block(ns, p)[k].entry.kind.Group? || Block(ns, p)[k].entry.kind.Instance?
    ensures var q, n := p + [k], Block(ns, p)[k];
            && ValidPath(ns, q) && Spanned(ns, q)
            && Block(ns, q) == n.kids && Owner(ns, q) == n
            && BlockDepth(ns, q, depth) == KidDepth(n, BlockDepth(ns, p, depth))
    decreases p
  {
    var q := p + [k];
    if p == [] {
      assert q[1..] == [] && q[0] == k;
    } else {
      assert q[1..] == p[1..] + [k] && q[0] == p[0];
      FurtherBlock(ns[p[0]].kids, p[1..], k, KidDepth(ns[p[0]], depth));
    }
  }

  lemma {:induction false} FurtherOffset(ns: seq<Node>, p: Path, k: nat)
    requires ValidPath(ns, p) && k < |Block(ns, p)| && ValidPath(ns, p + [k])
    ensures Offset(ns, p + [k]) == Offset(ns, p) + Size(Block(ns, p)[..k]) + 1
    decreases p
  {
    hide Size, NodeSize;
    var q := p + [k];
    if p == [] {
      assert q[1..] == [] && q[0] == k;
    } else {
      assert q[1..] == p[1..] + [k] && q[0] == p[0];
      FurtherOffset(ns[p[0]].kids, p[1..], k);
    }
  }

  lemma {:induction false} FurtherAncestors(ns: seq<Node>, p: Path, k: nat, base: nat)
    requires ValidPath(ns, p) && k < |Block(ns, p)| && ValidPath(ns, p + [k])
    ensures Ancestors(ns, p + [k], base) == Ancestors(ns, p, base) + [base + Offset(ns, p) + Size(Block(ns, p)[..k])]
    decreases p
  {
    hide Size, NodeSize;
    var q := p + [k];
    if p == [] {
      assert q[1..] == [] && q[0] == k;
    } else {
      assert q[1..] == p[1..] + [k] && q[0] == p[0];
      FurtherAncestors(ns[p[0]].kids, p[1..], k, base + Size(ns[..p[0]]) + 1);
    }
  }

  /** The block inside a group or an instance, and what is around it. */
  lemma {:induction false} Further(doc: Doc, r: Region, p: Path, k: nat)
    requires Opens(doc, r, p, k)
    ensures var q, n := p + [k], Block(Part(doc, r), p)[k];
            && IsBlock(doc, r, q)
            && Block(Part(doc, r), q) == n.kids && Owner(Part(doc, r), q) == n
            && At(doc, r, q, 0) == At(doc, r, p, k) + 1
            && Depth(doc, r, q) == KidDepth(n, Depth(doc, r, p))
            && Around(doc, r, q) == Around(doc, r, p) + [At(doc, r, p, k)]
  {
    FurtherBlock(Part(doc, r), p, k, 0);
    FurtherOffset(Part(doc, r), p, k);
    FurtherAncestors(Part(doc, r), p, k, Start(doc, r));
  }

  /** An edit inside a node of a block is an edit of that node. */
  lemma {:induction false} EditedFurther(doc: Doc, r: Region, p: Path, k: nat, i: nat, j: nat, cs: seq<Node>)
    requires Opens(doc, r, p, k)
    requires IsBlock(doc, r, p + [k]) && Block(Part(doc, r), p + [k]) == Block(Part(doc, r), p)[k].kids
    requires i <= j <= |Block(Part(doc, r), p)[k].kids|
    ensures var n := Block(Part(doc, r), p)[k];
            Edited(doc, r, p + [k], i, j, cs)
            == Edited(doc, r, p, k, k + 1, [n.(kids := Exchanged(n.kids, i, j, cs))])
  {
    var ns, block := Part(doc, r), Block(Part(doc, r), p);
    var n := block[k];
    SetBlockFurther(ns, p, [k], Exchanged(n.kids, i, j, cs));
    assert [k][1..] == [];
    assert SetBlock(block, [k], Exchanged(n.kids, i, j, cs)) == block[k := n.(kids := Exchanged(n.kids, i, j, cs))];
    assert block[k := n.(kids := Exchanged(n.kids, i, j, cs))]
           == Exchanged(block, k, k + 1, [n.(kids := Exchanged(n.kids, i, j, cs))]);
  }

  // ---------------------------------------------------------------------
  // Counts
  // ---------------------------------------------------------------------

  lemma {:induction false} GrowKeeps(tape: seq<Entry>, at: seq<nat>, n: int, i: nat)
    requires (forall k :: 0 <= k < |at| ==> at[k] < |tape|) && i < |tape|
    ensures GrowAll(tape, at, n)[i].off == tape[i].off
    ensures GrowAll(tape, at, n)[i].kind == tape[i].kind
    decreases |at|
  {
    if at != [] {
      GrowKeeps(tape[at[0] := Grow(tape[at[0]], n)], at[1..], n, i);
    }
  }

  /** A splice leaves the counts before it. */
  lemma {:induction false} SpliceKeeps(tape: seq<Entry>, at: seq<nat>, lo: nat, hi: nat, entries: seq<Entry>, i: nat)
    requires i < lo <= hi <= |tape| && forall k :: 0 <= k < |at| ==> at[k] < lo
    ensures i < |Spliced(tape, at, lo, hi, entries)|
    ensures Spliced(tape, at, lo, hi, entries)[i].off == tape[i].off
    ensures Spliced(tape, at, lo, hi, entries)[i].kind == tape[i].kind
  {
    GrowKeeps(tape[..lo], at, |entries| - (hi - lo), i);
  }

  /** A tape with a group's count set. */
  function CountSet(tape: seq<Entry>, g: nat, count: nat): seq<Entry>
    requires g < |tape|
  {
    tape[g := tape[g].(off := count)]
  }

  lemma {:induction false} RecountedIs(tape: seq<Entry>, at: seq<nat>, g: nat, count: nat)
    requires g < |tape| && tape[g].kind.Group? && forall i :: 0 <= i < |at + [g]| ==> (at + [g])[i] < |tape|
    ensures Recounted(tape, at + [g], count) == CountSet(tape, g, count)
  {
  }

  /** The entry of a group. */
  lemma {:induction false} GroupEntryAt(doc: Doc, r: Region, p: Path, k: nat)
    requires Opens(doc, r, p, k) && Block(Part(doc, r), p)[k].entry.kind.Group?
    ensures At(doc, r, p, k) < |ImageOf(doc).tape|
    ensures var e, n := ImageOf(doc).tape[At(doc, r, p, k)], Block(Part(doc, r), p)[k];
            && e.kind.Group? && e.tag == n.entry.tag && e.off == |n.kids| && e.depth == Depth(doc, r, p)
            && At(doc, r, p, k) + e.Span() == At(doc, r, p, k + 1)
  {
    EntryAt(doc, r, p, k);
  }

  // ---------------------------------------------------------------------
  // Instances put in and taken out
  // ---------------------------------------------------------------------

  const INSTANCE := Entry(0, Instance, 0, Wire, 0, 0, 1)

  const EMPTY_INSTANCE := Node(INSTANCE, [])

  /** A group's entry before it has instances. */
  function GroupEntry(tag: nat): Entry {
    Entry(tag, Group, 0, Wire, 0, 0, 1)
  }

  lemma {:induction false} EmptyFlat(tag: nat, depth: nat)
    ensures Flat([EMPTY_INSTANCE], depth) == [INSTANCE.(depth := depth)]
    ensures Flat([Node(GroupEntry(tag), [])], depth) == [GroupEntry(tag).(depth := depth)]
    ensures Size([EMPTY_INSTANCE]) == 1
  {
    FlatOne(EMPTY_INSTANCE, depth);
    FlatOne(Node(GroupEntry(tag), []), depth);
  }

  /** Whether this is a group of a block. */
  predicate IsGroupAt(doc: Doc, r: Region, p: Path, k: nat) {
    Opens(doc, r, p, k) && Block(Part(doc, r), p)[k].entry.kind.Group?
  }

  /** What putting an entry into a group and counting it come to. */
  lemma {:induction false} InsertInstance(doc: Doc, r: Region, p: Path, k: nat, n: nat)
    requires Tidy(doc) && IsGroupAt(doc, r, p, k) && n <= |Block(Part(doc, r), p)[k].kids|
    requires IsBlock(doc, r, p + [k]) && Block(Part(doc, r), p + [k]) == Block(Part(doc, r), p)[k].kids
    ensures var g, at, a := At(doc, r, p, k), Around(doc, r, p) + [At(doc, r, p, k)], At(doc, r, p + [k], n);
            && CanInsert(ImageOf(doc).tape, at, a)
            && var im := Inserted(ImageOf(doc), r, at, a, [INSTANCE.(depth := Depth(doc, r, p) + 1)]);
               && g < |im.tape| && im.tape[g].off == |Block(Part(doc, r), p)[k].kids|
               && ImageOf(Edited(doc, r, p + [k], n, n, [EMPTY_INSTANCE]))
                  == im.(tape := CountSet(im.tape, g, im.tape[g].off + 1))
  {
    hide ImageOf, At, Part, Flat, Edited, Inserted, CanInsert, CountSet, Recounted, Around, Depth, Block;
    var kids := Block(Part(doc, r), p)[k].kids;
    var q, g := p + [k], At(doc, r, p, k);
    Further(doc, r, p, k);
    EmptyFlat(0, Depth(doc, r, p) + 1);
    InsertRefines(doc, r, q, n, [EMPTY_INSTANCE]);
    GroupEntryAt(doc, r, p, k);
    AtWithin(doc, r, q, n);
    InsertKeeps(ImageOf(doc), r, Around(doc, r, q), At(doc, r, q, n), [INSTANCE.(depth := Depth(doc, r, p) + 1)], g);
    RecountedIs(Inserted(ImageOf(doc), r, Around(doc, r, q), At(doc, r, q, n), [INSTANCE.(depth := Depth(doc, r, p) + 1)]).tape,
                Around(doc, r, p), g, |kids| + 1);
  }

  lemma {:induction false} InsertKeeps(im: Image, r: Region, at: seq<nat>, a: nat, entries: seq<Entry>, i: nat)
    requires CanInsert(im.tape, at, a) && at != [] && i < a
    ensures var t := Inserted(im, r, at, a, entries).tape;
            a <= |t| && t[i].off == im.tape[i].off && t[i].kind == im.tape[i].kind
  {
    SpliceKeeps(im.tape, at, a, a, entries, i);
  }

  /** What taking an instance out of a group and uncounting it come to. */
  lemma {:induction false} RemoveInstance(doc: Doc, r: Region, p: Path, k: nat, n: nat)
    requires IsGroupAt(doc, r, p, k) && n < |Block(Part(doc, r), p)[k].kids|
    requires Block(Part(doc, r), p)[k].kids[n].entry.kind.Instance?
    requires IsBlock(doc, r, p + [k]) && Block(Part(doc, r), p + [k]) == Block(Part(doc, r), p)[k].kids
    ensures var g, at, a := At(doc, r, p, k), Around(doc, r, p) + [At(doc, r, p, k)], At(doc, r, p + [k], n);
            && CanRemove(ImageOf(doc).tape, at, a)
            && var im := Removed(ImageOf(doc), r, at, a);
               && g < |im.tape| && im.tape[g].off == |Block(Part(doc, r), p)[k].kids|
               && ImageOf(Edited(doc, r, p + [k], n, n + 1, []))
                  == im.(tape := CountSet(im.tape, g, im.tape[g].off - 1))
  {
    hide ImageOf, At, Part, Flat, Edited, Removed, CanRemove, CountSet, Recounted, Around, Depth, Block;
    var kids := Block(Part(doc, r), p)[k].kids;
    var q, g := p + [k], At(doc, r, p, k);
    Further(doc, r, p, k);
    RemoveRefines(doc, r, q, n);
    GroupEntryAt(doc, r, p, k);
    AtWithin(doc, r, q, n);
    RemoveKeeps(ImageOf(doc), r, Around(doc, r, q), At(doc, r, q, n), g);
    RecountedIs(Removed(ImageOf(doc), r, Around(doc, r, q), At(doc, r, q, n)).tape, Around(doc, r, p), g, |kids| - 1);
  }

  lemma {:induction false} RemoveKeeps(im: Image, r: Region, at: seq<nat>, a: nat, i: nat)
    requires CanRemove(im.tape, at, a) && i < a
    ensures var t := Removed(im, r, at, a).tape;
            a <= |t| && t[i].off == im.tape[i].off && t[i].kind == im.tape[i].kind
  {
    SpliceKeeps(im.tape, at, a, a + im.tape[a].Span(), [], i);
  }

  /** Replacing all of a group's instances. */
  lemma {:induction false} ReplaceInstances(doc: Doc, r: Region, p: Path, k: nat, kids: seq<Node>)
    requires IsGroupAt(doc, r, p, k)
    requires IsBlock(doc, r, p + [k]) && Block(Part(doc, r), p + [k]) == Block(Part(doc, r), p)[k].kids
    ensures var g, at := At(doc, r, p, k), Around(doc, r, p) + [At(doc, r, p, k)];
            var lo, hi := g + 1, At(doc, r, p, k + 1);
            && lo <= hi <= |ImageOf(doc).tape|
            && (forall i :: 0 <= i < |at| ==> at[i] < lo)
            && var t := Spliced(ImageOf(doc).tape, at, lo, hi, Flat(kids, Depth(doc, r, p) + 1));
               && g < |t|
               && ImageOf(Edited(doc, r, p + [k], 0, |Block(Part(doc, r), p)[k].kids|, kids))
                  == WithShift(ImageOf(doc), CountSet(t, g, |kids|), r, Size(kids) - (hi - lo))
  {
    hide ImageOf, At, Part, Flat, Edited, CountSet, Recounted, Around, Depth, Block, Spliced, Exchanged, Shifted;
    var was := Block(Part(doc, r), p)[k].kids;
    var q, g := p + [k], At(doc, r, p, k);
    Further(doc, r, p, k);
    SpliceRefines(doc, r, q, 0, |was|, kids);
    GroupEntryAt(doc, r, p, k);
    EntryAt(doc, r, p, k);
    EndAt(doc, r, q);
    GroupSize(Block(Part(doc, r), p)[k]);
    ExchangedAll(was, kids);
    var t := Spliced(ImageOf(doc).tape, Around(doc, r, q), g + 1, At(doc, r, p, k + 1), Flat(kids, Depth(doc, r, p) + 1));
    SpliceKeeps(ImageOf(doc).tape, Around(doc, r, q), g + 1, At(doc, r, p, k + 1), Flat(kids, Depth(doc, r, p) + 1), g);
    SpliceLength(ImageOf(doc).tape, Around(doc, r, q), g + 1, At(doc, r, p, k + 1), Flat(kids, Depth(doc, r, p) + 1));
    RecountedIs(t, Around(doc, r, p), g, |kids|);
  }

  lemma {:induction false} GroupSize(n: Node)
    requires n.entry.kind.Group?
    ensures NodeSize(n) == 1 + Size(n.kids)
  {
  }

  lemma {:induction false} ExchangedAll(was: seq<Node>, kids: seq<Node>)
    ensures Exchanged(was, 0, |was|, kids) == kids
  {
  }

  lemma {:induction false} SpliceLength(tape: seq<Entry>, at: seq<nat>, lo: nat, hi: nat, entries: seq<Entry>)
    requires lo <= hi <= |tape| && forall i :: 0 <= i < |at| ==> at[i] < lo
    ensures lo <= |Spliced(tape, at, lo, hi, entries)|
  {
  }

  // ---------------------------------------------------------------------
  // A view of a group, before and after an edit inside it
  // ---------------------------------------------------------------------

  predicate AllInstances(ns: seq<Node>) {
    forall i :: 0 <= i < |ns| ==> ns[i].entry.kind.Instance?
  }

  predicate GroupsOfInstances(ns: seq<Node>) {
    forall i :: 0 <= i < |ns| && ns[i].entry.kind.Group? ==> AllInstances(ns[i].kids)
  }

  /** The group is there, with nothing but instances in it, behind the view's block. */
  ghost predicate HasGroup(doc: Doc, place: Place, p: Path, k: nat, tag: nat) {
    && Tidy(doc)
    && Fits(doc, place, p)
    && AllLeafy(Block(Part(doc, place.region), p))
    && IsGroupAt(doc, place.region, p, k)
    && Block(Part(doc, place.region), p)[k].entry.tag == tag
    && AllInstances(Block(Part(doc, place.region), p)[k].kids)
  }

  /** An edit of a group's instances leaves the group where it is. */
  lemma {:induction false} InsideGroup(doc: Doc, place: Place, p: Path, k: nat, tag: nat, i: nat, j: nat, cs: seq<Node>)
    requires HasGroup(doc, place, p, k, tag) && AllInstances(cs)
    requires i <= j <= |Block(Part(doc, place.region), p)[k].kids|
    ensures IsBlock(doc, place.region, p + [k])
    ensures Block(Part(doc, place.region), p + [k]) == Block(Part(doc, place.region), p)[k].kids
    ensures var r, doc' := place.region, Edited(doc, place.region, p + [k], i, j, cs);
            && HasGroup(doc', place, p, k, tag)
            && At(doc', r, p, k) == At(doc, r, p, k)
            && Block(Part(doc', r), p)[k].kids == Exchanged(Block(Part(doc, r), p)[k].kids, i, j, cs)
  {
    var r, block := place.region, Block(Part(doc, place.region), p);
    Further(doc, r, p, k);
    EditedFurther(doc, r, p, k, i, j, cs);
    var n' := block[k].(kids := Exchanged(block[k].kids, i, j, cs));
    hide Part, Block, Around, At, Edited, Leafy, Tidy;
    FitsEdited(doc, place, p, k, k + 1, [n']);
    WithinHeader(doc, r, p, k + 1);
    TidyEdited(doc, r, p, k, k + 1, [n']);
    EditedStays(doc, r, p, k, k + 1, [n']);
    OneExchanged(block, k, n');
    AtEdited(doc, r, p, k, k + 1, [n'], k);
  }

  lemma {:induction false} OneExchanged(block: seq<Node>, k: nat, n: Node)
    requires k < |block| && AllLeafy(block) && Leafy(n)
    ensures Exchanged(block, k, k + 1, [n]) == block[k := n]
    ensures AllLeafy(Exchanged(block, k, k + 1, [n]))
  {
  }

  /** What comes before an edit stays where it is. */
  lemma {:induction false} AtEdited(doc: Doc, r: Region, p: Path, i: nat, j: nat, cs: seq<Node>, k: nat)
    requires IsBlock(doc, r, p) && k <= i <= j <= |Block(Part(doc, r), p)|
    ensures var doc' := Edited(doc, r, p, i, j, cs);
            IsBlock(doc', r, p) && k <= |Block(Part(doc', r), p)| && At(doc', r, p, k) == At(doc, r, p, k)
  {
    var block' := Exchanged(Block(Part(doc, r), p), i, j, cs);
    SetBlockStays(Part(doc, r), p, block', Start(doc, r), 0);
    assert block'[..k] == Block(Part(doc, r), p)[..k];
  }

  /** The place of an instance's block. */
  function InstancePlace(place: Place, members: Option<Members>, g: nat, q: nat): Place {
    Place(InInstance(q), place.region, members, place.ancestors + [g] + [q])
  }

  lemma {:induction false} InstanceFits(doc: Doc, place: Place, p: Path, k: nat, tag: nat, n: nat,
                                        members: Option<Members>)
    requires HasGroup(doc, place, p, k, tag) && n < |Block(Part(doc, place.region), p)[k].kids|
    ensures IsBlock(doc, place.region, p + [k])
    ensures Block(Part(doc, place.region), p + [k]) == Block(Part(doc, place.region), p)[k].kids
    ensures Fits(doc, InstancePlace(place, members, At(doc, place.region, p, k), At(doc, place.region, p + [k], n)),
                 p + [k] + [n])
  {
    hide Part, Block, Around, At, Tidy, Leafy, Owner;
    Further(doc, place.region, p, k);
    Further(doc, place.region, p + [k], n);
  }

  // ---------------------------------------------------------------------
  // The operations, on trees
  // ---------------------------------------------------------------------

  /** A block without one of its nodes. */
  function NodeGone(doc: Doc, r: Region, p: Path, k: nat): Doc
    requires IsBlock(doc, r, p) && k < |Block(Part(doc, r), p)|
  {
    Edited(doc, r, p, k, k + 1, [])
  }

  /** An instance put into a group, empty. */
  function InstanceAdded(doc: Doc, r: Region, p: Path, k: nat, n: nat): Doc
    requires IsGroupAt(doc, r, p, k) && n <= |Block(Part(doc, r), p)[k].kids|
  {
    Further(doc, r, p, k);
    Edited(doc, r, p + [k], n, n, [EMPTY_INSTANCE])
  }

  /** A group without its `n`th instance; without the group, when it had no other. */
  function InstanceGone(doc: Doc, r: Region, p: Path, k: nat, n: nat): Doc
    requires IsGroupAt(doc, r, p, k) && n < |Block(Part(doc, r), p)[k].kids|
  {
    Further(doc, r, p, k);
    if |Block(Part(doc, r), p)[k].kids| == 1 then NodeGone(doc, r, p, k) else Edited(doc, r, p + [k], n, n + 1, [])
  }

  /** The instances to keep. */
  function Kept(ns: seq<Node>, keep: seq<bool>): (s: seq<Node>)
    requires |keep| == |ns|
    ensures |s| <= |ns|
    decreases |ns|
  {
    if ns == [] then []
    else
      var last := |ns| - 1;
      Kept(ns[..last], keep[..last]) + (if keep[last] then [ns[last]] else [])
  }

  lemma {:induction false} KeptNext(ns: seq<Node>, keep: seq<bool>, i: nat, depth: nat)
    requires |keep| == |ns| && i < |ns|
    ensures Kept(ns[..i + 1], keep[..i + 1]) == Kept(ns[..i], keep[..i]) + (if keep[i] then [ns[i]] else [])
    ensures Flat(Kept(ns[..i + 1], keep[..i + 1]), depth)
            == Flat(Kept(ns[..i], keep[..i]), depth) + (if keep[i] then FlatNode(ns[i], depth) else [])
  {
    assert ns[..i + 1][..i] == ns[..i] && keep[..i + 1][..i] == keep[..i];
    var kept := Kept(ns[..i], keep[..i]);
    FlatAppend(kept, [ns[i]], depth);
    FlatOne(ns[i], depth);
    assert kept + [] == kept && Flat(kept, depth) + [] == Flat(kept, depth);
  }

  /** Keeping fewer instances takes fewer entries. */
  lemma {:induction false} KeptSize(ns: seq<Node>, keep: seq<bool>)
    requires |keep| == |ns|
    ensures Size(Kept(ns, keep)) <= Size(ns)
    ensures Size(Kept(ns, keep)) == Size(ns) <==> |Kept(ns, keep)| == |ns|
    ensures AllInstances(ns) ==> AllInstances(Kept(ns, keep))
    decreases |ns|
  {
    if ns != [] {
      var last := |ns| - 1;
      hide Size, NodeSize;
      KeptSize(ns[..last], keep[..last]);
      assert ns == ns[..last] + [ns[last]];
      SizeAppend(ns[..last], [ns[last]]);
      SizeAppend(Kept(ns[..last], keep[..last]), [ns[last]]);
      FlatOne(ns[last], 0);
      assert Kept(ns[..last], keep[..last]) + [] == Kept(ns[..last], keep[..last]);
    }
  }

  /** Only some instances kept: the group goes if there are none. */
  function Retained(doc: Doc, r: Region, p: Path, k: nat, keep: seq<bool>): Doc
    requires IsGroupAt(doc, r, p, k) && |keep| == |Block(Part(doc, r), p)[k].kids|
  {
    Further(doc, r, p, k);
    var kids := Block(Part(doc, r), p)[k].kids;
    var kept := Kept(kids, keep);
    if |kept| == |kids| then doc
    else if kept == [] then NodeGone(doc, r, p, k)
    else Edited(doc, r, p + [k], 0, |kids|, kept)
  }

  // ---------------------------------------------------------------------
  // The view
  // ---------------------------------------------------------------------

  lemma {:induction false} KidsAt(doc: Doc, r: Region, p: Path, k: nat, n: nat)
    requires IsGroupAt(doc, r, p, k) && AllInstances(Block(Part(doc, r), p)[k].kids)
    requires n < |Block(Part(doc, r), p)[k].kids|
    ensures IsBlock(doc, r, p + [k]) && Block(Part(doc, r), p + [k]) == Block(Part(doc, r), p)[k].kids
    ensures At(doc, r, p + [k], n) < At(doc, r, p, k + 1) <= |ImageOf(doc).tape|
    ensures At(doc, r, p + [k], n + 1)
            == At(doc, r, p + [k], n) + ImageOf(doc).tape[At(doc, r, p + [k], n)].Span()
    ensures ImageOf(doc).tape[At(doc, r, p + [k], n)].kind.Instance?
  {
    hide Part, Block, Around, At, ImageOf;
    var kids := Block(Part(doc, r), p)[k].kids;
    Further(doc, r, p, k);
    KidsEnd(doc, r, p, k);
    EntryAt(doc, r, p + [k], n);
    SpanIsSize(kids[n], Depth(doc, r, p + [k]));
    HeadKind(kids[n], Depth(doc, r, p + [k]));
    AtOrdered(doc, r, p + [k], n, |kids|);
  }

  lemma {:induction false} KidsEnd(doc: Doc, r: Region, p: Path, k: nat)
    requires IsGroupAt(doc, r, p, k)
    ensures IsBlock(doc, r, p + [k]) && Block(Part(doc, r), p + [k]) == Block(Part(doc, r), p)[k].kids
    ensures At(doc, r, p + [k], 0) == At(doc, r, p, k) + 1
    ensures At(doc, r, p + [k], |Block(Part(doc, r), p)[k].kids|) == At(doc, r, p, k + 1) <= |ImageOf(doc).tape|
  {
    hide Part, Block, Around, At, ImageOf;
    Further(doc, r, p, k);
    EndAt(doc, r, p + [k]);
    EntryAt(doc, r, p, k);
    GroupSize(Block(Part(doc, r), p)[k]);
  }

  class GroupMut {
    const msg: Message
    const parent: Place
    const tag: nat
    const members: Option<Members>

    /** The group's entry, once it exists. */
    var idx: Option<nat>

    ghost const path: Path
    ghost var k: nat

    ghost function Siblings(): seq<Node>
      requires IsBlock(msg.doc, parent.region, path)
      reads msg`doc
    {
      Block(Part(msg.doc, parent.region), path)
    }

    /** The group the index was taken of is there. */
    ghost predicate Stands()
      reads this, msg`doc
    {
      idx.Some? && HasGroup(msg.doc, parent, path, k, tag) && idx.value == At(msg.doc, parent.region, path, k)
    }

    /** The index leads to a group of this tag, at this depth. */
    ghost predicate Leads()
      requires Fits(msg.doc, parent, path)
      reads this, msg`doc, msg`tape
    {
      && idx.Some? && idx.value < |msg.tape|
      && var e := msg.tape[idx.value];
         e.kind.Group? && e.tag == tag && e.depth == Depth(msg.doc, parent.region, path)
    }

    /** The view is of a block that exists; its index may be stale, but then leads to no such group. */
    ghost predicate Good()
      reads this, msg
    {
      && msg.Valid()
      && Fits(msg.doc, parent, path)
      && AllLeafy(Siblings())
      && (Leads() ==> Stands())
    }

    constructor (msg: Message, parent: Place, tag: nat, members: Option<Members>, ghost path: Path)
      requires msg.Valid() && Fits(msg.doc, parent, path) && AllLeafy(Block(Part(msg.doc, parent.region), path))
      requires GroupsOfInstances(Block(Part(msg.doc, parent.region), path))
      ensures this.msg == msg && this.parent == parent && this.tag == tag && this.members == members && this.path == path
      ensures Good() && k == First(Siblings(), HasTag(tag))
      ensures Stands() <==> k < |Siblings()| && Siblings()[k].entry.kind.Group?
    {
      ghost var r, block := parent.region, Block(Part(msg.doc, parent.region), path);
      ghost var first := First(block, HasTag(tag));
      RangeFits(msg.doc, parent, path);
      AtWithin(msg.doc, r, path, 0);
      FoundFirst(msg.doc, r, path, tag);
      var start, end, depth := msg.OwnerRange(parent.holder);
      var found := msg.FindIn(start, end, depth, tag, None);
      if found.Some? {
        EntryAt(msg.doc, r, path, first);
        HeadKind(block[first], Depth(msg.doc, r, path));
      }
      this.msg, this.parent, this.tag, this.members, this.path, k := msg, parent, tag, members, path, first;
      idx := if found.Some? && msg.tape[found.value].kind.Group? then found else None;
      new;
      hide ImageOf, At, Part, Block, First, HasTag, Tidy, Leafy, Depth;
    }

    /** The group's entry, if it still is one. */
    method Current() returns (g: Option<nat>)
      requires Good()
      ensures g == if Stands() then idx else None
    {
      hide Tidy, ImageOf, At, Part, Block;
      RangeFits(msg.doc, parent, path);
      var start, end, depth := msg.OwnerRange(parent.holder);
      if idx.Some? {
        if Stands() {
          GroupEntryAt(msg.doc, parent.region, path, k);
        }
        var i := idx.value;
        if i < |msg.tape| && msg.tape[i].kind.Group? && msg.tape[i].tag == tag && msg.tape[i].depth == depth {
          return idx;
        }
      }
      return None;
    }

    method Len() returns (n: nat)
      requires Good()
      ensures n == if Stands() then |Siblings()[k].kids| else 0
    {
      hide Tidy, ImageOf, At, Part, Block;
      var g := Current();
      if g.Some? {
        GroupEntryAt(msg.doc, parent.region, path, k);
        return msg.tape[g.value].off;
      }
      return 0;
    }

    /** The index at which an instance is the `n`th, or would be if it came last; none beyond that, or without a group. */
    method InstanceAt(n: nat) returns (at: Option<nat>)
      requires Good()
      ensures at.Some? <==> Stands() && n <= |Siblings()[k].kids|
      ensures at.Some? ==>
                && IsBlock(msg.doc, parent.region, path + [k])
                && Block(Part(msg.doc, parent.region), path + [k]) == Siblings()[k].kids
                && at.value == At(msg.doc, parent.region, path + [k], n)
    {
      hide Tidy, ImageOf, At, Part, Block;
      var group := Current();
      if group.None? {
        return None;
      }
      ghost var r, q, kids := parent.region, path + [k], Siblings()[k].kids;
      KidsEnd(msg.doc, r, path, k);
      GroupEntryAt(msg.doc, r, path, k);
      var g := group.value;
      var len := Len();
      var end := g + msg.tape[g].Span();
      if n == len {
        return Some(end);
      }
      var i, m := g + 1, 0;
      while m < n
        invariant m <= n && m <= |kids| && i == At(msg.doc, r, q, m)
      {
        if m < |kids| {
          KidsAt(msg.doc, r, path, k, m);
        }
        if i >= end {
          return None;
        }
        i := i + msg.tape[i].Span();
        m := m + 1;
      }
      return Some(i);
    }

    /** Make sure the group exists. */
    method Ensure() returns (g: nat)
      requires Good()
      modifies this, msg`tape, msg`bodyStart, msg`trailerStart, msg`clean, msg`doc
      ensures Good() && Stands() && idx == Some(g)
      ensures old(Stands()) ==> msg.doc == old(msg.doc) && k == old(k) && g == old(idx).value
      ensures !old(Stands()) ==>
                && k == Position(old(Siblings()), parent.region == Header && path == [], parent.members, tag)
                && msg.doc == InsertedNodes(old(msg.doc), parent.region, path, k, [Node(GroupEntry(tag), [])])
                && Siblings()[k].kids == []
    {
      hide Tidy, ImageOf, At, Part, Block, Inserted, CanInsert, Position, InsertedNodes, Around, Leafy, Depth;
      var current := Current();
      if current.Some? {
        return current.value;
      }
      RangeFits(msg.doc, parent, path);
      var start, end, depth := msg.OwnerRange(parent.holder);
      g := msg.InsertPos(parent, tag, path);
      ghost var was := msg.doc;
      k := Position(Siblings(), parent.region == Header && path == [], parent.members, tag);
      NewGroup(was, parent, path, k, tag);
      msg.Insert(parent.region, parent.ancestors, g, [GroupEntry(tag).(depth := depth)]);
      msg.doc := InsertedNodes(was, parent.region, path, k, [Node(GroupEntry(tag), [])]);
      idx := Some(g);
    }

    /** Put an empty instance at position `n`, making the group first where there is none; `view` is onto it. */
    method Insert(n: nat) returns (view: Place)
      requires Good() && n <= (if Stands() then |Siblings()[k].kids| else 0)
      modifies this, msg`tape, msg`bodyStart, msg`trailerStart, msg`clean, msg`doc
      ensures Good() && Stands()
      ensures old(Stands()) ==> k == old(k) && msg.doc == InstanceAdded(old(msg.doc), parent.region, path, k, n)
      ensures !old(Stands()) ==>
                && k == Position(old(Siblings()), parent.region == Header && path == [], parent.members, tag)
                && var doc1 := InsertedNodes(old(msg.doc), parent.region, path, k, [Node(GroupEntry(tag), [])]);
                   && IsGroupAt(doc1, parent.region, path, k) && n <= |Block(Part(doc1, parent.region), path)[k].kids|
                   && msg.doc == InstanceAdded(doc1, parent.region, path, k, n)
      ensures Fits(msg.doc, view, path + [k] + [n]) && view.members == members
    {
      hide Tidy, ImageOf, At, Part, Block, Inserted, CanInsert, Position, InsertedNodes, Around, Leafy, Depth;
      var g := Ensure();
      view := AddInstance(g, n);
    }

    method AddInstance(g: nat, n: nat) returns (view: Place)
      requires Good() && Stands() && idx == Some(g) && n <= |Siblings()[k].kids|
      modifies msg`tape, msg`bodyStart, msg`trailerStart, msg`clean, msg`doc
      ensures Good() && Stands() && msg.doc == InstanceAdded(old(msg.doc), parent.region, path, k, n)
      ensures Fits(msg.doc, view, path + [k] + [n]) && view.members == members
    {
      hide Tidy, ImageOf, At, Part, Block, Inserted, CanInsert, Around, Leafy, Depth;
      ghost var r, was := parent.region, msg.doc;
      var found := InstanceAt(n);
      var at := found.value;
      GroupEntryAt(was, r, path, k);
      InsideGroup(was, parent, path, k, tag, n, n, [EMPTY_INSTANCE]);
      InsertInstance(was, r, path, k, n);
      AddedThere(was, parent, path, k, tag, n, members);
      var instance := INSTANCE.(depth := msg.tape[g].depth + 1);
      msg.Insert(parent.region, parent.ancestors + [g], at, [instance]);
      msg.tape := CountSet(msg.tape, g, msg.tape[g].off + 1);
      msg.doc := InstanceAdded(was, r, path, k, n);
      view := InstancePlace(parent, members, g, at);
    }

    /** Remove the whole group. */
    method Clear()
      requires Good()
      modifies this, msg`tape, msg`bodyStart, msg`trailerStart, msg`clean, msg`doc
      ensures Good() && (old(Stands()) ==> idx.None?) && !Stands()
      ensures msg.doc == if old(Stands()) then NodeGone(old(msg.doc), parent.region, path, old(k)) else old(msg.doc)
    {
      hide Tidy, ImageOf, At, Part, Block, Removed, CanRemove, Around, Leafy, Depth;
      var g := Current();
      if g.Some? {
        ghost var r, was := parent.region, msg.doc;
        GroupGone(was, parent, path, k, tag);
        idx := None;
        msg.RemoveAt(parent.region, parent.ancestors, g.value);
        msg.doc := NodeGone(was, r, path, k);
      }
    }

    /** `InstanceGone`, or nothing where there is no such instance. */
    method Remove(n: nat)
      requires Good()
      modifies this, msg`tape, msg`bodyStart, msg`trailerStart, msg`clean, msg`doc
      ensures Good()
      ensures msg.doc == if old(Stands()) && n < |old(Siblings())[old(k)].kids|
                         then InstanceGone(old(msg.doc), parent.region, path, old(k), n) else old(msg.doc)
    {
      hide Tidy, ImageOf, At, Part, Block, Around, Leafy, Depth, InstanceGone, NodeGone, Edited;
      var current := Current();
      if current.Some? {
        var len := Len();
        if n < len {
          ghost var was := msg.doc;
          InstanceGoneIs(was, parent, path, k, tag, n);
          RemoveAndUncount(n);
          if msg.tape[current.value].off == 0 {
            Clear();
          }
        }
      }
    }

    /** Take the `n`th instance out, and set the group's count. */
    method RemoveAndUncount(n: nat)
      requires Good() && Stands() && n < |Siblings()[k].kids|
      modifies msg`tape, msg`bodyStart, msg`trailerStart, msg`clean, msg`doc
      ensures IsBlock(old(msg.doc), parent.region, path + [k])
      ensures Block(Part(old(msg.doc), parent.region), path + [k]) == old(Siblings())[k].kids
      ensures Good() && Stands() && msg.doc == Edited(old(msg.doc), parent.region, path + [k], n, n + 1, [])
      ensures idx.value < |msg.tape| && msg.tape[idx.value].off == |old(Siblings())[k].kids| - 1
    {
      hide Tidy, ImageOf, At, Part, Block, Removed, CanRemove, Around, Leafy, Depth;
      ghost var r, was := parent.region, msg.doc;
      var g := idx.value;
      var found := InstanceAt(n);
      var q := found.value;
      InsideGroup(was, parent, path, k, tag, n, n + 1, []);
      RemoveInstance(was, r, path, k, n);
      msg.RemoveAt(parent.region, parent.ancestors + [g], q);
      msg.tape := CountSet(msg.tape, g, msg.tape[g].off - 1);
      msg.doc := Edited(was, r, path + [k], n, n + 1, []);
    }

    /** Keep only some of the instances, in one pass. */
    method Retain(keep: seq<bool>)
      requires Good() && (Stands() ==> |keep| == |Siblings()[k].kids|)
      modifies this, msg`tape, msg`bodyStart, msg`trailerStart, msg`clean, msg`doc
      ensures Good()
      ensures msg.doc == if old(Stands()) then Retained(old(msg.doc), parent.region, path, old(k), keep) else old(msg.doc)
    {
      hide Tidy, ImageOf, At, Part, Block, Around, Leafy, Depth, Edited, NodeGone, Kept, Flat, Size;
      var current := Current();
      if current.Some? {
        ghost var r, was, kids := parent.region, msg.doc, Siblings()[k].kids;
        GroupEntryAt(was, r, path, k);
        KidsEnd(was, r, path, k);
        EndAt(was, r, path + [k]);
        KeptSize(kids, keep);
        var g := current.value;
        var end := g + msg.tape[g].Span();
        var kept, count := Sift(msg.tape, g, keep, was, r, path, k);
        var removed: int := end - g - 1 - |kept|;
        if removed == 0 {
        } else if count == 0 {
          Clear();
        } else {
          GroupReplaced(was, parent, path, k, tag, Kept(kids, keep));
          Swap(msg, parent.region, parent.ancestors + [g], g, end, kept, count,
               Edited(was, r, path + [k], 0, |kids|, Kept(kids, keep)));
        }
      }
    }
  }

  /** What a group's instances exchanged come to. */
  lemma {:induction false} GroupReplaced(doc: Doc, place: Place, p: Path, k: nat, tag: nat, kids: seq<Node>)
    requires HasGroup(doc, place, p, k, tag) && AllInstances(kids)
    ensures IsBlock(doc, place.region, p + [k])
    ensures Block(Part(doc, place.region), p + [k]) == Block(Part(doc, place.region), p)[k].kids
    ensures var r, g, at := place.region, At(doc, place.region, p, k), place.ancestors + [At(doc, place.region, p, k)];
            var doc' := Edited(doc, r, p + [k], 0, |Block(Part(doc, r), p)[k].kids|, kids);
            var tape, entries := ImageOf(doc).tape, Flat(kids, Depth(doc, r, p) + 1);
            && g < |tape| && g < g + tape[g].Span() <= |tape|
            && (forall i :: 0 <= i < |at| ==> at[i] < g + 1)
            && var t := Spliced(tape, at, g + 1, g + tape[g].Span(), entries);
               && g < |t|
               && ImageOf(doc') == WithShift(ImageOf(doc), CountSet(t, g, |kids|), r, |entries| - (tape[g].Span() - 1))
               && HasGroup(doc', place, p, k, tag)
               && At(doc', r, p, k) == g
  {
    hide Tidy, ImageOf, At, Part, Block, Leafy, Depth, Edited, CountSet, WithShift, Spliced;
    GroupEntryAt(doc, place.region, p, k);
    InsideGroup(doc, place, p, k, tag, 0, |Block(Part(doc, place.region), p)[k].kids|, kids);
    ReplaceInstances(doc, place.region, p, k, kids);
  }

  /** The entries between a group's and `end` exchanged, and its count set. */
  method Swap(msg: Message, region: Region, ancestors: seq<nat>, g: nat, end: nat, entries: seq<Entry>, count: nat,
              ghost doc: Doc)
    requires g < end <= |msg.tape| && forall i :: 0 <= i < |ancestors| ==> ancestors[i] < g + 1
    modifies msg`tape, msg`bodyStart, msg`trailerStart, msg`clean, msg`doc
    ensures msg.doc == doc
    ensures var t := Spliced(old(msg.tape), ancestors, g + 1, end, entries);
            && g < |t|
            && msg.Im() == WithShift(old(msg.Im()), CountSet(t, g, count), region, |entries| - (end - (g + 1)))
    ensures !msg.clean
  {
    hide GrowAll, Shifted;
    var removed: int := end - g - 1 - |entries|;
    SpliceThenGrow(msg.tape, ancestors, g + 1, end, entries);
    msg.clean := false;
    msg.tape := msg.tape[..g + 1] + entries + msg.tape[end..];
    msg.Grow(ancestors, -removed);
    msg.ShiftBoundaries(region, -removed);
    msg.tape := CountSet(msg.tape, g, count);
    msg.doc := doc;
  }

  /** The entries of the instances of a group to keep, and how many there are. */
  method Sift(tape: seq<Entry>, g: nat, keep: seq<bool>, ghost doc: Doc, ghost r: Region, ghost p: Path, ghost k: nat)
    returns (kept: seq<Entry>, count: nat)
    requires tape == ImageOf(doc).tape && IsGroupAt(doc, r, p, k) && g == At(doc, r, p, k) < |tape|
    requires AllInstances(Block(Part(doc, r), p)[k].kids) && |keep| == |Block(Part(doc, r), p)[k].kids|
    ensures kept == Flat(Kept(Block(Part(doc, r), p)[k].kids, keep), Depth(doc, r, p) + 1)
    ensures count == |Kept(Block(Part(doc, r), p)[k].kids, keep)|
  {
    hide ImageOf, At, Part, Block, Depth, Flat, FlatNode, Kept;
    ghost var kids, d := Block(Part(doc, r), p)[k].kids, Depth(doc, r, p) + 1;
    GroupEntryAt(doc, r, p, k);
    KidsEnd(doc, r, p, k);
    Further(doc, r, p, k);
    NothingKept(kids, keep, d);
    var end, q, i := g + tape[g].Span(), g + 1, 0;
    kept, count := [], 0;
    while q < end
      invariant i <= |kids| && q == At(doc, r, p + [k], i)
      invariant kept == Flat(Kept(kids[..i], keep[..i]), d) && count == |Kept(kids[..i], keep[..i])|
      decreases |kids| - i
    {
      KidsAt(doc, r, p, k, i);
      NodeSlice(doc, r, p + [k], i);
      KeptNext(kids, keep, i, d);
      var next := q + tape[q].Span();
      if keep[i] {
        kept := kept + tape[q..next];
        count := count + 1;
      }
      q := next;
      i := i + 1;
    }
    AtOrdered(doc, r, p + [k], i, |kids|);
    assert kids[..|kids|] == kids && keep[..|kids|] == keep;
  }

  /** A new group, empty, in its place. */
  lemma {:induction false} NewGroup(doc: Doc, place: Place, p: Path, k: nat, tag: nat)
    requires Tidy(doc) && Fits(doc, place, p) && AllLeafy(Block(Part(doc, place.region), p))
    requires k == Position(Block(Part(doc, place.region), p), place.region == Header && p == [], place.members, tag)
    ensures var r, doc' := place.region, InsertedNodes(doc, place.region, p, k, [Node(GroupEntry(tag), [])]);
            && CanInsert(ImageOf(doc).tape, place.ancestors, At(doc, r, p, k))
            && ImageOf(doc') == Inserted(ImageOf(doc), r, place.ancestors, At(doc, r, p, k),
                                         [GroupEntry(tag).(depth := Depth(doc, r, p))])
            && HasGroup(doc', place, p, k, tag)
            && At(doc', r, p, k) == At(doc, r, p, k)
            && Block(Part(doc', r), p)[k].kids == []
  {
    hide ImageOf, At, Inserted, CanInsert, Around, InsertedNodes, Tidy, Part, Leafy, Depth;
    var r, cs := place.region, [Node(GroupEntry(tag), [])];
    EmptyFlat(tag, Depth(doc, r, p));
    WithinHeader(doc, r, p, k);
    InsertIntoBlock(doc, r, p, k, cs);
    TidyInserted(doc, r, p, k, cs);
    NewGroupThere(doc, place, p, k, cs);
  }

  lemma {:induction false} NewGroupThere(doc: Doc, place: Place, p: Path, k: nat, cs: seq<Node>)
    requires Fits(doc, place, p) && k <= |Block(Part(doc, place.region), p)|
    requires AllLeafy(Block(Part(doc, place.region), p))
    requires |cs| == 1 && cs[0].entry.kind.Group?
    ensures var r, doc' := place.region, InsertedNodes(doc, place.region, p, k, cs);
            && Fits(doc', place, p)
            && AllLeafy(Block(Part(doc', r), p))
            && k < |Block(Part(doc', r), p)| && Block(Part(doc', r), p)[k] == cs[0]
            && At(doc', r, p, k) == At(doc, r, p, k)
  {
    hide At, Edited, Around, Part, Size, NodeSize;
    var r := place.region;
    WithinHeader(doc, r, p, k);
    if FitsGap(doc, r, p, k, cs) {
      var cs' := cs + Remaining(NodeSize(doc.header[k]), Size(cs));
      FitsEdited(doc, place, p, k, k + 1, cs');
      EditedStays(doc, r, p, k, k + 1, cs');
      AtEdited(doc, r, p, k, k + 1, cs', k);
    } else {
      FitsEdited(doc, place, p, k, k, cs);
      EditedStays(doc, r, p, k, k, cs);
      AtEdited(doc, r, p, k, k, cs, k);
    }
  }

  /** The new instance's block. */
  lemma {:induction false} AddedThere(doc: Doc, place: Place, p: Path, k: nat, tag: nat, n: nat,
                                      members: Option<Members>)
    requires HasGroup(doc, place, p, k, tag) && n <= |Block(Part(doc, place.region), p)[k].kids|
    ensures IsBlock(doc, place.region, p + [k])
    ensures Block(Part(doc, place.region), p + [k]) == Block(Part(doc, place.region), p)[k].kids
    ensures Fits(InstanceAdded(doc, place.region, p, k, n),
                 InstancePlace(place, members, At(doc, place.region, p, k), At(doc, place.region, p + [k], n)),
                 p + [k] + [n])
  {
    hide Part, Block, Around, At, Tidy, Leafy, Owner;
    var r, doc' := place.region, InstanceAdded(doc, place.region, p, k, n);
    InsideGroup(doc, place, p, k, tag, n, n, [EMPTY_INSTANCE]);
    InstanceFits(doc', place, p, k, tag, n, members);
    AtEdited(doc, r, p + [k], n, n, [EMPTY_INSTANCE], n);
  }

  lemma {:induction false} GroupGone(doc: Doc, place: Place, p: Path, k: nat, tag: nat)
    requires HasGroup(doc, place, p, k, tag)
    ensures var r, doc' := place.region, NodeGone(doc, place.region, p, k);
            && CanRemove(ImageOf(doc).tape, place.ancestors, At(doc, r, p, k))
            && ImageOf(doc') == Removed(ImageOf(doc), r, place.ancestors, At(doc, r, p, k))
            && Tidy(doc') && Fits(doc', place, p) && AllLeafy(Block(Part(doc', r), p))
  {
    hide ImageOf, At, Removed, CanRemove, Around, Edited, Tidy, Part, Block;
    RemoveFromBlock(doc, place.region, p, k);
    TidyEdited(doc, place.region, p, k, k + 1, []);
    FitsEdited(doc, place, p, k, k + 1, []);
    EditedStays(doc, place.region, p, k, k + 1, []);
  }

  /** Removing what is left of a group removes the group. */
  lemma {:induction false} InstanceGoneIs(doc: Doc, place: Place, p: Path, k: nat, tag: nat, n: nat)
    requires HasGroup(doc, place, p, k, tag) && n < |Block(Part(doc, place.region), p)[k].kids|
    ensures IsBlock(doc, place.region, p + [k])
    ensures Block(Part(doc, place.region), p + [k]) == Block(Part(doc, place.region), p)[k].kids
    ensures var r, doc1 := place.region, Edited(doc, place.region, p + [k], n, n + 1, []);
            && IsBlock(doc1, r, p) && k < |Block(Part(doc1, r), p)|
            && NodeGone(doc1, r, p, k) == NodeGone(doc, r, p, k)
            && InstanceGone(doc, r, p, k, n)
               == if |Block(Part(doc, r), p)[k].kids| == 1 then NodeGone(doc1, r, p, k) else doc1
  {
    hide Part, Block, Around, At, Tidy, Leafy, Owner, Edited;
    var r, node := place.region, Block(Part(doc, place.region), p)[k];
    InsideGroup(doc, place, p, k, tag, n, n + 1, []);
    EditedFurther(doc, r, p, k, n, n + 1, []);
    GoneEither(doc, r, p, k, node.(kids := Exchanged(node.kids, n, n + 1, [])));
  }

  lemma {:induction false} GoneEither(doc: Doc, r: Region, p: Path, k: nat, n: Node)
    requires IsBlock(doc, r, p) && k < |Block(Part(doc, r), p)|
    ensures var doc1 := Edited(doc, r, p, k, k + 1, [n]);
            IsBlock(doc1, r, p) && k < |Block(Part(doc1, r), p)| && NodeGone(doc1, r, p, k) == NodeGone(doc, r, p, k)
  {
    var ns, block := Part(doc, r), Block(Part(doc, r), p);
    var block1 := Exchanged(block, k, k + 1, [n]);
    EditedStays(doc, r, p, k, k + 1, [n]);
    SetBlockTwice(ns, p, block1, Exchanged(block, k, k + 1, []));
    assert Exchanged(block1, k, k + 1, []) == Exchanged(block, k, k + 1, []);
  }

  lemma {:induction false} NothingKept(ns: seq<Node>, keep: seq<bool>, depth: nat)
    requires |keep| == |ns|
    ensures Kept(ns[..0], keep[..0]) == [] && Flat([], depth) == []
  {
  }

  /** The ancestors may grow after the splice as well as before it. */
  lemma {:induction false} SpliceThenGrow(tape: seq<Entry>, at: seq<nat>, lo: nat, hi: nat, entries: seq<Entry>)
    requires lo <= hi <= |tape| && forall i :: 0 <= i < |at| ==> at[i] < lo
    ensures GrowAll(tape[..lo] + entries + tape[hi..], at, |entries| - (hi - lo)) == Spliced(tape, at, lo, hi, entries)
  {
    hide GrowAll;
    GrowAppend(tape[..lo], entries + tape[hi..], at, |entries| - (hi - lo));
    assert tape[..lo] + (entries + tape[hi..]) == tape[..lo] + entries + tape[hi..];
  }
}