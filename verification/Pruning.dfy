/**
 * Which groups and instances write anything (message/encode.rs), and what becomes of an instance
 * left with nothing to write (message/edit.rs).
 */
module Pruning {
  import opened Tape
  import opened Document
  import opened Editing
  import opened Lookup
  import opened Messages
  import opened Groups
  import opened Shape

  // ---------------------------------------------------------------------
  // On trees
  // ---------------------------------------------------------------------

  /** Whether a child of a block writes anything. */
  predicate ChildWrites(n: Node) {
    match n.entry.kind
    case Group => Live(n.kids) > 0
    case Gap => false
    case Instance => false
    case _ => true
  }

  /** Whether any of these nodes writes anything. */
  predicate Writes(ns: seq<Node>) {
    ns != [] && (ChildWrites(ns[0]) || Writes(ns[1..]))
  }

  /** How many of these instances write something. */
  function Live(ns: seq<Node>): nat {
    if ns == [] then 0 else (if Writes(ns[0].kids) then 1 else 0) + Live(ns[1..])
  }

  lemma {:induction false} WritesFrom(ns: seq<Node>, m: nat)
    requires m < |ns|
    ensures Writes(ns[m..]) == (ChildWrites(ns[m]) || Writes(ns[m + 1..]))
    ensures Live(ns[m..]) == (if Writes(ns[m].kids) then 1 else 0) + Live(ns[m + 1..])
  {
    assert ns[m..][1..] == ns[m + 1..];
  }

  lemma {:induction false} KidSmaller(n: Node, m: nat)
    requires !n.entry.kind.Gap? && m < |n.kids|
    ensures NodeSize(n.kids[m]) < NodeSize(n)
  {
    FlatAround(n.kids, m, 0);
  }

  // ---------------------------------------------------------------------
  // On the tape
  // ---------------------------------------------------------------------

  /** A group's or an instance's children, one after the other. */
  lemma {:induction false} ChildAt(doc: Doc, r: Region, p: Path, k: nat, m: nat)
    requires Opens(doc, r, p, k) && m < |Block(Part(doc, r), p)[k].kids|
    requires Shaped(Block(Part(doc, r), p)[k].kids, Block(Part(doc, r), p)[k].entry.kind.Group?)
    ensures var kids, q := Block(Part(doc, r), p)[k].kids, p + [k];
            && IsBlock(doc, r, q) && Block(Part(doc, r), q) == kids
            && At(doc, r, q, m) < At(doc, r, p, k + 1) <= |ImageOf(doc).tape|
            && ImageOf(doc).tape[At(doc, r, q, m)].kind == kids[m].entry.kind
            && At(doc, r, q, m + 1) == At(doc, r, q, m) + ImageOf(doc).tape[At(doc, r, q, m)].Span()
            && (kids[m].entry.kind.Group? || kids[m].entry.kind.Instance? ==>
                  && Opens(doc, r, q, m)
                  && Shaped(kids[m].kids, kids[m].entry.kind.Group?)
                  && NodeSize(kids[m]) < NodeSize(Block(Part(doc, r), p)[k]))
            && (kids[m].entry.kind.Instance? <==> Block(Part(doc, r), p)[k].entry.kind.Group?)
  {
    hide Part, Block, At, ImageOf, Shaped, Size, Head;
    var n := Block(Part(doc, r), p)[k];
    Further(doc, r, p, k);
    ChildrenEnd(doc, r, p, k);
    ShapedAt(n.kids, n.entry.kind.Group?, m);
    EntryAt(doc, r, p + [k], m);
    SpanIsSize(n.kids[m], Depth(doc, r, p + [k]));
    HeadKind(n.kids[m], Depth(doc, r, p + [k]));
    AtOrdered(doc, r, p + [k], m, |n.kids|);
    KidSmaller(n, m);
  }

  lemma {:induction false} ChildrenEnd(doc: Doc, r: Region, p: Path, k: nat)
    requires Opens(doc, r, p, k)
    ensures IsBlock(doc, r, p + [k]) && Block(Part(doc, r), p + [k]) == Block(Part(doc, r), p)[k].kids
    ensures At(doc, r, p + [k], 0) == At(doc, r, p, k) + 1
    ensures At(doc, r, p, k) < |ImageOf(doc).tape|
    ensures At(doc, r, p, k) + ImageOf(doc).tape[At(doc, r, p, k)].Span() == At(doc, r, p, k + 1)
    ensures At(doc, r, p + [k], |Block(Part(doc, r), p)[k].kids|) == At(doc, r, p, k + 1) <= |ImageOf(doc).tape|
  {
    hide Part, Block, At, ImageOf, Size, Head;
    var n := Block(Part(doc, r), p)[k];
    Further(doc, r, p, k);
    EndAt(doc, r, p + [k]);
    EntryAt(doc, r, p, k);
    SpanIsSize(n, Depth(doc, r, p));
    OpenSize(n);
  }

  lemma {:induction false} OpenSize(n: Node)
    requires !n.entry.kind.Gap?
    ensures NodeSize(n) == 1 + Size(n.kids)
  {
  }

  /** The instances of a group that hold something that is written. */
  method LiveInstances(tape: seq<Entry>, idx: nat, ghost doc: Doc, ghost r: Region, ghost p: Path, ghost k: nat)
    returns (n: nat)
    requires tape == ImageOf(doc).tape && Opens(doc, r, p, k) && Block(Part(doc, r), p)[k].entry.kind.Group?
    requires idx == At(doc, r, p, k) && Shaped(Block(Part(doc, r), p)[k].kids, true)
    ensures n == Live(Block(Part(doc, r), p)[k].kids)
    decreases NodeSize(Block(Part(doc, r), p)[k])
  {
    hide Part, Block, At, ImageOf, Shaped, Live, Writes, NodeSize;
    ghost var kids, q, m := Block(Part(doc, r), p)[k].kids, p + [k], 0;
    ChildrenEnd(doc, r, p, k);
    var end, i := idx + tape[idx].Span(), idx + 1;
    n := 0;
    assert kids[0..] == kids;
    while i < end
      invariant m <= |kids| && i == At(doc, r, q, m)
      invariant Live(kids) == n + Live(kids[m..])
      decreases |kids| - m
    {
      ChildAt(doc, r, p, k, m);
      WritesFrom(kids, m);
      var writes := InstanceWrites(tape, i, doc, r, q, m);
      if writes {
        n := n + 1;
      }
      i := i + tape[i].Span();
      m := m + 1;
    }
    AtOrdered(doc, r, q, m, |kids|);
    NoneLeft(kids);
  }

  lemma {:induction false} NoneLeft(ns: seq<Node>)
    ensures Live(ns[|ns|..]) == 0 && !Writes(ns[|ns|..])
  {
  }

  /** `Writes`, by walking the instance's children on the tape. */
  method InstanceWrites(tape: seq<Entry>, idx: nat, ghost doc: Doc, ghost r: Region, ghost p: Path, ghost k: nat)
    returns (writes: bool)
    requires tape == ImageOf(doc).tape && Opens(doc, r, p, k) && Block(Part(doc, r), p)[k].entry.kind.Instance?
    requires idx == At(doc, r, p, k) && Shaped(Block(Part(doc, r), p)[k].kids, false)
    ensures writes == Writes(Block(Part(doc, r), p)[k].kids)
    decreases NodeSize(Block(Part(doc, r), p)[k])
  {
    hide Part, Block, At, ImageOf, Shaped, Live, Writes, NodeSize;
    ghost var kids, q, m := Block(Part(doc, r), p)[k].kids, p + [k], 0;
    ChildrenEnd(doc, r, p, k);
    var end, i := idx + tape[idx].Span(), idx + 1;
    assert kids[0..] == kids;
    while i < end
      invariant m <= |kids| && i == At(doc, r, q, m)
      invariant Writes(kids) == Writes(kids[m..])
      decreases |kids| - m
    {
      ChildAt(doc, r, p, k, m);
      WritesFrom(kids, m);
      if tape[i].kind.Group? {
        var live := LiveInstances(tape, i, doc, r, q, m);
        if live > 0 {
          return true;
        }
      } else if !tape[i].kind.Gap? && !tape[i].kind.Instance? {
        return true;
      }
      i := i + tape[i].Span();
      m := m + 1;
    }
    AtOrdered(doc, r, q, m, |kids|);
    NoneLeft(kids);
    return false;
  }

  // ---------------------------------------------------------------------
  // Pruning
  // ---------------------------------------------------------------------

  /** The view of the `n`th instance of the group at `k` of a view's block. */
  ghost predicate IsInstanceView(doc: Doc, view: Place, parent: Place, p: Path, k: nat, tag: nat, n: nat) {
    && HasGroup(doc, parent, p, k, tag)
    && n < |Block(Part(doc, parent.region), p)[k].kids|
    && Shaped(Block(Part(doc, parent.region), p)[k].kids, true)
    && IsBlock(doc, parent.region, p + [k])
    && Block(Part(doc, parent.region), p + [k]) == Block(Part(doc, parent.region), p)[k].kids
    && view.region == parent.region
    && view.holder == InInstance(At(doc, parent.region, p + [k], n))
    && view.ancestors == parent.ancestors + [At(doc, parent.region, p, k)] + [At(doc, parent.region, p + [k], n)]
  }

  /** What a view that is let go leaves behind: `InstanceGone` if the instance would write nothing. */
  function Pruned(doc: Doc, r: Region, p: Path, k: nat, n: nat): Doc
    requires IsGroupAt(doc, r, p, k) && n < |Block(Part(doc, r), p)[k].kids|
  {
    if Writes(Block(Part(doc, r), p)[k].kids[n].kids) then doc else InstanceGone(doc, r, p, k, n)
  }

  /** `Pruned`, on the tape, for a view of an instance; a view of a region changes nothing. */
  method Prune(msg: Message, view: Place, ghost parent: Place, ghost p: Path, ghost k: nat, ghost tag: nat, ghost n: nat)
    requires msg.Valid()
    requires view.holder.InInstance? ==> IsInstanceView(msg.doc, view, parent, p, k, tag, n)
    modifies msg`tape, msg`bodyStart, msg`trailerStart, msg`clean, msg`doc
    ensures msg.Valid()
    ensures msg.doc == if view.holder.InInstance? then Pruned(old(msg.doc), parent.region, p, k, n) else old(msg.doc)
  {
    if view.holder.InRegion? {
      return;
    }
    hide Part, Block, At, ImageOf, Shaped, Writes, Tidy, Edited, NodeGone, InstanceGone, Around, Fits, AllLeafy;
    InstanceOpens(msg.doc, parent.region, p, k, n);
    var writes := InstanceWrites(msg.tape, view.holder.at, msg.doc, parent.region, p + [k], n);
    if !writes {
      DropInstance(msg, view, parent, p, k, tag, n);
    }
  }

  /** `InstanceGone`, on the tape; a group that has lost its only instance is taken out as well. */
  method DropInstance(msg: Message, view: Place, ghost parent: Place, ghost p: Path, ghost k: nat, ghost tag: nat,
                      ghost n: nat)
    requires msg.Valid() && view.holder.InInstance? && IsInstanceView(msg.doc, view, parent, p, k, tag, n)
    modifies msg`tape, msg`bodyStart, msg`trailerStart, msg`clean, msg`doc
    ensures msg.Valid() && msg.doc == InstanceGone(old(msg.doc), parent.region, p, k, n)
  {
    hide Part, Block, At, ImageOf, Shaped, Writes, Tidy, Edited, NodeGone, InstanceGone, Around, Fits, AllLeafy;
    ghost var r, was := parent.region, msg.doc;
    var q := view.holder.at;
    var outer, g := view.ancestors[..|view.ancestors| - 2], view.ancestors[|view.ancestors| - 2];
    assert outer == parent.ancestors;
    InstanceGoneIs(was, parent, p, k, tag, n);
    Uncount(msg, view.region, outer, q, g, parent, p, k, tag, n);
    if msg.tape[g].off == 0 {
      GroupGone(msg.doc, parent, p, k, tag);
      ghost var gone := NodeGone(msg.doc, r, p, k);
      msg.RemoveAt(view.region, outer, g);
      msg.doc := gone;
    }
  }

  lemma {:induction false} InstanceOpens(doc: Doc, r: Region, p: Path, k: nat, n: nat)
    requires IsGroupAt(doc, r, p, k) && n < |Block(Part(doc, r), p)[k].kids|
    requires Shaped(Block(Part(doc, r), p)[k].kids, true)
    ensures Opens(doc, r, p + [k], n) && Block(Part(doc, r), p + [k])[n] == Block(Part(doc, r), p)[k].kids[n]
    ensures Block(Part(doc, r), p)[k].kids[n].entry.kind.Instance?
    ensures Shaped(Block(Part(doc, r), p)[k].kids[n].kids, false)
  {
    Further(doc, r, p, k);
    ShapedAt(Block(Part(doc, r), p)[k].kids, true, n);
  }

  /** Take an instance out, and set its group's count. */
  method Uncount(msg: Message, region: Region, outer: seq<nat>, q: nat, g: nat, ghost parent: Place, ghost p: Path,
                 ghost k: nat, ghost tag: nat, ghost n: nat)
    requires region == parent.region && outer == parent.ancestors
    requires msg.Valid() && HasGroup(msg.doc, parent, p, k, tag) && n < |Block(Part(msg.doc, parent.region), p)[k].kids|
    requires g == At(msg.doc, parent.region, p, k)
    requires IsBlock(msg.doc, parent.region, p + [k])
    requires Block(Part(msg.doc, parent.region), p + [k]) == Block(Part(msg.doc, parent.region), p)[k].kids
    requires q == At(msg.doc, parent.region, p + [k], n)
    modifies msg`tape, msg`bodyStart, msg`trailerStart, msg`clean, msg`doc
    ensures msg.Valid() && HasGroup(msg.doc, parent, p, k, tag) && g == At(msg.doc, parent.region, p, k)
    ensures msg.doc == Edited(old(msg.doc), parent.region, p + [k], n, n + 1, [])
    ensures g < |msg.tape| && msg.tape[g].off == |Block(Part(old(msg.doc), parent.region), p)[k].kids| - 1
  {
    hide Part, Block, At, ImageOf, Tidy, Edited, Around, Fits, AllLeafy, Removed, CanRemove;
    ghost var r, was := parent.region, msg.doc;
    InsideGroup(was, parent, p, k, tag, n, n + 1, []);
    RemoveInstance(was, r, p, k, n);
    AncestorsFit(was, parent, p);
    msg.RemoveAt(region, outer + [g], q);
    msg.tape := CountSet(msg.tape, g, msg.tape[g].off - 1);
    msg.doc := Edited(was, r, p + [k], n, n + 1, []);
  }

  lemma {:induction false} AncestorsFit(doc: Doc, place: Place, p: Path)
    requires Fits(doc, place, p)
    ensures IsBlock(doc, place.region, p) && place.ancestors == Around(doc, place.region, p)
  {
  }
}
